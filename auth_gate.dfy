/**
 * The `auth(...requiredRoles)` middleware: take the access token from the
 * cookie or from an `Authorization: Bearer <token>` header (section 2.1 of
 * RFC 6750), then run the checks in a fixed order (token present, not
 * blacklisted, verified, user exists, role allowed) and either attach the
 * claims to the request or pass an error on.
 */
module AuthGate {
  import opened Api
  import opened Text
  import opened Errors
  import opened AuthUtils

  const MISSING_MESSAGE: string := "Token is missing"
  const BLACKLISTED_MESSAGE: string := "Token is blacklisted"
  const NO_USER_MESSAGE: string := "User not found"
  const ROLE_MESSAGE: string := "You are not authorized"

  /** `extractToken(req)`: a truthy `accessToken` cookie, else the second space-separated word of a Bearer header. */
  function ExtractToken(cookie: Option<string>, authorization: Option<string>): (r: Option<string>)
    ensures cookie.Some? && cookie.value != "" ==> r == cookie
    ensures !(cookie.Some? && cookie.value != "") ==>
      (r.Some? <==> authorization.Some? && StartsWith(authorization.value, "Bearer "))
  {
    if cookie.Some? && cookie.value != "" then cookie
    else if authorization.Some? && authorization.value != "" && StartsWith(authorization.value, "Bearer ") then
      var parts := Split(authorization.value, ' ');
      assert ' ' in authorization.value by { assert authorization.value[6] == ' '; }
      assert |parts| >= 2 by { JoinSplit(authorization.value, ' '); }
      Some(parts[1])
    else None
  }

  /** A header "Bearer <t>" yields t when t holds no space. */
  lemma BearerToken(t: string)
    requires ' ' !in t
    ensures ExtractToken(None, Some("Bearer " + t)) == Some(t)
  {
    var h := "Bearer " + t;
    assert h == "Bearer" + [' '] + t;
    assert h[..7] == "Bearer ";
    SplitLast("Bearer", t, ' ');
    assert Split("Bearer", ' ') == ["Bearer"];
  }

  /** Only the text between the first and the second space is taken: "Bearer <t> <more>" yields t. */
  lemma BearerTokenFollowed(t: string, more: string)
    requires ' ' !in t
    ensures ExtractToken(None, Some("Bearer " + t + " " + more)) == Some(t)
  {
    var rest := t + [' '] + more;
    var h := "Bearer" + [' '] + rest;
    assert "Bearer " + t + " " + more == h;
    assert h[..7] == "Bearer ";
    assert h[6] == ' ' && h[..6] == "Bearer";
    IndexOfUnique(h, ' ', 6);
    assert h[7..] == rest;
    assert rest[|t|] == ' ' && rest[..|t|] == t;
    IndexOfUnique(rest, ' ', |t|);
    assert Split(rest, ' ')[0] == t;
    assert Split(h, ' ')[1] == Split(rest, ' ')[0];
  }

  /** A bare "Bearer " header gives the empty token, which the gate treats as missing. */
  lemma BareBearer()
    ensures ExtractToken(None, Some("Bearer ")) == Some("")
  {
    BearerToken("");
    assert "Bearer " + "" == "Bearer ";
  }

  /** A header in any other scheme gives no token. */
  lemma OtherScheme(h: string)
    requires !StartsWith(h, "Bearer ")
    ensures ExtractToken(None, Some(h)) == None
  {
  }

  /** The outcome of the checks: the claims to attach, or the error thrown. */
  datatype Decision = Pass(claims: Claims) | Reject(error: Thrown)

  /**
   * The body of the `try` block.  `verifyStep` is the token verification
   * (`verifyToken` with its secret), `users` the ids of the stored users.
   */
  function Check(token: Option<string>, blacklist: set<string>, verifyStep: string -> Result<Claims>,
                 users: set<Id>, requiredRoles: seq<string>): (d: Decision)
    ensures d.Pass? ==> token.Some? && token.value != "" && token.value !in blacklist
    ensures d.Pass? ==> verifyStep(token.value) == Success(d.claims)
    ensures d.Pass? ==> d.claims.id.Some? && d.claims.id.value in users
  {
    if token.None? || token.value == "" then Reject(ApiThrown(ApiError(UNAUTHORIZED, MISSING_MESSAGE)))
    else if token.value in blacklist then Reject(ApiThrown(ApiError(UNAUTHORIZED, BLACKLISTED_MESSAGE)))
    else match verifyStep(token.value)
      case Failure(e) => Reject(e)
      case Success(decoded) =>
        // verifyToken returns claims or throws, so the middleware's `!decoded` 401 is unreachable and has no branch here.
        // User.findById(decoded.id): a malformed id throws a CastError, an absent one finds nothing.
        if decoded.id.Some? && !IsObjectId(decoded.id.value) then Reject(CastToObjectId(decoded.id.value, "User"))
        else if decoded.id.None? || decoded.id.value !in users then Reject(ApiThrown(ApiError(UNAUTHORIZED, NO_USER_MESSAGE)))
        else if |requiredRoles| > 0 && (decoded.role.None? || decoded.role.value == "" || decoded.role.value !in requiredRoles) then
          Reject(ApiThrown(ApiError(FORBIDDEN, ROLE_MESSAGE)))
        else Pass(decoded)
  }

  /**
   * The `catch` block.  TokenExpiredError is a subclass of JsonWebTokenError,
   * so the first test takes both and the "Token expired" branch is never
   * reached; every other error is passed on unchanged.
   */
  function Catch(error: Thrown): (r: Thrown)
    ensures error.Jwt? ==> r == ApiThrown(ApiError(UNAUTHORIZED, "Invalid token"))
    ensures !error.Jwt? ==> r == error
  {
    if error.Jwt? then ApiThrown(ApiError(UNAUTHORIZED, "Invalid token"))
    else error
  }

  /** The request as the middleware sees it; `user` is `req.user`. */
  class Request {
    const cookie: Option<string>
    const authorization: Option<string>
    var user: Option<Claims>

    constructor(cookie: Option<string>, authorization: Option<string>)
      ensures this.cookie == cookie && this.authorization == authorization && user == None
    {
      this.cookie := cookie;
      this.authorization := authorization;
      user := None;
    }
  }

  /**
   * `auth(...requiredRoles)(req, res, next)`: returns the argument given to
   * `next` (None for `next()`), and sets `req.user` exactly when it passes.
   */
  method Authenticate(req: Request, blacklist: TokenBlacklist, verifyStep: string -> Result<Claims>,
                      users: set<Id>, requiredRoles: seq<string>) returns (nextArg: Option<Thrown>)
    modifies req
    ensures var d := Check(ExtractToken(req.cookie, req.authorization), blacklist.tokens, verifyStep, users, requiredRoles);
      && (d.Pass? ==> nextArg == None && req.user == Some(d.claims))
      && (d.Reject? ==> nextArg == Some(Catch(d.error)) && req.user == old(req.user))
  {
    var token := ExtractToken(req.cookie, req.authorization);
    if token.None? || token.value == "" {
      return Some(Catch(ApiThrown(ApiError(UNAUTHORIZED, MISSING_MESSAGE))));
    }
    var isBlacklisted := blacklist.Contains(token.value);
    if isBlacklisted {
      return Some(Catch(ApiThrown(ApiError(UNAUTHORIZED, BLACKLISTED_MESSAGE))));
    }
    var verified := verifyStep(token.value);
    if verified.Failure? {
      return Some(Catch(verified.error));
    }
    var decoded := verified.value;
    if decoded.id.Some? && !IsObjectId(decoded.id.value) {
      return Some(Catch(CastToObjectId(decoded.id.value, "User")));
    }
    if decoded.id.None? || decoded.id.value !in users {
      return Some(Catch(ApiThrown(ApiError(UNAUTHORIZED, NO_USER_MESSAGE))));
    }
    if |requiredRoles| > 0 && (decoded.role.None? || decoded.role.value == "" || decoded.role.value !in requiredRoles) {
      return Some(Catch(ApiThrown(ApiError(FORBIDDEN, ROLE_MESSAGE))));
    }
    req.user := Some(decoded);
    nextArg := None;
  }

  /** No usable token: 401 "Token is missing", whatever else holds. */
  lemma MissingTokenFirst(token: Option<string>, blacklist: set<string>, verifyStep: string -> Result<Claims>,
                          users: set<Id>, requiredRoles: seq<string>)
    requires token.None? || token == Some("")
    ensures Check(token, blacklist, verifyStep, users, requiredRoles) == Reject(ApiThrown(ApiError(UNAUTHORIZED, MISSING_MESSAGE)))
  {
  }

  /** A blacklisted token is refused before it is verified. */
  lemma BlacklistBeforeVerify(token: string, blacklist: set<string>, verifyStep: string -> Result<Claims>,
                              users: set<Id>, requiredRoles: seq<string>)
    requires token != "" && token in blacklist
    ensures Check(Some(token), blacklist, verifyStep, users, requiredRoles) == Reject(ApiThrown(ApiError(UNAUTHORIZED, BLACKLISTED_MESSAGE)))
  {
  }

  /**
   * The role policy: for a verified token of an existing user, the gate
   * passes iff no role is required or the claimed role is a required one;
   * otherwise it answers 403.
   */
  lemma RolePolicy(token: string, blacklist: set<string>, verifyStep: string -> Result<Claims>,
                   users: set<Id>, requiredRoles: seq<string>)
    requires token != "" && token !in blacklist
    requires verifyStep(token).Success?
    requires var c := verifyStep(token).value; c.id.Some? && IsObjectId(c.id.value) && c.id.value in users
    ensures var c := verifyStep(token).value;
      var d := Check(Some(token), blacklist, verifyStep, users, requiredRoles);
      && (d.Pass? <==> requiredRoles == [] || (c.role.Some? && c.role.value != "" && c.role.value in requiredRoles))
      && (d.Reject? ==> d.error == ApiThrown(ApiError(FORBIDDEN, ROLE_MESSAGE)))
  {
  }

  /** With the verification as written, a bad token ends as a 500 from the global error handler. */
  lemma InvalidTokenAnswered500(token: string, secret: string, verify: (string, string) -> JwtVerdict,
                                users: set<Id>, requiredRoles: seq<string>, url: string, env: string,
                                zodHandler: Thrown -> Simplified)
    requires token != "" && secret != "" && verify(token, secret).Rejected?
    ensures var d := Check(Some(token), {}, t => VerifyToken(t, secret, verify), users, requiredRoles);
      && d == Reject(PlainError(INVALID_TOKEN_MESSAGE))
      && GlobalErrorHandler(Catch(d.error), "", url, env, zodHandler).statusCode == INTERNAL_SERVER_ERROR
  {
    var d := Check(Some(token), {}, t => VerifyToken(t, secret, verify), users, requiredRoles);
    assert d.error == PlainError(INVALID_TOKEN_MESSAGE);
    OtherErrorsAre500(d.error, "", url, env, zodHandler);
  }

  /** With the intended verification, the same bad token is answered 401 "Invalid token". */
  lemma InvalidTokenAnswered401Intended(token: string, secret: string, verify: (string, string) -> JwtVerdict,
                                        users: set<Id>, requiredRoles: seq<string>, url: string, env: string,
                                        zodHandler: Thrown -> Simplified)
    requires token != "" && secret != "" && verify(token, secret).Rejected?
    ensures var d := Check(Some(token), {}, t => VerifyTokenIntended(t, secret, verify), users, requiredRoles);
      && d.Reject? && d.error.Jwt?
      && var r := GlobalErrorHandler(Catch(d.error), "", url, env, zodHandler);
         r.statusCode == UNAUTHORIZED && r.message == "Invalid token"
  {
    var d := Check(Some(token), {}, t => VerifyTokenIntended(t, secret, verify), users, requiredRoles);
    assert d.error.Jwt?;
    ApiErrorEnvelope(Some(UNAUTHORIZED), "Invalid token", "", url, env, zodHandler);
  }
}
