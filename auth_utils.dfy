/**
 * Token helpers: the configuration guard around signing, the conversion of
 * every verification failure into one plain Error, and the store of
 * blacklisted (logged-out) tokens.  Signing and verifying themselves (HS256
 * JSON Web Tokens) are cryptographic library calls and enter as parameters.
 */
module AuthUtils {
  import opened Api
  import opened Errors

  /** The claims a token carries. */
  datatype Claims = Claims(id: Option<Id>, email: Option<string>, role: Option<string>)

  /** `config.jwt`: a missing value is the empty string. */
  datatype JwtConfig = JwtConfig(secret: string, expiresIn: string)

  /** What `jwt.verify` does with a token: return its claims, or throw a JsonWebTokenError / TokenExpiredError. */
  datatype JwtVerdict = Decoded(claims: Claims) | Rejected(expired: bool, message: string)

  /** A value, or the error thrown instead. */
  datatype Result<T> = Success(value: T) | Failure(error: Thrown)

  const CONFIG_MESSAGE: string := "JWT secret or expiration time is not defined in config"
  const SIGN_MESSAGE: string := "Error generating token"
  const SECRET_MESSAGE: string := "JWT secret is not defined in config"
  const INVALID_TOKEN_MESSAGE: string := "Invalid or expired token"

  /**
   * `generateToken(payload)`.  `sign(payload, secret, expiresIn)` is `jwt.sign`
   * with HS256; None stands for an exception it throws.
   */
  function GenerateToken(payload: Claims, config: JwtConfig,
                         sign: (Claims, string, string) -> Option<string>): (r: Result<string>)
    ensures config.secret == "" || config.expiresIn == "" ==> r == Failure(PlainError(CONFIG_MESSAGE))
    ensures r.Success? <==> config.secret != "" && config.expiresIn != "" && sign(payload, config.secret, config.expiresIn).Some?
    ensures r.Success? ==> r.value == sign(payload, config.secret, config.expiresIn).value
    ensures r.Failure? ==> r.error.Other?
  {
    if config.secret == "" || config.expiresIn == "" then Failure(PlainError(CONFIG_MESSAGE))
    else match sign(payload, config.secret, config.expiresIn)
      case Some(token) => Success(token)
      case None => Failure(PlainError(SIGN_MESSAGE))
  }

  /**
   * `verifyToken(token)`: the claims when `jwt.verify` accepts the token;
   * otherwise a plain Error, never a JsonWebTokenError.
   */
  function VerifyToken(token: string, secret: string, verify: (string, string) -> JwtVerdict): (r: Result<Claims>)
    ensures r.Success? <==> secret != "" && verify(token, secret).Decoded?
    ensures r.Success? ==> r.value == verify(token, secret).claims
    ensures secret != "" && verify(token, secret).Rejected? ==> r == Failure(PlainError(INVALID_TOKEN_MESSAGE))
    ensures r.Failure? ==> r.error.Other? && r.error.name == "Error"
  {
    if secret == "" then Failure(PlainError(SECRET_MESSAGE))
    else match verify(token, secret)
      case Decoded(claims) => Success(claims)
      case Rejected(_, _) => Failure(PlainError(INVALID_TOKEN_MESSAGE))
  }

  /**
   * The evidently intended `verifyToken`: a failed verification rethrows the
   * library's JsonWebTokenError (or TokenExpiredError) so that the auth
   * middleware can answer 401.
   */
  function VerifyTokenIntended(token: string, secret: string, verify: (string, string) -> JwtVerdict): (r: Result<Claims>)
    ensures r.Success? <==> secret != "" && verify(token, secret).Decoded?
    ensures r.Success? ==> r.value == verify(token, secret).claims
    ensures secret != "" && verify(token, secret).Rejected? ==> r.Failure? && r.error.Jwt?
  {
    if secret == "" then Failure(PlainError(SECRET_MESSAGE))
    else match verify(token, secret)
      case Decoded(claims) => Success(claims)
      case Rejected(expired, message) => Failure(Jwt(expired, message))
  }

  /** The two verifications agree whenever the token is accepted. */
  lemma VerificationsAgreeOnSuccess(token: string, secret: string, verify: (string, string) -> JwtVerdict)
    ensures VerifyToken(token, secret, verify).Success? <==> VerifyTokenIntended(token, secret, verify).Success?
    ensures VerifyToken(token, secret, verify).Success? ==>
      VerifyToken(token, secret, verify) == VerifyTokenIntended(token, secret, verify)
  {
  }

  /** The Mongoose error for a blacklist entry with an empty token (`required: true`). */
  function TokenRequired(): Thrown
  {
    MongooseValidation([FieldError("token", "Path `token` is required.")],
      "BlacklistedToken validation failed: token: Path `token` is required.")
  }

  /** The BlacklistedToken collection: a set of tokens, each stored at most once (`unique: true`). */
  class TokenBlacklist {
    var tokens: set<string>

    constructor()
      ensures tokens == {}
    {
      tokens := {};
    }

    /** `blacklistToken(token)`: `BlacklistedToken.create({ token })`. */
    method Add(token: string) returns (error: Option<Thrown>)
      modifies this
      ensures token == "" ==> error == Some(TokenRequired()) && tokens == old(tokens)
      ensures token != "" && token in old(tokens) ==> error == Some(DuplicateKey("token")) && tokens == old(tokens)
      ensures token != "" && token !in old(tokens) ==> error == None && tokens == old(tokens) + {token}
    {
      if token == "" {
        error := Some(TokenRequired());
      } else if token in tokens {
        error := Some(DuplicateKey("token"));
      } else {
        tokens := tokens + {token};
        error := None;
      }
    }

    /** `isTokenBlacklisted(token)`: whether a document with this token exists. */
    method Contains(token: string) returns (found: bool)
      ensures found <==> token in tokens
    {
      found := token in tokens;
    }
  }

  /** After a token is blacklisted it is reported as blacklisted, and no other token's status changes. */
  method BlacklistThenCheck(store: TokenBlacklist, token: string, other: string)
    returns (listed: bool, otherBefore: bool, otherAfter: bool)
    requires token != ""
    modifies store
    ensures listed
    ensures other != token ==> otherBefore == otherAfter
  {
    otherBefore := store.Contains(other);
    var _ := store.Add(token);
    listed := store.Contains(token);
    otherAfter := store.Contains(other);
  }
}
