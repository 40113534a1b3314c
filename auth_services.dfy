/**
 * `signup` and `login` over the User collection.  Signup validates the
 * body, looks for an existing user by email (or, without an email, by the
 * normalised phone), and stores the new user with a hashed password.  Login
 * finds the user the same way, checks the password, signs a token and stores
 * it as the user's refresh token.
 *
 * Hashing (`bcrypt.hash`), comparing (`bcrypt.compare`) and signing
 * (`jwt.sign`) enter as functions.  `User.findOne` enters as the id it
 * returns (see FoundBy).
 */
module AuthServices {
  import opened Api
  import opened Text
  import opened Zod
  import opened AuthSchemas
  import AuthUtils
  import Users
  import Phone

  const USER_EXISTS_MESSAGE: string := "User already exists"
  const INVALID_CREDENTIALS_MESSAGE: string := "Invalid credentials"
  const TOKENS_FAILED_MESSAGE: string := "Failed to generate authentication tokens"

  /** `phone ? normalizePhoneNumber(phone) : null`. */
  function NormalizedPhone(body: Body): (p: Option<string>)
    ensures p.Some? <==> Truthy(Get(body, "phone")) && Get(body, "phone").Str?
    ensures p.Some? ==> StartsWith(p.value, "+880") && AllDigits(p.value[4..])
  {
    var v := Get(body, "phone");
    if Truthy(v) && v.Str? then Some(Phone.Normalize(v.s)) else None
  }

  predicate EmailTaken(users: map<Id, Users.User>, email: string)
  {
    exists k :: k in users && users[k].email == Some(email)
  }

  predicate PhoneTaken(users: map<Id, Users.User>, phone: string)
  {
    exists k :: k in users && users[k].phone == Some(phone)
  }

  // ---------------------------------------------------------------- signup

  /** What an accepted signup body holds: three strings, an optional email and an optional, nullable phone. */
  predicate SignupShaped(body: Body)
  {
    && Get(body, "firstName").Str? && Get(body, "lastName").Str? && Get(body, "password").Str?
    && (Get(body, "email").Undefined? || Get(body, "email").Str?)
    && (Get(body, "phone").Undefined? || Get(body, "phone").Null? || Get(body, "phone").Str?)
  }

  lemma AcceptedSignupShaped(body: Body, isEmail: string -> bool)
    requires SignupParse(body, isEmail).Success()
    ensures SignupShaped(body) && HasContact(body)
  {
    SignupAccepts(body, isEmail);
    AuthSchemas.PhoneAccepted(Get(body, "phone"));
  }

  /** `isUserExist`: by email when one is given, else by the normalised phone, else no lookup at all. */
  predicate SignupDuplicate(users: map<Id, Users.User>, body: Body)
    requires SignupShaped(body)
    ensures SignupDuplicate(users, body) <==>
      (Truthy(Get(body, "email")) || NormalizedPhone(body).Some?) &&
      exists k :: k in users && Matches(users[k], LoginLookup(body))
  {
    if Truthy(Get(body, "email")) then EmailTaken(users, Get(body, "email").s)
    else NormalizedPhone(body).Some? && PhoneTaken(users, NormalizedPhone(body).value)
  }

  /** The `pre("save")` hook: a truthy phone is normalised once more. */
  function SaveHook(phone: Option<string>): (r: Option<string>)
    ensures Users.Present(phone) ==> Users.Present(r) && StartsWith(r.value, "+880")
    ensures !Users.Present(phone) ==> r == phone
    ensures Users.Present(phone) ==> Phone.Normalize(r.value) == r.value
  {
    if Users.Present(phone) then
      Phone.NormalizeIdempotent(phone.value);
      Some(Phone.Normalize(phone.value))
    else phone
  }

  /**
   * The document `User.create` stores: the parsed fields, the normalised
   * phone over the given one, the hash for the password, the default role;
   * names lower-cased and trimmed by the setters.  None when the `required`
   * validator refuses a name that is blank after trimming.
   */
  function NewUser(body: Body, hash: string -> string): (r: Option<Users.User>)
    requires SignupShaped(body)
    ensures r.Some? <==> Trim(ToLower(Get(body, "firstName").s)) != "" && Trim(ToLower(Get(body, "lastName").s)) != ""
    ensures r.Some? ==> r.value.password == hash(Get(body, "password").s) && r.value.role == "USER"
    ensures r.Some? ==> r.value.refreshToken.None? && r.value.address.None? && r.value.avatar.None?
    ensures r.Some? ==> r.value.email == (if Get(body, "email").Str? then Some(Get(body, "email").s) else None)
  {
    var first := Trim(ToLower(Get(body, "firstName").s));
    var last := Trim(ToLower(Get(body, "lastName").s));
    var email := if Get(body, "email").Str? then Some(Get(body, "email").s) else None;
    var given := if Get(body, "phone").Str? then Some(Get(body, "phone").s) else None;
    var phone := if NormalizedPhone(body).Some? then NormalizedPhone(body) else given;
    if first == "" || last == "" then None
    else Some(Users.User(first, last, email, SaveHook(phone), None, "USER", None, hash(Get(body, "password").s), None))
  }

  /** The hook does not change a phone signup already normalised: a new user's phone is the normalised phone sent. */
  lemma NewUserPhone(body: Body, hash: string -> string)
    requires SignupShaped(body) && NewUser(body, hash).Some?
    ensures Truthy(Get(body, "phone")) ==> NewUser(body, hash).value.phone == Some(Phone.Normalize(Get(body, "phone").s))
    ensures Get(body, "phone") == Str("") ==> NewUser(body, hash).value.phone == Some("")
    ensures !Get(body, "phone").Str? ==> NewUser(body, hash).value.phone == None
  {
    if Truthy(Get(body, "phone")) {
      Phone.NormalizeIdempotent(Get(body, "phone").s);
    }
  }

  /** The steps of `signup` after the body is accepted; `freshId` is the ObjectId of the new document. */
  function SignupChecked(users: map<Id, Users.User>, body: Body, hash: string -> string, freshId: Id): (r: Outcome<Users.User>)
    requires SignupShaped(body)
    ensures r.Ok? ==> NewUser(body, hash) == Some(r.value) && !Users.Clash(users, freshId, r.value)
    ensures r.IsFailWith(CONFLICT) <==> SignupDuplicate(users, body)
    ensures r.Fail? && !SignupDuplicate(users, body) ==> r == Unexpected()
  {
    if SignupDuplicate(users, body) then Fail(ApiError(CONFLICT, USER_EXISTS_MESSAGE))
    else match NewUser(body, hash)
      case None => Unexpected()
      case Some(u) => if Users.Clash(users, freshId, u) then Unexpected() else Ok(u)
  }

  /** `signup(req)`: the stored user (returned without its password). */
  function SignupOutcome(users: map<Id, Users.User>, body: Body, isEmail: string -> bool, hash: string -> string, freshId: Id): (r: Outcome<Users.User>)
    ensures !SignupParse(body, isEmail).Success() ==> r == Fail(ApiError(BAD_REQUEST, Join(SignupParse(body, isEmail).issues, ',')))
    ensures SignupParse(body, isEmail).Success() ==> SignupShaped(body) && r == SignupChecked(users, body, hash, freshId)
  {
    var parsed := SignupParse(body, isEmail);
    if !parsed.Success() then Fail(ApiError(BAD_REQUEST, Join(parsed.issues, ',')))
    else
      AcceptedSignupShaped(body, isEmail);
      SignupChecked(users, body, hash, freshId)
  }

  /**
   * 409 exactly when the lookup finds a user: by email when an email is
   * given; only without one, by the normalised phone.
   */
  lemma SignupConflict(users: map<Id, Users.User>, body: Body, isEmail: string -> bool, hash: string -> string, freshId: Id)
    requires SignupParse(body, isEmail).Success()
    ensures Truthy(Get(body, "email")) ==>
      (SignupOutcome(users, body, isEmail, hash, freshId).IsFailWith(CONFLICT) <==> EmailTaken(users, Get(body, "email").s))
    ensures !Truthy(Get(body, "email")) ==> (Get(body, "phone").Str? &&
      (SignupOutcome(users, body, isEmail, hash, freshId).IsFailWith(CONFLICT) <==>
        PhoneTaken(users, Phone.Normalize(Get(body, "phone").s))))
  {
    AcceptedSignupShaped(body, isEmail);
  }

  /**
   * With an email, the phone is not looked up: a phone another user holds
   * makes the insert break the unique index, answered with 500, not 409.
   */
  lemma TakenPhoneWithEmailIs500(users: map<Id, Users.User>, body: Body, isEmail: string -> bool, hash: string -> string, freshId: Id)
    requires freshId !in users
    requires SignupParse(body, isEmail).Success() && Truthy(Get(body, "email"))
    requires Get(body, "email").Str? && !EmailTaken(users, Get(body, "email").s)
    requires Truthy(Get(body, "phone")) && Get(body, "phone").Str? && PhoneTaken(users, Phone.Normalize(Get(body, "phone").s))
    ensures SignupOutcome(users, body, isEmail, hash, freshId) == Unexpected()
  {
    AcceptedSignupShaped(body, isEmail);
    if NewUser(body, hash).Some? {
      NewUserPhone(body, hash);
      var k :| k in users && users[k].phone == Some(Phone.Normalize(Get(body, "phone").s));
      assert k != freshId;
    }
  }

  /** Names of spaces pass the schema (which asks only for one character) but are blank once trimmed: 500. */
  lemma BlankNameIs500(users: map<Id, Users.User>, body: Body, isEmail: string -> bool, hash: string -> string, freshId: Id)
    requires SignupParse(body, isEmail).Success() && SignupShaped(body) && !SignupDuplicate(users, body)
    requires Get(body, "firstName") == Str(" ")
    ensures SignupOutcome(users, body, isEmail, hash, freshId) == Unexpected()
  {
    AcceptedSignupShaped(body, isEmail);
    assert Trim(ToLower(" ")) == "";
  }

  /**
   * A new user holds the hash of the password, the role USER and the
   * normalised phone, and storing it keeps email and phone unique.
   */
  lemma SignupStores(users: map<Id, Users.User>, body: Body, isEmail: string -> bool, hash: string -> string, freshId: Id)
    requires Users.UniqueContacts(users) && freshId !in users
    requires SignupOutcome(users, body, isEmail, hash, freshId).Ok?
    ensures var u := SignupOutcome(users, body, isEmail, hash, freshId).value;
      && u.password == hash(Get(body, "password").s) && u.role == "USER"
      && (Truthy(Get(body, "phone")) ==> u.phone == Some(Phone.Normalize(Get(body, "phone").s)))
      && Users.UniqueContacts(users[freshId := u])
  {
    AcceptedSignupShaped(body, isEmail);
    NewUserPhone(body, hash);
    Users.StoreWithoutClash(users, freshId, SignupOutcome(users, body, isEmail, hash, freshId).value);
  }

  // ---------------------------------------------------------------- login

  /** The filter of `User.findOne`: `{ email }` or `{ phone: normalizedPhone }`. */
  datatype Lookup = ByEmail(email: string) | ByPhone(phone: Option<string>)

  function LoginLookup(body: Body): (q: Lookup)
    ensures q.ByEmail? <==> Truthy(Get(body, "email")) && Get(body, "email").Str?
    ensures q.ByPhone? && q.phone.Some? ==> Phone.Normalize(q.phone.value) == q.phone.value
  {
    if Truthy(Get(body, "email")) && Get(body, "email").Str? then ByEmail(Get(body, "email").s)
    else
      var p := NormalizedPhone(body);
      assert p.Some? ==> Phone.Normalize(p.value) == p.value by {
        if p.Some? { Phone.NormalizeIdempotent(Get(body, "phone").s); }
      }
      ByPhone(p)
  }

  predicate Matches(u: Users.User, q: Lookup)
  {
    match q
    case ByEmail(e) => u.email == Some(e)
    case ByPhone(p) => u.phone == p
  }

  /** `found` is what `findOne(q)` may return: a matching user, or None when no user matches. */
  predicate FoundBy(users: map<Id, Users.User>, q: Lookup, found: Option<Id>)
  {
    && (found.None? <==> forall k :: k in users ==> !Matches(users[k], q))
    && (found.Some? ==> found.value in users && Matches(users[found.value], q))
  }

  /** An accepted login body is looked up by its email, or else by its normalised phone, never by a null phone. */
  lemma AcceptedLoginLookup(body: Body, isEmail: string -> bool)
    requires LoginParse(body, isEmail).Success()
    ensures Truthy(Get(body, "email")) ==> Get(body, "email").Str? && LoginLookup(body) == ByEmail(Get(body, "email").s)
    ensures !Truthy(Get(body, "email")) ==> (Get(body, "phone").Str? &&
      LoginLookup(body) == ByPhone(Some(Phone.Normalize(Get(body, "phone").s))))
  {
    LoginAccepts(body, isEmail);
    AuthSchemas.PhoneAccepted(Get(body, "phone"));
  }

  /** With unique emails and phones, the user an accepted login finds is determined. */
  lemma FoundUnique(users: map<Id, Users.User>, body: Body, isEmail: string -> bool, f1: Option<Id>, f2: Option<Id>)
    requires Users.UniqueContacts(users) && LoginParse(body, isEmail).Success()
    requires FoundBy(users, LoginLookup(body), f1) && FoundBy(users, LoginLookup(body), f2)
    ensures f1 == f2
  {
    AcceptedLoginLookup(body, isEmail);
  }

  /** The logged-in user as stored afterwards, with the access token. */
  datatype Session = Session(id: Id, user: Users.User, accessToken: string)

  /**
   * `login(req)`: `found` is the result of the lookup, `compare` is
   * `bcrypt.compare`, and `sign` the signer behind `generateToken`.  Both
   * tokens are signed from the same claims, so one result stands for both.
   */
  function LoginOutcome(users: map<Id, Users.User>, body: Body, isEmail: string -> bool, found: Option<Id>,
                        compare: (string, string) -> bool, config: AuthUtils.JwtConfig,
                        sign: (AuthUtils.Claims, string, string) -> Option<string>): (r: Outcome<Session>)
    requires FoundBy(users, LoginLookup(body), found)
    ensures !LoginParse(body, isEmail).Success() ==> r == Fail(ApiError(BAD_REQUEST, Join(LoginParse(body, isEmail).issues, ',')))
    ensures r.Ok? ==> found == Some(r.value.id) && Get(body, "password").Str? && compare(Get(body, "password").s, users[r.value.id].password)
    ensures r.Ok? ==> r.value.user == users[r.value.id].(refreshToken := Some(r.value.accessToken))
    ensures r.Ok? ==> (AuthUtils.GenerateToken(AuthUtils.Claims(Some(r.value.id), users[r.value.id].email, Some(users[r.value.id].role)), config, sign)
      == AuthUtils.Success(r.value.accessToken))
  {
    var parsed := LoginParse(body, isEmail);
    if !parsed.Success() then Fail(ApiError(BAD_REQUEST, Join(parsed.issues, ',')))
    else if found.None? then Fail(ApiError(UNAUTHORIZED, INVALID_CREDENTIALS_MESSAGE))
    else
      LoginAccepts(body, isEmail);
      var id := found.value;
      var u := users[id];
      if !compare(Get(body, "password").s, u.password) then Fail(ApiError(UNAUTHORIZED, INVALID_CREDENTIALS_MESSAGE))
      else match AuthUtils.GenerateToken(AuthUtils.Claims(Some(id), u.email, Some(u.role)), config, sign)
        case Failure(_) => Fail(ApiError(INTERNAL_SERVER_ERROR, TOKENS_FAILED_MESSAGE))
        case Success(token) => Ok(Session(id, u.(refreshToken := Some(token)), token))
  }

  /** An unknown user and a wrong password are answered alike: 401 "Invalid credentials". */
  lemma CredentialsIndistinguishable(users: map<Id, Users.User>, body: Body, isEmail: string -> bool, found: Option<Id>,
                                     compare: (string, string) -> bool, config: AuthUtils.JwtConfig,
                                     sign: (AuthUtils.Claims, string, string) -> Option<string>)
    requires FoundBy(users, LoginLookup(body), found) && LoginParse(body, isEmail).Success()
    ensures Get(body, "password").Str?
    ensures (found.None? || !compare(Get(body, "password").s, users[found.value].password)) <==>
      LoginOutcome(users, body, isEmail, found, compare, config, sign) == Fail(ApiError(UNAUTHORIZED, INVALID_CREDENTIALS_MESSAGE))
  {
    LoginAccepts(body, isEmail);
  }

  /** A missing secret or expiry in the configuration fails a login that got past the password with 500. */
  lemma UnconfiguredLoginIs500(users: map<Id, Users.User>, body: Body, isEmail: string -> bool, found: Option<Id>,
                               compare: (string, string) -> bool, config: AuthUtils.JwtConfig,
                               sign: (AuthUtils.Claims, string, string) -> Option<string>)
    requires FoundBy(users, LoginLookup(body), found) && LoginParse(body, isEmail).Success() && found.Some?
    requires config.secret == "" || config.expiresIn == ""
    requires Get(body, "password").Str? && compare(Get(body, "password").s, users[found.value].password)
    ensures LoginOutcome(users, body, isEmail, found, compare, config, sign) == Fail(ApiError(INTERNAL_SERVER_ERROR, TOKENS_FAILED_MESSAGE))
  {
  }

  /** Storing the refresh token keeps email and phone unique. */
  lemma LoginKeepsContacts(users: map<Id, Users.User>, body: Body, isEmail: string -> bool, found: Option<Id>,
                           compare: (string, string) -> bool, config: AuthUtils.JwtConfig,
                           sign: (AuthUtils.Claims, string, string) -> Option<string>)
    requires Users.UniqueContacts(users) && FoundBy(users, LoginLookup(body), found)
    requires LoginOutcome(users, body, isEmail, found, compare, config, sign).Ok?
    ensures var s := LoginOutcome(users, body, isEmail, found, compare, config, sign).value;
      Users.UniqueContacts(users[s.id := s.user])
  {
    var s := LoginOutcome(users, body, isEmail, found, compare, config, sign).value;
    assert s.user.email == users[s.id].email && s.user.phone == users[s.id].phone;
    Users.StoreWithoutClash(users, s.id, s.user);
  }

  // ---------------------------------------------------------------- the returned user

  /** The `user` object login returns. */
  datatype LoginUser = LoginUser(
    id: Id,
    firstName: string,
    lastName: string,
    email: Option<string>,
    phone: Option<string>,
    role: string,
    avatar: Option<string>,
    address: Option<string>)

  /**
   * `sanitizedUser` as written: the second spread writes the address under
   * the key `avatar`, so a set address replaces the avatar and no `address`
   * key is ever returned.
   */
  function SanitizedAsWritten(id: Id, u: Users.User): (s: LoginUser)
    ensures s.address.None?
  {
    var avatar := if Users.Present(u.address) then u.address else if Users.Present(u.avatar) then u.avatar else None;
    LoginUser(id, u.firstName, u.lastName, u.email, u.phone, u.role, avatar, None)
  }

  /** A user with both an avatar and a different address is returned with the address as its avatar. */
  lemma AddressShadowsAvatar(id: Id, u: Users.User)
    requires Users.Present(u.avatar) && Users.Present(u.address) && u.avatar != u.address
    ensures SanitizedAsWritten(id, u).avatar == u.address
    ensures SanitizedAsWritten(id, u).avatar != u.avatar
  {
  }

  /** `sanitizedUser` as evidently intended: avatar and address each under its own key, when set. */
  function Sanitized(id: Id, u: Users.User): (s: LoginUser)
    ensures s.avatar == (if Users.Present(u.avatar) then u.avatar else None)
    ensures s.address == (if Users.Present(u.address) then u.address else None)
    ensures s.id == id && s.firstName == u.firstName && s.lastName == u.lastName && s.email == u.email && s.phone == u.phone && s.role == u.role
  {
    LoginUser(id, u.firstName, u.lastName, u.email, u.phone, u.role,
      if Users.Present(u.avatar) then u.avatar else None,
      if Users.Present(u.address) then u.address else None)
  }

  /** The two agree, apart from the address key, on every user without an address. */
  lemma SanitizedAgreeWithoutAddress(id: Id, u: Users.User)
    requires !Users.Present(u.address)
    ensures SanitizedAsWritten(id, u) == Sanitized(id, u).(address := None)
  {
  }

  /** What login answers: the user object and the access token. */
  datatype LoginReply = LoginReply(user: LoginUser, accessToken: string)

  // ---------------------------------------------------------------- against the collection

  /** `signup(req)` against the collection; `freshId` is the ObjectId MongoDB gives the new user. */
  method Signup(store: Users.UserStore, body: Body, isEmail: string -> bool, hash: string -> string, freshId: Id)
    returns (r: Outcome<Users.Profile>)
    requires store.Valid() && freshId !in store.users
    modifies store
    ensures var o := SignupOutcome(old(store.users), body, isEmail, hash, freshId);
      && (o.Ok? ==> r == Ok(Users.ProfileOf(o.value)) && store.users == old(store.users)[freshId := o.value])
      && (o.Fail? ==> r == Fail(o.error) && store.users == old(store.users))
    ensures store.Valid()
  {
    var o := SignupDecision(store.users, body, isEmail, hash, freshId);
    if o.Fail? {
      return Fail(o.error);
    }
    AcceptedSignupShaped(body, isEmail);
    Users.StoreWithoutClash(store.users, freshId, o.value);
    store.users := store.users[freshId := o.value];
    r := Ok(Users.ProfileOf(o.value));
  }

  /** The checks of `signup` and the user it creates; the collection is only read. */
  method SignupDecision(users: map<Id, Users.User>, body: Body, isEmail: string -> bool, hash: string -> string, freshId: Id)
    returns (r: Outcome<Users.User>)
    ensures r == SignupOutcome(users, body, isEmail, hash, freshId)
  {
    var parsed := SignupParse(body, isEmail);
    if !parsed.Success() {
      return Fail(ApiError(BAD_REQUEST, Join(parsed.issues, ',')));
    }
    AcceptedSignupShaped(body, isEmail);
    r := SignupAccepted(users, body, hash, freshId);
  }

  /** The steps of `signup` after the body is accepted: the lookup, then the user created. */
  method SignupAccepted(users: map<Id, Users.User>, body: Body, hash: string -> string, freshId: Id)
    returns (r: Outcome<Users.User>)
    requires SignupShaped(body)
    ensures r == SignupChecked(users, body, hash, freshId)
  {
    var email := Get(body, "email");
    var normalizedPhone := NormalizedPhone(body);
    var exists_ := false;
    if Truthy(email) {
      exists_ := exists k | k in users :: users[k].email == Some(email.s);
    } else if normalizedPhone.Some? {
      exists_ := exists k | k in users :: users[k].phone == normalizedPhone;
    }
    assert exists_ == SignupDuplicate(users, body);
    if exists_ {
      return Fail(ApiError(CONFLICT, USER_EXISTS_MESSAGE));
    }
    var created := NewUser(body, hash);
    if created.None? {
      return Unexpected();
    }
    var u := created.value;
    var clash := exists k | k in users :: (k != freshId &&
      ((u.email.Some? && users[k].email == u.email) || (u.phone.Some? && users[k].phone == u.phone)));
    assert clash == Users.Clash(users, freshId, u);
    if clash {
      return Unexpected();
    }
    r := Ok(u);
  }

  /**
   * `login(req)` against the collection, answering with the user object as
   * written: a set address appears under the key `avatar`.
   */
  method Login(store: Users.UserStore, body: Body, isEmail: string -> bool,
               compare: (string, string) -> bool, config: AuthUtils.JwtConfig,
               sign: (AuthUtils.Claims, string, string) -> Option<string>)
    returns (r: Outcome<LoginReply>)
    requires store.Valid()
    modifies store
    ensures exists found :: (FoundBy(old(store.users), LoginLookup(body), found) &&
      var o := LoginOutcome(old(store.users), body, isEmail, found, compare, config, sign);
      && (o.Ok? ==> r == Ok(LoginReply(SanitizedAsWritten(o.value.id, o.value.user), o.value.accessToken))
                    && store.users == old(store.users)[o.value.id := o.value.user])
      && (o.Fail? ==> r == Fail(o.error) && store.users == old(store.users)))
    ensures store.Valid()
  {
    var q := LoginLookup(body);
    var found: Option<Id> := None;
    if exists k :: k in store.users && Matches(store.users[k], q) {
      var k :| k in store.users && Matches(store.users[k], q);
      found := Some(k);
    }
    assert FoundBy(store.users, q, found);
    var o := LoginOutcome(store.users, body, isEmail, found, compare, config, sign);
    if o.Fail? {
      return Fail(o.error);
    }
    LoginKeepsContacts(store.users, body, isEmail, found, compare, config, sign);
    store.users := store.users[o.value.id := o.value.user];
    r := Ok(LoginReply(SanitizedAsWritten(o.value.id, o.value.user), o.value.accessToken));
  }
}
