/**
 * The user schema and its all-optional update form.  The name fields of the
 * schema are spelled `firstame` and `lastame`, so the `firstName` and
 * `lastName` keys a request actually sends are not checked by it.
 */
module UserSchemas {
  import opened Text
  import opened Zod

  const FIRST_NAME_MIN_MESSAGE: string := "First name is required"
  const FIRST_NAME_MAX_MESSAGE: string := "First name cannot exceed 255 characters"
  const LAST_NAME_MIN_MESSAGE: string := "Last name is required"
  const LAST_NAME_MAX_MESSAGE: string := "Last name cannot exceed 255 characters"
  const PHONE_DIGITS_MESSAGE: string := "Phone number must contain only digits"
  const PASSWORD_MESSAGE: string := "Password must be at least 8 characters long"
  const EMAIL_MESSAGE: string := "Invalid email"
  const ROLES: seq<string> := ["USER", "ADMIN", "SELLER"]

  function FirstNameChecks(): seq<StringCheck>
  {
    [MinLength(1, FIRST_NAME_MIN_MESSAGE), MaxLength(150, FIRST_NAME_MAX_MESSAGE)]
  }

  function LastNameChecks(): seq<StringCheck>
  {
    [MinLength(1, LAST_NAME_MIN_MESSAGE), MaxLength(150, LAST_NAME_MAX_MESSAGE)]
  }

  /** The refinement on `phone`: `!value || /^\d+$/.test(value)`. */
  predicate DigitsRule(v: Value)
  {
    !Truthy(v) || (v.Str? && AllDigits(v.s))
  }

  /** `phone`: an optional, nullable string refined to digits only. */
  function PhoneField(v: Value): (r: Parsed)
    ensures r.Wf()
  {
    Refine(StringField(v, OptionalNullable, [], NoEmailTest), DigitsRule(v), PHONE_DIGITS_MESSAGE)
  }

  /**
   * The fields of `userSchema` in declaration order; `req` is the presence
   * of the required ones (Required, or Optional after `.partial()`).
   */
  function UserFields(body: Body, req: Presence, isEmail: string -> bool): (fields: seq<Parsed>)
    ensures |fields| == 11
    ensures forall i :: 0 <= i < |fields| ==> fields[i].Wf()
  {
    [ StringField(Get(body, "firstame"), req, FirstNameChecks(), isEmail),
      StringField(Get(body, "lastame"), req, LastNameChecks(), isEmail),
      StringField(Get(body, "email"), Optional, [Email(EMAIL_MESSAGE)], isEmail),
      PhoneField(Get(body, "phone")),
      StringField(Get(body, "address"), OptionalNullable, [], isEmail),
      StringField(Get(body, "googleId"), OptionalNullable, [], isEmail),
      EnumField(Get(body, "role"), Optional, ROLES),
      StringField(Get(body, "avatar"), OptionalNullable, [], isEmail),
      NumberField(Get(body, "otp"), OptionalNullable, []),
      StringField(Get(body, "password"), req, [MinLength(8, PASSWORD_MESSAGE)], isEmail),
      StringField(Get(body, "refreshToken"), OptionalNullable, [], isEmail) ]
  }

  /** `userSchema.safeParse(body)`. */
  function UserParse(body: Body, isEmail: string -> bool): (r: Parsed)
    ensures r.Wf()
    ensures r.Success() ==>
      NameOk(Get(body, "firstame")) && NameOk(Get(body, "lastame")) &&
      PasswordOk(Get(body, "password")) && OptionalFieldsOk(body, isEmail)
  {
    FieldsSucceed(body, Required, isEmail);
    Object(UserFields(body, Required, isEmail))
  }

  /** `updateUserSchema.safeParse(body)`: every field optional. */
  function UpdateUserParse(body: Body, isEmail: string -> bool): (r: Parsed)
    ensures r.Wf()
    ensures UserParse(body, isEmail).Success() ==> r.Success()
  {
    FieldsSucceed(body, Required, isEmail);
    FieldsSucceed(body, Required.Partial(), isEmail);
    Object(UserFields(body, Required.Partial(), isEmail))
  }

  predicate NameOk(v: Value) { v.Str? && 1 <= |v.s| <= 150 }
  predicate EmailOk(v: Value, isEmail: string -> bool) { v.Undefined? || (v.Str? && isEmail(v.s)) }
  predicate PhoneOk(v: Value) { v.Undefined? || v.Null? || (v.Str? && AllDigits(v.s)) }
  predicate NullableStringOk(v: Value) { v.Undefined? || v.Null? || v.Str? }
  predicate RoleOk(v: Value) { v.Undefined? || (v.Str? && v.s in ROLES) }
  predicate OtpOk(v: Value) { v.Undefined? || v.Null? || v.Num? }
  predicate PasswordOk(v: Value) { v.Str? && |v.s| >= 8 }

  /** The fields that are optional in both schemas all hold acceptable values. */
  predicate OptionalFieldsOk(body: Body, isEmail: string -> bool)
  {
    && EmailOk(Get(body, "email"), isEmail)
    && PhoneOk(Get(body, "phone"))
    && NullableStringOk(Get(body, "address"))
    && NullableStringOk(Get(body, "googleId"))
    && RoleOk(Get(body, "role"))
    && NullableStringOk(Get(body, "avatar"))
    && OtpOk(Get(body, "otp"))
    && NullableStringOk(Get(body, "refreshToken"))
  }

  /** A phone passes exactly when it is absent, null, or a string of digits only (the empty string included). */
  lemma PhoneAccepted(v: Value)
    ensures PhoneField(v).Success() <==> PhoneOk(v)
  {
  }

  /** The role must be one of USER, ADMIN and SELLER when given. */
  lemma RoleAccepted(v: Value)
    ensures EnumField(v, Optional, ROLES).Success() <==> RoleOk(v)
  {
  }

  lemma NameChecksPass(s: string, isEmail: string -> bool)
    ensures (forall i :: 0 <= i < |FirstNameChecks()| ==> StringCheckPasses(s, FirstNameChecks()[i], isEmail)) <==> 1 <= |s| <= 150
    ensures (forall i :: 0 <= i < |LastNameChecks()| ==> StringCheckPasses(s, LastNameChecks()[i], isEmail)) <==> 1 <= |s| <= 150
  {
    assert StringCheckPasses(s, FirstNameChecks()[0], isEmail) <==> |s| >= 1;
    assert StringCheckPasses(s, FirstNameChecks()[1], isEmail) <==> |s| <= 150;
    assert StringCheckPasses(s, LastNameChecks()[0], isEmail) <==> |s| >= 1;
    assert StringCheckPasses(s, LastNameChecks()[1], isEmail) <==> |s| <= 150;
  }

  lemma NameFields(body: Body, req: Presence, isEmail: string -> bool)
    ensures StringField(Get(body, "firstame"), req, FirstNameChecks(), isEmail).Success() <==>
      req.Admits(Get(body, "firstame")) || NameOk(Get(body, "firstame"))
    ensures StringField(Get(body, "lastame"), req, LastNameChecks(), isEmail).Success() <==>
      req.Admits(Get(body, "lastame")) || NameOk(Get(body, "lastame"))
  {
    if Get(body, "firstame").Str? { NameChecksPass(Get(body, "firstame").s, isEmail); }
    if Get(body, "lastame").Str? { NameChecksPass(Get(body, "lastame").s, isEmail); }
  }

  lemma PasswordField(v: Value, req: Presence, isEmail: string -> bool)
    ensures StringField(v, req, [MinLength(8, PASSWORD_MESSAGE)], isEmail).Success() <==> req.Admits(v) || PasswordOk(v)
  {
    StringFieldSuccess(v, req, [MinLength(8, PASSWORD_MESSAGE)], isEmail);
  }

  lemma OptionalFields(body: Body, isEmail: string -> bool)
    ensures
      (&& StringField(Get(body, "email"), Optional, [Email(EMAIL_MESSAGE)], isEmail).Success()
       && PhoneField(Get(body, "phone")).Success()
       && StringField(Get(body, "address"), OptionalNullable, [], isEmail).Success()
       && StringField(Get(body, "googleId"), OptionalNullable, [], isEmail).Success()
       && EnumField(Get(body, "role"), Optional, ROLES).Success()
       && StringField(Get(body, "avatar"), OptionalNullable, [], isEmail).Success()
       && NumberField(Get(body, "otp"), OptionalNullable, []).Success()
       && StringField(Get(body, "refreshToken"), OptionalNullable, [], isEmail).Success())
      <==> OptionalFieldsOk(body, isEmail)
  {
    StringFieldSuccess(Get(body, "email"), Optional, [Email(EMAIL_MESSAGE)], isEmail);
    PhoneAccepted(Get(body, "phone"));
    RoleAccepted(Get(body, "role"));
  }

  lemma AllFields(f: seq<Parsed>)
    requires |f| == 11 && forall i :: 0 <= i < |f| ==> f[i].Wf()
    ensures Object(f).Success() <==>
      f[0].Success() && f[1].Success() && f[2].Success() && f[3].Success() && f[4].Success() &&
      f[5].Success() && f[6].Success() && f[7].Success() && f[8].Success() && f[9].Success() &&
      f[10].Success()
  {
  }

  /** Both schemas: the object succeeds exactly when the required fields and the optional ones are acceptable. */
  lemma FieldsSucceed(body: Body, req: Presence, isEmail: string -> bool)
    ensures Object(UserFields(body, req, isEmail)).Success() <==>
      (req.Admits(Get(body, "firstame")) || NameOk(Get(body, "firstame"))) &&
      (req.Admits(Get(body, "lastame")) || NameOk(Get(body, "lastame"))) &&
      (req.Admits(Get(body, "password")) || PasswordOk(Get(body, "password"))) &&
      OptionalFieldsOk(body, isEmail)
  {
    var f := UserFields(body, req, isEmail);
    AllFields(f);
    NameFields(body, req, isEmail);
    PasswordField(Get(body, "password"), req, isEmail);
    OptionalFields(body, isEmail);
    assert f[0] == StringField(Get(body, "firstame"), req, FirstNameChecks(), isEmail);
    assert f[1] == StringField(Get(body, "lastame"), req, LastNameChecks(), isEmail);
    assert f[9] == StringField(Get(body, "password"), req, [MinLength(8, PASSWORD_MESSAGE)], isEmail);
  }

  /** The user schema accepts exactly: both misspelt names of 1 to 150 characters, a password of 8 or more, and acceptable optional fields. */
  lemma UserAccepts(body: Body, isEmail: string -> bool)
    ensures UserParse(body, isEmail).Success() <==>
      NameOk(Get(body, "firstame")) && NameOk(Get(body, "lastame")) && PasswordOk(Get(body, "password")) &&
      OptionalFieldsOk(body, isEmail)
  {
    FieldsSucceed(body, Required, isEmail);
  }

  /** The update schema accepts exactly the bodies whose every present field is acceptable. */
  lemma UpdateUserAccepts(body: Body, isEmail: string -> bool)
    ensures UpdateUserParse(body, isEmail).Success() <==>
      (Get(body, "firstame").Undefined? || NameOk(Get(body, "firstame"))) &&
      (Get(body, "lastame").Undefined? || NameOk(Get(body, "lastame"))) &&
      (Get(body, "password").Undefined? || PasswordOk(Get(body, "password"))) &&
      OptionalFieldsOk(body, isEmail)
  {
    FieldsSucceed(body, Optional, isEmail);
  }

  /** The update schema accepts the empty body; the full schema does not. */
  lemma EmptyUserBody(isEmail: string -> bool)
    ensures UpdateUserParse(map[], isEmail).Success()
    ensures !UserParse(map[], isEmail).Success()
  {
    UserAccepts(map[], isEmail);
    UpdateUserAccepts(map[], isEmail);
  }

  /** Whatever `firstName` and `lastName` hold, neither schema's verdict changes: the schema checks other keys. */
  lemma NameKeysUnchecked(body: Body, first: Value, last: Value, isEmail: string -> bool)
    ensures var b := body["firstName" := first]["lastName" := last];
      && UserParse(b, isEmail).Success() == UserParse(body, isEmail).Success()
      && UpdateUserParse(b, isEmail).Success() == UpdateUserParse(body, isEmail).Success()
  {
    var b := body["firstName" := first]["lastName" := last];
    CheckedKeysKept(body, b, isEmail);
    UserAccepts(body, isEmail);
    UserAccepts(b, isEmail);
    UpdateUserAccepts(body, isEmail);
    UpdateUserAccepts(b, isEmail);
  }

  /** Two bodies that agree on every key the schemas read get the same field verdicts. */
  lemma CheckedKeysKept(body: Body, b: Body, isEmail: string -> bool)
    requires forall k :: k != "firstName" && k != "lastName" ==> Get(b, k) == Get(body, k)
    ensures Get(b, "firstame") == Get(body, "firstame") && Get(b, "lastame") == Get(body, "lastame")
    ensures Get(b, "password") == Get(body, "password")
    ensures OptionalFieldsOk(b, isEmail) == OptionalFieldsOk(body, isEmail)
  {
    assert Get(b, "email") == Get(body, "email") && Get(b, "phone") == Get(body, "phone");
    assert Get(b, "address") == Get(body, "address") && Get(b, "googleId") == Get(body, "googleId");
    assert Get(b, "role") == Get(body, "role") && Get(b, "avatar") == Get(body, "avatar");
    assert Get(b, "otp") == Get(body, "otp") && Get(b, "refreshToken") == Get(body, "refreshToken");
  }

  /** A phone in the international "+880" form is refused: only digits are allowed. */
  lemma PlusPhoneRefused(body: Body, isEmail: string -> bool)
    requires Get(body, "phone").Str? && |Get(body, "phone").s| > 0 && Get(body, "phone").s[0] == '+'
    ensures !UserParse(body, isEmail).Success()
    ensures !UpdateUserParse(body, isEmail).Success()
  {
    UserAccepts(body, isEmail);
    UpdateUserAccepts(body, isEmail);
  }

  /** A name of 151 characters is refused with the message that quotes a limit of 255. */
  lemma LongFirstNameMessage(s: string, isEmail: string -> bool)
    requires |s| == 151
    ensures StringField(Str(s), Required, FirstNameChecks(), isEmail).issues == [FIRST_NAME_MAX_MESSAGE]
  {
    var checks := FirstNameChecks();
    assert checks[1..][1..] == [];
    assert FailedStringChecks(s, checks[1..], isEmail) == [FIRST_NAME_MAX_MESSAGE] + FailedStringChecks(s, [], isEmail);
  }
}
