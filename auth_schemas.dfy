/**
 * The request schemas of signup and login: a Bangladeshi phone pattern, a
 * password of at least eight characters, and the cross-field rule that an
 * email or a phone must be given.
 */
module AuthSchemas {
  import opened Text
  import opened Zod
  import opened Phone

  const PHONE_MESSAGE: string := "Invalid Bangladeshi phone number."
  const CONTACT_MESSAGE: string := "Either email or phone must be provided"
  const PASSWORD_LENGTH_MESSAGE: string := "Password must be at least 8 characters long"

  /** The refinement on `phone`: a falsy value or a match of the Bangladeshi pattern. */
  predicate PhoneRule(v: Value)
  {
    !Truthy(v) || (v.Str? && IsBdPhone(v.s))
  }

  /** `phone`: an optional, nullable string refined by the Bangladeshi pattern. */
  function PhoneField(v: Value): (r: Parsed)
    ensures r.Wf()
  {
    Refine(StringField(v, OptionalNullable, [], _ => true), PhoneRule(v), PHONE_MESSAGE)
  }

  /** The phone field succeeds exactly for null, undefined, "" and strings the pattern accepts. */
  lemma PhoneAccepted(v: Value)
    ensures PhoneField(v).Success() <==> v.Undefined? || v.Null? || (v.Str? && (v.s == "" || IsBdPhone(v.s)))
  {
  }

  /** A non-empty accepted phone is 11, 13 or 14 characters long. */
  lemma AcceptedPhoneLength(v: Value)
    requires PhoneField(v).Success() && v.Str? && v.s != ""
    ensures |v.s| == 11 || |v.s| == 13 || |v.s| == 14
  {
    AcceptedLengths(v.s);
  }

  /** The fields of `signupDataSchema`, in declaration order. */
  function SignupFields(body: Body, isEmail: string -> bool): (fields: seq<Parsed>)
    ensures |fields| == 5
    ensures forall i :: 0 <= i < |fields| ==> fields[i].Wf()
  {
    [ StringField(Get(body, "firstName"), Required, [MinLength(1, "First name is required")], isEmail),
      StringField(Get(body, "lastName"), Required, [MinLength(1, "Last name is required")], isEmail),
      StringField(Get(body, "email"), Optional, [Email("Invalid email address")], isEmail),
      PhoneField(Get(body, "phone")),
      StringField(Get(body, "password"), Required,
        [MinLength(8, PASSWORD_LENGTH_MESSAGE), MinLength(1, "Password is required")], isEmail) ]
  }

  /** The cross-field refinement: `data.email || data.phone`. */
  predicate HasContact(body: Body)
    ensures Get(body, "email").Str? && Get(body, "email").s != "" ==> HasContact(body)
    ensures Get(body, "phone").Str? && Get(body, "phone").s != "" ==> HasContact(body)
    ensures ((Get(body, "email") == Str("") || Get(body, "email").Undefined?) &&
             (Get(body, "phone") == Str("") || Get(body, "phone").Undefined? || Get(body, "phone").Null?)) ==> !HasContact(body)
  {
    Truthy(Get(body, "email")) || Truthy(Get(body, "phone"))
  }

  /** `signupDataSchema.safeParse(body)`: the issues it reports, in order. */
  function SignupParse(body: Body, isEmail: string -> bool): (r: Parsed)
    ensures r.Wf()
  {
    Refine(Object(SignupFields(body, isEmail)), HasContact(body), CONTACT_MESSAGE)
  }

  /** The fields of `loginDataSchema`, in declaration order. */
  function LoginFields(body: Body, isEmail: string -> bool): (fields: seq<Parsed>)
    ensures |fields| == 3
    ensures forall i :: 0 <= i < |fields| ==> fields[i].Wf()
  {
    [ StringField(Get(body, "email"), Optional, [Email("Invalid email address")], isEmail),
      PhoneField(Get(body, "phone")),
      StringField(Get(body, "password"), Required, [MinLength(8, PASSWORD_LENGTH_MESSAGE)], isEmail) ]
  }

  /** `loginDataSchema.safeParse(body)`. */
  function LoginParse(body: Body, isEmail: string -> bool): (r: Parsed)
    ensures r.Wf()
  {
    Refine(Object(LoginFields(body, isEmail)), HasContact(body), CONTACT_MESSAGE)
  }

  /** A required string of at least n characters. */
  predicate StringOfAtLeast(v: Value, n: nat)
  {
    v.Str? && |v.s| >= n
  }

  /** An absent or well-formed email. */
  predicate EmailOk(v: Value, isEmail: string -> bool)
  {
    v.Undefined? || (v.Str? && isEmail(v.s))
  }

  /** Signup succeeds exactly when every field rule and the contact rule hold. */
  lemma SignupAccepts(body: Body, isEmail: string -> bool)
    ensures SignupParse(body, isEmail).Success() <==>
      && StringOfAtLeast(Get(body, "firstName"), 1)
      && StringOfAtLeast(Get(body, "lastName"), 1)
      && EmailOk(Get(body, "email"), isEmail)
      && PhoneField(Get(body, "phone")).Success()
      && StringOfAtLeast(Get(body, "password"), 8)
      && HasContact(body)
  {
    var fields := SignupFields(body, isEmail);
    PasswordField(Get(body, "password"), isEmail);
    assert fields[0].Success() <==> StringOfAtLeast(Get(body, "firstName"), 1);
    assert fields[1].Success() <==> StringOfAtLeast(Get(body, "lastName"), 1);
    assert fields[2].Success() <==> EmailOk(Get(body, "email"), isEmail);
    assert fields[4].Success() <==> StringOfAtLeast(Get(body, "password"), 8);
    assert (forall i :: 0 <= i < |fields| ==> fields[i].Success()) <==>
      fields[0].Success() && fields[1].Success() && fields[2].Success() && fields[3].Success() && fields[4].Success();
    RefineSuccess(Object(fields), HasContact(body), CONTACT_MESSAGE);
  }

  /** The signup password field: both its checks pass exactly for eight characters or more. */
  lemma PasswordField(v: Value, isEmail: string -> bool)
    ensures StringField(v, Required, [MinLength(8, PASSWORD_LENGTH_MESSAGE), MinLength(1, "Password is required")], isEmail).Success()
      <==> StringOfAtLeast(v, 8)
  {
    StringFieldSuccess(v, Required, [MinLength(8, PASSWORD_LENGTH_MESSAGE), MinLength(1, "Password is required")], isEmail);
  }

  /** Login succeeds exactly when every field rule and the contact rule hold. */
  lemma LoginAccepts(body: Body, isEmail: string -> bool)
    ensures LoginParse(body, isEmail).Success() <==>
      && EmailOk(Get(body, "email"), isEmail)
      && PhoneField(Get(body, "phone")).Success()
      && StringOfAtLeast(Get(body, "password"), 8)
      && HasContact(body)
  {
    var fields := LoginFields(body, isEmail);
    assert fields[0].Success() <==> EmailOk(Get(body, "email"), isEmail);
    assert fields[2].Success() <==> StringOfAtLeast(Get(body, "password"), 8);
    assert (forall i :: 0 <= i < |fields| ==> fields[i].Success()) <==>
      fields[0].Success() && fields[1].Success() && fields[2].Success();
    RefineSuccess(Object(fields), HasContact(body), CONTACT_MESSAGE);
  }

  /** Neither an email nor a phone: both schemas fail. */
  lemma NoContactRejected(body: Body, isEmail: string -> bool)
    requires !HasContact(body)
    ensures !SignupParse(body, isEmail).Success()
    ensures !LoginParse(body, isEmail).Success()
  {
    SignupAccepts(body, isEmail);
    LoginAccepts(body, isEmail);
  }

  /** A password shorter than eight characters fails both schemas. */
  lemma ShortPasswordRejected(body: Body, isEmail: string -> bool)
    requires Get(body, "password").Str? && |Get(body, "password").s| < 8
    ensures !SignupParse(body, isEmail).Success()
    ensures !LoginParse(body, isEmail).Success()
  {
    SignupAccepts(body, isEmail);
    LoginAccepts(body, isEmail);
  }

  /** Signup rejects an empty first or last name. */
  lemma EmptyNameRejected(body: Body, isEmail: string -> bool)
    requires Get(body, "firstName") == Str("") || Get(body, "lastName") == Str("")
    ensures !SignupParse(body, isEmail).Success()
  {
    SignupAccepts(body, isEmail);
  }

  /**
   * With only the contact rule broken, the issue list is that one message,
   * so the services answer 400 with exactly it.
   */
  lemma OnlyContactMessage(body: Body, isEmail: string -> bool)
    requires forall i :: 0 <= i < 5 ==> SignupFields(body, isEmail)[i].Success()
    requires !HasContact(body)
    ensures SignupParse(body, isEmail).issues == [CONTACT_MESSAGE]
  {
    var fields := SignupFields(body, isEmail);
    assert Object(fields).Success();
  }

  /** An empty password reports both of its messages, in declaration order. */
  lemma EmptyPasswordMessages(isEmail: string -> bool)
    ensures SignupFields(map["password" := Str("")], isEmail)[4].issues
      == [PASSWORD_LENGTH_MESSAGE, "Password is required"]
  {
    var checks := [MinLength(8, PASSWORD_LENGTH_MESSAGE), MinLength(1, "Password is required")];
    assert checks[1..] == [MinLength(1, "Password is required")];
    assert checks[1..][1..] == [];
    assert Get(map["password" := Str("")], "password") == Str("");
    assert FailedStringChecks("", checks[1..], isEmail) == ["Password is required"];
  }
}
