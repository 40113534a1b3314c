/**
 * The User collection and the user services: reading one user, turning a
 * query string into the filter and sort of the user listing, and
 * `updateUser`, which validates the body, keeps only the allowlisted keys,
 * refuses to change a registered email or phone, normalises a new phone and
 * swaps in an uploaded avatar.
 *
 * Stored strings pass through the Mongoose setters of the user model:
 * `firstName` and `lastName` are lower-cased and trimmed, `address` is
 * lower-cased.  `email` and `phone` carry sparse unique indexes, so two users
 * never share an email or a phone; a write that would break this fails with a
 * duplicate-key error, which the services answer with 500.
 */
module Users {
  import opened Api
  import opened Text
  import opened Zod
  import opened UserSchemas
  import Phone
  import Pick

  /** A stored user.  `googleId` and `otp` are not read or written by the modelled services. */
  datatype User = User(
    firstName: string,
    lastName: string,
    email: Option<string>,
    phone: Option<string>,
    address: Option<string>,
    role: string,
    avatar: Option<string>,
    password: string,
    refreshToken: Option<string>)

  /** A user as the services return it: without the `select: false` fields `password` and `refreshToken`. */
  datatype Profile = Profile(
    firstName: string,
    lastName: string,
    email: Option<string>,
    phone: Option<string>,
    address: Option<string>,
    role: string,
    avatar: Option<string>)

  function ProfileOf(u: User): Profile
  {
    Profile(u.firstName, u.lastName, u.email, u.phone, u.address, u.role, u.avatar)
  }

  /** A truthy optional string: set and not empty. */
  predicate Present(o: Option<string>)
  {
    o.Some? && o.value != ""
  }

  /** The sparse unique indexes on `email` and `phone`: no two users share a set value. */
  predicate UniqueContacts(users: map<Id, User>)
  {
    forall a, b :: a in users && b in users && a != b ==>
      (users[a].email.Some? ==> users[a].email != users[b].email) &&
      (users[a].phone.Some? ==> users[a].phone != users[b].phone)
  }

  /** Storing u under id would give it an email or phone another user holds. */
  predicate Clash(users: map<Id, User>, id: Id, u: User)
  {
    exists k :: k in users && k != id &&
      ((u.email.Some? && users[k].email == u.email) || (u.phone.Some? && users[k].phone == u.phone))
  }

  /** Writing a user that clashes with nobody keeps the indexes unique. */
  lemma StoreWithoutClash(users: map<Id, User>, id: Id, u: User)
    requires UniqueContacts(users) && !Clash(users, id, u)
    ensures UniqueContacts(users[id := u])
  {
    var s := users[id := u];
    forall a, b | a in s && b in s && a != b
      ensures (s[a].email.Some? ==> s[a].email != s[b].email) && (s[a].phone.Some? ==> s[a].phone != s[b].phone)
    {
      if a == id {
        assert b in users && b != id;
      } else if b == id {
        assert a in users && a != id;
      }
    }
  }

  // ---------------------------------------------------------------- getOneUser

  const USER_MISSING_MESSAGE: string := "User does not exist"

  /** `getOneUser(userId)`. */
  function GetOneOutcome(users: map<Id, User>, id: Id): (r: Outcome<Profile>)
    ensures r.Ok? <==> IsObjectId(id) && id in users
    ensures r.Ok? ==> r.value == ProfileOf(users[id])
    ensures r.Fail? ==> r == (if IsObjectId(id) then Fail(ApiError(NOT_FOUND, USER_MISSING_MESSAGE)) else Unexpected())
  {
    if !IsObjectId(id) then Unexpected()
    else if id !in users then Fail(ApiError(NOT_FOUND, USER_MISSING_MESSAGE))
    else Ok(ProfileOf(users[id]))
  }

  // ---------------------------------------------------------------- getAllUser

  /** One element of `andConditions`. */
  datatype Condition =
    | FullNameLike(pattern: Value)       // { fullname: { $regex: value, $options: "i" } }
    | FieldIs(key: string, value: Value) // { [key]: value }

  /** `{ $and: andConditions }`, or `{}` when there is no condition. */
  datatype Query = Everything | And(conditions: seq<Condition>)

  function ConditionFor(key: string, v: Value): (c: Condition)
    ensures c.FullNameLike? <==> key == "fullname"
  {
    if key == "fullname" then FullNameLike(v) else FieldIs(key, v)
  }

  /** The conditions of the filter entries, in `Object.keys` order. */
  function Conditions(filters: seq<(string, Value)>): (cs: seq<Condition>)
    ensures |cs| == |filters|
  {
    if filters == [] then []
    else Conditions(filters[..|filters| - 1]) + [ConditionFor(filters[|filters| - 1].0, filters[|filters| - 1].1)]
  }

  /** Every filter entry gives exactly one condition, in place: none is skipped, empty values included. */
  lemma {:induction false} ConditionPerEntry(filters: seq<(string, Value)>)
    ensures |Conditions(filters)| == |filters|
    ensures forall i :: 0 <= i < |filters| ==> Conditions(filters)[i] == ConditionFor(filters[i].0, filters[i].1)
  {
    if filters != [] {
      ConditionPerEntry(filters[..|filters| - 1]);
    }
  }

  function QueryOf(conditions: seq<Condition>): (q: Query)
    ensures q.Everything? <==> conditions == []
  {
    if |conditions| > 0 then And(conditions) else Everything
  }

  /** The listing matches every user exactly when no filter is given; only `fullname` becomes a pattern match. */
  lemma FilterShape(filters: seq<(string, Value)>)
    ensures |Conditions(filters)| == |filters|
    ensures QueryOf(Conditions(filters)).Everything? <==> filters == []
    ensures forall i :: 0 <= i < |filters| ==>
      (Conditions(filters)[i].FullNameLike? <==> filters[i].0 == "fullname")
    ensures forall i :: 0 <= i < |filters| ==>
      Conditions(filters)[i] == FullNameLike(filters[i].1) || Conditions(filters)[i] == FieldIs(filters[i].0, filters[i].1)
  {
    ConditionPerEntry(filters);
  }

  /** The `forEach` of `getAllUser`: each filter key pushes one condition. */
  method FilterQuery(filters: seq<(string, Value)>) returns (q: Query)
    ensures q == QueryOf(Conditions(filters))
  {
    var andConditions: seq<Condition> := [];
    for i := 0 to |filters|
      invariant andConditions == Conditions(filters[..i])
    {
      var (key, v) := filters[i];
      assert filters[..i + 1][..i] == filters[..i];
      if key == "fullname" {
        andConditions := andConditions + [FullNameLike(v)];
      } else {
        andConditions := andConditions + [FieldIs(key, v)];
      }
    }
    assert filters[..|filters|] == filters;
    q := if |andConditions| > 0 then And(andConditions) else Everything;
  }

  /** The argument of `.sort(...)`: a field and 1 (ascending) or -1 (descending). */
  datatype Sort = Sort(field: string, direction: int)

  /** `sortBy && sortOrder ? { [sortBy]: sortOrder === "asc" ? 1 : -1 } : { createdAt: 1 }`; "" stands for an absent option. */
  function SortOf(sortBy: string, sortOrder: string): (s: Sort)
    ensures s.direction == 1 || s.direction == -1
    ensures s.direction == -1 <==> sortBy != "" && sortOrder != "" && sortOrder != "asc"
    ensures s.field == (if sortBy != "" && sortOrder != "" then sortBy else "createdAt")
  {
    if sortBy != "" && sortOrder != "" then Sort(sortBy, if sortOrder == "asc" then 1 else -1)
    else Sort("createdAt", 1)
  }

  // ---------------------------------------------------------------- updateUser

  const USER_NOT_FOUND_MESSAGE: string := "User not found"
  const EMAIL_LOCKED_MESSAGE: string := "You cannot change your registered email"
  const PHONE_LOCKED_MESSAGE: string := "You cannot change your registered phone number"

  /** The keys of the body that may reach the update. */
  const ALLOWED_FIELDS: seq<string> := ["avatar", "phone", "email", "address", "firstName", "lastName", "role"]

  /** The `forEach` over `Object.keys(req.body)`: copies each allowlisted key into `updateData`. */
  method AllowlistedData(body: Body) returns (updateData: Body)
    ensures updateData == Pick.Picked(Some(body), ALLOWED_FIELDS)
  {
    updateData := map[];
    var rest := body.Keys;
    while rest != {}
      invariant rest <= body.Keys
      invariant forall k :: k in updateData <==> k in body && k !in rest && k in ALLOWED_FIELDS
      invariant forall k :: k in updateData ==> updateData[k] == body[k]
      decreases |rest|
    {
      var key :| key in rest;
      if key in ALLOWED_FIELDS {
        updateData := updateData[key := body[key]];
      }
      rest := rest - {key};
    }
  }

  /**
   * A `$set` of an optional string path: an absent key keeps the current
   * value, null unsets it, a string is stored; anything else fails to cast.
   */
  function StringSet(v: Value, current: Option<string>): (r: Option<Option<string>>)
    ensures v.Undefined? ==> r == Some(current)
    ensures r.Some? && !v.Undefined? ==> (v.Null? && r.value.None?) || (v.Str? && r.value == Some(v.s))
    ensures v.Null? || v.Str? || v.Undefined? <==> r.Some?
  {
    match v
    case Undefined => Some(current)
    case Null => Some(None)
    case Str(s) => Some(Some(s))
    case _ => None
  }

  /**
   * A `$set` of `firstName` or `lastName`: lower-cased and trimmed by the
   * setters; the `required` validator refuses null and a blank result.
   */
  function NameSet(v: Value, current: string): (r: Option<string>)
    ensures v.Undefined? ==> r == Some(current)
    ensures r.Some? && !v.Undefined? ==> v.Str? && r.value == Trim(ToLower(v.s)) && r.value != ""
  {
    match v
    case Undefined => Some(current)
    case Str(s) => var t := Trim(ToLower(s)); if t == "" then None else Some(t)
    case _ => None
  }

  function LowerSome(o: Option<string>): Option<string>
  {
    if o.Some? then Some(ToLower(o.value)) else None
  }

  /**
   * `findByIdAndUpdate(userId, updateData, { runValidators: true })` on the
   * stored user, before the unique indexes are consulted; None when a cast
   * or validator fails.  Keys outside the allowlist are never read.
   */
  function Applied(u: User, data: Body): (r: Option<User>)
    ensures r.Some? ==> r.value.password == u.password && r.value.refreshToken == u.refreshToken
    ensures r.Some? && Get(data, "email").Undefined? ==> r.value.email == u.email
    ensures r.Some? && Get(data, "phone").Undefined? ==> r.value.phone == u.phone
    ensures r.Some? && Get(data, "phone").Str? ==> r.value.phone == Some(Get(data, "phone").s)
    ensures r.Some? && Get(data, "phone").Null? ==> r.value.phone == None
    ensures r.Some? && Get(data, "avatar").Str? ==> r.value.avatar == Some(Get(data, "avatar").s)
    ensures r.Some? && Get(data, "avatar").Undefined? ==> r.value.avatar == u.avatar
  {
    var first := NameSet(Get(data, "firstName"), u.firstName);
    var last := NameSet(Get(data, "lastName"), u.lastName);
    var email := StringSet(Get(data, "email"), u.email);
    var phone := StringSet(Get(data, "phone"), u.phone);
    var address := StringSet(Get(data, "address"), u.address);
    var avatar := StringSet(Get(data, "avatar"), u.avatar);
    var role := match Get(data, "role") case Undefined => Some(u.role) case Str(s) => Some(s) case _ => None;
    if first.None? || last.None? || email.None? || phone.None? || address.None? || avatar.None? || role.None? then None
    else
      var addr := if Get(data, "address").Undefined? then address.value else LowerSome(address.value);
      Some(User(first.value, last.value, email.value, phone.value, addr, role.value, avatar.value,
        u.password, u.refreshToken))
  }

  /** A body without any allowlisted key leaves the user as it is. */
  lemma AppliedNothing(u: User, data: Body)
    requires forall k :: k in ALLOWED_FIELDS ==> k !in data
    ensures Applied(u, data) == Some(u)
  {
    assert forall k :: k in ALLOWED_FIELDS ==> Get(data, k) == Undefined;
  }

  /** `if (updateData.phone) updateData.phone = normalizePhoneNumber(updateData.phone)`. */
  function WithNormalizedPhone(data: Body): (d: Body)
    requires !Truthy(Get(data, "phone")) || Get(data, "phone").Str?
    ensures Get(d, "phone") == if Truthy(Get(data, "phone")) then Str(Phone.Normalize(Get(data, "phone").s)) else Get(data, "phone")
    ensures forall k :: k != "phone" ==> Get(d, k) == Get(data, k)
  {
    if Truthy(Get(data, "phone")) then data["phone" := Str(Phone.Normalize(Get(data, "phone").s))] else data
  }

  /** An upload that returned a `secure_url`: `upload` is None without a file, Some(None) when the upload gave no URL. */
  predicate Uploaded(upload: Option<Option<string>>)
  {
    upload.Some? && Present(upload.value)
  }

  /** `if (result?.secure_url) updateData.avatar = result.secure_url`. */
  function WithAvatar(data: Body, upload: Option<Option<string>>): (d: Body)
    ensures Get(d, "avatar") == if Uploaded(upload) then Str(upload.value.value) else Get(data, "avatar")
    ensures forall k :: k != "avatar" ==> Get(d, k) == Get(data, k)
  {
    if Uploaded(upload) then data["avatar" := Str(upload.value.value)] else data
  }

  /** `updateData` after the phone is normalised and the uploaded avatar is put in. */
  function Prepared(data: Body, upload: Option<Option<string>>): (d: Body)
    requires !Truthy(Get(data, "phone")) || Get(data, "phone").Str?
    ensures Get(d, "phone") == if Truthy(Get(data, "phone")) then Str(Phone.Normalize(Get(data, "phone").s)) else Get(data, "phone")
    ensures Get(d, "avatar") == if Uploaded(upload) then Str(upload.value.value) else Get(data, "avatar")
    ensures forall k :: k != "phone" && k != "avatar" ==> Get(d, k) == Get(data, k)
  {
    WithAvatar(WithNormalizedPhone(data), upload)
  }

  /**
   * The steps of `updateUser` once the user is found and the body accepted:
   * `data` is the allowlisted part of the body.  Normalising a phone that is
   * not a string throws, which the catch block answers with 500.
   */
  function UpdateAccepted(users: map<Id, User>, id: Id, data: Body, upload: Option<Option<string>>): (r: Outcome<User>)
    requires id in users
    ensures r.Ok? ==> !Clash(users, id, r.value)
    ensures r.Ok? ==> r.value.password == users[id].password && r.value.refreshToken == users[id].refreshToken
    ensures r.Ok? && Present(users[id].email) ==> !Truthy(Get(data, "email"))
    ensures r.Ok? && Present(users[id].phone) ==> !Truthy(Get(data, "phone"))
    ensures r.Ok? && Truthy(Get(data, "phone")) && Get(data, "phone").Str? ==> r.value.phone == Some(Phone.Normalize(Get(data, "phone").s))
    ensures r.Ok? && Uploaded(upload) ==> r.value.avatar == upload.value
    ensures r.Ok? && !Uploaded(upload) && Get(data, "avatar").Undefined? ==> r.value.avatar == users[id].avatar
    ensures r.Ok? && !Uploaded(upload) && Get(data, "avatar").Str? ==> r.value.avatar == Some(Get(data, "avatar").s)
    ensures r.Ok? && Get(data, "phone").Null? ==> r.value.phone == None
    ensures r.Ok? && Get(data, "phone") == Str("") ==> r.value.phone == Some("")
  {
    var u := users[id];
    if Present(u.email) && Truthy(Get(data, "email")) then Fail(ApiError(FORBIDDEN, EMAIL_LOCKED_MESSAGE))
    else if Present(u.phone) && Truthy(Get(data, "phone")) then Fail(ApiError(FORBIDDEN, PHONE_LOCKED_MESSAGE))
    else if Truthy(Get(data, "phone")) && !Get(data, "phone").Str? then Unexpected()
    else
      var d := Prepared(data, upload);
      match Applied(u, d)
      case None => Unexpected()
      case Some(v) => if Clash(users, id, v) then Unexpected() else Ok(v)
  }

  /** `updateUser(req)`: the user as stored after the update. */
  function UpdateOutcome(users: map<Id, User>, id: Id, body: Body, isEmail: string -> bool, upload: Option<Option<string>>): (r: Outcome<User>)
    ensures !IsObjectId(id) ==> r == Unexpected()
    ensures IsObjectId(id) && id !in users ==> r == Fail(ApiError(NOT_FOUND, USER_NOT_FOUND_MESSAGE))
    ensures IsObjectId(id) && id in users && !UpdateUserParse(body, isEmail).Success() ==>
      r == Fail(ApiError(BAD_REQUEST, Join(UpdateUserParse(body, isEmail).issues, ',')))
    ensures IsObjectId(id) && id in users && UpdateUserParse(body, isEmail).Success() ==>
      r == UpdateAccepted(users, id, Pick.Picked(Some(body), ALLOWED_FIELDS), upload)
  {
    if !IsObjectId(id) then Unexpected()
    else if id !in users then Fail(ApiError(NOT_FOUND, USER_NOT_FOUND_MESSAGE))
    else
      var parsed := UpdateUserParse(body, isEmail);
      if !parsed.Success() then Fail(ApiError(BAD_REQUEST, Join(parsed.issues, ',')))
      else UpdateAccepted(users, id, Pick.Picked(Some(body), ALLOWED_FIELDS), upload)
  }

  /** A missing user is reported before the body is looked at: every body, accepted or not, gives 404. */
  lemma NotFoundBeforeValidation(users: map<Id, User>, id: Id, body1: Body, body2: Body, isEmail: string -> bool, upload: Option<Option<string>>)
    requires IsObjectId(id) && id !in users
    ensures UpdateOutcome(users, id, body1, isEmail, upload) == UpdateOutcome(users, id, body2, isEmail, upload)
    ensures UpdateOutcome(users, id, body1, isEmail, upload).IsFailWith(NOT_FOUND)
  {
  }

  /** Keys outside the allowlist never reach the store: changing one leaves the outcome as it is, as long as the body stays valid. */
  lemma OnlyAllowlistedKeys(users: map<Id, User>, id: Id, body: Body, key: string, v: Value, isEmail: string -> bool, upload: Option<Option<string>>)
    requires key !in ALLOWED_FIELDS
    requires UpdateUserParse(body, isEmail).Success() && UpdateUserParse(body[key := v], isEmail).Success()
    ensures UpdateOutcome(users, id, body[key := v], isEmail, upload) == UpdateOutcome(users, id, body, isEmail, upload)
  {
    assert Pick.Picked(Some(body[key := v]), ALLOWED_FIELDS) == Pick.Picked(Some(body), ALLOWED_FIELDS);
  }

  /** A registered email cannot be replaced: a non-empty email in an accepted body gives 403. */
  lemma EmailLocked(users: map<Id, User>, id: Id, body: Body, isEmail: string -> bool, upload: Option<Option<string>>)
    requires IsObjectId(id) && id in users && Present(users[id].email)
    requires UpdateUserParse(body, isEmail).Success() && Truthy(Get(body, "email"))
    ensures UpdateOutcome(users, id, body, isEmail, upload) == Fail(ApiError(FORBIDDEN, EMAIL_LOCKED_MESSAGE))
  {
    assert Get(Pick.Picked(Some(body), ALLOWED_FIELDS), "email") == Get(body, "email");
  }

  /** A registered phone cannot be replaced by another: a non-empty phone in an accepted body gives 403, unless the email check fired first. */
  lemma PhoneLocked(users: map<Id, User>, id: Id, body: Body, isEmail: string -> bool, upload: Option<Option<string>>)
    requires IsObjectId(id) && id in users && Present(users[id].phone)
    requires UpdateUserParse(body, isEmail).Success() && Truthy(Get(body, "phone"))
    ensures UpdateOutcome(users, id, body, isEmail, upload).IsFailWith(FORBIDDEN)
  {
    assert Get(Pick.Picked(Some(body), ALLOWED_FIELDS), "phone") == Get(body, "phone");
  }

  /**
   * The lock tests truthiness only: an accepted body with `phone: null` or
   * `phone: ""` clears or blanks a registered phone.
   */
  lemma PhoneClearable(users: map<Id, User>, id: Id, body: Body, isEmail: string -> bool)
    requires id in users && Present(users[id].phone)
    requires Get(body, "phone").Null? || Get(body, "phone") == Str("")
    requires UpdateOutcome(users, id, body, isEmail, None).Ok?
    ensures UpdateOutcome(users, id, body, isEmail, None).value.phone != users[id].phone
  {
    var data := Pick.Picked(Some(body), ALLOWED_FIELDS);
    assert Get(data, "phone") == Get(body, "phone");
  }

  /** A phone sent in an accepted update is stored in its normalised `+880` form. */
  lemma PhoneNormalised(users: map<Id, User>, id: Id, body: Body, isEmail: string -> bool, upload: Option<Option<string>>)
    requires UpdateOutcome(users, id, body, isEmail, upload).Ok? && Truthy(Get(body, "phone"))
    ensures Get(body, "phone").Str?
    ensures var p := UpdateOutcome(users, id, body, isEmail, upload).value.phone;
      p == Some(Phone.Normalize(Get(body, "phone").s)) && StartsWith(p.value, "+880") && AllDigits(p.value[4..])
  {
    UpdateUserAccepts(body, isEmail);
    assert Get(Pick.Picked(Some(body), ALLOWED_FIELDS), "phone") == Get(body, "phone");
  }

  /** The avatar becomes the uploaded URL when the upload returned one, and is otherwise what the body says or what was stored. */
  lemma AvatarRule(users: map<Id, User>, id: Id, body: Body, isEmail: string -> bool, upload: Option<Option<string>>)
    requires UpdateOutcome(users, id, body, isEmail, upload).Ok?
    ensures var r := UpdateOutcome(users, id, body, isEmail, upload).value;
      && (Uploaded(upload) ==> r.avatar == upload.value)
      && (!Uploaded(upload) && Get(body, "avatar").Str? ==> r.avatar == Some(Get(body, "avatar").s))
      && (!Uploaded(upload) && Get(body, "avatar").Undefined? ==> r.avatar == users[id].avatar)
  {
    var data := Pick.Picked(Some(body), ALLOWED_FIELDS);
    assert Get(data, "avatar") == Get(body, "avatar");
    assert Get(data, "phone") == Get(body, "phone");
  }

  /** A successful update keeps the email and phone indexes unique and never touches the password or refresh token. */
  lemma UpdateKeepsInvariants(users: map<Id, User>, id: Id, body: Body, isEmail: string -> bool, upload: Option<Option<string>>)
    requires UniqueContacts(users)
    requires UpdateOutcome(users, id, body, isEmail, upload).Ok?
    ensures var u := UpdateOutcome(users, id, body, isEmail, upload).value;
      && UniqueContacts(users[id := u])
      && u.password == users[id].password && u.refreshToken == users[id].refreshToken
  {
    StoreWithoutClash(users, id, UpdateOutcome(users, id, body, isEmail, upload).value);
  }

  // ---------------------------------------------------------------- the collection

  /** The User collection. */
  class UserStore {
    var users: map<Id, User>

    predicate Valid()
      reads this
    {
      UniqueContacts(users)
    }

    constructor()
      ensures users == map[] && Valid()
    {
      users := map[];
    }

    /** `updateUser(req)`: the stored user after the update, as returned (without password and refresh token). */
    method Update(id: Id, body: Body, isEmail: string -> bool, upload: Option<Option<string>>) returns (r: Outcome<Profile>)
      requires Valid()
      modifies this
      ensures var o := UpdateOutcome(old(users), id, body, isEmail, upload);
        && (o.Ok? ==> r == Ok(ProfileOf(o.value)) && users == old(users)[id := o.value])
        && (o.Fail? ==> r == Fail(o.error) && users == old(users))
      ensures Valid()
    {
      if !IsObjectId(id) {
        return Unexpected();
      }
      if id !in users {
        return Fail(ApiError(NOT_FOUND, USER_NOT_FOUND_MESSAGE));
      }
      var parsed := UpdateUserParse(body, isEmail);
      if !parsed.Success() {
        return Fail(ApiError(BAD_REQUEST, Join(parsed.issues, ',')));
      }
      var updateData := AllowlistedData(body);
      r := UpdateFound(id, updateData, upload);
    }

    /** The steps of `updateUser` after the allowlist is applied. */
    method UpdateFound(id: Id, updateData: Body, upload: Option<Option<string>>) returns (r: Outcome<Profile>)
      requires Valid() && id in users
      modifies this
      ensures var o := UpdateAccepted(old(users), id, updateData, upload);
        && (o.Ok? ==> r == Ok(ProfileOf(o.value)) && users == old(users)[id := o.value])
        && (o.Fail? ==> r == Fail(o.error) && users == old(users))
      ensures Valid()
    {
      var o := UpdateDecision(id, updateData, upload);
      if o.Fail? {
        return Fail(o.error);
      }
      StoreWithoutClash(users, id, o.value);
      users := users[id := o.value];
      r := Ok(ProfileOf(o.value));
    }

    /**
     * The checks of `updateUser` once the user is found, and the record it
     * saves; the collection is only read.
     */
    method UpdateDecision(id: Id, updateData: Body, upload: Option<Option<string>>) returns (o: Outcome<User>)
      requires id in users
      ensures o == UpdateAccepted(users, id, updateData, upload)
    {
      var existing := users[id];
      if Present(existing.email) && Truthy(Get(updateData, "email")) {
        return Fail(ApiError(FORBIDDEN, EMAIL_LOCKED_MESSAGE));
      }
      if Present(existing.phone) && Truthy(Get(updateData, "phone")) {
        return Fail(ApiError(FORBIDDEN, PHONE_LOCKED_MESSAGE));
      }
      var data := updateData;
      if Truthy(Get(data, "phone")) {
        if !Get(data, "phone").Str? {
          return Unexpected();
        }
        data := data["phone" := Str(Phone.Normalize(Get(data, "phone").s))];
      }
      if Uploaded(upload) {
        data := data["avatar" := Str(upload.value.value)];
      }
      assert data == Prepared(updateData, upload);
      var saved := Applied(existing, data);
      if saved.None? {
        return Unexpected();
      }
      var clash := exists k | k in users :: (k != id &&
        ((saved.value.email.Some? && users[k].email == saved.value.email) ||
         (saved.value.phone.Some? && users[k].phone == saved.value.phone)));
      assert clash == Clash(users, id, saved.value);
      if clash {
        return Unexpected();
      }
      o := Ok(saved.value);
    }
  }
}
