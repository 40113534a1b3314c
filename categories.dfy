/**
 * The category service: the slug (`value`) derived from a title, and the
 * create, update and delete operations on the Category collection, a map
 * from ids to records whose `title` and `value` are unique indexes.
 *
 * Uploading to and deleting from Cloudinary, and removing the files multer
 * stored locally, are outside the model: an uploaded image enters as the
 * `secure_url` its upload returned.
 */
module Categories {
  import opened Api
  import opened Text
  import opened Zod
  import opened Store
  import opened CategorySchemas
  import opened Casts

  // ---------------------------------------------------------------- slug

  /** `.replace(/\s+/g, "_")`: every maximal run of whitespace becomes one '_'. */
  function Underscores(s: string): string
    decreases |s|
  {
    if s == [] then []
    else if IsWhitespace(s[0]) then "_" + Underscores(TrimStart(s))
    else [s[0]] + Underscores(s[1..])
  }

  /** `.replace(/[^a-z0-9_]/g, "")`: only the characters of `[a-z0-9_]` are kept. */
  function KeepSlugChars(s: string): (r: string)
    ensures forall i :: 0 <= i < |r| ==> IsSlugChar(r[i])
    ensures (forall i :: 0 <= i < |s| ==> IsSlugChar(s[i])) ==> r == s
  {
    if s == [] then []
    else (if IsSlugChar(s[0]) then [s[0]] else []) + KeepSlugChars(s[1..])
  }

  /** The generated `value`: lowercase, whitespace runs to '_', other characters dropped. */
  function Slug(title: string): (r: string)
    ensures forall i :: 0 <= i < |r| ==> IsSlugChar(r[i])
  {
    KeepSlugChars(Underscores(ToLower(title)))
  }

  /** Text without whitespace has nothing to replace. */
  lemma {:induction false} UnderscoresNoWhitespace(s: string)
    requires forall i :: 0 <= i < |s| ==> !IsWhitespace(s[i])
    ensures Underscores(s) == s
    decreases |s|
  {
    if s != [] {
      UnderscoresNoWhitespace(s[1..]);
    }
  }

  /** A string of slug characters is its own slug. */
  lemma SlugOfSlugChars(s: string)
    requires forall i :: 0 <= i < |s| ==> IsSlugChar(s[i])
    ensures Slug(s) == s
  {
    assert ToLower(s) == s by {
      assert forall i :: 0 <= i < |s| ==> LowerChar(s[i]) == s[i];
    }
    UnderscoresNoWhitespace(s);
  }

  /** Computing the slug is idempotent. */
  lemma SlugIdempotent(title: string)
    ensures Slug(Slug(title)) == Slug(title)
  {
    SlugOfSlugChars(Slug(title));
  }

  /** A non-empty slug matches the pattern the schema demands of `value`. */
  lemma SlugMatchesValuePattern(title: string)
    requires Slug(title) != ""
    ensures IsSlugValue(Slug(title))
  {
  }

  lemma {:induction false} UnderscoresWord(a: string, b: string)
    requires forall i :: 0 <= i < |a| ==> !IsWhitespace(a[i])
    ensures Underscores(a + b) == a + Underscores(b)
    decreases |a|
  {
    if a != [] {
      assert (a + b)[0] == a[0] && (a + b)[1..] == a[1..] + b;
      UnderscoresWord(a[1..], b);
      assert Underscores(a + b) == [a[0]] + Underscores(a[1..] + b);
      assert a == [a[0]] + a[1..];
    } else {
      assert a + b == b;
    }
  }

  lemma UnderscoresGap(b: string)
    requires b != [] && !IsWhitespace(b[0])
    ensures Underscores(" " + b) == "_" + Underscores(b)
  {
    assert (" " + b)[1..] == b;
    assert TrimStart(" " + b) == b;
  }

  lemma {:induction false} KeepAppend(a: string, b: string)
    ensures KeepSlugChars(a + b) == KeepSlugChars(a) + KeepSlugChars(b)
    decreases |a|
  {
    if a != [] {
      assert (a + b)[0] == a[0] && (a + b)[1..] == a[1..] + b;
      KeepAppend(a[1..], b);
      var head := if IsSlugChar(a[0]) then [a[0]] else [];
      assert KeepSlugChars(a + b) == head + KeepSlugChars(a[1..] + b);
      assert KeepSlugChars(a) == head + KeepSlugChars(a[1..]);
    } else {
      assert a + b == b;
    }
  }

  /** Lowercasing adds no whitespace. */
  lemma ToLowerNoWhitespace(s: string)
    requires forall i :: 0 <= i < |s| ==> !IsWhitespace(s[i])
    ensures forall i :: 0 <= i < |ToLower(s)| ==> !IsWhitespace(ToLower(s)[i])
  {
  }

  lemma ToLowerAroundSpace(a: string, b: string)
    ensures ToLower(a + " " + b) == ToLower(a) + (" " + ToLower(b))
  {
    ToLowerAppend(a + " ", b);
    ToLowerAppend(a, " ");
  }

  lemma UnderscoresAroundSpace(a: string, b: string)
    requires forall i :: 0 <= i < |a| ==> !IsWhitespace(a[i])
    requires b != [] && !IsWhitespace(b[0])
    ensures Underscores(a + (" " + b)) == a + ("_" + Underscores(b))
  {
    UnderscoresWord(a, " " + b);
    UnderscoresGap(b);
  }

  lemma LowerThenUnderscores(a: string, b: string)
    requires forall i :: 0 <= i < |a| ==> !IsWhitespace(a[i])
    requires b != [] && !IsWhitespace(b[0])
    ensures Underscores(ToLower(a + " " + b)) == ToLower(a) + ("_" + Underscores(ToLower(b)))
  {
    var la, lb := ToLower(a), ToLower(b);
    ToLowerAroundSpace(a, b);
    ToLowerNoWhitespace(a);
    assert lb[0] == LowerChar(b[0]);
    UnderscoresAroundSpace(la, lb);
  }

  lemma KeepAroundUnderscore(a: string, b: string)
    requires forall i :: 0 <= i < |a| ==> !IsWhitespace(a[i])
    ensures KeepSlugChars(a + ("_" + b)) == KeepSlugChars(Underscores(a)) + "_" + KeepSlugChars(b)
  {
    UnderscoresNoWhitespace(a);
    KeepAppend(a, "_" + b);
    KeepAppend("_", b);
  }

  /**
   * A single space between a word and the rest becomes one '_':
   * the slug of `a + " " + b` is the slug of a, '_', and the slug of b.
   */
  lemma SlugAroundSpace(a: string, b: string)
    requires forall i :: 0 <= i < |a| ==> !IsWhitespace(a[i])
    requires b != [] && !IsWhitespace(b[0])
    ensures Slug(a + " " + b) == Slug(a) + "_" + Slug(b)
  {
    LowerThenUnderscores(a, b);
    ToLowerNoWhitespace(a);
    KeepAroundUnderscore(ToLower(a), Underscores(ToLower(b)));
  }

  lemma LowerWordIsSlugChars(w: string)
    requires forall i :: 0 <= i < |w| ==> IsUpper(w[i]) || IsLower(w[i]) || IsDigit(w[i])
    ensures forall i :: 0 <= i < |ToLower(w)| ==> IsSlugChar(ToLower(w)[i])
  {
  }

  /** Lowercasing first does not change the slug. */
  lemma SlugOfLower(w: string)
    ensures Slug(ToLower(w)) == Slug(w)
  {
    ToLowerTwice(w);
  }

  /** A word of ASCII letters and digits slugs to its lowercase form. */
  lemma SlugOfWord(w: string)
    requires forall i :: 0 <= i < |w| ==> IsUpper(w[i]) || IsLower(w[i]) || IsDigit(w[i])
    ensures Slug(w) == ToLower(w)
  {
    LowerWordIsSlugChars(w);
    SlugOfSlugChars(ToLower(w));
    SlugOfLower(w);
  }

  /** A capital letter followed by lowercase letters slugs to the word in lowercase. */
  lemma SlugOfCapitalised(c: char, w: string)
    requires IsUpper(c) && forall i :: 0 <= i < |w| ==> IsLower(w[i])
    ensures Slug([c] + w) == [LowerChar(c)] + w
  {
    var s := [c] + w;
    assert forall i :: 0 <= i < |s| ==> IsUpper(s[i]) || IsLower(s[i]);
    SlugOfWord(s);
    assert ToLower(s) == [LowerChar(c)] + w;
  }

  lemma RunningWord()
    ensures Slug("Running") == "running"
  {
    assert "Running" == ['R'] + "unning";
    assert [LowerChar('R')] + "unning" == "running";
    SlugOfCapitalised('R', "unning");
  }

  lemma ShoesWord()
    ensures Slug("Shoes") == "shoes"
  {
    assert "Shoes" == ['S'] + "hoes";
    assert [LowerChar('S')] + "hoes" == "shoes";
    SlugOfCapitalised('S', "hoes");
  }

  /** "Running Shoes" gives "running_shoes". */
  lemma RunningShoes()
    ensures Slug("Running" + " " + "Shoes") == "running" + "_" + "shoes"
  {
    SlugAroundSpace("Running", "Shoes");
    RunningWord();
    ShoesWord();
  }

  /** The underscores are made before other characters are dropped: "A - B" gives "a__b". */
  lemma SpacedDash()
    ensures Slug("A" + " " + "-" + " " + "B") == "a" + "_" + "_" + "b"
  {
    var rest := "-" + " " + "B";
    SlugAroundSpace("-", "B");
    SlugAroundSpace("A", rest);
    assert "A" + " " + "-" + " " + "B" == "A" + " " + rest;
    SlugOfWord("A");
    SlugOfWord("B");
    LowerOf("A", "a");
    LowerOf("B", "b");
    DashDropped();
    assert Slug(rest) == "" + "_" + "b";
    assert "a" + "_" + ("" + "_" + "b") == "a" + "_" + "_" + "b";
  }

  lemma DashDropped()
    ensures Slug("-") == ""
  {
    assert ToLower("-") == "-";
    UnderscoresNoWhitespace("-");
  }

  // ---------------------------------------------------------------- records

  /** A Category document; `logo` and `thumbnail` are None when unset or null. */
  datatype Category = Category(title: string, value: string, logo: Option<string>, thumbnail: Option<string>)

  /**
   * `req.files` as `upload.fields` leaves it: None when the request was not
   * multipart; for each image field, the `secure_url` its upload returned
   * ("" when the upload returned none), or None when no file was sent.
   */
  datatype CategoryFiles = CategoryFiles(thumbnail: Option<string>, logo: Option<string>)

  const IMAGES_MESSAGE: string := "Both thumbnail and logo images are required"
  const CREATE_CONFLICT_MESSAGE: string := "Category with this title or value already exists"
  const UPDATE_CONFLICT_MESSAGE: string := "A category with this title already exists"
  const NOT_FOUND_MESSAGE: string := "Category not found"
  const DELETED_MESSAGE: string := "Category deleted successfully"
  const IDS_MESSAGE: string := "Invalid request. 'ids' must be a non-empty array"
  const MISSING_IDS_MESSAGE: string := "One or more category IDs do not exist"
  const INVALID_REQUEST_MESSAGE: string := "Invalid request"

  /** The unique indexes on `title` and `value`: no two categories share either. */
  predicate UniqueKeys(cats: map<Id, Category>)
  {
    forall a, b :: a in cats && b in cats && a != b ==>
      cats[a].title != cats[b].title && cats[a].value != cats[b].value
  }

  /** `findOne({$or: [{title}, {value}]})` finds a document. */
  predicate TitleOrValueTaken(cats: map<Id, Category>, title: string, value: string)
  {
    exists k :: k in cats && (cats[k].title == title || cats[k].value == value)
  }

  /** `findOne({title, _id: {$ne: id}})` finds a document. */
  predicate TitleTakenByOther(cats: map<Id, Category>, id: Id, title: string)
  {
    exists k :: k in cats && k != id && cats[k].title == title
  }

  /** Writing c under id would violate a unique index. */
  predicate ClashesWithOther(cats: map<Id, Category>, id: Id, c: Category)
  {
    exists k :: k in cats && k != id && (cats[k].title == c.title || cats[k].value == c.value)
  }

  /** The 400 of a failed parse: the messages joined by ','.  Without `req.files` the cleanup throws a TypeError first. */
  function Rejected<T>(files: Option<CategoryFiles>, issues: seq<string>): Outcome<T>
  {
    if files.None? then Unexpected() else Fail(ApiError(BAD_REQUEST, Join(issues, ',')))
  }

  /** An ApiError thrown after the local files are cleaned up, which without `req.files` is a TypeError. */
  function AfterCleanup<T>(files: Option<CategoryFiles>, status: int, message: string): Outcome<T>
  {
    if files.None? then Unexpected() else Fail(ApiError(status, message))
  }

  // ---------------------------------------------------------------- create

  /** `createCategory`: the category stored, or the error thrown. */
  function CreateOutcome(cats: map<Id, Category>, body: Body, files: Option<CategoryFiles>): (r: Outcome<Category>)
    ensures r.Ok? ==> CategoryParse(body).Success() && Get(body, "title").Str?
    ensures r.Ok? ==> r.value.title == Trim(Get(body, "title").s) && r.value.value == Slug(r.value.title)
    ensures r.Ok? ==> IsSlugValue(r.value.value)
    ensures r.Ok? ==> !TitleOrValueTaken(cats, r.value.title, r.value.value)
  {
    var parsed := CategoryParse(body);
    if !parsed.Success() then Rejected(files, parsed.issues)
    else if files.None? then Unexpected()
    else if files.value.thumbnail.None? || files.value.logo.None? then Fail(ApiError(BAD_REQUEST, IMAGES_MESSAGE))
    else
      CategoryAccepts(body);
      var title := Trim(Get(body, "title").s);
      var value := Slug(title);
      if TitleOrValueTaken(cats, title, value) then Fail(ApiError(CONFLICT, CREATE_CONFLICT_MESSAGE))
      // `required: true` on title and value: save() throws a ValidationError for "".
      else if title == "" || value == "" then Unexpected()
      else Ok(Category(title, value, Some(files.value.thumbnail.value), Some(files.value.logo.value)))
  }

  /** A category is created only when both images were sent; a multipart request without one gets 400. */
  lemma CreateNeedsBothImages(cats: map<Id, Category>, body: Body, files: Option<CategoryFiles>)
    ensures CreateOutcome(cats, body, files).Ok? ==>
      files.Some? && files.value.thumbnail.Some? && files.value.logo.Some?
    ensures CategoryParse(body).Success() && files.Some? && (files.value.thumbnail.None? || files.value.logo.None?) ==>
      CreateOutcome(cats, body, files) == Fail(ApiError(BAD_REQUEST, IMAGES_MESSAGE))
  {
  }

  /** An invalid body is refused with 400 before the files are looked at. */
  lemma CreateValidatesFirst(cats: map<Id, Category>, body: Body, files: CategoryFiles)
    requires !CategoryParse(body).Success()
    ensures CreateOutcome(cats, body, Some(files)) == Fail(ApiError(BAD_REQUEST, Join(CategoryParse(body).issues, ',')))
  {
  }

  /** A title or generated value already stored gives 409, whatever else is stored. */
  lemma CreateConflict(cats: map<Id, Category>, body: Body, files: CategoryFiles, k: Id)
    requires CategoryParse(body).Success() && files.thumbnail.Some? && files.logo.Some?
    requires Get(body, "title").Str? && k in cats
    requires cats[k].title == Trim(Get(body, "title").s) || cats[k].value == Slug(Trim(Get(body, "title").s))
    ensures CreateOutcome(cats, body, Some(files)) == Fail(ApiError(CONFLICT, CREATE_CONFLICT_MESSAGE))
  {
  }

  /** Text of which no character is a letter, a digit, '_' or whitespace has the empty slug. */
  lemma {:induction false} SlugOfSymbols(t: string)
    requires forall i :: 0 <= i < |t| ==> !IsSlugChar(t[i]) && !IsUpper(t[i]) && !IsWhitespace(t[i])
    ensures Slug(t) == ""
  {
    assert ToLower(t) == t by {
      assert forall i :: 0 <= i < |t| ==> LowerChar(t[i]) == t[i];
    }
    UnderscoresNoWhitespace(t);
    KeepNone(t);
  }

  lemma {:induction false} KeepNone(t: string)
    requires forall i :: 0 <= i < |t| ==> !IsSlugChar(t[i])
    ensures KeepSlugChars(t) == ""
  {
    if t != [] {
      KeepNone(t[1..]);
    }
  }

  /** Text that starts and ends with no whitespace is its own trim. */
  lemma TrimmedAlready(t: string)
    requires t != [] && !IsWhitespace(t[0]) && !IsWhitespace(t[|t| - 1])
    ensures Trim(t) == t
  {
  }

  /**
   * A title of 3 to 50 symbols with no slug character passes the schema, but
   * its slug is empty and the `required` validator of `value` fails on save: 500.
   */
  lemma CreateEmptySlug(cats: map<Id, Category>, title: string, files: CategoryFiles)
    requires 3 <= |title| <= 50
    requires forall i :: 0 <= i < |title| ==> !IsSlugChar(title[i]) && !IsUpper(title[i]) && !IsWhitespace(title[i])
    requires files.thumbnail.Some? && files.logo.Some?
    requires forall k :: k in cats ==> cats[k].title != title && cats[k].value != ""
    ensures CreateOutcome(cats, map["title" := Str(title)], Some(files)) == Unexpected()
  {
    var body := map["title" := Str(title)];
    CategoryAccepts(body);
    assert Get(body, "title") == Str(title);
    TrimmedAlready(title);
    SlugOfSymbols(title);
  }

  /** Creating keeps the title and value indexes unique. */
  lemma CreateKeepsKeysUnique(cats: map<Id, Category>, body: Body, files: Option<CategoryFiles>, id: Id)
    requires UniqueKeys(cats) && id !in cats
    requires CreateOutcome(cats, body, files).Ok?
    ensures UniqueKeys(cats[id := CreateOutcome(cats, body, files).value])
  {
  }

  // ---------------------------------------------------------------- update

  /**
   * What a body value of `logo` or `thumbnail` writes through
   * `findByIdAndUpdate`: absent keeps the stored image, null clears it, any
   * other value is cast to a string; None when the cast throws.
   */
  function ImageField(v: Value, current: Option<string>): (r: Option<Option<string>>)
    ensures v.Undefined? ==> r == Some(current)
    ensures v.Null? ==> r == Some(None)
    ensures v.Str? ==> r == Some(Some(v.s))
    ensures v.Bool? ==> r == Some(Some(if v.b then "true" else "false"))
    ensures v.Arr? || v.Obj? ==> r.None?
    ensures !v.Undefined? && !v.Null? ==> (r.Some? <==> StringCast(v).Some?)
  {
    match v
    case Undefined => Some(current)
    case Null => Some(None)
    case _ =>
      match StringCast(v)
      case Some(s) => Some(Some(s))
      case None => None
  }

  /** An upload that gave a `secure_url`. */
  predicate HasUrl(upload: Option<string>)
  {
    upload.Some? && upload.value != ""
  }

  /** An image field after the request: a new upload's non-empty URL, else what the body says. */
  function NewImage(upload: Option<string>, fromBody: Option<Option<string>>): (r: Option<Option<string>>)
    ensures HasUrl(upload) ==> r == Some(Some(upload.value))
    ensures !HasUrl(upload) ==> r == fromBody
  {
    if upload.Some? && upload.value != "" then Some(Some(upload.value)) else fromBody
  }

  /**
   * `updateData` applied to the stored record: the trimmed title; the slug of
   * a non-empty title, else the body's value; images from the uploads or the
   * body.  None when Mongoose cannot cast an image field.
   */
  function Updated(current: Category, body: Body, files: Option<CategoryFiles>): (r: Option<Category>)
    ensures r.Some? && Get(body, "title").Str? ==> r.value.title == Trim(Get(body, "title").s)
    ensures r.Some? && !Get(body, "title").Str? ==> r.value.title == current.title
    ensures var tu, lu := if files.Some? then files.value.thumbnail else None, if files.Some? then files.value.logo else None;
      (r.None? <==> (!HasUrl(tu) && ImageField(Get(body, "thumbnail"), current.thumbnail).None?) ||
                    (!HasUrl(lu) && ImageField(Get(body, "logo"), current.logo).None?)) &&
      (r.Some? && HasUrl(tu) ==> r.value.thumbnail == tu) &&
      (r.Some? && HasUrl(lu) ==> r.value.logo == lu) &&
      (r.Some? && !HasUrl(tu) ==> Some(r.value.thumbnail) == ImageField(Get(body, "thumbnail"), current.thumbnail)) &&
      (r.Some? && !HasUrl(lu) ==> Some(r.value.logo) == ImageField(Get(body, "logo"), current.logo))
  {
    var titleV, valueV := Get(body, "title"), Get(body, "value");
    var title := if titleV.Str? then Trim(titleV.s) else current.title;
    var value :=
      if titleV.Str? && Trim(titleV.s) != "" then Slug(Trim(titleV.s))
      else if valueV.Str? then Trim(valueV.s)
      else current.value;
    var thumbnail := NewImage(if files.Some? then files.value.thumbnail else None, ImageField(Get(body, "thumbnail"), current.thumbnail));
    var logo := NewImage(if files.Some? then files.value.logo else None, ImageField(Get(body, "logo"), current.logo));
    if thumbnail.None? || logo.None? then None
    else Some(Category(title, value, logo.value, thumbnail.value))
  }

  /** `updateCategory(id)`: the updated category, or the error thrown. */
  function UpdateOutcome(cats: map<Id, Category>, id: Id, body: Body, files: Option<CategoryFiles>): (r: Outcome<Category>)
    ensures r.Ok? ==> CategoryUpdateParse(body).Success() && id in cats
    ensures r.Ok? ==> Updated(cats[id], body, files) == Some(r.value)
    ensures r.Ok? ==> !ClashesWithOther(cats, id, r.value)
  {
    var parsed := CategoryUpdateParse(body);
    if !parsed.Success() then Rejected(files, parsed.issues)
    // findById casts the id: a malformed one throws a CastError.
    else if !IsObjectId(id) then Unexpected()
    else if id !in cats then AfterCleanup(files, NOT_FOUND, NOT_FOUND_MESSAGE)
    else
      var titleV := Get(body, "title");
      if titleV.Str? && Trim(titleV.s) != "" && TitleTakenByOther(cats, id, Trim(titleV.s)) then
        AfterCleanup(files, CONFLICT, UPDATE_CONFLICT_MESSAGE)
      else match Updated(cats[id], body, files)
        case None => Unexpected()
        // findByIdAndUpdate: a unique-index violation is a MongoServerError, caught as 500.
        case Some(c) => if ClashesWithOther(cats, id, c) then Unexpected() else Ok(c)
  }

  /** A well-formed id that is not stored gives 404 once the body is valid. */
  lemma UpdateMissing(cats: map<Id, Category>, id: Id, body: Body, files: CategoryFiles)
    requires CategoryUpdateParse(body).Success() && IsObjectId(id) && id !in cats
    ensures UpdateOutcome(cats, id, body, Some(files)) == Fail(ApiError(NOT_FOUND, NOT_FOUND_MESSAGE))
  {
  }

  /** The title check excludes the category itself: re-sending its own title is no conflict. */
  lemma UpdateOwnTitle(cats: map<Id, Category>, id: Id, files: Option<CategoryFiles>)
    requires UniqueKeys(cats) && IsObjectId(id) && id in cats
    requires TitleOk(Str(cats[id].title)) && Trim(cats[id].title) == cats[id].title
    requires cats[id].value == Slug(cats[id].title)
    requires files.None? || (files.value.thumbnail.None? && files.value.logo.None?)
    ensures UpdateOutcome(cats, id, map["title" := Str(cats[id].title)], files) == Ok(cats[id])
  {
    var body := map["title" := Str(cats[id].title)];
    CategoryUpdateAccepts(body);
    assert Get(body, "title") == Str(cats[id].title);
    assert Get(body, "value") == Undefined && Get(body, "logo") == Undefined && Get(body, "thumbnail") == Undefined;
    var t := cats[id].title;
    assert !TitleTakenByOther(cats, id, t);
  }

  /** Another category with the title gives 409. */
  lemma UpdateTitleConflict(cats: map<Id, Category>, id: Id, body: Body, files: CategoryFiles, k: Id)
    requires CategoryUpdateParse(body).Success() && IsObjectId(id) && id in cats
    requires Get(body, "title").Str? && Trim(Get(body, "title").s) != ""
    requires k in cats && k != id && cats[k].title == Trim(Get(body, "title").s)
    ensures UpdateOutcome(cats, id, body, Some(files)) == Fail(ApiError(CONFLICT, UPDATE_CONFLICT_MESSAGE))
  {
  }

  /** The value is recomputed from a given title, and otherwise taken from the body or kept. */
  lemma UpdateValueRule(cats: map<Id, Category>, id: Id, body: Body, files: Option<CategoryFiles>)
    requires UpdateOutcome(cats, id, body, files).Ok?
    ensures var c := UpdateOutcome(cats, id, body, files).value;
      var t, v := Get(body, "title"), Get(body, "value");
      && (t.Str? && Trim(t.s) != "" ==> c.value == Slug(c.title))
      && (!(t.Str? && Trim(t.s) != "") && v.Str? ==> c.value == Trim(v.s))
      && (!(t.Str? && Trim(t.s) != "") && !v.Str? ==> c.value == cats[id].value)
  {
  }

  /** The empty body is accepted and changes nothing. */
  lemma UpdateEmptyBody(cats: map<Id, Category>, id: Id, files: Option<CategoryFiles>)
    requires IsObjectId(id) && id in cats && UniqueKeys(cats)
    requires files.None? || (files.value.thumbnail.None? && files.value.logo.None?)
    ensures UpdateOutcome(cats, id, map[], files) == Ok(cats[id])
  {
    EmptyBody();
  }

  /** Updating keeps the title and value indexes unique. */
  lemma UpdateKeepsKeysUnique(cats: map<Id, Category>, id: Id, body: Body, files: Option<CategoryFiles>)
    requires UniqueKeys(cats)
    requires UpdateOutcome(cats, id, body, files).Ok?
    ensures UniqueKeys(cats[id := UpdateOutcome(cats, id, body, files).value])
  {
  }

  // ---------------------------------------------------------------- delete

  /** `deleteCategory`: `id` is `req.params.id`, `ids` is `req.body.ids` when it is an array of strings. */
  function DeleteOutcome(cats: map<Id, Category>, id: Option<Id>, ids: Option<seq<Id>>): (r: Outcome<string>)
    ensures id.Some? && id.value != "" ==> (r.Ok? <==> IsObjectId(id.value) && id.value in cats)
    ensures id.Some? && id.value != "" && IsObjectId(id.value) && id.value !in cats ==> r == Fail(ApiError(NOT_FOUND, NOT_FOUND_MESSAGE))
    ensures id.Some? && id.value != "" && r.Ok? ==> r.value == DELETED_MESSAGE
    ensures !(id.Some? && id.value != "") && ids.Some? && r.Ok? ==> r.value == NatToDecimal(|ids.value|) + " categories deleted successfully"
    ensures !(id.Some? && id.value != "") && ids.None? ==> r == Fail(ApiError(BAD_REQUEST, INVALID_REQUEST_MESSAGE))
  {
    if id.Some? && id.value != "" then
      if !IsObjectId(id.value) then Unexpected()
      else if id.value !in cats then Fail(ApiError(NOT_FOUND, NOT_FOUND_MESSAGE))
      else Ok(DELETED_MESSAGE)
    else if ids.Some? then
      if |ids.value| == 0 then Fail(ApiError(BAD_REQUEST, IDS_MESSAGE))
      else if exists i :: 0 <= i < |ids.value| && !IsObjectId(ids.value[i]) then Unexpected()
      else if |Matched(ids.value, cats.Keys)| != |ids.value| then Fail(ApiError(NOT_FOUND, MISSING_IDS_MESSAGE))
      else Ok(NatToDecimal(|ids.value|) + " categories deleted successfully")
    else Fail(ApiError(BAD_REQUEST, INVALID_REQUEST_MESSAGE))
  }

  /** The ids a successful delete removes. */
  function DeleteTargets(id: Option<Id>, ids: Option<seq<Id>>): set<Id>
  {
    if id.Some? && id.value != "" then {id.value}
    else if ids.Some? then Elements(ids.value)
    else {}
  }

  /**
   * The batch delete is all or nothing: it succeeds exactly when the list is
   * non-empty, every id is well formed and stored, and no id is listed twice.
   */
  lemma BatchDeleteSucceeds(cats: map<Id, Category>, ids: seq<Id>)
    ensures DeleteOutcome(cats, None, Some(ids)).Ok? <==>
      |ids| > 0 && Distinct(ids) && forall i :: 0 <= i < |ids| ==> IsObjectId(ids[i]) && ids[i] in cats
    ensures |ids| == 0 ==> DeleteOutcome(cats, None, Some(ids)) == Fail(ApiError(BAD_REQUEST, IDS_MESSAGE))
  {
    MatchedAll(ids, cats.Keys);
  }

  /** Listing an existing id twice is answered 404, though every id exists. */
  lemma RepeatedIdRejected(cats: map<Id, Category>, k: Id)
    requires IsObjectId(k) && k in cats
    ensures DeleteOutcome(cats, None, Some([k, k])) == Fail(ApiError(NOT_FOUND, MISSING_IDS_MESSAGE))
  {
    MatchedAll([k, k], cats.Keys);
    assert !Distinct([k, k]) by { assert [k, k][0] == [k, k][1]; }
  }

  /** With neither an id nor an `ids` array the request is invalid. */
  lemma DeleteNeedsTarget(cats: map<Id, Category>)
    ensures DeleteOutcome(cats, None, None) == Fail(ApiError(BAD_REQUEST, INVALID_REQUEST_MESSAGE))
    ensures DeleteOutcome(cats, Some(""), None) == Fail(ApiError(BAD_REQUEST, INVALID_REQUEST_MESSAGE))
  {
  }

  /** A successful delete removes only stored ids, and keeps the indexes unique. */
  lemma DeleteRemovesStored(cats: map<Id, Category>, id: Option<Id>, ids: Option<seq<Id>>)
    requires UniqueKeys(cats)
    requires DeleteOutcome(cats, id, ids).Ok?
    ensures DeleteTargets(id, ids) <= cats.Keys && DeleteTargets(id, ids) != {}
    ensures UniqueKeys(cats - DeleteTargets(id, ids))
  {
    if !(id.Some? && id.value != "") {
      BatchDeleteSucceeds(cats, ids.value);
      assert ids.value[0] in DeleteTargets(id, ids);
    }
  }

  // ---------------------------------------------------------------- the collection

  /** `updateData` built step by step, as `updateCategory` fills it, then applied to the stored record. */
  method BuildUpdate(existing: Category, body: Body, files: Option<CategoryFiles>) returns (u: Option<Category>)
    ensures u == Updated(existing, body, files)
  {
    var titleV := Get(body, "title");
    var title, value := existing.title, existing.value;
    if titleV.Str? {
      title := Trim(titleV.s);
    }
    if Get(body, "value").Str? {
      value := Trim(Get(body, "value").s);
    }
    if titleV.Str? && title != "" {
      value := Slug(title);
    }
    var thumbnail := ImageField(Get(body, "thumbnail"), existing.thumbnail);
    var logo := ImageField(Get(body, "logo"), existing.logo);
    if files.Some? && files.value.thumbnail.Some? && files.value.thumbnail.value != "" {
      thumbnail := Some(Some(files.value.thumbnail.value));
    }
    if files.Some? && files.value.logo.Some? && files.value.logo.value != "" {
      logo := Some(Some(files.value.logo.value));
    }
    if thumbnail.None? || logo.None? {
      return None;
    }
    u := Some(Category(title, value, logo.value, thumbnail.value));
  }

  /** The Category collection. */
  class CategoryStore {
    var categories: map<Id, Category>

    predicate Valid()
      reads this
    {
      UniqueKeys(categories)
    }

    constructor()
      ensures categories == map[] && Valid()
    {
      categories := map[];
    }

    /** `createCategory`; `freshId` is the ObjectId MongoDB gives the new document. */
    method Create(body: Body, files: Option<CategoryFiles>, freshId: Id) returns (r: Outcome<Category>)
      requires Valid() && freshId !in categories
      modifies this
      ensures r == CreateOutcome(old(categories), body, files)
      ensures categories == if r.Ok? then old(categories)[freshId := r.value] else old(categories)
      ensures Valid()
    {
      var parsed := CategoryParse(body);
      if !parsed.Success() {
        return Rejected(files, parsed.issues);
      }
      if files.None? {
        return Unexpected();
      }
      if files.value.thumbnail.None? || files.value.logo.None? {
        return Fail(ApiError(BAD_REQUEST, IMAGES_MESSAGE));
      }
      CategoryAccepts(body);
      var title := Trim(Get(body, "title").s);
      var value := Slug(title);
      var taken := exists k | k in categories :: categories[k].title == title || categories[k].value == value;
      if taken {
        return Fail(ApiError(CONFLICT, CREATE_CONFLICT_MESSAGE));
      }
      if title == "" || value == "" {
        return Unexpected();
      }
      var category := Category(title, value, Some(files.value.thumbnail.value), Some(files.value.logo.value));
      categories := categories[freshId := category];
      r := Ok(category);
    }

    /** `updateCategory(id)`: `updateData` is built step by step, then written. */
    method Update(id: Id, body: Body, files: Option<CategoryFiles>) returns (r: Outcome<Category>)
      requires Valid()
      modifies this
      ensures r == UpdateOutcome(old(categories), id, body, files)
      ensures categories == if r.Ok? then old(categories)[id := r.value] else old(categories)
      ensures Valid()
    {
      r := UpdateDecision(id, body, files);
      if r.Ok? {
        UpdateKeepsKeysUnique(categories, id, body, files);
        categories := categories[id := r.value];
      }
    }

    /** The checks of `updateCategory` and the record it writes; the collection is only read. */
    method UpdateDecision(id: Id, body: Body, files: Option<CategoryFiles>) returns (r: Outcome<Category>)
      ensures r == UpdateOutcome(categories, id, body, files)
    {
      var parsed := CategoryUpdateParse(body);
      if !parsed.Success() {
        return Rejected(files, parsed.issues);
      }
      if !IsObjectId(id) {
        return Unexpected();
      }
      if id !in categories {
        return AfterCleanup(files, NOT_FOUND, NOT_FOUND_MESSAGE);
      }
      var existing := categories[id];
      var titleV := Get(body, "title");
      if titleV.Str? && Trim(titleV.s) != "" {
        var duplicate := exists k | k in categories :: k != id && categories[k].title == Trim(titleV.s);
        if duplicate {
          return AfterCleanup(files, CONFLICT, UPDATE_CONFLICT_MESSAGE);
        }
      }
      var built := BuildUpdate(existing, body, files);
      if built.None? {
        return Unexpected();
      }
      var updated := built.value;
      var clash := exists k | k in categories :: k != id && (categories[k].title == updated.title || categories[k].value == updated.value);
      if clash {
        return Unexpected();
      }
      r := Ok(updated);
    }

    /** `deleteCategory`: removes the listed categories, all or none. */
    method Delete(id: Option<Id>, ids: Option<seq<Id>>) returns (r: Outcome<string>)
      requires Valid()
      modifies this
      ensures r == DeleteOutcome(old(categories), id, ids)
      ensures categories == if r.Ok? then old(categories) - DeleteTargets(id, ids) else old(categories)
      ensures Valid()
    {
      if id.Some? && id.value != "" {
        if !IsObjectId(id.value) {
          return Unexpected();
        }
        if id.value !in categories {
          return Fail(ApiError(NOT_FOUND, NOT_FOUND_MESSAGE));
        }
        categories := categories - {id.value};
        return Ok(DELETED_MESSAGE);
      } else if ids.Some? {
        var list := ids.value;
        if |list| == 0 {
          return Fail(ApiError(BAD_REQUEST, IDS_MESSAGE));
        }
        if exists i | 0 <= i < |list| :: !IsObjectId(list[i]) {
          return Unexpected();
        }
        var existing := Matched(list, categories.Keys);
        if |existing| != |list| {
          return Fail(ApiError(NOT_FOUND, MISSING_IDS_MESSAGE));
        }
        // deleteMany removes exactly the documents found, so the deleted count
        // always equals |list| here and the "could not be deleted" 500 never occurs.
        categories := categories - existing;
        return Ok(NatToDecimal(|list|) + " categories deleted successfully");
      } else {
        return Fail(ApiError(BAD_REQUEST, INVALID_REQUEST_MESSAGE));
      }
    }
  }
}
