/**
 * The request schemas of the category endpoints: a title of 3 to 50
 * characters, an optional `value` slug of 3 to 50 characters drawn from
 * [a-z0-9_], and `logo` / `thumbnail` of any kind.  Both string fields end
 * with `.trim()`, which runs after the length and pattern checks, so the
 * checks see the text as sent and the parsed data holds it trimmed.
 */
module CategorySchemas {
  import opened Text
  import opened Zod

  const TITLE_MIN_MESSAGE: string := "Category title must be at least 3 characters"
  const TITLE_MAX_MESSAGE: string := "Category title not more than 50 characters"
  const VALUE_PATTERN_MESSAGE: string := "Value must be lowercase with underscores only"

  /** A character of the class `[a-z0-9_]`. */
  predicate IsSlugChar(c: char)
  {
    IsLower(c) || IsDigit(c) || c == '_'
  }

  /** The pattern `^[a-z0-9_]+$`. */
  predicate IsSlugValue(s: string)
  {
    |s| >= 1 && forall i :: 0 <= i < |s| ==> IsSlugChar(s[i])
  }

  function TitleChecks(): seq<StringCheck>
  {
    [MinLength(3, TITLE_MIN_MESSAGE), MaxLength(50, TITLE_MAX_MESSAGE)]
  }

  function ValueChecks(): seq<StringCheck>
  {
    [MinLength(3, MinMessage(3)), MaxLength(50, MaxMessage(50)), Regex(s => IsSlugValue(s), VALUE_PATTERN_MESSAGE)]
  }

  lemma TitleChecksPass(s: string)
    ensures (forall i :: 0 <= i < |TitleChecks()| ==> StringCheckPasses(s, TitleChecks()[i], NoEmailTest)) <==> 3 <= |s| <= 50
  {
    assert StringCheckPasses(s, TitleChecks()[0], NoEmailTest) <==> |s| >= 3;
    assert StringCheckPasses(s, TitleChecks()[1], NoEmailTest) <==> |s| <= 50;
  }

  lemma ValueChecksPass(s: string)
    ensures (forall i :: 0 <= i < |ValueChecks()| ==> StringCheckPasses(s, ValueChecks()[i], NoEmailTest)) <==>
      3 <= |s| <= 50 && IsSlugValue(s)
  {
    assert StringCheckPasses(s, ValueChecks()[0], NoEmailTest) <==> |s| >= 3;
    assert StringCheckPasses(s, ValueChecks()[1], NoEmailTest) <==> |s| <= 50;
    assert StringCheckPasses(s, ValueChecks()[2], NoEmailTest) <==> IsSlugValue(s);
  }

  /**
   * The fields of `categorySchema` in declaration order, with the title's
   * presence as a parameter: Required in `categorySchema`, Optional in its
   * `.partial()`.
   */
  function CategoryFields(body: Body, title: Presence): (fields: seq<Parsed>)
    ensures |fields| == 4
    ensures forall i :: 0 <= i < |fields| ==> fields[i].Wf()
  {
    [ StringField(Get(body, "title"), title, TitleChecks(), NoEmailTest),
      StringField(Get(body, "value"), Optional, ValueChecks(), NoEmailTest),
      AnyField(Get(body, "logo")),
      AnyField(Get(body, "thumbnail")) ]
  }

  /** `categorySchema.safeParse(body)`. */
  function CategoryParse(body: Body): (r: Parsed)
    ensures r.Wf()
  {
    Object(CategoryFields(body, Required))
  }

  /** `categoryUpdateSchema.safeParse(body)`: the same fields, every one optional. */
  function CategoryUpdateParse(body: Body): (r: Parsed)
    ensures r.Wf()
  {
    Object(CategoryFields(body, Required.Partial()))
  }

  /** A title as the schema accepts it: a string of 3 to 50 characters, before trimming. */
  predicate TitleOk(v: Value)
  {
    v.Str? && 3 <= |v.s| <= 50
  }

  /** A value as the schema accepts it: absent, or 3 to 50 characters of [a-z0-9_]. */
  predicate ValueOk(v: Value)
  {
    v.Undefined? || (v.Str? && 3 <= |v.s| <= 50 && IsSlugValue(v.s))
  }

  /** A create body is accepted exactly when its title and value are; logo and thumbnail may be anything. */
  lemma CategoryAccepts(body: Body)
    ensures CategoryParse(body).Success() <==> TitleOk(Get(body, "title")) && ValueOk(Get(body, "value"))
  {
    var fields := CategoryFields(body, Required);
    StringFieldSuccess(Get(body, "title"), Required, TitleChecks(), NoEmailTest);
    if Get(body, "title").Str? { TitleChecksPass(Get(body, "title").s); }
    if Get(body, "value").Str? { ValueChecksPass(Get(body, "value").s); }
    StringFieldSuccess(Get(body, "value"), Optional, ValueChecks(), NoEmailTest);
    assert (forall i :: 0 <= i < |fields| ==> fields[i].Success()) <==>
      fields[0].Success() && fields[1].Success() && fields[2].Success() && fields[3].Success();
  }

  /** An update body is accepted exactly when its title is absent or acceptable and its value is. */
  lemma CategoryUpdateAccepts(body: Body)
    ensures CategoryUpdateParse(body).Success() <==>
      (Get(body, "title").Undefined? || TitleOk(Get(body, "title"))) && ValueOk(Get(body, "value"))
  {
    var fields := CategoryFields(body, Optional);
    StringFieldSuccess(Get(body, "title"), Optional, TitleChecks(), NoEmailTest);
    if Get(body, "title").Str? { TitleChecksPass(Get(body, "title").s); }
    if Get(body, "value").Str? { ValueChecksPass(Get(body, "value").s); }
    StringFieldSuccess(Get(body, "value"), Optional, ValueChecks(), NoEmailTest);
    assert (forall i :: 0 <= i < |fields| ==> fields[i].Success()) <==>
      fields[0].Success() && fields[1].Success() && fields[2].Success() && fields[3].Success();
  }

  /** The update schema accepts the empty body; the create schema does not. */
  lemma EmptyBody()
    ensures CategoryUpdateParse(map[]).Success()
    ensures !CategoryParse(map[]).Success()
  {
    CategoryAccepts(map[]);
    CategoryUpdateAccepts(map[]);
  }

  /** A create-acceptable body is update-acceptable too. */
  lemma CreateBodyUpdates(body: Body)
    requires CategoryParse(body).Success()
    ensures CategoryUpdateParse(body).Success()
  {
    CategoryAccepts(body);
    CategoryUpdateAccepts(body);
  }

  /** The checks see the untrimmed text: a value with a leading space fails the pattern. */
  lemma ValueNotTrimmedBeforeCheck(s: string)
    requires 3 <= |s| <= 50 && s[0] == ' '
    ensures !CategoryParse(map["title" := Str("Shoes"), "value" := Str(s)]).Success()
  {
    var body := map["title" := Str("Shoes"), "value" := Str(s)];
    CategoryAccepts(body);
    assert Get(body, "value") == Str(s);
    assert !IsSlugChar(s[0]);
  }
}
