/**
 * The part of the zod validation library the request schemas use, over a
 * JSON-like request body.  A schema is parsed field by field in declaration
 * order; every string or number check runs and adds its message when it fails;
 * a value of the wrong type adds one "invalid type" issue and aborts the
 * object, in which case an object-level refinement does not run.  The parse
 * succeeds exactly when no issue was recorded.
 */
module Zod {
  import opened Text

  /** A request-body value (numbers are modelled as reals: no NaN, no infinities). */
  datatype Value = Undefined | Null | Bool(b: bool) | Num(x: real) | Str(s: string) | Arr(elems: seq<Value>) | Obj

  /** A parsed JSON or multipart body: field name to value; a missing key reads as undefined. */
  type Body = map<string, Value>

  function Get(body: Body, key: string): Value
  {
    if key in body then body[key] else Undefined
  }

  /** JavaScript truthiness. */
  predicate Truthy(v: Value)
  {
    match v
    case Undefined => false
    case Null => false
    case Bool(b) => b
    case Num(x) => x != 0.0
    case Str(s) => s != ""
    case Arr(_) => true
    case Obj => true
  }

  /** The type name zod reports for a received value. */
  function TypeName(v: Value): string
  {
    match v
    case Undefined => "undefined"
    case Null => "null"
    case Bool(_) => "boolean"
    case Num(_) => "number"
    case Str(_) => "string"
    case Arr(_) => "array"
    case Obj => "object"
  }

  /** zod's default message for a value of the wrong type. */
  function InvalidType(expected: string, v: Value): string
  {
    if v.Undefined? then "Required" else "Expected " + expected + ", received " + TypeName(v)
  }

  /** Whether a field may be left out (`.optional()`) or also be null (`.nullable()`). */
  datatype Presence = Required | Optional | Nullable | OptionalNullable
  {
    /** `.partial()` makes every field optional. */
    function Partial(): Presence
    {
      match this
      case Required => Optional
      case Optional => Optional
      case Nullable => OptionalNullable
      case OptionalNullable => OptionalNullable
    }

    predicate Admits(v: Value)
    {
      (v.Undefined? && (Optional? || OptionalNullable?)) || (v.Null? && (Nullable? || OptionalNullable?))
    }
  }

  datatype StringCheck =
    | MinLength(n: nat, message: string)
    | MaxLength(n: nat, message: string)
    | Regex(test: string -> bool, message: string)
    | Email(message: string)

  /** zod's default message of `.min(n)` on a string. */
  function MinMessage(n: nat): string
  {
    "String must contain at least " + NatToDecimal(n) + " character(s)"
  }

  /** zod's default message of `.max(n)` on a string. */
  function MaxMessage(n: nat): string
  {
    "String must contain at most " + NatToDecimal(n) + " character(s)"
  }

  datatype NumberCheck =
    | AtLeast(bound: real, message: string)
    | AtMost(bound: real, message: string)
    | Positive(message: string)

  /** The email test passed to schemas that have no Email check, where it is never consulted. */
  predicate NoEmailTest(s: string) { true }

  function StringCheckPasses(s: string, c: StringCheck, isEmail: string -> bool): bool
  {
    match c
    case MinLength(n, _) => |s| >= n
    case MaxLength(n, _) => |s| <= n
    case Regex(test, _) => test(s)
    case Email(_) => isEmail(s)
  }

  function NumberCheckPasses(x: real, c: NumberCheck): bool
  {
    match c
    case AtLeast(b, _) => x >= b
    case AtMost(b, _) => x <= b
    case Positive(_) => x > 0.0
  }

  /** Messages of the failing string checks, in the order they are declared. */
  function FailedStringChecks(s: string, checks: seq<StringCheck>, isEmail: string -> bool): (msgs: seq<string>)
    ensures msgs == [] <==> forall i :: 0 <= i < |checks| ==> StringCheckPasses(s, checks[i], isEmail)
  {
    if checks == [] then []
    else
      (if StringCheckPasses(s, checks[0], isEmail) then [] else [checks[0].message])
      + FailedStringChecks(s, checks[1..], isEmail)
  }

  function FailedNumberChecks(x: real, checks: seq<NumberCheck>): (msgs: seq<string>)
    ensures msgs == [] <==> forall i :: 0 <= i < |checks| ==> NumberCheckPasses(x, checks[i])
  {
    if checks == [] then []
    else
      (if NumberCheckPasses(x, checks[0]) then [] else [checks[0].message])
      + FailedNumberChecks(x, checks[1..])
  }

  /** The issues one field adds, and whether it aborts the object (a type error). */
  datatype Parsed = Parsed(issues: seq<string>, aborted: bool)
  {
    predicate Wf() { aborted ==> issues != [] }
    predicate Success() { issues == [] }
  }

  function StringField(v: Value, presence: Presence, checks: seq<StringCheck>, isEmail: string -> bool): (r: Parsed)
    ensures r.Wf()
  {
    if presence.Admits(v) then Parsed([], false)
    else match v
      case Str(s) => Parsed(FailedStringChecks(s, checks, isEmail), false)
      case _ => Parsed([InvalidType("string", v)], true)
  }

  function NumberField(v: Value, presence: Presence, checks: seq<NumberCheck>): (r: Parsed)
    ensures r.Wf()
  {
    if presence.Admits(v) then Parsed([], false)
    else match v
      case Num(x) => Parsed(FailedNumberChecks(x, checks), false)
      case _ => Parsed([InvalidType("number", v)], true)
  }

  function BooleanField(v: Value, presence: Presence): (r: Parsed)
    ensures r.Wf()
  {
    if presence.Admits(v) then Parsed([], false)
    else if v.Bool? then Parsed([], false)
    else Parsed([InvalidType("boolean", v)], true)
  }

  /** `z.any()`: every value passes. */
  function AnyField(v: Value): (r: Parsed)
    ensures r.Wf()
  {
    Parsed([], false)
  }

  /** The options of a `z.enum`, written as zod lists them: 'A' | 'B'. */
  function EnumList(options: seq<string>): string
  {
    if options == [] then ""
    else if |options| == 1 then "'" + options[0] + "'"
    else "'" + options[0] + "' | " + EnumList(options[1..])
  }

  function EnumField(v: Value, presence: Presence, options: seq<string>): (r: Parsed)
    ensures r.Wf()
  {
    if presence.Admits(v) then Parsed([], false)
    else match v
      case Str(s) =>
        if s in options then Parsed([], false)
        else Parsed(["Invalid enum value. Expected " + EnumList(options) + ", received '" + s + "'"], false)
      case _ => Parsed([InvalidType(EnumList(options), v)], true)
  }

  /** `.refine(check, message)`: runs only when the inner parse did not abort. */
  function Refine(inner: Parsed, holds: bool, message: string): (r: Parsed)
    requires inner.Wf()
    ensures r.Wf()
  {
    if inner.aborted then inner
    else Parsed(inner.issues + (if holds then [] else [message]), false)
  }

  /** A string field succeeds when the value may be left out, or is a string passing every check. */
  lemma StringFieldSuccess(v: Value, presence: Presence, checks: seq<StringCheck>, isEmail: string -> bool)
    ensures StringField(v, presence, checks, isEmail).Success() <==>
      presence.Admits(v) || (v.Str? && forall i :: 0 <= i < |checks| ==> StringCheckPasses(v.s, checks[i], isEmail))
  {
  }

  /** A refined parse succeeds exactly when the inner parse succeeds and the refinement holds. */
  lemma RefineSuccess(inner: Parsed, holds: bool, message: string)
    requires inner.Wf()
    ensures Refine(inner, holds, message).Success() <==> inner.Success() && holds
  {
  }

  /** A `z.object`: the fields' issues in declaration order; aborted if any field aborted. */
  function Object(fields: seq<Parsed>): (r: Parsed)
    requires forall i :: 0 <= i < |fields| ==> fields[i].Wf()
    ensures r.Wf()
    ensures r.Success() <==> forall i :: 0 <= i < |fields| ==> fields[i].Success()
  {
    if fields == [] then Parsed([], false)
    else
      var rest := Object(fields[1..]);
      Parsed(fields[0].issues + rest.issues, fields[0].aborted || rest.aborted)
  }
}
