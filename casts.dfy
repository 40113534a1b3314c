/**
 * How Mongoose casts a request-body value it is asked to store in a `String`
 * path or a `[String]` path: the value a document field takes, or a cast
 * error, which fails the save.
 */
module Casts {
  import opened Api
  import opened Text
  import opened Zod

  /** Below this magnitude JavaScript writes a whole number in plain decimal digits. */
  const PLAIN_LIMIT: real := 1000000000000000000000.0

  /**
   * `String(x)` for a whole number below 10^21 in magnitude: its decimal
   * digits, after a '-' when it is negative.  None for the other numbers,
   * whose text is not modelled.
   */
  function WholeNumberText(x: real): (r: Option<string>)
    ensures r.Some? <==> x == x.Floor as real && -PLAIN_LIMIT < x < PLAIN_LIMIT
    ensures r.Some? ==> r.value != []
    ensures r.Some? && x >= 0.0 ==> AllDigits(r.value) && DecimalValue(r.value) as real == x
    ensures r.Some? && x < 0.0 ==> r.value[0] == '-' && AllDigits(r.value[1..]) && DecimalValue(r.value[1..]) as real == -x
  {
    if x != x.Floor as real || x <= -PLAIN_LIMIT || x >= PLAIN_LIMIT then None
    else if x < 0.0 then
      var digits := NatToDecimal(-x.Floor);
      DecimalRoundTrip(-x.Floor);
      assert ("-" + digits)[1..] == digits;
      Some("-" + digits)
    else
      DecimalRoundTrip(x.Floor);
      Some(NatToDecimal(x.Floor))
  }

  /**
   * Mongoose's `castString` on a value that is neither null nor undefined:
   * a string as it is, a number or a boolean as its text; arrays and plain
   * objects throw a cast error (None).
   */
  function StringCast(v: Value): (r: Option<string>)
    ensures v.Str? ==> r == Some(v.s)
    ensures v.Bool? ==> r == Some(if v.b then "true" else "false")
    ensures v.Num? ==> r == WholeNumberText(v.x)
    ensures r.Some? ==> v.Str? || v.Bool? || v.Num?
  {
    match v
    case Str(s) => Some(s)
    case Bool(b) => Some(if b then "true" else "false")
    case Num(x) => WholeNumberText(x)
    case _ => None
  }

  /** Each element cast to a string: None when any element fails its cast. */
  function StringsCast(vs: seq<Value>): (r: Option<seq<string>>)
    ensures r.Some? <==> forall i :: 0 <= i < |vs| ==> StringCast(vs[i]).Some?
    ensures r.Some? ==> |r.value| == |vs| && forall i :: 0 <= i < |vs| ==> StringCast(vs[i]) == Some(r.value[i])
  {
    if vs == [] then Some([])
    else
      match (StringCast(vs[0]), StringsCast(vs[1..]))
      case (Some(s), Some(rest)) =>
        assert forall i :: 1 <= i < |vs| ==> vs[i] == vs[1..][i - 1];
        Some([s] + rest)
      case (None, _) => None
      case (_, None) =>
        assert forall i :: 0 <= i < |vs| - 1 ==> vs[1..][i] == vs[i + 1];
        None
  }

  /** A body array of strings casts back to those strings. */
  lemma StringsCastOfStrings(vs: seq<Value>, ss: seq<string>)
    requires |vs| == |ss| && forall i :: 0 <= i < |vs| ==> vs[i] == Str(ss[i])
    ensures StringsCast(vs) == Some(ss)
  {
    var r := StringsCast(vs);
    forall i | 0 <= i < |ss|
      ensures r.value[i] == ss[i]
    {
      assert StringCast(vs[i]) == Some(r.value[i]);
    }
    assert r.value == ss;
  }

  /**
   * What a `[String]` path stores for a value that is not undefined: an
   * array has each element cast; any other castable value becomes a list
   * of one (Mongoose's `castNonArrays`).  None for a cast error, and for
   * null, whose stored null the model does not represent.
   */
  function StringListCast(v: Value): (r: Option<seq<string>>)
    ensures v.Arr? ==> r == StringsCast(v.elems)
    ensures !v.Arr? && !v.Null? ==> r == (match StringCast(v) case Some(s) => Some([s]) case None => None)
    ensures v.Null? ==> r.None?
  {
    match v
    case Arr(elems) => StringsCast(elems)
    case Null => None
    case _ =>
      match StringCast(v)
      case Some(s) => Some([s])
      case None => None
  }
}
