/**
 * `parseExpiry`: a token lifetime given as a number of seconds or as a string
 * `<digits><unit>` with unit s, m, h or d, converted to milliseconds.
 */
module Expiry {
  import opened Api
  import opened Text

  /** The configured value: a string or a number (a real: no NaN or infinities). */
  datatype ExpiresIn = Text(s: string) | Number(n: real)

  /** The milliseconds, or the message of the Error thrown. */
  datatype Parsed = Millis(ms: real) | Thrown(message: string)

  const DEFAULT_MILLIS: real := 600000.0
  const FORMAT_MESSAGE: string := "Invalid EXPIRES_IN format. Use a format like '10m', '1h', '7d'."
  const UNIT_MESSAGE: string := "Unsupported time unit in EXPIRES_IN"

  predicate Falsy(e: ExpiresIn)
  {
    match e
    case Text(s) => s == ""
    case Number(n) => n == 0.0
  }

  /** The regular expression `^(\d+)([smhd])$`. */
  predicate Matches(s: string)
  {
    |s| >= 2 && AllDigits(s[..|s| - 1]) && s[|s| - 1] in "smhd"
  }

  /** `switch (unit)`: the milliseconds in one unit, or None for the `default` case. */
  function UnitMillis(unit: char): (r: Option<nat>)
    ensures r.Some? <==> unit in "smhd"
  {
    if unit == 's' then Some(1000)
    else if unit == 'm' then Some(60 * 1000)
    else if unit == 'h' then Some(60 * 60 * 1000)
    else if unit == 'd' then Some(24 * 60 * 60 * 1000)
    else None
  }

  /** `parseExpiry(expiresIn)`. */
  function ParseExpiry(e: ExpiresIn): (r: Parsed)
    ensures Falsy(e) ==> r == Millis(DEFAULT_MILLIS)
    ensures e.Text? && !Falsy(e) ==> (r.Millis? <==> Matches(e.s))
  {
    if Falsy(e) then Millis(DEFAULT_MILLIS)
    else match e
      case Number(n) => Millis(n * 1000.0)
      case Text(s) =>
        if !Matches(s) then Thrown(FORMAT_MESSAGE)
        else
          var value := DecimalValue(s[..|s| - 1]);
          match UnitMillis(s[|s| - 1])
          case Some(m) => Millis((value * m) as real)
          case None => Thrown(UNIT_MESSAGE)
  }

  /** A non-zero number of seconds is multiplied by 1000. */
  lemma NumberIsSeconds(n: real)
    requires n != 0.0
    ensures ParseExpiry(Number(n)) == Millis(n * 1000.0)
  {
  }

  /** The `default` branch of the switch is unreachable: the pattern already fixes the unit. */
  lemma NeverUnsupportedUnit(e: ExpiresIn)
    ensures ParseExpiry(e) != Thrown(UNIT_MESSAGE)
  {
  }

  /** The value of `digits` followed by a unit, in milliseconds. */
  lemma DigitsWithUnit(digits: string, unit: char)
    requires digits != [] && AllDigits(digits)
    requires unit in "smhd"
    ensures ParseExpiry(Text(digits + [unit])) == Millis((DecimalValue(digits) * UnitMillis(unit).value) as real)
  {
    var s := digits + [unit];
    assert s[..|s| - 1] == digits;
  }

  /** n minutes are 60 n seconds. */
  lemma MinuteIsSixtySeconds(n: nat)
    ensures ParseExpiry(Text(NatToDecimal(60 * n) + "s")) == ParseExpiry(Text(NatToDecimal(n) + "m"))
  {
    DecimalRoundTrip(n);
    DecimalRoundTrip(60 * n);
    DigitsWithUnit(NatToDecimal(60 * n), 's');
    DigitsWithUnit(NatToDecimal(n), 'm');
    assert (60 * n) * 1000 == n * 60000;
  }

  /** n days are 24 n hours. */
  lemma DayIsTwentyFourHours(n: nat)
    ensures ParseExpiry(Text(NatToDecimal(24 * n) + "h")) == ParseExpiry(Text(NatToDecimal(n) + "d"))
  {
    DecimalRoundTrip(n);
    DecimalRoundTrip(24 * n);
    DigitsWithUnit(NatToDecimal(24 * n), 'h');
    DigitsWithUnit(NatToDecimal(n), 'd');
    assert (24 * n) * 3600000 == n * 86400000;
  }

  /** For one unit the result is non-negative and grows with the number. */
  lemma Monotone(a: string, b: string, unit: char)
    requires a != [] && AllDigits(a) && b != [] && AllDigits(b)
    requires unit in "smhd"
    requires DecimalValue(a) <= DecimalValue(b)
    ensures ParseExpiry(Text(a + [unit])).Millis? && ParseExpiry(Text(b + [unit])).Millis?
    ensures 0.0 <= ParseExpiry(Text(a + [unit])).ms <= ParseExpiry(Text(b + [unit])).ms
  {
    DigitsWithUnit(a, unit);
    DigitsWithUnit(b, unit);
    ScaleMonotone(DecimalValue(a), DecimalValue(b), UnitMillis(unit).value);
  }

  lemma ScaleMonotone(x: nat, y: nat, m: nat)
    requires x <= y
    ensures 0.0 <= (x * m) as real <= (y * m) as real
  {
    assert x * m <= y * m by {
      assert (y - x) * m >= 0;
    }
  }

  /** "10 m", "1w" and "10M" do not match the pattern, so they throw. */
  lemma RejectedExamples()
    ensures ParseExpiry(Text("10 m")) == Thrown(FORMAT_MESSAGE)
    ensures ParseExpiry(Text("1w")) == Thrown(FORMAT_MESSAGE)
    ensures ParseExpiry(Text("10M")) == Thrown(FORMAT_MESSAGE)
  {
    assert !IsDigit("10 m"[2]);
  }

  /** Falsy input, the empty string or 0, gives ten minutes. */
  lemma FalsyDefault()
    ensures ParseExpiry(Text("")) == Millis(600000.0)
    ensures ParseExpiry(Number(0.0)) == Millis(600000.0)
  {
  }
}
