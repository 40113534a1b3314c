/**
 * Stock-keeping unit strings for products.  `generateSkuOld` joins the
 * upper-cased first four characters of the category and of the name with a
 * zero-padded random number below 10000; `generateSku` joins the upper-cased
 * first three characters of each, the last four base-36 digits of the clock
 * and a random number from 1000 to 9999, drawing new numbers until no
 * stored product holds the SKU.
 *
 * `Math.random()` enters as a sequence of draws from [0, 1), `Date.now()` as
 * a number of milliseconds, and `Product.findOne({ sku })` as membership in
 * the set of stored SKUs.
 */
module Sku {
  import opened Api
  import opened Text

  /** `s.substring(0, n).toUpperCase()`. */
  function Code(s: string, n: nat): (r: string)
    ensures |r| == if |s| <= n then |s| else n
    ensures forall i :: 0 <= i < |r| ==> r[i] == UpperChar(s[i])
  {
    ToUpper(Prefix(s, n))
  }

  /** `s.padStart(n, c)`: c repeated in front of s up to length n. */
  function PadStart(s: string, n: nat, c: char): (r: string)
    ensures |r| == if |s| >= n then |s| else n
    ensures forall i :: 0 <= i < |s| ==> r[|r| - |s| + i] == s[i]
    ensures forall i :: 0 <= i < |r| - |s| ==> r[i] == c
  {
    if |s| >= n then s else seq(n - |s|, _ => c) + s
  }

  /** Zeros in front of a decimal numeral do not change its value. */
  lemma {:induction false} LeadingZeros(k: nat, s: string)
    requires AllDigits(s)
    ensures AllDigits(seq(k, _ => '0') + s)
    ensures DecimalValue(seq(k, _ => '0') + s) == DecimalValue(s)
    decreases |s| + k
  {
    var z := seq(k, _ => '0');
    var t := z + s;
    assert AllDigits(t) by {
      forall i | 0 <= i < |t|
        ensures IsDigit(t[i])
      {
        if i >= k { assert t[i] == s[i - k]; }
      }
    }
    if s == [] {
      if k > 0 {
        assert t[..|t| - 1] == seq(k - 1, _ => '0') + [];
        LeadingZeros(k - 1, []);
      }
    } else {
      assert t[..|t| - 1] == z + s[..|s| - 1];
      LeadingZeros(k, s[..|s| - 1]);
    }
  }

  /** Numbers below 10000 are written with at most four digits. */
  lemma AtMostFourDigits(n: nat)
    requires n <= 9999
    ensures |NatToDecimal(n)| <= 4
  {
    if n >= 1000 {
      FourDigits(n);
    } else if n >= 100 {
      assert NatToDecimal(n) == NatToDecimal(n / 10) + [('0' as int + n % 10) as char];
      assert NatToDecimal(n / 10) == NatToDecimal(n / 100) + [('0' as int + (n / 10) % 10) as char];
    } else if n >= 10 {
      assert NatToDecimal(n) == NatToDecimal(n / 10) + [('0' as int + n % 10) as char];
    }
  }

  // ---------------------------------------------------------------- generateSkuOld

  /** `Math.floor(Math.random() * 10000)`. */
  function OldNumber(draw: real): (n: nat)
    requires 0.0 <= draw < 1.0
    ensures n <= 9999
    ensures n as real <= draw * 10000.0 < n as real + 1.0
  {
    (draw * 10000.0).Floor
  }

  /** `generateSkuOld(category, productName)` with the given random draw. */
  /** The part of an old SKU before its random number: both codes, each followed by a dash. */
  function OldStem(category: string, name: string): string
  {
    Code(category, 4) + "-" + Code(name, 4) + "-"
  }

  function SkuOld(category: string, name: string, draw: real): (s: string)
    requires 0.0 <= draw < 1.0
    ensures StartsWith(s, OldStem(category, name))
    ensures |s| <= 14
  {
    AtMostFourDigits(OldNumber(draw));
    OldStem(category, name) + PadStart(NatToDecimal(OldNumber(draw)), 4, '0')
  }

  /** The old SKU ends in a dash and exactly four digits, which read back as the random number. */
  lemma SkuOldSuffix(category: string, name: string, draw: real)
    requires 0.0 <= draw < 1.0
    ensures var s := SkuOld(category, name, draw);
      && |s| == |Code(category, 4)| + |Code(name, 4)| + 6
      && s[|s| - 5] == '-'
      && AllDigits(s[|s| - 4..])
      && DecimalValue(s[|s| - 4..]) == OldNumber(draw)
  {
    var n := OldNumber(draw);
    var d := NatToDecimal(n);
    AtMostFourDigits(n);
    var p := PadStart(d, 4, '0');
    assert p == seq(4 - |d|, _ => '0') + d;
    LeadingZeros(4 - |d|, d);
    DecimalRoundTrip(n);
    var s := SkuOld(category, name, draw);
    assert s[|s| - 4..] == p;
  }

  // ---------------------------------------------------------------- generateSku

  /** `Math.floor(1000 + Math.random() * 9000)`. */
  function Suffix(draw: real): (n: nat)
    requires 0.0 <= draw < 1.0
    ensures 1000 <= n <= 9999
    ensures n as real <= 1000.0 + draw * 9000.0 < n as real + 1.0
  {
    (1000.0 + draw * 9000.0).Floor
  }

  predicate IsBase36Digit(c: char)
  {
    IsDigit(c) || ('a' <= c <= 'z')
  }

  function Base36Digit(d: nat): (c: char)
    requires d < 36
    ensures IsBase36Digit(c)
  {
    if d < 10 then ('0' as int + d) as char else ('a' as int + d - 10) as char
  }

  function Base36DigitValue(c: char): nat
    requires IsBase36Digit(c)
  {
    if IsDigit(c) then c as int - '0' as int else c as int - 'a' as int + 10
  }

  /** `n.toString(36)`. */
  function Base36(n: nat): (r: string)
    ensures r != [] && forall i :: 0 <= i < |r| ==> IsBase36Digit(r[i])
  {
    if n < 36 then [Base36Digit(n)] else Base36(n / 36) + [Base36Digit(n % 36)]
  }

  /** The number a string of base-36 digits denotes. */
  function Base36Value(s: string): nat
    requires forall i :: 0 <= i < |s| ==> IsBase36Digit(s[i])
  {
    if s == [] then 0 else 36 * Base36Value(s[..|s| - 1]) + Base36DigitValue(s[|s| - 1])
  }

  /** Reading back the base-36 representation of n gives n. */
  lemma {:induction false} Base36RoundTrip(n: nat)
    ensures Base36Value(Base36(n)) == n
  {
    if n >= 36 {
      Base36RoundTrip(n / 36);
      var s := Base36(n);
      assert s[..|s| - 1] == Base36(n / 36);
    }
  }

  /** `Date.now().toString(36).slice(-4)`: the last four base-36 digits, all of them when there are fewer. */
  function Stamp(now: nat): (r: string)
    ensures |r| <= 4 && forall i :: 0 <= i < |r| ==> IsBase36Digit(r[i])
  {
    var b := Base36(now);
    if |b| <= 4 then b else b[|b| - 4..]
  }

  /** From 36^3 milliseconds on (any clock after 1970-01-01T00:00:46.656Z) the stamp has exactly four digits. */
  lemma FullStamp(now: nat)
    requires now >= 46656
    ensures |Stamp(now)| == 4
  {
    assert Base36(now) == Base36(now / 36) + [Base36Digit(now % 36)];
    assert Base36(now / 36) == Base36(now / 1296) + [Base36Digit((now / 36) % 36)];
    assert Base36(now / 1296) == Base36(now / 46656) + [Base36Digit((now / 1296) % 36)];
  }

  /** The SKU `${categoryCode}-${productCode}-${timestamp}-${uniqueId}` for one draw. */
  /** The part of a SKU that a retry keeps: both codes and the stamp, each followed by a dash. */
  function Stem(category: string, name: string, stamp: string): string
  {
    Code(category, 3) + "-" + Code(name, 3) + "-" + stamp + "-"
  }

  function Compose(category: string, name: string, stamp: string, draw: real): (s: string)
    requires 0.0 <= draw < 1.0
    ensures StartsWith(s, Stem(category, name, stamp))
    ensures |s| == |Stem(category, name, stamp)| + 4
  {
    FourDigits(Suffix(draw));
    Stem(category, name, stamp) + NatToDecimal(Suffix(draw))
  }

  /** A SKU ends in a dash and four digits that read back as the draw's number from 1000 to 9999. */
  lemma ComposeSuffix(category: string, name: string, stamp: string, draw: real)
    requires 0.0 <= draw < 1.0
    ensures var s := Compose(category, name, stamp, draw);
      && |s| == |Code(category, 3)| + |Code(name, 3)| + |stamp| + 7
      && s[|s| - 5] == '-'
      && AllDigits(s[|s| - 4..])
      && DecimalValue(s[|s| - 4..]) == Suffix(draw)
      && 1000 <= DecimalValue(s[|s| - 4..]) <= 9999
  {
    var n := Suffix(draw);
    FourDigits(n);
    DecimalRoundTrip(n);
    var s := Compose(category, name, stamp, draw);
    assert s[|s| - 4..] == NatToDecimal(n);
  }

  /** A retry changes only the random number: two draws give SKUs equal up to the last four characters. */
  lemma RetryKeepsStem(category: string, name: string, stamp: string, d1: real, d2: real)
    requires 0.0 <= d1 < 1.0 && 0.0 <= d2 < 1.0
    ensures var s1, s2 := Compose(category, name, stamp, d1), Compose(category, name, stamp, d2);
      |s1| == |s2| && s1[..|s1| - 4] == s2[..|s2| - 4]
  {
    FourDigits(Suffix(d1));
    FourDigits(Suffix(d2));
    var stem := Code(category, 3) + "-" + Code(name, 3) + "-" + stamp + "-";
    assert Compose(category, name, stamp, d1)[..|stem|] == stem;
    assert Compose(category, name, stamp, d2)[..|stem|] == stem;
  }

  predicate Draws(draws: seq<real>)
  {
    forall i :: 0 <= i < |draws| ==> 0.0 <= draws[i] < 1.0
  }

  /**
   * What the retry loop returns: the SKU of the first draw that no stored
   * product holds; None when every draw gives a stored SKU.
   */
  function FirstFree(category: string, name: string, stamp: string, draws: seq<real>, taken: set<string>): (r: Option<string>)
    requires Draws(draws)
    ensures r.Some? <==> exists i :: 0 <= i < |draws| && Compose(category, name, stamp, draws[i]) !in taken
    ensures r.Some? ==> r.value !in taken
    ensures r.Some? ==> exists i :: (0 <= i < |draws| && r.value == Compose(category, name, stamp, draws[i]) &&
      forall j :: 0 <= j < i ==> Compose(category, name, stamp, draws[j]) in taken)
  {
    if draws == [] then None
    else
      var sku := Compose(category, name, stamp, draws[0]);
      if sku !in taken then Some(sku)
      else
        var rest := FirstFree(category, name, stamp, draws[1..], taken);
        assert forall i :: 1 <= i < |draws| ==> draws[i] == draws[1..][i - 1];
        rest
  }

  /**
   * `generateSku(category, productName)`: the first SKU drawn that no stored
   * product holds.  The source loops until one is found; the draws must
   * contain one.
   */
  method GenerateSku(category: string, name: string, now: nat, draws: seq<real>, taken: set<string>) returns (sku: string)
    requires Draws(draws)
    requires exists i :: 0 <= i < |draws| && Compose(category, name, Stamp(now), draws[i]) !in taken
    ensures FirstFree(category, name, Stamp(now), draws, taken) == Some(sku)
    ensures sku !in taken
  {
    var categoryCode := Code(category, 3);
    var productCode := Code(name, 3);
    var stamp := Stamp(now);
    var k := 0;
    sku := categoryCode + "-" + productCode + "-" + stamp + "-" + NatToDecimal(Suffix(draws[0]));
    var existing := sku in taken;
    while existing
      invariant 0 <= k < |draws|
      invariant sku == Compose(category, name, stamp, draws[k])
      invariant existing <==> sku in taken
      invariant exists i :: k <= i < |draws| && Compose(category, name, stamp, draws[i]) !in taken
      invariant FirstFree(category, name, stamp, draws, taken) == FirstFree(category, name, stamp, draws[k..], taken)
      decreases |draws| - k
    {
      assert draws[k..][1..] == draws[k + 1..];
      k := k + 1;
      sku := categoryCode + "-" + productCode + "-" + stamp + "-" + NatToDecimal(Suffix(draws[k]));
      existing := sku in taken;
    }
  }
}
