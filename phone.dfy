/**
 * Bangladeshi phone numbers: the validator regex of the auth schemas and the
 * normalisation to the international "+880" form (country code 880 of
 * ITU-T E.164) that signup, login and user updates apply before storing or
 * looking up a phone.
 */
module Phone {
  import opened Text

  /** `phone.replace(/\D/g, "")`: keep only the ASCII digits. */
  function StripNonDigits(s: string): (r: string)
    ensures AllDigits(r)
    ensures |r| <= |s|
  {
    if s == [] then []
    else (if IsDigit(s[0]) then [s[0]] else []) + StripNonDigits(s[1..])
  }

  /** Normalise a phone number to "+880" followed by the national digits. */
  function Normalize(phone: string): (r: string)
    ensures StartsWith(r, "+880")
    ensures AllDigits(r[4..])
  {
    var digits := StripNonDigits(phone);
    if StartsWith(digits, "0") then "+880" + digits[1..]
    else if StartsWith(digits, "880") then "+880" + digits[3..]
    else if !StartsWith(digits, "+880") then "+880" + digits
    else digits
  }

  /** The nine characters after the prefix: an operator digit 3-9 then eight digits. */
  predicate BdSubscriber(t: string)
  {
    |t| == 9 && '3' <= t[0] <= '9' && AllDigits(t)
  }

  /** `bdPhoneRegex`: `^(?:\+8801|8801|01)[3-9]\d{8}$`. */
  predicate IsBdPhone(s: string)
  {
    || (StartsWith(s, "+8801") && BdSubscriber(s[5..]))
    || (StartsWith(s, "8801") && BdSubscriber(s[4..]))
    || (StartsWith(s, "01") && BdSubscriber(s[2..]))
  }

  lemma {:induction false} StripAppend(a: string, b: string)
    ensures StripNonDigits(a + b) == StripNonDigits(a) + StripNonDigits(b)
  {
    if a == [] {
      assert a + b == b;
    } else {
      var head := if IsDigit(a[0]) then [a[0]] else [];
      calc {
        StripNonDigits(a + b);
        { assert (a + b)[0] == a[0] && (a + b)[1..] == a[1..] + b; }
        head + StripNonDigits(a[1..] + b);
        { StripAppend(a[1..], b); }
        head + (StripNonDigits(a[1..]) + StripNonDigits(b));
        (head + StripNonDigits(a[1..])) + StripNonDigits(b);
        StripNonDigits(a) + StripNonDigits(b);
      }
    }
  }

  lemma {:induction false} StripDigits(s: string)
    requires AllDigits(s)
    ensures StripNonDigits(s) == s
  {
    if s != [] {
      StripDigits(s[1..]);
    }
  }

  /**
   * The stripped string never starts with "+880", so when the third test of
   * Normalize is reached it always holds and the final `else` is dead.
   */
  lemma NoPlusAfterStrip(phone: string)
    ensures !StartsWith(StripNonDigits(phone), "+880")
    ensures Normalize(phone) == (
      var d := StripNonDigits(phone);
      if StartsWith(d, "0") then "+880" + d[1..]
      else if StartsWith(d, "880") then "+880" + d[3..]
      else "+880" + d)
  {
    var d := StripNonDigits(phone);
    assert |d| >= 4 ==> d[..4][0] == d[0] && IsDigit(d[0]);
  }

  /** A leading "0" becomes "+880": the national trunk prefix is replaced. */
  lemma LeadingZero(phone: string)
    requires StartsWith(phone, "0") && AllDigits(phone)
    ensures Normalize(phone) == "+880" + phone[1..]
  {
    StripDigits(phone);
  }

  /** A leading "880" becomes "+880" and is not duplicated. */
  lemma LeadingCountryCode(phone: string)
    requires StartsWith(phone, "880") && AllDigits(phone)
    ensures Normalize(phone) == "+880" + phone[3..]
  {
    StripDigits(phone);
  }

  /** Normalising twice is normalising once. */
  lemma {:induction false} NormalizeIdempotent(phone: string)
    ensures Normalize(Normalize(phone)) == Normalize(phone)
  {
    var n := Normalize(phone);
    var t := n[4..];
    assert n == "+880" + t;
    calc {
      StripNonDigits(n);
      { StripAppend("+880", t); }
      StripNonDigits("+880") + StripNonDigits(t);
      { StripDigits(t); assert StripNonDigits("+880") == "880"; }
      "880" + t;
    }
    assert ("880" + t)[..1][0] == '8';
    assert StartsWith("880" + t, "880") && ("880" + t)[3..] == t;
  }

  /** Every accepted phone is 11 ("01..."), 13 ("8801...") or 14 ("+8801...") characters long. */
  lemma AcceptedLengths(s: string)
    requires IsBdPhone(s)
    ensures |s| == 11 || |s| == 13 || |s| == 14
  {
  }

  lemma DigitsAppend(a: string, b: string)
    requires AllDigits(a) && AllDigits(b)
    ensures AllDigits(a + b)
  {
    assert forall i :: 0 <= i < |a| ==> (a + b)[i] == a[i];
    assert forall i :: |a| <= i < |a + b| ==> (a + b)[i] == b[i - |a|];
  }

  /** Normalize only looks at the digits of its input. */
  lemma NormalizeOnlyDigits(phone: string)
    ensures Normalize(StripNonDigits(phone)) == Normalize(phone)
  {
    StripDigits(StripNonDigits(phone));
  }

  lemma NormalizeZeroSubscriber(sub: string)
    requires BdSubscriber(sub)
    ensures Normalize("01" + sub) == "+8801" + sub
  {
    DigitsAppend("01", sub);
    LeadingZero("01" + sub);
    assert ("01" + sub)[1..] == "1" + sub;
  }

  lemma NormalizeCodeSubscriber(sub: string)
    requires BdSubscriber(sub)
    ensures Normalize("8801" + sub) == "+8801" + sub
  {
    DigitsAppend("8801", sub);
    LeadingCountryCode("8801" + sub);
    assert ("8801" + sub)[3..] == "1" + sub;
  }

  lemma NormalizePlusSubscriber(sub: string)
    requires BdSubscriber(sub)
    ensures Normalize("+8801" + sub) == "+8801" + sub
  {
    var s := "+8801" + sub;
    assert s[0] == '+' && s[1..] == "8801" + sub;
    assert StripNonDigits(s) == StripNonDigits("8801" + sub);
    NormalizeCodeSubscriber(sub);
  }

  /** An accepted phone normalises to "+8801", an operator digit 3-9 and eight digits. */
  lemma AcceptedNormalForm(s: string)
    requires IsBdPhone(s)
    ensures |Normalize(s)| == 14
    ensures StartsWith(Normalize(s), "+8801")
    ensures BdSubscriber(Normalize(s)[5..])
    ensures IsBdPhone(Normalize(s))
  {
    var p := if StartsWith(s, "+8801") then "+8801" else if StartsWith(s, "8801") then "8801" else "01";
    var sub := s[|p|..];
    assert BdSubscriber(sub) by {
      if StartsWith(s, "+8801") {
        assert s[..1][0] == '+';
      } else if StartsWith(s, "8801") {
        assert s[..1][0] == '8';
      }
    }
    assert s == p + sub by { assert s == s[..|p|] + s[|p|..]; }
    if p == "+8801" {
      NormalizePlusSubscriber(sub);
    } else if p == "8801" {
      NormalizeCodeSubscriber(sub);
    } else {
      NormalizeZeroSubscriber(sub);
    }
    var n := "+8801" + sub;
    assert n[..5] == "+8801" && n[5..] == sub;
  }

  /** The worked example: "01712345678" is accepted and becomes "+8801712345678". */
  lemma Example()
    ensures IsBdPhone("01712345678")
    ensures Normalize("01712345678") == "+8801712345678"
  {
    var sub := "712345678";
    assert BdSubscriber(sub);
    ZeroFormAccepted(sub);
    NormalizeZeroSubscriber(sub);
    assert "01" + sub == "01712345678";
    assert "+8801" + sub == "+8801712345678";
  }

  lemma ZeroFormAccepted(sub: string)
    requires BdSubscriber(sub)
    ensures IsBdPhone("01" + sub)
  {
    var s := "01" + sub;
    assert s[..2] == "01" && s[2..] == sub;
  }
}
