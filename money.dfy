/** Fee text to amounts. Both ledger hooks carry the same `parseNum`
    (src/hooks/useSupabaseSync.ts and src/hooks/useLocalStorage.ts); the CSV
    export uses `parseFloat(x) || 0` instead. Amounts are whole rupees:
    a fee is read as an optional sign followed by its leading decimal digits. */
module Money {
  import opened Strings

  /** The integer part JavaScript's `parseFloat` reads from text that has
      already lost its leading white space; "no digits" (NaN) reads as 0. */
  function SignedLeadingValue(t: string): int
  {
    if t != [] && t[0] == '-' then -(DigitsValue(LeadingDigits(t[1..])) as int)
    else if t != [] && t[0] == '+' then DigitsValue(LeadingDigits(t[1..]))
    else DigitsValue(LeadingDigits(t))
  }

  /** `parseFloat(s) || 0`: `parseFloat` skips leading white space itself. */
  function ParseFloatOrZero(s: string): int
  {
    SignedLeadingValue(TrimStart(s))
  }

  /** `parseNum`: trimmed empty text is 0, otherwise the parse, with a
      parse that is not a finite number read as 0. It never fails. */
  function ParseNum(s: string): int
  {
    var t := Trim(s);
    if t == "" then 0 else ParseFloatOrZero(t)
  }

  /** Empty and white-space-only text parses to 0. */
  lemma ParseNumBlank(s: string)
    requires forall i :: 0 <= i < |s| ==> IsSpace(s[i])
    ensures ParseNum(s) == 0
  {
    TrimAllSpace(s);
  }

  /** Text with no decimal digit at all (such as "abc") parses to 0. */
  lemma ParseNumNoDigits(s: string)
    requires forall i :: 0 <= i < |s| ==> !IsDigit(s[i])
    ensures ParseNum(s) == 0
  {
    var t := Trim(s);
    TrimBorders(s);
    TrimChars(s);
    if t != "" {
      assert TrimStart(t) == t;
      var body := if t[0] == '-' || t[0] == '+' then t[1..] else t;
      if body != [] {
        assert body[0] in t;
      }
      assert LeadingDigits(body) == [];
    }
  }

  /** Text without a minus sign never parses to a negative amount. */
  lemma ParseNumNonNegative(s: string)
    requires '-' !in s
    ensures ParseNum(s) >= 0
  {
    var t := Trim(s);
    TrimBorders(s);
    TrimChars(s);
    if t != "" {
      assert TrimStart(t) == t;
      assert t[0] in t;
    }
  }

  lemma LeadingDigitsOfDigits(d: string)
    requires AllDigits(d)
    ensures LeadingDigits(d) == d
  {
  }

  /** `parseNum(String(k)) == k`: an amount written out with `String` reads
      back as the same amount. */
  lemma ParseNumOfString(k: int)
    ensures ParseNum(IntToString(k)) == k
  {
    if k < 0 {
      var n: nat := -k;
      var s := IntToString(k);
      assert s == "-" + NatToString(n);
      ParseNumOfNegative(n);
    } else {
      assert IntToString(k) == NatToString(k);
      ParseNumOfNat(k);
    }
  }

  lemma ParseNumOfNat(n: nat)
    ensures ParseNum(NatToString(n)) == n
  {
    var d := NatToString(n);
    ParseNumUntrimmed(d);
    LeadingDigitsOfDigits(d);
    NatToStringValue(n);
  }

  /** A numeral known to be `String(n)` reads back as `n`. */
  lemma ParseNumOfNumeral(n: nat, s: string)
    requires s == NatToString(n)
    ensures ParseNum(s) == n
  {
    ParseNumOfNat(n);
  }

  lemma ParseNumOfNegative(n: nat)
    requires n > 0
    ensures ParseNum("-" + NatToString(n)) == -(n as int)
  {
    var d := NatToString(n);
    var s := "-" + d;
    ParseNumUntrimmed(s);
    assert s[1..] == d;
    LeadingDigitsOfDigits(d);
    NatToStringValue(n);
  }

  /** A three-digit numeral without a leading zero reads as its value. */
  lemma ParseNumOfThreeDigits(a: nat, b: nat, c: nat)
    requires 1 <= a < 10 && b < 10 && c < 10
    ensures ParseNum([DigitChar(a), DigitChar(b), DigitChar(c)]) == 100 * a + 10 * b + c
  {
    var s := [DigitChar(a), DigitChar(b), DigitChar(c)];
    assert s[..2] == [DigitChar(a), DigitChar(b)];
    assert s[..2][..1] == [DigitChar(a)];
    assert [DigitChar(a)][..0] == [];
    assert DigitValue(DigitChar(a)) == a && DigitValue(DigitChar(b)) == b && DigitValue(DigitChar(c)) == c;
    assert DigitsValue([DigitChar(a)]) == a;
    assert DigitsValue(s[..2]) == 10 * a + b;
    assert DigitsValue(s) == 100 * a + 10 * b + c;
    assert s[0] != '-' && s[0] != '+' && !IsSpace(s[0]) && !IsSpace(s[2]);
    ParseNumUntrimmed(s);
    LeadingDigitsOfDigits(s);
  }

  /** Text without white space at either end is parsed as it stands. */
  lemma ParseNumUntrimmed(s: string)
    requires s != [] && !IsSpace(s[0]) && !IsSpace(s[|s| - 1])
    ensures ParseNum(s) == SignedLeadingValue(s) == ParseFloatOrZero(s)
  {
    TrimNoBorderSpace(s);
    assert TrimStart(s) == s;
  }

  /** On whole-rupee amounts the export's `parseFloat(x) || 0` and `parseNum`
      agree on every text: trailing white space never reaches the digits. */
  lemma ParseFloatOrZeroIsParseNum(s: string)
    ensures ParseFloatOrZero(s) == ParseNum(s)
  {
    if TrimEnd(TrimStart(s)) == "" {
      BlankAfterTrimStart(s);
    } else {
      TrimmedParts(s);
      ParseWithTrailing(Trim(s), TrimEndRest(TrimStart(s)));
    }
  }

  lemma TrimmedParts(s: string)
    requires Trim(s) != ""
    ensures ParseFloatOrZero(s) == SignedLeadingValue(Trim(s) + TrimEndRest(TrimStart(s)))
    ensures ParseNum(s) == ParseFloatOrZero(Trim(s))
    ensures !IsSpace(Trim(s)[0]) && !IsSpace(Trim(s)[|Trim(s)| - 1])
    ensures TrimEndRest(TrimStart(s)) == [] || IsSpace(TrimEndRest(TrimStart(s))[0])
  {
    TrimBorders(s);
  }

  lemma ParseWithTrailing(t: string, w: string)
    requires t != [] && !IsSpace(t[0]) && !IsSpace(t[|t| - 1])
    requires w == [] || IsSpace(w[0])
    ensures ParseFloatOrZero(t) == SignedLeadingValue(t + w)
  {
    ParseNumUntrimmed(t);
    SignedLeadingAppend(t, w);
  }

  lemma BlankAfterTrimStart(s: string)
    requires TrimEnd(TrimStart(s)) == ""
    ensures TrimStart(s) == ""
  {
  }

  /** What `trimEnd` cuts off: empty, or starting with white space. */
  function TrimEndRest(u: string): (w: string)
    ensures u == TrimEnd(u) + w
    ensures w == [] || IsSpace(w[0])
    ensures TrimEnd(u) != [] ==> TrimEnd(u)[0] == u[0]
  {
    u[|TrimEnd(u)|..]
  }

  /** Trailing white space does not change what `parseFloat` reads. */
  lemma SignedLeadingAppend(t: string, w: string)
    requires t != []
    requires w == [] || !IsDigit(w[0])
    ensures SignedLeadingValue(t + w) == SignedLeadingValue(t)
  {
    assert (t + w)[0] == t[0];
    if t[0] == '-' || t[0] == '+' {
      assert (t + w)[1..] == t[1..] + w;
      LeadingDigitsAppend(t[1..], w);
    } else {
      LeadingDigitsAppend(t, w);
    }
  }
}
