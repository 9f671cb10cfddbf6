/** The printed form of a decimal is canonical: no superfluous digit on either side. */
module PrintedForm {
  import opened Fixed
  import opened Decimal256

  /** A digit string shows every digit it needs and no more. */
  predicate NoLeadingZero(s: string) {
    |s| > 1 ==> s[0] != '0'
  }

  lemma {:induction false} DigitsStart(n: nat)
    ensures NoLeadingZero(Digits(n))
    ensures n > 0 ==> Digits(n)[0] != '0'
  {
    if n >= 10 {
      DigitsStart(n / 10);
      assert Digits(n)[0] == Digits(n / 10)[0];
    }
  }

  /** A digit string is trimmed of zeros at its end, and of nothing else. */
  lemma {:induction false} TrimmedEnd(s: string)
    requires AllDigits(s)
    ensures AllDigits(TrimZeros(s)) && TrimZeros(s) <= s
    ensures Value(s) > 0 ==> TrimZeros(s) != "" && TrimZeros(s)[|TrimZeros(s)| - 1] != '0'
    decreases |s|
  {
    if s != "" && s[|s| - 1] == '0' {
      TrimmedEnd(s[..|s| - 1]);
    }
  }

  /** The whole form of a printed decimal: the digits of the whole part without leading zeros,
      and, unless the decimal is integral, a dot and at most 18 digits that do not end in a
      zero, at their place. */
  lemma PrintedIs(d: nat) returns (w: string, f: string)
    ensures AllDigits(w) && w != "" && NoLeadingZero(w) && Value(w) == d / ONE
    ensures AllDigits(f) && |f| <= PLACES && Value(f) * Pow10(PLACES - |f|) == d % ONE
    ensures if d % ONE == 0 then f == "" && Printed(d) == w
            else f != "" && f[|f| - 1] != '0' && Printed(d) == w + "." + f
  {
    var fractional := d % ONE;
    w := Digits(d / ONE);
    DigitsValue(d / ONE);
    DigitsStart(d / ONE);
    if fractional == 0 {
      f := "";
    } else {
      f := TrimZeros(Padded(fractional));
      PaddedValue(fractional);
      TrimmedEnd(Padded(fractional));
      TrimValue(Padded(fractional));
    }
  }

  /** A dot is printed exactly for a decimal with a fraction. */
  lemma DotIff(d: nat)
    ensures '.' in Printed(d) <==> d % ONE != 0
  {
    var w, f := PrintedIs(d);
    hide Printed;
    if d % ONE != 0 {
      assert Printed(d)[|w|] == '.';
    }
  }

  // ----- the shortest form -----

  lemma {:induction false} ValueBound(s: string)
    requires AllDigits(s)
    ensures Value(s) < Pow10(|s|)
  {
    if s != "" {
      ValueBound(s[..|s| - 1]);
    }
  }

  lemma {:induction false} Pow10Sum(a: nat, b: nat)
    ensures Pow10(a + b) == Pow10(a) * Pow10(b)
  {
    if a > 0 {
      Pow10Sum(a - 1, b);
      assert 10 * (Pow10(a - 1) * Pow10(b)) == (10 * Pow10(a - 1)) * Pow10(b);
    }
  }

  /** A fraction is below one. */
  lemma FractionBound(f: string)
    requires AllDigits(f) && |f| <= PLACES
    ensures Value(f) * Pow10(PLACES - |f|) < ONE
  {
    ValueBound(f);
    Pow10Sum(|f|, PLACES - |f|);
    OneIsPow10();
    Below(Value(f), Pow10(|f|), Pow10(PLACES - |f|));
  }

  lemma Below(a: nat, b: nat, c: nat)
    requires a < b && c > 0
    ensures a * c < b * c
  {
  }

  /** Fractional digits that do not end in a zero are the shortest of their value. */
  lemma FractionShortest(f: string, g: string)
    requires AllDigits(f) && AllDigits(g) && |f| <= PLACES && |g| <= PLACES
    requires Value(f) * Pow10(PLACES - |f|) == Value(g) * Pow10(PLACES - |g|)
    requires f != "" && f[|f| - 1] != '0'
    ensures |f| <= |g|
  {
    hide Pow10, Value, AllDigits;
    if |g| < |f| {
      var k := |f| - |g|;
      Pow10Sum(k, PLACES - |f|);
      SameScale(Value(f), Value(g), Pow10(k), Pow10(PLACES - |f|));
      Pow10Step(k, Value(g));
      LastDigit(f, Value(g) * Pow10(k - 1));
    }
  }

  lemma Pow10Step(k: nat, v: nat)
    requires k > 0
    ensures v * Pow10(k) == 10 * (v * Pow10(k - 1))
  {
  }

  lemma SameScale(u: nat, v: nat, p: nat, q: nat)
    requires q > 0 && u * q == v * (p * q)
    ensures u == v * p
  {
    assert v * (p * q) == (v * p) * q;
    MulCancel(u, v * p, q);
    MulCancel(v * p, u, q);
  }

  lemma LastDigit(f: string, m: nat)
    requires AllDigits(f) && f != "" && Value(f) == 10 * m
    ensures f[|f| - 1] == '0'
  {
    var front, v := Value(f[..|f| - 1]), DigitValue(f[|f| - 1]);
    assert 10 * (m - front) == v;
  }

  lemma SameParts(whole: nat, fraction: nat, d: nat)
    requires whole * ONE + fraction == d && fraction < ONE
    ensures whole == d / ONE && fraction == d % ONE
  {
    FloorUnique(d, ONE, whole);
  }

  /** Without leading zeros a digit string is the shortest of its value. */
  lemma {:induction false} NoLeadingZeroShortest(w: string, v: string)
    requires AllDigits(w) && AllDigits(v) && w != "" && v != "" && NoLeadingZero(w)
    requires Value(w) == Value(v)
    ensures |w| <= |v|
    decreases |w|
  {
    if |w| > 1 {
      var a, b := w[..|w| - 1], v[..|v| - 1];
      assert Value(w) == 10 * Value(a) + DigitValue(w[|w| - 1]);
      assert Value(v) == 10 * Value(b) + DigitValue(v[|v| - 1]);
      Leading(a);
      assert Value("") == 0;
      NoLeadingZeroShortest(a, b);
    }
  }

  lemma {:induction false} Leading(a: string)
    requires AllDigits(a) && a != "" && a[0] != '0'
    ensures Value(a) > 0
  {
    if |a| > 1 {
      Leading(a[..|a| - 1]);
    } else {
      assert a[..0] == "";
    }
  }

  lemma PartsOf(d: nat, v: string, g: string)
    requires AllDigits(v) && AllDigits(g) && |g| <= PLACES && Atomics(v, g) == d
    ensures Value(v) == d / ONE && Value(g) * Pow10(PLACES - |g|) == d % ONE
  {
    hide Value, Pow10, AllDigits;
    FractionBound(g);
    SameParts(Value(v), Value(g) * Pow10(PLACES - |g|), d);
  }

  /** The parts of any accepted string with a whole part, against those of the printed form. */
  lemma PartsShortest(d: nat, w: string, f: string, v: string, g: string)
    requires AllDigits(w) && w != "" && NoLeadingZero(w) && Value(w) == d / ONE
    requires AllDigits(f) && |f| <= PLACES && Value(f) * Pow10(PLACES - |f|) == d % ONE
    requires d % ONE != 0 ==> f != "" && f[|f| - 1] != '0'
    requires AllDigits(v) && AllDigits(g) && |g| <= PLACES && v != "" && Atomics(v, g) == d
    ensures |w| <= |v| && (d % ONE != 0 ==> 0 < |f| <= |g|)
  {
    hide Value, Pow10, AllDigits, NoLeadingZero;
    PartsOf(d, v, g);
    NoLeadingZeroShortest(w, v);
    if d % ONE != 0 {
      FractionShortest(f, g);
    }
  }

  /** The printed form is the shortest string with a whole part that parses to the decimal. */
  lemma PrintedIsShortest(d: nat, s: string)
    requires FromStr(s) == Parsed(d)
    requires s != "" && s[0] != '.'
    ensures |Printed(d)| <= |s|
  {
    hide Printed, FromStr, Value, Pow10, AllDigits, NoLeadingZero, Atomics;
    var w, f := PrintedIs(d);
    var v, g := FromStrMeans(s);
    PartsShortest(d, w, f, v, g);
  }

  /** Every digit counts for what it is written as, with 18 places in 256 bits. */
  lemma DigitsAsWritten(c: char)
    requires IsDigit(c)
    ensures c == "0123456789"[DigitValue(c)]
    ensures LIMIT256 == LIMIT * LIMIT && PLACES == 18
  {
  }
}
