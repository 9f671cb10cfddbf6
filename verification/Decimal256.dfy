/** Parsing and printing 256-bit decimals with 18 fractional digits. */
module Decimal256 {
  import opened Fixed

  /** 2^256. */
  const LIMIT256: nat :=
    0x1_0000_0000_0000_0000_0000_0000_0000_0000_0000_0000_0000_0000_0000_0000_0000_0000

  /** The number of fractional digits. */
  const PLACES: nat := 18

  datatype ParseError =
    | ParsingWhole
    | ParsingFractional
    | TooManyFractionalDigits
    | UnexpectedDots
    | TooLarge

  datatype Parsed<+T> = Parsed(value: T) | Failed(error: ParseError) {
    predicate IsFailure() {
      Failed?
    }

    function PropagateFailure<U>(): Parsed<U>
      requires Failed?
    {
      Failed(error)
    }

    function Extract(): T
      requires Parsed?
    {
      value
    }
  }

  function Pow10(k: nat): (p: nat)
    ensures p > 0
  {
    if k == 0 then 1 else 10 * Pow10(k - 1)
  }

  // ----- unsigned integers as digit strings -----

  predicate IsDigit(c: char) {
    '0' <= c <= '9'
  }

  predicate AllDigits(s: string) {
    forall i | 0 <= i < |s| :: IsDigit(s[i])
  }

  function DigitValue(c: char): (v: nat)
    requires IsDigit(c)
    ensures v < 10
  {
    c as nat - '0' as nat
  }

  /** The value of a digit string; leading zeros count for nothing, and the empty string is
      zero. */
  function Value(s: string): nat
    requires AllDigits(s)
  {
    if s == "" then 0 else 10 * Value(s[..|s| - 1]) + DigitValue(s[|s| - 1])
  }

  function ParseDigits(s: string, onError: ParseError): Parsed<nat> {
    if AllDigits(s) && Value(s) < LIMIT256 then Parsed(Value(s)) else Failed(onError)
  }

  function DigitChar(v: nat): (c: char)
    requires v < 10
    ensures IsDigit(c) && DigitValue(c) == v
    ensures c == '0' <==> v == 0
  {
    '0' + v as char
  }

  function Digits(n: nat): (s: string)
    ensures |s| > 0
  {
    if n < 10 then [DigitChar(n)] else Digits(n / 10) + [DigitChar(n % 10)]
  }

  function Zeros(k: nat): (s: string)
    ensures |s| == k && AllDigits(s)
    ensures forall i | 0 <= i < k :: s[i] == '0'
  {
    seq(k, _ => '0')
  }

  // ----- parsing -----

  /** The parts of a string between its dots. */
  function Split(s: string): (parts: seq<string>)
    ensures |parts| > 0
  {
    if s == "" then [""]
    else if s[0] == '.' then [""] + Split(s[1..])
    else
      var rest := Split(s[1..]);
      [[s[0]] + rest[0]] + rest[1..]
  }

  function Fit256(n: nat): Parsed<nat> {
    if n < LIMIT256 then Parsed(n) else Failed(TooLarge)
  }

  /** The atomics of a whole part and of fractional digits at their place. */
  function Combine(whole: nat, fractional: nat, factor: nat): Parsed<nat> {
    var wholeAtomics :- Fit256(whole * ONE);
    var fractionalAtomics :- Fit256(fractional * factor);
    Fit256(wholeAtomics + fractionalAtomics)
  }

  function FromStr(input: string): Parsed<nat> {
    var parts := Split(input);
    if |parts| == 1 then
      var whole :- ParseDigits(parts[0], ParsingWhole);
      Fit256(whole * ONE)
    else if |parts| == 2 then
      var whole :- ParseDigits(parts[0], ParsingWhole);
      var fractional :- ParseDigits(parts[1], ParsingFractional);
      if |parts[1]| > PLACES then Failed(TooManyFractionalDigits)
      else Combine(whole, fractional, Pow10(PLACES - |parts[1]|))
    else Failed(UnexpectedDots)
  }

  // ----- printing -----

  /** A string without its trailing zeros. */
  function TrimZeros(s: string): (t: string)
    ensures |t| <= |s|
  {
    if s != "" && s[|s| - 1] == '0' then TrimZeros(s[..|s| - 1]) else s
  }

  /** The 18 fractional digits of `fractional` atomics. */
  function Padded(fractional: nat): string {
    var digits := Digits(fractional);
    Zeros(if |digits| <= PLACES then PLACES - |digits| else 0) + digits
  }

  function Printed(d: nat): string {
    var whole, fractional := d / ONE, d % ONE;
    if fractional == 0 then Digits(whole)
    else Digits(whole) + "." + TrimZeros(Padded(fractional))
  }

  /** An output that strings are appended to. */
  class Formatter {
    var buffer: string

    constructor ()
      ensures buffer == ""
    {
      buffer := "";
    }

    method WriteStr(s: string)
      modifies this
      ensures buffer == old(buffer) + s
    {
      buffer := buffer + s;
    }

    /** Writes a decimal: whole part, and unless it is integral a dot and the fraction
        padded to 18 places without its trailing zeros. */
    method Fmt(d: nat)
      modifies this
      ensures buffer == old(buffer) + Printed(d)
    {
      var whole, fractional := d / ONE, d % ONE;
      if fractional == 0 {
        WriteStr(Digits(whole));
      } else {
        var fractionalString := Digits(fractional);
        OneIsPow10();
        DigitsLength(fractional, PLACES);
        fractionalString := Zeros(PLACES - |fractionalString|) + fractionalString;
        WriteStr(Digits(whole));
        WriteStr(".");
        WriteStr(TrimZeros(fractionalString));
        assert old(buffer) + Digits(whole) + "." + TrimZeros(fractionalString)
            == old(buffer) + (Digits(whole) + "." + TrimZeros(fractionalString));
      }
    }
  }

  // ----- printing and parsing undo each other -----

  lemma {:induction false} ValueConcat(a: string, b: string)
    requires AllDigits(a) && AllDigits(b)
    ensures AllDigits(a + b)
    ensures Value(a + b) == Value(a) * Pow10(|b|) + Value(b)
    decreases |b|
  {
    if b == "" {
      assert a + b == a;
    } else {
      var front := b[..|b| - 1];
      ValueConcat(a, front);
      assert (a + b)[..|a + b| - 1] == a + front;
      ShiftDigit(Value(a), Pow10(|front|), Value(front), DigitValue(b[|b| - 1]));
    }
  }

  lemma ShiftDigit(a: nat, p: nat, f: nat, v: nat)
    ensures 10 * (a * p + f) + v == a * (10 * p) + (10 * f + v)
  {
  }

  lemma {:induction false} ZerosValue(k: nat)
    ensures Value(Zeros(k)) == 0
  {
    if k > 0 {
      ZerosValue(k - 1);
      assert Zeros(k)[..k - 1] == Zeros(k - 1);
    }
  }

  /** Printing an integer and reading it back. */
  lemma {:induction false} DigitsValue(n: nat)
    ensures AllDigits(Digits(n)) && Value(Digits(n)) == n
  {
    if n >= 10 {
      DigitsValue(n / 10);
      assert Digits(n)[..|Digits(n)| - 1] == Digits(n / 10);
    } else {
      assert Digits(n)[..0] == "";
    }
  }

  lemma {:induction false} DigitsLength(n: nat, k: nat)
    requires n < Pow10(k) && k > 0
    ensures |Digits(n)| <= k
  {
    assert Pow10(k) == 10 * Pow10(k - 1);
    if n >= 10 {
      DigitsLength(n / 10, k - 1);
    }
  }

  /** Trimming divides by a power of ten. */
  lemma {:induction false} TrimValue(s: string)
    requires AllDigits(s)
    ensures AllDigits(TrimZeros(s))
    ensures Value(s) == Value(TrimZeros(s)) * Pow10(|s| - |TrimZeros(s)|)
    decreases |s|
  {
    var t := TrimZeros(s);
    if s != "" && s[|s| - 1] == '0' {
      TrimValue(s[..|s| - 1]);
      ShiftDigit(Value(t), Pow10(|s| - 1 - |t|), 0, 0);
    }
  }

  lemma OneIsPow10()
    ensures Pow10(PLACES) == ONE
  {
    assert Pow10(6) == 1_000_000;
    assert Pow10(12) == 1_000_000 * Pow10(6);
    assert Pow10(18) == 1_000_000 * Pow10(12);
  }

  lemma PaddedValue(fractional: nat)
    requires fractional < ONE
    ensures AllDigits(Padded(fractional))
    ensures Value(Padded(fractional)) == fractional
    ensures |Padded(fractional)| == PLACES
  {
    var digits := Digits(fractional);
    OneIsPow10();
    DigitsLength(fractional, PLACES);
    DigitsValue(fractional);
    ZerosValue(PLACES - |digits|);
    ValueConcat(Zeros(PLACES - |digits|), digits);
  }

  lemma {:induction false} SplitPlain(s: string)
    requires AllDigits(s)
    ensures Split(s) == [s]
  {
    if s != "" {
      assert IsDigit(s[0]);
      SplitPlain(s[1..]);
      assert [s[0]] + s[1..] == s;
    }
  }

  lemma {:induction false} SplitAtDot(w: string, rest: string)
    requires AllDigits(w)
    ensures Split(w + "." + rest) == [w] + Split(rest)
  {
    var s := w + "." + rest;
    if w == "" {
      assert s[1..] == rest;
    } else {
      assert IsDigit(w[0]) && s[0] == w[0];
      assert s[1..] == w[1..] + "." + rest;
      SplitAtDot(w[1..], rest);
      assert [w[0]] + w[1..] == w;
      assert ([w[1..]] + Split(rest))[1..] == Split(rest);
    }
  }

  /** The exact value, in atomics, of whole digits `w` and fractional digits `f`. */
  function Atomics(w: string, f: string): nat
    requires AllDigits(w) && AllDigits(f) && |f| <= PLACES
  {
    Value(w) * ONE + Value(f) * Pow10(PLACES - |f|)
  }

  /** What a string of digits, a dot and at most 18 digits parses to: exactly its value,
      never rounded. */
  lemma FromStrFraction(w: string, f: string)
    requires AllDigits(w) && AllDigits(f) && |f| <= PLACES
    requires Atomics(w, f) < LIMIT256
    ensures FromStr(w + "." + f) == Parsed(Atomics(w, f))
  {
    CombineAtomics(w, f);
    hide Split, Value, Pow10, Combine, Atomics;
    SplitAtDot(w, f);
    SplitPlain(f);
    assert [w] + [f] == [w, f];
  }

  lemma CombineAtomics(w: string, f: string)
    requires AllDigits(w) && AllDigits(f) && |f| <= PLACES
    requires Atomics(w, f) < LIMIT256
    ensures Combine(Value(w), Value(f), Pow10(PLACES - |f|)) == Parsed(Atomics(w, f))
    ensures Value(w) < LIMIT256 && Value(f) < LIMIT256
  {
    hide Combine, Value, Pow10;
    CombineIs(Value(w), Value(f), Pow10(PLACES - |f|));
  }

  lemma CombineIs(whole: nat, fractional: nat, factor: nat)
    requires factor > 0 && whole * ONE + fractional * factor < LIMIT256
    ensures Combine(whole, fractional, factor) == Parsed(whole * ONE + fractional * factor)
    ensures whole < LIMIT256 && fractional < LIMIT256
  {
    AtLeast(fractional, factor);
  }

  lemma AtLeast(v: nat, p: nat)
    requires p > 0
    ensures v <= v * p
  {
  }

  lemma FromStrWhole(w: string)
    requires AllDigits(w) && Value(w) * ONE < LIMIT256
    ensures FromStr(w) == Parsed(Value(w) * ONE)
  {
    SplitPlain(w);
  }

  /** Every 256-bit decimal is read back from its printed form, with no overflow. */
  lemma RoundTrip(d: nat)
    requires d < LIMIT256
    ensures FromStr(Printed(d)) == Parsed(d)
  {
    var whole, fractional := d / ONE, d % ONE;
    DigitsValue(whole);
    if fractional == 0 {
      FromStrWhole(Digits(whole));
    } else {
      var padded := Padded(fractional);
      var trimmed := TrimZeros(padded);
      PaddedValue(fractional);
      TrimValue(padded);
      hide Digits, Value, Pow10, AllDigits, TrimZeros, Padded, FromStr;
      FromStrFraction(Digits(whole), trimmed);
    }
  }

  /** Printing is injective. */
  lemma PrintedInjective(d: nat, e: nat)
    requires d < LIMIT256 && e < LIMIT256
    ensures Printed(d) == Printed(e) ==> d == e
  {
    RoundTrip(d);
    RoundTrip(e);
  }

  function Joined(parts: seq<string>): string
    requires |parts| > 0
  {
    if |parts| == 1 then parts[0] else parts[0] + "." + Joined(parts[1..])
  }

  lemma {:induction false} SplitJoins(s: string)
    ensures Joined(Split(s)) == s
  {
    if s != "" {
      var rest := Split(s[1..]);
      SplitJoins(s[1..]);
      if s[0] == '.' {
        assert Split(s) == [""] + rest && Split(s)[1..] == rest;
        assert Joined(Split(s)) == "" + "." + s[1..];
      } else {
        assert Split(s) == [[s[0]] + rest[0]] + rest[1..] && Split(s)[1..] == rest[1..];
        assert Joined(Split(s)) == [s[0]] + Joined(rest);
      }
    }
  }

  /** Whatever parses is digits, or digits around one dot with at most 18 after it, and the
      result is its exact value: no other string is accepted and nothing is rounded. */
  lemma FromStrMeans(s: string) returns (w: string, f: string)
    requires FromStr(s).Parsed?
    ensures AllDigits(w) && AllDigits(f) && |f| <= PLACES
    ensures (s == w && f == "") || s == w + "." + f
    ensures FromStr(s) == Parsed(Atomics(w, f)) && Atomics(w, f) < LIMIT256
  {
    SplitJoins(s);
    var parts := Split(s);
    w, f := parts[0], if |parts| == 1 then "" else parts[1];
    assert |parts| == 2 ==> parts[1..] == [f];
  }

  /** The code accepts the empty whole parts its documentation rules out. */
  lemma EmptyWholeParses()
    ensures FromStr("") == Parsed(0)
    ensures FromStr(".5") == Parsed(ONE / 2)
  {
    FromStrWhole("");
    assert Value("5") == 5 by { assert "5"[..0] == ""; }
    assert "" + "." + "5" == ".5";
    assert 10 * Pow10(17) == Pow10(PLACES);
    OneIsPow10();
    FromStrFraction("", "5");
  }
}
