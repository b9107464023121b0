/** Base-10, 64-bit signed integer parsing as Go's strconv.ParseInt(s, 10, 64) performs it:
    an optional sign, then the digit loop of strconv.ParseUint, which stops at the first
    character that is not a digit (syntax error, value 0) or at the first digit that makes the
    accumulated value exceed the uint64 range (range error, value the uint64 maximum), and
    finally the clamping of the unsigned value into the int64 range. */
module Decimal {

  const MaxUint64: int := 0xFFFF_FFFF_FFFF_FFFF
  const MaxInt64: int := 0x7FFF_FFFF_FFFF_FFFF
  const MinInt64: int := -0x8000_0000_0000_0000
  /** 1 << (bitSize - 1) for bitSize 64: the magnitude of the most negative int64. */
  const IntCutoff: int := 0x8000_0000_0000_0000
  /** The smallest accumulator for which multiplying by the base overflows uint64. */
  const UintCutoff: int := MaxUint64 / 10 + 1

  /** The three outcomes strconv reports: nil, ErrSyntax and ErrRange. */
  datatype NumError = NoError | ErrSyntax | ErrRange

  /** The (value, error) pair that strconv's parse functions return. */
  datatype Parsed = Parsed(value: int, err: NumError)

  predicate InInt64(x: int) {
    MinInt64 <= x <= MaxInt64
  }

  predicate IsDigit(c: char) {
    '0' <= c <= '9'
  }

  function DigitValue(c: char): (d: nat)
    requires IsDigit(c)
    ensures d <= 9
  {
    (c as int) - ('0' as int)
  }

  /** The digit loop of ParseUint for base 10 and 64 bits; `n` is the value accumulated so far. */
  function ScanDigits(s: string, n: nat): (r: Parsed)
    requires n <= MaxUint64
    ensures 0 <= r.value <= MaxUint64
    ensures r.err == ErrSyntax ==> r.value == 0
    ensures r.err == ErrRange ==> r.value == MaxUint64
    ensures r.err == NoError ==> n <= r.value
    decreases |s|
  {
    if s == [] then Parsed(n, NoError)
    else if !IsDigit(s[0]) then Parsed(0, ErrSyntax)
    else if n >= UintCutoff then Parsed(MaxUint64, ErrRange)
    else
      var n1 := n * 10 + DigitValue(s[0]);
      // Go tests `n1 < n || n1 > maxVal` on wrapped uint64 values; on unbounded integers both
      // are the single test below.
      if n1 > MaxUint64 then Parsed(MaxUint64, ErrRange)
      else ScanDigits(s[1..], n1)
  }

  /** strconv.ParseUint(s, 10, 64). */
  function ParseUint(s: string): (r: Parsed)
    ensures 0 <= r.value <= MaxUint64
    ensures r.err == ErrSyntax ==> r.value == 0
    ensures r.err == ErrRange ==> r.value == MaxUint64
    ensures s == "" ==> r == Parsed(0, ErrSyntax)
  {
    if s == "" then Parsed(0, ErrSyntax) else ScanDigits(s, 0)
  }

  /** strconv.ParseInt(s, 10, 64). */
  function ParseInt(s: string): (r: Parsed)
    ensures InInt64(r.value)
    ensures r.err == ErrSyntax ==> r.value == 0
    ensures r.err == ErrRange ==> |s| > 0 && r.value == (if s[0] == '-' then MinInt64 else MaxInt64)
    ensures s == "" ==> r == Parsed(0, ErrSyntax)
  {
    if s == "" then Parsed(0, ErrSyntax)
    else
      var neg := s[0] == '-';
      var un := ParseUint(if s[0] == '+' || s[0] == '-' then s[1..] else s);
      if un.err == ErrSyntax then Parsed(0, ErrSyntax)
      else if !neg && un.value >= IntCutoff then Parsed(IntCutoff - 1, ErrRange)
      else if neg && un.value > IntCutoff then Parsed(-IntCutoff, ErrRange)
      else Parsed(if neg then -un.value else un.value, NoError)
  }

  // ---------------------------------------------------------------------------------------
  // Reference semantics: what a decimal numeral denotes, independent of the scanning loop.

  /** The text after an optional leading sign. */
  function Unsigned(s: string): (u: string)
    ensures |u| <= |s|
  {
    if |s| > 0 && (s[0] == '+' || s[0] == '-') then s[1..] else s
  }

  predicate Negative(s: string) {
    |s| > 0 && s[0] == '-'
  }

  predicate AllDigits(s: string) {
    forall i :: 0 <= i < |s| ==> IsDigit(s[i])
  }

  /** An optional `+` or `-` followed by one or more ASCII digits. */
  predicate WellFormed(s: string) {
    |Unsigned(s)| > 0 && AllDigits(Unsigned(s))
  }

  function Pow10(k: nat): (p: nat)
    ensures p >= 1
  {
    if k == 0 then 1 else 10 * Pow10(k - 1)
  }

  /** The positional value of a digit string: each digit times ten to the power of its
      distance from the last digit. */
  function DigitsValue(d: string): nat
    requires AllDigits(d)
  {
    if d == [] then 0 else DigitValue(d[0]) * Pow10(|d| - 1) + DigitsValue(d[1..])
  }

  /** The integer a well-formed numeral denotes, with no range limit. */
  function DecimalValue(s: string): int
    requires WellFormed(s)
  {
    var v: int := DigitsValue(Unsigned(s));
    if Negative(s) then -v else v
  }

  /** The nearest int64 to `x`. */
  function Clamp(x: int): (c: int)
    ensures InInt64(c)
    ensures InInt64(x) ==> c == x
    ensures x > MaxInt64 ==> c == MaxInt64
    ensures x < MinInt64 ==> c == MinInt64
  {
    if x > MaxInt64 then MaxInt64 else if x < MinInt64 then MinInt64 else x
  }

  /** The longest prefix of `s` made of digits. */
  function LeadingDigits(s: string): (d: string)
    ensures AllDigits(d)
    ensures |d| <= |s| && d == s[..|d|]
    ensures |d| < |s| ==> !IsDigit(s[|d|])
  {
    if s == [] || !IsDigit(s[0]) then [] else [s[0]] + LeadingDigits(s[1..])
  }

  /** The accumulator the digit loop would reach, starting from `n`, on the digits `d`. */
  function Accumulate(n: nat, d: string): nat
    requires AllDigits(d)
    decreases |d|
  {
    if d == [] then n else Accumulate(n * 10 + DigitValue(d[0]), d[1..])
  }

  // ---------------------------------------------------------------------------------------
  // Lemmas connecting the scanning loop to the reference semantics.

  lemma {:induction false} AccumulateGrows(n: nat, d: string)
    requires AllDigits(d)
    ensures Accumulate(n, d) >= n
    ensures |d| > 0 ==> Accumulate(n, d) >= n * 10 + DigitValue(d[0])
    decreases |d|
  {
    if d != [] {
      AccumulateGrows(n * 10 + DigitValue(d[0]), d[1..]);
    }
  }

  lemma ShiftDigit(n: nat, k: nat, p: nat)
    ensures (n * 10 + k) * p == n * (10 * p) + k * p
  {
  }

  /** Accumulating from `n` shifts `n` left by the number of digits and adds their value. */
  lemma {:induction false} AccumulateValue(n: nat, d: string)
    requires AllDigits(d)
    ensures Accumulate(n, d) == n * Pow10(|d|) + DigitsValue(d)
    decreases |d|
  {
    if d != [] {
      var k := DigitValue(d[0]);
      var p := Pow10(|d| - 1);
      AccumulateValue(n * 10 + k, d[1..]);
      assert Pow10(|d|) == 10 * p;
      ShiftDigit(n, k, p);
    }
  }

  lemma {:induction false} LeadingDigitsOfAllDigits(s: string)
    ensures AllDigits(s) <==> LeadingDigits(s) == s
    decreases |s|
  {
    if s != [] {
      LeadingDigitsOfAllDigits(s[1..]);
      if IsDigit(s[0]) {
        assert AllDigits(s) <==> AllDigits(s[1..]) by {
          if AllDigits(s[1..]) {
            forall i | 0 <= i < |s| ensures IsDigit(s[i]) {
              if i > 0 { assert s[i] == s[1..][i - 1]; }
            }
          }
        }
      }
    }
  }

  /** The digit loop in closed form: it overflows exactly when the value of the leading digits
      exceeds uint64, otherwise it succeeds exactly when every character is a digit. */
  lemma {:induction false} ScanDigitsOutcome(s: string, n: nat)
    requires n <= MaxUint64
    ensures var v := Accumulate(n, LeadingDigits(s));
      ScanDigits(s, n) ==
        if v > MaxUint64 then Parsed(MaxUint64, ErrRange)
        else if LeadingDigits(s) == s then Parsed(v, NoError)
        else Parsed(0, ErrSyntax)
    decreases |s|
  {
    if s != [] && IsDigit(s[0]) {
      var lead := LeadingDigits(s);
      assert lead[0] == s[0] && lead[1..] == LeadingDigits(s[1..]);
      var n1 := n * 10 + DigitValue(s[0]);
      AccumulateGrows(n, lead);
      if n1 <= MaxUint64 {
        ScanDigitsOutcome(s[1..], n1);
        assert lead == s <==> lead[1..] == s[1..];
      }
    }
  }

  /** A non-empty digit string parses unsigned to its value, or overflows to the uint64
      maximum with a range error. */
  lemma ParseUintDigits(s: string)
    requires s != "" && AllDigits(s)
    ensures ParseUint(s) ==
      if DigitsValue(s) <= MaxUint64 then Parsed(DigitsValue(s), NoError)
      else Parsed(MaxUint64, ErrRange)
  {
    LeadingDigitsOfAllDigits(s);
    ScanDigitsOutcome(s, 0);
    AccumulateValue(0, s);
  }

  /** A well-formed numeral parses to the value it denotes, clamped to int64, with a range
      error exactly when clamping was needed. */
  lemma ParseWellFormed(s: string)
    requires WellFormed(s)
    ensures ParseInt(s) ==
      if InInt64(DecimalValue(s)) then Parsed(DecimalValue(s), NoError)
      else Parsed(Clamp(DecimalValue(s)), ErrRange)
  {
    var u := Unsigned(s);
    LeadingDigitsOfAllDigits(u);
    ScanDigitsOutcome(u, 0);
    AccumulateValue(0, u);
  }

  /** A malformed text (empty, a bare sign, or a non-digit character) parses to 0 with a syntax
      error, provided its leading digits do not already overflow uint64. */
  lemma ParseMalformed(s: string)
    requires !WellFormed(s)
    requires Accumulate(0, LeadingDigits(Unsigned(s))) <= MaxUint64
    ensures ParseInt(s) == Parsed(0, ErrSyntax)
  {
    var u := Unsigned(s);
    LeadingDigitsOfAllDigits(u);
    if u != "" {
      ScanDigitsOutcome(u, 0);
    }
  }

  /** Leading digits that overflow uint64 give the int64 bound of the sign with a range error,
      whatever follows them: the digit loop returns before it reaches a bad character. */
  lemma ParseOverflowFirst(s: string)
    requires Accumulate(0, LeadingDigits(Unsigned(s))) > MaxUint64
    ensures ParseInt(s) == Parsed(if Negative(s) then MinInt64 else MaxInt64, ErrRange)
  {
    ScanDigitsOutcome(Unsigned(s), 0);
  }
}
