/**
 * The pieces of java.lang semantics that the flight code relies on:
 * the 32-bit int range, integer division that truncates toward zero,
 * String.trim and Integer.parseInt (radix 10).
 */
module JavaLang {

  datatype Option<+T> = None | Some(value: T)

  const MinInt: int := -0x8000_0000
  const MaxInt: int := 0x7fff_ffff

  /** Java's `/` on integers with a positive divisor: the quotient rounds toward zero
      (Dafny's own `/` is Euclidean and rounds negative dividends down). */
  function Quot(a: int, b: int): (q: int)
    requires b > 0
    ensures a >= 0 ==> 0 <= q && q * b <= a < q * b + b
    ensures a < 0 ==> q <= 0 && q * b - b < a <= q * b
  {
    if a >= 0 then
      EuclidBounds(a, b);
      a / b
    else
      EuclidBounds(-a, b);
      -((-a) / b)
  }

  lemma EuclidBounds(a: nat, b: int)
    requires b > 0
    ensures 0 <= a / b && (a / b) * b <= a < (a / b) * b + b
  {
    var q, r := a / b, a % b;
    assert a == b * q + r && 0 <= r < b;
    assert b * q == q * b;
  }

  // ---------------------------------------------------------------------------
  // String.trim

  /** String.trim removes every leading and trailing character up to U+0020. */
  predicate IsBlank(c: char) {
    c <= ' '
  }

  /** The first index at or after `st` whose character is not blank, or |s|
      (String.trim's first loop). */
  function SkipLeading(s: string, st: nat): (i: nat)
    requires st <= |s|
    ensures st <= i <= |s|
    ensures forall j :: st <= j < i ==> IsBlank(s[j])
    ensures i == |s| || !IsBlank(s[i])
    decreases |s| - st
  {
    if st < |s| && IsBlank(s[st]) then SkipLeading(s, st + 1) else st
  }

  /** `len` moved down past blank characters, never below `st` (String.trim's second loop). */
  function SkipTrailing(s: string, st: nat, len: nat): (i: nat)
    requires st <= len <= |s|
    ensures st <= i <= len
    ensures forall j :: i <= j < len ==> IsBlank(s[j])
    ensures i == st || !IsBlank(s[i - 1])
    decreases len
  {
    if st < len && IsBlank(s[len - 1]) then SkipTrailing(s, st, len - 1) else len
  }

  /** The trimmed string is the slice of `s` that starts at its first non-blank
      character and ends at its last one; it is empty exactly when `s` is all blank. */
  function Trim(s: string): (r: string)
    ensures var st := SkipLeading(s, 0); st + |r| <= |s| && r == s[st..st + |r|]
    ensures forall i :: 0 <= i < |s| && !IsBlank(s[i]) ==>
              SkipLeading(s, 0) <= i < SkipLeading(s, 0) + |r|
    ensures r == [] || (!IsBlank(r[0]) && !IsBlank(r[|r| - 1]))
  {
    var st := SkipLeading(s, 0);
    var len := SkipTrailing(s, st, |s|);
    s[st..len]
  }

  lemma TrimAllBlank(s: string)
    ensures Trim(s) == [] <==> forall i :: 0 <= i < |s| ==> IsBlank(s[i])
  {
    if Trim(s) != [] {
      var k := SkipLeading(s, 0);
      assert s[k] == Trim(s)[0];
    }
  }

  /** A string that neither starts nor ends with a blank is its own trim. */
  lemma TrimKeepsTrimmed(s: string)
    requires s == [] || (!IsBlank(s[0]) && !IsBlank(s[|s| - 1]))
    ensures Trim(s) == s
  {
    if s != [] {
      assert SkipLeading(s, 0) == 0;
      assert SkipTrailing(s, 0, |s|) == |s|;
      assert s[0..|s|] == s;
    }
  }

  lemma TrimIdempotent(s: string)
    ensures Trim(Trim(s)) == Trim(s)
  {
    TrimKeepsTrimmed(Trim(s));
  }

  // ---------------------------------------------------------------------------
  // Integer.parseInt

  predicate IsDigit(c: char) {
    '0' <= c <= '9'
  }

  predicate AllDigits(s: string) {
    forall i :: 0 <= i < |s| ==> IsDigit(s[i])
  }

  function DigitValue(c: char): (d: nat)
    requires IsDigit(c)
    ensures d < 10
  {
    (c as int) - ('0' as int)
  }

  function DigitChar(d: nat): (c: char)
    requires d < 10
    ensures IsDigit(c) && DigitValue(c) == d
  {
    (('0' as int) + d) as char
  }

  /** The value of a run of decimal digits, most significant digit first. */
  function DigitsValue(ds: string): nat
    requires AllDigits(ds)
  {
    if ds == [] then 0 else DigitsValue(ds[..|ds| - 1]) * 10 + DigitValue(ds[|ds| - 1])
  }

  /** Integer.parseInt(s) in radix 10: an optional '+' or '-' followed by at least one
      digit, whose value lies in the int range; anything else throws
      NumberFormatException, modelled as None. */
  function ParseInt(s: string): (r: Option<int>)
    ensures r.Some? ==> MinInt <= r.value <= MaxInt
    ensures r.Some? ==> s != [] && (IsDigit(s[0]) || s[0] == '+' || s[0] == '-')
    ensures r.Some? ==> AllDigits(s[1..])
    ensures r.Some? && (s[0] == '+' || s[0] == '-') ==> |s| >= 2
    // unsigned digits: their value, when it fits
    ensures s != [] && AllDigits(s) ==>
              r == (if DigitsValue(s) <= MaxInt then Some(DigitsValue(s)) else None)
    // '+' and at least one digit: the value of the digits, when it fits
    ensures |s| >= 2 && s[0] == '+' && AllDigits(s[1..]) ==>
              r == (if DigitsValue(s[1..]) <= MaxInt then Some(DigitsValue(s[1..])) else None)
    // '-' and at least one digit: minus the value of the digits, when it fits
    ensures |s| >= 2 && s[0] == '-' && AllDigits(s[1..]) ==>
              r == (if DigitsValue(s[1..]) <= -MinInt then Some(0 - DigitsValue(s[1..])) else None)
  {
    if s == [] then None
    else if s[0] == '-' || s[0] == '+' then
      if |s| == 1 || !AllDigits(s[1..]) then None
      else
        var magnitude: int := DigitsValue(s[1..]);
        var n: int := if s[0] == '-' then 0 - magnitude else magnitude;
        if MinInt <= n <= MaxInt then Some(n) else None
    else if !AllDigits(s) then None
    else
      var n := DigitsValue(s);
      if n <= MaxInt then Some(n) else None
  }

  /** The shortest decimal spelling of a natural number: the partner of ParseInt. */
  function Decimal(n: nat): (s: string)
    ensures |s| >= 1 && AllDigits(s)
  {
    if n < 10 then [DigitChar(n)] else Decimal(n / 10) + [DigitChar(n % 10)]
  }

  lemma {:induction false} DecimalValue(n: nat)
    ensures DigitsValue(Decimal(n)) == n
  {
    if n >= 10 {
      var s := Decimal(n / 10);
      var t := s + [DigitChar(n % 10)];
      assert t[..|t| - 1] == s;
      DecimalValue(n / 10);
    }
  }

  /** parseInt reads back every int it is given in decimal, with or without a sign. */
  lemma ParseIntDecimal(n: nat)
    requires n <= MaxInt
    ensures ParseInt(Decimal(n)) == Some(n)
    ensures ParseInt(['+'] + Decimal(n)) == Some(n)
  {
    DecimalValue(n);
    assert (['+'] + Decimal(n))[1..] == Decimal(n);
  }

  lemma ParseIntNegative(n: nat)
    requires n <= -MinInt
    ensures ParseInt(['-'] + Decimal(n)) == Some(-(n as int))
  {
    DecimalValue(n);
    assert (['-'] + Decimal(n))[1..] == Decimal(n);
  }

  /** A leading zero changes nothing: "007" reads as 7. */
  lemma {:induction false} ParseIntLeadingZero(ds: string)
    requires ds != [] && AllDigits(ds)
    ensures ParseInt(['0'] + ds) == ParseInt(ds)
  {
    LeadingZeroValue(ds);
  }

  lemma {:induction false} LeadingZeroValue(ds: string)
    requires AllDigits(ds)
    ensures AllDigits(['0'] + ds) && DigitsValue(['0'] + ds) == DigitsValue(ds)
  {
    var t := ['0'] + ds;
    assert AllDigits(t) by {
      forall i | 0 <= i < |t| ensures IsDigit(t[i]) {
        if i > 0 { assert t[i] == ds[i - 1]; }
      }
    }
    if ds != [] {
      assert t[..|t| - 1] == ['0'] + ds[..|ds| - 1];
      LeadingZeroValue(ds[..|ds| - 1]);
    }
  }

  /** A blank anywhere in the text makes parseInt fail: it does not trim. */
  lemma ParseIntRejectsBlank(s: string, i: nat)
    requires i < |s| && IsBlank(s[i])
    ensures ParseInt(s) == None
  {
    assert i > 0 ==> s[1..][i - 1] == s[i];
  }
}
