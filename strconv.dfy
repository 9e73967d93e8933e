/** The two Go standard-library parsers the integer branch of the decoder calls:
    `strconv.ParseUint(s, 10, 64)` and `strconv.ParseInt(s, 10, 64)`, written out
    the way Go computes them (left-to-right digit loop, overflow detected before the
    rest of the text is looked at, a clamped value returned beside a range error),
    with an independent decimal grammar and the proofs that the two agree. */
module Strconv {
  import opened GoValues

  const MaxUint64: int := 0xFFFF_FFFF_FFFF_FFFF
  const MaxInt64: int := 0x7FFF_FFFF_FFFF_FFFF
  const MinInt64: int := -0x8000_0000_0000_0000

  /** Go's `cutoff` for base 10: the smallest n for which n*10 overflows uint64. */
  const Cutoff10: int := MaxUint64 / 10 + 1

  /** Go's `cutoff` in ParseInt for a 64-bit result: 1 << 63. */
  const Cutoff63: int := 0x8000_0000_0000_0000

  /** The result pair `(uint64 or int64, error)` of the two parsers. */
  datatype Parsed = Parsed(value: int, err: Option<NumError>)

  // ---------------------------------------------------------------------------
  // The decimal grammar (the reference the parsers are proved against)
  // ---------------------------------------------------------------------------

  predicate IsDigit(c: char) {
    '0' <= c <= '9'
  }

  function DigitValue(c: char): nat
    requires IsDigit(c)
  {
    c as int - '0' as int
  }

  predicate AllDigits(s: string) {
    forall i :: 0 <= i < |s| ==> IsDigit(s[i])
  }

  /** The number written by `acc` followed by the decimal digits of `s`. */
  function DigitsFrom(acc: nat, s: string): nat
    requires AllDigits(s)
    decreases |s|
  {
    if s == [] then acc else DigitsFrom(acc * 10 + DigitValue(s[0]), s[1..])
  }

  /** The number a string of decimal digits denotes. */
  function DecimalValue(s: string): nat
    requires AllDigits(s)
  {
    DigitsFrom(0, s)
  }

  /** An optional `+` or `-` followed by at least one decimal digit. */
  predicate IsSignedDecimal(s: string) {
    if |s| > 0 && (s[0] == '+' || s[0] == '-') then |s| > 1 && AllDigits(s[1..])
    else |s| > 0 && AllDigits(s)
  }

  /** The integer a signed decimal denotes. */
  function SignedValue(s: string): int
    requires IsSignedDecimal(s)
  {
    if s[0] == '-' then -(DecimalValue(s[1..]) as int)
    else if s[0] == '+' then DecimalValue(s[1..])
    else DecimalValue(s)
  }

  // ---------------------------------------------------------------------------
  // The canonical decimal text of a number (strconv.FormatUint / FormatInt)
  // ---------------------------------------------------------------------------

  function DigitChar(d: nat): char
    requires d < 10
  {
    ('0' as int + d) as char
  }

  /** Shortest decimal digits of `n`, no leading zero ("0" for zero). */
  function DecimalDigits(n: nat): string
    decreases n
  {
    if n < 10 then [DigitChar(n)] else DecimalDigits(n / 10) + [DigitChar(n % 10)]
  }

  function FormatUint(n: nat): string {
    DecimalDigits(n)
  }

  function FormatInt(v: int): string {
    if v < 0 then "-" + DecimalDigits(-v) else DecimalDigits(v)
  }

  // ---------------------------------------------------------------------------
  // ParseUint and ParseInt as Go computes them
  // ---------------------------------------------------------------------------

  /** Go's overflow test for one more digit `d` after the value `n` so far:
      `n >= cutoff`, or the 64-bit sum `n*10 + d` wrapped round or exceeds maxVal. */
  predicate Overflows(n: int, d: int)
    requires 0 <= n <= MaxUint64 && 0 <= d < 10
  {
    n >= Cutoff10 ||
    var n1 := (n * 10 + d) % (MaxUint64 + 1);
    n1 < n * 10 || n1 > MaxUint64
  }

  /** Go's digit loop in ParseUint: `n` is the value of the digits read so far,
      `s` the text still to read and `s0` the whole input (kept for the error). */
  function ScanDigits(s0: string, n: int, s: string): (r: Parsed)
    requires 0 <= n <= MaxUint64
    ensures 0 <= r.value <= MaxUint64
    ensures r.err.Some? ==> r.err.value.func == "ParseUint" && r.err.value.num == s0
    ensures r.err.Some? && r.err.value.err == ErrSyntax ==> r.value == 0
    ensures r.err.Some? && r.err.value.err == ErrRange ==> r.value == MaxUint64
    decreases |s|
  {
    if s == [] then Parsed(n, None)
    else if !IsDigit(s[0]) then Parsed(0, Some(NumError("ParseUint", s0, ErrSyntax)))
    else if Overflows(n, DigitValue(s[0])) then Parsed(MaxUint64, Some(NumError("ParseUint", s0, ErrRange)))
    else ScanDigits(s0, n * 10 + DigitValue(s[0]), s[1..])
  }

  /** `strconv.ParseUint(s, 10, 64)`. */
  function ParseUint(s: string): (r: Parsed)
    ensures 0 <= r.value <= MaxUint64
    ensures r.err.Some? ==> r.err.value.func == "ParseUint" && r.err.value.num == s
  {
    if s == [] then Parsed(0, Some(NumError("ParseUint", s, ErrSyntax)))
    else ScanDigits(s, 0, s)
  }

  /** `strconv.ParseInt(s, 10, 64)`: a sign, then ParseUint of the rest, then the
      signed range check; every error names ParseInt and the whole input. */
  function ParseInt(s: string): (r: Parsed)
    ensures MinInt64 <= r.value <= MaxInt64
    ensures r.err.Some? ==> r.err.value.func == "ParseInt" && r.err.value.num == s
  {
    if s == [] then Parsed(0, Some(NumError("ParseInt", s, ErrSyntax)))
    else
      var neg := s[0] == '-';
      var rest := if s[0] == '+' || s[0] == '-' then s[1..] else s;
      var u := ParseUint(rest);
      if u.err.Some? && u.err.value.err != ErrRange then
        Parsed(0, Some(NumError("ParseInt", s, u.err.value.err)))
      else if !neg && u.value >= Cutoff63 then
        Parsed(Cutoff63 - 1, Some(NumError("ParseInt", s, ErrRange)))
      else if neg && u.value > Cutoff63 then
        Parsed(-Cutoff63, Some(NumError("ParseInt", s, ErrRange)))
      else
        Parsed(if neg then -u.value else u.value, None)
  }

  // ---------------------------------------------------------------------------
  // Proofs
  // ---------------------------------------------------------------------------

  /** Go's wrap-around overflow test is exact: it fires precisely when the
      mathematical value of one more digit no longer fits in a uint64. */
  lemma OverflowsExact(n: int, d: int)
    requires 0 <= n <= MaxUint64 && 0 <= d < 10
    ensures Overflows(n, d) <==> n * 10 + d > MaxUint64
  {
    if n < Cutoff10 {
      assert n * 10 + d < 2 * (MaxUint64 + 1);
      if n * 10 + d > MaxUint64 {
        assert (n * 10 + d) % (MaxUint64 + 1) == n * 10 + d - (MaxUint64 + 1);
      } else {
        assert (n * 10 + d) % (MaxUint64 + 1) == n * 10 + d;
      }
    }
  }

  /** Reading more digits never makes the number smaller. */
  lemma {:induction false} DigitsFromAtLeast(acc: nat, s: string)
    requires AllDigits(s)
    ensures DigitsFrom(acc, s) >= acc
    decreases |s|
  {
    if s != [] {
      DigitsFromAtLeast(acc * 10 + DigitValue(s[0]), s[1..]);
    }
  }

  /** Appending one digit multiplies by ten and adds it. */
  lemma {:induction false} DigitsFromSnoc(acc: nat, s: string, c: char)
    requires AllDigits(s) && IsDigit(c)
    ensures AllDigits(s + [c])
    ensures DigitsFrom(acc, s + [c]) == DigitsFrom(acc, s) * 10 + DigitValue(c)
    decreases |s|
  {
    if s == [] {
      assert s + [c] == [c];
      assert [c][1..] == [];
    } else {
      assert (s + [c])[1..] == s[1..] + [c];
      DigitsFromSnoc(acc * 10 + DigitValue(s[0]), s[1..], c);
    }
  }

  /** The digit loop over a run of digits `p` followed by anything `q`: either the
      digits of `p` already overflow (a range error, whatever `q` holds, even a
      non-digit), or the loop carries on into `q` with the value of `p`. */
  lemma {:induction false} ScanDigitsRun(s0: string, n: int, p: string, q: string)
    requires 0 <= n <= MaxUint64 && AllDigits(p)
    ensures DigitsFrom(n, p) > MaxUint64 ==>
              ScanDigits(s0, n, p + q) == Parsed(MaxUint64, Some(NumError("ParseUint", s0, ErrRange)))
    ensures DigitsFrom(n, p) <= MaxUint64 ==>
              ScanDigits(s0, n, p + q) == ScanDigits(s0, DigitsFrom(n, p), q)
    decreases |p|
  {
    if p == [] {
      assert p + q == q;
    } else {
      var d := DigitValue(p[0]);
      assert (p + q)[0] == p[0];
      assert (p + q)[1..] == p[1..] + q;
      OverflowsExact(n, d);
      DigitsFromAtLeast(n * 10 + d, p[1..]);
      if !Overflows(n, d) {
        ScanDigitsRun(s0, n * 10 + d, p[1..], q);
      }
    }
  }

  /** Complete outcome of ParseUint. Every string splits into its longest run of
      leading digits `p` and the rest `q`; then: empty input is a syntax error;
      otherwise a `p` too large for uint64 is a range error (even when a non-digit
      follows, because Go stops at the overflow); otherwise a non-digit is a syntax
      error; otherwise the value is that of the digits. */
  lemma ParseUintOutcome(p: string, q: string)
    requires AllDigits(p) && (q == [] || !IsDigit(q[0]))
    ensures ParseUint(p + q) ==
      if p + q == [] then Parsed(0, Some(NumError("ParseUint", p + q, ErrSyntax)))
      else if DecimalValue(p) > MaxUint64 then Parsed(MaxUint64, Some(NumError("ParseUint", p + q, ErrRange)))
      else if q != [] then Parsed(0, Some(NumError("ParseUint", p + q, ErrSyntax)))
      else Parsed(DecimalValue(p), None)
  {
    if p + q != [] {
      ScanDigitsRun(p + q, 0, p, q);
    }
  }

  /** Every string is a run of digits followed by a rest starting with a non-digit. */
  lemma {:induction false} SplitDigits(s: string) returns (p: string, q: string)
    ensures s == p + q && AllDigits(p) && (q == [] || !IsDigit(q[0]))
    decreases |s|
  {
    if s == [] || !IsDigit(s[0]) {
      p, q := [], s;
    } else {
      var p', q' := SplitDigits(s[1..]);
      p, q := [s[0]] + p', q';
      assert s == [s[0]] + s[1..];
    }
  }

  /** ParseUint succeeds exactly on a non-empty string of digits whose value fits
      in 64 bits, and then returns that value; too many digits is a range error. */
  lemma ParseUintCorrect(s: string)
    ensures ParseUint(s).err == None <==> |s| > 0 && AllDigits(s) && DecimalValue(s) <= MaxUint64
    ensures ParseUint(s).err == None ==> ParseUint(s).value == DecimalValue(s)
    ensures |s| > 0 && AllDigits(s) && DecimalValue(s) > MaxUint64 ==>
              ParseUint(s) == Parsed(MaxUint64, Some(NumError("ParseUint", s, ErrRange)))
  {
    var p, q := SplitDigits(s);
    ParseUintOutcome(p, q);
    if q == [] {
      assert p == s;
    } else {
      assert s[|p|] == q[0];
    }
  }

  /** ParseUint accepts no sign: a leading `-` (or `+`) is a syntax error. */
  lemma ParseUintRejectsSign(s: string)
    requires |s| > 0 && (s[0] == '-' || s[0] == '+')
    ensures ParseUint(s) == Parsed(0, Some(NumError("ParseUint", s, ErrSyntax)))
  {
    ParseUintOutcome([], s);
    assert [] + s == s;
  }

  /** ParseInt succeeds exactly on an optionally signed decimal whose value lies in
      the int64 range, and then returns that value. */
  lemma ParseIntCorrect(s: string)
    ensures ParseInt(s).err == None <==>
              IsSignedDecimal(s) && MinInt64 <= SignedValue(s) <= MaxInt64
    ensures ParseInt(s).err == None ==> ParseInt(s).value == SignedValue(s)
  {
    if s != [] {
      var rest := if s[0] == '+' || s[0] == '-' then s[1..] else s;
      ParseUintCorrect(rest);
      if ParseUint(rest).err.Some? && ParseUint(rest).err.value.err == ErrRange {
        assert ParseUint(rest).value == MaxUint64;
      }
    }
  }

  /** ParseInt's range errors: a value above int64 clamps to MaxInt64, one below
      clamps to MinInt64. */
  lemma ParseIntRange(s: string)
    requires IsSignedDecimal(s) && !(MinInt64 <= SignedValue(s) <= MaxInt64)
    ensures ParseInt(s) == Parsed(if SignedValue(s) < 0 then MinInt64 else MaxInt64,
                                  Some(NumError("ParseInt", s, ErrRange)))
  {
    var rest := if s[0] == '+' || s[0] == '-' then s[1..] else s;
    ParseUintCorrect(rest);
  }

  /** The canonical digits of `n` are digits and denote `n`. */
  lemma {:induction false} DecimalDigitsValue(n: nat)
    ensures |DecimalDigits(n)| > 0 && AllDigits(DecimalDigits(n))
    ensures DecimalValue(DecimalDigits(n)) == n
    decreases n
  {
    if n < 10 {
      assert DecimalDigits(n) == [DigitChar(n)];
      var c := DigitChar(n);
      assert DigitValue(c) == n;
      assert [c][1..] == [];
      assert DigitsFrom(0, [c]) == DigitsFrom(n, []);
    } else {
      DecimalDigitsValue(n / 10);
      DigitsFromSnoc(0, DecimalDigits(n / 10), DigitChar(n % 10));
    }
  }

  /** Round trip: ParseUint reads back the canonical text of every uint64. */
  lemma ParseUintFormatUint(n: int)
    requires 0 <= n <= MaxUint64
    ensures ParseUint(FormatUint(n)) == Parsed(n, None)
  {
    DecimalDigitsValue(n);
    ParseUintCorrect(FormatUint(n));
  }

  /** Round trip: ParseInt reads back the canonical text of every int64,
      including MinInt64, whose magnitude alone does not fit. */
  lemma ParseIntFormatInt(v: int)
    requires MinInt64 <= v <= MaxInt64
    ensures ParseInt(FormatInt(v)) == Parsed(v, None)
  {
    var s := FormatInt(v);
    if v < 0 {
      DecimalDigitsValue(-v);
      assert s[1..] == DecimalDigits(-v);
    } else {
      DecimalDigitsValue(v);
      assert s[0] != '-' && s[0] != '+';
    }
    ParseIntCorrect(s);
  }

  /** The canonical text of a number is plain ASCII, so it is a Go string. */
  lemma FormatIntIsByteString(v: int)
    ensures IsByteString(FormatInt(v)) && IsByteString(FormatUint(if v < 0 then -v else v))
  {
    var n := if v < 0 then -v else v;
    DecimalDigitsValue(n);
  }
}
