/**
  The two conversions between Go `int` and decimal text that the frontends
  rely on: `strconv.Atoi` (reading the form field and the backend's interest
  rate) and the `%d` verb of `fmt.Sprintf` (printing the rate and the total).

  Text is a sequence of characters here, where Go works on bytes. Every
  character that Atoi accepts (a sign or a decimal digit) is a single ASCII
  byte, and every other character, one byte or several, is a non-digit, so
  the verdicts below are the same ones Go reaches byte by byte.
 */
module Strconv {

  import opened GoInt

  predicate IsDigit(c: char) {
    '0' <= c <= '9'
  }

  predicate AllDigits(s: string) {
    forall i :: 0 <= i < |s| ==> IsDigit(s[i])
  }

  function DigitValue(c: char): (d: nat)
    requires IsDigit(c)
    ensures d < 10
  {
    c as int - '0' as int
  }

  function DigitChar(d: nat): (c: char)
    requires d < 10
    ensures IsDigit(c) && DigitValue(c) == d
  {
    ('0' as int + d) as char
  }

  /** The value of a run of decimal digits, accumulated left to right as `n = n*10 + d`. */
  function DigitsValue(ds: string): nat
    requires AllDigits(ds)
  {
    if ds == [] then 0 else DigitsValue(ds[..|ds| - 1]) * 10 + DigitValue(ds[|ds| - 1])
  }

  /** The length of the run of digits that starts `s`. */
  function LeadingDigits(s: string): (k: nat)
    ensures k <= |s| && AllDigits(s[..k])
    ensures k < |s| ==> !IsDigit(s[k])
  {
    if s == [] || !IsDigit(s[0]) then 0
    else
      var k' := LeadingDigits(s[1..]);
      assert s[..1 + k'] == [s[0]] + s[1..][..k'];
      1 + k'
  }

  predicate IsSign(c: char) {
    c == '+' || c == '-'
  }

  /** `s` without its optional leading sign. */
  function Unsigned(s: string): (u: string)
    ensures |u| <= |s|
  {
    if s != [] && IsSign(s[0]) then s[1..] else s
  }

  /** Text in the shape Atoi reads: an optional `+` or `-`, then one or more decimal digits, nothing else. */
  predicate IsIntegerText(s: string) {
    var u := Unsigned(s);
    u != [] && AllDigits(u)
  }

  /**
    What `strconv.Atoi` returns: the value without error, a syntax error
    (whose value is 0), or a range error whose value is clamped to the
    nearest end of the `int` range.
   */
  datatype AtoiResult = Ok(value: Int64) | SyntaxErr | RangeErr(clamped: Int64)

  /**
    `strconv.Atoi(s)`. An optional sign, then digits. Once the digits read
    so far exceed the unsigned 64-bit range, Go stops with a range error even
    if a non-digit follows; otherwise any non-digit, an empty string or a lone
    sign is a syntax error; a well-formed number outside the `int` range is a
    range error.
   */
  function Atoi(s: string): (r: AtoiResult)
    ensures r.Ok? ==> IsIntegerText(s)
    ensures IsIntegerText(s) ==> !r.SyntaxErr?
    ensures r.RangeErr? ==> s != [] && r.clamped == if s[0] == '-' then MinInt64 else MaxInt64
  {
    var u := Unsigned(s);
    if u == [] then SyntaxErr
    else
      var neg := s[0] == '-';
      var k := LeadingDigits(u);
      if DigitsValue(u[..k]) > MaxUint64 then RangeErr(if neg then MinInt64 else MaxInt64)
      else if k < |u| then SyntaxErr
      else
        assert u[..k] == u;
        var v: int := DigitsValue(u);
        if !neg && v > MaxInt64 then RangeErr(MaxInt64)
        else if neg && v > -MinInt64 then RangeErr(MinInt64)
        else Ok(if neg then -v else v)
  }

  /** What the frontends read from Atoi when they ignore its error: the value Go returns with it. */
  function ValueIgnoringError(r: AtoiResult): Int64 {
    match r
    case Ok(v) => v
    case SyntaxErr => 0
    case RangeErr(c) => c
  }

  /** Decimal digits of a natural number, without leading zeros. */
  function FormatNat(n: nat): (s: string)
    ensures s != [] && AllDigits(s)
    ensures s[0] == '0' ==> n == 0 && s == "0"
  {
    if n < 10 then [DigitChar(n)] else FormatNat(n / 10) + [DigitChar(n % 10)]
  }

  /**
    `n` printed by the `%d` verb: a `-` for negative numbers, then the
    decimal digits with no leading zero (a lone "0" for zero, never "-0").
   */
  function FormatInt(n: int): (s: string)
    ensures s != [] && (n < 0 <==> s[0] == '-')
    ensures forall i :: 0 <= i < |s| ==> IsDigit(s[i]) || s[i] == '-'
    ensures var d := if n < 0 then s[1..] else s;
      d != [] && AllDigits(d) && (d[0] == '0' ==> d == "0" && n == 0)
  {
    if n < 0 then
      var d := FormatNat(-n);
      assert ("-" + d)[1..] == d;
      "-" + d
    else FormatNat(n)
  }

  lemma {:induction false} DigitsValueFormatNat(n: nat)
    ensures DigitsValue(FormatNat(n)) == n
    decreases n
  {
    if n >= 10 {
      var s := FormatNat(n / 10);
      var t := FormatNat(n);
      assert t == s + [DigitChar(n % 10)];
      assert t[..|t| - 1] == s;
      DigitsValueFormatNat(n / 10);
    }
  }

  /** A run of `k` digits is worth less than 10^k. */
  lemma {:induction false} DigitsValueBound(ds: string)
    requires AllDigits(ds)
    ensures DigitsValue(ds) < Pow10(|ds|)
    decreases |ds|
  {
    if ds != [] {
      DigitsValueBound(ds[..|ds| - 1]);
    }
  }

  function Pow10(k: nat): (p: nat)
    ensures p >= 1
  {
    if k == 0 then 1 else 10 * Pow10(k - 1)
  }

  /** Atoi reads back every `int` that `%d` prints. */
  lemma AtoiFormatInt(n: Int64)
    ensures Atoi(FormatInt(n)) == Ok(n)
  {
    var s := FormatInt(n);
    var d := FormatNat(Abs(n));
    DigitsValueFormatNat(Abs(n));
    assert Unsigned(s) == d;
    assert LeadingDigits(d) == |d|;
    assert d[..|d|] == d;
  }

  /**
    A number that `%d` prints above the `int` range reads back as a range
    error clamped to the largest `int`, whether or not it also exceeds the
    unsigned 64-bit range.
   */
  lemma AtoiFormatAboveRange(n: int)
    requires n > MaxInt64
    ensures Atoi(FormatInt(n)) == RangeErr(MaxInt64)
  {
    var d := FormatNat(n);
    DigitsValueFormatNat(n);
    assert Unsigned(d) == d;
    assert LeadingDigits(d) == |d|;
    assert d[..|d|] == d;
  }

  /**
    On text of at most 18 characters (the inputs Go converts on its fast
    path, none of which can overflow) Atoi succeeds exactly on integer text
    and reports a syntax error on everything else: the empty string, a lone
    sign, whitespace, a trailing newline, a letter.
   */
  lemma AtoiShortText(s: string)
    requires |s| <= 18
    ensures Atoi(s).Ok? <==> IsIntegerText(s)
    ensures Atoi(s).SyntaxErr? <==> !IsIntegerText(s)
  {
    var u := Unsigned(s);
    if u != [] {
      var k := LeadingDigits(u);
      DigitsValueBound(u[..k]);
      Pow10Monotone(k, 18);
      Pow10Eighteen();
      if AllDigits(u) {
        assert k == |u| && u[..k] == u;
      }
    }
  }

  lemma Pow10Eighteen()
    ensures Pow10(18) == 1_000_000_000_000_000_000
  {
    assert Pow10(3) == 1000;
    assert Pow10(6) == 1000 * Pow10(3);
    assert Pow10(9) == 1000 * Pow10(6);
    assert Pow10(12) == 1000 * Pow10(9);
    assert Pow10(15) == 1000 * Pow10(12);
    assert Pow10(18) == 1000 * Pow10(15);
  }

  lemma {:induction false} Pow10Monotone(j: nat, k: nat)
    requires j <= k
    ensures Pow10(j) <= Pow10(k)
    decreases k
  {
    if j < k {
      Pow10Monotone(j, k - 1);
    }
  }

  /** `k` zero digits. */
  function Zeros(k: nat): (s: string)
    ensures |s| == k && AllDigits(s)
  {
    if k == 0 then [] else Zeros(k - 1) + "0"
  }

  /** Leading zeros add nothing to the value of a run of digits. */
  lemma {:induction false} DigitsValueLeadingZeros(k: nat, ds: string)
    requires AllDigits(ds)
    ensures AllDigits(Zeros(k) + ds) && DigitsValue(Zeros(k) + ds) == DigitsValue(ds)
    decreases |ds| + k
  {
    var s := Zeros(k) + ds;
    if ds == [] {
      assert s == Zeros(k);
      if k > 0 {
        assert s[..|s| - 1] == Zeros(k - 1) + [];
        DigitsValueLeadingZeros(k - 1, []);
      }
    } else {
      assert s[..|s| - 1] == Zeros(k) + ds[..|ds| - 1];
      DigitsValueLeadingZeros(k, ds[..|ds| - 1]);
    }
  }

  /**
    Atoi also reads integer text that `%d` never prints: an explicit `+`
    and any number of leading zeros, at any length, as in "+100", "007" or
    "-0005", still give the number's value without error.
   */
  lemma AtoiPaddedText(n: Int64, plus: bool, k: nat)
    ensures var sign := if n < 0 then "-" else if plus then "+" else "";
      Atoi(sign + Zeros(k) + FormatNat(Abs(n))) == Ok(n)
  {
    var sign := if n < 0 then "-" else if plus then "+" else "";
    var d := FormatNat(Abs(n));
    DigitsValueFormatNat(Abs(n));
    DigitsValueLeadingZeros(k, d);
    assert sign + Zeros(k) + d == sign + (Zeros(k) + d);
    AtoiSignedDigits(sign, Zeros(k) + d);
  }

  /** A sign (or none) followed by a run of digits whose value fits reads as that value. */
  lemma AtoiSignedDigits(sign: string, u: string)
    requires sign == "" || sign == "+" || sign == "-"
    requires u != [] && AllDigits(u)
    requires DigitsValue(u) <= if sign == "-" then -MinInt64 else MaxInt64
    ensures Atoi(sign + u) == Ok(if sign == "-" then -(DigitsValue(u) as int) else DigitsValue(u))
  {
    var s := sign + u;
    assert Unsigned(s) == u by {
      if sign != "" {
        assert s[1..] == u;
      }
    }
    assert s[0] == '-' <==> sign == "-";
    assert LeadingDigits(u) == |u| && u[..|u|] == u;
  }

  /** The two inputs named above: "+5" reads as 5 and "007" as 7. */
  lemma AtoiPlusAndZerosExamples()
    ensures Atoi("+5") == Ok(5) && Atoi("007") == Ok(7)
  {
    AtoiPaddedText(5, true, 0);
    AtoiPaddedText(7, false, 2);
    assert DigitChar(5) == '5' && DigitChar(7) == '7';
    assert "+" + Zeros(0) + FormatNat(5) == "+5";
    assert Zeros(2) == "00";
    assert "" + Zeros(2) + FormatNat(7) == "007";
  }
}
