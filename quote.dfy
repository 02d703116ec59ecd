/**
  `offerQuote` (membership/main.go:183-191, and orders/main.go:183-191,
  identical up to the parameter name): the interest owed on an amount at a rate given in
  percent, computed with Go's 64-bit arithmetic and printed as one sentence.
 */
module Quote {

  import opened Wrappers
  import opened GoInt
  import opened Strconv

  const RatePrefix: string := "With rate "
  /** The text between the rate and the total; note the two spaces after "pay". */
  const PayText: string := "% you will pay  "
  const Suffix: string := " extra interest"

  /**
    `amount * interest / 100` in Go: the product wraps around in 64 bits, the
    quotient truncates toward zero. As long as the product fits in an `int`,
    the total is the product divided by 100 and rounded toward zero: never
    below it when it is negative, never above it when it is positive.
   */
  function QuoteTotal(amount: Int64, interest: Int64): (total: Int64)
    ensures MinInt64 <= amount * interest <= MaxInt64 ==>
      && 100 * Abs(total) <= Abs(amount * interest) < 100 * (Abs(total) + 1)
      && (amount * interest >= 0 ==> total >= 0)
      && (amount * interest <= 0 ==> total <= 0)
  {
    TruncDiv(Wrap(amount * interest), 100)
  }

  /** The sentence `fmt.Sprintf("With rate %d%% you will pay  %d extra interest", rate, total)`. */
  function QuoteSentence(rate: int, total: int): string {
    RatePrefix + FormatInt(rate) + PayText + FormatInt(total) + Suffix
  }

  /**
    `offerQuote(amount, interest)`: nothing for an amount that is zero or
    negative, whatever the rate; otherwise the quote sentence for the rate
    and the total, from which both can be read back unambiguously.
   */
  function OfferQuote(amount: Int64, interest: Int64): (s: string)
    ensures s == "" <==> amount <= 0
    ensures amount > 0 ==> s == QuoteSentence(interest, QuoteTotal(amount, interest))
    ensures amount > 0 ==> ParseQuoteSentence(s) == Some((interest, QuoteTotal(amount, interest)))
  {
    if amount <= 0 then ""
    else
      var total := QuoteTotal(amount, interest);
      QuoteSentenceRoundTrip(interest, total);
      QuoteSentence(interest, total)
  }

  /** The position of the first `%` in `s`, or `|s|` when there is none. */
  function IndexOfPercent(s: string): (k: nat)
    ensures k <= |s| && (k < |s| ==> s[k] == '%')
    ensures forall j :: 0 <= j < k ==> s[j] != '%'
  {
    if s == [] || s[0] == '%' then 0 else 1 + IndexOfPercent(s[1..])
  }

  /**
    Reads a quote sentence back into its rate and total: the reference
    against which the format of `offerQuote` is checked.
   */
  function ParseQuoteSentence(s: string): Option<(Int64, Int64)> {
    if |s| < |RatePrefix| + |Suffix| || s[..|RatePrefix|] != RatePrefix || s[|s| - |Suffix|..] != Suffix then None
    else ParseQuoteBody(s[|RatePrefix|..|s| - |Suffix|])
  }

  /** Reads the `<rate>% you will pay  <total>` part of a quote sentence. */
  function ParseQuoteBody(body: string): Option<(Int64, Int64)> {
    var k := IndexOfPercent(body);
    if |body| - k < |PayText| || body[k..k + |PayText|] != PayText then None
    else
      match (Atoi(body[..k]), Atoi(body[k + |PayText|..]))
      case (Ok(rate), Ok(total)) => Some((rate, total))
      case _ => None
  }

  /** Every sentence with an `int` rate and total reads back to that rate and total. */
  lemma QuoteSentenceRoundTrip(rate: Int64, total: Int64)
    ensures ParseQuoteSentence(QuoteSentence(rate, total)) == Some((rate, total))
  {
    var a, b := FormatInt(rate), FormatInt(total);
    var body := a + PayText + b;
    RegroupFive(RatePrefix, a, PayText, b, Suffix);
    ParseQuoteSentenceFrame(body);
    QuoteBodyRoundTrip(rate, total);
  }

  /** Concatenation regrouped around its middle three parts. */
  lemma RegroupFive(p: string, a: string, t: string, b: string, x: string)
    ensures p + a + t + b + x == p + (a + t + b) + x
  {
  }

  /** Between the fixed prefix and suffix, the sentence parser reads the body alone. */
  lemma ParseQuoteSentenceFrame(body: string)
    ensures ParseQuoteSentence(RatePrefix + body + Suffix) == ParseQuoteBody(body)
  {
    SplitThree(RatePrefix, body, Suffix);
  }

  /** The three parts of `p + m + x` are recovered by slicing at the lengths of `p` and `x`. */
  lemma SplitThree(p: string, m: string, x: string)
    ensures var s := p + m + x;
      && |s| >= |p| + |x|
      && s[..|p|] == p
      && s[|s| - |x|..] == x
      && s[|p|..|s| - |x|] == m
  {
  }

  lemma QuoteBodyRoundTrip(rate: Int64, total: Int64)
    ensures ParseQuoteBody(FormatInt(rate) + PayText + FormatInt(total)) == Some((rate, total))
  {
    var a, b := FormatInt(rate), FormatInt(total);
    var body := a + PayText + b;
    IndexOfPercentAt(a, PayText + b);
    assert body == a + (PayText + b);
    assert body[|a|..|a| + |PayText|] == PayText;
    assert body[..|a|] == a;
    assert body[|a| + |PayText|..] == b;
    AtoiFormatInt(rate);
    AtoiFormatInt(total);
  }

  /** In `a + t`, with no `%` in `a` and `t` starting with `%`, the first `%` is at `|a|`. */
  lemma {:induction false} IndexOfPercentAt(a: string, t: string)
    requires forall j :: 0 <= j < |a| ==> a[j] != '%'
    requires t != [] && t[0] == '%'
    ensures IndexOfPercent(a + t) == |a|
  {
    if a != [] {
      assert (a + t)[1..] == a[1..] + t;
      IndexOfPercentAt(a[1..], t);
    }
  }

  /**
    Where Go's truncating `/` and Dafny's Euclidean `/` part: a product that
    is negative and not a multiple of 100 gives a total one above its floor.
   */
  lemma QuoteTotalRoundsTowardZero(amount: Int64, interest: Int64)
    requires MinInt64 <= amount * interest < 0
    requires (amount * interest) % 100 != 0
    ensures QuoteTotal(amount, interest) == (amount * interest) / 100 + 1
  {
    var p := amount * interest;
    var t := QuoteTotal(amount, interest);
    assert 100 * (-t) <= -p < 100 * (-t + 1);
  }

  /**
    A positive amount at a positive rate can still be quoted a negative
    total: `100_000_000_000_000_000 * 100` exceeds the `int` range and wraps
    around before the division.
   */
  lemma QuoteTotalWrapsAround()
    ensures QuoteTotal(100_000_000_000_000_000, 100) == -84_467_440_737_095_516
  {
    assert Wrap(100_000_000_000_000_000 * 100) == -8_446_744_073_709_551_616;
    TruncDivUnique(-8_446_744_073_709_551_616, 100, -84_467_440_737_095_516);
  }

  /** The worked example: 1000 at 5% owes 50. */
  lemma OfferQuoteExample()
    ensures OfferQuote(1000, 5) == "With rate 5% you will pay  50 extra interest"
  {
    TruncDivUnique(5000, 100, 50);
    QuoteSentenceFiveAtFifty();
  }

  lemma QuoteSentenceFiveAtFifty()
    ensures QuoteSentence(5, 50) == "With rate 5% you will pay  50 extra interest"
  {
    FormatFive();
    FormatFifty();
    assert QuoteSentence(5, 50) == "With rate " + "5" + "% you will pay  " + "50" + " extra interest";
  }

  lemma FormatFive()
    ensures FormatInt(5) == "5"
  {
    assert DigitChar(5) == '5';
  }

  lemma FormatFifty()
    ensures FormatInt(50) == "50"
  {
    assert DigitChar(5) == '5' && DigitChar(0) == '0';
    assert FormatNat(50) == FormatNat(5) + [DigitChar(0)];
  }

  lemma QuoteSentenceZeroAtZero()
    ensures QuoteSentence(0, 0) == "With rate 0% you will pay  0 extra interest"
  {
    FormatZero();
    assert QuoteSentence(0, 0) == "With rate " + "0" + "% you will pay  " + "0" + " extra interest";
  }

  lemma FormatZero()
    ensures FormatInt(0) == "0"
  {
    assert DigitChar(0) == '0';
  }
}
