/**
  The request-handling decisions shared by the membership and orders
  frontends: reading the amount from the submitted form, turning the
  backend's answer into the displayed result, falling back to "unknown" for
  the backend version, and dispatching a URL path to a page. The HTTP
  exchange itself is not modelled: a request is reduced to its decoded form,
  and a backend call to its outcome.
 */
module Frontend {

  import opened Wrappers
  import opened GoInt
  import opened Strconv
  import opened Quote

  /** The backend path that answers with the interest rate, as plain text. */
  const InterestPath: string := "api/v1/interest"
  /** The backend path that answers with the backend's version. */
  const VersionPath: string := "version"
  /** The result shown when the interest rate could not be fetched. */
  const Fallback: string := "Could not get interest. Sorry!"
  /** The backend version shown when it could not be fetched. */
  const UnknownVersion: string := "unknown"

  /**
    A request as the frontends see it: whether `r.ParseForm()` succeeded,
    and the form values it decoded (`url.Values`, every key with its list
    of values).
   */
  datatype Request = Request(formParsed: bool, form: map<string, seq<string>>)

  /** `url.Values.Get`: the first value under `key`, or "" when the key is absent or has no value. */
  function FormGet(form: map<string, seq<string>>, key: string): string {
    if key in form && |form[key]| > 0 then form[key][0] else ""
  }

  /**
    What `callBackend` returned for one path: the body of a `200 OK`
    response, or an error (no connection, another status, a failed read),
    which the frontends never tell apart.
   */
  datatype BackendReply = Reply(body: string) | Failed

  /**
    `parseMembershipAmount` / `parseOrderAmount`, with the name of the form
    field as a parameter: the Atoi value of the field's first value, and 0
    when the form could not be parsed, the field is missing or empty, or
    Atoi reports any error. Negative amounts pass through unchanged.
   */
  function ParseAmount(r: Request, field: string): (n: Int64)
    ensures n != 0 ==> r.formParsed && field in r.form && r.form[field] != [] && Atoi(r.form[field][0]) == Ok(n)
    ensures r.formParsed && Atoi(FormGet(r.form, field)).Ok? ==> n == Atoi(FormGet(r.form, field)).value
  {
    if !r.formParsed then 0
    else
      match Atoi(FormGet(r.form, field))
      case Ok(v) => v
      case _ => 0
  }

  /** A field that holds the printed form of an `int`, negative or not, is read as that `int`. */
  lemma ParseAmountReadsPrinted(r: Request, field: string, n: Int64)
    requires r.formParsed && field in r.form && r.form[field] != []
    requires r.form[field][0] == FormatInt(n)
    ensures ParseAmount(r, field) == n
  {
    AtoiFormatInt(n);
  }

  /**
    A field that is not integer text (absent, empty, with spaces, a
    trailing newline or letters), whatever its length, is read as 0.
   */
  lemma ParseAmountRejectsText(r: Request, field: string)
    requires !IsIntegerText(FormGet(r.form, field))
    ensures ParseAmount(r, field) == 0
  {
  }

  /**
    The two ways the frontends read Atoi part on a number above the `int`
    range: the form amount, which checks the error, becomes 0, while the
    interest rate, which ignores it, becomes the largest `int`.
   */
  lemma RangeErrorReadTwoWays(r: Request, field: string, n: int)
    requires n > MaxInt64
    requires r.formParsed && field in r.form && r.form[field] != []
    requires r.form[field][0] == FormatInt(n)
    ensures ParseAmount(r, field) == 0
    ensures ValueIgnoringError(Atoi(FormatInt(n))) == MaxInt64
  {
    AtoiFormatAboveRange(n);
  }

  /**
    The result a submission with a nonzero amount displays, given the
    backend's answer for the interest rate: the fallback sentence on an
    error; otherwise the quote at the rate Atoi reads from the body with its
    error ignored. Exactly the failed calls show the fallback, and exactly
    the successful calls with a negative amount show nothing; a successful
    call shows `offerQuote`'s text at that Atoi value (0 on a syntax error,
    the clamped value on a range error), which for a positive amount reads
    back to that rate and its total.
   */
  function SubmissionQuote(amount: Int64, interestReply: BackendReply): (q: string)
    requires amount != 0
    ensures q == Fallback <==> interestReply.Failed?
    ensures q == "" <==> interestReply.Reply? && amount < 0
    ensures interestReply.Reply? ==> q == OfferQuote(amount, ValueIgnoringError(Atoi(interestReply.body)))
    ensures interestReply.Reply? && amount > 0 ==>
      var rate := ValueIgnoringError(Atoi(interestReply.body));
      ParseQuoteSentence(q) == Some((rate, QuoteTotal(amount, rate)))
  {
    match interestReply
    case Failed => Fallback
    case Reply(body) =>
      var q := OfferQuote(amount, ValueIgnoringError(Atoi(body)));
      assert q != Fallback by {
        FallbackIsNoQuote();
      }
      q
  }

  /** The fallback sentence does not read as a quote. */
  lemma FallbackIsNoQuote()
    ensures ParseQuoteSentence(Fallback) == None
  {
    assert Fallback[0] != RatePrefix[0];
  }

  /** A body that is a printed `int` sets the rate of the quote, for any positive amount. */
  lemma SubmissionQuoteReadsRate(amount: Int64, rate: Int64)
    requires amount > 0
    ensures ParseQuoteSentence(SubmissionQuote(amount, Reply(FormatInt(rate)))) == Some((rate, QuoteTotal(amount, rate)))
  {
    AtoiFormatInt(rate);
  }

  /**
    A body on which Atoi reports a syntax error (such as "abc" or "5\n", see
    `AtoiShortText`) is taken as rate 0, so a positive amount is quoted 0
    at 0%.
   */
  lemma SubmissionQuoteUnreadableRate(amount: Int64, body: string)
    requires amount > 0
    requires Atoi(body).SyntaxErr?
    ensures SubmissionQuote(amount, Reply(body)) == "With rate 0% you will pay  0 extra interest"
  {
    assert QuoteTotal(amount, 0) == 0;
    QuoteSentenceZeroAtZero();
  }

  /** `findBackendVersion`'s choice: the body of the version reply, or "unknown" on any error. */
  function BackendVersionFrom(versionReply: BackendReply): string {
    match versionReply
    case Reply(body) => body
    case Failed => UnknownVersion
  }

  /** The pages `serveFiles` dispatches to. */
  datatype Page = HomePage | DiagramPage | StaticFile(urlPath: string)

  /**
    `serveFiles`'s dispatch on the URL path, which it compares after
    prefixing ".": the root is the home page, "/diagram.svg" the diagram,
    and every other path a static file (whose cleaning and lookup under
    ./static/ belong to Go's libraries).
   */
  function Route(urlPath: string): (p: Page)
    ensures p == HomePage <==> urlPath == "/"
    ensures p == DiagramPage <==> urlPath == "/diagram.svg"
    ensures p.StaticFile? ==> p.urlPath == urlPath
  {
    var dotted := "." + urlPath;
    DotPrefixInjective(urlPath, "/");
    DotPrefixInjective(urlPath, "/diagram.svg");
    if dotted == "./" then HomePage
    else if dotted == "./diagram.svg" then DiagramPage
    else StaticFile(urlPath)
  }

  lemma DotPrefixInjective(x: string, y: string)
    ensures "." + x == "." + y <==> x == y
  {
    if "." + x == "." + y {
      assert x == ("." + x)[1..];
    }
  }
}
