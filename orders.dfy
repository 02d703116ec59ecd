/**
  The orders frontend (orders/main.go): the `OrderApplication`
  receiver and the handlers that update its fields in place. The amount is
  read from the form field "order".
 */
module Orders {

  import opened GoInt
  import opened Strconv
  import opened Quote
  import opened Frontend

  const OrderField: string := "order"

  /**
    `parseOrderAmount`: a nonzero amount is always the Atoi value of the
    first "order" value of a form that parsed, and every value Atoi
    converts without error is taken as it is; anything else reads as 0.
   */
  function ParseOrderAmount(r: Request): (n: Int64)
    ensures n != 0 ==>
      && r.formParsed && OrderField in r.form && r.form[OrderField] != []
      && Atoi(r.form[OrderField][0]) == Ok(n)
    ensures r.formParsed && Atoi(FormGet(r.form, OrderField)).Ok? ==> n == Atoi(FormGet(r.form, OrderField)).value
  {
    ParseAmount(r, OrderField)
  }

  class OrderApplication {
    var AppVersion: string
    var BackendVersion: string
    var BackendHost: string
    var BackendPort: string
    var OrderAmount: Int64
    var OrderResult: string
    /** The backend paths requested through this receiver, oldest first. */
    ghost var BackendRequests: seq<string>

    /** `OrderApplication{}`: every field at its zero value, nothing requested yet. */
    constructor ()
      ensures AppVersion == "" && BackendVersion == "" && BackendHost == "" && BackendPort == ""
      ensures OrderAmount == 0 && OrderResult == ""
      ensures BackendRequests == []
    {
      AppVersion, BackendVersion, BackendHost, BackendPort := "", "", "", "";
      OrderAmount, OrderResult := 0, "";
      BackendRequests := [];
    }

    /**
      `callBackend(path)`, with the exchange itself abstracted to its
      outcome `reply`: the request is made, and the body comes back on
      success, "" with an error otherwise.
     */
    method CallBackend(path: string, reply: BackendReply) returns (result: string, failed: bool)
      modifies this`BackendRequests
      ensures BackendRequests == old(BackendRequests) + [path]
      ensures failed <==> reply.Failed?
      ensures result == if failed then "" else reply.body
    {
      BackendRequests := BackendRequests + [path];
      match reply
      case Reply(body) =>
        result, failed := body, false;
      case Failed =>
        result, failed := "", true;
    }

    /**
      `findBackendVersion`: asks the backend for its version and records the
      answer, or "unknown" when the call fails. No other field changes.
     */
    method FindBackendVersion(versionReply: BackendReply)
      modifies this`BackendVersion, this`BackendRequests
      ensures BackendVersion == BackendVersionFrom(versionReply)
      ensures BackendRequests == old(BackendRequests) + [VersionPath]
    {
      var version, failed := CallBackend(VersionPath, versionReply);
      if failed {
        version := UnknownVersion;
      }
      BackendVersion := version;
    }

    /**
      `handleFormSubmission`: records the parsed amount. A zero amount
      returns at once, without calling the backend and leaving the previous
      result in place. Any other amount, negative ones included, asks the
      backend for the interest rate and records the resulting quote or the
      fallback sentence.
     */
    method HandleFormSubmission(r: Request, interestReply: BackendReply)
      modifies this`OrderAmount, this`OrderResult, this`BackendRequests
      ensures OrderAmount == ParseOrderAmount(r)
      ensures OrderAmount == 0 ==>
        OrderResult == old(OrderResult) && BackendRequests == old(BackendRequests)
      ensures OrderAmount != 0 ==>
        && OrderResult == SubmissionQuote(OrderAmount, interestReply)
        && BackendRequests == old(BackendRequests) + [InterestPath]
    {
      var amount := ParseOrderAmount(r);
      OrderAmount := amount;
      if amount == 0 {
        return;
      }

      var quote := "";
      var interestFound, failed := CallBackend(InterestPath, interestReply);
      if failed {
        quote := Fallback;
      } else {
        var interestConverted := ValueIgnoringError(Atoi(interestFound));
        quote := OfferQuote(amount, interestConverted);
      }
      OrderResult := quote;
    }

    /**
      `home`, up to rendering: the backend version is looked up first, then
      the form submission is handled.
     */
    method Home(r: Request, versionReply: BackendReply, interestReply: BackendReply)
      modifies this`BackendVersion, this`OrderAmount, this`OrderResult, this`BackendRequests
      ensures BackendVersion == BackendVersionFrom(versionReply)
      ensures OrderAmount == ParseOrderAmount(r)
      ensures OrderResult == if OrderAmount == 0 then old(OrderResult)
                             else SubmissionQuote(OrderAmount, interestReply)
      ensures BackendRequests == old(BackendRequests) + [VersionPath] +
                                 (if OrderAmount == 0 then [] else [InterestPath])
    {
      FindBackendVersion(versionReply);
      HandleFormSubmission(r, interestReply);
    }

    /**
      `serveFiles`: the root path runs `home`; the diagram and static files
      only read the receiver, so nothing changes for them.
     */
    method ServeFiles(urlPath: string, r: Request, versionReply: BackendReply, interestReply: BackendReply)
      returns (page: Page)
      modifies this`BackendVersion, this`OrderAmount, this`OrderResult, this`BackendRequests
      ensures page == Route(urlPath)
      ensures page == HomePage ==>
        && BackendVersion == BackendVersionFrom(versionReply)
        && OrderAmount == ParseOrderAmount(r)
        && OrderResult == (if OrderAmount == 0 then old(OrderResult)
                           else SubmissionQuote(OrderAmount, interestReply))
        && BackendRequests == old(BackendRequests) + [VersionPath] +
                              (if OrderAmount == 0 then [] else [InterestPath])
      ensures page != HomePage ==> unchanged(this)
    {
      page := Route(urlPath);
      if page == HomePage {
        Home(r, versionReply, interestReply);
      }
    }
  }

  /**
    A sequence of requests on one receiver: a negative amount still calls
    the backend and, with a rate the backend cannot give as a number, shows
    nothing; a positive amount whose backend call fails shows the fallback.
   */
  method SubmissionScenario() {
    var app := new OrderApplication();
    FormatTwenty();
    var negative := Request(true, map[OrderField := ["-20"]]);
    ParseAmountReadsPrinted(negative, OrderField, -20);
    app.HandleFormSubmission(negative, Reply("abc"));
    assert app.OrderAmount == -20;
    assert app.OrderResult == "";
    assert app.BackendRequests == [InterestPath];

    var positive := Request(true, map[OrderField := ["20"]]);
    ParseAmountReadsPrinted(positive, OrderField, 20);
    app.HandleFormSubmission(positive, Failed);
    assert app.OrderResult == Fallback;
    assert app.BackendRequests == [InterestPath, InterestPath];
  }

  lemma FormatTwenty()
    ensures FormatInt(20) == "20" && FormatInt(-20) == "-20"
  {
    assert DigitChar(2) == '2' && DigitChar(0) == '0';
    assert FormatNat(20) == FormatNat(2) + [DigitChar(0)];
  }
}
