/**
  The membership frontend (membership/main.go): the `MembershipApplication`
  receiver and the handlers that update its fields in place. The amount is
  read from the form field "Membership".
 */
module Membership {

  import opened GoInt
  import opened Strconv
  import opened Quote
  import opened Frontend

  const MembershipField: string := "Membership"

  /**
    `parseMembershipAmount`: a nonzero amount is always the Atoi value of the
    first "Membership" value of a form that parsed, and every value Atoi
    converts without error is taken as it is; anything else reads as 0.
   */
  function ParseMembershipAmount(r: Request): (n: Int64)
    ensures n != 0 ==>
      && r.formParsed && MembershipField in r.form && r.form[MembershipField] != []
      && Atoi(r.form[MembershipField][0]) == Ok(n)
    ensures r.formParsed && Atoi(FormGet(r.form, MembershipField)).Ok? ==> n == Atoi(FormGet(r.form, MembershipField)).value
  {
    ParseAmount(r, MembershipField)
  }

  class MembershipApplication {
    var AppVersion: string
    var BackendVersion: string
    var BackendHost: string
    var BackendPort: string
    var MembershipAmount: Int64
    var MembershipResult: string
    /** The backend paths requested through this receiver, oldest first. */
    ghost var BackendRequests: seq<string>

    /** `MembershipApplication{}`: every field at its zero value, nothing requested yet. */
    constructor ()
      ensures AppVersion == "" && BackendVersion == "" && BackendHost == "" && BackendPort == ""
      ensures MembershipAmount == 0 && MembershipResult == ""
      ensures BackendRequests == []
    {
      AppVersion, BackendVersion, BackendHost, BackendPort := "", "", "", "";
      MembershipAmount, MembershipResult := 0, "";
      BackendRequests := [];
    }

    /**
      `callBackend(path)`, with the exchange itself abstracted to its
      outcome `reply`: the request is made, and the body comes back on
      success, "" with an error otherwise.
     */
    method CallBackend(path: string, reply: BackendReply) returns (result: string, failed: bool)
      modifies this`BackendRequests
      ensures BackendRequests == old(BackendRequests) + [path]
      ensures failed <==> reply.Failed?
      ensures result == if failed then "" else reply.body
    {
      BackendRequests := BackendRequests + [path];
      match reply
      case Reply(body) =>
        result, failed := body, false;
      case Failed =>
        result, failed := "", true;
    }

    /**
      `findBackendVersion`: asks the backend for its version and records the
      answer, or "unknown" when the call fails. No other field changes.
     */
    method FindBackendVersion(versionReply: BackendReply)
      modifies this`BackendVersion, this`BackendRequests
      ensures BackendVersion == BackendVersionFrom(versionReply)
      ensures BackendRequests == old(BackendRequests) + [VersionPath]
    {
      var version, failed := CallBackend(VersionPath, versionReply);
      if failed {
        version := UnknownVersion;
      }
      BackendVersion := version;
    }

    /**
      `handleFormSubmission`: records the parsed amount. A zero amount
      returns at once, without calling the backend and leaving the previous
      result in place. Any other amount, negative ones included, asks the
      backend for the interest rate and records the resulting quote or the
      fallback sentence.
     */
    method HandleFormSubmission(r: Request, interestReply: BackendReply)
      modifies this`MembershipAmount, this`MembershipResult, this`BackendRequests
      ensures MembershipAmount == ParseMembershipAmount(r)
      ensures MembershipAmount == 0 ==>
        MembershipResult == old(MembershipResult) && BackendRequests == old(BackendRequests)
      ensures MembershipAmount != 0 ==>
        && MembershipResult == SubmissionQuote(MembershipAmount, interestReply)
        && BackendRequests == old(BackendRequests) + [InterestPath]
    {
      var amount := ParseMembershipAmount(r);
      MembershipAmount := amount;
      if amount == 0 {
        return;
      }

      var quote := "";
      var interestFound, failed := CallBackend(InterestPath, interestReply);
      if failed {
        quote := Fallback;
      } else {
        var interestConverted := ValueIgnoringError(Atoi(interestFound));
        quote := OfferQuote(amount, interestConverted);
      }
      MembershipResult := quote;
    }

    /**
      `home`, up to rendering: the backend version is looked up first, then
      the form submission is handled.
     */
    method Home(r: Request, versionReply: BackendReply, interestReply: BackendReply)
      modifies this`BackendVersion, this`MembershipAmount, this`MembershipResult, this`BackendRequests
      ensures BackendVersion == BackendVersionFrom(versionReply)
      ensures MembershipAmount == ParseMembershipAmount(r)
      ensures MembershipResult == if MembershipAmount == 0 then old(MembershipResult)
                                  else SubmissionQuote(MembershipAmount, interestReply)
      ensures BackendRequests == old(BackendRequests) + [VersionPath] +
                                 (if MembershipAmount == 0 then [] else [InterestPath])
    {
      FindBackendVersion(versionReply);
      HandleFormSubmission(r, interestReply);
    }

    /**
      `serveFiles`: the root path runs `home`; the diagram and static files
      only read the receiver, so nothing changes for them.
     */
    method ServeFiles(urlPath: string, r: Request, versionReply: BackendReply, interestReply: BackendReply)
      returns (page: Page)
      modifies this`BackendVersion, this`MembershipAmount, this`MembershipResult, this`BackendRequests
      ensures page == Route(urlPath)
      ensures page == HomePage ==>
        && BackendVersion == BackendVersionFrom(versionReply)
        && MembershipAmount == ParseMembershipAmount(r)
        && MembershipResult == (if MembershipAmount == 0 then old(MembershipResult)
                                else SubmissionQuote(MembershipAmount, interestReply))
        && BackendRequests == old(BackendRequests) + [VersionPath] +
                              (if MembershipAmount == 0 then [] else [InterestPath])
      ensures page != HomePage ==> unchanged(this)
    {
      page := Route(urlPath);
      if page == HomePage {
        Home(r, versionReply, interestReply);
      }
    }
  }

  /**
    A sequence of requests on one receiver: a submission of 1000 at a rate
    of 5 is quoted; a later request without the field reads as 0, asks the
    backend nothing more and keeps the earlier quote on display.
   */
  method SubmissionScenario() {
    var app := new MembershipApplication();
    var first := Request(true, map[MembershipField := ["1000"]]);
    assert FormatInt(1000) == "1000" by {
      FormatThousand();
    }
    ParseAmountReadsPrinted(first, MembershipField, 1000);
    AtoiFormatInt(5);
    FormatFive();
    OfferQuoteExample();
    app.HandleFormSubmission(first, Reply("5"));
    assert app.MembershipResult == "With rate 5% you will pay  50 extra interest";
    assert app.BackendRequests == [InterestPath];

    var second := Request(true, map[]);
    app.HandleFormSubmission(second, Failed);
    assert app.MembershipAmount == 0;
    assert app.MembershipResult == "With rate 5% you will pay  50 extra interest";
    assert app.BackendRequests == [InterestPath];
  }

  lemma FormatThousand()
    ensures FormatInt(1000) == "1000"
  {
    assert DigitChar(1) == '1' && DigitChar(0) == '0';
    assert FormatNat(10) == FormatNat(1) + [DigitChar(0)];
    assert FormatNat(100) == FormatNat(10) + [DigitChar(0)];
    assert FormatNat(1000) == FormatNat(100) + [DigitChar(0)];
  }
}
