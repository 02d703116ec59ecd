# Loan-app frontends: the quote pipeline in Dafny

The repository holds two Go web frontends, `membership` and `orders`. They
are the same program under two sets of names. Each one reads an amount from
a submitted form, asks a backend service for an interest rate, and shows a
one-line quote computed from the two. Each also asks the backend for its
version, and it dispatches URL paths to pages. This project models that
pipeline and proves what it does.

- `GoInt` (`go_int.dfy`): Go's 64-bit `int`. `Int64` is the value range.
  `Wrap` is the two's-complement wrap-around of `*`. `TruncDiv` is Go's `/`,
  which truncates toward zero where Dafny's `/` is Euclidean.
- `Strconv` (`strconv.dfy`): `strconv.Atoi` and the `%d` verb (`FormatInt`).
  `Atoi` returns a value, a syntax error (value 0) or a range error (value
  clamped to the `int` range).
- `Quote` (`quote.dfy`): `offerQuote`, shared by both frontends. It is the
  product `amount * interest / 100` and the sentence
  `With rate <rate>% you will pay  <total> extra interest` (two spaces after
  "pay"). `ParseQuoteSentence` reads a sentence back into its rate and total.
  It is the reference for the format.
- `Frontend` (`frontend.dfy`): the decisions the handlers share. It covers
  the parse-or-zero reading of the form field, the result shown for a
  backend reply, the "unknown" version fallback and the dispatch of
  `serveFiles`.
- `Membership` (`membership.dfy`) and `Orders` (`orders.dfy`): the receiver
  structs `MembershipApplication` and `OrderApplication` as classes. Their
  methods assign the receiver's fields in place, as the Go methods do.

The backend is reduced to the outcome of one call, `BackendReply`, which is
`Reply(body)` on a `200 OK` or `Failed` on any error. A handler receives the
reply it would get if it asked. The ghost field `BackendRequests` records
which backend paths a receiver actually requested. This is how the model
states that a zero amount makes no backend call. A request is reduced to
`Request(formParsed, form)`: whether `r.ParseForm()` succeeded, and the
decoded `url.Values`.

The two frontends differ only in names and in the form field they read
(`"Membership"` and `"order"`). Code that is identical in the two files is
modelled once and cited from one of them: `offerQuote`
(orders/main.go:183-191 is identical to membership/main.go:183-191 up to
the parameter name), the
Atoi-or-0 step and the result decision. Each receiver class is modelled
separately.

## Model

| member | source | states |
|---|---|---|
| `GoInt.Wrap` | membership/main.go:188 | the product Go computes is the 64-bit value congruent to the mathematical product modulo 2^64, and equals it when it fits |
| `GoInt.TruncDiv` | membership/main.go:188 | Go's `/`: the remainder is smaller than the divisor in magnitude and is zero or has the dividend's sign |
| `GoInt.TruncDivUnique` | orders/main.go:188 | those two conditions determine the quotient, so `TruncDiv` is the one division they describe |
| `Strconv.Atoi` | membership/main.go:175 | only integer text (optional sign, one or more digits) converts without error; integer text never gives a syntax error; a range error is clamped toward the sign of the text |
| `Strconv.FormatInt` | membership/main.go:189 | `%d` text is non-empty, starts with `-` exactly for negative numbers, and holds only digits and `-`; the digits after the sign are non-empty and have no leading zero, with a lone "0" only for zero |
| `Strconv.AtoiFormatInt` | orders/main.go:175 | Atoi reads back every `int` that `%d` prints, negative ones included |
| `Strconv.AtoiFormatAboveRange` | membership/main.go:159 | a printed number above the `int` range gives a range error clamped to the largest `int` |
| `Strconv.AtoiShortText` | orders/main.go:175-178 | on text of at most 18 characters Atoi succeeds exactly on integer text and gives a syntax error on everything else (empty, a lone sign, spaces, "5\n", "abc") |
| `Strconv.AtoiPaddedText` | membership/main.go:175 | Atoi also reads integer text `%d` never prints: an explicit `+` and any number of leading zeros, at any length, give the number's value without error |
| `Strconv.AtoiSignedDigits` | orders/main.go:175 | a sign or none, then digits whose value fits the `int` range, reads as that value, negated after a `-` |
| `Strconv.DigitsValueLeadingZeros` | membership/main.go:175 | leading zeros do not change the value of a run of digits |
| `Strconv.AtoiPlusAndZerosExamples` | orders/main.go:175 | "+5" reads as 5 and "007" as 7 |
| `Strconv.DigitsValueFormatNat` | membership/main.go:189 | the digits `%d` prints for a natural number accumulate back to that number |
| `Quote.QuoteTotal` | orders/main.go:188 | if the product fits in an `int`, the total is the product over 100 rounded toward zero: `100*abs(total) <= abs(product) < 100*(abs(total)+1)`, with the product's sign |
| `Quote.QuoteTotalRoundsTowardZero` | membership/main.go:188 | a negative product that is not a multiple of 100 gives one more than Euclidean division would |
| `Quote.QuoteTotalWrapsAround` | orders/main.go:188 | a positive amount (10^17) at a positive rate (100) is quoted a negative total, because the product wraps around |
| `Quote.OfferQuote` | membership/main.go:183-191 | the result is empty exactly when the amount is zero or negative, whatever the rate; otherwise it is the quote sentence for the rate and the truncated total, and that rate and total read back from it |
| `Quote.QuoteSentenceRoundTrip` | membership/main.go:189 | every sentence with an `int` rate and total reads back to exactly that rate and total |
| `Quote.QuoteBodyRoundTrip` | orders/main.go:189 | the `<rate>% you will pay  <total>` middle part reads back to its rate and total |
| `Quote.IndexOfPercentAt` | orders/main.go:189 | the first `%` of the sentence body follows the printed rate, which has none |
| `Quote.OfferQuoteExample` | orders/main.go:183-191 | 1000 at 5 gives "With rate 5% you will pay  50 extra interest" |
| `Frontend.ParseAmount` | membership/main.go:166-181 | a nonzero amount comes from a parsed form whose field has a first value that Atoi converts without error to that amount; when Atoi succeeds, its value is taken unclamped |
| `Frontend.ParseAmountReadsPrinted` | orders/main.go:173-179 | a field holding a printed `int`, negative or not, is read as that `int` |
| `Frontend.ParseAmountRejectsText` | membership/main.go:173-178 | an absent or empty field, or any text that is not integer text, is read as 0 |
| `Frontend.RangeErrorReadTwoWays` | orders/main.go:159 | a number above the `int` range gives amount 0 where the error is checked, but rate MaxInt64 where it is ignored |
| `Frontend.SubmissionQuote` | membership/main.go:152-162 | for a nonzero amount, the fallback sentence is shown exactly when the backend call failed, and nothing is shown exactly when it succeeded and the amount is negative; when it succeeded, the text shown is `offerQuote`'s sentence at the rate Atoi gives with its error ignored, and for a positive amount it reads back to that rate and the total for it |
| `Frontend.FallbackIsNoQuote` | membership/main.go:156 | the fallback sentence cannot be read as a quote |
| `Frontend.SubmissionQuoteReadsRate` | orders/main.go:157-160 | a body holding a printed `int` becomes the rate of the quote shown for a positive amount |
| `Frontend.SubmissionQuoteUnreadableRate` | membership/main.go:159-160 | a body on which Atoi reports a syntax error (such as "abc" or "5\n", by `Strconv.AtoiShortText`) gives "With rate 0% you will pay  0 extra interest" for any positive amount |
| `Frontend.Route` | membership/main.go:72-85 | the path "/" goes to the home page and "/diagram.svg" to the diagram, and only those; every other path is a static file named by that path |
| `Membership.ParseMembershipAmount` | membership/main.go:166-181 | a nonzero amount is the Atoi value of the first "Membership" value of a parsed form, and a value Atoi converts without error is taken as the amount |
| `Membership.MembershipApplication.constructor` | membership/main.go:17-24 | `MembershipApplication{}`: every field at its zero value, and no backend request made |
| `Membership.MembershipApplication.CallBackend` | membership/main.go:193-223 | the path is requested; the body comes back on success, and "" with an error otherwise |
| `Membership.MembershipApplication.FindBackendVersion` | membership/main.go:87-95 | `BackendVersion` becomes the reply body, or "unknown" on error; the version path is requested; no other field changes |
| `Membership.MembershipApplication.HandleFormSubmission` | membership/main.go:145-164 | `MembershipAmount` becomes the parsed amount; a zero amount requests nothing and keeps `MembershipResult`; any other amount requests the interest path and sets `MembershipResult` to the fallback or the quote |
| `Membership.MembershipApplication.Home` | membership/main.go:97-101 | the version is looked up first, then the submission is handled, with the combined effect on the fields and on the requests made |
| `Membership.MembershipApplication.ServeFiles` | membership/main.go:72-85 | "/" has the effect of `home`; any other path leaves the receiver unchanged |
| `Orders.ParseOrderAmount` | orders/main.go:166-181 | a nonzero amount is the Atoi value of the first "order" value of a parsed form, and a value Atoi converts without error is taken as the amount |
| `Orders.OrderApplication.constructor` | orders/main.go:17-24 | `OrderApplication{}`: every field at its zero value, and no backend request made |
| `Orders.OrderApplication.CallBackend` | orders/main.go:193-223 | the path is requested; the body comes back on success, and "" with an error otherwise |
| `Orders.OrderApplication.FindBackendVersion` | orders/main.go:87-95 | `BackendVersion` becomes the reply body, or "unknown" on error; the version path is requested; no other field changes |
| `Orders.OrderApplication.HandleFormSubmission` | orders/main.go:145-164 | `OrderAmount` becomes the parsed amount; a zero amount requests nothing and keeps `OrderResult`; any other amount, negative ones included, requests the interest path and sets `OrderResult` to the fallback or the quote |
| `Orders.OrderApplication.Home` | orders/main.go:97-101 | the version is looked up first, then the submission is handled, with the combined effect on the fields and on the requests made |
| `Orders.OrderApplication.ServeFiles` | orders/main.go:72-85 | "/" has the effect of `home`; any other path leaves the receiver unchanged |

`Membership.SubmissionScenario` and `Orders.SubmissionScenario` run a few
requests against one receiver. They show that a later empty submission keeps
the earlier quote, that a negative amount still calls the backend and shows
nothing, and that a failed call shows the fallback.

## Left out

- `main` (environment defaults, handler registration, `ListenAndServe`): process startup and I/O. `AppVersion`, `BackendHost` and `BackendPort` are fields the model never changes.
- The HTTP exchange inside `callBackend` (building the URL, the GET, the status check, reading the body) is network I/O. It is replaced by the `BackendReply` the call ends in.
- Template parsing and execution in `home` and `showDiagram`, response headers and `http.Error`: rendering and output. `showDiagram` only reads the receiver, so the model gives it no state change.
- The static-file branch of `serveFiles`: `path.Clean`, `filepath.Join` and `http.ServeFile` are library and filesystem calls. The model keeps only the three-way dispatch.
- `r.ParseForm()`: the decoding of the request body is a library call. Its failure is the `formParsed` flag and its result the `form` map.
- The `/version` and `/health/*` handlers write constants to the response.
- Logging calls.
- Concurrent requests: the Go handlers mutate the shared receiver without locking, and two requests can interleave. The model runs one handler call at a time.
- Strings are sequences of characters, where Go works on bytes. Signs and digits are single ASCII bytes and every other character is a non-digit, so Atoi's verdicts agree. The only difference is the 18-byte fast path, whose bound is stated in characters in `Strconv.AtoiShortText`.
- `Strconv.Atoi`: Go checks for overflow digit by digit, and the model checks the value of the leading run of digits once. The two agree because that value only grows as digits are read.
- Go's `int` is taken to be 64 bits wide, as on the usual 64-bit platforms. On a 32-bit platform the wrap-around of `amount * interest` and the range Atoi accepts and clamps to are those of 32 bits, which the model does not cover.
