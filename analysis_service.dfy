/** Sending URLs to the analysis webhook one at a time and accounting for
    the answers. The webhook call itself is an oracle: for the `i`-th call,
    made with a given URL, it yields the outcome the HTTP client observed. */
module AnalysisService {
  import opened Records
  import opened Strings

  /** The decoded JSON document of a webhook answer, kept as its text. */
  type Payload = string

  /** What `response.json()` makes of the response body. */
  datatype Body = Decoded(payload: Payload) | Undecodable(reason: string)

  /** What one webhook call can end in: a response with a status code, its
      body text and that body read as JSON; a timeout; or any other
      exception, with its message. */
  datatype Outcome =
    | Response(statusCode: nat, text: string, body: Body)
    | TimedOut
    | Raised(message: string)

  /** The tagged dictionary `analyze_single_url` returns: status `success`
      with the decoded data, or status `error` with a message. */
  datatype UrlResult = Success(url: string, data: Payload) | Error(url: string, error: string)

  datatype BulkResult = BulkResult(
    totalUrls: nat, successful: nat, failed: nat, results: seq<UrlResult>)

  const TimeoutMessage := "Request timeout (>60s)"

  /** The call the webhook accepted: status 200 with a body that reads as JSON. */
  predicate Accepted(outcome: Outcome) {
    outcome.Response? && outcome.statusCode == 200 && outcome.body.Decoded?
  }

  /** `f"HTTP {response.status_code}: {response.text}"`. */
  function HttpErrorMessage(code: nat, text: string): (message: string)
    ensures |message| >= 8 + |text| && message[..5] == "HTTP "
    ensures message[|message| - |text|..] == text
  {
    var message := "HTTP " + NatToString(code) + ": " + text;
    assert message == ("HTTP " + NatToString(code) + ": ") + text;
    message
  }

  /** `analyze_single_url`: the result always names the URL it was asked
      about; it is a success exactly when the webhook accepted the call, and
      otherwise carries the message of what went wrong. No outcome escapes
      as an exception. */
  function AnalyzeSingleUrl(url: string, outcome: Outcome): (r: UrlResult)
    ensures r.url == url
    ensures r.Success? <==> Accepted(outcome)
    ensures r.Success? ==> r.data == outcome.body.payload
    ensures outcome == TimedOut ==> r == Error(url, TimeoutMessage)
    ensures outcome.Raised? ==> r == Error(url, outcome.message)
    ensures outcome.Response? && outcome.statusCode != 200 ==>
              r == Error(url, HttpErrorMessage(outcome.statusCode, outcome.text))
    ensures outcome.Response? && outcome.statusCode == 200 && outcome.body.Undecodable? ==>
              r == Error(url, outcome.body.reason)
  {
    match outcome
    case Response(code, text, body) =>
      if code == 200 then
        match body
        case Decoded(payload) => Success(url, payload)
        case Undecodable(reason) => Error(url, reason)
      else Error(url, HttpErrorMessage(code, text))
    case TimedOut => Error(url, TimeoutMessage)
    case Raised(message) => Error(url, message)
  }

  // ------------------------------------------------ reading an HTTP error

  /** Reads a message of the form `HTTP <code>: <text>` back into its status
      code and response text. */
  function ParseHttpError(message: string): Option<(nat, string)> {
    if |message| < 5 || message[..5] != "HTTP " then None
    else
      var rest := message[5..];
      var n := DigitRun(rest);
      if n == 0 || n + 2 > |rest| || rest[n] != ':' || rest[n + 1] != ' ' then None
      else Some((DecimalValue(rest[..n]), rest[n + 2..]))
  }

  lemma {:induction false} DigitRunOfDigits(digits: string, tail: string)
    requires AllDigits(digits)
    requires tail != [] && !IsDigit(tail[0])
    ensures DigitRun(digits + tail) == |digits|
  {
    if digits != [] {
      assert (digits + tail)[1..] == digits[1..] + tail;
      DigitRunOfDigits(digits[1..], tail);
    }
  }

  /** The status code and the response text can be read back from the
      error message: nothing of either is lost in it. */
  lemma HttpErrorRoundTrip(code: nat, text: string)
    ensures ParseHttpError(HttpErrorMessage(code, text)) == Some((code, text))
  {
    var digits := NatToString(code);
    var message := HttpErrorMessage(code, text);
    assert message[..5] == "HTTP " && message[5..] == digits + (": " + text) by {
      assert message == "HTTP " + (digits + (": " + text));
    }
    CodeThenText(digits, text);
    DecimalRoundTrip(code);
  }

  /** After the prefix, the digits of the code, then `: `, then the text. */
  lemma CodeThenText(digits: string, text: string)
    requires digits != [] && AllDigits(digits)
    ensures var rest := digits + (": " + text);
            && DigitRun(rest) == |digits| && rest[|digits|] == ':' && rest[|digits| + 1] == ' '
            && rest[..|digits|] == digits && rest[|digits| + 2..] == text
  {
    var rest := digits + (": " + text);
    DigitRunOfDigits(digits, ": " + text);
    assert rest[|digits|..] == ": " + text;
  }

  /** An HTTP error cannot be mistaken for a timeout. */
  lemma TimeoutIsNotHttpError(code: nat, text: string)
    ensures HttpErrorMessage(code, text) != TimeoutMessage
  {
    assert HttpErrorMessage(code, text)[0] == 'H';
  }

  // ------------------------------------------------------------ bulk

  function SuccessCount(results: seq<UrlResult>): (n: nat)
    ensures n <= |results|
  {
    if results == [] then 0
    else SuccessCount(results[..|results| - 1]) + (if results[|results| - 1].Success? then 1 else 0)
  }

  function ErrorCount(results: seq<UrlResult>): (n: nat)
    ensures n <= |results|
  {
    if results == [] then 0
    else ErrorCount(results[..|results| - 1]) + (if results[|results| - 1].Error? then 1 else 0)
  }

  /** Every result is either a success or an error. */
  lemma {:induction false} CountsPartition(results: seq<UrlResult>)
    ensures SuccessCount(results) + ErrorCount(results) == |results|
  {
    if results != [] { CountsPartition(results[..|results| - 1]); }
  }

  /** The number of calls, among the first `n`, that the webhook accepted. */
  function AcceptedCalls(urls: seq<string>, network: (nat, string) -> Outcome, n: nat): (k: nat)
    requires n <= |urls|
    ensures k <= n
  {
    if n == 0 then 0
    else AcceptedCalls(urls, network, n - 1) + (if Accepted(network(n - 1, urls[n - 1])) then 1 else 0)
  }

  /** The `successful` counter counts the calls the webhook accepted. */
  lemma SuccessesAreAcceptedCalls(
    urls: seq<string>, network: (nat, string) -> Outcome, results: seq<UrlResult>)
    requires |results| == |urls|
    requires forall i :: 0 <= i < |urls| ==> results[i] == AnalyzeSingleUrl(urls[i], network(i, urls[i]))
    ensures SuccessCount(results) == AcceptedCalls(urls, network, |urls|)
  {
    SuccessesAreAcceptedCallsPrefix(urls, network, results, |urls|);
    assert results[..|urls|] == results;
  }

  lemma {:induction false} SuccessesAreAcceptedCallsPrefix(
    urls: seq<string>, network: (nat, string) -> Outcome, results: seq<UrlResult>, n: nat)
    requires |results| == |urls| && n <= |urls|
    requires forall i :: 0 <= i < |urls| ==> results[i] == AnalyzeSingleUrl(urls[i], network(i, urls[i]))
    ensures SuccessCount(results[..n]) == AcceptedCalls(urls, network, n)
  {
    if n > 0 {
      SuccessesAreAcceptedCallsPrefix(urls, network, results, n - 1);
      assert results[..n][..n - 1] == results[..n - 1];
    }
  }

  /** `analyze_bulk_urls`: one call per URL, in order, each answered by the
      oracle; one result per URL, in input order, each naming its URL; the
      counters count the successes and the errors among the results, and
      together make up the number of URLs. */
  method AnalyzeBulkUrls(urls: seq<string>, network: (nat, string) -> Outcome)
    returns (bulk: BulkResult)
    ensures bulk.totalUrls == |urls| && |bulk.results| == |urls|
    ensures forall i :: 0 <= i < |urls| ==>
              bulk.results[i] == AnalyzeSingleUrl(urls[i], network(i, urls[i]))
              && bulk.results[i].url == urls[i]
    ensures bulk.successful == SuccessCount(bulk.results)
    ensures bulk.failed == ErrorCount(bulk.results)
    ensures bulk.successful + bulk.failed == bulk.totalUrls
    ensures bulk.successful == AcceptedCalls(urls, network, |urls|)
  {
    var results: seq<UrlResult> := [];
    var successful: nat := 0;
    var failed: nat := 0;
    for i := 0 to |urls|
      invariant |results| == i
      invariant forall j :: 0 <= j < i ==> results[j] == AnalyzeSingleUrl(urls[j], network(j, urls[j]))
      invariant successful == SuccessCount(results)
      invariant failed == ErrorCount(results)
    {
      var result := AnalyzeSingleUrl(urls[i], network(i, urls[i]));
      assert (results + [result])[..i] == results;
      results := results + [result];
      if result.Success? {
        successful := successful + 1;
      } else {
        failed := failed + 1;
      }
    }
    CountsPartition(results);
    SuccessesAreAcceptedCalls(urls, network, results);
    bulk := BulkResult(|urls|, successful, failed, results);
  }

  /** Three URLs whose second call times out: two successes, one failure,
      and the failure says it timed out. */
  lemma TimeoutExample(a: string, b: string, c: string, payload: Payload)
    ensures var results := [
              AnalyzeSingleUrl(a, Response(200, payload, Decoded(payload))),
              AnalyzeSingleUrl(b, TimedOut),
              AnalyzeSingleUrl(c, Response(200, payload, Decoded(payload)))];
            SuccessCount(results) == 2 && ErrorCount(results) == 1
            && results[1] == Error(b, TimeoutMessage)
  {
    var results := [
      AnalyzeSingleUrl(a, Response(200, payload, Decoded(payload))),
      AnalyzeSingleUrl(b, TimedOut),
      AnalyzeSingleUrl(c, Response(200, payload, Decoded(payload)))];
    assert results[0].Success? && results[1].Error? && results[2].Success?;
    assert results[..2][..1] == results[..1] && results[..1][..0] == [];
    assert SuccessCount(results[..1]) == 1 && ErrorCount(results[..1]) == 0;
    assert SuccessCount(results[..2]) == 1 && ErrorCount(results[..2]) == 1;
  }

  /** Only status 200 is a success: 201 is reported as an HTTP error. */
  lemma CreatedIsAnError(url: string, text: string, payload: Payload)
    ensures AnalyzeSingleUrl(url, Response(201, text, Decoded(payload)))
            == Error(url, "HTTP 201: " + text)
  {
    assert NatToString(201) == "201" by {
      assert NatToString(20) == "20";
    }
  }
}
