/**
 * `runWebsiteChecks` (main.go:179-245): requests the website once, collects a
 * reason for every expectation the response misses, stores the result and
 * raises an alert when there is any reason. The HTTP exchange is an input: the
 * response, or the error text of a request that failed.
 */
module WebsiteRun {
  import opened Wrappers
  import opened Text
  import opened Config
  import opened WebsiteCheckDb
  import opened Alerting

  /** What the HTTP client reports about one exchange; `timeMs` is the round-trip time in milliseconds. */
  datatype HttpResponse = HttpResponse(statusCode: int, status: string, timeMs: int, headers: map<string, string>)

  /** The methods main.go:184-193 issue a request for; any other method issues none. */
  predicate Requested(httpMethod: string) {
    httpMethod == "" || httpMethod == "GET" || httpMethod == "POST"
  }

  /** `fmt.Sprintf("Failed request: ", err)`: a format without a verb renders the argument as an extra. */
  function FailedRequestMessage(err: string): string {
    "Failed request: %!(EXTRA string=" + err + ")"
  }

  function StatusMessage(expected: int, status: string): string {
    "Status code - expected '" + IntToString(expected) + "', got '" + status + "'"
  }

  function SlowMessage(maxMs: int, tookMs: int): string {
    "Response time - expected below '" + IntToString(maxMs) + "' ms, took '" + IntToString(tookMs) + "' ms"
  }

  function ForbiddenHeaderMessage(header: string): string {
    "Header '" + header + "' should not exist"
  }

  function MismatchHeaderMessage(header: string, expected: string, got: string): string {
    "Header '" + header + "' - expected '" + expected + "', got '" + got + "'"
  }

  /** The reasons a received response gives: the status code, then the time budget (main.go:208-216). */
  function ResponseReasons(statusCode: int, maxResponseTimeMS: int, response: HttpResponse): (rs: seq<string>)
    ensures |rs| <= 2
    ensures rs == [] <==>
              (statusCode == 0 || statusCode == response.statusCode) &&
              (maxResponseTimeMS == 0 || response.timeMs <= maxResponseTimeMS)
  {
    (if statusCode != 0 && statusCode != response.statusCode then [StatusMessage(statusCode, response.status)] else [])
    + (if maxResponseTimeMS != 0 && response.timeMs > maxResponseTimeMS then [SlowMessage(maxResponseTimeMS, response.timeMs)] else [])
  }

  /**
   * The configured headers that produce a reason. The loop at main.go:218-226
   * looks each configured header up in the configured map itself, so the value
   * is always found and equal: only headers configured as "" (meant as "must be
   * absent") fail, and the response's headers are never consulted.
   */
  function ForbiddenHeaders(configured: map<string, string>): set<string> {
    set h | h in configured && configured[h] == ""
  }

  /** The header reasons in the order the headers were visited. */
  function HeaderMessages(order: seq<string>): (ms: seq<string>)
    ensures |ms| == |order|
    ensures forall i :: 0 <= i < |order| ==> ms[i] == ForbiddenHeaderMessage(order[i])
  {
    if order == [] then [] else HeaderMessages(order[..|order| - 1]) + [ForbiddenHeaderMessage(order[|order| - 1])]
  }

  /** Whether the website check passes: the request succeeded and no expectation was missed. */
  predicate Passes(website: WebsiteConfig, outcome: Result<HttpResponse, string>) {
    if Requested(website.httpMethod) && outcome.Failure? then false
    else
      && (Requested(website.httpMethod) ==>
            ResponseReasons(website.statusCode, website.maxResponseTimeMS, outcome.value) == [])
      && ForbiddenHeaders(website.responseHeaders) == {}
  }

  /**
   * A website check with `nil` response: an unknown method sends no request,
   * and the status and time expectations would dereference the missing response.
   */
  predicate NoResponseSafe(website: WebsiteConfig) {
    !Requested(website.httpMethod) ==> website.statusCode == 0 && website.maxResponseTimeMS == 0
  }

  /**
   * The header loop of main.go:217-227: a reason for every configured header
   * whose configured value is "", in the order the map yields them.
   */
  method CheckHeaders(configured: map<string, string>) returns (errors: seq<string>, ghost order: seq<string>)
    ensures forall i, j :: 0 <= i < j < |order| ==> order[i] != order[j]
    ensures forall h :: h in order <==> h in ForbiddenHeaders(configured)
    ensures errors == HeaderMessages(order)
    ensures errors == [] <==> ForbiddenHeaders(configured) == {}
  {
    errors := [];
    order := [];
    var remaining := configured.Keys;
    while remaining != {}
      invariant remaining <= configured.Keys
      invariant forall i, j :: 0 <= i < j < |order| ==> order[i] != order[j]
      invariant forall h :: h in order <==> h in ForbiddenHeaders(configured) && h !in remaining
      invariant errors == HeaderMessages(order)
      decreases remaining
    {
      var header :| header in remaining;
      var headerCheckValue := configured[header];
      if header in configured {
        var responseHeader := configured[header];
        if headerCheckValue == "" {
          errors := errors + [ForbiddenHeaderMessage(header)];
          order := order + [header];
        } else if responseHeader != headerCheckValue {
          errors := errors + [MismatchHeaderMessage(header, headerCheckValue, responseHeader)];
        }
      }
      remaining := remaining - {header};
    }
    if order != [] {
      assert order[0] in ForbiddenHeaders(configured);
    }
    if ForbiddenHeaders(configured) != {} {
      var h :| h in ForbiddenHeaders(configured);
      assert h in order;
    }
  }

  /**
   * `runWebsiteChecks`. The stored document always reflects the verdict; the
   * alert is raised exactly when there is a reason, and lists every reason; the
   * busy flag is cleared at the end. `order` is the order the configured headers
   * were visited in, which Go leaves unspecified.
   */
  method RunWebsiteChecks(website: WebsiteConfig, outcome: Result<HttpResponse, string>, now: int)
    returns (doc: WebsiteCheckDoc, alert: Option<AlertRequest>, errors: seq<string>, ghost order: seq<string>)
    requires NoResponseSafe(website)
    modifies website`inProgress
    ensures !website.inProgress
    ensures Requested(website.httpMethod) && outcome.Failure? ==>
              errors == [FailedRequestMessage(outcome.error)]
    ensures !(Requested(website.httpMethod) && outcome.Failure?) ==>
              && (forall i, j :: 0 <= i < j < |order| ==> order[i] != order[j])
              && (forall h :: h in order <==> h in ForbiddenHeaders(website.responseHeaders))
              && errors == (if Requested(website.httpMethod)
                            then ResponseReasons(website.statusCode, website.maxResponseTimeMS, outcome.value)
                            else []) + HeaderMessages(order)
    ensures errors == [] <==> Passes(website, outcome)
    ensures doc == WebsiteCheckDoc(WebsiteTestIdFor(website.name), website.name, Passes(website, outcome), now)
    ensures alert == if errors == [] then None else Some(AlertRequest(website.name + " failed", Join(errors, ", ")))
  {
    website.inProgress := true;
    var response: HttpResponse := HttpResponse(0, "", 0, map[]);
    var responseError: Option<string> := None;
    if Requested(website.httpMethod) {
      match outcome
      case Success(r) => response := r;
      case Failure(e) => responseError := Some(e);
    }

    var checkResult := new WebsiteCheck(website, true);
    errors := [];
    order := [];
    if responseError.Some? {
      checkResult.passed := false;
      errors := errors + [FailedRequestMessage(responseError.value)];
    } else {
      if website.statusCode != 0 && website.statusCode != response.statusCode {
        checkResult.passed := false;
        errors := errors + [StatusMessage(website.statusCode, response.status)];
      }
      if website.maxResponseTimeMS != 0 {
        var responseTimeMS := response.timeMs;
        if responseTimeMS > website.maxResponseTimeMS {
          checkResult.passed := false;
          errors := errors + [SlowMessage(website.maxResponseTimeMS, responseTimeMS)];
        }
      }
      assert errors == if Requested(website.httpMethod)
                       then ResponseReasons(website.statusCode, website.maxResponseTimeMS, outcome.value) else [];
      var headerErrors;
      headerErrors, order := CheckHeaders(website.responseHeaders);
      if headerErrors != [] {
        checkResult.passed := false;
      }
      errors := errors + headerErrors;
    }

    alert := None;
    if !checkResult.passed {
      alert := Some(AlertRequest(website.name + " failed", Join(errors, ", ")));
    }
    doc := checkResult.GetMapping(true, now);
    website.inProgress := false;
  }

  /**
   * The header expectation as written never looks at the response: two responses
   * that differ only in their headers get the same verdict.
   */
  lemma ResponseHeadersIgnored(website: WebsiteConfig, r1: HttpResponse, r2: HttpResponse)
    requires r1.statusCode == r2.statusCode && r1.timeMs == r2.timeMs
    ensures Passes(website, Success(r1)) == Passes(website, Success(r2))
  {
  }

  /** A header configured with a value never fails the check, whatever the response carries. */
  lemma {:induction false} ValuedHeadersNeverFail(website: WebsiteConfig, outcome: Result<HttpResponse, string>)
    requires forall h :: h in website.responseHeaders ==> website.responseHeaders[h] != ""
    ensures ForbiddenHeaders(website.responseHeaders) == {}
    ensures Requested(website.httpMethod) && outcome.Success? ==>
              (Passes(website, outcome) <==>
                 ResponseReasons(website.statusCode, website.maxResponseTimeMS, outcome.value) == [])
  {
    assert forall h :: h !in ForbiddenHeaders(website.responseHeaders);
  }

  /** A failed request always fails the check, whatever the other expectations. */
  lemma FailedRequestFails(website: WebsiteConfig, err: string)
    requires Requested(website.httpMethod)
    ensures !Passes(website, Failure(err))
  {
  }
}
