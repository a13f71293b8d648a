/**
 * The newest generation's matcher and dispatcher (`GzFilter`,
 * expectations/filter.go): which stored rule answers an incoming request, and
 * what the answer is.
 */
module Filter {
  import opened Wrappers
  import opened Text
  import opened Http
  import opened Expectations
  import PriorityOrder

  /** The body of the 501 answer when no rule matches. */
  const NoMatchBody: string := "No expectations in gozzmock for request!"

  /** The body of `reportError`'s 500 answer. */
  const ErrorBody: string := "Gozzmock. Something went wrong"

  /** The engine's `HttpResponse` (its `[]byte` body as text). */
  datatype HttpResponse = HttpResponse(httpCode: int, body: string, headers: Headers)

  /**
   * What a `*HttpResponse`-returning call ends in: a response, a nil pointer,
   * or a panic (a runtime error, or a log call at panic level that is sent).
   */
  datatype Outcome = Respond(response: HttpResponse) | NilResponse | Panic(reason: string)

  /** The library routines the filter calls but whose code is not modelled. */
  datatype Library = Library(re: Regexp, net: Net, js: JsEngine<ExpectationRequest>)

  /** `reportError`: status 500 with a fixed diagnostic body. */
  function ReportError(): (r: HttpResponse)
    ensures r.httpCode == 500 && r.body == ErrorBody && r.headers == map[]
  {
    HttpResponse(500, ErrorBody, map[])
  }

  /** The answer when no rule matches: status 501 with the fixed diagnostic body. */
  function NoMatch(): (r: HttpResponse)
    ensures r.httpCode == 501 && r.body == NoMatchBody && r.headers == map[]
  {
    HttpResponse(501, NoMatchBody, map[])
  }

  // ---------------------------------------------------------------------------
  // Matching

  /**
   * `stringsMatch`: an empty pattern matches anything; otherwise the pattern,
   * compiled in dot-matches-newline mode, must match, or, when it does not
   * compile, occur literally.
   */
  function StringsMatch(re: Regexp, req: string, exp: string): (r: bool)
    ensures exp == [] ==> r
    ensures !re.compiles("(?s)" + exp) ==> (r <==> Contains(req, exp))
  {
    assert exp == [] ==> OccursAt(req, exp, 0);
    if |exp| == 0 then true
    else if !re.compiles("(?s)" + exp) then Contains(req, exp)
    else re.matchString("(?s)" + exp, req)
  }

  /** A pattern that is not a valid expression matches every string it occurs in. */
  lemma StringsMatchLiteralFallback(re: Regexp, prefix: string, exp: string, suffix: string)
    requires !re.compiles("(?s)" + exp)
    ensures StringsMatch(re, prefix + exp + suffix, exp)
  {
    ContainsInfix(prefix, exp, suffix);
  }

  /**
   * `findInMapCaseInsensitive`: the value of some name equal to `k` under case
   * folding — the first one met in Go's (random) map order — if there is one.
   */
  method FindInMapCaseInsensitive(m: Headers, k: string) returns (value: string, found: bool)
    ensures found <==> exists name | name in m :: EqualFold(name, k)
    ensures found ==> exists name | name in m :: EqualFold(name, k) && m[name] == value
    ensures !found ==> value == ""
  {
    var todo := m.Keys;
    while todo != {}
      invariant todo <= m.Keys
      invariant forall name | name in m.Keys - todo :: !EqualFold(name, k)
      decreases todo
    {
      var name :| name in todo;
      if EqualFold(name, k) {
        return m[name], true;
      }
      todo := todo - {name};
    }
    return "", false;
  }

  /** Some request header whose name folds to `name` has a value matching `pattern`. */
  predicate HeaderMayMatch(re: Regexp, req: Headers, name: string, pattern: string) {
    exists n | n in req :: EqualFold(n, name) && StringsMatch(re, req[n], pattern)
  }

  /** Some request header name folds to `name`, and every such header's value matches `pattern`. */
  predicate HeaderMustMatch(re: Regexp, req: Headers, name: string, pattern: string) {
    && (exists n | n in req :: EqualFold(n, name))
    && (forall n | n in req && EqualFold(n, name) :: StringsMatch(re, req[n], pattern))
  }

  /** No two request header names are equal under case folding. */
  predicate FoldDistinct(req: Headers) {
    forall a, b | a in req && b in req && EqualFold(a, b) :: a == b
  }

  /** With fold-distinct request names, which header gets looked up no longer depends on map order. */
  lemma HeaderMatchDeterministic(re: Regexp, req: Headers, name: string, pattern: string)
    requires FoldDistinct(req)
    ensures HeaderMustMatch(re, req, name, pattern) <==> HeaderMayMatch(re, req, name, pattern)
  {
    if HeaderMayMatch(re, req, name, pattern) {
      var n :| n in req && EqualFold(n, name) && StringsMatch(re, req[n], pattern);
      forall n' | n' in req && EqualFold(n', name) ensures StringsMatch(re, req[n'], pattern) {
        EqualFoldIsEquivalence(n', name, n);
        EqualFoldIsEquivalence(name, n, n);
      }
    }
  }

  /** Header names are compared without regard to case: `H1: v` satisfies a filter on `h1`. */
  lemma HeaderNameCaseIgnored(re: Regexp, name: string, sent: string, value: string, pattern: string)
    requires EqualFold(sent, name)
    requires StringsMatch(re, value, pattern)
    ensures HeaderMustMatch(re, map[sent := value], name, pattern)
  {
  }

  /**
   * `headersMatch`: an empty filter accepts; otherwise every filter header must
   * be found by case-insensitive name with a value passing `stringsMatch`.
   * The result is bounded by the two predicates, which coincide when the
   * request's names are fold-distinct.
   */
  method HeadersMatch(re: Regexp, req: Headers, exp: Headers) returns (ok: bool)
    ensures |exp| == 0 ==> ok
    ensures (forall name | name in exp :: HeaderMustMatch(re, req, name, exp[name])) ==> ok
    ensures ok ==> forall name | name in exp :: HeaderMayMatch(re, req, name, exp[name])
  {
    if |exp| == 0 {
      return true;
    }
    var todo := exp.Keys;
    while todo != {}
      invariant todo <= exp.Keys
      invariant forall name | name in exp.Keys - todo :: HeaderMayMatch(re, req, name, exp[name])
      decreases todo
    {
      var expName :| expName in todo;
      var reqValue, found := FindInMapCaseInsensitive(req, expName);
      if found && StringsMatch(re, reqValue, exp[expName]) {
        todo := todo - {expName};
      } else {
        assert !HeaderMustMatch(re, req, expName, exp[expName]);
        return false;
      }
    }
    return true;
  }

  /** The method, path and body checks of `expectationsMatch`. */
  predicate FieldsMatch(re: Regexp, req: ExpectationRequest, f: ExpectationRequest) {
    && (|f.httpMethod| == 0 || f.httpMethod == req.httpMethod)
    && StringsMatch(re, req.path, f.path)
    && StringsMatch(re, req.body, f.body)
  }

  /** The filter surely accepts the request, whatever order the header lookups visit names in. */
  predicate FilterMustMatch(re: Regexp, req: ExpectationRequest, f: Option<ExpectationRequest>) {
    f.None? ||
    (FieldsMatch(re, req, f.value) &&
     forall name | name in f.value.headers :: HeaderMustMatch(re, req.headers, name, f.value.headers[name]))
  }

  /** The filter accepts the request for some order of the header lookups. */
  predicate FilterMayMatch(re: Regexp, req: ExpectationRequest, f: Option<ExpectationRequest>) {
    f.None? ||
    (FieldsMatch(re, req, f.value) &&
     forall name | name in f.value.headers :: HeaderMayMatch(re, req.headers, name, f.value.headers[name]))
  }

  /**
   * `expectationsMatch`: a nil filter accepts everything; otherwise the method
   * (when given) must be equal, path and body must pass `stringsMatch`, and
   * the headers `headersMatch`.
   */
  method ExpectationsMatch(re: Regexp, req: ExpectationRequest, exp: Option<ExpectationRequest>) returns (ok: bool)
    ensures exp.None? ==> ok
    ensures FilterMustMatch(re, req, exp) ==> ok
    ensures ok ==> FilterMayMatch(re, req, exp)
  {
    if exp.None? {
      return true;
    }
    var f := exp.value;
    if |f.httpMethod| > 0 && f.httpMethod != req.httpMethod {
      return false;
    }
    if !StringsMatch(re, req.path, f.path) {
      return false;
    }
    if !StringsMatch(re, req.body, f.body) {
      return false;
    }
    ok := HeadersMatch(re, req.headers, f.headers);
  }

  // ---------------------------------------------------------------------------
  // Response action

  /**
   * `runJsTemplate`: an empty script gives an empty body; otherwise the script
   * is base64-decoded and run with `request` bound, and either failure becomes
   * an error naming the step.
   */
  function RunJsTemplate(js: JsEngine<ExpectationRequest>, encodedTmpl: string, req: ExpectationRequest): (r: Result<string>)
    ensures |encodedTmpl| == 0 ==> r == Ok("")
    ensures |encodedTmpl| > 0 && js.decodeBase64(encodedTmpl).Err? ==>
              r.Err? && "Error decoding from base64 template " <= r.message
    ensures |encodedTmpl| > 0 && js.decodeBase64(encodedTmpl).Ok? ==>
              var ran := js.run(js.decodeBase64(encodedTmpl).value, req);
              (ran.Ok? ==> r == ran) && (ran.Err? ==> r.Err? && "Error running template " <= r.message)
  {
    if |encodedTmpl| == 0 then Ok("")
    else
      match js.decodeBase64(encodedTmpl)
      case Err(e) => Err("Error decoding from base64 template " + encodedTmpl + " \n " + e)
      case Ok(stringTmpl) =>
        match js.run(stringTmpl, req)
        case Err(e) => Err("Error running template " + stringTmpl + " \n " + e)
        case Ok(value) => Ok(value)
  }

  /**
   * `responseFromExpectation`. Copying non-empty response headers writes into
   * the result's nil header map and panics; otherwise the status is `HTTPCode`
   * and the body the literal one, or the script's output when a script is
   * given, and a script failure gives 500 with the error text instead.
   */
  function ResponseFromExpectation(js: JsEngine<ExpectationRequest>, exp: ExpectationResponse, req: ExpectationRequest): (out: Outcome)
    ensures out.Panic? <==> |exp.headers| > 0
    ensures out.Respond? ==> out.response.headers == map[]
    ensures out.Respond? && |exp.jsTemplate| == 0 ==> out.response == HttpResponse(exp.httpCode, exp.body, map[])
    ensures out.Respond? && |exp.jsTemplate| > 0 ==>
              match RunJsTemplate(js, exp.jsTemplate, req)
              case Ok(body) => out.response == HttpResponse(exp.httpCode, body, map[])
              case Err(e) => out.response == HttpResponse(500, e, map[])
  {
    if |exp.headers| > 0 then
      Panic("assignment to entry in nil map")
    else if |exp.jsTemplate| > 0 then
      match RunJsTemplate(js, exp.jsTemplate, req)
      case Err(e) => Respond(HttpResponse(500, e, map[]))
      case Ok(body) => Respond(HttpResponse(exp.httpCode, body, map[]))
    else
      Respond(HttpResponse(exp.httpCode, exp.body, map[]))
  }

  /** With a script present the literal body is never used, not even on a script error. */
  lemma TemplateOverridesBody(js: JsEngine<ExpectationRequest>, exp: ExpectationResponse, otherBody: string, req: ExpectationRequest)
    requires |exp.jsTemplate| > 0
    ensures ResponseFromExpectation(js, exp, req) == ResponseFromExpectation(js, exp.(body := otherBody), req)
  {
  }

  // ---------------------------------------------------------------------------
  // Forward action

  /** `toCustomHttpResponse` as a value: status and body pass through, header values are comma-joined. */
  function CustomResponse(raw: RawResponse): Result<HttpResponse> {
    match raw.body
    case Err(e) => Err(e)
    case Ok(body) => Ok(HttpResponse(raw.statusCode, body, Joined(raw.header)))
  }

  /**
   * `toCustomHttpResponse`: copy the status, flatten the header in a loop, and
   * read the body (a read error is returned).
   */
  method ToCustomHttpResponse(raw: RawResponse) returns (r: Result<HttpResponse>)
    ensures r == CustomResponse(raw)
  {
    var headers := FlattenHeader(raw.header);
    var resp := HttpResponse(raw.statusCode, "", headers);
    if raw.body.Err? {
      return Err(raw.body.message);
    }
    r := Ok(resp.(body := raw.body.value));
  }

  /**
   * `doHTTPRequest` after the round trip: a transport error is only logged
   * (the panic-level event is never sent) and answered by `reportError`; a
   * nil response or an unreadable body panics; otherwise the flattened
   * response is returned.
   */
  function TransportOutcome(t: TransportResult): Outcome {
    match t
    case TransportFailed(_) => Respond(ReportError())
    case NoResponse => Panic("response is nil")
    case Delivered(raw) =>
      match CustomResponse(raw)
      case Err(e) => Panic(e)
      case Ok(resp) => Respond(resp)
  }

  /** A forwarded answer reaches the caller unchanged: status, body, and every header name with its values. */
  lemma ForwardedResponsePassesThrough(raw: RawResponse, name: string)
    requires raw.body.Ok?
    requires name in raw.header && |raw.header[name]| > 0
    requires forall i | 0 <= i < |raw.header[name]| :: ',' !in raw.header[name][i]
    ensures TransportOutcome(Delivered(raw)).Respond?
    ensures TransportOutcome(Delivered(raw)).response.httpCode == raw.statusCode
    ensures TransportOutcome(Delivered(raw)).response.body == raw.body.value
    ensures Split(TransportOutcome(Delivered(raw)).response.headers[name], ',') == raw.header[name]
  {
    JoinedRoundTrip(raw.header, name);
  }

  /**
   * `responseFromHTTPForward`: a URL `url.Parse` rejects panics (the event
   * carries a message); a failing `http.NewRequest` gives nil; otherwise the
   * outbound request is sent and its answer handled as by `doHTTPRequest`.
   */
  ghost predicate ForwardOutcome(
    lib: Library, rt: OutboundRequest -> TransportResult, req: ExpectationRequest,
    scheme: string, host: string, fwdHeaders: Headers, out: Outcome)
  {
    var url := ForwardURL(scheme, host, req.path);
    if !lib.net.urlParses(url) then out.Panic?
    else if NewRequest(lib.net, req.httpMethod, url, host, req.body).Err? then out == NilResponse
    else exists o :: IsForwardRequest(lib.net, req.httpMethod, req.path, req.body, req.headers, scheme, host, fwdHeaders, o)
                  && out == TransportOutcome(rt(o))
  }

  /**
   * `applyExpectation` after the delay: the response action if there is one,
   * else the forward action, else nil.
   */
  ghost predicate Dispatched(lib: Library, rt: OutboundRequest -> TransportResult, exp: Expectation,
                             req: ExpectationRequest, out: Outcome)
    reads ForwardOf(exp)
  {
    if exp.response.Some? then out == ResponseFromExpectation(lib.js, exp.response.value, req)
    else if exp.forward.Some? then
      var fwd := exp.forward.value;
      ForwardOutcome(lib, rt, req, fwd.scheme, fwd.host, fwd.headers, out)
    else out == NilResponse
  }

  /**
   * The scanning loop of `Apply`: the index of the first rule in `ordered`
   * whose filter `expectationsMatch` accepts, or `|ordered|` when there is
   * none. Every rule skipped surely fails, and the one found possibly matches.
   */
  method FirstMatching(re: Regexp, req: ExpectationRequest, ordered: seq<Expectation>) returns (i: int)
    ensures 0 <= i <= |ordered|
    ensures forall j | 0 <= j < i :: !FilterMustMatch(re, req, ordered[j].request)
    ensures i < |ordered| ==> FilterMayMatch(re, req, ordered[i].request)
  {
    i := 0;
    while i < |ordered|
      invariant 0 <= i <= |ordered|
      invariant forall j | 0 <= j < i :: !FilterMustMatch(re, req, ordered[j].request)
    {
      var exp := ordered[i];
      var matched := ExpectationsMatch(re, req, exp.request);
      if !matched {
        i := i + 1;
        continue;
      }
      return;
    }
  }

  /** The dispatcher: the rule table and the transport forward actions go through. */
  class GzFilter {
    const storage: GzStorage
    const roundTripper: OutboundRequest -> TransportResult

    /** `NewGzFilter`. */
    constructor (rt: OutboundRequest -> TransportResult, storage: GzStorage)
      ensures this.storage == storage && roundTripper == rt
    {
      this.storage := storage;
      roundTripper := rt;
    }

    /** `doHTTPRequest` for a built request. */
    method DoHTTPRequest(httpReq: OutboundRequest) returns (out: Outcome)
      ensures out == TransportOutcome(roundTripper(httpReq))
    {
      var t := roundTripper(httpReq);
      match t {
        case TransportFailed(_) =>
          out := Respond(ReportError());
        case NoResponse =>
          out := Panic("response is nil");
        case Delivered(httpResp) =>
          var resp := ToCustomHttpResponse(httpResp);
          if resp.Err? {
            out := Panic(resp.message);
          } else {
            out := Respond(resp.value);
          }
      }
    }

    /** `responseFromHTTPForward`. */
    method ResponseFromHTTPForward(lib: Library, req: ExpectationRequest, fwd: ExpectationForward) returns (out: Outcome)
      ensures ForwardOutcome(lib, roundTripper, req, fwd.scheme, fwd.host, fwd.headers, out)
    {
      var url := ForwardURL(fwd.scheme, fwd.host, req.path);
      if !lib.net.urlParses(url) {
        return Panic("url.Parse: " + url);
      }
      var httpReq := BuildForwardRequest(lib.net, req.httpMethod, req.path, req.body, req.headers,
                                         fwd.scheme, fwd.host, fwd.headers);
      if httpReq.None? {
        return NilResponse;
      }
      out := DoHTTPRequest(httpReq.value);
    }

    /** `applyExpectation` (the delay is not modelled). */
    method ApplyExpectation(lib: Library, exp: Expectation, req: ExpectationRequest) returns (out: Outcome)
      ensures Dispatched(lib, roundTripper, exp, req, out)
    {
      if exp.response.Some? {
        return ResponseFromExpectation(lib.js, exp.response.value, req);
      }
      if exp.forward.Some? {
        out := ResponseFromHTTPForward(lib, req, exp.forward.value);
        return;
      }
      return NilResponse;
    }

    /**
     * `Apply`: translate the request (an unreadable body is answered by
     * `reportError`), then scan the priority-ordered snapshot and dispatch on
     * the first rule whose filter matches; 501 when none does. `chosen` names
     * the rule that answered.
     */
    method Apply(lib: Library, r: HttpRequest) returns (out: Outcome, ghost chosen: Option<Expectation>)
      ensures Unreadable(r) ==> out == Respond(ReportError()) && chosen.None?
      ensures !Unreadable(r) && (forall e | e in storage.expectations.Values :: !FilterMayMatch(lib.re, Incoming(r), e.request)) ==>
                out == Respond(NoMatch())
      ensures !Unreadable(r) ==>
                || out == Respond(NoMatch())
                || exists e | e in storage.expectations.Values ::
                     FilterMayMatch(lib.re, Incoming(r), e.request) && Dispatched(lib, roundTripper, e, Incoming(r), out)
      ensures !Unreadable(r) && chosen.None? ==>
                && out == Respond(NoMatch())
                && forall e | e in storage.expectations.Values :: !FilterMustMatch(lib.re, Incoming(r), e.request)
      ensures chosen.Some? ==>
                && chosen.value in storage.expectations.Values
                && FilterMayMatch(lib.re, Incoming(r), chosen.value.request)
                && Dispatched(lib, roundTripper, chosen.value, Incoming(r), out)
      ensures chosen.Some? ==>
                forall e | e in storage.expectations.Values && FilterMustMatch(lib.re, Incoming(r), e.request) ::
                  e.priority <= chosen.value.priority
    {
      chosen := None;
      var translated := HttpRequestToExpectationRequest(r);
      if translated.Err? {
        return Respond(ReportError()), None;
      }
      var req := translated.value;
      assert req == Incoming(r);
      var orderedStoredExpectations := storage.GetOrdered();
      ghost var m := storage.expectations;
      ghost var surely := (e: Expectation) => FilterMustMatch(lib.re, req, e.request);
      var i := FirstMatching(lib.re, req, orderedStoredExpectations);
      if i < |orderedStoredExpectations| {
        var exp := orderedStoredExpectations[i];
        out := ApplyExpectation(lib, exp, req);
        chosen := Some(exp);
        PriorityOrder.FirstMatchIsHighest(PriorityOf, surely, m, orderedStoredExpectations, i);
        return;
      }
      PriorityOrder.NoMatchInSnapshot(surely, m, orderedStoredExpectations);
      out := Respond(NoMatch());
    }
  }

  /** The request body cannot be read. */
  predicate Unreadable(r: HttpRequest) {
    r.body.Some? && r.body.value.Err?
  }

  /** The filter's view of a readable incoming request, as `HttpRequestToExpectationRequest` builds it. */
  function Incoming(r: HttpRequest): ExpectationRequest {
    ExpectationRequest(
      r.httpMethod,
      PathWithFragment(r.requestURI, r.fragment),
      if r.body.Some? && r.body.value.Ok? then r.body.value.value else "",
      Joined(r.header))
  }
}
