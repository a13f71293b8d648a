/**
 * The oldest generation (controller.go): the `Storage` rule table, the
 * request filter with case-sensitive header names, the forward-request
 * builder and the request translation. gzserver.go repeats the filter, the
 * builder and the translation unchanged, and uses the definitions here.
 */
module Controller {
  import opened Wrappers
  import opened Text
  import opened Http
  import opened Model
  import PriorityOrder

  /** `Storage` (the `sync.RWMutex` is not modelled). */
  class Storage {
    var expectations: map<string, Expectation>

    /** `ControllerCreateStorage`: an empty table. */
    constructor ()
      ensures expectations == map[]
    {
      expectations := map[];
    }

    /**
     * `GetExpectationsStructure`: a fresh map re-keyed by each stored rule's
     * own `Key`. When two stored rules share a `Key`, which one is kept depends
     * on map order; when every rule is stored under its own `Key`, the result
     * is the table itself.
     */
    method GetExpectationsStructure() returns (copyExps: map<string, Expectation>)
      ensures copyExps.Keys == set e | e in expectations.Values :: e.key
      ensures forall k | k in copyExps :: copyExps[k].key == k && copyExps[k] in expectations.Values
      ensures (forall k | k in expectations :: expectations[k].key == k) ==> copyExps == expectations
    {
      copyExps := map[];
      var todo := expectations.Keys;
      while todo != {}
        invariant todo <= expectations.Keys
        invariant copyExps.Keys == set k | k in expectations.Keys - todo :: expectations[k].key
        invariant forall k | k in copyExps :: copyExps[k].key == k && copyExps[k] in expectations.Values
        invariant (forall k | k in expectations :: expectations[k].key == k) ==>
                    copyExps == map k | k in expectations.Keys - todo :: expectations[k]
        decreases todo
      {
        var storedKey :| storedKey in todo;
        var exp := expectations[storedKey];
        copyExps := copyExps[exp.key := exp];
        todo := todo - {storedKey};
      }
      forall key | key in set e | e in expectations.Values :: e.key
        ensures key in copyExps
      {
        var e :| e in expectations.Values && e.key == key;
        var k :| k in expectations && expectations[k] == e;
      }
    }

    /** `AddExpectation`: insert or fully replace the rule under `key`. */
    method AddExpectation(key: string, exp: Expectation)
      modifies this
      ensures expectations == old(expectations)[key := exp]
    {
      expectations := expectations[key := exp];
    }

    /** `RemoveExpectation`: delete `key` if it is present; otherwise nothing changes. */
    method RemoveExpectation(key: string)
      modifies this
      ensures key in old(expectations) ==> expectations == old(expectations) - {key}
      ensures key !in old(expectations) ==> expectations == old(expectations)
    {
      var ok := key in expectations;
      if ok {
        expectations := expectations - {key};
      }
    }

    /**
     * `GetExpectationsOrderedByPriority`: a snapshot with dense indices
     * 0..n-1 holding every stored rule once per key, highest priority first.
     */
    method GetExpectationsOrderedByPriority() returns (ordered: seq<Expectation>)
      ensures |ordered| == |expectations|
      ensures multiset(ordered) == PriorityOrder.Values(expectations)
      ensures PriorityOrder.Sorted(PriorityOf, ordered)
    {
      ordered := PriorityOrder.Snapshot(expectations, PriorityOf);
    }
  }

  /**
   * `ControllerStringPassesFilter`: the filter, compiled in dot-matches-newline
   * mode, must match, or, when it does not compile, occur literally. There is
   * no special case for an empty filter here.
   */
  function ControllerStringPassesFilter(re: Regexp, str: string, filter: string): (r: bool)
    ensures !re.compiles("(?s)" + filter) ==> (r <==> Contains(str, filter))
    ensures filter == [] ==> (r <==> !re.compiles("(?s)") || re.matchString("(?s)", str))
  {
    assert filter == [] ==> OccursAt(str, filter, 0);
    assert filter == [] ==> "(?s)" + filter == "(?s)";
    if !re.compiles("(?s)" + filter) then Contains(str, filter)
    else re.matchString("(?s)" + filter, str)
  }

  /**
   * The header check: a filter with headers needs request headers, even when
   * the filter's map is empty, and each filter name must be present by exact name.
   */
  function HeadersPass(re: Regexp, req: Option<Headers>, filter: Headers): (r: bool)
    ensures filter == map[] ==> (r <==> req.Some?)
    ensures r ==> req.Some? && filter.Keys <= req.value.Keys
  {
    req.Some? &&
    forall name | name in filter :: name in req.value && ControllerStringPassesFilter(re, req.value[name], filter[name])
  }

  /**
   * `ControllerRequestPassesFilter`: a nil filter passes everything; an empty
   * method, path or body in the filter is not checked; filter headers, when
   * present, are looked up by exact name.
   */
  function ControllerRequestPassesFilter(re: Regexp, req: ExpectationRequest, stored: Option<ExpectationRequest>): (r: bool)
    ensures stored.None? ==> r
    ensures r && stored.Some? && |stored.value.httpMethod| > 0 ==> req.httpMethod == stored.value.httpMethod
    ensures r && stored.Some? && stored.value.headers.Some? ==>
              req.headers.Some? && stored.value.headers.value.Keys <= req.headers.value.Keys
  {
    stored.None? ||
    var f := stored.value;
    && (|f.httpMethod| == 0 || f.httpMethod == req.httpMethod)
    && (|f.path| == 0 || ControllerStringPassesFilter(re, req.path, f.path))
    && (|f.body| == 0 || ControllerStringPassesFilter(re, req.body, f.body))
    && (f.headers.None? || HeadersPass(re, req.headers, f.headers.value))
  }

  /** A filter whose fields are all empty and whose headers are nil passes every request. */
  lemma EmptyFilterPassesAll(re: Regexp, req: ExpectationRequest)
    ensures ControllerRequestPassesFilter(re, req, Some(ExpectationRequest("", "", "", None)))
  {
  }

  /** A filter with a (possibly empty) header map rejects a request that has no headers at all. */
  lemma HeadersFilterNeedsRequestHeaders(re: Regexp, req: ExpectationRequest, f: ExpectationRequest)
    requires f.headers.Some? && req.headers.None?
    ensures !ControllerRequestPassesFilter(re, req, Some(f))
  {
  }

  /**
   * Header names are compared exactly: a filter naming a header the request
   * does not send under that exact name rejects the request, whatever other
   * spellings of the name the request sends.
   */
  lemma HeaderNamesCaseSensitive(re: Regexp, req: ExpectationRequest, f: ExpectationRequest, name: string)
    requires f.headers.Some? && name in f.headers.value
    requires req.headers.Some? && name !in req.headers.value
    ensures !ControllerRequestPassesFilter(re, req, Some(f))
  {
  }

  /** Request headers the filter does not name never change the verdict. */
  lemma ExtraHeadersIgnored(re: Regexp, req: ExpectationRequest, f: ExpectationRequest, name: string, value: string)
    requires req.headers.Some?
    requires f.headers.Some? ==> name !in f.headers.value
    ensures ControllerRequestPassesFilter(re, req, Some(f)) <==>
            ControllerRequestPassesFilter(re, req.(headers := Some(req.headers.value[name := value])), Some(f))
  {
  }

  /** A filter that is not a valid expression passes every string it occurs in. */
  lemma LiteralFallback(re: Regexp, prefix: string, filter: string, suffix: string)
    requires !re.compiles("(?s)" + filter)
    ensures ControllerStringPassesFilter(re, prefix + filter + suffix, filter)
  {
    ContainsInfix(prefix, filter, suffix);
  }

  /** The header map a nil `*Headers` ranges over. */
  function HeadersOrEmpty(h: Option<Headers>): Headers {
    if h.Some? then h.value else map[]
  }

  /**
   * `ControllerCreateHTTPRequest`: nil when `url.Parse` rejects
   * `scheme://host+path` or `http.NewRequest` fails (the panic-level log events
   * carry no message and are never sent); otherwise the request with the
   * incoming headers set, then the forward headers, a forward `Host` setting
   * only the target host.
   */
  method ControllerCreateHTTPRequest(net: Net, req: ExpectationRequest, fwd: ExpectationForward)
    returns (httpReq: Option<OutboundRequest>)
    ensures httpReq.None? <==>
              || !net.urlParses(ForwardURL(fwd.scheme, fwd.host, req.path))
              || NewRequest(net, req.httpMethod, ForwardURL(fwd.scheme, fwd.host, req.path), fwd.host, req.body).Err?
    ensures httpReq.Some? ==>
              IsForwardRequest(net, req.httpMethod, req.path, req.body, HeadersOrEmpty(req.headers),
                               fwd.scheme, fwd.host, HeadersOrEmpty(fwd.headers), httpReq.value)
  {
    var fwdURL := ForwardURL(fwd.scheme, fwd.host, req.path);
    if !net.urlParses(fwdURL) {
      return None;
    }
    httpReq := BuildForwardRequest(net, req.httpMethod, req.path, req.body, HeadersOrEmpty(req.headers),
                                   fwd.scheme, fwd.host, HeadersOrEmpty(fwd.headers));
  }

  /**
   * `ControllerTranslateRequestToExpectation`: the method; `RequestURI()` with
   * `"#" + Fragment` when there is one; the body, or empty when it cannot be
   * read; and nil headers for a request without any, else every name with its
   * values joined by `","`.
   */
  method ControllerTranslateRequestToExpectation(r: HttpRequest) returns (expRequest: ExpectationRequest)
    ensures expRequest.httpMethod == r.httpMethod
    ensures expRequest.path == PathWithFragment(r.requestURI, r.fragment)
    ensures expRequest.body == (if r.body.Some? && r.body.value.Ok? then r.body.value.value else "")
    ensures |r.header| == 0 ==> expRequest.headers.None?
    ensures |r.header| > 0 ==> expRequest.headers == Some(Joined(r.header))
  {
    expRequest := ExpectationRequest(r.httpMethod, r.requestURI, "", None);
    if |r.fragment| > 0 {
      expRequest := expRequest.(path := expRequest.path + "#" + r.fragment);
    }
    if r.body.Some? {
      if r.body.value.Ok? {
        expRequest := expRequest.(body := r.body.value.value);
      }
    }
    if |r.header| > 0 {
      var headers := FlattenHeader(r.header);
      expRequest := expRequest.(headers := Some(headers));
    }
  }

  /** The filter's view of an incoming request, as `ControllerTranslateRequestToExpectation` builds it. */
  function Incoming(r: HttpRequest): ExpectationRequest {
    ExpectationRequest(
      r.httpMethod,
      PathWithFragment(r.requestURI, r.fragment),
      if r.body.Some? && r.body.value.Ok? then r.body.value.value else "",
      if |r.header| == 0 then None else Some(Joined(r.header)))
  }
}
