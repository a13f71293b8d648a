/**
 * The parts of Go's `net/http`, `net/url` and `regexp` that the engine consumes,
 * shared by all generations: the incoming request as the handlers see it, the
 * outbound request built for a forward action, the transport's reply, the
 * opaque library routines as function-valued parameters, and the two header
 * loops every generation repeats (flattening `http.Header` into one string per
 * name, and `Header.Set` over a map of names).
 */
module Http {
  import opened Wrappers
  import opened Text

  /** `http.Header`: every name maps to its list of values. */
  type MultiHeader = map<string, seq<string>>

  /**
   * The script engine: `base64.StdEncoding.DecodeString`, and running a script
   * with `request` bound to a value of type `R`.
   */
  datatype JsEngine<!R> = JsEngine(
    decodeBase64: string -> Result<string>,
    run: (string, R) -> Result<string>)

  /** The engine's `Headers`: one (comma-joined) value per name. */
  type Headers = map<string, string>

  /**
   * An incoming `*http.Request` as far as the engine reads it: the method,
   * `URL.RequestURI()`, `URL.Fragment`, the body (`None` for a nil body, else
   * the outcome of reading it) and the header.
   */
  datatype HttpRequest = HttpRequest(
    httpMethod: string,
    requestURI: string,
    fragment: string,
    body: Option<Result<string>>,
    header: MultiHeader)

  /** `regexp.Compile` and `(*Regexp).MatchString`, as opaque routines. */
  datatype Regexp = Regexp(compiles: string -> bool, matchString: (string, string) -> bool)

  /**
   * `http.CanonicalHeaderKey` (applied by `Header.Set`), whether `url.Parse`
   * accepts a string, and whether `http.NewRequest` accepts a method name.
   */
  datatype Net = Net(
    canonicalHeaderKey: string -> string,
    urlParses: string -> bool,
    validMethod: string -> bool)

  /** The `*http.Request` built for a forward action. `header` holds one value per canonical name. */
  datatype OutboundRequest = OutboundRequest(
    httpMethod: string,
    url: string,
    body: string,
    header: Headers,
    host: string)

  /** What the transport hands back: its status, header and the outcome of reading its body. */
  datatype RawResponse = RawResponse(statusCode: int, header: MultiHeader, body: Result<string>)

  /** `RoundTrip` / `Client.Do`: a response, an error, or (contract violation) neither. */
  datatype TransportResult = Delivered(response: RawResponse) | TransportFailed(message: string) | NoResponse

  // ---------------------------------------------------------------------------
  // Path of the incoming request

  /** `RequestURI()` followed by `"#" + Fragment` when the fragment is non-empty. */
  function PathWithFragment(requestURI: string, fragment: string): string {
    if |fragment| > 0 then requestURI + "#" + fragment else requestURI
  }

  /** Cuts a path at its first `#` into request URI and fragment. */
  function SplitFragment(path: string): (string, string)
  {
    if path == [] then ("", "")
    else if path[0] == '#' then ("", path[1..])
    else
      var (uri, fragment) := SplitFragment(path[1..]);
      ([path[0]] + uri, fragment)
  }

  /**
   * The translated path loses nothing, for a request URI without a `#`: that
   * URI and the fragment can be read back from it. The absence of `#` is an
   * assumption on the request, not something Go guarantees: a server request
   * such as `GET /p?q#x` keeps the `#` in its raw query and so in
   * `RequestURI()`, and then the split happens at that `#` instead.
   */
  lemma {:induction false} PathWithFragmentRoundTrip(requestURI: string, fragment: string)
    requires '#' !in requestURI
    ensures SplitFragment(PathWithFragment(requestURI, fragment)) == (requestURI, fragment)
  {
    var path := PathWithFragment(requestURI, fragment);
    if requestURI == [] {
      if |fragment| > 0 {
        assert path == ['#'] + fragment;
        assert path[1..] == fragment;
      }
    } else {
      PathWithFragmentRoundTrip(requestURI[1..], fragment);
      assert path[1..] == PathWithFragment(requestURI[1..], fragment);
      assert [requestURI[0]] + requestURI[1..] == requestURI;
    }
  }

  // ---------------------------------------------------------------------------
  // Flattening a multi-valued header

  /** Every name of a multi-valued header with its values joined by `","`. */
  function Joined(h: MultiHeader): (r: Headers)
    ensures r.Keys == h.Keys
  {
    map name | name in h :: Join(h[name], ",")
  }

  /**
   * `for name, headerLine := range h { headers[name] = strings.Join(headerLine, ",") }`,
   * visiting the names in any order.
   */
  method FlattenHeader(h: MultiHeader) returns (headers: Headers)
    ensures headers == Joined(h)
  {
    headers := map[];
    var todo := h.Keys;
    while todo != {}
      invariant todo <= h.Keys
      invariant headers.Keys == h.Keys - todo
      invariant forall name | name in headers :: headers[name] == Join(h[name], ",")
      decreases todo
    {
      var name :| name in todo;
      headers := headers[name := Join(h[name], ",")];
      todo := todo - {name};
    }
  }

  /**
   * Flattening is lossless when no value holds a comma: splitting a joined
   * value on `,` gives back the original list of values.
   */
  lemma JoinedRoundTrip(h: MultiHeader, name: string)
    requires name in h && |h[name]| > 0
    requires forall i | 0 <= i < |h[name]| :: ',' !in h[name][i]
    ensures name in Joined(h) && Split(Joined(h)[name], ',') == h[name]
  {
    SplitJoin(h[name], ',');
  }

  // ---------------------------------------------------------------------------
  // Header.Set over a map of names

  /** Some name of `from` canonicalises to `key`. */
  predicate Names(canon: string -> string, from: Headers, key: string) {
    exists name | name in from :: canon(name) == key
  }

  /** Some name of `from` canonicalises to `key` and carries `value`. */
  predicate SetsTo(canon: string -> string, from: Headers, key: string, value: string) {
    exists name | name in from :: canon(name) == key && from[name] == value
  }

  /**
   * The header after `Header.Set(name, from[name])` for every name of `from`,
   * in any order, starting from `before`: a key is present iff it was before
   * or some name sets it; a key some name sets holds the value of one such
   * name (the last one visited); every other key keeps its old value.
   */
  predicate AfterSets(canon: string -> string, before: Headers, from: Headers, after: Headers) {
    && (forall key | key in after :: key in before || Names(canon, from, key))
    && (forall key | key in before :: key in after)
    && (forall name | name in from :: canon(name) in after)
    && (forall key | key in after ::
          if Names(canon, from, key) then SetsTo(canon, from, key, after[key])
          else after[key] == before[key])
  }

  /** `for name, value := range from { header.Set(name, value) }`. */
  method SetHeaders(canon: string -> string, header: Headers, from: Headers) returns (after: Headers)
    ensures AfterSets(canon, header, from, after)
  {
    after := header;
    var todo := from.Keys;
    while todo != {}
      invariant todo <= from.Keys
      invariant AfterSets(canon, header, from - todo, after)
      decreases todo
    {
      var name :| name in todo;
      ghost var done := from - todo;
      after := after[canon(name) := from[name]];
      todo := todo - {name};
      assert from - todo == done[name := from[name]];
      forall key | key in after && Names(canon, from - todo, key)
        ensures SetsTo(canon, from - todo, key, after[key])
      {
        if key != canon(name) {
          var n :| n in from - todo && canon(n) == key;
          assert n in done;
        }
      }
    }
    assert from - todo == from;
  }

  /**
   * The forward action's header loop: a name spelled exactly `"Host"` sets the
   * target host; every other name is `Header.Set`.
   */
  method SetForwardHeaders(canon: string -> string, header: Headers, host: string, fwd: Headers)
    returns (after: Headers, targetHost: string)
    ensures AfterSets(canon, header, fwd - {"Host"}, after)
    ensures targetHost == if "Host" in fwd then fwd["Host"] else host
  {
    after := header;
    targetHost := host;
    var todo := fwd.Keys;
    while todo != {}
      invariant todo <= fwd.Keys
      invariant AfterSets(canon, header, (fwd - todo) - {"Host"}, after)
      invariant targetHost == if "Host" in fwd - todo then fwd["Host"] else host
      decreases todo
    {
      var name :| name in todo;
      ghost var done := (fwd - todo) - {"Host"};
      todo := todo - {name};
      if name == "Host" {
        assert (fwd - todo) - {"Host"} == done;
        targetHost := fwd[name];
      } else {
        after := after[canon(name) := fwd[name]];
        assert (fwd - todo) - {"Host"} == done[name := fwd[name]];
        forall key | key in after && Names(canon, (fwd - todo) - {"Host"}, key)
          ensures SetsTo(canon, (fwd - todo) - {"Host"}, key, after[key])
        {
          if key != canon(name) {
            var n :| n in (fwd - todo) - {"Host"} && canon(n) == key;
            assert n in done;
          }
        }
      }
    }
    assert fwd - todo == fwd;
  }

  /**
   * Request headers first, forward headers second: the forward action's value
   * wins for every canonical name it sets, the request's value survives
   * elsewhere, and nothing else appears.
   */
  lemma ForwardHeadersWin(canon: string -> string, req: Headers, fwd: Headers, mid: Headers, out: Headers, key: string)
    requires AfterSets(canon, map[], req, mid)
    requires AfterSets(canon, mid, fwd, out)
    ensures key in out <==> Names(canon, req, key) || Names(canon, fwd, key)
    ensures key in out && Names(canon, fwd, key) ==> SetsTo(canon, fwd, key, out[key])
    ensures key in out && !Names(canon, fwd, key) ==> SetsTo(canon, req, key, out[key])
  {
    if Names(canon, req, key) {
      var n :| n in req && canon(n) == key;
      assert key in mid;
    }
    if Names(canon, fwd, key) {
      var n :| n in fwd && canon(n) == key;
      assert key in out;
    }
  }

  /**
   * When no two names of `from` canonicalise alike, the order of the loop does
   * not matter: every canonical key holds the value of the one name behind it.
   */
  lemma SetHeadersDeterministic(canon: string -> string, before: Headers, from: Headers, after: Headers, name: string)
    requires AfterSets(canon, before, from, after)
    requires forall a, b | a in from && b in from :: canon(a) == canon(b) ==> a == b
    requires name in from
    ensures canon(name) in after && after[canon(name)] == from[name]
  {
    assert Names(canon, from, canon(name));
  }

  // ---------------------------------------------------------------------------
  // Building the forward request

  /** The scheme a forward action uses after default values are set: `"http"` in place of an empty one. */
  function DefaultScheme(scheme: string): (r: string)
    ensures r != ""
    ensures scheme != "" ==> r == scheme
  {
    if scheme == "" then "http" else scheme
  }

  /** Normalising twice is normalising once. */
  lemma DefaultSchemeIdempotent(scheme: string)
    ensures DefaultScheme(DefaultScheme(scheme)) == DefaultScheme(scheme)
  {
  }

  /** `fmt.Sprintf("%s://%s%s", scheme, host, path)`. */
  function ForwardURL(scheme: string, host: string, path: string): string {
    scheme + "://" + host + path
  }

  /**
   * `http.NewRequest(method, url, body)` for a URL that `url.Parse` accepted:
   * an empty method means `GET`, an invalid one is an error; the new request
   * has an empty header and the URL's host as its target host.
   */
  function NewRequest(net: Net, httpMethod: string, url: string, host: string, body: string): (r: Result<OutboundRequest>)
    ensures r.Ok? <==> net.validMethod(if httpMethod == "" then "GET" else httpMethod)
    ensures r.Ok? ==> r.value.url == url && r.value.body == body && r.value.header == map[] && r.value.host == host
  {
    var m := if httpMethod == "" then "GET" else httpMethod;
    if !net.validMethod(m) then Err("net/http: invalid method \"" + httpMethod + "\"")
    else Ok(OutboundRequest(m, url, body, map[], host))
  }

  /**
   * The outbound request a forward action sends for an incoming request with
   * `httpMethod`, `path`, `body` and headers `reqHeaders`: URL `scheme://host+path`,
   * request headers set first, then the forward headers other than `Host`,
   * and the target host taken from a forward header spelled `Host` if any.
   */
  ghost predicate IsForwardRequest(
    net: Net, httpMethod: string, path: string, body: string, reqHeaders: Headers,
    scheme: string, host: string, fwdHeaders: Headers, o: OutboundRequest)
  {
    && o.httpMethod == (if httpMethod == "" then "GET" else httpMethod)
    && o.url == ForwardURL(scheme, host, path)
    && o.body == body
    && o.host == (if "Host" in fwdHeaders then fwdHeaders["Host"] else host)
    && exists mid :: AfterSets(net.canonicalHeaderKey, map[], reqHeaders, mid)
                 && AfterSets(net.canonicalHeaderKey, mid, fwdHeaders - {"Host"}, o.header)
  }

  /**
   * The shared body of `responseFromHTTPForward` / `controllerCreateHTTPRequest`
   * once `url.Parse` has accepted the URL: `http.NewRequest`, then the two
   * header loops. `None` means `http.NewRequest` failed.
   */
  method BuildForwardRequest(
    net: Net, httpMethod: string, path: string, body: string, reqHeaders: Headers,
    scheme: string, host: string, fwdHeaders: Headers)
    returns (r: Option<OutboundRequest>)
    ensures r.None? <==> NewRequest(net, httpMethod, ForwardURL(scheme, host, path), host, body).Err?
    ensures r.Some? ==> IsForwardRequest(net, httpMethod, path, body, reqHeaders, scheme, host, fwdHeaders, r.value)
  {
    var url := ForwardURL(scheme, host, path);
    var created := NewRequest(net, httpMethod, url, host, body);
    if created.Err? {
      return None;
    }
    var httpReq := created.value;
    var mid := SetHeaders(net.canonicalHeaderKey, httpReq.header, reqHeaders);
    var header, targetHost := SetForwardHeaders(net.canonicalHeaderKey, mid, httpReq.host, fwdHeaders);
    r := Some(httpReq.(header := header, host := targetHost));
  }
}
