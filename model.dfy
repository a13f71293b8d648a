/**
 * The data model of the older generations (package `main`, model.go), shared
 * by gzstorage.go, gzserver.go and controller.go. Here the header maps are
 * reached through `*Headers` pointers, so "no headers" (`None`) and "an empty
 * header map" (`Some(map[])`) are different values.
 */
module Model {
  import opened Wrappers
  import opened Http

  /** The filter an incoming request is matched against, and the incoming request itself. */
  datatype ExpectationRequest = ExpectationRequest(
    httpMethod: string, path: string, body: string, headers: Option<Headers>)

  /** The forward action, reached through a pointer shared by every copy of its expectation. */
  class ExpectationForward {
    var scheme: string
    var host: string
    var headers: Option<Headers>

    constructor (scheme: string, host: string, headers: Option<Headers>)
      ensures this.scheme == scheme && this.host == host && this.headers == headers
    {
      this.scheme, this.host, this.headers := scheme, host, headers;
    }
  }

  /** The response action: status, literal body, headers and an optional base64 script. */
  datatype ExpectationResponse = ExpectationResponse(
    httpCode: int, body: string, headers: Option<Headers>, jsTemplate: string)

  /** One rule. `None` stands for a nil pointer; `delay` is in seconds. */
  datatype Expectation = Expectation(
    key: string,
    request: Option<ExpectationRequest>,
    forward: Option<ExpectationForward>,
    response: Option<ExpectationResponse>,
    delay: int,
    priority: int)

  /** The body of a remove request. */
  datatype ExpectationRemove = ExpectationRemove(key: string)

  /** What a Go function that may panic ends in. */
  datatype Returned<T> = Returned(value: T) | Panicked(reason: string)

  /** The sort key of `ExpectationsInt` and `OrderedExpectations`. */
  function PriorityOf(exp: Expectation): int {
    exp.priority
  }

  /** The forward objects an expectation points to. */
  function ForwardOf(exp: Expectation): set<ExpectationForward> {
    if exp.forward.Some? then {exp.forward.value} else {}
  }

  /** The forward objects a list of expectations points to. */
  function ForwardsOf(exps: seq<Expectation>): set<ExpectationForward> {
    set i | 0 <= i < |exps| && exps[i].forward.Some? :: exps[i].forward.value
  }

  /** The forward objects of a prefix grow by those of the next element. */
  lemma ForwardsOfPrefix(exps: seq<Expectation>, i: int)
    requires 0 <= i < |exps|
    ensures ForwardsOf(exps[..i + 1]) == ForwardsOf(exps[..i]) + ForwardOf(exps[i])
  {
    var pre, pre1 := exps[..i], exps[..i + 1];
    forall f | f in ForwardsOf(pre1) ensures f in ForwardsOf(pre) + ForwardOf(exps[i]) {
      var j :| 0 <= j < |pre1| && pre1[j].forward.Some? && pre1[j].forward.value == f;
      if j < i {
        assert pre[j] == pre1[j];
      }
    }
    forall f | f in ForwardsOf(pre) ensures f in ForwardsOf(pre1) {
      var j :| 0 <= j < |pre| && pre[j].forward.Some? && pre[j].forward.value == f;
      assert pre1[j] == pre[j];
    }
    if exps[i].forward.Some? {
      assert pre1[i] == exps[i];
    }
  }

  /** `expectationSetDefaultValues`: fill in an empty forward scheme, through the pointer. */
  method ExpectationSetDefaultValues(exp: Expectation)
    modifies ForwardOf(exp)
    ensures exp.forward.Some? ==> exp.forward.value.scheme == DefaultScheme(old(exp.forward.value.scheme))
    ensures exp.forward.Some? ==> exp.forward.value.host == old(exp.forward.value.host)
    ensures exp.forward.Some? ==> exp.forward.value.headers == old(exp.forward.value.headers)
  {
    if exp.forward.Some? && exp.forward.value.scheme == "" {
      exp.forward.value.scheme := "http";
    }
  }

  /**
   * `ExpectationsFromString` after decoding: a decoding error panics; otherwise
   * the decoded array comes back as it is (same length, same order), and
   * normalising each element's copy in the loop reaches the returned elements
   * through their shared forward pointers.
   */
  method ExpectationsFromString(decoded: Result<seq<Expectation>>) returns (out: Returned<seq<Expectation>>)
    modifies if decoded.Ok? then ForwardsOf(decoded.value) else {}
    ensures decoded.Err? ==> out == Panicked(decoded.message)
    ensures decoded.Ok? ==> out == Returned(decoded.value)
    ensures decoded.Ok? ==> forall f | f in ForwardsOf(decoded.value) ::
              f.scheme == DefaultScheme(old(f.scheme)) && f.host == old(f.host) && f.headers == old(f.headers)
    ensures out.Returned? ==> forall i | 0 <= i < |out.value| && out.value[i].forward.Some? ::
              out.value[i].forward.value.scheme != ""
  {
    if decoded.Err? {
      return Panicked(decoded.message);
    }
    var exps := decoded.value;
    var i := 0;
    while i < |exps|
      invariant 0 <= i <= |exps|
      invariant forall f | f in ForwardsOf(exps) ::
                  f.scheme == (if f in ForwardsOf(exps[..i]) then DefaultScheme(old(f.scheme)) else old(f.scheme))
                  && f.host == old(f.host) && f.headers == old(f.headers)
    {
      var exp := exps[i];
      ForwardsOfPrefix(exps, i);
      ExpectationSetDefaultValues(exp);
      i := i + 1;
    }
    assert exps[..i] == exps;
    forall j | 0 <= j < |exps| && exps[j].forward.Some? ensures exps[j].forward.value.scheme != "" {
      assert exps[j].forward.value in ForwardsOf(exps);
    }
    return Returned(exps);
  }

  /**
   * `ExpectationsFromJSONFile`: a file-reading error or a decoding error
   * panics; otherwise the decoded content is normalised as by
   * `ExpectationsFromString`.
   */
  method ExpectationsFromJSONFile(readError: Option<string>, decoded: Result<seq<Expectation>>)
    returns (out: Returned<seq<Expectation>>)
    modifies if decoded.Ok? then ForwardsOf(decoded.value) else {}
    ensures readError.Some? ==> out == Panicked(readError.value)
    ensures readError.None? && decoded.Err? ==> out == Panicked(decoded.message)
    ensures readError.None? && decoded.Ok? ==> out == Returned(decoded.value)
    ensures readError.None? && decoded.Ok? ==> forall f | f in ForwardsOf(decoded.value) ::
              f.scheme == DefaultScheme(old(f.scheme)) && f.host == old(f.host) && f.headers == old(f.headers)
    ensures out.Returned? ==> forall i | 0 <= i < |out.value| && out.value[i].forward.Some? ::
              out.value[i].forward.value.scheme != ""
  {
    if readError.Some? {
      return Panicked(readError.value);
    }
    out := ExpectationsFromString(decoded);
  }
}
