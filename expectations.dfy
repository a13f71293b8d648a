/**
 * The newest generation's data model and rule store (package `expectations`,
 * expectations/expectations.go).
 */
module Expectations {
  import opened Wrappers
  import opened Http
  import PriorityOrder

  /** The filter an incoming request is matched against, and the incoming request itself. */
  datatype ExpectationRequest = ExpectationRequest(httpMethod: string, path: string, body: string, headers: Headers)

  /**
   * The forward action. A class, because the Go code reaches it through a
   * `*ExpectationForward` that value copies of an `Expectation` share.
   */
  class ExpectationForward {
    var scheme: string
    var host: string
    var headers: Headers

    constructor (scheme: string, host: string, headers: Headers)
      ensures this.scheme == scheme && this.host == host && this.headers == headers
    {
      this.scheme, this.host, this.headers := scheme, host, headers;
    }
  }

  /** The response action: status, literal body, headers and an optional base64 script. */
  datatype ExpectationResponse = ExpectationResponse(httpCode: int, body: string, headers: Headers, jsTemplate: string)

  /** One rule. `None` stands for a nil pointer; `delay` is in seconds. */
  datatype Expectation = Expectation(
    key: string,
    request: Option<ExpectationRequest>,
    forward: Option<ExpectationForward>,
    response: Option<ExpectationResponse>,
    delay: int,
    priority: int)

  /** The sort key of `OrderedExpectations`. */
  function PriorityOf(exp: Expectation): int {
    exp.priority
  }

  /** The forward objects an expectation points to. */
  function ForwardOf(exp: Expectation): set<ExpectationForward> {
    if exp.forward.Some? then {exp.forward.value} else {}
  }

  /** The forward objects a list of expectations points to. */
  function ForwardsOf(exps: seq<Expectation>): set<ExpectationForward> {
    set i | 0 <= i < |exps| && exps[i].forward.Some? :: exps[i].forward.value
  }

  /** The forward objects of a prefix grow by those of the next element. */
  lemma ForwardsOfPrefix(exps: seq<Expectation>, i: int)
    requires 0 <= i < |exps|
    ensures ForwardsOf(exps[..i + 1]) == ForwardsOf(exps[..i]) + ForwardOf(exps[i])
    ensures ForwardOf(exps[i]) <= ForwardsOf(exps)
  {
    var pre, pre1 := exps[..i], exps[..i + 1];
    forall f | f in ForwardsOf(pre1) ensures f in ForwardsOf(pre) + ForwardOf(exps[i]) {
      var j :| 0 <= j < |pre1| && pre1[j].forward.Some? && pre1[j].forward.value == f;
      if j < i {
        assert pre[j] == pre1[j];
      }
    }
    forall f | f in ForwardsOf(pre) ensures f in ForwardsOf(pre1) {
      var j :| 0 <= j < |pre| && pre[j].forward.Some? && pre[j].forward.value == f;
      assert pre1[j] == pre[j];
    }
    if exps[i].forward.Some? {
      assert pre1[i] == exps[i];
    }
  }

  /** `(*Expectation).setDefaultValues`: fill in an empty forward scheme, through the pointer. */
  method SetDefaultValues(exp: Expectation)
    modifies ForwardOf(exp)
    ensures exp.forward.Some? ==> exp.forward.value.scheme == DefaultScheme(old(exp.forward.value.scheme))
    ensures exp.forward.Some? ==> exp.forward.value.host == old(exp.forward.value.host)
    ensures exp.forward.Some? ==> exp.forward.value.headers == old(exp.forward.value.headers)
  {
    if exp.forward.Some? && exp.forward.value.scheme == "" {
      exp.forward.value.scheme := "http";
    }
  }

  /** The store after `Add`ing every expectation of `exps`, in order, to `m`. */
  function AddAll(m: map<string, Expectation>, exps: seq<Expectation>): map<string, Expectation>
    decreases |exps|
  {
    if exps == [] then m
    else
      var last := exps[|exps| - 1];
      AddAll(m, exps[..|exps| - 1])[last.key := last]
  }

  /** A batch adds exactly the keys of its elements. */
  lemma {:induction false} AddAllKeys(m: map<string, Expectation>, exps: seq<Expectation>, k: string)
    ensures k in AddAll(m, exps) <==> k in m || exists i | 0 <= i < |exps| :: exps[i].key == k
    decreases |exps|
  {
    if exps != [] {
      var init := exps[..|exps| - 1];
      AddAllKeys(m, init, k);
      if exists i | 0 <= i < |exps| :: exps[i].key == k {
        var i :| 0 <= i < |exps| && exps[i].key == k;
        if i < |exps| - 1 {
          assert init[i] == exps[i];
        }
      }
      if exists i | 0 <= i < |init| :: init[i].key == k {
        var i :| 0 <= i < |init| && init[i].key == k;
        assert exps[i] == init[i];
      }
    }
  }

  /** Within a batch a later duplicate key wins: the last element with a key is what the store holds. */
  lemma {:induction false} AddAllLastWins(m: map<string, Expectation>, exps: seq<Expectation>, i: int)
    requires 0 <= i < |exps|
    requires forall j | i < j < |exps| :: exps[j].key != exps[i].key
    ensures exps[i].key in AddAll(m, exps) && AddAll(m, exps)[exps[i].key] == exps[i]
    decreases |exps|
  {
    if i < |exps| - 1 {
      var init := exps[..|exps| - 1];
      AddAllLastWins(m, init, i);
    }
  }

  /** Keys the batch does not mention keep their old value. */
  lemma {:induction false} AddAllKeepsOthers(m: map<string, Expectation>, exps: seq<Expectation>, k: string)
    requires k in m
    requires forall j | 0 <= j < |exps| :: exps[j].key != k
    ensures k in AddAll(m, exps) && AddAll(m, exps)[k] == m[k]
    decreases |exps|
  {
    if exps != [] {
      AddAllKeepsOthers(m, exps[..|exps| - 1], k);
    }
  }

  /**
   * `gzStorage`: the rule table, keyed by each expectation's `Key`
   * (the `sync.RWMutex` is not modelled; every operation runs alone).
   */
  class GzStorage {
    var expectations: map<string, Expectation>

    /** `NewGzStorage`: an empty table. */
    constructor ()
      ensures expectations == map[]
    {
      expectations := map[];
    }

    /** `Add`: insert or fully replace the rule under `exp.Key`. */
    method Add(exp: Expectation)
      modifies this
      ensures expectations == old(expectations)[exp.key := exp]
      ensures |expectations| == |old(expectations)| + (if exp.key in old(expectations) then 0 else 1)
    {
      expectations := expectations[exp.key := exp];
    }

    /** `Remove`: delete `key` if it is present; otherwise nothing changes. */
    method Remove(key: string)
      modifies this
      ensures key in old(expectations) ==> expectations == old(expectations) - {key}
      ensures key !in old(expectations) ==> expectations == old(expectations)
    {
      var ok := key in expectations;
      if ok {
        expectations := expectations - {key};
      }
    }

    /**
     * `GetOrdered`: a snapshot with dense indices 0..n-1 holding every stored
     * rule once per key, highest priority first (ties in any order).
     */
    method GetOrdered() returns (ordered: seq<Expectation>)
      ensures |ordered| == |expectations|
      ensures multiset(ordered) == PriorityOrder.Values(expectations)
      ensures PriorityOrder.Sorted(PriorityOf, ordered)
    {
      ordered := PriorityOrder.Snapshot(expectations, PriorityOf);
    }

    /**
     * `AddFromString`, after decoding: a decoding error is returned and nothing
     * changes; otherwise every decoded rule is normalised and `Add`ed in array
     * order.
     */
    method AddFromString(decoded: Result<seq<Expectation>>) returns (err: Option<string>)
      modifies this, if decoded.Ok? then ForwardsOf(decoded.value) else {}
      ensures decoded.Err? ==> err == Some(decoded.message) && expectations == old(expectations)
      ensures decoded.Ok? ==> err.None? && expectations == AddAll(old(expectations), decoded.value)
      ensures decoded.Ok? ==> forall f | f in ForwardsOf(decoded.value) ::
                f.scheme == DefaultScheme(old(f.scheme)) && f.host == old(f.host) && f.headers == old(f.headers)
    {
      if decoded.Err? {
        return Some(decoded.message);
      }
      var exps := decoded.value;
      var i := 0;
      while i < |exps|
        invariant 0 <= i <= |exps|
        invariant expectations == AddAll(old(expectations), exps[..i])
        invariant forall f | f in ForwardsOf(exps) ::
                    f.scheme == (if f in ForwardsOf(exps[..i]) then DefaultScheme(old(f.scheme)) else old(f.scheme))
                    && f.host == old(f.host) && f.headers == old(f.headers)
      {
        var exp := exps[i];
        ForwardsOfPrefix(exps, i);
        SetDefaultValues(exp);
        Add(exp);
        assert exps[..i + 1][..i] == exps[..i];
        i := i + 1;
      }
      assert exps[..i] == exps;
      return None;
    }

    /**
     * `AddFromJSON`: a file-reading error is returned and nothing changes;
     * otherwise the file's decoded content is handled as by `AddFromString`.
     */
    method AddFromJSON(readError: Option<string>, decoded: Result<seq<Expectation>>) returns (err: Option<string>)
      modifies this, if decoded.Ok? then ForwardsOf(decoded.value) else {}
      ensures readError.Some? ==> err == readError && expectations == old(expectations)
      ensures readError.None? && decoded.Err? ==> err == Some(decoded.message) && expectations == old(expectations)
      ensures readError.None? && decoded.Ok? ==> err.None? && expectations == AddAll(old(expectations), decoded.value)
      ensures readError.None? && decoded.Ok? ==> forall f | f in ForwardsOf(decoded.value) ::
                f.scheme == DefaultScheme(old(f.scheme)) && f.host == old(f.host) && f.headers == old(f.headers)
    {
      if readError.Some? {
        return readError;
      }
      err := AddFromString(decoded);
    }
  }

  /**
   * `HttpRequestToExpectationRequest`: the method; `RequestURI()` with
   * `"#" + Fragment` when there is one; the body (an error reading it is
   * returned); and every header name with its values joined by `","`.
   */
  method HttpRequestToExpectationRequest(r: HttpRequest) returns (res: Result<ExpectationRequest>)
    ensures r.body.Some? && r.body.value.Err? ==> res == Err(r.body.value.message)
    ensures !(r.body.Some? && r.body.value.Err?) ==> res.Ok?
    ensures res.Ok? ==>
              && res.value.httpMethod == r.httpMethod
              && res.value.path == PathWithFragment(r.requestURI, r.fragment)
              && res.value.body == (if r.body.Some? then r.body.value.value else "")
              && res.value.headers == Joined(r.header)
  {
    var expRequest := ExpectationRequest(r.httpMethod, r.requestURI, "", map[]);
    if |r.fragment| > 0 {
      expRequest := expRequest.(path := expRequest.path + "#" + r.fragment);
    }
    if r.body.Some? {
      if r.body.value.Err? {
        return Err(r.body.value.message);
      }
      expRequest := expRequest.(body := r.body.value.value);
    }
    if |r.header| > 0 {
      var headers := FlattenHeader(r.header);
      expRequest := expRequest.(headers := headers);
    }
    res := Ok(expRequest);
  }

  /**
   * `HttpRequestToExpectation`, after decoding: a decoding error is returned;
   * otherwise the decoded rule comes back already normalised.
   */
  method HttpRequestToExpectation(decoded: Result<Expectation>) returns (res: Result<Expectation>)
    modifies if decoded.Ok? then ForwardOf(decoded.value) else {}
    ensures res == decoded
    ensures res.Ok? && res.value.forward.Some? ==>
              && res.value.forward.value.scheme == DefaultScheme(old(res.value.forward.value.scheme))
              && res.value.forward.value.host == old(res.value.forward.value.host)
              && res.value.forward.value.headers == old(res.value.forward.value.headers)
  {
    if decoded.Err? {
      return decoded;
    }
    var exp := decoded.value;
    SetDefaultValues(exp);
    res := Ok(exp);
  }
}
