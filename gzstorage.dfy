/**
 * The middle generation's rule table (gzstorage.go). Unlike the newest store,
 * `add` files a rule under the key its caller passes.
 */
module GzStore {
  import opened Model
  import PriorityOrder

  /**
   * `gzStorage` (the `sync.RWMutex` is not modelled). A Dafny reference is
   * never nil, which is the precondition the Go methods enforce by panicking.
   */
  class GzStorage {
    var expectations: map<string, Expectation>

    /** A store as the composite literal `&gzStorage{expectations: make(Expectations)}` builds it. */
    constructor ()
      ensures expectations == map[]
    {
      expectations := map[];
    }

    /**
     * `init`: it only rebinds its own receiver variable, so the store it is
     * called on is left exactly as it was.
     */
    method Init()
      ensures expectations == old(expectations)
    {
      var storage := new GzStorage();
    }

    /** `add`: insert or fully replace the rule under `key` (not `exp.Key`). */
    method Add(key: string, exp: Expectation)
      modifies this
      ensures expectations == old(expectations)[key := exp]
      ensures |expectations| == |old(expectations)| + (if key in old(expectations) then 0 else 1)
    {
      expectations := expectations[key := exp];
    }

    /** `remove`: delete `key` if it is present; otherwise nothing changes. */
    method Remove(key: string)
      modifies this
      ensures key in old(expectations) ==> expectations == old(expectations) - {key}
      ensures key !in old(expectations) ==> expectations == old(expectations)
    {
      var ok := key in expectations;
      if ok {
        expectations := expectations - {key};
      }
    }

    /**
     * `getOrdered`: a snapshot with dense indices 0..n-1 holding every stored
     * rule once per key, highest priority first (ties in any order).
     */
    method GetOrdered() returns (ordered: seq<Expectation>)
      ensures |ordered| == |expectations|
      ensures multiset(ordered) == PriorityOrder.Values(expectations)
      ensures PriorityOrder.Sorted(PriorityOf, ordered)
    {
      ordered := PriorityOrder.Snapshot(expectations, PriorityOf);
    }
  }
}
