/**
 * The priority-descending snapshot shared by the three store generations.
 *
 * Each generation declares a `map[int]Expectation` type whose `Less(i, j)` is
 * `exps[i].Priority > exps[j].Priority` and whose `Swap` exchanges two entries,
 * fills it from the store's map in a counter loop and hands it to `sort.Sort`.
 * Here the snapshot is a sequence, `sort.Sort` is an in-place selection sort
 * driven by the same `Less` and `Swap`, and the result is specified by what
 * `sort.Sort` promises: sorted by `Less`, a permutation of its input.
 */
module PriorityOrder {

  /** The comparator handed to `sort.Sort`: `x` sorts before `y` when its priority is higher. */
  predicate Less<V>(priority: V -> int, x: V, y: V) {
    priority(x) > priority(y)
  }

  /** `Less` is a strict weak order, which is what `sort.Sort` requires of it. */
  lemma LessIsStrictWeakOrder<V>(priority: V -> int, x: V, y: V, z: V)
    ensures !Less(priority, x, x)
    ensures Less(priority, x, y) && Less(priority, y, z) ==> Less(priority, x, z)
    ensures !Less(priority, x, y) && !Less(priority, y, z) ==> !Less(priority, x, z)
  {
  }

  /** What `sort.Sort` guarantees: no later element is `Less` than an earlier one. */
  ghost predicate Sorted<V>(priority: V -> int, s: seq<V>) {
    forall i, j | 0 <= i < j < |s| :: !Less(priority, s[j], s[i])
  }

  /** `Swap(i, j)`: entries `i` and `j` change places and nothing else moves. */
  method Swap<V>(a: array<V>, i: int, j: int)
    requires 0 <= i < a.Length && 0 <= j < a.Length
    modifies a
    ensures a[..] == old(a[..])[i := old(a[j])][j := old(a[i])]
    ensures multiset(a[..]) == old(multiset(a[..]))
  {
    a[i], a[j] := a[j], a[i];
  }

  /** The index of an element in `a[from..]` that no other element of `a[from..]` is `Less` than. */
  method MinIndexFrom<V>(a: array<V>, from: int, priority: V -> int) returns (m: int)
    requires 0 <= from < a.Length
    ensures from <= m < a.Length
    ensures forall k | from <= k < a.Length :: !Less(priority, a[k], a[m])
  {
    m := from;
    var k := from + 1;
    while k < a.Length
      invariant from <= m < k <= a.Length
      invariant forall j | from <= j < k :: !Less(priority, a[j], a[m])
    {
      if Less(priority, a[k], a[m]) {
        m := k;
      }
      k := k + 1;
    }
  }

  /**
   * The selection sort's loop invariant: `s[..i]` is sorted, and nothing in
   * `s[i..]` sorts before anything in `s[..i]`.
   */
  ghost predicate SortedUpTo<V>(priority: V -> int, s: seq<V>, i: int)
    requires 0 <= i <= |s|
  {
    && (forall x, y | 0 <= x < y < i :: !Less(priority, s[y], s[x]))
    && (forall x, y | 0 <= x < i <= y < |s| :: !Less(priority, s[y], s[x]))
  }

  /** Swapping a least element of `s[i..]` into place `i` extends the sorted prefix by one. */
  lemma SelectionStep<V>(priority: V -> int, s: seq<V>, i: int, m: int)
    requires 0 <= i <= m < |s|
    requires SortedUpTo(priority, s, i)
    requires forall k | i <= k < |s| :: !Less(priority, s[k], s[m])
    ensures SortedUpTo(priority, s[i := s[m]][m := s[i]], i + 1)
  {
  }

  /** `sort.Sort` on the snapshot: sorted by `Less` and a permutation of the input. */
  method Sort<V>(a: array<V>, priority: V -> int)
    modifies a
    ensures Sorted(priority, a[..])
    ensures multiset(a[..]) == old(multiset(a[..]))
  {
    var i := 0;
    while i < a.Length
      invariant 0 <= i <= a.Length
      invariant SortedUpTo(priority, a[..], i)
      invariant multiset(a[..]) == old(multiset(a[..]))
    {
      var m := MinIndexFrom(a, i, priority);
      SelectionStep(priority, a[..], i, m);
      Swap(a, i, m);
      i := i + 1;
    }
  }

  /** The values of a map, counted with multiplicity (two keys may hold equal values). */
  ghost function Values<K, V>(m: map<K, V>): multiset<V>
    decreases |m|
  {
    if m == map[] then multiset{}
    else
      var k :| k in m;
      assert |m - {k}| == |m| - 1 by { assert (m - {k}).Keys == m.Keys - {k}; }
      Values(m - {k}) + multiset{m[k]}
  }

  /** Taking any one key out of a map takes exactly its value out of `Values`. */
  lemma {:induction false} ValuesRemove<K, V>(m: map<K, V>, k: K)
    requires k in m
    ensures Values(m) == Values(m - {k}) + multiset{m[k]}
    decreases |m|
  {
    var k' :| k' in m && Values(m) == Values(m - {k'}) + multiset{m[k']};
    if k' != k {
      var mk, mk' := m - {k}, m - {k'};
      assert mk.Keys == m.Keys - {k} && mk'.Keys == m.Keys - {k'};
      assert k in mk' && k' in mk;
      assert mk' - {k} == mk - {k'};
      ValuesRemove(mk', k);
      ValuesRemove(mk, k');
      assert mk'[k] == m[k] && mk[k'] == m[k'];
    }
  }

  /** Every value stored in the map, and only those, occurs in `Values`, as often as there are keys. */
  lemma {:induction false} ValuesMembers<K, V>(m: map<K, V>, v: V)
    ensures v in Values(m) <==> v in m.Values
    ensures |Values(m)| == |m|
    decreases |m|
  {
    if m != map[] {
      var k :| k in m;
      ValuesRemove(m, k);
      assert (m - {k}).Keys == m.Keys - {k};
      ValuesMembers(m - {k}, v);
      assert v in (m - {k}).Values ==> v in m.Values;
      if v in m.Values && v != m[k] {
        var k2 :| k2 in m && m[k2] == v;
        assert k2 in (m - {k});
      }
    }
  }

  /** The counter loop of `getOrdered`: every stored value, once per key, at indices 0..n-1. */
  method Collect<K, V>(m: map<K, V>) returns (listForSorting: seq<V>)
    ensures |listForSorting| == |m|
    ensures multiset(listForSorting) == Values(m)
  {
    listForSorting := [];
    var rest := m;
    while rest != map[]
      invariant Values(rest) + multiset(listForSorting) == Values(m)
      invariant |listForSorting| + |rest| == |m|
      decreases |rest|
    {
      var k :| k in rest;
      ValuesRemove(rest, k);
      assert (rest - {k}).Keys == rest.Keys - {k};
      listForSorting := listForSorting + [rest[k]];
      rest := rest - {k};
    }
  }

  /**
   * `getOrdered`: copy the map's values in iteration order into a list with
   * dense indices 0..n-1, then sort it by priority, highest first.
   */
  method Snapshot<K, V>(m: map<K, V>, priority: V -> int) returns (ordered: seq<V>)
    ensures |ordered| == |m|
    ensures multiset(ordered) == Values(m)
    ensures Sorted(priority, ordered)
  {
    var listForSorting := Collect(m);
    var a := new V[|listForSorting|](i requires 0 <= i < |listForSorting| => listForSorting[i]);
    assert a[..] == listForSorting;
    Sort(a, priority);
    ordered := a[..];
  }

  /**
   * Scanning a sorted snapshot front to back finds the highest priority first:
   * an entry that comes after index `i` never outranks entry `i`.
   */
  lemma FirstHasHighestPriority<V>(priority: V -> int, s: seq<V>, i: int, v: V)
    requires Sorted(priority, s)
    requires 0 <= i < |s|
    requires v in multiset(s[i..])
    ensures priority(v) <= priority(s[i])
  {
    var j :| i <= j < |s| && s[j] == v by {
      assert v in s[i..];
    }
    if j > i {
      assert !Less(priority, s[j], s[i]);
    }
  }

  /**
   * A front-to-back scan of a snapshot of `m` that stops at the first entry
   * satisfying `matches` stops at a stored value, and no stored value that
   * satisfies `matches` has a higher priority than it.
   */
  lemma FirstMatchIsHighest<K, V>(priority: V -> int, matches: V -> bool, m: map<K, V>, ordered: seq<V>, i: int)
    requires multiset(ordered) == Values(m)
    requires Sorted(priority, ordered)
    requires 0 <= i < |ordered|
    requires forall j | 0 <= j < i :: !matches(ordered[j])
    ensures ordered[i] in m.Values
    ensures forall v | v in m.Values && matches(v) :: priority(v) <= priority(ordered[i])
  {
    ValuesMembers(m, ordered[i]);
    assert ordered[i] in multiset(ordered);
    forall v | v in m.Values && matches(v)
      ensures priority(v) <= priority(ordered[i])
    {
      ValuesMembers(m, v);
      assert ordered == ordered[..i] + ordered[i..];
      assert v !in ordered[..i];
      assert v in multiset(ordered[i..]);
      FirstHasHighestPriority(priority, ordered, i, v);
    }
  }

  /** A scan of a snapshot of `m` that finds no entry satisfying `matches` means no stored value does. */
  lemma NoMatchInSnapshot<K, V>(matches: V -> bool, m: map<K, V>, ordered: seq<V>)
    requires multiset(ordered) == Values(m)
    requires forall j | 0 <= j < |ordered| :: !matches(ordered[j])
    ensures forall v | v in m.Values :: !matches(v)
  {
    forall v | v in m.Values ensures !matches(v) {
      ValuesMembers(m, v);
      assert v in multiset(ordered);
    }
  }
}
