/**
 * Last-write-wins bucketing of `(key, column, value)` entries into a map of maps.
 * Both `aggregateByDate` (static/site.js, a `d3.map` of `d3.map`s) and `submissions`
 * (graphs.py, a dict of dicts keyed by day and rating) start this way: the last count
 * for each (key, column) pair wins. The order in which the keys are listed is not
 * specified; every consumer of the buckets sorts the keys before use.
 */
module Buckets {
  import opened Wrappers

  datatype Entry<K, C, V> = Entry(key: K, column: C, value: V)

  /** The value of the last entry for `(k, c)`, or `None` when there is no such entry. */
  function Last<K(==), C(==), V>(entries: seq<Entry<K, C, V>>, k: K, c: C): (r: Option<V>)
    ensures r.Some? ==> Entry(k, c, r.value) in entries
    ensures r.None? ==> forall e :: e in entries ==> e.key != k || e.column != c
  {
    if entries == [] then None
    else
      var e := entries[|entries| - 1];
      var init := entries[..|entries| - 1];
      assert entries == init + [e];
      if e.key == k && e.column == c then Some(e.value) else Last(init, k, c)
  }

  /** The keys the entries mention. */
  ghost function Keys<K, C, V>(entries: seq<Entry<K, C, V>>): set<K> {
    set e | e in entries :: e.key
  }

  /** A later entry for the same `(key, column)` replaces the earlier one; others are untouched. */
  lemma LastOfAppend<K, C, V>(entries: seq<Entry<K, C, V>>, e: Entry<K, C, V>, k: K, c: C)
    ensures Last(entries + [e], k, c) ==
            if e.key == k && e.column == c then Some(e.value) else Last(entries, k, c)
  {
    assert (entries + [e])[..|entries|] == entries;
  }

  /** No two positions of `s` hold the same element. */
  ghost predicate NoDuplicates<K>(s: seq<K>) {
    forall i, j :: 0 <= i < j < |s| ==> s[i] != s[j]
  }

  /**
   * Buckets the entries: `m[k]` maps each column to the value of the last entry for
   * `(k, column)`, and `order` lists every key of `m` exactly once (in no specified order).
   */
  method Group<K(==), C(==), V>(entries: seq<Entry<K, C, V>>) returns (m: map<K, map<C, V>>, order: seq<K>)
    ensures m.Keys == Keys(entries)
    ensures forall k :: k in order <==> k in m
    ensures NoDuplicates(order)
    ensures forall k, c :: k in m ==> Get(m[k], c) == Last(entries, k, c)
  {
    m, order := map[], [];
    var i := 0;
    while i < |entries|
      invariant 0 <= i <= |entries|
      invariant m.Keys == Keys(entries[..i])
      invariant forall k :: k in order <==> k in m
      invariant NoDuplicates(order)
      invariant forall k, c :: k in m ==> Get(m[k], c) == Last(entries[..i], k, c)
    {
      var e := entries[i];
      assert entries[..i + 1] == entries[..i] + [e];
      if e.key !in m {
        m := m[e.key := map[]];
        order := order + [e.key];
      }
      m := m[e.key := m[e.key][e.column := e.value]];
      forall k, c | k in m ensures Get(m[k], c) == Last(entries[..i + 1], k, c) {
        LastOfAppend(entries[..i], e, k, c);
      }
      i := i + 1;
    }
    assert entries[..i] == entries;
  }
}
