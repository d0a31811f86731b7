/**
  Insertion-ordered maps from names to descriptors, as java.util.LinkedHashMap
  keeps them: a sequence of entries whose keys are pairwise distinct, iterated
  in the order the keys were first inserted.
 */
module OrderedMaps {
  import opened Wrappers

  type OrderedMap<V> = seq<(string, V)>

  /** The keys in iteration order (keySet() of a LinkedHashMap). */
  function Keys<V>(m: OrderedMap<V>): seq<string>
  {
    seq(|m|, i requires 0 <= i < |m| => m[i].0)
  }

  /** The values in iteration order (values() of a LinkedHashMap). */
  function Values<V>(m: OrderedMap<V>): seq<V>
  {
    seq(|m|, i requires 0 <= i < |m| => m[i].1)
  }

  /** A map never holds one key twice. */
  predicate DistinctKeys<V>(m: OrderedMap<V>) {
    forall i, j :: 0 <= i < j < |m| ==> m[i].0 != m[j].0
  }

  /** The position of the entry for k, or |m| when k is absent. */
  function IndexOf<V>(m: OrderedMap<V>, k: string): (i: nat)
    ensures i <= |m|
    ensures i < |m| ==> m[i].0 == k
    ensures forall j :: 0 <= j < i ==> m[j].0 != k
  {
    if |m| == 0 then 0
    else if m[0].0 == k then 0
    else 1 + IndexOf(m[1..], k)
  }

  /** The contract of IndexOf determines it. */
  lemma {:induction false} IndexOfIs<V>(m: OrderedMap<V>, k: string, i: nat)
    requires i <= |m| && (i < |m| ==> m[i].0 == k)
    requires forall j :: 0 <= j < i ==> m[j].0 != k
    ensures IndexOf(m, k) == i
  {
    if |m| > 0 && m[0].0 != k {
      IndexOfIs(m[1..], k, i - 1);
    }
  }

  /** containsKey(k). */
  predicate HasKey<V>(m: OrderedMap<V>, k: string) {
    IndexOf(m, k) < |m|
  }

  /** get(k): the value stored under k, None where Java returns null. */
  function Get<V>(m: OrderedMap<V>, k: string): Option<V>
  {
    var i := IndexOf(m, k);
    if i < |m| then Some(m[i].1) else None
  }

  /** putIfAbsent(k, v): the previous value under k is returned (None for
      Java's null); only when there was none is (k, v) added, at the end. */
  function PutIfAbsent<V>(m: OrderedMap<V>, k: string, v: V): (r: (OrderedMap<V>, Option<V>))
    requires DistinctKeys(m)
    ensures r.1 == Get(m, k)
    ensures r.1.Some? ==> r.0 == m
    ensures r.1.None? ==> r.0 == m + [(k, v)]
    ensures DistinctKeys(r.0)
    ensures Get(r.0, k) == if r.1.Some? then r.1 else Some(v)
    ensures forall k' :: k' != k ==> Get(r.0, k') == Get(m, k')
  {
    var previous := Get(m, k);
    if previous.Some? then (m, previous)
    else
      GetAppend(m, k, v);
      (m + [(k, v)], previous)
  }

  lemma {:induction false} IndexOfAppend<V>(m: OrderedMap<V>, e: (string, V), k: string)
    ensures IndexOf(m + [e], k) ==
      if HasKey(m, k) then IndexOf(m, k) else if e.0 == k then |m| else |m| + 1
  {
    if |m| > 0 && m[0].0 != k {
      assert (m + [e])[1..] == m[1..] + [e];
      IndexOfAppend(m[1..], e, k);
    }
  }

  lemma GetAppend<V>(m: OrderedMap<V>, k: string, v: V)
    requires !HasKey(m, k)
    ensures IndexOf(m + [(k, v)], k) == |m| && Get(m + [(k, v)], k) == Some(v)
    ensures forall k' :: k' != k ==> Get(m + [(k, v)], k') == Get(m, k')
  {
    IndexOfAppend(m, (k, v), k);
    forall k' | k' != k ensures Get(m + [(k, v)], k') == Get(m, k') {
      IndexOfAppend(m, (k, v), k');
    }
  }

  /** put(k, v): a present key keeps its position and takes the new value, a
      new key is added at the end. */
  function Put<V>(m: OrderedMap<V>, k: string, v: V): (r: OrderedMap<V>)
  {
    var i := IndexOf(m, k);
    if i == |m| then m + [(k, v)] else m[i := (k, v)]
  }

  /** After put(k, v) the map holds the same keys in the same order (plus k at
      the end when it was new), k maps to v, and every other key keeps its
      value: the last registration under a name wins, and put never refuses
      a name. */
  lemma PutSemantics<V>(m: OrderedMap<V>, k: string, v: V)
    requires DistinctKeys(m)
    ensures DistinctKeys(Put(m, k, v))
    ensures Keys(Put(m, k, v)) == if HasKey(m, k) then Keys(m) else Keys(m) + [k]
    ensures Get(Put(m, k, v), k) == Some(v)
    ensures forall k' :: k' != k ==> Get(Put(m, k, v), k') == Get(m, k')
  {
    var r := Put(m, k, v);
    var i := IndexOf(m, k);
    if i == |m| {
      GetAppend(m, k, v);
    } else {
      IndexOfIs(r, k, i);
      forall k' | k' != k ensures Get(r, k') == Get(m, k') {
        IndexOfIs(r, k', IndexOf(m, k'));
      }
    }
  }

  /** A second put of the same key erases every trace of the first. */
  lemma PutPut<V>(m: OrderedMap<V>, k: string, v1: V, v2: V)
    ensures Put(Put(m, k, v1), k, v2) == Put(m, k, v2)
  {
    var i := IndexOf(m, k);
    var r := Put(m, k, v1);
    IndexOfIs(r, k, i);
  }
}
