/** The least-recently-used map the stores are built on, by contract: a sequence of distinct keys,
    least recent first. `Push` hands back the pair it replaced, as well as one evicted for capacity. */
module Lru {
  import opened Base

  datatype Pair<V> = Pair(key: string, value: V)

  function Find<V>(l: seq<Pair<V>>, k: string): Option<V> {
    if l == [] then None else if l[0].key == k then Some(l[0].value) else Find(l[1..], k)
  }

  function Without<V>(l: seq<Pair<V>>, k: string): seq<Pair<V>> {
    if l == [] then [] else if l[0].key == k then Without(l[1..], k) else [l[0]] + Without(l[1..], k)
  }

  /** Set the value under `k` and make it the most recent. */
  function Store<V>(l: seq<Pair<V>>, k: string, v: V): seq<Pair<V>> {
    Without(l, k) + [Pair(k, v)]
  }

  /** Room for one more key: the least recent pair goes when the map is full. */
  function MakeRoom<V>(l: seq<Pair<V>>, capacity: nat, k: string): seq<Pair<V>> {
    if Find(l, k).None? && |l| >= capacity && l != [] then l[1..] else l
  }

  function Push<V>(l: seq<Pair<V>>, capacity: nat, k: string, v: V): seq<Pair<V>> {
    Store(MakeRoom(l, capacity, k), k, v)
  }

  /** What `Push` hands back. */
  function PushedOut<V>(l: seq<Pair<V>>, capacity: nat, k: string): Option<V> {
    if Find(l, k).Some? then Find(l, k)
    else if |l| >= capacity && l != [] then Some(l[0].value)
    else None
  }

  /** No key occurs twice. */
  predicate Distinct<V>(l: seq<Pair<V>>) {
    l == [] || (Find(l[1..], l[0].key).None? && Distinct(l[1..]))
  }

  lemma {:induction false} FindAppend<V>(l: seq<Pair<V>>, m: seq<Pair<V>>, k: string)
    ensures Find(l + m, k) == if Find(l, k).Some? then Find(l, k) else Find(m, k)
  {
    if l == [] {
      assert l + m == m;
    } else {
      assert (l + m)[1..] == l[1..] + m;
      FindAppend(l[1..], m, k);
    }
  }

  lemma {:induction false} FindWithout<V>(l: seq<Pair<V>>, k: string, other: string)
    ensures Find(Without(l, k), other) == if other == k then None else Find(l, other)
  {
    if l != [] {
      FindWithout(l[1..], k, other);
      if l[0].key != k { assert Without(l, k)[1..] == Without(l[1..], k); }
    }
  }

  lemma {:induction false} WithoutProps<V>(l: seq<Pair<V>>, k: string)
    requires Distinct(l)
    ensures Distinct(Without(l, k))
    ensures |Without(l, k)| == if Find(l, k).Some? then |l| - 1 else |l|
  {
    if l != [] {
      WithoutProps(l[1..], k);
      FindWithout(l[1..], k, l[0].key);
      if l[0].key != k { assert Without(l, k)[1..] == Without(l[1..], k); }
    }
  }

  lemma {:induction false} DistinctSnoc<V>(l: seq<Pair<V>>, p: Pair<V>)
    requires Distinct(l) && Find(l, p.key).None?
    ensures Distinct(l + [p])
  {
    if l != [] {
      assert (l + [p])[1..] == l[1..] + [p];
      DistinctSnoc(l[1..], p);
      FindAppend(l[1..], [p], l[0].key);
    }
  }

  lemma FindStore<V>(l: seq<Pair<V>>, k: string, v: V, other: string)
    ensures Find(Store(l, k, v), other) == if other == k then Some(v) else Find(l, other)
  {
    FindWithout(l, k, other);
    FindAppend(Without(l, k), [Pair(k, v)], other);
  }

  lemma StoreProps<V>(l: seq<Pair<V>>, k: string, v: V)
    requires Distinct(l)
    ensures Distinct(Store(l, k, v))
    ensures |Store(l, k, v)| == if Find(l, k).Some? then |l| else |l| + 1
  {
    WithoutProps(l, k);
    FindWithout(l, k, k);
    DistinctSnoc(Without(l, k), Pair(k, v));
  }

  /** The pushed value is found under its key; every other key keeps its value or is evicted. */
  lemma FindPush<V>(l: seq<Pair<V>>, capacity: nat, k: string, v: V, other: string)
    requires Distinct(l)
    ensures other == k ==> Find(Push(l, capacity, k, v), other) == Some(v)
    ensures other != k && Find(Push(l, capacity, k, v), other).Some?
            ==> Find(Push(l, capacity, k, v), other) == Find(l, other)
  {
    FindStore(MakeRoom(l, capacity, k), k, v, other);
  }

  lemma PushProps<V>(l: seq<Pair<V>>, capacity: nat, k: string, v: V)
    requires Distinct(l) && 0 < capacity && |l| <= capacity
    ensures Distinct(Push(l, capacity, k, v))
    ensures |Push(l, capacity, k, v)| <= capacity
  {
    StoreProps(MakeRoom(l, capacity, k), k, v);
  }
}
