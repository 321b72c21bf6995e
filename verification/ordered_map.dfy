/** PHP's ordered associative arrays, restricted to the operations Map.php
    performs on them: `$a[$k] = $v` (overwrite in place when the key exists,
    append otherwise) and a `foreach` that copies one array into another. */
module OrderedMap {
  import opened Wrappers

  /** No key occurs twice: the defining property of a PHP array. */
  predicate DistinctKeys<K(==), V>(m: seq<(K, V)>) {
    forall i, j :: 0 <= i < j < |m| ==> m[i].0 != m[j].0
  }

  type OMap<K(==), V> = m: seq<(K, V)> | DistinctKeys(m) witness []

  /** The keys in iteration order. */
  function Keys<K, V>(m: seq<(K, V)>): (ks: seq<K>)
    ensures |ks| == |m|
    ensures forall i :: 0 <= i < |m| ==> ks[i] == m[i].0
  {
    if m == [] then [] else [m[0].0] + Keys(m[1..])
  }

  /** `$a[$k] ?? null`: the value stored under `k`, if any. */
  function Lookup<K(==), V>(m: seq<(K, V)>, k: K): (r: Option<V>)
  {
    if m == [] then None
    else if m[0].0 == k then Some(m[0].1)
    else Lookup(m[1..], k)
  }

  /** Lookup finds the entry stored at every position. */
  lemma {:induction false} LookupAt<K, V>(m: OMap<K, V>, i: nat)
    requires i < |m|
    ensures Lookup(m, m[i].0) == Some(m[i].1)
  {
    if i > 0 {
      assert m[0].0 != m[i].0;
      var tail: OMap<K, V> := m[1..];
      LookupAt(tail, i - 1);
    }
  }

  lemma KeysAppend<K, V>(a: seq<(K, V)>, b: seq<(K, V)>)
    ensures Keys(a + b) == Keys(a) + Keys(b)
  {
  }

  /** Looking up in a concatenation looks in the first part first. */
  lemma {:induction false} LookupAppend<K, V>(a: seq<(K, V)>, b: seq<(K, V)>, k: K)
    ensures Lookup(a + b, k) == if k in Keys(a) then Lookup(a, k) else Lookup(b, k)
    decreases |a|
  {
    if a != [] {
      assert (a + b)[0] == a[0];
      assert (a + b)[1..] == a[1..] + b;
      LookupAppend(a[1..], b, k);
      assert Keys(a) == [a[0].0] + Keys(a[1..]);
      assert k in Keys(a) <==> k == a[0].0 || k in Keys(a[1..]);
    } else {
      assert a + b == b;
    }
  }

  /** Two maps with disjoint keys concatenate to a map. */
  lemma AppendDistinct<K, V>(a: seq<(K, V)>, b: seq<(K, V)>)
    requires DistinctKeys(a) && DistinctKeys(b)
    requires forall k :: k in Keys(a) ==> k !in Keys(b)
    ensures DistinctKeys(a + b)
  {
    var r := a + b;
    forall i, j | 0 <= i < j < |r| ensures r[i].0 != r[j].0 {
      if j < |a| {
        assert r[i] == a[i] && r[j] == a[j];
      } else if i >= |a| {
        assert r[i] == b[i - |a|] && r[j] == b[j - |a|];
      } else {
        assert Keys(a)[i] == r[i].0;
        assert Keys(b)[j - |a|] == r[j].0;
        assert r[i].0 in Keys(a);
      }
    }
  }

  lemma ConsDistinct<K, V>(x: (K, V), t: seq<(K, V)>)
    requires DistinctKeys(t) && x.0 !in Keys(t)
    ensures DistinctKeys([x] + t)
    ensures Keys([x] + t) == [x.0] + Keys(t)
  {
    var r := [x] + t;
    forall i, j | 0 <= i < j < |r| ensures r[i].0 != r[j].0 {
      if i == 0 {
        assert r[j].0 == Keys(t)[j - 1];
      }
    }
  }

  lemma LookupCons<K, V>(x: (K, V), t: seq<(K, V)>, k: K)
    ensures Lookup([x] + t, k) == if x.0 == k then Some(x.1) else Lookup(t, k)
  {
    assert ([x] + t)[1..] == t;
  }

  /** Two maps that agree off `k` still agree off `k` after a common entry is
      put in front of both. */
  lemma LookupConsAgree<K, V>(x: (K, V), t: seq<(K, V)>, t': seq<(K, V)>, k: K)
    requires forall k' :: k' != k ==> Lookup(t', k') == Lookup(t, k')
    ensures forall k' :: k' != k ==> Lookup([x] + t', k') == Lookup([x] + t, k')
  {
    forall k' | k' != k ensures Lookup([x] + t', k') == Lookup([x] + t, k') {
      LookupCons(x, t, k');
      LookupCons(x, t', k');
    }
  }

  /** Replacing the value of the first entry changes nothing else. */
  lemma LookupHead<K, V>(x: (K, V), v: V, t: seq<(K, V)>)
    ensures Lookup([(x.0, v)] + t, x.0) == Some(v)
    ensures forall k' :: k' != x.0 ==> Lookup([(x.0, v)] + t, k') == Lookup([x] + t, k')
  {
    LookupCons((x.0, v), t, x.0);
    forall k' | k' != x.0 ensures Lookup([(x.0, v)] + t, k') == Lookup([x] + t, k') {
      LookupCons((x.0, v), t, k');
      LookupCons(x, t, k');
    }
  }

  /** `$a[$k] = $v` */
  function Put<K(==,!new), V>(m: OMap<K, V>, k: K, v: V): (r: OMap<K, V>)
    ensures Lookup(r, k) == Some(v)
    ensures forall k' :: k' != k ==> Lookup(r, k') == Lookup(m, k')
    ensures k in Keys(m) ==> Keys(r) == Keys(m)
    ensures k !in Keys(m) ==> Keys(r) == Keys(m) + [k]
    decreases |m|
  {
    if m == [] then [(k, v)]
    else
      var tail: OMap<K, V> := m[1..];
      assert m == [m[0]] + tail;
      ConsDistinct(m[0], tail);
      if m[0].0 == k then
        ConsDistinct((k, v), tail);
        LookupHead(m[0], v, tail);
        [(k, v)] + tail
      else
        var t := Put(tail, k, v);
        ConsDistinct(m[0], t);
        LookupCons(m[0], t, k);
        LookupConsAgree(m[0], tail, t, k);
        [m[0]] + t
  }

  /** `foreach ($n as $k => $v) { $m[$k] = $v; }`: every key of `n` ends up
      holding its value from `n` (the last write wins), every other key keeps
      its value from `m`, and the keys of `m` keep their order at the front. */
  function PutAll<K(==,!new), V>(m: OMap<K, V>, n: OMap<K, V>): (r: OMap<K, V>)
    ensures forall k :: Lookup(r, k) == if k in Keys(n) then Lookup(n, k) else Lookup(m, k)
    ensures |Keys(m)| <= |Keys(r)| && Keys(r)[..|Keys(m)|] == Keys(m)
    decreases |n|
  {
    if n == [] then m
    else
      var tail: OMap<K, V> := n[1..];
      assert n == [n[0]] + tail;
      ConsDistinct(n[0], tail);
      var m1 := Put(m, n[0].0, n[0].1);
      var r := PutAll(m1, tail);
      forall k ensures Lookup(r, k) == if k in Keys(n) then Lookup(n, k) else Lookup(m, k) {
        LookupCons(n[0], tail, k);
      }
      assert Keys(m1)[..|Keys(m)|] == Keys(m);
      assert Keys(r)[..|Keys(m1)|] == Keys(m1);
      r
  }

  /** `ks` followed by every element of `xs` not seen before, in the order of
      its first occurrence in `xs`: the key order an array gets when the
      keys `xs` are written into an array whose keys are `ks`. */
  function AppendNew<K(==)>(ks: seq<K>, xs: seq<K>): seq<K>
    decreases |xs|
  {
    if xs == [] then ks
    else AppendNew(if xs[0] in ks then ks else ks + [xs[0]], xs[1..])
  }

  /** After the copy loop the keys of `m` come first, in their order, and
      the keys new to `m` follow in the order `n` lists them. */
  lemma {:induction false} PutAllKeys<K(!new), V>(m: OMap<K, V>, n: OMap<K, V>)
    ensures Keys(PutAll(m, n)) == AppendNew(Keys(m), Keys(n))
    decreases |n|
  {
    if n != [] {
      var tail: OMap<K, V> := n[1..];
      var m1 := Put(m, n[0].0, n[0].1);
      PutAllKeys(m1, tail);
      assert Keys(n)[1..] == Keys(tail);
    }
  }
}
