/** Insertion-ordered dictionaries as lists of entries: a write to a present key keeps its place. */
module OrderedMap {
  import opened Wrappers

  function Put<K(==), V>(m: seq<(K, V)>, k: K, v: V): seq<(K, V)> {
    if m == [] then [(k, v)]
    else if m[0].0 == k then [(k, v)] + m[1..]
    else [m[0]] + Put(m[1..], k, v)
  }

  function Get<K(==), V>(m: seq<(K, V)>, k: K): Option<V> {
    if m == [] then None
    else if m[0].0 == k then Some(m[0].1)
    else Get(m[1..], k)
  }

  function Keys<K, V>(m: seq<(K, V)>): (ks: seq<K>)
    ensures |ks| == |m|
    ensures forall i :: 0 <= i < |m| ==> ks[i] == m[i].0
  {
    if m == [] then [] else [m[0].0] + Keys(m[1..])
  }

  predicate Has<K(==), V>(m: seq<(K, V)>, k: K) {
    Get(m, k).Some?
  }

  /** First occurrences only. */
  function Uniq<K(==,!new)>(ks: seq<K>): (r: seq<K>)
    ensures forall k :: k in r <==> k in ks
    ensures forall i, j :: 0 <= i < j < |r| ==> r[i] != r[j]
  {
    if ks == [] then []
    else
      var k := ks[|ks| - 1];
      assert ks == ks[..|ks| - 1] + [k];
      var r := Uniq(ks[..|ks| - 1]);
      if k in r then r else r + [k]
  }

  /** A key stands where it occurs first: before whatever first occurs later. */
  lemma {:induction false} UniqInOrder<K(!new)>(ks: seq<K>, i: nat, j: nat)
    requires i < j < |ks| && (forall m :: 0 <= m < i ==> ks[m] != ks[i]) && forall m :: 0 <= m < j ==> ks[m] != ks[j]
    ensures exists a, b :: 0 <= a < b < |Uniq(ks)| && Uniq(ks)[a] == ks[i] && Uniq(ks)[b] == ks[j]
  {
    var front := ks[..|ks| - 1];
    assert ks == front + [ks[|front|]];
    if j < |front| {
      UniqInOrder(front, i, j);
      var a, b :| 0 <= a < b < |Uniq(front)| && Uniq(front)[a] == ks[i] && Uniq(front)[b] == ks[j];
      assert Uniq(ks)[a] == ks[i] && Uniq(ks)[b] == ks[j];
    } else {
      assert ks[j] !in front && front[i] in Uniq(front);
      var a :| 0 <= a < |Uniq(front)| && Uniq(front)[a] == ks[i];
      assert Uniq(ks)[a] == ks[i] && Uniq(ks)[|Uniq(front)|] == ks[j];
    }
  }

  predicate Distinct<K(==)>(ks: seq<K>) {
    forall i, j :: 0 <= i < j < |ks| ==> ks[i] != ks[j]
  }

  lemma {:induction false} HasKey<K, V>(m: seq<(K, V)>, k: K)
    ensures Has(m, k) <==> k in Keys(m)
  {
    if m != [] {
      HasKey(m[1..], k);
      assert Keys(m) == [m[0].0] + Keys(m[1..]);
    }
  }

  lemma {:induction false} GetPut<K, V>(m: seq<(K, V)>, k: K, v: V, x: K)
    ensures Get(Put(m, k, v), x) == if x == k then Some(v) else Get(m, x)
  {
    if m != [] && m[0].0 != k {
      GetPut(m[1..], k, v, x);
      assert Put(m, k, v)[1..] == Put(m[1..], k, v);
    } else if m != [] {
      assert Put(m, k, v)[1..] == m[1..];
    }
  }

  lemma {:induction false} KeysPut<K, V>(m: seq<(K, V)>, k: K, v: V)
    ensures Keys(Put(m, k, v)) == if k in Keys(m) then Keys(m) else Keys(m) + [k]
  {
    if m != [] && m[0].0 != k {
      KeysPut(m[1..], k, v);
      assert Keys(m) == [m[0].0] + Keys(m[1..]);
      assert Keys(Put(m, k, v)) == [m[0].0] + Keys(Put(m[1..], k, v));
    }
  }

  lemma {:induction false} PutMembers<K, V>(m: seq<(K, V)>, k: K, v: V)
    ensures (k, v) in Put(m, k, v)
    ensures forall e :: e in Put(m, k, v) ==> e == (k, v) || e in m
    ensures forall e :: e in m && e.0 != k ==> e in Put(m, k, v)
  {
    if m != [] && m[0].0 != k {
      PutMembers(m[1..], k, v);
      assert m == [m[0]] + m[1..];
      assert Put(m, k, v)[1..] == Put(m[1..], k, v);
    }
  }

  /** Writing a key adds it as a first occurrence, or not at all. */
  lemma UniqPut<K(!new), V>(m: seq<(K, V)>, ks: seq<K>, k: K, v: V)
    requires Keys(m) == Uniq(ks)
    ensures Keys(Put(m, k, v)) == Uniq(ks + [k])
  {
    KeysPut(m, k, v);
    assert (ks + [k])[..|ks|] == ks;
  }

  lemma {:induction false} GetAt<K, V>(m: seq<(K, V)>, i: nat)
    requires Distinct(Keys(m)) && i < |m|
    ensures Get(m, m[i].0) == Some(m[i].1)
  {
    if i > 0 {
      assert Keys(m)[0] != Keys(m)[i];
      assert Keys(m[1..]) == Keys(m)[1..];
      GetAt(m[1..], i - 1);
    }
  }

  /** A dictionary is its keys in order and its values. */
  lemma SameEntries<K(!new), V>(a: seq<(K, V)>, b: seq<(K, V)>)
    requires Keys(a) == Keys(b) && Distinct(Keys(a))
    requires forall k :: Get(a, k) == Get(b, k)
    ensures a == b
  {
    forall i | 0 <= i < |a| ensures a[i] == b[i] {
      GetAt(a, i);
      GetAt(b, i);
      assert Keys(a)[i] == Keys(b)[i];
    }
  }

  lemma UniqIdle<K(!new)>(ks: seq<K>, k: K)
    requires k in ks
    ensures Uniq(ks + [k]) == Uniq(ks)
  {
  }

  /** Writing a key only when it is missing. */
  function PutMissing<K(==), V>(m: seq<(K, V)>, k: K, v: V): seq<(K, V)> {
    if Has(m, k) then m else Put(m, k, v)
  }

  lemma PutMissingKeys<K(!new), V>(m: seq<(K, V)>, ks: seq<K>, k: K, v: V)
    requires Keys(m) == Uniq(ks)
    ensures Keys(PutMissing(m, k, v)) == Uniq(ks + [k])
  {
    HasKey(m, k);
    if Has(m, k) {
      UniqIdle(ks, k);
    } else {
      UniqPut(m, ks, k, v);
    }
  }

  lemma PutMissingGet<K, V>(m: seq<(K, V)>, k: K, v: V, x: K)
    ensures Get(PutMissing(m, k, v), x) == if x == k && !Has(m, k) then Some(v) else Get(m, x)
  {
    GetPut(m, k, v, x);
  }

  lemma {:induction false} HasIndex<K, V>(m: seq<(K, V)>, k: K) returns (i: nat)
    requires Has(m, k)
    ensures i < |m| && m[i].0 == k && Get(m, k) == Some(m[i].1)
  {
    if m[0].0 == k {
      i := 0;
    } else {
      i := HasIndex(m[1..], k);
      i := i + 1;
    }
  }
}
