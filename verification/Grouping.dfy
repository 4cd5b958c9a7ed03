/** Collecting values under keys, as setdefault and append do. */
module Grouping {
  import opened Wrappers
  import opened OrderedMap

  function ValuesAt<K(==), V>(m: seq<(K, seq<V>)>, k: K): seq<V> {
    if Has(m, k) then Get(m, k).value else []
  }

  function Grown<K(==), V>(m: seq<(K, seq<V>)>, k: K, v: V): seq<(K, seq<V>)> {
    Put(m, k, ValuesAt(m, k) + [v])
  }

  function Grouped<K(==), V>(items: seq<(K, V)>): seq<(K, seq<V>)> {
    if |items| == 0 then []
    else
      var (k, v) := items[|items| - 1];
      Grown(Grouped(items[..|items| - 1]), k, v)
  }

  /** The values of one key, in order. */
  function OfKey<K(==), V>(items: seq<(K, V)>, k: K): seq<V> {
    if |items| == 0 then []
    else OfKey(items[..|items| - 1], k) + if items[|items| - 1].0 == k then [items[|items| - 1].1] else []
  }

  function Found<V>(vs: seq<V>): Option<seq<V>> {
    if |vs| == 0 then None else Some(vs)
  }

  method Group<K(==), V>(items: seq<(K, V)>) returns (groups: seq<(K, seq<V>)>)
    ensures groups == Grouped(items)
  {
    groups := [];
    for i := 0 to |items|
      invariant groups == Grouped(items[..i])
    {
      assert items[..i + 1][..i] == items[..i];
      groups := Grown(groups, items[i].0, items[i].1);
    }
    assert items[..|items|] == items;
  }

  lemma GrownAt<K, V>(m: seq<(K, seq<V>)>, k: K, v: V, x: K)
    ensures Get(Grown(m, k, v), x) == if x == k then Some(ValuesAt(m, k) + [v]) else Get(m, x)
  {
    GetPut(m, k, ValuesAt(m, k) + [v], x);
  }

  /** Grouping loses nothing and keeps the order. */
  lemma {:induction false} GroupedAt<K, V>(items: seq<(K, V)>, k: K)
    ensures Get(Grouped(items), k) == Found(OfKey(items, k))
  {
    if |items| == 0 {
      EmptyAt<K, V>(items, k);
    } else {
      var (front, last) := (items[..|items| - 1], items[|items| - 1]);
      GroupedAt(front, k);
      GroupedAt(front, last.0);
      GrownAt(Grouped(front), last.0, last.1, k);
      hide Get;
      assert ValuesAt(Grouped(front), last.0) == OfKey(front, last.0);
      assert Grouped(items) == Grown(Grouped(front), last.0, last.1);
      if last.0 == k {
        assert OfKey(items, k) == OfKey(front, k) + [last.1];
      } else {
        assert OfKey(items, k) == OfKey(front, k);
      }
    }
  }

  lemma EmptyAt<K, V>(items: seq<(K, V)>, k: K)
    requires |items| == 0
    ensures Get(Grouped(items), k) == None
  {
  }

  lemma {:induction false} GroupedDistinct<K, V>(items: seq<(K, V)>)
    ensures Distinct(Keys(Grouped(items)))
  {
    if |items| > 0 {
      var (front, last) := (items[..|items| - 1], items[|items| - 1]);
      GroupedDistinct(front);
      KeysPut(Grouped(front), last.0, ValuesAt(Grouped(front), last.0) + [last.1]);
    }
  }

  lemma {:induction false} OfKeyJoin<K, V>(a: seq<(K, V)>, b: seq<(K, V)>, k: K)
    ensures OfKey(a + b, k) == OfKey(a, k) + OfKey(b, k)
  {
    if |b| == 0 {
      assert a + b == a;
    } else {
      assert (a + b)[..|a + b| - 1] == a + b[..|b| - 1];
      OfKeyJoin(a, b[..|b| - 1], k);
    }
  }

  lemma {:induction false} OfKeyMember<K, V>(items: seq<(K, V)>, k: K, v: V)
    ensures v in OfKey(items, k) <==> (k, v) in items
  {
    if |items| > 0 {
      var (front, last) := (items[..|items| - 1], items[|items| - 1]);
      OfKeyMember(front, k, v);
      assert items == front + [last];
      assert v in OfKey(items, k) <==> v in OfKey(front, k) || (last.0 == k && last.1 == v);
    }
  }

  /** Merging groups into groups. */
  function Extended<K(==), V>(m: seq<(K, seq<V>)>, es: seq<(K, seq<V>)>): seq<(K, seq<V>)> {
    if |es| == 0 then m
    else
      var (before, (k, vs)) := (Extended(m, es[..|es| - 1]), es[|es| - 1]);
      Put(before, k, ValuesAt(before, k) + vs)
  }

  method Extend<K(==), V>(m: seq<(K, seq<V>)>, es: seq<(K, seq<V>)>) returns (m': seq<(K, seq<V>)>)
    ensures m' == Extended(m, es)
  {
    m' := m;
    for i := 0 to |es|
      invariant m' == Extended(m, es[..i])
    {
      assert es[..i + 1][..i] == es[..i];
      m' := Put(m', es[i].0, ValuesAt(m', es[i].0) + es[i].1);
    }
    assert es[..|es|] == es;
  }

  lemma {:induction false} ExtendedAt<K, V>(m: seq<(K, seq<V>)>, es: seq<(K, seq<V>)>, k: K)
    requires Distinct(Keys(es))
    ensures Get(Extended(m, es), k) == if Has(es, k) then Some(ValuesAt(m, k) + Get(es, k).value) else Get(m, k)
  {
    if |es| > 0 {
      var (front, last) := (es[..|es| - 1], es[|es| - 1]);
      assert Distinct(Keys(front)) by {
        assert forall i :: 0 <= i < |front| ==> Keys(front)[i] == Keys(es)[i];
      }
      ExtendedAt(m, front, k);
      ExtendedAt(m, front, last.0);
      var before := Extended(m, front);
      GetPut(before, last.0, ValuesAt(before, last.0) + last.1, k);
      LastIsNew(es);
      GetSnoc(front, last, k);
      assert es == front + [last];
      hide Get, Put;
    }
  }

  lemma LastDiffers<K, V>(es: seq<(K, V)>, i: nat)
    requires i + 1 < |es| && Distinct(Keys(es))
    ensures es[i].0 != es[|es| - 1].0
  {
  }

  lemma LastIsNew<K, V>(es: seq<(K, V)>)
    requires |es| > 0 && Distinct(Keys(es))
    ensures !Has(es[..|es| - 1], es[|es| - 1].0)
  {
    hide Keys, Get, Distinct;
    var (front, k) := (es[..|es| - 1], es[|es| - 1].0);
    forall i | 0 <= i < |front| ensures front[i].0 != k {
      LastDiffers(es, i);
    }
    Absent(front, k);
  }

  lemma {:induction false} Absent<K, V>(m: seq<(K, V)>, k: K)
    requires forall i :: 0 <= i < |m| ==> m[i].0 != k
    ensures !Has(m, k)
  {
    if |m| > 0 {
      Absent(m[1..], k);
    }
  }

  lemma {:induction false} GetSnoc<K, V>(m: seq<(K, V)>, e: (K, V), k: K)
    ensures Get(m + [e], k) == if Has(m, k) then Get(m, k) else if e.0 == k then Some(e.1) else None
  {
    if |m| > 0 {
      assert (m + [e])[1..] == m[1..] + [e];
      GetSnoc(m[1..], e, k);
    }
  }
}
