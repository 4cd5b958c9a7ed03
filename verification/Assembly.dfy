/**
 Assembling the inputs of one prompt node from the four dictionaries collected for it.  Proved: one
 precedence (widget, primitive, default, link) for every name, no name lost, and one order for the
 keys: those the class declares and that carry a value, those it declares and that are linked, then
 the rest.
 */
module Assembly {
  import opened Wrappers
  import opened OrderedMap
  import opened Filters

  /** Input names to values. */
  type Inputs<K, V> = seq<(K, V)>

  /** The value a name gets. */
  function Chosen<K(==, !new), V>(w: Inputs<K, V>, p: Inputs<K, V>, d: Inputs<K, V>, l: Inputs<K, V>, k: K): Option<V> {
    if Has(w, k) then Get(w, k)
    else if Has(p, k) then Get(p, k)
    else if Has(d, k) then Get(d, k)
    else Get(l, k)
  }

  /** The declared names, in order, that are among the given ones. */
  function Among<K(==, !new)>(names: seq<K>, ks: seq<K>): (r: seq<K>)
    ensures forall k :: k in r <==> k in names && k in ks
  {
    if names == [] then []
    else
      var k := names[|names| - 1];
      assert names == names[..|names| - 1] + [k];
      Among(names[..|names| - 1], ks) + if k in ks then [k] else []
  }

  lemma {:induction false} AmongIsKept<K(!new)>(names: seq<K>, ks: seq<K>)
    ensures Among(names, ks) == Kept(names, (k: K) => k !in ks)
  {
    if names != [] {
      AmongIsKept(names[..|names| - 1], ks);
    }
  }

  /** They keep the order they are declared in. */
  lemma AmongInOrder<K(!new)>(names: seq<K>, ks: seq<K>) returns (at: seq<nat>)
    ensures |at| == |Among(names, ks)| && forall k :: 0 <= k < |at| ==> at[k] < |names| && Among(names, ks)[k] == names[at[k]]
    ensures forall j, k :: 0 <= j < k < |at| ==> at[j] < at[k]
    ensures forall i :: 0 <= i < |names| ==> (i in at <==> names[i] in ks)
  {
    hide Among, Kept;
    AmongIsKept(names, ks);
    at := KeptInOrder(names, (k: K) => k !in ks);
  }

  /** The order of the keys. */
  function KeyOrder<K(==, !new), V>(names: seq<K>, w: Inputs<K, V>, p: Inputs<K, V>, d: Inputs<K, V>, l: Inputs<K, V>): seq<K> {
    Uniq(Among(names, Keys(w) + Keys(p) + Keys(d)) + Among(names, Keys(l)) + Keys(w) + Keys(p) + Keys(d) + Keys(l))
  }

  lemma ChosenSome<K(!new), V>(w: Inputs<K, V>, p: Inputs<K, V>, d: Inputs<K, V>, k: K)
    ensures Chosen(w, p, d, [], k).Some? <==> k in Keys(w) + Keys(p) + Keys(d)
  {
    HasKey(w, k);
    HasKey(p, k);
    HasKey(d, k);
  }

  /** A first pass: every declared name that has a value. */
  function Picked<K(==, !new), V>(names: seq<K>, w: Inputs<K, V>, p: Inputs<K, V>, d: Inputs<K, V>): Inputs<K, V> {
    if names == [] then []
    else
      var (before, name) := (Picked(names[..|names| - 1], w, p, d), names[|names| - 1]);
      match Chosen(w, p, d, [], name)
      case Some(v) => Put(before, name, v)
      case None => before
  }

  /** Entries added in order, each only where its key is missing. */
  function Added<K(==), V>(out: Inputs<K, V>, src: Inputs<K, V>): Inputs<K, V> {
    if src == [] then out
    else
      var (k, v) := src[|src| - 1];
      PutMissing(Added(out, src[..|src| - 1]), k, v)
  }

  /** The linked inputs of the declared names. */
  function Declared<K(==), V>(names: seq<K>, l: Inputs<K, V>): Inputs<K, V> {
    if names == [] then []
    else
      var (before, name) := (Declared(names[..|names| - 1], l), names[|names| - 1]);
      match Get(l, name)
      case Some(v) => before + [(name, v)]
      case None => before
  }

  lemma {:induction false} PickedKeys<K(!new), V>(names: seq<K>, w: Inputs<K, V>, p: Inputs<K, V>, d: Inputs<K, V>)
    ensures Keys(Picked(names, w, p, d)) == Uniq(Among(names, Keys(w) + Keys(p) + Keys(d)))
  {
    if names != [] {
      hide Put, Uniq, Keys, Get, Chosen;
      var (init, name) := (names[..|names| - 1], names[|names| - 1]);
      PickedKeys(init, w, p, d);
      ChosenSome(w, p, d, name);
      var (before, picked) := (Picked(init, w, p, d), Chosen(w, p, d, [], name));
      if picked.Some? {
        UniqPut(before, Among(init, Keys(w) + Keys(p) + Keys(d)), name, picked.value);
      } else {
        assert Among(names, Keys(w) + Keys(p) + Keys(d)) == Among(init, Keys(w) + Keys(p) + Keys(d));
      }
    }
  }

  lemma {:induction false} PickedGet<K(!new), V>(names: seq<K>, w: Inputs<K, V>, p: Inputs<K, V>, d: Inputs<K, V>, k: K)
    ensures Get(Picked(names, w, p, d), k) == if k in names then Chosen(w, p, d, [], k) else None
  {
    if names != [] {
      hide Put, Get, Chosen;
      var (init, name) := (names[..|names| - 1], names[|names| - 1]);
      assert names == init + [name];
      PickedGet(init, w, p, d, k);
      var picked := Chosen(w, p, d, [], name);
      if picked.Some? {
        GetPut(Picked(init, w, p, d), name, picked.value, k);
      }
    } else {
      assert Picked<K, V>(names, w, p, d) == [];
    }
  }

  lemma {:induction false} AddedKeys<K(!new), V>(out: Inputs<K, V>, ks: seq<K>, src: Inputs<K, V>)
    requires Keys(out) == Uniq(ks)
    ensures Keys(Added(out, src)) == Uniq(ks + Keys(src))
  {
    hide Uniq, Keys, PutMissing;
    if src == [] {
      assert ks + Keys(src) == ks;
    } else {
      var (init, (k, v)) := (src[..|src| - 1], src[|src| - 1]);
      assert ks + Keys(src) == ks + Keys(init) + [k];
      AddedKeys(out, ks, init);
      PutMissingKeys(Added(out, init), ks + Keys(init), k, v);
    }
  }

  lemma {:induction false} AddedGet<K, V>(out: Inputs<K, V>, src: Inputs<K, V>, k: K)
    ensures Get(Added(out, src), k) == if Has(out, k) then Get(out, k) else Get(src, k)
  {
    if src != [] {
      hide PutMissing, Get;
      var (init, (name, v)) := (src[..|src| - 1], src[|src| - 1]);
      AddedGet(out, init, k);
      PutMissingGet(Added(out, init), name, v, k);
      GetLast(src, k);
    }
  }

  lemma {:induction false} GetLast<K, V>(m: Inputs<K, V>, k: K)
    requires m != []
    ensures Get(m, k) == if Has(m[..|m| - 1], k) || k != m[|m| - 1].0 then Get(m[..|m| - 1], k) else Some(m[|m| - 1].1)
  {
    if |m| > 1 {
      GetLast(m[1..], k);
      assert m[1..][..|m| - 2] == m[..|m| - 1][1..];
    }
  }

  lemma {:induction false} DeclaredKeys<K(!new), V>(names: seq<K>, l: Inputs<K, V>)
    ensures Keys(Declared(names, l)) == Among(names, Keys(l))
  {
    if names != [] {
      DeclaredKeys(names[..|names| - 1], l);
      HasKey(l, names[|names| - 1]);
    }
  }

  lemma {:induction false} DeclaredGet<K, V>(names: seq<K>, l: Inputs<K, V>, k: K)
    ensures Get(Declared(names, l), k) == if k in names then Get(l, k) else None
  {
    if names != [] {
      var (init, name) := (names[..|names| - 1], names[|names| - 1]);
      assert names == init + [name];
      DeclaredGet(init, l, k);
      if Get(l, name).Some? {
        var m := Declared(names, l);
        assert m[..|m| - 1] == Declared(init, l);
        GetLast(m, k);
      }
    }
  }

  method PickValues<K(==, !new), V>(names: seq<K>, w: Inputs<K, V>, p: Inputs<K, V>, d: Inputs<K, V>) returns (out: Inputs<K, V>)
    ensures out == Picked(names, w, p, d)
  {
    out := [];
    for i := 0 to |names|
      invariant out == Picked(names[..i], w, p, d)
    {
      var name := names[i];
      assert names[..i + 1][..i] == names[..i];
      if Has(w, name) {
        out := Put(out, name, Get(w, name).value);
      } else if Has(p, name) {
        out := Put(out, name, Get(p, name).value);
      } else if Has(d, name) {
        out := Put(out, name, Get(d, name).value);
      }
    }
    assert names[..|names|] == names;
  }

  method PickLinks<K(==, !new), V>(names: seq<K>, l: Inputs<K, V>, out: Inputs<K, V>) returns (out': Inputs<K, V>)
    ensures out' == Added(out, Declared(names, l))
  {
    out' := out;
    for i := 0 to |names|
      invariant out' == Added(out, Declared(names[..i], l))
    {
      var name := names[i];
      assert names[..i + 1][..i] == names[..i];
      if Has(l, name) {
        ghost var before := Declared(names[..i], l);
        assert Declared(names[..i + 1], l) == before + [(name, Get(l, name).value)];
        assert (before + [(name, Get(l, name).value)])[..|before|] == before;
        out' := PutMissing(out', name, Get(l, name).value);
      }
    }
    assert names[..|names|] == names;
  }

  method AddMissing<K(==, !new), V>(src: Inputs<K, V>, out: Inputs<K, V>) returns (out': Inputs<K, V>)
    ensures out' == Added(out, src)
  {
    out' := out;
    for i := 0 to |src|
      invariant out' == Added(out, src[..i])
    {
      assert src[..i + 1][..i] == src[..i];
      out' := PutMissing(out', src[i].0, src[i].1);
    }
    assert src[..|src|] == src;
  }

  /** The assembled inputs: keys in KeyOrder, each with its Chosen value. */
  ghost predicate Assembled<K(!new), V>(names: seq<K>, w: Inputs<K, V>, p: Inputs<K, V>, d: Inputs<K, V>, l: Inputs<K, V>, out: Inputs<K, V>) {
    && Keys(out) == KeyOrder(names, w, p, d, l)
    && forall k :: Get(out, k) == Chosen(w, p, d, l, k)
  }

  /** Values, then links, of the declared names, then whatever is left of each dictionary. */
  function Composed<K(==, !new), V>(names: seq<K>, w: Inputs<K, V>, p: Inputs<K, V>, d: Inputs<K, V>, l: Inputs<K, V>): Inputs<K, V> {
    Added(Added(Added(Added(Added(Picked(names, w, p, d), Declared(names, l)), w), p), d), l)
  }

  method Assemble<K(==, !new), V>(names: seq<K>, w: Inputs<K, V>, p: Inputs<K, V>, d: Inputs<K, V>, l: Inputs<K, V>) returns (out: Inputs<K, V>)
    ensures Assembled(names, w, p, d, l, out) && out == Composed(names, w, p, d, l)
    ensures forall k :: Get(out, k) == if Has(w, k) then Get(w, k) else if Has(p, k) then Get(p, k) else if Has(d, k) then Get(d, k) else Get(l, k)
    ensures Keys(out) ==
            Uniq(Among(names, Keys(w) + Keys(p) + Keys(d)) + Among(names, Keys(l)) + Keys(w) + Keys(p) + Keys(d) + Keys(l))
  {
    ComposedIsAssembled(names, w, p, d, l);
    hide Assembled, Get, Keys, Uniq, Among;
    out := PickValues(names, w, p, d);
    out := PickLinks(names, l, out);
    out := AddMissing(w, out);
    out := AddMissing(p, out);
    out := AddMissing(d, out);
    out := AddMissing(l, out);
    AssembledMeans(names, w, p, d, l, out);
  }

  lemma AssembledMeans<K(!new), V>(names: seq<K>, w: Inputs<K, V>, p: Inputs<K, V>, d: Inputs<K, V>, l: Inputs<K, V>, out: Inputs<K, V>)
    requires Assembled(names, w, p, d, l, out)
    ensures forall k :: Get(out, k) == if Has(w, k) then Get(w, k) else if Has(p, k) then Get(p, k) else if Has(d, k) then Get(d, k) else Get(l, k)
    ensures Keys(out) ==
            Uniq(Among(names, Keys(w) + Keys(p) + Keys(d)) + Among(names, Keys(l)) + Keys(w) + Keys(p) + Keys(d) + Keys(l))
  {
  }

  /** The passes give one order and one precedence. */
  lemma ComposedIsAssembled<K(!new), V>(names: seq<K>, w: Inputs<K, V>, p: Inputs<K, V>, d: Inputs<K, V>, l: Inputs<K, V>)
    ensures Assembled(names, w, p, d, l, Composed(names, w, p, d, l))
  {
    ComposedKeys(names, w, p, d, l);
    forall k ensures Get(Composed(names, w, p, d, l), k) == Chosen(w, p, d, l, k) {
      ComposedGet(names, w, p, d, l, k);
    }
  }

  lemma ComposedKeys<K(!new), V>(names: seq<K>, w: Inputs<K, V>, p: Inputs<K, V>, d: Inputs<K, V>, l: Inputs<K, V>)
    ensures Keys(Composed(names, w, p, d, l)) == KeyOrder(names, w, p, d, l)
  {
    hide Uniq, Keys, Among, Picked, Declared, Added;
    var ks := Among(names, Keys(w) + Keys(p) + Keys(d));
    var out := Picked(names, w, p, d);
    PickedKeys(names, w, p, d);
    DeclaredKeys(names, l);
    AddedKeys(out, ks, Declared(names, l));
    out, ks := Added(out, Declared(names, l)), ks + Among(names, Keys(l));
    AddedKeys(out, ks, w);
    out, ks := Added(out, w), ks + Keys(w);
    AddedKeys(out, ks, p);
    out, ks := Added(out, p), ks + Keys(p);
    AddedKeys(out, ks, d);
    out, ks := Added(out, d), ks + Keys(d);
    AddedKeys(out, ks, l);
  }

  lemma ComposedGet<K(!new), V>(names: seq<K>, w: Inputs<K, V>, p: Inputs<K, V>, d: Inputs<K, V>, l: Inputs<K, V>, k: K)
    ensures Get(Composed(names, w, p, d, l), k) == Chosen(w, p, d, l, k)
  {
    assert Get<K, V>([], k) == None;
    hide Get, Picked, Declared, Added;
    var out := Picked(names, w, p, d);
    PickedGet(names, w, p, d, k);
    AddedGet(out, Declared(names, l), k);
    DeclaredGet(names, l, k);
    out := Added(out, Declared(names, l));
    AddedGet(out, w, k);
    out := Added(out, w);
    AddedGet(out, p, k);
    out := Added(out, p);
    AddedGet(out, d, k);
    AddedGet(Added(out, d), l, k);
  }

  /** Order and values determine the result. */
  lemma {:induction false} AssembledUnique<K(!new), V>(names: seq<K>, w: Inputs<K, V>, p: Inputs<K, V>, d: Inputs<K, V>, l: Inputs<K, V>, a: Inputs<K, V>, b: Inputs<K, V>)
    requires Assembled(names, w, p, d, l, a) && Assembled(names, w, p, d, l, b)
    ensures a == b
  {
    SameEntries(a, b);
  }

  /** No name is lost and none is made up. */
  lemma NoneLost<K(!new), V>(names: seq<K>, w: Inputs<K, V>, p: Inputs<K, V>, d: Inputs<K, V>, l: Inputs<K, V>, out: Inputs<K, V>, k: K)
    requires Assembled(names, w, p, d, l, out)
    ensures k in Keys(out) <==> k in Keys(w) || k in Keys(p) || k in Keys(d) || k in Keys(l)
  {
  }

  lemma {:induction false} UniqBefore<K(!new)>(ks: seq<K>, more: seq<K>, a: K, b: K)
    requires a in ks && b !in ks && b in more
    ensures exists i, j :: 0 <= i < j < |Uniq(ks + more)| && Uniq(ks + more)[i] == a && Uniq(ks + more)[j] == b
  {
    var n := |more| - 1;
    assert (ks + more)[..|ks + more| - 1] == ks + more[..n];
    assert more == more[..n] + [more[n]];
    if b in more[..n] {
      UniqBefore(ks, more[..n], a, b);
      var i, j :| 0 <= i < j < |Uniq(ks + more[..n])| && Uniq(ks + more[..n])[i] == a && Uniq(ks + more[..n])[j] == b;
      assert Uniq(ks + more)[i] == a && Uniq(ks + more)[j] == b;
    } else {
      var r := Uniq(ks + more[..n]);
      assert a in r && b !in r;
      var i :| 0 <= i < |r| && r[i] == a;
      assert Uniq(ks + more) == r + [b];
      assert Uniq(ks + more)[i] == a && Uniq(ks + more)[|r|] == b;
    }
  }

  /** Declared names with a value come before declared names that are only linked. */
  lemma ValuesBeforeLinks<K(!new), V>(names: seq<K>, w: Inputs<K, V>, p: Inputs<K, V>, d: Inputs<K, V>, l: Inputs<K, V>, out: Inputs<K, V>, a: K, b: K)
    requires Assembled(names, w, p, d, l, out)
    requires a in names && (Has(w, a) || Has(p, a) || Has(d, a))
    requires b in names && Has(l, b) && !Has(w, b) && !Has(p, b) && !Has(d, b)
    ensures exists i, j :: 0 <= i < j < |out| && out[i].0 == a && out[j].0 == b
  {
    var values, links := Among(names, Keys(w) + Keys(p) + Keys(d)), Among(names, Keys(l));
    HasKey(w, a);
    HasKey(p, a);
    HasKey(d, a);
    HasKey(w, b);
    HasKey(p, b);
    HasKey(d, b);
    HasKey(l, b);
    hide Among, Keys, Get, Uniq;
    var rest := links + Keys(w) + Keys(p) + Keys(d) + Keys(l);
    assert values + rest == values + links + Keys(w) + Keys(p) + Keys(d) + Keys(l);
    UniqBefore(values, rest, a, b);
    var i, j :| 0 <= i < j < |Uniq(values + rest)| && Uniq(values + rest)[i] == a && Uniq(values + rest)[j] == b;
    assert out[i].0 == a && out[j].0 == b;
  }
}
