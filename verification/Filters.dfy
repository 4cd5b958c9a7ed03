/** Filtering lists in order. */
module Filters {
  import opened Wrappers

  /** The elements the condition does not name, in order. */
  function Kept<E(==, !new)>(es: seq<E>, drop: E -> bool): (r: seq<E>)
    ensures forall e :: e in r <==> e in es && !drop(e)
    ensures |r| <= |es|
  {
    if |es| == 0 then []
    else
      var front := es[..|es| - 1];
      assert es == front + [es[|es| - 1]];
      Kept(front, drop) + if drop(es[|es| - 1]) then [] else [es[|es| - 1]]
  }

  /** The first element that satisfies the condition. */
  function FirstWhere<E(==, !new)>(es: seq<E>, p: E -> bool): (r: Option<E>)
    ensures r.Some? ==> r.value in es && p(r.value)
    ensures r.None? ==> forall e :: e in es ==> !p(e)
  {
    if |es| == 0 then None
    else if p(es[0]) then Some(es[0])
    else
      assert es == [es[0]] + es[1..];
      FirstWhere(es[1..], p)
  }

  lemma {:induction false} FirstWhereAt<E(!new)>(es: seq<E>, p: E -> bool, k: nat)
    requires k < |es| && p(es[k]) && forall j :: 0 <= j < k ==> !p(es[j])
    ensures FirstWhere(es, p) == Some(es[k])
  {
    if k > 0 {
      assert !p(es[0]);
      FirstWhereAt(es[1..], p, k - 1);
    }
  }

  lemma KeptSnoc<E(!new)>(es: seq<E>, e: E, drop: E -> bool)
    ensures Kept(es + [e], drop) == Kept(es, drop) + if drop(e) then [] else [e]
  {
    assert (es + [e])[..|es|] == es;
  }

  lemma {:induction false} NothingDropped<E(!new)>(es: seq<E>, drop: E -> bool)
    requires |Kept(es, drop)| == |es|
    ensures Kept(es, drop) == es
  {
    if |es| > 0 {
      var (front, last) := (es[..|es| - 1], es[|es| - 1]);
      assert es == front + [last];
      KeptSnoc(front, last, drop);
      hide Kept;
      NothingDropped(front, drop);
    }
  }

  /** r holds the elements at the positions that are kept, in order. */
  ghost predicate KeptFrom<E(!new)>(es: seq<E>, drop: E -> bool, r: seq<E>, at: seq<nat>) {
    && |r| == |at|
    && (forall k :: 0 <= k < |at| ==> at[k] < |es| && !drop(es[at[k]]) && r[k] == es[at[k]])
    && (forall j, k :: 0 <= j < k < |at| ==> at[j] < at[k])
    && (forall i :: 0 <= i < |es| && !drop(es[i]) ==> i in at)
  }

  lemma KeptFromSnoc<E(!new)>(es: seq<E>, e: E, drop: E -> bool, r: seq<E>, at: seq<nat>)
    requires KeptFrom(es, drop, r, at)
    ensures if drop(e) then KeptFrom(es + [e], drop, r, at) else KeptFrom(es + [e], drop, r + [e], at + [|es|])
  {
    var (all, more) := (es + [e], if drop(e) then at else at + [|es|]);
    forall i | 0 <= i < |all| && !drop(all[i]) ensures i in more {
      if i < |es| {
        assert !drop(es[i]);
      } else {
        assert more[|at|] == i;
      }
    }
  }

  /** Filtering keeps the elements that are not dropped, each as often as it occurs, in their order. */
  lemma {:induction false} KeptInOrder<E(!new)>(es: seq<E>, drop: E -> bool) returns (at: seq<nat>)
    ensures KeptFrom(es, drop, Kept(es, drop), at)
  {
    if |es| == 0 {
      at := [];
    } else {
      var (front, last) := (es[..|es| - 1], es[|es| - 1]);
      assert es == front + [last];
      KeptSnoc(front, last, drop);
      hide Kept, KeptFrom;
      var before := KeptInOrder(front, drop);
      KeptFromSnoc(front, last, drop, Kept(front, drop), before);
      at := if drop(last) then before else before + [|front|];
    }
  }

  method Keep<E(==, !new)>(es: seq<E>, drop: E -> bool) returns (kept: seq<E>)
    ensures kept == Kept(es, drop)
  {
    kept := [];
    for i := 0 to |es|
      invariant kept == Kept(es[..i], drop)
    {
      assert es[..i + 1][..i] == es[..i];
      if !drop(es[i]) {
        kept := kept + [es[i]];
      }
    }
    assert es[..|es|] == es;
  }
}
