/**
 What rounds of expansion leave: the nodes after k rounds, in the converter's order, each with its
 new id and its original.  One round is proved to add exactly one level to the recursive unfolding;
 the ids stay distinct; and the rounds the converter allows itself suffice exactly for nestings of
 that depth.
 */
module Frontier {
  import opened Wrappers
  import opened NodeIds
  import opened NestedGraph

  datatype Placed = Placed(id: Id, node: Node)

  /** The nodes of level p unfolded k levels deep. */
  function Unfold(w: Workflow, p: Id, nodes: seq<Node>, k: nat): seq<Placed>
    decreases k, |nodes|, 0
  {
    if nodes == [] then []
    else UnfoldNode(w, Placed(Qualify(p, nodes[0].id), nodes[0]), k) + Unfold(w, p, nodes[1..], k)
  }

  function UnfoldNode(w: Workflow, x: Placed, k: nat): seq<Placed>
    decreases k, 0, 1
  {
    if k > 0 && IsSubgraph(w, x.node) then Unfold(w, x.id, w.defs[x.node.body.ty].nodes, k - 1)
    else [x]
  }

  /** What comes earlier in a level stays earlier, with everything inside it. */
  lemma {:induction false} UnfoldJoin(w: Workflow, p: Id, a: seq<Node>, b: seq<Node>, k: nat)
    ensures Unfold(w, p, a + b, k) == Unfold(w, p, a, k) + Unfold(w, p, b, k)
  {
    if a == [] {
      assert a + b == b;
    } else {
      assert (a + b)[1..] == a[1..] + b;
      UnfoldJoin(w, p, a[1..], b, k);
    }
  }

  /** The working list after k rounds. */
  function After(w: Workflow, k: nat): seq<Placed> {
    Unfold(w, "", w.top.nodes, k)
  }

  /** One round over a working list: every subgraph node is replaced by its definition's nodes. */
  function Round(w: Workflow, xs: seq<Placed>): seq<Placed> {
    if xs == [] then []
    else Round(w, xs[..|xs| - 1]) + UnfoldNode(w, xs[|xs| - 1], 1)
  }

  lemma {:induction false} RoundConcat(w: Workflow, xs: seq<Placed>, ys: seq<Placed>)
    ensures Round(w, xs + ys) == Round(w, xs) + Round(w, ys)
  {
    if ys == [] {
      assert xs + ys == xs;
    } else {
      assert (xs + ys)[..|xs + ys| - 1] == xs + ys[..|ys| - 1];
      RoundConcat(w, xs, ys[..|ys| - 1]);
    }
  }

  lemma {:induction false} Unfold0(w: Workflow, p: Id, nodes: seq<Node>)
    ensures |Unfold(w, p, nodes, 0)| == |nodes|
    ensures forall a :: 0 <= a < |nodes| ==> Unfold(w, p, nodes, 0)[a] == Placed(Qualify(p, nodes[a].id), nodes[a])
  {
    if nodes != [] {
      Unfold0(w, p, nodes[1..]);
    }
  }

  /** One round unfolds exactly one level more. */
  lemma {:induction false} RoundUnfolds(w: Workflow, p: Id, nodes: seq<Node>, k: nat)
    ensures Round(w, Unfold(w, p, nodes, k)) == Unfold(w, p, nodes, k + 1)
    decreases k, |nodes|, 0
  {
    if nodes != [] {
      var x := Placed(Qualify(p, nodes[0].id), nodes[0]);
      RoundConcat(w, UnfoldNode(w, x, k), Unfold(w, p, nodes[1..], k));
      RoundUnfolds(w, p, nodes[1..], k);
      RoundUnfoldsNode(w, x, k);
    }
  }

  lemma {:induction false} RoundUnfoldsNode(w: Workflow, x: Placed, k: nat)
    ensures Round(w, UnfoldNode(w, x, k)) == UnfoldNode(w, x, k + 1)
    decreases k, 0, 1
  {
    if k > 0 && IsSubgraph(w, x.node) {
      RoundUnfolds(w, x.id, w.defs[x.node.body.ty].nodes, k - 1);
    } else {
      assert [x][..0] == [];
    }
  }

  lemma RoundAfter(w: Workflow, k: nat)
    ensures Round(w, After(w, k)) == After(w, k + 1)
  {
    RoundUnfolds(w, "", w.top.nodes, k);
  }

  lemma {:induction false} RoundMembers(w: Workflow, xs: seq<Placed>, y: Placed)
    ensures y in Round(w, xs) <==> exists x :: x in xs && y in UnfoldNode(w, x, 1)
  {
    if xs != [] {
      var n := |xs| - 1;
      assert xs == xs[..n] + [xs[n]];
      RoundMembers(w, xs[..n], y);
      if y in UnfoldNode(w, xs[n], 1) {
        assert xs[n] in xs;
      }
    }
  }

  // ---------------------------------------------------------------- when expansion is finished

  predicate NoSubgraphs(w: Workflow, xs: seq<Placed>) {
    forall x :: x in xs ==> !IsSubgraph(w, x.node)
  }

  lemma {:induction false} RoundIdle(w: Workflow, xs: seq<Placed>)
    requires NoSubgraphs(w, xs)
    ensures Round(w, xs) == xs
  {
    if xs != [] {
      var n := |xs| - 1;
      assert xs == xs[..n] + [xs[n]];
      RoundIdle(w, xs[..n]);
    }
  }

  /** Once no subgraph node is left, further rounds change nothing. */
  lemma {:induction false} FinishedStays(w: Workflow, k: nat, m: nat)
    requires k <= m && NoSubgraphs(w, After(w, k))
    ensures After(w, m) == After(w, k)
    decreases m - k
  {
    if k < m {
      RoundIdle(w, After(w, k));
      RoundAfter(w, k);
      FinishedStays(w, k + 1, m);
    }
  }

  lemma {:induction false} UnfoldFinished(w: Workflow, p: Id, nodes: seq<Node>, k: nat)
    ensures NoSubgraphs(w, Unfold(w, p, nodes, k)) <==> NestsWithin(w, nodes, k)
    decreases k, |nodes|
  {
    if nodes != [] {
      var x := Placed(Qualify(p, nodes[0].id), nodes[0]);
      var head, tail := UnfoldNode(w, x, k), Unfold(w, p, nodes[1..], k);
      UnfoldFinished(w, p, nodes[1..], k);
      assert nodes == [nodes[0]] + nodes[1..];
      assert NestsWithin(w, nodes, k) <==> NestsWithin(w, [nodes[0]], k) && NestsWithin(w, nodes[1..], k) by {
        assert forall n :: n in nodes <==> n in [nodes[0]] || n in nodes[1..];
      }
      assert NoSubgraphs(w, head + tail) <==> NoSubgraphs(w, head) && NoSubgraphs(w, tail) by {
        assert forall y :: y in head + tail <==> y in head || y in tail;
      }
      if IsSubgraph(w, x.node) {
        if k > 0 {
          UnfoldFinished(w, x.id, w.defs[x.node.body.ty].nodes, k - 1);
        } else {
          assert x in head;
        }
      }
    }
  }

  /** The bounded loop finishes the job exactly when definitions nest at most ten deep. */
  lemma BoundSuffices(w: Workflow)
    ensures NoSubgraphs(w, After(w, MAX_ROUNDS)) <==> NestsWithin(w, w.top.nodes, 10)
  {
    UnfoldFinished(w, "", w.top.nodes, MAX_ROUNDS);
  }

  // ---------------------------------------------------------------- the ids name their nodes

  /** x is where it says it is, and as deep as k rounds make it. */
  ghost predicate InPlace(w: Workflow, x: Placed, k: nat) {
    && NodeAt(w, x.id) == Some(x.node)
    && Depth(x.id) <= k
    && (IsSubgraph(w, x.node) ==> Depth(x.id) == k)
  }

  lemma ChildInPlace(w: Workflow, p: Id, n: Node, k: nat)
    requires WellFormed(w) && LevelAt(w, p).Some? && n in LevelAt(w, p).value.nodes
    requires if p == "" then k == 0 else k == Depth(p) + 1
    ensures InPlace(w, Placed(Qualify(p, n.id), n), k)
  {
    LevelIsOk(w, p);
    var g := LevelAt(w, p).value;
    assert Plain(n.id);
    NodeAtQualify(w, p, n.id);
    SplitQualify(p, n.id);
    var a :| 0 <= a < |g.nodes| && g.nodes[a] == n;
    FindNodeUnique(g.nodes, a);
  }

  lemma {:induction false} AfterInPlace(w: Workflow, k: nat)
    requires WellFormed(w)
    ensures forall x :: x in After(w, k) ==> InPlace(w, x, k)
  {
    if k == 0 {
      forall x | x in After(w, 0) ensures InPlace(w, x, 0) {
        Unfold0(w, "", w.top.nodes);
        ChildInPlace(w, "", x.node, 0);
      }
    } else {
      AfterInPlace(w, k - 1);
      RoundAfter(w, k - 1);
      forall y | y in After(w, k) ensures InPlace(w, y, k) {
        hide WellFormed, InPlace, UnfoldNode, Unfold, Round;
        RoundMembers(w, After(w, k - 1), y);
        var x :| x in After(w, k - 1) && y in UnfoldNode(w, x, 1);
        StepInPlace(w, x, y, k);
      }
    }
  }

  lemma StepInPlace(w: Workflow, x: Placed, y: Placed, k: nat)
    requires WellFormed(w) && k > 0 && InPlace(w, x, k - 1) && y in UnfoldNode(w, x, 1)
    ensures InPlace(w, y, k)
  {
    if IsSubgraph(w, x.node) {
      NodeAtNonEmpty(w, x.id);
      Unfold0(w, x.id, w.defs[x.node.body.ty].nodes);
      hide NodeAt, WellFormed, Depth;
      ChildInPlace(w, x.id, y.node, k);
    }
  }

  lemma ChildUnfolds(w: Workflow, x: Placed, n: Node)
    requires IsSubgraph(w, x.node) && n in w.defs[x.node.body.ty].nodes
    ensures Placed(Qualify(x.id, n.id), n) in UnfoldNode(w, x, 1)
  {
    var nodes := w.defs[x.node.body.ty].nodes;
    var a :| 0 <= a < |nodes| && nodes[a] == n;
    Unfold0(w, x.id, nodes);
    assert UnfoldNode(w, x, 1)[a] == Placed(Qualify(x.id, n.id), n);
  }

  lemma RoundReaches(w: Workflow, k: nat, x: Placed, y: Placed)
    requires x in After(w, k) && y in UnfoldNode(w, x, 1)
    ensures y in After(w, k + 1)
  {
    RoundAfter(w, k);
    RoundMembers(w, After(w, k), y);
  }

  lemma TopReached(w: Workflow, q: Id)
    requires WellFormed(w) && NodeAt(w, q).Some? && Depth(q) == 0
    ensures Placed(q, NodeAt(w, q).value) in After(w, 0)
  {
    NodeAtNonEmpty(w, q);
    QualifySplit(q);
    NodeAtParent(w, q);
    var a :| 0 <= a < |w.top.nodes| && w.top.nodes[a] == NodeAt(w, q).value;
    Unfold0(w, "", w.top.nodes);
    assert After(w, 0)[a] == Placed(q, NodeAt(w, q).value);
  }

  /** Nothing is lost: every node at depth k, and every shallower ordinary node, is in the list. */
  lemma {:induction false} AfterComplete(w: Workflow, k: nat, q: Id)
    requires WellFormed(w) && NodeAt(w, q).Some?
    requires Depth(q) == k || (Depth(q) < k && !IsSubgraph(w, NodeAt(w, q).value))
    ensures Placed(q, NodeAt(w, q).value) in After(w, k)
    decreases k
  {
    hide Depth, LastColon, Unfold;
    var n := NodeAt(w, q).value;
    if k == 0 {
      TopReached(w, q);
    } else if Depth(q) == k {
      NodeAtNonEmpty(w, q);
      QualifySplit(q);
      NodeAtParent(w, q);
      var p := Parent(q);
      AfterComplete(w, k - 1, p);
      ChildUnfolds(w, Placed(p, NodeAt(w, p).value), n);
      RoundReaches(w, k - 1, Placed(p, NodeAt(w, p).value), Placed(q, n));
    } else {
      AfterComplete(w, k - 1, q);
      RoundReaches(w, k - 1, Placed(q, n), Placed(q, n));
    }
  }

  // ---------------------------------------------------------------- the ids stay distinct

  predicate DistinctIds(xs: seq<Placed>) {
    forall a, b :: 0 <= a < b < |xs| ==> xs[a].id != xs[b].id
  }

  lemma UnfoldNodeDistinct(w: Workflow, x: Placed, k: nat)
    requires WellFormed(w) && InPlace(w, x, k)
    ensures DistinctIds(UnfoldNode(w, x, 1))
    ensures forall y :: y in UnfoldNode(w, x, 1) ==> if IsSubgraph(w, x.node) then Parent(y.id) == x.id else y == x
  {
    if IsSubgraph(w, x.node) {
      NodeAtNonEmpty(w, x.id);
      LevelIsOk(w, x.id);
      var nodes := w.defs[x.node.body.ty].nodes;
      Unfold0(w, x.id, nodes);
      forall a | 0 <= a < |nodes| ensures Parent(Qualify(x.id, nodes[a].id)) == x.id && Leaf(Qualify(x.id, nodes[a].id)) == nodes[a].id {
        assert Plain(nodes[a].id);
        SplitQualify(x.id, nodes[a].id);
      }
      assert UniqueIds(w.defs[x.node.body.ty]);
    }
  }

  lemma {:induction false} RoundDistinct(w: Workflow, xs: seq<Placed>, k: nat)
    requires WellFormed(w) && DistinctIds(xs) && forall x :: x in xs ==> InPlace(w, x, k)
    ensures DistinctIds(Round(w, xs))
  {
    if xs != [] {
      var n := |xs| - 1;
      var front, x := xs[..n], xs[n];
      RoundDistinct(w, front, k);
      UnfoldNodeDistinct(w, x, k);
      forall y, z | y in Round(w, front) && z in UnfoldNode(w, x, 1) ensures y.id != z.id {
        RoundMembers(w, front, y);
        var x' :| x' in front && y in UnfoldNode(w, x', 1);
        UnfoldNodeDistinct(w, x', k);
        Apart(w, x, x', y, z, k);
      }
    }
  }

  /** What two different places unfold to never shares an id. */
  lemma Apart(w: Workflow, x: Placed, x': Placed, y: Placed, z: Placed, k: nat)
    requires WellFormed(w) && InPlace(w, x, k) && InPlace(w, x', k) && x.id != x'.id
    requires if IsSubgraph(w, x'.node) then Parent(y.id) == x'.id else y == x'
    requires if IsSubgraph(w, x.node) then Parent(z.id) == x.id else z == x
    ensures y.id != z.id
  {
    if y.id == z.id && (IsSubgraph(w, x.node) || IsSubgraph(w, x'.node)) {
      var (s, o) := if IsSubgraph(w, x.node) then (x, x') else (x', x);
      NodeAtNonEmpty(w, s.id);
      NodeAtNonEmpty(w, o.id);
      if !IsSubgraph(w, o.node) {
        QualifySplit(o.id);
      }
    }
  }

  /** Expanded nodes never share an id, whatever the number of rounds. */
  lemma {:induction false} AfterDistinct(w: Workflow, k: nat)
    requires WellFormed(w)
    ensures DistinctIds(After(w, k))
  {
    if k == 0 {
      LevelIsOk(w, "");
      assert UniqueIds(w.top);
      Unfold0(w, "", w.top.nodes);
    } else {
      AfterDistinct(w, k - 1);
      AfterInPlace(w, k - 1);
      RoundAfter(w, k - 1);
      RoundDistinct(w, After(w, k - 1), k - 1);
    }
  }

  // ---------------------------------------------------------------- no level hides below a finished list

  lemma {:induction false} NoLevelBelow(w: Workflow, p: Id, k: nat)
    requires WellFormed(w) && NoSubgraphs(w, After(w, k))
    requires p != "" && LevelAt(w, p).Some?
    ensures Depth(p) < k
    decreases Depth(p)
  {
    NodeAtNonEmpty(w, p);
    if Depth(p) == k {
      AfterComplete(w, k, p);
    } else if Depth(p) > k {
      QualifySplit(p);
      NodeAtParent(w, p);
      NoLevelBelow(w, Parent(p), k);
    }
  }
}
