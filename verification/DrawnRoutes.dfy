/**
 What a flat workflow stands for, said of the drawing alone: routes along drawn links, of any length,
 with no bound on depth and no function that walks them.  For drawings nested at most ten deep the
 flat workflow holds exactly the ordinary nodes, and an input's source is the end of its one route.
 */
module DrawnRoutes {
  import opened Wrappers
  import opened NodeIds
  import opened NestedGraph
  import opened Boundaries
  import opened Wiring
  import opened Frontier
  import opened Flattening

  // ---------------------------------------------------------------- the steps of a route

  /** Downwards: from an output of a subgraph node along a link that its definition draws to that output. */
  ghost predicate DownStep(w: Workflow, p: Pin, q: Pin) {
    exists g, l ::
      p.0 != "" && LevelAt(w, p.0) == Some(g) && l in g.links && l.tgt == "-20" && l.tgtSlot == p.1
      && q == (p.0 + ":" + l.src, l.srcSlot)
  }

  ghost predicate DownEnd(w: Workflow, p: Pin) {
    forall q :: !DownStep(w, p, q)
  }

  /** Down until the node is no subgraph node, or nothing is drawn to the output. */
  ghost predicate DownRoute(w: Workflow, route: seq<Pin>) {
    && |route| > 0
    && (forall i :: 0 <= i < |route| - 1 ==> DownStep(w, route[i], route[i + 1]))
    && DownEnd(w, route[|route| - 1])
  }

  /** Input k of the subgraph node feeds port j: the last port of its name, or the port at its position when none has its name. */
  predicate FeedsPort(n: Node, g: Graph, k: nat, j: nat) {
    && k < |n.inputs| && n.inputs[k].link.Some?
    && if n.inputs[k].name != "" && exists m :: 0 <= m < |g.inputs| && g.inputs[m].name == n.inputs[k].name
       then j < |g.inputs| && g.inputs[j].name == n.inputs[k].name
            && forall m :: j < m < |g.inputs| ==> g.inputs[m].name != n.inputs[k].name
       else j == k
  }

  /** The level a node belongs to has a link to that input. */
  ghost predicate Into(w: Workflow, p: Pin, l: Link) {
    && p.0 != "" && LastColon(p.0) != 0 && LevelAt(w, Parent(p.0)).Some?
    && l in LevelAt(w, Parent(p.0)).value.links && l.tgt == Leaf(p.0) && l.tgtSlot == p.1
  }

  /** Upwards: a link from a port leads to the outer input that feeds the port. */
  ghost predicate UpStep(w: Workflow, p: Pin, q: Pin) {
    exists l, n ::
      Into(w, p, l) && l.src == "-10" && Parent(p.0) != "" && q.0 == Parent(p.0)
      && NodeAt(w, q.0) == Some(n) && FeedsPort(n, LevelAt(w, q.0).value, q.1, l.srcSlot)
  }

  /** Across: a link from a node of the same level. */
  ghost predicate AcrossStep(w: Workflow, p: Pin, q: Pin) {
    exists l :: Into(w, p, l) && l.src != "-10" && q == (Qualify(Parent(p.0), l.src), l.srcSlot)
  }

  ghost predicate UpRoute(w: Workflow, route: seq<Pin>) {
    |route| > 0 && forall i :: 0 <= i < |route| - 1 ==> UpStep(w, route[i], route[i + 1])
  }

  /** Some route down leads from p to q. */
  ghost predicate DownTo(w: Workflow, p: Pin, q: Pin) {
    exists route :: DownRoute(w, route) && route[0] == p && route[|route| - 1] == q
  }

  /** Up from an input, across, and down to where nothing is drawn any further. */
  ghost predicate FedBy(w: Workflow, p: Pin, q: Pin) {
    exists ups, d :: UpRoute(w, ups) && ups[0] == p && AcrossStep(w, ups[|ups| - 1], d) && DownTo(w, d, q)
  }

  // ---------------------------------------------------------------- downwards

  ghost function NextDown(w: Workflow, p: Pin): Option<Pin> {
    if p.0 != "" && LevelAt(w, p.0).Some? && FeedOf(LevelAt(w, p.0).value.links, OUT, p.1).Some?
    then var l := FeedOf(LevelAt(w, p.0).value.links, OUT, p.1).value; Some((Qualify(p.0, l.src), l.srcSlot))
    else None
  }

  /** At most one step leads down. */
  lemma DownStepIs(w: Workflow, p: Pin)
    requires WellFormed(w)
    ensures forall q :: DownStep(w, p, q) <==> NextDown(w, p) == Some(q)
  {
    if p.0 != "" && LevelAt(w, p.0).Some? {
      var g := LevelAt(w, p.0).value;
      LevelIsOk(w, p.0);
      forall l | l in g.links && l.tgt == OUT && l.tgtSlot == p.1 ensures FeedOf(g.links, OUT, p.1) == Some(l) {
        FeedUnique(w, g, l);
      }
    }
  }

  lemma Shallower(w: Workflow, s: Id)
    requires WellFormed(w) && NestsWithin(w, w.top.nodes, 10) && s != "" && LevelAt(w, s).Some?
    ensures Depth(s) < 10
  {
    UnfoldFinished(w, "", w.top.nodes, 10);
    NoLevelBelow(w, s, 10);
  }

  /** The downward walk is the end of the one route down. */
  lemma {:induction false} OutSourceIsEnd(w: Workflow, p: Pin, q: Pin)
    requires WellFormed(w) && NestsWithin(w, w.top.nodes, 10)
    ensures DownTo(w, p, q) <==> OutSource(w, p.0, p.1) == q
    decreases 10 - Depth(p.0)
  {
    hide WellFormed, NestsWithin, LevelAt, Depth, DownStep, NextDown, OutSource, DownTo;
    DownStepIs(w, p);
    if p.0 != "" && LevelAt(w, p.0).Some? {
      Shallower(w, p.0);
    }
    OutSourceStep(w, p);
    if NextDown(w, p).Some? {
      var r := NextDown(w, p).value;
      assert DownStep(w, p, r);
      DownDeeper(w, p, r);
      Shallower(w, p.0);
      OutSourceIsEnd(w, r, q);
      DownCons(w, p, r, q);
    } else {
      DownHere(w, p, q);
    }
  }

  lemma OutSourceStep(w: Workflow, p: Pin)
    requires p.0 != "" && LevelAt(w, p.0).Some? ==> Depth(p.0) < 10
    ensures OutSource(w, p.0, p.1) ==
      match NextDown(w, p) case None => p case Some(q) => OutSource(w, q.0, q.1)
  {
  }

  lemma DownDeeper(w: Workflow, p: Pin, r: Pin)
    requires DownStep(w, p, r)
    ensures p.0 != "" && LevelAt(w, p.0).Some? && Depth(r.0) > Depth(p.0)
  {
    var g, l :| p.0 != "" && LevelAt(w, p.0) == Some(g) && l in g.links && l.tgt == OUT && l.tgtSlot == p.1
      && r == (Qualify(p.0, l.src), l.srcSlot);
    QualifyDeeper(p.0, l.src);
  }

  lemma DownStarts(w: Workflow, route: seq<Pin>)
    requires DownRoute(w, route)
    ensures |route| == 1 || DownStep(w, route[0], route[1])
  {
  }

  lemma DownHere(w: Workflow, p: Pin, q: Pin)
    requires DownEnd(w, p)
    ensures DownTo(w, p, q) <==> p == q
  {
    assert DownRoute(w, [p]) && [p][|[p]| - 1] == p;
    if DownTo(w, p, q) {
      var route :| DownRoute(w, route) && route[0] == p && route[|route| - 1] == q;
      DownStarts(w, route);
    }
  }

  lemma DownCons(w: Workflow, p: Pin, r: Pin, q: Pin)
    requires DownStep(w, p, r) && forall s :: DownStep(w, p, s) ==> s == r
    ensures DownTo(w, p, q) <==> DownTo(w, r, q)
  {
    hide DownStep;
    if DownTo(w, p, q) {
      var route :| DownRoute(w, route) && route[0] == p && route[|route| - 1] == q;
      assert |route| > 1;
      assert DownStep(w, route[0], route[1]);
      var rest := route[1..];
      forall i | 0 <= i < |rest| - 1 ensures DownStep(w, rest[i], rest[i + 1]) {
        assert DownStep(w, route[i + 1], route[i + 2]);
      }
      assert DownRoute(w, rest) && rest[0] == r && rest[|rest| - 1] == q;
    }
    if DownTo(w, r, q) {
      var rest :| DownRoute(w, rest) && rest[0] == r && rest[|rest| - 1] == q;
      var route := [p] + rest;
      forall i | 0 <= i < |route| - 1 ensures DownStep(w, route[i], route[i + 1]) {
        if i > 0 {
          assert DownStep(w, rest[i - 1], rest[i]);
        }
      }
      assert DownRoute(w, route) && route[0] == p && route[|route| - 1] == q;
    }
  }

  // ---------------------------------------------------------------- upwards

  /** The outer input that feeds a port, said of the ports' names. */
  lemma FeedsPortIs(n: Node, g: Graph, k: nat, j: nat)
    ensures FeedsPort(n, g, k, j) <==> k < |n.inputs| && n.inputs[k].link.Some? && PortOf(n, g, k) == j
  {
    if k < |n.inputs| && n.inputs[k].name in PortNames(g.inputs) {
      var name := n.inputs[k].name;
      var m := PortNames(g.inputs)[name];
      forall i | m < i < |g.inputs| ensures g.inputs[i].name != name {
        PortNamesLast(g.inputs, name, i);
      }
      assert m < j ==> !FeedsPort(n, g, k, j);
    }
  }

  /** The link the walk takes from an input. */
  ghost function FeedTo(w: Workflow, p: Pin): Option<Link> {
    if NoName(p.0) || LevelAt(w, Parent(p.0)).None? then None
    else FeedOf(LevelAt(w, Parent(p.0)).value.links, Leaf(p.0), p.1)
  }

  lemma IntoIs(w: Workflow, p: Pin)
    requires WellFormed(w)
    ensures forall l :: Into(w, p, l) <==> FeedTo(w, p) == Some(l)
  {
    hide WellFormed, LevelAt, LastColon, Parent, Leaf;
    forall l | Into(w, p, l) ensures FeedTo(w, p) == Some(l) {
      LevelIsOk(w, Parent(p.0));
      FeedUnique(w, LevelAt(w, Parent(p.0)).value, l);
    }
  }

  ghost function NextUp(w: Workflow, p: Pin): Option<Pin> {
    match FeedTo(w, p)
    case None => None
    case Some(l) =>
      if l.src != IN || Parent(p.0) == "" then None
      else match OuterSlot(NodeAt(w, Parent(p.0)).value, LevelAt(w, Parent(p.0)).value, l.srcSlot, 0)
        case None => None
        case Some(k) => Some((Parent(p.0), k))
  }

  ghost function NextAcross(w: Workflow, p: Pin): Option<Pin> {
    match FeedTo(w, p)
    case None => None
    case Some(l) => if l.src != IN then Some((Qualify(Parent(p.0), l.src), l.srcSlot)) else None
  }

  lemma AcrossStepIs(w: Workflow, p: Pin)
    requires WellFormed(w)
    ensures forall q :: AcrossStep(w, p, q) <==> NextAcross(w, p) == Some(q)
  {
    IntoIs(w, p);
    hide WellFormed, Into, FeedTo, Parent, Qualify;
  }

  lemma UpStepIs(w: Workflow, p: Pin)
    requires WellFormed(w)
    ensures forall q :: UpStep(w, p, q) <==> NextUp(w, p) == Some(q)
  {
    hide WellFormed, NextUp, FeedTo, Parent, FeedsPort, NodeAt;
    forall q | UpStep(w, p, q) ensures NextUp(w, p) == Some(q) {
      var l, n :| Into(w, p, l) && l.src == IN && Parent(p.0) != "" && q.0 == Parent(p.0)
                  && NodeAt(w, q.0) == Some(n) && FeedsPort(n, LevelAt(w, q.0).value, q.1, l.srcSlot);
      UpStepNext(w, p, q, l, n);
    }
    forall q | NextUp(w, p) == Some(q) ensures UpStep(w, p, q) {
      NextUpStep(w, p, q);
    }
  }

  lemma UpStepNext(w: Workflow, p: Pin, q: Pin, l: Link, n: Node)
    requires WellFormed(w) && Into(w, p, l) && l.src == IN && Parent(p.0) != "" && q.0 == Parent(p.0)
    requires NodeAt(w, q.0) == Some(n) && FeedsPort(n, LevelAt(w, q.0).value, q.1, l.srcSlot)
    ensures NextUp(w, p) == Some(q)
  {
    hide WellFormed, FeedsPort, NodeAt, FeedTo;
    IntoIs(w, p);
    FeedsPortIs(n, LevelAt(w, q.0).value, q.1, l.srcSlot);
    OuterSlotIs(w, q.0, q.1);
  }

  lemma NextUpStep(w: Workflow, p: Pin, q: Pin)
    requires WellFormed(w) && NextUp(w, p) == Some(q)
    ensures UpStep(w, p, q)
  {
    hide WellFormed, FeedsPort, NodeAt, FeedTo;
    IntoIs(w, p);
    var l := FeedTo(w, p).value;
    var n := NodeAt(w, q.0).value;
    assert Into(w, p, l);
    FeedsPortIs(n, LevelAt(w, q.0).value, q.1, l.srcSlot);
  }

  /** What the walk does with the next step. */
  lemma InSourceStep(w: Workflow, p: Pin)
    requires WellFormed(w)
    ensures NextUp(w, p).Some? ==> NextAcross(w, p).None? && |NextUp(w, p).value.0| < |p.0|
    ensures InSource(w, p.0, p.1) ==
      match NextUp(w, p)
      case Some(r) => InSource(w, r.0, r.1)
      case None => match NextAcross(w, p)
        case Some(r) => Some(OutSource(w, r.0, r.1))
        case None => None
  {
    hide OutSource, LevelAt, NodeAt;
    if !NoName(p.0) {
      QualifySplit(p.0);
    }
  }

  lemma UpCons(w: Workflow, p: Pin, r: Pin, q: Pin)
    requires (forall s :: UpStep(w, p, s) <==> s == r) && forall s :: !AcrossStep(w, p, s)
    ensures FedBy(w, p, q) <==> FedBy(w, r, q)
  {
    hide UpStep, AcrossStep, DownTo;
    if FedBy(w, p, q) {
      var ups, d :| UpRoute(w, ups) && ups[0] == p && AcrossStep(w, ups[|ups| - 1], d) && DownTo(w, d, q);
      assert |ups| > 1;
      assert UpStep(w, ups[0], ups[1]);
      var rest := ups[1..];
      forall i | 0 <= i < |rest| - 1 ensures UpStep(w, rest[i], rest[i + 1]) {
        assert UpStep(w, ups[i + 1], ups[i + 2]);
      }
      assert UpRoute(w, rest) && rest[0] == r && AcrossStep(w, rest[|rest| - 1], d);
    }
    if FedBy(w, r, q) {
      var rest, d :| UpRoute(w, rest) && rest[0] == r && AcrossStep(w, rest[|rest| - 1], d) && DownTo(w, d, q);
      var ups := [p] + rest;
      forall i | 0 <= i < |ups| - 1 ensures UpStep(w, ups[i], ups[i + 1]) {
        if i > 0 {
          assert UpStep(w, rest[i - 1], rest[i]);
        }
      }
      assert UpRoute(w, ups) && ups[0] == p && AcrossStep(w, ups[|ups| - 1], d);
    }
  }

  /** Where no step leads up, only a step across counts. */
  lemma NoUp(w: Workflow, p: Pin, q: Pin)
    requires forall s :: !UpStep(w, p, s)
    ensures FedBy(w, p, q) <==> exists d :: AcrossStep(w, p, d) && DownTo(w, d, q)
  {
    hide UpStep, AcrossStep, DownTo;
    if FedBy(w, p, q) {
      var ups, d :| UpRoute(w, ups) && ups[0] == p && AcrossStep(w, ups[|ups| - 1], d) && DownTo(w, d, q);
      UpStarts(w, ups);
    }
    if d :| AcrossStep(w, p, d) && DownTo(w, d, q) {
      assert UpRoute(w, [p]) && [p][|[p]| - 1] == p;
    }
  }

  lemma UpStarts(w: Workflow, ups: seq<Pin>)
    requires UpRoute(w, ups)
    ensures |ups| == 1 || UpStep(w, ups[0], ups[1])
  {
  }

  /** The reference walk is the end of the one route, whatever its length. */
  lemma {:induction false} InSourceIsEnd(w: Workflow, p: Pin, q: Pin)
    requires WellFormed(w) && NestsWithin(w, w.top.nodes, 10)
    ensures FedBy(w, p, q) <==> InSource(w, p.0, p.1) == Some(q)
    decreases |p.0|
  {
    hide *;
    UpStepIs(w, p);
    AcrossStepIs(w, p);
    InSourceStep(w, p);
    if NextUp(w, p).Some? {
      var r := NextUp(w, p).value;
      InSourceIsEnd(w, r, q);
      UpCons(w, p, r, q);
    } else {
      NoUp(w, p, q);
      if NextAcross(w, p).Some? {
        OutSourceIsEnd(w, NextAcross(w, p).value, q);
      }
    }
  }

  // ---------------------------------------------------------------- the flat workflow

  /** Exactly the ordinary nodes of the drawing, however deep, each once and unchanged but for its id and its inputs' sources. */
  lemma DrawnNodes(w: Workflow, q: Id)
    requires WellFormed(w) && NestsWithin(w, w.top.nodes, 10)
    ensures (exists n :: NodeAt(w, q) == Some(n) && n.body.ty !in w.defs) <==> exists a :: 0 <= a < |Drawn(w)| && Drawn(w)[a].id == q
    ensures forall a, b :: 0 <= a < b < |Drawn(w)| ==> Drawn(w)[a].id != Drawn(w)[b].id
  {
    hide WellFormed, NodeAt, Unfold, NestsWithin, DrawnInputs, LevelAt;
    var xs := After(w, 10);
    UnfoldFinished(w, "", w.top.nodes, 10);
    AfterInPlace(w, 10);
    AfterDistinct(w, 10);
    assert forall a :: 0 <= a < |xs| ==> Drawn(w)[a].id == xs[a].id;
    if n :| NodeAt(w, q) == Some(n) && n.body.ty !in w.defs {
      ShallowNode(w, q);
      AfterComplete(w, 10, q);
      var a :| 0 <= a < |xs| && xs[a] == Placed(q, n);
      assert Drawn(w)[a].id == q;
    }
    if a :| 0 <= a < |Drawn(w)| && Drawn(w)[a].id == q {
      assert xs[a] in xs;
      assert NodeAt(w, q) == Some(xs[a].node) && xs[a].node.body.ty !in w.defs;
    }
  }

  lemma ShallowNode(w: Workflow, q: Id)
    requires WellFormed(w) && NestsWithin(w, w.top.nodes, 10) && NodeAt(w, q).Some?
    ensures Depth(q) <= 10
  {
    hide Depth, NestsWithin, NodeAt;
    NodeAtNonEmpty(w, q);
    NodeAtParent(w, q);
    QualifySplit(q);
    if Parent(q) != "" {
      Shallower(w, Parent(q));
    }
  }

  /** What such a node is. */
  lemma DrawnNode(w: Workflow, a: nat, i: nat, p: Pin)
    requires WellFormed(w) && NestsWithin(w, w.top.nodes, 10) && a < |Drawn(w)|
    ensures NodeAt(w, Drawn(w)[a].id).Some?
    ensures var (x, n) := (Drawn(w)[a], NodeAt(w, Drawn(w)[a].id).value);
            && x.body == n.body && |x.inputs| == |n.inputs|
            && (i < |n.inputs| ==> x.inputs[i].name == n.inputs[i].name && x.inputs[i].ty == n.inputs[i].ty)
            && (i < |n.inputs| ==> (x.inputs[i].src == Some(p) <==> FedBy(w, (x.id, i), p)))
  {
    hide WellFormed, NodeAt, Unfold, NestsWithin, LevelAt, InSource, FedBy;
    AfterInPlace(w, 10);
    assert After(w, 10)[a] in After(w, 10);
    InSourceIsEnd(w, (Drawn(w)[a].id, i), p);
  }
}
