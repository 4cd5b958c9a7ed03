/**
 The first half of a conversion: expand, re-aim the links, patch the expanded inputs in place, index
 the links.  The frame of Flatten is the non-interference result: nothing but the links list is
 written, so no definition, no top-level node and no other conversion's node ever changes.
 */
module Flatten {
  import opened Wrappers
  import opened NodeIds
  import opened NestedGraph
  import opened Boundaries
  import opened Wiring
  import opened Frontier
  import opened Flattening
  import opened DrawnRoutes
  import opened LiveWorkflow
  import opened Rounds

  type Updates = map<Id, map<nat, int>>

  /** updates[q][i] = x, creating updates[q] when needed. */
  function Update(u: Updates, q: Id, i: nat, x: int): Updates {
    u[q := (if q in u then u[q] else map[])[i := x]]
  }

  /** The inputs link c is re-aimed into, among the first n resolved targets. */
  ghost predicate TargetsDone(t: Tables, links: seq<Link>, c: Link, n: nat, u: Updates)
    requires n <= |ResolveInputAll(t, c.tgt, c.tgtSlot, 0)|
  {
    && (forall q, i :: q in u && i in u[q] ==> exists d :: (d in links || d == c) && d.id == u[q][i] && Reaches(t, d, q, i))
    && (forall d, q, i :: d in links && Reaches(t, d, q, i) ==> q in u && i in u[q])
    && (forall a :: 0 <= a < n ==> var (q, i) := ResolveInputAll(t, c.tgt, c.tgtSlot, 0)[a]; q != c.tgt ==> q in u && i in u[q])
  }

  method RecordTargets(t: Tables, ghost links: seq<Link>, c: Link, u: Updates) returns (u': Updates)
    requires UpdatesFor(t, links, u)
    ensures UpdatesFor(t, links + [c], u')
  {
    var targets := ResolveInputAll(t, c.tgt, c.tgtSlot, 0);
    u' := u;
    for a := 0 to |targets|
      invariant TargetsDone(t, links, c, a, u')
    {
      var (q, i) := targets[a];
      if q != c.tgt {
        assert (q, i) in targets;
        u' := Update(u', q, i, c.id);
      }
    }
    forall d, q, i | d in links + [c] && Reaches(t, d, q, i) ensures q in u' && i in u'[q] {
      if d == c {
        var a :| 0 <= a < |targets| && targets[a] == (q, i);
      }
    }
    forall q, i | q in u' && i in u'[q]
      ensures exists d :: d in links + [c] && d.id == u'[q][i] && Reaches(t, d, q, i)
    {
      var d :| (d in links || d == c) && d.id == u'[q][i] && Reaches(t, d, q, i);
      assert d in links + [c];
    }
  }

  /** Re-aims every link: its resolved source by id, and the inputs that must name it. */
  method ResolveLinks(t: Tables, links: seq<Link>) returns (u: Updates, m: map<int, Pin>)
    requires DistinctLinks(links)
    ensures UpdatesFor(t, links, u) && LinkMapFor(t, links, m)
  {
    u, m := map[], map[];
    for k := 0 to |links|
      invariant UpdatesFor(t, links[..k], u) && LinkMapFor(t, links[..k], m)
    {
      var c := links[k];
      assert links[..k + 1] == links[..k] + [c];
      m := m[c.id := ResolveOutput(t, c.src, c.srcSlot, 0)];
      u := RecordTargets(t, links[..k], c, u);
    }
    assert links[..|links|] == links;
  }

  /** Input i of the a-th node has an update. */
  predicate Due(nodes: seq<LiveNode>, u: Updates, a: nat, i: nat)
    requires a < |nodes| && i < |nodes[a].inputs|
  {
    nodes[a].id in u && i in u[nodes[a].id]
  }

  /** An input that is about to be patched is no other input's dictionary. */
  ghost predicate Unshared(nodes: seq<LiveNode>, u: Updates) {
    forall a, i, b, j ::
      (0 <= a < |nodes| && 0 <= i < |nodes[a].inputs| && 0 <= b < |nodes| && 0 <= j < |nodes[b].inputs|
       && Due(nodes, u, a, i) && nodes[a].inputs[i] == nodes[b].inputs[j])
      ==> a == b && i == j
  }

  ghost function DueCells(nodes: seq<LiveNode>, u: Updates): set<InputInfo> {
    set a, i | 0 <= a < |nodes| && 0 <= i < |nodes[a].inputs| && Due(nodes, u, a, i) :: nodes[a].inputs[i]
  }

  /** Writes the updates into the input dictionaries. */
  method PatchInputs(nodes: seq<LiveNode>, u: Updates)
    requires Unshared(nodes, u)
    modifies DueCells(nodes, u)
    ensures forall a, i :: 0 <= a < |nodes| && 0 <= i < |nodes[a].inputs| ==>
              nodes[a].inputs[i].link == Patched(u, nodes[a].id, i, old(nodes[a].inputs[i].link))
  {
    for a := 0 to |nodes|
      invariant forall b, i :: 0 <= b < |nodes| && 0 <= i < |nodes[b].inputs| ==>
                  nodes[b].inputs[i].link ==
                    if b < a then Patched(u, nodes[b].id, i, old(nodes[b].inputs[i].link)) else old(nodes[b].inputs[i].link)
    {
      var n := nodes[a];
      if n.id in u {
        for i := 0 to |n.inputs|
          invariant forall b, j :: 0 <= b < |nodes| && 0 <= j < |nodes[b].inputs| ==>
                      nodes[b].inputs[j].link ==
                        if b < a || (b == a && j < i) then Patched(u, nodes[b].id, j, old(nodes[b].inputs[j].link))
                        else old(nodes[b].inputs[j].link)
        {
          if i in u[n.id] {
            assert Due(nodes, u, a, i);
            n.inputs[i].link := Some(u[n.id][i]);
          }
        }
      }
    }
  }

  /** What an update touches was copied for exactly that input. */
  lemma DueIsOwn(w: Workflow, olds: set<InputInfo>, links: seq<Link>, t: Tables, u: Updates, m: map<int, Pin>,
                 nodes: seq<LiveNode>, xs: seq<Placed>, a: nat, i: nat)
    requires WellFormed(w) && TablesFor(w, t) && Faithful(w, links) && UpdatesFor(t, links, u) && LinkMapFor(t, links, m)
    requires ListAs(w, olds, links, nodes, xs)
    requires a < |nodes| && i < |nodes[a].inputs| && Due(nodes, u, a, i)
    ensures nodes[a].inputs[i] !in olds && nodes[a].inputs[i].home == (xs[a].id, i)
  {
    hide TablesFor, NodeAt, Faithful, UpdatesFor, LinkMapFor;
    assert LiveAs(w, olds, links, nodes[a], xs[a]);
    assert CellAs(w, olds, links, nodes[a].inputs[i], xs[a], i);
    UpdateMeans(w, t, links, u, m, xs[a].id, i);
  }

  lemma DueUnshared(w: Workflow, olds: set<InputInfo>, links: seq<Link>, t: Tables, u: Updates, m: map<int, Pin>,
                    nodes: seq<LiveNode>, k: nat)
    requires WellFormed(w) && TablesFor(w, t) && Faithful(w, links) && UpdatesFor(t, links, u) && LinkMapFor(t, links, m)
    requires ListAs(w, olds, links, nodes, After(w, k))
    ensures Unshared(nodes, u)
    ensures forall c :: c in DueCells(nodes, u) ==> c !in olds && c in CellsOf(nodes)
  {
    hide TablesFor, NodeAt, Faithful, UpdatesFor, LinkMapFor, WellFormed, Unfold;
    var xs := After(w, k);
    AfterDistinct(w, k);
    forall a, i, b, j |
      0 <= a < |nodes| && 0 <= i < |nodes[a].inputs| && 0 <= b < |nodes| && 0 <= j < |nodes[b].inputs|
      && Due(nodes, u, a, i) && nodes[a].inputs[i] == nodes[b].inputs[j]
      ensures a == b && i == j
    {
      DueIsOwn(w, olds, links, t, u, m, nodes, xs, a, i);
      assert LiveAs(w, olds, links, nodes[b], xs[b]);
      assert CellAs(w, olds, links, nodes[b].inputs[j], xs[b], j);
      assert xs[a].id == xs[b].id;
    }
    forall c | c in DueCells(nodes, u) ensures c !in olds && c in CellsOf(nodes) {
      var a, i :| 0 <= a < |nodes| && 0 <= i < |nodes[a].inputs| && Due(nodes, u, a, i) && c == nodes[a].inputs[i];
      DueIsOwn(w, olds, links, t, u, m, nodes, xs, a, i);
      assert nodes[a] in nodes && c in nodes[a].inputs;
    }
  }

  /** Nodes that remain were not expanded. */
  lemma RemainingUnexpanded(w: Workflow, t: Tables, x: Placed)
    requires WellFormed(w) && TablesFor(w, t) && x in After(w, MAX_ROUNDS)
    ensures NodeAt(w, x.id) == Some(x.node) && x.id !in t.outs && Depth(x.id) <= MAX_ROUNDS
  {
    hide Depth, NodeAt, Unfold, WellFormed;
    AfterInPlace(w, MAX_ROUNDS);
    assert InPlace(w, x, MAX_ROUNDS);
    assert forall p :: p in t.outs ==> TableOf(w, t, p);
  }

  /** The live nodes, each input with the source its link leads to. */
  method ReadInputs(nodes: seq<LiveNode>, m: map<int, Pin>) returns (flat: seq<FlatNode>)
    ensures |flat| == |nodes|
    ensures forall a :: 0 <= a < |nodes| ==>
              flat[a].id == nodes[a].id && flat[a].body == nodes[a].body && |flat[a].inputs| == |nodes[a].inputs|
    ensures forall a, i :: 0 <= a < |nodes| && 0 <= i < |nodes[a].inputs| ==>
              flat[a].inputs[i] == FlatInput(nodes[a].inputs[i].name, nodes[a].inputs[i].ty, Follow(m, nodes[a].inputs[i].link))
  {
    flat := [];
    for a := 0 to |nodes|
      invariant |flat| == a
      invariant forall b :: 0 <= b < a ==>
                  flat[b].id == nodes[b].id && flat[b].body == nodes[b].body && |flat[b].inputs| == |nodes[b].inputs|
      invariant forall b, i :: 0 <= b < a && 0 <= i < |nodes[b].inputs| ==>
                  flat[b].inputs[i] == FlatInput(nodes[b].inputs[i].name, nodes[b].inputs[i].ty, Follow(m, nodes[b].inputs[i].link))
    {
      var inputs := [];
      for i := 0 to |nodes[a].inputs|
        invariant |inputs| == i
        invariant forall j :: 0 <= j < i ==>
                    inputs[j] == FlatInput(nodes[a].inputs[j].name, nodes[a].inputs[j].ty, Follow(m, nodes[a].inputs[j].link))
      {
        var c := nodes[a].inputs[i];
        inputs := inputs + [FlatInput(c.name, c.ty, Follow(m, c.link))];
      }
      flat := flat + [FlatNode(nodes[a].id, nodes[a].body, inputs)];
    }
  }

  /** Two readings that agree input by input are the drawing's. */
  lemma ReadsDrawn(w: Workflow, flat: seq<FlatNode>)
    requires |flat| == |After(w, MAX_ROUNDS)|
    requires forall a :: 0 <= a < |flat| ==>
               var x := After(w, MAX_ROUNDS)[a];
               && flat[a].id == x.id && flat[a].body == x.node.body && |flat[a].inputs| == |x.node.inputs|
               && forall i :: 0 <= i < |x.node.inputs| ==>
                    flat[a].inputs[i] == FlatInput(x.node.inputs[i].name, x.node.inputs[i].ty, InSource(w, x.id, i))
    ensures flat == Drawn(w)
  {
    hide Unfold, InSource;
    forall a | 0 <= a < |flat| ensures flat[a] == Drawn(w)[a] {
      assert flat[a].inputs == DrawnInputs(w, After(w, MAX_ROUNDS)[a]);
    }
  }

  /**
   Expansion, re-aiming and patching.  The result is the flat workflow the drawing stands for,
   whatever link ids were free and whatever earlier conversions left in the list; afterwards the
   list is still faithful, so it can be converted again.
   */
  method FlattenWorkflow(f: LiveFlow, ghost w: Workflow, list: LinkList) returns (flat: seq<FlatNode>, t: Tables)
    requires WellFormed(w) && Holds(f, w)
    requires Faithful(w, list.links) && forall l :: l in w.top.links ==> l in list.links
    modifies list
    ensures old(list.links) <= list.links && Faithful(w, list.links)
    ensures Holds(f, w)
    ensures TablesFor(w, t)
    ensures flat == Drawn(w)
    ensures NestsWithin(w, w.top.nodes, 10) ==>
      && (forall a :: 0 <= a < |flat| ==> flat[a].body.ty !in w.defs)
      && forall a, i, p {:trigger FedBy(w, (flat[a].id, i), p)} ::
           0 <= a < |flat| && 0 <= i < |flat[a].inputs| ==> (flat[a].inputs[i].src == Some(p) <==> FedBy(w, (flat[a].id, i), p))
  {
    hide WellFormed, NodeAt, Depth, Unfold, ListAs, TablesFor, Faithful, Covers, Holds, UpdatesFor, LinkMapFor, InSource;
    var nodes;
    nodes, t := ExpandAll(f, w, list);
    label Resolving:
    var u, m := ResolveAll(list.links, t, w);
    assert unchanged@Resolving(CellsOf(nodes));
    ghost var olds, xs := AllCells(f), After(w, MAX_ROUNDS);
    DueUnshared(w, olds, list.links, t, u, m, nodes, MAX_ROUNDS);
    WiredBefore(w, olds, list.links, t, u, m, nodes);
    label Patching:
    PatchInputs(nodes, u);
    flat := ReadInputs(nodes, m);
    assert unchanged@Patching(olds);
    ReadsDrawn(w, flat);
    FlatMeans(w, flat);
  }

  /** The flat workflow, said of the drawing alone. */
  lemma FlatMeans(w: Workflow, flat: seq<FlatNode>)
    requires WellFormed(w) && flat == Drawn(w)
    ensures NestsWithin(w, w.top.nodes, 10) ==>
      && (forall a :: 0 <= a < |flat| ==> flat[a].body.ty !in w.defs)
      && forall a, i, p {:trigger FedBy(w, (flat[a].id, i), p)} ::
           0 <= a < |flat| && 0 <= i < |flat[a].inputs| ==> (flat[a].inputs[i].src == Some(p) <==> FedBy(w, (flat[a].id, i), p))
  {
    hide WellFormed, NodeAt, Drawn, NestsWithin, FedBy;
    if NestsWithin(w, w.top.nodes, 10) {
      forall a | 0 <= a < |flat| ensures flat[a].body.ty !in w.defs {
        DrawnNodes(w, flat[a].id);
        DrawnNode(w, a, 0, ("", 0));
      }
      forall a, i: nat, p | 0 <= a < |flat| && i < |flat[a].inputs|
        ensures flat[a].inputs[i].src == Some(p) <==> FedBy(w, (flat[a].id, i), p) {
        DrawnNode(w, a, i, p);
      }
    }
  }

  method ResolveAll(links: seq<Link>, t: Tables, ghost w: Workflow) returns (u: Updates, m: map<int, Pin>)
    requires Faithful(w, links)
    ensures UpdatesFor(t, links, u) && LinkMapFor(t, links, m)
  {
    u, m := ResolveLinks(t, links);
  }

  /** Just before patching: shapes, and where each patched link will lead. */
  lemma WiredBefore(w: Workflow, olds: set<InputInfo>, links: seq<Link>, t: Tables, u: Updates, m: map<int, Pin>,
                    nodes: seq<LiveNode>)
    requires WellFormed(w) && TablesFor(w, t) && Faithful(w, links) && Covers(w, links, t.outs.Keys)
    requires UpdatesFor(t, links, u) && LinkMapFor(t, links, m)
    requires ListAs(w, olds, links, nodes, After(w, MAX_ROUNDS))
    ensures |nodes| == |After(w, MAX_ROUNDS)|
    ensures forall a :: 0 <= a < |nodes| ==>
              var x := After(w, MAX_ROUNDS)[a];
              && nodes[a].id == x.id && nodes[a].body == x.node.body && |nodes[a].inputs| == |x.node.inputs|
              && forall i :: 0 <= i < |x.node.inputs| ==>
                   && nodes[a].inputs[i].name == x.node.inputs[i].name && nodes[a].inputs[i].ty == x.node.inputs[i].ty
                   && Follow(m, Patched(u, x.id, i, nodes[a].inputs[i].link)) == InSource(w, x.id, i)
  {
    hide WellFormed, NodeAt, Depth, Unfold, TablesFor, Faithful, Covers, UpdatesFor, LinkMapFor, InSource, Follow, Patched;
    var xs := After(w, MAX_ROUNDS);
    forall a, i | 0 <= a < |nodes| && 0 <= i < |nodes[a].inputs|
      ensures Follow(m, Patched(u, xs[a].id, i, nodes[a].inputs[i].link)) == InSource(w, xs[a].id, i)
    {
      assert xs[a] in xs;
      RemainingUnexpanded(w, t, xs[a]);
      assert LiveAs(w, olds, links, nodes[a], xs[a]);
      assert CellAs(w, olds, links, nodes[a].inputs[i], xs[a], i);
      WireIsDrawn(w, t, links, u, m, xs[a].id, i, nodes[a].inputs[i].link);
    }
    assert forall a :: 0 <= a < |nodes| ==> LiveAs(w, olds, links, nodes[a], xs[a]);
  }
}
