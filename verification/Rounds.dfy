/**
 The rounds of expansion over the live workflow.  Only the links list is written; every node of the
 definitions and of the top level keeps its input dictionaries as they were.
 */
module Rounds {
  import opened Wrappers
  import opened NodeIds
  import opened NestedGraph
  import opened Boundaries
  import opened Wiring
  import opened Frontier
  import opened Flattening
  import opened LiveWorkflow
  import opened Expansion

  /**
   Live node n is the expanded node x: same body, every input wired to a copy of the drawn link.  An
   input dictionary is one of the drawing's (in olds) or was made for this very input; those that a
   port feeds, which later get an update, are of the second kind.
   */
  ghost predicate LiveAs(w: Workflow, olds: set<InputInfo>, links: seq<Link>, n: LiveNode, x: Placed)
    requires WellFormed(w)
    reads n.inputs
  {
    && n.id == x.id && n.body == x.node.body && |n.inputs| == |x.node.inputs|
    && forall i :: 0 <= i < |n.inputs| ==> CellAs(w, olds, links, n.inputs[i], x, i)
  }

  ghost predicate CellAs(w: Workflow, olds: set<InputInfo>, links: seq<Link>, c: InputInfo, x: Placed, i: nat)
    requires WellFormed(w) && i < |x.node.inputs|
    reads c
  {
    && c.name == x.node.inputs[i].name && c.ty == x.node.inputs[i].ty
    && WiredAs(w, links, x.id, i, c.link)
    && (c in olds || c.home == (x.id, i))
    && (FromPort(w, x.id, i) ==> c !in olds)
  }

  ghost predicate ListAs(w: Workflow, olds: set<InputInfo>, links: seq<Link>, nodes: seq<LiveNode>, xs: seq<Placed>)
    requires WellFormed(w)
    reads CellsOf(nodes)
  {
    && |nodes| == |xs|
    && forall a :: 0 <= a < |nodes| ==>
         (forall c :: c in nodes[a].inputs ==> c in CellsOf(nodes)) && LiveAs(w, olds, links, nodes[a], xs[a])
  }

  // ---------------------------------------------------------------- facts about one expansion

  /** In a well-formed level the links that expansion skips are those of the virtual nodes. */
  lemma VirtualIs(w: Workflow, g: Graph, l: Link)
    requires LevelOk(w, g) && l in g.links
    ensures Virtual(l) <==> l.src == IN || l.tgt == OUT
  {
    assert l.tgt != OUT ==> FindNode(g.nodes, l.tgt).Some?;
    assert l.src != IN ==> FindNode(g.nodes, l.src).Some?;
    assert PlainIds(g);
  }

  /** A renamed link is a copy of the drawn one. */
  lemma RenamedCopies(w: Workflow, p: Id, l: Link, remap: map<int, int>)
    requires WellFormed(w) && p != "" && LevelAt(w, p).Some?
    requires l in LevelAt(w, p).value.links && !Virtual(l)
    ensures CopyOf(w, Renamed(p, l, remap), p, l)
  {
  }

  lemma ExpansionCopies(w: Workflow, p: Id, newLinks: seq<Link>, remap: map<int, int>)
    requires WellFormed(w) && p != "" && LevelAt(w, p).Some?
    requires forall c :: c in newLinks ==> exists l :: l in LevelAt(w, p).value.links && !Virtual(l) && c == Renamed(p, l, remap)
    ensures forall c :: c in newLinks ==> IsCopy(w, c)
  {
    forall c | c in newLinks ensures IsCopy(w, c) {
      var l :| l in LevelAt(w, p).value.links && !Virtual(l) && c == Renamed(p, l, remap);
      RenamedCopies(w, p, l, remap);
    }
  }

  /** What expansion writes into an inner input is the wiring the drawing asks for. */
  lemma ChildWired(w: Workflow, p: Id, m: Node, i: nat, remap: map<int, int>, links: seq<Link>)
    requires WellFormed(w) && p != "" && LevelAt(w, p).Some?
    requires m in LevelAt(w, p).value.nodes && i < |m.inputs|
    requires NodeAt(w, Qualify(p, m.id)) == Some(m) && Parent(Qualify(p, m.id)) == p
    requires forall l :: l in LevelAt(w, p).value.links ==> l.id in remap
    requires forall l :: l in LevelAt(w, p).value.links && !Virtual(l) ==> Renamed(p, l, remap) in links
    ensures var q, v := Qualify(p, m.id), m.inputs[i].link;
            var byId := ById(LevelAt(w, p).value.links);
            && WiredAs(w, links, q, i, NewLink(v, byId, remap))
            && (FromPort(w, q, i) ==> v.Some? && v.value in byId)
  {
    var q := Qualify(p, m.id);
    var g := LevelAt(w, p).value;
    LevelIsOk(w, p);
    if Connected(w, q, i) {
      var l := DrawnLink(w, q, i);
      ByIdUnique(g.links, l);
      VirtualIs(w, g, l);
      if l.src != IN {
        RenamedCopies(w, p, l, remap);
      }
    }
  }

  lemma ListMore(w: Workflow, olds: set<InputInfo>, links: seq<Link>, more: seq<Link>, nodes: seq<LiveNode>, xs: seq<Placed>)
    requires WellFormed(w) && ListAs(w, olds, links, nodes, xs)
    ensures ListAs(w, olds, links + more, nodes, xs)
  {
  }

  lemma ListConcat(w: Workflow, olds: set<InputInfo>, links: seq<Link>,
                   nodes: seq<LiveNode>, xs: seq<Placed>, nodes': seq<LiveNode>, xs': seq<Placed>)
    requires WellFormed(w) && ListAs(w, olds, links, nodes, xs) && ListAs(w, olds, links, nodes', xs')
    ensures CellsOf(nodes + nodes') == CellsOf(nodes) + CellsOf(nodes')
    ensures ListAs(w, olds, links, nodes + nodes', xs + xs')
  {
    hide WellFormed, LiveAs;
    var all, all' := nodes + nodes', xs + xs';
    assert CellsOf(all) == CellsOf(nodes) + CellsOf(nodes');
    forall a | 0 <= a < |all| ensures (forall c :: c in all[a].inputs ==> c in CellsOf(all)) && LiveAs(w, olds, links, all[a], all'[a]) {
      if a < |nodes| {
        assert LiveAs(w, olds, links, nodes[a], xs[a]);
      } else {
        assert LiveAs(w, olds, links, nodes'[a - |nodes|], xs'[a - |nodes|]);
      }
    }
  }

  lemma CoversMore(w: Workflow, links: seq<Link>, more: seq<Link>, levels: set<Id>)
    requires Covers(w, links, levels)
    ensures Covers(w, links + more, levels)
  {
    forall p, l |
      (p == "" || p in levels) && LevelAt(w, p).Some? && l in LevelAt(w, p).value.links && l.src != IN && l.tgt != OUT
      ensures HasCopy(w, links + more, p, l)
    {
      assert HasCopy(w, links, p, l);
      var c :| c in links && CopyOf(w, c, p, l);
      assert c in links + more;
    }
  }

  /** After an expansion the level's links all have copies too. */
  lemma CoversLevel(w: Workflow, links: seq<Link>, levels: set<Id>, p: Id, remap: map<int, int>)
    requires WellFormed(w) && Covers(w, links, levels) && p != "" && LevelAt(w, p).Some?
    requires forall l :: l in LevelAt(w, p).value.links && !Virtual(l) ==> Renamed(p, l, remap) in links
    ensures Covers(w, links, levels + {p})
  {
    LevelIsOk(w, p);
    forall l | l in LevelAt(w, p).value.links && l.src != IN && l.tgt != OUT
      ensures HasCopy(w, links, p, l)
    {
      VirtualIs(w, LevelAt(w, p).value, l);
      RenamedCopies(w, p, l, remap);
    }
  }

  lemma FaithfulMore(w: Workflow, links: seq<Link>, more: seq<Link>)
    requires Faithful(w, links) && DistinctLinks(more)
    requires forall c :: c in more ==> IsCopy(w, c)
    requires forall c, l :: c in more && l in links ==> c.id != l.id
    ensures Faithful(w, links + more)
  {
  }

  // ---------------------------------------------------------------- the loops

  lemma ChildCell(w: Workflow, olds: set<InputInfo>, links: seq<Link>, x: Placed, m: Node, i: nat,
                  c: InputInfo, d: InputInfo, remap: map<int, int>)
    requires WellFormed(w) && NodeAt(w, x.id) == Some(x.node) && IsSubgraph(w, x.node)
    requires m in w.defs[x.node.body.ty].nodes && i < |m.inputs| && c in olds
    requires m.inputs[i] == Input(c.name, c.ty, c.link)
    requires forall l :: l in w.defs[x.node.body.ty].links ==> l.id in remap
    requires forall l :: l in w.defs[x.node.body.ty].links && !Virtual(l) ==> Renamed(x.id, l, remap) in links
    requires InputMade(c, d, (Qualify(x.id, m.id), i), ById(w.defs[x.node.body.ty].links), remap)
    requires Copied(c, ById(w.defs[x.node.body.ty].links)) ==> d !in olds
    ensures CellAs(w, olds, links, d, Placed(Qualify(x.id, m.id), m), i)
  {
    NodeAtNonEmpty(w, x.id);
    ChildInPlace(w, x.id, m, Depth(x.id) + 1);
    assert Plain(m.id) by { LevelIsOk(w, x.id); }
    SplitQualify(x.id, m.id);
    ChildWired(w, x.id, m, i, remap, links);
  }

  /** The nodes of an expanded definition are live versions of the unfolding's places. */
  lemma ChildrenLive(w: Workflow, olds: set<InputInfo>, links: seq<Link>, x: Placed,
                     d: LiveGraph, nodes: seq<LiveNode>, remap: map<int, int>)
    requires WellFormed(w) && NodeAt(w, x.id) == Some(x.node) && IsSubgraph(w, x.node)
    requires SnapGraph(d) == w.defs[x.node.body.ty] && CellsOf(d.nodes) <= olds
    requires forall l :: l in w.defs[x.node.body.ty].links ==> l.id in remap
    requires forall l :: l in w.defs[x.node.body.ty].links && !Virtual(l) ==> Renamed(x.id, l, remap) in links
    requires |nodes| == |d.nodes|
    requires forall a :: 0 <= a < |nodes| ==>
               && nodes[a].id == x.id + ":" + d.nodes[a].id && nodes[a].body == d.nodes[a].body
               && |nodes[a].inputs| == |d.nodes[a].inputs|
    requires forall a, i :: 0 <= a < |nodes| && 0 <= i < |nodes[a].inputs| ==>
               && InputMade(d.nodes[a].inputs[i], nodes[a].inputs[i], (nodes[a].id, i), ById(w.defs[x.node.body.ty].links), remap)
               && (Copied(d.nodes[a].inputs[i], ById(w.defs[x.node.body.ty].links)) ==> nodes[a].inputs[i] !in olds)
    ensures ListAs(w, olds, links, nodes, UnfoldNode(w, x, 1))
  {
    hide WellFormed, NodeAt, Depth, InputMade, Copied, Renamed, Virtual, CellAs, Unfold, ById;
    var g := w.defs[x.node.body.ty];
    NodeAtNonEmpty(w, x.id);
    Unfold0(w, x.id, g.nodes);
    forall a, i | 0 <= a < |nodes| && 0 <= i < |nodes[a].inputs|
      ensures CellAs(w, olds, links, nodes[a].inputs[i], UnfoldNode(w, x, 1)[a], i)
    {
      assert d.nodes[a].inputs[i] in d.nodes[a].inputs;
      assert d.nodes[a].inputs[i] in CellsOf(d.nodes);
      ChildCell(w, olds, links, x, g.nodes[a], i, d.nodes[a].inputs[i], nodes[a].inputs[i], remap);
    }
  }

  // ---------------------------------------------------------------- the loops

  lemma TableKept(w: Workflow, t: Tables, t': Tables, p: Id)
    requires t.ins.Keys == t.outs.Keys == t.slots.Keys && t'.ins.Keys == t'.outs.Keys == t'.slots.Keys
    requires p in t.outs && p in t'.outs && TableOf(w, t, p)
    requires t'.ins[p] == t.ins[p] && t'.outs[p] == t.outs[p] && t'.slots[p] == t.slots[p]
    ensures TableOf(w, t', p)
  {
  }

  /** Recording one more definition. */
  lemma TablesRecord(w: Workflow, t: Tables, x: Placed, slotMap: map<nat, nat>) returns (t': Tables)
    requires TablesSound(w, t)
    requires NodeAt(w, x.id) == Some(x.node) && IsSubgraph(w, x.node) && Depth(x.id) < MAX_ROUNDS && x.id != ""
    requires slotMap == SlotMapOf(x.node, w.defs[x.node.body.ty])
    ensures t' == Tables(t.ins[x.id := InMapOf(w.defs[x.node.body.ty])],
                         t.outs[x.id := OutMapOf(w.defs[x.node.body.ty])],
                         t.slots[x.id := slotMap])
    ensures TablesSound(w, t')
  {
    hide InMapOf, OutMapOf, SlotMapOf, Depth, TablesSound;
    t' := Tables(t.ins[x.id := InMapOf(w.defs[x.node.body.ty])],
                 t.outs[x.id := OutMapOf(w.defs[x.node.body.ty])], t.slots[x.id := slotMap]);
    TablesMore(w, t, t', x.id);
  }

  /** Adding a level's renamed links to the list. */
  lemma ListGrows(w: Workflow, links: seq<Link>, more: seq<Link>, levels: set<Id>, p: Id, remap: map<int, int>)
    requires WellFormed(w) && Faithful(w, links) && Covers(w, links, levels)
    requires p != "" && LevelAt(w, p).Some?
    requires DistinctLinks(more) && forall c, l :: c in more && l in links ==> c.id != l.id
    requires forall c :: c in more ==> IsCopy(w, c)
    requires forall l :: l in LevelAt(w, p).value.links && !Virtual(l) ==> Renamed(p, l, remap) in more
    ensures Faithful(w, links + more) && Covers(w, links + more, levels + {p})
  {
    FaithfulMore(w, links, more);
    CoversMore(w, links, more, levels);
    CoversLevel(w, links + more, levels, p, remap);
  }

  lemma TablesMore(w: Workflow, t: Tables, t': Tables, p: Id)
    requires TablesSound(w, t) && p in t'.outs
    requires p in t'.ins && p in t'.slots
    requires t'.ins == t.ins[p := t'.ins[p]] && t'.outs == t.outs[p := t'.outs[p]] && t'.slots == t.slots[p := t'.slots[p]]
    requires TableOf(w, t', p)
    ensures TablesSound(w, t')
  {
    hide LevelAt, NodeAt, Depth, OutMapOf, InMapOf, SlotMapOf;
    forall q | q in t'.outs ensures TableOf(w, t', q) {
      if q != p {
        TableKept(w, t, t', q);
      }
    }
  }

  /** The products of one expansion, read as live nodes and copies. */
  method ExpandLive(f: LiveFlow, ghost w: Workflow, links: seq<Link>, n: LiveNode, ghost x: Placed)
    returns (nodes: seq<LiveNode>, newLinks: seq<Link>, inMap: map<nat, seq<Pin>>, outMap: seq<(Pin, nat)>,
             ghost remap: map<int, int>)
    requires WellFormed(w) && Holds(f, w)
    requires NodeAt(w, x.id) == Some(x.node) && IsSubgraph(w, x.node) && n.id == x.id && n.body == x.node.body
    ensures inMap == InMapOf(w.defs[n.body.ty]) && outMap == OutMapOf(w.defs[n.body.ty])
    ensures DistinctLinks(newLinks) && forall c, l :: c in newLinks && l in links ==> c.id != l.id
    ensures forall c :: c in newLinks ==> IsCopy(w, c)
    ensures forall l :: l in w.defs[n.body.ty].links && !Virtual(l) ==> Renamed(n.id, l, remap) in newLinks
    ensures ListAs(w, AllCells(f), links + newLinks, nodes, UnfoldNode(w, x, 1))
    ensures forall c :: c in CellsOf(nodes) ==> c in AllCells(f) || fresh(c)
  {
    hide WellFormed, Depth, Unfold, UnfoldNode, InMapOf, OutMapOf, ListAs, LevelOk, FindNode, Virtual, Renamed;
    var d := f.defs[n.body.ty];
    ghost var g := w.defs[n.body.ty];
    ghost var olds := AllCells(f);
    assert SnapGraph(d) == g && CellsOf(d.nodes) <= olds;
    NodeAtNonEmpty(w, x.id);
    LevelIsOk(w, x.id);
    nodes, newLinks, inMap, outMap, remap := ExpandSubgraph(n.id, d, g, links);
    forall a, i | 0 <= a < |nodes| && 0 <= i < |nodes[a].inputs|
      ensures nodes[a].inputs[i] in olds || fresh(nodes[a].inputs[i])
    {
      CellKnown(f, n.body.ty, d.nodes[a], i);
      assert InputMade(d.nodes[a].inputs[i], nodes[a].inputs[i], (nodes[a].id, i), ById(g.links), remap);
    }
    ExpansionCopies(w, x.id, newLinks, remap);
    ChildrenLive(w, olds, links + newLinks, x, d, nodes, remap);
  }

  /** One subgraph node: its definition's nodes, the links to add and the tables with its entries. */
  method ExpandNode(f: LiveFlow, ghost w: Workflow, links: seq<Link>, t: Tables, n: LiveNode, ghost x: Placed)
    returns (nodes: seq<LiveNode>, newLinks: seq<Link>, t': Tables)
    requires WellFormed(w) && Holds(f, w)
    requires Faithful(w, links) && TablesSound(w, t) && Covers(w, links, t.outs.Keys)
    requires NodeAt(w, x.id) == Some(x.node) && IsSubgraph(w, x.node) && Depth(x.id) < MAX_ROUNDS
    requires LiveAs(w, AllCells(f), links, n, x)
    ensures Faithful(w, links + newLinks) && TablesSound(w, t') && Covers(w, links + newLinks, t'.outs.Keys)
    ensures t'.outs.Keys == t.outs.Keys + {x.id}
    ensures ListAs(w, AllCells(f), links + newLinks, nodes, UnfoldNode(w, x, 1))
    ensures forall c :: c in CellsOf(nodes) ==> c in AllCells(f) || fresh(c)
  {
    hide WellFormed, Holds, Faithful, Covers, TablesSound, LiveAs, ListAs, NodeAt, Depth, Unfold, InMapOf, OutMapOf, SlotMapOf;
    LiveShape(f, w, links, n, x);
    var slotMap := RecordSlots(f.defs[n.body.ty], w.defs[n.body.ty], n, x.node);
    var inMap, outMap;
    ghost var remap;
    nodes, newLinks, inMap, outMap, remap := ExpandLive(f, w, links, n, x);
    t' := Tables(t.ins[n.id := inMap], t.outs[n.id := outMap], t.slots[n.id := slotMap]);
    NodeAtNonEmpty(w, x.id);
    ListGrows(w, links, newLinks, t.outs.Keys, x.id, remap);
    ghost var recorded := TablesRecord(w, t, x, slotMap);
    assert t'.outs.Keys == t.outs.Keys + {x.id};
  }

  lemma LiveShape(f: LiveFlow, w: Workflow, links: seq<Link>, n: LiveNode, x: Placed)
    requires WellFormed(w) && Holds(f, w) && IsSubgraph(w, x.node) && LiveAs(w, AllCells(f), links, n, x)
    ensures n.id == x.id && n.body == x.node.body && n.body.ty in f.defs
    ensures w.defs[n.body.ty].inputs == f.defs[n.body.ty].inputs
    ensures |n.inputs| == |x.node.inputs| && forall k :: 0 <= k < |n.inputs| ==> n.inputs[k].name == x.node.inputs[k].name
  {
  }

  method RecordSlots(d: LiveGraph, ghost g: Graph, n: LiveNode, ghost node: Node) returns (m: map<nat, nat>)
    requires g.inputs == d.inputs
    requires |n.inputs| == |node.inputs|
    requires forall k :: 0 <= k < |n.inputs| ==> n.inputs[k].name == node.inputs[k].name
    ensures m == SlotMapOf(node, g)
  {
    m := BuildSlotMap(n, node, Graph([], d.links, d.inputs, d.outputs));
    SlotMapShape(node, Graph([], d.links, d.inputs, d.outputs), g, |node.inputs|);
  }

  /** The same with the links list extended in place. */
  method ExpandOne(f: LiveFlow, ghost w: Workflow, list: LinkList, t: Tables, n: LiveNode, ghost x: Placed)
    returns (nodes: seq<LiveNode>, t': Tables)
    requires WellFormed(w) && Holds(f, w)
    requires Faithful(w, list.links) && TablesSound(w, t) && Covers(w, list.links, t.outs.Keys)
    requires NodeAt(w, x.id) == Some(x.node) && IsSubgraph(w, x.node) && Depth(x.id) < MAX_ROUNDS
    requires LiveAs(w, AllCells(f), list.links, n, x)
    modifies list
    ensures old(list.links) <= list.links
    ensures Faithful(w, list.links) && TablesSound(w, t') && Covers(w, list.links, t'.outs.Keys)
    ensures t'.outs.Keys == t.outs.Keys + {x.id}
    ensures ListAs(w, AllCells(f), list.links, nodes, UnfoldNode(w, x, 1))
    ensures forall c :: c in CellsOf(nodes) ==> c in AllCells(f) || fresh(c)
  {
    hide WellFormed, Faithful, Covers, TablesSound, LiveAs;
    var newLinks;
    nodes, newLinks, t' := ExpandNode(f, w, list.links, t, n, x);
    label Collected:
    list.Extend(newLinks);
    assert unchanged@Collected(CellsOf(nodes));
  }

  lemma RoundStep(w: Workflow, xs: seq<Placed>, a: nat)
    requires a < |xs|
    ensures Round(w, xs[..a + 1]) == Round(w, xs[..a]) + UnfoldNode(w, xs[a], 1)
  {
    assert xs[..a + 1][..a] == xs[..a];
  }

  /** Where the loop of a round stands after a nodes. */
  ghost predicate RoundState(f: LiveFlow, w: Workflow, links: seq<Link>, t: Tables, nodes: seq<LiveNode>, out: seq<LiveNode>,
                             k: nat, a: nat)
    requires WellFormed(w)
    reads AllCells(f), CellsOf(nodes), CellsOf(out)
  {
    && Holds(f, w) && k < MAX_ROUNDS && a <= |nodes|
    && Faithful(w, links) && TablesSound(w, t) && Covers(w, links, t.outs.Keys)
    && ListAs(w, AllCells(f), links, nodes, After(w, k))
    && ListAs(w, AllCells(f), links, out, Round(w, After(w, k)[..a]))
    && RecordedBelow(w, t, k)
    && forall b :: 0 <= b < a && IsSubgraph(w, After(w, k)[b].node) ==> After(w, k)[b].id in t.outs
  }

  /** The node whose turn it is. */
  lemma Turn(f: LiveFlow, w: Workflow, links: seq<Link>, t: Tables, nodes: seq<LiveNode>, out: seq<LiveNode>, k: nat, a: nat)
    requires WellFormed(w) && RoundState(f, w, links, t, nodes, out, k, a) && a < |nodes|
    ensures |After(w, k)| == |nodes|
    ensures var x := After(w, k)[a];
            && LiveAs(w, AllCells(f), links, nodes[a], x) && NodeAt(w, x.id) == Some(x.node)
            && (nodes[a].body.ty in f.defs <==> IsSubgraph(w, x.node))
            && (IsSubgraph(w, x.node) ==> Depth(x.id) < MAX_ROUNDS)
  {
    hide NodeAt, Depth, Unfold, Faithful, TablesSound, Covers, RecordedBelow;
    AfterInPlace(w, k);
    assert After(w, k)[a] in After(w, k);
  }

  /** An ordinary node is kept. */
  lemma KeepNode(f: LiveFlow, w: Workflow, links: seq<Link>, t: Tables, nodes: seq<LiveNode>, out: seq<LiveNode>, k: nat, a: nat)
    requires WellFormed(w) && RoundState(f, w, links, t, nodes, out, k, a) && a < |nodes|
    requires nodes[a].body.ty !in f.defs
    ensures CellsOf(out + [nodes[a]]) <= CellsOf(out) + CellsOf(nodes)
    ensures RoundState(f, w, links, t, nodes, out + [nodes[a]], k, a + 1)
  {
    hide Holds, NodeAt, Depth, Unfold, Faithful, TablesSound, Covers, LiveAs, RecordedBelow;
    Turn(f, w, links, t, nodes, out, k, a);
    var xs := After(w, k);
    RoundStep(w, xs, a);
    assert ListAs(w, AllCells(f), links, [nodes[a]], [xs[a]]);
    ListConcat(w, AllCells(f), links, out, Round(w, xs[..a]), [nodes[a]], [xs[a]]);
  }

  /** A subgraph node is replaced by its children. */
  lemma ReplaceNode(f: LiveFlow, w: Workflow, links: seq<Link>, t: Tables, nodes: seq<LiveNode>, out: seq<LiveNode>, k: nat, a: nat,
                    links': seq<Link>, t': Tables, children: seq<LiveNode>)
    requires WellFormed(w) && RoundState(f, w, links, t, nodes, out, k, a) && a < |nodes| == |After(w, k)|
    requires links <= links' && Faithful(w, links') && TablesSound(w, t') && Covers(w, links', t'.outs.Keys)
    requires t'.outs.Keys == t.outs.Keys + {After(w, k)[a].id}
    requires ListAs(w, AllCells(f), links', children, UnfoldNode(w, After(w, k)[a], 1))
    ensures CellsOf(out + children) == CellsOf(out) + CellsOf(children)
    ensures RoundState(f, w, links', t', nodes, out + children, k, a + 1)
  {
    hide Holds, NodeAt, Depth, Unfold, UnfoldNode, Faithful, TablesSound, Covers, ListAs;
    var xs := After(w, k);
    assert links' == links + links'[|links|..];
    ListMore(w, AllCells(f), links, links'[|links|..], nodes, xs);
    ListMore(w, AllCells(f), links, links'[|links|..], out, Round(w, xs[..a]));
    RoundStep(w, xs, a);
    ListConcat(w, AllCells(f), links', out, Round(w, xs[..a]), children, UnfoldNode(w, xs[a], 1));
  }

  /** A finished round. */
  lemma RoundDone(f: LiveFlow, w: Workflow, links: seq<Link>, t: Tables, nodes: seq<LiveNode>, out: seq<LiveNode>, k: nat)
    requires WellFormed(w) && RoundState(f, w, links, t, nodes, out, k, |nodes|)
    ensures RecordedBelow(w, t, k + 1)
    ensures ListAs(w, AllCells(f), links, out, After(w, k + 1))
  {
    hide Holds, Depth, Unfold, Faithful, TablesSound, Covers, LiveAs;
    var xs := After(w, k);
    assert xs[..|nodes|] == xs;
    RoundAfter(w, k);
    forall p | p != "" && LevelAt(w, p).Some? && Depth(p) < k + 1 ensures p in t.outs {
      if Depth(p) == k {
        AfterComplete(w, k, p);
      }
    }
  }

  /** One round over the working list. */
  method ExpandRound(f: LiveFlow, ghost w: Workflow, list: LinkList, t: Tables, nodes: seq<LiveNode>, ghost k: nat)
    returns (out: seq<LiveNode>, t': Tables, found: bool)
    requires WellFormed(w) && RoundState(f, w, list.links, t, nodes, [], k, 0)
    modifies list
    ensures old(list.links) <= list.links
    ensures RoundState(f, w, list.links, t', nodes, out, k, |nodes|)
    ensures found <==> exists a :: 0 <= a < |nodes| && nodes[a].body.ty in f.defs
    ensures forall c :: c in CellsOf(out) ==> c in AllCells(f) || c in CellsOf(nodes) || fresh(c)
  {
    hide WellFormed, RoundState, Depth, Unfold, UnfoldNode, NodeAt, LiveAs, ListAs;
    out, t', found := [], t, false;
    for a := 0 to |nodes|
      invariant old(list.links) <= list.links
      invariant RoundState(f, w, list.links, t', nodes, out, k, a)
      invariant found <==> exists b :: 0 <= b < a && nodes[b].body.ty in f.defs
      invariant forall c :: c in CellsOf(out) ==> c in AllCells(f) || c in CellsOf(nodes) || fresh(c)
    {
      Turn(f, w, list.links, t', nodes, out, k, a);
      if nodes[a].body.ty in f.defs {
        found := true;
        var children, t'' := ReplaceTurn(f, w, list, t', nodes, out, k, a);
        out, t' := out + children, t'';
      } else {
        KeepNode(f, w, list.links, t', nodes, out, k, a);
        out := out + [nodes[a]];
      }
    }
  }

  /** The body of the round's loop for a subgraph node. */
  method ReplaceTurn(f: LiveFlow, ghost w: Workflow, list: LinkList, t: Tables, nodes: seq<LiveNode>, ghost out: seq<LiveNode>,
                     ghost k: nat, a: nat) returns (children: seq<LiveNode>, t': Tables)
    requires WellFormed(w) && RoundState(f, w, list.links, t, nodes, out, k, a) && a < |nodes|
    requires nodes[a].body.ty in f.defs
    modifies list
    ensures old(list.links) <= list.links
    ensures RoundState(f, w, list.links, t', nodes, out + children, k, a + 1)
    ensures CellsOf(out + children) == CellsOf(out) + CellsOf(children)
    ensures forall c :: c in CellsOf(children) ==> c in AllCells(f) || fresh(c)
  {
    hide WellFormed, Holds, Depth, Unfold, UnfoldNode, NodeAt, LiveAs, ListAs, Faithful, TablesSound, Covers, RecordedBelow;
    Turn(f, w, list.links, t, nodes, out, k, a);
    label Before:
    children, t' := ExpandOne(f, w, list, t, nodes[a], After(w, k)[a]);
    assert unchanged@Before(AllCells(f)) && unchanged@Before(CellsOf(nodes)) && unchanged@Before(CellsOf(out));
    ReplaceNode(f, w, old@Before(list.links), t, nodes, out, k, a, list.links, t', children);
  }

  // ---------------------------------------------------------------- the bounded loop

  lemma TopCopy(w: Workflow, links: seq<Link>, l: Link)
    requires WellFormed(w) && l in w.top.links
    ensures l.src != IN && l.tgt != OUT && CopyOf(w, l, "", l)
  {
    LevelIsOk(w, "");
    assert PortsAgree(w.top);
  }

  lemma TopCell(f: LiveFlow, w: Workflow, links: seq<Link>, a: nat, i: nat)
    requires WellFormed(w) && Holds(f, w) && forall l :: l in w.top.links ==> l in links
    requires a < |f.nodes| && i < |f.nodes[a].inputs|
    ensures |w.top.nodes[a].inputs| == |f.nodes[a].inputs|
    ensures CellAs(w, AllCells(f), links, f.nodes[a].inputs[i], Placed(w.top.nodes[a].id, w.top.nodes[a]), i)
  {
    var n := w.top.nodes[a];
    CellKnown(f, "", f.nodes[a], i);
    ChildInPlace(w, "", n, 0);
    LevelIsOk(w, "");
    assert Plain(n.id);
    SplitQualify("", n.id);
    if Connected(w, n.id, i) {
      TopCopy(w, links, DrawnLink(w, n.id, i));
    }
  }

  /** Before the first round. */
  lemma StartState(f: LiveFlow, w: Workflow, links: seq<Link>)
    requires WellFormed(w) && Holds(f, w)
    requires Faithful(w, links) && forall l :: l in w.top.links ==> l in links
    ensures RoundState(f, w, links, Tables(map[], map[], map[]), f.nodes, [], 0, 0)
  {
    hide CellAs, NodeAt, Depth, FindNode;
    Unfold0(w, "", w.top.nodes);
    forall a | 0 <= a < |f.nodes|
      ensures (forall c :: c in f.nodes[a].inputs ==> c in CellsOf(f.nodes)) && LiveAs(w, AllCells(f), links, f.nodes[a], After(w, 0)[a])
    {
      assert After(w, 0)[a] == Placed(w.top.nodes[a].id, w.top.nodes[a]);
      forall i | 0 <= i < |f.nodes[a].inputs| ensures CellAs(w, AllCells(f), links, f.nodes[a].inputs[i], After(w, 0)[a], i) {
        TopCell(f, w, links, a, i);
      }
    }
    assert After(w, 0)[..0] == [];
    StartCovers(w, links);
  }

  lemma StartCovers(w: Workflow, links: seq<Link>)
    requires WellFormed(w) && forall l :: l in w.top.links ==> l in links
    ensures Covers(w, links, {})
  {
  }

  /** The tables are complete once no subgraph node is left. */
  lemma FinishedTables(w: Workflow, t: Tables, k: nat)
    requires WellFormed(w) && TablesSound(w, t) && RecordedBelow(w, t, k) && NoSubgraphs(w, After(w, k))
    ensures TablesFor(w, t)
  {
    hide TablesSound, NodeAt, Depth, Unfold;
    forall p | p != "" && LevelAt(w, p).Some? && Depth(p) < MAX_ROUNDS ensures p in t.outs {
      NoLevelBelow(w, p, k);
    }
  }

  lemma NoneExpandable(f: LiveFlow, w: Workflow, links: seq<Link>, nodes: seq<LiveNode>, xs: seq<Placed>)
    requires WellFormed(w) && Holds(f, w) && ListAs(w, AllCells(f), links, nodes, xs)
    requires forall a :: 0 <= a < |nodes| ==> nodes[a].body.ty !in f.defs
    ensures NoSubgraphs(w, xs)
  {
    hide WellFormed, CellAs, SnapGraph, SnapNodes;
    forall x | x in xs ensures !IsSubgraph(w, x.node) {
      var a :| 0 <= a < |xs| && xs[a] == x;
      assert LiveAs(w, AllCells(f), links, nodes[a], xs[a]);
    }
  }

  lemma NextRound(f: LiveFlow, w: Workflow, links: seq<Link>, t: Tables, nodes: seq<LiveNode>, out: seq<LiveNode>, k: nat)
    requires WellFormed(w) && RoundState(f, w, links, t, nodes, out, k, |nodes|)
    ensures Faithful(w, links) && Covers(w, links, t.outs.Keys) && TablesSound(w, t) && Holds(f, w)
    ensures RecordedBelow(w, t, k + 1) && ListAs(w, AllCells(f), links, out, After(w, k + 1))
    ensures k + 1 < MAX_ROUNDS ==> RoundState(f, w, links, t, out, [], k + 1, 0)
    ensures k + 1 == MAX_ROUNDS ==> TablesFor(w, t)
    ensures (forall a :: 0 <= a < |nodes| ==> nodes[a].body.ty !in f.defs) ==>
              TablesFor(w, t) && After(w, k + 1) == After(w, MAX_ROUNDS)
  {
    hide NodeAt, Depth, Unfold, UnfoldNode, Faithful, TablesSound, Covers, WellFormed, Holds, CellAs;
    RoundDone(f, w, links, t, nodes, out, k);
    var xs := After(w, k);
    assert After(w, k + 1)[..0] == [];
    if forall a :: 0 <= a < |nodes| ==> nodes[a].body.ty !in f.defs {
      NoneExpandable(f, w, links, nodes, xs);
      FinishedStays(w, k, k + 1);
      FinishedStays(w, k, MAX_ROUNDS);
      FinishedTables(w, t, k + 1);
    }
  }

  /**
   All rounds.  The links list only grows, and stays a faithful list of copies; the tables record
   exactly the subgraph nodes nested less than MAX_ROUNDS deep; the working list ends as the drawing
   unfolded ten levels deep.
   */
  method ExpandAll(f: LiveFlow, ghost w: Workflow, list: LinkList) returns (nodes: seq<LiveNode>, t: Tables)
    requires WellFormed(w) && Holds(f, w)
    requires Faithful(w, list.links) && forall l :: l in w.top.links ==> l in list.links
    modifies list
    ensures old(list.links) <= list.links
    ensures Holds(f, w) && Faithful(w, list.links) && TablesFor(w, t) && Covers(w, list.links, t.outs.Keys)
    ensures ListAs(w, AllCells(f), list.links, nodes, After(w, 10))
    ensures forall c :: c in CellsOf(nodes) ==> c in AllCells(f) || fresh(c)
  {
    hide WellFormed, RoundState, NodeAt, Depth, Unfold, UnfoldNode, ListAs, TablesFor, Faithful, Covers, Holds;
    nodes, t := f.nodes, Tables(map[], map[], map[]);
    StartState(f, w, list.links);
    var iteration := 0;
    while iteration < MAX_ROUNDS
      invariant 0 <= iteration < MAX_ROUNDS
      invariant old(list.links) <= list.links
      invariant RoundState(f, w, list.links, t, nodes, [], iteration, 0)
      invariant forall c :: c in CellsOf(nodes) ==> c in AllCells(f) || fresh(c)
      decreases MAX_ROUNDS - iteration
    {
      var expanded, t', found := ExpandRound(f, w, list, t, nodes, iteration);
      NextRound(f, w, list.links, t', nodes, expanded, iteration);
      iteration := iteration + 1;
      nodes, t := expanded, t';
      if !found || iteration == MAX_ROUNDS {
        break;
      }
    }
  }
}
