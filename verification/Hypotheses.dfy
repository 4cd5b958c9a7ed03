/**
 What the well-formedness conditions are for: for each one an example where dropping it breaks the
 theorem.  (More stand beside what they limit: NodeIds.ColonCollision for colons in
 ids, Passthrough.AlternationLimit and Passthrough.BypassedGetBlocks for routes.)
 */
module Hypotheses {
  import opened Wrappers
  import opened NodeIds
  import opened NestedGraph
  import opened OrderedMap
  import opened Boundaries
  import opened Flattening
  import opened LiveWorkflow
  import opened Expansion
  import opened Flatten
  import opened Passthrough
  import opened NodeClasses
  import opened Prompt

  /** One inner output on two ports: only the later port is recorded, the other's links are left on the expanded node. */
  lemma SharedOutputLosesPort(a: Id, slot: nat, t: Tables, s: Id)
    requires var g := Graph([], [Link(1, a, slot, OUT, 0, ""), Link(2, a, slot, OUT, 1, "")], [], [Port("x", [1]), Port("y", [2])]);
             s in t.outs && t.outs[s] == OutMapOf(g)
    ensures var g := Graph([], [Link(1, a, slot, OUT, 0, ""), Link(2, a, slot, OUT, 1, "")], [], [Port("x", [1]), Port("y", [2])]);
            && !OutputsSeparate(g) && FeedOf(g.links, OUT, 0) == Some(g.links[0])
            && ResolveOutput(t, s, 0, 0) == (s, 0)
  {
    var (l, m) := (Link(1, a, slot, OUT, 0, ""), Link(2, a, slot, OUT, 1, ""));
    var g := Graph([], [l, m], [], [Port("x", [1]), Port("y", [2])]);
    assert g.links[0] == l && g.links[1] == m;
    PairById(l, m);
    OnePort(g, 0);
    OnePort(g, 1);
    assert OutMapUpTo(g, 1) == [((a, slot), 0)];
    assert OutMapUpTo(g, 2) == [((a, slot), 1)];
    assert FirstFor([((a, slot), 1)], 0) == None;
  }

  lemma OnePort(g: Graph, j: nat)
    requires j < |g.outputs| && |g.outputs[j].linkIds| == 1 && g.outputs[j].linkIds[0] in ById(g.links)
    ensures var l := ById(g.links)[g.outputs[j].linkIds[0]];
            OutMapUpTo(g, j + 1) == Put<Pin, nat>(OutMapUpTo(g, j), (l.src, l.srcSlot), j)
  {
    var ids, m := g.outputs[j].linkIds, OutMapUpTo(g, j);
    assert ids[..|ids| - 1] == [];
    assert PutPort(ById(g.links), [], j, m) == m;
  }

  /** A link that its port does not list: the port stays on the expanded node although the drawing feeds it. */
  lemma UnlistedLinkLosesPort(a: Id, slot: nat, t: Tables, s: Id)
    requires var g := Graph([], [Link(1, a, slot, OUT, 0, "")], [], [Port("x", [])]);
             s in t.outs && t.outs[s] == OutMapOf(g)
    ensures var g := Graph([], [Link(1, a, slot, OUT, 0, "")], [], [Port("x", [])]);
            && !PortsAgree(g) && FeedOf(g.links, OUT, 0) == Some(g.links[0])
            && ResolveOutput(t, s, 0, 0) == (s, 0)
  {
    var g := Graph([], [Link(1, a, slot, OUT, 0, "")], [], [Port("x", [])]);
    assert g.links[0].id !in g.outputs[0].linkIds;
    assert OutMapUpTo(g, 1) == PutPort(ById(g.links), [], 0, []);
  }

  /** Two links on one port: the drawing and the table need not choose the same one. */
  lemma TwoLinksOnePort(a: Id, b: Id, t: Tables, s: Id)
    requires var g := Graph([], [Link(1, a, 0, OUT, 0, ""), Link(2, b, 0, OUT, 0, "")], [], [Port("x", [2, 1])]);
             a != b && s in t.outs && t.outs[s] == OutMapOf(g) && s + ":" + b !in t.outs
    ensures var g := Graph([], [Link(1, a, 0, OUT, 0, ""), Link(2, b, 0, OUT, 0, "")], [], [Port("x", [2, 1])]);
            && !OutputsSingle(g) && FeedOf(g.links, OUT, 0) == Some(g.links[0]) && g.links[0].src == a
            && ResolveOutput(t, s, 0, 0) == (s + ":" + b, 0)
  {
    var (l, m) := (Link(1, a, 0, OUT, 0, ""), Link(2, b, 0, OUT, 0, ""));
    var g := Graph([], [l, m], [], [Port("x", [2, 1])]);
    assert g.links[0] == l && g.links[1] == m;
    PairById(l, m);
    var ids := [2, 1];
    assert ids[..1] == [2] && [2][..0] == [];
    assert PutPort(ById(g.links), [], 0, []) == [];
    assert PutPort(ById(g.links), [2], 0, []) == [((b, 0), 0)];
    var one: seq<(Pin, nat)> := [((b, 0), 0)];
    assert one[1..] == [] && Put<Pin, nat>(one, (a, 0), 0) == one + [((a, 0), 0)];
    assert PutPort(ById(g.links), ids, 0, []) == Put<Pin, nat>(one, (a, 0), 0);
    assert OutMapUpTo(g, 1) == one + [((a, 0), 0)];
  }

  /** A definition that wires its input straight to its output: the source becomes a virtual node's name. */
  lemma DirectWireInventsSource(t: Tables, s: Id)
    requires var g := Graph([], [Link(1, IN, 0, OUT, 0, "")], [Port("i", [1])], [Port("o", [1])]);
             s in t.outs && t.outs[s] == OutMapOf(g) && Qualify(s, IN) !in t.outs && s != ""
    ensures ResolveOutput(t, s, 0, 0) == (Qualify(s, IN), 0)
  {
    var l := Link(1, IN, 0, OUT, 0, "");
    var g := Graph([], [l], [Port("i", [1])], [Port("o", [1])]);
    assert [l][..0] == [];
    assert ById(g.links) == map[1 := l];
    OnePort(g, 0);
  }

  /**
   An unnamed outer input falls back on its position.  When a named one already feeds the port there,
   the links of both are re-aimed into the same inner inputs, and the later one wins.
   */
  lemma PositionCollidesWithName(n: Node, g: Graph, t: Tables, s: Id)
    requires |n.inputs| == 2 && n.inputs[0].name in PortNames(g.inputs) && PortNames(g.inputs)[n.inputs[0].name] == 1
    requires n.inputs[1].name !in PortNames(g.inputs)
    requires s in t.slots && t.slots[s] == SlotMapOf(n, g)
    ensures PortOf(n, g, 0) == PortOf(n, g, 1)
    ensures s in t.ins && 1 in t.ins[s] && t.ins[s][1] != [] ==> ResolveInputAll(t, s, 0, 0) == ResolveInputAll(t, s, 1, 0)
  {
  }

  /**
   An inner input that does not name its link is not copied, so the expanded node holds the
   definition's own dictionary: patching it writes into the definition.
   */
  method UnnamedLinkSharesInput(cell: InputInfo, body: Body, s: Id, x: int)
    requires cell.link == None && s != ""
    modifies cell
    ensures cell.link == Some(x)
  {
    var inner := LiveNode("5", body, [cell]);
    var expanded := ExpandNodes(s, [inner], map[1 := Link(1, IN, 0, "5", 0, "")], map[1 := 8]);
    assert expanded[0].inputs[0] == cell by {
      assert InputMade(inner.inputs[0], expanded[0].inputs[0], (expanded[0].id, 0), map[1 := Link(1, IN, 0, "5", 0, "")], map[1 := 8]);
    }
    var u: Updates := map[expanded[0].id := map[0 := x]];
    assert Due(expanded, u, 0, 0);
    PatchInputs(expanded, u);
  }

  /** Two nodes of one id: the later one's entry replaces the earlier one's. */
  lemma DuplicateIdLosesEntry(reg: Registry, a: FlatNode, b: FlatNode)
    requires a.id == b.id && Emitted(ExcludedOf(reg, [a, b]), a) && Emitted(ExcludedOf(reg, [a, b]), b)
    ensures var prompt := PromptOf(reg, [a, b]);
            Keys(prompt) == [b.id] && Has(prompt, b.id) && Get(prompt, b.id).value.classType == b.body.ty
  {
    var nodes := [a, b];
    var (e, prims, excluded) := (EnvOf(nodes), PrimsOf(nodes), ExcludedOf(reg, nodes));
    assert nodes[..1] == [a] && [a][..0] == [];
    hide NodeInputs, Emitted, EnvOf, PrimsOf, ExcludedOf;
    assert PromptUpTo(reg, e, prims, excluded, []) == [];
    assert PromptUpTo(reg, e, prims, excluded, [a]) == [(a.id, ApiNode(a.body.ty, NodeInputs(reg, e, prims, excluded, a)))];
  }

  /** Two links of one id in a definition: a port that lists the one gets the end of the other. */
  lemma DuplicateLinkIdMisleads(l: Link, m: Link)
    requires l.id == m.id
    ensures Targets(ById([l, m]), [l.id]) == [(m.tgt, m.tgtSlot)]
  {
    assert [l, m][..1] == [l] && [l][..0] == [] && [l.id][..0] == [];
    assert Targets(ById([l, m]), []) == [];
  }

  /** An inner input that names a link of some other level keeps the id, and follows whatever link has it. */
  lemma ForeignLinkIsFollowed(x: int, byId: map<int, Link>, remap: map<int, int>, m: map<int, Pin>)
    requires x !in byId && x in m
    ensures Follow(m, NewLink(Some(x), byId, remap)) == Some(m[x])
  {
  }

  /** A muted source, or a Set node used as a source: the reference is kept, the entry is not. */
  lemma SkippedSourceDangles(reg: Registry, a: FlatNode, b: FlatNode, name: string, ty: string, slot: nat)
    requires a.id != b.id && (a.body.ty == "SetNode" || (a.body.mode == MUTED && !IsRouting(a.body.ty))) && a.body.mode != BYPASSED
    requires !IsExcluded(reg, a) && !IsExcluded(reg, b)
    requires b.body.ty != "" && b.body.mode == 0 && !IsRouting(b.body.ty) && b.inputs == [FlatInput(name, ty, Some((a.id, slot)))]
    ensures var prompt := PromptOf(reg, [a, b]);
            && Has(prompt, b.id) && Get(Get(prompt, b.id).value.inputs, name) == Some(Ref(a.id, slot))
            && !Has(prompt, a.id)
  {
    var nodes := [a, b];
    assert Quietly(a) && Quietly(b) && !Emitted({}, a) && Emitted({}, b) && b.inputs[0].src == Some((a.id, slot));
    assert nodes[0] == a && nodes[1] == b && Prompt.DistinctIds(nodes);
    NoTables(nodes);
    assert BypassedOf(nodes) == {} && ExcludedOf(reg, nodes) == {} by {
      hide IsExcluded, BypassedOf, ExcludedOf;
      NoneNamed(reg, nodes);
    }
    hide Quietly, NodeInputs, VarsOf, ReroutesOf, SetsOf, PrimsOf, BypassedOf, ExcludedOf, Trace, Emitted, Get, PromptUpTo, IsExcluded;
    RefDangles(reg, nodes, b, (a.id, slot));
    FindFlatUnique(nodes, a);
    EntriesOf(reg, EnvOf(nodes), PrimsOf(nodes), ExcludedOf(reg, nodes), nodes, a.id);
  }

  /** Neither a Get node, nor a Reroute, nor a primitive. */
  predicate Quietly(n: FlatNode) {
    n.body.ty != "GetNode" && n.body.ty != "Reroute" && n.body.ty != "PrimitiveNode"
  }

  lemma {:induction false} NoTables(nodes: seq<FlatNode>)
    requires forall n :: n in nodes ==> Quietly(n)
    ensures VarsOf(nodes) == map[] && ReroutesOf(nodes) == map[] && PrimsOf(nodes) == map[]
  {
    if nodes != [] {
      assert Quietly(nodes[|nodes| - 1]);
      NoTables(nodes[..|nodes| - 1]);
    }
  }

  lemma NoneNamed(reg: Registry, nodes: seq<FlatNode>)
    requires forall n :: n in nodes ==> n.body.mode != BYPASSED && !IsExcluded(reg, n)
    ensures BypassedOf(nodes) == {} && ExcludedOf(reg, nodes) == {}
  {
    hide IsExcluded;
  }

  /** Without routing nodes in between, an emitted node's one input refers to its source. */
  lemma RefDangles(reg: Registry, nodes: seq<FlatNode>, b: FlatNode, p: Pin)
    requires Prompt.DistinctIds(nodes) && b in nodes && Emitted(ExcludedOf(reg, nodes), b) && |b.inputs| == 1 && b.inputs[0].src == Some(p)
    requires VarsOf(nodes) == map[] && ReroutesOf(nodes) == map[] && PrimsOf(nodes) == map[]
    requires p.0 !in BypassedOf(nodes) && p.0 !in ExcludedOf(reg, nodes)
    ensures var prompt := PromptOf(reg, nodes);
            Has(prompt, b.id) && Get(Get(prompt, b.id).value.inputs, b.inputs[0].name) == Some(Ref(p.0, p.1))
  {
    var e := EnvOf(nodes);
    TraceStays(e, p);
    hide NodeInputs, VarsOf, ReroutesOf, SetsOf, PrimsOf, BypassedOf, ExcludedOf, Trace, Emitted, Get, PromptUpTo;
    RefIffSettled(reg, e, PrimsOf(nodes), ExcludedOf(reg, nodes), b, 0, p);
    FindFlatUnique(nodes, b);
    EntriesOf(reg, e, PrimsOf(nodes), ExcludedOf(reg, nodes), nodes, b.id);
  }

  lemma TraceStays(e: Env, p: Pin)
    requires p.0 !in e.vars && p.0 !in e.reroutes && p.0 !in e.bypassed
    ensures Trace(e, p) == Some(p)
  {
  }

  /** A node called like the virtual input node: the inputs it feeds are cut off, and its links are not emitted. */
  lemma NodeCalledInIsCutOff(l: Link, links: seq<Link>, remap: map<int, int>)
    requires l.src == IN && DistinctLinks(links) && l in links
    ensures NewLink(Some(l.id), ById(links), remap) == None && Virtual(l)
  {
    ByIdUnique(links, l);
  }

  /** A node called like the virtual output node: what is drawn into it leaves through a port, or nowhere. */
  lemma NodeCalledOutIsAPort(a: Id, slot: nat, t: Tables, s: Id)
    requires var g := Graph([], [Link(1, a, slot, OUT, 0, "")], [], [Port("x", [1])]);
             s in t.outs && t.outs[s] == OutMapOf(g) && s + ":" + a !in t.outs
    ensures Virtual(Link(1, a, slot, OUT, 0, "")) && ResolveOutput(t, s, 0, 0) == (s + ":" + a, slot)
  {
    var l := Link(1, a, slot, OUT, 0, "");
    var g := Graph([], [l], [], [Port("x", [1])]);
    assert [l][..0] == [];
    assert ById(g.links) == map[1 := l];
    OnePort(g, 0);
  }

  /** A port at the top level: the drawing feeds its input from nowhere, the conversion from a node called like the virtual one. */
  lemma TopPortDangles(w: Workflow, x: Id, t: Tables, l: Link)
    requires Plain(x) && w.top.links == [l] && l.src == IN && l.tgt == x && l.tgtSlot == 0 && IN !in t.outs
    ensures InSource(w, x, 0) == None && ResolveOutput(t, l.src, l.srcSlot, 0) == (IN, l.srcSlot)
  {
    SplitQualify("", x);
    assert Qualify("", x) == x;
  }

  /** A source that is no node: the reference is kept, and there is nothing for it to refer to. */
  lemma MissingSourceDangles(reg: Registry, x: Id, b: FlatNode, name: string, ty: string, slot: nat)
    requires b.id != x && Emitted(ExcludedOf(reg, [b]), b) && b.inputs == [FlatInput(name, ty, Some((x, slot)))]
    ensures var prompt := PromptOf(reg, [b]);
            Has(prompt, b.id) && Get(Get(prompt, b.id).value.inputs, name) == Some(Ref(x, slot)) && !Has(prompt, x)
  {
    var nodes := [b];
    assert Quietly(b) && nodes[0] == b && Prompt.DistinctIds(nodes);
    NoTables(nodes);
    assert x !in BypassedOf(nodes) && x !in ExcludedOf(reg, nodes);
    hide Quietly, NodeInputs, VarsOf, ReroutesOf, SetsOf, PrimsOf, BypassedOf, ExcludedOf, Trace, Emitted, Get, PromptUpTo, IsExcluded;
    RefDangles(reg, nodes, b, (x, slot));
    assert FindFlat(nodes, x) == None;
    EntriesOf(reg, EnvOf(nodes), PrimsOf(nodes), ExcludedOf(reg, nodes), nodes, x);
  }
}
