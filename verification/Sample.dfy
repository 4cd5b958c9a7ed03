/** A small drawing, under any names: node a feeds subgraph node b, whose inner node d feeds node c. */
module Sample {
  import opened Wrappers
  import opened NodeIds
  import opened NestedGraph

  function Plainly(ty: string): Body {
    Body(ty, 0, [Output("T", true)], NoWidgets, None)
  }

  function Top(sub: string, ty: string, a: Id, b: Id, c: Id): Graph {
    Graph([Node(a, Plainly(ty), []), Node(b, Plainly(sub), [Input("x", "T", Some(1))]), Node(c, Plainly(ty), [Input("y", "T", Some(2))])],
          [Link(1, a, 0, b, 0, "T"), Link(2, b, 0, c, 0, "T")], [], [])
  }

  function Inner(ty: string, d: Id): Graph {
    Graph([Node(d, Plainly(ty), [Input("u", "T", Some(1))])],
          [Link(1, IN, 0, d, 0, "T"), Link(2, d, 0, OUT, 0, "T")], [Port("x", [1])], [Port("o", [2])])
  }

  function Drawing(sub: string, ty: string, a: Id, b: Id, c: Id, d: Id): Workflow {
    Workflow(Top(sub, ty, a, b, c), map[sub := Inner(ty, d)])
  }

  predicate Usable(x: Id) {
    Plain(x) && x != IN && x != OUT
  }

  predicate Names(sub: string, ty: string, a: Id, b: Id, c: Id, d: Id) {
    sub != ty && Usable(a) && Usable(b) && Usable(c) && Usable(d) && a != b && b != c && a != c
  }

  lemma TopIds(sub: string, ty: string, a: Id, b: Id, c: Id, d: Id)
    requires Names(sub, ty, a, b, c, d)
    ensures var g := Top(sub, ty, a, b, c); PlainIds(g) && UniqueIds(g) && UniqueLinks(g)
  {
    hide Plain;
  }

  lemma TopWired(sub: string, ty: string, a: Id, b: Id, c: Id, d: Id)
    requires Names(sub, ty, a, b, c, d)
    ensures var g := Top(sub, ty, a, b, c); InputsNameLinks(g) && LinksNameInputs(g) && SourcesExist(g)
  {
    hide Plain, IN;
    var g := Top(sub, ty, a, b, c);
    PairById(g.links[0], g.links[1]);
    FindNodeUnique(g.nodes, 0);
    FindNodeUnique(g.nodes, 1);
    FindNodeUnique(g.nodes, 2);
    hide FindNode;
    assert InputsNameLinks(g);
    assert LinksNameInputs(g);
  }

  lemma TopPorts(sub: string, ty: string, a: Id, b: Id, c: Id, d: Id)
    requires Names(sub, ty, a, b, c, d)
    ensures var g := Top(sub, ty, a, b, c);
            PortsAgree(g) && OutputsSingle(g) && OutputsSeparate(g) && NoDirectWire(g) && SlotsSeparate(Drawing(sub, ty, a, b, c, d), g)
  {
    hide Plain, PortOf;
    var g := Top(sub, ty, a, b, c);
    assert forall l :: l in g.links ==> l.src != IN && l.tgt != OUT;
  }

  lemma InnerIds(ty: string, d: Id)
    requires Usable(d)
    ensures var g := Inner(ty, d); PlainIds(g) && UniqueIds(g) && UniqueLinks(g)
  {
    hide Plain;
  }

  lemma InnerWired(ty: string, d: Id)
    requires Usable(d)
    ensures var g := Inner(ty, d); InputsNameLinks(g) && LinksNameInputs(g) && SourcesExist(g)
  {
    hide Plain;
    var g := Inner(ty, d);
    PairById(g.links[0], g.links[1]);
    assert FindNode(g.nodes, d) == Some(g.nodes[0]);
  }

  lemma InnerPorts(sub: string, ty: string, a: Id, b: Id, c: Id, d: Id)
    requires Names(sub, ty, a, b, c, d)
    ensures var g := Inner(ty, d);
            PortsAgree(g) && OutputsSingle(g) && OutputsSeparate(g) && NoDirectWire(g) && SlotsSeparate(Drawing(sub, ty, a, b, c, d), g)
  {
    hide Plain, PortOf;
    assert PortsAgree(Inner(ty, d));
  }

  /** So the theorems about well-formed drawings are about something. */
  lemma DrawingWellFormed(sub: string, ty: string, a: Id, b: Id, c: Id, d: Id)
    requires Names(sub, ty, a, b, c, d)
    ensures WellFormed(Drawing(sub, ty, a, b, c, d))
  {
    TopIds(sub, ty, a, b, c, d);
    TopWired(sub, ty, a, b, c, d);
    TopPorts(sub, ty, a, b, c, d);
    InnerIds(ty, d);
    InnerWired(ty, d);
    InnerPorts(sub, ty, a, b, c, d);
    hide PlainIds, UniqueIds, UniqueLinks, InputsNameLinks, LinksNameInputs, SourcesExist, PortsAgree, OutputsSingle,
      OutputsSeparate, NoDirectWire, SlotsSeparate;
  }

  lemma Levels(sub: string, ty: string, a: Id, b: Id, c: Id, d: Id)
    requires Names(sub, ty, a, b, c, d)
    ensures var w := Drawing(sub, ty, a, b, c, d);
            && NodeAt(w, b) == Some(w.top.nodes[1]) && LevelAt(w, b) == Some(Inner(ty, d))
            && LevelAt(w, a) == None && LevelAt(w, Qualify(b, d)) == None
  {
    var w := Drawing(sub, ty, a, b, c, d);
    assert Qualify("", a) == a && Qualify("", b) == b;
    hide Qualify, LastColon, Depth, Parent, Leaf;
    NodeAtQualify(w, "", a);
    NodeAtQualify(w, "", b);
    hide NodeAt;
    FindNodeUnique(w.top.nodes, 0);
    FindNodeUnique(w.top.nodes, 1);
    NodeAtQualify(w, b, d);
    assert FindNode(Inner(ty, d).nodes, d) == Some(Inner(ty, d).nodes[0]);
  }

  lemma Feeds(sub: string, ty: string, a: Id, b: Id, c: Id, d: Id)
    requires Names(sub, ty, a, b, c, d)
    ensures var (g, h) := (Top(sub, ty, a, b, c), Inner(ty, d));
            && FeedOf(g.links, c, 0) == Some(g.links[1])
            && FeedOf(h.links, d, 0) == Some(h.links[0]) && FeedOf(h.links, OUT, 0) == Some(h.links[1])
            && OuterSlot(g.nodes[1], h, 0, 0) == Some(0)
            && FeedOf(g.links, b, 0) == Some(g.links[0])
  {
    hide Plain;
    assert [Port("x", [1])][..0] == [];
    assert PortNames(Inner(ty, d).inputs) == map["x" := 0];
  }

  lemma FeedHere(w: Workflow, p: Id, x: Id, i: nat, l: Link)
    requires Plain(x) && LevelAt(w, p).Some? && FeedOf(LevelAt(w, p).value.links, x, i) == Some(l) && l.src != IN
    ensures InSource(w, Qualify(p, x), i) == Some(OutSource(w, Qualify(p, l.src), l.srcSlot))
  {
    SplitQualify(p, x);
    hide Qualify, Parent, Leaf, LastColon, OutSource, IN, LevelAt;
  }

  lemma FeedAbove(w: Workflow, p: Id, x: Id, i: nat, l: Link, k: nat)
    requires Plain(x) && p != "" && LevelAt(w, p).Some? && FeedOf(LevelAt(w, p).value.links, x, i) == Some(l) && l.src == IN
    requires OuterSlot(NodeAt(w, p).value, LevelAt(w, p).value, l.srcSlot, 0) == Some(k)
    ensures InSource(w, Qualify(p, x), i) == InSource(w, p, k)
  {
    SplitQualify(p, x);
    hide Qualify, Parent, Leaf, LastColon, OutSource, IN, OuterSlot;
  }

  /** The reference meaning at work: c is fed by the inner node d of b, and d by a. */
  lemma DrawingMeans(sub: string, ty: string, a: Id, b: Id, c: Id, d: Id)
    requires Names(sub, ty, a, b, c, d)
    ensures InSource(Drawing(sub, ty, a, b, c, d), c, 0) == Some((Qualify(b, d), 0))
    ensures InSource(Drawing(sub, ty, a, b, c, d), Qualify(b, d), 0) == Some((a, 0))
  {
    var w := Drawing(sub, ty, a, b, c, d);
    Levels(sub, ty, a, b, c, d);
    Feeds(sub, ty, a, b, c, d);
    FeedHere(w, "", c, 0, w.top.links[1]);
    FeedHere(w, "", b, 0, w.top.links[0]);
    FeedAbove(w, b, d, 0, Inner(ty, d).links[0], 0);
    assert OutSource(w, b, 0) == OutSource(w, Qualify(b, d), 0) by {
      PlainDepth(b);
      hide Plain, Qualify, Parent, Leaf, LastColon, Depth, NodeAt, InSource, FeedOf;
    }
    assert Qualify("", a) == a && Qualify("", b) == b && Qualify("", c) == c;
    hide Plain, Qualify, Parent, Leaf, LastColon, Depth, NodeAt, InSource, FeedOf, OuterSlot;
  }
}
