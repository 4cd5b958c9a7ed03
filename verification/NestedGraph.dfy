/**
 The workflow a user draws: a top level of nodes and links, and subgraph definitions that nodes
 refer to by their type.  This module holds the data, what it means for an input to be fed by a
 source (a walk through the levels that knows nothing of expansion), and when a workflow is well
 formed.
 */
module NestedGraph {
  import opened Wrappers
  import opened Filters
  import opened NodeIds

  /** The virtual nodes of a definition: its inputs leave IN, its outputs arrive at OUT. */
  const IN: Id := "-10"
  const OUT: Id := "-20"

  /** The rounds of expansion the converter allows itself. */
  const MAX_ROUNDS: nat := 10

  datatype Value = Str(s: string) | Num(n: int) | Null

  datatype Widgets =
    | NoWidgets
    | ListWidgets(values: seq<Value>)
    | DictWidgets(entries: seq<(string, Value)>)

  datatype Output = Output(ty: string, connected: bool)

  datatype Input = Input(name: string, ty: string, link: Option<int>)

  /** What expansion copies untouched; alias is the class name a node may carry in its properties. */
  datatype Body = Body(ty: string, mode: int, outputs: seq<Output>, widgets: Widgets, alias: Option<string>)

  datatype Node = Node(id: Id, body: Body, inputs: seq<Input>)

  datatype Link = Link(id: int, src: Id, srcSlot: nat, tgt: Id, tgtSlot: nat, ty: string)

  datatype Port = Port(name: string, linkIds: seq<int>)

  /** One level: the top level, which has no ports, or a subgraph definition. */
  datatype Graph = Graph(nodes: seq<Node>, links: seq<Link>, inputs: seq<Port>, outputs: seq<Port>)

  /** defs holds the definitions whose id is a subgraph id; a node of such a type is a subgraph node. */
  datatype Workflow = Workflow(top: Graph, defs: map<string, Graph>)

  predicate IsSubgraph(w: Workflow, n: Node) {
    n.body.ty in w.defs
  }

  // ---------------------------------------------------------------- looking things up

  function FindNode(nodes: seq<Node>, x: Id): Option<Node> {
    FirstWhere(nodes, (n: Node) => n.id == x)
  }

  /** The link with that id; of several the last one, as when a dictionary is filled in order. */
  function ById(links: seq<Link>): (m: map<int, Link>)
    ensures forall x :: x in m ==> m[x] in links && m[x].id == x
    ensures forall l :: l in links ==> l.id in m
  {
    if links == [] then map[]
    else
      var l := links[|links| - 1];
      assert links == links[..|links| - 1] + [l];
      ById(links[..|links| - 1])[l.id := l]
  }

  predicate OnTop(q: Id) {
    LastColon(q) < 0
  }

  /** Empty, or with nothing in front of the last separator: no node is called that. */
  predicate NoName(q: Id) {
    q == "" || LastColon(q) == 0
  }

  /** The original of the node that expansion calls q, if the nested workflow has one. */
  function NodeAt(w: Workflow, q: Id): Option<Node>
    decreases |q|
  {
    if OnTop(q) then FindNode(w.top.nodes, q)
    else if NoName(q) then None
    else match NodeAt(w, Parent(q))
      case None => None
      case Some(n) => if IsSubgraph(w, n) then FindNode(w.defs[n.body.ty].nodes, Leaf(q)) else None
  }

  /** The level called p: the top level for "", the definition of subgraph node p otherwise. */
  function LevelAt(w: Workflow, p: Id): Option<Graph> {
    if p == "" then Some(w.top)
    else match NodeAt(w, p)
      case None => None
      case Some(n) => if IsSubgraph(w, n) then Some(w.defs[n.body.ty]) else None
  }

  // ---------------------------------------------------------------- what an input is fed by

  /** The link of a level that ends at input i of x (x may be OUT). */
  function FeedOf(links: seq<Link>, x: Id, i: nat): (r: Option<Link>)
    ensures r.Some? ==> r.value in links && r.value.tgt == x && r.value.tgtSlot == i
    ensures r.None? ==> forall l :: l in links ==> !(l.tgt == x && l.tgtSlot == i)
  {
    if links == [] then None
    else if links[0].tgt == x && links[0].tgtSlot == i then Some(links[0])
    else FeedOf(links[1..], x, i)
  }

  /** The position of each named port; of two ports with one name the last. */
  function PortNames(ports: seq<Port>): (m: map<string, nat>)
    ensures forall s :: s in m ==> m[s] < |ports| && ports[m[s]].name == s && s != ""
    ensures forall j :: 0 <= j < |ports| && ports[j].name != "" ==> ports[j].name in m
  {
    if ports == [] then map[]
    else
      var m := PortNames(ports[..|ports| - 1]);
      var s := ports[|ports| - 1].name;
      if s == "" then m else m[s := |ports| - 1]
  }

  /** No later port has the name. */
  lemma {:induction false} PortNamesLast(ports: seq<Port>, s: string, j: nat)
    requires s in PortNames(ports) && PortNames(ports)[s] < j < |ports|
    ensures ports[j].name != s
  {
    var k := |ports| - 1;
    if j < k && ports[k].name != s {
      PortNamesLast(ports[..k], s, j);
    }
  }

  /** The definition port that input k of a subgraph node feeds: by name, else by position. */
  function PortOf(n: Node, g: Graph, k: nat): nat {
    if k < |n.inputs| && n.inputs[k].name in PortNames(g.inputs)
    then PortNames(g.inputs)[n.inputs[k].name]
    else k
  }

  /** The connected input of a subgraph node, from position k on, that feeds port j. */
  function OuterSlot(n: Node, g: Graph, j: nat, k: nat): (r: Option<nat>)
    requires k <= |n.inputs|
    ensures r.Some? ==> k <= r.value < |n.inputs| && n.inputs[r.value].link.Some?
                        && PortOf(n, g, r.value) == j
    ensures r.None? ==> forall i :: k <= i < |n.inputs| ==> !(n.inputs[i].link.Some? && PortOf(n, g, i) == j)
    decreases |n.inputs| - k
  {
    if k == |n.inputs| then None
    else if n.inputs[k].link.Some? && PortOf(n, g, k) == j then Some(k)
    else OuterSlot(n, g, j, k + 1)
  }

  /**
   Downwards: the node and slot that really produce output slot of s.  A subgraph node's output is
   whatever its definition links to OUT there.
   */
  function OutSource(w: Workflow, s: Id, slot: nat): (Id, nat)
    decreases MAX_ROUNDS - Depth(s)
  {
    if s == "" || Depth(s) >= MAX_ROUNDS then (s, slot)
    else match LevelAt(w, s)
      case None => (s, slot)
      case Some(g) => match FeedOf(g.links, OUT, slot)
        case None => (s, slot)
        case Some(l) => QualifyDeeper(s, l.src); OutSource(w, Qualify(s, l.src), l.srcSlot)
  }

  /**
   The meaning of a drawn input: the node and slot that feed input i of q, or None.  A link from IN
   is followed upwards through the subgraph node's own input.
   */
  function InSource(w: Workflow, q: Id, i: nat): Option<(Id, nat)>
    decreases |q|
  {
    if NoName(q) then None
    else match LevelAt(w, Parent(q))
      case None => None
      case Some(g) => match FeedOf(g.links, Leaf(q), i)
        case None => None
        case Some(l) =>
          if l.src != IN then Some(OutSource(w, Qualify(Parent(q), l.src), l.srcSlot))
          else if Parent(q) == "" then None
          else match OuterSlot(NodeAt(w, Parent(q)).value, g, l.srcSlot, 0)
            case None => None
            case Some(k) => InSource(w, Parent(q), k)
  }

  // ---------------------------------------------------------------- well-formedness

  predicate PlainIds(g: Graph) {
    forall n :: n in g.nodes ==> Plain(n.id) && n.id != IN && n.id != OUT
  }

  predicate UniqueIds(g: Graph) {
    forall a, b :: 0 <= a < b < |g.nodes| ==> g.nodes[a].id != g.nodes[b].id
  }

  predicate DistinctLinks(links: seq<Link>) {
    forall a, b :: 0 <= a < b < |links| ==> links[a].id != links[b].id
  }

  predicate UniqueLinks(g: Graph) {
    DistinctLinks(g.links)
  }

  /** A connected input names a link of its own level that ends there. */
  predicate InputsNameLinks(g: Graph) {
    forall n, i {:trigger n.inputs[i]} :: n in g.nodes && 0 <= i < |n.inputs| && n.inputs[i].link.Some? ==>
      var x := n.inputs[i].link.value;
      x in ById(g.links) && ById(g.links)[x].tgt == n.id && ById(g.links)[x].tgtSlot == i
  }

  /** A link that does not go to OUT is named by the input it ends at. */
  predicate LinksNameInputs(g: Graph) {
    forall l :: l in g.links && l.tgt != OUT ==>
      match FindNode(g.nodes, l.tgt)
      case None => false
      case Some(n) => l.tgtSlot < |n.inputs| && n.inputs[l.tgtSlot].link == Some(l.id)
  }

  predicate SourcesExist(g: Graph) {
    forall l :: l in g.links && l.src != IN ==> FindNode(g.nodes, l.src).Some?
  }

  /** The ports list exactly the links of the virtual nodes. */
  predicate PortsAgree(g: Graph) {
    forall l :: l in g.links ==>
      && (l.src == IN ==> l.srcSlot < |g.inputs|)
      && (l.tgt == OUT ==> l.tgtSlot < |g.outputs|)
      && (forall j :: 0 <= j < |g.inputs| ==> (l.id in g.inputs[j].linkIds <==> (l.src == IN && l.srcSlot == j)))
      && (forall j :: 0 <= j < |g.outputs| ==> (l.id in g.outputs[j].linkIds <==> (l.tgt == OUT && l.tgtSlot == j)))
  }

  /** One link per output port. */
  predicate OutputsSingle(g: Graph) {
    forall l, m :: l in g.links && m in g.links && l.tgt == OUT && m.tgt == OUT && l.tgtSlot == m.tgtSlot ==> l == m
  }

  /** No inner output feeds two output ports. */
  predicate OutputsSeparate(g: Graph) {
    forall l, m ::
      (l in g.links && m in g.links && l.tgt == OUT && m.tgt == OUT && l.src == m.src && l.srcSlot == m.srcSlot)
      ==> l.tgtSlot == m.tgtSlot
  }

  predicate NoDirectWire(g: Graph) {
    forall l :: l in g.links ==> !(l.src == IN && l.tgt == OUT)
  }

  /** Two connected inputs of a subgraph node feed two different ports. */
  predicate SlotsSeparate(w: Workflow, g: Graph) {
    forall n :: n in g.nodes && IsSubgraph(w, n) ==>
      forall a, b :: 0 <= a < b < |n.inputs| && n.inputs[a].link.Some? && n.inputs[b].link.Some? ==>
        PortOf(n, w.defs[n.body.ty], a) != PortOf(n, w.defs[n.body.ty], b)
  }

  predicate LevelOk(w: Workflow, g: Graph) {
    && PlainIds(g) && UniqueIds(g) && UniqueLinks(g)
    && InputsNameLinks(g) && LinksNameInputs(g) && SourcesExist(g)
    && PortsAgree(g) && OutputsSingle(g) && OutputsSeparate(g) && NoDirectWire(g)
    && SlotsSeparate(w, g)
  }

  predicate IsLevel(w: Workflow, g: Graph) {
    g == w.top || g in w.defs.Values
  }

  /** Every level is in order, and the top level has no ports. */
  ghost predicate WellFormed(w: Workflow) {
    && w.top.inputs == [] && w.top.outputs == []
    && forall g :: IsLevel(w, g) ==> LevelOk(w, g)
  }

  /** Definitions are nested at most k deep below these nodes (so they do not contain themselves). */
  predicate NestsWithin(w: Workflow, nodes: seq<Node>, k: nat)
    decreases k
  {
    forall n :: n in nodes && IsSubgraph(w, n) ==> k > 0 && NestsWithin(w, w.defs[n.body.ty].nodes, k - 1)
  }

  // ---------------------------------------------------------------- consequences

  lemma FindNodeUnique(nodes: seq<Node>, a: nat)
    requires a < |nodes|
    requires forall b, c :: 0 <= b < c < |nodes| ==> nodes[b].id != nodes[c].id
    ensures FindNode(nodes, nodes[a].id) == Some(nodes[a])
  {
    assert nodes[a] in nodes;
    assert FindNode(nodes, nodes[a].id).Some?;
    var b :| 0 <= b < |nodes| && nodes[b] == FindNode(nodes, nodes[a].id).value;
  }

  lemma {:induction false} ByIdUnique(links: seq<Link>, l: Link)
    requires DistinctLinks(links) && l in links
    ensures l.id in ById(links) && ById(links)[l.id] == l
  {
    var k := |links| - 1;
    assert links == links[..k] + [links[k]];
    if l != links[k] {
      ByIdUnique(links[..k], l);
    }
  }

  lemma PairById(l: Link, m: Link)
    requires l.id != m.id
    ensures ById([l, m]) == map[l.id := l, m.id := m]
  {
    assert [l, m][..1] == [l] && [l][..0] == [];
    assert ById([]) == map[];
    assert ById([l]) == map[l.id := l];
  }

  lemma LevelIsOk(w: Workflow, p: Id)
    requires WellFormed(w) && LevelAt(w, p).Some?
    ensures LevelOk(w, LevelAt(w, p).value)
  {
  }

  /** A node of a level is found under its qualified name. */
  lemma NodeAtQualify(w: Workflow, p: Id, x: Id)
    requires Plain(x) && LevelAt(w, p).Some?
    ensures NodeAt(w, Qualify(p, x)) == FindNode(LevelAt(w, p).value.nodes, x)
  {
    SplitQualify(p, x);
  }

  lemma NodeAtParent(w: Workflow, q: Id)
    requires q != "" && NodeAt(w, q).Some?
    ensures LastColon(q) != 0
    ensures LevelAt(w, Parent(q)).Some?
    ensures NodeAt(w, q) == FindNode(LevelAt(w, Parent(q)).value.nodes, Leaf(q))
  {
  }

  lemma NodeAtNonEmpty(w: Workflow, q: Id)
    requires WellFormed(w) && NodeAt(w, q).Some?
    ensures q != ""
  {
    LevelIsOk(w, "");
    assert forall n :: n in w.top.nodes ==> Plain(n.id);
  }

  /** In a well-formed level at most one link ends at an input. */
  lemma FeedUnique(w: Workflow, g: Graph, l: Link)
    requires LevelOk(w, g) && l in g.links
    ensures FeedOf(g.links, l.tgt, l.tgtSlot) == Some(l)
  {
    var m := FeedOf(g.links, l.tgt, l.tgtSlot).value;
    if l.tgt != OUT {
      ByIdUnique(g.links, l);
      ByIdUnique(g.links, m);
    }
  }
}
