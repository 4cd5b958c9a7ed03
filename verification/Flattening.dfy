/**
 The flattened workflow means what was drawn.  A flat link list is trusted when every link in it is
 a copy of a drawn link, under whatever id; that is all the theorem needs, so it holds after any
 number of earlier conversions that left their own copies behind.
 */
module Flattening {
  import opened Wrappers
  import opened NodeIds
  import opened NestedGraph
  import opened Boundaries
  import opened Wiring
  import opened Frontier

  /** c is link l of level p with its ends renamed (the id is free). */
  ghost predicate CopyOf(w: Workflow, c: Link, p: Id, l: Link) {
    && LevelAt(w, p).Some? && l in LevelAt(w, p).value.links && l.src != IN && l.tgt != OUT
    && c.src == Qualify(p, l.src) && c.srcSlot == l.srcSlot
    && c.tgt == Qualify(p, l.tgt) && c.tgtSlot == l.tgtSlot
    && c.ty == l.ty
  }

  ghost predicate IsCopy(w: Workflow, c: Link) {
    exists p, l :: CopyOf(w, c, p, l)
  }

  /** Every flat link copies a drawn one and no id is used twice. */
  ghost predicate Faithful(w: Workflow, links: seq<Link>) {
    && DistinctLinks(links)
    && forall c {:trigger IsCopy(w, c)} :: c in links ==> IsCopy(w, c)
  }

  ghost predicate HasCopy(w: Workflow, links: seq<Link>, p: Id, l: Link) {
    exists c :: c in links && CopyOf(w, c, p, l)
  }

  /** Every drawn link of the top level and of the expanded levels has a copy. */
  ghost predicate Covers(w: Workflow, links: seq<Link>, levels: set<Id>) {
    forall p, l {:trigger HasCopy(w, links, p, l)} ::
      ((p == "" || p in levels) && LevelAt(w, p).Some? && l in LevelAt(w, p).value.links && l.src != IN && l.tgt != OUT)
      ==> HasCopy(w, links, p, l)
  }

  /** v is what expansion writes into input i of q: a copy of the drawn link, or nothing for a port. */
  ghost predicate WiredAs(w: Workflow, links: seq<Link>, q: Id, i: nat, v: Option<int>)
    requires WellFormed(w)
  {
    if !Connected(w, q, i) || DrawnLink(w, q, i).src == IN then v == None
    else v.Some? && exists c :: c in links && c.id == v.value && CopyOf(w, c, Parent(q), DrawnLink(w, q, i))
  }

  // ---------------------------------------------------------------- re-aimed links

  /** Flat link c is re-aimed into input i of q. */
  ghost predicate Reaches(t: Tables, c: Link, q: Id, i: nat) {
    q != c.tgt && (q, i) in ResolveInputAll(t, c.tgt, c.tgtSlot, 0)
  }

  /** The recorded updates are exactly the inputs that some link is re-aimed into. */
  ghost predicate UpdatesFor(t: Tables, links: seq<Link>, u: map<Id, map<nat, int>>) {
    && (forall q, i :: q in u && i in u[q] ==> exists c :: c in links && c.id == u[q][i] && Reaches(t, c, q, i))
    && (forall c, q, i :: c in links && Reaches(t, c, q, i) ==> q in u && i in u[q])
  }

  /** The link map gives every flat link its resolved source. */
  ghost predicate LinkMapFor(t: Tables, links: seq<Link>, m: map<int, Pin>) {
    forall c :: c in links ==> c.id in m && m[c.id] == ResolveOutput(t, c.src, c.srcSlot, 0)
  }

  function Patched(u: map<Id, map<nat, int>>, q: Id, i: nat, v: Option<int>): Option<int> {
    if q in u && i in u[q] then Some(u[q][i]) else v
  }

  /** Where an input's link leads. */
  function Follow(m: map<int, Pin>, v: Option<int>): Option<Pin> {
    if v.Some? && v.value in m then Some(m[v.value]) else None
  }

  // ---------------------------------------------------------------- the theorem

  /** A copy ends at a connected input and, followed, leads where that input's drawing leads. */
  lemma CopyMeans(w: Workflow, t: Tables, links: seq<Link>, m: map<int, Pin>, c: Link, p: Id, l: Link)
    requires WellFormed(w) && TablesFor(w, t) && LinkMapFor(t, links, m)
    requires c in links && CopyOf(w, c, p, l)
    ensures Connected(w, c.tgt, c.tgtSlot) && DrawnLink(w, c.tgt, c.tgtSlot) == l
    ensures Follow(m, Some(c.id)) == InSource(w, c.tgt, c.tgtSlot)
  {
    InnerEnd(w, p, l);
    GuardsNeverFire(t, c.src, c.srcSlot);
    SourceSide(w, t, c.src, c.srcSlot);
  }

  lemma UnfedInput(w: Workflow, g: Graph, n: Node, i: nat)
    requires LevelOk(w, g) && n in g.nodes && FindNode(g.nodes, n.id) == Some(n)
    requires !(i < |n.inputs| && n.inputs[i].link.Some?)
    ensures FeedOf(g.links, n.id, i) == None
  {
  }

  lemma UnconnectedMeans(w: Workflow, q: Id, i: nat)
    requires WellFormed(w) && NodeAt(w, q).Some? && !Connected(w, q, i)
    ensures InSource(w, q, i) == None
  {
    NodeAtNonEmpty(w, q);
    NodeAtParent(w, q);
    LevelIsOk(w, Parent(q));
    UnfedInput(w, LevelAt(w, Parent(q)).value, NodeAt(w, q).value, i);
  }

  /** An update holds the id of a copy that leads where the updated input's drawing leads. */
  lemma UpdateMeans(w: Workflow, t: Tables, links: seq<Link>, u: map<Id, map<nat, int>>, m: map<int, Pin>, q: Id, i: nat)
    requires WellFormed(w) && TablesFor(w, t) && Faithful(w, links)
    requires UpdatesFor(t, links, u) && LinkMapFor(t, links, m)
    requires q in u && i in u[q]
    ensures FromPort(w, q, i)
    ensures Follow(m, Some(u[q][i])) == InSource(w, q, i) && u[q][i] in m
  {
    var c :| c in links && c.id == u[q][i] && Reaches(t, c, q, i);
    assert IsCopy(w, c);
    var p, l :| CopyOf(w, c, p, l);
    CopyMeans(w, t, links, m, c, p, l);
    GuardsNeverFire(t, c.tgt, c.tgtSlot);
    TargetSound(w, t, c.tgt, c.tgtSlot, q, i);
  }

  /** An input that takes a value through a port does get an update. */
  lemma UpdateExists(w: Workflow, t: Tables, links: seq<Link>, u: map<Id, map<nat, int>>, q: Id, i: nat)
    requires WellFormed(w) && TablesFor(w, t) && Covers(w, links, t.outs.Keys)
    requires UpdatesFor(t, links, u)
    requires FromPort(w, q, i) && InSource(w, q, i).Some?
    requires q !in t.outs && Depth(q) <= MAX_ROUNDS
    ensures q in u && i in u[q]
  {
    assert (q, i) in InputsOf(t, q, i);
    var p, l := TargetComplete(w, t, q, i, (q, i));
    assert HasCopy(w, links, p, l);
    var c :| c in links && CopyOf(w, c, p, l);
    GuardsNeverFire(t, c.tgt, c.tgtSlot);
    assert Reaches(t, c, q, i);
  }

  /**
   Flattening preserves wiring: after the patches, following the link of any input of a remaining
   node leads to the node and slot that the drawing feeds it from, and nowhere if it feeds nothing.
   */
  lemma WireIsDrawn(w: Workflow, t: Tables, links: seq<Link>, u: map<Id, map<nat, int>>, m: map<int, Pin>,
                    q: Id, i: nat, v: Option<int>)
    requires WellFormed(w) && TablesFor(w, t)
    requires Faithful(w, links) && Covers(w, links, t.outs.Keys)
    requires UpdatesFor(t, links, u) && LinkMapFor(t, links, m)
    requires NodeAt(w, q).Some? && q !in t.outs && Depth(q) <= MAX_ROUNDS
    requires WiredAs(w, links, q, i, v)
    ensures Follow(m, Patched(u, q, i, v)) == InSource(w, q, i)
    ensures Patched(u, q, i, v).Some? <==> InSource(w, q, i).Some?
  {
    if q in u && i in u[q] {
      UpdateMeans(w, t, links, u, m, q, i);
    } else if !Connected(w, q, i) {
      UnconnectedMeans(w, q, i);
    } else if DrawnLink(w, q, i).src == IN {
      if InSource(w, q, i).Some? {
        UpdateExists(w, t, links, u, q, i);
      }
    } else {
      var c :| c in links && c.id == v.value && CopyOf(w, c, Parent(q), DrawnLink(w, q, i));
      CopyMeans(w, t, links, m, c, Parent(q), DrawnLink(w, q, i));
      NodeAtNonEmpty(w, q);
      QualifySplit(q);
    }
  }

  // ---------------------------------------------------------------- the flat workflow the drawing stands for

  datatype FlatInput = FlatInput(name: string, ty: string, src: Option<Pin>)

  datatype FlatNode = FlatNode(id: Id, body: Body, inputs: seq<FlatInput>)

  function DrawnInputs(w: Workflow, x: Placed): seq<FlatInput> {
    seq(|x.node.inputs|, i requires 0 <= i < |x.node.inputs| =>
      FlatInput(x.node.inputs[i].name, x.node.inputs[i].ty, InSource(w, x.id, i)))
  }

  /** The nodes that remain, with every input's drawn source. */
  function Drawn(w: Workflow): seq<FlatNode> {
    var xs := After(w, MAX_ROUNDS);
    seq(|xs|, a requires 0 <= a < |xs| => FlatNode(xs[a].id, xs[a].node.body, DrawnInputs(w, xs[a])))
  }
}
