/**
 Why re-aiming links through the boundary tables preserves the drawing: every walk downwards from a
 link's end keeps the meaning InSource, and every input that takes its value through a port is
 reached by such a walk.
 */
module Wiring {
  import opened Wrappers
  import opened NodeIds
  import opened NestedGraph
  import opened Boundaries

  /** What is recorded for p is what the definition of subgraph node p says. */
  ghost predicate TableOf(w: Workflow, t: Tables, p: Id)
    requires t.ins.Keys == t.outs.Keys == t.slots.Keys && p in t.outs
  {
    && p != "" && LevelAt(w, p).Some? && Depth(p) < MAX_ROUNDS
    && t.outs[p] == OutMapOf(LevelAt(w, p).value)
    && t.ins[p] == InMapOf(LevelAt(w, p).value)
    && t.slots[p] == SlotMapOf(NodeAt(w, p).value, LevelAt(w, p).value)
  }

  /** Every recorded table is that of a subgraph node nested less than MAX_ROUNDS deep. */
  ghost predicate TablesSound(w: Workflow, t: Tables) {
    && t.ins.Keys == t.outs.Keys == t.slots.Keys
    && forall p :: p in t.outs ==> TableOf(w, t, p)
  }

  /** The subgraph nodes nested less than k deep are recorded. */
  ghost predicate RecordedBelow(w: Workflow, t: Tables, k: nat) {
    forall p :: p != "" && LevelAt(w, p).Some? && Depth(p) < k ==> p in t.outs
  }

  /** The tables are those of exactly the subgraph nodes nested less than MAX_ROUNDS deep. */
  ghost predicate TablesFor(w: Workflow, t: Tables) {
    TablesSound(w, t) && RecordedBelow(w, t, MAX_ROUNDS)
  }

  /** EachOf collects what the single entries reach. */
  lemma {:induction false} EachSource(t: Tables, v: Id, pins: seq<Pin>, q: Pin) returns (pin: Pin)
    requires KeysShallow(t) && v in t.ins
    requires q in EachOf(t, v, pins)
    ensures pin in pins && q in InputsOf(t, v + ":" + pin.0, pin.1)
  {
    if q in InputsOf(t, v + ":" + pins[0].0, pins[0].1) {
      pin := pins[0];
    } else {
      pin := EachSource(t, v, pins[1..], q);
    }
  }

  lemma {:induction false} EachMember(t: Tables, v: Id, pins: seq<Pin>, pin: Pin, q: Pin)
    requires KeysShallow(t) && v in t.ins && pin in pins
    requires q in InputsOf(t, v + ":" + pin.0, pin.1)
    ensures q in EachOf(t, v, pins)
  {
    if pins[0] != pin {
      EachMember(t, v, pins[1..], pin, q);
    }
  }

  /** An input of an unexpanded node reaches itself; otherwise it reaches what its port's entries reach. */
  lemma InputsSplit(t: Tables, v: Id, k: nat, q: Pin) returns (pin: Option<Pin>)
    requires KeysShallow(t) && q in InputsOf(t, v, k)
    ensures pin.None? ==> q == (v, k)
    ensures pin.Some? ==>
              && v in t.ins && PortIndex(t, v, k) in t.ins[v] && pin.value in t.ins[v][PortIndex(t, v, k)]
              && q in InputsOf(t, v + ":" + pin.value.0, pin.value.1)
  {
    var j := PortIndex(t, v, k);
    if v in t.ins && j in t.ins[v] && EachOf(t, v, t.ins[v][j]) != [] {
      var x := EachSource(t, v, t.ins[v][j], q);
      pin := Some(x);
    } else {
      pin := None;
    }
  }

  lemma InputsJoin(t: Tables, v: Id, k: nat, pin: Pin, q: Pin)
    requires KeysShallow(t) && v in t.ins
    requires PortIndex(t, v, k) in t.ins[v] && pin in t.ins[v][PortIndex(t, v, k)]
    requires q in InputsOf(t, v + ":" + pin.0, pin.1)
    ensures q in InputsOf(t, v, k)
  {
    EachMember(t, v, t.ins[v][PortIndex(t, v, k)], pin, q);
  }

  /** The source side: re-aimed sources are the walk down through the definitions. */
  lemma {:induction false} SourceSide(w: Workflow, t: Tables, s: Id, slot: nat)
    requires WellFormed(w) && TablesFor(w, t)
    ensures OutputOf(t, s, slot) == OutSource(w, s, slot)
    decreases MAX_ROUNDS - Depth(s)
  {
    if s in t.outs {
      var g := LevelAt(w, s).value;
      LevelIsOk(w, s);
      OutMapIsFeed(w, g, slot);
      match FeedOf(g.links, OUT, slot) {
        case None =>
        case Some(l) =>
          QualifyDeeper(s, l.src);
          SourceSide(w, t, s + ":" + l.src, l.srcSlot);
      }
    }
  }

  /** Input i of q exists and is connected. */
  ghost predicate Connected(w: Workflow, q: Id, i: nat) {
    && NodeAt(w, q).Some?
    && i < |NodeAt(w, q).value.inputs|
    && NodeAt(w, q).value.inputs[i].link.Some?
  }

  /** The link drawn to a connected input. */
  ghost function DrawnLink(w: Workflow, q: Id, i: nat): (l: Link)
    requires WellFormed(w) && Connected(w, q, i)
    ensures q != "" && LastColon(q) != 0 && LevelAt(w, Parent(q)).Some?
    ensures l in LevelAt(w, Parent(q)).value.links
    ensures l.tgt == Leaf(q) && l.tgtSlot == i && l.tgt != OUT
    ensures Some(l.id) == NodeAt(w, q).value.inputs[i].link
    ensures FeedOf(LevelAt(w, Parent(q)).value.links, Leaf(q), i) == Some(l)
  {
    NodeAtNonEmpty(w, q);
    NodeAtParent(w, q);
    LevelIsOk(w, Parent(q));
    var g := LevelAt(w, Parent(q)).value;
    var n := NodeAt(w, q).value;
    assert n in g.nodes && n.inputs[i] == n.inputs[i];
    var l := ById(g.links)[n.inputs[i].link.value];
    FeedUnique(w, g, l);
    l
  }

  /** The input takes its value through a port of its level. */
  ghost predicate FromPort(w: Workflow, q: Id, i: nat)
    requires WellFormed(w)
  {
    Connected(w, q, i) && DrawnLink(w, q, i).src == IN
  }

  /** The outer input that feeds a port is the one that was asked about. */
  lemma OuterSlotIs(w: Workflow, v: Id, k: nat)
    requires WellFormed(w) && Connected(w, v, k) && IsSubgraph(w, NodeAt(w, v).value)
    ensures var n, g := NodeAt(w, v).value, w.defs[NodeAt(w, v).value.body.ty];
            OuterSlot(n, g, PortOf(n, g, k), 0) == Some(k)
  {
    var n := NodeAt(w, v).value;
    NodeAtNonEmpty(w, v);
    NodeAtParent(w, v);
    LevelIsOk(w, Parent(v));
    var g := w.defs[n.body.ty];
    assert forall a, b :: 0 <= a < b < |n.inputs| && n.inputs[a].link.Some? && n.inputs[b].link.Some? ==>
        PortOf(n, g, a) != PortOf(n, g, b);
  }

  /** The inner end of a link of level p, other than OUT, is the connected input that names the link. */
  lemma InnerEnd(w: Workflow, p: Id, l: Link)
    requires WellFormed(w) && LevelAt(w, p).Some? && l in LevelAt(w, p).value.links && l.tgt != OUT
    ensures var c := Qualify(p, l.tgt);
            Connected(w, c, l.tgtSlot) && DrawnLink(w, c, l.tgtSlot) == l && Parent(c) == p && Leaf(c) == l.tgt
  {
    LevelIsOk(w, p);
    var g := LevelAt(w, p).value;
    var m := FindNode(g.nodes, l.tgt).value;
    assert Plain(m.id);
    NodeAtQualify(w, p, l.tgt);
    SplitQualify(p, l.tgt);
    FeedUnique(w, g, l);
  }

  /** A link from IN hands the meaning of the outer input on to the inner one. */
  lemma PortStep(w: Workflow, v: Id, k: nat, l: Link)
    requires WellFormed(w) && Connected(w, v, k) && IsSubgraph(w, NodeAt(w, v).value)
    requires l in w.defs[NodeAt(w, v).value.body.ty].links && l.src == IN
    requires l.srcSlot == PortOf(NodeAt(w, v).value, w.defs[NodeAt(w, v).value.body.ty], k)
    ensures var c := Qualify(v, l.tgt);
            && Connected(w, c, l.tgtSlot) && FromPort(w, c, l.tgtSlot)
            && InSource(w, c, l.tgtSlot) == InSource(w, v, k)
  {
    NodeAtNonEmpty(w, v);
    LevelIsOk(w, v);
    assert l.tgt != OUT;
    InnerEnd(w, v, l);
    OuterSlotIs(w, v, k);
  }

  /** PortStep for an entry of the boundary tables. */
  lemma PinStep(w: Workflow, t: Tables, v: Id, k: nat, pin: Pin)
    requires WellFormed(w) && TablesFor(w, t) && Connected(w, v, k) && v in t.ins
    requires PortIndex(t, v, k) in t.ins[v] && pin in t.ins[v][PortIndex(t, v, k)]
    ensures var c := v + ":" + pin.0; FromPort(w, c, pin.1) && InSource(w, c, pin.1) == InSource(w, v, k)
  {
    LevelIsOk(w, v);
    var l := InMapSound(LevelAt(w, v).value, PortIndex(t, v, k), pin);
    PortStep(w, v, k, l);
  }

  /** The target side, soundness: whatever a link's end is re-aimed to means what the link's end means. */
  lemma {:induction false} TargetSound(w: Workflow, t: Tables, v: Id, k: nat, q: Id, i: nat)
    requires WellFormed(w) && TablesFor(w, t) && Connected(w, v, k)
    requires (q, i) in InputsOf(t, v, k)
    ensures Connected(w, q, i) && InSource(w, q, i) == InSource(w, v, k)
    ensures (q, i) == (v, k) || (|q| > |v| && FromPort(w, q, i))
    decreases MAX_ROUNDS - Depth(v)
  {
    var r := InputsSplit(t, v, k, (q, i));
    match r {
      case None =>
      case Some(pin) =>
        PinStep(w, t, v, k, pin);
        QualifyDeeper(v, pin.0);
        TargetSound(w, t, v + ":" + pin.0, pin.1, q, i);
    }
  }

  /** An input that takes its value through a port takes it from a connected outer input. */
  lemma OuterInput(w: Workflow, v: Id, k: nat) returns (k': nat)
    requires WellFormed(w) && FromPort(w, v, k) && InSource(w, v, k).Some?
    ensures Parent(v) != "" && Connected(w, Parent(v), k') && IsSubgraph(w, NodeAt(w, Parent(v)).value)
    ensures InSource(w, Parent(v), k') == InSource(w, v, k)
    ensures PortOf(NodeAt(w, Parent(v)).value, LevelAt(w, Parent(v)).value, k') == DrawnLink(w, v, k).srcSlot
  {
    k' := OuterSlot(NodeAt(w, Parent(v)).value, LevelAt(w, Parent(v)).value, DrawnLink(w, v, k).srcSlot, 0).value;
  }

  lemma PortIndexIs(w: Workflow, t: Tables, p: Id, k: nat)
    requires TablesFor(w, t) && p in t.ins
    ensures PortIndex(t, p, k) == PortOf(NodeAt(w, p).value, LevelAt(w, p).value, k)
  {
  }

  lemma PortListed(w: Workflow, t: Tables, p: Id, l: Link)
    requires WellFormed(w) && TablesFor(w, t) && p in t.ins
    requires l in LevelAt(w, p).value.links && l.src == IN
    ensures l.srcSlot in t.ins[p] && (l.tgt, l.tgtSlot) in t.ins[p][l.srcSlot]
  {
    LevelIsOk(w, p);
    InMapComplete(LevelAt(w, p).value, l);
  }

  lemma TableStep(w: Workflow, t: Tables, p: Id, k: nat, l: Link, q: Pin)
    requires WellFormed(w) && TablesFor(w, t) && p in t.ins
    requires l in LevelAt(w, p).value.links && l.src == IN
    requires PortOf(NodeAt(w, p).value, LevelAt(w, p).value, k) == l.srcSlot
    requires q in InputsOf(t, Qualify(p, l.tgt), l.tgtSlot)
    ensures q in InputsOf(t, p, k)
  {
    PortIndexIs(w, t, p, k);
    PortListed(w, t, p, l);
    InputsJoin(t, p, k, (l.tgt, l.tgtSlot), q);
  }

  /** One level of the climb: what an inner input reaches, the outer input that feeds it reaches too. */
  lemma ClimbStep(w: Workflow, t: Tables, v: Id, k: nat, q: Pin) returns (k': nat)
    requires WellFormed(w) && TablesFor(w, t) && FromPort(w, v, k)
    requires Depth(v) <= MAX_ROUNDS
    requires q in InputsOf(t, v, k)
    requires InSource(w, v, k).Some?
    ensures Parent(v) != "" && Connected(w, Parent(v), k') && Depth(Parent(v)) <= MAX_ROUNDS
    ensures InSource(w, Parent(v), k') == InSource(w, v, k)
    ensures q in InputsOf(t, Parent(v), k')
  {
    var l := DrawnLink(w, v, k);
    QualifySplit(v);
    k' := OuterInput(w, v, k);
    TableStep(w, t, Parent(v), k', l, q);
  }

  /**
   The target side, completeness: an input whose meaning exists is reached from the end of a link
   that does not come from a port.  Stated for any input already known to be reached from (v, k),
   and climbing from there.
   */
  lemma {:induction false} TargetComplete(w: Workflow, t: Tables, v: Id, k: nat, q: Pin) returns (p: Id, l: Link)
    requires WellFormed(w) && TablesFor(w, t) && Connected(w, v, k)
    requires Depth(v) <= MAX_ROUNDS
    requires q in InputsOf(t, v, k)
    requires InSource(w, v, k).Some?
    ensures LevelAt(w, p).Some? && l in LevelAt(w, p).value.links && l.src != IN && l.tgt != OUT
    ensures |p| < |v| && (p == "" || Depth(p) < MAX_ROUNDS)
    ensures |Qualify(p, l.tgt)| < |v| || Qualify(p, l.tgt) == v
    ensures FromPort(w, v, k) ==> Qualify(p, l.tgt) != v
    ensures q in InputsOf(t, Qualify(p, l.tgt), l.tgtSlot)
    decreases |v|
  {
    l := DrawnLink(w, v, k);
    p := Parent(v);
    QualifySplit(v);
    if l.src == IN {
      var k' := ClimbStep(w, t, v, k, q);
      p, l := TargetComplete(w, t, p, k', q);
    }
  }
}
