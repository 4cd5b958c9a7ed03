/**
 Crossing subgraph boundaries.  While it expands, the converter records for every expanded subgraph
 node which inner inputs each port feeds and which inner output each output slot comes from; links
 are then re-aimed through those tables.  The main results: the source side of re-aiming is exactly
 the downward walk OutSource, the target side reaches exactly the inputs whose upward walk passes
 through the link's end, and the recursion guards of both can never fire.
 */
module Boundaries {
  import opened Wrappers
  import opened NodeIds
  import opened NestedGraph
  import opened OrderedMap

  type Pin = (Id, nat)

  /** Recursion depth at which both resolvers give up. */
  const MAX_RECURSION: nat := 100

  /** Per expanded subgraph node: port -> inner inputs, (inner output -> slot) in insertion order,
      outer slot -> port. */
  datatype Tables = Tables(
    ins: map<Id, map<nat, seq<Pin>>>,
    outs: map<Id, seq<(Pin, nat)>>,
    slots: map<Id, map<nat, nat>>)

  // ---------------------------------------------------------------- the tables of one definition

  function Targets(links: map<int, Link>, ids: seq<int>): seq<Pin> {
    if ids == [] then []
    else
      var x := ids[|ids| - 1];
      Targets(links, ids[..|ids| - 1]) + if x in links then [(links[x].tgt, links[x].tgtSlot)] else []
  }

  /** Ports without targets are left out. */
  function InMapUpTo(g: Graph, n: nat): (m: map<nat, seq<Pin>>)
    requires n <= |g.inputs|
    ensures forall j: nat :: j in m <==> j < n && Targets(ById(g.links), g.inputs[j].linkIds) != []
    ensures forall j: nat :: j in m ==> m[j] == Targets(ById(g.links), g.inputs[j].linkIds)
  {
    if n == 0 then map[]
    else
      var targets := Targets(ById(g.links), g.inputs[n - 1].linkIds);
      if targets == [] then InMapUpTo(g, n - 1) else InMapUpTo(g, n - 1)[n - 1 := targets]
  }

  lemma InMapStep(g: Graph, n: nat)
    requires n < |g.inputs|
    ensures var targets := Targets(ById(g.links), g.inputs[n].linkIds);
            InMapUpTo(g, n + 1) == if targets == [] then InMapUpTo(g, n) else InMapUpTo(g, n)[n := targets]
  {
  }

  function InMapOf(g: Graph): map<nat, seq<Pin>> {
    InMapUpTo(g, |g.inputs|)
  }

  function PutPort(links: map<int, Link>, ids: seq<int>, j: nat, m: seq<(Pin, nat)>): seq<(Pin, nat)> {
    if ids == [] then m
    else
      var x := ids[|ids| - 1];
      var m' := PutPort(links, ids[..|ids| - 1], j, m);
      if x in links then Put<Pin, nat>(m', (links[x].src, links[x].srcSlot), j) else m'
  }

  function OutMapUpTo(g: Graph, j: nat): seq<(Pin, nat)>
    requires j <= |g.outputs|
  {
    if j == 0 then []
    else PutPort(ById(g.links), g.outputs[j - 1].linkIds, j - 1, OutMapUpTo(g, j - 1))
  }

  function OutMapOf(g: Graph): seq<(Pin, nat)> {
    OutMapUpTo(g, |g.outputs|)
  }

  function SlotMapUpTo(n: Node, g: Graph, k: nat): (m: map<nat, nat>)
    requires k <= |n.inputs|
    ensures forall j: nat :: j in m <==> j < k && n.inputs[j].name in PortNames(g.inputs)
    ensures forall j: nat :: j in m ==> m[j] == PortNames(g.inputs)[n.inputs[j].name]
  {
    if k == 0 then map[]
    else
      var (before, names, name) := (SlotMapUpTo(n, g, k - 1), PortNames(g.inputs), n.inputs[k - 1].name);
      if name in names then before[k - 1 := names[name]] else before
  }

  /** Outer inputs whose name is that of a port. */
  function SlotMapOf(n: Node, g: Graph): map<nat, nat> {
    SlotMapUpTo(n, g, |n.inputs|)
  }

  /** The first recorded inner output of that slot. */
  function FirstFor(m: seq<(Pin, nat)>, slot: nat): Option<Pin> {
    if m == [] then None
    else if m[0].1 == slot then Some(m[0].0)
    else FirstFor(m[1..], slot)
  }

  // ---------------------------------------------------------------- the resolvers

  function ResolveOutput(t: Tables, s: Id, slot: nat, depth: nat): Pin
    decreases MAX_RECURSION + 1 - depth
  {
    if depth > MAX_RECURSION || s !in t.outs then (s, slot)
    else match FirstFor(t.outs[s], slot)
      case None => (s, slot)
      case Some(pin) => ResolveOutput(t, s + ":" + pin.0, pin.1, depth + 1)
  }

  function PortIndex(t: Tables, s: Id, slot: nat): nat {
    if s in t.slots && slot in t.slots[s] then t.slots[s][slot] else slot
  }

  function ResolveInputAll(t: Tables, s: Id, slot: nat, depth: nat): (r: seq<Pin>)
    decreases MAX_RECURSION + 1 - depth, 1, 0
    ensures r != []
  {
    if depth > MAX_RECURSION || s !in t.ins || PortIndex(t, s, slot) !in t.ins[s] then [(s, slot)]
    else
      var results := ResolveEach(t, s, t.ins[s][PortIndex(t, s, slot)], depth);
      if results != [] then results else [(s, slot)]
  }

  function ResolveEach(t: Tables, s: Id, pins: seq<Pin>, depth: nat): seq<Pin>
    requires depth <= MAX_RECURSION
    decreases MAX_RECURSION + 1 - depth, 0, |pins|
  {
    if pins == [] then []
    else ResolveInputAll(t, s + ":" + pins[0].0, pins[0].1, depth + 1) + ResolveEach(t, s, pins[1..], depth)
  }

  // ---------------------------------------------------------------- the guards never fire

  /** Expansion runs at most MAX_ROUNDS rounds, so what it records is nested less deep than that. */
  ghost predicate KeysShallow(t: Tables) {
    && (forall s :: s in t.outs ==> Depth(s) < MAX_ROUNDS && s != "")
    && (forall s :: s in t.ins ==> Depth(s) < MAX_ROUNDS && s != "")
  }

  /** ResolveOutput without its guard. */
  ghost function OutputOf(t: Tables, s: Id, slot: nat): Pin
    requires KeysShallow(t)
    decreases MAX_ROUNDS - Depth(s)
  {
    if s !in t.outs then (s, slot)
    else match FirstFor(t.outs[s], slot)
      case None => (s, slot)
      case Some(pin) => QualifyDeeper(s, pin.0); OutputOf(t, s + ":" + pin.0, pin.1)
  }

  /** ResolveInputAll without its guard. */
  ghost function InputsOf(t: Tables, s: Id, slot: nat): (r: seq<Pin>)
    requires KeysShallow(t)
    decreases MAX_ROUNDS - Depth(s), 1, 0
    ensures r != []
  {
    if s !in t.ins || PortIndex(t, s, slot) !in t.ins[s] then [(s, slot)]
    else
      var results := EachOf(t, s, t.ins[s][PortIndex(t, s, slot)]);
      if results != [] then results else [(s, slot)]
  }

  ghost function EachOf(t: Tables, s: Id, pins: seq<Pin>): seq<Pin>
    requires KeysShallow(t) && s in t.ins
    decreases MAX_ROUNDS - Depth(s), 0, |pins|
  {
    if pins == [] then []
    else
      QualifyDeeper(s, pins[0].0);
      InputsOf(t, s + ":" + pins[0].0, pins[0].1) + EachOf(t, s, pins[1..])
  }

  lemma {:induction false} OutputGuardSilent(t: Tables, s: Id, slot: nat, depth: nat)
    requires KeysShallow(t)
    requires depth <= Depth(s)
    ensures ResolveOutput(t, s, slot, depth) == OutputOf(t, s, slot)
    decreases MAX_ROUNDS - Depth(s)
  {
    if s in t.outs {
      match FirstFor(t.outs[s], slot) {
        case None =>
        case Some(pin) =>
          QualifyDeeper(s, pin.0);
          OutputGuardSilent(t, s + ":" + pin.0, pin.1, depth + 1);
      }
    }
  }

  lemma {:induction false} InputGuardSilent(t: Tables, s: Id, slot: nat, depth: nat)
    requires KeysShallow(t)
    requires depth <= Depth(s)
    ensures ResolveInputAll(t, s, slot, depth) == InputsOf(t, s, slot)
    decreases MAX_ROUNDS - Depth(s), 1, 0
  {
    if s in t.ins && PortIndex(t, s, slot) in t.ins[s] {
      EachGuardSilent(t, s, t.ins[s][PortIndex(t, s, slot)], depth);
    }
  }

  lemma {:induction false} EachGuardSilent(t: Tables, s: Id, pins: seq<Pin>, depth: nat)
    requires KeysShallow(t) && s in t.ins
    requires depth <= Depth(s)
    ensures depth <= MAX_RECURSION
    ensures ResolveEach(t, s, pins, depth) == EachOf(t, s, pins)
    decreases MAX_ROUNDS - Depth(s), 0, |pins|
  {
    if pins != [] {
      QualifyDeeper(s, pins[0].0);
      InputGuardSilent(t, s + ":" + pins[0].0, pins[0].1, depth + 1);
      EachGuardSilent(t, s, pins[1..], depth);
    }
  }

  /** Neither resolver is ever cut short by its guard: the answers are those of the unguarded walks. */
  lemma GuardsNeverFire(t: Tables, s: Id, slot: nat)
    requires KeysShallow(t)
    ensures ResolveOutput(t, s, slot, 0) == OutputOf(t, s, slot)
    ensures ResolveInputAll(t, s, slot, 0) == InputsOf(t, s, slot)
  {
    OutputGuardSilent(t, s, slot, 0);
    InputGuardSilent(t, s, slot, 0);
  }

  // ---------------------------------------------------------------- what the tables of a definition say

  lemma {:induction false} TargetsMembers(links: map<int, Link>, ids: seq<int>, pin: Pin)
    ensures pin in Targets(links, ids) <==>
            exists x :: x in ids && x in links && pin == (links[x].tgt, links[x].tgtSlot)
  {
    if ids != [] {
      var k := |ids| - 1;
      assert ids == ids[..k] + [ids[k]];
      TargetsMembers(links, ids[..k], pin);
      if pin in Targets(links, ids) && pin !in Targets(links, ids[..k]) {
        assert ids[k] in ids && ids[k] in links;
      }
    }
  }

  /** Entries are links to OUT, and the links of the first j ports plus the first n of port j are in. */
  ghost predicate OutMapMeans(g: Graph, m: seq<(Pin, nat)>, j: nat, ids: seq<int>) {
    && (forall e :: e in m ==> exists l :: l in g.links && l.tgt == OUT && e == ((l.src, l.srcSlot), l.tgtSlot))
    && (forall l :: l in g.links && l.tgt == OUT && (l.tgtSlot < j || (l.tgtSlot == j && l.id in ids)) ==>
          ((l.src, l.srcSlot), l.tgtSlot) in m)
  }

  lemma {:induction false} PutPortMeans(g: Graph, ids: seq<int>, j: nat, m: seq<(Pin, nat)>)
    requires UniqueLinks(g) && PortsAgree(g) && OutputsSeparate(g) && j < |g.outputs| && ids <= g.outputs[j].linkIds
    requires OutMapMeans(g, m, j, [])
    ensures OutMapMeans(g, PutPort(ById(g.links), ids, j, m), j, ids)
  {
    if ids != [] {
      var k := |ids| - 1;
      var x := ids[k];
      assert ids == ids[..k] + [x];
      assert ids[..k] <= g.outputs[j].linkIds;
      PutPortMeans(g, ids[..k], j, m);
      var m' := PutPort(ById(g.links), ids[..k], j, m);
      if x in ById(g.links) {
        var l := ById(g.links)[x];
        assert x in g.outputs[j].linkIds;
        assert l.tgt == OUT && l.tgtSlot == j;
        hide PortsAgree, ById;
        PutOneMeans(g, ids[..k], l, j, m');
      }
    }
  }

  /** Recording one more link of a port. */
  lemma PutOneMeans(g: Graph, ids: seq<int>, l: Link, j: nat, m: seq<(Pin, nat)>)
    requires UniqueLinks(g) && OutputsSeparate(g) && l in g.links && l.tgt == OUT && l.tgtSlot == j
    requires OutMapMeans(g, m, j, ids)
    ensures OutMapMeans(g, Put(m, (l.src, l.srcSlot), j), j, ids + [l.id])
  {
    PutMembers(m, (l.src, l.srcSlot), j);
    forall e | e in m ensures e in Put(m, (l.src, l.srcSlot), j) {
      if e.0 == (l.src, l.srcSlot) {
        var l' :| l' in g.links && l'.tgt == OUT && e == ((l'.src, l'.srcSlot), l'.tgtSlot);
        assert l'.tgtSlot == l.tgtSlot;
      }
    }
    hide ById;
    forall l' | l' in g.links && l'.id == l.id ensures l' == l {
      ByIdUnique(g.links, l);
      ByIdUnique(g.links, l');
    }
  }

  lemma NoPortMeans(g: Graph)
    ensures OutMapMeans(g, OutMapUpTo(g, 0), 0, [])
  {
  }

  lemma PortComplete(g: Graph, m: seq<(Pin, nat)>, j: nat)
    requires PortsAgree(g) && j < |g.outputs|
    requires OutMapMeans(g, m, j, g.outputs[j].linkIds)
    ensures OutMapMeans(g, m, j + 1, [])
  {
  }

  lemma {:induction false} OutMapUpToMeans(g: Graph, j: nat)
    requires UniqueLinks(g) && PortsAgree(g) && OutputsSeparate(g) && j <= |g.outputs|
    ensures OutMapMeans(g, OutMapUpTo(g, j), j, [])
  {
    hide UniqueLinks, PortsAgree, OutputsSeparate, OutMapMeans, PutPort, ById;
    if j > 0 {
      OutMapUpToMeans(g, j - 1);
      var (ids, before) := (g.outputs[j - 1].linkIds, OutMapUpTo(g, j - 1));
      assert OutMapUpTo(g, j) == PutPort(ById(g.links), ids, j - 1, before);
      PutPortMeans(g, ids, j - 1, before);
      PortComplete(g, OutMapUpTo(g, j), j - 1);
    } else {
      NoPortMeans(g);
    }
  }

  lemma {:induction false} FirstForMembers(m: seq<(Pin, nat)>, slot: nat)
    ensures FirstFor(m, slot).Some? ==> (FirstFor(m, slot).value, slot) in m
    ensures FirstFor(m, slot).None? ==> forall e :: e in m ==> e.1 != slot
  {
    if m != [] && m[0].1 != slot {
      FirstForMembers(m[1..], slot);
      assert m == [m[0]] + m[1..];
    }
  }

  /** An output slot of a definition resolves to the source of the link that ends there. */
  lemma OutMapIsFeed(w: Workflow, g: Graph, slot: nat)
    requires LevelOk(w, g)
    ensures FirstFor(OutMapOf(g), slot) ==
            match FeedOf(g.links, OUT, slot) { case None => None case Some(l) => Some((l.src, l.srcSlot)) }
  {
    OutMapUpToMeans(g, |g.outputs|);
    FirstForMembers(OutMapOf(g), slot);
    match FirstFor(OutMapOf(g), slot) {
      case Some(pin) =>
        assert (pin, slot) in OutMapOf(g);
        var l :| l in g.links && l.tgt == OUT && (pin, slot) == ((l.src, l.srcSlot), l.tgtSlot);
        FeedUnique(w, g, l);
      case None =>
        var m := OutMapOf(g);
        assert forall l :: l in g.links && l.tgt == OUT ==> ((l.src, l.srcSlot), l.tgtSlot) in m;
    }
  }

  /** The table of port j lists only inputs that links from IN, slot j, end at ... */
  lemma InMapSound(g: Graph, j: nat, pin: Pin) returns (l: Link)
    requires PortsAgree(g)
    requires j in InMapOf(g) && pin in InMapOf(g)[j]
    ensures l in g.links && l.src == IN && l.srcSlot == j && pin == (l.tgt, l.tgtSlot)
  {
    var ids := g.inputs[j].linkIds;
    TargetsMembers(ById(g.links), ids, pin);
    var x :| x in ids && x in ById(g.links) && pin == (ById(g.links)[x].tgt, ById(g.links)[x].tgtSlot);
    l := ById(g.links)[x];
  }

  /** ... and all of them. */
  lemma InMapComplete(g: Graph, l: Link)
    requires UniqueLinks(g) && PortsAgree(g)
    requires l in g.links && l.src == IN
    ensures l.srcSlot in InMapOf(g) && (l.tgt, l.tgtSlot) in InMapOf(g)[l.srcSlot]
  {
    ByIdUnique(g.links, l);
    var ids := g.inputs[l.srcSlot].linkIds;
    assert l.id in ids;
    TargetsMembers(ById(g.links), ids, (l.tgt, l.tgtSlot));
  }
}
