/**
 What the first pass over the flat nodes means, said of the nodes alone: which node hands on what,
 which carries a value, which is bypassed or excluded, and which has an entry in the prompt.
 */
module Classified {
  import opened Wrappers
  import opened NodeIds
  import opened NestedGraph
  import opened OrderedMap
  import opened Boundaries
  import opened Flattening
  import opened Passthrough
  import opened NodeClasses
  import opened Prompt

  /** The first of the node's widget values is v. */
  predicate ShowsFirst(n: FlatNode, v: Value) {
    n.body.widgets.ListWidgets? && |n.body.widgets.values| > 0 && n.body.widgets.values[0] == v
  }

  /** The first fed input of the node is fed by p. */
  predicate FedFirstBy(n: FlatNode, p: Pin) {
    exists k :: 0 <= k < |n.inputs| && n.inputs[k].src == Some(p) && forall i :: 0 <= i < k ==> n.inputs[i].src.None?
  }

  predicate HasFed(n: FlatNode) {
    exists k :: 0 <= k < |n.inputs| && n.inputs[k].src.Some?
  }

  /** Node x of that type shows v first. */
  predicate Shows(nodes: seq<FlatNode>, ty: string, x: Id, v: Value) {
    exists n :: n in nodes && n.id == x && n.body.ty == ty && ShowsFirst(n, v)
  }

  /** The last Set node of variable v that is fed at all, is fed by p. */
  predicate SetBy(nodes: seq<FlatNode>, v: Value, p: Pin) {
    exists k :: 0 <= k < |nodes| && nodes[k].body.ty == "SetNode" && ShowsFirst(nodes[k], v) && FedFirstBy(nodes[k], p)
      && forall j :: k < j < |nodes| ==> !(nodes[j].body.ty == "SetNode" && ShowsFirst(nodes[j], v) && HasFed(nodes[j]))
  }

  lemma FedFirstIs(n: FlatNode)
    ensures forall p :: FedFirstBy(n, p) <==> FirstFed(n.inputs, None) == Some(p)
    ensures HasFed(n) <==> FirstFed(n.inputs, None).Some?
  {
    FirstFedAt(n.inputs, None);
  }

  lemma ShowsSnoc(front: seq<FlatNode>, last: FlatNode, ty: string, x: Id, v: Value)
    ensures Shows(front + [last], ty, x, v) <==> Shows(front, ty, x, v) || (last.id == x && last.body.ty == ty && ShowsFirst(last, v))
  {
    hide ShowsFirst;
    assert last in front + [last];
  }

  lemma NotShown(nodes: seq<FlatNode>, ty: string, x: Id, v: Value)
    requires forall n :: n in nodes ==> n.id != x
    ensures !Shows(nodes, ty, x, v)
  {
  }

  lemma {:induction false} VarsAre(nodes: seq<FlatNode>, x: Id, v: Value)
    requires Prompt.DistinctIds(nodes)
    ensures x in VarsOf(nodes) && VarsOf(nodes)[x] == v <==> Shows(nodes, "GetNode", x, v)
  {
    hide Shows;
    if nodes != [] {
      var (front, last) := (nodes[..|nodes| - 1], nodes[|nodes| - 1]);
      assert nodes == front + [last];
      VarsAre(front, x, v);
      ShowsSnoc(front, last, "GetNode", x, v);
      NewId(nodes, x);
      assert VarsOf(nodes) == NoteVar(VarsOf(front), last);
      hide VarsOf, Prompt.DistinctIds;
      if last.id == x {
        NotShown(front, "GetNode", x, v);
      }
    } else {
      NotShown(nodes, "GetNode", x, v);
    }
  }

  lemma {:induction false} PrimsAre(nodes: seq<FlatNode>, x: Id, v: Value)
    requires Prompt.DistinctIds(nodes)
    ensures x in PrimsOf(nodes) && PrimsOf(nodes)[x] == v <==> Shows(nodes, "PrimitiveNode", x, v)
  {
    hide Shows;
    if nodes != [] {
      var (front, last) := (nodes[..|nodes| - 1], nodes[|nodes| - 1]);
      assert nodes == front + [last];
      PrimsAre(front, x, v);
      ShowsSnoc(front, last, "PrimitiveNode", x, v);
      NewId(nodes, x);
      assert PrimsOf(nodes) == NotePrim(PrimsOf(front), last);
      hide PrimsOf, Prompt.DistinctIds;
      if last.id == x {
        NotShown(front, "PrimitiveNode", x, v);
      }
    } else {
      NotShown(nodes, "PrimitiveNode", x, v);
    }
  }

  lemma NewId(nodes: seq<FlatNode>, x: Id)
    requires Prompt.DistinctIds(nodes) && nodes != []
    ensures nodes[|nodes| - 1].id == x ==> forall n :: n in nodes[..|nodes| - 1] ==> n.id != x
  {
  }

  /** Reroute x is fed by p at its first input. */
  predicate Reroutes(nodes: seq<FlatNode>, x: Id, p: Pin) {
    exists n :: n in nodes && n.id == x && n.body.ty == "Reroute" && |n.inputs| > 0 && n.inputs[0].src == Some(p)
  }

  lemma {:induction false} ReroutesAre(nodes: seq<FlatNode>, x: Id, p: Pin)
    requires Prompt.DistinctIds(nodes)
    ensures x in ReroutesOf(nodes) && ReroutesOf(nodes)[x] == p <==> Reroutes(nodes, x, p)
  {
    if nodes != [] {
      var (front, last) := (nodes[..|nodes| - 1], nodes[|nodes| - 1]);
      assert nodes == front + [last];
      ReroutesAre(front, x, p);
      NewId(nodes, x);
    }
  }

  lemma {:induction false} SetsAre(nodes: seq<FlatNode>, v: Value, p: Pin)
    ensures v in SetsOf(nodes) && SetsOf(nodes)[v] == p <==> SetBy(nodes, v, p)
  {
    if nodes != [] {
      var (front, last) := (nodes[..|nodes| - 1], nodes[|nodes| - 1]);
      assert nodes == front + [last];
      SetsAre(front, v, p);
      FedFirstIs(last);
      SetBySnoc(front, last, v, p);
    }
  }

  lemma SetBySnoc(front: seq<FlatNode>, last: FlatNode, v: Value, p: Pin)
    ensures SetBy(front + [last], v, p) <==>
      if last.body.ty == "SetNode" && ShowsFirst(last, v) && HasFed(last) then FedFirstBy(last, p)
      else SetBy(front, v, p)
  {
    var nodes := front + [last];
    hide FedFirstBy, ShowsFirst, HasFed;
    FedFirst(front, p);
    FedFirst([last], p);
    assert forall k :: 0 <= k < |front| ==> nodes[k] == front[k];
    assert nodes[|front|] == last;
  }

  lemma FedFirst(nodes: seq<FlatNode>, p: Pin)
    ensures forall n :: n in nodes && FedFirstBy(n, p) ==> HasFed(n)
  {
  }

  // ---------------------------------------------------------------- hand-through steps

  /** A bypassed node's output is fed by q: through the first fed input of the output's type, if there is one, else through the first fed input. */
  predicate ThroughBy(n: FlatNode, slot: nat, q: Pin) {
    var ty := if slot < |n.body.outputs| then n.body.outputs[slot].ty else "";
    if ty != "" && exists k :: 0 <= k < |n.inputs| && n.inputs[k].src.Some? && n.inputs[k].ty == ty
    then exists k :: 0 <= k < |n.inputs| && n.inputs[k].src == Some(q) && n.inputs[k].ty == ty
                     && forall i :: 0 <= i < k ==> !(n.inputs[i].src.Some? && n.inputs[i].ty == ty)
    else FedFirstBy(n, q)
  }

  /** What each node hands on, said of the flat nodes: Get nodes through variables, Reroutes through their first input, and bypassed nodes (mode 4) by type. */
  lemma HandsOnExactly(nodes: seq<FlatNode>, p: Pin, q: Pin)
    requires Prompt.DistinctIds(nodes)
    ensures GetStep(EnvOf(nodes), p) == Some(q) <==> exists v :: Shows(nodes, "GetNode", p.0, v) && SetBy(nodes, v, q)
    ensures RerouteStep(EnvOf(nodes), p) == Some(q) <==> Reroutes(nodes, p.0, q)
    ensures BypassStep(EnvOf(nodes), p) == Some(q) <==>
            exists n :: n in nodes && n.id == p.0 && n.body.mode == 4 && ThroughBy(n, p.1, q)
  {
    hide VarsOf, SetsOf, ReroutesOf, Shows, SetBy, Reroutes, ThroughBy, Through;
    forall v ensures p.0 in VarsOf(nodes) && VarsOf(nodes)[p.0] == v <==> Shows(nodes, "GetNode", p.0, v) {
      VarsAre(nodes, p.0, v);
    }
    forall v ensures v in SetsOf(nodes) && SetsOf(nodes)[v] == q <==> SetBy(nodes, v, q) {
      SetsAre(nodes, v, q);
    }
    ReroutesAre(nodes, p.0, q);
    forall n | n in nodes && n.id == p.0 ensures FindFlat(nodes, p.0) == Some(n) {
      FindFlatUnique(nodes, n);
    }
    forall n ensures Through(n, p.1) == Some(q) <==> ThroughBy(n, p.1, q) {
      ThroughIs(n, p.1, q);
    }
  }

  lemma ThroughIs(n: FlatNode, slot: nat, q: Pin)
    ensures Through(n, slot) == Some(q) <==> ThroughBy(n, slot, q)
  {
    hide Through;
    ThroughAt(n, slot);
  }

  /** In one of the three ways p hands on what q gives. */
  ghost predicate HandsOver(nodes: seq<FlatNode>, p: Pin, q: Pin) {
    || (exists v :: Shows(nodes, "GetNode", p.0, v) && SetBy(nodes, v, q))
    || Reroutes(nodes, p.0, q)
    || exists n :: n in nodes && n.id == p.0 && n.body.mode == 4 && ThroughBy(n, p.1, q)
  }

  ghost predicate HandsNothing(nodes: seq<FlatNode>, p: Pin) {
    forall q :: !HandsOver(nodes, p, q)
  }

  ghost predicate HandsOnly(nodes: seq<FlatNode>, p: Pin, q: Pin) {
    HandsOver(nodes, p, q) && forall r :: HandsOver(nodes, p, r) ==> r == q
  }

  /** Each stop hands on the next and nothing else, the last nothing, and none comes twice. */
  ghost predicate NodeRoute(nodes: seq<FlatNode>, route: seq<Pin>) {
    && |route| > 0
    && (forall i :: 0 <= i < |route| - 1 ==> HandsOnly(nodes, route[i], route[i + 1]))
    && HandsNothing(nodes, route[|route| - 1])
    && forall i, j :: 0 <= i < j < |route| ==> route[i].0 != route[j].0
  }

  lemma HandsOverIs(nodes: seq<FlatNode>, p: Pin, q: Pin)
    requires Prompt.DistinctIds(nodes)
    ensures HandsOver(nodes, p, q) <==> HandsOn(EnvOf(nodes), p, q)
  {
    hide GetStep, RerouteStep, BypassStep, EnvOf, Shows, SetBy, Reroutes, ThroughBy, Prompt.DistinctIds;
    HandsOnExactly(nodes, p, q);
  }

  /** The whole routes of the prompt theorems, said of the flat nodes. */
  lemma RouteExactly(nodes: seq<FlatNode>, route: seq<Pin>)
    requires Prompt.DistinctIds(nodes)
    ensures WholeRoute(EnvOf(nodes), route) <==> NodeRoute(nodes, route)
  {
    hide GetStep, RerouteStep, BypassStep, EnvOf, HandsOver, Prompt.DistinctIds;
    var e := EnvOf(nodes);
    forall p, q ensures HandsOver(nodes, p, q) <==> HandsOn(e, p, q) {
      HandsOverIs(nodes, p, q);
    }
    forall p ensures Kinds(e, p) == {} <==> HandsNothing(nodes, p) {
      NoKinds(e, p);
    }
    forall i | 0 <= i < |route| - 1
      ensures Kinds(e, route[i]) != {} && LeadsTo(e, route[i], route[i + 1]) <==> HandsOnly(nodes, route[i], route[i + 1]) {
      OneWayOn(e, route[i], route[i + 1]);
    }
    hide HandsOnly, HandsNothing, LeadsTo, Kinds;
    if WholeRoute(e, route) {
      forall i | 0 <= i < |route| - 1 ensures HandsOnly(nodes, route[i], route[i + 1]) {
        assert LeadsTo(e, route[i], route[i + 1]);
      }
    }
    if NodeRoute(nodes, route) {
      forall i | 0 <= i < |route| - 1 ensures Kinds(e, route[i]) != {} && LeadsTo(e, route[i], route[i + 1]) {
        assert HandsOnly(nodes, route[i], route[i + 1]);
      }
    }
  }

  lemma NoKinds(e: Env, p: Pin)
    ensures Kinds(e, p) == {} <==> forall q :: !HandsOn(e, p, q)
  {
    hide GetStep, RerouteStep, BypassStep;
    if Kinds(e, p) != {} {
      var k :| k in Kinds(e, p);
      var q := if k == G then GetStep(e, p).value else if k == R then RerouteStep(e, p).value else BypassStep(e, p).value;
      assert HandsOn(e, p, q);
    }
  }

  lemma OneWayOn(e: Env, p: Pin, q: Pin)
    ensures Kinds(e, p) != {} && LeadsTo(e, p, q) <==> HandsOn(e, p, q) && forall r :: HandsOn(e, p, r) ==> r == q
  {
    hide GetStep, RerouteStep, BypassStep;
    NoKinds(e, p);
    forall r | GetStep(e, p) == Some(r) || RerouteStep(e, p) == Some(r) || BypassStep(e, p) == Some(r) ensures HandsOn(e, p, r) {
    }
    if HandsOn(e, p, q) && forall r :: HandsOn(e, p, r) ==> r == q {
      assert GetStep(e, p).Some? ==> HandsOn(e, p, GetStep(e, p).value);
      assert RerouteStep(e, p).Some? ==> HandsOn(e, p, RerouteStep(e, p).value);
      assert BypassStep(e, p).Some? ==> HandsOn(e, p, BypassStep(e, p).value);
    }
  }

  // ---------------------------------------------------------------- entries

  /** Which nodes have an entry, said of the nodes and the class table: every type, mode and connection that counts is named. */
  lemma EntryExactly(reg: Registry, nodes: seq<FlatNode>, x: Id)
    requires Prompt.DistinctIds(nodes)
    ensures Has(PromptOf(reg, nodes), x) <==>
      exists n :: n in nodes && n.id == x
        && n.body.ty != "" && n.body.mode != 2 && n.body.mode != 4
        && n.body.ty !in {"Note", "PrimitiveNode", "GetNode", "SetNode", "Reroute", "LoadImageOutput"}
        && ((exists o :: o in n.body.outputs && o.connected)
            || if n.body.ty in reg.classes then reg.classes[n.body.ty].isOutput else exists i :: i in n.inputs && i.src.Some?)
  {
    hide PromptUpTo, NodeInputs, Get, EnvOf, PrimsOf;
    EntriesOf(reg, EnvOf(nodes), PrimsOf(nodes), ExcludedOf(reg, nodes), nodes, x);
    forall n | n in nodes && n.id == x ensures FindFlat(nodes, x) == Some(n) {
      FindFlatUnique(nodes, n);
    }
  }
}
