/**
 Routing nodes.  Get/Set pairs, Reroutes and bypassed nodes hand a value through; the converter
 traces an input's source past them with three procedures run in a fixed order.  Proved: what the
 pipeline returns is always reached by hand-through steps, and it is the end of the route exactly
 for the routes that fit the order.
 */
module Passthrough {
  import opened Wrappers
  import opened Filters
  import opened NodeIds
  import opened NestedGraph
  import opened Boundaries
  import opened Flattening

  /** What the first pass over the flat nodes collects. */
  datatype Env = Env(vars: map<Id, Value>, sets: map<Value, Pin>, reroutes: map<Id, Pin>, bypassed: set<Id>,
                     nodes: seq<FlatNode>)

  // ---------------------------------------------------------------- the inputs a bypassed node hands through

  function FindFlat(nodes: seq<FlatNode>, x: Id): Option<FlatNode> {
    FirstWhere(nodes, (n: FlatNode) => n.id == x)
  }

  /** The source of the first fed input that satisfies the type, if one is asked for. */
  function FirstFed(inputs: seq<FlatInput>, ty: Option<string>): Option<Pin> {
    if inputs == [] then None
    else if inputs[0].src.Some? && (ty.None? || inputs[0].ty == ty.value) then inputs[0].src
    else FirstFed(inputs[1..], ty)
  }

  /** The fed input of the output's own type if there is one, else the first fed input. */
  function Through(n: FlatNode, slot: nat): Option<Pin> {
    var ty := if slot < |n.body.outputs| then n.body.outputs[slot].ty else "";
    if ty != "" && FirstFed(n.inputs, Some(ty)).Some? then FirstFed(n.inputs, Some(ty))
    else FirstFed(n.inputs, None)
  }

  /** The input taken is the first fed one, of that type when one is asked for. */
  lemma {:induction false} FirstFedAt(inputs: seq<FlatInput>, ty: Option<string>)
    ensures FirstFed(inputs, ty).None? <==>
            forall i :: 0 <= i < |inputs| ==> !(inputs[i].src.Some? && (ty.None? || inputs[i].ty == ty.value))
    ensures FirstFed(inputs, ty).Some? ==>
            exists k :: 0 <= k < |inputs| && inputs[k].src == FirstFed(inputs, ty) && (ty.None? || inputs[k].ty == ty.value)
                        && forall i :: 0 <= i < k ==> !(inputs[i].src.Some? && (ty.None? || inputs[i].ty == ty.value))
  {
    if inputs != [] && !(inputs[0].src.Some? && (ty.None? || inputs[0].ty == ty.value)) {
      var rest := inputs[1..];
      FirstFedAt(rest, ty);
      assert forall i :: 0 < i < |inputs| ==> inputs[i] == rest[i - 1];
      if FirstFed(rest, ty).Some? {
        var k :| 0 <= k < |rest| && rest[k].src == FirstFed(rest, ty) && (ty.None? || rest[k].ty == ty.value)
                 && forall i :: 0 <= i < k ==> !(rest[i].src.Some? && (ty.None? || rest[i].ty == ty.value));
        assert inputs[k + 1] == rest[k];
      }
    }
  }

  /** The input of n that output slot hands through: the first fed one of the output's type, if there is one, else the first fed one. */
  lemma ThroughAt(n: FlatNode, slot: nat)
    ensures var outputs := n.body.outputs;
            if slot < |outputs| && outputs[slot].ty != ""
               && exists i :: 0 <= i < |n.inputs| && n.inputs[i].src.Some? && n.inputs[i].ty == outputs[slot].ty
            then exists k :: 0 <= k < |n.inputs| && Through(n, slot) == n.inputs[k].src
                             && n.inputs[k].src.Some? && n.inputs[k].ty == outputs[slot].ty
                             && forall i :: 0 <= i < k ==> !(n.inputs[i].src.Some? && n.inputs[i].ty == outputs[slot].ty)
            else if exists i :: 0 <= i < |n.inputs| && n.inputs[i].src.Some?
            then exists k :: 0 <= k < |n.inputs| && Through(n, slot) == n.inputs[k].src && n.inputs[k].src.Some?
                             && forall i :: 0 <= i < k ==> n.inputs[i].src.None?
            else Through(n, slot) == None
  {
    FirstFedAt(n.inputs, None);
    if slot < |n.body.outputs| {
      FirstFedAt(n.inputs, Some(n.body.outputs[slot].ty));
    }
  }

  /** The scan that finds it, remembering the first fed input as a fallback. */
  method FindThrough(n: FlatNode, slot: nat) returns (r: Option<Pin>)
    ensures r == Through(n, slot)
    ensures var outputs := n.body.outputs;
            if slot < |outputs| && outputs[slot].ty != ""
               && exists i :: 0 <= i < |n.inputs| && n.inputs[i].src.Some? && n.inputs[i].ty == outputs[slot].ty
            then exists k :: 0 <= k < |n.inputs| && r == n.inputs[k].src
                             && n.inputs[k].src.Some? && n.inputs[k].ty == outputs[slot].ty
                             && forall i :: 0 <= i < k ==> !(n.inputs[i].src.Some? && n.inputs[i].ty == outputs[slot].ty)
            else if exists i :: 0 <= i < |n.inputs| && n.inputs[i].src.Some?
            then exists k :: 0 <= k < |n.inputs| && r == n.inputs[k].src && n.inputs[k].src.Some?
                             && forall i :: 0 <= i < k ==> n.inputs[i].src.None?
            else r == None
  {
    ThroughAt(n, slot);
    var ty := if slot < |n.body.outputs| then n.body.outputs[slot].ty else "";
    var fallback: Option<Pin> := None;
    r := None;
    var i := 0;
    while i < |n.inputs|
      invariant 0 <= i <= |n.inputs|
      invariant r.None?
      invariant fallback.None? ==> FirstFed(n.inputs, None) == FirstFed(n.inputs[i..], None)
      invariant fallback.Some? ==> FirstFed(n.inputs, None) == fallback
      invariant ty != "" ==> FirstFed(n.inputs, Some(ty)) == FirstFed(n.inputs[i..], Some(ty))
    {
      var input := n.inputs[i];
      if input.src.Some? {
        if fallback.None? {
          fallback := input.src;
        }
        if ty != "" && input.ty == ty {
          r := input.src;
          break;
        }
      }
      i := i + 1;
    }
    if r.None? {
      r := fallback;
    }
  }

  // ---------------------------------------------------------------- hand-through steps

  function GetStep(e: Env, p: Pin): Option<Pin> {
    if p.0 in e.vars && e.vars[p.0] in e.sets then Some(e.sets[e.vars[p.0]]) else None
  }

  function RerouteStep(e: Env, p: Pin): Option<Pin> {
    if p.0 in e.reroutes then Some(e.reroutes[p.0]) else None
  }

  function BypassStep(e: Env, p: Pin): Option<Pin> {
    if p.0 !in e.bypassed then None
    else match FindFlat(e.nodes, p.0)
      case None => None
      case Some(n) => Through(n, p.1)
  }

  /** What a bypassed node hands on: the first node of that id, at position k, takes it from the input of the output's type, else from the first fed one. */
  lemma BypassStepAt(e: Env, p: Pin, k: nat)
    requires p.0 in e.bypassed && k < |e.nodes| && e.nodes[k].id == p.0 && forall j :: 0 <= j < k ==> e.nodes[j].id != p.0
    ensures var (inputs, outputs) := (e.nodes[k].inputs, e.nodes[k].body.outputs);
            if p.1 < |outputs| && outputs[p.1].ty != ""
               && exists i :: 0 <= i < |inputs| && inputs[i].src.Some? && inputs[i].ty == outputs[p.1].ty
            then exists i :: 0 <= i < |inputs| && BypassStep(e, p) == inputs[i].src
                             && inputs[i].src.Some? && inputs[i].ty == outputs[p.1].ty
                             && forall j :: 0 <= j < i ==> !(inputs[j].src.Some? && inputs[j].ty == outputs[p.1].ty)
            else if exists i :: 0 <= i < |inputs| && inputs[i].src.Some?
            then exists i :: 0 <= i < |inputs| && BypassStep(e, p) == inputs[i].src && inputs[i].src.Some?
                             && forall j :: 0 <= j < i ==> inputs[j].src.None?
            else BypassStep(e, p) == None
  {
    hide Through;
    FirstWhereAt(e.nodes, (n: FlatNode) => n.id == p.0, k);
    ThroughAt(e.nodes[k], p.1);
  }

  predicate HandsOn(e: Env, p: Pin, q: Pin) {
    GetStep(e, p) == Some(q) || RerouteStep(e, p) == Some(q) || BypassStep(e, p) == Some(q)
  }

  predicate IsRoute(e: Env, route: seq<Pin>) {
    |route| > 0 && forall i :: 0 <= i < |route| - 1 ==> HandsOn(e, route[i], route[i + 1])
  }

  ghost predicate ReachedFrom(e: Env, p: Pin, q: Pin) {
    exists route :: IsRoute(e, route) && route[0] == p && route[|route| - 1] == q
  }

  // ---------------------------------------------------------------- the three traces

  function TraceGetSet(e: Env, p: Pin, visited: set<Id>): Pin
    decreases e.vars.Keys - visited
  {
    if p.0 in visited then p
    else match GetStep(e, p)
      case None => p
      case Some(q) => TraceGetSet(e, q, visited + {p.0})
  }

  function TraceReroute(e: Env, p: Pin, visited: set<Id>): Pin
    decreases e.reroutes.Keys - visited
  {
    if p.0 in visited then p
    else match RerouteStep(e, p)
      case None => p
      case Some(q) => TraceReroute(e, q, visited + {p.0})
  }

  function TraceBypassed(e: Env, p: Pin, visited: set<Id>): Pin
    decreases e.bypassed - visited
  {
    if p.0 in visited then p
    else match BypassStep(e, p)
      case None => p
      case Some(q) => TraceBypassed(e, TraceReroute(e, TraceGetSet(e, q, {}), {}), visited + {p.0})
  }

  /** Steps of one kind, one behind the other, until a node repeats or there is no further step. */
  ghost predicate UntilRepeat(step: Pin -> Option<Pin>, visited: set<Id>, route: seq<Pin>) {
    && |route| > 0
    && (forall i :: 0 <= i < |route| - 1 ==> step(route[i]) == Some(route[i + 1]) && route[i].0 !in visited)
    && (forall i, j :: 0 <= i < j < |route| - 1 ==> route[i].0 != route[j].0)
    && (step(route[|route| - 1]).None? || route[|route| - 1].0 in visited
        || exists i :: 0 <= i < |route| - 1 && route[i].0 == route[|route| - 1].0)
  }

  lemma LaterRepeat(step: Pin -> Option<Pin>, visited: set<Id>, route: seq<Pin>)
    requires UntilRepeat(step, visited, route) && |route| > 1
    ensures UntilRepeat(step, visited + {route[0].0}, route[1..])
  {
    var rest := route[1..];
    assert forall i :: 0 <= i < |rest| ==> rest[i] == route[i + 1];
    if i :| 0 <= i < |route| - 1 && route[i].0 == route[|route| - 1].0 {
      assert i > 0 ==> rest[i - 1].0 == rest[|rest| - 1].0;
    }
  }

  /** Cycles or not: a trace follows its steps and ends where a node repeats, or where they end. */
  lemma {:induction false} GetSetUntil(e: Env, route: seq<Pin>, visited: set<Id>)
    requires UntilRepeat((p: Pin) => GetStep(e, p), visited, route)
    ensures TraceGetSet(e, route[0], visited) == route[|route| - 1]
    decreases |route|
  {
    if |route| > 1 {
      LaterRepeat((p: Pin) => GetStep(e, p), visited, route);
      GetSetUntil(e, route[1..], visited + {route[0].0});
    }
  }

  lemma {:induction false} RerouteUntil(e: Env, route: seq<Pin>, visited: set<Id>)
    requires UntilRepeat((p: Pin) => RerouteStep(e, p), visited, route)
    ensures TraceReroute(e, route[0], visited) == route[|route| - 1]
    decreases |route|
  {
    if |route| > 1 {
      LaterRepeat((p: Pin) => RerouteStep(e, p), visited, route);
      RerouteUntil(e, route[1..], visited + {route[0].0});
    }
  }

  /** Past one bypassed node, and past the Get nodes and then the Reroutes behind it. */
  function BypassAndMore(e: Env, p: Pin): Option<Pin> {
    match BypassStep(e, p)
    case None => None
    case Some(q) => Some(TraceReroute(e, TraceGetSet(e, q, {}), {}))
  }

  lemma {:induction false} BypassedUntil(e: Env, route: seq<Pin>, visited: set<Id>)
    requires UntilRepeat((p: Pin) => BypassAndMore(e, p), visited, route)
    ensures TraceBypassed(e, route[0], visited) == route[|route| - 1]
    decreases |route|
  {
    if |route| > 1 {
      LaterRepeat((p: Pin) => BypassAndMore(e, p), visited, route);
      BypassedUntil(e, route[1..], visited + {route[0].0});
    }
  }

  /** Past the routing nodes in front and the bypassed nodes behind them. */
  function Past(e: Env, p: Pin): Pin {
    var b := TraceReroute(e, TraceGetSet(e, p, {}), {});
    if b.0 in e.bypassed then TraceBypassed(e, b, {}) else b
  }

  /**
   The pipeline for one input: get/set, reroute, then past bypassed nodes, get/set, reroute.  None
   when no way past the bypassed nodes is found, in which case the input falls back to its widget.
   */
  function Trace(e: Env, p: Pin): Option<Pin> {
    var c := Past(e, p);
    if c.0 in e.bypassed then None
    else Some(TraceReroute(e, TraceGetSet(e, c, {}), {}))
  }

  // ---------------------------------------------------------------- soundness

  lemma Stay(e: Env, p: Pin)
    ensures ReachedFrom(e, p, p)
  {
    assert IsRoute(e, [p]) && [p][|[p]| - 1] == p;
  }

  lemma OneStep(e: Env, p: Pin, q: Pin)
    requires HandsOn(e, p, q)
    ensures ReachedFrom(e, p, q)
  {
    assert IsRoute(e, [p, q]) && [p, q][|[p, q]| - 1] == q;
  }

  lemma Chain(e: Env, p: Pin, q: Pin, r: Pin)
    requires ReachedFrom(e, p, q) && ReachedFrom(e, q, r)
    ensures ReachedFrom(e, p, r)
  {
    var a :| IsRoute(e, a) && a[0] == p && a[|a| - 1] == q;
    var b :| IsRoute(e, b) && b[0] == q && b[|b| - 1] == r;
    var c := a + b[1..];
    forall i | 0 <= i < |c| - 1 ensures HandsOn(e, c[i], c[i + 1]) {
      if i < |a| - 1 {
        assert HandsOn(e, a[i], a[i + 1]);
      } else {
        assert HandsOn(e, b[i - |a| + 1], b[i - |a| + 2]);
      }
    }
    assert IsRoute(e, c) && c[|c| - 1] == r;
  }

  lemma {:induction false} GetSetSound(e: Env, p: Pin, visited: set<Id>)
    ensures ReachedFrom(e, p, TraceGetSet(e, p, visited))
    decreases e.vars.Keys - visited
  {
    if p.0 in visited || GetStep(e, p).None? {
      Stay(e, p);
    } else {
      var q := GetStep(e, p).value;
      GetSetSound(e, q, visited + {p.0});
      OneStep(e, p, q);
      Chain(e, p, q, TraceGetSet(e, p, visited));
    }
  }

  lemma {:induction false} RerouteSound(e: Env, p: Pin, visited: set<Id>)
    ensures ReachedFrom(e, p, TraceReroute(e, p, visited))
    decreases e.reroutes.Keys - visited
  {
    if p.0 in visited || RerouteStep(e, p).None? {
      Stay(e, p);
    } else {
      var q := RerouteStep(e, p).value;
      RerouteSound(e, q, visited + {p.0});
      OneStep(e, p, q);
      Chain(e, p, q, TraceReroute(e, p, visited));
    }
  }

  lemma BothSound(e: Env, p: Pin)
    ensures ReachedFrom(e, p, TraceReroute(e, TraceGetSet(e, p, {}), {}))
  {
    var q := TraceGetSet(e, p, {});
    GetSetSound(e, p, {});
    RerouteSound(e, q, {});
    Chain(e, p, q, TraceReroute(e, q, {}));
  }

  lemma {:induction false} BypassedSound(e: Env, p: Pin, visited: set<Id>)
    ensures ReachedFrom(e, p, TraceBypassed(e, p, visited))
    decreases e.bypassed - visited
  {
    if p.0 in visited || BypassStep(e, p).None? {
      Stay(e, p);
    } else {
      var q := BypassStep(e, p).value;
      var r := TraceReroute(e, TraceGetSet(e, q, {}), {});
      OneStep(e, p, q);
      BothSound(e, q);
      Chain(e, p, q, r);
      BypassedSound(e, r, visited + {p.0});
      Chain(e, p, r, TraceBypassed(e, p, visited));
    }
  }

  lemma PastSound(e: Env, p: Pin)
    ensures ReachedFrom(e, p, Past(e, p))
  {
    hide ReachedFrom;
    var b := TraceReroute(e, TraceGetSet(e, p, {}), {});
    BothSound(e, p);
    if b.0 in e.bypassed {
      BypassedSound(e, b, {});
      Chain(e, p, b, Past(e, p));
    }
  }

  /** Cycles or not, the pipeline ends, and only at a source whose value the start really hands on. */
  lemma TraceSound(e: Env, p: Pin)
    ensures Trace(e, p).Some? ==> ReachedFrom(e, p, Trace(e, p).value)
  {
    hide ReachedFrom, Past;
    var c := Past(e, p);
    PastSound(e, p);
    BothSound(e, c);
    Chain(e, p, c, TraceReroute(e, TraceGetSet(e, c, {}), {}));
  }

  // ---------------------------------------------------------------- completeness, exactly

  datatype Kind = G | R | B

  /** The ways in which a node hands a value on; a bypassed Reroute has two. */
  function Kinds(e: Env, p: Pin): set<Kind> {
    (if GetStep(e, p).Some? then {G} else {}) + (if RerouteStep(e, p).Some? then {R} else {})
    + if BypassStep(e, p).Some? then {B} else {}
  }

  /** All of them lead to q. */
  predicate LeadsTo(e: Env, p: Pin, q: Pin) {
    && (GetStep(e, p).Some? ==> GetStep(e, p).value == q)
    && (RerouteStep(e, p).Some? ==> RerouteStep(e, p).value == q)
    && (BypassStep(e, p).Some? ==> BypassStep(e, p).value == q)
  }

  /**
   The whole route from its start to where nothing is handed on: acyclic, and at every node there is
   one answer to what it hands on.
   */
  ghost predicate WholeRoute(e: Env, route: seq<Pin>) {
    && |route| > 0
    && (forall i :: 0 <= i < |route| - 1 ==> Kinds(e, route[i]) != {} && LeadsTo(e, route[i], route[i + 1]))
    && Kinds(e, route[|route| - 1]) == {}
    && (forall i, j :: 0 <= i < j < |route| ==> route[i].0 != route[j].0)
  }

  /** What the traces can see of a node on a route. */
  datatype Stop = Stop(kinds: set<Kind>, bypassed: bool)

  /** The stops from position i on, without the end. */
  ghost function Word(e: Env, route: seq<Pin>, i: nat): seq<Stop>
    requires WholeRoute(e, route) && i < |route|
    decreases |route| - i
  {
    if i == |route| - 1 then [] else [Stop(Kinds(e, route[i]), route[i].0 in e.bypassed)] + Word(e, route, i + 1)
  }

  function Skip(k: Kind, ks: seq<Stop>): (r: seq<Stop>)
    ensures |r| <= |ks|
  {
    if ks != [] && k in ks[0].kinds then Skip(k, ks[1..]) else ks
  }

  function SkipBypasses(ks: seq<Stop>): seq<Stop>
    decreases |ks|
  {
    if ks != [] && B in ks[0].kinds then SkipBypasses(Skip(R, Skip(G, ks[1..]))) else ks
  }

  /** What is left of a route past the bypassed nodes, where the pipeline looks whether it is stuck. */
  function PastBypasses(ks: seq<Stop>): seq<Stop> {
    SkipBypasses(Skip(R, Skip(G, ks)))
  }

  /** The pipeline is stuck there at a bypassed node, which can be the end of the route. */
  predicate Blocked(ks: seq<Stop>, deadEnd: bool) {
    if PastBypasses(ks) == [] then deadEnd else PastBypasses(ks)[0].bypassed
  }

  /** What is left of a route where the pipeline stops. */
  function Left(ks: seq<Stop>): seq<Stop> {
    Skip(R, Skip(G, PastBypasses(ks)))
  }

  /** The routes the fixed order copes with: G* R* (B G* R*)* G* R*, not stuck at a bypassed node in between. */
  predicate Fits(ks: seq<Stop>) {
    !Blocked(ks, false) && Left(ks) == []
  }

  /** One way on at every stop, and bypassed only where that way is the bypass. */
  predicate OneWay(ks: seq<Stop>) {
    forall i :: 0 <= i < |ks| ==>
      (ks[i].kinds == {G} || ks[i].kinds == {R} || ks[i].kinds == {B}) && (ks[i].bypassed <==> ks[i].kinds == {B})
  }

  /** A Reroute fed by a Get node. */
  predicate Turn(ks: seq<Stop>, i: nat) {
    i + 1 < |ks| && R in ks[i].kinds && G in ks[i + 1].kinds
  }

  /** Behind a turn comes neither another turn nor a bypassed node. */
  predicate OneTurnLast(ks: seq<Stop>) {
    forall i, j :: 0 <= i < j < |ks| && Turn(ks, i) ==> !Turn(ks, j) && B !in ks[j].kinds
  }

  /** Skipping takes the leading stops of a kind. */
  lemma {:induction false} SkipTakes(k: Kind, ks: seq<Stop>) returns (m: nat)
    requires OneWay(ks)
    ensures m <= |ks| && Skip(k, ks) == ks[m..]
    ensures forall i :: 0 <= i < m ==> ks[i].kinds == {k}
    ensures m < |ks| ==> ks[m].kinds != {k}
  {
    m := 0;
    if ks != [] && k in ks[0].kinds {
      m := SkipTakes(k, ks[1..]);
      m := m + 1;
    }
  }

  /** Get nodes, then Reroutes: up to a bypassed node or a turn. */
  lemma Segment(ks: seq<Stop>) returns (m: nat)
    requires OneWay(ks)
    ensures m <= |ks| && Skip(R, Skip(G, ks)) == ks[m..]
    ensures forall i :: 0 <= i < m ==> B !in ks[i].kinds
    ensures forall i :: 0 <= i && i + 1 < m ==> !Turn(ks, i)
    ensures m < |ks| ==> ks[m].kinds == {B} || (m > 0 && Turn(ks, m - 1))
  {
    hide Skip;
    var a := SkipTakes(G, ks);
    var b := SkipTakes(R, ks[a..]);
    m := a + b;
    assert ks[a..][b..] == ks[m..];
    assert forall i :: 0 <= i < b ==> ks[a + i] == ks[a..][i];
    assert m < |ks| ==> ks[m] == ks[a..][b];
    assert forall i :: a <= i < m ==> ks[i].kinds == {R} by {
      assert forall i :: a <= i < m ==> ks[i] == ks[a..][i - a];
    }
  }

  /**
   The routes the fixed order copes with, said without it: along the route the value may go from a Get
   node into a Reroute at most once, and only behind the last bypassed node.
   */
  lemma {:induction false} FitsExactly(ks: seq<Stop>)
    requires OneWay(ks)
    ensures Fits(ks) <==> OneTurnLast(ks)
    decreases |ks|
  {
    hide Skip;
    var m := Segment(ks);
    var rest := ks[m..];
    if m < |ks| && ks[m].kinds == {B} {
      FitsExactly(ks[m + 1..]);
      assert rest[1..] == ks[m + 1..];
      NotStuck(ks);
      NotStuck(ks[m + 1..]);
      ShiftTurns(ks, m + 1);
    } else {
      NotStuck(ks);
      assert SkipBypasses(rest) == rest;
      if rest != [] {
        var m' := Segment(rest);
        BehindTurn(ks, m, m');
      }
    }
  }

  /** Behind a first turn only a segment may follow. */
  lemma BehindTurn(ks: seq<Stop>, m: nat, m': nat)
    requires 0 < m < |ks| && Turn(ks, m - 1) && m' <= |ks| - m && OneWay(ks)
    requires forall i :: 0 <= i && i + 1 < m ==> !Turn(ks, i)
    requires forall i :: 0 <= i < m' ==> B !in ks[m..][i].kinds
    requires forall i :: 0 <= i && i + 1 < m' ==> !Turn(ks[m..], i)
    requires m' < |ks| - m ==> ks[m..][m'].kinds == {B} || (m' > 0 && Turn(ks[m..], m' - 1))
    ensures m' == |ks| - m <==> OneTurnLast(ks)
  {
    var rest := ks[m..];
    assert forall i :: 0 <= i < |rest| ==> rest[i] == ks[m + i];
    assert forall i :: 0 <= i < |rest| ==> (Turn(rest, i) <==> Turn(ks, m + i));
    if m' == |rest| {
      forall i, j | 0 <= i < j < |ks| && Turn(ks, i) ensures !Turn(ks, j) && B !in ks[j].kinds {
        assert i >= m - 1;
        assert ks[j] == rest[j - m] && !Turn(rest, j - m);
      }
    }
  }

  lemma {:induction false} BypassesSkipped(ks: seq<Stop>)
    requires OneWay(ks)
    ensures var r := SkipBypasses(ks); OneWay(r) && (r != [] ==> r[0].kinds != {B})
    decreases |ks|
  {
    if ks != [] && B in ks[0].kinds {
      var m := Segment(ks[1..]);
      BypassesSkipped(ks[1..][m..]);
    }
  }

  /** A route without bypassed Get nodes or Reroutes is not stuck. */
  lemma NotStuck(ks: seq<Stop>)
    requires OneWay(ks)
    ensures !Blocked(ks, false)
  {
    hide Skip, SkipBypasses;
    var m := Segment(ks);
    BypassesSkipped(ks[m..]);
  }

  /** Without a turn before n only what is behind counts. */
  lemma ShiftTurns(ks: seq<Stop>, n: nat)
    requires n <= |ks| && forall i :: 0 <= i < n ==> !Turn(ks, i)
    ensures OneTurnLast(ks) <==> OneTurnLast(ks[n..])
  {
    var rest := ks[n..];
    assert forall i :: 0 <= i < |rest| ==> rest[i] == ks[n + i];
    assert forall i :: 0 <= i < |rest| ==> (Turn(rest, i) <==> Turn(ks, n + i));
    if OneTurnLast(rest) {
      forall i, j | 0 <= i < j < |ks| && Turn(ks, i) ensures !Turn(ks, j) && B !in ks[j].kinds {
        assert i >= n && Turn(rest, i - n) && rest[j - n] == ks[j];
      }
    }
  }

  /** Nothing of the rest of the route has been visited. */
  ghost predicate Ahead(route: seq<Pin>, i: nat, visited: set<Id>) {
    forall k :: i <= k < |route| ==> route[k].0 !in visited
  }

  lemma {:induction false} GetSetSkips(e: Env, route: seq<Pin>, i: nat, visited: set<Id>) returns (j: nat)
    requires WholeRoute(e, route) && i < |route| && Ahead(route, i, visited)
    ensures i <= j < |route| && TraceGetSet(e, route[i], visited) == route[j]
    ensures Word(e, route, j) == Skip(G, Word(e, route, i))
    decreases |route| - i
  {
    j := i;
    if i < |route| - 1 && GetStep(e, route[i]).Some? {
      assert LeadsTo(e, route[i], route[i + 1]);
      assert Word(e, route, i)[1..] == Word(e, route, i + 1);
      j := GetSetSkips(e, route, i + 1, visited + {route[i].0});
    }
  }

  lemma {:induction false} RerouteSkips(e: Env, route: seq<Pin>, i: nat, visited: set<Id>) returns (j: nat)
    requires WholeRoute(e, route) && i < |route| && Ahead(route, i, visited)
    ensures i <= j < |route| && TraceReroute(e, route[i], visited) == route[j]
    ensures Word(e, route, j) == Skip(R, Word(e, route, i))
    decreases |route| - i
  {
    j := i;
    if i < |route| - 1 && RerouteStep(e, route[i]).Some? {
      assert LeadsTo(e, route[i], route[i + 1]);
      assert Word(e, route, i)[1..] == Word(e, route, i + 1);
      j := RerouteSkips(e, route, i + 1, visited + {route[i].0});
    }
  }

  lemma BothSkip(e: Env, route: seq<Pin>, i: nat) returns (j: nat)
    requires WholeRoute(e, route) && i < |route|
    ensures i <= j < |route| && TraceReroute(e, TraceGetSet(e, route[i], {}), {}) == route[j]
    ensures Word(e, route, j) == Skip(R, Skip(G, Word(e, route, i)))
  {
    j := GetSetSkips(e, route, i, {});
    j := RerouteSkips(e, route, j, {});
  }

  lemma {:induction false} BypassedSkips(e: Env, route: seq<Pin>, i: nat, visited: set<Id>) returns (j: nat)
    requires WholeRoute(e, route) && i < |route| && Ahead(route, i, visited)
    ensures i <= j < |route| && TraceBypassed(e, route[i], visited) == route[j]
    ensures Word(e, route, j) == SkipBypasses(Word(e, route, i))
    decreases |route| - i
  {
    j := i;
    if i < |route| - 1 && BypassStep(e, route[i]).Some? {
      assert LeadsTo(e, route[i], route[i + 1]);
      assert Word(e, route, i)[1..] == Word(e, route, i + 1);
      j := BothSkip(e, route, i + 1);
      j := BypassedSkips(e, route, j, visited + {route[i].0});
    }
  }

  lemma {:induction false} WordLength(e: Env, route: seq<Pin>, j: nat)
    requires WholeRoute(e, route) && j < |route|
    ensures |Word(e, route, j)| == |route| - 1 - j
    ensures Word(e, route, j) != [] ==> Word(e, route, j)[0].bypassed == (route[j].0 in e.bypassed)
    decreases |route| - j
  {
    if j < |route| - 1 {
      WordLength(e, route, j + 1);
    }
  }

  lemma NotBypassed(e: Env, route: seq<Pin>, i: nat)
    requires WholeRoute(e, route) && i < |route| && route[i].0 !in e.bypassed
    ensures TraceBypassed(e, route[i], {}) == route[i]
  {
  }

  lemma PastSkips(e: Env, route: seq<Pin>) returns (c: nat)
    requires WholeRoute(e, route)
    ensures c < |route| && Past(e, route[0]) == route[c]
    ensures Word(e, route, c) == PastBypasses(Word(e, route, 0))
  {
    hide Word, Skip, SkipBypasses, TraceGetSet, TraceReroute, TraceBypassed, Kinds;
    var b := BothSkip(e, route, 0);
    c := BypassedSkips(e, route, b, {});
    if route[b].0 !in e.bypassed {
      NotBypassed(e, route, b);
    }
  }

  /** What the pipeline does with any whole route: it is stuck, or it stops exactly where its order leaves off. */
  lemma {:induction false} TraceExactly(e: Env, route: seq<Pin>)
    requires WholeRoute(e, route)
    ensures var ks := Word(e, route, 0);
            && |Left(ks)| < |route|
            && Trace(e, route[0]) ==
               if Blocked(ks, route[|route| - 1].0 in e.bypassed) then None else Some(route[|route| - 1 - |Left(ks)|])
  {
    hide Word, Skip, SkipBypasses, TraceGetSet, TraceReroute, TraceBypassed, Past, PastBypasses, Kinds;
    var c := PastSkips(e, route);
    var r := BothSkip(e, route, c);
    WordLength(e, route, c);
    WordLength(e, route, r);
  }

  /** The pipeline finds the live end of a whole route exactly when the route fits the order of the traces. */
  lemma {:induction false} TraceComplete(e: Env, route: seq<Pin>)
    requires WholeRoute(e, route) && route[|route| - 1].0 !in e.bypassed
    ensures Trace(e, route[0]) == Some(route[|route| - 1]) <==> Fits(Word(e, route, 0))
  {
    hide Trace, Word, Blocked, Left;
    TraceExactly(e, route);
    var at := |route| - 1 - |Left(Word(e, route, 0))|;
    assert at < |route| - 1 ==> route[at].0 != route[|route| - 1].0;
  }

  /** Get 1, Reroute 2, Get 3, Reroute 4, Get 5, and the source 6. */
  function Zigzag(): Env {
    Env(map["1" := Str("a"), "3" := Str("b"), "5" := Str("c")],
        map[Str("a") := ("2", 0), Str("b") := ("4", 0), Str("c") := ("6", 0)],
        map["2" := ("3", 0), "4" := ("5", 0)], {}, [])
  }

  /** Three Get/Reroute alternations are one too many: the trace stops at a Get that still hands on. */
  lemma AlternationLimit()
    ensures Trace(Zigzag(), ("1", 0)) == Some(("5", 0))
    ensures GetStep(Zigzag(), ("5", 0)) == Some(("6", 0))
  {
  }

  /** A bypassed Get behind a Reroute: the value is there, but the trace gives up at the bypassed node. */
  lemma BypassedGetBlocks(e: Env, reroute: Pin, get: Pin, source: Pin)
    requires RerouteStep(e, reroute) == Some(get) && GetStep(e, reroute).None?
    requires GetStep(e, get) == Some(source) && RerouteStep(e, get).None? && BypassStep(e, get).None? && get.0 in e.bypassed
    ensures Trace(e, reroute) == None
  {
    assert TraceGetSet(e, reroute, {}) == reroute;
    assert {} + {reroute.0} == {reroute.0} && TraceReroute(e, get, {reroute.0}) == get;
    assert TraceReroute(e, reroute, {}) == get;
    assert TraceBypassed(e, get, {}) == get;
  }
}
