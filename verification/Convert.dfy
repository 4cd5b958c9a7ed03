/**
 The whole conversion, and what it preserves: every input of a prompt entry refers to the node the
 drawing feeds it from, seen past the routing nodes; and converting again, with the links list the
 first conversion extended, gives the same prompt.
 */
module Convert {
  import opened Wrappers
  import opened NodeIds
  import opened NestedGraph
  import opened OrderedMap
  import opened Assembly
  import opened Boundaries
  import opened Wiring
  import opened Frontier
  import opened Flattening
  import opened LiveWorkflow
  import opened Flatten
  import opened Passthrough
  import opened NodeClasses
  import opened ComboSpelling
  import opened Prompt

  // ---------------------------------------------------------------- traced sources are already resolved

  /** OutSource has nothing more to do. */
  predicate Resolved(w: Workflow, p: Pin) {
    OutSource(w, p.0, p.1) == p
  }

  lemma {:induction false} OutSourceResolved(w: Workflow, s: Id, slot: nat)
    ensures Resolved(w, OutSource(w, s, slot))
    decreases MAX_ROUNDS - Depth(s)
  {
    if s != "" && Depth(s) < MAX_ROUNDS && LevelAt(w, s).Some? {
      match FeedOf(LevelAt(w, s).value.links, OUT, slot) {
        case None =>
        case Some(l) =>
          QualifyDeeper(s, l.src);
          OutSourceResolved(w, Qualify(s, l.src), l.srcSlot);
      }
    }
  }

  lemma {:induction false} InSourceResolved(w: Workflow, q: Id, i: nat)
    ensures InSource(w, q, i).Some? ==> Resolved(w, InSource(w, q, i).value)
    decreases |q|
  {
    hide OutSource;
    if q != "" && LastColon(q) != 0 && LevelAt(w, Parent(q)).Some? {
      var g := LevelAt(w, Parent(q)).value;
      match FeedOf(g.links, Leaf(q), i) {
        case None =>
        case Some(l) =>
          if l.src != IN {
            OutSourceResolved(w, Qualify(Parent(q), l.src), l.srcSlot);
          } else if Parent(q) != "" {
            match OuterSlot(NodeAt(w, Parent(q)).value, g, l.srcSlot, 0) {
              case None =>
              case Some(k) => InSourceResolved(w, Parent(q), k);
            }
          }
      }
    }
  }

  /** Some input of a flat node is fed by p. */
  predicate IsFed(nodes: seq<FlatNode>, p: Pin) {
    exists n :: n in nodes && HasSource(n.inputs, p)
  }

  predicate HasSource(inputs: seq<FlatInput>, p: Pin) {
    exists i :: i in inputs && i.src == Some(p)
  }

  lemma {:induction false} FirstFedIsFed(inputs: seq<FlatInput>, ty: Option<string>)
    ensures FirstFed(inputs, ty).Some? ==> HasSource(inputs, FirstFed(inputs, ty).value)
  {
    if inputs != [] {
      FirstFedIsFed(inputs[1..], ty);
      assert inputs[0] in inputs;
      assert forall i :: i in inputs[1..] ==> i in inputs;
    }
  }

  lemma {:induction false} TablesAreFed(nodes: seq<FlatNode>)
    ensures forall v :: v in SetsOf(nodes) ==> IsFed(nodes, SetsOf(nodes)[v])
    ensures forall x :: x in ReroutesOf(nodes) ==> IsFed(nodes, ReroutesOf(nodes)[x])
  {
    if nodes != [] {
      var (front, n) := (nodes[..|nodes| - 1], nodes[|nodes| - 1]);
      TablesAreFed(front);
      assert nodes == front + [n];
      assert forall m :: m in front ==> m in nodes;
      assert n in nodes;
      FirstFedIsFed(n.inputs, None);
      assert forall p :: IsFed(front, p) ==> IsFed(nodes, p);
      if |n.inputs| > 0 && n.inputs[0].src.Some? {
        assert n.inputs[0] in n.inputs;
        assert HasSource(n.inputs, n.inputs[0].src.value);
      }
    }
  }

  /** Whatever is handed on came in at some input. */
  lemma HandedOnIsFed(nodes: seq<FlatNode>, p: Pin, q: Pin)
    requires HandsOn(EnvOf(nodes), p, q)
    ensures IsFed(nodes, q)
  {
    hide VarsOf, SetsOf, ReroutesOf, PrimsOf, IsFed;
    TablesAreFed(nodes);
    if BypassStep(EnvOf(nodes), p) == Some(q) {
      var n := FindFlat(nodes, p.0).value;
      ThroughIsFed(nodes, n, p.1);
    }
  }

  lemma ThroughIsFed(nodes: seq<FlatNode>, n: FlatNode, slot: nat)
    requires n in nodes && Through(n, slot).Some?
    ensures IsFed(nodes, Through(n, slot).value)
  {
    var ty := if slot < |n.body.outputs| then n.body.outputs[slot].ty else "";
    FirstFedIsFed(n.inputs, Some(ty));
    FirstFedIsFed(n.inputs, None);
  }

  /** A trace ends where it started or at what feeds some input. */
  lemma TraceIsFed(nodes: seq<FlatNode>, p: Pin)
    requires Trace(EnvOf(nodes), p).Some?
    ensures Trace(EnvOf(nodes), p).value == p || IsFed(nodes, Trace(EnvOf(nodes), p).value)
  {
    hide Trace, HandsOn, IsFed;
    var e := EnvOf(nodes);
    TraceSound(e, p);
    var route :| IsRoute(e, route) && route[0] == p && route[|route| - 1] == Trace(e, p).value;
    if |route| > 1 {
      assert HandsOn(e, route[|route| - 2], route[|route| - 1]);
      HandedOnIsFed(nodes, route[|route| - 2], route[|route| - 1]);
    }
  }

  lemma FedIsResolved(w: Workflow, p: Pin)
    requires IsFed(Drawn(w), p)
    ensures Resolved(w, p)
  {
    hide InSource, Unfold, Resolved;
    var n :| n in Drawn(w) && HasSource(n.inputs, p);
    var a :| 0 <= a < |Drawn(w)| && Drawn(w)[a] == n;
    var i :| 0 <= i < |n.inputs| && n.inputs[i].src == Some(p);
    InSourceResolved(w, n.id, i);
    assert n.inputs == DrawnInputs(w, After(w, MAX_ROUNDS)[a]);
  }

  /** Tracing never leads to a subgraph node's own output: the resolution that follows it is idle. */
  lemma ResolutionIdle(w: Workflow, t: Tables, p: Pin)
    requires WellFormed(w) && TablesFor(w, t) && IsFed(Drawn(w), p)
    requires Trace(EnvOf(Drawn(w)), p).Some?
    ensures var r := Trace(EnvOf(Drawn(w)), p).value; ResolveOutput(t, r.0, r.1, 0) == r
  {
    hide Drawn, IsFed, Trace, WellFormed, OutSource;
    var r := Trace(EnvOf(Drawn(w)), p).value;
    TraceIsFed(Drawn(w), p);
    FedIsResolved(w, r);
    TablesShallow(w, t);
    GuardsNeverFire(t, r.0, r.1);
    SourceSide(w, t, r.0, r.1);
  }

  lemma TablesShallow(w: Workflow, t: Tables)
    requires TablesFor(w, t)
    ensures KeysShallow(t)
  {
  }

  // ---------------------------------------------------------------- emitting

  /** The node scan inside the bypass trace. */
  method StepBypassed(e: Env, p: Pin) returns (r: Option<Pin>)
    ensures r == BypassStep(e, p)
  {
    if p.0 !in e.bypassed {
      return None;
    }
    for i := 0 to |e.nodes|
      invariant FindFlat(e.nodes, p.0) == FindFlat(e.nodes[i..], p.0)
    {
      if e.nodes[i].id == p.0 {
        r := FindThrough(e.nodes[i], p.1);
        return;
      }
    }
    return None;
  }

  method RunBypassed(e: Env, p: Pin, visited: set<Id>) returns (r: Pin)
    ensures r == TraceBypassed(e, p, visited)
    decreases e.bypassed - visited
  {
    if p.0 in visited {
      return p;
    }
    var q := StepBypassed(e, p);
    if q.None? {
      return p;
    }
    var up := TraceGetSet(e, q.value, {});
    up := TraceReroute(e, up, {});
    r := RunBypassed(e, up, visited + {p.0});
  }

  method RunTrace(e: Env, p: Pin) returns (r: Option<Pin>)
    ensures r == Trace(e, p)
    ensures r.Some? ==> ReachedFrom(e, p, r.value)
  {
    TraceSound(e, p);
    hide ReachedFrom;
    var q := TraceGetSet(e, p, {});
    q := TraceReroute(e, q, {});
    if q.0 in e.bypassed {
      q := RunBypassed(e, q, {});
      if q.0 in e.bypassed {
        return None;
      }
    }
    q := TraceGetSet(e, q, {});
    q := TraceReroute(e, q, {});
    return Some(q);
  }

  /** For these sources the resolution after tracing is idle. */
  ghost predicate Idle(t: Tables, e: Env, inputs: seq<FlatInput>) {
    forall i :: i in inputs && i.src.Some? && Trace(e, i.src.value).Some? ==>
      var r := Trace(e, i.src.value).value; ResolveOutput(t, r.0, r.1, 0) == r
  }

  method CollectInputs(t: Tables, e: Env, prims: map<Id, Value>, excluded: set<Id>, inputs: seq<FlatInput>) returns (ps: Dict, ls: Dict)
    requires Idle(t, e, inputs)
    ensures (ps, ls) == Collected(e, prims, excluded, inputs)
  {
    hide Trace, ResolveOutput;
    ps, ls := [], [];
    for k := 0 to |inputs|
      invariant (ps, ls) == Collected(e, prims, excluded, inputs[..k])
    {
      assert inputs[..k + 1][..k] == inputs[..k];
      var i := inputs[k];
      assert i in inputs;
      if i.src.Some? {
        var traced := RunTrace(e, i.src.value);
        if traced.Some? {
          var r := ResolveOutput(t, traced.value.0, traced.value.1, 0);
          if r.0 in prims {
            ps := Put(ps, i.name, Lit(prims[r.0]));
          } else if r.0 !in excluded && r.0 !in e.bypassed {
            ls := Put(ls, i.name, Ref(r.0, r.1));
          }
        }
      }
    }
    assert inputs[..|inputs|] == inputs;
  }

  method EmitNode(reg: Registry, t: Tables, e: Env, prims: map<Id, Value>, excluded: set<Id>, n: FlatNode) returns (out: Dict)
    requires Idle(t, e, n.inputs)
    ensures out == NodeInputs(reg, e, prims, excluded, n)
  {
    hide Idle, Collected, WidgetInputs, Defaults, Composed, Normalised;
    var ps, ls := CollectInputs(t, e, prims, excluded, n.inputs);
    var ws := CollectWidgets(reg, n.id, n.body, ls);
    var ds := CollectDefaults(SpecsOf(reg, n.body.ty), ws, ps, ls);
    var names := CollectOrderedNames(reg, n.body);
    out := Assemble(names, ws, ps, ds, ls);
    out := Normalise(reg.lower, SpecsOf(reg, n.body.ty), out);
  }

  /** The second pass over the nodes. */
  method Emit(reg: Registry, t: Tables, e: Env, prims: map<Id, Value>, excluded: set<Id>, nodes: seq<FlatNode>) returns (prompt: ApiPrompt)
    requires forall n :: n in nodes ==> Idle(t, e, n.inputs)
    ensures prompt == PromptUpTo(reg, e, prims, excluded, nodes)
  {
    prompt := [];
    for k := 0 to |nodes|
      invariant prompt == PromptUpTo(reg, e, prims, excluded, nodes[..k])
    {
      hide Idle, NodeInputs, Put, IsRouting;
      assert nodes[..k + 1][..k] == nodes[..k];
      var n := nodes[k];
      assert n in nodes;
      if n.body.ty == "" || n.body.mode == MUTED || n.body.mode == BYPASSED || IsRouting(n.body.ty) || n.id in excluded {
        continue;
      }
      var inputs := EmitNode(reg, t, e, prims, excluded, n);
      prompt := Put(prompt, n.id, ApiNode(n.body.ty, inputs));
    }
    assert nodes[..|nodes|] == nodes;
  }

  /**
   The conversion.  The prompt depends on the drawing and the class table alone: not on which link
   ids were free, nor on what the links list had collected before.
   */
  method ConvertToApi(reg: Registry, f: LiveFlow, ghost w: Workflow, list: LinkList) returns (prompt: ApiPrompt)
    requires WellFormed(w) && Holds(f, w)
    requires Faithful(w, list.links) && forall l :: l in w.top.links ==> l in list.links
    modifies list
    ensures old(list.links) <= list.links && Faithful(w, list.links)
    ensures Holds(f, w)
    ensures prompt == PromptOf(reg, Drawn(w))
  {
    hide WellFormed, TablesFor, Faithful, Holds, Drawn, IsExcluded, Idle, PromptUpTo, VarsOf, SetsOf, ReroutesOf, PrimsOf;
    var flat, t := FlattenWorkflow(f, w, list);
    label Flattened:
    var e, prims, excluded := Classify(reg, flat);
    forall n | n in flat ensures Idle(t, e, n.inputs) {
      DrawnIdle(w, t, n);
    }
    prompt := Emit(reg, t, e, prims, excluded, flat);
    assert unchanged@Flattened(AllCells(f));
  }

  lemma DrawnIdle(w: Workflow, t: Tables, n: FlatNode)
    requires WellFormed(w) && TablesFor(w, t) && n in Drawn(w)
    ensures Idle(t, EnvOf(Drawn(w)), n.inputs)
  {
    hide Drawn, WellFormed, TablesFor, Trace, ResolveOutput, EnvOf;
    forall i | i in n.inputs && i.src.Some? && Trace(EnvOf(Drawn(w)), i.src.value).Some?
      ensures var r := Trace(EnvOf(Drawn(w)), i.src.value).value; ResolveOutput(t, r.0, r.1, 0) == r
    {
      assert HasSource(n.inputs, i.src.value);
      ResolutionIdle(w, t, i.src.value);
    }
  }

  /** Conversion is repeatable: each of any number of conversions of one workflow object gives the first one's prompt. */
  method ConvertRepeatedly(reg: Registry, f: LiveFlow, ghost w: Workflow, list: LinkList, times: nat) returns (prompts: seq<ApiPrompt>)
    requires WellFormed(w) && Holds(f, w)
    requires Faithful(w, list.links) && forall l :: l in w.top.links ==> l in list.links
    modifies list
    ensures |prompts| == times && forall a, b :: 0 <= a < b < times ==> prompts[a] == prompts[b]
    ensures old(list.links) <= list.links && Holds(f, w)
  {
    hide WellFormed, Faithful, Holds, PromptOf, Drawn;
    prompts := [];
    for k := 0 to times
      invariant |prompts| == k && forall a :: 0 <= a < k ==> prompts[a] == PromptOf(reg, Drawn(w))
      invariant old(list.links) <= list.links && Faithful(w, list.links) && Holds(f, w)
    {
      var prompt := ConvertToApi(reg, f, w, list);
      prompts := prompts + [prompt];
    }
  }

  /** A list that holds just the drawing's own links is a possible start. */
  lemma FreshList(w: Workflow)
    requires WellFormed(w)
    ensures Faithful(w, w.top.links)
  {
    LevelIsOk(w, "");
    hide WellFormed;
    forall c | c in w.top.links ensures IsCopy(w, c) {
      TopIsCopy(w, c);
    }
  }

  /** At the top level nothing is prefixed. */
  lemma TopIsCopy(w: Workflow, c: Link)
    requires c in w.top.links && c.src != IN && c.tgt != OUT
    ensures IsCopy(w, c)
  {
    assert CopyOf(w, c, "", c);
  }

  // ---------------------------------------------------------------- what is preserved

  lemma DrawnInput(w: Workflow, a: nat, j: nat)
    requires a < |Drawn(w)| && j < |Drawn(w)[a].inputs|
    ensures Drawn(w)[a].inputs[j].src == InSource(w, Drawn(w)[a].id, j)
  {
    hide InSource, Unfold;
    assert Drawn(w)[a].inputs == DrawnInputs(w, After(w, MAX_ROUNDS)[a]);
  }

  lemma EnvBypassed(nodes: seq<FlatNode>)
    ensures EnvOf(nodes).bypassed == BypassedOf(nodes)
  {
  }

  lemma RouteNotEmpty(e: Env, route: seq<Pin>)
    requires WholeRoute(e, route)
    ensures |route| > 0
  {
  }

  lemma EntryThere(reg: Registry, nodes: seq<FlatNode>, n: FlatNode)
    requires Prompt.DistinctIds(nodes) && n in nodes && Emitted(ExcludedOf(reg, nodes), n)
    ensures Get(PromptOf(reg, nodes), n.id)
            == Some(ApiNode(n.body.ty, NodeInputs(reg, EnvOf(nodes), PrimsOf(nodes), ExcludedOf(reg, nodes), n)))
  {
    hide NodeInputs, Get, PrimsOf, ExcludedOf, EnvOf, PromptUpTo, Emitted;
    FindFlatUnique(nodes, n);
    EntriesOf(reg, EnvOf(nodes), PrimsOf(nodes), ExcludedOf(reg, nodes), nodes, n.id);
  }

  /** The nodes have distinct ids, and their inputs the sources that the drawing gives them. */
  ghost predicate StandFor(w: Workflow, nodes: seq<FlatNode>) {
    && Prompt.DistinctIds(nodes)
    && forall a, j {:trigger InSource(w, nodes[a].id, j)} :: 0 <= a < |nodes| && 0 <= j < |nodes[a].inputs| ==>
         nodes[a].inputs[j].src == InSource(w, nodes[a].id, j)
  }

  /** The flattened nodes do, so what follows holds of every conversion. */
  lemma DrawnStandFor(w: Workflow)
    requires WellFormed(w)
    ensures StandFor(w, Drawn(w))
  {
    hide Drawn, InSource, WellFormed, Prompt.DistinctIds;
    DrawnDistinct(w);
    forall a, j: nat | 0 <= a < |Drawn(w)| && j < |Drawn(w)[a].inputs|
      ensures Drawn(w)[a].inputs[j].src == InSource(w, Drawn(w)[a].id, j) {
      DrawnInput(w, a, j);
    }
  }

  /** An input of an emitted node whose own name it is, and the whole route its drawn value comes by. */
  ghost predicate DrawnRoute(reg: Registry, w: Workflow, nodes: seq<FlatNode>, a: nat, j: nat, route: seq<Pin>) {
    && StandFor(w, nodes)
    && a < |nodes| && Emitted(ExcludedOf(reg, nodes), nodes[a]) && OwnName(nodes[a].inputs, j)
    && WholeRoute(EnvOf(nodes), route) && InSource(w, nodes[a].id, j) == Some(route[0])
  }

  ghost function EntryOf(reg: Registry, nodes: seq<FlatNode>, a: nat): Option<ApiNode>
    requires a < |nodes|
  {
    Get(PromptOf(reg, nodes), nodes[a].id)
  }

  /** Every drawn route, whatever its end: the input's source in the prompt is what the route gives. */
  lemma DrawnRouteGives(reg: Registry, w: Workflow, nodes: seq<FlatNode>, a: nat, j: nat, route: seq<Pin>)
    requires DrawnRoute(reg, w, nodes, a, j, route)
    ensures EntryOf(reg, nodes, a).Some? && EntryOf(reg, nodes, a).value.classType == nodes[a].body.ty
    ensures EntryOf(reg, nodes, a).value.inputs
            == NodeInputs(reg, EnvOf(nodes), PrimsOf(nodes), ExcludedOf(reg, nodes), nodes[a])
    ensures SourceOf(EnvOf(nodes), PrimsOf(nodes), ExcludedOf(reg, nodes), nodes[a].inputs[j])
            == RouteSource(EnvOf(nodes), PrimsOf(nodes), ExcludedOf(reg, nodes), route)
  {
    hide InSource, EnvOf, PrimsOf, ExcludedOf, WholeRoute, Emitted, NodeInputs, Get, PromptOf,
      RouteSource, SourceOf;
    EntryThere(reg, nodes, nodes[a]);
    assert nodes[a].inputs[j].src == Some(route[0]) by {
      DrawnSource(reg, w, nodes, a, j, route);
    }
    RouteGives(EnvOf(nodes), PrimsOf(nodes), ExcludedOf(reg, nodes), nodes[a].inputs[j], route);
  }

  lemma DrawnSource(reg: Registry, w: Workflow, nodes: seq<FlatNode>, a: nat, j: nat, route: seq<Pin>)
    requires DrawnRoute(reg, w, nodes, a, j, route)
    ensures |route| > 0 && nodes[a].inputs[j].src == Some(route[0])
  {
    hide InSource, EnvOf, Emitted, ExcludedOf;
  }

  /**
   The drawing is preserved.  Take an input of an emitted node, what the nested drawing feeds it from,
   and the whole route from there past Get/Set pairs, Reroutes and bypassed nodes to a live end: the
   prompt wires the input to that end exactly when the route fits the order of the traces.
   */
  lemma DrawingPreserved(reg: Registry, w: Workflow, nodes: seq<FlatNode>, a: nat, j: nat, route: seq<Pin>)
    requires DrawnRoute(reg, w, nodes, a, j, route)
    requires var end := route[|route| - 1].0;
             end !in BypassedOf(nodes) && end !in ExcludedOf(reg, nodes) && end !in PrimsOf(nodes)
    ensures var (n, end) := (nodes[a], route[|route| - 1]);
            && EntryOf(reg, nodes, a).Some? && EntryOf(reg, nodes, a).value.classType == n.body.ty
            && (Get(EntryOf(reg, nodes, a).value.inputs, n.inputs[j].name) == Some(Ref(end.0, end.1))
                <==> Fits(Word(EnvOf(nodes), route, 0)))
  {
    hide InSource, EnvOf, PrimsOf, ExcludedOf, BypassedOf, WholeRoute, Emitted, NodeInputs, Get, PromptOf,
      RouteSource, SourceOf, Word, Fits, EntryOf;
    DrawnRouteGives(reg, w, nodes, a, j, route);
    RouteNotEmpty(EnvOf(nodes), route);
    RefIffSettled(reg, EnvOf(nodes), PrimsOf(nodes), ExcludedOf(reg, nodes), nodes[a], j, route[|route| - 1]);
    EnvBypassed(nodes);
    LiveEnd(EnvOf(nodes), PrimsOf(nodes), ExcludedOf(reg, nodes), route);
  }

  /** An input whose route ends at a primitive the traces come to has the primitive's value, or its widget's. */
  lemma DrawingCarries(reg: Registry, w: Workflow, nodes: seq<FlatNode>, a: nat, j: nat, route: seq<Pin>)
    requires DrawnRoute(reg, w, nodes, a, j, route) && route[|route| - 1].0 in PrimsOf(nodes)
    requires Arrives(Word(EnvOf(nodes), route, 0), route[|route| - 1].0 in BypassedOf(nodes))
    ensures EntryOf(reg, nodes, a).Some?
    ensures var (n, k) := (nodes[a], nodes[a].inputs[j].name);
            var ws := WidgetInputs(reg, n.id, n.body, Collected(EnvOf(nodes), PrimsOf(nodes), ExcludedOf(reg, nodes), n.inputs).1);
            var v := if Has(ws, k) then Get(ws, k).value else Lit(PrimsOf(nodes)[route[|route| - 1].0]);
            Get(EntryOf(reg, nodes, a).value.inputs, k) == Some(RespellAll(reg.lower, SpecsOf(reg, n.body.ty), k, v))
  {
    hide InSource, EnvOf, PrimsOf, ExcludedOf, BypassedOf, WholeRoute, Emitted, NodeInputs, Get, PromptOf,
      RouteSource, SourceOf, Word, EntryOf, Arrives, WidgetInputs, Collected, RespellAll, SpecsOf;
    DrawnRouteGives(reg, w, nodes, a, j, route);
    EnvBypassed(nodes);
    PrimitiveEnd(EnvOf(nodes), PrimsOf(nodes), ExcludedOf(reg, nodes), route);
    CarriedIsValue(reg, EnvOf(nodes), PrimsOf(nodes), ExcludedOf(reg, nodes), nodes[a], j);
  }

  /** An input whose route ends at an excluded or bypassed node that the traces come to, or on which they get stuck, is no reference. */
  lemma DrawingDeadEnds(reg: Registry, w: Workflow, nodes: seq<FlatNode>, a: nat, j: nat, route: seq<Pin>, pin: Pin)
    requires DrawnRoute(reg, w, nodes, a, j, route)
    requires var end := route[|route| - 1].0;
             end !in PrimsOf(nodes) && (end in BypassedOf(nodes) || end in ExcludedOf(reg, nodes))
    requires var (ks, dead) := (Word(EnvOf(nodes), route, 0), route[|route| - 1].0 in BypassedOf(nodes));
             Arrives(ks, dead) || Blocked(ks, dead)
    ensures EntryOf(reg, nodes, a).Some?
    ensures Get(EntryOf(reg, nodes, a).value.inputs, nodes[a].inputs[j].name) != Some(Ref(pin.0, pin.1))
  {
    hide InSource, EnvOf, PrimsOf, ExcludedOf, BypassedOf, WholeRoute, Emitted, NodeInputs, Get, PromptOf,
      RouteSource, SourceOf, Word, EntryOf, Arrives, Blocked;
    DrawnRouteGives(reg, w, nodes, a, j, route);
    EnvBypassed(nodes);
    DeadEnd(EnvOf(nodes), PrimsOf(nodes), ExcludedOf(reg, nodes), route);
    RefIffSettled(reg, EnvOf(nodes), PrimsOf(nodes), ExcludedOf(reg, nodes), nodes[a], j, pin);
  }

  lemma DrawnDistinct(w: Workflow)
    requires WellFormed(w)
    ensures Prompt.DistinctIds(Drawn(w))
  {
    hide WellFormed, Unfold, DrawnInputs;
    AfterDistinct(w, MAX_ROUNDS);
  }
}
