/**
 From the flat workflow to the prompt: classify the nodes, then emit an entry for every executable
 node.  Proved: what a reference in the prompt means, which nodes get an entry, and that the prompt
 never refers to a bypassed, excluded or value-carrying primitive node.
 */
module Prompt {
  import opened Wrappers
  import opened NodeIds
  import opened NestedGraph
  import opened OrderedMap
  import opened Assembly
  import opened Boundaries
  import opened Flattening
  import opened Passthrough
  import opened NodeClasses
  import opened ComboSpelling

  const MUTED := 2
  const BYPASSED := 4

  // ---------------------------------------------------------------- classification

  function FirstWidget(n: FlatNode): Option<Value> {
    if n.body.widgets.ListWidgets? && n.body.widgets.values != [] then Some(n.body.widgets.values[0]) else None
  }

  function NoteVar(m: map<Id, Value>, n: FlatNode): map<Id, Value> {
    if n.body.ty == "GetNode" && FirstWidget(n).Some? then m[n.id := FirstWidget(n).value] else m
  }

  function NoteSet(m: map<Value, Pin>, n: FlatNode): map<Value, Pin> {
    if n.body.ty == "SetNode" && FirstWidget(n).Some? && FirstFed(n.inputs, None).Some?
    then m[FirstWidget(n).value := FirstFed(n.inputs, None).value]
    else m
  }

  function NoteReroute(m: map<Id, Pin>, n: FlatNode): map<Id, Pin> {
    if n.body.ty == "Reroute" && |n.inputs| > 0 && n.inputs[0].src.Some? then m[n.id := n.inputs[0].src.value] else m
  }

  function NotePrim(m: map<Id, Value>, n: FlatNode): map<Id, Value> {
    if n.body.ty == "PrimitiveNode" && FirstWidget(n).Some? then m[n.id := FirstWidget(n).value] else m
  }

  /** Get nodes by id: the variable they read. */
  function VarsOf(nodes: seq<FlatNode>): map<Id, Value> {
    if nodes == [] then map[] else NoteVar(VarsOf(nodes[..|nodes| - 1]), nodes[|nodes| - 1])
  }

  /** Variables: the source of the first fed input of the last Set node that writes them. */
  function SetsOf(nodes: seq<FlatNode>): map<Value, Pin> {
    if nodes == [] then map[] else NoteSet(SetsOf(nodes[..|nodes| - 1]), nodes[|nodes| - 1])
  }

  /** Reroutes by id: what their first input is fed by. */
  function ReroutesOf(nodes: seq<FlatNode>): map<Id, Pin> {
    if nodes == [] then map[] else NoteReroute(ReroutesOf(nodes[..|nodes| - 1]), nodes[|nodes| - 1])
  }

  /** Primitives by id: the value they carry. */
  function PrimsOf(nodes: seq<FlatNode>): map<Id, Value> {
    if nodes == [] then map[] else NotePrim(PrimsOf(nodes[..|nodes| - 1]), nodes[|nodes| - 1])
  }

  function BypassedOf(nodes: seq<FlatNode>): set<Id> {
    set n | n in nodes && n.body.mode == BYPASSED :: n.id
  }

  /** No output leads anywhere, and the class does not say that it needs none. */
  predicate IsExcluded(reg: Registry, n: FlatNode) {
    || n.body.ty == "LoadImageOutput"
    || ((forall o :: o in n.body.outputs ==> !o.connected)
        && if n.body.ty in reg.classes then !reg.classes[n.body.ty].isOutput
           else forall i :: i in n.inputs ==> i.src.None?)
  }

  function ExcludedOf(reg: Registry, nodes: seq<FlatNode>): set<Id> {
    set n | n in nodes && IsExcluded(reg, n) :: n.id
  }

  function EnvOf(nodes: seq<FlatNode>): Env {
    Env(VarsOf(nodes), SetsOf(nodes), ReroutesOf(nodes), BypassedOf(nodes), nodes)
  }

  method FirstFedScan(inputs: seq<FlatInput>) returns (r: Option<Pin>)
    ensures r == FirstFed(inputs, None)
  {
    for i := 0 to |inputs|
      invariant FirstFed(inputs, None) == FirstFed(inputs[i..], None)
    {
      if inputs[i].src.Some? {
        return inputs[i].src;
      }
    }
    return None;
  }

  method Excluded(reg: Registry, n: FlatNode) returns (r: bool)
    ensures r == IsExcluded(reg, n)
  {
    if n.body.ty == "LoadImageOutput" {
      return true;
    }
    for i := 0 to |n.body.outputs|
      invariant forall j :: 0 <= j < i ==> !n.body.outputs[j].connected
    {
      if n.body.outputs[i].connected {
        return false;
      }
    }
    if n.body.ty in reg.classes {
      return !reg.classes[n.body.ty].isOutput;
    }
    for i := 0 to |n.inputs|
      invariant forall j :: 0 <= j < i ==> n.inputs[j].src.None?
    {
      if n.inputs[i].src.Some? {
        return false;
      }
    }
    return true;
  }

  method ClassifyNode(n: FlatNode, vars: map<Id, Value>, sets: map<Value, Pin>, reroutes: map<Id, Pin>, prims: map<Id, Value>)
    returns (vars': map<Id, Value>, sets': map<Value, Pin>, reroutes': map<Id, Pin>, prims': map<Id, Value>)
    ensures vars' == NoteVar(vars, n) && sets' == NoteSet(sets, n)
    ensures reroutes' == NoteReroute(reroutes, n) && prims' == NotePrim(prims, n)
  {
    vars', sets', reroutes', prims' := vars, sets, reroutes, prims;
    if n.body.ty == "PrimitiveNode" {
      if FirstWidget(n).Some? {
        prims' := prims[n.id := FirstWidget(n).value];
      }
    } else if n.body.ty == "SetNode" {
      if FirstWidget(n).Some? {
        var src := FirstFedScan(n.inputs);
        if src.Some? {
          sets' := sets[FirstWidget(n).value := src.value];
        }
      }
    } else if n.body.ty == "GetNode" {
      if FirstWidget(n).Some? {
        vars' := vars[n.id := FirstWidget(n).value];
      }
    } else if n.body.ty == "Reroute" {
      if |n.inputs| > 0 && n.inputs[0].src.Some? {
        reroutes' := reroutes[n.id := n.inputs[0].src.value];
      }
    }
  }

  /** The first pass over the nodes. */
  method Classify(reg: Registry, nodes: seq<FlatNode>) returns (e: Env, prims: map<Id, Value>, excluded: set<Id>)
    ensures e == EnvOf(nodes) && prims == PrimsOf(nodes) && excluded == ExcludedOf(reg, nodes)
  {
    var vars, sets, reroutes, bypassed := map[], map[], map[], {};
    prims, excluded := map[], {};
    for i := 0 to |nodes|
      invariant vars == VarsOf(nodes[..i]) && sets == SetsOf(nodes[..i]) && reroutes == ReroutesOf(nodes[..i])
      invariant prims == PrimsOf(nodes[..i])
      invariant bypassed == BypassedOf(nodes[..i]) && excluded == ExcludedOf(reg, nodes[..i])
    {
      hide IsExcluded, NoteVar, NoteSet, NoteReroute, NotePrim, BypassedOf, ExcludedOf;
      var n := nodes[i];
      assert nodes[..i + 1][..i] == nodes[..i];
      AddToSets(reg, nodes, i);
      if n.body.mode == BYPASSED {
        bypassed := bypassed + {n.id};
      }
      vars, sets, reroutes, prims := ClassifyNode(n, vars, sets, reroutes, prims);
      var out := Excluded(reg, n);
      if out {
        excluded := excluded + {n.id};
      }
    }
    assert nodes[..|nodes|] == nodes;
    e := Env(vars, sets, reroutes, bypassed, nodes);
  }

  lemma AddToSets(reg: Registry, nodes: seq<FlatNode>, i: nat)
    requires i < |nodes|
    ensures BypassedOf(nodes[..i + 1]) == BypassedOf(nodes[..i]) + if nodes[i].body.mode == BYPASSED then {nodes[i].id} else {}
    ensures ExcludedOf(reg, nodes[..i + 1]) == ExcludedOf(reg, nodes[..i]) + if IsExcluded(reg, nodes[i]) then {nodes[i].id} else {}
  {
  }

  // ---------------------------------------------------------------- one input

  datatype Source = Skipped | Carried(v: Value) | Wired(pin: Pin)

  /** What a traced source gives an input. */
  function Settle(e: Env, prims: map<Id, Value>, excluded: set<Id>, p: Pin): Source {
    if p.0 in prims then Carried(prims[p.0])
    else if p.0 in excluded || p.0 in e.bypassed then Skipped
    else Wired(p)
  }

  function SourceOf(e: Env, prims: map<Id, Value>, excluded: set<Id>, i: FlatInput): Source {
    if i.src.None? || Trace(e, i.src.value).None? then Skipped
    else Settle(e, prims, excluded, Trace(e, i.src.value).value)
  }

  /** What the start of a whole route gives an input: nothing where the traces are stuck, else what the node gives where they stop. */
  ghost function RouteSource(e: Env, prims: map<Id, Value>, excluded: set<Id>, route: seq<Pin>): Source
    requires WholeRoute(e, route)
  {
    var ks := Word(e, route, 0);
    TraceExactly(e, route);
    if Blocked(ks, route[|route| - 1].0 in e.bypassed) then Skipped
    else Settle(e, prims, excluded, route[|route| - 1 - |Left(ks)|])
  }

  lemma RouteGives(e: Env, prims: map<Id, Value>, excluded: set<Id>, i: FlatInput, route: seq<Pin>)
    requires WholeRoute(e, route) && i.src == Some(route[0])
    ensures SourceOf(e, prims, excluded, i) == RouteSource(e, prims, excluded, route)
  {
    hide Trace, Word, Blocked, Left, Settle, Kinds;
    TraceExactly(e, route);
  }

  /** A live end is wired exactly when the route fits the order of the traces. */
  lemma LiveEnd(e: Env, prims: map<Id, Value>, excluded: set<Id>, route: seq<Pin>)
    requires WholeRoute(e, route)
    requires var end := route[|route| - 1].0; end !in e.bypassed && end !in excluded && end !in prims
    ensures RouteSource(e, prims, excluded, route) == Wired(route[|route| - 1]) <==> Fits(Word(e, route, 0))
  {
    hide Word, PastBypasses, Left, Trace, Kinds;
    TraceExactly(e, route);
    var at := |route| - 1 - |Left(Word(e, route, 0))|;
    assert at < |route| - 1 ==> route[at].0 != route[|route| - 1].0;
  }

  /** The traces come to the end of the route. */
  predicate Arrives(ks: seq<Stop>, deadEnd: bool) {
    !Blocked(ks, deadEnd) && Left(ks) == []
  }

  /** A primitive with a value is carried when the traces come to it. */
  lemma PrimitiveEnd(e: Env, prims: map<Id, Value>, excluded: set<Id>, route: seq<Pin>)
    requires WholeRoute(e, route) && route[|route| - 1].0 in prims
    requires Arrives(Word(e, route, 0), route[|route| - 1].0 in e.bypassed)
    ensures RouteSource(e, prims, excluded, route) == Carried(prims[route[|route| - 1].0])
  {
    hide Word, Blocked, Left, Kinds;
  }

  /** An excluded or bypassed end gives nothing when the traces come to it or are stuck. */
  lemma DeadEnd(e: Env, prims: map<Id, Value>, excluded: set<Id>, route: seq<Pin>)
    requires WholeRoute(e, route)
    requires var end := route[|route| - 1].0; end !in prims && (end in e.bypassed || end in excluded)
    requires var (ks, dead) := (Word(e, route, 0), route[|route| - 1].0 in e.bypassed); Arrives(ks, dead) || Blocked(ks, dead)
    ensures RouteSource(e, prims, excluded, route) == Skipped
  {
    hide Word, Blocked, Left, Kinds;
  }

  /** The primitive values and the links of a node's inputs. */
  function Collected(e: Env, prims: map<Id, Value>, excluded: set<Id>, inputs: seq<FlatInput>): (Dict, Dict) {
    if inputs == [] then ([], [])
    else
      var (ps, ls) := Collected(e, prims, excluded, inputs[..|inputs| - 1]);
      var i := inputs[|inputs| - 1];
      match SourceOf(e, prims, excluded, i)
      case Skipped => (ps, ls)
      case Carried(v) => (Put(ps, i.name, Lit(v)), ls)
      case Wired(pin) => (ps, Put(ls, i.name, Ref(pin.0, pin.1)))
  }

  /** The inputs of one entry. */
  function NodeInputs(reg: Registry, e: Env, prims: map<Id, Value>, excluded: set<Id>, n: FlatNode): Dict {
    var (ps, ls) := Collected(e, prims, excluded, n.inputs);
    var ws := WidgetInputs(reg, n.id, n.body, ls);
    var ds := Defaults(SpecsOf(reg, n.body.ty), ws, ps, ls);
    Normalised(reg.lower, SpecsOf(reg, n.body.ty), Composed(OrderedNames(reg, n.body), ws, ps, ds, ls))
  }

  // ---------------------------------------------------------------- the prompt

  datatype ApiNode = ApiNode(classType: string, inputs: Dict)

  type ApiPrompt = Inputs<Id, ApiNode>

  predicate IsRouting(ty: string) {
    ty == "Note" || ty == "PrimitiveNode" || ty == "GetNode" || ty == "SetNode" || ty == "Reroute"
  }

  predicate Emitted(excluded: set<Id>, n: FlatNode) {
    && n.body.ty != "" && n.body.mode != MUTED && n.body.mode != BYPASSED
    && !IsRouting(n.body.ty) && n.id !in excluded
  }

  function PromptUpTo(reg: Registry, e: Env, prims: map<Id, Value>, excluded: set<Id>, nodes: seq<FlatNode>): ApiPrompt {
    if nodes == [] then []
    else
      var (before, n) := (PromptUpTo(reg, e, prims, excluded, nodes[..|nodes| - 1]), nodes[|nodes| - 1]);
      if Emitted(excluded, n) then Put(before, n.id, ApiNode(n.body.ty, NodeInputs(reg, e, prims, excluded, n))) else before
  }

  function PromptOf(reg: Registry, nodes: seq<FlatNode>): ApiPrompt {
    PromptUpTo(reg, EnvOf(nodes), PrimsOf(nodes), ExcludedOf(reg, nodes), nodes)
  }

  // ---------------------------------------------------------------- what an input of an entry is

  /** No other input of the node is called like input j. */
  predicate OwnName(inputs: seq<FlatInput>, j: nat) {
    j < |inputs| && forall i :: 0 <= i < |inputs| && i != j ==> inputs[i].name != inputs[j].name
  }

  /** One of the inputs called k has a trace that settles on the node and slot v refers to. */
  predicate Feeds(e: Env, prims: map<Id, Value>, excluded: set<Id>, inputs: seq<FlatInput>, k: string, v: ApiValue) {
    v.Ref? && exists i :: i in inputs && i.name == k && SourceOf(e, prims, excluded, i) == Wired((v.id, v.slot))
  }

  lemma {:induction false} CollectedFrom(e: Env, prims: map<Id, Value>, excluded: set<Id>, inputs: seq<FlatInput>, k: string)
    ensures var (ps, ls) := Collected(e, prims, excluded, inputs);
            && (Get(ls, k).Some? ==> Feeds(e, prims, excluded, inputs, k, Get(ls, k).value))
            && (Get(ps, k).Some? ==> Get(ps, k).value.Lit?)
  {
    if inputs != [] {
      hide Put, Get, SourceOf;
      var (front, last) := (inputs[..|inputs| - 1], inputs[|inputs| - 1]);
      CollectedFrom(e, prims, excluded, front, k);
      var (ps, ls) := Collected(e, prims, excluded, front);
      match SourceOf(e, prims, excluded, last)
      case Skipped =>
      case Carried(v) => GetPut(ps, last.name, Lit(v), k);
      case Wired(pin) => GetPut(ls, last.name, Ref(pin.0, pin.1), k);
      assert forall i :: i in front ==> i in inputs;
      assert last in inputs;
    } else {
      assert Collected(e, prims, excluded, inputs) == ([], []);
    }
  }

  lemma {:induction false} CollectedAt(e: Env, prims: map<Id, Value>, excluded: set<Id>, inputs: seq<FlatInput>, j: nat)
    requires OwnName(inputs, j)
    ensures var (ps, ls) := Collected(e, prims, excluded, inputs);
            match SourceOf(e, prims, excluded, inputs[j])
            case Skipped => Get(ps, inputs[j].name).None? && Get(ls, inputs[j].name).None?
            case Carried(v) => Get(ps, inputs[j].name) == Some(Lit(v)) && Get(ls, inputs[j].name).None?
            case Wired(pin) => Get(ps, inputs[j].name).None? && Get(ls, inputs[j].name) == Some(Ref(pin.0, pin.1))
  {
    hide Put, Get, SourceOf;
    var (front, last) := (inputs[..|inputs| - 1], inputs[|inputs| - 1]);
    var (ps, ls) := Collected(e, prims, excluded, front);
    if j < |front| {
      CollectedAt(e, prims, excluded, front, j);
    } else {
      CollectedOther(e, prims, excluded, front, last.name);
    }
    match SourceOf(e, prims, excluded, last)
    case Skipped =>
    case Carried(v) => GetPut(ps, last.name, Lit(v), inputs[j].name);
    case Wired(pin) => GetPut(ls, last.name, Ref(pin.0, pin.1), inputs[j].name);
  }

  lemma {:induction false} CollectedOther(e: Env, prims: map<Id, Value>, excluded: set<Id>, inputs: seq<FlatInput>, k: string)
    requires forall i :: 0 <= i < |inputs| ==> inputs[i].name != k
    ensures var (ps, ls) := Collected(e, prims, excluded, inputs); Get(ps, k).None? && Get(ls, k).None?
  {
    if inputs != [] {
      hide Put, Get, SourceOf;
      var (front, last) := (inputs[..|inputs| - 1], inputs[|inputs| - 1]);
      var (ps, ls) := Collected(e, prims, excluded, front);
      CollectedOther(e, prims, excluded, front, k);
      match SourceOf(e, prims, excluded, last)
      case Skipped =>
      case Carried(v) => GetPut(ps, last.name, Lit(v), k);
      case Wired(pin) => GetPut(ls, last.name, Ref(pin.0, pin.1), k);
    } else {
      assert Collected(e, prims, excluded, inputs) == ([], []);
    }
  }

  /** The value of one name in an entry. */
  lemma EntryValue(reg: Registry, e: Env, prims: map<Id, Value>, excluded: set<Id>, n: FlatNode, k: string)
    ensures var (ps, ls) := Collected(e, prims, excluded, n.inputs);
            var ws := WidgetInputs(reg, n.id, n.body, ls);
            var specs := SpecsOf(reg, n.body.ty);
            var chosen := Chosen(ws, ps, Defaults(specs, ws, ps, ls), ls, k);
            Get(NodeInputs(reg, e, prims, excluded, n), k) ==
              if chosen.Some? then Some(RespellAll(reg.lower, specs, k, chosen.value)) else None
  {
    hide Collected, WidgetInputs, Defaults, SpecsOf, Composed, Get, Chosen, Normalised, RespellAll, OrderedNames;
    var (ps, ls) := Collected(e, prims, excluded, n.inputs);
    var ws := WidgetInputs(reg, n.id, n.body, ls);
    var specs := SpecsOf(reg, n.body.ty);
    var ds := Defaults(specs, ws, ps, ls);
    var all := Composed(OrderedNames(reg, n.body), ws, ps, ds, ls);
    ComposedGet(OrderedNames(reg, n.body), ws, ps, ds, ls, k);
    NormalisedAt(reg.lower, specs, all, k);
    HasIs(all, k);
  }

  /** A reference in an entry is the settled trace of one of the node's inputs of that name. */
  lemma RefMeans(reg: Registry, e: Env, prims: map<Id, Value>, excluded: set<Id>, n: FlatNode, k: string)
    ensures var v := Get(NodeInputs(reg, e, prims, excluded, n), k);
            v.Some? && v.value.Ref? ==> Feeds(e, prims, excluded, n.inputs, k, v.value)
  {
    hide Collected, WidgetInputs, Defaults, SpecsOf, NodeInputs, Get, RespellAll, SourceOf;
    var (ps, ls) := Collected(e, prims, excluded, n.inputs);
    var ws := WidgetInputs(reg, n.id, n.body, ls);
    var specs := SpecsOf(reg, n.body.ty);
    EntryValue(reg, e, prims, excluded, n, k);
    WidgetsUnlinked(reg, n.id, n.body, ls, k);
    DefaultsFillGaps(specs, ws, ps, ls, k);
    CollectedFrom(e, prims, excluded, n.inputs, k);
    var chosen := Chosen(ws, ps, Defaults(specs, ws, ps, ls), ls, k);
    if chosen.Some? {
      OnlyTextChanges(reg.lower, specs, k, chosen.value);
    }
  }

  /** And every input whose trace settles on a node gets that reference, whatever else has its name. */
  lemma WiredIsRef(reg: Registry, e: Env, prims: map<Id, Value>, excluded: set<Id>, n: FlatNode, j: nat)
    requires OwnName(n.inputs, j) && SourceOf(e, prims, excluded, n.inputs[j]).Wired?
    ensures var pin := SourceOf(e, prims, excluded, n.inputs[j]).pin;
            Get(NodeInputs(reg, e, prims, excluded, n), n.inputs[j].name) == Some(Ref(pin.0, pin.1))
  {
    hide Collected, WidgetInputs, Defaults, SpecsOf, NodeInputs, Get, RespellAll, SourceOf;
    var k := n.inputs[j].name;
    var (ps, ls) := Collected(e, prims, excluded, n.inputs);
    var ws := WidgetInputs(reg, n.id, n.body, ls);
    var specs := SpecsOf(reg, n.body.ty);
    EntryValue(reg, e, prims, excluded, n, k);
    WidgetsUnlinked(reg, n.id, n.body, ls, k);
    DefaultsFillGaps(specs, ws, ps, ls, k);
    CollectedAt(e, prims, excluded, n.inputs, j);
    OnlyTextChanges(reg.lower, specs, k, Get(ls, k).value);
  }

  /** The node of the last input called k whose trace settles on one. */
  function LastWired(e: Env, prims: map<Id, Value>, excluded: set<Id>, inputs: seq<FlatInput>, k: string): Option<Pin> {
    if inputs == [] then None
    else
      var last := inputs[|inputs| - 1];
      if last.name == k && SourceOf(e, prims, excluded, last).Wired? then Some(SourceOf(e, prims, excluded, last).pin)
      else LastWired(e, prims, excluded, inputs[..|inputs| - 1], k)
  }

  /** Some input called k is fed by a primitive with a value. */
  predicate Carries(e: Env, prims: map<Id, Value>, excluded: set<Id>, inputs: seq<FlatInput>, k: string) {
    exists i :: 0 <= i < |inputs| && inputs[i].name == k && SourceOf(e, prims, excluded, inputs[i]).Carried?
  }

  lemma {:induction false} CollectedExactly(e: Env, prims: map<Id, Value>, excluded: set<Id>, inputs: seq<FlatInput>, k: string)
    ensures var (ps, ls) := Collected(e, prims, excluded, inputs);
            && (Get(ps, k).Some? <==> Carries(e, prims, excluded, inputs, k))
            && Get(ls, k) == match LastWired(e, prims, excluded, inputs, k)
                             case None => None
                             case Some(pin) => Some(Ref(pin.0, pin.1))
  {
    if inputs != [] {
      hide Put, Get, SourceOf;
      var (front, last) := (inputs[..|inputs| - 1], inputs[|inputs| - 1]);
      CollectedExactly(e, prims, excluded, front, k);
      CarriesSnoc(e, prims, excluded, inputs, k);
      var (ps, ls) := Collected(e, prims, excluded, front);
      hide Carries;
      match SourceOf(e, prims, excluded, last)
      case Skipped =>
      case Carried(v) => GetPut(ps, last.name, Lit(v), k);
      case Wired(pin) => GetPut(ls, last.name, Ref(pin.0, pin.1), k);
    } else {
      assert Collected(e, prims, excluded, inputs) == ([], []);
    }
  }

  /** The last input called k that settles on a node settles there. */
  predicate LinkedTo(e: Env, prims: map<Id, Value>, excluded: set<Id>, inputs: seq<FlatInput>, k: string, pin: Pin) {
    exists i :: 0 <= i < |inputs| && inputs[i].name == k && SourceOf(e, prims, excluded, inputs[i]) == Wired(pin)
      && forall j :: i < j < |inputs| && inputs[j].name == k ==> !SourceOf(e, prims, excluded, inputs[j]).Wired?
  }

  /** The last input called k that carries a primitive's value carries this one. */
  predicate CarriesLast(e: Env, prims: map<Id, Value>, excluded: set<Id>, inputs: seq<FlatInput>, k: string, v: Value) {
    exists i :: 0 <= i < |inputs| && inputs[i].name == k && SourceOf(e, prims, excluded, inputs[i]) == Carried(v)
      && forall j :: i < j < |inputs| && inputs[j].name == k ==> !SourceOf(e, prims, excluded, inputs[j]).Carried?
  }

  lemma LinkedToSnoc(e: Env, prims: map<Id, Value>, excluded: set<Id>, front: seq<FlatInput>, last: FlatInput, k: string, pin: Pin)
    ensures LinkedTo(e, prims, excluded, front + [last], k, pin) <==>
            if last.name == k && SourceOf(e, prims, excluded, last).Wired? then SourceOf(e, prims, excluded, last) == Wired(pin)
            else LinkedTo(e, prims, excluded, front, k, pin)
  {
    hide SourceOf;
    var inputs := front + [last];
    assert inputs[|front|] == last && forall i :: 0 <= i < |front| ==> inputs[i] == front[i];
  }

  lemma CarriesLastSnoc(e: Env, prims: map<Id, Value>, excluded: set<Id>, front: seq<FlatInput>, last: FlatInput, k: string, v: Value)
    ensures CarriesLast(e, prims, excluded, front + [last], k, v) <==>
            if last.name == k && SourceOf(e, prims, excluded, last).Carried? then SourceOf(e, prims, excluded, last) == Carried(v)
            else CarriesLast(e, prims, excluded, front, k, v)
  {
    hide SourceOf;
    var inputs := front + [last];
    assert inputs[|front|] == last && forall i :: 0 <= i < |front| ==> inputs[i] == front[i];
  }

  /** By position: a name's link is that of its last input that settles on a node, its carried value that of its last input that carries one. */
  lemma {:induction false} CollectedByPosition(e: Env, prims: map<Id, Value>, excluded: set<Id>, inputs: seq<FlatInput>, k: string, pin: Pin, v: Value)
    ensures var (ps, ls) := Collected(e, prims, excluded, inputs);
            && (Get(ls, k) == Some(Ref(pin.0, pin.1)) <==> LinkedTo(e, prims, excluded, inputs, k, pin))
            && (Get(ps, k) == Some(Lit(v)) <==> CarriesLast(e, prims, excluded, inputs, k, v))
  {
    hide Put, Get, SourceOf;
    if inputs == [] {
      assert Collected(e, prims, excluded, inputs) == ([], []);
      EmptyHas<string, ApiValue>([], k);
    } else {
      hide LinkedTo, CarriesLast;
      var (front, last) := (inputs[..|inputs| - 1], inputs[|inputs| - 1]);
      assert inputs == front + [last];
      CollectedByPosition(e, prims, excluded, front, k, pin, v);
      LinkedToSnoc(e, prims, excluded, front, last, k, pin);
      CarriesLastSnoc(e, prims, excluded, front, last, k, v);
      var (ps, ls) := Collected(e, prims, excluded, front);
      match SourceOf(e, prims, excluded, last)
      case Skipped =>
      case Carried(u) => GetPut(ps, last.name, Lit(u), k);
      case Wired(q) => GetPut(ls, last.name, Ref(q.0, q.1), k);
    }
  }

  lemma CarriesSnoc(e: Env, prims: map<Id, Value>, excluded: set<Id>, inputs: seq<FlatInput>, k: string)
    requires inputs != []
    ensures var (front, last) := (inputs[..|inputs| - 1], inputs[|inputs| - 1]);
            Carries(e, prims, excluded, inputs, k)
            <==> Carries(e, prims, excluded, front, k) || (last.name == k && SourceOf(e, prims, excluded, last).Carried?)
  {
    hide SourceOf;
    var front := inputs[..|inputs| - 1];
    assert forall i :: 0 <= i < |front| ==> inputs[i] == front[i];
  }

  /**
   Together: a name is a reference exactly when no input of that name carries a primitive's value, and
   to the node on which the last input of that name settles.
   */
  lemma RefIffWired(reg: Registry, e: Env, prims: map<Id, Value>, excluded: set<Id>, n: FlatNode, k: string, pin: Pin)
    ensures Get(NodeInputs(reg, e, prims, excluded, n), k) == Some(Ref(pin.0, pin.1))
            <==> !Carries(e, prims, excluded, n.inputs, k) && LastWired(e, prims, excluded, n.inputs, k) == Some(pin)
  {
    hide Collected, WidgetInputs, Defaults, SpecsOf, NodeInputs, Get, RespellAll, SourceOf, Carries, LastWired;
    var (ps, ls) := Collected(e, prims, excluded, n.inputs);
    var ws := WidgetInputs(reg, n.id, n.body, ls);
    var specs := SpecsOf(reg, n.body.ty);
    EntryValue(reg, e, prims, excluded, n, k);
    WidgetsUnlinked(reg, n.id, n.body, ls, k);
    DefaultsFillGaps(specs, ws, ps, ls, k);
    CollectedFrom(e, prims, excluded, n.inputs, k);
    CollectedExactly(e, prims, excluded, n.inputs, k);
    var chosen := Chosen(ws, ps, Defaults(specs, ws, ps, ls), ls, k);
    if chosen.Some? {
      OnlyTextChanges(reg.lower, specs, k, chosen.value);
    }
  }

  /** For an input whose name is its own: a reference exactly when its trace settles on a node, and to that node. */
  lemma RefIffSettled(reg: Registry, e: Env, prims: map<Id, Value>, excluded: set<Id>, n: FlatNode, j: nat, pin: Pin)
    requires OwnName(n.inputs, j)
    ensures Get(NodeInputs(reg, e, prims, excluded, n), n.inputs[j].name) == Some(Ref(pin.0, pin.1))
            <==> SourceOf(e, prims, excluded, n.inputs[j]) == Wired(pin)
  {
    hide NodeInputs, Get, SourceOf;
    RefMeans(reg, e, prims, excluded, n, n.inputs[j].name);
    if SourceOf(e, prims, excluded, n.inputs[j]).Wired? {
      WiredIsRef(reg, e, prims, excluded, n, j);
    }
  }

  /** An input fed by a primitive has the primitive's value, unless a widget gives the name a value; either is brought to the declared spelling. */
  lemma CarriedIsValue(reg: Registry, e: Env, prims: map<Id, Value>, excluded: set<Id>, n: FlatNode, j: nat)
    requires OwnName(n.inputs, j) && SourceOf(e, prims, excluded, n.inputs[j]).Carried?
    ensures var k := n.inputs[j].name;
            var ws := WidgetInputs(reg, n.id, n.body, Collected(e, prims, excluded, n.inputs).1);
            var v := if Has(ws, k) then Get(ws, k).value else Lit(SourceOf(e, prims, excluded, n.inputs[j]).v);
            Get(NodeInputs(reg, e, prims, excluded, n), k) == Some(RespellAll(reg.lower, SpecsOf(reg, n.body.ty), k, v))
  {
    hide Collected, WidgetInputs, Defaults, SpecsOf, NodeInputs, Get, RespellAll, SourceOf;
    EntryValue(reg, e, prims, excluded, n, n.inputs[j].name);
    CollectedAt(e, prims, excluded, n.inputs, j);
  }

  /** The order of an entry: declared names with a value come before declared names that are references. */
  lemma EntryOrder(reg: Registry, e: Env, prims: map<Id, Value>, excluded: set<Id>, n: FlatNode, a: string, b: string)
    requires a in OrderedNames(reg, n.body) && b in OrderedNames(reg, n.body)
    requires var entry := NodeInputs(reg, e, prims, excluded, n);
             Get(entry, a).Some? && Get(entry, a).value.Lit? && Get(entry, b).Some? && Get(entry, b).value.Ref?
    ensures var ks := Keys(NodeInputs(reg, e, prims, excluded, n));
            exists i, j :: 0 <= i < j < |ks| && ks[i] == a && ks[j] == b
  {
    hide Collected, WidgetInputs, Defaults, SpecsOf, Get, RespellAll, SourceOf, Keys, Composed, Normalised, OrderedNames, KeyOrder, Feeds;
    var (ps, ls) := Collected(e, prims, excluded, n.inputs);
    var ws := WidgetInputs(reg, n.id, n.body, ls);
    var specs := SpecsOf(reg, n.body.ty);
    var ds := Defaults(specs, ws, ps, ls);
    var names := OrderedNames(reg, n.body);
    EntryKind(reg, e, prims, excluded, n, a);
    EntryKind(reg, e, prims, excluded, n, b);
    var all := Composed(names, ws, ps, ds, ls);
    ComposedIsAssembled(names, ws, ps, ds, ls);
    ValuesBeforeLinks(names, ws, ps, ds, ls, all, a, b);
    NormalisedAt(reg.lower, specs, all, a);
  }

  /** A value in an entry comes from widget, primitive or default, a reference from a link alone. */
  lemma EntryKind(reg: Registry, e: Env, prims: map<Id, Value>, excluded: set<Id>, n: FlatNode, k: string)
    ensures var (ps, ls) := Collected(e, prims, excluded, n.inputs);
            var ws := WidgetInputs(reg, n.id, n.body, ls);
            var ds := Defaults(SpecsOf(reg, n.body.ty), ws, ps, ls);
            var v := Get(NodeInputs(reg, e, prims, excluded, n), k);
            && (v.Some? && v.value.Lit? ==> Has(ws, k) || Has(ps, k) || Has(ds, k))
            && (v.Some? && v.value.Ref? ==> Has(ls, k) && !Has(ws, k) && !Has(ps, k) && !Has(ds, k))
  {
    hide Collected, WidgetInputs, Defaults, SpecsOf, NodeInputs, Get, RespellAll, SourceOf;
    var (ps, ls) := Collected(e, prims, excluded, n.inputs);
    var ws := WidgetInputs(reg, n.id, n.body, ls);
    var specs := SpecsOf(reg, n.body.ty);
    EntryValue(reg, e, prims, excluded, n, k);
    WidgetsUnlinked(reg, n.id, n.body, ls, k);
    DefaultsFillGaps(specs, ws, ps, ls, k);
    CollectedFrom(e, prims, excluded, n.inputs, k);
    var chosen := Chosen(ws, ps, Defaults(specs, ws, ps, ls), ls, k);
    if chosen.Some? {
      OnlyTextChanges(reg.lower, specs, k, chosen.value);
    }
  }

  // ---------------------------------------------------------------- the whole prompt

  predicate DistinctIds(nodes: seq<FlatNode>) {
    forall a, b :: 0 <= a < b < |nodes| ==> nodes[a].id != nodes[b].id
  }

  lemma {:induction false} EntriesOf(reg: Registry, e: Env, prims: map<Id, Value>, excluded: set<Id>, nodes: seq<FlatNode>, x: Id)
    requires DistinctIds(nodes)
    ensures var r := Get(PromptUpTo(reg, e, prims, excluded, nodes), x);
            match FindFlat(nodes, x)
            case None => r == None
            case Some(n) => r == if Emitted(excluded, n) then Some(ApiNode(n.body.ty, NodeInputs(reg, e, prims, excluded, n))) else None
  {
    hide Put, Get, NodeInputs;
    if nodes == [] {
      EmptyHas(PromptUpTo(reg, e, prims, excluded, nodes), x);
    } else {
      var (front, last) := (nodes[..|nodes| - 1], nodes[|nodes| - 1]);
      assert nodes == front + [last];
      EntriesOf(reg, e, prims, excluded, front, x);
      FindFlatLast(nodes, x);
      if Emitted(excluded, last) {
        GetPut(PromptUpTo(reg, e, prims, excluded, front), last.id, ApiNode(last.body.ty, NodeInputs(reg, e, prims, excluded, last)), x);
      }
    }
  }

  lemma EmptyHas<K, V>(m: Inputs<K, V>, k: K)
    requires m == []
    ensures Get(m, k) == None
  {
  }

  lemma {:induction false} FindFlatLast(nodes: seq<FlatNode>, x: Id)
    requires nodes != []
    ensures var (front, last) := (nodes[..|nodes| - 1], nodes[|nodes| - 1]);
            FindFlat(nodes, x) == if FindFlat(front, x).Some? then FindFlat(front, x)
                                  else if last.id == x then Some(last) else None
  {
    if |nodes| > 1 {
      FindFlatLast(nodes[1..], x);
      assert nodes[1..][..|nodes| - 2] == nodes[..|nodes| - 1][1..];
    }
  }

  lemma FindFlatUnique(nodes: seq<FlatNode>, n: FlatNode)
    requires DistinctIds(nodes) && n in nodes
    ensures FindFlat(nodes, n.id) == Some(n)
  {
  }

  /**
   The prompt is closed: whatever a reference names is not bypassed, not excluded and no primitive
   with a value, and it has an entry exactly when it is a typed, unmuted node that executes.
   */
  lemma PromptClosed(reg: Registry, nodes: seq<FlatNode>, x: Id, k: string)
    requires DistinctIds(nodes)
    ensures var prompt := PromptOf(reg, nodes);
            Has(prompt, x) && Has(Get(prompt, x).value.inputs, k) && Get(Get(prompt, x).value.inputs, k).value.Ref? ==>
              var s := Get(Get(prompt, x).value.inputs, k).value.id;
              && s !in BypassedOf(nodes) && s !in ExcludedOf(reg, nodes) && s !in PrimsOf(nodes)
              && (Has(prompt, s) <==>
                  exists n :: n in nodes && n.id == s && n.body.ty != "" && n.body.mode != MUTED && !IsRouting(n.body.ty))
  {
    hide NodeInputs, Get, PrimsOf, ExcludedOf, VarsOf, SetsOf, ReroutesOf, Trace, IsRouting, PromptUpTo;
    var (e, prims, excluded) := (EnvOf(nodes), PrimsOf(nodes), ExcludedOf(reg, nodes));
    EntriesOf(reg, e, prims, excluded, nodes, x);
    if FindFlat(nodes, x).Some? && Emitted(excluded, FindFlat(nodes, x).value) {
      var n := FindFlat(nodes, x).value;
      RefMeans(reg, e, prims, excluded, n, k);
      var v := Get(NodeInputs(reg, e, prims, excluded, n), k);
      if v.Some? && v.value.Ref? {
        EntriesOf(reg, e, prims, excluded, nodes, v.value.id);
        forall m | m in nodes && m.id == v.value.id ensures FindFlat(nodes, v.value.id) == Some(m) {
          FindFlatUnique(nodes, m);
        }
      }
    }
  }
}
