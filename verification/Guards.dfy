/**
 Why the depth guards of the resolvers can never fire, whatever the definitions look like: ten rounds
 record tables only under ids of at most ten parts, as long as no node's own id has a colon in it.
 Neither well-formedness nor nesting without cycles is needed.
 */
module Guards {
  import opened Wrappers
  import opened NodeIds
  import opened NestedGraph
  import opened Boundaries
  import opened Wiring
  import opened Frontier

  predicate PlainNames(nodes: seq<Node>) {
    forall n :: n in nodes ==> Plain(n.id)
  }

  predicate AllPlainNames(w: Workflow) {
    PlainNames(w.top.nodes) && forall t :: t in w.defs ==> PlainNames(w.defs[t].nodes)
  }

  /** How deep a node of level p is. */
  function LevelDepth(p: Id): nat {
    if p == "" then 0 else Depth(p) + 1
  }

  predicate ShallowIds(xs: seq<Placed>, k: nat) {
    forall x :: x in xs ==> x.id != "" && Depth(x.id) <= k
  }

  lemma {:induction false} UnfoldShallow(w: Workflow, p: Id, nodes: seq<Node>, k: nat)
    requires AllPlainNames(w) && PlainNames(nodes)
    ensures ShallowIds(Unfold(w, p, nodes, k), LevelDepth(p) + k)
    decreases k, |nodes|, 0
  {
    if nodes != [] {
      hide Depth, LastColon, Plain;
      var x := Placed(Qualify(p, nodes[0].id), nodes[0]);
      SplitQualify(p, nodes[0].id);
      UnfoldNodeShallow(w, x, LevelDepth(p), k);
      UnfoldShallow(w, p, nodes[1..], k);
    }
  }

  lemma {:induction false} UnfoldNodeShallow(w: Workflow, x: Placed, depth: nat, k: nat)
    requires AllPlainNames(w) && x.id != "" && Depth(x.id) <= depth
    ensures ShallowIds(UnfoldNode(w, x, k), depth + k)
    decreases k, 0, 1
  {
    hide Depth, Plain;
    if k > 0 && IsSubgraph(w, x.node) {
      UnfoldShallow(w, x.id, w.defs[x.node.body.ty].nodes, k - 1);
    }
  }

  /** After k rounds every id has at most k colons. */
  lemma AfterShallow(w: Workflow, k: nat)
    requires AllPlainNames(w)
    ensures ShallowIds(After(w, k), k)
  {
    UnfoldShallow(w, "", w.top.nodes, k);
  }

  /** s is the id of a node that one of the rounds expands. */
  ghost predicate Expanded(w: Workflow, s: Id) {
    exists k: nat, x :: k < MAX_ROUNDS && x in After(w, k) && IsSubgraph(w, x.node) && x.id == s
  }

  /** Tables are recorded for expanded nodes only. */
  ghost predicate RecordedOnly(w: Workflow, t: Tables) {
    (forall s :: s in t.outs ==> Expanded(w, s)) && forall s :: s in t.ins ==> Expanded(w, s)
  }

  /**
   The resolvers over whatever the rounds record, for every workflow without colons in its own ids,
   circular or otherwise ill-formed: the guards never fire.
   */
  lemma ExpansionNeverGuarded(w: Workflow, t: Tables, s: Id, slot: nat)
    requires AllPlainNames(w) && RecordedOnly(w, t)
    ensures KeysShallow(t)
    ensures ResolveOutput(t, s, slot, 0) == OutputOf(t, s, slot)
    ensures ResolveInputAll(t, s, slot, 0) == InputsOf(t, s, slot)
  {
    hide Depth, Unfold;
    forall p | Expanded(w, p) ensures Depth(p) < MAX_ROUNDS && p != "" {
      var k: nat, x :| k < MAX_ROUNDS && x in After(w, k) && IsSubgraph(w, x.node) && x.id == p;
      AfterShallow(w, k);
    }
    GuardsNeverFire(t, s, slot);
  }

  /** The tables of the conversion are recorded for expanded nodes only. */
  lemma TablesRecordedOnly(w: Workflow, t: Tables)
    requires WellFormed(w) && TablesFor(w, t)
    ensures RecordedOnly(w, t)
  {
    hide Depth, NodeAt, Unfold, OutMapOf, InMapOf, SlotMapOf, WellFormed;
    forall p | p in t.outs ensures Expanded(w, p) {
      assert TableOf(w, t, p);
      AfterComplete(w, Depth(p), p);
      assert Placed(p, NodeAt(w, p).value) in After(w, Depth(p));
    }
  }
}
