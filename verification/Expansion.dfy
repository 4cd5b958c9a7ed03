/**
 Expanding one subgraph node: fresh link ids, boundary tables, copied input dictionaries, renamed
 nodes and links.
 */
module Expansion {
  import opened Wrappers
  import opened NodeIds
  import opened NestedGraph
  import opened OrderedMap
  import opened Boundaries
  import opened LiveWorkflow

  method MaxLinkId(links: seq<Link>) returns (m: int)
    ensures m >= 0 && forall l :: l in links ==> l.id <= m
    ensures m == 0 || exists l :: l in links && l.id == m
  {
    m := 0;
    for i := 0 to |links|
      invariant m >= 0 && forall l :: l in links[..i] ==> l.id <= m
      invariant m == 0 || exists l :: l in links && l.id == m
    {
      assert links[..i + 1] == links[..i] + [links[i]];
      if links[i].id > m {
        m := links[i].id;
      }
    }
    assert links[..|links|] == links;
  }

  /** Fresh ids above base, one for every inner link in order. */
  method BuildRemap(links: seq<Link>, base: int) returns (remap: map<int, int>)
    ensures forall l :: l in links ==> l.id in remap
    ensures forall x :: x in remap ==> base < remap[x] <= base + |links|
    ensures DistinctLinks(links) ==> forall k :: 0 <= k < |links| ==> links[k].id in remap && remap[links[k].id] == base + 1 + k
  {
    remap := map[];
    var next := base + 1;
    for i := 0 to |links|
      invariant next == base + 1 + i
      invariant forall k :: 0 <= k < i ==> links[k].id in remap
      invariant forall x :: x in remap ==> base < remap[x] < next
      invariant DistinctLinks(links) ==> forall k :: 0 <= k < i ==> remap[links[k].id] == base + 1 + k
    {
      remap := remap[links[i].id := next];
      next := next + 1;
    }
  }

  lemma ByIdStep(links: seq<Link>, i: nat)
    requires i < |links|
    ensures ById(links[..i + 1]) == ById(links[..i])[links[i].id := links[i]]
  {
    assert links[..i + 1][..i] == links[..i];
  }

  method IndexLinks(links: seq<Link>) returns (m: map<int, Link>)
    ensures m == ById(links)
  {
    m := map[];
    for i := 0 to |links|
      invariant m == ById(links[..i])
    {
      ByIdStep(links, i);
      m := m[links[i].id := links[i]];
    }
    assert links[..|links|] == links;
  }

  method CollectTargets(byId: map<int, Link>, ids: seq<int>) returns (targets: seq<Pin>)
    ensures targets == Targets(byId, ids)
  {
    targets := [];
    for k := 0 to |ids|
      invariant targets == Targets(byId, ids[..k])
    {
      assert ids[..k + 1][..k] == ids[..k];
      if ids[k] in byId {
        targets := targets + [(byId[ids[k]].tgt, byId[ids[k]].tgtSlot)];
      }
    }
    assert ids[..|ids|] == ids;
  }

  method BuildInMap(g: Graph, byId: map<int, Link>) returns (m: map<nat, seq<Pin>>)
    requires byId == ById(g.links)
    ensures m == InMapOf(g)
  {
    m := map[];
    for idx := 0 to |g.inputs|
      invariant m == InMapUpTo(g, idx)
    {
      var targets := CollectTargets(byId, g.inputs[idx].linkIds);
      InMapStep(g, idx);
      hide InMapUpTo, Targets;
      if targets != [] {
        m := m[idx := targets];
      }
    }
  }

  method BuildOutMap(g: Graph, byId: map<int, Link>) returns (m: seq<(Pin, nat)>)
    requires byId == ById(g.links)
    ensures m == OutMapOf(g)
  {
    m := [];
    for idx := 0 to |g.outputs|
      invariant m == OutMapUpTo(g, idx)
    {
      var ids := g.outputs[idx].linkIds;
      for k := 0 to |ids|
        invariant m == PutPort(byId, ids[..k], idx, OutMapUpTo(g, idx))
      {
        assert ids[..k + 1][..k] == ids[..k];
        if ids[k] in byId {
          m := Put<Pin, nat>(m, (byId[ids[k]].src, byId[ids[k]].srcSlot), idx);
        }
      }
      assert ids[..|ids|] == ids;
    }
  }

  lemma PortNamesStep(ports: seq<Port>, i: nat)
    requires i < |ports|
    ensures PortNames(ports[..i + 1]) ==
            if ports[i].name == "" then PortNames(ports[..i]) else PortNames(ports[..i])[ports[i].name := i]
  {
    assert ports[..i + 1][..i] == ports[..i];
  }

  method IndexPortNames(ports: seq<Port>) returns (names: map<string, nat>)
    ensures names == PortNames(ports)
  {
    names := map[];
    for idx := 0 to |ports|
      invariant names == PortNames(ports[..idx])
    {
      PortNamesStep(ports, idx);
      if ports[idx].name != "" {
        names := names[ports[idx].name := idx];
      }
    }
    assert ports[..|ports|] == ports;
  }

  method BuildSlotMap(n: LiveNode, ghost node: Node, g: Graph) returns (m: map<nat, nat>)
    requires |n.inputs| == |node.inputs|
    requires forall k :: 0 <= k < |n.inputs| ==> n.inputs[k].name == node.inputs[k].name
    ensures m == SlotMapOf(node, g)
  {
    var names := IndexPortNames(g.inputs);
    m := map[];
    for k := 0 to |n.inputs|
      invariant m == SlotMapUpTo(node, g, k)
    {
      if n.inputs[k].name != "" && n.inputs[k].name in names {
        m := m[k := names[n.inputs[k].name]];
      }
    }
  }

  /** What expansion writes into the link field of an inner input. */
  function NewLink(link: Option<int>, byId: map<int, Link>, remap: map<int, int>): Option<int> {
    if link.Some? && link.value in byId then
      if byId[link.value].src == IN then None
      else if link.value in remap then Some(remap[link.value])
      else link
    else link
  }

  /** An input is copied exactly when its link is a link of its own definition. */
  predicate Copied(c: InputInfo, byId: map<int, Link>)
    reads c
  {
    c.link.Some? && c.link.value in byId
  }

  /** Expanded input d is what becomes of inner input c: a copy with its new link, or c itself. */
  ghost predicate InputMade(c: InputInfo, d: InputInfo, home: Pin, byId: map<int, Link>, remap: map<int, int>)
    reads c, d
  {
    && d.name == c.name && d.ty == c.ty && d.link == NewLink(c.link, byId, remap)
    && if Copied(c, byId) then d.home == home else d == c
  }

  method ExpandInputs(inputs: seq<InputInfo>, id: Id, byId: map<int, Link>, remap: map<int, int>) returns (out: seq<InputInfo>)
    ensures |out| == |inputs|
    ensures forall i :: 0 <= i < |out| ==> InputMade(inputs[i], out[i], (id, i), byId, remap)
    ensures forall i :: 0 <= i < |out| && Copied(inputs[i], byId) ==> fresh(out[i])
  {
    out := [];
    for i := 0 to |inputs|
      invariant |out| == i
      invariant forall k :: 0 <= k < i ==> InputMade(inputs[k], out[k], (id, k), byId, remap)
      invariant forall k :: 0 <= k < i && Copied(inputs[k], byId) ==> fresh(out[k])
    {
      var c := inputs[i];
      if c.link.Some? && c.link.value in byId {
        var d := new InputInfo.Copy(c.name, c.ty, NewLink(c.link, byId, remap), (id, i));
        out := out + [d];
      } else {
        out := out + [c];
      }
    }
  }

  method ExpandNodes(prefix: Id, nodes: seq<LiveNode>, byId: map<int, Link>, remap: map<int, int>) returns (out: seq<LiveNode>)
    ensures |out| == |nodes|
    ensures forall a :: 0 <= a < |out| ==>
              && out[a].id == prefix + ":" + nodes[a].id && out[a].body == nodes[a].body
              && |out[a].inputs| == |nodes[a].inputs|
    ensures forall a, i :: 0 <= a < |out| && 0 <= i < |out[a].inputs| ==>
              InputMade(nodes[a].inputs[i], out[a].inputs[i], (out[a].id, i), byId, remap)
    ensures forall a, i :: 0 <= a < |out| && 0 <= i < |out[a].inputs| && Copied(nodes[a].inputs[i], byId) ==>
              fresh(out[a].inputs[i])
  {
    out := [];
    for a := 0 to |nodes|
      invariant |out| == a
      invariant forall b :: 0 <= b < a ==>
              && out[b].id == prefix + ":" + nodes[b].id && out[b].body == nodes[b].body
              && |out[b].inputs| == |nodes[b].inputs|
      invariant forall b, i :: 0 <= b < a && 0 <= i < |out[b].inputs| ==>
              InputMade(nodes[b].inputs[i], out[b].inputs[i], (out[b].id, i), byId, remap)
      invariant forall b, i :: 0 <= b < a && 0 <= i < |out[b].inputs| && Copied(nodes[b].inputs[i], byId) ==>
              fresh(out[b].inputs[i])
    {
      var inputs := ExpandInputs(nodes[a].inputs, prefix + ":" + nodes[a].id, byId, remap);
      out := out + [LiveNode(prefix + ":" + nodes[a].id, nodes[a].body, inputs)];
    }
  }

  predicate Virtual(l: Link) {
    l.src == IN || l.src == OUT || l.tgt == IN || l.tgt == OUT
  }

  function Renamed(prefix: Id, l: Link, remap: map<int, int>): Link {
    Link(if l.id in remap then remap[l.id] else l.id, prefix + ":" + l.src, l.srcSlot, prefix + ":" + l.tgt, l.tgtSlot, l.ty)
  }

  method ExpandLinks(prefix: Id, links: seq<Link>, remap: map<int, int>, ghost base: int) returns (out: seq<Link>)
    requires forall k :: 0 <= k < |links| ==> links[k].id in remap && remap[links[k].id] == base + 1 + k
    ensures forall l :: l in links && !Virtual(l) ==> Renamed(prefix, l, remap) in out
    ensures forall c :: c in out ==> c.id > base && exists l :: l in links && !Virtual(l) && c == Renamed(prefix, l, remap)
    ensures DistinctLinks(out)
  {
    out := [];
    for i := 0 to |links|
      invariant forall l :: l in links[..i] && !Virtual(l) ==> Renamed(prefix, l, remap) in out
      invariant forall c :: c in out ==> base < c.id <= base + i
      invariant forall c :: c in out ==> exists l :: l in links && !Virtual(l) && c == Renamed(prefix, l, remap)
      invariant DistinctLinks(out)
    {
      assert links[..i + 1] == links[..i] + [links[i]];
      if !Virtual(links[i]) {
        out := out + [Renamed(prefix, links[i], remap)];
      }
    }
    assert links[..|links|] == links;
  }

  /**
   Everything one expansion produces.  The new links carry ids above every id in use, the inner
   inputs are rewired to them, and the tables are those of the definition.
   */
  method ExpandSubgraph(prefix: Id, d: LiveGraph, ghost g: Graph, links: seq<Link>)
    returns (nodes: seq<LiveNode>, newLinks: seq<Link>, inMap: map<nat, seq<Pin>>, outMap: seq<(Pin, nat)>,
             ghost remap: map<int, int>)
    requires SnapGraph(d) == g && UniqueLinks(g)
    ensures inMap == InMapOf(g) && outMap == OutMapOf(g)
    ensures forall l :: l in g.links ==> l.id in remap
    ensures forall l :: l in g.links && !Virtual(l) ==> Renamed(prefix, l, remap) in newLinks
    ensures forall c :: c in newLinks ==> exists l :: l in g.links && !Virtual(l) && c == Renamed(prefix, l, remap)
    ensures DistinctLinks(newLinks) && forall c, l :: c in newLinks && l in links ==> c.id != l.id
    ensures |nodes| == |d.nodes|
    ensures forall a :: 0 <= a < |nodes| ==>
              && nodes[a].id == prefix + ":" + d.nodes[a].id && nodes[a].body == d.nodes[a].body
              && |nodes[a].inputs| == |d.nodes[a].inputs|
    ensures forall a, i :: 0 <= a < |nodes| && 0 <= i < |nodes[a].inputs| ==>
              InputMade(d.nodes[a].inputs[i], nodes[a].inputs[i], (nodes[a].id, i), ById(g.links), remap)
    ensures forall a, i :: 0 <= a < |nodes| && 0 <= i < |nodes[a].inputs| && Copied(d.nodes[a].inputs[i], ById(g.links)) ==>
              fresh(nodes[a].inputs[i])
  {
    hide InMapUpTo, OutMapUpTo, Virtual, Copied, InputMade;
    var base := MaxLinkId(links);
    var remap' := BuildRemap(d.links, base);
    remap := remap';
    var byId := IndexLinks(d.links);
    var shape := Graph([], d.links, d.inputs, d.outputs);
    inMap := BuildInMap(shape, byId);
    outMap := BuildOutMap(shape, byId);
    OutMapShape(shape, g, |g.outputs|);
    InMapShape(shape, g, |g.inputs|);
    nodes := ExpandNodes(prefix, d.nodes, byId, remap');
    newLinks := ExpandLinks(prefix, d.links, remap', base);
  }

  /** The tables only depend on links and ports. */
  lemma {:induction false} OutMapShape(g: Graph, h: Graph, j: nat)
    requires g.links == h.links && g.inputs == h.inputs && g.outputs == h.outputs && j <= |g.outputs|
    ensures OutMapUpTo(g, j) == OutMapUpTo(h, j)
  {
    if j > 0 {
      OutMapShape(g, h, j - 1);
    }
  }

  lemma InMapShape(g: Graph, h: Graph, j: nat)
    requires g.links == h.links && g.inputs == h.inputs && j <= |g.inputs|
    ensures InMapUpTo(g, j) == InMapUpTo(h, j)
  {
  }

  lemma SlotMapShape(n: Node, g: Graph, h: Graph, k: nat)
    requires g.inputs == h.inputs && k <= |n.inputs|
    ensures SlotMapUpTo(n, g, k) == SlotMapUpTo(n, h, k)
  {
  }
}
