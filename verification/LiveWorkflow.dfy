/**
 The workflow as the converter holds it: input dictionaries are objects whose link field is written
 in place, and the workflow's link list is one object that expansion extends.  Definitions, their
 instances and the top level share input dictionaries wherever the converter does not copy them.
 */
module LiveWorkflow {
  import opened Wrappers
  import opened NodeIds
  import opened NestedGraph
  import opened Boundaries

  /** One entry of a node's inputs list. */
  class InputInfo {
    const name: string
    const ty: string
    /** For a copy made by expansion: the input of the expanded node it was made for. */
    ghost const home: Pin
    var link: Option<int>

    constructor Copy(name: string, ty: string, link: Option<int>, ghost home: Pin)
      ensures this.name == name && this.ty == ty && this.link == link && this.home == home
    {
      this.name := name;
      this.ty := ty;
      this.link := link;
      this.home := home;
    }
  }

  /** The workflow's links list. */
  class LinkList {
    var links: seq<Link>

    method Extend(more: seq<Link>)
      modifies this
      ensures links == old(links) + more
    {
      links := links + more;
    }
  }

  datatype LiveNode = LiveNode(id: Id, body: Body, inputs: seq<InputInfo>)

  datatype LiveGraph = LiveGraph(nodes: seq<LiveNode>, links: seq<Link>, inputs: seq<Port>, outputs: seq<Port>)

  datatype LiveFlow = LiveFlow(nodes: seq<LiveNode>, defs: map<string, LiveGraph>)

  // ---------------------------------------------------------------- what the objects say

  function CellsOf(nodes: seq<LiveNode>): set<InputInfo> {
    set n, c | n in nodes && c in n.inputs :: c
  }

  ghost function AllCells(f: LiveFlow): set<InputInfo> {
    CellsOf(f.nodes) + set t, c | t in f.defs && c in CellsOf(f.defs[t].nodes) :: c
  }

  ghost function SnapInputs(cells: seq<InputInfo>): (r: seq<Input>)
    reads cells
    ensures |r| == |cells|
    ensures forall i :: 0 <= i < |r| ==> r[i] == Input(cells[i].name, cells[i].ty, cells[i].link)
  {
    if cells == [] then []
    else [Input(cells[0].name, cells[0].ty, cells[0].link)] + SnapInputs(cells[1..])
  }

  ghost function SnapNodes(nodes: seq<LiveNode>): (r: seq<Node>)
    reads CellsOf(nodes)
    ensures |r| == |nodes|
    ensures forall a :: 0 <= a < |r| ==> r[a] == Node(nodes[a].id, nodes[a].body, SnapInputs(nodes[a].inputs))
  {
    if nodes == [] then []
    else
      assert nodes[0] in nodes;
      assert forall c :: c in nodes[0].inputs ==> c in CellsOf(nodes);
      assert CellsOf(nodes[1..]) <= CellsOf(nodes);
      [Node(nodes[0].id, nodes[0].body, SnapInputs(nodes[0].inputs))] + SnapNodes(nodes[1..])
  }

  ghost function SnapGraph(g: LiveGraph): Graph
    reads CellsOf(g.nodes)
  {
    Graph(SnapNodes(g.nodes), g.links, g.inputs, g.outputs)
  }

  /** The objects hold drawing w (its top-level links are in the links list, not here). */
  ghost predicate Holds(f: LiveFlow, w: Workflow)
    reads AllCells(f)
  {
    && SnapNodes(f.nodes) == w.top.nodes
    && f.defs.Keys == w.defs.Keys
    && forall t :: t in f.defs ==> CellsOf(f.defs[t].nodes) <= AllCells(f) && SnapGraph(f.defs[t]) == w.defs[t]
  }

  /** Cells an expanded node shares with the drawing belong to it. */
  lemma CellKnown(f: LiveFlow, t: string, n: LiveNode, i: nat)
    requires (n in f.nodes) || (t in f.defs && n in f.defs[t].nodes)
    requires i < |n.inputs|
    ensures n.inputs[i] in AllCells(f)
  {
    assert n.inputs[i] in n.inputs;
    if n in f.nodes {
      assert n.inputs[i] in CellsOf(f.nodes);
    } else {
      assert n.inputs[i] in CellsOf(f.defs[t].nodes);
    }
  }
}
