/**
 Node ids of the flattened workflow.  A node of the top level keeps its own id; a node inside an
 expanded subgraph is renamed "<subgraph node id>:<inner id>".  The ids are plain strings, as in the
 converter, so everything that depends on reading the path back from the name is proved here.
 */
module NodeIds {

  type Id = string

  /** An id one level can use: non-empty and without the separator. */
  predicate Plain(x: Id) {
    x != "" && ':' !in x
  }

  /** The name of node x of the level called p; the top level is called "". */
  function Qualify(p: Id, x: Id): Id {
    if p == "" then x else p + ":" + x
  }

  /** Position of the last separator, or -1. */
  function LastColon(s: Id): (k: int)
    ensures -1 <= k < |s|
    ensures k >= 0 ==> s[k] == ':'
    ensures forall j :: k < j < |s| ==> s[j] != ':'
  {
    if s == "" then -1
    else if s[|s| - 1] == ':' then |s| - 1
    else LastColon(s[..|s| - 1])
  }

  /** The level a node belongs to: everything before the last separator. */
  function Parent(s: Id): Id {
    if LastColon(s) < 0 then "" else s[..LastColon(s)]
  }

  /** The id a node has inside its level. */
  function Leaf(s: Id): Id {
    s[LastColon(s) + 1..]
  }

  /** How many subgraphs a node is nested in. */
  function Depth(s: Id): nat {
    if s == "" then 0
    else Depth(s[..|s| - 1]) + if s[|s| - 1] == ':' then 1 else 0
  }

  lemma {:induction false} DepthConcat(a: Id, b: Id)
    ensures Depth(a + b) == Depth(a) + Depth(b)
  {
    if b == "" {
      assert a + b == a;
    } else {
      assert (a + b)[..|a + b| - 1] == a + b[..|b| - 1];
      DepthConcat(a, b[..|b| - 1]);
    }
  }

  lemma {:induction false} PlainDepth(x: Id)
    requires ':' !in x
    ensures Depth(x) == 0
  {
    if x != "" {
      PlainDepth(x[..|x| - 1]);
    }
  }

  /** A separator with none behind it is the last one. */
  lemma LastColonIs(s: Id, k: nat)
    requires k < |s| && s[k] == ':' && ':' !in s[k + 1..]
    ensures LastColon(s) == k
  {
  }

  lemma DepthJoin(p: Id, x: Id)
    ensures Depth(p + ":" + x) == Depth(p) + 1 + Depth(x)
  {
    DepthConcat(p + ":", x);
    assert (p + ":")[..|p + ":"| - 1] == p;
  }

  lemma SplitJoin(p: Id, x: Id)
    requires ':' !in x
    ensures LastColon(p + ":" + x) == |p|
    ensures Parent(p + ":" + x) == p && Leaf(p + ":" + x) == x
  {
    var q := p + ":" + x;
    assert q[|p|] == ':';
    assert q[|p| + 1..] == x;
    LastColonIs(q, |p|);
    assert q[..|p|] == p;
  }

  /** Reading a qualified name back gives the level and the inner id it was made of. */
  lemma SplitQualify(p: Id, x: Id)
    requires Plain(x)
    ensures Parent(Qualify(p, x)) == p
    ensures Leaf(Qualify(p, x)) == x
    ensures Depth(Qualify(p, x)) == if p == "" then 0 else Depth(p) + 1
    ensures Qualify(p, x) != ""
    ensures LastColon(Qualify(p, x)) == if p == "" then -1 else |p|
  {
    hide LastColon, Depth;
    PlainDepth(x);
    if p != "" {
      SplitJoin(p, x);
      DepthJoin(p, x);
    } else {
      assert forall j :: 0 <= j < |x| ==> x[j] != ':';
    }
  }

  /** Two nodes never get the same name, whichever levels they come from. */
  lemma QualifyInjective(p: Id, x: Id, q: Id, y: Id)
    requires Plain(x) && Plain(y)
    requires Qualify(p, x) == Qualify(q, y)
    ensures p == q && x == y
  {
    SplitQualify(p, x);
    SplitQualify(q, y);
  }

  /** Without the hypothesis names collide: inner node "2:3" of "1" and inner node "3" of "1:2". */
  lemma ColonCollision()
    ensures Qualify("1", "2:3") == Qualify("1:2", "3") && "1" != "1:2"
  {
  }

  /** Any qualified name inside a level is deeper than the level. */
  lemma QualifyDeeper(p: Id, x: Id)
    requires p != ""
    ensures Depth(Qualify(p, x)) > Depth(p)
    ensures |Qualify(p, x)| > |p|
  {
    DepthJoin(p, x);
  }

  lemma CutAt(q: Id, k: nat)
    requires k < |q| && q[k] == ':'
    ensures q == q[..k] + ":" + q[k + 1..]
  {
  }

  lemma LeafPlain(q: Id)
    ensures ':' !in Leaf(q)
    ensures LastColon(q) < 0 ==> Leaf(q) == q && Depth(q) == 0
  {
  }

  /** A name with a proper level part is that level's name for its leaf. */
  lemma QualifySplit(q: Id)
    requires q != "" && LastColon(q) != 0
    ensures q == Qualify(Parent(q), Leaf(q))
    ensures |Parent(q)| < |q|
    ensures ':' !in Leaf(q)
    ensures Parent(q) != "" ==> Depth(q) == Depth(Parent(q)) + 1
    ensures Parent(q) == "" ==> Depth(q) == 0
  {
    hide Depth;
    LeafPlain(q);
    var k := LastColon(q);
    if k > 0 {
      CutAt(q, k);
      DepthJoin(q[..k], q[k + 1..]);
      PlainDepth(Leaf(q));
    }
  }
}
