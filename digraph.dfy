/**
  The directed multigraph the coordinator keeps (petgraph's `DiGraph`), reduced
  to what the scheduler uses: nodes `0 .. nodeCount`, edges in insertion order
  (one per `connect`, parallel edges allowed), the neighbour lists, per-node
  edge counts, and what a topological order is.
*/
module Digraph {

  type NodeIndex = nat

  /** (source, target) */
  type Edge = (NodeIndex, NodeIndex)

  /** The number of edges into `v`. */
  function InDegree(edges: seq<Edge>, v: NodeIndex): nat
  {
    if |edges| == 0 then 0
    else InDegree(edges[..|edges| - 1], v) + (if edges[|edges| - 1].1 == v then 1 else 0)
  }

  /** The number of edges into `v` whose source lies in `sources`. */
  function InDegreeFrom(edges: seq<Edge>, sources: set<NodeIndex>, v: NodeIndex): nat
  {
    if |edges| == 0 then 0
    else
      var e := edges[|edges| - 1];
      InDegreeFrom(edges[..|edges| - 1], sources, v) + (if e.1 == v && e.0 in sources then 1 else 0)
  }

  /**
    `neighbors_directed(u, Outgoing)`: the target of every edge out of `u`,
    once per edge, most recently added edge first.
  */
  function Successors(edges: seq<Edge>, u: NodeIndex): seq<NodeIndex>
  {
    if |edges| == 0 then []
    else
      var e := edges[|edges| - 1];
      (if e.0 == u then [e.1] else []) + Successors(edges[..|edges| - 1], u)
  }

  /**
    `neighbors_directed(v, Incoming)`: the source of every edge into `v`,
    once per edge, most recently added edge first.
  */
  function Predecessors(edges: seq<Edge>, v: NodeIndex): seq<NodeIndex>
  {
    if |edges| == 0 then []
    else
      var e := edges[|edges| - 1];
      (if e.1 == v then [e.0] else []) + Predecessors(edges[..|edges| - 1], v)
  }

  /** A node without outgoing edges. */
  predicate IsSink(edges: seq<Edge>, u: NodeIndex)
  {
    Successors(edges, u) == []
  }

  /** Adding one edge adds one to its target's in-degree and nothing elsewhere. */
  lemma InDegreeAppend(edges: seq<Edge>, e: Edge, v: NodeIndex)
    ensures InDegree(edges + [e], v) == InDegree(edges, v) + (if e.1 == v then 1 else 0)
  {
    assert (edges + [e])[..|edges|] == edges;
  }

  /** Adding one edge from `e.0` puts its target at the front of `e.0`'s successors. */
  lemma SuccessorsAppend(edges: seq<Edge>, e: Edge, u: NodeIndex)
    ensures Successors(edges + [e], u) == (if e.0 == u then [e.1] else []) + Successors(edges, u)
  {
    assert (edges + [e])[..|edges|] == edges;
  }

  /** With no source counted, no edge is counted. */
  lemma {:induction false} InDegreeFromNone(edges: seq<Edge>, v: NodeIndex)
    ensures InDegreeFrom(edges, {}, v) == 0
  {
    if |edges| > 0 {
      InDegreeFromNone(edges[..|edges| - 1], v);
    }
  }

  /** Edges from a subset of the nodes are at most all edges. */
  lemma {:induction false} InDegreeFromBound(edges: seq<Edge>, sources: set<NodeIndex>, v: NodeIndex)
    ensures InDegreeFrom(edges, sources, v) <= InDegree(edges, v)
  {
    if |edges| > 0 {
      InDegreeFromBound(edges[..|edges| - 1], sources, v);
    }
  }

  /**
    Counting one more source `u` adds exactly the edges from `u` to `v`, that
    is, the occurrences of `v` among `u`'s successors.
  */
  lemma {:induction false} InDegreeFromAdd(edges: seq<Edge>, sources: set<NodeIndex>, u: NodeIndex, v: NodeIndex)
    requires u !in sources
    ensures InDegreeFrom(edges, sources + {u}, v)
         == InDegreeFrom(edges, sources, v) + multiset(Successors(edges, u))[v]
  {
    if |edges| > 0 {
      InDegreeFromAdd(edges[..|edges| - 1], sources, u, v);
    }
  }

  /** When every edge into `v` is counted, each of their sources is in `sources`. */
  lemma {:induction false} InDegreeFromFull(edges: seq<Edge>, sources: set<NodeIndex>, v: NodeIndex, k: nat)
    requires InDegreeFrom(edges, sources, v) == InDegree(edges, v)
    requires k < |edges| && edges[k].1 == v
    ensures edges[k].0 in sources
  {
    var last := |edges| - 1;
    InDegreeFromBound(edges[..last], sources, v);
    if k < last {
      assert edges[..last][k] == edges[k];
      InDegreeFromFull(edges[..last], sources, v, k);
    }
  }

  /** Conversely, when every source of an edge into `v` is in `sources`, all of them are counted. */
  lemma {:induction false} InDegreeFromAll(edges: seq<Edge>, sources: set<NodeIndex>, v: NodeIndex)
    requires forall k :: 0 <= k < |edges| && edges[k].1 == v ==> edges[k].0 in sources
    ensures InDegreeFrom(edges, sources, v) == InDegree(edges, v)
  {
    if |edges| > 0 {
      var last := |edges| - 1;
      forall k | 0 <= k < last && edges[..last][k].1 == v
        ensures edges[..last][k].0 in sources
      {
        assert edges[..last][k] == edges[k];
      }
      InDegreeFromAll(edges[..last], sources, v);
    }
  }

  /** When fewer edges are counted than there are, some edge into `v` has an uncounted source. */
  lemma InDegreeFromMissing(edges: seq<Edge>, sources: set<NodeIndex>, v: NodeIndex) returns (k: nat)
    requires InDegreeFrom(edges, sources, v) < InDegree(edges, v)
    ensures k < |edges| && edges[k].1 == v && edges[k].0 !in sources
  {
    if forall j :: 0 <= j < |edges| && edges[j].1 == v ==> edges[j].0 in sources {
      InDegreeFromAll(edges, sources, v);
      assert false;
    }
    k :| 0 <= k < |edges| && edges[k].1 == v && edges[k].0 !in sources;
  }

  /** A node that no edge targets has in-degree 0. */
  lemma InDegreeZero(edges: seq<Edge>, v: NodeIndex)
    requires forall k :: 0 <= k < |edges| ==> edges[k].1 != v
    ensures InDegree(edges, v) == 0
  {
    InDegreeFromNone(edges, v);
    InDegreeFromAll(edges, {}, v);
  }

  /** Every listed successor of `u` is the target of an edge out of `u`. */
  lemma {:induction false} SuccessorIsEdge(edges: seq<Edge>, u: NodeIndex, x: NodeIndex)
    requires x in Successors(edges, u)
    ensures (u, x) in edges
  {
    var last := |edges| - 1;
    if x in Successors(edges[..last], u) {
      SuccessorIsEdge(edges[..last], u, x);
      assert edges[..last] <= edges;
    } else {
      assert edges[last] == (u, x);
    }
  }

  /** Every edge `(u, v)` lists `u` among `v`'s predecessors. */
  lemma {:induction false} EdgeIsPredecessor(edges: seq<Edge>, k: nat)
    requires k < |edges|
    ensures edges[k].0 in Predecessors(edges, edges[k].1)
  {
    var last := |edges| - 1;
    if k < last {
      assert edges[..last][k] == edges[k];
      EdgeIsPredecessor(edges[..last], k);
    }
  }

  /** Every listed predecessor of `v` is the source of an edge into `v`. */
  lemma {:induction false} PredecessorIsEdge(edges: seq<Edge>, v: NodeIndex, x: NodeIndex)
    requires x in Predecessors(edges, v)
    ensures (x, v) in edges
  {
    var last := |edges| - 1;
    if x in Predecessors(edges[..last], v) {
      PredecessorIsEdge(edges[..last], v, x);
      assert edges[..last] <= edges;
    } else {
      assert edges[last] == (x, v);
    }
  }

  /** A sink is the source of no edge, and a node that is the source of no edge is a sink. */
  lemma {:induction false} SinkHasNoEdge(edges: seq<Edge>, u: NodeIndex)
    ensures IsSink(edges, u) <==> forall k :: 0 <= k < |edges| ==> edges[k].0 != u
  {
    if |edges| > 0 {
      var last := |edges| - 1;
      SinkHasNoEdge(edges[..last], u);
      assert forall k :: 0 <= k < last ==> edges[..last][k] == edges[k];
    }
  }

  /** The position of `x` in `s`. */
  function IndexOf(s: seq<NodeIndex>, x: NodeIndex): (i: nat)
    requires x in s
    ensures i < |s| && s[i] == x
  {
    if s[0] == x then 0 else 1 + IndexOf(s[1..], x)
  }

  /** No node occurs twice. */
  predicate Distinct(s: seq<NodeIndex>)
  {
    forall a, b :: 0 <= a < b < |s| ==> s[a] != s[b]
  }

  /** In a sequence without repetitions, the node at position `a` is found at `a`. */
  lemma IndexOfDistinct(s: seq<NodeIndex>, a: nat)
    requires Distinct(s) && a < |s|
    ensures IndexOf(s, s[a]) == a
  {
    var i := IndexOf(s, s[a]);
    if i != a {
      assert false;
    }
  }

  /**
    What petgraph's `toposort` returns on success: every node exactly once, and
    the source of every edge before its target.
  */
  ghost predicate IsTopologicalOrder(order: seq<NodeIndex>, nodeCount: nat, edges: seq<Edge>)
  {
    && |order| == nodeCount
    && Distinct(order)
    && (forall v :: 0 <= v < nodeCount ==> v in order)
    && (forall a :: 0 <= a < |order| ==> order[a] < nodeCount)
    && (forall k :: 0 <= k < |edges| ==>
          edges[k].0 in order && edges[k].1 in order && IndexOf(order, edges[k].0) < IndexOf(order, edges[k].1))
  }

  /** In a topological order, the source of every edge into `order[i]` sits at a position before `i`. */
  lemma SourceBefore(order: seq<NodeIndex>, nodeCount: nat, edges: seq<Edge>, i: nat, k: nat)
    requires IsTopologicalOrder(order, nodeCount, edges)
    requires i < |order| && k < |edges| && edges[k].1 == order[i]
    ensures edges[k].0 in order && IndexOf(order, edges[k].0) < i
  {
    IndexOfDistinct(order, i);
  }

  /** The first node of a topological order has no incoming edge and in-degree 0. */
  lemma FirstHasNoInput(order: seq<NodeIndex>, nodeCount: nat, edges: seq<Edge>)
    requires IsTopologicalOrder(order, nodeCount, edges) && |order| > 0
    ensures forall k :: 0 <= k < |edges| ==> edges[k].1 != order[0]
    ensures InDegree(edges, order[0]) == 0
  {
    forall k | 0 <= k < |edges|
      ensures edges[k].1 != order[0]
    {
      if edges[k].1 == order[0] {
        SourceBefore(order, nodeCount, edges, 0, k);
        assert false;
      }
    }
    InDegreeZero(edges, order[0]);
  }
}
