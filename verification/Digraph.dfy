/** Directed graphs as adjacency lists, and the few facts about their paths
    that the dependency graph, the dependency closures and the scheduler share.

    A node is an identity: a Package object or a Boost vertex descriptor. */
module Digraph {

  type Node = int

  /** Out-edges in list order; parallel edges and self-loops are allowed. */
  type Graph = map<Node, seq<Node>>

  predicate Edge(g: Graph, u: Node, v: Node) {
    u in g && v in g[u]
  }

  /** Every edge ends at a node of the graph. */
  ghost predicate Closed(g: Graph) {
    forall u, v :: Edge(g, u, v) ==> v in g
  }

  ghost predicate IsPath(g: Graph, path: seq<Node>) {
    && path != []
    && (|path| > 1 ==> Edge(g, path[0], path[1]) && IsPath(g, path[1..]))
  }

  ghost predicate PathFromTo(g: Graph, path: seq<Node>, u: Node, v: Node) {
    IsPath(g, path) && path[0] == u && path[|path| - 1] == v
  }

  /** There is a path of at least one edge from u to v. */
  ghost predicate Reaches(g: Graph, u: Node, v: Node) {
    exists path :: |path| >= 2 && PathFromTo(g, path, u, v)
  }

  ghost predicate Acyclic(g: Graph) {
    forall u :: !Reaches(g, u, u)
  }

  ghost predicate NoDuplicates(s: seq<Node>) {
    forall i, j :: 0 <= i < j < |s| ==> s[i] != s[j]
  }

  /** order lists every node once, each after everything it has an edge to. */
  ghost predicate Topological(g: Graph, order: seq<Node>) {
    && NoDuplicates(order)
    && (forall u :: u in order <==> u in g)
    && forall i, v :: 0 <= i < |order| && Edge(g, order[i], v) ==> v in order[..i]
  }

  /** A node's rank is above the rank of everything it has an edge to. */
  ghost predicate Ranked(g: Graph, rank: map<Node, nat>) {
    && rank.Keys == g.Keys
    && forall u, v :: Edge(g, u, v) ==> v in rank && rank[v] < rank[u]
  }

  lemma EdgeReaches(g: Graph, u: Node, v: Node)
    requires Edge(g, u, v)
    ensures Reaches(g, u, v)
  {
    assert PathFromTo(g, [u, v], u, v);
  }

  lemma {:induction false} JoinPaths(g: Graph, a: seq<Node>, b: seq<Node>)
    requires IsPath(g, a) && IsPath(g, b) && a[|a| - 1] == b[0]
    ensures PathFromTo(g, a + b[1..], a[0], b[|b| - 1])
  {
    var path := a + b[1..];
    if |a| == 1 {
      assert path == b;
    } else {
      JoinPaths(g, a[1..], b);
      assert path[1..] == a[1..] + b[1..];
    }
  }

  lemma ReachesTransitive(g: Graph, u: Node, v: Node, w: Node)
    requires Reaches(g, u, v) && Reaches(g, v, w)
    ensures Reaches(g, u, w)
  {
    var a :| |a| >= 2 && PathFromTo(g, a, u, v);
    var b :| |b| >= 2 && PathFromTo(g, b, v, w);
    JoinPaths(g, a, b);
  }

  lemma {:induction false} RankFallsAlongPath(g: Graph, rank: map<Node, nat>, path: seq<Node>)
    requires Ranked(g, rank) && IsPath(g, path) && |path| >= 2
    ensures path[0] in rank && path[|path| - 1] in rank
    ensures rank[path[|path| - 1]] < rank[path[0]]
  {
    if |path| > 2 {
      RankFallsAlongPath(g, rank, path[1..]);
    }
  }

  lemma RankedIsAcyclic(g: Graph, rank: map<Node, nat>)
    requires Ranked(g, rank)
    ensures Acyclic(g)
  {
    forall u | Reaches(g, u, u)
      ensures false
    {
      var path :| |path| >= 2 && PathFromTo(g, path, u, u);
      RankFallsAlongPath(g, rank, path);
    }
  }

  /** The position of each node in a topological order ranks the graph. */
  lemma TopologicalIsRanked(g: Graph, order: seq<Node>) returns (rank: map<Node, nat>)
    requires Topological(g, order)
    ensures Ranked(g, rank)
  {
    rank := map u | u in g :: Position(order, u);
    forall u, v | Edge(g, u, v)
      ensures v in rank && rank[v] < rank[u]
    {
      var i := Position(order, u);
      assert u in order;
      assert order[i] == u;
      assert v in order[..i];
      var j :| 0 <= j < i && order[j] == v;
      assert v in order;
      assert order[Position(order, v)] == v;
    }
  }

  ghost function Position(order: seq<Node>, u: Node): (i: nat)
    ensures u in order ==> i < |order| && order[i] == u
  {
    if u in order then
      var i :| 0 <= i < |order| && order[i] == u;
      i
    else 0
  }

  lemma TopologicalIsAcyclic(g: Graph, order: seq<Node>)
    requires Topological(g, order)
    ensures Acyclic(g)
  {
    var rank := TopologicalIsRanked(g, order);
    RankedIsAcyclic(g, rank);
  }
}
