/** The dependency graph behind the scheduler (Internal_Graph): the depth-first
    search that both the cycle gate and the topological sort run, and the class
    that indexes packages by vertex. */
module InternalGraphs {
  import opened Digraph
  import opened Packages

  datatype Color = White | Gray | Black

  ghost predicate OnCycle(g: Graph, u: Node) {
    Reaches(g, u, u)
  }

  /** Every edge out of a finished vertex leads to one that finished earlier, or
      was reported as a back edge. */
  ghost predicate Settled(g: Graph, order: seq<Node>, back: set<(Node, Node)>) {
    forall i, v :: 0 <= i < |order| && Edge(g, order[i], v) ==>
                     v in order[..i] || (order[i], v) in back
  }

  ghost predicate OnCycles(g: Graph, back: set<(Node, Node)>) {
    forall e :: e in back ==> OnCycle(g, e.0) && OnCycle(g, e.1)
  }

  lemma FinishSettles(g: Graph, order: seq<Node>, back: set<(Node, Node)>, u: Node)
    requires Settled(g, order, back) && NoDuplicates(order) && u in g && u !in order
    requires forall j :: 0 <= j < |g[u]| ==> g[u][j] in order || (u, g[u][j]) in back
    ensures Settled(g, order + [u], back)
    ensures NoDuplicates(order + [u])
  {
    var longer := order + [u];
    forall i, v | 0 <= i < |longer| && Edge(g, longer[i], v)
      ensures v in longer[..i] || (longer[i], v) in back
    {
      if i == |order| {
        assert longer[..i] == order;
      } else {
        assert longer[..i] == order[..i] && longer[i] == order[i];
      }
    }
  }

  /** An edge to a vertex still on the stack closes a cycle through both ends. */
  lemma BackEdgeClosesCycle(g: Graph, u: Node, v: Node)
    requires Edge(g, u, v) && (v == u || Reaches(g, v, u))
    ensures OnCycle(g, u) && OnCycle(g, v)
  {
    EdgeReaches(g, u, v);
    if v != u {
      ReachesTransitive(g, u, v, u);
      ReachesTransitive(g, v, u, v);
    }
  }

  /** One depth-first search with a visitor that records back edges and the
      order in which vertices finish. */
  class DepthFirstSearch {
    const g: Graph
    var color: map<Node, Color>
    var order: seq<Node>
    var back: set<(Node, Node)>
    ghost var unseen: set<Node>

    ghost predicate Valid()
      reads this
    {
      && Closed(g)
      && color.Keys == g.Keys
      && NoDuplicates(order)
      && (forall v :: v in order <==> v in color && color[v] == Black)
      && (forall v :: v in unseen <==> v in color && color[v] == White)
      && OnCycles(g, back)
      && Settled(g, order, back)
    }

    /** Everything on the search's stack has a path to u. */
    ghost predicate StackReaches(u: Node)
      reads this
    {
      forall x :: x in color && color[x] == Gray ==> Reaches(g, x, u)
    }

    constructor (g: Graph)
      requires Closed(g)
      ensures Valid() && this.g == g && order == [] && back == {}
      ensures forall v :: v in color ==> color[v] == White
    {
      this.g := g;
      color := map v | v in g :: White;
      order := [];
      back := {};
      unseen := g.Keys;
    }

    /** Finished vertices stay finished and the stack is as it was. */
    ghost predicate Progressed(before: map<Node, Color>)
      reads this
    {
      && color.Keys == before.Keys
      && forall v :: v in color ==>
                       && (color[v] == Gray <==> before[v] == Gray)
                       && (before[v] == Black ==> color[v] == Black)
    }

    method Visit(u: Node)
      requires Valid() && u in unseen && StackReaches(u)
      modifies this
      ensures Valid() && unseen <= old(unseen) - {u} && old(back) <= back
      ensures color[u] == Black && Progressed(old(color))
      decreases unseen, 0
    {
      hide Settled, OnCycles, NoDuplicates, Reaches;
      color, unseen := color[u := Gray], unseen - {u};
      ghost var stack := color;
      var i := 0;
      assert forall j :: 0 <= j < |g[u]| ==> Edge(g, u, g[u][j]);
      while i < |g[u]|
        invariant 0 <= i <= |g[u]|
        invariant Valid() && unseen <= old(unseen) - {u} && old(back) <= back
        invariant Progressed(stack)
        invariant forall j :: 0 <= j < i ==> color[g[u][j]] == Black || (u, g[u][j]) in back
      {
        Examine(u, g[u][i]);
        i := i + 1;
      }
      forall j | 0 <= j < |g[u]|
        ensures g[u][j] in order || (u, g[u][j]) in back
      {
        assert g[u][j] in order <==> color[g[u][j]] == Black;
      }
      FinishSettles(g, order, back, u);
      color, order := color[u := Black], order + [u];
    }

    /** One out-edge of the vertex on top of the stack. */
    method Examine(u: Node, v: Node)
      requires Valid() && Edge(g, u, v) && u in color && color[u] == Gray
      requires forall x :: x in color && color[x] == Gray ==> x == u || Reaches(g, x, u)
      modifies this
      ensures Valid() && unseen <= old(unseen) && old(back) <= back
      ensures color[v] == Black || (u, v) in back
      ensures Progressed(old(color))
      decreases unseen, 1
    {
      if color[v] == White {
        ExtendStack(u, v);
        Visit(v);
      } else if color[v] == Gray {
        BackEdgeClosesCycle(g, u, v);
        back := back + {(u, v)};
      }
    }

    lemma ExtendStack(u: Node, v: Node)
      requires Edge(g, u, v)
      requires forall x :: x in color && color[x] == Gray ==> x == u || Reaches(g, x, u)
      ensures StackReaches(v)
    {
      EdgeReaches(g, u, v);
      forall x | x in color && color[x] == Gray && x != u
        ensures Reaches(g, x, v)
      {
        ReachesTransitive(g, x, u, v);
      }
    }

    /** Start a search from every vertex that is still white. */
    method Run(vertices: nat)
      requires Valid() && order == [] && forall v :: v in color ==> color[v] == White
      requires forall v :: v in g <==> 0 <= v < vertices
      modifies this
      ensures Valid() && forall v :: v in order <==> v in g
    {
      hide Settled, OnCycles, NoDuplicates;
      var v := 0;
      while v < vertices
        invariant 0 <= v <= vertices && Valid()
        invariant forall u :: u in color ==> color[u] != Gray
        invariant forall u :: u in unseen ==> v <= u
      {
        if color[v] == White {
          Visit(v);
        }
        v := v + 1;
      }
    }
  }

  /** A finished search found back edges exactly when the graph has a cycle. */
  lemma BackEdgesAreCycles(g: Graph, order: seq<Node>, back: set<(Node, Node)>)
    requires NoDuplicates(order) && forall v :: v in order <==> v in g
    requires OnCycles(g, back) && Settled(g, order, back)
    ensures back == {} <==> Acyclic(g)
    ensures back == {} ==> Topological(g, order)
  {
    if back == {} {
      TopologicalIsAcyclic(g, order);
    } else {
      var e :| e in back;
      assert OnCycle(g, e.0);
    }
  }

  /** Without back edges a path leads to vertices that finished earlier. */
  lemma {:induction false} EarlierWithoutBack(g: Graph, order: seq<Node>, back: set<(Node, Node)>, path: seq<Node>,
                                              i: nat) returns (j: nat)
    requires NoDuplicates(order) && Settled(g, order, back) && IsPath(g, path) && |path| >= 2
    requires i < |order| && order[i] == path[0]
    requires forall k :: 0 < k < |path| ==> (path[k - 1], path[k]) !in back
    ensures j < i && order[j] == path[|path| - 1]
  {
    assert (path[0], path[1]) !in back;
    assert path[1] in order[..i];
    j :| 0 <= j < i && order[j] == path[1];
    if |path| > 2 {
      forall k | 0 < k < |path| - 1
        ensures (path[1..][k - 1], path[1..][k]) !in back
      {
        assert path[1..][k] == path[k + 1];
      }
      j := EarlierWithoutBack(g, order, back, path[1..], j);
    }
  }

  /** Every cycle contains a back edge. */
  lemma EveryCycleHasBack(g: Graph, order: seq<Node>, back: set<(Node, Node)>, path: seq<Node>) returns (k: nat)
    requires NoDuplicates(order) && (forall v :: v in order <==> v in g) && Settled(g, order, back)
    requires IsPath(g, path) && |path| >= 2 && path[0] == path[|path| - 1]
    ensures 0 < k < |path| && (path[k - 1], path[k]) in back
  {
    if i :| 0 < i < |path| && (path[i - 1], path[i]) in back {
      k := i;
    } else {
      assert Edge(g, path[0], path[1]);
      var i :| 0 <= i < |order| && order[i] == path[0];
      var j := EarlierWithoutBack(g, order, back, path, i);
      assert false;
    }
  }

  // ---------------------------------------------------------------------
  // Renaming vertices to packages and back

  /** m carries every edge of g to an edge of h. */
  ghost predicate CarriesEdges(m: map<Node, Node>, g: Graph, h: Graph) {
    forall u, v :: Edge(g, u, v) ==> u in m && v in m && Edge(h, m[u], m[v])
  }

  lemma {:induction false} CarriesPath(m: map<Node, Node>, g: Graph, h: Graph, path: seq<Node>)
      returns (image: seq<Node>)
    requires CarriesEdges(m, g, h) && IsPath(g, path) && |path| >= 2
    ensures |image| == |path| && path[0] in m && path[|path| - 1] in m
    ensures PathFromTo(h, image, m[path[0]], m[path[|path| - 1]])
    ensures forall i :: 0 <= i < |path| ==> path[i] in m && image[i] == m[path[i]]
  {
    if |path| == 2 {
      image := [m[path[0]], m[path[1]]];
    } else {
      var rest := CarriesPath(m, g, h, path[1..]);
      image := [m[path[0]]] + rest;
      assert image[1..] == rest;
    }
  }

  lemma CarriesCycles(m: map<Node, Node>, g: Graph, h: Graph)
    requires CarriesEdges(m, g, h)
    ensures forall u :: OnCycle(g, u) ==> u in m && OnCycle(h, m[u])
  {
    forall u | OnCycle(g, u)
      ensures u in m && OnCycle(h, m[u])
    {
      var path :| |path| >= 2 && PathFromTo(g, path, u, u);
      var image := CarriesPath(m, g, h, path);
    }
  }

  lemma CyclesCarryOver(nodes: map<Node, Node>, nodeMap: map<Node, Node>, g: Graph, view: Graph)
    requires CarriesEdges(nodeMap, g, view) && CarriesEdges(nodes, view, g)
    ensures Acyclic(g) <==> Acyclic(view)
    ensures forall u :: OnCycle(g, u) ==> u in nodeMap && OnCycle(view, nodeMap[u])
  {
    hide *;
    CarriesCycles(nodeMap, g, view);
    if Acyclic(view) {
      AcyclicCarries(nodeMap, g, view);
    }
    if Acyclic(g) {
      AcyclicCarries(nodes, view, g);
    }
  }

  lemma AcyclicCarries(m: map<Node, Node>, g: Graph, h: Graph)
    requires CarriesEdges(m, g, h) && Acyclic(h)
    ensures Acyclic(g)
  {
    CarriesCycles(m, g, h);
    hide CarriesEdges, Reaches;
    assert forall u :: OnCycle(g, u) <==> Reaches(g, u, u);
    assert forall u :: OnCycle(h, u) <==> Reaches(h, u, u);
  }

  // ---------------------------------------------------------------------
  // The graph itself

  type Vertex = Node

  function Rename(m: map<Node, Node>, s: seq<Node>): (r: seq<Node>)
    requires forall i :: 0 <= i < |s| ==> s[i] in m
    ensures |r| == |s| && forall i :: 0 <= i < |s| ==> r[i] == m[s[i]]
  {
    seq(|s|, i requires 0 <= i < |s| => m[s[i]])
  }

  /** Drop every occurrence of x (the in-edges that clear_vertex removes). */
  function Without(s: seq<Node>, x: Node): (r: seq<Node>)
    ensures forall y :: y in r <==> y in s && y != x
  {
    if s == [] then []
    else if s[0] == x then Without(s[1..], x)
    else [s[0]] + Without(s[1..], x)
  }

  /** The dependency graph once p's edges, in both directions, are gone. */
  function Cleared(g: Graph, p: Node): Graph {
    map q | q in g :: if q == p then [] else Without(g[q], p)
  }

  function OutEdges(g: Graph, p: Package): seq<Package> {
    if p in g then g[p] else []
  }

  /** now is g once every package of all has a vertex and every package of done
      has its depends list added to its out-edges. */
  ghost predicate Filled(g: Graph, all: seq<Package>, done: seq<Package>,
                         depends: map<Package, seq<Package>>, now: Graph)
    requires forall i :: 0 <= i < |done| ==> done[i] in depends
  {
    && (forall p :: p in now <==> p in g || p in all)
    && (forall p :: p in now && p !in done ==> now[p] == OutEdges(g, p))
    && forall p :: p in now && p in done ==> now[p] == OutEdges(g, p) + depends[p]
  }

  /** A package's out-edges are its vertex's out-edges, renamed. */
  ghost predicate Drawn(nodes: map<Package, Vertex>, g: Graph, view: Graph) {
    && view.Keys == nodes.Keys
    && (forall p :: p in nodes ==> nodes[p] in g && |view[p]| == |g[nodes[p]]|)
    && forall p, i :: p in nodes && 0 <= i < |view[p]| ==>
         view[p][i] in nodes && g[nodes[p]][i] == nodes[view[p][i]]
  }

  /** Vertices are numbered, and the two maps between them and packages are
      inverse to each other. */
  ghost predicate IndexedBy(known: set<Vertex>, vertices: nat, nodes: map<Package, Vertex>,
                            nodeMap: map<Vertex, Package>) {
    && (forall v :: v in known <==> 0 <= v < vertices)
    && nodeMap.Keys == known
    && (forall p :: p in nodes ==> nodes[p] in nodeMap && nodeMap[nodes[p]] == p)
    && (forall v :: v in nodeMap ==> nodeMap[v] in nodes && nodes[nodeMap[v]] == v)
  }

  lemma ClearedStays(known: set<Vertex>, vertices: nat, nodes: map<Package, Vertex>, nodeMap: map<Vertex, Package>,
                     g: Graph, view: Graph, p: Package)
    requires IndexedBy(known, vertices, nodes, nodeMap) && Drawn(nodes, g, view) && p in view && known == g.Keys
    ensures p in nodes && nodes[p] in g
    ensures Cleared(g, nodes[p]).Keys == known && Drawn(nodes, Cleared(g, nodes[p]), Cleared(view, p))
  {
    assert p in view.Keys;
    ClearedStaysDrawn(nodes, g, view, p);
  }

  /** The class that maps packages to Boost vertices and back. The ghost field
      view is the graph as its users see it, between packages. */
  class InternalGraph {
    var g: Graph
    var vertices: nat
    var nodes: map<Package, Vertex>
    var nodeMap: map<Vertex, Package>
    var c: seq<Vertex>
    ghost var view: Graph

    /** nodes and nodeMap are each other's inverse and cover all the vertices,
        which are numbered from 0. */
    ghost predicate Indexed()
      reads this
    {
      IndexedBy(g.Keys, vertices, nodes, nodeMap)
    }

    ghost predicate Valid()
      reads this
    {
      Indexed() && Drawn(nodes, g, view)
    }

    lemma ViewEdges()
      requires Valid()
      ensures CarriesEdges(nodeMap, g, view) && CarriesEdges(nodes, view, g)
      ensures Closed(view) && Closed(g)
    {
      forall u, v | Edge(g, u, v)
        ensures u in nodeMap && v in nodeMap && Edge(view, nodeMap[u], nodeMap[v])
      {
        var i :| 0 <= i < |g[u]| && g[u][i] == v;
        var p := nodeMap[u];
        var q := view[p][i];
        assert nodes[p] == u && nodes[q] == v && nodeMap[v] == q && q in view[p];
      }
      forall p, q | Edge(view, p, q)
        ensures p in nodes && q in nodes && Edge(g, nodes[p], nodes[q])
      {
        var i :| 0 <= i < |view[p]| && view[p][i] == q;
        assert g[nodes[p]][i] == nodes[q];
      }
    }

    constructor ()
      ensures Valid() && view == map[] && c == []
    {
      g, vertices, nodes, nodeMap, c, view := map[], 0, map[], map[], [], map[];
    }

    method AddVertex(p: Package)
      requires Valid()
      modifies this
      ensures Valid() && c == old(c)
      ensures view == if p in old(view) then old(view) else old(view)[p := []]
    {
      if p !in nodes {
        nodes, nodeMap := nodes[p := vertices], nodeMap[vertices := p];
        g, vertices := g[vertices := []], vertices + 1;
        view := view[p := []];
      }
    }

    method AddEdge(p: Package, q: Package)
      requires Valid() && p in view && q in view
      modifies this`g, this`view
      ensures Valid()
      ensures view == old(view)[p := old(view)[p] + [q]]
    {
      g := g[nodes[p] := g[nodes[p]] + [nodes[q]]];
      view := view[p := view[p] + [q]];
    }

    method AddEdges(p: Package, targets: seq<Package>)
      requires Valid() && p in view && forall j :: 0 <= j < |targets| ==> targets[j] in view
      modifies this`g, this`view
      ensures Valid()
      ensures view == old(view)[p := old(view)[p] + targets]
    {
      var j := 0;
      while j < |targets|
        invariant 0 <= j <= |targets| && Valid()
        invariant view.Keys == old(view).Keys && view[p] == old(view)[p] + targets[..j]
        invariant forall q :: q in view && q != p ==> view[q] == old(view)[q]
      {
        AddEdge(p, targets[j]);
        j := j + 1;
        assert targets[..j] == targets[..j - 1] + [targets[j - 1]];
      }
      assert targets[..j] == targets;
    }

    /** Index every package of every namespace. */
    method AddVertices(packages: seq<Package>, ghost depends: map<Package, seq<Package>>)
      requires Valid()
      modifies this
      ensures Valid() && Filled(old(view), packages, [], depends, view)
    {
      var i := 0;
      while i < |packages|
        invariant 0 <= i <= |packages| && Valid()
        invariant Filled(old(view), packages[..i], [], depends, view)
      {
        AddVertex(packages[i]);
        i := i + 1;
        assert packages[..i] == packages[..i - 1] + [packages[i - 1]];
      }
      assert packages[..i] == packages;
    }

    /** Add each package's depends list to its out-edges. */
    method AddDepends(packages: seq<Package>, depends: map<Package, seq<Package>>, ghost before: Graph)
      requires Valid() && NoDuplicates(packages) && Filled(before, packages, [], depends, view)
      requires forall i :: 0 <= i < |packages| ==> packages[i] in depends
      requires forall i, j :: 0 <= i < |packages| && 0 <= j < |depends[packages[i]]| ==>
                 depends[packages[i]][j] in view
      modifies this
      ensures Valid() && Filled(before, packages, packages, depends, view)
    {
      var i := 0;
      while i < |packages|
        invariant 0 <= i <= |packages| && Valid() && view.Keys == old(view).Keys
        invariant Filled(before, packages, packages[..i], depends, view)
      {
        ghost var now := view;
        assert packages[i] in packages;
        AddEdges(packages[i], depends[packages[i]]);
        FilledNext(before, packages, i, depends, now, view);
        i := i + 1;
      }
      assert packages[..i] == packages;
    }

    /** Index every package of every namespace, then add each one's depends list
        to its out-edges. */
    method Fill(packages: seq<Package>, depends: map<Package, seq<Package>>)
      requires Valid() && NoDuplicates(packages)
      requires forall i :: 0 <= i < |packages| ==> packages[i] in depends
      requires forall i, j :: 0 <= i < |packages| && 0 <= j < |depends[packages[i]]| ==>
                 depends[packages[i]][j] in packages || depends[packages[i]][j] in nodes
      modifies this
      ensures Valid()
      ensures Filled(old(view), packages, packages, depends, view)
    {
      ghost var known := nodes.Keys;
      assert known == view.Keys;
      AddVertices(packages, depends);
      assert forall p :: p in packages || p in known ==> p in view;
      AddDepends(packages, depends, old(view));
    }

    /** Run a depth-first search over all the vertices. */
    method Search() returns (order: seq<Vertex>, back: set<(Vertex, Vertex)>)
      requires Valid()
      ensures back == {} <==> Acyclic(view)
      ensures back == {} ==> Topological(g, order)
      ensures forall e :: e in back ==>
                && e.0 in nodeMap && OnCycle(view, nodeMap[e.0])
                && e.1 in nodeMap && OnCycle(view, nodeMap[e.1])
      ensures EveryCycleCrossed(back)
    {
      hide Settled, OnCycles, OnCycle, NoDuplicates, Reaches, Acyclic, Topological, EveryCycleCrossed, Drawn;
      ViewEdges();
      var search := new DepthFirstSearch(g);
      search.Run(vertices);
      order, back := search.order, search.back;
      SearchFindsCycles(order, back);
    }

    lemma SearchFindsCycles(order: seq<Vertex>, back: set<(Vertex, Vertex)>)
      requires Valid() && NoDuplicates(order) && (forall v :: v in order <==> v in g)
      requires OnCycles(g, back) && Settled(g, order, back)
      ensures back == {} <==> Acyclic(view)
      ensures back == {} ==> Topological(g, order)
      ensures forall e :: e in back ==>
                && e.0 in nodeMap && OnCycle(view, nodeMap[e.0])
                && e.1 in nodeMap && OnCycle(view, nodeMap[e.1])
      ensures EveryCycleCrossed(back)
    {
      hide Settled, NoDuplicates, Topological, EveryCycleCrossed, Drawn, IndexedBy, CarriesEdges, Acyclic, OnCycle;
      ViewEdges();
      CyclesCarryOver(nodes, nodeMap, g, view);
      BackEdgesAreCycles(g, order, back);
      CyclesAreCrossed(order, back);
    }

    /** The edge from p to q was reported as a back edge. */
    ghost predicate Crossed(back: set<(Vertex, Vertex)>, p: Package, q: Package)
      reads this
    {
      p in nodes && q in nodes && (nodes[p], nodes[q]) in back
    }

    ghost predicate EveryCycleCrossed(back: set<(Vertex, Vertex)>)
      reads this
    {
      forall path, p :: |path| >= 2 && PathFromTo(view, path, p, p) ==>
                          exists i :: 0 < i < |path| && Crossed(back, path[i - 1], path[i])
    }

    lemma CyclesAreCrossed(order: seq<Vertex>, back: set<(Vertex, Vertex)>)
      requires CarriesEdges(nodes, view, g) && NoDuplicates(order) && (forall v :: v in order <==> v in g)
      requires Settled(g, order, back)
      ensures EveryCycleCrossed(back)
    {
      hide CarriesEdges, NoDuplicates, Settled, Crossed, PathFromTo;
      forall path, p | |path| >= 2 && PathFromTo(view, path, p, p)
        ensures exists i :: 0 < i < |path| && Crossed(back, path[i - 1], path[i])
      {
        CycleIsCrossed(order, back, path, p);
      }
    }

    lemma EndsAreReported(back: set<(Vertex, Vertex)>, cycled: set<Package>)
      requires Indexed() && EveryCycleCrossed(back)
      requires forall e :: e in back ==>
        e.0 in nodeMap && nodeMap[e.0] in cycled && e.1 in nodeMap && nodeMap[e.1] in cycled
      ensures forall path, p :: |path| >= 2 && PathFromTo(view, path, p, p) ==>
                exists i :: 0 < i < |path| && path[i - 1] in cycled && path[i] in cycled
    {
      hide PathFromTo;
      forall path, p | |path| >= 2 && PathFromTo(view, path, p, p)
        ensures exists i :: 0 < i < |path| && path[i - 1] in cycled && path[i] in cycled
      {
        var i :| 0 < i < |path| && Crossed(back, path[i - 1], path[i]);
        var e := (nodes[path[i - 1]], nodes[path[i]]);
        assert e in back && nodeMap[e.0] == path[i - 1] && nodeMap[e.1] == path[i];
      }
    }

    lemma CycleIsCrossed(order: seq<Vertex>, back: set<(Vertex, Vertex)>, path: seq<Package>, p: Package)
      requires CarriesEdges(nodes, view, g) && NoDuplicates(order) && (forall v :: v in order <==> v in g)
      requires Settled(g, order, back) && |path| >= 2 && PathFromTo(view, path, p, p)
      ensures exists i :: 0 < i < |path| && Crossed(back, path[i - 1], path[i])
    {
      var image := CarriesPath(nodes, view, g, path);
      var k := EveryCycleHasBack(g, order, back, image);
      assert Crossed(back, path[k - 1], path[k]);
    }

    /** The packages at either end of a back edge: packages on cycles, and of every
        cycle two that follow each other. */
    method GetCycledPackages() returns (cycled: set<Package>)
      requires Valid()
      ensures cycled == {} <==> Acyclic(view)
      ensures forall p :: p in cycled ==> OnCycle(view, p)
      ensures forall path, p :: |path| >= 2 && PathFromTo(view, path, p, p) ==>
                exists i :: 0 < i < |path| && path[i - 1] in cycled && path[i] in cycled
    {
      hide Acyclic, OnCycle, Drawn, EveryCycleCrossed, PathFromTo, Topological;
      var order, back := Search();
      var sources := set e | e in back :: nodeMap[e.0];
      var targets := set e | e in back :: nodeMap[e.1];
      cycled := sources + targets;
      forall e | e in back
        ensures nodeMap[e.0] in cycled && nodeMap[e.1] in cycled
      {
      }
      EndsAreReported(back, cycled);
    }

    /** The packages in the order of the vertices in c. */
    ghost predicate Listed(order: seq<Package>)
      reads this
    {
      && |order| == |c|
      && forall i :: 0 <= i < |c| ==> c[i] in nodeMap && order[i] == nodeMap[c[i]]
    }

    /** Refill c from a depth-first search; Boost throws not_a_dag, here ok is
        false, when the search meets a back edge. */
    method TopologicalSort() returns (ok: bool, ghost order: seq<Package>)
      requires Valid()
      modifies this`c
      ensures ok <==> Acyclic(view)
      ensures ok ==> Listed(order) && Topological(view, order)
    {
      c, order := [], [];
      var finished, back := Search();
      ok := back == {};
      if ok {
        c := finished;
        assert forall i :: 0 <= i < |c| ==> c[i] in c;
        order := Rename(nodeMap, c);
        ViewEdges();
        RenamedTopological(nodes, nodeMap, g, view, c, order);
      }
    }

    /** clear_vertex: drop every edge into and out of p's vertex. */
    method DeleteNode(p: Package)
      requires Valid() && p in view
      modifies this`g, this`view
      ensures Valid()
      ensures view == Cleared(old(view), p)
    {
      hide IndexedBy, Drawn, Cleared;
      ClearedStays(g.Keys, vertices, nodes, nodeMap, g, view, p);
      g, view := Cleared(g, nodes[p]), Cleared(view, p);
    }

    /** What the scheduler does when a worker reports its package finished. */
    method PackageFinished(p: Package) returns (ghost order: seq<Package>)
      requires Valid() && p in view && Acyclic(view)
      modifies this
      ensures Valid() && Acyclic(view)
      ensures view == Cleared(old(view), p)
      ensures Listed(order) && Topological(view, order)
    {
      ViewEdges();
      ClearedAcyclic(view, p);
      DeleteNode(p);
      var ok;
      ok, order := TopologicalSort();
    }

    /** The last package of c that is neither built nor building and whose
        dependencies are all built. */
    method TopoNext(depends: Depends, built: set<Package>, building: set<Package>,
                    ghost order: seq<Package>)
        returns (n: Option<Package>, ghost at: nat)
      requires Valid() && Listed(order)
      ensures n.None? ==> forall i :: 0 <= i < |order| ==> !Ready(depends, built, building, order[i])
      ensures n.Some? ==> at < |order| && order[at] == n.value && Ready(depends, built, building, n.value)
      ensures n.Some? ==> forall i :: at < i < |order| ==> !Ready(depends, built, building, order[i])
    {
      n, at := None, 0;
      var i := 0;
      while i < |c|
        invariant 0 <= i <= |c|
        invariant n.None? ==> forall j :: 0 <= j < i ==> !Ready(depends, built, building, order[j])
        invariant n.Some? ==> 0 <= at < i && order[at] == n.value && Ready(depends, built, building, n.value)
        invariant n.Some? ==> forall j :: at < j < i ==> !Ready(depends, built, building, order[j])
      {
        var p := nodeMap[c[i]];
        if Ready(depends, built, building, p) {
          n, at := Some(p), i;
        }
        i := i + 1;
      }
    }
  }

  lemma RenamedTopological(nodes: map<Package, Vertex>, nodeMap: map<Vertex, Package>, g: Graph, view: Graph,
                           c: seq<Vertex>, order: seq<Package>)
    requires Topological(g, c) && CarriesEdges(nodes, view, g)
    requires nodeMap.Keys == g.Keys && view.Keys == nodes.Keys
    requires forall p :: p in nodes ==> nodes[p] in nodeMap && nodeMap[nodes[p]] == p
    requires forall v :: v in nodeMap ==> nodeMap[v] in nodes && nodes[nodeMap[v]] == v
    requires |order| == |c|
    requires forall i :: 0 <= i < |c| ==> c[i] in nodeMap && order[i] == nodeMap[c[i]]
    ensures Topological(view, order)
  {
    forall i | 0 <= i < |c|
      ensures order[i] in nodes && nodes[order[i]] == c[i]
    {
      var v := c[i];
      assert v in nodeMap;
      assert order[i] == nodeMap[v];
      assert nodeMap[v] in nodes;
    }
    forall p
      ensures p in order <==> p in view
    {
      if p in view {
        var v := nodes[p];
        assert v in nodeMap.Keys;
        assert v in g;
        var i :| 0 <= i < |c| && c[i] == v;
        assert order[i] == p;
      }
    }
    forall i, q | 0 <= i < |order| && Edge(view, order[i], q)
      ensures q in order[..i]
    {
      assert Edge(g, c[i], nodes[q]);
      var j :| 0 <= j < i && c[..i][j] == nodes[q];
      assert order[..i][j] == q;
    }
  }

  lemma ClearedEdges(g: Graph, p: Package)
    ensures forall u, v :: Edge(Cleared(g, p), u, v) <==> Edge(g, u, v) && u != p && v != p
  {
    forall u, v
      ensures Edge(Cleared(g, p), u, v) <==> Edge(g, u, v) && u != p && v != p
    {
      if u in g && u != p {
        assert Cleared(g, p)[u] == Without(g[u], p);
      }
    }
  }

  lemma ClearedAcyclic(g: Graph, p: Package)
    requires Closed(g) && Acyclic(g)
    ensures Closed(Cleared(g, p)) && Acyclic(Cleared(g, p))
  {
    var same := map q | q in g :: q;
    ClearedEdges(g, p);
    CarriesCycles(same, Cleared(g, p), g);
    forall u
      ensures !Reaches(Cleared(g, p), u, u)
    {
      assert OnCycle(Cleared(g, p), u) ==> OnCycle(g, u);
    }
  }

  /** Once every dependency of p has been cleared p has no out-edges left, and an
      edge survives exactly until one of its ends is cleared. */
  function ClearedAll(g: Graph, ps: seq<Package>): Graph {
    if ps == [] then g else ClearedAll(Cleared(g, ps[0]), ps[1..])
  }

  lemma {:induction false} ClearedAllEdges(g: Graph, ps: seq<Package>)
    ensures ClearedAll(g, ps).Keys == g.Keys
    ensures forall u, v :: Edge(ClearedAll(g, ps), u, v) <==> Edge(g, u, v) && u !in ps && v !in ps
  {
    if ps != [] {
      var next := Cleared(g, ps[0]);
      ClearedEdges(g, ps[0]);
      ClearedAllEdges(next, ps[1..]);
    }
  }

  /** Dropping p from a list of packages, and p's vertex from the list of their
      vertices, leaves lists that still match. */
  lemma {:induction false} WithoutRenames(nodes: map<Package, Vertex>, ps: seq<Package>, p: Package, vs: seq<Vertex>)
    requires p in nodes && |ps| == |vs|
    requires forall i :: 0 <= i < |ps| ==> ps[i] in nodes && vs[i] == nodes[ps[i]]
    requires forall q :: q in nodes && nodes[q] == nodes[p] ==> q == p
    ensures |Without(ps, p)| == |Without(vs, nodes[p])|
    ensures forall i :: 0 <= i < |Without(ps, p)| ==>
              Without(ps, p)[i] in nodes && Without(vs, nodes[p])[i] == nodes[Without(ps, p)[i]]
  {
    if ps != [] {
      WithoutRenames(nodes, ps[1..], p, vs[1..]);
      assert vs[0] == nodes[p] <==> ps[0] == p;
    }
  }

  lemma ClearedStaysDrawn(nodes: map<Package, Vertex>, g: Graph, view: Graph, p: Package)
    requires Drawn(nodes, g, view) && p in nodes
    requires forall q, r :: q in nodes && r in nodes && nodes[q] == nodes[r] ==> q == r
    ensures Drawn(nodes, Cleared(g, nodes[p]), Cleared(view, p))
  {
    var g', view' := Cleared(g, nodes[p]), Cleared(view, p);
    forall q | q in nodes
      ensures |view'[q]| == |g'[nodes[q]]|
      ensures forall i :: 0 <= i < |view'[q]| ==>
                view'[q][i] in nodes && g'[nodes[q]][i] == nodes[view'[q][i]]
    {
      if q != p {
        WithoutRenames(nodes, view[q], p, g[nodes[q]]);
      }
    }
  }

  lemma FilledNext(g: Graph, packages: seq<Package>, i: nat, depends: map<Package, seq<Package>>,
                   now: Graph, next: Graph)
    requires NoDuplicates(packages) && i < |packages| && packages[i] in now
    requires forall j :: 0 <= j < |packages| ==> packages[j] in depends
    requires Filled(g, packages, packages[..i], depends, now)
    requires next == now[packages[i] := now[packages[i]] + depends[packages[i]]]
    ensures Filled(g, packages, packages[..i + 1], depends, next)
  {
    assert packages[..i + 1] == packages[..i] + [packages[i]];
    assert packages[i] !in packages[..i];
  }
}
