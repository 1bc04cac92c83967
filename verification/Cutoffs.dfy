/** When descriptions say enough although some packages are described by what they
    produced: exactly when no directory is filled from past such a package. */
module Cutoffs {
  import opened Digraph
  import opened Packages
  import opened Closures
  import opened Descriptions
  import opened Worlds
  import opened Merkle

  /** Another tree to compare W with, under tools that agree with T about W's
      packages; it is itself covered. */
  ghost predicate Companion(T: Tools, W: World, T': Tools, W1: World) {
    && ToolsOk(T') && WorldOk(T', W) && WorldOk(T', W1) && CutoffsCovered(T', W1)
    && forall p :: p in W.own ==> Def(T', W, p) == Def(T, W, p)
  }

  ghost predicate TextDecides(T: Tools, W0: World, W1: World, p: Package)
    requires WorldOk(T, W0) && WorldOk(T, W1) && p in W0.own && p in W1.own
  {
    Text(T, W0, p) == Text(T, W1, p) ==> CleanOut(T, W0, p) == CleanOut(T, W1, p)
  }

  /** Equal descriptions mean equal clean builds, whatever the packages' commands
      do and whatever tree W is compared with. */
  ghost predicate Sound(T: Tools, W: World)
    requires WorldOk(T, W)
  {
    forall T', W1, p :: Companion(T, W, T', W1) && p in W.own && p in W1.own ==> TextDecides(T', W, W1, p)
  }

  // ---------------------------------------------------------------------
  // Closures of two graphs

  /** Below p, in another graph with the same edges, a cut that holds no more. */
  lemma {:induction false} PathCarries(g: Graph, cut: set<Package>, g': Graph, cut': set<Package>,
                                       rank: map<Package, nat>, p: Package, path: seq<Package>)
    requires Ranked(g, rank) && p in rank && CutPath(g, cut, path) && path[0] in rank && rank[path[0]] <= rank[p]
    requires forall u, v :: Edge(g, u, v) && rank[u] <= rank[p] ==> Edge(g', u, v)
    requires forall v :: v in g && rank[v] < rank[p] && v !in cut ==> v !in cut'
    ensures CutPath(g', cut', path)
  {
    assert rank[path[1]] < rank[path[0]];
    if |path| > 2 {
      assert Edge(g, path[1], path[1..][1]);
      PathCarries(g, cut, g', cut', rank, p, path[1..]);
    }
  }

  lemma ReachCarries(g: Graph, cut: set<Package>, g': Graph, cut': set<Package>, rank: map<Package, nat>,
                     p: Package, x: Package, q: Package)
    requires Ranked(g, rank) && p in rank && x in rank && rank[x] <= rank[p] && CutReaches(g, cut, x, q)
    requires forall u, v :: Edge(g, u, v) && rank[u] <= rank[p] ==> Edge(g', u, v)
    requires forall v :: v in g && rank[v] < rank[p] && v !in cut ==> v !in cut'
    ensures CutReaches(g', cut', x, q)
  {
    var path :| CutPath(g, cut, path) && path[0] == x && path[|path| - 1] == q;
    PathCarries(g, cut, g', cut', rank, p, path);
  }

  lemma AgreeingClosures(T: Tools, T': Tools, W: World, cut: set<Package>, p: Package)
    requires WorldOk(T, W) && WorldOk(T', W)
    requires forall x :: x in W.own ==> Def(T', W, x) == Def(T, W, x)
    ensures GraphOf(T', W) == GraphOf(T, W) && HashCut(T', W) == HashCut(T, W)
    ensures StagingCut(T', W) == StagingCut(T, W)
    ensures forall d :: InstallCut(T', W, d) == InstallCut(T, W, d)
    ensures Closure(T', W, cut, p) == Closure(T, W, cut, p)
  {
    assert DependsMap(T', W) == DependsMap(T, W);
    hide WorldOk, CutReaches, Targets;
  }

  lemma AgreeingCovered(T: Tools, T': Tools, W: World)
    requires WorldOk(T, W) && WorldOk(T', W) && CutoffsCovered(T, W)
    requires forall x :: x in W.own ==> Def(T', W, x) == Def(T, W, x)
    ensures CutoffsCovered(T', W)
  {
    hide WorldOk, Closure;
    forall p | p in W.own
      ensures Covered(T', W, p)
    {
      assert Covered(T, W, p);
      AgreeingClosures(T, T', W, {}, p);
      forall cut
        ensures Closure(T', W, cut, p) == Closure(T, W, cut, p)
      {
        AgreeingClosures(T, T', W, cut, p);
      }
    }
  }

  /** Covered trees are sound. */
  lemma CoveredIsSound(T: Tools, W: World)
    requires WorldOk(T, W) && CutoffsCovered(T, W)
    ensures Sound(T, W)
  {
    hide WorldOk, CutoffsCovered, CleanOut, Text, ToolsOk, Def;
    forall T', W1, p | Companion(T, W, T', W1) && p in W.own && p in W1.own
      ensures TextDecides(T', W, W1, p)
    {
      AgreeingCovered(T, T', W);
      if Text(T', W, p) == Text(T', W1, p) {
        SameTextSameOut(T', W, W1, p);
      }
    }
  }

  // ---------------------------------------------------------------------
  // A tree that shows what is not covered

  /** p and the packages ranked below it. */
  function Low(W: World, p: Package): set<Package> {
    set x | x in W.own && x in W.rank && p in W.rank && (x == p || W.rank[x] < W.rank[p])
  }

  /** Tools under which p's commands install whether q was staged, everybody else
      installs nothing, and a package with other lines than in W intercepts. */
  function Spy(T: Tools, W: World, p: Package, q: Package): Tools {
    T.(interpret := (x, us) =>
         if x in W.own && us != W.own[x] then
           T.interpret(x, W.own[x]).(interceptStaging := true, interceptInstall := true)
         else T.interpret(x, us),
       run := (x, us, sources, staged, installed) =>
         if x == p then Output(Sees(q, staged), Sees(q, installed)) else Output("", ""))
  }

  function Sees(q: Package, there: map<Package, string>): string {
    if q in there then "y" else "n"
  }

  /** Whether x's lines are changed. */
  predicate Changed(T: Tools, W: World, p: Package, x: Package)
    requires x in W.own
  {
    Def(T, W, x).hashOutput && x != p
  }

  /** W up to p, with one more line for each package below p that hashes its output. */
  function Marked(T: Tools, W: World, p: Package): World
    requires W.extraction.Keys == W.own.Keys
  {
    World(map x | x in Low(W, p) :: if Changed(T, W, p, x) then W.own[x] + [FeatureNil("cut")] else W.own[x],
          map x | x in Low(W, p) :: W.extraction[x],
          map x | x in Low(W, p) :: W.rank[x])
  }

  /** W and the tree it is compared with, both under the spying tools. */
  ghost predicate Setting(T: Tools, W: World, p: Package, q: Package, T': Tools, W1: World) {
    ToolsOk(T) && WorldOk(T, W) && p in W.own && T' == Spy(T, W, p, q) && W1 == Marked(T, W, p)
  }

  lemma SpyDefs(T: Tools, W: World, p: Package, q: Package, T': Tools, W1: World)
    requires Setting(T, W, p, q, T', W1)
    ensures W1.own.Keys == Low(W, p) && p in W1.own && W1.rank.Keys == W1.own.Keys
    ensures forall x :: x in W.own ==> Def(T', W, x) == Def(T, W, x)
    ensures forall x :: x in W1.own ==>
              && x in W.own && W1.rank[x] == W.rank[x] && W1.extraction[x] == W.extraction[x]
              && W1.own[x] == (if Changed(T, W, p, x) then W.own[x] + [FeatureNil("cut")] else W.own[x])
              && Def(T', W1, x) == if Changed(T, W, p, x) then
                                     Def(T, W, x).(interceptStaging := true, interceptInstall := true)
                                   else Def(T, W, x)
  {
    hide ToolsOk;
  }

  lemma MarkedLines(T: Tools, W: World, p: Package, q: Package, T': Tools, W1: World, x: Package)
    requires Setting(T, W, p, q, T', W1) && x in W1.own
    ensures AllClean(W1.own[x]) && forall i :: 0 <= i < |W1.own[x]| ==> Worlds.Recorded(W1.own[x][i])
  {
    SpyDefs(T, W, p, q, T', W1);
    assert AllClean(W.own[x]);
    hide Spy, Marked, Def, DependsOk, ToolsOk;
  }

  lemma MarkedDepends(T: Tools, W: World, p: Package, q: Package, T': Tools, W1: World, x: Package)
    requires Setting(T, W, p, q, T', W1) && x in W1.own && W1.rank.Keys == W1.own.Keys
    ensures DependsOk(T', W1, x)
  {
    SpyDefs(T, W, p, q, T', W1);
    assert DependsOk(T, W, x);
    hide Spy, Marked, ToolsOk, WorldOk, Def;
  }

  lemma SpyOk(T: Tools, W: World, p: Package, q: Package, T': Tools, W1: World)
    requires Setting(T, W, p, q, T', W1)
    ensures ToolsOk(T') && WorldOk(T', W) && WorldOk(T', W1)
  {
    SpyDefs(T, W, p, q, T', W1);
    forall x | x in W.own
      ensures DependsOk(T', W, x)
    {
      assert DependsOk(T, W, x);
    }
    forall x | x in W1.own
      ensures DependsOk(T', W1, x) && AllClean(W1.own[x])
      ensures forall i :: 0 <= i < |W1.own[x]| ==> Worlds.Recorded(W1.own[x][i])
    {
      MarkedLines(T, W, p, q, T', W1, x);
      MarkedDepends(T, W, p, q, T', W1, x);
    }
    hide Spy, Def, DependsOk, AllClean;
  }

  lemma MarkedEdges(T: Tools, W: World, p: Package, q: Package, T': Tools, W1: World)
    requires Setting(T, W, p, q, T', W1)
    ensures forall u, v :: Edge(GraphOf(T', W1), u, v) <==> u in W1.own && Edge(GraphOf(T, W), u, v)
  {
    SpyDefs(T, W, p, q, T', W1);
    hide Spy, Marked, ToolsOk, WorldOk, Def;
    forall u, v
      ensures Edge(GraphOf(T', W1), u, v) <==> u in W1.own && Edge(GraphOf(T, W), u, v)
    {
      if u in W1.own {
        assert GraphOf(T', W1)[u] == GraphOf(T, W)[u];
      }
    }
  }

  /** The marked tree has W's edges from p down, and cuts wherever W cuts or a
      package below p hashes its output. */
  lemma MarkedGraph(T: Tools, W: World, p: Package, q: Package, T': Tools, W1: World)
    requires Setting(T, W, p, q, T', W1)
    ensures forall u, v :: Edge(GraphOf(T', W1), u, v) <==> u in W1.own && Edge(GraphOf(T, W), u, v)
    ensures forall x :: x in W1.own ==>
              && (x in HashCut(T', W1) <==> x in HashCut(T, W))
              && (x in StagingCut(T', W1) <==> x in StagingCut(T, W) || Changed(T, W, p, x))
              && forall d :: x in InstallCut(T', W1, d) <==> x in InstallCut(T, W, d) || Changed(T, W, p, x)
  {
    MarkedEdges(T, W, p, q, T', W1);
    SpyDefs(T, W, p, q, T', W1);
    hide Spy, Marked, ToolsOk, WorldOk, Def, GraphOf, Edge;
  }

  /** Cuts that agree below x give x the same closure. */
  lemma SameBelow(T: Tools, W: World, cut: set<Package>, cut': set<Package>, x: Package)
    requires WorldOk(T, W) && x in W.own
    requires forall v :: v in W.own && W.rank[v] < W.rank[x] ==> (v in cut <==> v in cut')
    ensures Closure(T, W, cut, x) == Closure(T, W, cut', x)
  {
    WorldIsRanked(T, W);
    var g := GraphOf(T, W);
    hide WorldOk, Ranked, GraphOf;
    forall y
      ensures y in Closure(T, W, cut, x) <==> y in Closure(T, W, cut', x)
    {
      if CutReaches(g, cut, x, y) {
        ReachCarries(g, cut, g, cut', W.rank, x, x, y);
      }
      if CutReaches(g, cut', x, y) {
        ReachCarries(g, cut', g, cut, W.rank, x, x, y);
      }
    }
  }

  lemma MarkedBelow(T: Tools, W: World, p: Package, q: Package, T': Tools, W1: World, x: Package)
    requires Setting(T, W, p, q, T', W1) && x in W1.own && W1.rank.Keys == W1.own.Keys
    ensures forall v :: v in W1.own && W1.rank[v] < W1.rank[x] ==>
              && (v in HashCut(T', W1) ==> v in StagingCut(T', W1))
              && forall d :: v in HashCut(T', W1) ==> v in InstallCut(T', W1, d)
  {
    SpyDefs(T, W, p, q, T', W1);
    MarkedGraph(T, W, p, q, T', W1);
    forall v | v in W1.own && W1.rank[v] < W1.rank[x] && v in HashCut(T, W)
      ensures Changed(T, W, p, v)
    {
    }
    hide Spy, Marked, ToolsOk, WorldOk, Def, StagingCut, InstallCut;
  }

  /** The marked tree is covered. */
  lemma MarkedCovered(T: Tools, W: World, p: Package, q: Package, T': Tools, W1: World)
    requires Setting(T, W, p, q, T', W1)
    ensures WorldOk(T', W1) && CutoffsCovered(T', W1)
  {
    SpyOk(T, W, p, q, T', W1);
    SpyDefs(T, W, p, q, T', W1);
    forall x | x in W1.own
      ensures Covered(T', W1, x)
    {
      MarkedBelow(T, W, p, q, T', W1, x);
      CoveredBelow(T', W1, x);
    }
    hide Covered, Setting, WorldOk;
  }

  lemma CoveredBelow(T: Tools, W: World, x: Package)
    requires WorldOk(T, W) && x in W.own
    requires forall v :: v in W.own && W.rank[v] < W.rank[x] ==>
              && (v in HashCut(T, W) ==> v in StagingCut(T, W))
              && forall d :: v in HashCut(T, W) ==> v in InstallCut(T, W, d)
    ensures Covered(T, W, x)
  {
    var install := InstallCut(T, W, Def(T, W, x).directOnly);
    hide WorldOk, HashCut, StagingCut, InstallCut, Closure;
    SameBelow(T, W, StagingCut(T, W), StagingCut(T, W) + HashCut(T, W), x);
    SameBelow(T, W, install, install + HashCut(T, W), x);
  }

  /** Packages other than p install nothing. */
  lemma SpyOut(T: Tools, W: World, p: Package, q: Package, T': Tools, V: World, x: Package)
    requires T' == Spy(T, W, p, q) && WorldOk(T', V) && x in V.own
    ensures CleanOut(T', V, x)
            == if x == p then Output(if q in StagingSet(T', V, p) then "y" else "n",
                                     if q in InstallSet(T', V, p) then "y" else "n")
               else Output("", "")
  {
    hide StagingSet, InstallSet, WorldOk, Def;
    assert q in CleanStaging(T', V, x) <==> q in CleanStaging(T', V, x).Keys;
    assert q in CleanInstall(T', V, x) <==> q in CleanInstall(T', V, x).Keys;
  }

  /** The added lines do not show in the descriptions of other packages. */
  lemma {:induction false} SameTexts(T: Tools, W: World, p: Package, q: Package, T': Tools, W1: World, x: Package)
    requires Setting(T, W, p, q, T', W1) && x in W1.own && x in W.own && !Changed(T, W, p, x)
    ensures WorldOk(T', W) && WorldOk(T', W1) && Text(T', W, x) == Text(T', W1, x)
    decreases if x in W.rank then W.rank[x] else 0
  {
    SpyOk(T, W, p, q, T', W1);
    SpyDefs(T, W, p, q, T', W1);
    hide Spy, Marked, WorldOk, ToolsOk, Def, Text, CleanOut, DepUnits;
    assert Def(T', W, x) == Def(T', W1, x);
    forall i | 0 <= i < |Def(T', W, x).depends|
      ensures DepUnits(T', W, x)[i] == DepUnits(T', W1, x)[i]
    {
      DependIn(T', W, x, i);
      DependIn(T', W1, x, i);
      var y := Def(T', W, x).depends[i].package;
      if Changed(T, W, p, y) {
        SpyOut(T, W, p, q, T', W, y);
        SpyOut(T, W, p, q, T', W1, y);
      } else if y != p {
        SameTexts(T, W, p, q, T', W1, y);
      }
    }
    TextFrom(T', W, W1, x);
  }

  lemma TextFrom(T: Tools, W0: World, W1: World, x: Package)
    requires WorldOk(T, W0) && WorldOk(T, W1) && x in W0.own && x in W1.own
    requires W0.own[x] == W1.own[x] && x in W0.extraction && x in W1.extraction && W0.extraction[x] == W1.extraction[x]
    requires |DepUnits(T, W0, x)| == |DepUnits(T, W1, x)|
    requires forall i :: 0 <= i < |DepUnits(T, W0, x)| ==> DepUnits(T, W0, x)[i] == DepUnits(T, W1, x)[i]
    ensures Text(T, W0, x) == Text(T, W1, x)
  {
    hide WorldOk, DepUnits, Print;
    assert DepUnits(T, W0, x) == DepUnits(T, W1, x);
  }

  /** What p is filled from only past an output-hashing package is not there in
      the marked tree. */
  lemma MarkedMisses(T: Tools, W: World, p: Package, q: Package, T': Tools, W1: World, cut: set<Package>,
                     cut1: set<Package>)
    requires Setting(T, W, p, q, T', W1) && q !in Closure(T, W, cut + HashCut(T, W), p)
    requires forall x :: x in W1.own ==> (x in cut1 <==> x in cut || Changed(T, W, p, x))
    ensures WorldOk(T', W1) && q !in Closure(T', W1, cut1, p)
  {
    SpyOk(T, W, p, q, T', W1);
    SpyDefs(T, W, p, q, T', W1);
    MarkedGraph(T, W, p, q, T', W1);
    WorldIsRanked(T', W1);
    var g, g1 := GraphOf(T, W), GraphOf(T', W1);
    assert g1.Keys == W1.own.Keys;
    forall v | v in g1 && W1.rank[v] < W1.rank[p] && v !in cut1
      ensures v !in cut + HashCut(T, W)
    {
      assert v != p && !Changed(T, W, p, v);
    }
    hide Spy, Marked, WorldOk, ToolsOk, Ranked, GraphOf, Def, HashCut;
    if CutReaches(g1, cut1, p, q) {
      ReachCarries(g1, cut1, g, cut + HashCut(T, W), W1.rank, p, p, q);
    }
  }

  /** A package that is staged, or installed, only past an output-hashing one. */
  ghost predicate Uncovers(T: Tools, W: World, p: Package, q: Package, staging: bool)
    requires WorldOk(T, W) && p in W.own
  {
    if staging then
      q in StagingSet(T, W, p) && q !in Closure(T, W, StagingCut(T, W) + HashCut(T, W), p)
    else
      q in InstallSet(T, W, p) && q !in Closure(T, W, InstallCut(T, W, Def(T, W, p).directOnly) + HashCut(T, W), p)
  }

  lemma UncoveredBy(T: Tools, W: World, p: Package) returns (q: Package, staging: bool)
    requires WorldOk(T, W) && p in W.own && !Covered(T, W, p)
    ensures Uncovers(T, W, p, q, staging)
  {
    var hash := HashCut(T, W);
    var cut := StagingCut(T, W);
    staging := Closure(T, W, cut, p) != Closure(T, W, cut + hash, p);
    if !staging {
      cut := InstallCut(T, W, Def(T, W, p).directOnly);
    }
    hide WorldOk, HashCut, StagingCut, InstallCut;
    assert Closure(T, W, cut + hash, p) <= Closure(T, W, cut, p) by {
      MoreCutsReachLess(T, W, cut, hash, p);
    }
    q := Extra(Closure(T, W, cut, p), Closure(T, W, cut + hash, p));
  }

  lemma Extra(a: set<Package>, b: set<Package>) returns (q: Package)
    requires b <= a && a != b
    ensures q in a && q !in b
  {
    assert (forall x :: x in a ==> x in b) ==> a == b;
    if exists x :: x in a && x !in b {
      q :| q in a && q !in b;
    } else {
      assert false;
    }
  }

  lemma MoreCutsReachLess(T: Tools, W: World, cut: set<Package>, more: set<Package>, p: Package)
    requires WorldOk(T, W) && p in W.own
    ensures Closure(T, W, cut + more, p) <= Closure(T, W, cut, p)
  {
    WorldIsRanked(T, W);
    var g := GraphOf(T, W);
    hide WorldOk, Ranked, GraphOf;
    forall q | q in Closure(T, W, cut + more, p)
      ensures q in Closure(T, W, cut, p)
    {
      ReachCarries(g, cut + more, g, cut, W.rank, p, p, q);
    }
  }

  /** The two trees have equal descriptions of p and different clean builds. */
  lemma SpyTells(T: Tools, W: World, p: Package, q: Package, staging: bool, T': Tools, W1: World)
    requires Setting(T, W, p, q, T', W1) && Uncovers(T, W, p, q, staging)
    ensures Companion(T, W, T', W1) && p in W1.own && !TextDecides(T', W, W1, p)
  {
    SpyOk(T, W, p, q, T', W1);
    SpyDefs(T, W, p, q, T', W1);
    MarkedCovered(T, W, p, q, T', W1);
    SameTexts(T, W, p, q, T', W1, p);
    SpyOut(T, W, p, q, T', W, p);
    SpyOut(T, W, p, q, T', W1, p);
    MarkedGraph(T, W, p, q, T', W1);
    var d := Def(T, W, p).directOnly;
    var cut := if staging then StagingCut(T, W) else InstallCut(T, W, d);
    var cut1 := if staging then StagingCut(T', W1) else InstallCut(T', W1, d);
    AgreeingClosures(T, T', W, cut, p);
    MarkedMisses(T, W, p, q, T', W1, cut, cut1);
    hide Spy, Marked, WorldOk, ToolsOk, Closure, HashCut, StagingCut, InstallCut, CleanOut, Text, CutoffsCovered, Def;
  }

  /** Descriptions decide what a tree's clean builds give, for all commands and
      against all covered trees, exactly when the tree is covered. */
  lemma CutoffsAreExact(T: Tools, W: World)
    requires ToolsOk(T) && WorldOk(T, W)
    ensures Sound(T, W) <==> CutoffsCovered(T, W)
  {
    hide *;
    if CutoffsCovered(T, W) {
      CoveredIsSound(T, W);
    } else {
      var p := Uncovered(T, W);
      var q, staging := UncoveredBy(T, W, p);
      SourcesOf(T, W);
      var T', W1 := Spy(T, W, p, q), Marked(T, W, p);
      SettingIs(T, W, p, q, T', W1);
      SpyTells(T, W, p, q, staging, T', W1);
      NotSound(T, W, T', W1, p);
    }
  }

  lemma Uncovered(T: Tools, W: World) returns (p: Package)
    requires WorldOk(T, W) && !CutoffsCovered(T, W)
    ensures p in W.own && !Covered(T, W, p)
  {
    hide Covered, WorldOk;
    p :| p in W.own && !Covered(T, W, p);
  }

  lemma SourcesOf(T: Tools, W: World)
    requires WorldOk(T, W)
    ensures W.extraction.Keys == W.own.Keys
  {
  }

  lemma SettingIs(T: Tools, W: World, p: Package, q: Package, T': Tools, W1: World)
    requires ToolsOk(T) && WorldOk(T, W) && p in W.own && W.extraction.Keys == W.own.Keys
    requires T' == Spy(T, W, p, q) && W1 == Marked(T, W, p)
    ensures Setting(T, W, p, q, T', W1)
  {
  }

  lemma NotSound(T: Tools, W: World, T': Tools, W1: World, p: Package)
    requires WorldOk(T, W) && Companion(T, W, T', W1) && p in W.own && p in W1.own && !TextDecides(T', W, W1, p)
    ensures !Sound(T, W)
  {
    hide WorldOk, TextDecides, CutoffsCovered, ToolsOk, Def;
  }
}
