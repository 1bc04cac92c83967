/** Equal descriptions mean equal clean builds, across source trees.

    A description names its own lines and, by hash, its dependencies'
    descriptions, so equality spreads down the whole tree below a package. */
module Merkle {
  import opened Digraph
  import opened Packages
  import opened Closures
  import opened Descriptions
  import opened Worlds

  ghost predicate Trees(T: Tools, W0: World, W1: World) {
    ToolsOk(T) && WorldOk(T, W0) && WorldOk(T, W1) && CutoffsCovered(T, W0) && CutoffsCovered(T, W1)
  }

  ghost predicate SameText(T: Tools, W0: World, W1: World, p: Package)
    requires Trees(T, W0, W1)
  {
    p in W0.own && p in W1.own && Text(T, W0, p) == Text(T, W1, p)
  }

  ghost predicate SameOut(T: Tools, W0: World, W1: World, p: Package)
    requires Trees(T, W0, W1)
  {
    p in W0.own && p in W1.own && CleanOut(T, W0, p) == CleanOut(T, W1, p)
  }

  function Height(W0: World, W1: World, p: Package): nat {
    (if p in W0.rank then W0.rank[p] else 0) + (if p in W1.rank then W1.rank[p] else 0)
  }

  lemma FirstUnrecorded(a: seq<BuildUnit>, e: BuildUnit, s: seq<BuildUnit>)
    requires forall i :: 0 <= i < |a| ==> Recorded(a[i])
    requires !Recorded(e)
    ensures var whole := a + [e] + s;
            && !Recorded(whole[|a|]) && whole[|a|] == e && whole[..|a|] == a && whole[|a| + 1..] == s
            && forall i :: 0 <= i < |a| ==> Recorded(whole[i])
  {
  }

  /** One level: equal descriptions have equal lines, sources and dependencies. */
  lemma TextDetermines(T: Tools, W0: World, W1: World, p: Package)
    requires Trees(T, W0, W1) && SameText(T, W0, W1, p)
    ensures W0.own[p] == W1.own[p] && W0.extraction[p] == W1.extraction[p]
    ensures Def(T, W0, p) == Def(T, W1, p) && DepUnits(T, W0, p) == DepUnits(T, W1, p)
  {
    hide Covered;
    hide Def, DepUnits;
    DescIsClean(T, W0, p);
    DescIsClean(T, W1, p);
    PrintInjective(Desc(T, W0, p), Desc(T, W1, p));
    FirstUnrecorded(W0.own[p], ExtractionUnit(T, W0, p), DepUnits(T, W0, p));
    FirstUnrecorded(W1.own[p], ExtractionUnit(T, W1, p), DepUnits(T, W1, p));
    DefOfOwn(T, W0, W1, p);
  }

  lemma DefOfOwn(T: Tools, W0: World, W1: World, p: Package)
    requires p in W0.own && p in W1.own
    ensures W0.own[p] == W1.own[p] ==> Def(T, W0, p) == Def(T, W1, p)
  {
  }

  /** The search that fills a directory, and where it stops or passes a package
      that hashes its output. */
  datatype Search = Staging | Install(directOnly: bool)

  function Cut(T: Tools, W: World, search: Search): set<Package> {
    (if search.Staging? then StagingCut(T, W) else InstallCut(T, W, search.directOnly)) + HashCut(T, W)
  }

  lemma PassedPackages(T: Tools, W0: World, W1: World, search: Search, p: Package)
    requires Trees(T, W0, W1) && p in W0.own && p !in Cut(T, W0, search)
    ensures !Def(T, W0, p).hashOutput
    ensures SameText(T, W0, W1, p) ==> p !in Cut(T, W1, search)
  {
    if SameText(T, W0, W1, p) {
      TextDetermines(T, W0, W1, p);
    }
  }

  lemma {:induction false} DependSame(T: Tools, W0: World, W1: World, p: Package, i: nat)
    requires Trees(T, W0, W1) && SameText(T, W0, W1, p) && i < |Def(T, W0, p).depends|
    ensures var q := Def(T, W0, p).depends[i].package;
            && SameOut(T, W0, W1, q)
            && (!Def(T, W0, q).hashOutput ==> SameText(T, W0, W1, q))
    decreases Height(W0, W1, p), 0
  {
    hide Covered;
    TextDetermines(T, W0, W1, p);
    DependIn(T, W0, p, i);
    DependIn(T, W1, p, i);
    var q := Def(T, W0, p).depends[i].package;
    hide Def, CleanOut, Text, WorldOk;
    if !Def(T, W0, q).hashOutput {
      assert T.digest(Text(T, W0, q)) == T.digest(Text(T, W1, q));
      SameTextSameOut(T, W0, W1, q);
    } else {
      assert T.digest(T.listing(CleanOut(T, W0, q))) == T.digest(T.listing(CleanOut(T, W1, q)));
    }
  }

  /** A dependency in one tree is the same dependency in the other, lower down. */
  lemma EdgeSame(T: Tools, W0: World, W1: World, p: Package, q: Package) returns (i: nat)
    requires Trees(T, W0, W1) && SameText(T, W0, W1, p) && Edge(GraphOf(T, W0), p, q)
    ensures i < |Def(T, W0, p).depends| && Def(T, W0, p).depends[i].package == q
    ensures Edge(GraphOf(T, W1), p, q)
    ensures q in W0.own && q in W1.own && Height(W0, W1, q) < Height(W0, W1, p)
  {
    i := EdgeIsDepend(DependsMap(T, W0), p, q);
    TextDetermines(T, W0, W1, p);
    DependIsEdge(DependsMap(T, W1), p, i);
    DependIn(T, W0, p, i);
    DependIn(T, W1, p, i);
  }

  /** A search path of one tree is one of the other, to the same archive. */
  lemma {:induction false} PathSame(T: Tools, W0: World, W1: World, search: Search, path: seq<Package>)
    requires Trees(T, W0, W1) && CutPath(GraphOf(T, W0), Cut(T, W0, search), path) && SameText(T, W0, W1, path[0])
    ensures CutPath(GraphOf(T, W1), Cut(T, W1, search), path)
    ensures SameOut(T, W0, W1, path[|path| - 1])
    decreases Height(W0, W1, path[0]), 1
  {
    hide Text, CleanOut, GraphOf, Def, Trees, Cut;
    var i := EdgeSame(T, W0, W1, path[0], path[1]);
    DependSame(T, W0, W1, path[0], i);
    if |path| > 2 {
      PassedPackages(T, W0, W1, search, path[1]);
      PathSame(T, W0, W1, search, path[1..]);
    }
  }

  lemma {:induction false} ClosureSame(T: Tools, W0: World, W1: World, search: Search, p: Package)
    requires Trees(T, W0, W1) && SameText(T, W0, W1, p)
    ensures Closure(T, W0, Cut(T, W0, search), p) == Closure(T, W1, Cut(T, W1, search), p)
    ensures forall q :: q in Closure(T, W0, Cut(T, W0, search), p) ==> SameOut(T, W0, W1, q)
    decreases Height(W0, W1, p), 2
  {
    hide Covered;
    var c0, c1 := Cut(T, W0, search), Cut(T, W1, search);
    forall q | q in Closure(T, W0, c0, p)
      ensures q in Closure(T, W1, c1, p) && SameOut(T, W0, W1, q)
    {
      var path :| CutPath(GraphOf(T, W0), c0, path) && path[0] == p && path[|path| - 1] == q;
      PathSame(T, W0, W1, search, path);
      assert CutReaches(GraphOf(T, W1), c1, p, q);
    }
    forall q | q in Closure(T, W1, c1, p)
      ensures q in Closure(T, W0, c0, p)
    {
      var path :| CutPath(GraphOf(T, W1), c1, path) && path[0] == p && path[|path| - 1] == q;
      PathSame(T, W1, W0, search, path);
      assert CutReaches(GraphOf(T, W0), c0, p, q);
    }
  }

  lemma ArchivesSame(T: Tools, W0: World, W1: World, p: Package)
    requires Trees(T, W0, W1) && p in W0.own && p in W1.own
    requires StagingSet(T, W0, p) == StagingSet(T, W1, p)
    requires forall q :: q in StagingSet(T, W0, p) ==> SameOut(T, W0, W1, q)
    requires InstallSet(T, W0, p) == InstallSet(T, W1, p)
    requires forall q :: q in InstallSet(T, W0, p) ==> SameOut(T, W0, W1, q)
    ensures CleanStaging(T, W0, p) == CleanStaging(T, W1, p)
    ensures CleanInstall(T, W0, p) == CleanInstall(T, W1, p)
  {
    hide Covered;
    hide StagingSet, InstallSet, CleanOut;
  }

  lemma CoveredSets(T: Tools, W: World, p: Package)
    requires WorldOk(T, W) && CutoffsCovered(T, W) && p in W.own
    ensures StagingSet(T, W, p) == Closure(T, W, Cut(T, W, Staging), p)
    ensures InstallSet(T, W, p) == if Def(T, W, p).extractsDeps then
                                     Closure(T, W, Cut(T, W, Install(Def(T, W, p).directOnly)), p)
                                   else {}
  {
    assert Covered(T, W, p);
    hide WorldOk, Closure, StagingCut, InstallCut, HashCut;
  }

  /** Equal build-info texts, equal clean builds. */
  lemma {:induction false} SameTextSameOut(T: Tools, W0: World, W1: World, p: Package)
    requires Trees(T, W0, W1) && SameText(T, W0, W1, p)
    ensures SameOut(T, W0, W1, p)
    decreases Height(W0, W1, p), 3
  {
    hide Closure, Text, CleanStaging, CleanInstall, Cut, StagingSet, InstallSet;
    TextDetermines(T, W0, W1, p);
    CoveredSets(T, W0, p);
    CoveredSets(T, W1, p);
    ClosureSame(T, W0, W1, Staging, p);
    ClosureSame(T, W0, W1, Install(Def(T, W0, p).directOnly), p);
    ArchivesSame(T, W0, W1, p);
  }

  /** Equal build-info hashes, equal clean builds and equal recorded lines and
      sources for every package that the hashes commit to. */
  lemma EqualHashesEqualBuilds(T: Tools, W0: World, W1: World, p: Package)
    requires Trees(T, W0, W1) && p in W0.own && p in W1.own
    requires T.digest(Text(T, W0, p)) == T.digest(Text(T, W1, p))
    ensures CleanOut(T, W0, p) == CleanOut(T, W1, p)
    ensures W0.own[p] == W1.own[p] && W0.extraction[p] == W1.extraction[p]
  {
    SameTextSameOut(T, W0, W1, p);
    TextDetermines(T, W0, W1, p);
  }

  /** Every package after the first is hashed by its description. */
  ghost predicate DescribedBelow(T: Tools, W: World, path: seq<Package>) {
    |path| > 1 ==> path[1] in W.own && !Def(T, W, path[1]).hashOutput && DescribedBelow(T, W, path[1..])
  }

  /** The same holds all the way down the dependency tree, as far as packages are
      hashed by their descriptions. */
  lemma {:induction false} EqualHashesEqualTrees(T: Tools, W0: World, W1: World, path: seq<Package>)
    requires Trees(T, W0, W1) && IsPath(GraphOf(T, W0), path) && SameText(T, W0, W1, path[0])
    requires DescribedBelow(T, W0, path)
    ensures var q := path[|path| - 1];
            && SameText(T, W0, W1, q)
            && W0.own[q] == W1.own[q] && W0.extraction[q] == W1.extraction[q]
            && CleanOut(T, W0, q) == CleanOut(T, W1, q)
  {
    hide Text, CleanOut, GraphOf, Def, Trees;
    if |path| == 1 {
      SameTextSameOut(T, W0, W1, path[0]);
      TextDetermines(T, W0, W1, path[0]);
    } else {
      var i := EdgeSame(T, W0, W1, path[0], path[1]);
      DependSame(T, W0, W1, path[0], i);
      EqualHashesEqualTrees(T, W0, W1, path[1..]);
    }
  }

  // ---------------------------------------------------------------------
  // Output hashes that nothing intercepts

  const LEAF := Definition([], false, false, false, false, false, false, false)

  /** Package 0 depends on 1, which hashes its output and depends on 2. */
  function LeakDefinition(p: Package): Definition {
    if p == 0 then LEAF.(depends := [PackageDepend(1, false)])
    else if p == 1 then LEAF.(depends := [PackageDepend(2, false)], hashOutput := true)
    else LEAF
  }

  /** Package 2 installs its sources, 1 nothing, and 0 what it finds of 2. */
  function LeakRun(p: Package, sources: string, staged: map<Package, string>): Output {
    if p == 0 then Output(if 2 in staged then staged[2] else "", "")
    else if p == 1 then Output("", "")
    else Output(sources, "")
  }

  function LeakTools(T: Tools): Tools {
    T.(interpret := (p, own) => LeakDefinition(p),
       run := (p, own, sources, staged, installed) => LeakRun(p, sources, staged))
  }

  function LeakWorld(sources: string): World {
    World(map[0 := [], 1 := [], 2 := []], map[0 := "", 1 := "", 2 := sources], map[0 := 2, 1 := 1, 2 := 0])
  }

  lemma LeakToolsOk(T: Tools)
    requires ToolsOk(T)
    ensures ToolsOk(LeakTools(T))
  {
  }

  lemma LeakWorldOk(T: Tools, sources: string)
    ensures WorldOk(LeakTools(T), LeakWorld(sources))
  {
    var T', W := LeakTools(T), LeakWorld(sources);
    assert W.own.Keys == {0, 1, 2};
    forall p | p in W.own
      ensures DependsOk(T', W, p)
    {
      assert Def(T', W, p) == LeakDefinition(p);
    }
  }

  lemma LeakReaches(T: Tools, sources: string)
    ensures var T', W := LeakTools(T), LeakWorld(sources);
            CutReaches(GraphOf(T', W), StagingCut(T', W), 0, 2)
  {
    var T', W := LeakTools(T), LeakWorld(sources);
    DependIsEdge(DependsMap(T', W), 0, 0);
    DependIsEdge(DependsMap(T', W), 1, 0);
    var path := [0, 1, 2];
    assert path[1..] == [1, 2];
    assert CutPath(GraphOf(T', W), StagingCut(T', W), path[1..]);
    assert CutPath(GraphOf(T', W), StagingCut(T', W), path);
  }

  lemma LeakedOut(T: Tools, sources: string)
    ensures var T', W := LeakTools(T), LeakWorld(sources);
            && WorldOk(T', W)
            && CleanOut(T', W, 1) == Output("", "")
            && CleanOut(T', W, 0) == Output(sources, "")
  {
    LeakWorldOk(T, sources);
    LeakReaches(T, sources);
    hide Closure, InstallSet, GraphOf, StagingCut, WorldOk;
    var T', W := LeakTools(T), LeakWorld(sources);
    assert CleanOut(T', W, 2) == LeakRun(2, sources, CleanStaging(T', W, 2));
    assert CleanOut(T', W, 1) == LeakRun(1, "", CleanStaging(T', W, 1));
    assert CleanOut(T', W, 0) == LeakRun(0, "", CleanStaging(T', W, 0));
    assert 2 in CleanStaging(T', W, 0).Keys;
  }

  lemma LeakTexts(T: Tools, W0: World, W1: World)
    requires WorldOk(T, W0) && WorldOk(T, W1) && 0 in W0.own && 0 in W1.own && 1 in W0.own && 1 in W1.own
    requires W0.own[0] == W1.own[0] && W0.extraction[0] == W1.extraction[0] && Def(T, W0, 0) == Def(T, W1, 0)
    requires |Def(T, W0, 0).depends| == 1 && Def(T, W0, 0).depends[0].package == 1
    requires Def(T, W0, 1).hashOutput && Def(T, W1, 1).hashOutput
    requires CleanOut(T, W0, 1) == CleanOut(T, W1, 1)
    ensures Text(T, W0, 0) == Text(T, W1, 0)
  {
    hide WorldOk, CleanOut, Print, Lines, Join, DepUnits;
    DependIn(T, W0, 0, 0);
    DependIn(T, W1, 0, 0);
    assert DepUnits(T, W0, 0) == DepUnits(T, W1, 0);
    assert Desc(T, W0, 0) == Desc(T, W1, 0);
  }

  /** Without interception a description says too little: here the sources of
      package 2 change, the description of 0 does not, and its clean build does. */
  lemma UninterceptedCutoffLeaks(T: Tools)
    requires ToolsOk(T)
    ensures var T', W0, W1 := LeakTools(T), LeakWorld("a"), LeakWorld("b");
            && ToolsOk(T') && WorldOk(T', W0) && WorldOk(T', W1)
            && Text(T', W0, 0) == Text(T', W1, 0)
            && CleanOut(T', W0, 0) != CleanOut(T', W1, 0)
  {
    var T', W0, W1 := LeakTools(T), LeakWorld("a"), LeakWorld("b");
    LeakToolsOk(T);
    LeakedOut(T, "a");
    LeakedOut(T, "b");
    hide WorldOk, CleanOut, Text, ToolsOk;
    LeakTexts(T', W0, W1);
  }
}
