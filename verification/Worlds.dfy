/** The packages of one source tree: what their descriptions say and what a clean
    build of them produces. */
module Worlds {
  import opened Digraph
  import opened Packages
  import opened Closures
  import opened Descriptions

  /** What a package's commands leave behind: the contents of its staging and
      install archives. */
  datatype Output = Output(staging: string, install: string)

  /** What loading a package's Lua file sets up. */
  datatype Definition = Definition(
    depends: seq<PackageDepend>,
    interceptStaging: bool,
    interceptInstall: bool,
    hashOutput: bool,
    installFiles: bool,   // setInstallFile was used
    extractsDeps: bool,   // a directory for the dependencies' install files is set
    directOnly: bool,     // and only for direct dependencies
    clean: bool)          // clean the work directory before building

  /** The functions the build relies on: the file digest, the listing of a new
      directory that .output.info holds, the Lua interpreter on the package file,
      required files and feature values that the description records, and running
      a package's commands. */
  datatype Tools = Tools(
    digest: string -> string,
    listing: Output -> string,
    interpret: (Package, seq<BuildUnit>) -> Definition,
    run: (Package, seq<BuildUnit>, string, map<Package, string>, map<Package, string>) -> Output,
    workDir: Package -> string)

  /** The lines recorded while each package is processed, the text of its
      .extraction.info, and a rank that the dependency graph falls along. */
  datatype World = World(
    own: map<Package, seq<BuildUnit>>,
    extraction: map<Package, string>,
    rank: map<Package, nat>)

  predicate Field(s: string) {
    '\n' !in s && ' ' !in s
  }

  ghost predicate ToolsOk(T: Tools) {
    && (forall x, y :: T.digest(x) == T.digest(y) ==> x == y)
    && (forall x :: T.digest(x) != "" && Field(T.digest(x)))
    && (forall x, y :: T.listing(x) == T.listing(y) ==> x == y)
    && (forall p :: Field(T.workDir(p)))
  }

  function Def(T: Tools, W: World, p: Package): Definition
    requires p in W.own
  {
    T.interpret(p, W.own[p])
  }

  /** Lines that are recorded before any package is built. */
  predicate Recorded(u: BuildUnit) {
    u.FeatureValue? || u.FeatureNil? || u.PackageFile? || u.RequireFile?
  }

  ghost predicate DependsOk(T: Tools, W: World, p: Package)
    requires p in W.own && W.rank.Keys == W.own.Keys
  {
    forall i :: 0 <= i < |Def(T, W, p).depends| ==>
      var q := Def(T, W, p).depends[i].package; q in W.own && W.rank[q] < W.rank[p]
  }

  /** A source tree that the cycle gate lets through, whose recorded fields cannot
      be mistaken for separators. */
  ghost predicate WorldOk(T: Tools, W: World) {
    && W.extraction.Keys == W.own.Keys
    && W.rank.Keys == W.own.Keys
    && (forall p :: p in W.own ==> AllClean(W.own[p]) && forall i :: 0 <= i < |W.own[p]| ==> Recorded(W.own[p][i]))
    && (forall p :: p in W.own ==> DependsOk(T, W, p))
  }

  function DependsMap(T: Tools, W: World): Depends {
    map p | p in W.own :: Def(T, W, p).depends
  }

  function GraphOf(T: Tools, W: World): Graph {
    Targets(DependsMap(T, W))
  }

  function StagingCut(T: Tools, W: World): set<Package> {
    set p | p in W.own && Def(T, W, p).interceptStaging
  }

  function InstallCut(T: Tools, W: World, directOnly: bool): set<Package> {
    set p | p in W.own && (directOnly || Def(T, W, p).interceptInstall)
  }

  lemma WorldIsRanked(T: Tools, W: World)
    requires WorldOk(T, W)
    ensures Ranked(GraphOf(T, W), W.rank)
  {
    var g := GraphOf(T, W);
    forall u, v | Edge(g, u, v)
      ensures v in W.rank && W.rank[v] < W.rank[u]
    {
      var i := EdgeIsDepend(DependsMap(T, W), u, v);
      assert DependsOk(T, W, u);
    }
  }

  lemma WorldIsComplete(T: Tools, W: World)
    requires WorldOk(T, W)
    ensures Complete(DependsMap(T, W)) && DependsMap(T, W).Keys == W.own.Keys
  {
    forall p, i | p in W.own && 0 <= i < |Def(T, W, p).depends|
      ensures Def(T, W, p).depends[i].package in W.own
    {
      assert DependsOk(T, W, p);
    }
  }

  lemma CutReachesRanks(T: Tools, W: World, cut: set<Package>, p: Package, q: Package)
    requires WorldOk(T, W) && CutReaches(GraphOf(T, W), cut, p, q)
    ensures p in W.own && q in W.own && W.rank[q] < W.rank[p]
  {
    var path :| CutPath(GraphOf(T, W), cut, path) && path[0] == p && path[|path| - 1] == q;
    CutPathIsPath(GraphOf(T, W), cut, path);
    WorldIsRanked(T, W);
    RankFallsAlongPath(GraphOf(T, W), W.rank, path);
  }

  /** Everything p reaches without passing through a cut. */
  ghost function Closure(T: Tools, W: World, cut: set<Package>, p: Package): (found: set<Package>)
    requires WorldOk(T, W)
    ensures forall q :: q in found <==> CutReaches(GraphOf(T, W), cut, p, q)
    ensures forall q :: q in found ==> p in W.own && q in W.own && W.rank[q] < W.rank[p]
  {
    assert forall q :: CutReaches(GraphOf(T, W), cut, p, q) ==> p in W.own && q in W.own && W.rank[q] < W.rank[p] by {
      forall q | CutReaches(GraphOf(T, W), cut, p, q) {
        CutReachesRanks(T, W, cut, p, q);
      }
    }
    set q | q in W.own && CutReaches(GraphOf(T, W), cut, p, q)
  }

  /** The archives p's staging directory is filled from. */
  ghost function StagingSet(T: Tools, W: World, p: Package): set<Package>
    requires WorldOk(T, W)
  {
    Closure(T, W, StagingCut(T, W), p)
  }

  /** The archives p's directory of install files, if any, is filled from. */
  ghost function InstallSet(T: Tools, W: World, p: Package): set<Package>
    requires WorldOk(T, W) && p in W.own
  {
    if Def(T, W, p).extractsDeps then Closure(T, W, InstallCut(T, W, Def(T, W, p).directOnly), p) else {}
  }

  /** Packages that others describe by what they produced. */
  function HashCut(T: Tools, W: World): set<Package> {
    set p | p in W.own && Def(T, W, p).hashOutput
  }

  /** Everything p's directories are filled from is reached without passing a
      package that hashes its output. */
  ghost predicate Covered(T: Tools, W: World, p: Package)
    requires WorldOk(T, W) && p in W.own
  {
    && Closure(T, W, StagingCut(T, W), p) == Closure(T, W, StagingCut(T, W) + HashCut(T, W), p)
    && (Def(T, W, p).extractsDeps ==>
          var cut := InstallCut(T, W, Def(T, W, p).directOnly);
          Closure(T, W, cut, p) == Closure(T, W, cut + HashCut(T, W), p))
  }

  ghost predicate CutoffsCovered(T: Tools, W: World)
    requires WorldOk(T, W)
  {
    forall p :: p in W.own ==> Covered(T, W, p)
  }

  /** Packages that hash their output stop both kinds of directory from reaching
      past them, the simple way of being covered. */
  ghost predicate CutoffsIntercept(T: Tools, W: World) {
    forall p :: p in W.own && Def(T, W, p).hashOutput ==>
                  Def(T, W, p).interceptStaging && Def(T, W, p).interceptInstall
  }

  lemma InterceptingCovers(T: Tools, W: World)
    requires WorldOk(T, W) && CutoffsIntercept(T, W)
    ensures CutoffsCovered(T, W)
  {
    forall p | p in W.own
      ensures Covered(T, W, p)
    {
      assert StagingCut(T, W) + HashCut(T, W) == StagingCut(T, W);
      var cut := InstallCut(T, W, Def(T, W, p).directOnly);
      assert cut + HashCut(T, W) == cut;
    }
  }

  // ---------------------------------------------------------------------
  // From scratch

  /** What building p and everything below it from nothing produces for p. */
  ghost function CleanOut(T: Tools, W: World, p: Package): Output
    requires WorldOk(T, W) && p in W.own
    decreases W.rank[p], 1
  {
    T.run(p, W.own[p], W.extraction[p], CleanStaging(T, W, p), CleanInstall(T, W, p))
  }

  /** The archives a clean build of p stages. The guard, like the ones below, keeps
      what the map does not hold from mattering. */
  ghost function CleanStaging(T: Tools, W: World, p: Package): (m: map<Package, string>)
    requires WorldOk(T, W) && p in W.own
    ensures m.Keys == StagingSet(T, W, p)
    decreases W.rank[p], 0
  {
    var from := StagingSet(T, W, p);
    map q | q in from :: if q in from then CleanOut(T, W, q).staging else ""
  }

  /** The archives a clean build of p extracts its dependencies' files from. */
  ghost function CleanInstall(T: Tools, W: World, p: Package): (m: map<Package, string>)
    requires WorldOk(T, W) && p in W.own
    ensures m.Keys == InstallSet(T, W, p)
    decreases W.rank[p], 0
  {
    var from := InstallSet(T, W, p);
    map q | q in from :: if q in from then CleanOut(T, W, q).install else ""
  }

  /** The description of p once its dependencies' hashes are known. */
  ghost function Desc(T: Tools, W: World, p: Package): seq<BuildUnit>
    requires WorldOk(T, W) && p in W.own
    decreases W.rank[p], 1
  {
    W.own[p] + [ExtractionUnit(T, W, p)] + DepUnits(T, W, p)
  }

  ghost function DepUnits(T: Tools, W: World, p: Package): (us: seq<BuildUnit>)
    requires WorldOk(T, W) && p in W.own
    ensures |us| == |Def(T, W, p).depends|
    decreases W.rank[p], 0
  {
    seq(|Def(T, W, p).depends|, i requires 0 <= i < |Def(T, W, p).depends| =>
      assert DependsOk(T, W, p);
      DepUnit(T, W, Def(T, W, p).depends[i].package))
  }

  function ExtractionUnit(T: Tools, W: World, p: Package): BuildUnit
    requires p in W.extraction
  {
    ExtractionInfoFile(T.workDir(p) + "/.extraction.info", T.digest(W.extraction[p]))
  }

  /** How p appears in the descriptions of the packages that depend on it. */
  ghost function DepUnit(T: Tools, W: World, p: Package): BuildUnit
    requires WorldOk(T, W) && p in W.own
    decreases W.rank[p], 3
  {
    if Def(T, W, p).hashOutput then
      OutputInfoFile(T.workDir(p) + "/.output.info", T.digest(T.listing(CleanOut(T, W, p))))
    else
      BuildInfoFile(T.workDir(p) + "/.build.info", T.digest(Text(T, W, p)))
  }

  /** The contents of p's .build.info. */
  ghost function Text(T: Tools, W: World, p: Package): string
    requires WorldOk(T, W) && p in W.own
    decreases W.rank[p], 2
  {
    Print(Desc(T, W, p))
  }

  // ---------------------------------------------------------------------
  // Descriptions determine outputs

  lemma DependIn(T: Tools, W: World, p: Package, i: nat)
    requires WorldOk(T, W) && p in W.own && i < |Def(T, W, p).depends|
    ensures var q := Def(T, W, p).depends[i].package;
            && q in W.own && W.rank[q] < W.rank[p]
            && DepUnits(T, W, p)[i] == DepUnit(T, W, q)
  {
    assert DependsOk(T, W, p);
  }

  lemma PathsAreFields(T: Tools, p: Package)
    requires ToolsOk(T)
    ensures Field(T.workDir(p) + "/.extraction.info")
    ensures Field(T.workDir(p) + "/.build.info")
    ensures Field(T.workDir(p) + "/.output.info")
  {
    assert Field(T.workDir(p));
  }

  lemma DescIsClean(T: Tools, W: World, p: Package)
    requires ToolsOk(T) && WorldOk(T, W) && p in W.own
    ensures AllClean(Desc(T, W, p))
  {
    hide Def, DepUnits, CleanOut, Text;
    var deps := DepUnits(T, W, p);
    forall i | 0 <= i < |deps|
      ensures Clean(deps[i])
    {
      DependIn(T, W, p, i);
      PathsAreFields(T, Def(T, W, p).depends[i].package);
    }
    PathsAreFields(T, p);
    assert AllClean(W.own[p]);
  }
}
