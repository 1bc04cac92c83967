/** The dependency closures that a package's staging and install directories are
    filled from: pruned recursive searches over a shared set, and the
    reachability they compute. */
module Closures {
  import opened Digraph
  import opened Packages

  /** A path of at least one edge with no package of cut strictly inside it. */
  ghost predicate CutPath(g: Graph, cut: set<Package>, path: seq<Package>) {
    && |path| >= 2
    && Edge(g, path[0], path[1])
    && (|path| > 2 ==> path[1] !in cut && CutPath(g, cut, path[1..]))
  }

  ghost predicate CutReaches(g: Graph, cut: set<Package>, p: Package, q: Package) {
    exists path :: CutPath(g, cut, path) && path[0] == p && path[|path| - 1] == q
  }

  lemma {:induction false} CutPathIsPath(g: Graph, cut: set<Package>, path: seq<Package>)
    requires CutPath(g, cut, path)
    ensures IsPath(g, path)
  {
    if |path| > 2 {
      CutPathIsPath(g, cut, path[1..]);
    }
  }

  lemma EdgeCutReaches(g: Graph, cut: set<Package>, p: Package, q: Package)
    requires Edge(g, p, q)
    ensures CutReaches(g, cut, p, q)
  {
    assert CutPath(g, cut, [p, q]);
  }

  /** A search may step from p to a dependency it does not cut at and go on. */
  lemma CutReachesVia(g: Graph, cut: set<Package>, p: Package, d: Package, q: Package)
    requires Edge(g, p, d) && d !in cut && CutReaches(g, cut, d, q)
    ensures CutReaches(g, cut, p, q)
  {
    var rest :| CutPath(g, cut, rest) && rest[0] == d && rest[|rest| - 1] == q;
    var path := [p] + rest;
    assert path[1..] == rest;
    assert CutPath(g, cut, path);
  }

  /** The set that the recursive calls of one search share. */
  class PackageSet {
    var packages: set<Package>

    constructor ()
      ensures packages == {}
    {
      packages := {};
    }
  }

  /** Everything the search added since before is expanded: its dependencies are
      in the set too, unless it is a cut. */
  ghost predicate Expanded(g: Graph, cut: set<Package>, before: set<Package>, now: set<Package>) {
    forall q, r :: q in now && q !in before && q !in cut && Edge(g, q, r) ==> r in now
  }

  ghost predicate DepsIn(g: Graph, p: Package, now: set<Package>) {
    forall q :: Edge(g, p, q) ==> q in now
  }

  /** A search from p that started from the empty set found exactly what p
      reaches without passing through a cut. */
  lemma {:induction false} ExpandedIsComplete(g: Graph, cut: set<Package>, found: set<Package>, path: seq<Package>)
    requires CutPath(g, cut, path) && DepsIn(g, path[0], found) && Expanded(g, cut, {}, found)
    ensures path[|path| - 1] in found
  {
    if |path| > 2 {
      assert DepsIn(g, path[1], found);
      ExpandedIsComplete(g, cut, found, path[1..]);
    }
  }

  lemma SearchIsReachability(g: Graph, cut: set<Package>, p: Package, found: set<Package>)
    requires DepsIn(g, p, found) && Expanded(g, cut, {}, found)
    requires forall q :: q in found ==> CutReaches(g, cut, p, q)
    ensures forall q :: q in found <==> CutReaches(g, cut, p, q)
  {
    forall q | CutReaches(g, cut, p, q)
      ensures q in found
    {
      var path :| CutPath(g, cut, path) && path[0] == p && path[|path| - 1] == q;
      ExpandedIsComplete(g, cut, found, path);
    }
  }

  /** What every call of a search does to the shared set: it only adds, adds only
      what p reaches, and leaves p's dependencies and everything new expanded. */
  ghost predicate Searched(g: Graph, cut: set<Package>, p: Package, before: set<Package>, now: set<Package>) {
    && before <= now
    && DepsIn(g, p, now)
    && Expanded(g, cut, before, now)
    && forall q :: q in now && q !in before ==> CutReaches(g, cut, p, q)
  }

  class DependencyGraph {
    const depends: Depends
    const interceptStaging: set<Package>
    const interceptInstall: set<Package>

    constructor (depends: Depends, interceptStaging: set<Package>, interceptInstall: set<Package>)
      ensures this.depends == depends
      ensures this.interceptStaging == interceptStaging && this.interceptInstall == interceptInstall
    {
      this.depends, this.interceptStaging, this.interceptInstall := depends, interceptStaging, interceptInstall;
    }

    /** Package::getStagingPackages. */
    method GetStagingPackages(p: Package, packages: PackageSet)
      requires Complete(depends) && p in depends
      modifies packages
      ensures Searched(Targets(depends), interceptStaging, p, old(packages.packages), packages.packages)
      decreases depends.Keys - packages.packages
    {
      ghost var g, cut, before := Targets(depends), interceptStaging, packages.packages;
      var i := 0;
      while i < |depends[p]|
        invariant 0 <= i <= |depends[p]|
        invariant PartlySearched(g, cut, p, PackagesOf(depends[p][..i]), before, packages.packages)
      {
        var dp := depends[p][i].package;
        DependIsEdge(depends, p, i);
        ghost var start := packages.packages;
        if dp !in packages.packages {
          packages.packages := packages.packages + {dp};
          if dp !in interceptStaging {
            GetStagingPackages(dp, packages);
          }
        }
        NextDepend(g, cut, p, PackagesOf(depends[p][..i]), dp, before, start, packages.packages);
        i := i + 1;
        assert PackagesOf(depends[p][..i]) == PackagesOf(depends[p][..i - 1]) + [dp];
      }
      assert PackagesOf(depends[p][..i]) == PackagesOf(depends[p]);
    }

    /** The packages at which getDependedPackages stops. */
    function InstallCut(includeChildren: bool, ignoreIntercept: bool): set<Package> {
      if !includeChildren then depends.Keys
      else if ignoreIntercept then {}
      else interceptInstall
    }

    /** Package::getDependedPackages. */
    method GetDependedPackages(p: Package, packages: PackageSet, includeChildren: bool, ignoreIntercept: bool)
      requires Complete(depends) && p in depends
      modifies packages
      ensures !includeChildren ==>
                Searched(Targets(depends), depends.Keys, p, old(packages.packages), packages.packages)
      ensures includeChildren && ignoreIntercept ==>
                Searched(Targets(depends), {}, p, old(packages.packages), packages.packages)
      ensures includeChildren && !ignoreIntercept ==>
                Searched(Targets(depends), interceptInstall, p, old(packages.packages), packages.packages)
      decreases depends.Keys - packages.packages
    {
      ghost var g, cut, before := Targets(depends), InstallCut(includeChildren, ignoreIntercept), packages.packages;
      var i := 0;
      while i < |depends[p]|
        invariant 0 <= i <= |depends[p]|
        invariant PartlySearched(g, cut, p, PackagesOf(depends[p][..i]), before, packages.packages)
      {
        var dp := depends[p][i].package;
        DependIsEdge(depends, p, i);
        ghost var start := packages.packages;
        if dp !in packages.packages {
          packages.packages := packages.packages + {dp};
          if includeChildren && (ignoreIntercept || dp !in interceptInstall) {
            GetDependedPackages(dp, packages, includeChildren, ignoreIntercept);
          }
        }
        NextDepend(g, cut, p, PackagesOf(depends[p][..i]), dp, before, start, packages.packages);
        i := i + 1;
        assert PackagesOf(depends[p][..i]) == PackagesOf(depends[p][..i - 1]) + [dp];
      }
      assert PackagesOf(depends[p][..i]) == PackagesOf(depends[p]);
    }

    /** The set that prepareBuildDirs fills the staging directory from. */
    method StagingPackages(p: Package) returns (found: set<Package>)
      requires Complete(depends) && p in depends
      ensures forall q :: q in found <==> CutReaches(Targets(depends), interceptStaging, p, q)
    {
      var packages := new PackageSet();
      GetStagingPackages(p, packages);
      found := packages.packages;
      SearchIsReachability(Targets(depends), interceptStaging, p, found);
    }

    /** The set that extractInstallDepends fills its directory from. */
    method InstallPackages(p: Package, directOnly: bool) returns (found: set<Package>)
      requires Complete(depends) && p in depends
      ensures directOnly ==> forall q :: q in found <==> Edge(Targets(depends), p, q)
      ensures !directOnly ==> forall q :: q in found <==> CutReaches(Targets(depends), interceptInstall, p, q)
    {
      var packages := new PackageSet();
      GetDependedPackages(p, packages, !directOnly, false);
      found := packages.packages;
      SearchIsReachability(Targets(depends), InstallCut(!directOnly, false), p, found);
      if directOnly {
        FoundIsDirect(depends, p, found);
      }
      hide *;
    }
  }

  /** A search from p that has dealt with the first of p's dependencies. */
  ghost predicate PartlySearched(g: Graph, cut: set<Package>, p: Package, first: seq<Package>,
                                 before: set<Package>, now: set<Package>) {
    && before <= now
    && (forall q :: q in first ==> q in now)
    && Expanded(g, cut, before, now)
    && forall q :: q in now && q !in before ==> CutReaches(g, cut, p, q)
  }

  /** Dealing with one more dependency d, which was in the set, or is a cut, or
      has been searched. */
  lemma NextDepend(g: Graph, cut: set<Package>, p: Package, first: seq<Package>, d: Package,
                   before: set<Package>, start: set<Package>, now: set<Package>)
    requires Edge(g, p, d) && PartlySearched(g, cut, p, first, before, start)
    requires (d in start && now == start)
          || (d !in start && d in cut && now == start + {d})
          || (d !in start && d !in cut && Searched(g, cut, d, start + {d}, now))
    ensures PartlySearched(g, cut, p, first + [d], before, now)
  {
    EdgeCutReaches(g, cut, p, d);
    forall q | q in now && q !in before
      ensures CutReaches(g, cut, p, q)
    {
      if q !in start && q != d {
        CutReachesVia(g, cut, p, d, q);
      }
    }
  }

  /** Cutting at every package leaves the direct dependencies. */
  lemma CutEverywhereIsDirect(g: Graph, p: Package, q: Package)
    requires Closed(g)
    ensures CutReaches(g, g.Keys, p, q) <==> Edge(g, p, q)
  {
    if CutReaches(g, g.Keys, p, q) {
      var path :| CutPath(g, g.Keys, path) && path[0] == p && path[|path| - 1] == q;
      assert path[1] in g;
    }
    if Edge(g, p, q) {
      EdgeCutReaches(g, g.Keys, p, q);
    }
  }

  lemma FoundIsDirect(depends: Depends, p: Package, found: set<Package>)
    requires Complete(depends)
    requires forall q :: q in found <==> CutReaches(Targets(depends), depends.Keys, p, q)
    ensures forall q :: q in found <==> Edge(Targets(depends), p, q)
  {
    var g := Targets(depends);
    assert Closed(g) && g.Keys == depends.Keys;
    hide *;
    forall q
      ensures q in found <==> Edge(g, p, q)
    {
      CutEverywhereIsDirect(g, p, q);
    }
  }

  /** Cutting nowhere leaves all dependencies, direct or not. */
  lemma CutNowhereIsReaches(g: Graph, p: Package, q: Package)
    ensures CutReaches(g, {}, p, q) <==> Reaches(g, p, q)
  {
    if CutReaches(g, {}, p, q) {
      var path :| CutPath(g, {}, path) && path[0] == p && path[|path| - 1] == q;
      CutPathIsPath(g, {}, path);
      assert PathFromTo(g, path, p, q);
    }
    if Reaches(g, p, q) {
      var path :| |path| >= 2 && PathFromTo(g, path, p, q);
      PathIsUncut(g, path);
    }
  }

  lemma {:induction false} PathIsUncut(g: Graph, path: seq<Package>)
    requires IsPath(g, path) && |path| >= 2
    ensures CutPath(g, {}, path)
  {
    if |path| > 2 {
      PathIsUncut(g, path[1..]);
    }
  }
}
