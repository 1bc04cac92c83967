/** Packages and their depends lists. */
module Packages {
  import opened Digraph

  /** The identity of a Package object. */
  type Package = Node

  /** One entry of a package's depends list. */
  datatype PackageDepend = PackageDepend(package: Package, locally: bool)

  type Depends = map<Package, seq<PackageDepend>>

  datatype Option<+T> = None | Some(value: T)

  function DependsOn(depends: Depends, p: Package): seq<PackageDepend> {
    if p in depends then depends[p] else []
  }

  predicate DepsBuilt(depends: Depends, built: set<Package>, p: Package) {
    forall i :: 0 <= i < |DependsOn(depends, p)| ==> DependsOn(depends, p)[i].package in built
  }

  /** Neither built nor building, and every dependency is built. */
  predicate Ready(depends: Depends, built: set<Package>, building: set<Package>, p: Package) {
    p !in built && p !in building && DepsBuilt(depends, built, p)
  }

  ghost predicate LocalEdge(depends: Depends, p: Package, q: Package) {
    exists i :: 0 <= i < |DependsOn(depends, p)| && DependsOn(depends, p)[i] == PackageDepend(q, true)
  }

  ghost predicate LocalPath(depends: Depends, path: seq<Package>) {
    && path != []
    && (|path| > 1 ==> LocalEdge(depends, path[0], path[1]) && LocalPath(depends, path[1..]))
  }

  function PackagesOf(deps: seq<PackageDepend>): (ps: seq<Package>)
    ensures |ps| == |deps| && forall i :: 0 <= i < |deps| ==> ps[i] == deps[i].package
  {
    seq(|deps|, i requires 0 <= i < |deps| => deps[i].package)
  }

  /** The dependency graph: an edge from each package to each dependency. */
  function Targets(depends: Depends): Graph {
    map p | p in depends :: PackagesOf(depends[p])
  }

  /** Every dependency is itself a known package. */
  ghost predicate Complete(depends: Depends) {
    forall p, i :: p in depends && 0 <= i < |depends[p]| ==> depends[p][i].package in depends
  }

  lemma DependIsEdge(depends: Depends, p: Package, i: nat)
    requires p in depends && i < |depends[p]|
    ensures Edge(Targets(depends), p, depends[p][i].package)
  {
    assert PackagesOf(depends[p])[i] == depends[p][i].package;
  }

  lemma EdgeIsDepend(depends: Depends, p: Package, q: Package) returns (i: nat)
    requires Edge(Targets(depends), p, q)
    ensures p in depends && i < |depends[p]| && depends[p][i].package == q
  {
    i :| 0 <= i < |PackagesOf(depends[p])| && PackagesOf(depends[p])[i] == q;
  }
}
