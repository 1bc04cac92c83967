/** Discovery, the cycle gate and the scheduler fit together: what discovery hands
    on is what the scheduler's theorems ask for. */
module Pipeline {
  import opened Digraph
  import opened Packages
  import Worklist
  import WorklistTheorems
  import Scheduler

  /** The depends lists of the packages that were discovered. */
  function DiscoveredDepends(cfg: Worklist.Config, s: Worklist.State): Depends {
    map p | p in WorklistTheorems.PackagesIn(s.workers) :: DependsOn(cfg.depends, p)
  }

  lemma ProcessedMeansDiscovered(cfg: Worklist.Config, s: Worklist.State, p: Package)
    requires Worklist.Reachable(cfg, s) && s.main.Returned? && !s.failed
    ensures p in DiscoveredDepends(cfg, s) <==> WorklistTheorems.Discovered(cfg, p)
  {
    WorklistTheorems.DiscoveryIsExact(cfg, s, p);
    var ps := WorklistTheorems.PackagesIn(s.workers);
    assert p in ps <==> multiset(ps)[p] > 0;
    hide Worklist.Reachable;
  }

  lemma DiscoveredIsComplete(cfg: Worklist.Config, s: Worklist.State)
    requires Worklist.Reachable(cfg, s) && s.main.Returned? && !s.failed
    ensures Complete(DiscoveredDepends(cfg, s))
  {
    var ps := WorklistTheorems.PackagesIn(s.workers);
    forall p, i | p in DiscoveredDepends(cfg, s) && 0 <= i < |DiscoveredDepends(cfg, s)[p]|
      ensures DiscoveredDepends(cfg, s)[p][i].package in ps
    {
      var t :| 0 <= t < |ps| && ps[t] == p;
      WorklistTheorems.DiscoveryIsComplete(cfg, s, t, i);
    }
  }

  /** Paths from a discovered package stay among the discovered ones. */
  lemma {:induction false} PathsStay(cfg: Worklist.Config, s: Worklist.State, path: seq<Package>)
    requires Complete(DiscoveredDepends(cfg, s))
    requires IsPath(Targets(cfg.depends), path) && path[0] in DiscoveredDepends(cfg, s)
    ensures IsPath(Targets(DiscoveredDepends(cfg, s)), path)
  {
    if |path| > 1 {
      var depends := DiscoveredDepends(cfg, s);
      var i := EdgeIsDepend(cfg.depends, path[0], path[1]);
      assert depends[path[0]] == cfg.depends[path[0]];
      DependIsEdge(depends, path[0], i);
      PathsStay(cfg, s, path[1..]);
    }
  }

  /** After a discovery without failures, whose graph topological() could order,
      the scheduler runs over exactly the packages below the base, and over a
      graph that its theorems apply to. */
  lemma DiscoveryFeedsScheduler(cfg: Worklist.Config, s: Worklist.State, build: Scheduler.Config, order: seq<Package>)
      returns (rank: map<Package, nat>)
    requires Worklist.Reachable(cfg, s) && s.main.Returned? && !s.failed
    requires build.depends == DiscoveredDepends(cfg, s) && build.base == cfg.base
    requires Topological(Targets(build.depends), order)
    ensures Scheduler.Gated(build, rank) && Scheduler.Listing(build, order)
    ensures forall p :: p in build.depends <==> WorklistTheorems.Discovered(cfg, p)
  {
    DiscoveredIsComplete(cfg, s);
    rank := TopologicalIsRanked(Targets(build.depends), order);
    forall p
      ensures p in build.depends <==> WorklistTheorems.Discovered(cfg, p)
    {
      ProcessedMeansDiscovered(cfg, s, p);
    }
    forall p | p in build.depends && p != cfg.base
      ensures Reaches(Targets(build.depends), cfg.base, p)
    {
      var path :| |path| >= 2 && PathFromTo(Targets(cfg.depends), path, cfg.base, p);
      PathsStay(cfg, s, path);
    }
    hide Worklist.Reachable, Topological, Reaches;
  }
}
