/** What holds of the scheduler in every state that any schedule reaches. */
module SchedulerTheorems {
  import opened Digraph
  import opened Packages
  import opened Scheduler
  import opened SchedulerInvariant
  import opened SchedulerSteps

  lemma ReachableInv(cfg: Config, rank: map<Package, nat>, s: State)
    requires Gated(cfg, rank) && Reachable(cfg, s)
    ensures Inv(cfg, s)
  {
    var order, actions :| After(cfg, order, actions) == Some(s);
    InvAlways(cfg, rank, order, actions);
  }

  // ---------------------------------------------------------------------
  // Safety

  /** built and was_built only grow, whoever moves. */
  lemma FlagsOnlyGrow(cfg: Config, rank: map<Package, nat>, s: State, a: Action)
    requires Gated(cfg, rank) && Reachable(cfg, s) && May(cfg, s, a)
    ensures Grown(s.shared, Then(cfg, s, a).shared)
  {
    hide Inv, Gated, MainOk, Reachable;
    ReachableInv(cfg, rank, s);
    if a.Work? {
      WorkerAt(cfg, s, a.t);
      StepIsLocal(cfg, a.t, s.shared, s.phases[a.t].stack, a.o);
    }
  }

  lemma WorkerAt(cfg: Config, s: State, t: nat)
    requires Inv(cfg, s) && t < |s.phases|
    ensures t < |s.workers| && WorkerOk(cfg, t, s.workers[t], s.shared, s.phases[t])
  {
  }

  /** A built package has only built packages below it. */
  lemma BuiltIsDownwardClosed(cfg: Config, rank: map<Package, nat>, s: State, p: Package, q: Package)
    requires Gated(cfg, rank) && Reachable(cfg, s)
    requires p in s.shared.built && Reaches(Targets(cfg.depends), p, q)
    ensures q in s.shared.built
  {
    ReachableInv(cfg, rank, s);
    var path :| |path| >= 2 && PathFromTo(Targets(cfg.depends), path, p, q);
    BuiltAlongPath(cfg, s.shared, path);
  }

  /** A worker is only ever started for a package that is not being built and
      whose dependencies are all built; the isBuilding re-check never fires. */
  lemma WorkersStartReady(cfg: Config, rank: map<Package, nat>, s: State)
    requires Gated(cfg, rank) && Reachable(cfg, s) && s.main.Picked?
    ensures var p := s.main.package;
            && p in cfg.depends && DepsBuilt(cfg.depends, s.shared.built, p) && p !in s.shared.building
            && Then(cfg, s, MainStep).workers == s.workers + [p]
  {
    hide Gated, Core;
    ReachableInv(cfg, rank, s);
  }

  /** "Some worker failed" and "the base package is built" never hold together. */
  lemma FailureAndSuccessExclude(cfg: Config, rank: map<Package, nat>, s: State)
    requires Gated(cfg, rank) && Reachable(cfg, s)
    ensures !(s.failed && cfg.base in s.shared.built)
    ensures !(cfg.base in s.shared.built && exists p :: LostWorker(s, p))
  {
    ReachableInv(cfg, rank, s);
    if s.failed {
      FailureExcludesBase(cfg, rank, s);
    }
  }

  /** basePackage returns true exactly when it has built every package, and
      false exactly when a worker failed. */
  lemma BasePackageResult(cfg: Config, rank: map<Package, nat>, s: State)
    requires Gated(cfg, rank) && Reachable(cfg, s) && s.main.Returned?
    ensures s.main.result <==> forall p :: p in cfg.depends ==> p in s.shared.built
    ensures s.main.result <==> !s.failed
  {
    hide Core;
    ReachableInv(cfg, rank, s);
    if s.failed {
      FailureExcludesBase(cfg, rank, s);
    }
    if cfg.base in s.shared.built {
      ClosedFlagsOf(cfg, s);
      forall p | p in cfg.depends
        ensures p in s.shared.built
      {
        BaseBuiltMeansAllBuilt(cfg, rank, s.shared, p);
      }
    }
  }

  lemma ClosedFlagsOf(cfg: Config, s: State)
    requires Inv(cfg, s)
    ensures ClosedFlags(cfg, s.shared)
  {
  }

  /** After a failure, keep-going only returns once every worker has ended. */
  lemma KeepGoingWaits(cfg: Config, rank: map<Package, nat>, s: State)
    requires Gated(cfg, rank) && Reachable(cfg, s) && cfg.keepGoing && s.main == Returned(false)
    ensures s.running == 0 && forall t :: 0 <= t < |s.phases| ==> s.phases[t].Ended?
  {
    ReachableInv(cfg, rank, s);
    forall t | 0 <= t < |s.phases|
      ensures s.phases[t].Ended?
    {
      assert t !in Live(s.phases);
    }
  }

  /** threads_running is the number of workers that have not called threadEnded,
      and respects a positive limit. */
  lemma ThreadAccounting(cfg: Config, rank: map<Package, nat>, s: State)
    requires Gated(cfg, rank) && Reachable(cfg, s)
    ensures s.running == |Live(s.phases)|
    ensures cfg.limit > 0 ==> s.running <= cfg.limit
  {
    ReachableInv(cfg, rank, s);
  }

  // ---------------------------------------------------------------------
  // At most once

  /** A package's build completes at most once in a run, and its commands run to
      the end once more than the builds that failed after them, at most. */
  lemma AtMostOnce(cfg: Config, rank: map<Package, nat>, s: State, p: Package)
    requires Gated(cfg, rank) && Reachable(cfg, s)
    ensures s.shared.cleared[p] <= 1
    ensures s.shared.executed[p] <= s.shared.aborted[p] + 1
  {
    hide Gated, MainOk;
    ReachableInv(cfg, rank, s);
    if p in s.shared.locks {
      var t := s.shared.locks[p];
      assert LockedIn(s.phases[t], p);
      HeldIsBalanced(cfg, t, s.workers[t], s.shared, s.phases[t].stack, p);
    }
  }

  lemma {:induction false} HeldIsBalanced(cfg: Config, t: nat, w: Package, sh: Shared, f: Stack, p: Package)
    requires StackOk(cfg, t, w, sh, f) && HasLocked(f, p)
    requires forall q :: sh.cleared[q] <= 1
    ensures sh.executed[p] <= sh.aborted[p] + 1
  {
    if !(f.package == p && f.pc != Lock) {
      HeldIsBalanced(cfg, t, w, sh, f.caller, p);
    }
  }

  /** How many calls on the stack are past acquiring p's mutex. */
  function Inside(f: Stack, p: Package): nat {
    if f.Bottom? then 0
    else (if f.package == p && f.pc != Lock then 1 else 0) + Inside(f.caller, p)
  }

  lemma {:induction false} InsideOnce(cfg: Config, t: nat, w: Package, sh: Shared, f: Stack, p: Package)
    requires StackOk(cfg, t, w, sh, f)
    ensures Inside(f, p) <= 1 && (Inside(f, p) > 0 <==> HasLocked(f, p))
  {
    if f.caller.Frame? {
      InsideOnce(cfg, t, w, sh, f.caller, p);
    }
  }

  /** Two calls are never inside the same package's build at once, on one
      thread or on two. */
  lemma BuildsNeverOverlap(cfg: Config, rank: map<Package, nat>, s: State, t: nat, u: nat, p: Package)
    requires Gated(cfg, rank) && Reachable(cfg, s)
    requires t < |s.phases| && s.phases[t].Building? && u < |s.phases| && s.phases[u].Building?
    ensures Inside(s.phases[t].stack, p) <= 1
    ensures t != u ==> Inside(s.phases[t].stack, p) == 0 || Inside(s.phases[u].stack, p) == 0
  {
    hide Gated, MainOk;
    ReachableInv(cfg, rank, s);
    WorkerAt(cfg, s, t);
    WorkerAt(cfg, s, u);
    InsideOnce(cfg, t, s.workers[t], s.shared, s.phases[t].stack, p);
    InsideOnce(cfg, u, s.workers[u], s.shared, s.phases[u].stack, p);
    if HasLocked(s.phases[t].stack, p) && HasLocked(s.phases[u].stack, p) {
      HeldByOwner(cfg, t, s.workers[t], s.shared, s.phases[t].stack, p);
      HeldByOwner(cfg, u, s.workers[u], s.shared, s.phases[u].stack, p);
    }
  }

  lemma {:induction false} AtMostTwiceEach(m: multiset<Package>, ps: set<Package>)
    requires forall p :: p in m ==> p in ps && m[p] <= 2
    ensures |m| <= 2 * |ps|
    decreases |ps|
  {
    if forall p :: p !in m {
      assert m == multiset{};
    } else {
      var p :| p in m;
      AtMostTwiceEach(m[p := 0], ps - {p});
      assert m == m[p := 0] + multiset{}[p := m[p]];
      assert |ps - {p}| == |ps| - 1;
    }
  }

  /** At most two workers are started per package, over the whole run: a second
      one only after the package's own build has cleared `building`. */
  lemma WorkerStartsAreBounded(cfg: Config, rank: map<Package, nat>, s: State)
    requires Gated(cfg, rank) && Reachable(cfg, s)
    ensures |s.workers| <= 2 * |cfg.depends|
    ensures forall p :: multiset(s.workers)[p] <= 1 + s.shared.cleared[p] <= 2
  {
    hide Gated, MainOk;
    ReachableInv(cfg, rank, s);
    forall p | p in multiset(s.workers)
      ensures p in cfg.depends.Keys
    {
      var t :| 0 <= t < |s.workers| && s.workers[t] == p;
      WorkerAt(cfg, s, t);
    }
    AtMostTwiceEach(multiset(s.workers), cfg.depends.Keys);
    assert |cfg.depends.Keys| == |cfg.depends|;
  }

  // ---------------------------------------------------------------------
  // Local builds

  /** If a package was built in this run, so was everything it depends on through
      local dependencies, up to packages suppressed by forced mode. */
  lemma LocalBuildClosure(cfg: Config, rank: map<Package, nat>, s: State, path: seq<Package>)
    requires Gated(cfg, rank) && Reachable(cfg, s)
    requires LocalPath(cfg.depends, path) && path[0] in s.shared.wasBuilt
    requires forall p :: p in path ==> p !in cfg.suppressed
    ensures path[|path| - 1] in s.shared.wasBuilt
  {
    ReachableInv(cfg, rank, s);
    ClosedFlagsOf(cfg, s);
    WasBuiltAlongPath(cfg, s.shared, path);
  }

  lemma {:induction false} WasBuiltAlongPath(cfg: Config, sh: Shared, path: seq<Package>)
    requires ClosedFlags(cfg, sh) && LocalPath(cfg.depends, path) && path[0] in sh.wasBuilt
    requires forall p :: p in path ==> p !in cfg.suppressed
    ensures path[|path| - 1] in sh.wasBuilt
  {
    if |path| > 1 {
      var deps := DependsOn(cfg.depends, path[0]);
      var i :| 0 <= i < |deps| && deps[i] == PackageDepend(path[1], true);
      assert path[1] in path;
      WasBuiltAlongPath(cfg, sh, path[1..]);
    }
  }

  // ---------------------------------------------------------------------
  // Package mutexes never deadlock

  /** The packages on a stack, outermost call first. */
  function StackPath(f: Stack): seq<Package> {
    if f.Bottom? then [] else StackPath(f.caller) + [f.package]
  }

  /** The mutexes a thread holds or waits for lie on one dependency path. */
  lemma {:induction false} LocksFollowDependencies(cfg: Config, t: nat, w: Package, sh: Shared, f: Stack)
    requires StackOk(cfg, t, w, sh, f)
    ensures PathFromTo(Targets(cfg.depends), StackPath(f), w, f.package)
    ensures forall p :: HasLocked(f, p) ==> p in StackPath(f)
  {
    if f.caller.Frame? {
      var above := StackPath(f.caller);
      LocksFollowDependencies(cfg, t, w, sh, f.caller);
      DependIsEdge(cfg.depends, f.caller.package, f.caller.pc.i);
      var hop := [f.caller.package, f.package];
      assert hop[1..] == [f.package];
      JoinPaths(Targets(cfg.depends), above, hop);
    }
  }

  lemma {:induction false} HeldRanksAbove(cfg: Config, rank: map<Package, nat>, t: nat, w: Package, sh: Shared,
                                          f: Stack, p: Package)
    requires Ranked(Targets(cfg.depends), rank)
    requires StackOk(cfg, t, w, sh, f) && HasLocked(f.caller, p)
    ensures p in rank && f.package in rank && rank[f.package] < rank[p]
  {
    DependIsEdge(cfg.depends, f.caller.package, f.caller.pc.i);
    if !(f.caller.package == p && f.caller.pc != Lock) {
      HeldRanksAbove(cfg, rank, t, w, sh, f.caller, p);
    }
  }

  /** Worker t is blocked on a mutex that worker u holds. */
  predicate WaitsFor(s: State, t: nat, u: nat) {
    && t < |s.phases| && s.phases[t].Building? && s.phases[t].stack.Frame? && s.phases[t].stack.pc == Lock
    && Holds(s.shared, u, s.phases[t].stack.package)
  }

  predicate WaitChain(s: State, ts: seq<nat>) {
    && ts != []
    && (|ts| > 1 ==> WaitsFor(s, ts[0], ts[1]) && WaitChain(s, ts[1..]))
  }

  function Wanted(s: State, t: nat): Package
    requires exists u :: WaitsFor(s, t, u)
  {
    s.phases[t].stack.package
  }

  lemma WaitingDescends(cfg: Config, rank: map<Package, nat>, s: State, t: nat, u: nat, v: nat)
    requires Gated(cfg, rank) && Inv(cfg, s) && WaitsFor(s, t, u) && WaitsFor(s, u, v)
    ensures Wanted(s, u) in rank && Wanted(s, t) in rank && rank[Wanted(s, u)] < rank[Wanted(s, t)]
  {
    hide MainOk, Gated;
    var p := s.phases[t].stack.package;
    assert LockedIn(s.phases[u], p);
    WorkerAt(cfg, s, u);
    assert Ranked(Targets(cfg.depends), rank) by { GatedIsRanked(cfg, rank); }
    HeldRanksAbove(cfg, rank, u, s.workers[u], s.shared, s.phases[u].stack, p);
  }

  lemma GatedIsRanked(cfg: Config, rank: map<Package, nat>)
    requires Gated(cfg, rank)
    ensures Ranked(Targets(cfg.depends), rank)
  {
  }

  lemma {:induction false} ChainDescends(cfg: Config, rank: map<Package, nat>, s: State, ts: seq<nat>, v: nat)
    requires Gated(cfg, rank) && Inv(cfg, s) && |ts| >= 2 && WaitChain(s, ts) && WaitsFor(s, ts[|ts| - 1], v)
    ensures WaitsFor(s, ts[0], ts[1])
    ensures Wanted(s, ts[|ts| - 1]) in rank && Wanted(s, ts[0]) in rank
    ensures rank[Wanted(s, ts[|ts| - 1])] < rank[Wanted(s, ts[0])]
  {
    hide Inv, Gated, Holds;
    if |ts| == 2 {
      WaitingDescends(cfg, rank, s, ts[0], ts[1], v);
    } else {
      ChainDescends(cfg, rank, s, ts[1..], v);
      WaitingDescends(cfg, rank, s, ts[0], ts[1], ts[2]);
    }
  }

  /** No cycle of workers each waiting for a mutex the next one holds. */
  lemma NoLockCycle(cfg: Config, rank: map<Package, nat>, s: State, ts: seq<nat>)
    requires Gated(cfg, rank) && Reachable(cfg, s)
    ensures !(|ts| >= 2 && WaitChain(s, ts) && ts[|ts| - 1] == ts[0])
  {
    hide Core, MainOk, Gated;
    ReachableInv(cfg, rank, s);
    if |ts| >= 2 && WaitChain(s, ts) && ts[|ts| - 1] == ts[0] {
      ChainDescends(cfg, rank, s, ts, ts[1]);
    }
  }
}
