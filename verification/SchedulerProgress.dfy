/** The scheduler cannot deadlock, does a bounded amount of work, and stops only
    when the build is over. */
module SchedulerProgress {
  import opened Packages
  import opened Scheduler
  import opened SchedulerInvariant
  import opened SchedulerSteps
  import opened SchedulerTheorems

  // ---------------------------------------------------------------------
  // Something can always move

  /** Every position but waiting for a mutex has a next step. */
  function SomeOutcome(cfg: Config, sh: Shared, f: Stack): (o: Outcome)
    requires f.Frame? && f.pc != Lock
    ensures FrameMay(cfg, sh, f, o)
  {
    var deps := DependsOn(cfg.depends, f.package);
    match f.pc
    case Check => Goto(if f.package in (if f.locally then sh.wasBuilt else sh.built) then Leave(true) else BuildDeps(0))
    case BuildDeps(i) => if i < |deps| then Call(deps[i].package, false) else Goto(Suppress)
    case Suppress => Goto(if f.package in cfg.suppressed then Leave(true) else Prepare)
    case Prepare => Goto(Decide)
    case Decide => Goto(LocalDeps(0))
    case LocalDeps(i) =>
      if i < |deps| then
        if deps[i].locally then Call(deps[i].package, true) else Goto(LocalDeps(i + 1))
      else Goto(Fetch)
    case Fetch => Goto(if cfg.fetchOnly then Clear else Stage)
    case Stage => Goto(Commands)
    case Commands => Goto(PackStaging)
    case PackStaging => Goto(PackInstall)
    case PackInstall => Goto(Record)
    case Record => Goto(Truncate)
    case Truncate => Goto(List)
    case List => Goto(Clear)
    case Clear => Goto(MarkBuilt)
    case MarkBuilt => Goto(MarkWasBuilt)
    case MarkWasBuilt => Goto(Leave(true))
    case Leave(ok) => Return(ok)
  }

  function TopRank(rank: map<Package, nat>, phase: Phase): nat {
    if phase.Building? && phase.stack.Frame? && phase.stack.package in rank then rank[phase.stack.package] else 0
  }

  /** Following mutex owners from a blocked worker ends at one that can move. */
  lemma {:induction false} SomeWorkerMoves(cfg: Config, rank: map<Package, nat>, s: State, t: nat) returns (a: Action)
    requires Gated(cfg, rank) && Inv(cfg, s) && t < |s.phases| && s.phases[t].Building?
    ensures May(cfg, s, a) && a.Work?
    decreases TopRank(rank, s.phases[t])
  {
    WorkerAt(cfg, s, t);
    var f := s.phases[t].stack;
    if f.pc != Lock {
      a := Work(t, SomeOutcome(cfg, s.shared, f));
    } else if f.package !in s.shared.locks {
      a := Work(t, Goto(Check));
    } else {
      var u := s.shared.locks[f.package];
      assert LockedIn(s.phases[u], f.package);
      assert WaitsFor(s, t, u);
      WorkerAt(cfg, s, u);
      if s.phases[u].stack.pc == Lock && s.phases[u].stack.package in s.shared.locks {
        WaitingDescends(cfg, rank, s, t, u, s.shared.locks[s.phases[u].stack.package]);
        a := SomeWorkerMoves(cfg, rank, s, u);
      } else if s.phases[u].stack.pc == Lock {
        a := Work(u, Goto(Check));
      } else {
        a := Work(u, SomeOutcome(cfg, s.shared, s.phases[u].stack));
      }
    }
  }

  /** Nobody can move, short of a spurious wakeup. */
  ghost predicate Stopped(cfg: Config, s: State) {
    forall a :: May(cfg, s, a) ==> a.SpuriousWakeup?
  }

  /** The scheduler stops only when every worker has ended and main has either
      returned or gone to sleep. It can sleep through the end of the build,
      because it reads `failed` and `built` before it takes cond_lock, but never
      with work left: a worker has failed or every package is built. */
  lemma StopsOnlyWhenOver(cfg: Config, rank: map<Package, nat>, s: State)
    requires Gated(cfg, rank) && Reachable(cfg, s)
    ensures Stopped(cfg, s) <==> Live(s.phases) == {} && (s.main.Returned? || s.main.Asleep?)
    ensures Stopped(cfg, s) ==> (s.failed <==> !forall p :: p in cfg.depends ==> p in s.shared.built)
  {
    ReachableInv(cfg, rank, s);
    if Live(s.phases) == {} && (s.main.Returned? || s.main.Asleep?) {
      AllEndedStops(cfg, s);
      OverMeans(cfg, rank, s);
    } else {
      var a := SomethingMoves(cfg, rank, s);
    }
  }

  lemma AllEndedStops(cfg: Config, s: State)
    requires Live(s.phases) == {} && (s.main.Returned? || s.main.Asleep?)
    ensures Stopped(cfg, s)
  {
    forall t: nat | t < |s.phases|
      ensures s.phases[t].Ended?
    {
      assert t !in Live(s.phases);
    }
  }

  lemma OverMeans(cfg: Config, rank: map<Package, nat>, s: State)
    requires Gated(cfg, rank) && Inv(cfg, s) && Over(cfg, s)
    ensures s.failed <==> !forall p :: p in cfg.depends ==> p in s.shared.built
  {
    if s.failed {
      FailureExcludesBase(cfg, rank, s);
    } else {
      forall p | p in cfg.depends
        ensures p in s.shared.built
      {
        BaseBuiltMeansAllBuilt(cfg, rank, s.shared, p);
      }
    }
  }

  lemma SomethingMoves(cfg: Config, rank: map<Package, nat>, s: State) returns (a: Action)
    requires Gated(cfg, rank) && Inv(cfg, s)
    requires !(Live(s.phases) == {} && (s.main.Returned? || s.main.Asleep?))
    ensures May(cfg, s, a) && !a.SpuriousWakeup?
  {
    if MainMay(s.main) {
      a := MainStep;
    } else {
      var t: nat :| t in Live(s.phases);
      match s.phases[t]
      case Building(_) => a := SomeWorkerMoves(cfg, rank, s, t);
      case Finishing => a := Finish(t, s.order);
      case Failing => a := Fail(t);
      case Ending(_) => a := End(t);
    }
  }

  /** While main sleeps with work left to do, a worker is there to wake it. */
  lemma SleepIsWatched(cfg: Config, rank: map<Package, nat>, s: State)
    requires Gated(cfg, rank) && Reachable(cfg, s) && (s.main.Asleep? || s.main.KgAsleep?)
    requires !s.failed && cfg.base !in s.shared.built
    ensures exists t :: 0 <= t < |s.phases| && !s.phases[t].Ended?
  {
    ReachableInv(cfg, rank, s);
    var t: nat :| t in Live(s.phases);
  }
}
