/** What every step of the scheduler keeps, for every schedule. */
module SchedulerInvariant {
  import opened Packages
  import opened Scheduler

  // ---------------------------------------------------------------------
  // The invariant of one call of Package::build

  /** Of p's first n dependencies, those marked locally were built during this
      run, or are suppressed by forced mode. */
  ghost predicate LocalsBuilt(cfg: Config, sh: Shared, p: Package, n: nat) {
    forall i :: 0 <= i < n && i < |DependsOn(cfg.depends, p)| && DependsOn(cfg.depends, p)[i].locally ==>
                  || DependsOn(cfg.depends, p)[i].package in sh.wasBuilt
                  || DependsOn(cfg.depends, p)[i].package in cfg.suppressed
  }

  /** The call is past the already-built check and has not finished. */
  predicate Active(pc: Pc) {
    !pc.Lock? && !pc.Check? && !pc.MarkBuilt? && !pc.MarkWasBuilt? && !pc.Leave?
  }

  /** The call has run its package's commands and not yet cleared `building`. */
  predicate Hot(pc: Pc) {
    Packing(pc) || pc.Clear?
  }

  /** The call is past its local dependencies. */
  predicate Late(pc: Pc) {
    pc.Fetch? || pc.Stage? || pc.Commands? || Hot(pc) || pc.MarkBuilt? || pc.MarkWasBuilt?
  }

  predicate Done(sh: Shared, p: Package, locally: bool) {
    p in if locally then sh.wasBuilt else sh.built
  }

  predicate Settled(sh: Shared, p: Package) {
    sh.cleared[p] > 0 ==> p in sh.wasBuilt
  }

  /** Completed runs of p's commands are paid for by completed builds of p or by
      builds that failed while packing; extra is a run still in progress. */
  predicate Balanced(sh: Shared, p: Package, extra: nat) {
    sh.executed[p] <= sh.aborted[p] + sh.cleared[p] + extra
  }

  predicate Holds(sh: Shared, t: nat, p: Package) {
    p in sh.locks && sh.locks[p] == t
  }

  ghost predicate FlagsOk(cfg: Config, sh: Shared, p: Package, locally: bool, pc: Pc) {
    && (Active(pc) ==> !Done(sh, p, locally) && sh.cleared[p] == 0)
    && (pc.MarkBuilt? ==> sh.cleared[p] == 1 && p !in sh.wasBuilt)
    && (pc.MarkWasBuilt? ==> sh.cleared[p] == 1 && p !in sh.wasBuilt && p in sh.built)
    && (pc.Check? || pc.Leave? ==> Settled(sh, p))
    && (pc == Leave(true) ==> if locally then p in sh.wasBuilt || p in cfg.suppressed else p in sh.built)
    && (pc == Leave(false) && !locally ==> p !in sh.built && sh.cleared[p] == 0)
    && Balanced(sh, p, if Hot(pc) then 1 else 0)
  }

  ghost predicate PositionOk(cfg: Config, sh: Shared, p: Package, pc: Pc) {
    match pc
    case BuildDeps(i) => i <= |DependsOn(cfg.depends, p)|
    case LocalDeps(i) => i <= |DependsOn(cfg.depends, p)| && LocalsBuilt(cfg, sh, p, i)
    case _ => Late(pc) ==> LocalsBuilt(cfg, sh, p, |DependsOn(cfg.depends, p)|)
  }

  ghost predicate FrameOk(cfg: Config, t: nat, sh: Shared, f: Stack)
    requires f.Frame?
  {
    && f.package in cfg.depends
    && DepsBuilt(cfg.depends, sh.built, f.package)
    && (f.locally ==> f.package in sh.built)
    && PositionOk(cfg, sh, f.package, f.pc)
    && (f.pc != Lock ==>
          && Holds(sh, t, f.package)
          && FlagsOk(cfg, sh, f.package, f.locally, f.pc)
          && !HasLocked(f.caller, f.package))
  }

  /** Some call on the stack holds p's mutex. */
  predicate HasLocked(f: Stack, p: Package) {
    f.Frame? && ((f.package == p && f.pc != Lock) || HasLocked(f.caller, p))
  }

  /** c is waiting for the call f it made. */
  predicate Called(cfg: Config, c: Stack, f: Stack)
    requires c.Frame? && f.Frame?
  {
    var deps := DependsOn(cfg.depends, c.package);
    match c.pc
    case BuildDeps(i) => i < |deps| && deps[i].package == f.package && !f.locally
    case LocalDeps(i) => i < |deps| && deps[i].package == f.package && deps[i].locally && f.locally
    case _ => false
  }

  /** Every call but the outermost is for a package that is built already. */
  ghost predicate StackOk(cfg: Config, t: nat, w: Package, sh: Shared, f: Stack) {
    && f.Frame?
    && FrameOk(cfg, t, sh, f)
    && if f.caller.Bottom? then f.package == w && !f.locally
       else f.package in sh.built && StackOk(cfg, t, w, sh, f.caller) && Called(cfg, f.caller, f)
  }

  // ---------------------------------------------------------------------
  // The invariant of a state

  ghost predicate WorkerOk(cfg: Config, t: nat, w: Package, sh: Shared, phase: Phase) {
    && w in cfg.depends
    && DepsBuilt(cfg.depends, sh.built, w)
    && match phase
       case Building(f) => StackOk(cfg, t, w, sh, f)
       case Finishing => w in sh.built
       case Failing => w !in sh.built && sh.cleared[w] == 0
       case Ending(ok) => if ok then w in sh.built else w !in sh.built && sh.cleared[w] == 0
       case Ended(ok) => if ok then w in sh.built else w !in sh.built && sh.cleared[w] == 0
  }

  ghost predicate WorkersOk(cfg: Config, s: State) {
    && |s.workers| == |s.phases|
    && forall t :: 0 <= t < |s.phases| ==> WorkerOk(cfg, t, s.workers[t], s.shared, s.phases[t])
  }

  /** `built` and `was_built` are downward closed, along all dependencies and
      along local ones. */
  ghost predicate ClosedFlags(cfg: Config, sh: Shared) {
    && sh.wasBuilt <= sh.built
    && (forall p :: p in sh.built ==> p in cfg.depends && DepsBuilt(cfg.depends, sh.built, p))
    && (forall p :: p in sh.wasBuilt ==> LocalsBuilt(cfg, sh, p, |DependsOn(cfg.depends, p)|))
  }

  /** `building` is true from a worker's start until the package's one completed
      build clears it, so a package gets one worker, or two around that moment. */
  ghost predicate StartsOk(workers: seq<Package>, sh: Shared) {
    && (forall p :: sh.cleared[p] <= 1 && sh.cleared[p] <= multiset(workers)[p] <= 1 + sh.cleared[p])
    && (forall p :: p in sh.building <==> multiset(workers)[p] == 1 + sh.cleared[p])
    && (forall p :: p in sh.built ==> p in workers)
  }

  ghost predicate UnlockedOk(sh: Shared) {
    forall p :: p !in sh.locks ==> Settled(sh, p) && Balanced(sh, p, 0)
  }

  ghost predicate LocksOk(phases: seq<Phase>, sh: Shared) {
    forall p :: p in sh.locks ==> sh.locks[p] < |phases| && LockedIn(phases[sh.locks[p]], p)
  }

  predicate LockedIn(phase: Phase, p: Package) {
    phase.Building? && HasLocked(phase.stack, p)
  }

  predicate Lost(phase: Phase) {
    phase == Ending(false) || phase == Ended(false)
  }

  predicate IsLost(s: State, t: nat, p: Package) {
    t < |s.phases| && t < |s.workers| && s.workers[t] == p && Lost(s.phases[t])
  }

  ghost predicate LostWorker(s: State, p: Package) {
    exists t :: IsLost(s, t, p)
  }

  ghost predicate FailuresOk(s: State) {
    && (s.failed <==> s.failedPackages != [])
    && (forall t :: 0 <= t < |s.phases| && Lost(s.phases[t]) ==> s.failed)
    && forall i :: 0 <= i < |s.failedPackages| ==> LostWorker(s, s.failedPackages[i])
  }

  /** The workers that have not called threadEnded. */
  ghost function Live(phases: seq<Phase>): set<nat> {
    set t: nat | t < |phases| && !phases[t].Ended?
  }

  ghost predicate RunningOk(cfg: Config, s: State) {
    && s.running == |Live(s.phases)|
    && (cfg.limit > 0 ==> s.running <= cfg.limit)
  }

  /** topoNext's candidate: all its dependencies are built and no worker has it. */
  ghost predicate Candidate(cfg: Config, sh: Shared, best: Option<Package>) {
    best.Some? ==>
      best.value in cfg.depends && DepsBuilt(cfg.depends, sh.built, best.value) && best.value !in sh.building
  }

  /** While nobody else runs, a scan that found nothing so far missed nothing. */
  ghost predicate Missed(cfg: Config, s: State, i: nat, best: Option<Package>) {
    Live(s.phases) == {} && best.None? ==>
      forall j :: 0 <= j < i && j < |s.order| ==> !Ready(cfg.depends, s.shared.built, s.shared.building, s.order[j])
  }

  ghost predicate ScanOk(cfg: Config, s: State, i: nat, best: Option<Package>) {
    && i <= |s.order|
    && Candidate(cfg, s.shared, best)
    && Missed(cfg, s, i, best)
    && (cfg.limit > 0 ==> s.running < cfg.limit)
  }

  ghost predicate Over(cfg: Config, s: State) {
    s.failed || cfg.base in s.shared.built
  }

  ghost predicate MainOk(cfg: Config, s: State) {
    match s.main
    case ScanBuilt(i, best) => ScanOk(cfg, s, i, best)
    case ScanBuilding(i, best) => i < |s.order| && ScanOk(cfg, s, i, best)
    case ScanCan(i, best) => i < |s.order| && ScanOk(cfg, s, i, best) && s.order[i] !in s.shared.building
    case ScanDep(i, best, d) =>
      && i < |s.order| && ScanOk(cfg, s, i, best) && s.order[i] !in s.shared.building
      && d <= |DependsOn(cfg.depends, s.order[i])|
      && forall j :: 0 <= j < d ==>
                       DependsOn(cfg.depends, s.order[i])[j].package in s.shared.built
    case Picked(p) => Candidate(cfg, s.shared, Some(p)) && (cfg.limit > 0 ==> s.running < cfg.limit)
    case Asleep => Live(s.phases) != {} || Over(cfg, s)
    case AfterLoop => Over(cfg, s)
    case KgWantLock => Over(cfg, s)
    case KgReadBuilt => Over(cfg, s)
    case KgReadRunning => Over(cfg, s)
    case KgAsleep => Over(cfg, s) && Live(s.phases) != {}
    case KgWoken => Over(cfg, s)
    case Returning => Over(cfg, s) && (cfg.keepGoing ==> Live(s.phases) == {} || cfg.base in s.shared.built)
    case Returned(result) =>
      && Over(cfg, s)
      && (cfg.keepGoing ==> Live(s.phases) == {} || cfg.base in s.shared.built)
      && (result <==> cfg.base in s.shared.built)
    case _ => true
  }

  /** Everything but the main thread's position. */
  ghost predicate Core(cfg: Config, s: State) {
    && Listing(cfg, s.order)
    && WorkersOk(cfg, s)
    && ClosedFlags(cfg, s.shared)
    && StartsOk(s.workers, s.shared)
    && UnlockedOk(s.shared)
    && LocksOk(s.phases, s.shared)
    && FailuresOk(s)
    && RunningOk(cfg, s)
  }

  ghost predicate Inv(cfg: Config, s: State) {
    Core(cfg, s) && MainOk(cfg, s)
  }
}
