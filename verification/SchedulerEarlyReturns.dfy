/** A failed build that returns while another worker is still building, which is
    what keep-going is there to prevent, and which dependency graphs allow it. */
module SchedulerEarlyReturns {
  import opened Digraph
  import opened Packages
  import opened Scheduler
  import opened SchedulerInvariant
  import opened SchedulerSteps
  import opened SchedulerTheorems
  import opened SchedulerBound
  import opened SchedulerRuns
  import opened SchedulerRaces
  import opened SchedulerModes
  import opened SchedulerEndings

  /** Worker v is inside the build of q, which is not built. */
  predicate StillBuilding(s: State, v: nat, q: Package) {
    v < |s.phases| && v < |s.workers| && s.phases[v].Building? && s.workers[v] == q && q !in s.shared.built
  }

  /** p's worker can fail, and neither package is below the other. */
  ghost predicate CanFailBeside(cfg: Config, p: Package, q: Package) {
    && p in cfg.depends && q in cfg.depends && p != q && p !in cfg.suppressed
    && !Reaches(Targets(cfg.depends), p, q) && !Reaches(Targets(cfg.depends), q, p)
  }

  lemma RanIsReachable(cfg: Config, plan: Plan, s: State)
    requires Ran(cfg, plan, s)
    ensures Reachable(cfg, s)
  {
    var actions :| RunOf(cfg, plan, actions) == Some(s);
    RunIsAfter(cfg, plan, actions);
  }

  lemma MainNext(cfg: Config, s: State)
    requires Reachable(cfg, s) && MainMay(s.main)
    ensures Reachable(cfg, MainThen(cfg, s))
  {
    ReachableNext(cfg, s, MainStep);
  }

  /** main is about to read `failed` when p's worker fails. */
  lemma FailsAndReturns(cfg: Config, s: State, w: nat, p: Package) returns (s': State)
    requires Reachable(cfg, s) && s.main == ReadFailed && !cfg.keepGoing
    requires w < |s.phases| && w < |s.workers| && s.phases[w] == Own(p, Prepare)
    ensures Reachable(cfg, s') && s'.main == Returned(false)
    ensures |s'.phases| == |s.phases| && s'.workers == s.workers && s'.shared.built == s.shared.built
    ensures forall t :: 0 <= t < |s.phases| && t != w ==> s'.phases[t] == s.phases[t]
  {
    hide Reachable;
    ReachableNext(cfg, s, Work(w, Throw));
    var s1 := Then(cfg, s, Work(w, Throw));
    ReachableNext(cfg, s1, Fail(w));
    var s2 := Then(cfg, s1, Fail(w));
    MainNext(cfg, s2);
    MainNext(cfg, s2.(main := AfterLoop));
    MainNext(cfg, s2.(main := Returning));
    s' := s2.(main := Returned(false));
  }

  /** Where a build can return false, besides passing on that a dependency's did. */
  predicate CanGiveUp(pc: Pc) {
    pc.Fetch? || pc.Stage? || pc.Commands? || pc.PackStaging? || pc.PackInstall?
  }

  /** p's worker throws, or gives up and returns false. */
  lemma Breaks(cfg: Config, s: State, w: nat, p: Package, pc: Pc, o: Outcome) returns (s': State)
    requires Reachable(cfg, s) && w < |s.phases| && s.phases[w] == Own(p, pc) && Risky(pc)
    requires o == Throw || (o == Goto(Leave(false)) && CanGiveUp(pc))
    ensures Reachable(cfg, s') && s'.phases == s.phases[w := Failing]
    ensures s' == s.(phases := s'.phases, shared := s'.shared) && s'.shared.built == s.shared.built
  {
    hide Reachable;
    ReachableNext(cfg, s, Work(w, o));
    s' := Then(cfg, s, Work(w, o));
    if o.Goto? {
      ReachableNext(cfg, s', Work(w, Return(false)));
      s' := Then(cfg, s', Work(w, Return(false)));
    }
  }

  /** Whatever the dependencies, every part of any package's build can be the one
      that fails a run, by throwing or, up to packing, by giving up. */
  lemma AnyStepCanFail(cfg: Config, rank: map<Package, nat>, plan: Plan, p: Package, pc: Pc, o: Outcome)
      returns (s: State)
    requires Gated(cfg, rank) && Sorts(cfg, plan) && plan.keep == {} && !cfg.fetchOnly
    requires p in cfg.depends && p !in cfg.suppressed && p !in plan.skip
    requires pc in [Prepare, Decide, Fetch, Stage, Commands, PackStaging, PackInstall, Record, Truncate, List]
    requires o == Throw || (o == Goto(Leave(false)) && pc in [Fetch, Stage, Commands, PackStaging, PackInstall])
    ensures Reachable(cfg, s) && s.failedPackages == [p] && p !in s.shared.built
  {
    var w;
    s, w := StandsAt(cfg, rank, plan, p, pc);
    RanIsReachable(cfg, plan, s);
    FailuresAreListed(cfg, rank, s);
    hide Reachable, Ran, Gated, Sorts;
    s := Breaks(cfg, s, w, p, pc, o);
    ReachableNext(cfg, s, Fail(w));
    s := Then(cfg, s, Fail(w));
  }

  lemma FailsBeside(cfg: Config, rank: map<Package, nat>, plan: Plan, s: State, w: nat, p: Package, v: nat, q: Package)
      returns (s': State)
    requires Gated(cfg, rank) && BothWait(cfg, plan, s, w, p, v, q) && Ran(cfg, plan, s.(main := ReadFailed))
    requires p in cfg.depends && q in cfg.depends && p !in cfg.suppressed && !cfg.keepGoing
    ensures Reachable(cfg, s') && s'.main == Returned(false) && StillBuilding(s', v, q)
  {
    BothBegin(cfg, rank, plan, s, w, p, v, q);
    hide Gated, Ran, Reachable, DepsBuilt, BuiltAsPlanned;
    var s0 := s.(main := ReadFailed);
    ToPrepare(cfg, rank, plan, s0, w, p);
    var s1 := At(s0, w, s.shared.(locks := map[p := w]), Own(p, Prepare));
    RanIsReachable(cfg, plan, s1);
    s' := FailsAndReturns(cfg, s1, w, p);
  }

  /** Whatever orders main works with: of any two packages that are not below each
      other, one that forced mode does not suppress can fail, and main return,
      while the other is still being built. */
  lemma LeavesWorkerBehind(cfg: Config, rank: map<Package, nat>, plan: Plan, p: Package, q: Package)
      returns (s: State, v: nat)
    requires Gated(cfg, rank) && Sorts(cfg, plan) && plan.keep == {} && cfg.limit != 1 && !cfg.keepGoing
    requires CanFailBeside(cfg, p, q)
    ensures Reachable(cfg, s) && s.main == Returned(false) && StillBuilding(s, v, q)
  {
    var s0 := FirstWait(cfg, plan);
    NothingKept(cfg, plan, p);
    assert forall r :: Spares(cfg, plan, r);
    hide Ran, Gated, Sorts, Spares, Calm, Waits, BothWait, Gentle, Reaches, Reachable;
    var s1, w, first := FirstOfTwo(cfg, rank, plan, s0, p, q);
    if first == p {
      var s2;
      s2, v := ThenTheOther(cfg, rank, plan, s1, w, p, q);
      s := FailsBeside(cfg, rank, plan, s2, w, p, v, q);
    } else {
      var s2, u := ThenTheOther(cfg, rank, plan, s1, w, q, p);
      Swapped(cfg, plan, s2, w, q, u, p);
      v := w;
      s := FailsBeside(cfg, rank, plan, s2, u, p, w, q);
    }
  }

  /** Only such packages: whoever is still being built when a failed build returns
      is beside a package that failed. */
  lemma LeftBehindIsBeside(cfg: Config, rank: map<Package, nat>, s: State, v: nat, q: Package)
    requires Gated(cfg, rank) && Reachable(cfg, s) && s.failed && StillBuilding(s, v, q)
    ensures s.failedPackages != [] && CanFailBeside(cfg, s.failedPackages[0], q)
  {
    FailuresAreListed(cfg, rank, s);
    var p := s.failedPackages[0];
    assert LostWorker(s, p);
    var t: nat :| IsLost(s, t, p);
    if p in cfg.suppressed {
      SuppressedDoesNothing(cfg, rank, s, p);
      assert false;
    }
    ReachableInv(cfg, rank, s);
    ClosedFlagsOf(cfg, s);
    WorkerAt(cfg, s, t);
    WorkerAt(cfg, s, v);
    hide Reachable, Gated;
    assert StartsOk(s.workers, s.shared);
    OnlyWorker(s.workers, s.shared, v, t);
    hide Inv;
    UnbuiltIsNotBelow(cfg, s.shared, p, q);
    UnbuiltIsNotBelow(cfg, s.shared, q, p);
  }

  /** With more than one thread, a failed build without keep-going can return while
      a package is being built exactly if there are two packages that are not below
      each other, one of which is not suppressed. */
  lemma EarlyReturnIsExact(cfg: Config, rank: map<Package, nat>, plan: Plan)
    requires Gated(cfg, rank) && Sorts(cfg, plan) && plan.keep == {} && cfg.limit != 1 && !cfg.keepGoing
    ensures (exists s, v, q :: Reachable(cfg, s) && s.main == Returned(false) && StillBuilding(s, v, q))
            <==> exists p, q :: CanFailBeside(cfg, p, q)
  {
    hide *;
    if s, v, q :| Reachable(cfg, s) && s.main == Returned(false) && StillBuilding(s, v, q) {
      BasePackageResult(cfg, rank, s);
      LeftBehindIsBeside(cfg, rank, s, v, q);
    }
    if p, q :| CanFailBeside(cfg, p, q) {
      var s, v := LeavesWorkerBehind(cfg, rank, plan, p, q);
    }
  }
}
