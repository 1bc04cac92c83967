/** What fetch-only mode and forced mode keep a build from doing, and what a build
    that completes in neither mode has done. */
module SchedulerModes {
  import opened Packages
  import opened Scheduler
  import opened SchedulerInvariant
  import opened SchedulerSteps
  import opened SchedulerTheorems

  /** The call prepares, runs or packs up its package's commands. */
  predicate Works(pc: Pc) {
    pc.Stage? || pc.Commands? || pc.PackStaging? || pc.PackInstall? || pc.Record? || pc.Truncate? || pc.List?
  }

  /** Before the point where forced mode ends the call, or after it. */
  predicate HeldBack(pc: Pc) {
    pc.Lock? || pc.Check? || pc.BuildDeps? || pc.Suppress? || pc.Leave?
  }

  ghost predicate FrameInMode(cfg: Config, executed: multiset<Package>, p: Package, pc: Pc) {
    && (cfg.fetchOnly ==> !Works(pc))
    && (!cfg.fetchOnly && (Hot(pc) || pc.MarkBuilt? || pc.MarkWasBuilt?) ==> executed[p] > 0)
    && (p in cfg.suppressed ==> HeldBack(pc))
  }

  ghost predicate InMode(cfg: Config, executed: multiset<Package>, f: Stack) {
    f.Frame? ==> FrameInMode(cfg, executed, f.package, f.pc) && InMode(cfg, executed, f.caller)
  }

  ghost predicate SharedInMode(cfg: Config, sh: Shared) {
    && (cfg.fetchOnly ==> sh.executed == multiset{})
    && (!cfg.fetchOnly ==> forall p :: sh.cleared[p] > 0 || p in sh.wasBuilt ==> sh.executed[p] > 0)
    && forall p :: p in cfg.suppressed ==> sh.executed[p] == 0 && p !in sh.wasBuilt
  }

  /** The worker of a suppressed package only ever calls dependencies, which are
      built already, and nothing in its way can fail. */
  predicate Spared(phase: Phase) {
    match phase
    case Building(f) =>
      f.Frame? &&
      if f.caller.Bottom? then HeldBack(f.pc) && f.pc != Leave(false)
      else
        && f.caller.caller.Bottom? && f.caller.pc.BuildDeps? && !f.locally
        && (f.pc.Lock? || f.pc.Check? || f.pc == Leave(true))
    case Finishing => true
    case Failing => false
    case Ending(ok) => ok
    case Ended(ok) => ok
  }

  ghost predicate WorkerInMode(cfg: Config, w: Package, executed: multiset<Package>, phase: Phase) {
    && (phase.Building? ==> InMode(cfg, executed, phase.stack))
    && (w in cfg.suppressed ==> Spared(phase))
  }

  ghost predicate ModesOk(cfg: Config, s: State) {
    && |s.workers| == |s.phases|
    && SharedInMode(cfg, s.shared)
    && forall t :: 0 <= t < |s.phases| ==> WorkerInMode(cfg, s.workers[t], s.shared.executed, s.phases[t])
  }

  lemma {:induction false} ModeStays(cfg: Config, executed: multiset<Package>, executed': multiset<Package>, f: Stack)
    requires InMode(cfg, executed, f) && executed <= executed'
    ensures InMode(cfg, executed', f)
  {
    if f.Frame? {
      ModeStays(cfg, executed, executed', f.caller);
    }
  }

  lemma ExecutedGrows(cfg: Config, t: nat, sh: Shared, f: Stack, o: Outcome)
    requires f.Frame?
    ensures sh.executed <= FrameThen(cfg, t, sh, f, o).executed
  {
  }

  lemma StepKeepsShared(cfg: Config, t: nat, sh: Shared, f: Stack, o: Outcome)
    requires f.Frame? && FrameMay(cfg, sh, f, o) && SharedInMode(cfg, sh)
    requires FrameInMode(cfg, sh.executed, f.package, f.pc)
    ensures SharedInMode(cfg, FrameThen(cfg, t, sh, f, o))
  {
  }

  lemma GoesOnInMode(cfg: Config, t: nat, sh: Shared, f: Stack, pc: Pc)
    requires f.Frame? && FrameMay(cfg, sh, f, Goto(pc)) && FrameInMode(cfg, sh.executed, f.package, f.pc)
    ensures FrameInMode(cfg, FrameThen(cfg, t, sh, f, Goto(pc)).executed, f.package, pc)
  {
  }

  lemma ResumesInMode(cfg: Config, executed: multiset<Package>, p: Package, pc: Pc, ok: bool)
    requires FrameInMode(cfg, executed, p, pc)
    ensures FrameInMode(cfg, executed, p, Resume(pc, ok))
  {
  }

  lemma StepKeepsMode(cfg: Config, t: nat, sh: Shared, f: Stack, o: Outcome)
    requires f.Frame? && FrameMay(cfg, sh, f, o) && InMode(cfg, sh.executed, f)
    ensures var phase := PhaseThen(f, o);
            phase.Building? ==> InMode(cfg, FrameThen(cfg, t, sh, f, o).executed, phase.stack)
  {
    var executed := FrameThen(cfg, t, sh, f, o).executed;
    ExecutedGrows(cfg, t, sh, f, o);
    ModeStays(cfg, sh.executed, executed, f);
    match o
    case Goto(pc) => GoesOnInMode(cfg, t, sh, f, pc);
    case Call(q, locally) =>
    case Return(ok) =>
      if f.caller.Frame? {
        ResumesInMode(cfg, executed, f.caller.package, f.caller.pc, ok);
      }
    case Throw =>
  }

  lemma StepSpares(cfg: Config, t: nat, w: Package, sh: Shared, f: Stack, o: Outcome)
    requires StackOk(cfg, t, w, sh, f) && FrameMay(cfg, sh, f, o)
    requires w in cfg.suppressed && Spared(Building(f))
    ensures Spared(PhaseThen(f, o))
  {
  }

  lemma WorkKeepsModes(cfg: Config, s: State, t: nat, o: Outcome)
    requires Inv(cfg, s) && ModesOk(cfg, s) && May(cfg, s, Work(t, o))
    ensures ModesOk(cfg, Then(cfg, s, Work(t, o)))
  {
    var s' := Then(cfg, s, Work(t, o));
    var f := s.phases[t].stack;
    WorkerAt(cfg, s, t);
    assert WorkerInMode(cfg, s.workers[t], s.shared.executed, s.phases[t]);
    hide FrameMay, FrameThen, PhaseThen, Inv, StackOk, SharedInMode, FrameInMode, Spared;
    StepKeepsShared(cfg, t, s.shared, f, o);
    ExecutedGrows(cfg, t, s.shared, f, o);
    forall u | 0 <= u < |s'.phases|
      ensures WorkerInMode(cfg, s'.workers[u], s'.shared.executed, s'.phases[u])
    {
      assert WorkerInMode(cfg, s.workers[u], s.shared.executed, s.phases[u]);
      if u == t {
        StepKeepsMode(cfg, t, s.shared, f, o);
        if s.workers[t] in cfg.suppressed {
          StepSpares(cfg, t, s.workers[t], s.shared, f, o);
        }
      } else if s.phases[u].Building? {
        ModeStays(cfg, s.shared.executed, s'.shared.executed, s.phases[u].stack);
      }
    }
  }

  /** A phase, and the same or the next one outside build. */
  predicate PhaseOn(phase: Phase, phase': Phase) {
    match phase
    case Building(_) => phase' == phase
    case Finishing => phase' == phase || phase' == Ending(true)
    case Failing => phase' == phase || phase' == Ending(false)
    case Ending(ok) => phase' == phase || phase' == Ended(ok)
    case Ended(_) => phase' == phase
  }

  lemma PhaseOnInMode(cfg: Config, w: Package, executed: multiset<Package>, phase: Phase, phase': Phase)
    requires WorkerInMode(cfg, w, executed, phase) && PhaseOn(phase, phase')
    ensures WorkerInMode(cfg, w, executed, phase')
  {
  }

  lemma NewInMode(cfg: Config, w: Package, executed: multiset<Package>)
    ensures WorkerInMode(cfg, w, executed, Building(Frame(w, false, Lock, Bottom)))
  {
  }

  /** What moves outside build leave to be kept. */
  lemma RestMoves(cfg: Config, s: State, a: Action)
    requires May(cfg, s, a) && !a.Work? && |s.workers| == |s.phases|
    ensures var s' := Then(cfg, s, a);
            && |s'.workers| == |s'.phases| >= |s.phases| && s'.shared == s.shared.(building := s'.shared.building)
            && (forall u :: 0 <= u < |s.phases| ==>
                  s'.workers[u] == s.workers[u] && PhaseOn(s.phases[u], s'.phases[u]))
            && forall u :: |s.phases| <= u < |s'.phases| ==>
                 s'.phases[u] == Building(Frame(s'.workers[u], false, Lock, Bottom))
  {
    hide FrameMay, Listing;
  }

  lemma SharedStaysInMode(cfg: Config, sh: Shared, sh': Shared)
    requires SharedInMode(cfg, sh) && sh' == sh.(building := sh'.building)
    ensures SharedInMode(cfg, sh')
  {
  }

  lemma StepKeepsModes(cfg: Config, s: State, a: Action)
    requires Inv(cfg, s) && ModesOk(cfg, s) && May(cfg, s, a)
    ensures ModesOk(cfg, Then(cfg, s, a))
  {
    if a.Work? {
      WorkKeepsModes(cfg, s, a.t, a.o);
    } else {
      var s' := Then(cfg, s, a);
      RestMoves(cfg, s, a);
      hide Inv, May, Then, SharedInMode, WorkerInMode, PhaseOn;
      forall u | 0 <= u < |s'.phases|
        ensures WorkerInMode(cfg, s'.workers[u], s'.shared.executed, s'.phases[u])
      {
        if u < |s.phases| {
          PhaseOnInMode(cfg, s.workers[u], s.shared.executed, s.phases[u], s'.phases[u]);
        } else {
          NewInMode(cfg, s'.workers[u], s.shared.executed);
        }
      }
      SharedStaysInMode(cfg, s.shared, s'.shared);
    }
  }

  lemma {:induction false} ModesAlways(cfg: Config, rank: map<Package, nat>, order: seq<Package>, actions: seq<Action>)
    requires Gated(cfg, rank)
    ensures var s := After(cfg, order, actions); s.Some? ==> ModesOk(cfg, s.value)
  {
    hide Gated, Inv, May, Then;
    if actions == [] {
      InitInMode(cfg, order);
    } else {
      var last := |actions| - 1;
      ModesAlways(cfg, rank, order, actions[..last]);
      InvAlways(cfg, rank, order, actions[..last]);
      var r := After(cfg, order, actions[..last]);
      hide ModesOk;
      if r.Some? && May(cfg, r.value, actions[last]) {
        StepKeepsModes(cfg, r.value, actions[last]);
      }
    }
  }

  lemma InitInMode(cfg: Config, order: seq<Package>)
    ensures ModesOk(cfg, Init(order))
  {
  }

  // ---------------------------------------------------------------------
  // What the modes mean

  lemma ReachableInMode(cfg: Config, rank: map<Package, nat>, s: State)
    requires Gated(cfg, rank) && Reachable(cfg, s)
    ensures ModesOk(cfg, s)
  {
    var order, actions :| After(cfg, order, actions) == Some(s);
    ModesAlways(cfg, rank, order, actions);
  }

  /** f is on stack. */
  predicate OnStack(stack: Stack, f: Stack) {
    stack.Frame? && (stack == f || OnStack(stack.caller, f))
  }

  lemma {:induction false} FrameOfStack(cfg: Config, executed: multiset<Package>, stack: Stack, f: Stack)
    requires InMode(cfg, executed, stack) && OnStack(stack, f)
    ensures f.Frame? && FrameInMode(cfg, executed, f.package, f.pc)
  {
    if stack != f {
      FrameOfStack(cfg, executed, stack.caller, f);
    }
  }

  lemma InModeMeans(cfg: Config, s: State, t: nat)
    requires ModesOk(cfg, s) && t < |s.phases|
    ensures t < |s.workers| && WorkerInMode(cfg, s.workers[t], s.shared.executed, s.phases[t])
  {
  }

  /** Fetch-only mode runs nobody's commands: no call of build, on any thread, is
      ever between extracting the sources and listing the output. */
  lemma FetchOnlyRunsNothing(cfg: Config, rank: map<Package, nat>, s: State)
    requires Gated(cfg, rank) && Reachable(cfg, s) && cfg.fetchOnly
    ensures s.shared.executed == multiset{}
    ensures forall t, f :: 0 <= t < |s.phases| && s.phases[t].Building? && OnStack(s.phases[t].stack, f) ==>
              f.Frame? && !f.pc.Stage? && !f.pc.Commands? && !f.pc.PackStaging? && !f.pc.PackInstall?
              && !f.pc.Record? && !f.pc.Truncate? && !f.pc.List?
  {
    ReachableInMode(cfg, rank, s);
    hide Gated, Reachable, InMode;
    forall t, f | 0 <= t < |s.phases| && s.phases[t].Building? && OnStack(s.phases[t].stack, f)
      ensures f.Frame? && !Works(f.pc)
    {
      InModeMeans(cfg, s, t);
      FrameOfStack(cfg, s.shared.executed, s.phases[t].stack, f);
    }
  }

  /** In every other mode a build that completes has run its commands to the end. */
  lemma CompletedHasRun(cfg: Config, rank: map<Package, nat>, s: State, p: Package)
    requires Gated(cfg, rank) && Reachable(cfg, s) && !cfg.fetchOnly
    requires s.shared.cleared[p] > 0 || p in s.shared.wasBuilt
    ensures s.shared.executed[p] > 0
  {
    ReachableInMode(cfg, rank, s);
    hide Gated, Reachable;
  }

  /** Forced mode: a package that was not forced runs no commands, counts as not
      built in this run, and never fails a worker. */
  lemma SuppressedDoesNothing(cfg: Config, rank: map<Package, nat>, s: State, p: Package)
    requires Gated(cfg, rank) && Reachable(cfg, s) && p in cfg.suppressed
    ensures s.shared.executed[p] == 0 && p !in s.shared.wasBuilt && !LostWorker(s, p)
  {
    ReachableInMode(cfg, rank, s);
    hide Gated, Reachable, InMode;
    forall t: nat
      ensures !IsLost(s, t, p)
    {
      if t < |s.phases| {
        InModeMeans(cfg, s, t);
      }
    }
  }
}
