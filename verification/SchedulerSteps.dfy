/** Every action keeps the scheduler's invariant. */
module SchedulerSteps {
  import opened Digraph
  import opened Packages
  import opened Scheduler
  import opened SchedulerInvariant

  // ---------------------------------------------------------------------
  // What other threads may rely on

  predicate Same(sh: Shared, sh': Shared, q: Package) {
    && (q in sh.built <==> q in sh'.built)
    && (q in sh.wasBuilt <==> q in sh'.wasBuilt)
    && (q in sh.locks <==> q in sh'.locks)
    && (q in sh.locks ==> sh.locks[q] == sh'.locks[q])
    && sh.cleared[q] == sh'.cleared[q]
    && sh.executed[q] == sh'.executed[q]
    && sh.aborted[q] == sh'.aborted[q]
  }

  predicate Grown(sh: Shared, sh': Shared) {
    sh.built <= sh'.built && sh.wasBuilt <= sh'.wasBuilt
  }

  lemma {:induction false} HeldByOwner(cfg: Config, t: nat, w: Package, sh: Shared, f: Stack, q: Package)
    requires StackOk(cfg, t, w, sh, f) && HasLocked(f, q)
    ensures Holds(sh, t, q)
  {
    if !(f.package == q && f.pc != Lock) {
      HeldByOwner(cfg, t, w, sh, f.caller, q);
    }
  }

  lemma {:induction false} StackStable(cfg: Config, t: nat, w: Package, sh: Shared, sh': Shared, f: Stack)
    requires StackOk(cfg, t, w, sh, f) && Grown(sh, sh')
    requires forall q :: HasLocked(f, q) ==> Same(sh, sh', q)
    ensures StackOk(cfg, t, w, sh', f)
  {
    if f.pc != Lock {
      assert HasLocked(f, f.package);
    }
    if f.caller.Frame? {
      forall q | HasLocked(f.caller, q)
        ensures Same(sh, sh', q)
      {
        assert HasLocked(f, q);
      }
      StackStable(cfg, t, w, sh, sh', f.caller);
    }
  }

  /** A step touches only its own package's flags and mutex; a throw also gives
      up the other mutexes of its own thread. */
  lemma StepIsLocal(cfg: Config, t: nat, sh: Shared, f: Stack, o: Outcome)
    requires f.Frame? && FrameMay(cfg, sh, f, o)
    requires f.pc != Lock ==> Holds(sh, t, f.package)
    ensures var sh' := FrameThen(cfg, t, sh, f, o);
            && Grown(sh, sh')
            && (forall q :: q in sh.locks && sh.locks[q] != t ==> Same(sh, sh', q))
            && (o != Throw ==> forall q :: q != f.package ==> Same(sh, sh', q))
  {
    assert f.pc == Lock ==> f.package !in sh.locks;
    hide FrameMay;
    var sh' := FrameThen(cfg, t, sh, f, o);
    forall q | q != f.package && (o != Throw || (q in sh.locks && sh.locks[q] != t))
      ensures Same(sh, sh', q)
    {
      OthersSame(cfg, t, sh, f, o, q);
    }
    assert Grown(sh, sh');
    hide FrameThen, Same;
  }

  lemma OthersSame(cfg: Config, t: nat, sh: Shared, f: Stack, o: Outcome, q: Package)
    requires f.Frame? && q != f.package && (o != Throw || (q in sh.locks && sh.locks[q] != t))
    ensures Same(sh, FrameThen(cfg, t, sh, f, o), q)
  {
  }

  // ---------------------------------------------------------------------
  // The stack of the thread that moves

  /** Until the outermost call returns, its package is neither built nor cleared. */
  lemma {:induction false} OutermostUnfinished(cfg: Config, t: nat, w: Package, sh: Shared, f: Stack)
    requires StackOk(cfg, t, w, sh, f) && Active(f.pc)
    ensures w !in sh.built && sh.cleared[w] == 0
  {
    if f.caller.Frame? {
      OutermostUnfinished(cfg, t, w, sh, f.caller);
    }
  }

  lemma LocalsStay(cfg: Config, sh: Shared, sh': Shared, p: Package, n: nat)
    requires LocalsBuilt(cfg, sh, p, n) && sh.wasBuilt <= sh'.wasBuilt
    ensures LocalsBuilt(cfg, sh', p, n)
  {
  }

  lemma WasBuiltGrows(cfg: Config, t: nat, sh: Shared, f: Stack, o: Outcome)
    requires f.Frame?
    ensures sh.wasBuilt <= FrameThen(cfg, t, sh, f, o).wasBuilt
  {
  }

  /** Where a call gets to, as far as its local dependencies are concerned. */
  lemma PositionMoves(cfg: Config, sh: Shared, f: Stack, pc: Pc)
    requires f.Frame? && FrameMay(cfg, sh, f, Goto(pc)) && PositionOk(cfg, sh, f.package, f.pc)
    ensures PositionOk(cfg, sh, f.package, pc)
  {
  }

  lemma PositionKept(cfg: Config, t: nat, sh: Shared, f: Stack, pc: Pc)
    requires f.Frame? && FrameMay(cfg, sh, f, Goto(pc)) && PositionOk(cfg, sh, f.package, f.pc)
    ensures PositionOk(cfg, FrameThen(cfg, t, sh, f, Goto(pc)), f.package, pc)
  {
    PositionMoves(cfg, sh, f, pc);
    WasBuiltGrows(cfg, t, sh, f, Goto(pc));
    hide FrameMay, FrameThen, LocalsBuilt;
    var n := if pc.LocalDeps? then pc.i else |DependsOn(cfg.depends, f.package)|;
    if pc.LocalDeps? || Late(pc) {
      LocalsStay(cfg, sh, FrameThen(cfg, t, sh, f, Goto(pc)), f.package, n);
    }
  }

  lemma FlagsKept(cfg: Config, t: nat, sh: Shared, f: Stack, pc: Pc)
    requires f.Frame? && FrameMay(cfg, sh, f, Goto(pc)) && (f.locally ==> f.package in sh.built)
    requires if f.pc == Lock then UnlockedOk(sh) else FlagsOk(cfg, sh, f.package, f.locally, f.pc)
    requires ClosedFlags(cfg, sh)
    ensures FlagsOk(cfg, FrameThen(cfg, t, sh, f, Goto(pc)), f.package, f.locally, pc)
  {
    assert sh.wasBuilt <= sh.built;
    hide ClosedFlags, Balanced;
    BalancedKept(cfg, t, sh, f, pc);
  }

  lemma BalancedKept(cfg: Config, t: nat, sh: Shared, f: Stack, pc: Pc)
    requires f.Frame? && FrameMay(cfg, sh, f, Goto(pc))
    requires if f.pc == Lock then UnlockedOk(sh) else Balanced(sh, f.package, if Hot(f.pc) then 1 else 0)
    ensures Balanced(FrameThen(cfg, t, sh, f, Goto(pc)), f.package, if Hot(pc) then 1 else 0)
  {
  }

  lemma MutexKept(cfg: Config, t: nat, sh: Shared, f: Stack, pc: Pc)
    requires f.Frame? && FrameMay(cfg, sh, f, Goto(pc)) && (f.pc != Lock ==> Holds(sh, t, f.package))
    ensures var sh' := FrameThen(cfg, t, sh, f, Goto(pc));
            Holds(sh', t, f.package) && sh.built <= sh'.built && pc != Lock
  {
  }

  /** The next position of a call is fine for the flags the step leaves behind. */
  lemma GotoKeepsFrame(cfg: Config, t: nat, sh: Shared, f: Stack, pc: Pc)
    requires f.Frame? && FrameMay(cfg, sh, f, Goto(pc)) && FrameOk(cfg, t, sh, f)
    requires f.pc == Lock ==> !HasLocked(f.caller, f.package)
    requires ClosedFlags(cfg, sh) && UnlockedOk(sh)
    ensures FrameOk(cfg, t, FrameThen(cfg, t, sh, f, Goto(pc)), f.(pc := pc))
  {
    hide FrameMay, FrameThen, FlagsOk, PositionOk, ClosedFlags, UnlockedOk, Holds;
    PositionKept(cfg, t, sh, f, pc);
    FlagsKept(cfg, t, sh, f, pc);
    MutexKept(cfg, t, sh, f, pc);
  }

  lemma CallKeepsStack(cfg: Config, t: nat, w: Package, sh: Shared, f: Stack, q: Package, locally: bool)
    requires StackOk(cfg, t, w, sh, f) && FrameMay(cfg, sh, f, Call(q, locally))
    requires Complete(cfg.depends) && ClosedFlags(cfg, sh)
    ensures StackOk(cfg, t, w, sh, Frame(q, locally, Lock, f))
  {
  }

  lemma ReturnKeepsStack(cfg: Config, t: nat, w: Package, sh: Shared, f: Stack, ok: bool)
    requires StackOk(cfg, t, w, sh, f) && f.pc == Leave(ok) && f.caller.Frame?
    requires ClosedFlags(cfg, sh)
    ensures StackOk(cfg, t, w, FrameThen(cfg, t, sh, f, Return(ok)), f.caller.(pc := Resume(f.caller.pc, ok)))
  {
    var sh' := FrameThen(cfg, t, sh, f, Return(ok));
    forall q | HasLocked(f.caller, q)
      ensures Same(sh, sh', q)
    {
    }
    StackStable(cfg, t, w, sh, sh', f.caller);
  }

  lemma OwnStack(cfg: Config, t: nat, w: Package, sh: Shared, f: Stack, o: Outcome)
    requires StackOk(cfg, t, w, sh, f) && FrameMay(cfg, sh, f, o)
    requires Complete(cfg.depends) && ClosedFlags(cfg, sh) && UnlockedOk(sh)
    requires w in cfg.depends && DepsBuilt(cfg.depends, sh.built, w)
    ensures WorkerOk(cfg, t, w, FrameThen(cfg, t, sh, f, o), PhaseThen(f, o))
  {
    var sh' := FrameThen(cfg, t, sh, f, o);
    StepIsLocal(cfg, t, sh, f, o);
    match o
    case Goto(pc) =>
      if HasLocked(f.caller, f.package) {
        HeldByOwner(cfg, t, w, sh, f.caller, f.package);
      }
      GotoKeepsFrame(cfg, t, sh, f, pc);
      if f.caller.Frame? {
        StackStable(cfg, t, w, sh, sh', f.caller);
      }
    case Call(q, locally) => CallKeepsStack(cfg, t, w, sh, f, q, locally);
    case Return(ok) =>
      if f.caller.Frame? {
        ReturnKeepsStack(cfg, t, w, sh, f, ok);
      }
    case Throw => OutermostUnfinished(cfg, t, w, sh, f);
  }

  // ---------------------------------------------------------------------
  // The flags

  lemma ClosedFlagsKept(cfg: Config, t: nat, w: Package, sh: Shared, f: Stack, o: Outcome)
    requires StackOk(cfg, t, w, sh, f) && FrameMay(cfg, sh, f, o) && ClosedFlags(cfg, sh)
    ensures ClosedFlags(cfg, FrameThen(cfg, t, sh, f, o))
  {
  }

  /** A package that becomes built is the one the thread was started for. */
  lemma NewlyBuiltIsOwn(cfg: Config, t: nat, w: Package, sh: Shared, f: Stack, o: Outcome, p: Package)
    requires StackOk(cfg, t, w, sh, f) && FrameMay(cfg, sh, f, o)
    requires p in FrameThen(cfg, t, sh, f, o).built && p !in sh.built
    ensures p == w
  {
  }

  lemma CountIsPositive(workers: seq<Package>, t: nat)
    requires t < |workers|
    ensures multiset(workers)[workers[t]] >= 1 && workers[t] in workers
  {
    assert workers[t] in multiset(workers);
  }

  lemma TwoWorkersCount(workers: seq<Package>, t: nat, u: nat)
    requires t < u < |workers| && workers[t] == workers[u]
    ensures multiset(workers)[workers[t]] >= 2
  {
    assert workers == workers[..u] + workers[u..];
    assert workers[..u][t] == workers[t] && workers[u..][0] == workers[u];
    CountIsPositive(workers[..u], t);
    CountIsPositive(workers[u..], 0);
    assert multiset(workers) == multiset(workers[..u]) + multiset(workers[u..]);
  }

  /** Until a package's build has cleared `building` it has a single worker. */
  lemma OnlyWorker(workers: seq<Package>, sh: Shared, t: nat, u: nat)
    requires t < |workers| && u < |workers| && t != u
    requires StartsOk(workers, sh) && sh.cleared[workers[u]] == 0
    ensures workers[t] != workers[u]
  {
    if workers[t] == workers[u] {
      TwoWorkersCount(workers, if t < u then t else u, if t < u then u else t);
    }
  }

  lemma StartsKept(cfg: Config, workers: seq<Package>, t: nat, sh: Shared, f: Stack, o: Outcome)
    requires t < |workers| && StackOk(cfg, t, workers[t], sh, f) && FrameMay(cfg, sh, f, o)
    requires StartsOk(workers, sh)
    ensures StartsOk(workers, FrameThen(cfg, t, sh, f, o))
  {
    var sh' := FrameThen(cfg, t, sh, f, o);
    CountIsPositive(workers, t);
    forall p | p in sh'.built
      ensures p in workers
    {
      if p !in sh.built {
        NewlyBuiltIsOwn(cfg, t, workers[t], sh, f, o, p);
      }
    }
    if f.pc == Clear {
      assert f.package in workers;
      assert multiset(workers)[f.package] == 1;
    }
  }

  /** Mutexes a throw gives up guard packages that are left settled. */
  lemma {:induction false} UnwoundAreSettled(cfg: Config, t: nat, w: Package, sh: Shared, f: Stack, q: Package)
    requires StackOk(cfg, t, w, sh, f) && HasLocked(f, q) && Active(f.pc) && !Hot(f.pc)
    ensures Settled(sh, q) && Balanced(sh, q, 0)
  {
    if !(f.package == q && f.pc != Lock) {
      UnwoundAreSettled(cfg, t, w, sh, f.caller, q);
    }
  }

  lemma UnlockedKept(cfg: Config, phases: seq<Phase>, t: nat, w: Package, sh: Shared, f: Stack, o: Outcome)
    requires t < |phases| && phases[t] == Building(f)
    requires StackOk(cfg, t, w, sh, f) && FrameMay(cfg, sh, f, o)
    requires UnlockedOk(sh) && LocksOk(phases, sh)
    ensures UnlockedOk(FrameThen(cfg, t, sh, f, o))
  {
    var sh' := FrameThen(cfg, t, sh, f, o);
    StepIsLocal(cfg, t, sh, f, o);
    forall q | q !in sh'.locks
      ensures Settled(sh', q) && Balanced(sh', q, 0)
    {
      if q != f.package {
        if q in sh.locks {
          assert o == Throw && HasLocked(f.caller, q);
          UnwoundAreSettled(cfg, t, w, sh, f.caller, q);
        }
      }
    }
  }

  lemma LocksKept(cfg: Config, phases: seq<Phase>, t: nat, w: Package, sh: Shared, f: Stack, o: Outcome)
    requires t < |phases| && phases[t] == Building(f)
    requires StackOk(cfg, t, w, sh, f) && FrameMay(cfg, sh, f, o) && LocksOk(phases, sh)
    ensures LocksOk(phases[t := PhaseThen(f, o)], FrameThen(cfg, t, sh, f, o))
  {
    var sh' := FrameThen(cfg, t, sh, f, o);
    var phases' := phases[t := PhaseThen(f, o)];
    StepIsLocal(cfg, t, sh, f, o);
    forall q | q in sh'.locks
      ensures sh'.locks[q] < |phases'| && LockedIn(phases'[sh'.locks[q]], q)
    {
      if sh'.locks[q] == t {
        if q in sh.locks {
          assert HasLocked(f, q);
          if o.Return? {
            assert HasLocked(f.caller, q);
          }
        }
      } else {
        assert LockedIn(phases[sh.locks[q]], q);
      }
    }
  }

  lemma OtherStackKept(cfg: Config, t: nat, sh: Shared, sh': Shared, u: nat, w: Package, g: Stack)
    requires u != t && StackOk(cfg, u, w, sh, g) && Grown(sh, sh')
    requires forall q :: q in sh.locks && sh.locks[q] != t ==> Same(sh, sh', q)
    ensures StackOk(cfg, u, w, sh', g)
  {
    forall q | HasLocked(g, q)
      ensures Same(sh, sh', q)
    {
      HeldByOwner(cfg, u, w, sh, g, q);
    }
    StackStable(cfg, u, w, sh, sh', g);
  }

  lemma OtherWorkerKept(cfg: Config, s: State, t: nat, o: Outcome, u: nat)
    requires Core(cfg, s) && May(cfg, s, Work(t, o)) && u < |s.phases| && u != t
    ensures WorkerOk(cfg, u, s.workers[u], Then(cfg, s, Work(t, o)).shared, s.phases[u])
  {
    var f, w := s.phases[t].stack, s.workers[u];
    assert WorkerOk(cfg, u, w, s.shared, s.phases[u]);
    assert WorkerOk(cfg, t, s.workers[t], s.shared, s.phases[t]);
    assert StartsOk(s.workers, s.shared);
    hide Core, FrameMay, FrameThen, Same, StartsOk;
    var sh' := FrameThen(cfg, t, s.shared, f, o);
    StepIsLocal(cfg, t, s.shared, f, o);
    if s.phases[u].Building? {
      OtherStackKept(cfg, t, s.shared, sh', u, w, s.phases[u].stack);
    } else if w !in s.shared.built && s.shared.cleared[w] == 0 {
      OnlyWorker(s.workers, s.shared, t, u);
      if w in sh'.built {
        NewlyBuiltIsOwn(cfg, t, s.workers[t], s.shared, f, o, w);
      }
      ClearedIsOwn(cfg, t, s.workers[t], s.shared, f, o, w);
    }
  }

  /** Only a worker's own package goes from not built to cleared. */
  lemma ClearedIsOwn(cfg: Config, t: nat, w: Package, sh: Shared, f: Stack, o: Outcome, p: Package)
    requires StackOk(cfg, t, w, sh, f) && p !in sh.built && p != w
    ensures FrameThen(cfg, t, sh, f, o).cleared[p] == sh.cleared[p]
  {
  }

  // ---------------------------------------------------------------------
  // States

  lemma LiveAfter(phases: seq<Phase>, t: nat, phase: Phase)
    requires t < |phases| && !phases[t].Ended?
    ensures !phase.Ended? ==> Live(phases[t := phase]) == Live(phases)
    ensures phase.Ended? ==> |Live(phases[t := phase])| == |Live(phases)| - 1
    ensures t in Live(phases)
  {
    if phase.Ended? {
      assert Live(phases[t := phase]) == Live(phases) - {t};
    } else {
      assert Live(phases[t := phase]) == Live(phases);
    }
  }

  /** Replacing a phase that is not lost keeps every lost worker. */
  lemma FailuresStay(s: State, s': State, t: nat)
    requires FailuresOk(s) && t < |s.phases| && |s'.phases| == |s.phases|
    requires s'.workers == s.workers && s'.failed == s.failed && s'.failedPackages == s.failedPackages
    requires forall u :: 0 <= u < |s.phases| && u != t ==> s'.phases[u] == s.phases[u]
    requires Lost(s.phases[t]) <==> Lost(s'.phases[t])
    ensures FailuresOk(s')
  {
    forall i | 0 <= i < |s.failedPackages|
      ensures LostWorker(s', s.failedPackages[i])
    {
      assert LostWorker(s, s.failedPackages[i]);
      var u: nat :| IsLost(s, u, s.failedPackages[i]);
      assert IsLost(s', u, s.failedPackages[i]);
    }
  }

  /** A built package's dependencies, direct or not, are built. */
  lemma {:induction false} BuiltAlongPath(cfg: Config, sh: Shared, path: seq<Package>)
    requires ClosedFlags(cfg, sh) && IsPath(Targets(cfg.depends), path) && path[0] in sh.built
    ensures path[|path| - 1] in sh.built
  {
    if |path| > 1 {
      var i := EdgeIsDepend(cfg.depends, path[0], path[1]);
      assert DependsOn(cfg.depends, path[0])[i].package == path[1];
      BuiltAlongPath(cfg, sh, path[1..]);
    }
  }

  lemma PathIsBuilt(cfg: Config, sh: Shared, path: seq<Package>)
    requires IsPath(Targets(cfg.depends), path) && |path| >= 2
    requires ClosedFlags(cfg, sh) && DepsBuilt(cfg.depends, sh.built, path[0])
    ensures path[|path| - 1] in sh.built
  {
    var i := EdgeIsDepend(cfg.depends, path[0], path[1]);
    assert DependsOn(cfg.depends, path[0])[i].package in sh.built;
    BuiltAlongPath(cfg, sh, path[1..]);
  }

  /** A package that is not built is not below one whose dependencies are. */
  lemma UnbuiltIsNotBelow(cfg: Config, sh: Shared, p: Package, q: Package)
    requires ClosedFlags(cfg, sh) && DepsBuilt(cfg.depends, sh.built, p) && q !in sh.built
    ensures !Reaches(Targets(cfg.depends), p, q)
  {
    if Reaches(Targets(cfg.depends), p, q) {
      var path :| |path| >= 2 && PathFromTo(Targets(cfg.depends), path, p, q);
      PathIsBuilt(cfg, sh, path);
    }
  }

  lemma BaseBuiltMeansAllBuilt(cfg: Config, rank: map<Package, nat>, sh: Shared, p: Package)
    requires Gated(cfg, rank) && ClosedFlags(cfg, sh) && cfg.base in sh.built && p in cfg.depends
    ensures p in sh.built
  {
    if p != cfg.base {
      var path :| |path| >= 2 && PathFromTo(Targets(cfg.depends), path, cfg.base, p);
      BuiltAlongPath(cfg, sh, path);
    }
  }

  /** Once some worker has failed the base package is never built. */
  lemma FailureExcludesBase(cfg: Config, rank: map<Package, nat>, s: State)
    requires Gated(cfg, rank) && Core(cfg, s) && s.failed
    ensures cfg.base !in s.shared.built
  {
    assert LostWorker(s, s.failedPackages[0]);
    var t: nat :| IsLost(s, t, s.failedPackages[0]);
    assert WorkerOk(cfg, t, s.workers[t], s.shared, s.phases[t]);
    if cfg.base in s.shared.built {
      BaseBuiltMeansAllBuilt(cfg, rank, s.shared, s.workers[t]);
    }
  }

  lemma WorkKeepsCore(cfg: Config, s: State, t: nat, o: Outcome)
    requires Core(cfg, s) && Complete(cfg.depends) && May(cfg, s, Work(t, o))
    ensures Core(cfg, Then(cfg, s, Work(t, o)))
  {
    hide FrameMay, FrameThen, PhaseThen, StackOk, ClosedFlags, StartsOk, UnlockedOk, LocksOk, FailuresOk, Live;
    var s' := Then(cfg, s, Work(t, o));
    var f, w := s.phases[t].stack, s.workers[t];
    assert WorkerOk(cfg, t, w, s.shared, s.phases[t]);
    OwnStack(cfg, t, w, s.shared, f, o);
    forall u | 0 <= u < |s'.phases|
      ensures WorkerOk(cfg, u, s'.workers[u], s'.shared, s'.phases[u])
    {
      if u != t {
        OtherWorkerKept(cfg, s, t, o, u);
      }
    }
    ClosedFlagsKept(cfg, t, w, s.shared, f, o);
    StartsKept(cfg, s.workers, t, s.shared, f, o);
    UnlockedKept(cfg, s.phases, t, w, s.shared, f, o);
    LocksKept(cfg, s.phases, t, w, s.shared, f, o);
    PhaseGoesOn(f, o);
    FailuresStay(s, s', t);
    LiveAfter(s.phases, t, PhaseThen(f, o));
  }

  lemma PhaseGoesOn(f: Stack, o: Outcome)
    requires f.Frame?
    ensures var phase := PhaseThen(f, o); phase.Building? || phase.Finishing? || phase.Failing?
  {
  }

  /** Flags only grow, `building` only shrinks while workers move. */
  lemma MainKeptByWork(cfg: Config, s: State, t: nat, o: Outcome)
    requires Core(cfg, s) && MainOk(cfg, s) && Complete(cfg.depends) && May(cfg, s, Work(t, o))
    requires s.failed ==> cfg.base !in Then(cfg, s, Work(t, o)).shared.built
    ensures MainOk(cfg, Then(cfg, s, Work(t, o)))
  {
    var s' := Then(cfg, s, Work(t, o));
    var f, w := s.phases[t].stack, s.workers[t];
    assert WorkerOk(cfg, t, w, s.shared, s.phases[t]);
    StepIsLocal(cfg, t, s.shared, f, o);
    LiveAfter(s.phases, t, PhaseThen(f, o));
    assert s'.shared.building <= s.shared.building;
  }

  /** An unbuilt package, or something below it, has all its dependencies built. */
  lemma {:induction false} LowestUnbuilt(cfg: Config, rank: map<Package, nat>, sh: Shared, p: Package)
      returns (q: Package)
    requires Gated(cfg, rank) && p in cfg.depends && p !in sh.built
    ensures q in cfg.depends && q !in sh.built && DepsBuilt(cfg.depends, sh.built, q)
    decreases rank[p]
  {
    if i :| 0 <= i < |DependsOn(cfg.depends, p)| && DependsOn(cfg.depends, p)[i].package !in sh.built {
      DependIsEdge(cfg.depends, p, i);
      q := LowestUnbuilt(cfg, rank, sh, DependsOn(cfg.depends, p)[i].package);
    } else {
      q := p;
    }
  }

  /** With every worker ended and nothing ready, the build is over. */
  lemma QuietMeansOver(cfg: Config, rank: map<Package, nat>, s: State)
    requires Gated(cfg, rank) && Core(cfg, s) && Live(s.phases) == {}
    requires forall j :: 0 <= j < |s.order| ==> !Ready(cfg.depends, s.shared.built, s.shared.building, s.order[j])
    ensures Over(cfg, s)
  {
    if cfg.base !in s.shared.built {
      var q := LowestUnbuilt(cfg, rank, s.shared, cfg.base);
      var j :| 0 <= j < |s.order| && s.order[j] == q;
      assert q in s.shared.building;
      assert multiset(s.workers)[q] >= 1;
      assert q in multiset(s.workers);
      var t :| 0 <= t < |s.workers| && s.workers[t] == q;
      assert WorkerOk(cfg, t, q, s.shared, s.phases[t]);
      assert t !in Live(s.phases);
      assert Lost(s.phases[t]);
    }
  }

  lemma StartKeepsWorkers(cfg: Config, s: State, p: Package)
    requires WorkersOk(cfg, s) && Candidate(cfg, s.shared, Some(p))
    ensures WorkersOk(cfg, StartWorker(s, p))
    ensures |s.workers| == |s.phases|
  {
    hide FlagsOk, PositionOk, HasLocked;
    var s' := StartWorker(s, p);
    forall t | 0 <= t < |s'.phases|
      ensures WorkerOk(cfg, t, s'.workers[t], s'.shared, s'.phases[t])
    {
      if t < |s.phases| {
        assert WorkerOk(cfg, t, s.workers[t], s.shared, s.phases[t]);
        if s.phases[t].Building? {
          StackStable(cfg, t, s.workers[t], s.shared, s'.shared, s.phases[t].stack);
        }
      } else {
        assert PositionOk(cfg, s'.shared, p, Lock) by {
          LockIsFine(cfg, s'.shared, p);
        }
      }
    }
  }

  lemma LockIsFine(cfg: Config, sh: Shared, p: Package)
    ensures PositionOk(cfg, sh, p, Lock)
  {
  }

  lemma StartKeepsCounts(cfg: Config, s: State, p: Package)
    requires StartsOk(s.workers, s.shared) && p !in s.shared.building
    ensures StartsOk(StartWorker(s, p).workers, StartWorker(s, p).shared)
  {
    var s' := StartWorker(s, p);
    assert forall q :: multiset(s'.workers)[q] == multiset(s.workers)[q] + if q == p then 1 else 0;
  }

  lemma StartKeeps(cfg: Config, s: State, p: Package)
    requires Core(cfg, s) && Candidate(cfg, s.shared, Some(p)) && (cfg.limit > 0 ==> s.running < cfg.limit)
    ensures Inv(cfg, StartWorker(s, p))
  {
    hide WorkersOk, StartsOk, DepsBuilt;
    var s' := StartWorker(s, p);
    StartKeepsWorkers(cfg, s, p);
    StartKeepsCounts(cfg, s, p);
    StartKeepsFailures(s, p);
    assert Live(s'.phases) == Live(s.phases) + {|s.phases|};
    hide FailuresOk;
  }

  lemma StartKeepsFailures(s: State, p: Package)
    requires FailuresOk(s) && |s.workers| == |s.phases|
    ensures FailuresOk(StartWorker(s, p))
  {
    var s' := StartWorker(s, p);
    forall i | 0 <= i < |s.failedPackages|
      ensures LostWorker(s', s.failedPackages[i])
    {
      assert LostWorker(s, s.failedPackages[i]);
      var u: nat :| IsLost(s, u, s.failedPackages[i]);
      assert IsLost(s', u, s.failedPackages[i]);
    }
  }

  /** Core says nothing about the main thread. */
  lemma CoreIgnoresMain(cfg: Config, s: State, main: Main)
    requires Core(cfg, s)
    ensures Core(cfg, s.(main := main))
  {
    var s' := s.(main := main);
    forall p | LostWorker(s, p)
      ensures LostWorker(s', p)
    {
      var t: nat :| IsLost(s, t, p);
      assert IsLost(s', t, p);
    }
  }

  lemma MainStepKeeps(cfg: Config, rank: map<Package, nat>, s: State)
    requires Gated(cfg, rank) && Inv(cfg, s) && May(cfg, s, MainStep)
    ensures Inv(cfg, Then(cfg, s, MainStep))
  {
    hide Core, Gated;
    if s.main.Picked? {
      PickedKeeps(cfg, s);
    } else if s.main.ScanBuilt? {
      ScanBuiltKeeps(cfg, rank, s);
    } else if s.main.ScanBuilding? || s.main.ScanCan? {
      ScanFlagsKeeps(cfg, s);
    } else if s.main.ScanDep? {
      ScanDepKeeps(cfg, s);
    } else {
      RestKeeps(cfg, rank, s);
    }
  }

  lemma PickedKeeps(cfg: Config, s: State)
    requires Inv(cfg, s) && s.main.Picked?
    ensures Inv(cfg, Then(cfg, s, MainStep))
  {
    hide Core;
    StartKeeps(cfg, s, s.main.package);
  }

  lemma ScanBuiltKeeps(cfg: Config, rank: map<Package, nat>, s: State)
    requires Gated(cfg, rank) && Inv(cfg, s) && s.main.ScanBuilt?
    ensures Inv(cfg, Then(cfg, s, MainStep))
  {
    hide Core, Gated;
    CoreIgnoresMain(cfg, s, Then(cfg, s, MainStep).main);
    if s.main.i >= |s.order| && s.main.best.None? && Live(s.phases) == {} {
      QuietMeansOver(cfg, rank, s);
    }
  }

  lemma ScanFlagsKeeps(cfg: Config, s: State)
    requires Inv(cfg, s) && (s.main.ScanBuilding? || s.main.ScanCan?)
    ensures Inv(cfg, Then(cfg, s, MainStep))
  {
    hide Core, Live;
    CoreIgnoresMain(cfg, s, Then(cfg, s, MainStep).main);
    CoreFacts(cfg, s);
  }

  lemma ScanDepKeeps(cfg: Config, s: State)
    requires Inv(cfg, s) && s.main.ScanDep?
    ensures Inv(cfg, Then(cfg, s, MainStep))
  {
    hide Core, Live;
    CoreIgnoresMain(cfg, s, Then(cfg, s, MainStep).main);
    CoreFacts(cfg, s);
  }

  lemma RestKeeps(cfg: Config, rank: map<Package, nat>, s: State)
    requires Gated(cfg, rank) && Inv(cfg, s) && May(cfg, s, MainStep)
    requires !s.main.Picked? && !s.main.ScanBuilt? && !s.main.ScanBuilding? && !s.main.ScanCan? && !s.main.ScanDep?
    ensures Inv(cfg, Then(cfg, s, MainStep))
  {
    hide Core, Gated, Live;
    CoreIgnoresMain(cfg, s, Then(cfg, s, MainStep).main);
    CoreFacts(cfg, s);
    if s.failed {
      FailureExcludesBase(cfg, rank, s);
    }
  }

  lemma CoreFacts(cfg: Config, s: State)
    requires Core(cfg, s)
    ensures s.running > 0 <==> Live(s.phases) != {}
    ensures cfg.limit > 0 ==> s.running <= cfg.limit
    ensures forall i :: 0 <= i < |s.order| ==> s.order[i] in cfg.depends
    ensures forall p :: p in s.shared.built ==> p in cfg.depends && DepsBuilt(cfg.depends, s.shared.built, p)
  {
    forall i | 0 <= i < |s.order|
      ensures s.order[i] in cfg.depends
    {
      var p := s.order[i];
      assert p in s.order;
    }
  }

  lemma PhaseMoves(cfg: Config, s: State, t: nat, phase: Phase)
    requires Core(cfg, s) && t < |s.phases| && !s.phases[t].Building?
    requires WorkerOk(cfg, t, s.workers[t], s.shared, phase)
    ensures |s.workers| == |s.phases[t := phase]|
    ensures forall u :: 0 <= u < |s.phases| ==>
              WorkerOk(cfg, u, s.workers[u], s.shared, s.phases[t := phase][u])
    ensures LocksOk(s.phases[t := phase], s.shared)
  {
    forall u | 0 <= u < |s.phases|
      ensures WorkerOk(cfg, u, s.workers[u], s.shared, s.phases[t := phase][u])
    {
      assert WorkerOk(cfg, u, s.workers[u], s.shared, s.phases[u]);
    }
    forall p | p in s.shared.locks
      ensures LockedIn(s.phases[t := phase][s.shared.locks[p]], p)
    {
      assert LockedIn(s.phases[s.shared.locks[p]], p);
    }
  }

  lemma FinishKeeps(cfg: Config, s: State, t: nat, order: seq<Package>)
    requires Inv(cfg, s) && May(cfg, s, Finish(t, order))
    ensures Inv(cfg, Then(cfg, s, Finish(t, order)))
  {
    hide StackOk, ClosedFlags, StartsOk, UnlockedOk, LocksOk, ScanOk, Candidate, Listing;
    assert WorkerOk(cfg, t, s.workers[t], s.shared, s.phases[t]);
    PhaseMoves(cfg, s, t, Ending(true));
    LiveAfter(s.phases, t, Ending(true));
    FailuresStay(s, Then(cfg, s, Finish(t, order)), t);
  }

  lemma FailKeeps(cfg: Config, s: State, t: nat)
    requires Inv(cfg, s) && May(cfg, s, Fail(t))
    ensures Inv(cfg, Then(cfg, s, Fail(t)))
  {
    hide StackOk, ClosedFlags, StartsOk, UnlockedOk, LocksOk, ScanOk, Candidate, Listing;
    var s' := Then(cfg, s, Fail(t));
    assert WorkerOk(cfg, t, s.workers[t], s.shared, s.phases[t]);
    PhaseMoves(cfg, s, t, Ending(false));
    LiveAfter(s.phases, t, Ending(false));
    forall i | 0 <= i < |s'.failedPackages|
      ensures LostWorker(s', s'.failedPackages[i])
    {
      if i < |s.failedPackages| {
        assert LostWorker(s, s.failedPackages[i]);
      var u: nat :| IsLost(s, u, s.failedPackages[i]);
        assert IsLost(s', u, s.failedPackages[i]);
      } else {
        assert IsLost(s', t, s.workers[t]);
      }
    }
  }

  lemma EndKeeps(cfg: Config, s: State, t: nat)
    requires Inv(cfg, s) && May(cfg, s, End(t))
    ensures Inv(cfg, Then(cfg, s, End(t)))
  {
    hide StackOk, ClosedFlags, StartsOk, UnlockedOk, LocksOk, ScanOk, Candidate, Listing;
    assert WorkerOk(cfg, t, s.workers[t], s.shared, s.phases[t]);
    PhaseMoves(cfg, s, t, Ended(s.phases[t].ok));
    LiveAfter(s.phases, t, Ended(s.phases[t].ok));
    FailuresStay(s, Then(cfg, s, End(t)), t);
  }

  // ---------------------------------------------------------------------
  // Every step, every run

  lemma StepKeeps(cfg: Config, rank: map<Package, nat>, s: State, a: Action)
    requires Gated(cfg, rank) && Inv(cfg, s) && May(cfg, s, a)
    ensures Inv(cfg, Then(cfg, s, a))
  {
    match a
    case MainStep => MainStepKeeps(cfg, rank, s);
    case SpuriousWakeup => CoreIgnoresMain(cfg, s, Notify(s.main));
    case Work(t, o) =>
      WorkKeepsCore(cfg, s, t, o);
      if s.failed {
        FailureExcludesBase(cfg, rank, Then(cfg, s, a));
      }
      MainKeptByWork(cfg, s, t, o);
    case Finish(t, order) => FinishKeeps(cfg, s, t, order);
    case Fail(t) => FailKeeps(cfg, s, t);
    case End(t) => EndKeeps(cfg, s, t);
  }

  /** The invariant holds after every run of every schedule. */
  lemma {:induction false} InvAlways(cfg: Config, rank: map<Package, nat>, order: seq<Package>, actions: seq<Action>)
    requires Gated(cfg, rank)
    ensures var s := After(cfg, order, actions); s.Some? ==> Inv(cfg, s.value)
  {
    if actions == [] {
      assert Live([]) == {};
    } else {
      var last := |actions| - 1;
      InvAlways(cfg, rank, order, actions[..last]);
      var r := After(cfg, order, actions[..last]);
      if r.Some? && May(cfg, r.value, actions[last]) {
        StepKeeps(cfg, rank, r.value, actions[last]);
      }
    }
  }
}
