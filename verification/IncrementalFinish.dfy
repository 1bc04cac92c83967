/** A build that goes well can always be finished. */
module IncrementalFinish {
  import opened Packages
  import opened Scheduler
  import opened SchedulerInvariant
  import opened SchedulerTheorems
  import opened SchedulerProgress
  import opened SchedulerBound
  import opened SchedulerRuns
  import opened Worlds
  import opened Incremental
  import opened IncrementalInvariant
  import opened IncrementalResults
  import opened IncrementalTheorems
  import opened IncrementalRuns

  // ---------------------------------------------------------------------
  // Runs from any state

  ghost function AfterFrom(B: Setup, s: BuildState, moves: seq<Move>): Option<BuildState>
    decreases |moves|
  {
    if moves == [] then Some(s)
    else if CanMove(B, s, moves[0]) then AfterFrom(B, Moved(B, s, moves[0]), moves[1..])
    else None
  }

  ghost predicate LeadsTo(B: Setup, s: BuildState, s': BuildState) {
    exists moves :: AfterFrom(B, s, moves) == Some(s')
  }

  lemma LeadsToItself(B: Setup, s: BuildState)
    ensures LeadsTo(B, s, s)
  {
    assert AfterFrom(B, s, []) == Some(s);
  }

  lemma LeadsFirst(B: Setup, s: BuildState, m: Move, s': BuildState)
    requires CanMove(B, s, m) && LeadsTo(B, Moved(B, s, m), s')
    ensures LeadsTo(B, s, s')
  {
    hide CanMove, Moved;
    var moves :| AfterFrom(B, Moved(B, s, m), moves) == Some(s');
    assert ([m] + moves)[1..] == moves;
    assert AfterFrom(B, s, [m] + moves) == Some(s');
  }

  // ---------------------------------------------------------------------
  // Going well

  ghost predicate PackageFine(B: Setup, s: BuildState, p: Package)
    requires p in B.W.own
  {
    p in s.disk
    && (Def(B.T, B.W, p).hashOutput ==>
          && !Def(B.T, B.W, p).clean
          && (s.disk[p].outputInfo.Some? || Unpacked(s, p)))
  }

  /** p is not built, and its archives are not there unless its commands ran. */
  predicate Unpacked(s: BuildState, p: Package)
    requires p in s.disk
  {
    && p !in s.sched.shared.built && (s.disk[p].install.None? || s.disk[p].newOut.Some?)
    && (s.disk[p].newOut.Some? ==> s.sched.shared.executed[p] > 0)
  }

  predicate StackFine(f: Stack) {
    f.Frame? ==> f.pc != Leave(false) && StackFine(f.caller)
  }

  predicate PhaseFine(phase: Phase) {
    !phase.Failing? && !Lost(phase) && (phase.Building? ==> StackFine(phase.stack))
  }

  /** Nothing has failed, and outputs that others may hash are there or will be. */
  ghost predicate Fine(B: Setup, s: BuildState)
    requires SetupOk(B)
  {
    && BuildInv(B, s)
    && s.sched.shared.aborted == multiset{} && !s.sched.failed
    && (forall p :: p in B.W.own ==> PackageFine(B, s, p))
    && forall t :: 0 <= t < |s.sched.phases| ==> PhaseFine(s.sched.phases[t])
  }

  lemma FineHas(B: Setup, s: BuildState)
    requires SetupOk(B) && Fine(B, s)
    ensures BuildInv(B, s) && s.sched.shared.aborted == multiset{} && !s.sched.failed
    ensures WorldOk(B.T, B.W) && Inv(B.cfg, s.sched) && s.disk.Keys == B.W.own.Keys
    ensures forall p :: p in B.W.own ==> PackageFine(B, s, p)
    ensures forall t :: 0 <= t < |s.sched.phases| ==> PhaseFine(s.sched.phases[t])
  {
    StoreHas(B, s);
    hide SetupOk, BuildInv, PackageFine, PhaseFine;
  }

  lemma FineFrom(B: Setup, s: BuildState)
    requires SetupOk(B) && BuildInv(B, s) && s.sched.shared.aborted == multiset{} && !s.sched.failed
    requires forall p :: p in B.W.own ==> PackageFine(B, s, p)
    requires forall t: nat :: t < |s.sched.phases| ==> PhaseFine(s.sched.phases[t])
    ensures Fine(B, s)
  {
    hide SetupOk, BuildInv, PackageFine, PhaseFine;
  }

  lemma FineMeans(B: Setup, s: BuildState, p: Package)
    requires p in B.W.own && PackageFine(B, s, p)
    ensures p in s.disk
    ensures Def(B.T, B.W, p).hashOutput ==>
              && !Def(B.T, B.W, p).clean
              && (s.disk[p].outputInfo.Some?
                  || (&& p !in s.sched.shared.built && (s.disk[p].install.None? || s.disk[p].newOut.Some?)
                      && (s.disk[p].newOut.Some? ==> s.sched.shared.executed[p] > 0)))
  {
  }

  lemma PackageFineFrom(B: Setup, s: BuildState, p: Package)
    requires p in B.W.own && p in s.disk
    requires Def(B.T, B.W, p).hashOutput ==>
              && !Def(B.T, B.W, p).clean
              && (s.disk[p].outputInfo.Some?
                  || (&& p !in s.sched.shared.built && (s.disk[p].install.None? || s.disk[p].newOut.Some?)
                      && (s.disk[p].newOut.Some? ==> s.sched.shared.executed[p] > 0)))
    ensures PackageFine(B, s, p)
  {
  }

  // ---------------------------------------------------------------------
  // One more move

  const NOTHING_SPECIAL := Effect(0, None)

  /** A next step of a call that fails nowhere and builds only what it has to. */
  ghost function SmoothOutcome(B: Setup, s: BuildState, f: Stack): (o: Outcome)
    requires f.Frame? && f.package in B.W.own && f.package in s.disk
    requires f.pc == Lock ==> f.package !in s.sched.shared.locks
    ensures FrameMay(B.cfg, s.sched.shared, f, o)
  {
    if f.pc == Lock then Goto(Check)
    else if f.pc == Decide && !f.locally && !Rebuilds(B, s.disk[f.package], f.package, 0) then Goto(Leave(true))
    else SomeOutcome(B.cfg, s.sched.shared, f)
  }

  lemma SmoothIsSmooth(B: Setup, s: BuildState, f: Stack)
    requires f.Frame? && f.package in B.W.own && f.package in s.disk && f.pc != Leave(false)
    requires f.pc == Lock ==> f.package !in s.sched.shared.locks
    ensures var o := SmoothOutcome(B, s, f);
            && !Fails(o) && !(o == Return(false))
            && (f.pc == Decide ==>
                  o == Goto(if f.locally || Rebuilds(B, s.disk[f.package], f.package, 0) then LocalDeps(0)
                            else Leave(true)))
            && (f.pc == Prepare ==> o == Goto(Decide))
  {
    hide Rebuilds;
  }

  lemma DecideFine(B: Setup, disk: Disk, f: Stack)
    requires f.Frame? && f.pc == Decide && OnDisk(B, disk, f.package) && f.package in disk && f.package in B.W.own
    ensures var fs := disk[f.package];
            var o := Goto(if f.locally || Rebuilds(B, fs, f.package, 0) then LocalDeps(0) else Leave(true));
            && DiskMay(B, disk, f, o, NOTHING_SPECIAL)
            && FilesThen(B, disk, f, o, NOTHING_SPECIAL) == fs
            && (o == Goto(Leave(true)) ==> fs.install.Some?)
  {
    hide WorldOk, Known;
  }

  /** Worker t can move smoothly. */
  lemma SmoothMoves(B: Setup, s: BuildState, t: nat) returns (o: Outcome)
    requires SetupOk(B) && Fine(B, s) && t < |s.sched.phases| && s.sched.phases[t].Building?
    requires s.sched.phases[t].stack.Frame? && s.sched.phases[t].stack.package in B.W.own
    requires var f := s.sched.phases[t].stack;
             f.package in s.disk && f.pc != Leave(false) && (f.pc == Lock ==> f.package !in s.sched.shared.locks)
    ensures o == SmoothOutcome(B, s, s.sched.phases[t].stack) && CanMove(B, s, Move(Work(t, o), NOTHING_SPECIAL))
  {
    hide *;
    FineHas(B, s);
    TopFilesAre(B, s, t);
    var f := s.sched.phases[t].stack;
    o := SmoothOutcome(B, s, f);
    SmoothIsSmooth(B, s, f);
    if f.pc == Prepare {
      forall q | q in B.W.own && q in s.sched.shared.built && Def(B.T, B.W, q).hashOutput
        ensures q in s.disk && s.disk[q].outputInfo.Some?
      {
        FineMeans(B, s, q);
      }
      OutputsAllow(B, s, t, NOTHING_SPECIAL);
    } else if f.pc == Decide {
      DecideFine(B, s.disk, f);
    } else {
      NothingIsMissing(B, s, f, o, NOTHING_SPECIAL);
    }
    CanWork(B, s, t, o, NOTHING_SPECIAL);
  }

  lemma NewlyBuilt(cfg: Config, t: nat, sh: Shared, f: Stack, o: Outcome)
    requires f.Frame? && FrameMay(cfg, sh, f, o) && cfg.suppressed == {} && !cfg.fetchOnly
    ensures FrameThen(cfg, t, sh, f, o).built
            == sh.built
               + if f.pc == MarkBuilt || (f.pc == Decide && o == Goto(Leave(true))) then {f.package} else {}
  {
  }

  lemma OwnFine(B: Setup, s: BuildState, t: nat, o: Outcome)
    requires SetupOk(B) && Fine(B, s) && t < |s.sched.phases| && s.sched.phases[t].Building?
    requires s.sched.phases[t].stack.Frame? && s.sched.phases[t].stack.package in B.W.own
    requires var f := s.sched.phases[t].stack;
             f.package in s.disk && f.pc != Leave(false) && (f.pc == Lock ==> f.package !in s.sched.shared.locks)
    requires o == SmoothOutcome(B, s, s.sched.phases[t].stack) && CanMove(B, s, Move(Work(t, o), NOTHING_SPECIAL))
    ensures PackageFine(B, Moved(B, s, Move(Work(t, o), NOTHING_SPECIAL)), s.sched.phases[t].stack.package)
  {
    hide *;
    FineHas(B, s);
    var plan := Plan([], (x, y) => [], {}, {});
    var f, s' := MoveFacts(B, s, t, o, NOTHING_SPECIAL);
    var p := f.package;
    FineMeans(B, s, p);
    SetupGraph(B);
    SmoothIsSmooth(B, s, f);
    NewlyBuilt(B.cfg, t, s.sched.shared, f, o);
    ExecutedGrows(B.cfg, t, s.sched.shared, f, o, p);
    TopFilesAre(B, s, t);
    TopFacts(B, s, f);
    PackingHas(B, s.disk[p], p, f.locally, p !in s.spoiled);
    FinePcs(f.pc);
    if f.pc == Decide {
      DecideFine(B, s.disk, f);
      NotExecuted(B.cfg, s.sched, t);
    } else {
      NotFailing(B.cfg, s.sched.shared, f, o);
      GentlyElsewhere(B, plan, s, t, o, NOTHING_SPECIAL);
      GentlyMeans(B, plan, f, s.disk[p], s'.disk[p]);
      CommandsGo(B.cfg, s.sched.shared, f, o);
    }
    PackageFineFrom(B, s', p);
  }

  lemma CommandsGo(cfg: Config, sh: Shared, f: Stack, o: Outcome)
    requires f.Frame? && FrameMay(cfg, sh, f, o) && !Fails(o)
    ensures f.pc == Commands ==> o == Goto(PackStaging)
  {
  }

  lemma FinePcs(pc: Pc)
    ensures pc == MarkBuilt || pc == PackInstall ==> pc != Lock && pc != Prepare && pc != Decide
  {
  }

  lemma OtherFine(B: Setup, s: BuildState, t: nat, o: Outcome, p: Package)
    requires SetupOk(B) && Fine(B, s) && CanMove(B, s, Move(Work(t, o), NOTHING_SPECIAL))
    requires t < |s.sched.phases| && s.sched.phases[t].Building? && s.sched.phases[t].stack.Frame?
    requires p in B.W.own && p != s.sched.phases[t].stack.package
    ensures PackageFine(B, Moved(B, s, Move(Work(t, o), NOTHING_SPECIAL)), p)
  {
    hide *;
    FineHas(B, s);
    var f, s' := MoveFacts(B, s, t, o, NOTHING_SPECIAL);
    FineMeans(B, s, p);
    BuiltMoves(B.cfg, t, s.sched.shared, f, o);
    ExecutedGrows(B.cfg, t, s.sched.shared, f, o, p);
    PackageFineFrom(B, s', p);
  }

  lemma {:induction false} OwnPhaseFine(cfg: Config, sh: Shared, f: Stack, o: Outcome)
    requires f.Frame? && FrameMay(cfg, sh, f, o) && StackFine(f) && !Fails(o) && o != Return(false)
    ensures PhaseFine(PhaseThen(f, o))
  {
  }

  lemma PhaseMeans(phase: Phase)
    requires PhaseFine(phase)
    ensures phase.Building? ==> StackFine(phase.stack) && (phase.stack.Frame? ==> phase.stack.pc != Leave(false))
    ensures !phase.Failing? && !Lost(phase)
  {
  }

  lemma SmoothKeeps(B: Setup, s: BuildState, t: nat, o: Outcome)
    requires SetupOk(B) && Fine(B, s) && t < |s.sched.phases| && s.sched.phases[t].Building?
    requires s.sched.phases[t].stack.Frame? && s.sched.phases[t].stack.package in B.W.own
    requires var f := s.sched.phases[t].stack;
             f.package in s.disk && f.pc != Leave(false) && (f.pc == Lock ==> f.package !in s.sched.shared.locks)
    requires o == SmoothOutcome(B, s, s.sched.phases[t].stack) && CanMove(B, s, Move(Work(t, o), NOTHING_SPECIAL))
    ensures Fine(B, Moved(B, s, Move(Work(t, o), NOTHING_SPECIAL)))
  {
    hide *;
    FineHas(B, s);
    var f, s' := MoveFacts(B, s, t, o, NOTHING_SPECIAL);
    MoveKeeps(B, s, Move(Work(t, o), NOTHING_SPECIAL));
    SmoothIsSmooth(B, s, f);
    ExecutedGrows(B.cfg, t, s.sched.shared, f, o, f.package);
    FailedElsewhere(B.cfg, s.sched, t, o);
    PhaseMeans(s.sched.phases[t]);
    OwnPhaseFine(B.cfg, s.sched.shared, f, o);
    forall p | p in B.W.own
      ensures PackageFine(B, s', p)
    {
      if p == f.package {
        OwnFine(B, s, t, o);
      } else {
        OtherFine(B, s, t, o, p);
      }
    }
    FineFrom(B, s');
  }

  /** Steps of main and of workers that end. */
  lemma OthersFine(B: Setup, s: BuildState, a: Action)
    requires SetupOk(B) && Fine(B, s) && May(B.cfg, s.sched, a) && !a.Work?
    ensures CanMove(B, s, Move(a, NOTHING_SPECIAL)) && Moved(B, s, Move(a, NOTHING_SPECIAL)) == Elsewhere(B, s, a)
    ensures Fine(B, Elsewhere(B, s, a))
  {
    hide *;
    var m := Move(a, NOTHING_SPECIAL);
    NothingSpecialIs();
    FineHas(B, s);
    OthersCanMove(B, s, a);
    MoveKeeps(B, s, m);
    MovedSched(B, s, m);
    SharedElsewhere(B.cfg, s.sched, a);
    FinePhasesElsewhere(B.cfg, s.sched, a);
    var s' := Elsewhere(B, s, a);
    forall p | p in B.W.own
      ensures PackageFine(B, s', p)
    {
      FineMeans(B, s, p);
      PackageFineFrom(B, s', p);
    }
    FineFrom(B, s');
  }

  lemma NothingSpecialIs()
    ensures NOTHING_SPECIAL == Effect(0, None)
  {
  }

  lemma FinePhasesElsewhere(cfg: Config, s: State, a: Action)
    requires May(cfg, s, a) && !a.Work? && !s.failed && forall t: nat :: t < |s.phases| ==> PhaseFine(s.phases[t])
    ensures !Then(cfg, s, a).failed
    ensures forall t: nat :: t < |Then(cfg, s, a).phases| ==> PhaseFine(Then(cfg, s, a).phases[t])
  {
    if a.MainStep? {
      MainOnlyStarts(cfg, s);
      assert StackFine(Bottom);
    } else if a.Fail? || a.End? {
      assert PhaseFine(s.phases[a.t]);
    }
    hide MainThen, Listing, FrameMay;
  }

  // ---------------------------------------------------------------------
  // To the end

  lemma Next(B: Setup, s: BuildState) returns (m: Move)
    requires SetupOk(B) && Fine(B, s) && Gated(B.cfg, B.W.rank)
    requires !(Live(s.sched.phases) == {} && (s.sched.main.Returned? || s.sched.main.Asleep?))
    ensures CanMove(B, s, m) && !m.action.SpuriousWakeup? && Fine(B, Moved(B, s, m))
    ensures May(B.cfg, s.sched, m.action) && Moved(B, s, m).sched == Then(B.cfg, s.sched, m.action)
  {
    hide *;
    FineHas(B, s);
    var a := SomethingMoves(B.cfg, B.W.rank, s.sched);
    if a.Work? {
      WorkMeans(B.cfg, s.sched, a);
      var t, f := a.t, s.sched.phases[a.t].stack;
      PhaseMeans(s.sched.phases[t]);
      DependsAreBuilt(B, s, t);
      assert f.package in s.disk.Keys;
      if f.pc == Lock {
        LockIsFree(B.cfg, s.sched.shared, f, a.o);
      }
      var o := SmoothMoves(B, s, t);
      m := Move(Work(t, o), NOTHING_SPECIAL);
      SmoothKeeps(B, s, t, o);
    } else {
      m := Move(a, NOTHING_SPECIAL);
      OthersFine(B, s, a);
    }
    MovedSched(B, s, m);
  }

  lemma {:induction false} Finishes(B: Setup, s: BuildState) returns (s': BuildState)
    requires SetupOk(B) && Fine(B, s) && Gated(B.cfg, B.W.rank) && Reachable(B.cfg, s.sched)
    ensures LeadsTo(B, s, s') && Fine(B, s') && Reachable(B.cfg, s'.sched)
    ensures Live(s'.sched.phases) == {} && (s'.sched.main.Returned? || s'.sched.main.Asleep?)
    decreases StepsLeft(B.cfg, B.W.rank, s.sched)
  {
    hide *;
    if Live(s.sched.phases) == {} && (s.sched.main.Returned? || s.sched.main.Asleep?) {
      LeadsToItself(B, s);
      s' := s;
    } else {
      var m := Next(B, s);
      StepCounts(B.cfg, B.W.rank, s.sched, m.action);
      ReachableNext(B.cfg, s.sched, m.action);
      s' := Finishes(B, Moved(B, s, m));
      LeadsFirst(B, s, m, s');
    }
  }

  lemma MainOnward(B: Setup, s: BuildState, a: Action, s': BuildState)
    requires May(B.cfg, s.sched, a) && !a.Work? && LeadsTo(B, Elsewhere(B, s, a), s')
    ensures LeadsTo(B, s, s')
  {
    hide *;
    OthersCanMove(B, s, a);
    MovedSched(B, s, Move(a, Effect(0, None)));
    LeadsFirst(B, s, Move(a, Effect(0, None)), s');
  }

  /** Woken up, main finds the base package built and returns. */
  lemma WakesAndReturns(B: Setup, s: BuildState) returns (s': BuildState)
    requires s.sched.main == Asleep && !s.sched.failed && B.cfg.base in s.sched.shared.built
    ensures LeadsTo(B, s, s') && s'.sched.main == Returned(true)
  {
    hide LeadsTo, CanMove;
    var s1 := Elsewhere(B, s, SpuriousWakeup);
    var s2 := Elsewhere(B, s1, MainStep);
    var s3 := Elsewhere(B, s2, MainStep);
    var s4 := Elsewhere(B, s3, MainStep);
    assert s4.sched.main == AfterLoop;
    s' := ReturnsFrom(B, s4);
    MainOnward(B, s3, MainStep, s');
    MainOnward(B, s2, MainStep, s');
    MainOnward(B, s1, MainStep, s');
    MainOnward(B, s, SpuriousWakeup, s');
  }

  lemma ReturnsFrom(B: Setup, s: BuildState) returns (s': BuildState)
    requires s.sched.main == AfterLoop && !s.sched.failed && B.cfg.base in s.sched.shared.built
    ensures LeadsTo(B, s, s') && s'.sched.main == Returned(true)
  {
    hide LeadsTo, CanMove;
    var s1 := Elsewhere(B, s, MainStep);
    if B.cfg.keepGoing {
      var s2 := Elsewhere(B, s1, MainStep);
      var s3 := Elsewhere(B, s2, MainStep);
      s' := Elsewhere(B, s3, MainStep);
      LeadsToItself(B, s');
      MainOnward(B, s3, MainStep, s');
      MainOnward(B, s2, MainStep, s');
    } else {
      s' := Elsewhere(B, s1, MainStep);
      LeadsToItself(B, s');
    }
    MainOnward(B, s1, MainStep, s');
    MainOnward(B, s, MainStep, s');
  }

  lemma {:induction false} LeadsOn(B: Setup, s: BuildState, moves: seq<Move>, s1: BuildState, s2: BuildState)
    requires AfterFrom(B, s, moves) == Some(s1) && LeadsTo(B, s1, s2)
    ensures LeadsTo(B, s, s2)
    decreases |moves|
  {
    hide LeadsTo, CanMove, Moved;
    if moves != [] {
      LeadsOn(B, Moved(B, s, moves[0]), moves[1..], s1, s2);
      LeadsFirst(B, s, moves[0], s2);
    }
  }

  /** A build in which nothing has failed, and whose hashed outputs are there where
      they should be, can be carried on until it returns true. */
  lemma GoodBuildsCanSucceed(B: Setup, s: BuildState) returns (s': BuildState)
    requires SetupOk(B) && Fine(B, s) && Reachable(B.cfg, s.sched)
    ensures LeadsTo(B, s, s') && s'.sched.main == Returned(true)
  {
    hide *;
    SetupGraph(B);
    var s1 := Finishes(B, s);
    FineHas(B, s1);
    EndsWell(B, s1);
    s' := s1;
    if s1.sched.main.Asleep? {
      s' := WakesAndReturns(B, s1);
      var moves := LeadsBy(B, s, s1);
      LeadsOn(B, s, moves, s1, s');
    }
  }

  lemma LeadsBy(B: Setup, s: BuildState, s': BuildState) returns (moves: seq<Move>)
    requires LeadsTo(B, s, s')
    ensures AfterFrom(B, s, moves) == Some(s')
  {
    moves :| AfterFrom(B, s, moves) == Some(s');
  }

  lemma EndsWell(B: Setup, s: BuildState)
    requires Gated(B.cfg, B.W.rank) && Reachable(B.cfg, s.sched) && !s.sched.failed
    requires Live(s.sched.phases) == {} && (s.sched.main.Returned? || s.sched.main.Asleep?)
    ensures B.cfg.base in s.sched.shared.built && (s.sched.main.Returned? ==> s.sched.main == Returned(true))
  {
    hide *;
    StopsOnlyWhenOver(B.cfg, B.W.rank, s.sched);
    BaseIsThere(B.cfg, B.W.rank);
    if s.sched.main.Returned? {
      BasePackageResult(B.cfg, B.W.rank, s.sched);
    }
  }

  lemma BaseIsThere(cfg: Config, rank: map<Package, nat>)
    requires Gated(cfg, rank)
    ensures cfg.base in cfg.depends
  {
  }
}
