/** When a package never gets a second worker. */
module SchedulerWorkers {
  import opened Digraph
  import opened Packages
  import opened Scheduler
  import opened SchedulerInvariant
  import opened SchedulerSteps
  import opened SchedulerTheorems
  import opened SchedulerRuns

  // ---------------------------------------------------------------------
  // Suppressed packages

  /** The call is past the test for forced mode, and goes on. */
  predicate PastSuppress(pc: Pc) {
    pc.Prepare? || pc.Decide? || pc.LocalDeps? || Late(pc)
  }

  predicate Unsuppressed(cfg: Config, f: Stack) {
    f.Frame? ==> (PastSuppress(f.pc) ==> f.package !in cfg.suppressed) && Unsuppressed(cfg, f.caller)
  }

  /** No suppressed package is ever built by its commands. */
  ghost predicate LeftAlone(cfg: Config, s: State) {
    && (forall t :: 0 <= t < |s.phases| && s.phases[t].Building? ==> Unsuppressed(cfg, s.phases[t].stack))
    && forall p :: p in cfg.suppressed ==> s.shared.cleared[p] == 0
  }

  lemma OwnLeftAlone(cfg: Config, t: nat, sh: Shared, f: Stack, o: Outcome)
    requires f.Frame? && FrameMay(cfg, sh, f, o) && Unsuppressed(cfg, f)
    ensures PhaseThen(f, o).Building? ==> Unsuppressed(cfg, PhaseThen(f, o).stack)
    ensures forall p :: p in cfg.suppressed ==> FrameThen(cfg, t, sh, f, o).cleared[p] == sh.cleared[p]
  {
  }

  lemma LeftAloneKept(cfg: Config, s: State, a: Action)
    requires LeftAlone(cfg, s) && May(cfg, s, a)
    ensures LeftAlone(cfg, Then(cfg, s, a))
  {
    hide Unsuppressed, FrameMay, FrameThen, PhaseThen, Listing;
    if a.Work? {
      OwnLeftAlone(cfg, a.t, s.shared, s.phases[a.t].stack, a.o);
    } else if a.MainStep? && s.main.Picked? {
      NewcomerLeftAlone(cfg, s.main.package);
    }
  }

  lemma NewcomerLeftAlone(cfg: Config, p: Package)
    ensures Unsuppressed(cfg, Frame(p, false, Lock, Bottom))
  {
  }

  // ---------------------------------------------------------------------
  // One thread at a time

  predicate NotBuilt(s: State, best: Option<Package>) {
    best.Some? ==> best.value !in s.shared.built
  }

  /** Nothing that main has in hand is built. */
  predicate Fresh(s: State) {
    match s.main
    case ScanBuilt(_, best) => NotBuilt(s, best)
    case ScanBuilding(i, best) => NotBuilt(s, best) && (i < |s.order| ==> s.order[i] !in s.shared.built)
    case ScanCan(i, best) => NotBuilt(s, best) && (i < |s.order| ==> s.order[i] !in s.shared.built)
    case ScanDep(i, best, _) => NotBuilt(s, best) && (i < |s.order| ==> s.order[i] !in s.shared.built)
    case Picked(p) => p !in s.shared.built
    case _ => true
  }

  ghost predicate OneEach(s: State) {
    forall p :: multiset(s.workers)[p] <= 1
  }

  predicate Scans(main: Main) {
    main.ScanBuilt? || main.ScanBuilding? || main.ScanCan? || main.ScanDep? || main.Picked?
  }

  /** With a limit of one, main scans only when no worker is live. */
  lemma ScansAlone(cfg: Config, s: State)
    requires Inv(cfg, s) && cfg.limit == 1 && Scans(s.main)
    ensures Live(s.phases) == {}
  {
    assert s.running < 1;
    hide WorkersOk, ClosedFlags, StartsOk, UnlockedOk, LocksOk, FailuresOk;
  }

  /** Then a package that is neither built nor building never had a worker. */
  lemma NeverHadWorker(cfg: Config, s: State, p: Package)
    requires Inv(cfg, s) && Live(s.phases) == {} && p !in s.shared.built && p !in s.shared.building
    ensures multiset(s.workers)[p] == 0
  {
    if p in multiset(s.workers) {
      var t :| 0 <= t < |s.workers| && s.workers[t] == p;
      WorkerAt(cfg, s, t);
      assert t !in Live(s.phases);
    }
  }

  lemma FreshByMain(cfg: Config, s: State)
    requires Fresh(s) && MainMay(s.main)
    ensures Fresh(MainThen(cfg, s))
  {
  }

  lemma MainWorkers(cfg: Config, s: State)
    requires MainMay(s.main)
    ensures MainThen(cfg, s).workers
         == s.workers + if s.main.Picked? && s.main.package !in s.shared.building then [s.main.package] else []
  {
  }

  lemma OneEachByMain(cfg: Config, s: State)
    requires Inv(cfg, s) && cfg.limit == 1 && OneEach(s) && Fresh(s) && MainMay(s.main)
    ensures OneEach(MainThen(cfg, s))
  {
    MainWorkers(cfg, s);
    if s.main.Picked? && s.main.package !in s.shared.building {
      ScansAlone(cfg, s);
      NeverHadWorker(cfg, s, s.main.package);
      assert forall p :: multiset(s.workers + [s.main.package])[p]
                      == multiset(s.workers)[p] + multiset{s.main.package}[p];
    }
    hide Inv, MainThen, Fresh;
  }

  lemma OneEachKept(cfg: Config, s: State, a: Action)
    requires Inv(cfg, s) && cfg.limit == 1 && OneEach(s) && Fresh(s) && May(cfg, s, a)
    ensures OneEach(Then(cfg, s, a)) && Fresh(Then(cfg, s, a))
  {
    hide Inv, Fresh, OneEach, MainThen;
    if a.MainStep? {
      FreshByMain(cfg, s);
      OneEachByMain(cfg, s);
    } else {
      if Scans(s.main) {
        ScansAlone(cfg, s);
      }
      OthersFresh(cfg, s, a);
      SameWorkers(s, Then(cfg, s, a));
    }
  }

  lemma SameWorkers(s: State, s': State)
    requires OneEach(s) && s'.workers == s.workers
    ensures OneEach(s')
  {
  }

  lemma ActorIsLive(cfg: Config, s: State, a: Action)
    requires May(cfg, s, a) && !a.MainStep?
    ensures Live(s.phases) != {} || !Scans(s.main)
  {
    match a
    case MainStep =>
    case SpuriousWakeup =>
    case Work(t, _) => assert t in Live(s.phases);
    case Finish(t, _) => assert t in Live(s.phases);
    case Fail(t) => assert t in Live(s.phases);
    case End(t) => assert t in Live(s.phases);
  }

  lemma OthersFresh(cfg: Config, s: State, a: Action)
    requires May(cfg, s, a) && !a.MainStep? && (Scans(s.main) ==> Live(s.phases) == {})
    ensures Fresh(Then(cfg, s, a)) && Then(cfg, s, a).workers == s.workers
  {
    ActorIsLive(cfg, s, a);
    hide FrameMay, FrameThen, PhaseThen, Listing, Live;
  }

  // ---------------------------------------------------------------------
  // Exactly when

  lemma {:induction false} AlongRun(cfg: Config, rank: map<Package, nat>, order: seq<Package>, actions: seq<Action>)
    requires Gated(cfg, rank) && After(cfg, order, actions).Some?
    ensures var s := After(cfg, order, actions).value;
            LeftAlone(cfg, s) && (cfg.limit == 1 ==> OneEach(s) && Fresh(s))
  {
    hide LeftAlone, OneEach, Fresh, May, Then, Gated;
    if actions == [] {
      StartsAlone(cfg, order);
    } else {
      var last := |actions| - 1;
      AlongRun(cfg, rank, order, actions[..last]);
      InvAlways(cfg, rank, order, actions[..last]);
      var s := After(cfg, order, actions[..last]).value;
      LeftAloneKept(cfg, s, actions[last]);
      if cfg.limit == 1 {
        OneEachKept(cfg, s, actions[last]);
      }
    }
  }

  lemma StartsAlone(cfg: Config, order: seq<Package>)
    ensures LeftAlone(cfg, Init(order)) && OneEach(Init(order)) && Fresh(Init(order))
  {
  }

  lemma OneWorkerIf(cfg: Config, rank: map<Package, nat>, s: State, p: Package)
    requires Gated(cfg, rank) && Reachable(cfg, s) && (cfg.limit == 1 || p in cfg.suppressed)
    ensures multiset(s.workers)[p] <= 1
  {
    var order, actions :| After(cfg, order, actions) == Some(s);
    AlongRun(cfg, rank, order, actions);
    InvAlways(cfg, rank, order, actions);
    hide After, Gated;
  }

  lemma {:induction false} SomeOrder(ps: set<Package>) returns (order: seq<Package>)
    ensures NoDuplicates(order) && forall p :: p in order <==> p in ps
    decreases |ps|
  {
    if exists p :: p in ps {
      var p :| p in ps;
      var rest := SomeOrder(ps - {p});
      order := [p] + rest;
    } else {
      order := [];
    }
  }

  /** A package never gets a second worker, in any run, exactly when at most one
      thread may run or the package is suppressed by forced mode. */
  lemma OneWorkerEach(cfg: Config, rank: map<Package, nat>, p: Package)
    requires Gated(cfg, rank) && p in cfg.depends
    ensures (forall s :: Reachable(cfg, s) ==> multiset(s.workers)[p] <= 1) <==> cfg.limit == 1 || p in cfg.suppressed
  {
    if cfg.limit == 1 || p in cfg.suppressed {
      forall s | Reachable(cfg, s)
        ensures multiset(s.workers)[p] <= 1
      {
        OneWorkerIf(cfg, rank, s, p);
      }
    } else {
      var order := SomeOrder(cfg.depends.Keys);
      assert Listing(cfg, order);
      var plan := Plan(order, (s, t) => order, {}, {});
      var s := SecondWorker(cfg, rank, plan, p);
      RanInv(cfg, rank, plan, s);
    }
    hide Reachable, Gated, Ran, Inv;
  }

  lemma UnknownHasNone(cfg: Config, rank: map<Package, nat>, s: State, p: Package)
    requires Gated(cfg, rank) && Reachable(cfg, s) && p !in cfg.depends
    ensures multiset(s.workers)[p] == 0
  {
    ReachableInv(cfg, rank, s);
    hide Gated, Reachable;
    if p in multiset(s.workers) {
      var t :| 0 <= t < |s.workers| && s.workers[t] == p;
      WorkerAt(cfg, s, t);
    }
  }

  lemma SomeUnsuppressed(cfg: Config) returns (p: Package)
    requires !(cfg.depends.Keys <= cfg.suppressed)
    ensures p in cfg.depends && p !in cfg.suppressed
  {
    assert (forall q :: q in cfg.depends.Keys ==> q in cfg.suppressed) ==> cfg.depends.Keys <= cfg.suppressed;
    if exists q :: q in cfg.depends.Keys && q !in cfg.suppressed {
      p :| p in cfg.depends.Keys && p !in cfg.suppressed;
    } else {
      assert false;
    }
  }

  /** No package ever gets a second worker exactly when at most one thread may run
      or every package is suppressed. */
  lemma OneWorkerPerPackage(cfg: Config, rank: map<Package, nat>)
    requires Gated(cfg, rank)
    ensures (forall s, p :: Reachable(cfg, s) ==> multiset(s.workers)[p] <= 1)
       <==> cfg.limit == 1 || cfg.depends.Keys <= cfg.suppressed
  {
    if cfg.limit == 1 || cfg.depends.Keys <= cfg.suppressed {
      forall s, p | Reachable(cfg, s)
        ensures multiset(s.workers)[p] <= 1
      {
        if p in cfg.depends {
          OneWorkerEach(cfg, rank, p);
        } else {
          UnknownHasNone(cfg, rank, s, p);
        }
      }
    } else {
      var p := SomeUnsuppressed(cfg);
      OneWorkerEach(cfg, rank, p);
    }
    hide Reachable, Gated;
  }
}
