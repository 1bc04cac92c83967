/** A bound on the length of every run. */
module SchedulerBound {
  import opened Digraph
  import opened Packages
  import opened Scheduler
  import opened SchedulerInvariant
  import opened SchedulerSteps
  import opened SchedulerTheorems
  import opened SchedulerProgress

  // ---------------------------------------------------------------------
  // The steps left in one call of Package::build

  function RankOf(rank: map<Package, nat>, p: Package): nat {
    if p in rank then rank[p] else 0
  }

  /** Steps of a call for p, with everything it calls. */
  function Cost(cfg: Config, rank: map<Package, nat>, p: Package): nat
    decreases RankOf(rank, p), 1, 0
  {
    19 + 2 * DepCost(cfg, rank, p, 0)
  }

  /** Steps of one round over p's dependencies from the i-th on. */
  function DepCost(cfg: Config, rank: map<Package, nat>, p: Package, i: nat): nat
    decreases RankOf(rank, p), 0, |DependsOn(cfg.depends, p)| - i
  {
    if i >= |DependsOn(cfg.depends, p)| then 0
    else
      var q := DependsOn(cfg.depends, p)[i].package;
      1 + (if RankOf(rank, q) < RankOf(rank, p) then Cost(cfg, rank, q) else 0) + DepCost(cfg, rank, p, i + 1)
  }

  /** Steps of p's own call from pc on, with the calls it still makes. */
  function Rest(cfg: Config, rank: map<Package, nat>, p: Package, pc: Pc): nat {
    var round := DepCost(cfg, rank, p, 0);
    match pc
    case Lock => 19 + 2 * round
    case Check => 18 + 2 * round
    case BuildDeps(i) => 17 + round + DepCost(cfg, rank, p, i)
    case Suppress => 16 + round
    case Prepare => 15 + round
    case Decide => 14 + round
    case LocalDeps(i) => 13 + DepCost(cfg, rank, p, i)
    case Fetch => 12
    case Stage => 11
    case Commands => 10
    case PackStaging => 9
    case PackInstall => 8
    case Record => 7
    case Truncate => 6
    case List => 5
    case Clear => 4
    case MarkBuilt => 3
    case MarkWasBuilt => 2
    case Leave(_) => 1
  }

  /** Steps the waiting callers still have to make. */
  function CallersRest(cfg: Config, rank: map<Package, nat>, f: Stack): nat {
    if f.Bottom? then 0
    else Rest(cfg, rank, f.package, Resume(f.pc, true)) + CallersRest(cfg, rank, f.caller)
  }

  function StackRest(cfg: Config, rank: map<Package, nat>, f: Stack): nat {
    if f.Bottom? then 0
    else Rest(cfg, rank, f.package, f.pc) + CallersRest(cfg, rank, f.caller)
  }

  lemma GotoCounts(cfg: Config, rank: map<Package, nat>, sh: Shared, f: Stack, pc: Pc)
    requires f.Frame? && FrameMay(cfg, sh, f, Goto(pc))
    ensures Rest(cfg, rank, f.package, pc) < Rest(cfg, rank, f.package, f.pc)
  {
  }

  lemma CallCounts(cfg: Config, rank: map<Package, nat>, sh: Shared, f: Stack, q: Package, locally: bool)
    requires Ranked(Targets(cfg.depends), rank) && f.Frame? && FrameMay(cfg, sh, f, Call(q, locally))
    ensures Rest(cfg, rank, q, Lock) + Rest(cfg, rank, f.package, Resume(f.pc, true)) < Rest(cfg, rank, f.package, f.pc)
  {
    NextDepCosts(cfg, rank, f.package, f.pc.i);
  }

  lemma NextDepCosts(cfg: Config, rank: map<Package, nat>, p: Package, i: nat)
    requires Ranked(Targets(cfg.depends), rank) && i < |DependsOn(cfg.depends, p)|
    ensures DepCost(cfg, rank, p, i)
         == 1 + Cost(cfg, rank, DependsOn(cfg.depends, p)[i].package) + DepCost(cfg, rank, p, i + 1)
  {
    DependIsEdge(cfg.depends, p, i);
    assert RankOf(rank, DependsOn(cfg.depends, p)[i].package) < RankOf(rank, p);
  }

  /** A step inside Package::build that leaves a call on the stack uses one up. */
  lemma BuildStepCounts(cfg: Config, rank: map<Package, nat>, t: nat, w: Package, sh: Shared, f: Stack, o: Outcome)
    requires Ranked(Targets(cfg.depends), rank) && StackOk(cfg, t, w, sh, f) && FrameMay(cfg, sh, f, o)
    ensures StackRest(cfg, rank, f) >= 1
    ensures var phase := PhaseThen(f, o);
            phase.Building? ==> StackRest(cfg, rank, phase.stack) < StackRest(cfg, rank, f)
  {
    hide Ranked, FrameOk;
    match o
    case Goto(pc) => GotoCounts(cfg, rank, sh, f, pc);
    case Call(q, locally) => CallCounts(cfg, rank, sh, f, q, locally);
    case _ =>
  }

  // ---------------------------------------------------------------------
  // The steps left in a state

  ghost function MaxOver(f: Package -> nat, ps: set<Package>): (m: nat)
    ensures forall p :: p in ps ==> f(p) <= m
  {
    if forall p :: p !in ps then 0
    else
      var p :| p in ps;
      var rest := MaxOver(f, ps - {p});
      if f(p) > rest then f(p) else rest
  }

  /** The longest depends list. */
  ghost function Width(cfg: Config): nat {
    MaxOver(p => |DependsOn(cfg.depends, p)|, cfg.depends.Keys)
  }

  /** The costliest build. */
  ghost function Dearest(cfg: Config, rank: map<Package, nat>): nat {
    MaxOver(p => Cost(cfg, rank, p), cfg.depends.Keys)
  }

  /** Loads of topoNext from the i-th entry of the order on. */
  ghost function ScanRest(cfg: Config, i: nat): nat
    decreases |cfg.depends| - i
  {
    if i >= |cfg.depends| then 0 else ScanRest(cfg, i + 1) + Width(cfg) + 4
  }

  /** One round of main's loop. */
  ghost function Loop(cfg: Config): nat {
    ScanRest(cfg, 0) + 9
  }

  ghost function MainRest(cfg: Config, main: Main): nat {
    match main
    case Returned(_) => 0
    case Asleep => 0
    case KgAsleep => 0
    case Returning => 1
    case KgReadRunning => 2
    case KgReadBuilt => 3
    case KgWantLock => 4
    case KgWoken => 5
    case AfterLoop => 5
    case Picked(_) => 1
    case ScanDep(i, _, d) => ScanRest(cfg, i + 1) + 2 + if d <= Width(cfg) then Width(cfg) - d + 1 else 0
    case ScanCan(i, _) => ScanRest(cfg, i + 1) + Width(cfg) + 4
    case ScanBuilding(i, _) => ScanRest(cfg, i + 1) + Width(cfg) + 5
    case ScanBuilt(i, _) => ScanRest(cfg, i) + 2
    case CheckLimit => ScanRest(cfg, 0) + 3
    case WantLock => ScanRest(cfg, 0) + 4
    case ReadBuilt => ScanRest(cfg, 0) + 7
    case ReadFailed => ScanRest(cfg, 0) + 8
    case Woken => ScanRest(cfg, 0) + 9
  }

  /** What a worker still does; waking main up costs main another round. */
  ghost function PhaseRest(cfg: Config, rank: map<Package, nat>, phase: Phase): nat {
    match phase
    case Building(f) => StackRest(cfg, rank, f) + 2 * (Loop(cfg) + 1) + 1
    case Finishing => 2 * (Loop(cfg) + 1)
    case Failing => 2 * (Loop(cfg) + 1)
    case Ending(_) => Loop(cfg) + 1
    case Ended(_) => 0
  }

  ghost function PhasesRest(cfg: Config, rank: map<Package, nat>, phases: seq<Phase>): nat {
    if phases == [] then 0
    else PhasesRest(cfg, rank, phases[..|phases| - 1]) + PhaseRest(cfg, rank, phases[|phases| - 1])
  }

  ghost function PerStart(cfg: Config, rank: map<Package, nat>): nat {
    Dearest(cfg, rank) + 3 * Loop(cfg) + 4
  }

  ghost function StartsRest(cfg: Config, rank: map<Package, nat>, started: nat): nat
    decreases 2 * |cfg.depends| - started
  {
    if started >= 2 * |cfg.depends| then 0
    else PerStart(cfg, rank) + StartsRest(cfg, rank, started + 1)
  }

  /** Steps left in s if nobody wakes up spuriously. */
  ghost function StepsLeft(cfg: Config, rank: map<Package, nat>, s: State): nat {
    StartsRest(cfg, rank, |s.workers|) + PhasesRest(cfg, rank, s.phases) + MainRest(cfg, s.main)
  }

  lemma {:induction false} PhasesRestUpdate(cfg: Config, rank: map<Package, nat>, phases: seq<Phase>, t: nat,
                                            phase: Phase)
    requires t < |phases|
    ensures PhasesRest(cfg, rank, phases[t := phase]) + PhaseRest(cfg, rank, phases[t])
         == PhasesRest(cfg, rank, phases) + PhaseRest(cfg, rank, phase)
  {
    var last := |phases| - 1;
    if t < last {
      PhasesRestUpdate(cfg, rank, phases[..last], t, phase);
      assert phases[t := phase][..last] == phases[..last][t := phase];
    } else {
      assert phases[t := phase][..last] == phases[..last];
    }
  }

  lemma {:induction false} ListingLength(order: seq<Package>, ps: set<Package>)
    requires NoDuplicates(order) && forall p :: p in order <==> p in ps
    ensures |order| == |ps|
  {
    if order == [] {
      assert forall p :: p !in ps;
      assert ps == {};
    } else {
      var last := |order| - 1;
      assert order[last] in order && order[last] !in order[..last];
      forall p
        ensures p in order[..last] <==> p in ps - {order[last]}
      {
        assert order == order[..last] + [order[last]];
      }
      ListingLength(order[..last], ps - {order[last]});
    }
  }

  lemma OrderLength(cfg: Config, s: State)
    requires Core(cfg, s)
    ensures |s.order| == |cfg.depends|
  {
    ListingLength(s.order, cfg.depends.Keys);
  }

  predicate Scanning(main: Main) {
    main.ScanBuilt? || main.ScanBuilding? || main.ScanCan? || main.ScanDep?
  }

  lemma EntryCounts(cfg: Config, s: State)
    requires (s.main.ScanBuilt? || s.main.ScanBuilding?) && s.main.i <= |s.order| == |cfg.depends|
    requires s.main.ScanBuilding? ==> s.main.i < |s.order|
    ensures MainRest(cfg, MainThen(cfg, s).main) < MainRest(cfg, s.main)
  {
    if s.main.i < |s.order| {
      assert ScanRest(cfg, s.main.i) == ScanRest(cfg, s.main.i + 1) + Width(cfg) + 4;
    }
    hide ScanRest, Width, DependsOn;
  }

  lemma CanCounts(cfg: Config, s: State)
    requires (s.main.ScanCan? || s.main.ScanDep?) && s.main.i < |s.order| == |cfg.depends|
    requires s.order[s.main.i] in cfg.depends
    requires s.main.ScanDep? ==> s.main.d <= |DependsOn(cfg.depends, s.order[s.main.i])|
    ensures MainRest(cfg, MainThen(cfg, s).main) < MainRest(cfg, s.main)
  {
    WidthBounds(cfg, s.order[s.main.i]);
    hide ScanRest, Width, DependsOn;
  }

  lemma ScanCounts(cfg: Config, s: State)
    requires Scanning(s.main) && s.main.i <= |s.order| == |cfg.depends|
    requires !s.main.ScanBuilt? ==> s.main.i < |s.order|
    requires forall i :: 0 <= i < |s.order| ==> s.order[i] in cfg.depends
    requires s.main.ScanDep? ==> s.main.d <= |DependsOn(cfg.depends, s.order[s.main.i])|
    ensures MainRest(cfg, Then(cfg, s, MainStep).main) < MainRest(cfg, s.main)
  {
    if s.main.ScanBuilt? || s.main.ScanBuilding? {
      EntryCounts(cfg, s);
    } else {
      CanCounts(cfg, s);
    }
    hide MainRest, MainThen;
  }

  /** Every step of main but a start brings it closer to sleeping or returning. */
  lemma MainStepCounts(cfg: Config, s: State)
    requires Inv(cfg, s) && May(cfg, s, MainStep) && !s.main.Picked?
    ensures MainRest(cfg, Then(cfg, s, MainStep).main) < MainRest(cfg, s.main)
  {
    hide ScanRest, Width, Core, Candidate, Missed, Live;
    OrderLength(cfg, s);
    CoreFacts(cfg, s);
    if Scanning(s.main) {
      ScanCounts(cfg, s);
    }
  }

  lemma OtherMainSteps(cfg: Config, s: State)
    requires MainMay(s.main) && !s.main.Picked?
    ensures MainThen(cfg, s).workers == s.workers && MainThen(cfg, s).phases == s.phases
  {
  }

  lemma WidthBounds(cfg: Config, p: Package)
    requires p in cfg.depends
    ensures |DependsOn(cfg.depends, p)| <= Width(cfg)
  {
    var f := p => |DependsOn(cfg.depends, p)|;
    assert f(p) <= MaxOver(f, cfg.depends.Keys);
  }

  lemma DearestBounds(cfg: Config, rank: map<Package, nat>, p: Package)
    requires p in cfg.depends
    ensures Cost(cfg, rank, p) <= Dearest(cfg, rank)
  {
    var f := p => Cost(cfg, rank, p);
    assert f(p) <= MaxOver(f, cfg.depends.Keys);
  }

  lemma NotifyCosts(cfg: Config, main: Main)
    ensures MainRest(cfg, Notify(main)) <= MainRest(cfg, main) + Loop(cfg)
  {
  }

  lemma StartIs(cfg: Config, s: State)
    requires Inv(cfg, s) && s.main.Picked?
    ensures s.main.package in cfg.depends && MainThen(cfg, s) == StartWorker(s, s.main.package)
  {
    hide Core;
  }

  lemma StartCounts(cfg: Config, rank: map<Package, nat>, s: State)
    requires Inv(cfg, s) && s.main.Picked? && |s.workers| < 2 * |cfg.depends|
    ensures StepsLeft(cfg, rank, Then(cfg, s, MainStep)) < StepsLeft(cfg, rank, s)
  {
    hide Inv, MainThen, Dearest, ScanRest, PhaseRest, PhasesRest, Cost, DepCost;
    StartIs(cfg, s);
    DearestBounds(cfg, rank, s.main.package);
    NewWorkerRest(cfg, rank, s.phases, s.main.package);
  }

  lemma NewWorkerRest(cfg: Config, rank: map<Package, nat>, phases: seq<Phase>, p: Package)
    ensures PhasesRest(cfg, rank, phases + [Building(Frame(p, false, Lock, Bottom))])
         == PhasesRest(cfg, rank, phases) + Cost(cfg, rank, p) + 2 * (Loop(cfg) + 1) + 1
  {
    var longer := phases + [Building(Frame(p, false, Lock, Bottom))];
    assert longer[..|longer| - 1] == phases;
  }

  lemma WorkCounts(cfg: Config, rank: map<Package, nat>, s: State, t: nat, o: Outcome)
    requires Gated(cfg, rank) && Inv(cfg, s) && May(cfg, s, Work(t, o))
    ensures StepsLeft(cfg, rank, Then(cfg, s, Work(t, o))) < StepsLeft(cfg, rank, s)
  {
    hide Inv, FrameMay, StackRest, StackOk, Loop, StartsRest, MainRest, PhasesRest;
    WorkerAt(cfg, s, t);
    GatedIsRanked(cfg, rank);
    var f := s.phases[t].stack;
    BuildStepCounts(cfg, rank, t, s.workers[t], s.shared, f, o);
    PhaseGoesOn(f, o);
    PhasesRestUpdate(cfg, rank, s.phases, t, PhaseThen(f, o));
  }

  /** A worker's last steps, each of which may wake main. */
  lemma EndingCounts(cfg: Config, rank: map<Package, nat>, s: State, a: Action)
    requires May(cfg, s, a) && (a.Finish? || a.Fail? || a.End?)
    ensures StepsLeft(cfg, rank, Then(cfg, s, a)) < StepsLeft(cfg, rank, s)
  {
    hide Loop, StartsRest, PhasesRest, StackRest, MainRest, Listing;
    NotifyCosts(cfg, s.main);
    PhasesRestUpdate(cfg, rank, s.phases, a.t, Then(cfg, s, a).phases[a.t]);
  }

  /** Every step but a spurious wakeup uses one of the steps left. */
  lemma StepCounts(cfg: Config, rank: map<Package, nat>, s: State, a: Action)
    requires Gated(cfg, rank) && Reachable(cfg, s) && May(cfg, s, a)
    ensures StepsLeft(cfg, rank, Then(cfg, s, a)) <= StepsLeft(cfg, rank, s) - 1
              + if a.SpuriousWakeup? then Loop(cfg) + 1 else 0
  {
    hide Gated, Inv, Loop, StartsRest, PhasesRest, StackRest, FrameMay, MainRest, MainThen, Reachable;
    ReachableInv(cfg, rank, s);
    match a
    case MainStep =>
      if s.main.Picked? {
        RoomForOneMore(cfg, rank, s);
        StartCounts(cfg, rank, s);
      } else {
        MainStepCounts(cfg, s);
        OtherMainSteps(cfg, s);
      }
    case SpuriousWakeup => NotifyCosts(cfg, s.main);
    case Work(t, o) => WorkCounts(cfg, rank, s, t, o);
    case _ => EndingCounts(cfg, rank, s, a);
  }

  lemma RoomForOneMore(cfg: Config, rank: map<Package, nat>, s: State)
    requires Gated(cfg, rank) && Reachable(cfg, s) && s.main.Picked?
    ensures |s.workers| < 2 * |cfg.depends|
  {
    WorkersStartReady(cfg, rank, s);
    var s' := Then(cfg, s, MainStep);
    ReachableNext(cfg, s, MainStep);
    WorkerStartsAreBounded(cfg, rank, s');
  }

  lemma ReachableNext(cfg: Config, s: State, a: Action)
    requires Reachable(cfg, s) && May(cfg, s, a)
    ensures Reachable(cfg, Then(cfg, s, a))
  {
    var order, actions :| After(cfg, order, actions) == Some(s);
    AfterNext(cfg, order, actions, s, a);
  }

  lemma AfterNext(cfg: Config, order: seq<Package>, actions: seq<Action>, s: State, a: Action)
    requires After(cfg, order, actions) == Some(s) && May(cfg, s, a)
    ensures After(cfg, order, actions + [a]) == Some(Then(cfg, s, a))
  {
    assert (actions + [a])[..|actions + [a]| - 1] == actions;
  }

  function Wakeups(actions: seq<Action>): nat {
    if actions == [] then 0
    else Wakeups(actions[..|actions| - 1]) + if actions[|actions| - 1].SpuriousWakeup? then 1 else 0
  }

  function Times(n: nat, k: nat): nat {
    if n == 0 then 0 else Times(n - 1, k) + k
  }

  /** No schedule runs for longer than the steps the dependency graph allows,
      plus one round of main's loop for each spurious wakeup. */
  lemma {:induction false} RunsAreBounded(cfg: Config, rank: map<Package, nat>, order: seq<Package>,
                                          actions: seq<Action>)
    requires Gated(cfg, rank) && After(cfg, order, actions).Some?
    ensures |actions| + StepsLeft(cfg, rank, After(cfg, order, actions).value)
         <= StepsLeft(cfg, rank, Init(order)) + Times(Wakeups(actions), Loop(cfg) + 1)
  {
    hide StepsLeft, Loop, Gated, May, Then;
    if actions != [] {
      var last := |actions| - 1;
      RunsAreBounded(cfg, rank, order, actions[..last]);
      var r := After(cfg, order, actions[..last]).value;
      assert Reachable(cfg, r);
      StepCounts(cfg, rank, r, actions[last]);
    }
  }

  /** Every run can be carried on, without spurious wakeups, until it stops. */
  lemma {:induction false} EveryRunStops(cfg: Config, rank: map<Package, nat>, order: seq<Package>,
                                         actions: seq<Action>)
      returns (more: seq<Action>)
    requires Gated(cfg, rank) && After(cfg, order, actions).Some?
    ensures actions <= more && Wakeups(more) == Wakeups(actions)
    ensures After(cfg, order, more).Some? && Stopped(cfg, After(cfg, order, more).value)
    decreases StepsLeft(cfg, rank, After(cfg, order, actions).value)
  {
    hide StepsLeft, Gated, Then, May;
    var s := After(cfg, order, actions).value;
    assert Reachable(cfg, s);
    if a :| May(cfg, s, a) && !a.SpuriousWakeup? {
      StepCounts(cfg, rank, s, a);
      AfterNext(cfg, order, actions, s, a);
      assert (actions + [a])[..|actions + [a]| - 1] == actions;
      more := EveryRunStops(cfg, rank, order, actions + [a]);
    } else {
      more := actions;
    }
  }
}
