/** Runs that every configuration has: workers that build one package after the
    other while main waits to take cond_lock, and what can go wrong after them. */
module SchedulerRuns {
  import opened Digraph
  import opened Packages
  import opened Scheduler
  import opened SchedulerInvariant
  import opened SchedulerSteps
  import opened SchedulerTheorems
  import opened SchedulerProgress

  /** What decides the runs below: main's first order, the order that
      packageFinished sorts out in each state, the packages that shouldBuild finds
      up to date, and those of them that no local dependency asks to be built. */
  datatype Plan = Plan(order: seq<Package>, resort: (State, nat) -> seq<Package>, skip: set<Package>,
                       keep: set<Package>)

  /** None of p's local dependencies is to be kept from being built. */
  ghost predicate Spares(cfg: Config, plan: Plan, p: Package) {
    forall i :: 0 <= i < |DependsOn(cfg.depends, p)| && DependsOn(cfg.depends, p)[i].locally ==>
                  DependsOn(cfg.depends, p)[i].package !in plan.keep
  }

  ghost predicate Sorts(cfg: Config, plan: Plan) {
    && Listing(cfg, plan.order)
    && (forall s, t :: Listing(cfg, plan.resort(s, t)))
    && plan.keep <= plan.skip
    && forall p :: p in plan.skip && p !in plan.keep ==> Spares(cfg, plan, p)
  }

  /** Nothing fails, and exactly the packages to skip are skipped. */
  predicate Onward(plan: Plan, f: Stack, o: Outcome)
    requires f.Frame?
  {
    && !Fails(o)
    && (f.pc.Decide? && !f.locally ==> o == Goto(if f.package in plan.skip then Leave(true) else LocalDeps(0)))
  }

  predicate IsListing(phase: Phase) {
    phase.Building? && phase.stack.Frame? && phase.stack.pc.List?
  }

  /** No worker but t is writing an .output.info. */
  predicate OthersQuiet(s: State, t: nat) {
    forall u :: 0 <= u < |s.phases| && u != t ==> !IsListing(s.phases[u])
  }

  /** Packages are only described while nobody writes an .output.info. */
  ghost predicate Planned(cfg: Config, plan: Plan, s: State, a: Action)
    requires May(cfg, s, a)
  {
    match a
    case Work(t, o) =>
      Onward(plan, s.phases[t].stack, o) && (s.phases[t].stack.pc.Prepare? ==> OthersQuiet(s, t))
    case Finish(t, order) => order == plan.resort(s, t)
    case SpuriousWakeup => false
    case _ => true
  }

  /** Where the actions lead, if each of them is possible and planned. */
  ghost function RunOf(cfg: Config, plan: Plan, actions: seq<Action>): Option<State> {
    if actions == [] then
      if Listing(cfg, plan.order) then Some(Init(plan.order)) else None
    else
      var last := |actions| - 1;
      match RunOf(cfg, plan, actions[..last])
      case None => None
      case Some(s) =>
        if May(cfg, s, actions[last]) && Planned(cfg, plan, s, actions[last]) then Some(Then(cfg, s, actions[last]))
        else None
  }

  lemma {:induction false} RunIsAfter(cfg: Config, plan: Plan, actions: seq<Action>)
    requires RunOf(cfg, plan, actions).Some?
    ensures After(cfg, plan.order, actions) == RunOf(cfg, plan, actions)
  {
    hide May, Then, Planned, Listing;
    if actions != [] {
      RunIsAfter(cfg, plan, actions[..|actions| - 1]);
    }
  }

  ghost predicate Ran(cfg: Config, plan: Plan, s: State) {
    exists actions :: RunOf(cfg, plan, actions) == Some(s)
  }

  lemma RanNext(cfg: Config, plan: Plan, s: State, a: Action)
    requires Ran(cfg, plan, s) && May(cfg, s, a) && Planned(cfg, plan, s, a)
    ensures Ran(cfg, plan, Then(cfg, s, a))
  {
    var actions :| RunOf(cfg, plan, actions) == Some(s);
    assert (actions + [a])[..|actions + [a]| - 1] == actions;
    assert RunOf(cfg, plan, actions + [a]) == Some(Then(cfg, s, a));
  }

  lemma RanInv(cfg: Config, rank: map<Package, nat>, plan: Plan, s: State)
    requires Gated(cfg, rank) && Ran(cfg, plan, s)
    ensures Inv(cfg, s) && Reachable(cfg, s)
  {
    var actions :| RunOf(cfg, plan, actions) == Some(s);
    RunIsAfter(cfg, plan, actions);
    assert Reachable(cfg, s);
    ReachableInv(cfg, rank, s);
  }

  // ---------------------------------------------------------------------
  // One worker

  /** s with worker t somewhere else. */
  function At(s: State, t: nat, sh: Shared, phase: Phase): State
    requires t < |s.phases|
  {
    s.(shared := sh, phases := s.phases[t := phase])
  }

  lemma Moves(cfg: Config, plan: Plan, s: State, t: nat, sh: Shared, f: Stack, o: Outcome)
    requires t < |s.phases| && f.Frame? && Ran(cfg, plan, At(s, t, sh, Building(f)))
    requires FrameMay(cfg, sh, f, o) && Onward(plan, f, o) && (f.pc.Prepare? ==> OthersQuiet(s, t))
    ensures Ran(cfg, plan, At(s, t, FrameThen(cfg, t, sh, f, o), PhaseThen(f, o)))
  {
    hide FrameMay, FrameThen, PhaseThen, Onward, IsListing;
    var now := At(s, t, sh, Building(f));
    RanNext(cfg, plan, now, Work(t, o));
    assert Then(cfg, now, Work(t, o)) == At(s, t, FrameThen(cfg, t, sh, f, o), PhaseThen(f, o));
  }

  lemma Goes(cfg: Config, plan: Plan, s: State, t: nat, sh: Shared, f: Stack, pc: Pc)
    requires t < |s.phases| && f.Frame? && Ran(cfg, plan, At(s, t, sh, Building(f)))
    requires FrameMay(cfg, sh, f, Goto(pc)) && Onward(plan, f, Goto(pc)) && (f.pc.Prepare? ==> OthersQuiet(s, t))
    ensures Ran(cfg, plan, At(s, t, FrameThen(cfg, t, sh, f, Goto(pc)), Building(f.(pc := pc))))
  {
    Moves(cfg, plan, s, t, sh, f, Goto(pc));
  }

  /** A call for a package that is done already. */
  lemma PassDone(cfg: Config, plan: Plan, s: State, t: nat, sh: Shared, f: Stack, d: Package, locally: bool)
    requires t < |s.phases| && f.Frame? && Ran(cfg, plan, At(s, t, sh, Building(f)))
    requires FrameMay(cfg, sh, f, Call(d, locally)) && d !in sh.locks && Done(sh, d, locally)
    ensures Ran(cfg, plan, At(s, t, sh, Building(f.(pc := Resume(f.pc, true)))))
  {
    hide Ran, At;
    assert f.pc.BuildDeps? || f.pc.LocalDeps?;
    Moves(cfg, plan, s, t, sh, f, Call(d, locally));
    var g := Frame(d, locally, Lock, f);
    Goes(cfg, plan, s, t, sh, g, Check);
    var held := sh.(locks := sh.locks[d := t]);
    Goes(cfg, plan, s, t, held, g.(pc := Check), Leave(true));
    Moves(cfg, plan, s, t, held, g.(pc := Leave(true)), Return(true));
    assert sh.locks[d := t] - {d} == sh.locks;
  }

  /** No mutex of a package below p is held. */
  ghost predicate FreeBelow(cfg: Config, sh: Shared, p: Package) {
    forall q :: q in sh.locks ==> !Reaches(Targets(cfg.depends), p, q)
  }

  lemma DependIsFree(cfg: Config, rank: map<Package, nat>, sh: Shared, p: Package, i: nat)
    requires Gated(cfg, rank) && FreeBelow(cfg, sh, p) && p in cfg.depends && i < |DependsOn(cfg.depends, p)|
    ensures var d := DependsOn(cfg.depends, p)[i].package;
            && d in cfg.depends && p in rank && d in rank && rank[d] < rank[p] && d !in sh.locks && d != p
            && FreeBelow(cfg, sh, d)
  {
    var d := DependsOn(cfg.depends, p)[i].package;
    DependIsEdge(cfg.depends, p, i);
    GatedIsRanked(cfg, rank);
    EdgeReaches(Targets(cfg.depends), p, d);
    forall q | q in sh.locks
      ensures !Reaches(Targets(cfg.depends), d, q)
    {
      if Reaches(Targets(cfg.depends), d, q) {
        ReachesTransitive(Targets(cfg.depends), p, d, q);
      }
    }
    hide Reaches;
  }

  /** The loop that builds dependencies finds them built. */
  lemma {:induction false} PassDepends(cfg: Config, rank: map<Package, nat>, plan: Plan, s: State, t: nat, sh: Shared,
                                       f: Stack)
    requires Gated(cfg, rank) && t < |s.phases| && f.Frame? && f.pc.BuildDeps?
    requires Ran(cfg, plan, At(s, t, sh, Building(f)))
    requires f.package in cfg.depends && f.pc.i <= |DependsOn(cfg.depends, f.package)|
    requires FreeBelow(cfg, sh, f.package) && DepsBuilt(cfg.depends, sh.built, f.package)
    ensures Ran(cfg, plan, At(s, t, sh, Building(f.(pc := Suppress))))
    decreases |DependsOn(cfg.depends, f.package)| - f.pc.i
  {
    hide Ran, At, Gated, FreeBelow;
    var deps, i := DependsOn(cfg.depends, f.package), f.pc.i;
    if i < |deps| {
      DependIsFree(cfg, rank, sh, f.package, i);
      PassDone(cfg, plan, s, t, sh, f, deps[i].package, false);
      PassDepends(cfg, rank, plan, s, t, sh, f.(pc := BuildDeps(i + 1)));
    } else {
      Goes(cfg, plan, s, t, sh, f, Suppress);
    }
  }

  /** What was built before was built by its commands, or skipped or suppressed. */
  ghost predicate BuiltAsPlanned(cfg: Config, plan: Plan, sh: Shared) {
    && (forall q :: q in sh.built ==> q in cfg.depends && DepsBuilt(cfg.depends, sh.built, q))
    && (forall q :: q in sh.built ==> q in sh.wasBuilt || q in cfg.suppressed || q in plan.skip)
    && (forall q :: q in sh.wasBuilt ==> q !in plan.keep)
  }

  lemma PlannedMeans(cfg: Config, plan: Plan, sh: Shared, d: Package)
    requires BuiltAsPlanned(cfg, plan, sh) && d in sh.built
    ensures d in cfg.depends && DepsBuilt(cfg.depends, sh.built, d)
    ensures d in sh.wasBuilt || d in cfg.suppressed || d in plan.skip
  {
  }

  /** sh' is sh after local rebuilds of packages that were built. */
  ghost predicate Rebuilt(plan: Plan, sh: Shared, sh': Shared) {
    && sh'.built == sh.built && sh'.locks == sh.locks && sh.wasBuilt <= sh'.wasBuilt
    && (forall q :: q in sh'.wasBuilt && q in plan.keep ==> q in sh.wasBuilt)
    && forall q :: q !in sh.built ==> (q in sh'.building <==> q in sh.building)
  }

  lemma RebuiltOn(cfg: Config, plan: Plan, sh: Shared, sh': Shared, sh'': Shared)
    requires Rebuilt(plan, sh, sh') && Rebuilt(plan, sh', sh'')
    ensures Rebuilt(plan, sh, sh'')
    ensures BuiltAsPlanned(cfg, plan, sh) ==> BuiltAsPlanned(cfg, plan, sh'')
  {
  }

  /** The call runs its commands, unless it only fetches, and packs. */
  lemma ToClear(cfg: Config, plan: Plan, s: State, t: nat, sh: Shared, f: Stack) returns (sh': Shared)
    requires t < |s.phases| && f.Frame? && f.pc == Fetch && Ran(cfg, plan, At(s, t, sh, Building(f)))
    ensures Ran(cfg, plan, At(s, t, sh', Building(f.(pc := Clear)))) && sh' == sh.(executed := sh'.executed)
  {
    hide Ran, At;
    if cfg.fetchOnly {
      Goes(cfg, plan, s, t, sh, f, Clear);
      sh' := sh;
    } else {
      ToPacking(cfg, plan, s, t, sh, f);
      sh' := sh.(executed := sh.executed + multiset{f.package});
      ToListing(cfg, plan, s, t, sh', f.(pc := PackStaging));
      Goes(cfg, plan, s, t, sh', f.(pc := List), Clear);
    }
  }

  lemma ToPacking(cfg: Config, plan: Plan, s: State, t: nat, sh: Shared, f: Stack)
    requires t < |s.phases| && f.Frame? && f.pc == Fetch && Ran(cfg, plan, At(s, t, sh, Building(f))) && !cfg.fetchOnly
    ensures Ran(cfg, plan,
              At(s, t, sh.(executed := sh.executed + multiset{f.package}), Building(f.(pc := PackStaging))))
  {
    hide Ran, At;
    Goes(cfg, plan, s, t, sh, f, Stage);
    Goes(cfg, plan, s, t, sh, f.(pc := Stage), Commands);
    Goes(cfg, plan, s, t, sh, f.(pc := Commands), PackStaging);
  }

  /** The flags are set. */
  lemma ToLeave(cfg: Config, plan: Plan, s: State, t: nat, sh: Shared, f: Stack) returns (sh': Shared)
    requires t < |s.phases| && f.Frame? && f.pc == MarkBuilt && Ran(cfg, plan, At(s, t, sh, Building(f)))
    ensures Ran(cfg, plan, At(s, t, sh', Building(f.(pc := Leave(true)))))
    ensures sh' == sh.(built := sh.built + {f.package}, wasBuilt := sh.wasBuilt + {f.package})
  {
    hide Ran, At;
    Goes(cfg, plan, s, t, sh, f, MarkWasBuilt);
    sh' := sh.(built := sh.built + {f.package});
    Goes(cfg, plan, s, t, sh', f.(pc := MarkWasBuilt), Leave(true));
    sh' := sh'.(wasBuilt := sh'.wasBuilt + {f.package});
  }

  lemma Cleared(cfg: Config, plan: Plan, s: State, t: nat, sh: Shared, f: Stack) returns (sh': Shared)
    requires t < |s.phases| && f.Frame? && f.pc == Clear && Ran(cfg, plan, At(s, t, sh, Building(f)))
    ensures Ran(cfg, plan, At(s, t, sh', Building(f.(pc := MarkBuilt))))
    ensures sh' == sh.(building := sh.building - {f.package}, cleared := sh'.cleared)
  {
    hide Ran, At;
    Goes(cfg, plan, s, t, sh, f, MarkBuilt);
    sh' := sh.(building := sh.building - {f.package}, cleared := sh.cleared + multiset{f.package});
  }

  /** A call that has its package's mutex, as far as its dependencies. */
  lemma ToSuppress(cfg: Config, rank: map<Package, nat>, plan: Plan, s: State, t: nat, sh: Shared, f: Stack)
    requires Gated(cfg, rank) && t < |s.phases| && f.Frame? && f.pc == Lock && Ran(cfg, plan, At(s, t, sh, Building(f)))
    requires f.package in cfg.depends && f.package !in sh.locks && FreeBelow(cfg, sh, f.package)
    requires !Done(sh, f.package, f.locally) && DepsBuilt(cfg.depends, sh.built, f.package)
    ensures Ran(cfg, plan, At(s, t, sh.(locks := sh.locks[f.package := t]), Building(f.(pc := Suppress))))
  {
    hide Ran, At, Gated;
    Goes(cfg, plan, s, t, sh, f, Check);
    var held := sh.(locks := sh.locks[f.package := t]);
    Goes(cfg, plan, s, t, held, f.(pc := Check), BuildDeps(0));
    HeldIsFine(cfg, rank, plan, sh, t, f.package);
    PassDepends(cfg, rank, plan, s, t, held, f.(pc := BuildDeps(0)));
  }

  /** A call that is not suppressed, and not skipped, as far as its local
      dependencies. */
  lemma ToLocals(cfg: Config, plan: Plan, s: State, t: nat, sh: Shared, f: Stack)
    requires t < |s.phases| && f.Frame? && f.pc == Suppress && Ran(cfg, plan, At(s, t, sh, Building(f)))
    requires f.package !in cfg.suppressed && (f.locally || f.package !in plan.skip) && OthersQuiet(s, t)
    ensures Ran(cfg, plan, At(s, t, sh, Building(f.(pc := LocalDeps(0)))))
  {
    hide Ran, At;
    Goes(cfg, plan, s, t, sh, f, Prepare);
    Goes(cfg, plan, s, t, sh, f.(pc := Prepare), Decide);
    Goes(cfg, plan, s, t, sh, f.(pc := Decide), LocalDeps(0));
  }

  /** A local call for a suppressed package. */
  lemma PassSuppressed(cfg: Config, rank: map<Package, nat>, plan: Plan, s: State, t: nat, sh: Shared, f: Stack)
    requires Gated(cfg, rank) && t < |s.phases| && f.Frame? && f.pc == Lock && f.locally && f.caller.Frame?
    requires Ran(cfg, plan, At(s, t, sh, Building(f)))
    requires f.package in cfg.depends && f.package !in sh.locks && f.package in cfg.suppressed
    requires f.package in sh.built && f.package !in sh.wasBuilt && DepsBuilt(cfg.depends, sh.built, f.package)
    requires FreeBelow(cfg, sh, f.package)
    ensures Ran(cfg, plan, At(s, t, sh, Building(f.caller.(pc := Resume(f.caller.pc, true)))))
  {
    hide Ran, At, Gated;
    ToSuppress(cfg, rank, plan, s, t, sh, f);
    var held := sh.(locks := sh.locks[f.package := t]);
    Goes(cfg, plan, s, t, held, f.(pc := Suppress), Leave(true));
    assert held.(built := held.built + {f.package}) == held;
    Moves(cfg, plan, s, t, held, f.(pc := Leave(true)), Return(true));
    assert sh.locks[f.package := t] - {f.package} == sh.locks;
  }

  /** A local call for a package that was only skipped builds it. */
  lemma {:induction false} LocalBuild(cfg: Config, rank: map<Package, nat>, plan: Plan, s: State, t: nat, sh: Shared,
                                      f: Stack) returns (sh': Shared)
    requires Gated(cfg, rank) && t < |s.phases| && f.Frame? && f.pc == Lock && f.locally && f.caller.Frame?
    requires Ran(cfg, plan, At(s, t, sh, Building(f)))
    requires f.package in cfg.depends && f.package in rank && f.package !in sh.locks && f.package !in cfg.suppressed
    requires f.package in sh.built && f.package !in sh.wasBuilt && DepsBuilt(cfg.depends, sh.built, f.package)
    requires FreeBelow(cfg, sh, f.package) && BuiltAsPlanned(cfg, plan, sh)
    requires OthersQuiet(s, t) && Sorts(cfg, plan) && f.package !in plan.keep
    ensures Ran(cfg, plan, At(s, t, sh', Building(f.caller.(pc := Resume(f.caller.pc, true)))))
    ensures Rebuilt(plan, sh, sh')
    decreases rank[f.package], 2, 0
  {
    hide Ran, At, Gated, BuiltAsPlanned;
    var p := f.package;
    ToSuppress(cfg, rank, plan, s, t, sh, f);
    var held := sh.(locks := sh.locks[p := t]);
    ToLocals(cfg, plan, s, t, held, f.(pc := Suppress));
    HeldIsFine(cfg, rank, plan, sh, t, p);
    PlannedMeans(cfg, plan, sh, p);
    SkippedSpares(cfg, plan, p);
    var sh1 := PassLocals(cfg, rank, plan, s, t, held, f.(pc := LocalDeps(0)));
    var sh2 := ToClear(cfg, plan, s, t, sh1, f.(pc := Fetch));
    var sh3 := Cleared(cfg, plan, s, t, sh2, f.(pc := Clear));
    var sh4 := ToLeave(cfg, plan, s, t, sh3, f.(pc := MarkBuilt));
    Moves(cfg, plan, s, t, sh4, f.(pc := Leave(true)), Return(true));
    sh' := sh4.(locks := sh4.locks - {p});
    assert sh.locks[p := t] - {p} == sh.locks;
  }

  lemma SkippedSpares(cfg: Config, plan: Plan, p: Package)
    requires Sorts(cfg, plan) && p in plan.skip && p !in plan.keep
    ensures Spares(cfg, plan, p)
  {
    hide Spares, Listing;
  }

  lemma HeldIsFine(cfg: Config, rank: map<Package, nat>, plan: Plan, sh: Shared, t: nat, p: Package)
    requires Gated(cfg, rank) && FreeBelow(cfg, sh, p)
    ensures var held := sh.(locks := sh.locks[p := t]);
            FreeBelow(cfg, held, p) && (BuiltAsPlanned(cfg, plan, sh) ==> BuiltAsPlanned(cfg, plan, held))
  {
    GatedIsRanked(cfg, rank);
    RankedIsAcyclic(Targets(cfg.depends), rank);
    hide Reaches, Ranked, Gated;
  }

  /** The loop over local dependencies. */
  lemma {:induction false} PassLocals(cfg: Config, rank: map<Package, nat>, plan: Plan, s: State, t: nat, sh: Shared,
                                      f: Stack) returns (sh': Shared)
    requires Gated(cfg, rank) && t < |s.phases| && f.Frame? && f.pc.LocalDeps?
    requires Ran(cfg, plan, At(s, t, sh, Building(f)))
    requires f.package in cfg.depends && f.package in rank && f.pc.i <= |DependsOn(cfg.depends, f.package)|
    requires FreeBelow(cfg, sh, f.package) && DepsBuilt(cfg.depends, sh.built, f.package)
    requires BuiltAsPlanned(cfg, plan, sh) && OthersQuiet(s, t) && Sorts(cfg, plan) && Spares(cfg, plan, f.package)
    ensures Ran(cfg, plan, At(s, t, sh', Building(f.(pc := Fetch)))) && Rebuilt(plan, sh, sh')
    decreases rank[f.package], 1, |DependsOn(cfg.depends, f.package)| - f.pc.i
  {
    hide Ran, At, Gated, BuiltAsPlanned, FreeBelow;
    var deps, i := DependsOn(cfg.depends, f.package), f.pc.i;
    if i == |deps| {
      Goes(cfg, plan, s, t, sh, f, Fetch);
      sh' := sh;
    } else {
      DependIsFree(cfg, rank, sh, f.package, i);
      var sh1 := PassLocal(cfg, rank, plan, s, t, sh, f);
      StillLater(cfg, rank, plan, sh, sh1, f.package);
      sh' := PassLocals(cfg, rank, plan, s, t, sh1, f.(pc := LocalDeps(i + 1)));
      RebuiltOn(cfg, plan, sh, sh1, sh');
    }
  }

  lemma StillLater(cfg: Config, rank: map<Package, nat>, plan: Plan, sh: Shared, sh': Shared, p: Package)
    requires Rebuilt(plan, sh, sh')
    ensures FreeBelow(cfg, sh, p) ==> FreeBelow(cfg, sh', p)
    ensures DepsBuilt(cfg.depends, sh.built, p) ==> DepsBuilt(cfg.depends, sh'.built, p)
    ensures BuiltAsPlanned(cfg, plan, sh) ==> BuiltAsPlanned(cfg, plan, sh')
  {
  }

  /** One turn of that loop. */
  lemma {:induction false} PassLocal(cfg: Config, rank: map<Package, nat>, plan: Plan, s: State, t: nat, sh: Shared,
                                     f: Stack) returns (sh': Shared)
    requires Gated(cfg, rank) && t < |s.phases| && f.Frame? && f.pc.LocalDeps?
    requires Ran(cfg, plan, At(s, t, sh, Building(f)))
    requires f.package in cfg.depends && f.package in rank && f.pc.i < |DependsOn(cfg.depends, f.package)|
    requires FreeBelow(cfg, sh, f.package) && DepsBuilt(cfg.depends, sh.built, f.package)
    requires BuiltAsPlanned(cfg, plan, sh) && OthersQuiet(s, t) && Sorts(cfg, plan)
    requires var dep := DependsOn(cfg.depends, f.package)[f.pc.i]; dep.locally ==> dep.package !in plan.keep
    ensures Ran(cfg, plan, At(s, t, sh', Building(f.(pc := LocalDeps(f.pc.i + 1))))) && Rebuilt(plan, sh, sh')
    decreases rank[f.package], 0, 0
  {
    hide Ran, At, Gated, BuiltAsPlanned, FreeBelow;
    var deps, i := DependsOn(cfg.depends, f.package), f.pc.i;
    var d := deps[i].package;
    DependIsFree(cfg, rank, sh, f.package, i);
    sh' := sh;
    if !deps[i].locally {
      Goes(cfg, plan, s, t, sh, f, LocalDeps(i + 1));
    } else if d in sh.wasBuilt {
      PassDone(cfg, plan, s, t, sh, f, d, true);
    } else {
      PlannedMeans(cfg, plan, sh, d);
      Moves(cfg, plan, s, t, sh, f, Call(d, true));
      var g := Frame(d, true, Lock, f);
      if d in cfg.suppressed {
        PassSuppressed(cfg, rank, plan, s, t, sh, g);
      } else {
        sh' := LocalBuild(cfg, rank, plan, s, t, sh, g);
      }
    }
  }

  /** p's own first call at pc. */
  function Own(p: Package, pc: Pc): Phase {
    Building(Frame(p, false, pc, Bottom))
  }

  /** Worker t is about to build p, alone. */
  ghost predicate Begins(cfg: Config, rank: map<Package, nat>, plan: Plan, s: State, t: nat, p: Package) {
    && Gated(cfg, rank) && t < |s.phases| && s.phases[t] == Own(p, Lock) && Ran(cfg, plan, s)
    && p in cfg.depends && p in rank && p !in s.shared.built && s.shared.locks == map[] && OthersQuiet(s, t)
    && DepsBuilt(cfg.depends, s.shared.built, p) && BuiltAsPlanned(cfg, plan, s.shared)
    && Sorts(cfg, plan) && (p !in plan.skip ==> Spares(cfg, plan, p))
  }

  lemma OwnSuppress(cfg: Config, rank: map<Package, nat>, plan: Plan, s: State, t: nat, p: Package)
    requires Begins(cfg, rank, plan, s, t, p)
    ensures var held := s.shared.(locks := map[p := t]);
            && Ran(cfg, plan, At(s, t, held, Own(p, Suppress)))
            && FreeBelow(cfg, held, p) && BuiltAsPlanned(cfg, plan, held)
  {
    var f := Frame(p, false, Lock, Bottom);
    assert At(s, t, s.shared, Building(f)) == s;
    assert map[][p := t] == map[p := t];
    hide Ran, At, Gated;
    ToSuppress(cfg, rank, plan, s, t, s.shared, f);
    HeldIsFine(cfg, rank, plan, s.shared, t, p);
  }

  /** Worker t is about to fetch and run p's commands. */
  lemma OwnFetch(cfg: Config, rank: map<Package, nat>, plan: Plan, s: State, t: nat, p: Package) returns (sh': Shared)
    requires Begins(cfg, rank, plan, s, t, p) && p !in cfg.suppressed && p !in plan.skip
    ensures Ran(cfg, plan, At(s, t, sh', Own(p, Fetch))) && Rebuilt(plan, s.shared.(locks := map[p := t]), sh')
  {
    hide Ran, At, Gated, BuiltAsPlanned;
    OwnSuppress(cfg, rank, plan, s, t, p);
    var f := Frame(p, false, Suppress, Bottom);
    var held := s.shared.(locks := map[p := t]);
    ToLocals(cfg, plan, s, t, held, f);
    sh' := PassLocals(cfg, rank, plan, s, t, held, f.(pc := LocalDeps(0)));
  }

  /** sh' is sh with p's mutex held and p's `building` cleared. */
  ghost predicate Alike(plan: Plan, sh: Shared, sh': Shared, t: nat, p: Package) {
    && sh'.built == sh.built && sh.wasBuilt <= sh'.wasBuilt && sh'.locks == map[p := t] && p !in sh'.building
    && (forall q :: q in sh'.wasBuilt && q in plan.keep ==> q in sh.wasBuilt)
    && forall q :: q !in sh.built && q != p ==> (q in sh'.building <==> q in sh.building)
  }

  /** Worker t has cleared `building` and not yet set `built`. */
  lemma ToMark(cfg: Config, rank: map<Package, nat>, plan: Plan, s: State, t: nat, p: Package) returns (sh': Shared)
    requires Begins(cfg, rank, plan, s, t, p) && p !in cfg.suppressed && p !in plan.skip
    ensures Ran(cfg, plan, At(s, t, sh', Own(p, MarkBuilt))) && Alike(plan, s.shared, sh', t, p)
  {
    hide Ran, At, Gated, BuiltAsPlanned;
    var f := Frame(p, false, Fetch, Bottom);
    var sh1 := OwnFetch(cfg, rank, plan, s, t, p);
    var sh2 := ToClear(cfg, plan, s, t, sh1, f);
    sh' := Cleared(cfg, plan, s, t, sh2, f.(pc := Clear));
  }

  /** What worker t's whole build of p leaves. */
  ghost predicate BuiltBy(cfg: Config, plan: Plan, sh: Shared, sh': Shared, p: Package) {
    && sh'.built == sh.built + {p} && sh'.locks == map[] && sh.wasBuilt <= sh'.wasBuilt
    && (p in sh'.wasBuilt || p in cfg.suppressed || p in plan.skip)
    && (forall q :: q in sh'.wasBuilt && q in plan.keep ==> q in sh.wasBuilt)
    && forall q :: q !in sh.built && q != p ==> (q in sh'.building <==> q in sh.building)
  }

  /** A package that is suppressed or skipped. */
  lemma ToSkipped(cfg: Config, rank: map<Package, nat>, plan: Plan, s: State, t: nat, p: Package) returns (sh': Shared)
    requires Begins(cfg, rank, plan, s, t, p) && (p in cfg.suppressed || p in plan.skip)
    ensures Ran(cfg, plan, At(s, t, sh', Own(p, Leave(true))))
    ensures sh' == s.shared.(built := s.shared.built + {p}, locks := map[p := t])
  {
    hide Ran, At, Gated, BuiltAsPlanned;
    OwnSuppress(cfg, rank, plan, s, t, p);
    var f, held := Frame(p, false, Suppress, Bottom), s.shared.(locks := map[p := t]);
    if p in cfg.suppressed {
      Goes(cfg, plan, s, t, held, f, Leave(true));
    } else {
      Goes(cfg, plan, s, t, held, f, Prepare);
      Goes(cfg, plan, s, t, held, f.(pc := Prepare), Decide);
      Goes(cfg, plan, s, t, held, f.(pc := Decide), Leave(true));
    }
    sh' := held.(built := held.built + {p});
  }

  lemma ToReturn(cfg: Config, rank: map<Package, nat>, plan: Plan, s: State, t: nat, p: Package) returns (sh': Shared)
    requires Begins(cfg, rank, plan, s, t, p)
    ensures Ran(cfg, plan, At(s, t, sh', Finishing)) && BuiltBy(cfg, plan, s.shared, sh', p)
  {
    hide Ran, At, Gated, BuiltAsPlanned;
    var f := Frame(p, false, Leave(true), Bottom);
    if p in cfg.suppressed || p in plan.skip {
      sh' := ToSkipped(cfg, rank, plan, s, t, p);
    } else {
      var sh1 := ToMark(cfg, rank, plan, s, t, p);
      sh' := ToLeave(cfg, plan, s, t, sh1, f.(pc := MarkBuilt));
    }
    Moves(cfg, plan, s, t, sh', f, Return(true));
    sh' := sh'.(locks := sh'.locks - {p});
    assert sh'.locks == map[];
  }

  /** Worker t builds p and ends, while main waits for cond_lock. */
  lemma WorkerEnds(cfg: Config, rank: map<Package, nat>, plan: Plan, s: State, t: nat, p: Package) returns (s': State)
    requires Begins(cfg, rank, plan, s, t, p) && s.main == WantLock
    ensures Ran(cfg, plan, s') && BuiltBy(cfg, plan, s.shared, s'.shared, p) && Listing(cfg, s'.order)
    ensures s' == s.(shared := s'.shared, phases := s.phases[t := Ended(true)], running := s.running - 1,
                     order := s'.order)
  {
    var sh' := ToReturn(cfg, rank, plan, s, t, p);
    hide Ran, Gated, BuiltBy, Listing, BuiltAsPlanned;
    var s1 := At(s, t, sh', Finishing);
    var order := plan.resort(s1, t);
    RanNext(cfg, plan, s1, Finish(t, order));
    var s2 := Then(cfg, s1, Finish(t, order));
    RanNext(cfg, plan, s2, End(t));
    s' := Then(cfg, s2, End(t));
  }

  // ---------------------------------------------------------------------
  // Main

  lemma MainMoves(cfg: Config, plan: Plan, s: State)
    requires Ran(cfg, plan, s) && MainMay(s.main)
    ensures Ran(cfg, plan, MainThen(cfg, s))
  {
    RanNext(cfg, plan, s, MainStep);
  }

  /** canBuild's loop. */
  lemma {:induction false} ScanDeps(cfg: Config, plan: Plan, s: State, i: nat, best: Option<Package>, d: nat)
    requires i < |s.order| && Ran(cfg, plan, s.(main := ScanDep(i, best, d)))
    requires d <= |DependsOn(cfg.depends, s.order[i])|
    requires forall j :: 0 <= j < d ==> DependsOn(cfg.depends, s.order[i])[j].package in s.shared.built
    ensures var best' := if DepsBuilt(cfg.depends, s.shared.built, s.order[i]) then Some(s.order[i]) else best;
            Ran(cfg, plan, s.(main := ScanBuilt(i + 1, best')))
    decreases |DependsOn(cfg.depends, s.order[i])| - d
  {
    hide Ran;
    MainMoves(cfg, plan, s.(main := ScanDep(i, best, d)));
    var deps := DependsOn(cfg.depends, s.order[i]);
    if d < |deps| && deps[d].package in s.shared.built {
      ScanDeps(cfg, plan, s, i, best, d + 1);
    }
  }

  /** topoNext looks at one package. */
  lemma ScanEntry(cfg: Config, plan: Plan, s: State, i: nat, best: Option<Package>)
    requires i < |s.order| && Ran(cfg, plan, s.(main := ScanBuilt(i, best)))
    ensures var p := s.order[i];
            var best' := if Ready(cfg.depends, s.shared.built, s.shared.building, p) then Some(p) else best;
            Ran(cfg, plan, s.(main := ScanBuilt(i + 1, best')))
  {
    hide Ran;
    var p := s.order[i];
    MainMoves(cfg, plan, s.(main := ScanBuilt(i, best)));
    if p !in s.shared.built {
      MainMoves(cfg, plan, s.(main := ScanBuilding(i, best)));
      if p !in s.shared.building {
        MainMoves(cfg, plan, s.(main := ScanCan(i, best)));
        ScanDeps(cfg, plan, s, i, best, 0);
      }
    }
  }

  /** topoNext from entry i up to entry n. */
  lemma {:induction false} ScanUpTo(cfg: Config, plan: Plan, s: State, i: nat, n: nat, best: Option<Package>)
      returns (best': Option<Package>)
    requires i <= n <= |s.order| && Ran(cfg, plan, s.(main := ScanBuilt(i, best)))
    ensures Ran(cfg, plan, s.(main := ScanBuilt(n, best')))
    ensures best' == best || (best'.Some? && best'.value in s.order
                              && Ready(cfg.depends, s.shared.built, s.shared.building, best'.value))
    ensures best'.None? ==>
              forall j :: i <= j < n ==> !Ready(cfg.depends, s.shared.built, s.shared.building, s.order[j])
    ensures (forall j :: i <= j < n ==> !Ready(cfg.depends, s.shared.built, s.shared.building, s.order[j]))
            ==> best' == best
    decreases n - i
  {
    hide Ran, Ready;
    if i == n {
      best' := best;
    } else {
      ScanEntry(cfg, plan, s, i, best);
      var next := if Ready(cfg.depends, s.shared.built, s.shared.building, s.order[i]) then Some(s.order[i]) else best;
      best' := ScanUpTo(cfg, plan, s, i + 1, n, next);
    }
  }

  lemma ScanStarts(cfg: Config, plan: Plan, s: State)
    requires Ran(cfg, plan, s) && s.main == WantLock && (cfg.limit == 0 || s.running < cfg.limit)
    ensures Ran(cfg, plan, s.(main := ScanBuilt(0, None)))
  {
    hide Ran;
    MainMoves(cfg, plan, s);
    MainMoves(cfg, plan, s.(main := CheckLimit));
  }

  /** main starts a worker for q and waits for cond_lock again. */
  lemma Starts(cfg: Config, plan: Plan, s: State, q: Package)
    requires Ran(cfg, plan, s.(main := ScanBuilt(|s.order|, Some(q)))) && q !in s.shared.building
    requires !s.failed && cfg.base !in s.shared.built
    ensures Ran(cfg, plan, StartWorker(s, q)) && Ran(cfg, plan, StartWorker(s, q).(main := WantLock))
  {
    hide Ran;
    MainMoves(cfg, plan, s.(main := ScanBuilt(|s.order|, Some(q))));
    MainMoves(cfg, plan, s.(main := Picked(q)));
    assert StartWorker(s.(main := Picked(q)), q) == StartWorker(s, q);
    MainMoves(cfg, plan, StartWorker(s, q));
    MainMoves(cfg, plan, StartWorker(s, q).(main := ReadBuilt));
  }

  // ---------------------------------------------------------------------
  // Rounds

  /** main waits to take cond_lock, nothing has failed, and no mutex is held. */
  ghost predicate Calm(cfg: Config, plan: Plan, s: State) {
    && Ran(cfg, plan, s) && s.main == WantLock && !s.failed && s.shared.locks == map[]
    && BuiltAsPlanned(cfg, plan, s.shared)
    && forall u :: 0 <= u < |s.phases| ==> !IsListing(s.phases[u])
  }

  predicate AllEnded(s: State) {
    forall t :: 0 <= t < |s.phases| ==> s.phases[t] == Ended(true)
  }

  /** s' is s with one more worker, which has built q and ended. */
  ghost predicate OneMore(s: State, s': State, q: Package) {
    && s'.workers == s.workers + [q] && s'.phases == s.phases + [Ended(true)] && s'.running == s.running
    && s'.shared.built == s.shared.built + {q}
    && forall p :: p !in s.shared.built && p != q ==> (p in s'.shared.building <==> p in s.shared.building)
  }

  lemma StartedIs(cfg: Config, rank: map<Package, nat>, plan: Plan, s: State, q: Package)
    requires Gated(cfg, rank) && Calm(cfg, plan, s) && q in cfg.depends
    requires Ready(cfg.depends, s.shared.built, s.shared.building, q) && |s.workers| == |s.phases|
    requires Sorts(cfg, plan) && (q !in plan.skip ==> Spares(cfg, plan, q))
    requires Ran(cfg, plan, StartWorker(s, q).(main := WantLock))
    ensures var s1 := StartWorker(s, q).(main := WantLock);
            && Begins(cfg, rank, plan, s1, |s.phases|, q) && BuiltAsPlanned(cfg, plan, s1.shared)
            && DepsBuilt(cfg.depends, s1.shared.built, q)
  {
    GatedIsRanked(cfg, rank);
    assert q in rank.Keys;
    hide Ran, Gated;
  }

  /** No package but p gets in the way of the packages to keep from being built. */
  ghost predicate Gentle(cfg: Config, plan: Plan, p: Package) {
    forall q :: q in cfg.depends && q != p && q !in plan.skip ==> Spares(cfg, plan, q)
  }

  lemma NothingKept(cfg: Config, plan: Plan, p: Package)
    requires plan.keep == {}
    ensures Gentle(cfg, plan, p) && Spares(cfg, plan, p)
  {
  }

  lemma Round(cfg: Config, rank: map<Package, nat>, plan: Plan, s: State, q: Package) returns (s': State)
    requires Gated(cfg, rank) && Sorts(cfg, plan) && Calm(cfg, plan, s) && cfg.base !in s.shared.built
    requires Ran(cfg, plan, s.(main := ScanBuilt(|s.order|, Some(q)))) && q in cfg.depends
    requires Ready(cfg.depends, s.shared.built, s.shared.building, q) && (q !in plan.skip ==> Spares(cfg, plan, q))
    ensures Calm(cfg, plan, s') && OneMore(s, s', q)
  {
    hide Ran, Gated, Sorts, Inv, Begins, BuiltAsPlanned, DepsBuilt;
    Starts(cfg, plan, s, q);
    RanInv(cfg, rank, plan, s);
    PhasesCount(cfg, s);
    StartedIs(cfg, rank, plan, s, q);
    var s1 := StartWorker(s, q).(main := WantLock);
    s' := WorkerEnds(cfg, rank, plan, s1, |s.phases|, q);
    StillAsPlanned(cfg, plan, s1.shared, s'.shared, q);
  }

  lemma StillAsPlanned(cfg: Config, plan: Plan, sh: Shared, sh': Shared, q: Package)
    requires BuiltAsPlanned(cfg, plan, sh) && BuiltBy(cfg, plan, sh, sh', q) && q in cfg.depends
    requires DepsBuilt(cfg.depends, sh.built, q)
    ensures BuiltAsPlanned(cfg, plan, sh')
  {
  }

  lemma NobodyLive(cfg: Config, s: State)
    requires Inv(cfg, s) && AllEnded(s)
    ensures s.running == 0 && Live(s.phases) == {}
  {
    assert Live(s.phases) == {};
    hide WorkersOk, StartsOk, UnlockedOk, LocksOk, FailuresOk, MainOk;
  }

  /** Only packages that some worker has are marked as building. */
  lemma BuildingHasWorker(cfg: Config, s: State, q: Package)
    requires Inv(cfg, s) && q in s.shared.building
    ensures q in cfg.depends && exists t :: 0 <= t < |s.phases| && t < |s.workers| && s.workers[t] == q
  {
    assert multiset(s.workers)[q] >= 1;
    assert q in s.workers;
    var t :| 0 <= t < |s.workers| && s.workers[t] == q;
    WorkerAt(cfg, s, t);
  }

  /** With all workers ended some package is ready, until everything is built. */
  lemma SomeReady(cfg: Config, rank: map<Package, nat>, s: State, p: Package) returns (q: Package)
    requires Gated(cfg, rank) && Inv(cfg, s) && AllEnded(s) && p in cfg.depends && p !in s.shared.built
    ensures q in s.order && Ready(cfg.depends, s.shared.built, s.shared.building, q)
  {
    q := LowestUnbuilt(cfg, rank, s.shared, p);
    if q in s.shared.building {
      BuildingHasWorker(cfg, s, q);
      var t :| 0 <= t < |s.phases| && t < |s.workers| && s.workers[t] == q;
      WorkerAt(cfg, s, t);
    }
    assert Listing(cfg, s.order);
  }

  lemma Unbuilt(cfg: Config, built: set<Package>, q: Package)
    requires q in cfg.depends && q !in built
    ensures |cfg.depends.Keys - (built + {q})| < |cfg.depends.Keys - built|
  {
    assert cfg.depends.Keys - built == (cfg.depends.Keys - (built + {q})) + {q};
  }

  // ---------------------------------------------------------------------
  // The lost wakeup

  /** main finds nothing to start and sleeps, with nobody left to wake it. */
  lemma Oversleeps(cfg: Config, rank: map<Package, nat>, plan: Plan, s: State) returns (s': State)
    requires Gated(cfg, rank) && Calm(cfg, plan, s) && AllEnded(s) && cfg.base in s.shared.built
    ensures Ran(cfg, plan, s') && Stopped(cfg, s') && s'.main == Asleep && !s'.failed && cfg.base in s'.shared.built
  {
    RanInv(cfg, rank, plan, s);
    NobodyLive(cfg, s);
    ClosedFlagsOf(cfg, s);
    CoreFacts(cfg, s);
    forall j | 0 <= j < |s.order|
      ensures !Ready(cfg.depends, s.shared.built, s.shared.building, s.order[j])
    {
      BaseBuiltMeansAllBuilt(cfg, rank, s.shared, s.order[j]);
    }
    hide Ran, Gated, Inv, Ready, Stopped;
    ScanStarts(cfg, plan, s);
    var best := ScanUpTo(cfg, plan, s, 0, |s.order|, None);
    MainMoves(cfg, plan, s.(main := ScanBuilt(|s.order|, None)));
    s' := s.(main := Asleep);
    AllEndedStops(cfg, s');
  }

  /** With all workers ended main finds a package that it can start. */
  lemma FindsReady(cfg: Config, rank: map<Package, nat>, plan: Plan, s: State, p: Package) returns (q: Package)
    requires Gated(cfg, rank) && Calm(cfg, plan, s) && AllEnded(s) && p in cfg.depends && p !in s.shared.built
    ensures Ran(cfg, plan, s.(main := ScanBuilt(|s.order|, Some(q)))) && q in cfg.depends && s.running == 0
    ensures Ready(cfg.depends, s.shared.built, s.shared.building, q) && cfg.base !in s.shared.built
  {
    RanInv(cfg, rank, plan, s);
    NobodyLive(cfg, s);
    BaseNeeds(cfg, rank, s, p);
    var ready := SomeReady(cfg, rank, s, p);
    hide Ran, Gated, Inv, Ready, BuiltAsPlanned;
    ScanStarts(cfg, plan, s);
    var best := ScanUpTo(cfg, plan, s, 0, |s.order|, None);
    q := best.value;
    OrderIsKnown(cfg, s, q);
  }

  lemma {:induction false} BuildsAll(cfg: Config, rank: map<Package, nat>, plan: Plan, s: State) returns (s': State)
    requires Gated(cfg, rank) && Sorts(cfg, plan) && Calm(cfg, plan, s) && AllEnded(s) && plan.keep == {}
    ensures Calm(cfg, plan, s') && AllEnded(s') && cfg.base in s'.shared.built
    decreases |cfg.depends.Keys - s.shared.built|
  {
    if cfg.base in s.shared.built {
      s' := s;
    } else {
      assert cfg.base in cfg.depends;
      hide Ran, Gated, Sorts, Calm;
      var q := FindsReady(cfg, rank, plan, s, cfg.base);
      NothingKept(cfg, plan, q);
      var s1 := Round(cfg, rank, plan, s, q);
      Unbuilt(cfg, s.shared.built, q);
      s' := BuildsAll(cfg, rank, plan, s1);
    }
  }

  /** No configuration is safe from the lost wakeup: whatever the dependencies, the
      thread limit and the modes, whatever orders main works with, and whichever
      packages are found up to date, there is a run in which every package is built
      and main then sleeps for good. It reads `built` just before the last worker
      sets it, and takes cond_lock after that worker's last notification. */
  lemma LostWakeup(cfg: Config, rank: map<Package, nat>, plan: Plan) returns (s: State)
    requires Gated(cfg, rank) && Sorts(cfg, plan) && plan.keep == {}
    ensures Ran(cfg, plan, s) && Stopped(cfg, s) && s.main.Asleep? && !s.failed && cfg.base in s.shared.built
  {
    s := FirstWait(cfg, plan);
    s := BuildsAll(cfg, rank, plan, s);
    s := Oversleeps(cfg, rank, plan, s);
    hide Ran, Stopped, Gated;
  }

  /** main at the start of the build phase, waiting for cond_lock. */
  lemma FirstWait(cfg: Config, plan: Plan) returns (s: State)
    requires Sorts(cfg, plan)
    ensures Calm(cfg, plan, s) && s.phases == [] && s.workers == [] && s.shared == NOTHING_BUILT
    ensures s.order == plan.order && s.running == 0
  {
    assert RunOf(cfg, plan, []) == Some(Init(plan.order));
    assert Ran(cfg, plan, Init(plan.order));
    hide Ran;
    MainMoves(cfg, plan, Init(plan.order));
    MainMoves(cfg, plan, Init(plan.order).(main := ReadBuilt));
    s := Init(plan.order).(main := WantLock);
  }

  // ---------------------------------------------------------------------
  // A second worker

  /** Worker w was started for p and has not moved; all others have ended. */
  ghost predicate Waits(cfg: Config, plan: Plan, s: State, w: nat, p: Package) {
    && Calm(cfg, plan, s) && w < |s.phases| && w < |s.workers| && s.workers[w] == p && s.phases[w] == Own(p, Lock)
    && (forall t :: 0 <= t < |s.phases| && t != w ==> s.phases[t] == Ended(true))
    && s.running == 1 && p in s.shared.building && p !in s.shared.built
  }

  lemma BaseNeeds(cfg: Config, rank: map<Package, nat>, s: State, p: Package)
    requires Gated(cfg, rank) && Inv(cfg, s) && p in cfg.depends && p !in s.shared.built
    ensures cfg.base !in s.shared.built
  {
    ClosedFlagsOf(cfg, s);
    hide Inv;
    if cfg.base in s.shared.built {
      BaseBuiltMeansAllBuilt(cfg, rank, s.shared, p);
    }
  }

  predicate NoneReady(cfg: Config, s: State) {
    forall j :: 0 <= j < |s.order| ==> !Ready(cfg.depends, s.shared.built, s.shared.building, s.order[j])
  }

  lemma OrderIsKnown(cfg: Config, s: State, q: Package)
    requires Inv(cfg, s) && q in s.order
    ensures q in cfg.depends
  {
    assert Listing(cfg, s.order);
  }

  /** The other workers build everything that does not depend on p. */
  lemma {:induction false} BuildsAround(cfg: Config, rank: map<Package, nat>, plan: Plan, s: State, w: nat,
                                        p: Package) returns (s': State)
    requires Gated(cfg, rank) && Sorts(cfg, plan) && Waits(cfg, plan, s, w, p) && p in cfg.depends && cfg.limit != 1
    requires Gentle(cfg, plan, p)
    ensures Waits(cfg, plan, s', w, p) && NoneReady(cfg, s')
    decreases |cfg.depends.Keys - s.shared.built|
  {
    RanInv(cfg, rank, plan, s);
    BaseNeeds(cfg, rank, s, p);
    hide Ran, Gated, Inv, BuiltAsPlanned;
    ScanStarts(cfg, plan, s);
    var best := ScanUpTo(cfg, plan, s, 0, |s.order|, None);
    if best.None? {
      s' := s;
    } else {
      var q := best.value;
      OrderIsKnown(cfg, s, q);
      PhasesCount(cfg, s);
      var s1 := Round(cfg, rank, plan, s, q);
      StillWaits(cfg, plan, s, s1, w, p, q);
      Unbuilt(cfg, s.shared.built, q);
      s' := BuildsAround(cfg, rank, plan, s1, w, p);
    }
  }

  lemma StillEnded(s: State, s': State, q: Package)
    requires AllEnded(s) && OneMore(s, s', q) && |s.workers| == |s.phases|
    ensures AllEnded(s') && |s'.workers| == |s'.phases|
  {
  }

  lemma StartsWaiting(cfg: Config, plan: Plan, s: State, p: Package) returns (s': State)
    requires Calm(cfg, plan, s) && AllEnded(s) && |s.workers| == |s.phases| && s.running == 0
    requires Ran(cfg, plan, s.(main := ScanBuilt(|s.order|, Some(p))))
    requires Ready(cfg.depends, s.shared.built, s.shared.building, p)
    requires cfg.base !in s.shared.built
    ensures Waits(cfg, plan, s', |s.phases|, p) && s'.shared.built == s.shared.built
  {
    hide Ran, BuiltAsPlanned, DepsBuilt;
    Starts(cfg, plan, s, p);
    s' := StartWorker(s, p).(main := WantLock);
    PlannedStays(cfg, plan, s.shared, s'.shared);
  }

  lemma PlannedStays(cfg: Config, plan: Plan, sh: Shared, sh': Shared)
    requires BuiltAsPlanned(cfg, plan, sh) && sh'.built == sh.built && sh'.wasBuilt == sh.wasBuilt
    ensures BuiltAsPlanned(cfg, plan, sh')
  {
  }

  lemma StillWaits(cfg: Config, plan: Plan, s: State, s': State, w: nat, p: Package, q: Package)
    requires Waits(cfg, plan, s, w, p) && Calm(cfg, plan, s') && OneMore(s, s', q) && q != p
    requires |s.workers| == |s.phases|
    ensures Waits(cfg, plan, s', w, p)
  {
    hide Calm;
  }

  lemma PhasesCount(cfg: Config, s: State)
    requires Inv(cfg, s)
    ensures |s.workers| == |s.phases|
  {
  }

  /** Everything below p, and perhaps more, is built, and p's worker started. */
  lemma {:induction false} BuildsUpTo(cfg: Config, rank: map<Package, nat>, plan: Plan, s: State, p: Package)
      returns (s': State, w: nat)
    requires Gated(cfg, rank) && Sorts(cfg, plan) && Calm(cfg, plan, s) && AllEnded(s) && |s.workers| == |s.phases|
    requires p in cfg.depends && p !in s.shared.built
    requires Gentle(cfg, plan, p)
    ensures Waits(cfg, plan, s', w, p)
    decreases |cfg.depends.Keys - s.shared.built|
  {
    RanInv(cfg, rank, plan, s);
    PhasesCount(cfg, s);
    hide Ran, Gated, Inv, Sorts, BuiltAsPlanned;
    var q := FindsReady(cfg, rank, plan, s, p);
    if q == p {
      s' := StartsWaiting(cfg, plan, s, p);
      w := |s.phases|;
    } else {
      var s1 := Round(cfg, rank, plan, s, q);
      StillEnded(s, s1, q);
      Unbuilt(cfg, s.shared.built, q);
      s', w := BuildsUpTo(cfg, rank, plan, s1, p);
    }
  }

  /** main reads that p is not built; p's worker then builds it and clears
      `building`. */
  lemma ReadsTooEarly(cfg: Config, rank: map<Package, nat>, plan: Plan, s: State, w: nat, p: Package, k: nat)
      returns (s': State)
    requires Gated(cfg, rank) && Waits(cfg, plan, s, w, p) && NoneReady(cfg, s)
    requires p in cfg.depends && p !in cfg.suppressed && p !in plan.skip && cfg.limit != 1
    requires k < |s.order| && s.order[k] == p
    requires p in rank && DepsBuilt(cfg.depends, s.shared.built, p) && Sorts(cfg, plan) && Spares(cfg, plan, p)
    ensures Ran(cfg, plan, s') && s'.main == ScanBuilding(k, None) && s'.order == s.order && s'.workers == s.workers
    ensures Alike(plan, s.shared, s'.shared, w, p)
  {
    hide Ran, Gated, BuiltAsPlanned, DepsBuilt, Ready;
    ScanStarts(cfg, plan, s);
    var none := ScanUpTo(cfg, plan, s, 0, k, None);
    MainMoves(cfg, plan, s.(main := ScanBuilt(k, None)));
    var s1 := s.(main := ScanBuilding(k, None));
    var sh := ToMark(cfg, rank, plan, s1, w, p);
    s' := At(s1, w, sh, Own(p, MarkBuilt));
  }

  /** main goes on, reads that nobody is building p, and picks it again. */
  lemma PicksAgain(cfg: Config, plan: Plan, s: State, p: Package, k: nat) returns (s': State)
    requires Ran(cfg, plan, s) && s.main == ScanBuilding(k, None) && k < |s.order| && s.order[k] == p
    requires p !in s.shared.built && p !in s.shared.building && DepsBuilt(cfg.depends, s.shared.built, p)
    requires forall j :: k + 1 <= j < |s.order| ==> !Ready(cfg.depends, s.shared.built, s.shared.building, s.order[j])
    ensures Ran(cfg, plan, s') && s'.workers == s.workers + [p]
  {
    hide Ran, DepsBuilt, Ready;
    MainMoves(cfg, plan, s);
    MainMoves(cfg, plan, s.(main := ScanCan(k, None)));
    ScanDeps(cfg, plan, s, k, None, 0);
    var again := ScanUpTo(cfg, plan, s, k + 1, |s.order|, Some(p));
    MainMoves(cfg, plan, s.(main := ScanBuilt(|s.order|, Some(p))));
    MainMoves(cfg, plan, s.(main := Picked(p)));
    s' := StartWorker(s, p);
  }

  lemma IndexOf(cfg: Config, s: State, p: Package) returns (k: nat)
    requires Inv(cfg, s) && p in cfg.depends
    ensures k < |s.order| && s.order[k] == p && forall j :: 0 <= j < |s.order| && j != k ==> s.order[j] != p
  {
    assert Listing(cfg, s.order);
    k :| 0 <= k < |s.order| && s.order[k] == p;
  }

  lemma BelowIsBuilt(cfg: Config, rank: map<Package, nat>, s: State, w: nat, p: Package)
    requires Gated(cfg, rank) && Inv(cfg, s) && w < |s.phases| && w < |s.workers| && s.workers[w] == p
    requires p in cfg.depends
    ensures p in rank && DepsBuilt(cfg.depends, s.shared.built, p)
  {
    WorkerAt(cfg, s, w);
    GatedIsRanked(cfg, rank);
    assert p in rank.Keys;
  }

  lemma OthersNotReady(cfg: Config, plan: Plan, s: State, s2: State, w: nat, k: nat, p: Package)
    requires NoneReady(cfg, s) && s2.order == s.order && Alike(plan, s.shared, s2.shared, w, p)
    requires forall j :: 0 <= j < |s.order| && j != k ==> s.order[j] != p
    ensures forall j :: k + 1 <= j < |s2.order| ==>
              !Ready(cfg.depends, s2.shared.built, s2.shared.building, s2.order[j])
  {
    forall j | k + 1 <= j < |s2.order|
      ensures !Ready(cfg.depends, s2.shared.built, s2.shared.building, s2.order[j])
    {
      assert !Ready(cfg.depends, s.shared.built, s.shared.building, s.order[j]);
    }
  }

  /** Whatever the dependencies, modes and orders, any package that is not
      suppressed, nor found up to date, can get a second worker, unless at most one
      thread may run. */
  lemma SecondWorker(cfg: Config, rank: map<Package, nat>, plan: Plan, p: Package) returns (s: State)
    requires Gated(cfg, rank) && Sorts(cfg, plan) && plan.keep == {} && cfg.limit != 1
    requires p in cfg.depends && p !in cfg.suppressed && p !in plan.skip
    ensures Ran(cfg, plan, s) && multiset(s.workers)[p] >= 2
  {
    s := FirstWait(cfg, plan);
    NothingKept(cfg, plan, p);
    var w;
    s, w := BuildsUpTo(cfg, rank, plan, s, p);
    s := BuildsAround(cfg, rank, plan, s, w, p);
    RanInv(cfg, rank, plan, s);
    var k := IndexOf(cfg, s, p);
    BelowIsBuilt(cfg, rank, s, w, p);
    var workers := s.workers;
    hide Ran, Gated, NoneReady, Inv, DepsBuilt;
    var s1 := ReadsTooEarly(cfg, rank, plan, s, w, p, k);
    OthersNotReady(cfg, plan, s, s1, w, k, p);
    s := PicksAgain(cfg, plan, s1, p, k);
    TwoWorkersCount(workers + [p], w, |workers|);
  }

  // ---------------------------------------------------------------------
  // A build that returns, and one that stops on the way

  lemma WaitsBegins(cfg: Config, rank: map<Package, nat>, plan: Plan, s: State, w: nat, p: Package)
    requires Gated(cfg, rank) && Waits(cfg, plan, s, w, p) && p in cfg.depends && Sorts(cfg, plan)
    requires p !in plan.skip ==> Spares(cfg, plan, p)
    ensures Begins(cfg, rank, plan, s, w, p)
  {
    RanInv(cfg, rank, plan, s);
    BelowIsBuilt(cfg, rank, s, w, p);
    hide Ran, Gated, Inv, DepsBuilt, BuiltAsPlanned;
  }

  /** The positions in which a build does something that may fail. */
  predicate Risky(pc: Pc) {
    pc.Prepare? || pc.Decide? || pc.Fetch? || pc.Stage? || pc.Commands? || Packing(pc)
  }

  /** p's worker gets to any of these positions. */
  lemma StandsAt(cfg: Config, rank: map<Package, nat>, plan: Plan, p: Package, pc: Pc) returns (s: State, w: nat)
    requires Gated(cfg, rank) && Sorts(cfg, plan) && plan.keep == {} && !cfg.fetchOnly
    requires p in cfg.depends && p !in cfg.suppressed && p !in plan.skip
    requires Risky(pc)
    ensures Ran(cfg, plan, s) && w < |s.phases| && s.phases[w] == Own(p, pc)
    ensures OthersQuiet(s, w) && s.main == WantLock && !s.failed
    ensures w < |s.workers| && s.workers[w] == p && p !in s.shared.built
  {
    var s0 := FirstWait(cfg, plan);
    NothingKept(cfg, plan, p);
    s0, w := BuildsUpTo(cfg, rank, plan, s0, p);
    WaitsBegins(cfg, rank, plan, s0, w, p);
    assert OthersQuiet(s0, w);
    hide Ran, Gated, Waits, Begins, Sorts, IsListing;
    if pc == Prepare || pc == Decide {
      OwnSuppress(cfg, rank, plan, s0, w, p);
      var f, held := Frame(p, false, Suppress, Bottom), s0.shared.(locks := map[p := w]);
      Goes(cfg, plan, s0, w, held, f, Prepare);
      if pc == Decide {
        Goes(cfg, plan, s0, w, held, f.(pc := Prepare), Decide);
      }
      s := At(s0, w, held, Own(p, pc));
    } else {
      var sh := OwnFetch(cfg, rank, plan, s0, w, p);
      sh := ToRisk(cfg, plan, s0, w, sh, Frame(p, false, Fetch, Bottom), pc);
      s := At(s0, w, sh, Own(p, pc));
    }
  }

  /** From the fetch on to any later position. */
  lemma ToRisk(cfg: Config, plan: Plan, s: State, t: nat, sh: Shared, f: Stack, pc: Pc) returns (sh': Shared)
    requires t < |s.phases| && f.Frame? && f.pc == Fetch && Ran(cfg, plan, At(s, t, sh, Building(f))) && !cfg.fetchOnly
    requires Risky(pc) && pc != Prepare && pc != Decide
    ensures Ran(cfg, plan, At(s, t, sh', Building(f.(pc := pc)))) && sh' == sh.(executed := sh'.executed)
  {
    hide Ran, At;
    sh' := sh;
    if pc == Stage || pc == Commands {
      Goes(cfg, plan, s, t, sh, f, Stage);
      if pc == Commands {
        Goes(cfg, plan, s, t, sh, f.(pc := Stage), Commands);
      }
    } else if pc != Fetch {
      ToPacking(cfg, plan, s, t, sh, f);
      sh' := sh.(executed := sh.executed + multiset{f.package});
      ToPacked(cfg, plan, s, t, sh', f.(pc := PackStaging), pc);
    }
  }

  lemma ToPacked(cfg: Config, plan: Plan, s: State, t: nat, sh: Shared, f: Stack, pc: Pc)
    requires t < |s.phases| && f.Frame? && f.pc == PackStaging && Ran(cfg, plan, At(s, t, sh, Building(f)))
    requires Packing(pc)
    ensures Ran(cfg, plan, At(s, t, sh, Building(f.(pc := pc))))
  {
    hide Ran, At;
    if pc == List {
      ToListing(cfg, plan, s, t, sh, f);
    } else if pc != PackStaging {
      Goes(cfg, plan, s, t, sh, f, PackInstall);
      if pc != PackInstall {
        Goes(cfg, plan, s, t, sh, f.(pc := PackInstall), Record);
        if pc != Record {
          Goes(cfg, plan, s, t, sh, f.(pc := Record), Truncate);
        }
      }
    }
  }

  lemma ToListing(cfg: Config, plan: Plan, s: State, t: nat, sh: Shared, f: Stack)
    requires t < |s.phases| && f.Frame? && f.pc == PackStaging && Ran(cfg, plan, At(s, t, sh, Building(f)))
    ensures Ran(cfg, plan, At(s, t, sh, Building(f.(pc := List))))
  {
    hide Ran, At;
    Goes(cfg, plan, s, t, sh, f, PackInstall);
    Goes(cfg, plan, s, t, sh, f.(pc := PackInstall), Record);
    Goes(cfg, plan, s, t, sh, f.(pc := Record), Truncate);
    Goes(cfg, plan, s, t, sh, f.(pc := Truncate), List);
  }

  lemma BaseReaches(cfg: Config, rank: map<Package, nat>, q: Package)
    requires Gated(cfg, rank) && q in cfg.depends && q != cfg.base
    ensures Reaches(Targets(cfg.depends), cfg.base, q)
  {
    hide Ranked, Complete, Reaches;
  }

  lemma BelowBaseIsBuilt(cfg: Config, rank: map<Package, nat>, s: State, q: Package)
    requires Gated(cfg, rank) && Inv(cfg, s) && DepsBuilt(cfg.depends, s.shared.built, cfg.base)
    requires q in cfg.depends && q != cfg.base
    ensures q in s.shared.built
  {
    hide *;
    ClosedFlagsOf(cfg, s);
    BaseReaches(cfg, rank, q);
    if q !in s.shared.built {
      UnbuiltIsNotBelow(cfg, s.shared, cfg.base, q);
    }
  }

  lemma OnlyBaseIsLeft(cfg: Config, rank: map<Package, nat>, plan: Plan, s: State, w: nat)
    requires Gated(cfg, rank) && Waits(cfg, plan, s, w, cfg.base) && Inv(cfg, s)
    requires DepsBuilt(cfg.depends, s.shared.built, cfg.base)
    ensures NoneReady(cfg, s)
  {
    hide Inv, Gated, DepsBuilt, Calm;
    forall j | 0 <= j < |s.order|
      ensures !Ready(cfg.depends, s.shared.built, s.shared.building, s.order[j])
    {
      OrderIsKnown(cfg, s, s.order[j]);
      if s.order[j] != cfg.base {
        BelowBaseIsBuilt(cfg, rank, s, s.order[j]);
      }
    }
  }

  /** main goes to sleep while the base package is being built. */
  lemma MainSleeps(cfg: Config, rank: map<Package, nat>, plan: Plan, s: State, w: nat)
    requires Gated(cfg, rank) && Waits(cfg, plan, s, w, cfg.base) && cfg.base in cfg.depends
    ensures Ran(cfg, plan, s.(main := Asleep))
  {
    hide Ran, Gated, Inv, Ready, DepsBuilt, BuiltAsPlanned;
    RanInv(cfg, rank, plan, s);
    PhasesCount(cfg, s);
    BelowIsBuilt(cfg, rank, s, w, cfg.base);
    OnlyBaseIsLeft(cfg, rank, plan, s, w);
    if cfg.limit == 0 || s.running < cfg.limit {
      ScanStarts(cfg, plan, s);
      var best := ScanUpTo(cfg, plan, s, 0, |s.order|, None);
      MainMoves(cfg, plan, s.(main := ScanBuilt(|s.order|, None)));
    } else {
      MainMoves(cfg, plan, s);
      MainMoves(cfg, plan, s.(main := CheckLimit));
    }
  }

  lemma MainReturns(cfg: Config, plan: Plan, s: State) returns (s': State)
    requires Ran(cfg, plan, s) && s.main == Woken && !s.failed && cfg.base in s.shared.built
    ensures Ran(cfg, plan, s') && s' == s.(main := Returned(true))
  {
    hide Ran;
    MainMoves(cfg, plan, s);
    MainMoves(cfg, plan, s.(main := ReadFailed));
    MainMoves(cfg, plan, s.(main := ReadBuilt));
    MainMoves(cfg, plan, s.(main := AfterLoop));
    if cfg.keepGoing {
      MainMoves(cfg, plan, s.(main := KgWantLock));
      MainMoves(cfg, plan, s.(main := KgReadBuilt));
    }
    MainMoves(cfg, plan, s.(main := Returning));
    s' := s.(main := Returned(true));
  }

  /** No package that is built asks for one that is to be kept. */
  ghost predicate AllSpare(cfg: Config, plan: Plan) {
    forall p :: p in cfg.depends && p !in plan.skip ==> Spares(cfg, plan, p)
  }

  lemma AllSpareMeans(cfg: Config, plan: Plan, p: Package)
    requires AllSpare(cfg, plan)
    ensures Gentle(cfg, plan, p) && (p in cfg.depends && p !in plan.skip ==> Spares(cfg, plan, p))
  {
  }

  /** Every plan can be carried out by a run that returns true. */
  lemma BuildsAndReturns(cfg: Config, rank: map<Package, nat>, plan: Plan) returns (s: State)
    requires Gated(cfg, rank) && Sorts(cfg, plan) && AllSpare(cfg, plan)
    ensures Ran(cfg, plan, s) && s.main == Returned(true) && s.shared.locks == map[]
    ensures forall q :: q in s.shared.wasBuilt ==> q !in plan.keep
  {
    var s0 := FirstWait(cfg, plan);
    var w;
    assert cfg.base in cfg.depends;
    AllSpareMeans(cfg, plan, cfg.base);
    s0, w := BuildsUpTo(cfg, rank, plan, s0, cfg.base);
    WaitsBegins(cfg, rank, plan, s0, w, cfg.base);
    MainSleeps(cfg, rank, plan, s0, w);
    assert forall q :: q in s0.shared.wasBuilt ==> q !in plan.keep;
    hide Ran, Gated, DepsBuilt, BuiltAsPlanned, Listing, Spares, Gentle;
    var s1 := s0.(main := Asleep);
    var sh := ToReturn(cfg, rank, plan, s1, w, cfg.base);
    var s2 := At(s1, w, sh, Finishing);
    var order := plan.resort(s2, w);
    RanNext(cfg, plan, s2, Finish(w, order));
    s := MainReturns(cfg, plan, Then(cfg, s2, Finish(w, order)));
  }
}
