/** Runs of the build that carry out the scheduler's planned runs: every tree has
    runs that skip what a plan says, rebuild locally what was only skipped, and
    return true; and every tree has runs that fail and leave files that mislead. */
module IncrementalRuns {
  import Digraph
  import opened Packages
  import opened Scheduler
  import opened SchedulerInvariant
  import SchedulerSteps
  import SchedulerWorkers
  import opened SchedulerTheorems
  import opened SchedulerRuns
  import opened Worlds
  import opened Merkle
  import opened Incremental
  import opened IncrementalInvariant
  import opened IncrementalResults
  import IncrementalOutputs
  import opened IncrementalFailures
  import opened IncrementalTheorems

  // ---------------------------------------------------------------------
  // What a plan needs

  /** The cache has all of p's files. */
  ghost predicate InCache(B: Setup, p: Package)
    requires WorldOk(B.T, B.W) && p in B.W.own
  {
    var key := (p, B.T.digest(Text(B.T, B.W, p)));
    B.cache.Some? && key in B.cache.value
    && Available(B.cache.value[key], FilesToFetch(Def(B.T, B.W, p).hashOutput))
  }

  /** p is up to date, with the output that others may hash, or can be restored. */
  ghost predicate Skippable(B: Setup, p: Package, fs: Files)
    requires WorldOk(B.T, B.W) && p in B.W.own
  {
    var def := Def(B.T, B.W, p);
    && !AlwaysBuilt(def) && (def.hashOutput ==> !def.clean)
    && ((fs.install.None? && fs.newOut.None? && InCache(B, p))
        || (!def.clean && fs.buildInfo == Some(Text(B.T, B.W, p)) && fs.staging.Some? && fs.install.Some?
            && (def.hashOutput ==> fs.outputInfo.Some?)))
  }

  /** A disk on which the plan can be carried out. */
  ghost predicate Fit(B: Setup, plan: Plan, disk: Disk)
    requires WorldOk(B.T, B.W)
  {
    && DiskOk(B, disk)
    && forall p :: p in B.W.own ==>
         p in disk && if p in plan.skip then Skippable(B, p, disk[p]) else disk[p].install.None? && disk[p].newOut.None?
  }

  // ---------------------------------------------------------------------
  // What planned moves keep

  ghost predicate PackageFits(B: Setup, plan: Plan, s: BuildState, p: Package)
    requires WorldOk(B.T, B.W) && p in B.W.own
  {
    var def, sh := Def(B.T, B.W, p), s.sched.shared;
    && p in s.disk
    && (p in sh.built ==> p in plan.skip || sh.cleared[p] > 0)
    && (p in sh.built && def.hashOutput ==> s.disk[p].outputInfo.Some?)
    && (if p in plan.skip then
          && !AlwaysBuilt(def) && (def.hashOutput ==> !def.clean)
          && (p !in sh.built ==> Skippable(B, p, s.disk[p]))
        else
          && (s.disk[p].install.Some? ==> s.disk[p].newOut.Some?)
          && (s.disk[p].newOut.Some? ==> sh.executed[p] > 0))
  }

  /** A call that is not skipped. */
  predicate Beyond(pc: Pc) {
    pc.LocalDeps? || pc.Fetch? || pc.Stage? || pc.Commands? || Packing(pc) || Updated(pc)
  }

  /** Nothing has failed. */
  predicate PhaseFits(plan: Plan, phase: Phase) {
    !phase.Failing? && !Lost(phase) && (phase.Building? ==> StackFits(plan, phase.stack))
  }

  predicate StackFits(plan: Plan, f: Stack) {
    f.Frame? ==>
      && (!f.locally && f.package in plan.skip ==> !Beyond(f.pc))
      && f.pc != Leave(false)
      && StackFits(plan, f.caller)
  }

  ghost predicate Going(B: Setup, plan: Plan, s: BuildState)
    requires SetupOk(B)
  {
    && BuildInv(B, s)
    && s.sched.shared.aborted == multiset{} && !s.sched.failed
    && s.spoiled == {}
    && (forall p :: p in B.W.own ==> PackageFits(B, plan, s, p))
    && forall t :: 0 <= t < |s.sched.phases| ==> PhaseFits(plan, s.sched.phases[t])
  }

  lemma GoingHas(B: Setup, plan: Plan, s: BuildState)
    requires SetupOk(B) && Going(B, plan, s)
    ensures BuildInv(B, s) && s.sched.shared.aborted == multiset{} && !s.sched.failed && s.spoiled == {}
    ensures WorldOk(B.T, B.W) && Inv(B.cfg, s.sched) && s.disk.Keys == B.W.own.Keys
  {
    StoreHas(B, s);
    hide SetupOk, BuildInv, PackageFits, StackFits;
  }

  lemma GoingPhase(B: Setup, plan: Plan, s: BuildState, t: nat)
    requires SetupOk(B) && Going(B, plan, s) && t < |s.sched.phases|
    ensures PhaseFits(plan, s.sched.phases[t]) && !s.sched.phases[t].Failing? && !Lost(s.sched.phases[t])
    ensures s.sched.phases[t].Building? ==> StackFits(plan, s.sched.phases[t].stack)
  {
    assert PhaseFits(plan, s.sched.phases[t]);
    hide SetupOk, BuildInv, PackageFits, StackFits;
  }

  lemma GoingPackage(B: Setup, plan: Plan, s: BuildState, p: Package)
    requires SetupOk(B) && WorldOk(B.T, B.W) && Going(B, plan, s) && p in B.W.own
    ensures PackageFits(B, plan, s, p)
  {
    hide SetupOk, BuildInv, PackageFits, StackFits;
  }

  lemma GoingFrom(B: Setup, plan: Plan, s: BuildState)
    requires SetupOk(B) && WorldOk(B.T, B.W) && BuildInv(B, s)
    requires s.sched.shared.aborted == multiset{} && !s.sched.failed && s.spoiled == {}
    requires forall p :: p in B.W.own ==> PackageFits(B, plan, s, p)
    requires forall t: nat :: t < |s.sched.phases| ==> PhaseFits(plan, s.sched.phases[t])
    ensures Going(B, plan, s)
  {
    hide SetupOk, BuildInv, PackageFits, PhaseFits, WorldOk;
  }

  lemma FitsMeans(B: Setup, plan: Plan, s: BuildState, p: Package)
    requires WorldOk(B.T, B.W) && p in B.W.own && PackageFits(B, plan, s, p)
    ensures p in s.disk
    ensures p in s.sched.shared.built ==> p in plan.skip || s.sched.shared.cleared[p] > 0
    ensures p in s.sched.shared.built && Def(B.T, B.W, p).hashOutput ==> s.disk[p].outputInfo.Some?
    ensures p in plan.skip ==>
              !AlwaysBuilt(Def(B.T, B.W, p)) && (Def(B.T, B.W, p).hashOutput ==> !Def(B.T, B.W, p).clean)
    ensures p in plan.skip && p !in s.sched.shared.built ==> Skippable(B, p, s.disk[p])
    ensures p !in plan.skip && s.disk[p].install.Some? ==> s.disk[p].newOut.Some?
    ensures p !in plan.skip && s.disk[p].newOut.Some? ==> s.sched.shared.executed[p] > 0
  {
    hide Skippable, WorldOk;
  }

  lemma FitsFrom(B: Setup, plan: Plan, s: BuildState, p: Package)
    requires WorldOk(B.T, B.W) && p in B.W.own && p in s.disk
    requires p in s.sched.shared.built ==> p in plan.skip || s.sched.shared.cleared[p] > 0
    requires p in s.sched.shared.built && Def(B.T, B.W, p).hashOutput ==> s.disk[p].outputInfo.Some?
    requires p in plan.skip ==>
               !AlwaysBuilt(Def(B.T, B.W, p)) && (Def(B.T, B.W, p).hashOutput ==> !Def(B.T, B.W, p).clean)
    requires p in plan.skip && p !in s.sched.shared.built ==> Skippable(B, p, s.disk[p])
    requires p !in plan.skip && s.disk[p].install.Some? ==> s.disk[p].newOut.Some?
    requires p !in plan.skip && s.disk[p].newOut.Some? ==> s.sched.shared.executed[p] > 0
    ensures PackageFits(B, plan, s, p)
  {
    hide Skippable, WorldOk;
  }

  // ---------------------------------------------------------------------
  // The files allow what is planned

  lemma HashIsThere(B: Setup, disk: Disk, q: Package, trusted: bool)
    requires SetupOk(B) && WorldOk(B.T, B.W) && q in B.W.own && q in disk && Right(B, disk[q], q, trusted)
    requires Def(B.T, B.W, q).hashOutput ==> disk[q].outputInfo.Some?
    ensures LineFor(B.T, B.W, disk, q).text != ""
  {
    hide WorldOk, CleanOut, Text, CutoffsCovered;
  }

  lemma DescriptionAllowed(B: Setup, plan: Plan, s: BuildState, t: nat, e: Effect)
    requires SetupOk(B) && Going(B, plan, s) && t < |s.sched.phases| && s.sched.phases[t].Building?
    requires var f := s.sched.phases[t].stack; f.Frame? && f.pc == Prepare && OnDisk(B, s.disk, f.package)
    ensures DiskMay(B, s.disk, s.sched.phases[t].stack, Goto(Decide), e)
  {
    hide *;
    GoingHas(B, plan, s);
    forall q | q in B.W.own && q in s.sched.shared.built && Def(B.T, B.W, q).hashOutput
      ensures q in s.disk && s.disk[q].outputInfo.Some?
    {
      GoingPackage(B, plan, s, q);
      FitsMeans(B, plan, s, q);
    }
    OutputsAllow(B, s, t, e);
  }

  /** A package can be described if its dependencies' outputs are there. */
  lemma OutputsAllow(B: Setup, s: BuildState, t: nat, e: Effect)
    requires SetupOk(B) && BuildInv(B, s) && t < |s.sched.phases| && s.sched.phases[t].Building?
    requires var f := s.sched.phases[t].stack; f.Frame? && f.pc == Prepare && OnDisk(B, s.disk, f.package)
    requires forall q :: q in B.W.own && q in s.sched.shared.built && Def(B.T, B.W, q).hashOutput ==>
               q in s.disk && s.disk[q].outputInfo.Some?
    ensures DiskMay(B, s.disk, s.sched.phases[t].stack, Goto(Decide), e)
  {
    hide *;
    StoreHas(B, s);
    var p := s.sched.phases[t].stack.package;
    DependsAreBuilt(B, s, t);
    forall i: nat | i < |Def(B.T, B.W, p).depends|
      ensures Def(B.T, B.W, p).depends[i].package in B.W.own && Def(B.T, B.W, p).depends[i].package in s.disk
      ensures LineFor(B.T, B.W, s.disk, Def(B.T, B.W, p).depends[i].package).text != ""
    {
      var q := Def(B.T, B.W, p).depends[i].package;
      BuiltIsRight(B, s, q);
      HashIsThere(B, s.disk, q, q !in s.spoiled);
    }
    PrepareAllowed(B, s.disk, s.sched.phases[t].stack, e);
  }

  lemma PrepareAllowed(B: Setup, disk: Disk, f: Stack, e: Effect)
    requires f.Frame? && f.pc == Prepare && OnDisk(B, disk, f.package)
    requires forall i: nat :: i < |Def(B.T, B.W, f.package).depends| ==>
               var q := Def(B.T, B.W, f.package).depends[i].package;
               q in B.W.own && q in disk && LineFor(B.T, B.W, disk, q).text != ""
    ensures DiskMay(B, disk, f, Goto(Decide), e)
  {
    hide WorldOk, LineFor;
  }

  /** Nothing has run p's commands before its own first build gets to them. */
  lemma NotExecuted(cfg: Config, s: State, t: nat)
    requires Inv(cfg, s) && t < |s.phases| && s.phases[t].Building? && s.shared.aborted == multiset{}
    ensures var f := s.phases[t].stack;
            f.Frame? && (f.pc == Decide ==> s.shared.executed[f.package] == 0 && s.shared.cleared[f.package] == 0)
    ensures var f := s.phases[t].stack; f.pc == Prepare ==> s.shared.cleared[f.package] == 0
    ensures var f := s.phases[t].stack; f.pc == MarkBuilt ==> s.shared.cleared[f.package] > 0
    ensures var f := s.phases[t].stack; f.package in cfg.depends
  {
    WorkerAt(cfg, s, t);
  }

  lemma RebuildAllowed(B: Setup, disk: Disk, f: Stack, e: Effect)
    requires f.Frame? && f.pc == Decide && OnDisk(B, disk, f.package) && f.package in disk && f.package in B.W.own
    requires AlwaysBuilt(Def(B.T, B.W, f.package)) || disk[f.package].install.None?
    requires !f.locally ==> e.fetched == 0
    ensures DiskMay(B, disk, f, Goto(LocalDeps(0)), e)
  {
    hide WorldOk, Known;
  }

  lemma SkipAllowed(B: Setup, disk: Disk, f: Stack, e: Effect)
    requires WorldOk(B.T, B.W) && f.Frame? && f.pc == Decide && !f.locally && OnDisk(B, disk, f.package)
    requires f.package in disk && f.package in B.W.own && Skippable(B, f.package, disk[f.package]) && ToolsOk(B.T)
    requires FilesOk(B, disk[f.package], f.package, false, Decide, true)
    requires e.fetched == FilesToFetch(Def(B.T, B.W, f.package).hashOutput)
    ensures DiskMay(B, disk, f, Goto(Leave(true)), e)
  {
    hide WorldOk, Known, Text, CleanOut, Consistent;
  }

  lemma ToolsOf(B: Setup)
    requires SetupOk(B)
    ensures ToolsOk(B.T) && CutoffsCovered(B.T, B.W)
  {
    hide ToolsOk, CutoffsCovered, WorldOk;
  }

  lemma DecideAllowed(B: Setup, plan: Plan, s: BuildState, t: nat, o: Outcome)
    requires SetupOk(B) && Going(B, plan, s) && t < |s.sched.phases| && s.sched.phases[t].Building?
    requires var f := s.sched.phases[t].stack;
             && f.Frame? && f.pc == Decide && OnDisk(B, s.disk, f.package) && f.package in B.W.own
             && FrameMay(B.cfg, s.sched.shared, f, o) && Onward(plan, f, o)
    ensures DiskMay(B, s.disk, s.sched.phases[t].stack, o, PlannedEffect(B, plan, s.sched.phases[t].stack))
  {
    hide *;
    GoingHas(B, plan, s);
    var f, p := s.sched.phases[t].stack, s.sched.phases[t].stack.package;
    PlainSetup(B, s.disk, p);
    GoingPackage(B, plan, s, p);
    FitsMeans(B, plan, s, p);
    NotExecuted(B.cfg, s.sched, t);
    TopFilesAre(B, s, t);
    TopFacts(B, s, f);
    DecideOnward(B.cfg, plan, s.sched.shared, f, o);
    OwnFrame(B.cfg, s.sched, t);
    DecideIsActive(f.pc);
    EffectIs(B, plan, f);
    if f.locally {
      LocalAllowed(B, s.disk, f, o, PlannedEffect(B, plan, f));
    } else if p in plan.skip {
      ToolsOf(B);
      SkipAllowed(B, s.disk, f, PlannedEffect(B, plan, f));
    } else {
      RebuildAllowed(B, s.disk, f, PlannedEffect(B, plan, f));
    }
  }

  lemma DecideIsActive(pc: Pc)
    ensures pc == Decide ==> Active(pc) && pc != Lock
  {
  }

  lemma LocalAllowed(B: Setup, disk: Disk, f: Stack, o: Outcome, e: Effect)
    requires f.Frame? && f.pc == Decide && f.locally && OnDisk(B, disk, f.package)
    ensures DiskMay(B, disk, f, o, e)
  {
  }

  lemma DecideOnward(cfg: Config, plan: Plan, sh: Shared, f: Stack, o: Outcome)
    requires f.Frame? && f.pc == Decide && FrameMay(cfg, sh, f, o) && Onward(plan, f, o)
    ensures o == Goto(if !f.locally && f.package in plan.skip then Leave(true) else LocalDeps(0))
  {
  }

  /** What a planned move does on disk: skipping restores what is not up to date. */
  function PlannedEffect(B: Setup, plan: Plan, f: Stack): Effect
    requires f.Frame? && f.package in B.W.own
  {
    Effect(if f.pc == Decide && !f.locally && f.package in plan.skip then
             FilesToFetch(Def(B.T, B.W, f.package).hashOutput)
           else 0, None)
  }

  lemma EffectIs(B: Setup, plan: Plan, f: Stack)
    requires f.Frame? && f.package in B.W.own
    ensures PlannedEffect(B, plan, f).fetched
            == if f.pc == Decide && !f.locally && f.package in plan.skip then
                 FilesToFetch(Def(B.T, B.W, f.package).hashOutput)
               else 0
  {
  }

  lemma PrepareOnward(cfg: Config, plan: Plan, sh: Shared, f: Stack, o: Outcome)
    requires f.Frame? && f.pc == Prepare && FrameMay(cfg, sh, f, o) && Onward(plan, f, o)
    ensures o == Goto(Decide)
  {
  }

  /** Every planned step of a worker is a move of the build. */
  lemma PlannedMoves(B: Setup, plan: Plan, s: BuildState, t: nat, o: Outcome)
    requires SetupOk(B) && Going(B, plan, s) && May(B.cfg, s.sched, Work(t, o))
    requires t < |s.sched.phases| && s.sched.phases[t].Building? && s.sched.phases[t].stack.Frame?
    requires Onward(plan, s.sched.phases[t].stack, o) && s.sched.phases[t].stack.package in B.W.own
    ensures CanMove(B, s, Move(Work(t, o), PlannedEffect(B, plan, s.sched.phases[t].stack)))
  {
    hide *;
    GoingHas(B, plan, s);
    TopFilesAre(B, s, t);
    var f := s.sched.phases[t].stack;
    var e := PlannedEffect(B, plan, f);
    WorkMeans(B.cfg, s.sched, Work(t, o));
    if f.pc == Prepare {
      PrepareOnward(B.cfg, plan, s.sched.shared, f, o);
      DescriptionAllowed(B, plan, s, t, e);
    } else if f.pc == Decide {
      DecideAllowed(B, plan, s, t, o);
    } else {
      NothingIsMissing(B, s, f, o, e);
    }
    CanWork(B, s, t, o, e);
  }

  // ---------------------------------------------------------------------
  // Planned moves keep what later ones need

  /** What a planned move does to the files that decide later ones. */
  ghost predicate Gently(B: Setup, plan: Plan, f: Stack, fs: Files, fs': Files)
    requires f.Frame? && f.package in B.W.own
  {
    && (fs.outputInfo.Some? && !(f.pc == Prepare && Def(B.T, B.W, f.package).clean) ==> fs'.outputInfo.Some?)
    && (fs'.newOut.Some? <==> fs.newOut.Some? || f.pc == Commands)
    && (f.package !in plan.skip && fs'.install.Some? ==> fs.install.Some? || f.pc == PackInstall)
  }

  lemma GentlyPlain(B: Setup, plan: Plan, f: Stack, fs: Files)
    requires f.Frame? && f.package in B.W.own && f.pc != Commands
    ensures Gently(B, plan, f, fs, fs)
  {
  }

  lemma GentlyPrepare(B: Setup, plan: Plan, f: Stack, fs: Files, text: string)
    requires f.Frame? && f.package in B.W.own && f.pc == Prepare
    ensures Gently(B, plan, f, fs, Prepared(B.T, Cleaned(fs, Def(B.T, B.W, f.package).clean), text))
  {
  }

  lemma GentlyDecide(B: Setup, plan: Plan, f: Stack, fs: Files, o: Outcome, n: nat)
    requires f.Frame? && f.package in B.W.own && f.pc == Decide && !f.locally
    requires o == Goto(Leave(true)) ==> f.package in plan.skip && Skips(B, fs, f.package, n)
    requires o != Goto(Leave(true)) ==> n == 0
    ensures Gently(B, plan, f, fs, if o == Goto(Leave(true)) then Skipped(B, fs, f.package, n)
                                   else Tried(B, fs, f.package, n))
  {
    if o == Goto(Leave(true)) && !UpToDate(fs) && fs.outputInfo.Some? {
      IncrementalOutputs.FetchedOutput(B, fs, f.package, n);
    }
    hide UpToDate, Downloads, AlwaysBuilt;
  }

  lemma GentlyStage(B: Setup, plan: Plan, f: Stack, fs: Files, fs': Files)
    requires f.Frame? && f.package in B.W.own && f.pc == Stage
    requires fs' == fs.(stagingDir := fs'.stagingDir, installDir := fs'.installDir)
    ensures Gently(B, plan, f, fs, fs')
  {
  }

  lemma GentlyPacks(B: Setup, plan: Plan, disk: Disk, f: Stack, pc: Pc, e: Effect)
    requires f.Frame? && OnDisk(B, disk, f.package) && f.package in B.W.own && f.package in disk
    requires f.pc == Commands || Packing(f.pc)
    requires pc == NextPacking(f.pc) && DiskMay(B, disk, f, Goto(pc), e)
    ensures Gently(B, plan, f, disk[f.package], FilesThen(B, disk, f, Goto(pc), e))
  {
    hide WorldOk, Def;
  }

  function NextPacking(pc: Pc): Pc {
    match pc
    case Commands => PackStaging
    case PackStaging => PackInstall
    case PackInstall => Record
    case Record => Truncate
    case Truncate => List
    case _ => Clear
  }

  lemma OnwardGoes(cfg: Config, plan: Plan, sh: Shared, f: Stack, o: Outcome)
    requires f.Frame? && FrameMay(cfg, sh, f, o) && Onward(plan, f, o) && !cfg.fetchOnly && cfg.suppressed == {}
    ensures f.pc == Prepare ==> o == Goto(Decide)
    ensures f.pc == Decide ==> o == Goto(if !f.locally && f.package in plan.skip then Leave(true) else LocalDeps(0))
    ensures f.pc == Stage ==> o == Goto(Commands)
    ensures f.pc == Commands || Packing(f.pc) ==> o == Goto(NextPacking(f.pc))
    ensures f.pc == Commands ==> o == Goto(PackStaging)
  {
  }

  /** Worker t can move as planned, with the planned effect. */
  ghost predicate GoesOn(B: Setup, plan: Plan, s: BuildState, t: nat, o: Outcome, e: Effect)
    requires SetupOk(B)
  {
    && Going(B, plan, s) && CanMove(B, s, Move(Work(t, o), e))
    && t < |s.sched.phases| && s.sched.phases[t].Building? && s.sched.phases[t].stack.Frame?
    && s.sched.phases[t].stack.package in B.W.own
    && Onward(plan, s.sched.phases[t].stack, o) && e == PlannedEffect(B, plan, s.sched.phases[t].stack)
    && (s.sched.phases[t].stack.pc.Prepare? ==> OthersQuiet(s.sched, t))
  }

  lemma GoesOnHas(B: Setup, plan: Plan, s: BuildState, t: nat, o: Outcome, e: Effect) returns (f: Stack, s': BuildState)
    requires SetupOk(B) && GoesOn(B, plan, s, t, o, e)
    ensures Going(B, plan, s) && CanMove(B, s, Move(Work(t, o), e)) && BuildInv(B, s)
    ensures t < |s.sched.phases| && s.sched.phases[t].Building? && f == s.sched.phases[t].stack
    ensures f.Frame? && f.package in B.W.own && f.package in s.disk && s' == Moved(B, s, Move(Work(t, o), e))
    ensures Onward(plan, f, o) && e == PlannedEffect(B, plan, f)
    ensures f.pc.Prepare? ==> OthersQuiet(s.sched, t)
    ensures WorldOk(B.T, B.W) && s.disk.Keys == s'.disk.Keys == B.W.own.Keys
    ensures OnDisk(B, s.disk, f.package) && DiskMay(B, s.disk, f, o, e)
    ensures s'.disk == s.disk[f.package := FilesThen(B, s.disk, f, o, e)]
    ensures FrameMay(B.cfg, s.sched.shared, f, o) && May(B.cfg, s.sched, Work(t, o)) && Inv(B.cfg, s.sched)
    ensures s'.sched == Then(B.cfg, s.sched, Work(t, o))
    ensures s'.sched.shared == FrameThen(B.cfg, t, s.sched.shared, f, o)
    ensures s'.sched.phases == s.sched.phases[t := PhaseThen(f, o)]
  {
    hide *;
    GoesOnParts(B, plan, s, t, o, e);
    GoingHas(B, plan, s);
    f, s' := MoveFacts(B, s, t, o, e);
  }

  lemma GoesOnParts(B: Setup, plan: Plan, s: BuildState, t: nat, o: Outcome, e: Effect)
    requires SetupOk(B) && GoesOn(B, plan, s, t, o, e)
    ensures Going(B, plan, s) && CanMove(B, s, Move(Work(t, o), e))
    ensures t < |s.sched.phases| && s.sched.phases[t].Building? && s.sched.phases[t].stack.Frame?
    ensures s.sched.phases[t].stack.package in B.W.own
    ensures Onward(plan, s.sched.phases[t].stack, o) && e == PlannedEffect(B, plan, s.sched.phases[t].stack)
    ensures s.sched.phases[t].stack.pc.Prepare? ==> OthersQuiet(s.sched, t)
  {
    hide SetupOk, Going, CanMove, Onward, PlannedEffect, OthersQuiet;
  }

  lemma MovesGently(B: Setup, plan: Plan, s: BuildState, t: nat, o: Outcome, e: Effect)
    requires SetupOk(B) && GoesOn(B, plan, s, t, o, e) && CanMove(B, s, Move(Work(t, o), e))
    requires t < |s.sched.phases| && s.sched.phases[t].Building? && s.sched.phases[t].stack.Frame?
    requires s.sched.phases[t].stack.package in B.W.own
    ensures var f, s' := s.sched.phases[t].stack, Moved(B, s, Move(Work(t, o), e));
            f.package in s.disk && f.package in s'.disk && Gently(B, plan, f, s.disk[f.package], s'.disk[f.package])
  {
    hide *;
    var f, s' := GoesOnHas(B, plan, s, t, o, e);
    if f.pc != Decide {
      OnwardIs(plan, f, o);
      GentlyElsewhere(B, plan, s, t, o, e);
    } else {
      SetupGraph(B);
      OnwardGoes(B.cfg, plan, s.sched.shared, f, o);
      EffectIs(B, plan, f);
      DecisionIs(B, s.disk, f, o, e);
      if f.locally {
        GentlyPlain(B, plan, f, s.disk[f.package]);
      } else {
        GentlyDecide(B, plan, f, s.disk[f.package], o, e.fetched);
      }
    }
  }

  lemma NotFailing(cfg: Config, sh: Shared, f: Stack, o: Outcome)
    requires f.Frame? && FrameMay(cfg, sh, f, o) && !Fails(o)
    ensures f.pc == Prepare ==> o == Goto(Decide)
    ensures f.pc == Stage ==> o == Goto(Commands)
    ensures f.pc == Commands || Packing(f.pc) ==> o == Goto(NextPacking(f.pc))
  {
  }

  /** Every move that is no failure, except for shouldBuild's. */
  lemma GentlyElsewhere(B: Setup, plan: Plan, s: BuildState, t: nat, o: Outcome, e: Effect)
    requires SetupOk(B) && BuildInv(B, s) && CanMove(B, s, Move(Work(t, o), e)) && !Fails(o)
    requires t < |s.sched.phases| && s.sched.phases[t].Building? && s.sched.phases[t].stack.Frame?
    requires s.sched.phases[t].stack.package in B.W.own && s.sched.phases[t].stack.pc != Decide
    ensures var f, s' := s.sched.phases[t].stack, Moved(B, s, Move(Work(t, o), e));
            f.package in s.disk && f.package in s'.disk && Gently(B, plan, f, s.disk[f.package], s'.disk[f.package])
  {
    hide *;
    var f, s' := MoveFacts(B, s, t, o, e);
    NotFailing(B.cfg, s.sched.shared, f, o);
    var fs := s.disk[f.package];
    PcKinds(f.pc);
    if Plain(f.pc) {
      PlainMoves(B, s.disk, f, o, e);
      PlainIsNot(f.pc);
      GentlyPlain(B, plan, f, fs);
    } else if f.pc == Prepare {
      PrepareMoves(B, s, f, e);
      GentlyPrepared(B, plan, s, f);
    } else if f.pc == Stage {
      StageMoves(B, s, f, e);
      StagedFiles(B, s.disk, f.package);
      GentlyStage(B, plan, f, fs, s'.disk[f.package]);
    } else {
      PackingPcs(f.pc);
      GentlyPacks(B, plan, s.disk, f, o.pc, e);
    }
  }

  lemma GentlyPrepared(B: Setup, plan: Plan, s: BuildState, f: Stack)
    requires f.Frame? && OnDisk(B, s.disk, f.package) && f.pc == Prepare && f.package in s.disk
    requires f.package in B.W.extraction && Known(B.T, B.W, s.disk, f.package)
    ensures var fs := s.disk[f.package];
            Gently(B, plan, f, fs,
              Prepared(B.T, Cleaned(fs, Def(B.T, B.W, f.package).clean), Assembled(B.T, B.W, s.disk, f.package)))
  {
    hide Gently, Assembled, WorldOk, Known;
    GentlyPrepare(B, plan, f, s.disk[f.package], Assembled(B.T, B.W, s.disk, f.package));
  }

  lemma PlainIsNot(pc: Pc)
    requires Plain(pc)
    ensures pc != Commands && pc != Decide && pc != PackInstall && pc != Prepare
  {
  }

  lemma PackingPcs(pc: Pc)
    ensures pc == PackStaging || pc == PackInstall || pc == Record || pc == Truncate || pc == List ==> Packing(pc)
  {
  }

  lemma ExecutedGrows(cfg: Config, t: nat, sh: Shared, f: Stack, o: Outcome, p: Package)
    requires f.Frame?
    ensures sh.executed[p] <= FrameThen(cfg, t, sh, f, o).executed[p]
    ensures f.pc == Commands && o == Goto(PackStaging) ==> FrameThen(cfg, t, sh, f, o).executed[f.package] > 0
    ensures !Fails(o) ==> FrameThen(cfg, t, sh, f, o).aborted == sh.aborted
  {
  }

  lemma GentlyMeans(B: Setup, plan: Plan, f: Stack, fs: Files, fs': Files)
    requires f.Frame? && f.package in B.W.own && Gently(B, plan, f, fs, fs')
    ensures fs.outputInfo.Some? && !(f.pc == Prepare && Def(B.T, B.W, f.package).clean) ==> fs'.outputInfo.Some?
    ensures fs'.newOut.Some? <==> fs.newOut.Some? || f.pc == Commands
    ensures f.package !in plan.skip && fs'.install.Some? ==> fs.install.Some? || f.pc == PackInstall
  {
  }

  lemma PackingHas(B: Setup, fs: Files, p: Package, locally: bool, trusted: bool)
    requires WorldOk(B.T, B.W) && p in B.W.own
    ensures FilesOk(B, fs, p, locally, PackInstall, trusted) ==> fs.newOut.Some?
    ensures FilesOk(B, fs, p, locally, MarkBuilt, trusted) && Def(B.T, B.W, p).hashOutput ==> fs.outputInfo.Some?
  {
    hide WorldOk, Text, CleanOut, Right, OutputInfoRight, Consistent;
  }

  lemma SkippedOutput(B: Setup, p: Package, fs: Files, n: nat)
    requires WorldOk(B.T, B.W) && p in B.W.own && Skippable(B, p, fs) && Skips(B, fs, p, n)
    requires Def(B.T, B.W, p).hashOutput && n == FilesToFetch(true)
    ensures Skipped(B, fs, p, n).outputInfo.Some?
  {
    hide WorldOk, Text, AlwaysBuilt;
  }

  /** The package of the call that moves: what is known once it is built. */
  lemma OwnBuiltFits(B: Setup, plan: Plan, s: BuildState, t: nat, o: Outcome, e: Effect)
    requires SetupOk(B) && GoesOn(B, plan, s, t, o, e) && CanMove(B, s, Move(Work(t, o), e))
    requires t < |s.sched.phases| && s.sched.phases[t].Building? && s.sched.phases[t].stack.Frame?
    requires s.sched.phases[t].stack.package in B.W.own
    requires s.sched.phases[t].stack.package in Moved(B, s, Move(Work(t, o), e)).sched.shared.built
    ensures var p, s' := s.sched.phases[t].stack.package, Moved(B, s, Move(Work(t, o), e));
            && p in s'.disk
            && (p in plan.skip || s'.sched.shared.cleared[p] > 0)
            && (Def(B.T, B.W, p).hashOutput ==> s'.disk[p].outputInfo.Some?)
  {
    hide *;
    var f, s' := GoesOnHas(B, plan, s, t, o, e);
    var p := f.package;
    SetupGraph(B);
    GoingHas(B, plan, s);
    GoingPackage(B, plan, s, p);
    FitsMeans(B, plan, s, p);
    NotExecuted(B.cfg, s.sched, t);
    MovesOf(B.cfg, t, s.sched.shared, f, o);
    OnwardGoes(B.cfg, plan, s.sched.shared, f, o);
    ClearedGrows(B.cfg, t, s.sched.shared, f, o, p);
    MovesGently(B, plan, s, t, o, e);
    GentlyMeans(B, plan, f, s.disk[p], s'.disk[p]);
    if p !in s.sched.shared.built {
      TopFilesAre(B, s, t);
      TopFacts(B, s, f);
      NewPc(f.pc);
      if f.pc.Decide? {
        EffectIs(B, plan, f);
        DecisionIs(B, s.disk, f, o, e);
        if Def(B.T, B.W, p).hashOutput {
          SkippedOutput(B, p, s.disk[p], e.fetched);
        }
      } else {
        PackingHas(B, s.disk[p], p, f.locally, p !in s.spoiled);
      }
    }
  }

  lemma NewPc(pc: Pc)
    ensures pc.MarkBuilt? ==> pc != Lock && pc != Prepare
  {
  }

  lemma SkippableStays(B: Setup, p: Package, fs: Files, fs': Files)
    requires WorldOk(B.T, B.W) && p in B.W.own && Skippable(B, p, fs)
    requires fs'.install == fs.install && fs'.staging == fs.staging && fs'.newOut == fs.newOut
    requires !Def(B.T, B.W, p).clean ==> fs'.buildInfo == fs.buildInfo && fs'.outputInfo == fs.outputInfo
    ensures Skippable(B, p, fs')
  {
    hide WorldOk, Text, AlwaysBuilt;
  }

  lemma PreparedSkippable(B: Setup, p: Package, fs: Files, text: string)
    requires WorldOk(B.T, B.W) && p in B.W.own && Skippable(B, p, fs)
    ensures Skippable(B, p, Prepared(B.T, Cleaned(fs, Def(B.T, B.W, p).clean), text))
  {
    hide WorldOk, Skippable;
    SkippableStays(B, p, fs, Prepared(B.T, Cleaned(fs, Def(B.T, B.W, p).clean), text));
  }

  lemma BeyondPcs(pc: Pc)
    requires !Beyond(pc)
    ensures Plain(pc) || pc == Prepare || pc == Decide
  {
  }

  lemma StackFitsTop(plan: Plan, f: Stack)
    requires f.Frame? && StackFits(plan, f)
    ensures (!f.locally && f.package in plan.skip ==> !Beyond(f.pc)) && f.pc != Leave(false)
  {
  }

  /** A package to skip, until it is. */
  lemma OwnSkipFits(B: Setup, plan: Plan, s: BuildState, t: nat, o: Outcome, e: Effect)
    requires SetupOk(B) && GoesOn(B, plan, s, t, o, e) && CanMove(B, s, Move(Work(t, o), e))
    requires t < |s.sched.phases| && s.sched.phases[t].Building? && s.sched.phases[t].stack.Frame?
    requires s.sched.phases[t].stack.package in B.W.own && s.sched.phases[t].stack.package in plan.skip
    requires s.sched.phases[t].stack.package !in Moved(B, s, Move(Work(t, o), e)).sched.shared.built
    ensures var p, s' := s.sched.phases[t].stack.package, Moved(B, s, Move(Work(t, o), e));
            WorldOk(B.T, B.W) && p in s'.disk && Skippable(B, p, s'.disk[p])
  {
    hide *;
    var f, s' := GoesOnHas(B, plan, s, t, o, e);
    var p := f.package;
    SetupGraph(B);
    GoingPackage(B, plan, s, p);
    FitsMeans(B, plan, s, p);
    DependsAreBuilt(B, s, t);
    GrownStays(B.cfg, t, s.sched.shared, f, o);
    GoingPhase(B, plan, s, t);
    StackFitsTop(plan, f);
    BeyondPcs(f.pc);
    MovesOf(B.cfg, t, s.sched.shared, f, o);
    OnwardGoes(B.cfg, plan, s.sched.shared, f, o);
    if Plain(f.pc) {
      PlainMoves(B, s.disk, f, o, e);
    } else if f.pc == Prepare {
      PrepareMoves(B, s, f, e);
      PreparedHere(B, s, f);
    }
  }

  lemma PreparedHere(B: Setup, s: BuildState, f: Stack)
    requires f.Frame? && OnDisk(B, s.disk, f.package) && f.package in s.disk && WorldOk(B.T, B.W)
    requires f.package in B.W.own && f.package in B.W.extraction && Known(B.T, B.W, s.disk, f.package)
    requires Skippable(B, f.package, s.disk[f.package])
    ensures Skippable(B, f.package,
              Prepared(B.T, Cleaned(s.disk[f.package], Def(B.T, B.W, f.package).clean),
                Assembled(B.T, B.W, s.disk, f.package)))
  {
    hide Skippable, Assembled, WorldOk, Known;
    PreparedSkippable(B, f.package, s.disk[f.package], Assembled(B.T, B.W, s.disk, f.package));
  }

  lemma GrownStays(cfg: Config, t: nat, sh: Shared, f: Stack, o: Outcome)
    requires f.Frame?
    ensures sh.built <= FrameThen(cfg, t, sh, f, o).built
  {
  }

  lemma OwnFits(B: Setup, plan: Plan, s: BuildState, t: nat, o: Outcome, e: Effect)
    requires SetupOk(B) && GoesOn(B, plan, s, t, o, e) && CanMove(B, s, Move(Work(t, o), e))
    requires t < |s.sched.phases| && s.sched.phases[t].Building? && s.sched.phases[t].stack.Frame?
    requires s.sched.phases[t].stack.package in B.W.own
    ensures WorldOk(B.T, B.W)
    ensures PackageFits(B, plan, Moved(B, s, Move(Work(t, o), e)), s.sched.phases[t].stack.package)
  {
    hide *;
    var f, s' := GoesOnHas(B, plan, s, t, o, e);
    var p := f.package;
    SetupGraph(B);
    GoingPackage(B, plan, s, p);
    FitsMeans(B, plan, s, p);
    OnwardGoes(B.cfg, plan, s.sched.shared, f, o);
    ExecutedGrows(B.cfg, t, s.sched.shared, f, o, p);
    MovesGently(B, plan, s, t, o, e);
    GentlyMeans(B, plan, f, s.disk[p], s'.disk[p]);
    CommandPc(f.pc);
    TopFilesAre(B, s, t);
    TopFacts(B, s, f);
    PackingHas(B, s.disk[p], p, f.locally, p !in s.spoiled);
    if p in s'.sched.shared.built {
      OwnBuiltFits(B, plan, s, t, o, e);
    } else if p in plan.skip {
      OwnSkipFits(B, plan, s, t, o, e);
    }
    FitsFrom(B, plan, s', p);
  }

  lemma CommandPc(pc: Pc)
    ensures pc == Commands || pc == PackInstall ==> pc != Lock
  {
  }

  lemma OtherFits(B: Setup, plan: Plan, s: BuildState, t: nat, o: Outcome, e: Effect, p: Package)
    requires SetupOk(B) && GoesOn(B, plan, s, t, o, e) && CanMove(B, s, Move(Work(t, o), e))
    requires t < |s.sched.phases| && s.sched.phases[t].Building? && s.sched.phases[t].stack.Frame?
    requires p in B.W.own && p != s.sched.phases[t].stack.package
    ensures WorldOk(B.T, B.W)
    ensures PackageFits(B, plan, Moved(B, s, Move(Work(t, o), e)), p)
  {
    hide *;
    var f, s' := GoesOnHas(B, plan, s, t, o, e);
    GoingPackage(B, plan, s, p);
    FitsMeans(B, plan, s, p);
    BuiltMoves(B.cfg, t, s.sched.shared, f, o);
    ExecutedGrows(B.cfg, t, s.sched.shared, f, o, p);
    ClearedGrows(B.cfg, t, s.sched.shared, f, o, p);
    FitsFrom(B, plan, s', p);
  }

  // ---------------------------------------------------------------------
  // Call stacks

  lemma NextIsNotBeyond(cfg: Config, plan: Plan, sh: Shared, f: Stack, pc: Pc)
    requires f.Frame? && FrameMay(cfg, sh, f, Goto(pc)) && Onward(plan, f, Goto(pc))
    requires !f.locally && f.package in plan.skip && !Beyond(f.pc)
    ensures !Beyond(pc)
  {
  }

  lemma {:induction false} OwnStackFits(cfg: Config, plan: Plan, sh: Shared, f: Stack, o: Outcome)
    requires f.Frame? && FrameMay(cfg, sh, f, o) && Onward(plan, f, o) && StackFits(plan, f)
    ensures PhaseFits(plan, PhaseThen(f, o)) && !GivenUp(PhaseThen(f, o))
  {
    if o.Goto? && !f.locally && f.package in plan.skip {
      NextIsNotBeyond(cfg, plan, sh, f, o.pc);
    }
  }

  lemma PhasesElsewhere(cfg: Config, plan: Plan, s: State, a: Action)
    requires May(cfg, s, a) && !a.Work? && !s.failed && forall t: nat :: t < |s.phases| ==> PhaseFits(plan, s.phases[t])
    ensures !Then(cfg, s, a).failed
    ensures forall t: nat :: t < |Then(cfg, s, a).phases| ==> PhaseFits(plan, Then(cfg, s, a).phases[t])
  {
    if a.MainStep? {
      MainOnlyStarts(cfg, s);
      assert StackFits(plan, Bottom);
    } else if a.Fail? || a.End? {
      assert PhaseFits(plan, s.phases[a.t]);
    }
    hide MainThen, Listing, FrameMay;
  }

  /** While the others are quiet a package can be described. */
  lemma NobodyIsListing(B: Setup, s: State, t: nat)
    requires t < |s.phases| && s.phases[t].Building? && s.phases[t].stack.Frame? && s.phases[t].stack.pc.Prepare?
    requires OthersQuiet(s, t)
    ensures !DependListed(B, s, s.phases[t].stack.package)
  {
    hide BeingListed, ListedBy, OthersQuiet, HashedBy;
    forall q
      ensures !BeingListed(s, q)
    {
      if BeingListed(s, q) {
        var u := Lister(s, q);
        ListersAreNotQuiet(s, t, u, q);
      }
    }
  }

  lemma ListersAreNotQuiet(s: State, t: nat, u: nat, q: Package)
    requires t < |s.phases| && s.phases[t].Building? && s.phases[t].stack.Frame? && s.phases[t].stack.pc.Prepare?
    requires ListedBy(s, u, q)
    ensures !OthersQuiet(s, t)
  {
    assert IsListing(s.phases[u]);
  }

  /** A planned move of a worker. */
  lemma WorkGoesOn(B: Setup, plan: Plan, s: BuildState, t: nat, o: Outcome, e: Effect)
    requires SetupOk(B) && GoesOn(B, plan, s, t, o, e) && CanMove(B, s, Move(Work(t, o), e))
    ensures Going(B, plan, Moved(B, s, Move(Work(t, o), e)))
  {
    hide *;
    var f, s' := GoesOnHas(B, plan, s, t, o, e);
    GoingHas(B, plan, s);
    MoveKeeps(B, s, Move(Work(t, o), e));
    GoingPhase(B, plan, s, t);
    OwnStackFits(B.cfg, plan, s.sched.shared, f, o);
    OnwardIs(plan, f, o);
    ExecutedGrows(B.cfg, t, s.sched.shared, f, o, f.package);
    if f.pc.Prepare? {
      NobodyIsListing(B, s.sched, t);
    }
    NothingSpoiled(B, s, t, o, e);
    forall p | p in B.W.own
      ensures PackageFits(B, plan, s', p)
    {
      if p == f.package {
        OwnFits(B, plan, s, t, o, e);
      } else {
        OtherFits(B, plan, s, t, o, e, p);
      }
    }
    forall u: nat | u < |s'.sched.phases|
      ensures PhaseFits(plan, s'.sched.phases[u])
    {
      if u != t {
        GoingPhase(B, plan, s, u);
      }
    }
    FailedElsewhere(B.cfg, s.sched, t, o);
    GoingFrom(B, plan, s');
  }

  lemma FailedElsewhere(cfg: Config, s: State, t: nat, o: Outcome)
    requires May(cfg, s, Work(t, o))
    ensures Then(cfg, s, Work(t, o)).failed == s.failed
  {
  }

  lemma OnwardIs(plan: Plan, f: Stack, o: Outcome)
    requires f.Frame? && Onward(plan, f, o)
    ensures !Fails(o)
  {
  }

  lemma SharedElsewhere(cfg: Config, s: State, a: Action)
    requires May(cfg, s, a) && !a.Work?
    ensures var sh, sh' := s.shared, Then(cfg, s, a).shared;
            && sh'.built == sh.built && sh'.cleared == sh.cleared
            && sh'.executed == sh.executed && sh'.aborted == sh.aborted
  {
  }

  lemma OthersGoOn(B: Setup, plan: Plan, s: BuildState, a: Action)
    requires SetupOk(B) && Going(B, plan, s) && May(B.cfg, s.sched, a) && !a.Work?
    ensures CanMove(B, s, Move(a, Effect(0, None))) && Moved(B, s, Move(a, Effect(0, None))) == Elsewhere(B, s, a)
    ensures Going(B, plan, Elsewhere(B, s, a))
  {
    hide *;
    var m := Move(a, Effect(0, None));
    OthersCanMove(B, s, a);
    GoingHas(B, plan, s);
    MoveKeeps(B, s, m);
    MovedSched(B, s, m);
    SharedElsewhere(B.cfg, s.sched, a);
    var s' := Elsewhere(B, s, a);
    forall p | p in B.W.own
      ensures PackageFits(B, plan, s', p)
    {
      GoingPackage(B, plan, s, p);
      FitsMeans(B, plan, s, p);
      FitsFrom(B, plan, s', p);
    }
    forall u: nat | u < |s.sched.phases|
      ensures PhaseFits(plan, s.sched.phases[u])
    {
      GoingPhase(B, plan, s, u);
    }
    PhasesElsewhere(B.cfg, plan, s.sched, a);
    GoingFrom(B, plan, s');
  }

  lemma OthersCanMove(B: Setup, s: BuildState, a: Action)
    requires May(B.cfg, s.sched, a) && !a.Work?
    ensures CanMove(B, s, Move(a, Effect(0, None)))
  {
    hide May;
  }

  // ---------------------------------------------------------------------
  // Runs

  lemma PlannedWork(cfg: Config, plan: Plan, s: State, a: Action)
    requires May(cfg, s, a) && Planned(cfg, plan, s, a) && a.Work?
    ensures a.t < |s.phases| && s.phases[a.t].Building? && s.phases[a.t].stack.Frame?
    ensures Onward(plan, s.phases[a.t].stack, a.o)
    ensures s.phases[a.t].stack.pc.Prepare? ==> OthersQuiet(s, a.t)
  {
    hide Onward, FrameMay, OthersQuiet;
  }

  lemma GoesOnFrom(B: Setup, plan: Plan, s: BuildState, t: nat, o: Outcome)
    requires SetupOk(B) && Going(B, plan, s) && t < |s.sched.phases| && s.sched.phases[t].Building?
    requires s.sched.phases[t].stack.Frame? && s.sched.phases[t].stack.package in B.W.own
    requires Onward(plan, s.sched.phases[t].stack, o)
    requires s.sched.phases[t].stack.pc.Prepare? ==> OthersQuiet(s.sched, t)
    requires CanMove(B, s, Move(Work(t, o), PlannedEffect(B, plan, s.sched.phases[t].stack)))
    ensures GoesOn(B, plan, s, t, o, PlannedEffect(B, plan, s.sched.phases[t].stack))
  {
    hide SetupOk, Going, CanMove, Onward, PlannedEffect, OthersQuiet;
  }

  /** A planned step of the scheduler is a move of the build. */
  lemma Follows(B: Setup, plan: Plan, s: BuildState, a: Action) returns (m: Move)
    requires SetupOk(B) && Going(B, plan, s) && May(B.cfg, s.sched, a) && Planned(B.cfg, plan, s.sched, a)
    ensures m.action == a && CanMove(B, s, m) && Going(B, plan, Moved(B, s, m))
    ensures Moved(B, s, m).sched == Then(B.cfg, s.sched, a)
  {
    hide *;
    if a.Work? {
      PlannedWork(B.cfg, plan, s.sched, a);
      GoingHas(B, plan, s);
      DependsAreBuilt(B, s, a.t);
      PlannedMoves(B, plan, s, a.t, a.o);
      GoesOnFrom(B, plan, s, a.t, a.o);
      m := Move(a, PlannedEffect(B, plan, s.sched.phases[a.t].stack));
      assert a == Work(a.t, a.o);
      WorkGoesOn(B, plan, s, a.t, a.o, m.effect);
    } else {
      m := Move(a, Effect(0, None));
      OthersGoOn(B, plan, s, a);
    }
    MovedSched(B, s, m);
  }

  lemma StartsGoing(B: Setup, plan: Plan, disk: Disk)
    requires SetupOk(B) && WorldOk(B.T, B.W) && Fit(B, plan, disk) && Sorts(B.cfg, plan)
    ensures Going(B, plan, BuildState(Init(plan.order), disk, {}, {}))
  {
    var s := BuildState(Init(plan.order), disk, {}, {});
    hide *;
    FitHas(B, plan, disk);
    SortsHas(B.cfg, plan);
    StartIsFine(B, plan.order, disk);
    ResultHas(B, s);
    InitIsIdle(plan.order);
    InitCounts(plan.order);
    forall p | p in B.W.own
      ensures PackageFits(B, plan, s, p)
    {
      SkippableMeans(B, plan, disk, p);
      FitsFrom(B, plan, s, p);
    }
    GoingFrom(B, plan, s);
  }

  lemma FitHas(B: Setup, plan: Plan, disk: Disk)
    requires WorldOk(B.T, B.W) && Fit(B, plan, disk)
    ensures DiskOk(B, disk)
    ensures forall p :: p in B.W.own ==>
              p in disk
              && if p in plan.skip then Skippable(B, p, disk[p]) else disk[p].install.None? && disk[p].newOut.None?
  {
    hide WorldOk, Skippable, DiskOk;
  }

  lemma SkippableMeans(B: Setup, plan: Plan, disk: Disk, p: Package)
    requires WorldOk(B.T, B.W) && p in B.W.own && p in disk && Fit(B, plan, disk)
    ensures p in plan.skip ==>
              && Skippable(B, p, disk[p]) && !AlwaysBuilt(Def(B.T, B.W, p))
              && (Def(B.T, B.W, p).hashOutput ==> !Def(B.T, B.W, p).clean)
    ensures p !in plan.skip ==> disk[p].install.None? && disk[p].newOut.None?
  {
    hide WorldOk, DiskOk, InCache, AlwaysBuilt;
  }

  lemma SortsHas(cfg: Config, plan: Plan)
    requires Sorts(cfg, plan)
    ensures Listing(cfg, plan.order)
  {
    hide Listing;
  }

  lemma InitCounts(order: seq<Package>)
    ensures Init(order).shared.aborted == multiset{} && |Init(order).phases| == 0 && !Init(order).failed
  {
  }

  /** A run of the scheduler that keeps to the plan is a run of the build. */
  lemma {:induction false} RunFollows(B: Setup, plan: Plan, disk: Disk, actions: seq<Action>)
      returns (moves: seq<Move>, s: BuildState)
    requires SetupOk(B) && WorldOk(B.T, B.W) && Fit(B, plan, disk) && Sorts(B.cfg, plan)
    requires RunOf(B.cfg, plan, actions).Some?
    ensures AfterMoves(B, plan.order, disk, moves) == Some(s) && Going(B, plan, s)
    ensures Some(s.sched) == RunOf(B.cfg, plan, actions)
  {
    hide SetupOk, WorldOk, Fit, Sorts, Going, CanMove, Moved, May, Then, Planned, Listing;
    if actions == [] {
      SortsHas(B.cfg, plan);
      StartsGoing(B, plan, disk);
      moves, s := [], BuildState(Init(plan.order), disk, {}, {});
    } else {
      var last := |actions| - 1;
      var moves1, s1 := RunFollows(B, plan, disk, actions[..last]);
      var m := Follows(B, plan, s1, actions[last]);
      moves, s := moves1 + [m], Moved(B, s1, m);
      assert moves[..|moves| - 1] == moves1;
    }
  }

  // ---------------------------------------------------------------------
  // Every tree builds

  lemma SetupCfg(B: Setup)
    requires SetupOk(B)
    ensures Gated(B.cfg, B.W.rank) && B.cfg.suppressed == {} && !B.cfg.fetchOnly && B.cfg.depends.Keys == B.W.own.Keys
    ensures WorldOk(B.T, B.W)
  {
    SetupGraph(B);
  }

  lemma RanBy(cfg: Config, plan: Plan, s: State) returns (actions: seq<Action>)
    requires Ran(cfg, plan, s)
    ensures RunOf(cfg, plan, actions) == Some(s)
  {
    actions :| RunOf(cfg, plan, actions) == Some(s);
  }

  lemma ReachedBy(B: Setup, order: seq<Package>, disk: Disk, moves: seq<Move>, s: BuildState)
    requires AfterMoves(B, order, disk, moves) == Some(s)
    ensures ReachableFrom(B, disk, s)
  {
  }

  /** Whatever may be skipped, there is a build that skips exactly that, builds all
      the rest and, locally, what the rest asks for, and returns true. What nothing
      asks for is not built. */
  lemma TreeBuilds(B: Setup, plan: Plan, disk: Disk) returns (s: BuildState)
    requires SetupOk(B) && WorldOk(B.T, B.W) && Sorts(B.cfg, plan) && AllSpare(B.cfg, plan) && Fit(B, plan, disk)
    ensures ReachableFrom(B, disk, s) && s.sched.main == Returned(true)
    ensures forall p :: p in s.sched.shared.wasBuilt ==> p !in plan.keep
    ensures forall path: seq<Package> ::
              path != [] && LocalPath(B.cfg.depends, path) && path[0] in B.W.own && path[0] !in plan.skip ==>
              path[|path| - 1] in s.sched.shared.wasBuilt
  {
    hide *;
    SetupCfg(B);
    var sched := BuildsAndReturns(B.cfg, B.W.rank, plan);
    var actions := RanBy(B.cfg, plan, sched);
    var moves;
    moves, s := RunFollows(B, plan, disk, actions);
    ReachedBy(B, plan.order, disk, moves, s);
    RanInv(B.cfg, B.W.rank, plan, sched);
    forall path: seq<Package> | path != [] && LocalPath(B.cfg.depends, path)
                                && path[0] in B.W.own && path[0] !in plan.skip
      ensures path[|path| - 1] in s.sched.shared.wasBuilt
    {
      BuiltNotSkipped(B, plan, s, path[0]);
      LocalBuildClosure(B.cfg, B.W.rank, sched, path);
    }
  }

  lemma BuiltNotSkipped(B: Setup, plan: Plan, s: BuildState, p: Package)
    requires SetupOk(B) && Going(B, plan, s) && Reachable(B.cfg, s.sched) && s.sched.main == Returned(true)
    requires s.sched.shared.locks == map[] && p in B.W.own && p !in plan.skip
    ensures p in s.sched.shared.wasBuilt
  {
    hide *;
    SetupCfg(B);
    GoingHas(B, plan, s);
    ReturnedTrue(B, s.sched);
    ClosedFlagsOf(B.cfg, s.sched);
    assert p in B.cfg.depends.Keys;
    SchedulerSteps.BaseBuiltMeansAllBuilt(B.cfg, B.W.rank, s.sched.shared, p);
    GoingPackage(B, plan, s, p);
    FitsMeans(B, plan, s, p);
    UnlockedIsSettled(B.cfg, s.sched, p);
  }

  lemma UnlockedIsSettled(cfg: Config, s: State, p: Package)
    requires Inv(cfg, s) && p !in s.shared.locks && s.shared.cleared[p] > 0
    ensures p in s.shared.wasBuilt
  {
  }

  // ---------------------------------------------------------------------
  // Failures mislead

  /** A .build.info that is there stays, except where the work directory is
      cleaned. */
  lemma OwnInfoStays(B: Setup, s: BuildState, t: nat, o: Outcome, e: Effect)
    requires SetupOk(B) && BuildInv(B, s) && CanMove(B, s, Move(Work(t, o), e))
    requires t < |s.sched.phases| && s.sched.phases[t].Building? && s.sched.phases[t].stack.Frame?
    requires var p := s.sched.phases[t].stack.package;
             p in B.W.own && !Def(B.T, B.W, p).clean && p in s.disk && s.disk[p].buildInfo.Some?
    ensures var p, s' := s.sched.phases[t].stack.package, Moved(B, s, Move(Work(t, o), e));
            p in s'.disk && s'.disk[p].buildInfo.Some?
  {
    hide *;
    var f, s' := MoveFacts(B, s, t, o, e);
    SetupGraph(B);
    TopFilesAre(B, s, t);
    TopFacts(B, s, f);
    MovesOf(B.cfg, t, s.sched.shared, f, o);
    PcKinds(f.pc);
    DecidePc(f.pc);
    if f.pc == Decide {
      DecisionIs(B, s.disk, f, o, e);
      DecidedInfo(B, s.disk[f.package], f.package, f.locally, e.fetched, f.package !in s.spoiled);
    } else if f.pc == Prepare {
      PreparedInfo(B, s.disk, f, o, e);
    } else if f.pc == Record || f.pc == Truncate || f.pc == List {
      RecordMoves(B, s, f, o, e);
      RecordedInfo(s.disk[f.package], Def(B.T, B.W, f.package).hashOutput, B.T);
    } else if f.pc == PackStaging || f.pc == PackInstall {
      PackingMoves(B, s, f, o, e);
    } else {
      QuietFiles(B, s.disk, f, o, e);
      SameMeansSame(s.disk[f.package], s'.disk[f.package]);
    }
  }

  lemma DecidedInfo(B: Setup, fs: Files, p: Package, locally: bool, n: nat, trusted: bool)
    requires WorldOk(B.T, B.W) && p in B.W.own && FilesOk(B, fs, p, locally, Decide, trusted) && fs.buildInfo.Some?
    ensures Skipped(B, fs, p, n).buildInfo.Some? && Tried(B, fs, p, n).buildInfo.Some?
  {
    hide WorldOk, Text, CleanOut, Consistent;
  }

  lemma PreparedInfo(B: Setup, disk: Disk, f: Stack, o: Outcome, e: Effect)
    requires f.Frame? && OnDisk(B, disk, f.package) && DiskMay(B, disk, f, o, e) && f.package in disk
    requires f.pc == Prepare && !Def(B.T, B.W, f.package).clean && disk[f.package].buildInfo.Some?
    ensures FilesThen(B, disk, f, o, e).buildInfo.Some?
  {
    assert f.package in B.W.extraction.Keys;
    hide WorldOk, HashMissing, Assembled;
  }

  lemma RecordedInfo(fs: Files, hashOutput: bool, T: Tools)
    requires fs.buildInfo.Some?
    ensures fs.buildInfoNew.Some? ==> Renamed(fs).buildInfo.Some?
    ensures Emptied(fs, hashOutput).buildInfo.Some? && Listed(T, fs, hashOutput).buildInfo.Some?
  {
  }

  lemma {:induction false} InfoStaysAlong(B: Setup, order: seq<Package>, disk: Disk, moves: seq<Move>, s: BuildState,
                                          p: Package)
    requires SetupOk(B) && DiskOk(B, disk) && AfterMoves(B, order, disk, moves) == Some(s)
    requires p in B.W.own && !Def(B.T, B.W, p).clean && p in disk && disk[p].buildInfo.Some?
    ensures p in s.disk && s.disk[p].buildInfo.Some?
  {
    hide SetupOk, DiskOk, CanMove, Moved, Listing;
    if moves != [] {
      var last := |moves| - 1;
      var r := AfterMoves(B, order, disk, moves[..last]);
      InfoStaysAlong(B, order, disk, moves[..last], r.value, p);
      ResultAlways(B, order, disk, moves[..last]);
      InfoStaysHere(B, r.value, moves[last], p);
    }
  }

  lemma InfoStaysHere(B: Setup, s: BuildState, m: Move, p: Package)
    requires SetupOk(B) && ResultInv(B, s) && CanMove(B, s, m)
    requires p in B.W.own && !Def(B.T, B.W, p).clean && p in s.disk && s.disk[p].buildInfo.Some?
    ensures p in Moved(B, s, m).disk && Moved(B, s, m).disk[p].buildInfo.Some?
  {
    hide *;
    ResultHas(B, s);
    if m.action.Work? {
      assert m == Move(Work(m.action.t, m.action.o), m.effect);
      var f, s' := MoveFacts(B, s, m.action.t, m.action.o, m.effect);
      if p == f.package {
        OwnInfoStays(B, s, m.action.t, m.action.o, m.effect);
      }
    } else {
      MovedSched(B, s, m);
    }
  }

  /** Of two archives one is not what the .build.info beside it describes. */
  lemma OneIsWrong(T: Tools, p: Package, fs: Files) returns (left: string)
    requires ToolsOk(T) && fs.buildInfo.Some?
    ensures !Consistent(T, p, fs.(staging := Some(left)))
  {
    hide WorldOk, CleanOut, Text, CutoffsCovered, ToolsOk;
    var one, other := fs.(staging := Some("")), fs.(staging := Some("x"));
    left := if Consistent(T, p, one) then "x" else "";
    if Consistent(T, p, one) && Consistent(T, p, other) {
      var W1 :| Describes(T, W1, p, one);
      var W2 :| Describes(T, W2, p, other);
      SameTextSameOut(T, W1, W2, p);
      assert false;
    }
  }

  /** Of two listings one is wrong. */
  lemma OneListingIsWrong(B: Setup, p: Package, fs: Files) returns (left: string)
    requires ToolsOk(B.T) && WorldOk(B.T, B.W) && CutoffsCovered(B.T, B.W) && p in B.W.own
    requires Def(B.T, B.W, p).hashOutput && fs.buildInfo == Some(Text(B.T, B.W, p))
    ensures !Consistent(B.T, p, fs.(outputInfo := Some(left)))
  {
    hide WorldOk, CleanOut, Text, CutoffsCovered, ToolsOk;
    left := if B.T.listing(CleanOut(B.T, B.W, p)) == "" then "x" else "";
    var fs' := fs.(outputInfo := Some(left));
    if Consistent(B.T, p, fs') {
      var W1 :| Describes(B.T, W1, p, fs');
      SameTextSameOut(B.T, W1, B.W, p);
      TextDetermines(B.T, W1, B.W, p);
      assert false;
    }
  }

  /** Only p's .build.info is left, of a build of W0. */
  ghost function Leftover(B: Setup, W0: World, p: Package): Disk
    requires WorldOk(B.T, W0) && p in W0.own
  {
    map q | q in B.W.own :: if q == p then NO_FILES.(buildInfo := Some(Text(B.T, W0, p))) else NO_FILES
  }

  lemma LeftoverIsTrue(B: Setup, W0: World, p: Package, q: Package)
    requires WorldOk(B.T, W0) && CutoffsCovered(B.T, W0) && p in W0.own && q in B.W.own
    ensures q in Leftover(B, W0, p) && Pristine(B.T, q, Leftover(B, W0, p)[q])
    ensures Leftover(B, W0, p)[q].install.None? && Leftover(B, W0, p)[q].newOut.None?
    ensures q == p ==> Leftover(B, W0, p)[q] == NO_FILES.(buildInfo := Some(Text(B.T, W0, p)))
  {
    hide WorldOk, CleanOut, Text, CutoffsCovered;
    if q == p {
      assert Describes(B.T, W0, p, Leftover(B, W0, p)[p]);
    }
  }

  lemma LeftoverKeys(B: Setup, W0: World, p: Package)
    requires WorldOk(B.T, W0) && p in W0.own
    ensures Leftover(B, W0, p).Keys == B.W.own.Keys
  {
    hide WorldOk, Text;
  }

  lemma FitFrom(B: Setup, plan: Plan, disk: Disk)
    requires WorldOk(B.T, B.W) && plan.skip == {} && disk.Keys == B.W.own.Keys
    requires forall q :: q in B.W.own ==>
               q in disk && Pristine(B.T, q, disk[q]) && disk[q].install.None? && disk[q].newOut.None?
    ensures Fit(B, plan, disk) && DiskOk(B, disk)
  {
    hide WorldOk, Skippable, Pristine;
  }

  lemma LeftoverFits(B: Setup, W0: World, p: Package, plan: Plan)
    requires WorldOk(B.T, B.W) && WorldOk(B.T, W0) && CutoffsCovered(B.T, W0) && p in W0.own && plan.skip == {}
    ensures Fit(B, plan, Leftover(B, W0, p)) && DiskOk(B, Leftover(B, W0, p))
  {
    hide *;
    var disk := Leftover(B, W0, p);
    LeftoverKeys(B, W0, p);
    forall q | q in B.W.own
      ensures q in disk && Pristine(B.T, q, disk[q]) && disk[q].install.None? && disk[q].newOut.None?
    {
      LeftoverIsTrue(B, W0, p, q);
    }
    FitFrom(B, plan, disk);
  }

  /** A plan that skips nothing. */
  lemma PlainPlan(B: Setup) returns (plan: Plan)
    ensures Sorts(B.cfg, plan) && plan.skip == {} && plan.keep == {}
  {
    hide *;
    var order := SchedulerWorkers.SomeOrder(B.cfg.depends.Keys);
    OrderIsListing(B.cfg, order);
    plan := Plan(order, (s, t) => order, {}, {});
    PlanSorts(B.cfg, plan, order);
  }

  lemma OrderIsListing(cfg: Config, order: seq<Package>)
    requires Digraph.NoDuplicates(order) && forall p :: p in order <==> p in cfg.depends.Keys
    ensures Listing(cfg, order)
  {
  }

  lemma PlanSorts(cfg: Config, plan: Plan, order: seq<Package>)
    requires Listing(cfg, order) && plan.order == order && forall s, t :: plan.resort(s, t) == order
    requires plan.keep <= plan.skip && forall p :: p in plan.skip && p !in plan.keep ==> Spares(cfg, plan, p)
    ensures Sorts(cfg, plan)
  {
    hide Listing, Spares;
  }

  lemma RiskyPcs()
    ensures Risky(Prepare) && Risky(PackStaging) && Risky(List)
  {
  }

  /** A run in which p's worker has come to a position. */
  lemma ReachesPosition(B: Setup, W0: World, p: Package, pc: Pc)
      returns (plan: Plan, moves: seq<Move>, s: BuildState, w: nat)
    requires SetupOk(B) && WorldOk(B.T, B.W) && p in B.W.own && Risky(pc)
    requires WorldOk(B.T, W0) && CutoffsCovered(B.T, W0) && p in W0.own
    ensures AfterMoves(B, plan.order, Leftover(B, W0, p), moves) == Some(s) && Going(B, plan, s)
    ensures w < |s.sched.phases| && s.sched.phases[w] == Own(p, pc) && DiskOk(B, Leftover(B, W0, p))
    ensures OthersQuiet(s.sched, w)
  {
    hide *;
    SetupCfg(B);
    plan := PlainPlan(B);
    assert p in B.cfg.depends.Keys;
    var sched;
    sched, w := StandsAt(B.cfg, B.W.rank, plan, p, pc);
    LeftoverFits(B, W0, p, plan);
    var actions := RanBy(B.cfg, plan, sched);
    moves, s := RunFollows(B, plan, Leftover(B, W0, p), actions);
  }

  lemma AfterOneMore(B: Setup, order: seq<Package>, disk: Disk, moves: seq<Move>, s: BuildState, m: Move)
    requires AfterMoves(B, order, disk, moves) == Some(s) && CanMove(B, s, m)
    ensures ReachableFrom(B, disk, Moved(B, s, m))
  {
    hide CanMove, Moved;
    assert (moves + [m])[..|moves + [m]| - 1] == moves;
    assert AfterMoves(B, order, disk, moves + [m]) == Some(Moved(B, s, m));
  }

  lemma OwnIs(p: Package, pc: Pc)
    ensures Own(p, pc) == Building(Frame(p, false, pc, Bottom))
  {
  }

  lemma MayThrow(cfg: Config, sh: Shared, f: Stack)
    requires f.Frame? && (f.pc == PackStaging || f.pc == List)
    ensures FrameMay(cfg, sh, f, Throw) && Fails(Throw)
  {
  }

  /** f's command fails and leaves something in the file it was writing. */
  lemma FailsHere(B: Setup, s: BuildState, w: nat, p: Package, pc: Pc, left: string) returns (s': BuildState, m: Move)
    requires SetupOk(B) && BuildInv(B, s) && w < |s.sched.phases| && s.sched.phases[w] == Own(p, pc)
    requires (pc == PackStaging || (pc == List && p in B.W.own && Def(B.T, B.W, p).hashOutput)) && p in s.disk
    ensures CanMove(B, s, m) && s' == Moved(B, s, m) && p in s'.disk && p in s'.spoiled
    ensures s'.disk[p] == if pc == PackStaging then s.disk[p].(staging := Some(left))
                          else s.disk[p].(outputInfo := Some(left))
  {
    hide *;
    OwnIs(p, pc);
    TopFilesAre(B, s, w);
    var f, e := Frame(p, false, pc, Bottom), Effect(0, Some(left));
    MayThrow(B.cfg, s.sched.shared, f);
    NotADecision(f.pc);
    NothingIsMissing(B, s, f, Throw, e);
    CanWork(B, s, w, Throw, e);
    m := Move(Work(w, Throw), e);
    var f1;
    f1, s' := MoveFacts(B, s, w, Throw, e);
    if pc == PackStaging {
      PackingMoves(B, s, f, Throw, e);
    } else {
      RecordMoves(B, s, f, Throw, e);
    }
    SpiltIs(left, s.disk[p]);
  }

  lemma NotADecision(pc: Pc)
    ensures pc == PackStaging || pc == List ==> !pc.Prepare? && !pc.Decide?
  {
  }

  lemma SpiltIs(left: string, fs: Files)
    ensures Spilt(fs.staging, Some(left)) == Some(left) && Spilt(fs.outputInfo, Some(left)) == Some(left)
  {
  }

  /** In every tree a failure can leave a .build.info that misleads: for a package
      whose work directory is not cleaned, when packing its staging archive fails,
      and for one that hashes its output, when the listing fails. */
  lemma FailuresMislead(B: Setup, p: Package) returns (disk: Disk, s: BuildState)
    requires SetupOk(B) && WorldOk(B.T, B.W) && p in B.W.own
    requires !Def(B.T, B.W, p).clean || Def(B.T, B.W, p).hashOutput
    ensures DiskOk(B, disk) && ReachableFrom(B, disk, s) && p in s.disk && !Consistent(B.T, p, s.disk[p])
    ensures p in s.spoiled
  {
    hide *;
    RiskyPcs();
    ToolsOf(B);
    disk := Leftover(B, B.W, p);
    var pc := if Def(B.T, B.W, p).clean then List else PackStaging;
    var plan, moves, s0, w := ReachesPosition(B, B.W, p, pc);
    GoingHas(B, plan, s0);
    assert p in s0.disk.Keys;
    var left;
    if pc == PackStaging {
      LeftoverHas(B, p);
      InfoStaysAlong(B, plan.order, disk, moves, s0, p);
      left := OneIsWrong(B.T, p, s0.disk[p]);
    } else {
      ListingInfo(B, s0, w, p);
      left := OneListingIsWrong(B, p, s0.disk[p]);
    }
    var m;
    s, m := FailsHere(B, s0, w, p, pc, left);
    AfterOneMore(B, plan.order, disk, moves, s0, m);
  }

  lemma LeftoverHas(B: Setup, p: Package)
    requires WorldOk(B.T, B.W) && p in B.W.own
    ensures p in Leftover(B, B.W, p) && Leftover(B, B.W, p)[p].buildInfo.Some?
  {
    hide WorldOk, Text;
  }

  lemma ListingInfo(B: Setup, s: BuildState, w: nat, p: Package)
    requires SetupOk(B) && BuildInv(B, s) && w < |s.sched.phases| && s.sched.phases[w] == Own(p, List)
    requires p !in s.spoiled && p in s.disk
    ensures WorldOk(B.T, B.W) && p in B.W.own && s.disk[p].buildInfo == Some(Text(B.T, B.W, p))
  {
    hide *;
    OwnIs(p, List);
    TopFilesAre(B, s, w);
    TopFacts(B, s, Frame(p, false, List, Bottom));
    ListPc();
    InfoIsThere(B, s.disk[p], p, false, List);
  }

  lemma ListPc()
    ensures InfoInPlace(List) && List != Lock
  {
  }

  // ---------------------------------------------------------------------
  // A partial restore misleads

  /** Until its own build begins a package's files are as they were found. */
  lemma {:induction false} UntouchedAlong(B: Setup, order: seq<Package>, disk: Disk, moves: seq<Move>, s: BuildState,
                                          p: Package)
    requires SetupOk(B) && DiskOk(B, disk) && AfterMoves(B, order, disk, moves) == Some(s) && p in B.W.own
    requires p !in s.sched.shared.built && !Begun(s.sched, p) && p in s.disk
    ensures p in disk && s.disk[p] == disk[p]
  {
    hide SetupOk, DiskOk, CanMove, Moved, Listing, Begun;
    if moves != [] {
      var last := |moves| - 1;
      var r := AfterMoves(B, order, disk, moves[..last]);
      ResultAlways(B, order, disk, moves[..last]);
      UntouchedHere(B, r.value, moves[last], p);
      UntouchedAlong(B, order, disk, moves[..last], r.value, p);
    }
  }

  lemma UntouchedHere(B: Setup, s: BuildState, m: Move, p: Package)
    requires SetupOk(B) && ResultInv(B, s) && CanMove(B, s, m)
    requires var s' := Moved(B, s, m); p in s'.disk && p !in s'.sched.shared.built && !Begun(s'.sched, p)
    ensures p in s.disk && p !in s.sched.shared.built && !Begun(s.sched, p) && Moved(B, s, m).disk[p] == s.disk[p]
  {
    hide *;
    ResultHas(B, s);
    MovedSched(B, s, m);
    if m.action.Work? {
      assert m == Move(Work(m.action.t, m.action.o), m.effect);
      UntouchedStays(B, s, m.action.t, m.action.o, m.effect, p);
    } else {
      StoreHas(B, s);
      OthersBuildNothing(B.cfg, s.sched, m.action);
      if Begun(s.sched, p) {
        BegunStays(B.cfg, s.sched, m.action, p);
      }
    }
  }

  /** The cache has p's staging archive, and the file that says it may be used. */
  ghost predicate PartlyInCache(B: Setup, p: Package)
    requires WorldOk(B.T, B.W) && p in B.W.own
  {
    var key := (p, B.T.digest(Text(B.T, B.W, p)));
    B.cache.Some? && key in B.cache.value && Available(B.cache.value[key], 2)
  }

  lemma PartialDownloads(B: Setup, p: Package, fs: Files)
    requires SetupOk(B) && WorldOk(B.T, B.W) && p in B.W.own && PartlyInCache(B, p) && ToolsOk(B.T)
    requires FilesOk(B, fs, p, false, Decide, true)
    ensures Downloads(B, fs, p, 2) && fs.hash != "" && B.cache.Some?
    ensures Fetched(fs, EntryFor(B, fs, p), 2) == fs.(staging := Some(CleanOut(B.T, B.W, p).staging))
  {
    HashIsRight(B, p, fs);
    HonestEntry(B, p, fs);
    hide WorldOk, Text, CleanOut, Consistent, SetupOk, Def, FilesOk;
  }

  lemma PartialAllowed(B: Setup, disk: Disk, f: Stack)
    requires SetupOk(B) && WorldOk(B.T, B.W) && f.Frame? && f.pc == Decide && !f.locally && OnDisk(B, disk, f.package)
    requires f.package in disk && f.package in B.W.own && disk[f.package].install.None? && PartlyInCache(B, f.package)
    requires FilesOk(B, disk[f.package], f.package, false, Decide, true) && !AlwaysBuilt(Def(B.T, B.W, f.package))
    ensures DiskMay(B, disk, f, Goto(LocalDeps(0)), Effect(2, None))
    ensures FilesThen(B, disk, f, Goto(LocalDeps(0)), Effect(2, None))
            == disk[f.package].(staging := Some(CleanOut(B.T, B.W, f.package).staging))
  {
    hide *;
    ToolsOf(B);
    PartialDownloads(B, f.package, disk[f.package]);
    PartialRebuilds(B, f.package, disk[f.package]);
    RebuildMoves(B, disk, f, 2);
  }

  lemma PartialRebuilds(B: Setup, p: Package, fs: Files)
    requires p in B.W.own && !AlwaysBuilt(Def(B.T, B.W, p)) && fs.install.None? && B.cache.Some? && fs.hash != ""
    requires Downloads(B, fs, p, 2)
    ensures Rebuilds(B, fs, p, 2) && Tried(B, fs, p, 2) == Fetched(fs, EntryFor(B, fs, p), 2)
  {
    hide Downloads, AlwaysBuilt, Fetched, EntryFor;
  }

  lemma RebuildMoves(B: Setup, disk: Disk, f: Stack, n: nat)
    requires f.Frame? && f.pc == Decide && !f.locally && OnDisk(B, disk, f.package)
    requires f.package in disk && f.package in B.W.own && Rebuilds(B, disk[f.package], f.package, n)
    ensures DiskMay(B, disk, f, Goto(LocalDeps(0)), Effect(n, None))
    ensures FilesThen(B, disk, f, Goto(LocalDeps(0)), Effect(n, None)) == Tried(B, disk[f.package], f.package, n)
  {
    hide WorldOk, Known, Rebuilds, Tried;
  }

  lemma MayRebuild(cfg: Config, sh: Shared, f: Stack)
    requires f.Frame? && f.pc == Decide
    ensures FrameMay(cfg, sh, f, Goto(LocalDeps(0)))
  {
  }

  lemma MayDescribe(cfg: Config, sh: Shared, f: Stack)
    requires f.Frame? && f.pc == Prepare
    ensures FrameMay(cfg, sh, f, Goto(Decide))
  {
  }

  lemma PreparedKeeps(fs: Files, T: Tools, text: string)
    ensures Prepared(T, Cleaned(fs, false), text).buildInfo == fs.buildInfo
    ensures Prepared(T, Cleaned(fs, false), text).install == fs.install
  {
  }

  lemma OldAndNew(T: Tools, W0: World, W: World, p: Package, fs: Files)
    requires ToolsOk(T) && WorldOk(T, W0) && WorldOk(T, W) && CutoffsCovered(T, W0) && CutoffsCovered(T, W)
    requires p in W0.own && p in W.own && CleanOut(T, W0, p).staging != CleanOut(T, W, p).staging
    requires fs.buildInfo == Some(Text(T, W0, p)) && fs.staging == Some(CleanOut(T, W, p).staging)
    ensures !Consistent(T, p, fs)
  {
    hide WorldOk, CleanOut, Text, CutoffsCovered, ToolsOk;
    if Consistent(T, p, fs) {
      var W1 :| Describes(T, W1, p, fs);
      SameTextSameOut(T, W1, W0, p);
      assert false;
    }
  }

  /** p is described. */
  lemma DescribesNow(B: Setup, plan: Plan, s: BuildState, w: nat, p: Package) returns (m: Move, s': BuildState)
    requires SetupOk(B) && Going(B, plan, s) && w < |s.sched.phases| && s.sched.phases[w] == Own(p, Prepare)
    requires p in s.disk && p in B.W.own && !Def(B.T, B.W, p).clean && OthersQuiet(s.sched, w)
    ensures CanMove(B, s, m) && s' == Moved(B, s, m) && BuildInv(B, s') && s'.spoiled == {} && p in s'.disk
    ensures s'.disk[p].buildInfo == s.disk[p].buildInfo && s'.disk[p].install == s.disk[p].install
    ensures w < |s'.sched.phases| && s'.sched.phases[w] == Own(p, Decide)
  {
    hide *;
    OwnIs(p, Prepare);
    OwnIs(p, Decide);
    GoingHas(B, plan, s);
    var f := Frame(p, false, Prepare, Bottom);
    KnownDepends(B, s.disk, p);
    DescriptionAllowed(B, plan, s, w, Effect(0, None));
    MayDescribe(B.cfg, s.sched.shared, f);
    CanWork(B, s, w, Goto(Decide), Effect(0, None));
    m := Move(Work(w, Goto(Decide)), Effect(0, None));
    var f1;
    f1, s' := MoveFacts(B, s, w, Goto(Decide), Effect(0, None));
    MoveKeeps(B, s, m);
    PrepareMoves(B, s, f, Effect(0, None));
    PreparedKeeps(s.disk[p], B.T, Assembled(B.T, B.W, s.disk, p));
    NobodyIsListing(B, s.sched, w);
    GoesToDecide(f);
    NothingSpoiled(B, s, w, Goto(Decide), Effect(0, None));
  }

  lemma GoesToDecide(f: Stack)
    requires f.Frame?
    ensures PhaseThen(f, Goto(Decide)) == Building(f.(pc := Decide)) && !GivenUp(PhaseThen(f, Goto(Decide)))
  {
  }

  /** A restore that gets the staging archive and not the install archive leaves it
      beside the .build.info of an earlier tree. */
  lemma PartialRestoreMisleads(B: Setup, W0: World, p: Package) returns (disk: Disk, s: BuildState)
    requires SetupOk(B) && WorldOk(B.T, B.W) && p in B.W.own
    requires WorldOk(B.T, W0) && CutoffsCovered(B.T, W0) && p in W0.own
    requires CleanOut(B.T, W0, p).staging != CleanOut(B.T, B.W, p).staging && PartlyInCache(B, p)
    requires !Def(B.T, B.W, p).clean && !AlwaysBuilt(Def(B.T, B.W, p))
    ensures DiskOk(B, disk) && ReachableFrom(B, disk, s) && p in s.disk && !Consistent(B.T, p, s.disk[p])
    ensures p in s.exposed && p !in s.spoiled
  {
    hide *;
    RiskyPcs();
    ToolsOf(B);
    disk := Leftover(B, W0, p);
    var plan, moves, s0, w := ReachesPosition(B, W0, p, Prepare);
    GoingHas(B, plan, s0);
    assert p in s0.disk.Keys;
    OwnIs(p, Prepare);
    NotBegunYet(B.cfg, s0.sched, w);
    UntouchedAlong(B, plan.order, disk, moves, s0, p);
    LeftoverIsTrue(B, W0, p, p);
    NoFiles();
    var m, s1 := DescribesNow(B, plan, s0, w, p);
    AfterOneMore(B, plan.order, disk, moves, s0, m);
    var order1, moves1 := RunTo(B, disk, s1);
    OwnIs(p, Decide);
    var f, e := Frame(p, false, Decide, Bottom), Effect(2, None);
    TopFilesAre(B, s1, w);
    TopFacts(B, s1, f);
    DecideIsActive(f.pc);
    PartialAllowed(B, s1.disk, f);
    MayRebuild(B.cfg, s1.sched.shared, f);
    CanWork(B, s1, w, Goto(LocalDeps(0)), e);
    var m2 := Move(Work(w, Goto(LocalDeps(0))), e);
    var f2;
    f2, s := MoveFacts(B, s1, w, Goto(LocalDeps(0)), e);
    AfterOneMore(B, order1, disk, moves1, s1, m2);
    OldAndNew(B.T, W0, B.W, p, s.disk[p]);
    StaysTrusted(B, s1, f, Goto(LocalDeps(0)), e);
    if p !in s.exposed {
      StoppedDiskIsTruthful(B, disk, s, p);
    }
  }

  lemma NoFiles()
    ensures NO_FILES.install.None?
  {
  }
}
