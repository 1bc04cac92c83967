/** What a build leaves on disk, and what a later build may rely on. */
module IncrementalResults {
  import opened Packages
  import opened Scheduler
  import opened SchedulerInvariant
  import opened SchedulerSteps
  import opened SchedulerTheorems
  import opened Worlds
  import opened Incremental
  import opened IncrementalInvariant
  import opened IncrementalRaces

  // ---------------------------------------------------------------------
  // Every move keeps the archives right

  predicate JustStarted(cfg: Config, phase: Phase) {
    phase.Building? && phase.stack.Frame? && phase.stack.pc == Lock && phase.stack.caller.Bottom?
    && phase.stack.package in cfg.depends
  }

  /** Starting a worker, or a worker's last steps, build nothing. */
  lemma OthersBuildNothing(cfg: Config, s: State, a: Action)
    requires May(cfg, s, a) && !a.Work?
    ensures var sh' := Then(cfg, s, a).shared;
            sh'.built == s.shared.built && sh'.locks == s.shared.locks && sh'.cleared == s.shared.cleared
  {
  }

  lemma MainOnlyStarts(cfg: Config, s: State)
    requires MainMay(s.main)
    ensures var s' := MainThen(cfg, s);
            s'.phases == s.phases
            || (s.main.Picked? && s'.phases == s.phases + [Building(Frame(s.main.package, false, Lock, Bottom))])
  {
  }

  lemma PickedIsKnown(cfg: Config, s: State)
    requires MainOk(cfg, s) && s.main.Picked?
    ensures s.main.package in cfg.depends
  {
  }

  lemma OthersStackNothing(cfg: Config, s: State, a: Action, u: nat)
    requires Inv(cfg, s) && May(cfg, s, a) && !a.Work?
    requires u < |Then(cfg, s, a).phases| && Then(cfg, s, a).phases[u].Building?
    ensures if u < |s.phases| then Then(cfg, s, a).phases[u] == s.phases[u]
            else JustStarted(cfg, Then(cfg, s, a).phases[u])
  {
    if a.MainStep? {
      MainOnlyStarts(cfg, s);
      if s.main.Picked? {
        PickedIsKnown(cfg, s);
      }
    }
    hide Core, MainOk, MainThen;
  }

  lemma OthersLeaveBuilding(cfg: Config, s: State, a: Action, t: nat)
    requires May(cfg, s, a) && !a.Work? && t < |s.phases| && s.phases[t].Building?
    ensures t < |Then(cfg, s, a).phases| && Then(cfg, s, a).phases[t] == s.phases[t]
  {
    if a.MainStep? {
      MainOnlyStarts(cfg, s);
    }
    hide MainThen, Listing;
  }

  lemma OthersLeaveListing(cfg: Config, s: State, a: Action, p: Package)
    requires May(cfg, s, a) && !a.Work? && BeingListed(s, p)
    ensures BeingListed(Then(cfg, s, a), p)
  {
    hide May, Then;
    var u := Lister(s, p);
    OthersLeaveBuilding(cfg, s, a, u);
    assert ListedBy(Then(cfg, s, a), u, p);
  }

  lemma StartedFiles(B: Setup, disk: Disk, spoiled: set<Package>, phase: Phase)
    requires WorldOk(B.T, B.W) && disk.Keys == B.W.own.Keys == B.cfg.depends.Keys && JustStarted(B.cfg, phase)
    ensures StackFilesOk(B, disk, spoiled, phase.stack)
  {
    assert phase.stack.package in B.cfg.depends.Keys;
    hide WorldOk;
  }

  /** s after a scheduler action that does not touch files. */
  ghost function Elsewhere(B: Setup, s: BuildState, a: Action): (s': BuildState)
    requires May(B.cfg, s.sched, a)
    ensures s'.disk == s.disk && s'.spoiled == s.spoiled && s'.exposed == s.exposed
    ensures s'.sched == Then(B.cfg, s.sched, a)
  {
    s.(sched := Then(B.cfg, s.sched, a))
  }

  lemma OthersKeepBuilt(B: Setup, s: BuildState, a: Action, p: Package)
    requires SetupOk(B) && BuildInv(B, s) && May(B.cfg, s.sched, a) && !a.Work? && p in s.sched.shared.built
    ensures WorldOk(B.T, B.W) && s.disk.Keys == B.W.own.Keys && BuiltOk(B, Elsewhere(B, s, a), p)
  {
    hide *;
    OthersBuildNothing(B.cfg, s.sched, a);
    BuiltIsRight(B, s, p);
    if BeingListed(s.sched, p) {
      OthersLeaveListing(B.cfg, s.sched, a, p);
    }
    if AlwaysBuilt(Def(B.T, B.W, p)) {
      BuiltWasCleared(B, s, p);
    }
    BuiltFrom(B, Elsewhere(B, s, a), p);
  }

  lemma OtherMoveKeeps(B: Setup, s: BuildState, a: Action)
    requires SetupOk(B) && BuildInv(B, s) && May(B.cfg, s.sched, a) && !a.Work?
    ensures WorldOk(B.T, B.W) && StoreOk(B, Elsewhere(B, s, a))
  {
    hide *;
    SetupGraph(B);
    StoreHas(B, s);
    OthersBuildNothing(B.cfg, s.sched, a);
    var s' := Elsewhere(B, s, a);
    forall u: nat | u < |s'.sched.phases| && s'.sched.phases[u].Building?
      ensures StackFilesOk(B, s'.disk, s'.spoiled, s'.sched.phases[u].stack)
    {
      OthersStackNothing(B.cfg, s.sched, a, u);
      if u < |s.sched.phases| {
        OwnStackWas(B, s, u);
      } else {
        StartedFiles(B, s'.disk, s'.spoiled, s'.sched.phases[u]);
      }
    }
    forall p | p in s'.sched.shared.built
      ensures BuiltOk(B, s', p)
    {
      OthersKeepBuilt(B, s, a, p);
    }
    forall p | p in s'.disk && p !in s'.sched.shared.built && !Begun(s'.sched, p)
      ensures Pristine(B.T, p, s'.disk[p])
    {
      if Begun(s.sched, p) {
        BegunStays(B.cfg, s.sched, a, p);
      }
      UntouchedWas(B, s, p);
    }
    StoreFromParts(B, s');
  }

  lemma MovedSched(B: Setup, s: BuildState, m: Move)
    requires CanMove(B, s, m)
    ensures May(B.cfg, s.sched, m.action) && Moved(B, s, m).sched == Then(B.cfg, s.sched, m.action)
    ensures !m.action.Work? ==> Moved(B, s, m) == Elsewhere(B, s, m.action)
  {
    hide May, Then, OnDisk, DiskMay, FilesThen, Spoils, ExposedAfter;
  }

  lemma MoveKeeps(B: Setup, s: BuildState, m: Move)
    requires SetupOk(B) && BuildInv(B, s) && CanMove(B, s, m)
    ensures BuildInv(B, Moved(B, s, m))
  {
    SetupGraph(B);
    StoreHas(B, s);
    MovedSched(B, s, m);
    StepKeeps(B.cfg, B.W.rank, s.sched, m.action);
    if m.action.Work? {
      assert m == Move(Work(m.action.t, m.action.o), m.effect);
      WorkKeepsStore(B, s, m.action.t, m.action.o, m.effect);
    } else {
      OtherMoveKeeps(B, s, m.action);
    }
    hide SetupOk, StoreOk, Inv, Gated, Moved;
  }

  // ---------------------------------------------------------------------
  // .build.info, as long as nothing has failed

  /** .build.info is the assembled description. */
  predicate Vouched(fs: Files) {
    fs.text.Some? && fs.buildInfo == fs.text
  }

  /** The worker's build is failing, or has failed. */
  predicate GivenUp(phase: Phase) {
    phase.Failing? || Lost(phase) || (phase.Building? && phase.stack.Frame? && phase.stack.pc == Leave(false))
  }

  predicate NothingFailed(s: State) {
    forall t :: 0 <= t < |s.phases| ==> !GivenUp(s.phases[t])
  }

  predicate FrameInfo(fs: Files, built: bool, pc: Pc) {
    InfoInPlace(pc) || (built && !Working(pc)) ==> Vouched(fs)
  }

  predicate StackInfo(s: BuildState, f: Stack) {
    f.Frame? ==>
      && f.package in s.disk
      && (f.pc != Lock ==> FrameInfo(s.disk[f.package], f.package in s.sched.shared.built, f.pc))
      && StackInfo(s, f.caller)
  }

  predicate PhaseInfo(s: BuildState, phase: Phase) {
    phase.Building? ==> StackInfo(s, phase.stack)
  }

  ghost predicate InfoOk(s: BuildState) {
    && (forall t :: 0 <= t < |s.sched.phases| ==> PhaseInfo(s, s.sched.phases[t]))
    && (forall p :: p in s.sched.shared.built && p !in s.sched.shared.locks ==> p in s.disk && Vouched(s.disk[p]))
  }

  /** While nothing has failed .build.info files are in place, and without races
      every package can be trusted. */
  ghost predicate ResultInv(B: Setup, s: BuildState)
    requires SetupOk(B)
  {
    && BuildInv(B, s)
    && (NothingFailed(s.sched) ==> InfoOk(s))
    && (NothingFailed(s.sched) && QuietListings(B) ==> s.spoiled == {})
  }

  lemma FailureStays(cfg: Config, s: State, a: Action)
    requires May(cfg, s, a) && NothingFailed(Then(cfg, s, a))
    ensures NothingFailed(s)
  {
    forall t | 0 <= t < |s.phases|
      ensures !GivenUp(s.phases[t])
    {
      assert !GivenUp(Then(cfg, s, a).phases[t]);
    }
  }

  lemma FailuresSpoil(B: Setup, s: BuildState, f: Stack, o: Outcome, e: Effect)
    requires f.Frame? && OnDisk(B, s.disk, f.package) && s.spoiled == {} && !GivenUp(PhaseThen(f, o))
    requires f.package in s.disk
    requires f.pc.Prepare? ==> s.disk[f.package].text.Some? || !DependListed(B, s.sched, f.package)
    ensures !Spoils(B, s, f, o, e)
  {
    hide DependListed;
  }

  /** A move that is no failure spoils nothing, if what is described is not being
      listed. */
  lemma NothingSpoiled(B: Setup, s: BuildState, t: nat, o: Outcome, e: Effect)
    requires SetupOk(B) && BuildInv(B, s) && CanMove(B, s, Move(Work(t, o), e)) && s.spoiled == {}
    requires t < |s.sched.phases| && s.sched.phases[t].Building? && s.sched.phases[t].stack.Frame?
    requires !GivenUp(PhaseThen(s.sched.phases[t].stack, o))
    requires var f := s.sched.phases[t].stack;
             f.pc.Prepare? && !f.locally ==> !DependListed(B, s.sched, f.package)
    ensures Moved(B, s, Move(Work(t, o), e)).spoiled == {}
  {
    hide *;
    var f, s' := MoveFacts(B, s, t, o, e);
    TopFilesAre(B, s, t);
    TopFacts(B, s, f);
    if f.pc.Prepare? {
      PrepareFacts(B, s, f);
      if f.locally {
        RightHasText(B, s.disk[f.package], f.package, f.package !in s.spoiled);
      }
    }
    FailuresSpoil(B, s, f, o, e);
    TrustedMeans(B, s, f, o, e);
    forall q
      ensures q !in s'.spoiled
    {
      assert q == f.package || q !in s.spoiled;
    }
  }

  /** How .build.info changes. */
  lemma InfoMoves(B: Setup, disk: Disk, t: nat, sh: Shared, f: Stack, pc: Pc, e: Effect)
    requires f.Frame? && OnDisk(B, disk, f.package) && B.cfg.suppressed == {} && !B.cfg.fetchOnly && f.package in disk
    requires FrameMay(B.cfg, sh, f, Goto(pc)) && DiskMay(B, disk, f, Goto(pc), e) && pc != Leave(false) && !Working(pc)
    ensures FilesThen(B, disk, f, Goto(pc), e).text == disk[f.package].text
    ensures if Working(f.pc) then
              FilesThen(B, disk, f, Goto(pc), e).buildInfo == disk[f.package].buildInfoNew
            else
              && FilesThen(B, disk, f, Goto(pc), e).buildInfo == disk[f.package].buildInfo
              && (InfoInPlace(pc) ==> InfoInPlace(f.pc))
              && (f.pc == Lock || !InfoInPlace(f.pc) ==> FrameThen(B.cfg, t, sh, f, Goto(pc)).built == sh.built)
  {
    hide OnDisk, DiskMay, FilesThen, FrameThen;
    if Working(f.pc) {
      InfoRenamed(B, disk, f, pc, e);
    } else {
      BuiltByInfoMoves(B.cfg, t, sh, f, pc);
      InfoStays(B, disk, f, pc, e);
    }
  }

  lemma InfoRenamed(B: Setup, disk: Disk, f: Stack, pc: Pc, e: Effect)
    requires f.Frame? && OnDisk(B, disk, f.package) && DiskMay(B, disk, f, Goto(pc), e)
    requires (f.pc.Decide? && !f.locally && pc == Leave(true)) || (f.pc.Record? && pc == Truncate)
    requires f.package in disk
    ensures FilesThen(B, disk, f, Goto(pc), e).buildInfo == disk[f.package].buildInfoNew
    ensures FilesThen(B, disk, f, Goto(pc), e).text == disk[f.package].text
  {
    hide WorldOk, Downloads, Def, EntryFor;
  }

  lemma InfoStays(B: Setup, disk: Disk, f: Stack, pc: Pc, e: Effect)
    requires f.Frame? && OnDisk(B, disk, f.package) && DiskMay(B, disk, f, Goto(pc), e) && f.package in disk
    requires !Working(f.pc) && !f.pc.Prepare?
    ensures FilesThen(B, disk, f, Goto(pc), e).buildInfo == disk[f.package].buildInfo
    ensures FilesThen(B, disk, f, Goto(pc), e).text == disk[f.package].text
  {
    hide WorldOk, Def;
  }

  lemma BuiltByInfoMoves(cfg: Config, t: nat, sh: Shared, f: Stack, pc: Pc)
    requires f.Frame? && cfg.suppressed == {} && !cfg.fetchOnly
    requires FrameMay(cfg, sh, f, Goto(pc)) && !Working(f.pc)
    ensures f.pc == Lock || !InfoInPlace(f.pc) ==> FrameThen(cfg, t, sh, f, Goto(pc)).built == sh.built
  {
  }

  lemma WorkingInfo(B: Setup, fs: Files, f: Stack, trusted: bool)
    requires WorldOk(B.T, B.W) && f.Frame? && f.package in B.W.own && Working(f.pc)
    requires FilesOk(B, fs, f.package, f.locally, f.pc, trusted)
    ensures fs.buildInfoNew == fs.text && fs.text.Some?
  {
    hide WorldOk, Text, CleanOut, Right, Consistent;
  }

  /** The innermost call's .build.info after a move that is no failure. */
  lemma TopInfoKeeps(B: Setup, s: BuildState, t: nat, f: Stack, pc: Pc, e: Effect)
    requires SetupOk(B) && f.Frame? && OnDisk(B, s.disk, f.package) && TopFilesOk(B, s, f) && f.package in s.disk
    requires FrameMay(B.cfg, s.sched.shared, f, Goto(pc)) && DiskMay(B, s.disk, f, Goto(pc), e) && pc != Leave(false)
    requires f.pc != Lock ==> FrameInfo(s.disk[f.package], f.package in s.sched.shared.built, f.pc)
    requires f.pc == Lock && f.package in s.sched.shared.built ==> Vouched(s.disk[f.package])
    ensures FrameInfo(FilesThen(B, s.disk, f, Goto(pc), e),
              f.package in FrameThen(B.cfg, t, s.sched.shared, f, Goto(pc)).built, pc)
  {
    hide *;
    TopFacts(B, s, f);
    var sh := s.sched.shared;
    if Working(pc) {
      WorkingIsFine(FilesThen(B, s.disk, f, Goto(pc), e), f.package in FrameThen(B.cfg, t, sh, f, Goto(pc)).built, pc);
    } else {
      InfoMoves(B, s.disk, t, sh, f, pc, e);
      if Working(f.pc) {
        WorkingPc(f.pc);
        WorkingInfo(B, s.disk[f.package], f, f.package !in s.spoiled);
      }
      InfoFollows(s.disk[f.package], FilesThen(B, s.disk, f, Goto(pc), e), f,
        sh.built, FrameThen(B.cfg, t, sh, f, Goto(pc)).built, pc);
    }
  }

  lemma WorkingPc(pc: Pc)
    requires Working(pc)
    ensures pc != Lock
  {
  }

  lemma WorkingIsFine(fs: Files, built: bool, pc: Pc)
    requires Working(pc)
    ensures FrameInfo(fs, built, pc)
  {
  }

  lemma InfoFollows(fs: Files, fs': Files, f: Stack, built: set<Package>, built': set<Package>, pc: Pc)
    requires f.Frame? && !Working(pc)
    requires f.pc != Lock ==> FrameInfo(fs, f.package in built, f.pc)
    requires f.pc == Lock && f.package in built ==> Vouched(fs)
    requires if Working(f.pc) then fs'.buildInfo == fs.buildInfoNew == fs.text == fs'.text && fs.text.Some?
             else
               && fs'.buildInfo == fs.buildInfo && fs'.text == fs.text
               && (InfoInPlace(pc) ==> InfoInPlace(f.pc))
               && (f.pc == Lock || !InfoInPlace(f.pc) ==> built' == built)
    ensures FrameInfo(fs', f.package in built', pc)
  {
  }

  /** q's files and flag are the same, and it is trusted as before. */
  predicate SameInfo(s: BuildState, s': BuildState, q: Package)
    requires q in s.disk && s.disk.Keys == s'.disk.Keys
  {
    SameFiles(s, s', q) && (q in s.sched.shared.built <==> q in s'.sched.shared.built)
  }

  lemma {:induction false} StackInfoStable(s: BuildState, s': BuildState, f: Stack)
    requires s.disk.Keys == s'.disk.Keys && StackInfo(s, f)
    requires forall q :: HasLocked(f, q) && q in s.disk ==> SameInfo(s, s', q)
    ensures StackInfo(s', f)
  {
    hide WorldOk, Vouched;
    if f.Frame? {
      if f.pc != Lock {
        assert HasLocked(f, f.package);
      }
      forall q | HasLocked(f.caller, q) && q in s.disk
        ensures SameInfo(s, s', q)
      {
        assert HasLocked(f, q);
      }
      StackInfoStable(s, s', f.caller);
    }
  }

  /** The call stack of the thread that moves. */
  lemma StackInfoMove(s: BuildState, s': BuildState, f: Stack, o: Outcome)
    requires s.disk.Keys == s'.disk.Keys && f.Frame? && StackInfo(s, f) && f.package in s.disk
    requires forall q :: q in s.disk && q != f.package ==> SameInfo(s, s', q)
    requires o.Goto? ==> FrameInfo(s'.disk[f.package], f.package in s'.sched.shared.built, o.pc)
    requires f.pc == Lock || o.Call? || o.Return? ==> SameInfo(s, s', f.package)
    requires f.pc != Lock ==> !HasLocked(f.caller, f.package)
    requires f.caller.Frame? ==> f.caller.pc != Lock
    requires f.caller.Frame? && o.Return? ==> !InfoInPlace(f.caller.pc)
    requires o.Call? ==> o.package in s.disk && f.pc != Lock
    requires !GivenUp(PhaseThen(f, o))
    ensures PhaseInfo(s', PhaseThen(f, o))
  {
    hide Vouched;
    forall q | HasLocked(f.caller, q) && q in s.disk
      ensures SameInfo(s, s', q)
    {
      assert q == f.package ==> f.pc == Lock;
    }
    StackInfoStable(s, s', f.caller);
    if o.Call? {
      assert FrameInfo(s'.disk[f.package], f.package in s'.sched.shared.built, f.pc);
      assert StackInfo(s', f);
    } else if o.Return? {
      assert f.caller.Frame? ==> f.caller.package in s'.disk;
    }
  }

  lemma CallersWait(cfg: Config, s: State, t: nat, o: Outcome)
    requires Inv(cfg, s) && May(cfg, s, Work(t, o))
    ensures var f := s.phases[t].stack; f.caller.Frame? ==> !InfoInPlace(f.caller.pc)
  {
    WorkerAt(cfg, s, t);
  }

  lemma BuiltMoves(cfg: Config, t: nat, sh: Shared, f: Stack, o: Outcome)
    requires f.Frame? && FrameMay(cfg, sh, f, o)
    ensures var built' := FrameThen(cfg, t, sh, f, o).built;
            && (forall q :: q != f.package ==> (q in sh.built <==> q in built'))
            && (f.pc == Lock || o.Call? || o.Return? ==> built' == sh.built)
  {
  }

  lemma InfoHas(s: BuildState, t: nat)
    requires InfoOk(s) && t < |s.sched.phases| && s.sched.phases[t].Building?
    ensures StackInfo(s, s.sched.phases[t].stack)
  {
    hide StackInfo, Vouched;
    assert PhaseInfo(s, s.sched.phases[t]);
  }

  lemma UnlockedHas(s: BuildState, p: Package)
    requires InfoOk(s) && p in s.sched.shared.built && p !in s.sched.shared.locks
    ensures p in s.disk && Vouched(s.disk[p])
  {
    hide StackInfo, Vouched;
  }

  lemma StackInfoTop(s: BuildState, f: Stack)
    requires f.Frame? && StackInfo(s, f)
    ensures f.package in s.disk
    ensures f.pc != Lock ==> FrameInfo(s.disk[f.package], f.package in s.sched.shared.built, f.pc)
  {
    hide Vouched;
  }

  lemma SameInfoFrom(s: BuildState, s': BuildState, q: Package)
    requires q in s.disk && s.disk.Keys == s'.disk.Keys && SameFiles(s, s', q)
    requires q in s.sched.shared.built <==> q in s'.sched.shared.built
    ensures SameInfo(s, s', q)
  {
  }

  /** What the move does not touch. */
  lemma InfoElsewhere(B: Setup, s: BuildState, t: nat, o: Outcome, e: Effect) returns (f: Stack, s': BuildState)
    requires SetupOk(B) && BuildInv(B, s) && CanMove(B, s, Move(Work(t, o), e))
    ensures t < |s.sched.phases| && s.sched.phases[t].Building? && f == s.sched.phases[t].stack && f.Frame?
    ensures s' == Moved(B, s, Move(Work(t, o), e)) && s.disk.Keys == s'.disk.Keys && f.package in s.disk
    ensures forall q :: q in s.disk && q != f.package ==> SameInfo(s, s', q)
    ensures f.pc == Lock || o.Call? || o.Return? ==> SameInfo(s, s', f.package)
  {
    hide *;
    f, s' := MoveFacts(B, s, t, o, e);
    BuiltMoves(B.cfg, t, s.sched.shared, f, o);
    forall q | q in s.disk && q != f.package
      ensures SameInfo(s, s', q)
    {
      SameInfoFrom(s, s', q);
    }
    if f.pc == Lock || o.Call? || o.Return? {
      SameInfoFrom(s, s', f.package);
    }
  }

  lemma OwnInfo(B: Setup, s: BuildState, t: nat, o: Outcome, e: Effect)
    requires SetupOk(B) && BuildInv(B, s) && CanMove(B, s, Move(Work(t, o), e))
    requires t < |s.sched.phases| && s.sched.phases[t].Building? && s.sched.phases[t].stack.Frame?
    requires InfoOk(s) && !GivenUp(PhaseThen(s.sched.phases[t].stack, o))
    ensures PhaseInfo(Moved(B, s, Move(Work(t, o), e)), PhaseThen(s.sched.phases[t].stack, o))
  {
    hide *;
    var f, s' := MoveFacts(B, s, t, o, e);
    var f1, s1 := InfoElsewhere(B, s, t, o, e);
    SetupGraph(B);
    StackFacts(B.cfg, s.sched, t, o);
    CallersWait(B.cfg, s.sched, t, o);
    InfoHas(s, t);
    StackInfoTop(s, f);
    if o.Goto? {
      TopFilesAre(B, s, t);
      if f.pc == Lock {
        LockIsFree(B.cfg, s.sched.shared, f, o);
        if f.package in s.sched.shared.built {
          UnlockedHas(s, f.package);
        }
      }
      GoodGoto(f, o.pc);
      TopInfoKeeps(B, s, t, f, o.pc, e);
    }
    if o.Call? {
      assert o.package in B.cfg.depends.Keys;
      assert o.package in s.disk.Keys;
    }
    StackInfoMove(s, s', f, o);
  }

  lemma LockIsFree(cfg: Config, sh: Shared, f: Stack, o: Outcome)
    requires f.Frame? && FrameMay(cfg, sh, f, o) && f.pc == Lock
    ensures f.package !in sh.locks
  {
  }

  lemma GoodGoto(f: Stack, pc: Pc)
    requires f.Frame? && !GivenUp(PhaseThen(f, Goto(pc)))
    ensures pc != Leave(false)
  {
  }

  /** The call stacks of the other threads. */
  lemma OtherInfo(B: Setup, s: BuildState, t: nat, o: Outcome, e: Effect, u: nat)
    requires SetupOk(B) && BuildInv(B, s) && CanMove(B, s, Move(Work(t, o), e))
    requires InfoOk(s) && u != t && u < |s.sched.phases|
    ensures PhaseInfo(Moved(B, s, Move(Work(t, o), e)), s.sched.phases[u])
  {
    hide *;
    var f, s' := MoveFacts(B, s, t, o, e);
    if s.sched.phases[u].Building? {
      OtherAgrees(B, s, t, o, e, u);
      InfoHas(s, u);
      StackInfoStable(s, s', s.sched.phases[u].stack);
    }
    PhaseInfoIs(s', s.sched.phases[u]);
  }

  lemma PhaseInfoIs(s: BuildState, phase: Phase)
    requires phase.Building? ==> StackInfo(s, phase.stack)
    ensures PhaseInfo(s, phase)
  {
  }

  /** What another thread has locked does not change. */
  lemma OtherAgrees(B: Setup, s: BuildState, t: nat, o: Outcome, e: Effect, u: nat)
    requires SetupOk(B) && BuildInv(B, s) && CanMove(B, s, Move(Work(t, o), e))
    requires u != t && u < |s.sched.phases| && s.sched.phases[u].Building?
    ensures var s' := Moved(B, s, Move(Work(t, o), e));
            && s.disk.Keys == s'.disk.Keys
            && forall q :: HasLocked(s.sched.phases[u].stack, q) && q in s.disk ==> SameInfo(s, s', q)
  {
    hide *;
    var f, s' := InfoElsewhere(B, s, t, o, e);
    StoreHas(B, s);
    forall q | HasLocked(s.sched.phases[u].stack, q) && q in s.disk
      ensures SameInfo(s, s', q)
    {
      if f.pc != Lock && q == f.package {
        NotTwoHolders(B.cfg, s.sched, t, u, q);
      }
    }
  }

  /** Built packages that nobody holds afterwards. */
  lemma UnlockedInfo(B: Setup, s: BuildState, t: nat, o: Outcome, e: Effect, p: Package)
    requires SetupOk(B) && BuildInv(B, s) && CanMove(B, s, Move(Work(t, o), e))
    requires t < |s.sched.phases| && s.sched.phases[t].Building? && s.sched.phases[t].stack.Frame?
    requires InfoOk(s) && !GivenUp(PhaseThen(s.sched.phases[t].stack, o))
    requires var s' := Moved(B, s, Move(Work(t, o), e)); p in s'.sched.shared.built && p !in s'.sched.shared.locks
    ensures var s' := Moved(B, s, Move(Work(t, o), e)); p in s'.disk && Vouched(s'.disk[p])
  {
    hide *;
    var f, s' := MoveFacts(B, s, t, o, e);
    OwnHold(B.cfg, s.sched, t);
    var sh := s.sched.shared;
    BuiltMoves(B.cfg, t, sh, f, o);
    InfoHas(s, t);
    StackInfoTop(s, f);
    LocksMove(B.cfg, t, sh, f, o);
    if p == f.package {
      SameMeans(s, s', p);
      ReturnedInfo(s.disk[p], f, f.package in sh.built);
    } else {
      UnlockedHas(s, p);
    }
  }

  lemma OwnHold(cfg: Config, s: State, t: nat)
    requires Inv(cfg, s) && t < |s.phases| && s.phases[t].Building?
    ensures var f := s.phases[t].stack; f.Frame? && (f.pc != Lock ==> f.package in s.shared.locks)
  {
    WorkerAt(cfg, s, t);
  }

  lemma LocksMove(cfg: Config, t: nat, sh: Shared, f: Stack, o: Outcome)
    requires f.Frame? && FrameMay(cfg, sh, f, o) && !GivenUp(PhaseThen(f, o))
    requires f.pc != Lock ==> f.package in sh.locks
    ensures var sh' := FrameThen(cfg, t, sh, f, o);
            && (forall q :: q in sh.locks && q != f.package ==> q in sh'.locks)
            && (f.package !in sh'.locks ==> f.pc == Leave(true) && o == Return(true))
  {
  }

  lemma ReturnedInfo(fs: Files, f: Stack, built: bool)
    requires f.Frame? && f.pc == Leave(true) && built && FrameInfo(fs, built, f.pc)
    ensures Vouched(fs)
  {
    hide Vouched;
  }

  lemma InfoFromParts(s: BuildState)
    requires forall u: nat :: u < |s.sched.phases| ==> PhaseInfo(s, s.sched.phases[u])
    requires forall p :: p in s.sched.shared.built && p !in s.sched.shared.locks ==> p in s.disk && Vouched(s.disk[p])
    ensures InfoOk(s)
  {
    hide PhaseInfo, Vouched;
  }

  lemma NoneGivenUp(s: State, t: nat)
    requires NothingFailed(s) && t < |s.phases|
    ensures !GivenUp(s.phases[t])
  {
    hide GivenUp;
  }

  lemma WorkKeepsInfo(B: Setup, s: BuildState, t: nat, o: Outcome, e: Effect)
    requires SetupOk(B) && BuildInv(B, s) && CanMove(B, s, Move(Work(t, o), e))
    requires InfoOk(s) && NothingFailed(Moved(B, s, Move(Work(t, o), e)).sched)
    ensures var s' := Moved(B, s, Move(Work(t, o), e));
            InfoOk(s') && (QuietListings(B) && s.spoiled == {} ==> s'.spoiled == {})
  {
    hide *;
    var f, s' := MoveFacts(B, s, t, o, e);
    NoneGivenUp(s'.sched, t);
    if QuietListings(B) && s.spoiled == {} {
      if f.pc.Prepare? && !f.locally {
        QuietIsReliable(B, s, t);
      }
      NothingSpoiled(B, s, t, o, e);
    }
    forall u: nat | u < |s'.sched.phases|
      ensures PhaseInfo(s', s'.sched.phases[u])
    {
      if u == t {
        OwnInfo(B, s, t, o, e);
      } else {
        OtherInfo(B, s, t, o, e, u);
      }
    }
    forall p | p in s'.sched.shared.built && p !in s'.sched.shared.locks
      ensures p in s'.disk && Vouched(s'.disk[p])
    {
      UnlockedInfo(B, s, t, o, e, p);
    }
    InfoFromParts(s');
  }

  lemma StartedInfo(B: Setup, s: BuildState, phase: Phase)
    requires s.disk.Keys == B.cfg.depends.Keys && JustStarted(B.cfg, phase)
    ensures PhaseInfo(s, phase)
  {
    assert phase.stack.package in B.cfg.depends.Keys;
    assert StackInfo(s, phase.stack.caller);
  }

  lemma SameEverywhere(B: Setup, s: BuildState, a: Action, q: Package)
    requires May(B.cfg, s.sched, a) && !a.Work? && q in s.disk
    ensures SameInfo(s, Elsewhere(B, s, a), q)
  {
    OthersBuildNothing(B.cfg, s.sched, a);
    hide May, Then;
  }

  lemma OtherMoveKeepsInfo(B: Setup, s: BuildState, a: Action)
    requires SetupOk(B) && BuildInv(B, s) && May(B.cfg, s.sched, a) && !a.Work?
    requires InfoOk(s)
    ensures InfoOk(Elsewhere(B, s, a))
  {
    hide *;
    SetupGraph(B);
    StoreHas(B, s);
    OthersBuildNothing(B.cfg, s.sched, a);
    var s' := Elsewhere(B, s, a);
    forall u: nat | u < |s'.sched.phases|
      ensures PhaseInfo(s', s'.sched.phases[u])
    {
      if s'.sched.phases[u].Building? {
        OthersStackNothing(B.cfg, s.sched, a, u);
        if u < |s.sched.phases| {
          InfoHas(s, u);
          forall q | q in s.disk
            ensures SameInfo(s, s', q)
          {
            SameEverywhere(B, s, a, q);
          }
          StackInfoStable(s, s', s.sched.phases[u].stack);
          PhaseInfoIs(s', s'.sched.phases[u]);
        } else {
          StartedInfo(B, s', s'.sched.phases[u]);
        }
      } else {
        PhaseInfoIs(s', s'.sched.phases[u]);
      }
    }
    forall p | p in s'.sched.shared.built && p !in s'.sched.shared.locks
      ensures p in s'.disk && Vouched(s'.disk[p])
    {
      UnlockedHas(s, p);
    }
    InfoFromParts(s');
  }

  lemma MoveKeepsResult(B: Setup, s: BuildState, m: Move)
    requires SetupOk(B) && ResultInv(B, s) && CanMove(B, s, m)
    ensures ResultInv(B, Moved(B, s, m))
  {
    MoveKeeps(B, s, m);
    SetupGraph(B);
    MovedSched(B, s, m);
    if NothingFailed(Moved(B, s, m).sched) {
      FailureStays(B.cfg, s.sched, m.action);
      if m.action.Work? {
        assert m == Move(Work(m.action.t, m.action.o), m.effect);
        WorkKeepsInfo(B, s, m.action.t, m.action.o, m.effect);
      } else {
        OtherMoveKeepsInfo(B, s, m.action);
      }
    }
    hide SetupOk, BuildInv, InfoOk, NothingFailed, May, Then, Moved, WorldOk, Gated, QuietListings;
  }

  // ---------------------------------------------------------------------
  // Runs

  function Actions(moves: seq<Move>): (actions: seq<Action>)
    ensures |actions| == |moves|
    ensures forall i :: 0 <= i < |moves| ==> actions[i] == moves[i].action
  {
    seq(|moves|, i requires 0 <= i < |moves| => moves[i].action)
  }

  /** Forgetting the files turns a run of the build into a run of the scheduler. */
  lemma {:induction false} RunsAreSchedulerRuns(B: Setup, order: seq<Package>, disk: Disk, moves: seq<Move>)
    requires AfterMoves(B, order, disk, moves).Some?
    ensures After(B.cfg, order, Actions(moves)) == Some(AfterMoves(B, order, disk, moves).value.sched)
  {
    hide May, Then, CanMove, Listing;
    if moves != [] {
      var last := |moves| - 1;
      RunsAreSchedulerRuns(B, order, disk, moves[..last]);
      assert Actions(moves)[..last] == Actions(moves[..last]);
      var r := AfterMoves(B, order, disk, moves[..last]);
      assert CanMove(B, r.value, moves[last]);
      MovedSched(B, r.value, moves[last]);
    }
  }

  lemma InitInv(cfg: Config, rank: map<Package, nat>, order: seq<Package>)
    requires Gated(cfg, rank) && Listing(cfg, order)
    ensures Inv(cfg, Init(order))
  {
    InvAlways(cfg, rank, order, []);
    hide Inv, Gated, Listing;
  }

  lemma DiskHas(B: Setup, disk: Disk)
    requires DiskOk(B, disk)
    ensures disk.Keys == B.W.own.Keys && forall p :: p in disk ==> Pristine(B.T, p, disk[p])
  {
    hide Pristine;
  }

  lemma StartParts(B: Setup, s: BuildState)
    requires SetupOk(B) && Inv(B.cfg, s.sched) && WorldOk(B.T, B.W) && StoreOk(B, s) && InfoOk(s)
    requires s.spoiled == {}
    ensures ResultInv(B, s)
  {
    hide SetupOk, Inv, WorldOk, StoreOk, InfoOk, NothingFailed;
  }

  lemma InitIsIdle(order: seq<Package>)
    ensures Init(order).phases == [] && Init(order).shared.built == {}
  {
  }

  lemma StartIsFine(B: Setup, order: seq<Package>, disk: Disk)
    requires SetupOk(B) && DiskOk(B, disk) && Listing(B.cfg, order)
    ensures ResultInv(B, BuildState(Init(order), disk, {}, {}))
  {
    hide *;
    SetupGraph(B);
    InitInv(B.cfg, B.W.rank, order);
    DiskHas(B, disk);
    InitIsIdle(order);
    var s := BuildState(Init(order), disk, {}, {});
    StoreFromParts(B, s);
    InfoFromParts(s);
    StartParts(B, s);
  }

  lemma {:induction false} ResultAlways(B: Setup, order: seq<Package>, disk: Disk, moves: seq<Move>)
    requires SetupOk(B) && DiskOk(B, disk)
    ensures var s := AfterMoves(B, order, disk, moves); s.Some? ==> ResultInv(B, s.value)
  {
    hide ResultInv, CanMove, Moved, SetupOk, DiskOk, Listing;
    if moves == [] {
      if Listing(B.cfg, order) {
        StartIsFine(B, order, disk);
      }
    } else {
      var last := |moves| - 1;
      ResultAlways(B, order, disk, moves[..last]);
      var r := AfterMoves(B, order, disk, moves[..last]);
      if r.Some? && CanMove(B, r.value, moves[last]) {
        MoveKeepsResult(B, r.value, moves[last]);
      }
    }
  }

  lemma ReachableResult(B: Setup, disk: Disk, s: BuildState)
    requires SetupOk(B) && DiskOk(B, disk) && ReachableFrom(B, disk, s)
    ensures ResultInv(B, s) && Reachable(B.cfg, s.sched) && Gated(B.cfg, B.W.rank)
    ensures WorldOk(B.T, B.W) && s.disk.Keys == B.W.own.Keys
  {
    hide *;
    var order, moves := RunTo(B, disk, s);
    ResultAlways(B, order, disk, moves);
    RunsAreSchedulerRuns(B, order, disk, moves);
    ReachableBy(B.cfg, order, Actions(moves), s.sched);
    SetupGraph(B);
    ResultHas(B, s);
    StoreHas(B, s);
  }

  lemma RunTo(B: Setup, disk: Disk, s: BuildState) returns (order: seq<Package>, moves: seq<Move>)
    requires ReachableFrom(B, disk, s)
    ensures AfterMoves(B, order, disk, moves) == Some(s)
  {
    order, moves :| AfterMoves(B, order, disk, moves) == Some(s);
  }

  lemma ReachableBy(cfg: Config, order: seq<Package>, actions: seq<Action>, s: State)
    requires After(cfg, order, actions) == Some(s)
    ensures Reachable(cfg, s)
  {
  }

  lemma ResultHas(B: Setup, s: BuildState)
    requires SetupOk(B) && ResultInv(B, s)
    ensures BuildInv(B, s) && WorldOk(B.T, B.W) && (NothingFailed(s.sched) ==> InfoOk(s))
    ensures NothingFailed(s.sched) && QuietListings(B) ==> s.spoiled == {}
  {
    hide BuildInv, InfoOk, NothingFailed, Gated;
  }

  // ---------------------------------------------------------------------
  // What is built is what a clean build makes

  /** In every state of every run, whatever was skipped, fetched or built, the
      archives of a built package that is not spoiled are those of a build from
      scratch. */
  lemma BuiltArchivesAreClean(B: Setup, disk: Disk, s: BuildState, p: Package)
    requires SetupOk(B) && DiskOk(B, disk) && ReachableFrom(B, disk, s)
    requires p in s.sched.shared.built && p !in s.spoiled
    ensures WorldOk(B.T, B.W) && p in B.W.own && p in s.disk
    ensures s.disk[p].staging == Some(CleanOut(B.T, B.W, p).staging)
    ensures s.disk[p].install == Some(CleanOut(B.T, B.W, p).install)
  {
    hide *;
    ReachableResult(B, disk, s);
    ResultHas(B, s);
    BuiltIsRight(B, s, p);
    RightMeans(B, s.disk[p], p);
  }

  lemma RightMeans(B: Setup, fs: Files, p: Package)
    requires WorldOk(B.T, B.W) && p in B.W.own && Right(B, fs, p, true)
    ensures fs.staging == Some(CleanOut(B.T, B.W, p).staging)
    ensures fs.install == Some(CleanOut(B.T, B.W, p).install)
    ensures fs.hash == B.T.digest(Text(B.T, B.W, p))
  {
    hide CleanOut, Text, WorldOk;
  }

  /** As long as nothing has failed, the build-info hash of a built package that
      nobody is working on is the hash of its .build.info. */
  lemma HashDescribesFile(B: Setup, disk: Disk, s: BuildState, p: Package)
    requires SetupOk(B) && DiskOk(B, disk) && ReachableFrom(B, disk, s) && NothingFailed(s.sched)
    requires p in s.sched.shared.built && p !in s.sched.shared.locks
    ensures p in s.disk && s.disk[p].buildInfo.Some? && s.disk[p].hash == B.T.digest(s.disk[p].buildInfo.value)
  {
    hide *;
    ReachableResult(B, disk, s);
    ResultHas(B, s);
    BuiltIsRight(B, s, p);
    UnlockedHas(s, p);
    VouchedMeans(B, s.disk[p], p, p !in s.spoiled);
  }

  lemma VouchedMeans(B: Setup, fs: Files, p: Package, trusted: bool)
    requires WorldOk(B.T, B.W) && p in B.W.own && Right(B, fs, p, trusted) && Vouched(fs)
    ensures fs.buildInfo.Some? && fs.hash == B.T.digest(fs.buildInfo.value)
    ensures trusted ==> fs.buildInfo == Some(Text(B.T, B.W, p))
  {
    hide WorldOk, CleanOut, Text;
  }

  /** A worker whose build is failing works for a package that is not built. */
  lemma GivenUpIsUnbuilt(cfg: Config, s: State, t: nat)
    requires Inv(cfg, s) && t < |s.phases| && GivenUp(s.phases[t])
    ensures t < |s.workers| && s.workers[t] in cfg.depends && s.workers[t] !in s.shared.built
  {
    WorkerAt(cfg, s, t);
    hide Inv;
    if s.phases[t].Building? && s.phases[t].stack.caller.Frame? {
      OutermostUnfinished(cfg, t, s.workers[t], s.shared, s.phases[t].stack.caller);
    }
  }

  lemma BaseBuiltMeansNoFailure(B: Setup, s: State)
    requires Gated(B.cfg, B.W.rank) && Inv(B.cfg, s) && B.cfg.base in s.shared.built
    ensures NothingFailed(s)
  {
    ClosedFlagsOf(B.cfg, s);
    hide Inv, Gated, GivenUp, ClosedFlags;
    forall t: nat | t < |s.phases|
      ensures !GivenUp(s.phases[t])
    {
      if GivenUp(s.phases[t]) {
        GivenUpIsUnbuilt(B.cfg, s, t);
        BaseBuiltMeansAllBuilt(B.cfg, B.W.rank, s.shared, s.workers[t]);
      }
    }
  }

  lemma {:induction false} NotWorkingInside(cfg: Config, t: nat, w: Package, sh: Shared, f: Stack)
    requires StackOk(cfg, t, w, sh, f) && w in sh.built
    ensures !Active(f.pc) && f.caller.Bottom?
  {
    if Active(f.pc) {
      OutermostUnfinished(cfg, t, w, sh, f);
    }
    if f.caller.Frame? {
      NotWorkingInside(cfg, t, w, sh, f.caller);
    }
  }

  /** Once the base package is built every .build.info is in place, even if some
      workers still have to return. */
  lemma BaseBuiltMeansVouched(B: Setup, s: BuildState, p: Package)
    requires SetupOk(B) && ResultInv(B, s) && B.cfg.base in s.sched.shared.built && p in B.W.own
    ensures p in s.sched.shared.built && p in s.disk && Vouched(s.disk[p])
  {
    hide *;
    ResultHas(B, s);
    StoreHas(B, s);
    SetupGraph(B);
    BaseBuiltMeansNoFailure(B, s.sched);
    ClosedFlagsOf(B.cfg, s.sched);
    assert p in B.cfg.depends.Keys;
    BaseBuiltMeansAllBuilt(B.cfg, B.W.rank, s.sched.shared, p);
    if p in s.sched.shared.locks {
      var t := Holder(B.cfg, s.sched, p);
      InfoHas(s, t);
      var f := s.sched.phases[t].stack;
      AllButReturned(B.cfg, B.W.rank, s.sched, t, p);
      StackInfoTop(s, f);
      IdleInfo(s.disk[p], f, p in s.sched.shared.built);
    } else {
      UnlockedHas(s, p);
    }
  }

  lemma Holder(cfg: Config, s: State, p: Package) returns (t: nat)
    requires Inv(cfg, s) && p in s.shared.locks
    ensures t < |s.phases| && s.phases[t].Building? && HasLocked(s.phases[t].stack, p)
  {
    t := s.shared.locks[p];
  }

  lemma AllButReturned(cfg: Config, rank: map<Package, nat>, s: State, t: nat, p: Package)
    requires Gated(cfg, rank) && Inv(cfg, s) && cfg.base in s.shared.built
    requires t < |s.phases| && s.phases[t].Building? && HasLocked(s.phases[t].stack, p)
    ensures var f := s.phases[t].stack;
            f.Frame? && f.package == p && f.pc != Lock && !Active(f.pc) && !Working(f.pc)
  {
    WorkerAt(cfg, s, t);
    ClosedFlagsOf(cfg, s);
    hide Inv, Gated, ClosedFlags;
    BaseBuiltMeansAllBuilt(cfg, rank, s.shared, s.workers[t]);
    NotWorkingInside(cfg, t, s.workers[t], s.shared, s.phases[t].stack);
  }

  lemma IdleInfo(fs: Files, f: Stack, built: bool)
    requires f.Frame? && built && !Working(f.pc) && FrameInfo(fs, built, f.pc)
    ensures Vouched(fs)
  {
    hide Vouched;
  }

  lemma ListerIsActive(s: State, u: nat, q: Package)
    requires ListedBy(s, u, q)
    ensures u < |s.phases| && s.phases[u].Building? && Active(s.phases[u].stack.pc)
  {
  }

  /** Once the base package is built nobody writes an .output.info. */
  lemma NobodyLists(B: Setup, s: State, q: Package)
    requires Gated(B.cfg, B.W.rank) && Inv(B.cfg, s) && B.cfg.base in s.shared.built
    ensures !BeingListed(s, q)
  {
    ClosedFlagsOf(B.cfg, s);
    hide *;
    if BeingListed(s, q) {
      var u := Lister(s, q);
      ListerIsActive(s, u, q);
      WorkerAt(B.cfg, s, u);
      WorkerIs(B.cfg, u, s.workers[u], s.shared, s.phases[u]);
      BaseBuiltMeansAllBuilt(B.cfg, B.W.rank, s.shared, s.workers[u]);
      NotWorkingInside(B.cfg, u, s.workers[u], s.shared, s.phases[u].stack);
    }
  }

  lemma WorkerIs(cfg: Config, t: nat, w: Package, sh: Shared, phase: Phase)
    requires WorkerOk(cfg, t, w, sh, phase) && phase.Building?
    ensures w in cfg.depends && StackOk(cfg, t, w, sh, phase.stack)
  {
  }

  /** Once the base package is built every package is right unless it is spoiled. */
  lemma BaseBuiltMeansRight(B: Setup, s: BuildState, p: Package)
    requires SetupOk(B) && ResultInv(B, s) && B.cfg.base in s.sched.shared.built && p in B.W.own
    ensures WorldOk(B.T, B.W) && p in s.disk && Right(B, s.disk[p], p, p !in s.spoiled)
    ensures p !in s.spoiled ==> OutputInfoRight(B, s.disk[p], p) && s.disk[p].buildInfo == Some(Text(B.T, B.W, p))
    ensures QuietListings(B) ==> p !in s.spoiled
  {
    hide *;
    ResultHas(B, s);
    StoreHas(B, s);
    SetupGraph(B);
    BaseBuiltMeansNoFailure(B, s.sched);
    BaseBuiltMeansVouched(B, s, p);
    NobodyLists(B, s.sched, p);
    BuiltIsRight(B, s, p);
    VouchedMeans(B, s.disk[p], p, p !in s.spoiled);
  }
}
