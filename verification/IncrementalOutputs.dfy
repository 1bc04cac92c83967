/** The .output.info files that other packages' descriptions need. */
module IncrementalOutputs {
  import opened Packages
  import opened Scheduler
  import opened SchedulerInvariant
  import opened SchedulerSteps
  import opened SchedulerTheorems
  import opened Worlds
  import opened Incremental
  import opened IncrementalInvariant
  import opened IncrementalRaces
  import opened IncrementalResults

  /** Between prepareBuildInfo and the start of the listing. */
  predicate Unlisted(pc: Pc) {
    Working(pc) || pc.Truncate?
  }

  /** A call on the stack is rebuilding q. */
  predicate WorkingIn(f: Stack, q: Package) {
    f.Frame? && ((f.package == q && Unlisted(f.pc)) || WorkingIn(f.caller, q))
  }

  predicate RebuiltBy(s: State, t: nat, q: Package) {
    t < |s.phases| && s.phases[t].Building? && WorkingIn(s.phases[t].stack, q)
  }

  ghost predicate Rebuilding(s: State, q: Package) {
    exists t :: RebuiltBy(s, t, q)
  }

  /** Once d is described, the output files it was described with are there, or
      are being written again. */
  ghost predicate PairOk(B: Setup, s: BuildState, d: Package, q: Package) {
    d in s.disk && s.disk[d].text.Some? && HashedBy(B.T, B.W, d, q) ==>
      q in s.sched.shared.built && q in s.disk && (s.disk[q].outputInfo.Some? || Rebuilding(s.sched, q))
  }

  ghost predicate OutputsOk(B: Setup, s: BuildState) {
    forall d, q :: PairOk(B, s, d, q)
  }

  // ---------------------------------------------------------------------
  // Steps

  lemma {:induction false} WorkingStays(cfg: Config, sh: Shared, f: Stack, o: Outcome, q: Package)
    requires f.Frame? && FrameMay(cfg, sh, f, o) && WorkingIn(f, q) && !GivenUp(PhaseThen(f, o)) && !cfg.fetchOnly
    ensures || (PhaseThen(f, o).Building? && WorkingIn(PhaseThen(f, o).stack, q))
            || (q == f.package && f.pc.Truncate? && o == Goto(List))
            || (q == f.package && f.pc.Decide? && o == Goto(Leave(true)))
  {
  }

  lemma OutputMoves(B: Setup, disk: Disk, f: Stack, o: Outcome, e: Effect)
    requires f.Frame? && OnDisk(B, disk, f.package) && DiskMay(B, disk, f, o, e) && f.package in disk
    requires f.pc.Decide? ==> o == Goto(LocalDeps(0)) || o == Goto(Leave(true)) || o == Throw
    ensures var fs, fs' := disk[f.package], FilesThen(B, disk, f, o, e);
            && (fs.outputInfo.Some? && !f.pc.Prepare? ==> fs'.outputInfo.Some?)
            && (f.pc.Truncate? && o == Goto(List) && Def(B.T, B.W, f.package).hashOutput ==> fs'.outputInfo.Some?)
            && (!f.pc.Prepare? || o != Goto(Decide) ==> fs'.text == fs.text)
  {
    if f.pc.Decide? && disk[f.package].outputInfo.Some? && Downloads(B, disk[f.package], f.package, e.fetched) {
      FetchedOutput(B, disk[f.package], f.package, e.fetched);
    }
    hide WorldOk, HashMissing, Assembled, ArchivesExist, Known, Downloads, Fetched, EntryFor;
  }

  lemma FetchedOutput(B: Setup, fs: Files, p: Package, n: nat)
    requires p in B.W.own && Downloads(B, fs, p, n) && fs.outputInfo.Some?
    ensures Fetched(fs, EntryFor(B, fs, p), n).outputInfo.Some?
  {
    assert n <= 4;
    assert n > 0 ==> EntryFor(B, fs, p) == B.cache.value[(p, fs.hash)] && Available(EntryFor(B, fs, p), n);
  }

  /** A description is assembled over outputs that are there. */
  lemma HashesAreThere(B: Setup, disk: Disk, f: Stack, e: Effect, q: Package)
    requires f.Frame? && f.pc.Prepare? && OnDisk(B, disk, f.package) && DiskMay(B, disk, f, Goto(Decide), e)
    requires f.package in disk && disk[f.package].text.None? && HashedBy(B.T, B.W, f.package, q)
    ensures q in disk && disk[q].outputInfo.Some?
  {
    var i :| 0 <= i < |Def(B.T, B.W, f.package).depends| && Def(B.T, B.W, f.package).depends[i].package == q;
    assert LineFor(B.T, B.W, disk, q).text != "";
    hide WorldOk;
  }

  lemma RebuildingStays(cfg: Config, s: State, t: nat, o: Outcome, q: Package)
    requires May(cfg, s, Work(t, o)) && Rebuilding(s, q) && !GivenUp(PhaseThen(s.phases[t].stack, o)) && !cfg.fetchOnly
    ensures var f := s.phases[t].stack;
            || Rebuilding(Then(cfg, s, Work(t, o)), q)
            || (q == f.package && f.pc.Truncate? && o == Goto(List))
            || (q == f.package && f.pc.Decide? && o == Goto(Leave(true)))
  {
    var u: nat :| RebuiltBy(s, u, q);
    var s' := Then(cfg, s, Work(t, o));
    hide FrameMay, FrameThen, WorkingIn;
    if u == t {
      WorkingStays(cfg, s.shared, s.phases[t].stack, o, q);
      if PhaseThen(s.phases[t].stack, o).Building? && WorkingIn(PhaseThen(s.phases[t].stack, o).stack, q) {
        assert RebuiltBy(s', t, q);
      }
    } else {
      assert RebuiltBy(s', u, q);
    }
  }

  lemma PrepareStarts(cfg: Config, s: State, t: nat)
    requires May(cfg, s, Work(t, Goto(Decide))) && s.phases[t].stack.Frame?
    ensures Rebuilding(Then(cfg, s, Work(t, Goto(Decide))), s.phases[t].stack.package)
  {
    assert RebuiltBy(Then(cfg, s, Work(t, Goto(Decide))), t, s.phases[t].stack.package);
  }

  lemma PrepareOnly(B: Setup, sh: Shared, f: Stack, o: Outcome)
    requires f.Frame? && FrameMay(B.cfg, sh, f, o) && f.pc.Prepare? && !GivenUp(PhaseThen(f, o))
    ensures o == Goto(Decide)
  {
  }

  /** The pair (d, q) after a move, where q's file is concerned. */
  lemma OutputKept(B: Setup, s: BuildState, t: nat, o: Outcome, e: Effect, q: Package)
    requires SetupOk(B) && BuildInv(B, s) && CanMove(B, s, Move(Work(t, o), e)) && t < |s.sched.phases|
    requires s.sched.phases[t].Building? && s.sched.phases[t].stack.Frame?
    requires !GivenUp(PhaseThen(s.sched.phases[t].stack, o))
    requires q in s.sched.shared.built && q in s.disk && q in B.W.own && Def(B.T, B.W, q).hashOutput
    requires s.disk[q].outputInfo.Some? || Rebuilding(s.sched, q)
    ensures var s' := Moved(B, s, Move(Work(t, o), e));
            && q in s'.sched.shared.built && q in s'.disk
            && (s'.disk[q].outputInfo.Some? || Rebuilding(s'.sched, q))
  {
    hide *;
    var f, s' := MoveFacts(B, s, t, o, e);
    SetupGraph(B);
    GrownMeans(s.sched.shared, s'.sched.shared, q);
    TopFilesAre(B, s, t);
    MovesOf(B.cfg, t, s.sched.shared, f, o);
    OutputMoves(B, s.disk, f, o, e);
    TopFacts(B, s, f);
    if q == f.package && f.pc.Prepare? {
      PrepareOnly(B, s.sched.shared, f, o);
      PrepareStarts(B.cfg, s.sched, t);
    } else if Rebuilding(s.sched, q) {
      RebuildingStays(B.cfg, s.sched, t, o, q);
    }
  }

  /** The pair (d, q) when the move describes d. */
  lemma NewlyHashed(B: Setup, s: BuildState, t: nat, o: Outcome, e: Effect, d: Package, q: Package)
    requires SetupOk(B) && BuildInv(B, s) && CanMove(B, s, Move(Work(t, o), e))
    requires d in s.disk && s.disk[d].text.None? && HashedBy(B.T, B.W, d, q)
    requires var s' := Moved(B, s, Move(Work(t, o), e)); d in s'.disk && s'.disk[d].text.Some?
    ensures q in s.sched.shared.built && q in s.disk && s.disk[q].outputInfo.Some?
  {
    hide *;
    var f, s' := MoveFacts(B, s, t, o, e);
    SetupGraph(B);
    MovesOf(B.cfg, t, s.sched.shared, f, o);
    OutputMoves(B, s.disk, f, o, e);
    HashesAreThere(B, s.disk, f, e, q);
    DependsAreBuilt(B, s, t);
    DependsIn(B.T, B.W, f.package, q);
  }

  lemma DependsIn(T: Tools, W: World, d: Package, q: Package)
    requires HashedBy(T, W, d, q)
    ensures d in W.own && q in W.own && Def(T, W, q).hashOutput
    ensures exists i :: 0 <= i < |Def(T, W, d).depends| && Def(T, W, d).depends[i].package == q
  {
  }

  lemma PairMeans(B: Setup, s: BuildState, d: Package, q: Package)
    requires OutputsOk(B, s) && d in s.disk && s.disk[d].text.Some? && HashedBy(B.T, B.W, d, q)
    ensures q in s.sched.shared.built && q in s.disk && (s.disk[q].outputInfo.Some? || Rebuilding(s.sched, q))
  {
    hide Rebuilding, HashedBy;
    assert PairOk(B, s, d, q);
  }

  lemma PairFrom(B: Setup, s: BuildState, d: Package, q: Package)
    requires d in s.disk && s.disk[d].text.Some? && HashedBy(B.T, B.W, d, q) ==>
               q in s.sched.shared.built && q in s.disk && (s.disk[q].outputInfo.Some? || Rebuilding(s.sched, q))
    ensures PairOk(B, s, d, q)
  {
    hide Rebuilding, HashedBy;
  }

  lemma WorkKeepsPair(B: Setup, s: BuildState, t: nat, o: Outcome, e: Effect, d: Package, q: Package)
    requires SetupOk(B) && BuildInv(B, s) && CanMove(B, s, Move(Work(t, o), e)) && t < |s.sched.phases|
    requires s.sched.phases[t].Building? && s.sched.phases[t].stack.Frame?
    requires !GivenUp(PhaseThen(s.sched.phases[t].stack, o)) && OutputsOk(B, s)
    ensures PairOk(B, Moved(B, s, Move(Work(t, o), e)), d, q)
  {
    hide *;
    var f, s' := MoveFacts(B, s, t, o, e);
    if d in s'.disk && s'.disk[d].text.Some? && HashedBy(B.T, B.W, d, q) {
      DependsIn(B.T, B.W, d, q);
      assert d in s.disk.Keys;
      if s.disk[d].text.Some? {
        PairMeans(B, s, d, q);
      } else {
        NewlyHashed(B, s, t, o, e, d, q);
      }
      OutputKept(B, s, t, o, e, q);
    }
    PairFrom(B, s', d, q);
  }

  lemma OthersKeepPair(B: Setup, s: BuildState, a: Action, d: Package, q: Package)
    requires May(B.cfg, s.sched, a) && !a.Work? && OutputsOk(B, s)
    ensures PairOk(B, Elsewhere(B, s, a), d, q)
  {
    assert PairOk(B, s, d, q);
    OthersBuildNothing(B.cfg, s.sched, a);
    if Rebuilding(s.sched, q) {
      var t: nat :| RebuiltBy(s.sched, t, q);
      OthersLeaveBuilding(B.cfg, s.sched, a, t);
      assert RebuiltBy(Elsewhere(B, s, a).sched, t, q);
    }
    hide HashedBy, Then, May;
  }

  lemma MoveKeepsOutputs(B: Setup, s: BuildState, m: Move)
    requires SetupOk(B) && BuildInv(B, s) && CanMove(B, s, m) && OutputsOk(B, s) && NothingFailed(Moved(B, s, m).sched)
    ensures OutputsOk(B, Moved(B, s, m))
  {
    hide *;
    var s' := Moved(B, s, m);
    MovedSched(B, s, m);
    forall d, q
      ensures PairOk(B, s', d, q)
    {
      if m.action.Work? {
        var t, o := m.action.t, m.action.o;
        assert m == Move(Work(t, o), m.effect);
        var f, s1 := MoveFacts(B, s, t, o, m.effect);
        NoneGivenUp(s'.sched, t);
        WorkKeepsPair(B, s, t, o, m.effect, d, q);
      } else {
        OthersKeepPair(B, s, m.action, d, q);
      }
    }
    OutputsFrom(B, s');
  }

  lemma OutputsFrom(B: Setup, s: BuildState)
    requires forall d, q :: PairOk(B, s, d, q)
    ensures OutputsOk(B, s)
  {
    hide PairOk;
  }

  lemma StartsWithout(B: Setup, order: seq<Package>, disk: Disk)
    requires DiskOk(B, disk)
    ensures OutputsOk(B, BuildState(Init(order), disk, {}, {}))
  {
    hide Consistent, HashedBy, Rebuilding;
  }

  lemma {:induction false} OutputsAlways(B: Setup, order: seq<Package>, disk: Disk, moves: seq<Move>)
    requires SetupOk(B) && DiskOk(B, disk)
    ensures var s := AfterMoves(B, order, disk, moves);
            s.Some? && NothingFailed(s.value.sched) ==> OutputsOk(B, s.value)
  {
    hide OutputsOk, CanMove, Moved, SetupOk, DiskOk, Listing, NothingFailed;
    if moves == [] {
      StartsWithout(B, order, disk);
    } else {
      var last := |moves| - 1;
      OutputsAlways(B, order, disk, moves[..last]);
      ResultAlways(B, order, disk, moves[..last]);
      var r := AfterMoves(B, order, disk, moves[..last]);
      if r.Some? && CanMove(B, r.value, moves[last]) && NothingFailed(Moved(B, r.value, moves[last]).sched) {
        ResultHas(B, r.value);
        MovedSched(B, r.value, moves[last]);
        FailureStays(B.cfg, r.value.sched, moves[last].action);
        MoveKeepsOutputs(B, r.value, moves[last]);
      }
    }
  }

  // ---------------------------------------------------------------------
  // The result

  lemma IdleIsNotWorking(f: Stack, q: Package)
    requires f.Frame? ==> !Active(f.pc) && f.caller.Bottom?
    ensures !WorkingIn(f, q)
  {
  }

  /** Once the base package is built nobody rebuilds anything. */
  lemma NobodyRebuilds(B: Setup, s: State, q: Package)
    requires Gated(B.cfg, B.W.rank) && Inv(B.cfg, s) && B.cfg.base in s.shared.built
    ensures !Rebuilding(s, q)
  {
    ClosedFlagsOf(B.cfg, s);
    hide Gated, ClosedFlags;
    forall t: nat | t < |s.phases| && s.phases[t].Building?
      ensures !WorkingIn(s.phases[t].stack, q)
    {
      WorkerAt(B.cfg, s, t);
      BaseBuiltMeansAllBuilt(B.cfg, B.W.rank, s.shared, s.workers[t]);
      NotWorkingInside(B.cfg, t, s.workers[t], s.shared, s.phases[t].stack);
      IdleIsNotWorking(s.phases[t].stack, q);
    }
    hide Inv, WorkingIn;
  }

  /** Once the base package is built, every package whose output is hashed for
      another one's description has its .output.info, and unless it is spoiled
      that of a clean build. */
  lemma HashedOutputsAreThere(B: Setup, order: seq<Package>, disk: Disk, moves: seq<Move>, s: BuildState, d: Package,
                              q: Package)
    requires SetupOk(B) && DiskOk(B, disk) && AfterMoves(B, order, disk, moves) == Some(s)
    requires B.cfg.base in s.sched.shared.built && HashedBy(B.T, B.W, d, q)
    ensures WorldOk(B.T, B.W) && q in B.W.own && q in s.disk
    ensures s.disk[q].outputInfo.Some?
    ensures QuietListings(B) || q !in s.spoiled ==> s.disk[q].outputInfo == Some(B.T.listing(CleanOut(B.T, B.W, q)))
  {
    hide *;
    ResultAlways(B, order, disk, moves);
    ResultHas(B, s);
    StoreHas(B, s);
    SetupGraph(B);
    DependsIn(B.T, B.W, d, q);
    BaseBuiltMeansNoFailure(B, s.sched);
    OutputsAlways(B, order, disk, moves);
    ClosedFlagsOf(B.cfg, s.sched);
    assert d in B.cfg.depends.Keys;
    BaseBuiltMeansAllBuilt(B.cfg, B.W.rank, s.sched.shared, d);
    BaseBuiltMeansRight(B, s, d);
    RightHasText(B, s.disk[d], d, d !in s.spoiled);
    PairMeans(B, s, d, q);
    NobodyRebuilds(B, s.sched, q);
    BaseBuiltMeansRight(B, s, q);
    if q !in s.spoiled {
      OutputIsRight(B, s.disk[q], q);
    }
  }

  lemma OutputIsRight(B: Setup, fs: Files, p: Package)
    requires WorldOk(B.T, B.W) && p in B.W.own && OutputInfoRight(B, fs, p) && Def(B.T, B.W, p).hashOutput
    requires fs.outputInfo.Some?
    ensures fs.outputInfo == Some(B.T.listing(CleanOut(B.T, B.W, p)))
  {
    hide WorldOk, CleanOut;
  }
}
