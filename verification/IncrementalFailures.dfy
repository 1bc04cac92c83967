/** What runs that fail, or stop anywhere, leave on disk. */
module IncrementalFailures {
  import opened Packages
  import opened Scheduler
  import opened Worlds
  import opened Incremental
  import opened IncrementalInvariant
  import opened IncrementalResults

  // ---------------------------------------------------------------------
  // The invariant

  /** A .build.info that is there is true, unless its package is exposed or
      spoiled. */
  ghost predicate Kept(B: Setup, s: BuildState, p: Package)
    requires p in s.disk
  {
    p in s.spoiled || p in s.exposed || Consistent(B.T, p, s.disk[p])
  }

  ghost predicate KeptOk(B: Setup, s: BuildState) {
    forall p :: p in s.disk ==> Kept(B, s, p)
  }

  // ---------------------------------------------------------------------
  // The package that moves

  /** Right archives beside the current .build.info are consistent. */
  lemma RightIsConsistent(B: Setup, fs: Files, p: Package)
    requires WorldOk(B.T, B.W) && CutoffsCovered(B.T, B.W) && p in B.W.own
    requires Right(B, fs, p, true) && OutputInfoRight(B, fs, p) && fs.buildInfo == Some(Text(B.T, B.W, p))
    ensures Consistent(B.T, p, fs)
  {
    hide CleanOut, Text, WorldOk, CutoffsCovered;
    assert Describes(B.T, B.W, p, fs);
  }

  lemma CutoffsOf(B: Setup)
    requires SetupOk(B)
    ensures CutoffsCovered(B.T, B.W)
  {
  }

  lemma WithoutInfo(T: Tools, p: Package, fs: Files)
    requires fs.buildInfo.None?
    ensures Consistent(T, p, fs)
  {
  }

  /** Moves that leave what .build.info speaks for alone. */
  predicate SameArchives(fs: Files, fs': Files) {
    && fs'.buildInfo == fs.buildInfo && fs'.outputInfo == fs.outputInfo
    && fs'.staging == fs.staging && fs'.install == fs.install
  }

  lemma QuietFiles(B: Setup, disk: Disk, f: Stack, o: Outcome, e: Effect)
    requires f.Frame? && OnDisk(B, disk, f.package) && DiskMay(B, disk, f, o, e) && f.package in disk
    requires f.pc == Stage || f.pc == Commands || Plain(f.pc)
    ensures SameArchives(disk[f.package], FilesThen(B, disk, f, o, e))
  {
    hide *;
    if Plain(f.pc) {
      PlainMoves(B, disk, f, o, e);
      SameAsBefore(disk[f.package]);
    } else if f.pc == Commands {
      CommandFiles(B, disk, f, o, e);
    } else {
      StageFiles(B, disk, f, o, e);
    }
  }

  lemma SameMeansSame(fs: Files, fs': Files)
    requires SameArchives(fs, fs')
    ensures fs'.buildInfo == fs.buildInfo && fs'.outputInfo == fs.outputInfo
    ensures fs'.staging == fs.staging && fs'.install == fs.install
  {
  }

  lemma SameAsBefore(fs: Files)
    ensures SameArchives(fs, fs)
  {
  }

  lemma CommandFiles(B: Setup, disk: Disk, f: Stack, o: Outcome, e: Effect)
    requires f.Frame? && f.pc == Commands && OnDisk(B, disk, f.package) && DiskMay(B, disk, f, o, e)
    requires f.package in disk
    ensures SameArchives(disk[f.package], FilesThen(B, disk, f, o, e))
  {
    hide WorldOk, Def, Known;
  }

  lemma StageFiles(B: Setup, disk: Disk, f: Stack, o: Outcome, e: Effect)
    requires f.Frame? && f.pc == Stage && OnDisk(B, disk, f.package) && DiskMay(B, disk, f, o, e)
    requires f.package in disk
    ensures SameArchives(disk[f.package], FilesThen(B, disk, f, o, e))
  {
    if o == Goto(Commands) {
      assert ArchivesExist(B, disk, f.package);
      StagedFiles(B, disk, f.package);
    }
    hide WorldOk, ArchivesExist, Known, Def, Staged;
  }

  lemma PreparedFiles(B: Setup, disk: Disk, f: Stack, o: Outcome, e: Effect)
    requires f.Frame? && OnDisk(B, disk, f.package) && DiskMay(B, disk, f, o, e) && f.package in disk
    requires f.pc.Prepare?
    ensures var fs, fs' := disk[f.package], FilesThen(B, disk, f, o, e);
            && (fs'.buildInfo.Some? ==> fs'.buildInfo == fs.buildInfo && fs'.outputInfo == fs.outputInfo)
            && fs'.staging == fs.staging && fs'.install == fs.install
  {
    assert f.package in B.W.extraction.Keys;
    if o == Goto(Decide) && disk[f.package].text.None? {
      var text := Assembled(B.T, B.W, disk, f.package);
    }
    hide WorldOk, HashMissing, Assembled;
  }

  lemma QuietlyExposed(f: Stack, o: Outcome, fs: Files, fs': Files, hashOutput: bool, before: bool)
    requires f.Frame? && (f.pc.Prepare? || f.pc.Stage? || f.pc.Commands? || Plain(f.pc))
    ensures ExposedAfter(f, o, fs, fs', hashOutput, before) == before
  {
  }

  /** Where files are replaced, they were not, or the package is exposed. */
  lemma TornExposes(f: Stack, o: Outcome, fs: Files, fs': Files, hashOutput: bool, before: bool)
    requires f.Frame? && !ExposedAfter(f, o, fs, fs', hashOutput, before)
    requires (f.pc.Decide? && o != Goto(Leave(true))) || f.pc.PackStaging? || f.pc.PackInstall? || f.pc.Truncate?
    ensures !before && (fs' == fs || fs'.buildInfo.None?)
  {
  }

  lemma RecordExposes(f: Stack, o: Outcome, fs: Files, fs': Files, hashOutput: bool, before: bool)
    requires f.Frame? && !ExposedAfter(f, o, fs, fs', hashOutput, before)
    requires f.pc.Record? || f.pc.List?
    ensures if o == Goto(Truncate) then f.pc.Record? ==> !hashOutput || fs'.outputInfo.None?
            else o == Goto(Clear) || !before
  {
  }

  lemma SkippedInfo(B: Setup, p: Package, fs: Files, n: nat)
    requires WorldOk(B.T, B.W) && p in B.W.own && Skips(B, fs, p, n) && FilesOk(B, fs, p, false, Decide, true)
    ensures Skipped(B, fs, p, n).buildInfo == Some(Text(B.T, B.W, p))
  {
    hide WorldOk, Text, CleanOut, Consistent, Downloads, Def, EntryFor;
  }

  lemma InfoIsThere(B: Setup, fs: Files, p: Package, locally: bool, pc: Pc)
    requires WorldOk(B.T, B.W) && p in B.W.own && FilesOk(B, fs, p, locally, pc, true) && InfoInPlace(pc)
    ensures fs.buildInfo == Some(Text(B.T, B.W, p)) && Right(B, fs, p, true)
    ensures Updated(pc) ==> OutputInfoRight(B, fs, p)
  {
    hide WorldOk, Text, CleanOut, Consistent, OutputInfoRight;
  }

  lemma NoOutputInfo(B: Setup, fs: Files, p: Package)
    requires WorldOk(B.T, B.W) && p in B.W.own && (!Def(B.T, B.W, p).hashOutput || fs.outputInfo.None?)
    ensures OutputInfoRight(B, fs, p)
  {
  }

  lemma NextPcs()
    ensures InfoInPlace(Truncate) && InfoInPlace(Clear) && Updated(Clear)
  {
  }

  /** Renaming .build.info.new, or finishing the listing, makes it true, or there
      is an old .output.info left. */
  lemma RecordedIsTrue(B: Setup, s: BuildState, t: nat, f: Stack, o: Outcome, e: Effect, exposed: bool)
    requires SetupOk(B) && f.Frame? && OnDisk(B, s.disk, f.package) && TopFilesOk(B, s, f)
    requires FrameMay(B.cfg, s.sched.shared, f, o) && DiskMay(B, s.disk, f, o, e) && f.package in s.disk
    requires f.pc == Record || f.pc == List
    requires TrustedThen(B, s, f, o, e) && WorldOk(B.T, B.W) && f.package in B.W.own
    requires !ExposedAfter(f, o, s.disk[f.package], FilesThen(B, s.disk, f, o, e), Def(B.T, B.W, f.package).hashOutput,
                exposed)
    requires exposed || Consistent(B.T, f.package, s.disk[f.package])
    ensures Consistent(B.T, f.package, FilesThen(B, s.disk, f, o, e))
  {
    hide *;
    TopFacts(B, s, f);
    MovesOf(B.cfg, t, s.sched.shared, f, o);
    TopFrameKeeps(B, s, t, f, o, e);
    StepMeans(B, s, t, f, o, e);
    RecordMoves(B, s, f, o, e);
    CutoffsOf(B);
    var p, fs, fs' := f.package, s.disk[f.package], FilesThen(B, s.disk, f, o, e);
    var hashOutput := Def(B.T, B.W, p).hashOutput;
    RecordExposes(f, o, fs, fs', hashOutput, exposed);
    NextPcs();
    if o.Goto? {
      InfoIsThere(B, fs', p, f.locally, o.pc);
      if o == Goto(Truncate) {
        NoOutputInfo(B, fs', p);
      }
      RightIsConsistent(B, fs', p);
    }
  }

  /** Skipping is only for a package whose files are right. */
  lemma SkippedIsTrue(B: Setup, s: BuildState, t: nat, f: Stack, e: Effect)
    requires SetupOk(B) && f.Frame? && OnDisk(B, s.disk, f.package) && TopFilesOk(B, s, f) && f.pc.Decide?
    requires FrameMay(B.cfg, s.sched.shared, f, Goto(Leave(true))) && DiskMay(B, s.disk, f, Goto(Leave(true)), e)
    requires f.package in s.disk && f.package !in s.spoiled
    ensures Consistent(B.T, f.package, FilesThen(B, s.disk, f, Goto(Leave(true)), e))
  {
    hide *;
    TopFacts(B, s, f);
    MovesOf(B.cfg, t, s.sched.shared, f, Goto(Leave(true)));
    DecisionIs(B, s.disk, f, Goto(Leave(true)), e);
    DecidePc(f.pc);
    CutoffsOf(B);
    var p, fs := f.package, s.disk[f.package];
    SkippedIsRight(B, p, fs, e.fetched, true);
    SkippedInfo(B, p, fs, e.fetched);
    RightIsConsistent(B, Skipped(B, fs, p, e.fetched), p);
  }

  /** The package of the call that moves. */
  lemma OwnIsKept(B: Setup, s: BuildState, t: nat, f: Stack, o: Outcome, e: Effect, exposed: bool)
    requires SetupOk(B) && f.Frame? && OnDisk(B, s.disk, f.package) && TopFilesOk(B, s, f)
    requires FrameMay(B.cfg, s.sched.shared, f, o) && DiskMay(B, s.disk, f, o, e) && f.package in s.disk
    requires TrustedThen(B, s, f, o, e) && WorldOk(B.T, B.W) && f.package in B.W.own && f.package !in s.spoiled
    requires !ExposedAfter(f, o, s.disk[f.package], FilesThen(B, s.disk, f, o, e), Def(B.T, B.W, f.package).hashOutput,
                exposed)
    requires exposed || Consistent(B.T, f.package, s.disk[f.package])
    ensures Consistent(B.T, f.package, FilesThen(B, s.disk, f, o, e))
  {
    hide *;
    TopFacts(B, s, f);
    MovesOf(B.cfg, t, s.sched.shared, f, o);
    PcKinds(f.pc);
    var p, fs, fs' := f.package, s.disk[f.package], FilesThen(B, s.disk, f, o, e);
    var hashOutput := Def(B.T, B.W, p).hashOutput;
    if f.pc == Record || f.pc == List {
      RecordedIsTrue(B, s, t, f, o, e, exposed);
    } else if f.pc.Decide? && o == Goto(Leave(true)) {
      SkippedIsTrue(B, s, t, f, e);
    } else if f.pc.Decide? || f.pc == PackStaging || f.pc == PackInstall || f.pc == Truncate {
      TornExposes(f, o, fs, fs', hashOutput, exposed);
      if fs' != fs {
        WithoutInfo(B.T, p, fs');
      }
    } else {
      QuietlyExposed(f, o, fs, fs', hashOutput, exposed);
      if f.pc.Prepare? {
        PreparedFiles(B, s.disk, f, o, e);
      } else {
        QuietFiles(B, s.disk, f, o, e);
        SameMeansSame(fs, fs');
      }
      ConsistentStays(B.T, p, fs, fs');
    }
  }

  // ---------------------------------------------------------------------
  // States and runs

  lemma ExposedIs(B: Setup, s: BuildState, t: nat, o: Outcome, e: Effect)
    requires CanMove(B, s, Move(Work(t, o), e)) && t < |s.sched.phases| && s.sched.phases[t].Building?
    requires var f := s.sched.phases[t].stack;
             && f.Frame? && f.package in s.disk && OnDisk(B, s.disk, f.package) && DiskMay(B, s.disk, f, o, e)
             && f.package in B.W.own
    ensures var f := s.sched.phases[t].stack;
            f.package in Moved(B, s, Move(Work(t, o), e)).exposed <==>
              ExposedAfter(f, o, s.disk[f.package], FilesThen(B, s.disk, f, o, e), Def(B.T, B.W, f.package).hashOutput,
                f.package in s.exposed)
  {
    hide OnDisk, DiskMay, FilesThen, Spoils, FrameMay, FrameThen, PhaseThen, ExposedAfter;
  }

  lemma KeptMeans(B: Setup, s: BuildState, p: Package)
    requires KeptOk(B, s) && p in s.disk
    ensures p in s.spoiled || p in s.exposed || Consistent(B.T, p, s.disk[p])
  {
    hide Consistent;
    assert Kept(B, s, p);
  }

  lemma KeptFrom(B: Setup, s: BuildState, p: Package)
    requires p in s.disk && (p in s.spoiled || p in s.exposed || Consistent(B.T, p, s.disk[p]))
    ensures Kept(B, s, p)
  {
    hide Consistent;
  }

  lemma WorkKeepsKept(B: Setup, s: BuildState, t: nat, o: Outcome, e: Effect, p: Package)
    requires SetupOk(B) && BuildInv(B, s) && CanMove(B, s, Move(Work(t, o), e)) && KeptOk(B, s)
    requires p in Moved(B, s, Move(Work(t, o), e)).disk
    ensures Kept(B, Moved(B, s, Move(Work(t, o), e)), p)
  {
    hide *;
    var f, s' := MoveFacts(B, s, t, o, e);
    assert p in s.disk.Keys;
    KeptMeans(B, s, p);
    if p == f.package {
      ExposedIs(B, s, t, o, e);
      TopFilesAre(B, s, t);
      TrustedMeans(B, s, f, o, e);
      if p !in s'.spoiled && p !in s'.exposed {
        OwnIsKept(B, s, t, f, o, e, p in s.exposed);
      }
    }
    KeptFrom(B, s', p);
  }

  lemma KeptFromAll(B: Setup, s: BuildState)
    requires forall p :: p in s.disk ==> Kept(B, s, p)
    ensures KeptOk(B, s)
  {
    hide Kept;
  }

  lemma MoveKeepsKept(B: Setup, s: BuildState, m: Move)
    requires SetupOk(B) && BuildInv(B, s) && CanMove(B, s, m) && KeptOk(B, s)
    ensures KeptOk(B, Moved(B, s, m))
  {
    hide *;
    MovedSched(B, s, m);
    var s' := Moved(B, s, m);
    forall p | p in s'.disk
      ensures Kept(B, s', p)
    {
      if m.action.Work? {
        assert m == Move(Work(m.action.t, m.action.o), m.effect);
        WorkKeepsKept(B, s, m.action.t, m.action.o, m.effect, p);
      } else {
        KeptMeans(B, s, p);
        KeptFrom(B, s', p);
      }
    }
    KeptFromAll(B, s');
  }

  lemma StartIsKept(B: Setup, order: seq<Package>, disk: Disk)
    requires DiskOk(B, disk)
    ensures KeptOk(B, BuildState(Init(order), disk, {}, {}))
  {
    hide Consistent;
  }

  lemma {:induction false} KeptAlways(B: Setup, order: seq<Package>, disk: Disk, moves: seq<Move>)
    requires SetupOk(B) && DiskOk(B, disk)
    ensures var s := AfterMoves(B, order, disk, moves); s.Some? ==> KeptOk(B, s.value)
  {
    hide KeptOk, CanMove, Moved, SetupOk, DiskOk, Listing;
    if moves == [] {
      StartIsKept(B, order, disk);
    } else {
      var last := |moves| - 1;
      KeptAlways(B, order, disk, moves[..last]);
      ResultAlways(B, order, disk, moves[..last]);
      var r := AfterMoves(B, order, disk, moves[..last]);
      if r.Some? && CanMove(B, r.value, moves[last]) {
        ResultHas(B, r.value);
        MoveKeepsKept(B, r.value, moves[last]);
      }
    }
  }

  /** Wherever a run stops, and whatever failed in it, a later run can rely on the
      files of every package that is neither exposed nor spoiled: if there is a
      .build.info it describes the files beside it. */
  lemma StoppedDiskIsTruthful(B: Setup, disk: Disk, s: BuildState, p: Package)
    requires SetupOk(B) && DiskOk(B, disk) && ReachableFrom(B, disk, s) && p in B.W.own
    requires p !in s.exposed && p !in s.spoiled
    ensures p in s.disk && Consistent(B.T, p, s.disk[p])
  {
    hide *;
    var order, moves := RunTo(B, disk, s);
    KeptAlways(B, order, disk, moves);
    ResultAlways(B, order, disk, moves);
    ResultHas(B, s);
    StoreHas(B, s);
    assert p in s.disk.Keys;
    KeptMeans(B, s, p);
  }
}
