/** Whatever is skipped, fetched or rebuilt, in whatever order, a built package's
    archives are those of a build from scratch. */
module IncrementalInvariant {
  import opened Packages
  import opened Closures
  import opened Scheduler
  import opened SchedulerInvariant
  import opened SchedulerSteps
  import opened SchedulerTheorems
  import opened Descriptions
  import opened Worlds
  import opened Merkle
  import opened Incremental

  // ---------------------------------------------------------------------
  // The invariant of one package's files

  /** The file is there, and it is v if its package can be trusted. */
  predicate Has(file: Option<string>, v: string, trusted: bool) {
    file.Some? && (trusted ==> file.value == v)
  }

  /** The description is assembled, and it is that of a clean build of p. */
  ghost predicate TextRight(B: Setup, fs: Files, p: Package, trusted: bool)
    requires WorldOk(B.T, B.W) && p in B.W.own
  {
    && Has(fs.text, Text(B.T, B.W, p), trusted)
    && fs.hash == B.T.digest(fs.text.value)
  }

  /** The archives, hash and description of a clean build of p. */
  ghost predicate Right(B: Setup, fs: Files, p: Package, trusted: bool)
    requires WorldOk(B.T, B.W) && p in B.W.own
  {
    && Has(fs.staging, CleanOut(B.T, B.W, p).staging, trusted)
    && Has(fs.install, CleanOut(B.T, B.W, p).install, trusted)
    && TextRight(B, fs, p, trusted)
    && (fs.buildInfoNew.Some? ==> fs.buildInfoNew == fs.text)
  }

  ghost predicate OutputInfoRight(B: Setup, fs: Files, p: Package)
    requires WorldOk(B.T, B.W) && p in B.W.own
  {
    Def(B.T, B.W, p).hashOutput && fs.outputInfo.Some? ==>
      fs.outputInfo.value == B.T.listing(CleanOut(B.T, B.W, p))
  }

  /** Between prepareBuildInfo and the rename in updateBuildInfo. */
  predicate Working(pc: Pc) {
    pc.Decide? || pc.LocalDeps? || pc.Fetch? || pc.Stage? || pc.Commands?
    || pc.PackStaging? || pc.PackInstall? || pc.Record?
  }

  /** The listing is complete; the flags are not set yet. */
  predicate Updated(pc: Pc) {
    pc.Clear? || pc.MarkBuilt? || pc.MarkWasBuilt?
  }

  /** .build.info.new has been renamed; the flags are not set yet. */
  predicate InfoInPlace(pc: Pc) {
    pc.Truncate? || pc.List? || Updated(pc)
  }

  ghost predicate FilesOk(B: Setup, fs: Files, p: Package, locally: bool, pc: Pc, trusted: bool)
    requires WorldOk(B.T, B.W) && p in B.W.own
  {
    && (Working(pc) ==> TextRight(B, fs, p, trusted) && fs.buildInfoNew == fs.text)
    && (pc.Decide? && !locally && trusted ==> Consistent(B.T, p, fs))
    && (pc.Commands? && trusted ==>
          fs.stagingDir == CleanStaging(B.T, B.W, p) && fs.installDir == CleanInstall(B.T, B.W, p))
    && (Packing(pc) ==> fs.newOut.Some? && (trusted ==> fs.newOut.value == CleanOut(B.T, B.W, p)))
    && (pc.PackInstall? || pc.Record? ==> Has(fs.staging, CleanOut(B.T, B.W, p).staging, trusted))
    && (pc.Record? ==> Has(fs.install, CleanOut(B.T, B.W, p).install, trusted))
    && (InfoInPlace(pc) ==> Right(B, fs, p, trusted) && fs.buildInfo == fs.text)
    && (pc.List? && Def(B.T, B.W, p).hashOutput ==> fs.outputInfo == Some(""))
    && (Updated(pc) && Def(B.T, B.W, p).hashOutput ==> fs.outputInfo.Some?)
    && (Updated(pc) && trusted ==> OutputInfoRight(B, fs, p))
  }

  /** A package is trusted unless it is spoiled. */
  ghost predicate StackFilesOk(B: Setup, disk: Disk, spoiled: set<Package>, f: Stack)
    requires WorldOk(B.T, B.W) && disk.Keys == B.W.own.Keys
  {
    f.Frame? ==>
      && f.package in disk
      && (f.pc != Lock ==> FilesOk(B, disk[f.package], f.package, f.locally, f.pc, f.package !in spoiled))
      && StackFilesOk(B, disk, spoiled, f.caller)
  }

  // ---------------------------------------------------------------------
  // Untouched packages

  /** The position of a thread's outermost call. */
  function OuterPc(f: Stack): Pc
    requires f.Frame?
  {
    if f.caller.Frame? then OuterPc(f.caller) else f.pc
  }

  /** The call has not touched its package's files. */
  predicate Early(pc: Pc) {
    pc.Lock? || pc.Check? || pc.BuildDeps? || pc.Suppress? || pc.Prepare?
  }

  predicate Past(phase: Phase) {
    !(phase.Building? && phase.stack.Frame? && Early(OuterPc(phase.stack)))
  }

  predicate BegunBy(s: State, t: nat, p: Package) {
    t < |s.workers| && t < |s.phases| && s.workers[t] == p && Past(s.phases[t])
  }

  ghost predicate Begun(s: State, p: Package) {
    exists t :: BegunBy(s, t, p)
  }

  /** What holds of the files of a built package. */
  ghost predicate BuiltOk(B: Setup, s: BuildState, p: Package)
    requires WorldOk(B.T, B.W) && s.disk.Keys == B.W.own.Keys
  {
    && p in s.disk
    && Right(B, s.disk[p], p, p !in s.spoiled)
    && (p !in s.spoiled && !BeingListed(s.sched, p) ==> OutputInfoRight(B, s.disk[p], p))
    && (AlwaysBuilt(Def(B.T, B.W, p)) ==> s.sched.shared.cleared[p] > 0)
  }

  ghost predicate StoreOk(B: Setup, s: BuildState)
    requires WorldOk(B.T, B.W)
  {
    && s.disk.Keys == B.W.own.Keys
    && (forall p :: p in s.sched.shared.built ==> BuiltOk(B, s, p))
    && (forall t :: 0 <= t < |s.sched.phases| && s.sched.phases[t].Building? ==>
          StackFilesOk(B, s.disk, s.spoiled, s.sched.phases[t].stack))
    && (forall p :: p in s.disk && p !in s.sched.shared.built && !Begun(s.sched, p) ==>
          Pristine(B.T, p, s.disk[p]))
  }

  ghost predicate BuildInv(B: Setup, s: BuildState)
    requires SetupOk(B)
  {
    Inv(B.cfg, s.sched) && StoreOk(B, s)
  }

  // ---------------------------------------------------------------------
  // One step of one package's files

  /** A truthful .build.info with the current text vouches for the archives. */
  lemma CurrentMeansRight(B: Setup, p: Package, fs: Files)
    requires SetupOk(B) && p in B.W.own && Consistent(B.T, p, fs) && fs.buildInfo == Some(Text(B.T, B.W, p))
    ensures fs.staging.Some? ==> fs.staging.value == CleanOut(B.T, B.W, p).staging
    ensures fs.install.Some? ==> fs.install.value == CleanOut(B.T, B.W, p).install
    ensures OutputInfoRight(B, fs, p)
  {
    hide CleanOut, Text, WorldOk;
    var W0 :| Describes(B.T, W0, p, fs);
    SameTextSameOut(B.T, W0, B.W, p);
    TextDetermines(B.T, W0, B.W, p);
  }

  ghost predicate DependsRight(B: Setup, disk: Disk, p: Package)
    requires SetupOk(B) && OnDisk(B, disk, p)
  {
    forall i :: 0 <= i < |Def(B.T, B.W, p).depends| ==>
      var q := Def(B.T, B.W, p).depends[i].package; Right(B, disk[q], q, true) && OutputInfoRight(B, disk[q], q)
  }

  /** The line for a built dependency is the one its clean build would get. */
  lemma LineIsUnit(B: Setup, disk: Disk, p: Package, i: nat)
    requires SetupOk(B) && OnDisk(B, disk, p) && DependsRight(B, disk, p) && i < |Def(B.T, B.W, p).depends|
    requires LineFor(B.T, B.W, disk, Def(B.T, B.W, p).depends[i].package).text != ""
    ensures LineFor(B.T, B.W, disk, Def(B.T, B.W, p).depends[i].package) == DepUnits(B.T, B.W, p)[i]
  {
    hide CutoffsCovered;
    hide CleanOut, Text, DepUnits;
    DependIn(B.T, B.W, p, i);
    var q := Def(B.T, B.W, p).depends[i].package;
    assert Right(B, disk[q], q, true) && OutputInfoRight(B, disk[q], q);
  }

  /** What prepareBuildInfo assembles over built dependencies is the description. */
  lemma AssembledIsText(B: Setup, disk: Disk, p: Package)
    requires SetupOk(B) && OnDisk(B, disk, p) && !HashMissing(B.T, B.W, disk, p) && DependsRight(B, disk, p)
    ensures Assembled(B.T, B.W, disk, p) == Text(B.T, B.W, p)
  {
    hide CutoffsCovered;
    forall i | 0 <= i < |Def(B.T, B.W, p).depends|
      ensures LinesFor(B.T, B.W, disk, p)[i] == DepUnits(B.T, B.W, p)[i]
    {
      LineIsUnit(B, disk, p, i);
    }
    hide CleanOut, Print, DepUnits, LineFor, LinesFor, Right, SetupOk;
    assert LinesFor(B.T, B.W, disk, p) == DepUnits(B.T, B.W, p);
  }

  /** Only .build.info and the files it speaks for matter to its truth. */
  lemma ConsistentStays(T: Tools, p: Package, fs: Files, fs': Files)
    requires Consistent(T, p, fs)
    requires fs'.buildInfo.Some? ==>
               && fs'.buildInfo == fs.buildInfo
               && (fs'.staging.Some? ==> fs'.staging == fs.staging)
               && (fs'.install.Some? ==> fs'.install == fs.install)
               && (fs'.outputInfo.Some? ==> fs'.outputInfo == fs.outputInfo)
    ensures Consistent(T, p, fs')
  {
    hide WorldOk, CleanOut, Text;
    if fs'.buildInfo.Some? {
      var W0 :| Describes(T, W0, p, fs);
      assert Describes(T, W0, p, fs');
    }
  }

  /** The files of f's package can be trusted after f's move. */
  ghost predicate TrustedThen(B: Setup, s: BuildState, f: Stack, o: Outcome, e: Effect)
    requires f.Frame? && OnDisk(B, s.disk, f.package)
  {
    f.package !in s.spoiled && !Spoils(B, s, f, o, e)
  }

  /** What f's move does to what is known about its package's files. */
  ghost predicate StepOk(B: Setup, s: BuildState, t: nat, f: Stack, o: Outcome, e: Effect)
    requires f.Frame? && OnDisk(B, s.disk, f.package) && DiskMay(B, s.disk, f, o, e)
  {
    var p, fs, trusted := f.package, FilesThen(B, s.disk, f, o, e), TrustedThen(B, s, f, o, e);
    && (o.Goto? ==> FilesOk(B, fs, p, f.locally, o.pc, trusted))
    && (p in FrameThen(B.cfg, t, s.sched.shared, f, o).built ==>
          && Right(B, fs, p, trusted)
          && (trusted && f.pc != Lock && o != Goto(List) ==> OutputInfoRight(B, fs, p)))
  }

  /** What a call knows about its package's files before it moves. */
  ghost predicate TopFilesOk(B: Setup, s: BuildState, f: Stack)
    requires SetupOk(B) && f.Frame? && OnDisk(B, s.disk, f.package)
  {
    var p, trusted := f.package, f.package !in s.spoiled;
    && (f.pc != Lock ==> FilesOk(B, s.disk[p], p, f.locally, f.pc, trusted))
    && (f.pc.Prepare? && !f.locally ==>
          Pristine(B.T, p, s.disk[p]) && (!Misdescribed(B, s, p) ==> DependsRight(B, s.disk, p)))
    && (Active(f.pc) && !f.locally ==> p !in s.sched.shared.built)
    && (p in s.sched.shared.built ==>
          && Right(B, s.disk[p], p, trusted)
          && (trusted && f.pc != Lock && !f.pc.List? ==> OutputInfoRight(B, s.disk[p], p)))
    && (f.locally ==> p in s.sched.shared.built)
    && (f.pc.Stage? ==> ClosureRight(B, s, p))
  }

  // prepareBuildInfo

  lemma AssembledForMe(B: Setup, disk: Disk, p: Package)
    requires SetupOk(B) && OnDisk(B, disk, p) && Pristine(B.T, p, disk[p]) && DependsRight(B, disk, p)
    requires disk[p].text.Some? || !HashMissing(B.T, B.W, disk, p)
    ensures disk[p].text.None? && Assembled(B.T, B.W, disk, p) == Text(B.T, B.W, p)
  {
    AssembledIsText(B, disk, p);
    hide SetupOk, OnDisk, DependsRight, Consistent, HashMissing, Assembled, Text;
  }

  /** The description is assembled, and right if the dependencies can be trusted. */
  lemma FreshlyPrepared(B: Setup, p: Package, fs: Files, clean: bool, text: string, trusted: bool)
    requires WorldOk(B.T, B.W) && p in B.W.own && Pristine(B.T, p, fs) && (trusted ==> text == Text(B.T, B.W, p))
    ensures FilesOk(B, Prepared(B.T, Cleaned(fs, clean), text), p, false, Decide, trusted)
  {
    hide CleanOut, Text, WorldOk, Consistent;
    ConsistentStays(B.T, p, fs, Prepared(B.T, Cleaned(fs, clean), text));
  }

  /** A local rebuild puts the description back. */
  lemma PreparedAgain(B: Setup, p: Package, fs: Files, clean: bool, text: string, trusted: bool)
    requires WorldOk(B.T, B.W) && p in B.W.own && Right(B, fs, p, trusted)
    ensures var fs' := Prepared(B.T, Cleaned(fs, clean), text);
            && FilesOk(B, fs', p, true, Decide, trusted)
            && Right(B, fs', p, trusted)
            && (OutputInfoRight(B, fs, p) ==> OutputInfoRight(B, fs', p))
  {
    hide CleanOut, Text, WorldOk, Consistent;
  }

  // shouldBuild

  /** Skipping because the files are up to date. */
  lemma UpToDateIsRight(B: Setup, p: Package, fs: Files, trusted: bool)
    requires SetupOk(B) && WorldOk(B.T, B.W) && p in B.W.own && UpToDate(fs)
    requires FilesOk(B, fs, p, false, Decide, trusted)
    ensures Right(B, fs, p, trusted) && (trusted ==> OutputInfoRight(B, fs, p))
  {
    hide SetupOk, CleanOut, Text, WorldOk, Consistent;
    if trusted {
      CurrentMeansRight(B, p, fs);
    }
  }

  /** What is fetched under the current hash is what a clean build makes. */
  lemma HonestEntry(B: Setup, p: Package, fs: Files)
    requires SetupOk(B) && p in B.W.own && B.cache.Some?
    requires fs.hash == B.T.digest(Text(B.T, B.W, p)) && (p, fs.hash) in B.cache.value
    ensures EntryIsClean(B.T, B.W, p, B.cache.value[(p, fs.hash)])
  {
    hide CleanOut, Text, EntryIsClean, WorldOk, CutoffsCovered;
  }

  /** Skipping because the build cache had all the files. */
  lemma FetchedIsRight(B: Setup, p: Package, fs: Files, n: nat, trusted: bool)
    requires SetupOk(B) && WorldOk(B.T, B.W) && p in B.W.own && FilesOk(B, fs, p, false, Decide, trusted)
    requires Downloads(B, fs, p, n) && n == FilesToFetch(Def(B.T, B.W, p).hashOutput)
    ensures var fs' := Renamed(Fetched(fs, EntryFor(B, fs, p), n));
            Right(B, fs', p, trusted) && (trusted ==> OutputInfoRight(B, fs', p))
  {
    var e := EntryFor(B, fs, p);
    assert B.cache.Some? && (p, fs.hash) in B.cache.value && e == B.cache.value[(p, fs.hash)] && Available(e, n);
    if trusted {
      HashIsRight(B, p, fs);
      HonestEntry(B, p, fs);
    }
    hide *;
    RestoredIsRight(B, p, fs, e, n, trusted);
  }

  lemma HashIsRight(B: Setup, p: Package, fs: Files)
    requires WorldOk(B.T, B.W) && p in B.W.own && FilesOk(B, fs, p, false, Decide, true)
    ensures fs.hash == B.T.digest(Text(B.T, B.W, p))
  {
    hide CleanOut, Text, WorldOk, Consistent;
  }

  lemma RestoredIsRight(B: Setup, p: Package, fs: Files, e: Entry, n: nat, trusted: bool)
    requires WorldOk(B.T, B.W) && p in B.W.own && FilesOk(B, fs, p, false, Decide, trusted)
    requires Available(e, n) && n == FilesToFetch(Def(B.T, B.W, p).hashOutput)
    requires trusted ==> EntryIsClean(B.T, B.W, p, e)
    ensures var fs' := Renamed(Fetched(fs, e, n));
            Right(B, fs', p, trusted) && (trusted ==> OutputInfoRight(B, fs', p))
  {
    hide CleanOut, Text, WorldOk, Consistent;
  }

  /** A partial restore is not accepted: it leaves the work to be done. */
  lemma TriedKeeps(B: Setup, p: Package, fs: Files, locally: bool, n: nat, trusted: bool)
    requires WorldOk(B.T, B.W) && p in B.W.own && FilesOk(B, fs, p, locally, Decide, trusted)
    ensures FilesOk(B, Tried(B, fs, p, n), p, locally, LocalDeps(0), trusted)
    ensures FilesOk(B, fs, p, locally, LocalDeps(0), trusted)
  {
    hide CleanOut, Text, WorldOk, Consistent;
  }

  /** What Decide's moves mean. */
  lemma DecisionIs(B: Setup, disk: Disk, f: Stack, o: Outcome, e: Effect)
    requires f.Frame? && OnDisk(B, disk, f.package) && f.pc.Decide? && DiskMay(B, disk, f, o, e)
    requires o == Goto(LocalDeps(0)) || (!f.locally && (o == Goto(Leave(true)) || o == Throw))
    ensures var p := f.package;
            && p in B.W.own && p in disk
            && FilesThen(B, disk, f, o, e)
               == (if f.locally then disk[p]
                   else if o == Goto(Leave(true)) then Skipped(B, disk[p], p, e.fetched)
                   else Tried(B, disk[p], p, e.fetched))
            && (o == Goto(Leave(true)) ==> Skips(B, disk[p], p, e.fetched))
  {
    hide WorldOk, Skips, Rebuilds, Skipped, Tried, Known;
    assert f.package in disk.Keys;
  }

  lemma SkippedIsRight(B: Setup, p: Package, fs: Files, n: nat, trusted: bool)
    requires SetupOk(B) && WorldOk(B.T, B.W) && p in B.W.own
    requires FilesOk(B, fs, p, false, Decide, trusted) && Skips(B, fs, p, n)
    ensures Right(B, Skipped(B, fs, p, n), p, trusted)
    ensures trusted ==> OutputInfoRight(B, Skipped(B, fs, p, n), p)
  {
    if UpToDate(fs) {
      UpToDateIsRight(B, p, fs, trusted);
    } else {
      FetchedIsRight(B, p, fs, n, trusted);
    }
    hide SetupOk, WorldOk, FilesOk, Right, Downloads, UpToDate, Def, Fetched, OutputInfoRight;
  }

  // prepareBuildDirs and extractInstallDepends

  /** Built packages have archives, and the clean ones if they can be trusted. */
  ghost predicate ClosureRight(B: Setup, s: BuildState, p: Package)
    requires SetupOk(B) && OnDisk(B, s.disk, p)
  {
    && (forall q :: q in StagingSet(B.T, B.W, p) ==> Right(B, s.disk[q], q, q !in s.spoiled))
    && (forall q :: q in InstallSet(B.T, B.W, p) ==> Right(B, s.disk[q], q, q !in s.spoiled))
  }

  lemma RightArchives(B: Setup, s: BuildState, p: Package)
    requires SetupOk(B) && OnDisk(B, s.disk, p) && ClosureRight(B, s, p)
    ensures p in s.disk && WorldOk(B.T, B.W) && p in B.W.own && ArchivesExist(B, s.disk, p)
    ensures !ClosureSpoiled(B, s.spoiled, p) ==>
              forall q :: q in StagingSet(B.T, B.W, p) ==>
                q in s.disk && q in B.W.own && s.disk[q].staging == Some(CleanOut(B.T, B.W, q).staging)
    ensures !ClosureSpoiled(B, s.spoiled, p) ==>
              forall q :: q in InstallSet(B.T, B.W, p) ==>
                q in s.disk && q in B.W.own && s.disk[q].install == Some(CleanOut(B.T, B.W, q).install)
  {
    hide CleanOut, Text, SetupOk, Closure;
    assert p in s.disk.Keys;
  }

  lemma StagedFrom(B: Setup, disk: Disk, p: Package)
    requires WorldOk(B.T, B.W) && p in disk && p in B.W.own
    requires forall q :: q in StagingSet(B.T, B.W, p) ==>
               q in disk && q in B.W.own && disk[q].staging == Some(CleanOut(B.T, B.W, q).staging)
    requires forall q :: q in InstallSet(B.T, B.W, p) ==>
               q in disk && q in B.W.own && disk[q].install == Some(CleanOut(B.T, B.W, q).install)
    ensures ArchivesExist(B, disk, p)
    ensures Staged(B, disk, p).stagingDir == CleanStaging(B.T, B.W, p)
    ensures Staged(B, disk, p).installDir == CleanInstall(B.T, B.W, p)
  {
    hide CleanOut, StagingSet, InstallSet, WorldOk;
  }

  /** Every archive to be extracted exists, and is the clean one unless a failure
      has spoiled it. */
  lemma StagedIsClean(B: Setup, s: BuildState, p: Package)
    requires SetupOk(B) && OnDisk(B, s.disk, p) && ClosureRight(B, s, p)
    ensures p in s.disk && WorldOk(B.T, B.W) && p in B.W.own && ArchivesExist(B, s.disk, p)
    ensures !ClosureSpoiled(B, s.spoiled, p) ==>
              && Staged(B, s.disk, p).stagingDir == CleanStaging(B.T, B.W, p)
              && Staged(B, s.disk, p).installDir == CleanInstall(B.T, B.W, p)
  {
    hide *;
    RightArchives(B, s, p);
    if !ClosureSpoiled(B, s.spoiled, p) {
      StagedFrom(B, s.disk, p);
    }
  }

  lemma StagedFiles(B: Setup, disk: Disk, p: Package)
    requires WorldOk(B.T, B.W) && p in B.W.own && p in disk && ArchivesExist(B, disk, p)
    ensures Staged(B, disk, p) ==
              disk[p].(stagingDir := Staged(B, disk, p).stagingDir, installDir := Staged(B, disk, p).installDir)
  {
    hide WorldOk, StagingSet, InstallSet, ArchivesExist;
  }

  lemma StageKeeps(B: Setup, p: Package, fs: Files, fs': Files, locally: bool, before: bool, trusted: bool)
    requires WorldOk(B.T, B.W) && p in B.W.own && FilesOk(B, fs, p, locally, Stage, before) && (trusted ==> before)
    requires fs' == fs.(stagingDir := fs'.stagingDir, installDir := fs'.installDir)
    requires trusted ==> fs'.stagingDir == CleanStaging(B.T, B.W, p) && fs'.installDir == CleanInstall(B.T, B.W, p)
    ensures FilesOk(B, fs', p, locally, Commands, trusted)
    ensures Right(B, fs, p, before) ==> Right(B, fs', p, trusted)
    ensures OutputInfoRight(B, fs, p) ==> OutputInfoRight(B, fs', p)
  {
    hide CleanOut, Text, WorldOk, CleanStaging, CleanInstall, Consistent;
  }

  // The commands, packing and updateBuildInfo

  lemma CommandsKeep(B: Setup, p: Package, fs: Files, locally: bool, trusted: bool)
    requires WorldOk(B.T, B.W) && p in B.W.own && p in B.W.extraction
    requires FilesOk(B, fs, p, locally, Commands, trusted)
    ensures var out := B.T.run(p, B.W.own[p], B.W.extraction[p], fs.stagingDir, fs.installDir);
            && FilesOk(B, fs.(newOut := Some(out)), p, locally, PackStaging, trusted)
            && (Right(B, fs, p, trusted) ==> Right(B, fs.(newOut := Some(out)), p, trusted))
  {
    hide Text, WorldOk, CleanStaging, CleanInstall, Consistent;
  }

  /** An archive is complete, or a failure spoils the package. */
  lemma PackingKeeps(B: Setup, p: Package, fs: Files, locally: bool, left: Option<string>, before: bool, trusted: bool)
    requires WorldOk(B.T, B.W) && p in B.W.own && (trusted ==> before)
    ensures FilesOk(B, fs, p, locally, PackStaging, before) ==>
              var fs' := fs.(staging := Some(fs.newOut.value.staging));
              && FilesOk(B, fs', p, locally, PackInstall, trusted)
              && (Right(B, fs, p, before) ==> Right(B, fs', p, trusted))
    ensures FilesOk(B, fs, p, locally, PackInstall, before) ==>
              var fs' := fs.(install := Some(fs.newOut.value.install));
              && FilesOk(B, fs', p, locally, Record, trusted)
              && (Right(B, fs, p, before) ==> Right(B, fs', p, trusted))
    ensures (trusted ==> left.None?) && Right(B, fs, p, before) ==>
              && Right(B, fs.(staging := Spilt(fs.staging, left)), p, trusted)
              && Right(B, fs.(install := Spilt(fs.install, left)), p, trusted)
  {
    hide CleanOut, Text, WorldOk, CleanStaging, CleanInstall, Consistent;
  }

  /** The rename puts the description beside the archives it is about. */
  lemma RenameKeeps(B: Setup, p: Package, fs: Files, locally: bool, trusted: bool)
    requires WorldOk(B.T, B.W) && p in B.W.own && FilesOk(B, fs, p, locally, Record, trusted)
    ensures FilesOk(B, Renamed(fs), p, locally, Truncate, trusted) && Right(B, Renamed(fs), p, trusted)
  {
    hide CleanOut, Text, WorldOk, CleanStaging, CleanInstall, Consistent;
  }

  /** While it is listed nothing is said about .output.info; then it is right. */
  lemma ListingKeeps(B: Setup, p: Package, fs: Files, locally: bool, trusted: bool)
    requires WorldOk(B.T, B.W) && p in B.W.own
    ensures FilesOk(B, fs, p, locally, Truncate, trusted) ==>
              var fs' := Emptied(fs, Def(B.T, B.W, p).hashOutput);
              FilesOk(B, fs', p, locally, List, trusted) && Right(B, fs', p, trusted)
    ensures FilesOk(B, fs, p, locally, List, trusted) ==>
              var fs' := Listed(B.T, fs, Def(B.T, B.W, p).hashOutput);
              && FilesOk(B, fs', p, locally, Clear, trusted) && Right(B, fs', p, trusted)
              && (trusted ==> OutputInfoRight(B, fs', p))
  {
    hide CleanOut, Text, WorldOk, CleanStaging, CleanInstall, Consistent;
  }

  lemma ListingFails(B: Setup, p: Package, fs: Files, locally: bool, left: Option<string>, before: bool, trusted: bool)
    requires WorldOk(B.T, B.W) && p in B.W.own && FilesOk(B, fs, p, locally, List, before) && (trusted ==> before)
    requires trusted ==> !Def(B.T, B.W, p).hashOutput
    ensures var fs' := if Def(B.T, B.W, p).hashOutput then fs.(outputInfo := Spilt(fs.outputInfo, left)) else fs;
            Right(B, fs', p, trusted) && (trusted ==> OutputInfoRight(B, fs', p))
  {
    hide CleanOut, Text, WorldOk, CleanStaging, CleanInstall, Consistent;
  }

  // ---------------------------------------------------------------------
  // What the scheduler guarantees to the innermost call

  lemma SetupFacts(B: Setup, p: Package)
    requires SetupOk(B) && p in B.W.own
    ensures p in B.cfg.depends && DependsOn(B.cfg.depends, p) == Def(B.T, B.W, p).depends
    ensures Targets(B.cfg.depends) == GraphOf(B.T, B.W)
    ensures Complete(B.cfg.depends) && B.cfg.depends.Keys == B.W.own.Keys
  {
    hide CutoffsCovered;
  }

  /** What a package reaches is built once its dependencies are. */
  lemma ClosureIsBuilt(cfg: Config, sh: Shared, cut: set<Package>, p: Package, q: Package)
    requires ClosedFlags(cfg, sh) && DepsBuilt(cfg.depends, sh.built, p) && CutReaches(Targets(cfg.depends), cut, p, q)
    ensures q in sh.built
  {
    var path :| CutPath(Targets(cfg.depends), cut, path) && path[0] == p && path[|path| - 1] == q;
    CutPathIsPath(Targets(cfg.depends), cut, path);
    PathIsBuilt(cfg, sh, path);
  }

  lemma NotBegunYet(cfg: Config, s: State, t: nat)
    requires Inv(cfg, s) && t < |s.phases| && s.phases[t].Building?
    requires var f := s.phases[t].stack; f.Frame? && f.pc.Prepare? && !f.locally
    ensures var p := s.phases[t].stack.package; p !in s.shared.built && !Begun(s, p)
    ensures t < |s.workers| && s.workers[t] == s.phases[t].stack.package && s.shared.cleared[s.workers[t]] == 0
  {
    var f := s.phases[t].stack;
    var p := f.package;
    WorkerAt(cfg, s, t);
    if Begun(s, p) {
      var u: nat :| BegunBy(s, u, p);
      if u != t {
        OnlyWorker(s.workers, s.shared, u, t);
      }
    }
  }

  /** A package whose own first build is still early has untouched files. */
  lemma EarlyIsPristine(B: Setup, s: BuildState, t: nat)
    requires SetupOk(B) && BuildInv(B, s) && t < |s.sched.phases| && s.sched.phases[t].Building?
    requires var f := s.sched.phases[t].stack; f.Frame? && f.pc.Prepare? && !f.locally && f.package in s.disk
    ensures var p := s.sched.phases[t].stack.package; Pristine(B.T, p, s.disk[p])
  {
    hide SetupOk, Inv, BuiltOk, StackFilesOk, Pristine, Begun;
    NotBegunYet(B.cfg, s.sched, t);
  }

  lemma DependsAreBuilt(B: Setup, s: BuildState, t: nat)
    requires SetupOk(B) && Inv(B.cfg, s.sched) && t < |s.sched.phases| && s.sched.phases[t].Building?
    ensures var f := s.sched.phases[t].stack;
            && f.Frame? && f.package in B.W.own && DepsBuilt(B.cfg.depends, s.sched.shared.built, f.package)
            && (f.locally ==> f.package in s.sched.shared.built)
            && ClosedFlags(B.cfg, s.sched.shared)
    ensures var p := s.sched.phases[t].stack.package;
            forall i :: 0 <= i < |Def(B.T, B.W, p).depends| ==>
              Def(B.T, B.W, p).depends[i].package in s.sched.shared.built
  {
    WorkerAt(B.cfg, s.sched, t);
    var p := s.sched.phases[t].stack.package;
    hide CutoffsCovered, ToolsOk;
    assert p in B.W.own.Keys;
    SetupFacts(B, p);
    hide SetupOk, Inv;
    forall i | 0 <= i < |Def(B.T, B.W, p).depends|
      ensures Def(B.T, B.W, p).depends[i].package in s.sched.shared.built
    {
      assert DependsOn(B.cfg.depends, p)[i].package in s.sched.shared.built;
    }
  }

  lemma BuiltIsRight(B: Setup, s: BuildState, p: Package)
    requires SetupOk(B) && BuildInv(B, s) && p in s.sched.shared.built
    ensures WorldOk(B.T, B.W) && s.disk.Keys == B.W.own.Keys && p in s.disk && p in B.W.own
    ensures Right(B, s.disk[p], p, p !in s.spoiled) && BuiltOk(B, s, p)
    ensures p !in s.spoiled && !BeingListed(s.sched, p) ==> OutputInfoRight(B, s.disk[p], p)
  {
    assert WorldOk(B.T, B.W);
    hide SetupOk, Inv, WorldOk, Right, OutputInfoRight, BeingListed, StackFilesOk, Pristine, Begun;
  }

  lemma StagedAreBuilt(B: Setup, sh: Shared, p: Package)
    requires SetupOk(B) && p in B.W.own && DepsBuilt(B.cfg.depends, sh.built, p) && ClosedFlags(B.cfg, sh)
    ensures forall q :: q in StagingSet(B.T, B.W, p) + InstallSet(B.T, B.W, p) ==> q in sh.built
  {
    SetupFacts(B, p);
    hide SetupOk, ClosedFlags, DepsBuilt, WorldOk;
    forall q | q in StagingSet(B.T, B.W, p) + InstallSet(B.T, B.W, p)
      ensures q in sh.built
    {
      if q in StagingSet(B.T, B.W, p) {
        ClosureIsBuilt(B.cfg, sh, StagingCut(B.T, B.W), p, q);
      } else {
        ClosureIsBuilt(B.cfg, sh, InstallCut(B.T, B.W, Def(B.T, B.W, p).directOnly), p, q);
      }
    }
  }

  lemma ClosureIsRight(B: Setup, s: BuildState, p: Package)
    requires SetupOk(B) && BuildInv(B, s) && p in B.W.own && OnDisk(B, s.disk, p)
    requires DepsBuilt(B.cfg.depends, s.sched.shared.built, p) && ClosedFlags(B.cfg, s.sched.shared)
    ensures ClosureRight(B, s, p)
  {
    hide *;
    StoreHas(B, s);
    StagedAreBuilt(B, s.sched.shared, p);
    forall q | q in StagingSet(B.T, B.W, p) + InstallSet(B.T, B.W, p)
      ensures q in s.disk && q in B.W.own && Right(B, s.disk[q], q, q !in s.spoiled)
    {
      BuiltIsRight(B, s, q);
    }
    ClosureRightFrom(B, s, p);
  }

  lemma ClosureRightFrom(B: Setup, s: BuildState, p: Package)
    requires SetupOk(B) && WorldOk(B.T, B.W) && p in B.W.own && OnDisk(B, s.disk, p)
    requires forall q :: q in StagingSet(B.T, B.W, p) + InstallSet(B.T, B.W, p) ==>
               q in s.disk && q in B.W.own && Right(B, s.disk[q], q, q !in s.spoiled)
    ensures ClosureRight(B, s, p)
  {
    hide SetupOk, WorldOk, OnDisk, Right, StagingSet, InstallSet;
  }

  lemma Lister(s: State, q: Package) returns (u: nat)
    requires BeingListed(s, q)
    ensures ListedBy(s, u, q)
  {
    u :| ListedBy(s, u, q);
  }

  lemma ListedMeans(s: State, u: nat, q: Package)
    requires ListedBy(s, u, q)
    ensures u < |s.phases| && s.phases[u].Building? && s.phases[u].stack.Frame?
    ensures s.phases[u].stack.package == q && s.phases[u].stack.pc == List
  {
  }

  /** A call past its mutex that is not listing its output: nobody is. */
  lemma NotListedHere(cfg: Config, s: State, t: nat)
    requires Inv(cfg, s) && t < |s.phases| && s.phases[t].Building? && s.phases[t].stack.Frame?
    requires s.phases[t].stack.pc != Lock && !s.phases[t].stack.pc.List?
    ensures !BeingListed(s, s.phases[t].stack.package)
  {
    hide Inv;
    var p := s.phases[t].stack.package;
    if BeingListed(s, p) {
      var u := Lister(s, p);
      NotTwoHolders(cfg, s, t, u, p);
    }
  }

  lemma KnownDepends(B: Setup, disk: Disk, p: Package)
    requires WorldOk(B.T, B.W) && p in B.W.own && disk.Keys == B.W.own.Keys
    ensures OnDisk(B, disk, p)
  {
    forall i | 0 <= i < |Def(B.T, B.W, p).depends|
      ensures Def(B.T, B.W, p).depends[i].package in B.W.own.Keys
    {
      DependIn(B.T, B.W, p, i);
    }
  }

  /** What describes a package is right. */
  lemma DependIsRight(B: Setup, s: BuildState, t: nat, i: nat)
    requires SetupOk(B) && BuildInv(B, s) && t < |s.sched.phases| && s.sched.phases[t].Building?
    requires var f := s.sched.phases[t].stack;
             && f.Frame? && f.package in B.W.own
             && i < |Def(B.T, B.W, f.package).depends| && !Misdescribed(B, s, f.package)
    ensures var q := Def(B.T, B.W, s.sched.phases[t].stack.package).depends[i].package;
            && WorldOk(B.T, B.W) && q in B.W.own && q in s.disk
            && Right(B, s.disk[q], q, true) && OutputInfoRight(B, s.disk[q], q)
  {
    hide *;
    StoreHas(B, s);
    DependsAreBuilt(B, s, t);
    var p := s.sched.phases[t].stack.package;
    var q := Def(B.T, B.W, p).depends[i].package;
    BuiltIsRight(B, s, q);
    NoneSpoiled(B, s, p, i);
    if Def(B.T, B.W, q).hashOutput {
      NoneListed(B, s, p, i);
    } else {
      NothingListed(B, s.disk[q], q);
    }
  }

  lemma NoneSpoiled(B: Setup, s: BuildState, p: Package, i: nat)
    requires p in B.W.own && !Misdescribed(B, s, p) && i < |Def(B.T, B.W, p).depends|
    ensures Def(B.T, B.W, p).depends[i].package !in s.spoiled
  {
  }

  lemma NoneListed(B: Setup, s: BuildState, p: Package, i: nat)
    requires p in B.W.own && !Misdescribed(B, s, p) && i < |Def(B.T, B.W, p).depends|
    requires var q := Def(B.T, B.W, p).depends[i].package; q in B.W.own && Def(B.T, B.W, q).hashOutput
    ensures !BeingListed(s.sched, Def(B.T, B.W, p).depends[i].package)
  {
    hide BeingListed;
    assert HashedBy(B.T, B.W, p, Def(B.T, B.W, p).depends[i].package);
  }

  lemma NothingListed(B: Setup, fs: Files, p: Package)
    requires WorldOk(B.T, B.W) && p in B.W.own && !Def(B.T, B.W, p).hashOutput
    ensures OutputInfoRight(B, fs, p)
  {
  }

  lemma DependsRightFrom(B: Setup, disk: Disk, p: Package)
    requires SetupOk(B) && OnDisk(B, disk, p)
    requires forall i :: 0 <= i < |Def(B.T, B.W, p).depends| ==>
               var q := Def(B.T, B.W, p).depends[i].package;
               q in B.W.own && q in disk && Right(B, disk[q], q, true) && OutputInfoRight(B, disk[q], q)
    ensures DependsRight(B, disk, p)
  {
    hide SetupOk, OnDisk, Right, OutputInfoRight;
  }

  lemma DescribersAreRight(B: Setup, s: BuildState, t: nat)
    requires SetupOk(B) && BuildInv(B, s) && t < |s.sched.phases| && s.sched.phases[t].Building?
    requires var f := s.sched.phases[t].stack;
             && f.Frame? && OnDisk(B, s.disk, f.package)
             && f.package in B.W.own && !Misdescribed(B, s, f.package)
    ensures DependsRight(B, s.disk, s.sched.phases[t].stack.package)
  {
    hide *;
    StoreHas(B, s);
    var p := s.sched.phases[t].stack.package;
    forall i: nat | i < |Def(B.T, B.W, p).depends|
      ensures var q := Def(B.T, B.W, p).depends[i].package;
              q in B.W.own && q in s.disk && Right(B, s.disk[q], q, true) && OutputInfoRight(B, s.disk[q], q)
    {
      DependIsRight(B, s, t, i);
    }
    DependsRightFrom(B, s.disk, p);
  }

  lemma OwnFrame(cfg: Config, s: State, t: nat)
    requires Inv(cfg, s) && t < |s.phases| && s.phases[t].Building?
    ensures var f := s.phases[t].stack; f.Frame? && (Active(f.pc) && !f.locally ==> f.package !in s.shared.built)
  {
    WorkerAt(cfg, s, t);
  }

  lemma StackTop(B: Setup, disk: Disk, spoiled: set<Package>, f: Stack)
    requires WorldOk(B.T, B.W) && disk.Keys == B.W.own.Keys && f.Frame? && StackFilesOk(B, disk, spoiled, f)
    ensures f.package in disk && f.package in B.W.own
    ensures f.pc != Lock ==> FilesOk(B, disk[f.package], f.package, f.locally, f.pc, f.package !in spoiled)
  {
    hide FilesOk, WorldOk;
    assert f.package in disk.Keys;
  }

  lemma TopFilesFrom(B: Setup, s: BuildState, f: Stack)
    requires SetupOk(B) && f.Frame? && OnDisk(B, s.disk, f.package) && WorldOk(B.T, B.W)
    requires f.package in s.disk && f.package in B.W.own
    requires f.pc != Lock ==> FilesOk(B, s.disk[f.package], f.package, f.locally, f.pc, f.package !in s.spoiled)
    requires f.pc.Prepare? && !f.locally ==> Pristine(B.T, f.package, s.disk[f.package])
    requires f.pc.Prepare? && !f.locally && !Misdescribed(B, s, f.package) ==>
               DependsRight(B, s.disk, f.package)
    requires Active(f.pc) && !f.locally ==> f.package !in s.sched.shared.built
    requires f.package in s.sched.shared.built ==> Right(B, s.disk[f.package], f.package, f.package !in s.spoiled)
    requires f.package in s.sched.shared.built && f.package !in s.spoiled && f.pc != Lock && !f.pc.List? ==>
               OutputInfoRight(B, s.disk[f.package], f.package)
    requires f.locally ==> f.package in s.sched.shared.built
    requires ClosureRight(B, s, f.package)
    ensures TopFilesOk(B, s, f)
  {
    hide SetupOk, WorldOk, OnDisk, FilesOk, Right, OutputInfoRight, Pristine, DependsRight, ClosureRight, Misdescribed;
    hide Active;
  }

  lemma TopFilesAre(B: Setup, s: BuildState, t: nat)
    requires SetupOk(B) && BuildInv(B, s) && t < |s.sched.phases| && s.sched.phases[t].Building?
    ensures var f := s.sched.phases[t].stack; f.Frame? && OnDisk(B, s.disk, f.package) && TopFilesOk(B, s, f)
    ensures Inv(B.cfg, s.sched)
  {
    hide *;
    StoreHas(B, s);
    OwnStackWas(B, s, t);
    OwnFrame(B.cfg, s.sched, t);
    DependsAreBuilt(B, s, t);
    var f := s.sched.phases[t].stack;
    KnownDepends(B, s.disk, f.package);
    StackTop(B, s.disk, s.spoiled, f);
    ClosureIsRight(B, s, f.package);
    if f.pc.Prepare? && !f.locally {
      EarlyIsPristine(B, s, t);
      if !Misdescribed(B, s, f.package) {
        DescribersAreRight(B, s, t);
      }
    }
    if f.package in s.sched.shared.built {
      BuiltIsRight(B, s, f.package);
      if f.pc != Lock && !f.pc.List? {
        NotListedHere(B.cfg, s.sched, t);
      }
    }
    TopFilesFrom(B, s, f);
  }

  lemma SetupGraph(B: Setup)
    requires SetupOk(B)
    ensures Complete(B.cfg.depends) && B.cfg.depends.Keys == B.W.own.Keys
    ensures WorldOk(B.T, B.W) && Gated(B.cfg, B.W.rank)
    ensures B.cfg.suppressed == {} && !B.cfg.fetchOnly
  {
    hide CutoffsCovered;
  }

  lemma StoreHas(B: Setup, s: BuildState)
    requires SetupOk(B) && BuildInv(B, s)
    ensures WorldOk(B.T, B.W) && s.disk.Keys == B.W.own.Keys
    ensures Inv(B.cfg, s.sched) && |s.sched.workers| == |s.sched.phases|
  {
    hide BuiltOk, StackFilesOk, Pristine, Begun, WorldOk, CutoffsCovered, ToolsOk;
  }

  lemma OwnStackWas(B: Setup, s: BuildState, t: nat)
    requires SetupOk(B) && BuildInv(B, s) && t < |s.sched.phases| && s.sched.phases[t].Building?
    ensures WorldOk(B.T, B.W) && s.disk.Keys == B.W.own.Keys
    ensures StackFilesOk(B, s.disk, s.spoiled, s.sched.phases[t].stack)
  {
    StoreHas(B, s);
    hide SetupOk, Inv, BuiltOk, Pristine, Begun;
  }

  /** The package of a call past its mutex is not locked on another thread. */
  lemma NotTwoHolders(cfg: Config, s: State, t: nat, u: nat, q: Package)
    requires Inv(cfg, s) && t < |s.phases| && u < |s.phases| && t != u && s.phases[t].Building? && s.phases[u].Building?
    requires s.phases[t].stack.Frame? && s.phases[t].stack.pc != Lock && s.phases[t].stack.package == q
    ensures !HasLocked(s.phases[u].stack, q)
  {
    WorkerAt(cfg, s, t);
    WorkerAt(cfg, s, u);
    hide Inv;
    assert Holds(s.shared, t, q);
    if HasLocked(s.phases[u].stack, q) {
      HeldByOwner(cfg, u, s.workers[u], s.shared, s.phases[u].stack, q);
    }
  }

  // ---------------------------------------------------------------------
  // One step of the package that moves

  /** Where the innermost call can go, and what it marks built. */
  lemma MovesOf(cfg: Config, t: nat, sh: Shared, f: Stack, o: Outcome)
    requires f.Frame? && FrameMay(cfg, sh, f, o) && cfg.suppressed == {} && !cfg.fetchOnly
    ensures f.pc.Decide? || f.pc.MarkBuilt? || FrameThen(cfg, t, sh, f, o).built == sh.built
    ensures f.pc.Decide? ==>
              && (o == Goto(LocalDeps(0)) || (!f.locally && (o == Goto(Leave(true)) || o == Throw)))
              && FrameThen(cfg, t, sh, f, o).built == sh.built + if o == Goto(Leave(true)) then {f.package} else {}
    ensures f.pc.Prepare? ==> o == Goto(Decide) || o == Throw
    ensures f.pc.Stage? ==> o == Goto(Commands) || Fails(o)
    ensures f.pc.Commands? ==> o == Goto(PackStaging) || Fails(o)
    ensures f.pc.PackStaging? ==> o == Goto(PackInstall) || Fails(o)
    ensures f.pc.PackInstall? ==> o == Goto(Record) || Fails(o)
    ensures f.pc.Record? ==> o == Goto(Truncate) || o == Throw
    ensures f.pc.Truncate? ==> o == Goto(List) || o == Throw
    ensures f.pc.List? ==> o == Goto(Clear) || o == Throw
    ensures f.pc.MarkBuilt? ==> FrameThen(cfg, t, sh, f, o).built == sh.built + {f.package}
  {
  }

  /** Setup, disk and files of a call about to move. */
  lemma TopFacts(B: Setup, s: BuildState, f: Stack)
    requires SetupOk(B) && f.Frame? && OnDisk(B, s.disk, f.package) && TopFilesOk(B, s, f)
    ensures !B.cfg.fetchOnly && B.cfg.suppressed == {}
    ensures WorldOk(B.T, B.W) && f.package in B.W.own && f.package in s.disk
    ensures f.pc != Lock ==> FilesOk(B, s.disk[f.package], f.package, f.locally, f.pc, f.package !in s.spoiled)
    ensures f.package in s.sched.shared.built ==>
              Right(B, s.disk[f.package], f.package, f.package !in s.spoiled)
    ensures f.package in s.sched.shared.built && f.package !in s.spoiled && f.pc != Lock && !f.pc.List? ==>
              OutputInfoRight(B, s.disk[f.package], f.package)
    ensures f.pc.Decide? && f.package in s.sched.shared.built ==> f.locally
  {
    hide *;
    PlainSetup(B, s.disk, f.package);
    TopParts(B, s, f);
  }

  lemma TopParts(B: Setup, s: BuildState, f: Stack)
    requires SetupOk(B) && f.Frame? && OnDisk(B, s.disk, f.package) && TopFilesOk(B, s, f)
    requires WorldOk(B.T, B.W) && f.package in B.W.own && f.package in s.disk
    ensures f.pc != Lock ==> FilesOk(B, s.disk[f.package], f.package, f.locally, f.pc, f.package !in s.spoiled)
    ensures f.package in s.sched.shared.built ==>
              Right(B, s.disk[f.package], f.package, f.package !in s.spoiled)
    ensures f.package in s.sched.shared.built && f.package !in s.spoiled && f.pc != Lock && !f.pc.List? ==>
              OutputInfoRight(B, s.disk[f.package], f.package)
    ensures f.pc.Decide? && f.package in s.sched.shared.built ==> f.locally
  {
    hide FilesOk, Right, OutputInfoRight, Pristine, DependsRight, ClosureRight, Misdescribed, SetupOk, OnDisk, WorldOk;
  }

  lemma PlainSetup(B: Setup, disk: Disk, p: Package)
    requires SetupOk(B) && OnDisk(B, disk, p)
    ensures !B.cfg.fetchOnly && B.cfg.suppressed == {}
    ensures WorldOk(B.T, B.W) && p in B.W.own && p in disk
  {
    hide CutoffsCovered;
    assert p in disk.Keys;
  }

  lemma PrepareFacts(B: Setup, s: BuildState, f: Stack)
    requires SetupOk(B) && f.Frame? && OnDisk(B, s.disk, f.package) && TopFilesOk(B, s, f) && f.pc.Prepare?
    requires f.package in s.disk
    ensures f.locally <==> f.package in s.sched.shared.built
    ensures !f.locally ==> Pristine(B.T, f.package, s.disk[f.package])
    ensures !f.locally && !Misdescribed(B, s, f.package) ==> DependsRight(B, s.disk, f.package)
  {
    hide FilesOk, Right, OutputInfoRight, Pristine, DependsRight, ClosureRight, Misdescribed, SetupOk, OnDisk;
  }

  lemma PrepareMoves(B: Setup, s: BuildState, f: Stack, e: Effect)
    requires f.Frame? && OnDisk(B, s.disk, f.package) && f.pc.Prepare? && f.package in s.disk
    requires DiskMay(B, s.disk, f, Goto(Decide), e)
    ensures f.package in B.W.extraction && Known(B.T, B.W, s.disk, f.package)
    ensures var p, fs := f.package, s.disk[f.package];
            && (fs.text.Some? || !HashMissing(B.T, B.W, s.disk, p))
            && FilesThen(B, s.disk, f, Goto(Decide), e)
               == Prepared(B.T, Cleaned(fs, Def(B.T, B.W, p).clean), Assembled(B.T, B.W, s.disk, p))
            && TrustedThen(B, s, f, Goto(Decide), e)
               == (p !in s.spoiled && !(fs.text.None? && Misdescribed(B, s, p)))
  {
    assert f.package in B.W.extraction.Keys;
    hide WorldOk, HashMissing, Assembled, Misdescribed, Prepared, Cleaned;
  }

  lemma PrepareStep(B: Setup, s: BuildState, t: nat, f: Stack, e: Effect)
    requires SetupOk(B) && f.Frame? && OnDisk(B, s.disk, f.package) && TopFilesOk(B, s, f) && f.pc.Prepare?
    requires FrameMay(B.cfg, s.sched.shared, f, Goto(Decide)) && DiskMay(B, s.disk, f, Goto(Decide), e)
    ensures StepOk(B, s, t, f, Goto(Decide), e)
  {
    hide *;
    TopFacts(B, s, f);
    PrepareFacts(B, s, f);
    PrepareMoves(B, s, f, e);
    MovesOf(B.cfg, t, s.sched.shared, f, Goto(Decide));
    var p, fs := f.package, s.disk[f.package];
    var clean, text := Def(B.T, B.W, p).clean, Assembled(B.T, B.W, s.disk, p);
    var trusted := TrustedThen(B, s, f, Goto(Decide), e);
    if f.locally {
      RightHasText(B, fs, p, p !in s.spoiled);
      PreparedAgain(B, p, fs, clean, text, trusted);
      PreparePc(f.pc);
    } else {
      PristineHasNoText(B.T, p, fs);
      if trusted {
        AssembledForMe(B, s.disk, p);
      }
      FreshlyPrepared(B, p, fs, clean, text, trusted);
    }
    StepFrom(B, s, t, f, Goto(Decide), e);
  }

  lemma RightHasText(B: Setup, fs: Files, p: Package, trusted: bool)
    requires WorldOk(B.T, B.W) && p in B.W.own && Right(B, fs, p, trusted)
    ensures fs.text.Some?
  {
    hide WorldOk, CleanOut, Text;
  }

  lemma PristineHasNoText(T: Tools, p: Package, fs: Files)
    requires Pristine(T, p, fs)
    ensures fs.text.None? && Consistent(T, p, fs)
  {
    hide Consistent;
  }

  lemma PreparePc(pc: Pc)
    ensures pc.Prepare? ==> pc != Lock && !pc.List?
  {
  }

  lemma StepFrom(B: Setup, s: BuildState, t: nat, f: Stack, o: Outcome, e: Effect)
    requires f.Frame? && OnDisk(B, s.disk, f.package) && DiskMay(B, s.disk, f, o, e)
    requires WorldOk(B.T, B.W) && f.package in B.W.own
    requires o.Goto? ==>
               FilesOk(B, FilesThen(B, s.disk, f, o, e), f.package, f.locally, o.pc, TrustedThen(B, s, f, o, e))
    requires f.package in FrameThen(B.cfg, t, s.sched.shared, f, o).built ==>
               Right(B, FilesThen(B, s.disk, f, o, e), f.package, TrustedThen(B, s, f, o, e))
    requires f.package in FrameThen(B.cfg, t, s.sched.shared, f, o).built && TrustedThen(B, s, f, o, e)
             && f.pc != Lock && o != Goto(List) ==>
               OutputInfoRight(B, FilesThen(B, s.disk, f, o, e), f.package)
    ensures StepOk(B, s, t, f, o, e)
  {
    hide WorldOk, FilesOk, Right, OutputInfoRight, OnDisk, DiskMay, FilesThen, FrameThen, TrustedThen;
  }

  lemma StaysTrusted(B: Setup, s: BuildState, f: Stack, o: Outcome, e: Effect)
    requires f.Frame? && OnDisk(B, s.disk, f.package)
    requires f.pc.Decide? || f.pc.Commands? || f.pc.Record? || f.pc.Truncate? || Plain(f.pc)
    ensures TrustedThen(B, s, f, o, e) == (f.package !in s.spoiled)
  {
  }

  lemma DecideStep(B: Setup, s: BuildState, t: nat, f: Stack, o: Outcome, e: Effect)
    requires SetupOk(B) && f.Frame? && OnDisk(B, s.disk, f.package) && TopFilesOk(B, s, f) && f.pc.Decide?
    requires FrameMay(B.cfg, s.sched.shared, f, o) && DiskMay(B, s.disk, f, o, e)
    ensures StepOk(B, s, t, f, o, e)
  {
    hide *;
    TopFacts(B, s, f);
    MovesOf(B.cfg, t, s.sched.shared, f, o);
    DecisionIs(B, s.disk, f, o, e);
    StaysTrusted(B, s, f, o, e);
    DecidePc(f.pc);
    var p, fs := f.package, s.disk[f.package];
    TriedKeeps(B, p, fs, f.locally, e.fetched, p !in s.spoiled);
    if o == Goto(Leave(true)) {
      SkippedIsRight(B, p, fs, e.fetched, p !in s.spoiled);
      NothingToSay(B, FilesThen(B, s.disk, f, o, e), p, f.locally, Leave(true), p !in s.spoiled);
    }
    StepFrom(B, s, t, f, o, e);
  }

  lemma DecidePc(pc: Pc)
    ensures pc.Decide? ==> pc != Lock && !pc.List? && Working(pc)
  {
  }

  lemma NothingToSay(B: Setup, fs: Files, p: Package, locally: bool, pc: Pc, trusted: bool)
    requires WorldOk(B.T, B.W) && p in B.W.own && pc.Leave?
    ensures FilesOk(B, fs, p, locally, pc, trusted)
  {
  }

  /** Positions from which a call does not touch its package's files. */
  predicate Plain(pc: Pc) {
    !(pc.Prepare? || pc.Decide? || pc.Stage? || pc.Commands? || Packing(pc))
  }

  lemma PlainMoves(B: Setup, disk: Disk, f: Stack, o: Outcome, e: Effect)
    requires f.Frame? && OnDisk(B, disk, f.package) && DiskMay(B, disk, f, o, e) && f.package in disk && Plain(f.pc)
    ensures FilesThen(B, disk, f, o, e) == disk[f.package]
  {
  }

  lemma PlainPc(cfg: Config, sh: Shared, f: Stack, pc: Pc)
    requires f.Frame? && FrameMay(cfg, sh, f, Goto(pc)) && Plain(f.pc) && cfg.suppressed == {} && !cfg.fetchOnly
    ensures !pc.Decide? && !pc.Commands? && !Packing(pc) && !pc.List?
    ensures Working(pc) ==> Working(f.pc)
    ensures Updated(pc) ==> Updated(f.pc)
    ensures InfoInPlace(pc) ==> Updated(pc)
  {
  }

  lemma PlainKeeps(B: Setup, fs: Files, p: Package, locally: bool, from: Pc, to: Pc, trusted: bool)
    requires WorldOk(B.T, B.W) && p in B.W.own
    requires from != Lock ==> FilesOk(B, fs, p, locally, from, trusted)
    requires !to.Decide? && !to.Commands? && !Packing(to)
    requires Working(to) ==> Working(from)
    requires InfoInPlace(to) ==> Updated(to) && Updated(from)
    ensures FilesOk(B, fs, p, locally, to, trusted)
  {
    hide WorldOk, Text, CleanOut, Consistent, Right, CleanStaging, CleanInstall;
  }

  lemma PlainStep(B: Setup, s: BuildState, t: nat, f: Stack, o: Outcome, e: Effect)
    requires SetupOk(B) && f.Frame? && OnDisk(B, s.disk, f.package) && TopFilesOk(B, s, f) && Plain(f.pc)
    requires FrameMay(B.cfg, s.sched.shared, f, o) && DiskMay(B, s.disk, f, o, e)
    ensures StepOk(B, s, t, f, o, e)
  {
    hide *;
    TopFacts(B, s, f);
    MovesOf(B.cfg, t, s.sched.shared, f, o);
    PlainMoves(B, s.disk, f, o, e);
    StaysTrusted(B, s, f, o, e);
    NotPlain(f.pc);
    if o.Goto? {
      PlainPc(B.cfg, s.sched.shared, f, o.pc);
      PlainKeeps(B, s.disk[f.package], f.package, f.locally, f.pc, o.pc, f.package !in s.spoiled);
    }
    if f.pc.MarkBuilt? {
      MarkedIsRight(B, s.disk[f.package], f.package, f.locally, f.package !in s.spoiled);
    }
    StepFrom(B, s, t, f, o, e);
  }

  lemma NotPlain(pc: Pc)
    requires Plain(pc)
    ensures !pc.List? && !pc.Decide?
  {
  }

  lemma MarkedIsRight(B: Setup, fs: Files, p: Package, locally: bool, trusted: bool)
    requires WorldOk(B.T, B.W) && p in B.W.own && FilesOk(B, fs, p, locally, MarkBuilt, trusted)
    ensures Right(B, fs, p, trusted) && (trusted ==> OutputInfoRight(B, fs, p))
  {
    hide WorldOk, Text, CleanOut, Consistent, Right;
  }

  lemma StageMoves(B: Setup, s: BuildState, f: Stack, e: Effect)
    requires f.Frame? && OnDisk(B, s.disk, f.package) && f.pc.Stage? && f.package in s.disk
    requires DiskMay(B, s.disk, f, Goto(Commands), e)
    ensures ArchivesExist(B, s.disk, f.package)
    ensures FilesThen(B, s.disk, f, Goto(Commands), e) == Staged(B, s.disk, f.package)
    ensures TrustedThen(B, s, f, Goto(Commands), e)
            == (f.package !in s.spoiled && !ClosureSpoiled(B, s.spoiled, f.package))
  {
    hide WorldOk, ArchivesExist, Staged, ClosureSpoiled;
  }

  lemma ClosureOf(B: Setup, s: BuildState, f: Stack)
    requires SetupOk(B) && f.Frame? && OnDisk(B, s.disk, f.package) && TopFilesOk(B, s, f) && f.pc.Stage?
    ensures ClosureRight(B, s, f.package)
  {
    hide FilesOk, Right, OutputInfoRight, Pristine, DependsRight, ClosureRight, Misdescribed, SetupOk, OnDisk;
  }

  lemma StageStep(B: Setup, s: BuildState, t: nat, f: Stack, e: Effect)
    requires SetupOk(B) && f.Frame? && OnDisk(B, s.disk, f.package) && TopFilesOk(B, s, f) && f.pc == Stage
    requires FrameMay(B.cfg, s.sched.shared, f, Goto(Commands)) && DiskMay(B, s.disk, f, Goto(Commands), e)
    ensures StepOk(B, s, t, f, Goto(Commands), e)
  {
    hide *;
    TopFacts(B, s, f);
    MovesOf(B.cfg, t, s.sched.shared, f, Goto(Commands));
    StageMoves(B, s, f, e);
    ClosureOf(B, s, f);
    StagedIsClean(B, s, f.package);
    StagedFiles(B, s.disk, f.package);
    var trusted := TrustedThen(B, s, f, Goto(Commands), e);
    var fs, fs' := s.disk[f.package], Staged(B, s.disk, f.package);
    StageKeeps(B, f.package, fs, fs', f.locally, f.package !in s.spoiled, trusted);
    StepFrom(B, s, t, f, Goto(Commands), e);
  }

  lemma CommandsMove(B: Setup, disk: Disk, f: Stack, e: Effect)
    requires f.Frame? && OnDisk(B, disk, f.package) && f.pc == Commands && f.package in disk
    ensures DiskMay(B, disk, f, Goto(PackStaging), e) && f.package in B.W.extraction
    ensures var p, fs := f.package, disk[f.package];
            FilesThen(B, disk, f, Goto(PackStaging), e)
            == fs.(newOut := Some(B.T.run(p, B.W.own[p], B.W.extraction[p], fs.stagingDir, fs.installDir)))
  {
    assert f.package in B.W.extraction.Keys;
  }

  lemma OutputInfoOf(B: Setup, fs: Files, fs': Files, p: Package)
    requires WorldOk(B.T, B.W) && p in B.W.own && OutputInfoRight(B, fs, p) && fs'.outputInfo == fs.outputInfo
    ensures OutputInfoRight(B, fs', p)
  {
    hide WorldOk, CleanOut;
  }

  lemma CommandsStep(B: Setup, s: BuildState, t: nat, f: Stack, e: Effect)
    requires SetupOk(B) && f.Frame? && OnDisk(B, s.disk, f.package) && TopFilesOk(B, s, f) && f.pc == Commands
    requires FrameMay(B.cfg, s.sched.shared, f, Goto(PackStaging)) && DiskMay(B, s.disk, f, Goto(PackStaging), e)
    ensures StepOk(B, s, t, f, Goto(PackStaging), e)
  {
    hide *;
    TopFacts(B, s, f);
    MovesOf(B.cfg, t, s.sched.shared, f, Goto(PackStaging));
    CommandsMove(B, s.disk, f, e);
    StaysTrusted(B, s, f, Goto(PackStaging), e);
    var p, fs, fs' := f.package, s.disk[f.package], FilesThen(B, s.disk, f, Goto(PackStaging), e);
    CommandsKeep(B, p, fs, f.locally, p !in s.spoiled);
    if OutputInfoRight(B, fs, p) {
      OutputInfoOf(B, fs, fs', p);
    }
    StepFrom(B, s, t, f, Goto(PackStaging), e);
  }

  /** Both archives, and the failures that leave them damaged. */
  lemma PackingMoves(B: Setup, s: BuildState, f: Stack, o: Outcome, e: Effect)
    requires f.Frame? && OnDisk(B, s.disk, f.package) && f.package in s.disk && DiskMay(B, s.disk, f, o, e)
    requires if f.pc.PackStaging? then o == Goto(PackInstall) || Fails(o)
             else f.pc.PackInstall? && (o == Goto(Record) || Fails(o))
    ensures var fs := s.disk[f.package];
            FilesThen(B, s.disk, f, o, e) ==
              if f.pc.PackStaging? then
                fs.(staging := if Fails(o) then Spilt(fs.staging, e.left) else Some(fs.newOut.value.staging))
              else
                fs.(install := if Fails(o) then Spilt(fs.install, e.left) else Some(fs.newOut.value.install))
    ensures TrustedThen(B, s, f, o, e) ==> f.package !in s.spoiled && (Fails(o) ==> e.left.None?)
    ensures o.Goto? && Fails(o) ==> o.pc == Leave(false)
  {
    hide WorldOk;
  }

  lemma PackingStep(B: Setup, s: BuildState, t: nat, f: Stack, o: Outcome, e: Effect)
    requires SetupOk(B) && f.Frame? && OnDisk(B, s.disk, f.package) && TopFilesOk(B, s, f)
    requires f.pc == PackStaging || f.pc == PackInstall
    requires FrameMay(B.cfg, s.sched.shared, f, o) && DiskMay(B, s.disk, f, o, e)
    ensures StepOk(B, s, t, f, o, e)
  {
    hide *;
    TopFacts(B, s, f);
    MovesOf(B.cfg, t, s.sched.shared, f, o);
    PackingMoves(B, s, f, o, e);
    var p, fs, fs' := f.package, s.disk[f.package], FilesThen(B, s.disk, f, o, e);
    var trusted := TrustedThen(B, s, f, o, e);
    PackingKeeps(B, p, fs, f.locally, e.left, p !in s.spoiled, trusted);
    if o == Goto(Leave(false)) {
      NothingToSay(B, fs', p, f.locally, Leave(false), trusted);
    }
    if OutputInfoRight(B, fs, p) {
      OutputInfoOf(B, fs, fs', p);
    }
    StepFrom(B, s, t, f, o, e);
  }

  lemma RecordMoves(B: Setup, s: BuildState, f: Stack, o: Outcome, e: Effect)
    requires f.Frame? && OnDisk(B, s.disk, f.package) && f.package in s.disk && DiskMay(B, s.disk, f, o, e)
    requires if f.pc.Record? then o == Goto(Truncate) || o == Throw
             else if f.pc.Truncate? then o == Goto(List) || o == Throw
             else f.pc.List? && (o == Goto(Clear) || o == Throw)
    ensures var fs, hashOutput := s.disk[f.package], Def(B.T, B.W, f.package).hashOutput;
            && FilesThen(B, s.disk, f, o, e) ==
                 (if f.pc.Record? then if o == Goto(Truncate) then Renamed(fs) else fs
                  else if f.pc.Truncate? then if o == Goto(List) then Emptied(fs, hashOutput) else fs
                  else if o == Goto(Clear) then Listed(B.T, fs, hashOutput)
                  else if hashOutput then fs.(outputInfo := Spilt(fs.outputInfo, e.left)) else fs)
            && TrustedThen(B, s, f, o, e) == (f.package !in s.spoiled && !(f.pc.List? && o == Throw && hashOutput))
    ensures f.pc.Record? ==> o == Goto(Truncate) ==> s.disk[f.package].buildInfoNew.Some?
  {
    hide WorldOk, Renamed, Emptied, Listed, Spilt;
  }

  lemma RecordStep(B: Setup, s: BuildState, t: nat, f: Stack, o: Outcome, e: Effect)
    requires SetupOk(B) && f.Frame? && OnDisk(B, s.disk, f.package) && TopFilesOk(B, s, f)
    requires f.pc == Record || f.pc == Truncate || f.pc == List
    requires FrameMay(B.cfg, s.sched.shared, f, o) && DiskMay(B, s.disk, f, o, e)
    ensures StepOk(B, s, t, f, o, e)
  {
    hide *;
    TopFacts(B, s, f);
    MovesOf(B.cfg, t, s.sched.shared, f, o);
    RecordMoves(B, s, f, o, e);
    var p, fs, fs' := f.package, s.disk[f.package], FilesThen(B, s.disk, f, o, e);
    var before, trusted := p !in s.spoiled, TrustedThen(B, s, f, o, e);
    if f.pc.Record? {
      if o == Goto(Truncate) {
        RenameKeeps(B, p, fs, f.locally, before);
        RenamedOutput(fs);
      }
    } else if o == Goto(List) || o == Goto(Clear) {
      ListingKeeps(B, p, fs, f.locally, before);
    } else if f.pc.List? {
      ListingFails(B, p, fs, f.locally, e.left, before, trusted);
    }
    if OutputInfoRight(B, fs, p) && fs'.outputInfo == fs.outputInfo {
      OutputInfoOf(B, fs, fs', p);
    }
    StepFrom(B, s, t, f, o, e);
  }

  lemma RenamedOutput(fs: Files)
    ensures Renamed(fs).outputInfo == fs.outputInfo
  {
  }

  /** prepareBuildInfo throws, or extraction or the commands fail. */
  lemma EarlyFailure(B: Setup, s: BuildState, f: Stack, o: Outcome, e: Effect)
    requires f.Frame? && OnDisk(B, s.disk, f.package) && f.package in s.disk && DiskMay(B, s.disk, f, o, e)
    requires (f.pc.Prepare? && o == Throw) || ((f.pc.Stage? || f.pc.Commands?) && Fails(o))
    ensures FilesThen(B, s.disk, f, o, e)
            == Cleaned(s.disk[f.package], f.pc.Prepare? && Def(B.T, B.W, f.package).clean)
    ensures TrustedThen(B, s, f, o, e) == (f.package !in s.spoiled)
    ensures o.Goto? ==> o.pc == Leave(false)
  {
    hide WorldOk;
  }

  lemma CleanedKeeps(B: Setup, fs: Files, p: Package, clean: bool, trusted: bool)
    requires WorldOk(B.T, B.W) && p in B.W.own
    ensures Right(B, fs, p, trusted) ==> Right(B, Cleaned(fs, clean), p, trusted)
    ensures OutputInfoRight(B, fs, p) ==> OutputInfoRight(B, Cleaned(fs, clean), p)
  {
    hide WorldOk, Text, CleanOut;
  }

  lemma EarlyFailureStep(B: Setup, s: BuildState, t: nat, f: Stack, o: Outcome, e: Effect)
    requires SetupOk(B) && f.Frame? && OnDisk(B, s.disk, f.package) && TopFilesOk(B, s, f)
    requires (f.pc == Prepare && o == Throw) || ((f.pc == Stage || f.pc == Commands) && Fails(o))
    requires FrameMay(B.cfg, s.sched.shared, f, o) && DiskMay(B, s.disk, f, o, e)
    ensures StepOk(B, s, t, f, o, e)
  {
    hide *;
    TopFacts(B, s, f);
    MovesOf(B.cfg, t, s.sched.shared, f, o);
    EarlyFailure(B, s, f, o, e);
    var p, fs := f.package, s.disk[f.package];
    CleanedKeeps(B, fs, p, f.pc.Prepare? && Def(B.T, B.W, p).clean, p !in s.spoiled);
    if o == Goto(Leave(false)) {
      NothingToSay(B, FilesThen(B, s.disk, f, o, e), p, f.locally, Leave(false), p !in s.spoiled);
    }
    StepFrom(B, s, t, f, o, e);
  }

  lemma PcKinds(pc: Pc)
    ensures Plain(pc) || pc == Prepare || pc == Decide || pc == Stage || pc == Commands || pc == PackStaging
            || pc == PackInstall || pc == Record || pc == Truncate || pc == List
  {
  }

  /** The files of the package that moves, whatever the move. */
  lemma TopFrameKeeps(B: Setup, s: BuildState, t: nat, f: Stack, o: Outcome, e: Effect)
    requires SetupOk(B) && f.Frame? && OnDisk(B, s.disk, f.package) && TopFilesOk(B, s, f)
    requires FrameMay(B.cfg, s.sched.shared, f, o) && DiskMay(B, s.disk, f, o, e)
    ensures StepOk(B, s, t, f, o, e)
  {
    hide *;
    PlainSetup(B, s.disk, f.package);
    MovesOf(B.cfg, t, s.sched.shared, f, o);
    PcKinds(f.pc);
    if Plain(f.pc) {
      PlainStep(B, s, t, f, o, e);
    } else if f.pc == Decide {
      DecideStep(B, s, t, f, o, e);
    } else if f.pc == PackStaging || f.pc == PackInstall {
      PackingStep(B, s, t, f, o, e);
    } else if f.pc == Record || f.pc == Truncate || f.pc == List {
      RecordStep(B, s, t, f, o, e);
    } else if o == Goto(Decide) && f.pc == Prepare {
      PrepareStep(B, s, t, f, e);
    } else if o == Goto(Commands) && f.pc == Stage {
      StageStep(B, s, t, f, e);
    } else if o == Goto(PackStaging) && f.pc == Commands {
      CommandsStep(B, s, t, f, e);
    } else {
      EarlyFailureStep(B, s, t, f, o, e);
    }
  }

  // ---------------------------------------------------------------------
  // One step of the whole disk

  /** A call whose mutex is held sees its files only change by its own hand. */
  lemma {:induction false} StackFilesStable(B: Setup, s: BuildState, s': BuildState, f: Stack)
    requires WorldOk(B.T, B.W) && s.disk.Keys == B.W.own.Keys == s'.disk.Keys && StackFilesOk(B, s.disk, s.spoiled, f)
    requires forall q :: HasLocked(f, q) && q in s.disk ==> SameFiles(s, s', q)
    ensures StackFilesOk(B, s'.disk, s'.spoiled, f)
  {
    hide FilesOk, WorldOk;
    if f.Frame? {
      if f.pc != Lock {
        assert HasLocked(f, f.package);
      }
      forall q | HasLocked(f.caller, q) && q in s.disk
        ensures SameFiles(s, s', q)
      {
        assert HasLocked(f, q);
      }
      StackFilesStable(B, s, s', f.caller);
    }
  }

  /** q's files are the same, and trusted as before. */
  predicate SameFiles(s: BuildState, s': BuildState, q: Package)
    requires q in s.disk && s.disk.Keys == s'.disk.Keys
  {
    assert q in s'.disk.Keys;
    s'.disk[q] == s.disk[q] && (q in s'.spoiled <==> q in s.spoiled)
  }

  lemma ResumeFiles(B: Setup, fs: Files, p: Package, locally: bool, pc: Pc, ok: bool, trusted: bool)
    requires WorldOk(B.T, B.W) && p in B.W.own && FilesOk(B, fs, p, locally, pc, trusted)
    ensures FilesOk(B, fs, p, locally, Resume(pc, ok), trusted)
  {
    hide CleanOut, Text, WorldOk, Right, Consistent;
  }

  /** The call stack of the thread that moves, given its innermost call's files. */
  lemma StackFilesMove(B: Setup, s: BuildState, s': BuildState, f: Stack, o: Outcome)
    requires WorldOk(B.T, B.W) && s.disk.Keys == B.W.own.Keys == s'.disk.Keys
    requires f.Frame? && StackFilesOk(B, s.disk, s.spoiled, f) && f.package in s.disk && f.package in B.W.own
    requires forall q :: q in s.disk && q != f.package ==> SameFiles(s, s', q)
    requires o.Goto? ==>
               FilesOk(B, s'.disk[f.package], f.package, f.locally, o.pc, f.package !in s'.spoiled)
    requires f.pc == Lock || o.Call? || o.Return? ==> SameFiles(s, s', f.package)
    requires f.pc != Lock ==> !HasLocked(f.caller, f.package)
    requires f.caller.Frame? ==> f.caller.pc != Lock
    requires o.Call? ==> o.package in s.disk && f.pc != Lock
    ensures PhaseThen(f, o).Building? ==> StackFilesOk(B, s'.disk, s'.spoiled, PhaseThen(f, o).stack)
  {
    hide FilesOk, WorldOk;
    forall q | HasLocked(f.caller, q) && q in s.disk
      ensures SameFiles(s, s', q)
    {
      assert q == f.package ==> f.pc == Lock;
    }
    StackFilesStable(B, s, s', f.caller);
    if o.Return? && f.caller.Frame? {
      ResumeFiles(B, s'.disk[f.caller.package], f.caller.package, f.caller.locally, f.caller.pc, o.ok,
        f.caller.package !in s'.spoiled);
    }
  }

  lemma StackFacts(cfg: Config, s: State, t: nat, o: Outcome)
    requires Inv(cfg, s) && Complete(cfg.depends) && May(cfg, s, Work(t, o))
    ensures var f := s.phases[t].stack;
            && (f.pc != Lock ==> !HasLocked(f.caller, f.package))
            && (f.caller.Frame? ==> f.caller.pc != Lock)
            && (o.Call? ==> o.package in cfg.depends && f.pc != Lock)
  {
    WorkerAt(cfg, s, t);
    hide Inv;
    StackIs(cfg, t, s.workers[t], s.shared, s.phases[t].stack, o);
  }

  lemma StackIs(cfg: Config, t: nat, w: Package, sh: Shared, f: Stack, o: Outcome)
    requires StackOk(cfg, t, w, sh, f) && Complete(cfg.depends) && FrameMay(cfg, sh, f, o)
    ensures f.pc != Lock ==> !HasLocked(f.caller, f.package)
    ensures f.caller.Frame? ==> f.caller.pc != Lock
    ensures o.Call? ==> o.package in cfg.depends && f.pc != Lock
  {
  }

  /** Waiting, calling and returning do nothing to files. */
  lemma QuietMoves(B: Setup, s: BuildState, f: Stack, o: Outcome, e: Effect)
    requires f.Frame? && OnDisk(B, s.disk, f.package) && FrameMay(B.cfg, s.sched.shared, f, o)
    requires DiskMay(B, s.disk, f, o, e) && f.package in s.disk
    requires f.pc == Lock || o.Call? || o.Return?
    ensures FilesThen(B, s.disk, f, o, e) == s.disk[f.package] && !Spoils(B, s, f, o, e)
  {
  }

  lemma CanMoveMeans(B: Setup, s: BuildState, t: nat, o: Outcome, e: Effect)
    requires CanMove(B, s, Move(Work(t, o), e))
    ensures May(B.cfg, s.sched, Work(t, o)) && t < |s.sched.phases| && s.sched.phases[t].Building?
    ensures var f := s.sched.phases[t].stack;
            && f.Frame? && OnDisk(B, s.disk, f.package) && FrameMay(B.cfg, s.sched.shared, f, o)
            && DiskMay(B, s.disk, f, o, e)
  {
    hide OnDisk, FrameMay, DiskMay;
  }

  lemma MovedIs(B: Setup, s: BuildState, t: nat, o: Outcome, e: Effect)
    requires CanMove(B, s, Move(Work(t, o), e)) && t < |s.sched.phases| && s.sched.phases[t].Building?
    requires var f := s.sched.phases[t].stack;
             && f.Frame? && OnDisk(B, s.disk, f.package) && f.package in s.disk && DiskMay(B, s.disk, f, o, e)
    requires May(B.cfg, s.sched, Work(t, o))
    ensures var f, s' := s.sched.phases[t].stack, Moved(B, s, Move(Work(t, o), e));
            && s'.sched == Then(B.cfg, s.sched, Work(t, o))
            && s'.disk == s.disk[f.package := FilesThen(B, s.disk, f, o, e)]
            && (f.package !in s'.spoiled <==> TrustedThen(B, s, f, o, e))
            && (forall q :: q != f.package ==>
                  (q in s'.spoiled <==> q in s.spoiled) && (q in s'.exposed <==> q in s.exposed))
    ensures var f := s.sched.phases[t].stack;
            && Then(B.cfg, s.sched, Work(t, o)).phases == s.sched.phases[t := PhaseThen(f, o)]
            && Then(B.cfg, s.sched, Work(t, o)).shared == FrameThen(B.cfg, t, s.sched.shared, f, o)
            && Then(B.cfg, s.sched, Work(t, o)).workers == s.sched.workers
  {
    hide OnDisk, DiskMay, FilesThen, Spoils, FrameMay, FrameThen, PhaseThen, ExposedAfter;
  }

  /** Everything about a move inside Package::build that the lemmas below use. */
  lemma MoveFacts(B: Setup, s: BuildState, t: nat, o: Outcome, e: Effect) returns (f: Stack, s': BuildState)
    requires SetupOk(B) && BuildInv(B, s) && CanMove(B, s, Move(Work(t, o), e))
    ensures May(B.cfg, s.sched, Work(t, o)) && t < |s.sched.phases| && s.sched.phases[t].Building?
    ensures f == s.sched.phases[t].stack && s' == Moved(B, s, Move(Work(t, o), e))
    ensures f.Frame? && OnDisk(B, s.disk, f.package) && f.package in s.disk && f.package in B.W.own
    ensures FrameMay(B.cfg, s.sched.shared, f, o) && DiskMay(B, s.disk, f, o, e)
    ensures Inv(B.cfg, s.sched) && |s.sched.workers| == |s.sched.phases|
    ensures WorldOk(B.T, B.W) && B.cfg.depends.Keys == B.W.own.Keys == s.disk.Keys == s'.disk.Keys
    ensures s'.sched == Then(B.cfg, s.sched, Work(t, o))
    ensures s'.sched.phases == s.sched.phases[t := PhaseThen(f, o)] && s'.sched.workers == s.sched.workers
    ensures s'.sched.shared == FrameThen(B.cfg, t, s.sched.shared, f, o)
    ensures s'.disk == s.disk[f.package := FilesThen(B, s.disk, f, o, e)]
    ensures f.package !in s'.spoiled <==> TrustedThen(B, s, f, o, e)
    ensures forall q :: q != f.package ==>
              (q in s'.spoiled <==> q in s.spoiled) && (q in s'.exposed <==> q in s.exposed)
    ensures forall q :: q in s.disk && q != f.package ==> SameFiles(s, s', q)
    ensures f.pc == Lock || o.Call? || o.Return? ==> SameFiles(s, s', f.package) && s'.disk == s.disk
    ensures Grown(s.sched.shared, s'.sched.shared)
  {
    hide *;
    CanMoveMeans(B, s, t, o, e);
    StoreHas(B, s);
    SetupGraph(B);
    f, s' := s.sched.phases[t].stack, Moved(B, s, Move(Work(t, o), e));
    PlainSetup(B, s.disk, f.package);
    MovedIs(B, s, t, o, e);
    WorkersStay(B.cfg, s.sched, t, o);
    assert s'.disk.Keys == s.disk.Keys;
    forall q | q in s.disk && q != f.package
      ensures SameFiles(s, s', q)
    {
      SameFrom(s, s', q);
    }
    if f.pc == Lock || o.Call? || o.Return? {
      QuietMoves(B, s, f, o, e);
      TrustedMeans(B, s, f, o, e);
      SameFrom(s, s', f.package);
    }
  }

  lemma TrustedMeans(B: Setup, s: BuildState, f: Stack, o: Outcome, e: Effect)
    requires f.Frame? && OnDisk(B, s.disk, f.package)
    ensures TrustedThen(B, s, f, o, e) <==> f.package !in s.spoiled && !Spoils(B, s, f, o, e)
  {
    hide Spoils, OnDisk;
  }

  lemma SameFrom(s: BuildState, s': BuildState, q: Package)
    requires q in s.disk && s.disk.Keys == s'.disk.Keys
    requires q in s'.disk && s'.disk[q] == s.disk[q] && (q in s'.spoiled <==> q in s.spoiled)
    ensures SameFiles(s, s', q)
  {
  }

  lemma SameMeans(s: BuildState, s': BuildState, q: Package)
    requires q in s.disk && s.disk.Keys == s'.disk.Keys && SameFiles(s, s', q)
    ensures q in s'.disk && s'.disk[q] == s.disk[q] && (q in s'.spoiled <==> q in s.spoiled)
  {
  }

  lemma StepMeans(B: Setup, s: BuildState, t: nat, f: Stack, o: Outcome, e: Effect)
    requires f.Frame? && OnDisk(B, s.disk, f.package) && DiskMay(B, s.disk, f, o, e) && StepOk(B, s, t, f, o, e)
    requires WorldOk(B.T, B.W) && f.package in B.W.own
    ensures o.Goto? ==>
              FilesOk(B, FilesThen(B, s.disk, f, o, e), f.package, f.locally, o.pc, TrustedThen(B, s, f, o, e))
    ensures f.package in FrameThen(B.cfg, t, s.sched.shared, f, o).built ==>
              Right(B, FilesThen(B, s.disk, f, o, e), f.package, TrustedThen(B, s, f, o, e))
    ensures f.package in FrameThen(B.cfg, t, s.sched.shared, f, o).built && TrustedThen(B, s, f, o, e)
            && f.pc != Lock && o != Goto(List) ==>
              OutputInfoRight(B, FilesThen(B, s.disk, f, o, e), f.package)
  {
    hide WorldOk, FilesOk, Right, OutputInfoRight, OnDisk, DiskMay, FilesThen, FrameThen, TrustedThen;
  }

  /** The call stack of the thread that moves. */
  lemma OwnStackFiles(B: Setup, s: BuildState, t: nat, o: Outcome, e: Effect)
    requires SetupOk(B) && BuildInv(B, s) && CanMove(B, s, Move(Work(t, o), e)) && t < |s.sched.phases|
    requires s.sched.phases[t].Building? && s.sched.phases[t].stack.Frame?
    ensures var phase, s' := PhaseThen(s.sched.phases[t].stack, o), Moved(B, s, Move(Work(t, o), e));
            && WorldOk(B.T, B.W) && s'.disk.Keys == B.W.own.Keys
            && (phase.Building? ==> StackFilesOk(B, s'.disk, s'.spoiled, phase.stack))
  {
    hide *;
    var f, s' := MoveFacts(B, s, t, o, e);
    SetupGraph(B);
    StackFacts(B.cfg, s.sched, t, o);
    TopFilesAre(B, s, t);
    TopFrameKeeps(B, s, t, f, o, e);
    StepMeans(B, s, t, f, o, e);
    OwnStackWas(B, s, t);
    if o.Call? {
      assert o.package in B.cfg.depends.Keys;
      assert o.package in s.disk.Keys;
    }
    StackFilesMove(B, s, s', f, o);
  }

  /** The call stacks of the other threads. */
  lemma OtherStackFiles(B: Setup, s: BuildState, t: nat, o: Outcome, e: Effect, u: nat)
    requires SetupOk(B) && BuildInv(B, s) && CanMove(B, s, Move(Work(t, o), e))
    requires u < |s.sched.phases| && s.sched.phases[u].Building? && u != t
    ensures var s' := Moved(B, s, Move(Work(t, o), e));
            && WorldOk(B.T, B.W) && s'.disk.Keys == B.W.own.Keys
            && StackFilesOk(B, s'.disk, s'.spoiled, s.sched.phases[u].stack)
  {
    hide *;
    var f, s' := MoveFacts(B, s, t, o, e);
    OwnStackWas(B, s, u);
    LockedIsSame(B, s, t, o, e, u);
    StackFilesStable(B, s, s', s.sched.phases[u].stack);
  }

  /** What another thread has locked does not change. */
  lemma LockedIsSame(B: Setup, s: BuildState, t: nat, o: Outcome, e: Effect, u: nat)
    requires SetupOk(B) && BuildInv(B, s) && CanMove(B, s, Move(Work(t, o), e))
    requires u < |s.sched.phases| && s.sched.phases[u].Building? && u != t
    ensures var s' := Moved(B, s, Move(Work(t, o), e));
            && s.disk.Keys == s'.disk.Keys
            && forall q :: HasLocked(s.sched.phases[u].stack, q) && q in s.disk ==> SameFiles(s, s', q)
  {
    hide *;
    var f, s' := MoveFacts(B, s, t, o, e);
    forall q | HasLocked(s.sched.phases[u].stack, q) && q in s.disk
      ensures SameFiles(s, s', q)
    {
      if f.pc != Lock && q == f.package {
        NotTwoHolders(B.cfg, s.sched, t, u, q);
      }
    }
  }

  // ---------------------------------------------------------------------
  // Untouched files stay untouched

  /** A step does not take a thread back before its first own work. */
  lemma {:induction false} OuterGoesOn(cfg: Config, sh: Shared, f: Stack, o: Outcome)
    requires f.Frame? && FrameMay(cfg, sh, f, o)
    ensures !Past(PhaseThen(f, o)) ==> Early(OuterPc(f))
  {
  }

  lemma BegunStays(cfg: Config, s: State, a: Action, p: Package)
    requires May(cfg, s, a) && |s.workers| == |s.phases| && Begun(s, p)
    ensures Begun(Then(cfg, s, a), p)
  {
    var t: nat :| BegunBy(s, t, p);
    var s' := Then(cfg, s, a);
    if a.Work? && a.t == t {
      OuterGoesOn(cfg, s.shared, s.phases[t].stack, a.o);
    }
    assert BegunBy(s', t, p);
  }

  /** The first step that writes a package's files begins it. */
  lemma WritingBegins(cfg: Config, s: State, t: nat, o: Outcome)
    requires Inv(cfg, s) && May(cfg, s, Work(t, o))
    requires var f := s.phases[t].stack; (Active(f.pc) && !Early(f.pc)) || f.pc.Prepare?
    requires s.phases[t].stack.package !in s.shared.built
    ensures Begun(Then(cfg, s, Work(t, o)), s.phases[t].stack.package)
  {
    var f := s.phases[t].stack;
    WorkerAt(cfg, s, t);
    assert f.caller.Bottom?;
    assert BegunBy(Then(cfg, s, Work(t, o)), t, f.package);
  }

  lemma OnlyWritersWrite(B: Setup, disk: Disk, f: Stack, o: Outcome, e: Effect)
    requires f.Frame? && OnDisk(B, disk, f.package) && DiskMay(B, disk, f, o, e) && f.package in disk
    ensures (Active(f.pc) && !Early(f.pc)) || f.pc.Prepare? || FilesThen(B, disk, f, o, e) == disk[f.package]
  {
  }

  lemma WorkersStay(cfg: Config, s: State, t: nat, o: Outcome)
    requires Inv(cfg, s) && May(cfg, s, Work(t, o))
    ensures |s.workers| == |s.phases| && Grown(s.shared, Then(cfg, s, Work(t, o)).shared)
    ensures Then(cfg, s, Work(t, o)).shared == FrameThen(cfg, t, s.shared, s.phases[t].stack, o)
  {
    WorkerAt(cfg, s, t);
    StepIsLocal(cfg, t, s.shared, s.phases[t].stack, o);
  }

  lemma GrownMeans(sh: Shared, sh': Shared, p: Package)
    requires Grown(sh, sh')
    ensures p in sh.built ==> p in sh'.built
  {
  }

  lemma ClearedGrows(cfg: Config, t: nat, sh: Shared, f: Stack, o: Outcome, p: Package)
    requires f.Frame?
    ensures sh.cleared[p] <= FrameThen(cfg, t, sh, f, o).cleared[p]
  {
  }

  lemma UntouchedWas(B: Setup, s: BuildState, p: Package)
    requires SetupOk(B) && BuildInv(B, s) && p in s.disk && p !in s.sched.shared.built && !Begun(s.sched, p)
    ensures Pristine(B.T, p, s.disk[p])
  {
    hide SetupOk, Inv, BuiltOk, StackFilesOk, Pristine, Begun;
  }

  lemma UntouchedStays(B: Setup, s: BuildState, t: nat, o: Outcome, e: Effect, p: Package)
    requires SetupOk(B) && BuildInv(B, s) && CanMove(B, s, Move(Work(t, o), e))
    requires var s' := Moved(B, s, Move(Work(t, o), e));
             p in s'.disk && p !in s'.sched.shared.built && !Begun(s'.sched, p)
    ensures p in s.disk && p !in s.sched.shared.built && !Begun(s.sched, p)
    ensures Moved(B, s, Move(Work(t, o), e)).disk[p] == s.disk[p]
  {
    hide *;
    var f, s' := MoveFacts(B, s, t, o, e);
    GrownMeans(s.sched.shared, s'.sched.shared, p);
    if Begun(s.sched, p) {
      BegunStays(B.cfg, s.sched, Work(t, o), p);
    }
    OnlyWritersWrite(B, s.disk, f, o, e);
    if s'.disk[p] != s.disk[p] {
      WritingBegins(B.cfg, s.sched, t, o);
    }
    assert p in s.disk.Keys;
  }

  // ---------------------------------------------------------------------
  // Built packages

  lemma OnlyOwnIsBuilt(cfg: Config, t: nat, sh: Shared, f: Stack, o: Outcome)
    requires f.Frame?
    ensures FrameThen(cfg, t, sh, f, o).built <= sh.built + {f.package}
  {
  }

  /** Nobody stops listing p's output but by their own move. */
  lemma ListingGoesOn(cfg: Config, s: State, t: nat, o: Outcome, p: Package)
    requires May(cfg, s, Work(t, o)) && BeingListed(s, p)
    requires s.phases[t].stack.package == p ==> !s.phases[t].stack.pc.List?
    ensures BeingListed(Then(cfg, s, Work(t, o)), p)
  {
    var u: nat :| ListedBy(s, u, p);
    assert ListedBy(Then(cfg, s, Work(t, o)), u, p);
  }

  lemma ListingStarts(s: State, t: nat, f: Stack)
    requires t < |s.phases| && f.Frame? && s.phases[t] == PhaseThen(f, Goto(List))
    ensures BeingListed(s, f.package)
  {
    assert ListedBy(s, t, f.package);
  }

  /** A package that must be built is only marked built after its own build. */
  lemma BuiltByWork(B: Setup, s: BuildState, t: nat, o: Outcome, e: Effect)
    requires SetupOk(B) && BuildInv(B, s) && CanMove(B, s, Move(Work(t, o), e))
    requires var p := s.sched.phases[t].stack.package;
             && p in Moved(B, s, Move(Work(t, o), e)).sched.shared.built && p in B.W.own
             && AlwaysBuilt(Def(B.T, B.W, p))
    ensures var p := s.sched.phases[t].stack.package; Moved(B, s, Move(Work(t, o), e)).sched.shared.cleared[p] > 0
  {
    hide *;
    var f, s' := MoveFacts(B, s, t, o, e);
    ClearedGrows(B.cfg, t, s.sched.shared, f, o, f.package);
    SetupGraph(B);
    MovesOf(B.cfg, t, s.sched.shared, f, o);
    if f.package in s.sched.shared.built {
      BuiltIsRight(B, s, f.package);
      BuiltWasCleared(B, s, f.package);
    } else if f.pc.MarkBuilt? {
      MarkedWasCleared(B.cfg, s.sched, t);
    } else {
      DecisionIs(B, s.disk, f, o, e);
      NotSkipped(B, s.disk[f.package], f.package, e.fetched);
    }
  }

  lemma BuiltWasCleared(B: Setup, s: BuildState, p: Package)
    requires WorldOk(B.T, B.W) && s.disk.Keys == B.W.own.Keys && p in B.W.own && BuiltOk(B, s, p)
    requires AlwaysBuilt(Def(B.T, B.W, p))
    ensures s.sched.shared.cleared[p] > 0
  {
    hide Right, OutputInfoRight, WorldOk, BeingListed;
  }

  lemma MarkedWasCleared(cfg: Config, s: State, t: nat)
    requires Inv(cfg, s) && t < |s.phases| && s.phases[t].Building?
    ensures var f := s.phases[t].stack; f.Frame? && (f.pc.MarkBuilt? ==> s.shared.cleared[f.package] > 0)
  {
    WorkerAt(cfg, s, t);
  }

  lemma NotSkipped(B: Setup, fs: Files, p: Package, n: nat)
    requires p in B.W.own && Skips(B, fs, p, n)
    ensures !AlwaysBuilt(Def(B.T, B.W, p))
  {
    hide UpToDate, Downloads;
  }

  lemma BuiltFrom(B: Setup, s: BuildState, p: Package)
    requires WorldOk(B.T, B.W) && s.disk.Keys == B.W.own.Keys && p in s.disk && p in B.W.own
    requires Right(B, s.disk[p], p, p !in s.spoiled)
    requires p !in s.spoiled && !BeingListed(s.sched, p) ==> OutputInfoRight(B, s.disk[p], p)
    requires AlwaysBuilt(Def(B.T, B.W, p)) ==> s.sched.shared.cleared[p] > 0
    ensures BuiltOk(B, s, p)
  {
    hide Right, OutputInfoRight, WorldOk, BeingListed;
  }

  lemma OwnIsBuilt(B: Setup, s: BuildState, t: nat, o: Outcome, e: Effect)
    requires SetupOk(B) && BuildInv(B, s) && CanMove(B, s, Move(Work(t, o), e))
    requires s.sched.phases[t].stack.package in Moved(B, s, Move(Work(t, o), e)).sched.shared.built
    ensures var s' := Moved(B, s, Move(Work(t, o), e));
            WorldOk(B.T, B.W) && s'.disk.Keys == B.W.own.Keys && BuiltOk(B, s', s.sched.phases[t].stack.package)
  {
    hide *;
    var f, s' := MoveFacts(B, s, t, o, e);
    TopFilesAre(B, s, t);
    TopFrameKeeps(B, s, t, f, o, e);
    StepMeans(B, s, t, f, o, e);
    if AlwaysBuilt(Def(B.T, B.W, f.package)) {
      BuiltByWork(B, s, t, o, e);
    }
    if f.pc == Lock {
      LockStays(B.cfg, t, s.sched.shared, f, o);
      BuiltIsRight(B, s, f.package);
      SameMeans(s, s', f.package);
      if BeingListed(s.sched, f.package) {
        ListingGoesOn(B.cfg, s.sched, t, o, f.package);
      }
    } else if o == Goto(List) {
      ListingStarts(s'.sched, t, f);
    }
    BuiltFrom(B, s', f.package);
  }

  lemma LockStays(cfg: Config, t: nat, sh: Shared, f: Stack, o: Outcome)
    requires f.Frame? && f.pc == Lock && FrameMay(cfg, sh, f, o)
    ensures FrameThen(cfg, t, sh, f, o).built == sh.built && !f.pc.List? && o == Goto(Check)
  {
  }

  lemma OtherIsBuilt(B: Setup, s: BuildState, t: nat, o: Outcome, e: Effect, p: Package)
    requires SetupOk(B) && BuildInv(B, s) && CanMove(B, s, Move(Work(t, o), e))
    requires p in s.sched.shared.built && p != s.sched.phases[t].stack.package
    ensures var s' := Moved(B, s, Move(Work(t, o), e));
            WorldOk(B.T, B.W) && s'.disk.Keys == B.W.own.Keys && BuiltOk(B, s', p)
  {
    hide *;
    var f, s' := MoveFacts(B, s, t, o, e);
    BuiltIsRight(B, s, p);
    SameMeans(s, s', p);
    ClearedGrows(B.cfg, t, s.sched.shared, f, o, p);
    if BeingListed(s.sched, p) {
      ListingGoesOn(B.cfg, s.sched, t, o, p);
    }
    if AlwaysBuilt(Def(B.T, B.W, p)) {
      BuiltWasCleared(B, s, p);
    }
    BuiltFrom(B, s', p);
  }

  lemma BuiltKept(B: Setup, s: BuildState, t: nat, o: Outcome, e: Effect, p: Package)
    requires SetupOk(B) && BuildInv(B, s) && CanMove(B, s, Move(Work(t, o), e))
    requires p in Moved(B, s, Move(Work(t, o), e)).sched.shared.built
    ensures var s' := Moved(B, s, Move(Work(t, o), e));
            WorldOk(B.T, B.W) && s'.disk.Keys == B.W.own.Keys && BuiltOk(B, s', p)
  {
    hide *;
    var f, s' := MoveFacts(B, s, t, o, e);
    OnlyOwnIsBuilt(B.cfg, t, s.sched.shared, f, o);
    if p == f.package {
      OwnIsBuilt(B, s, t, o, e);
    } else {
      OtherIsBuilt(B, s, t, o, e, p);
    }
  }

  /** Built packages' archives, the files that calls in progress rely on and
      untouched files are as they should be after every step of a worker. */
  lemma WorkKeepsStore(B: Setup, s: BuildState, t: nat, o: Outcome, e: Effect)
    requires SetupOk(B) && BuildInv(B, s) && CanMove(B, s, Move(Work(t, o), e))
    ensures WorldOk(B.T, B.W) && StoreOk(B, Moved(B, s, Move(Work(t, o), e)))
  {
    hide *;
    var f, s' := MoveFacts(B, s, t, o, e);
    forall u: nat | u < |s'.sched.phases| && s'.sched.phases[u].Building?
      ensures StackFilesOk(B, s'.disk, s'.spoiled, s'.sched.phases[u].stack)
    {
      if u == t {
        OwnStackFiles(B, s, t, o, e);
      } else {
        OtherStackFiles(B, s, t, o, e, u);
      }
    }
    forall p | p in s'.sched.shared.built
      ensures BuiltOk(B, s', p)
    {
      BuiltKept(B, s, t, o, e, p);
    }
    forall p | p in s'.disk && p !in s'.sched.shared.built && !Begun(s'.sched, p)
      ensures Pristine(B.T, p, s'.disk[p])
    {
      UntouchedStays(B, s, t, o, e, p);
      UntouchedWas(B, s, p);
    }
    StoreFromParts(B, s');
  }

  lemma StoreFromParts(B: Setup, s: BuildState)
    requires WorldOk(B.T, B.W) && s.disk.Keys == B.W.own.Keys
    requires forall p :: p in s.sched.shared.built ==> BuiltOk(B, s, p)
    requires forall u: nat :: u < |s.sched.phases| && s.sched.phases[u].Building? ==>
               StackFilesOk(B, s.disk, s.spoiled, s.sched.phases[u].stack)
    requires forall p :: p in s.disk && p !in s.sched.shared.built && !Begun(s.sched, p) ==>
               Pristine(B.T, p, s.disk[p])
    ensures StoreOk(B, s)
  {
    hide WorldOk, BuiltOk, StackFilesOk, Pristine, Begun;
  }
}
