/** The results about incremental builds: equal to a build from scratch, over any
    history of earlier builds and caches, with every file there when it is needed. */
module IncrementalTheorems {
  import opened Packages
  import opened Scheduler
  import opened SchedulerTheorems
  import opened SchedulerProgress
  import opened Worlds
  import opened Incremental
  import opened IncrementalInvariant
  import opened IncrementalRaces
  import opened IncrementalResults
  import opened IncrementalOutputs
  import opened IncrementalFailures

  // ---------------------------------------------------------------------
  // One build

  /** p's archives and description are those of a clean build, and so is its
      .output.info if it is there; it is there if p's output was hashed for
      another package's description. */
  ghost predicate CleanOnDisk(T: Tools, W: World, p: Package, fs: Files)
    requires WorldOk(T, W) && p in W.own
  {
    && fs.staging == Some(CleanOut(T, W, p).staging)
    && fs.install == Some(CleanOut(T, W, p).install)
    && fs.buildInfo == Some(Text(T, W, p))
    && (Def(T, W, p).hashOutput && fs.outputInfo.Some? ==> fs.outputInfo.value == T.listing(CleanOut(T, W, p)))
    && (forall d :: HashedBy(T, W, d, p) ==> fs.outputInfo == Some(T.listing(CleanOut(T, W, p))))
  }

  lemma IsClean(B: Setup, p: Package, fs: Files)
    requires WorldOk(B.T, B.W) && p in B.W.own && fs.buildInfo == Some(Text(B.T, B.W, p))
    requires Right(B, fs, p, true) && OutputInfoRight(B, fs, p)
    requires forall d :: HashedBy(B.T, B.W, d, p) ==> fs.outputInfo == Some(B.T.listing(CleanOut(B.T, B.W, p)))
    ensures CleanOnDisk(B.T, B.W, p, fs)
  {
    hide WorldOk, CleanOut, Text, HashedBy;
  }

  /** When basePackage returns true, every package is as a clean build of the
      current descriptions leaves it, whatever the disk held before, whatever the
      cache gave, and whatever was skipped or rebuilt. In trees with a race that
      is said of packages that are not spoiled. */
  lemma BuildEqualsFromScratch(B: Setup, disk: Disk, s: BuildState, p: Package)
    requires SetupOk(B) && DiskOk(B, disk) && ReachableFrom(B, disk, s) && s.sched.main == Returned(true)
    requires p in B.W.own && (QuietListings(B) || p !in s.spoiled)
    ensures WorldOk(B.T, B.W) && s.disk.Keys == B.W.own.Keys && CleanOnDisk(B.T, B.W, p, s.disk[p])
  {
    hide *;
    ReachableResult(B, disk, s);
    ResultHas(B, s);
    ReturnedTrue(B, s.sched);
    StoreHas(B, s);
    BaseBuiltMeansRight(B, s, p);
    var order, moves := RunTo(B, disk, s);
    forall d | HashedBy(B.T, B.W, d, p)
      ensures s.disk[p].outputInfo == Some(B.T.listing(CleanOut(B.T, B.W, p)))
    {
      HashedOutputsAreThere(B, order, disk, moves, s, d, p);
    }
    IsClean(B, p, s.disk[p]);
  }

  lemma ReturnedTrue(B: Setup, s: State)
    requires Gated(B.cfg, B.W.rank) && Reachable(B.cfg, s) && s.main == Returned(true)
    ensures B.cfg.base in s.shared.built
  {
    BasePackageResult(B.cfg, B.W.rank, s);
    hide Reachable;
  }

  /** Two successful builds of one tree agree, whatever disks and caches, honest
      ones, they started with. */
  lemma CachesDoNotMatter(B1: Setup, B2: Setup, disk1: Disk, disk2: Disk, s1: BuildState, s2: BuildState, p: Package)
    requires SetupOk(B1) && DiskOk(B1, disk1) && ReachableFrom(B1, disk1, s1) && s1.sched.main == Returned(true)
    requires SetupOk(B2) && DiskOk(B2, disk2) && ReachableFrom(B2, disk2, s2) && s2.sched.main == Returned(true)
    requires B1.T == B2.T && B1.W == B2.W && p in B1.W.own && QuietListings(B1) && QuietListings(B2)
    ensures p in s1.disk && p in s2.disk
    ensures s1.disk[p].staging == s2.disk[p].staging && s1.disk[p].install == s2.disk[p].install
    ensures s1.disk[p].buildInfo == s2.disk[p].buildInfo
    ensures forall d :: HashedBy(B1.T, B1.W, d, p) ==> s1.disk[p].outputInfo == s2.disk[p].outputInfo
  {
    hide SetupOk, DiskOk, ReachableFrom;
    BuildEqualsFromScratch(B1, disk1, s1, p);
    BuildEqualsFromScratch(B2, disk2, s2, p);
    hide WorldOk, CleanOut, Text, HashedBy;
  }

  // ---------------------------------------------------------------------
  // Histories of builds

  const NO_FILES := Files(None, None, None, None, None, map[], map[], None, "", None)

  /** A new run's Package object over the files that are there. */
  function Renewed(fs: Files): Files {
    fs.(hash := "", text := None)
  }

  /** What a build of W finds. */
  function Found(disk: Disk, W: World): Disk {
    map p | p in W.own :: if p in disk then Renewed(disk[p]) else NO_FILES
  }

  ghost predicate Truthful(T: Tools, disk: Disk) {
    forall p :: p in disk ==> Consistent(T, p, disk[p])
  }

  /** One run of the program: it starts from the files it finds, and ends or is
      stopped anywhere. succeeded says that basePackage returned true, without
      races; otherwise no package was left exposed or spoiled. */
  datatype Attempt = Attempt(setup: Setup, order: seq<Package>, moves: seq<Move>, succeeded: bool)

  ghost predicate Leaves(a: Attempt, disk: Disk, disk': Disk) {
    var B := a.setup;
    var r := AfterMoves(B, a.order, Found(disk, B.W), a.moves);
    && SetupOk(B) && r.Some? && disk' == disk + r.value.disk
    && if a.succeeded then r.value.sched.main == Returned(true) && (QuietListings(B) || r.value.spoiled == {})
       else forall p :: p in B.W.own ==> p !in r.value.exposed && p !in r.value.spoiled
  }

  /** disks[0] is a tree that was never built; attempts[i] leads to disks[i + 1].
      Package files, features, extracted sources and caches may all differ from
      one attempt to the next. */
  ghost predicate History(T: Tools, attempts: seq<Attempt>, disks: seq<Disk>) {
    && |disks| == |attempts| + 1 && disks[0] == map[]
    && forall i :: 0 <= i < |attempts| ==> attempts[i].setup.T == T && Leaves(attempts[i], disks[i], disks[i + 1])
  }

  lemma RenewedIsPristine(T: Tools, p: Package, fs: Files)
    requires Consistent(T, p, fs)
    ensures Pristine(T, p, Renewed(fs)) && Pristine(T, p, NO_FILES)
  {
    hide WorldOk, CleanOut, Text, CutoffsCovered;
    if fs.buildInfo.Some? {
      var W0 :| Describes(T, W0, p, fs);
      assert Describes(T, W0, p, Renewed(fs));
    }
  }

  lemma FoundIsFine(B: Setup, disk: Disk)
    requires Truthful(B.T, disk)
    ensures DiskOk(B, Found(disk, B.W))
  {
    forall p | p in B.W.own
      ensures Pristine(B.T, p, Found(disk, B.W)[p])
    {
      if p in disk {
        RenewedIsPristine(B.T, p, disk[p]);
      } else {
        RenewedIsPristine(B.T, p, NO_FILES);
      }
    }
    hide Pristine, Consistent;
  }

  lemma CleanIsTruthful(T: Tools, W: World, p: Package, fs: Files)
    requires WorldOk(T, W) && CutoffsCovered(T, W) && p in W.own && CleanOnDisk(T, W, p, fs)
    ensures Consistent(T, p, fs)
  {
    hide WorldOk, CleanOut, Text, CutoffsCovered;
    assert Describes(T, W, p, fs);
  }

  lemma LeftBy(a: Attempt, disk: Disk, disk': Disk) returns (s: BuildState)
    requires Leaves(a, disk, disk')
    ensures SetupOk(a.setup) && AfterMoves(a.setup, a.order, Found(disk, a.setup.W), a.moves) == Some(s)
    ensures disk' == disk + s.disk && ReachableFrom(a.setup, Found(disk, a.setup.W), s)
    ensures a.succeeded ==> s.sched.main == Returned(true) && (QuietListings(a.setup) || s.spoiled == {})
    ensures !a.succeeded ==> forall p :: p in a.setup.W.own ==> p !in s.exposed && p !in s.spoiled
  {
    hide SetupOk, AfterMoves, Found;
    s := AfterMoves(a.setup, a.order, Found(disk, a.setup.W), a.moves).value;
  }

  /** One more attempt keeps the disk truthful; if it succeeds it leaves its own
      tree clean. */
  lemma AttemptKeepsTruth(a: Attempt, disk: Disk, disk': Disk)
    requires Truthful(a.setup.T, disk) && Leaves(a, disk, disk')
    ensures Truthful(a.setup.T, disk') && WorldOk(a.setup.T, a.setup.W)
    ensures a.succeeded ==> forall p :: p in a.setup.W.own ==>
              p in disk' && CleanOnDisk(a.setup.T, a.setup.W, p, disk'[p])
  {
    hide *;
    var B := a.setup;
    FoundIsFine(B, disk);
    var s := LeftBy(a, disk, disk');
    ReachableResult(B, Found(disk, B.W), s);
    CutoffsOf(B);
    forall p | p in B.W.own
      ensures p in disk' && Consistent(B.T, p, disk'[p])
      ensures a.succeeded ==> CleanOnDisk(B.T, B.W, p, disk'[p])
    {
      if a.succeeded {
        BuildEqualsFromScratch(B, Found(disk, B.W), s, p);
        CleanIsTruthful(B.T, B.W, p, disk'[p]);
      } else {
        StoppedDiskIsTruthful(B, Found(disk, B.W), s, p);
      }
    }
    TruthfulParts(B.T, disk, disk', B.W.own.Keys);
  }

  lemma TruthfulParts(T: Tools, disk: Disk, disk': Disk, rebuilt: set<Package>)
    requires Truthful(T, disk) && disk'.Keys == disk.Keys + rebuilt
    requires forall p :: p in rebuilt ==> Consistent(T, p, disk'[p])
    requires forall p :: p in disk && p !in rebuilt ==> disk'[p] == disk[p]
    ensures Truthful(T, disk')
  {
    hide Consistent;
  }

  lemma {:induction false} TruthfulAlong(T: Tools, attempts: seq<Attempt>, disks: seq<Disk>, i: nat)
    requires History(T, attempts, disks) && i < |disks|
    ensures Truthful(T, disks[i])
  {
    if i > 0 {
      TruthfulAlong(T, attempts, disks, i - 1);
      hide Truthful, SetupOk, Leaves;
      AttemptKeepsTruth(attempts[i - 1], disks[i - 1], disks[i]);
    }
  }

  /** In any series of runs on changing trees, some of which failed or were
      stopped without leaving exposed or spoiled packages behind, every successful run leaves
      its tree as if it had been built from scratch. */
  lemma EveryBuildEqualsFromScratch(T: Tools, attempts: seq<Attempt>, disks: seq<Disk>, i: nat, p: Package)
    requires History(T, attempts, disks) && i < |attempts| && attempts[i].succeeded && p in attempts[i].setup.W.own
    ensures WorldOk(T, attempts[i].setup.W) && p in disks[i + 1]
    ensures CleanOnDisk(T, attempts[i].setup.W, p, disks[i + 1][p])
  {
    TruthfulAlong(T, attempts, disks, i);
    hide Truthful, SetupOk, Leaves, WorldOk, CleanOnDisk;
    AttemptKeepsTruth(attempts[i], disks[i], disks[i + 1]);
  }

  // ---------------------------------------------------------------------
  // Files are there when they are needed

  /** Except where prepareBuildInfo and shouldBuild decide, the files never stand
      in the way: archives to stage exist, what the commands made can be packed
      and listed, and .build.info.new can be renamed. */
  lemma NothingIsMissing(B: Setup, s: BuildState, f: Stack, o: Outcome, e: Effect)
    requires SetupOk(B) && f.Frame? && OnDisk(B, s.disk, f.package) && TopFilesOk(B, s, f)
    requires !f.pc.Prepare? && !f.pc.Decide?
    ensures DiskMay(B, s.disk, f, o, e)
  {
    hide *;
    TopFacts(B, s, f);
    if f.pc.Stage? {
      ClosureOf(B, s, f);
      StagedIsClean(B, s, f.package);
    }
    FilesAllow(B, s.disk, f, o, e, f.package !in s.spoiled);
  }

  lemma FilesAllow(B: Setup, disk: Disk, f: Stack, o: Outcome, e: Effect, trusted: bool)
    requires f.Frame? && OnDisk(B, disk, f.package) && !f.pc.Prepare? && !f.pc.Decide? && f.package in disk
    requires f.pc != Lock ==> FilesOk(B, disk[f.package], f.package, f.locally, f.pc, trusted)
    requires f.pc.Stage? ==> ArchivesExist(B, disk, f.package)
    ensures DiskMay(B, disk, f, o, e)
  {
    hide Right, Consistent, Text, CleanOut, CleanStaging, CleanInstall, ArchivesExist, WorldOk;
  }

  /** Whenever prepareBuildDirs extracts, every package of the staging set is
      built and has its staging archive, and likewise for the directory of install
      files. */
  lemma StagedInputsExist(B: Setup, disk: Disk, s: BuildState, t: nat)
    requires SetupOk(B) && DiskOk(B, disk) && ReachableFrom(B, disk, s)
    requires t < |s.sched.phases| && s.sched.phases[t].Building?
    requires s.sched.phases[t].stack.Frame? && s.sched.phases[t].stack.pc.Stage?
    ensures var p := s.sched.phases[t].stack.package;
            && WorldOk(B.T, B.W) && p in B.W.own && ArchivesExist(B, s.disk, p)
            && forall q :: q in StagingSet(B.T, B.W, p) + InstallSet(B.T, B.W, p) ==> q in s.sched.shared.built
  {
    hide *;
    ReachableResult(B, disk, s);
    ResultHas(B, s);
    TopFilesAre(B, s, t);
    var f := s.sched.phases[t].stack;
    DependsAreBuilt(B, s, t);
    ClosureOf(B, s, f);
    StagedIsClean(B, s, f.package);
    StagedAreBuilt(B, s.sched.shared, f.package);
  }

  /** At the two decisions one way is always open. */
  lemma DecisionsAreOpen(B: Setup, disk: Disk, sh: Shared, f: Stack) returns (o: Outcome, e: Effect)
    requires f.Frame? && OnDisk(B, disk, f.package) && (f.pc.Prepare? || f.pc.Decide?) && f.package in disk
    ensures FrameMay(B.cfg, sh, f, o) && DiskMay(B, disk, f, o, e)
  {
    e := Effect(0, None);
    if f.pc.Prepare? {
      o := Throw;
    } else if f.locally || Rebuilds(B, disk[f.package], f.package, 0) {
      o := Goto(LocalDeps(0));
    } else {
      o := Goto(Leave(true));
    }
    hide OnDisk, UpToDate, HashMissing, AlwaysBuilt;
  }

  /** While some thread is inside Package::build, one of them can move: neither
      mutexes nor files stand in the way. */
  lemma BuildNeverStalls(B: Setup, disk: Disk, s: BuildState, t: nat) returns (m: Move)
    requires SetupOk(B) && DiskOk(B, disk) && ReachableFrom(B, disk, s)
    requires t < |s.sched.phases| && s.sched.phases[t].Building?
    ensures CanMove(B, s, m) && m.action.Work?
  {
    hide *;
    ReachableResult(B, disk, s);
    ResultHas(B, s);
    StoreHas(B, s);
    var a := SomeWorkerMoves(B.cfg, B.W.rank, s.sched, t);
    WorkMeans(B.cfg, s.sched, a);
    TopFilesAre(B, s, a.t);
    var f := s.sched.phases[a.t].stack;
    PlainSetup(B, s.disk, f.package);
    var o, e := a.o, Effect(0, None);
    if f.pc.Prepare? || f.pc.Decide? {
      o, e := DecisionsAreOpen(B, s.disk, s.sched.shared, f);
    } else {
      NothingIsMissing(B, s, f, o, e);
    }
    m := Move(Work(a.t, o), e);
    CanWork(B, s, a.t, o, e);
  }

  lemma WorkMeans(cfg: Config, s: State, a: Action)
    requires May(cfg, s, a) && a.Work?
    ensures a.t < |s.phases| && s.phases[a.t].Building? && s.phases[a.t].stack.Frame?
    ensures FrameMay(cfg, s.shared, s.phases[a.t].stack, a.o)
  {
  }

  lemma CanWork(B: Setup, s: BuildState, t: nat, o: Outcome, e: Effect)
    requires t < |s.sched.phases| && s.sched.phases[t].Building? && s.sched.phases[t].stack.Frame?
    requires FrameMay(B.cfg, s.sched.shared, s.sched.phases[t].stack, o)
    requires OnDisk(B, s.disk, s.sched.phases[t].stack.package) && DiskMay(B, s.disk, s.sched.phases[t].stack, o, e)
    ensures CanMove(B, s, Move(Work(t, o), e))
  {
    hide FrameMay, OnDisk, DiskMay;
  }
}
