/** The parts of Package::build between which other threads look at the files, each
    run on a Package object and proved to be the step of the incremental build
    protocol that it stands for. */
module PackageSteps {
  import opened Packages
  import opened Scheduler
  import opened Closures
  import opened Worlds
  import opened Incremental
  import opened PackageObjects

  /** The call of build whose files are looked at. */
  function Here(p: Package, pc: Pc): Stack {
    Frame(p, false, pc, Bottom)
  }

  /** The protocol lets a call for p at pc move by o, and then p's files are fs'. */
  ghost predicate IsStep(B: Setup, disk: Disk, p: Package, pc: Pc, o: Outcome, e: Effect, fs': Files) {
    && OnDisk(B, disk, p) && DiskMay(B, disk, Here(p, pc), o, e)
    && fs' == FilesThen(B, disk, Here(p, pc), o, e)
  }

  /** No two packages share an object or a description. */
  ghost predicate Separate(all: map<Package, PackageObject>) {
    forall p, q :: p in all && q in all && p != q ==>
                     all[p] != all[q] && all[p].description != all[q].description
  }

  /** p's description depends on its dependencies' files only. */
  lemma OwnFilesDoNotMatter(B: Setup, disk: Disk, disk': Disk, p: Package)
    requires OnDisk(B, disk, p) && disk'.Keys == disk.Keys && forall q :: q in disk && q != p ==> disk'[q] == disk[q]
    ensures OnDisk(B, disk', p) && p in B.W.extraction
    ensures HashMissing(B.T, B.W, disk', p) <==> HashMissing(B.T, B.W, disk, p)
    ensures Assembled(B.T, B.W, disk', p) == Assembled(B.T, B.W, disk, p)
  {
    assert DependsOk(B.T, B.W, p);
    assert forall i :: 0 <= i < |Def(B.T, B.W, p).depends| ==>
        Def(B.T, B.W, p).depends[i].package != p;
    assert LinesFor(B.T, B.W, disk', p) == LinesFor(B.T, B.W, disk, p);
  }

  lemma PreparedIsStep(B: Setup, disk: Disk, cleaned: Disk, p: Package, ok: bool, fs': Files)
    requires OnDisk(B, disk, p) && cleaned == disk[p := Cleaned(disk[p], Def(B.T, B.W, p).clean)]
    requires OnDisk(B, cleaned, p) && p in B.W.extraction
    requires ok <==> disk[p].text.Some? || !HashMissing(B.T, B.W, cleaned, p)
    requires fs' == if ok then Prepared(B.T, cleaned[p], Assembled(B.T, B.W, cleaned, p)) else cleaned[p]
    ensures IsStep(B, disk, p, Prepare, if ok then Goto(Decide) else Throw, Effect(0, None), fs')
  {
    OwnFilesDoNotMatter(B, disk, cleaned, p);
    hide OnDisk, HashMissing, Assembled, Prepared;
  }

  /** Nothing else changes when p's files do. */
  lemma SnapshotIs(all: map<Package, PackageObject>, disk: Disk, p: Package, fs: Files)
    requires p in all && disk.Keys == all.Keys && all[p].Contents() == fs
    requires forall q :: q in all && q != p ==> all[q].Contents() == disk[q]
    ensures Snapshot(all) == disk[p := fs]
  {
    var now := Snapshot(all);
    assert now.Keys == disk[p := fs].Keys;
    forall q | q in all
      ensures now[q] == disk[p := fs][q]
    {
      assert now[q] == all[q].Contents();
    }
  }

  /** Cleaning, if it is asked for, and prepareBuildInfo. */
  method PrepareFiles(B: Setup, p: Package, all: map<Package, PackageObject>) returns (ok: bool)
    requires p in all && all[p].Valid() && Separate(all) && OnDisk(B, Snapshot(all), p)
    requires !all[p].buildInfoPrepared ==> all[p].description.units == B.W.own[p]
    modifies all[p], all[p].description
    ensures all[p].Valid()
    ensures IsStep(B, old(Snapshot(all)), p, Prepare, if ok then Goto(Decide) else Throw, Effect(0, None),
                   all[p].Contents())
  {
    ghost var disk := Snapshot(all);
    ghost var prepared := all[p].buildInfoPrepared;
    assert disk[p].text.Some? == prepared;
    CleanIfAsked(B, p, all);
    ghost var cleaned := Snapshot(all);
    OwnFilesDoNotMatter(B, disk, cleaned, p);
    assert Known(B.T, B.W, cleaned, p);
    hide *;
    ok := all[p].PrepareBuildInfo(B.T, B.W, p, all);
    PreparedIsStep(B, disk, cleaned, p, ok, all[p].Contents());
  }

  method CleanIfAsked(B: Setup, p: Package, all: map<Package, PackageObject>)
    requires p in all && all[p].Valid() && Separate(all) && p in B.W.own
    modifies all[p]
    ensures all[p].Valid()
    ensures Snapshot(all) == old(Snapshot(all))[p := Cleaned(old(Snapshot(all))[p], Def(B.T, B.W, p).clean)]
    ensures all[p].buildInfoPrepared == old(all[p].buildInfoPrepared)
    ensures all[p].description.units == old(all[p].description.units)
  {
    ghost var disk := Snapshot(all);
    if Def(B.T, B.W, p).clean {
      all[p].Clean();
    }
    SnapshotIs(all, disk, p, Cleaned(disk[p], Def(B.T, B.W, p).clean));
  }

  lemma DecidedIsStep(B: Setup, disk: Disk, p: Package, r: Option<bool>, n: nat, fs': Files)
    requires OnDisk(B, disk, p)
    requires r == Some(true) ==> Rebuilds(B, disk[p], p, n) && fs' == Tried(B, disk[p], p, n)
    requires r == Some(false) ==> Skips(B, disk[p], p, n) && fs' == Skipped(B, disk[p], p, n)
    requires r.None? ==>
               Skips(B, disk[p], p, n) && !UpToDate(disk[p]) && fs' == Fetched(disk[p], EntryFor(B, disk[p], p), n)
    ensures IsStep(B, disk, p, Decide, Decision(r), Effect(n, None), fs')
  {
    hide OnDisk, EntryFor, Fetched;
  }

  /** What shouldBuild's answer means to build. */
  function Decision(r: Option<bool>): Outcome {
    match r
    case Some(true) => Goto(LocalDeps(0))
    case Some(false) => Goto(Leave(true))
    case None => Throw
  }

  /** shouldBuild. */
  method DecideBuild(B: Setup, p: Package, package: PackageObject, downloads: seq<Download>, ghost disk: Disk)
      returns (r: Option<bool>, n: nat)
    requires package.Valid() && OnDisk(B, disk, p) && disk[p] == package.Contents() && |downloads| == 4
    requires package.codeUpdated <==> Def(B.T, B.W, p).extractsDeps
    modifies package
    ensures package.Valid() && IsStep(B, disk, p, Decide, Decision(r), Effect(n, None), package.Contents())
  {
    assert p in B.W.own;
    hide OnDisk, UpToDate, Rebuilds, Skips, Tried, Skipped, EntryFor, Fetched, IsStep, Arrives;
    r, n := package.ShouldBuild(B, p, downloads);
    DecidedIsStep(B, disk, p, r, n, package.Contents());
  }

  lemma StagedIsStep(B: Setup, disk: Disk, p: Package, stagingDir: map<Package, string>,
                     installDir: map<Package, string>)
    requires OnDisk(B, disk, p)
    requires stagingDir.Keys == StagingSet(B.T, B.W, p) && installDir.Keys == InstallSet(B.T, B.W, p)
    requires forall q :: q in stagingDir ==> q in disk && disk[q].staging == Some(stagingDir[q])
    requires forall q :: q in installDir ==> q in disk && disk[q].install == Some(installDir[q])
    ensures IsStep(B, disk, p, Stage, Goto(Commands), Effect(0, None),
                   disk[p].(stagingDir := stagingDir, installDir := installDir))
  {
    hide StagingSet, InstallSet, WorldOk;
    assert ArchivesExist(B, disk, p);
    var staged := Staged(B, disk, p);
    assert staged.stagingDir.Keys == stagingDir.Keys && staged.installDir.Keys == installDir.Keys;
    forall q | q in stagingDir
      ensures staged.stagingDir[q] == stagingDir[q]
    {
      assert disk[q].staging == Some(stagingDir[q]);
    }
    forall q | q in installDir
      ensures staged.installDir[q] == installDir[q]
    {
      assert disk[q].install == Some(installDir[q]);
    }
  }

  lemma SnapshotMeans(all: map<Package, PackageObject>)
    ensures Snapshot(all).Keys == all.Keys
    ensures forall q :: q in all ==>
              && Snapshot(all)[q] == all[q].Contents()
              && Snapshot(all)[q].staging == all[q].staging && Snapshot(all)[q].install == all[q].install
  {
  }

  lemma DirsAreFound(B: Setup, disk: Disk, p: Package)
    requires OnDisk(B, disk, p)
    ensures WorldOk(B.T, B.W) && disk.Keys == B.W.own.Keys && p in disk
    ensures StagingSet(B.T, B.W, p) <= B.W.own.Keys && InstallSet(B.T, B.W, p) <= B.W.own.Keys
    ensures !Def(B.T, B.W, p).extractsDeps ==> InstallSet(B.T, B.W, p) == {}
  {
    hide WorldOk, CutReaches;
  }

  /** prepareBuildDirs and extractInstallDepends: both go through exactly if every
      archive is there and nothing fails over one, and then the directories are the
      protocol's. */
  method StageDirs(B: Setup, p: Package, graph: DependencyGraph, all: map<Package, PackageObject>, removes: bool,
               broken: set<Package>) returns (ok: bool)
    requires p in all && all[p].Valid() && Separate(all) && OnDisk(B, Snapshot(all), p)
    requires graph.depends == DependsMap(B.T, B.W)
    requires graph.interceptStaging == set q | q in B.W.own && Def(B.T, B.W, q).interceptStaging
    requires graph.interceptInstall == set q | q in B.W.own && Def(B.T, B.W, q).interceptInstall
    requires !Def(B.T, B.W, p).extractsDeps ==> all[p].installDir == map[]
    modifies all[p]
    ensures all[p].Valid()
    ensures var disk := old(Snapshot(all));
            ok <==>
              && (forall q :: q in StagingSet(B.T, B.W, p) ==> disk[q].staging.Some? && q !in broken)
              && (Def(B.T, B.W, p).extractsDeps ==> removes)
              && (forall q :: q in InstallSet(B.T, B.W, p) ==> disk[q].install.Some? && q !in broken)
    ensures ok ==> IsStep(B, old(Snapshot(all)), p, Stage, Goto(Commands), Effect(0, None), all[p].Contents())
  {
    ghost var disk := Snapshot(all);
    SnapshotMeans(all);
    DirsAreFound(B, disk, p);
    hide *;
    ok := Extract(B, p, all[p], graph, all, removes, broken, disk);
    if ok {
      StagedIsStep(B, disk, p, all[p].stagingDir, all[p].installDir);
    }
  }

  method Extract(B: Setup, p: Package, package: PackageObject, graph: DependencyGraph, all: map<Package, PackageObject>,
                 removes: bool, broken: set<Package>, ghost disk: Disk) returns (ok: bool)
    requires p in all && WorldOk(B.T, B.W) && all.Keys == B.W.own.Keys == disk.Keys
    requires package.Valid() && package.Contents() == disk[p]
    requires forall q :: q in all ==> disk[q].staging == all[q].staging && disk[q].install == all[q].install
    requires graph.depends == DependsMap(B.T, B.W)
    requires graph.interceptStaging == set q | q in B.W.own && Def(B.T, B.W, q).interceptStaging
    requires graph.interceptInstall == set q | q in B.W.own && Def(B.T, B.W, q).interceptInstall
    requires StagingSet(B.T, B.W, p) <= B.W.own.Keys && InstallSet(B.T, B.W, p) <= B.W.own.Keys
    requires !Def(B.T, B.W, p).extractsDeps ==> package.installDir == map[] && InstallSet(B.T, B.W, p) == {}
    modifies package`stagingDir, package`installDir
    ensures ok <==>
              && (forall q :: q in StagingSet(B.T, B.W, p) ==> disk[q].staging.Some? && q !in broken)
              && (Def(B.T, B.W, p).extractsDeps ==> removes)
              && (forall q :: q in InstallSet(B.T, B.W, p) ==> disk[q].install.Some? && q !in broken)
    ensures ok ==>
              && package.stagingDir.Keys == StagingSet(B.T, B.W, p)
              && (forall q :: q in package.stagingDir ==> disk[q].staging == Some(package.stagingDir[q]))
              && package.installDir.Keys == InstallSet(B.T, B.W, p)
              && (forall q :: q in package.installDir ==> disk[q].install == Some(package.installDir[q]))
    ensures package.Valid()
    ensures package.Contents() == disk[p].(stagingDir := package.stagingDir, installDir := package.installDir)
  {
    hide WorldOk, StagingSet, InstallSet, DependsMap, Def;
    ok := package.PrepareBuildDirs(B, p, graph, all, broken);
    if ok {
      ok := package.ExtractInstallDepends(B, p, graph, all, removes, broken);
    }
  }

  /** packageNewStaging. */
  method PackNewStaging(B: Setup, p: Package, package: PackageObject, tars: bool, left: Option<string>,
                        ghost disk: Disk) returns (ok: bool)
    requires package.Valid() && OnDisk(B, disk, p) && disk[p] == package.Contents() && package.newOut.Some?
    modifies package
    ensures package.Valid()
    ensures IsStep(B, disk, p, PackStaging, Goto(if ok then PackInstall else Leave(false)), Effect(0, left),
                   package.Contents())
  {
    ok := package.PackageNewStaging(tars, left);
    hide OnDisk;
  }

  /** packageNewInstall. */
  method PackNewInstall(B: Setup, p: Package, package: PackageObject, tars: bool, left: Option<string>,
                        ghost disk: Disk) returns (ok: bool)
    requires package.Valid() && OnDisk(B, disk, p) && disk[p] == package.Contents() && package.newOut.Some?
    modifies package
    ensures package.Valid()
    ensures IsStep(B, disk, p, PackInstall, Goto(if ok then Record else Leave(false)), Effect(0, left),
                   package.Contents())
  {
    ok := package.PackageNewInstall(tars, left);
    hide OnDisk;
  }

  /** The three steps of updateBuildInfo from fs to fs', as far as they go. */
  ghost predicate Updates(B: Setup, disk: Disk, p: Package, opens: bool, lists: bool, left: Option<string>, fs': Files)
    requires p in disk && p in B.W.own
  {
    var hashOutput := Def(B.T, B.W, p).hashOutput;
    var renamed := Renamed(disk[p]);
    var emptied := Emptied(renamed, hashOutput);
    if disk[p].buildInfoNew.None? then
      IsStep(B, disk, p, Record, Throw, Effect(0, None), fs')
    else
      && IsStep(B, disk, p, Record, Goto(Truncate), Effect(0, None), renamed)
      && if hashOutput && !opens then
           IsStep(B, disk[p := renamed], p, Truncate, Throw, Effect(0, None), fs')
         else
           && IsStep(B, disk[p := renamed], p, Truncate, Goto(List), Effect(0, None), emptied)
           && IsStep(B, disk[p := emptied], p, List, if hashOutput && !lists then Throw else Goto(Clear),
                     Effect(0, left), fs')
  }

  lemma UpdatedIsSteps(B: Setup, disk: Disk, p: Package, opens: bool, lists: bool, left: Option<string>, fs': Files)
    requires OnDisk(B, disk, p) && disk[p].newOut.Some?
    requires var fs, hashOutput := disk[p], Def(B.T, B.W, p).hashOutput;
             fs' == if fs.buildInfoNew.None? then fs
                    else if !(hashOutput && opens) then Renamed(fs)
                    else if lists then Listed(B.T, Emptied(Renamed(fs), true), true)
                    else Renamed(fs).(outputInfo := Spilt(Some(""), left))
    ensures Updates(B, disk, p, opens, lists, left, fs')
  {
    var hashOutput := Def(B.T, B.W, p).hashOutput;
    var renamed := Renamed(disk[p]);
    var emptied := Emptied(renamed, hashOutput);
    OwnFilesDoNotMatter(B, disk, disk[p := renamed], p);
    OwnFilesDoNotMatter(B, disk, disk[p := emptied], p);
    RecordSteps(B, disk, p);
    TruncateSteps(B, disk[p := renamed], p);
    ListSteps(B, disk[p := emptied], p, hashOutput && !lists, left);
    hide OnDisk, IsStep;
  }

  lemma RecordSteps(B: Setup, disk: Disk, p: Package)
    requires OnDisk(B, disk, p)
    ensures IsStep(B, disk, p, Record, Throw, Effect(0, None), disk[p])
    ensures disk[p].buildInfoNew.Some? ==> IsStep(B, disk, p, Record, Goto(Truncate), Effect(0, None), Renamed(disk[p]))
  {
    hide OnDisk;
  }

  lemma TruncateSteps(B: Setup, disk: Disk, p: Package)
    requires OnDisk(B, disk, p)
    ensures IsStep(B, disk, p, Truncate, Throw, Effect(0, None), disk[p])
    ensures IsStep(B, disk, p, Truncate, Goto(List), Effect(0, None), Emptied(disk[p], Def(B.T, B.W, p).hashOutput))
  {
    hide OnDisk;
  }

  lemma ListSteps(B: Setup, disk: Disk, p: Package, fails: bool, left: Option<string>)
    requires OnDisk(B, disk, p) && disk[p].newOut.Some? && (fails ==> Def(B.T, B.W, p).hashOutput)
    ensures IsStep(B, disk, p, List, if fails then Throw else Goto(Clear), Effect(0, left),
              if fails then disk[p].(outputInfo := Spilt(disk[p].outputInfo, left))
              else Listed(B.T, disk[p], Def(B.T, B.W, p).hashOutput))
  {
    hide OnDisk;
  }

  /** updateBuildInfo. */
  method RecordBuild(B: Setup, p: Package, package: PackageObject, opens: bool, lists: bool, left: Option<string>,
                ghost disk: Disk) returns (ok: bool)
    requires package.Valid() && OnDisk(B, disk, p) && disk[p] == package.Contents() && package.newOut.Some?
    modifies package
    ensures package.Valid() && Updates(B, disk, p, opens, lists, left, package.Contents())
    ensures ok <==> old(package.buildInfoNew.Some?) && (Def(B.T, B.W, p).hashOutput ==> opens && lists)
  {
    ok := package.UpdateBuildInfo(B.T, Def(B.T, B.W, p).hashOutput, true, opens, lists, left);
    UpdatedIsSteps(B, disk, p, opens, lists, left, package.Contents());
    hide OnDisk;
  }
}
