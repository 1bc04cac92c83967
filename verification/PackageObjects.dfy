/** The file-handling methods of a Package object, proved against the functions
    that the incremental build protocol is stated with. */
module PackageObjects {
  import opened Digraph
  import opened Packages
  import opened Closures
  import opened Descriptions
  import opened Worlds
  import opened Incremental

  class PackageObject {
    var buildInfo: Option<string>
    var buildInfoNew: Option<string>
    var outputInfo: Option<string>
    var staging: Option<string>
    var install: Option<string>
    var stagingDir: map<Package, string>
    var installDir: map<Package, string>
    var newOut: Option<Output>
    var buildinfoHash: string
    var buildInfoPrepared: bool
    var codeUpdated: bool
    const description: BuildDescription

    ghost predicate Valid()
      reads this, description
    {
      description.Valid()
    }

    /** Everything the protocol knows about the package. */
    ghost function Contents(): (fs: Files)
      reads this, description
    {
      Files(buildInfo, buildInfoNew, outputInfo, staging, install, stagingDir, installDir, newOut, buildinfoHash,
            if buildInfoPrepared then Some(Print(description.units)) else None)
    }

    /** The lines recorded while the package was processed are in the description
        already; the files are whatever is there. */
    constructor (description: BuildDescription, fs: Files)
      requires description.Valid() && fs.text.None?
      ensures Valid() && Contents() == fs && this.description == description
      ensures !buildInfoPrepared && !codeUpdated
    {
      buildInfo, buildInfoNew, outputInfo := fs.buildInfo, fs.buildInfoNew, fs.outputInfo;
      staging, install, stagingDir, installDir := fs.staging, fs.install, fs.stagingDir, fs.installDir;
      newOut, buildinfoHash, buildInfoPrepared, codeUpdated := fs.newOut, fs.hash, false, false;
      this.description := description;
    }

    /** BuildDir::clean. */
    method Clean()
      requires Valid()
      modifies this
      ensures Valid() && Contents() == Wiped(old(Contents()))
    {
      buildInfo, buildInfoNew, outputInfo := None, None, None;
    }

    method WriteBuildInfoFile(T: Tools)
      requires Valid()
      modifies this`buildInfoNew, this`buildinfoHash
      ensures Valid() && buildInfoNew == Some(Print(description.units))
      ensures buildinfoHash == T.digest(Print(description.units))
    {
      var printed := description.PrintTo("");
      assert "" + Print(description.units) == Print(description.units);
      buildInfoNew := Some(printed);
      buildinfoHash := T.digest(printed);
    }

    /** buildInfo: the file that stands for the package in other descriptions. */
    method BuildInfo(T: Tools, W: World, q: Package, ghost disk: Disk) returns (line: BuildUnit)
      requires q in W.own && q in disk && disk[q].hash == buildinfoHash && disk[q].outputInfo == outputInfo
      ensures line == LineFor(T, W, disk, q)
    {
      if Def(T, W, q).hashOutput {
        var hash := if outputInfo.Some? then T.digest(outputInfo.value) else "";
        line := OutputInfoFile(T.workDir(q) + "/.output.info", hash);
      } else {
        line := BuildInfoFile(T.workDir(q) + "/.build.info", buildinfoHash);
      }
    }

    /** The loop of prepareBuildInfo; false at the first dependency without a hash. */
    method AddDepends(T: Tools, W: World, p: Package, all: map<Package, PackageObject>, ghost disk: Disk)
        returns (ok: bool)
      requires description.Valid() && p in W.own && Known(T, W, disk, p)
      requires forall q :: q in disk ==>
        q in all && disk[q].hash == all[q].buildinfoHash && disk[q].outputInfo == all[q].outputInfo
      modifies description
      ensures description.Valid()
      ensures ok <==> !HashMissing(T, W, disk, p)
      ensures ok ==> description.units == old(description.units) + LinesFor(T, W, disk, p)
    {
      hide *;
      ghost var lines := LinesFor(T, W, disk, p);
      MissingMeans(T, W, disk, p);
      var deps := Def(T, W, p).depends;
      var i := 0;
      while i < |deps|
        invariant 0 <= i <= |deps| && description.Valid()
        invariant description.units == old(description.units) + lines[..i]
        invariant forall j :: 0 <= j < i ==> lines[j].text != ""
      {
        LineAt(T, W, disk, p, i);
        var line := all[deps[i].package].BuildInfo(T, W, deps[i].package, disk);
        if line.text == "" {
          return false;
        }
        description.Add(line);
        assert lines[..i + 1] == lines[..i] + [line];
        i := i + 1;
      }
      assert lines[..i] == lines;
      ok := true;
    }

    /** prepareBuildInfo; false where it throws, which leaves the files alone. The
        description is assembled once; later calls only put the file back. */
    method PrepareBuildInfo(T: Tools, W: World, p: Package, all: map<Package, PackageObject>) returns (ok: bool)
      requires Valid() && p in W.own && p in W.extraction && Known(T, W, Snapshot(all), p)
      requires !buildInfoPrepared ==> description.units == W.own[p]
      modifies this`buildInfoNew, this`buildinfoHash, this`buildInfoPrepared, description
      ensures Valid()
      ensures ok <==> old(buildInfoPrepared) || !HashMissing(T, W, old(Snapshot(all)), p)
      ensures Contents() == if ok then Prepared(T, old(Contents()), Assembled(T, W, old(Snapshot(all)), p))
                            else old(Contents())
    {
      if buildInfoPrepared {
        if buildInfoNew.None? {
          WriteBuildInfoFile(T);
        }
        return true;
      }
      ghost var disk := Snapshot(all);
      description.Add(ExtractionUnit(T, W, p));
      ok := AddDepends(T, W, p, all, disk);
      if ok {
        WriteBuildInfoFile(T);
        buildInfoPrepared := true;
      }
      hide HashMissing, LinesFor, Print, Known, Snapshot;
    }

    /** updateBuildInfo; false where it throws: the rename without a new file, or,
        after the rename, the command that lists the output. The shell empties
        .output.info first, if it can open it; a command that fails leaves what it
        has written. The new directory is there whenever its listing is asked for. */
    method UpdateBuildInfo(T: Tools, hashOutput: bool, updateOutputHash: bool, opens: bool, lists: bool,
                           left: Option<string>)
        returns (ok: bool)
      requires Valid() && (updateOutputHash ==> newOut.Some?)
      modifies this`buildInfo, this`buildInfoNew, this`outputInfo
      ensures Valid()
      ensures ok <==> old(buildInfoNew.Some?) && (updateOutputHash && hashOutput ==> opens && lists)
      ensures var fs := old(Contents());
              Contents() == if fs.buildInfoNew.None? then fs
                            else if !(updateOutputHash && hashOutput && opens) then Renamed(fs)
                            else if lists then Listed(T, Emptied(Renamed(fs), true), true)
                            else Renamed(fs).(outputInfo := Spilt(Some(""), left))
    {
      ok := buildInfoNew.Some?;
      if ok {
        buildInfo, buildInfoNew := buildInfoNew, None;
        if updateOutputHash && hashOutput {
          ok := opens && lists;
          if opens {
            outputInfo := Some("");
            if lists {
              outputInfo := Some(T.listing(newOut.value));
            } else if left.Some? {
              outputInfo := left;
            }
          }
        }
      }
    }

    /** ff_file for file i of usable, staging.tar, install.tar and output.info; true
        on failure, of wget into the temporary file or of its rename. */
    method FfFile(e: Entry, i: nat, d: Download) returns (failed: bool)
      requires i < 4 && Valid()
      modifies this`staging, this`install, this`outputInfo
      ensures Valid()
      ensures failed <==> !(HasFile(e, i) && d.got && d.moved)
      ensures Contents() == if failed then old(Contents()) else Stored(old(Contents()), e, i)
    {
      var temp: Option<Option<string>> := None;
      if d.got && HasFile(e, i) {
        temp := Some(FileOf(e, i));
      }
      if temp.None? || !d.moved {
        return true;
      }
      if i == 1 {
        staging := temp.value;
      } else if i == 2 {
        install := temp.value;
      } else if i == 3 {
        outputInfo := temp.value;
      }
      failed := false;
    }

    /** fetchFrom: how many files were fetched, and whether that was not all of
        them; ok is false where updateBuildInfo throws. */
    method FetchFrom(B: Setup, p: Package, downloads: seq<Download>) returns (missed: bool, ok: bool, n: nat)
      requires Valid() && p in B.W.own && B.cache.Some? && |downloads| == 4
      modifies this`staging, this`install, this`outputInfo, this`buildInfo, this`buildInfoNew
      ensures Valid() && buildinfoHash == old(buildinfoHash)
      ensures var fs := old(Contents());
              if buildinfoHash == "" then missed && ok && n == 0 && Contents() == fs
              else
                && Downloads(B, fs, p, n)
                && (missed <==> n < FilesToFetch(Def(B.T, B.W, p).hashOutput))
                && (forall i :: 0 <= i < n ==> Arrives(EntryFor(B, fs, p), i, downloads[i]))
                && (missed ==> !Arrives(EntryFor(B, fs, p), n, downloads[n]))
                && (ok <==> missed || fs.buildInfoNew.Some?)
                && Contents() == if missed || !ok then Fetched(fs, EntryFor(B, fs, p), n)
                                 else Renamed(Fetched(fs, EntryFor(B, fs, p), n))
    {
      missed, ok, n := true, true, 0;
      if buildinfoHash == "" {
        return;
      }
      var key := (p, buildinfoHash);
      var e := if key in B.cache.value then B.cache.value[key] else Entry(false, None, None, None);
      missed := false;
      while n < FilesToFetch(Def(B.T, B.W, p).hashOutput) && !missed
        invariant n <= FilesToFetch(Def(B.T, B.W, p).hashOutput) && Valid() && buildinfoHash == old(buildinfoHash)
        invariant Contents() == Fetched(old(Contents()), e, n)
        invariant Available(e, n)
        invariant forall i :: 0 <= i < n ==> Arrives(e, i, downloads[i])
        invariant missed ==> n < FilesToFetch(Def(B.T, B.W, p).hashOutput) && !Arrives(e, n, downloads[n])
        decreases FilesToFetch(Def(B.T, B.W, p).hashOutput) - n, if missed then 0 else 1
      {
        missed := FfFile(e, n, downloads[n]);
        if !missed {
          n := n + 1;
        }
      }
      if !missed {
        ok := UpdateBuildInfo(B.T, Def(B.T, B.W, p).hashOutput, false, true, true, None);
      }
    }

    /** shouldBuild; None where it throws. Fetching dependencies' files sets
        codeUpdated, which only link and copy fetches do as well. What is not up to
        date is looked up in the cache, if there is one: n is the first file that
        does not arrive, and without one the package needs no build. */
    method ShouldBuild(B: Setup, p: Package, downloads: seq<Download>) returns (r: Option<bool>, n: nat)
      requires Valid() && p in B.W.own && |downloads| == 4
      requires Def(B.T, B.W, p).extractsDeps ==> codeUpdated
      modifies this`staging, this`install, this`outputInfo, this`buildInfo, this`buildInfoNew
      ensures Valid()
      ensures codeUpdated || Def(B.T, B.W, p).installFiles ==>
                r == Some(true) && n == 0 && Contents() == old(Contents())
      ensures !codeUpdated && !Def(B.T, B.W, p).installFiles ==>
                var fs := old(Contents());
                var e := EntryFor(B, fs, p);
                var needed := if Def(B.T, B.W, p).hashOutput then 4 else 3;
                if fs.install.Some? && fs.staging.Some? && fs.buildInfo.Some? && fs.buildInfo == fs.buildInfoNew then
                  r == Some(false) && Contents() == fs
                else if B.cache.None? || fs.hash == "" then
                  r == Some(true) && Contents() == fs
                else
                  && n <= needed && (forall i :: 0 <= i < n ==> Arrives(e, i, downloads[i]))
                  && (n < needed ==> !Arrives(e, n, downloads[n]))
                  && Contents() == (if n == needed && fs.buildInfoNew.Some? then Renamed(Fetched(fs, e, n))
                                    else Fetched(fs, e, n))
                  && r == if n < needed then Some(true) else if fs.buildInfoNew.Some? then Some(false) else None
      ensures r == Some(true) && (codeUpdated ==> Def(B.T, B.W, p).extractsDeps) ==>
                Rebuilds(B, old(Contents()), p, n) && Contents() == Tried(B, old(Contents()), p, n)
      ensures r == Some(false) ==> Skips(B, old(Contents()), p, n) && Contents() == Skipped(B, old(Contents()), p, n)
      ensures r.None? ==> Skips(B, old(Contents()), p, n) && !UpToDate(old(Contents())) && old(buildInfoNew).None?
    {
      n := 0;
      if codeUpdated {
        return Some(true), 0;
      }
      if Def(B.T, B.W, p).installFiles {
        return Some(true), 0;
      }
      var ret := false;
      if install.None? {
        ret := true;
      }
      if staging.None? {
        ret := true;
      }
      var same := buildInfo.Some? && buildInfoNew.Some? && buildInfo.value == buildInfoNew.value;
      if !same || ret {
        if B.cache.Some? {
          var missed, ok;
          missed, ok, n := FetchFrom(B, p, downloads);
          return if ok then Some(missed) else None, n;
        } else {
          ret := true;
        }
      }
      return Some(ret), 0;
    }

    /** extract_staging into another package's staging directory; false if there
        is no archive, or tar fails on it. */
    method ExtractStaging(into: PackageObject, q: Package, untars: bool) returns (ok: bool)
      modifies into`stagingDir
      ensures ok <==> staging.Some? && untars
      ensures into.stagingDir == if ok then old(into.stagingDir)[q := staging.value] else old(into.stagingDir)
    {
      ok := staging.Some? && untars;
      if ok {
        into.stagingDir := into.stagingDir[q := staging.value];
      }
    }

    /** The threads of prepareBuildDirs, in some order. */
    method ExtractAll(packages: set<Package>, all: map<Package, PackageObject>, broken: set<Package>)
        returns (ok: bool)
      requires packages <= all.Keys
      modifies this`stagingDir
      ensures ok <==> forall q :: q in packages ==> all[q].staging.Some? && q !in broken
      ensures ok ==> stagingDir.Keys == packages && forall q :: q in packages ==> all[q].staging == Some(stagingDir[q])
    {
      stagingDir := map[];
      var left := packages;
      ok := true;
      while ok && exists q :: q in left
        invariant left <= packages
        invariant ok ==> stagingDir.Keys == packages - left
        invariant ok ==> forall q :: q in packages - left ==> all[q].staging == Some(stagingDir[q]) && q !in broken
        invariant !ok ==> exists q :: q in packages && (all[q].staging.None? || q in broken)
        decreases left, ok
      {
        var q :| q in left;
        ok := all[q].ExtractStaging(this, q, q !in broken);
        left := left - {q};
      }
      assert ok ==> packages - left == packages;
    }

    /** packageNewStaging; a tar that fails can leave something in the archive. */
    method PackageNewStaging(tars: bool, left: Option<string>) returns (ok: bool)
      requires newOut.Some?
      modifies this`staging
      ensures ok == tars
      ensures staging == if tars then Some(newOut.value.staging) else if left.Some? then left else old(staging)
    {
      ok := tars;
      if ok {
        staging := Some(newOut.value.staging);
      } else if left.Some? {
        staging := left;
      }
    }

    /** packageNewInstall. */
    method PackageNewInstall(tars: bool, left: Option<string>) returns (ok: bool)
      requires newOut.Some?
      modifies this`install
      ensures ok == tars
      ensures install == if tars then Some(newOut.value.install) else if left.Some? then left else old(install)
    {
      ok := tars;
      if ok {
        install := Some(newOut.value.install);
      } else if left.Some? {
        install := left;
      }
    }

    /** prepareBuildDirs: the staging directory ends up with exactly the archives
        of the packages that p reaches without passing an intercept; tar fails on
        those of the broken packages. */
    method PrepareBuildDirs(B: Setup, p: Package, graph: DependencyGraph, all: map<Package, PackageObject>,
                            broken: set<Package>)
        returns (ok: bool)
      requires WorldOk(B.T, B.W) && p in B.W.own && all.Keys == B.W.own.Keys
      requires graph.depends == DependsMap(B.T, B.W)
      requires graph.interceptStaging == set q | q in B.W.own && Def(B.T, B.W, q).interceptStaging
      modifies this`stagingDir
      ensures ok <==> forall q :: q in StagingSet(B.T, B.W, p) ==> all[q].staging.Some? && q !in broken
      ensures ok ==> stagingDir.Keys == StagingSet(B.T, B.W, p)
      ensures ok ==> forall q :: q in StagingSet(B.T, B.W, p) ==> all[q].staging == Some(stagingDir[q])
    {
      WorldIsComplete(B.T, B.W);
      assert graph.interceptStaging == StagingCut(B.T, B.W);
      hide *;
      var packages := graph.StagingPackages(p);
      FoundIsStagingSet(B.T, B.W, p, packages);
      ok := ExtractAll(packages, all, broken);
    }

    /** extract_install into another package's directory of install files; false
        if there is no archive, or tar fails on it. */
    method ExtractInstall(into: PackageObject, q: Package, untars: bool) returns (ok: bool)
      modifies into`installDir
      ensures ok <==> install.Some? && untars
      ensures into.installDir == if ok then old(into.installDir)[q := install.value] else old(into.installDir)
    {
      ok := install.Some? && untars;
      if ok {
        into.installDir := into.installDir[q := install.value];
      }
    }

    /** The threads of extractInstallDepends, in some order. */
    method ExtractInstalls(packages: set<Package>, all: map<Package, PackageObject>, broken: set<Package>)
        returns (ok: bool)
      requires packages <= all.Keys
      modifies this`installDir
      ensures ok <==> forall q :: q in packages ==> all[q].install.Some? && q !in broken
      ensures ok ==> installDir.Keys == packages && forall q :: q in packages ==> all[q].install == Some(installDir[q])
    {
      installDir := map[];
      var left := packages;
      ok := true;
      while ok && exists q :: q in left
        invariant left <= packages
        invariant ok ==> installDir.Keys == packages - left
        invariant ok ==> forall q :: q in packages - left ==> all[q].install == Some(installDir[q]) && q !in broken
        invariant !ok ==> exists q :: q in packages && (all[q].install.None? || q in broken)
        decreases left, ok
      {
        var q :| q in left;
        ok := all[q].ExtractInstall(this, q, q !in broken);
        left := left - {q};
      }
      assert ok ==> packages - left == packages;
    }

    /** extractInstallDepends: the directory for install files, if there is one,
        ends up with exactly the archives of the direct dependencies, or of all
        packages that p reaches without passing an intercept. rm, which removes
        the old directory, can fail, and so does tar on the broken packages. */
    method ExtractInstallDepends(B: Setup, p: Package, graph: DependencyGraph, all: map<Package, PackageObject>,
                                 removes: bool, broken: set<Package>)
        returns (ok: bool)
      requires WorldOk(B.T, B.W) && p in B.W.own && all.Keys == B.W.own.Keys
      requires graph.depends == DependsMap(B.T, B.W)
      requires graph.interceptInstall == set q | q in B.W.own && Def(B.T, B.W, q).interceptInstall
      modifies this`installDir
      ensures !Def(B.T, B.W, p).extractsDeps ==> ok && installDir == old(installDir)
      ensures Def(B.T, B.W, p).extractsDeps ==>
                (ok <==> removes && forall q :: q in InstallSet(B.T, B.W, p) ==> all[q].install.Some? && q !in broken)
      ensures Def(B.T, B.W, p).extractsDeps && ok ==>
                && installDir.Keys == InstallSet(B.T, B.W, p)
                && forall q :: q in InstallSet(B.T, B.W, p) ==> all[q].install == Some(installDir[q])
    {
      if !Def(B.T, B.W, p).extractsDeps {
        return true;
      }
      if !removes {
        return false;
      }
      var directOnly := Def(B.T, B.W, p).directOnly;
      WorldIsComplete(B.T, B.W);
      hide *;
      var packages := graph.InstallPackages(p, directOnly);
      FoundIsInstallSet(B.T, B.W, p, graph.interceptInstall, packages);
      ok := ExtractInstalls(packages, all, broken);
    }
  }

  lemma LineAt(T: Tools, W: World, disk: Disk, p: Package, i: nat)
    requires p in W.own && Known(T, W, disk, p) && i < |Def(T, W, p).depends|
    ensures var q := Def(T, W, p).depends[i].package;
            q in W.own && q in disk && LinesFor(T, W, disk, p)[i] == LineFor(T, W, disk, q)
  {
    hide LineFor;
  }

  lemma FoundIsStagingSet(T: Tools, W: World, p: Package, found: set<Package>)
    requires WorldOk(T, W) && p in W.own
    requires forall q :: q in found <==> CutReaches(Targets(DependsMap(T, W)), StagingCut(T, W), p, q)
    ensures found == StagingSet(T, W, p) && found <= W.own.Keys
  {
    assert GraphOf(T, W) == Targets(DependsMap(T, W));
    var closure := Closure(T, W, StagingCut(T, W), p);
    hide WorldOk, CutReaches, Targets;
    forall q
      ensures q in found <==> q in closure
    {
    }
    assert found == closure;
  }

  lemma FoundIsInstallSet(T: Tools, W: World, p: Package, intercepts: set<Package>, found: set<Package>)
    requires WorldOk(T, W) && p in W.own && Def(T, W, p).extractsDeps
    requires intercepts == set q | q in W.own && Def(T, W, q).interceptInstall
    requires Def(T, W, p).directOnly ==> forall q :: q in found <==> Edge(Targets(DependsMap(T, W)), p, q)
    requires !Def(T, W, p).directOnly ==>
               forall q :: q in found <==> CutReaches(Targets(DependsMap(T, W)), intercepts, p, q)
    ensures found == InstallSet(T, W, p) && found <= W.own.Keys
  {
    var g := Targets(DependsMap(T, W));
    assert GraphOf(T, W) == g;
    WorldIsComplete(T, W);
    assert Closed(g) && g.Keys == W.own.Keys;
    var cut := InstallCut(T, W, Def(T, W, p).directOnly);
    assert cut == if Def(T, W, p).directOnly then g.Keys else intercepts;
    var closure := Closure(T, W, cut, p);
    hide WorldOk, CutReaches, Targets, Closed, Edge, Closure;
    forall q
      ensures q in found <==> q in closure
    {
      if Def(T, W, p).directOnly {
        CutEverywhereIsDirect(g, p, q);
      }
    }
    assert found == closure;
  }

  lemma MissingMeans(T: Tools, W: World, disk: Disk, p: Package)
    requires p in W.own && Known(T, W, disk, p)
    ensures HashMissing(T, W, disk, p) <==>
            exists i :: 0 <= i < |LinesFor(T, W, disk, p)| && LinesFor(T, W, disk, p)[i].text == ""
  {
    hide LineFor;
    var lines := LinesFor(T, W, disk, p);
    if HashMissing(T, W, disk, p) {
      var i :| 0 <= i < |Def(T, W, p).depends| && LineFor(T, W, disk, Def(T, W, p).depends[i].package).text == "";
      assert lines[i].text == "";
    }
  }

  /** How a download goes: wget's result, if the cache has the file, and the
      rename's. */
  datatype Download = Download(got: bool, moved: bool)

  predicate Arrives(e: Entry, i: nat, d: Download) {
    HasFile(e, i) && d.got && d.moved
  }

  /** What the cache has as file i; usable is an empty file. */
  function FileOf(e: Entry, i: nat): Option<string> {
    match i
    case 1 => e.staging
    case 2 => e.install
    case 3 => e.outputInfo
    case _ => Some("")
  }

  /** Whether the cache has file i. */
  predicate HasFile(e: Entry, i: nat) {
    match i
    case 0 => e.usable
    case 1 => e.staging.Some?
    case 2 => e.install.Some?
    case 3 => e.outputInfo.Some?
    case _ => false
  }

  function Stored(fs: Files, e: Entry, i: nat): Files {
    match i
    case 1 => fs.(staging := e.staging)
    case 2 => fs.(install := e.install)
    case 3 => fs.(outputInfo := e.outputInfo)
    case _ => fs
  }

  ghost function Snapshot(all: map<Package, PackageObject>): Disk
    reads all.Values, set q | q in all :: all[q].description
  {
    map q | q in all :: all[q].Contents()
  }
}
