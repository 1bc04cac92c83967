/** The incremental build protocol on top of the scheduler: what each step of
    Package::build reads and writes on disk, and which steps that allows. */
module Incremental {
  import opened Packages
  import opened Scheduler
  import opened Descriptions
  import opened Worlds

  /** One package's files, and the two fields of the Package object that follow
      them: buildinfo_hash, and the assembled description once buildInfoPrepared
      is set. Archives and directories are opaque contents. */
  datatype Files = Files(
    buildInfo: Option<string>,        // work/.build.info
    buildInfoNew: Option<string>,     // work/.build.info.new
    outputInfo: Option<string>,       // work/.output.info
    staging: Option<string>,          // the staging archive
    install: Option<string>,          // the install archive
    stagingDir: map<Package, string>, // the archives extracted to build against
    installDir: map<Package, string>,
    newOut: Option<Output>,           // new/staging and new/install
    hash: string,
    text: Option<string>)

  type Disk = map<Package, Files>

  /** What the build cache has under one package and build-info hash. */
  datatype Entry = Entry(
    usable: bool,
    staging: Option<string>,
    install: Option<string>,
    outputInfo: Option<string>)

  type Cache = map<(Package, string), Entry>

  datatype Setup = Setup(
    cfg: Config,
    T: Tools,
    W: World,
    cache: Option<Cache>)  // None: no build cache is configured

  // ---------------------------------------------------------------------
  // prepareBuildInfo

  /** BuildDir::clean on the work directory. */
  function Wiped(fs: Files): Files {
    fs.(buildInfo := None, buildInfoNew := None, outputInfo := None)
  }

  function Cleaned(fs: Files, clean: bool): Files {
    if clean then Wiped(fs) else fs
  }

  /** The hash part of buildInfo(): "" when there is nothing to hash. */
  function HashFor(T: Tools, hashOutput: bool, fs: Files): string {
    if !hashOutput then fs.hash
    else if fs.outputInfo.Some? then T.digest(fs.outputInfo.value)
    else ""
  }

  /** The line that p adds for its dependency q. */
  function LineFor(T: Tools, W: World, disk: Disk, q: Package): BuildUnit
    requires q in W.own && q in disk
  {
    if Def(T, W, q).hashOutput then
      OutputInfoFile(T.workDir(q) + "/.output.info", HashFor(T, true, disk[q]))
    else
      BuildInfoFile(T.workDir(q) + "/.build.info", HashFor(T, false, disk[q]))
  }

  predicate Known(T: Tools, W: World, disk: Disk, p: Package)
    requires p in W.own
  {
    forall i :: 0 <= i < |Def(T, W, p).depends| ==>
      var q := Def(T, W, p).depends[i].package; q in W.own && q in disk
  }

  /** prepareBuildInfo would throw: a dependency has no hash. */
  predicate HashMissing(T: Tools, W: World, disk: Disk, p: Package)
    requires p in W.own && Known(T, W, disk, p)
  {
    exists i :: 0 <= i < |Def(T, W, p).depends| && LineFor(T, W, disk, Def(T, W, p).depends[i].package).text == ""
  }

  function LinesFor(T: Tools, W: World, disk: Disk, p: Package): (us: seq<BuildUnit>)
    requires p in W.own && Known(T, W, disk, p)
    ensures |us| == |Def(T, W, p).depends|
    ensures forall i :: 0 <= i < |us| ==> us[i] == LineFor(T, W, disk, Def(T, W, p).depends[i].package)
  {
    seq(|Def(T, W, p).depends|, i requires 0 <= i < |Def(T, W, p).depends| =>
      LineFor(T, W, disk, Def(T, W, p).depends[i].package))
  }

  function Assembled(T: Tools, W: World, disk: Disk, p: Package): string
    requires p in W.own && p in W.extraction && Known(T, W, disk, p)
  {
    Print(W.own[p] + [ExtractionUnit(T, W, p)] + LinesFor(T, W, disk, p))
  }

  /** writeBuildInfoFile. */
  function Written(T: Tools, fs: Files, text: string): Files {
    fs.(buildInfoNew := Some(text), hash := T.digest(text), text := Some(text))
  }

  /** prepareBuildInfo on already cleaned files; text is what it would assemble. */
  function Prepared(T: Tools, fs: Files, text: string): Files {
    if fs.text.Some? then
      if fs.buildInfoNew.None? then Written(T, fs, fs.text.value) else fs
    else Written(T, fs, text)
  }

  // ---------------------------------------------------------------------
  // shouldBuild, fetchFrom, updateBuildInfo

  /** Both archives exist and .build.info.new compares equal to .build.info. */
  predicate UpToDate(fs: Files) {
    fs.install.Some? && fs.staging.Some? && fs.buildInfo.Some? && fs.buildInfo == fs.buildInfoNew
  }

  function FilesToFetch(hashOutput: bool): nat {
    if hashOutput then 4 else 3
  }

  /** The first n of usable, staging.tar, install.tar and output.info are there. */
  predicate Available(e: Entry, n: nat) {
    && (n >= 1 ==> e.usable)
    && (n >= 2 ==> e.staging.Some?)
    && (n >= 3 ==> e.install.Some?)
    && (n >= 4 ==> e.outputInfo.Some?)
  }

  /** The files once the first n downloads have succeeded. */
  function Fetched(fs: Files, e: Entry, n: nat): Files {
    var fs1 := if n >= 2 then fs.(staging := e.staging) else fs;
    var fs2 := if n >= 3 then fs1.(install := e.install) else fs1;
    if n >= 4 then fs2.(outputInfo := e.outputInfo) else fs2
  }

  /** updateBuildInfo(false): the rename. */
  function Renamed(fs: Files): Files {
    fs.(buildInfo := fs.buildInfoNew, buildInfoNew := None)
  }

  /** updateBuildInfo(): the shell opens .output.info, which empties it. */
  function Emptied(fs: Files, hashOutput: bool): Files {
    if hashOutput then fs.(outputInfo := Some("")) else fs
  }

  /** updateBuildInfo(): the listing of the new directory is complete. */
  function Listed(T: Tools, fs: Files, hashOutput: bool): Files {
    if hashOutput && fs.newOut.Some? then fs.(outputInfo := Some(T.listing(fs.newOut.value))) else fs
  }

  /** What a command that failed left in the archive it was writing, or in
      .output.info, if anything. */
  function Spilt(before: Option<string>, left: Option<string>): Option<string> {
    if left.Some? then left else before
  }

  // ---------------------------------------------------------------------
  // The steps of Package::build

  /** fetchFrom looks something up and n downloads succeed. */
  predicate Downloads(B: Setup, fs: Files, p: Package, n: nat)
    requires p in B.W.own
  {
    && B.cache.Some? && fs.hash != ""
    && n <= FilesToFetch(Def(B.T, B.W, p).hashOutput)
    && (n > 0 ==> (p, fs.hash) in B.cache.value && Available(B.cache.value[(p, fs.hash)], n))
  }

  function EntryFor(B: Setup, fs: Files, p: Package): Entry {
    if B.cache.Some? && (p, fs.hash) in B.cache.value then B.cache.value[(p, fs.hash)]
    else Entry(false, None, None, None)
  }

  /** Files to install, and dependencies' files to extract, which counts as
      updated code, always mean a rebuild. */
  predicate AlwaysBuilt(def: Definition) {
    def.installFiles || def.extractsDeps
  }

  /** shouldBuild returns false, on the files as they are or as fetched. */
  predicate Skips(B: Setup, fs: Files, p: Package, n: nat)
    requires p in B.W.own
  {
    && !AlwaysBuilt(Def(B.T, B.W, p))
    && (UpToDate(fs) || (Downloads(B, fs, p, n) && n == FilesToFetch(Def(B.T, B.W, p).hashOutput)))
  }

  /** shouldBuild returns true. */
  predicate Rebuilds(B: Setup, fs: Files, p: Package, n: nat)
    requires p in B.W.own
  {
    || AlwaysBuilt(Def(B.T, B.W, p))
    || (!UpToDate(fs) && (B.cache.None? || fs.hash == ""))
    || (!UpToDate(fs) && Downloads(B, fs, p, n) && n < FilesToFetch(Def(B.T, B.W, p).hashOutput))
  }

  function Skipped(B: Setup, fs: Files, p: Package, n: nat): Files {
    if UpToDate(fs) then fs else Renamed(Fetched(fs, EntryFor(B, fs, p), n))
  }

  function Tried(B: Setup, fs: Files, p: Package, n: nat): Files
    requires p in B.W.own
  {
    if AlwaysBuilt(Def(B.T, B.W, p)) || B.cache.None? || fs.hash == "" then fs
    else Fetched(fs, EntryFor(B, fs, p), n)
  }

  ghost predicate ArchivesExist(B: Setup, disk: Disk, p: Package)
    requires WorldOk(B.T, B.W) && p in B.W.own
  {
    && (forall q :: q in StagingSet(B.T, B.W, p) ==> q in disk && disk[q].staging.Some?)
    && (forall q :: q in InstallSet(B.T, B.W, p) ==> q in disk && disk[q].install.Some?)
  }

  ghost function Staged(B: Setup, disk: Disk, p: Package): Files
    requires WorldOk(B.T, B.W) && p in B.W.own && p in disk && ArchivesExist(B, disk, p)
  {
    var staged, installed := StagingSet(B.T, B.W, p), InstallSet(B.T, B.W, p);
    disk[p].(stagingDir := map q | q in staged :: if q in staged then disk[q].staging.value else "",
             installDir := map q | q in installed :: if q in installed then disk[q].install.value else "")
  }

  ghost predicate OnDisk(B: Setup, disk: Disk, p: Package) {
    && WorldOk(B.T, B.W) && disk.Keys == B.W.own.Keys && p in B.W.own && Known(B.T, B.W, disk, p)
  }

  /** What a step does to the files besides its outcome: how many downloads
      succeed, and what a command that fails leaves in the file it writes. */
  datatype Effect = Effect(fetched: nat, left: Option<string>)

  /** The disk allows the innermost call f to move by o. */
  ghost predicate DiskMay(B: Setup, disk: Disk, f: Stack, o: Outcome, e: Effect)
    requires f.Frame? && OnDisk(B, disk, f.package)
  {
    var p := f.package;
    match f.pc
    case Prepare => o == Goto(Decide) ==> disk[p].text.Some? || !HashMissing(B.T, B.W, disk, p)
    case Decide =>
      f.locally ||
      if o == Goto(LocalDeps(0)) then Rebuilds(B, disk[p], p, e.fetched)
      else Skips(B, disk[p], p, e.fetched) && (o == Throw ==> !UpToDate(disk[p]))
    case Stage => o == Goto(Commands) ==> ArchivesExist(B, disk, p)
    case PackStaging => o == Goto(PackInstall) ==> disk[p].newOut.Some?
    case PackInstall => o == Goto(Record) ==> disk[p].newOut.Some?
    case Record => o == Goto(Truncate) ==> disk[p].buildInfoNew.Some?
    case List => o == Goto(Clear) ==> disk[p].newOut.Some?
    case _ => true
  }

  /** p's files after f's move. */
  ghost function FilesThen(B: Setup, disk: Disk, f: Stack, o: Outcome, e: Effect): Files
    requires f.Frame? && OnDisk(B, disk, f.package) && DiskMay(B, disk, f, o, e)
  {
    var p := f.package;
    var fs := disk[p];
    var def := Def(B.T, B.W, p);
    match f.pc
    case Prepare =>
      if o == Goto(Decide) then Prepared(B.T, Cleaned(fs, def.clean), Assembled(B.T, B.W, disk, p))
      else Cleaned(fs, def.clean)
    case Decide =>
      if f.locally then fs
      else if o == Goto(Leave(true)) then Skipped(B, fs, p, e.fetched)
      else Tried(B, fs, p, e.fetched)
    case Stage => if o == Goto(Commands) then Staged(B, disk, p) else fs
    case Commands =>
      if o == Goto(PackStaging) then
        fs.(newOut := Some(B.T.run(p, B.W.own[p], B.W.extraction[p], fs.stagingDir, fs.installDir)))
      else fs
    case PackStaging =>
      fs.(staging := if o == Goto(PackInstall) then Some(fs.newOut.value.staging) else Spilt(fs.staging, e.left))
    case PackInstall =>
      fs.(install := if o == Goto(Record) then Some(fs.newOut.value.install) else Spilt(fs.install, e.left))
    case Record => if o == Goto(Truncate) then Renamed(fs) else fs
    case Truncate => if o == Goto(List) then Emptied(fs, def.hashOutput) else fs
    case List =>
      if o == Goto(Clear) then Listed(B.T, fs, def.hashOutput)
      else if def.hashOutput then fs.(outputInfo := Spilt(fs.outputInfo, e.left))
      else fs
    case _ => fs
  }

  // ---------------------------------------------------------------------
  // What failures do to the files

  /** q's output is hashed for d's description. */
  predicate HashedBy(T: Tools, W: World, d: Package, q: Package) {
    d in W.own && q in W.own && Def(T, W, q).hashOutput
    && exists i :: 0 <= i < |Def(T, W, d).depends| && Def(T, W, d).depends[i].package == q
  }

  predicate ListedBy(s: State, t: nat, p: Package) {
    && t < |s.phases| && s.phases[t].Building? && s.phases[t].stack.Frame?
    && s.phases[t].stack.package == p && s.phases[t].stack.pc.List?
  }

  /** p's .output.info is being written. */
  ghost predicate BeingListed(s: State, p: Package) {
    exists t :: ListedBy(s, t, p)
  }

  /** An .output.info that p's description needs is being written. */
  ghost predicate DependListed(B: Setup, s: State, p: Package) {
    exists q :: HashedBy(B.T, B.W, p, q) && BeingListed(s, q)
  }

  /** A dependency of p is spoiled. */
  ghost predicate DependSpoiled(B: Setup, spoiled: set<Package>, p: Package)
    requires p in B.W.own
  {
    exists i :: 0 <= i < |Def(B.T, B.W, p).depends| && Def(B.T, B.W, p).depends[i].package in spoiled
  }

  /** What p would now be described with is not reliable. */
  ghost predicate Misdescribed(B: Setup, s: BuildState, p: Package)
    requires p in B.W.own
  {
    DependSpoiled(B, s.spoiled, p) || DependListed(B, s.sched, p)
  }

  /** A package that p's directories are filled from is spoiled. */
  ghost predicate ClosureSpoiled(B: Setup, spoiled: set<Package>, p: Package)
    requires WorldOk(B.T, B.W) && p in B.W.own
  {
    exists q :: q in spoiled && (q in StagingSet(B.T, B.W, p) || q in InstallSet(B.T, B.W, p))
  }

  /** f's move makes its package's files unreliable for the rest of the run: a
      command fails over a file it was writing, or the package is described or
      built over a package that is unreliable, or described while a file that the
      description needs is being written. */
  ghost predicate Spoils(B: Setup, s: BuildState, f: Stack, o: Outcome, e: Effect)
    requires f.Frame? && OnDisk(B, s.disk, f.package)
  {
    var p := f.package;
    match f.pc
    case Prepare => o == Goto(Decide) && s.disk[p].text.None? && Misdescribed(B, s, p)
    case Stage => o == Goto(Commands) && ClosureSpoiled(B, s.spoiled, p)
    case PackStaging => Fails(o) && e.left.Some?
    case PackInstall => Fails(o) && e.left.Some?
    case List => Fails(o) && Def(B.T, B.W, p).hashOutput
    case _ => false
  }

  /** Whether f's package, whose files were fs and are now fs', is exposed after
      f's move. A restore from the cache that is not accepted, and packing, can
      leave the old .build.info beside new archives, and a new .build.info can be
      beside an old .output.info; the end of updateBuildInfo ends that. */
  predicate ExposedAfter(f: Stack, o: Outcome, fs: Files, fs': Files, hashOutput: bool, before: bool)
    requires f.Frame?
  {
    var torn := before || (fs' != fs && fs'.buildInfo.Some?);
    match f.pc
    case Decide => if o == Goto(Leave(true)) then false else torn
    case PackStaging => torn
    case PackInstall => torn
    case Record => if o == Goto(Truncate) then hashOutput && fs'.outputInfo.Some? else before
    case Truncate => torn
    case List => before && o != Goto(Clear)
    case _ => before
  }

  // ---------------------------------------------------------------------
  // Runs

  /** The two sets are not part of the program: they say which packages failures,
      or reads of half-written files, have made unreliable, and of which packages a build stopped, or now stands,
      between the replacement of a file and the end of updateBuildInfo. */
  datatype BuildState = BuildState(sched: State, disk: Disk, spoiled: set<Package>, exposed: set<Package>)

  /** An action of the scheduler, with its effect on the files. */
  datatype Move = Move(action: Action, effect: Effect)

  ghost predicate CanMove(B: Setup, s: BuildState, m: Move) {
    && May(B.cfg, s.sched, m.action)
    && (m.action.Work? ==>
          var f := s.sched.phases[m.action.t].stack;
          OnDisk(B, s.disk, f.package) && DiskMay(B, s.disk, f, m.action.o, m.effect))
  }

  ghost function Moved(B: Setup, s: BuildState, m: Move): BuildState
    requires CanMove(B, s, m)
  {
    if m.action.Work? then
      var f, o := s.sched.phases[m.action.t].stack, m.action.o;
      var p, fs' := f.package, FilesThen(B, s.disk, f, o, m.effect);
      BuildState(
        Then(B.cfg, s.sched, m.action),
        s.disk[p := fs'],
        if Spoils(B, s, f, o, m.effect) then s.spoiled + {p} else s.spoiled,
        if ExposedAfter(f, o, s.disk[p], fs', Def(B.T, B.W, p).hashOutput, p in s.exposed) then s.exposed + {p}
        else s.exposed - {p})
    else s.(sched := Then(B.cfg, s.sched, m.action))
  }

  ghost function AfterMoves(B: Setup, order: seq<Package>, disk: Disk, moves: seq<Move>): Option<BuildState> {
    if moves == [] then
      if Listing(B.cfg, order) then Some(BuildState(Init(order), disk, {}, {})) else None
    else
      var last := |moves| - 1;
      match AfterMoves(B, order, disk, moves[..last])
      case None => None
      case Some(s) => if CanMove(B, s, moves[last]) then Some(Moved(B, s, moves[last])) else None
  }

  // ---------------------------------------------------------------------
  // Where a run may start from

  /** W0 is a tree in which p's .build.info is fs's, and a clean build of which
      gives the archives and the .output.info that fs still has. */
  ghost predicate Describes(T: Tools, W0: World, p: Package, fs: Files) {
    && WorldOk(T, W0) && CutoffsCovered(T, W0) && p in W0.own
    && fs.buildInfo == Some(Text(T, W0, p))
    && (fs.staging.Some? ==> fs.staging.value == CleanOut(T, W0, p).staging)
    && (fs.install.Some? ==> fs.install.value == CleanOut(T, W0, p).install)
    && (Def(T, W0, p).hashOutput && fs.outputInfo.Some? ==> fs.outputInfo.value == T.listing(CleanOut(T, W0, p)))
  }

  /** If there is a .build.info it tells the truth about the files beside it. */
  ghost predicate Consistent(T: Tools, p: Package, fs: Files) {
    fs.buildInfo.Some? ==> exists W0 :: Describes(T, W0, p, fs)
  }

  /** A new Package object over files that an earlier run, or nobody, left. */
  ghost predicate Pristine(T: Tools, p: Package, fs: Files) {
    Consistent(T, p, fs) && fs.text.None? && fs.hash == ""
  }

  /** What the cache has under a build-info hash comes from a clean build of a
      tree with that build-info. */
  ghost predicate Honest(T: Tools, cache: Cache) {
    forall W0, p | WorldOk(T, W0) && CutoffsCovered(T, W0) && p in W0.own && (p, T.digest(Text(T, W0, p))) in cache ::
      EntryIsClean(T, W0, p, cache[(p, T.digest(Text(T, W0, p)))])
  }

  ghost predicate EntryIsClean(T: Tools, W: World, p: Package, e: Entry)
    requires WorldOk(T, W) && p in W.own
  {
    && (e.staging.Some? ==> e.staging.value == CleanOut(T, W, p).staging)
    && (e.install.Some? ==> e.install.value == CleanOut(T, W, p).install)
    && (e.outputInfo.Some? ==> e.outputInfo.value == T.listing(CleanOut(T, W, p)))
  }

  ghost predicate SetupOk(B: Setup) {
    && ToolsOk(B.T) && WorldOk(B.T, B.W) && CutoffsCovered(B.T, B.W)
    && B.cfg.depends == DependsMap(B.T, B.W)
    && Gated(B.cfg, B.W.rank)
    && B.cfg.suppressed == {} && !B.cfg.fetchOnly
    && (B.cache.Some? ==> Honest(B.T, B.cache.value))
  }

  ghost predicate DiskOk(B: Setup, disk: Disk) {
    && disk.Keys == B.W.own.Keys
    && forall p :: p in disk ==> Pristine(B.T, p, disk[p])
  }

  ghost predicate ReachableFrom(B: Setup, disk: Disk, s: BuildState) {
    exists order, moves :: AfterMoves(B, order, disk, moves) == Some(s)
  }
}
