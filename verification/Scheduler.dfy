/** World::basePackage's build loop, its detached build threads and
    Package::build, as an interleaved step system.

    A step is one access to state that another thread can see: an atomic flag, a
    package's mutex, the scheduler's cond_lock. A run is a sequence of actions;
    which thread moves and how each command, fetch or archive ends is up to the
    action, so a statement about all runs covers every schedule and every
    pattern of failures. */
module Scheduler {
  import opened Digraph
  import opened Packages

  /** What does not change during the build phase. */
  datatype Config = Config(
    depends: Depends,
    base: Package,
    suppressed: set<Package>,  // forced mode: every package that was not forced
    fetchOnly: bool,
    keepGoing: bool,
    limit: nat)  // 0: no limit

  // ---------------------------------------------------------------------
  // Package::build, one stack frame at a time

  /** Where a call of Package::build is. */
  datatype Pc =
    | Lock                // waiting for the package's mutex
    | Check               // already built?
    | BuildDeps(i: nat)   // building dependency i, not locally
    | Suppress            // forced mode
    | Prepare             // clean, .extraction.info.new, .fetch.info, .build.info.new
    | Decide              // shouldBuild
    | LocalDeps(i: nat)   // building dependency i locally, if marked so
    | Fetch
    | Stage               // extract sources, staging and install directories
    | Commands
    | PackStaging
    | PackInstall
    | Record              // updateBuildInfo: renaming .build.info.new
    | Truncate            // the shell opens .output.info
    | List                // the listing of the output goes into it
    | Clear               // building = false
    | MarkBuilt           // built = true
    | MarkWasBuilt        // was_built = true
    | Leave(ok: bool)     // release the mutex and return ok

  /** The calls of Package::build on one thread, innermost first. */
  datatype Stack =
    | Bottom
    | Frame(package: Package, locally: bool, pc: Pc, caller: Stack)

  /** The packages' flags and mutexes. The three multisets only count: how often
      `building` was cleared, how often a package's commands ran to the end, and
      how often a build failed after that. */
  datatype Shared = Shared(
    built: set<Package>,
    wasBuilt: set<Package>,
    building: set<Package>,
    locks: map<Package, nat>,  // mutex -> the worker that holds it
    cleared: multiset<Package>,
    executed: multiset<Package>,
    aborted: multiset<Package>)

  /** How the innermost call moves. */
  datatype Outcome =
    | Goto(pc: Pc)
    | Call(package: Package, locally: bool)
    | Return(ok: bool)
    | Throw

  /** Points at which a build whose commands have finished can still fail. */
  predicate Packing(pc: Pc) {
    pc.PackStaging? || pc.PackInstall? || pc.Record? || pc.Truncate? || pc.List?
  }

  predicate Fails(o: Outcome) {
    o == Goto(Leave(false)) || o == Throw
  }

  predicate FrameMay(cfg: Config, sh: Shared, f: Stack, o: Outcome)
    requires f.Frame?
  {
    var deps := DependsOn(cfg.depends, f.package);
    match f.pc
    case Lock => f.package !in sh.locks && o == Goto(Check)
    case Check =>
      var done := f.package in (if f.locally then sh.wasBuilt else sh.built);
      o == Goto(if done then Leave(true) else BuildDeps(0))
    case BuildDeps(i) =>
      o == if i < |deps| then Call(deps[i].package, false) else Goto(Suppress)
    case Suppress =>
      o == Goto(if f.package in cfg.suppressed then Leave(true) else Prepare)
    case Prepare => o == Goto(Decide) || o == Throw
    case Decide =>
      || o == Goto(LocalDeps(0))
      || (!f.locally && (o == Goto(Leave(true)) || o == Throw))
    case LocalDeps(i) =>
      if i < |deps| then
        o == if deps[i].locally then Call(deps[i].package, true) else Goto(LocalDeps(i + 1))
      else
        o == Goto(Fetch)
    case Fetch => o == Goto(if cfg.fetchOnly then Clear else Stage) || Fails(o)
    case Stage => o == Goto(Commands) || Fails(o)
    case Commands => o == Goto(PackStaging) || Fails(o)
    case PackStaging => o == Goto(PackInstall) || Fails(o)
    case PackInstall => o == Goto(Record) || Fails(o)
    case Record => o == Goto(Truncate) || o == Throw
    case Truncate => o == Goto(List) || o == Throw
    case List => o == Goto(Clear) || o == Throw
    case Clear => o == Goto(MarkBuilt)
    case MarkBuilt => o == Goto(MarkWasBuilt)
    case MarkWasBuilt => o == Goto(Leave(true))
    case Leave(ok) => o == Return(ok)
  }

  /** Mutexes still held once worker t has unwound all its calls. */
  function Unwound(locks: map<Package, nat>, t: nat): map<Package, nat> {
    map p | p in locks && locks[p] != t :: locks[p]
  }

  function FrameThen(cfg: Config, t: nat, sh: Shared, f: Stack, o: Outcome): Shared
    requires f.Frame?
  {
    var p := f.package;
    var sh1 :=
      match f.pc
      case Lock => sh.(locks := sh.locks[p := t])
      case Suppress => if o == Goto(Leave(true)) then sh.(built := sh.built + {p}) else sh
      case Decide => if o == Goto(Leave(true)) then sh.(built := sh.built + {p}) else sh
      case Commands => if o == Goto(PackStaging) then sh.(executed := sh.executed + multiset{p}) else sh
      case Clear => sh.(building := sh.building - {p}, cleared := sh.cleared + multiset{p})
      case MarkBuilt => sh.(built := sh.built + {p})
      case MarkWasBuilt => sh.(wasBuilt := sh.wasBuilt + {p})
      case Leave(_) => sh.(locks := sh.locks - {p})
      case _ => sh;
    var sh2 := if Packing(f.pc) && Fails(o) then sh1.(aborted := sh1.aborted + multiset{p}) else sh1;
    if o == Throw then sh2.(locks := Unwound(sh2.locks, t)) else sh2
  }

  /** Where a caller goes on from once the call it made returned ok. */
  function Resume(pc: Pc, ok: bool): Pc {
    if !ok then Leave(false)
    else match pc
      case BuildDeps(i) => BuildDeps(i + 1)
      case LocalDeps(i) => LocalDeps(i + 1)
      case _ => pc
  }

  // ---------------------------------------------------------------------
  // Build threads

  /** A build thread: inside Package::build, then packageFinished or setFailed,
      then threadEnded. */
  datatype Phase =
    | Building(stack: Stack)
    | Finishing
    | Failing
    | Ending(ok: bool)
    | Ended(ok: bool)

  function PhaseThen(f: Stack, o: Outcome): Phase
    requires f.Frame?
  {
    match o
    case Goto(pc) => Building(f.(pc := pc))
    case Call(q, locally) => Building(Frame(q, locally, Lock, f))
    case Return(ok) =>
      if f.caller.Frame? then Building(f.caller.(pc := Resume(f.caller.pc, ok)))
      else if ok then Finishing
      else Failing
    case Throw => Failing
  }

  // ---------------------------------------------------------------------
  // The main thread

  /** Where basePackage is. Scan states hold the index into the topological
      order and the last ready package found so far; each is one atomic load of
      topoNext or canBuild. The Kg states are the keep-going epilogue. */
  datatype Main =
    | ReadFailed
    | ReadBuilt
    | WantLock
    | CheckLimit
    | ScanBuilt(i: nat, best: Option<Package>)
    | ScanBuilding(i: nat, best: Option<Package>)
    | ScanCan(i: nat, best: Option<Package>)
    | ScanDep(i: nat, best: Option<Package>, d: nat)
    | Picked(package: Package)
    | Asleep
    | Woken
    | AfterLoop
    | KgWantLock
    | KgReadBuilt
    | KgReadRunning
    | KgAsleep
    | KgWoken
    | Returning
    | Returned(result: bool)

  /** main holds cond_lock between two of its steps. */
  predicate HoldsCond(main: Main) {
    main.CheckLimit? || main.ScanBuilt? || main.ScanBuilding? || main.ScanCan? || main.ScanDep?
    || main.Picked? || main.KgReadBuilt? || main.KgReadRunning?
  }

  function Notify(main: Main): Main {
    match main
    case Asleep => Woken
    case KgAsleep => KgWoken
    case _ => main
  }

  datatype State = State(
    main: Main,
    order: seq<Package>,      // topo_graph's c
    workers: seq<Package>,    // the package each build thread was started for
    phases: seq<Phase>,
    shared: Shared,
    failed: bool,
    failedPackages: seq<Package>,
    running: int)             // threads_running

  predicate MainMay(main: Main) {
    !main.Asleep? && !main.KgAsleep? && !main.Returned?
  }

  function StartWorker(s: State, p: Package): State {
    s.(main := ReadFailed,
       workers := s.workers + [p],
       phases := s.phases + [Building(Frame(p, false, Lock, Bottom))],
       shared := s.shared.(building := s.shared.building + {p}),
       running := s.running + 1)
  }

  function MainThen(cfg: Config, s: State): State
    requires MainMay(s.main)
  {
    var sh := s.shared;
    match s.main
    case ReadFailed => s.(main := if s.failed then AfterLoop else ReadBuilt)
    case ReadBuilt => s.(main := if cfg.base in sh.built then AfterLoop else WantLock)
    case WantLock => s.(main := CheckLimit)
    case CheckLimit =>
      s.(main := if cfg.limit == 0 || s.running < cfg.limit then ScanBuilt(0, None) else Asleep)
    case ScanBuilt(i, best) =>
      if i >= |s.order| then
        s.(main := if best.Some? then Picked(best.value) else Asleep)
      else
        s.(main := if s.order[i] in sh.built then ScanBuilt(i + 1, best) else ScanBuilding(i, best))
    case ScanBuilding(i, best) =>
      if i < |s.order| && s.order[i] !in sh.building then s.(main := ScanCan(i, best))
      else s.(main := ScanBuilt(i + 1, best))
    case ScanCan(i, best) =>
      if i < |s.order| && s.order[i] in sh.built then s.(main := ScanBuilt(i + 1, Some(s.order[i])))
      else s.(main := ScanDep(i, best, 0))
    case ScanDep(i, best, d) =>
      if i >= |s.order| then s.(main := ScanBuilt(i, best))
      else
        var deps := DependsOn(cfg.depends, s.order[i]);
        if d >= |deps| then s.(main := ScanBuilt(i + 1, Some(s.order[i])))
        else if deps[d].package in sh.built then s.(main := ScanDep(i, best, d + 1))
        else s.(main := ScanBuilt(i + 1, best))
    case Picked(p) => if p in sh.building then s.(main := ReadFailed) else StartWorker(s, p)
    case Woken => s.(main := ReadFailed)
    case AfterLoop => s.(main := if cfg.keepGoing then KgWantLock else Returning)
    case KgWantLock => s.(main := KgReadBuilt)
    case KgReadBuilt => s.(main := if cfg.base in sh.built then Returning else KgReadRunning)
    case KgReadRunning => s.(main := if s.running > 0 then KgAsleep else Returning)
    case KgWoken => s.(main := KgWantLock)
    case Returning => s.(main := Returned(!s.failed))
  }

  // ---------------------------------------------------------------------
  // Actions and runs

  datatype Action =
    | MainStep
    | SpuriousWakeup
    | Work(t: nat, o: Outcome)               // a step inside Package::build
    | Finish(t: nat, order: seq<Package>)    // packageFinished
    | Fail(t: nat)                           // setFailed
    | End(t: nat)                            // threadEnded

  /** order lists every package once. */
  ghost predicate Listing(cfg: Config, order: seq<Package>) {
    NoDuplicates(order) && forall p :: p in order <==> p in cfg.depends
  }

  ghost predicate May(cfg: Config, s: State, a: Action) {
    match a
    case MainStep => MainMay(s.main)
    case SpuriousWakeup => s.main.Asleep? || s.main.KgAsleep?
    case Work(t, o) =>
      t < |s.phases| && s.phases[t].Building? && s.phases[t].stack.Frame?
      && FrameMay(cfg, s.shared, s.phases[t].stack, o)
    case Finish(t, order) =>
      t < |s.phases| && s.phases[t].Finishing? && !HoldsCond(s.main) && Listing(cfg, order)
    case Fail(t) => t < |s.phases| && t < |s.workers| && s.phases[t].Failing? && !HoldsCond(s.main)
    case End(t) => t < |s.phases| && s.phases[t].Ending? && !HoldsCond(s.main)
  }

  function Then(cfg: Config, s: State, a: Action): State
    requires May(cfg, s, a)
  {
    match a
    case MainStep => MainThen(cfg, s)
    case SpuriousWakeup => s.(main := Notify(s.main))
    case Work(t, o) =>
      var f := s.phases[t].stack;
      s.(shared := FrameThen(cfg, t, s.shared, f, o), phases := s.phases[t := PhaseThen(f, o)])
    case Finish(t, order) =>
      s.(order := order, main := Notify(s.main), phases := s.phases[t := Ending(true)])
    case Fail(t) =>
      s.(failed := true, failedPackages := s.failedPackages + [s.workers[t]],
         main := Notify(s.main), phases := s.phases[t := Ending(false)])
    case End(t) =>
      s.(running := s.running - 1, main := Notify(s.main), phases := s.phases[t := Ended(s.phases[t].ok)])
  }

  const NOTHING_BUILT := Shared({}, {}, {}, map[], multiset{}, multiset{}, multiset{})

  /** The build phase starts with every package unbuilt and c a topological
      order of the whole graph. */
  function Init(order: seq<Package>): State {
    State(ReadFailed, order, [], [], NOTHING_BUILT, false, [], 0)
  }

  /** Where the actions lead from the start, if each of them is possible. */
  ghost function After(cfg: Config, order: seq<Package>, actions: seq<Action>): Option<State> {
    if actions == [] then
      if Listing(cfg, order) then Some(Init(order)) else None
    else
      var last := |actions| - 1;
      match After(cfg, order, actions[..last])
      case None => None
      case Some(s) => if May(cfg, s, actions[last]) then Some(Then(cfg, s, actions[last])) else None
  }

  ghost predicate Reachable(cfg: Config, s: State) {
    exists order, actions :: After(cfg, order, actions) == Some(s)
  }

  /** The dependency graph main has let through to the build phase: complete,
      ranked because the cycle gate found no cycle, and discovered from base. */
  ghost predicate Gated(cfg: Config, rank: map<Package, nat>) {
    && Complete(cfg.depends)
    && Ranked(Targets(cfg.depends), rank)
    && cfg.base in cfg.depends
    && forall p :: p in cfg.depends && p != cfg.base ==> Reaches(Targets(cfg.depends), cfg.base, p)
  }
}
