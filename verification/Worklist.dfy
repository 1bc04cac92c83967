/** The discovery of packages: PackageQueue, process_packages and the detached
    process_package threads, as an interleaved step system. */
module Worklist {
  import opened Packages

  /** What a PackageQueue holds. */
  datatype Contents = Contents(queue: seq<Package>, started: int, finished: int)

  function Pushed(c: Contents, p: Package): Contents {
    c.(queue := c.queue + [p])
  }

  function Started(c: Contents): Contents {
    c.(started := c.started + 1)
  }

  function Finished(c: Contents): Contents {
    c.(finished := c.finished + 1)
  }

  predicate Drained(c: Contents) {
    c.started == c.finished && c.queue == []
  }

  /** Nothing to pop, but some thread has not finished. */
  predicate MustWait(c: Contents) {
    c.started != c.finished && c.queue == []
  }

  /** Each method is one critical section of the queue's mutex. */
  class PackageQueue {
    var queue: seq<Package>
    var started: int
    var finished: int

    function State(): Contents
      reads this
    {
      Contents(queue, started, finished)
    }

    constructor ()
      ensures State() == Contents([], 0, 0)
    {
      queue, started, finished := [], 0, 0;
    }

    method Start()
      modifies this`started
      ensures State() == Started(old(State()))
    {
      started := started + 1;
    }

    /** Also wakes the thread asleep in Wait. */
    method Finish()
      modifies this`finished
      ensures State() == Finished(old(State()))
    {
      finished := finished + 1;
    }

    method Push(p: Package)
      modifies this`queue
      ensures State() == Pushed(old(State()), p)
    {
      queue := queue + [p];
    }

    /** The front of the queue, taken off it; None when it is empty. */
    method Pop() returns (p: Option<Package>)
      modifies this`queue
      ensures p.None? <==> old(State()).queue == []
      ensures State() == old(State()).(queue := queue)
      ensures old(State()).queue == (if p.Some? then [p.value] else []) + queue
    {
      p := None;
      if queue != [] {
        p := Some(queue[0]);
        queue := queue[1..];
      }
    }

    method Done() returns (r: bool)
      ensures r == Drained(State())
    {
      r := started == finished && queue == [];
    }

    /** Whether wait goes to sleep. */
    method Wait() returns (sleeps: bool)
      ensures sleeps == MustWait(State())
    {
      sleeps := false;
      if started != finished {
        sleeps := queue == [];
      }
    }
  }

  // ---------------------------------------------------------------------
  // The threads

  /** What processing each package's Lua file will declare, and the package that
      is pushed first. */
  datatype Config = Config(depends: Depends, base: Package)

  /** Where process_packages is. */
  datatype Main =
    | AtDone
    | AtPop
    | Popped(package: Package)   // start is next
    | Spawning(package: Package)
    | AtWait
    | Asleep
    | Returned

  /** Where a process_package thread is. */
  datatype Pc =
    | Processing       // in Package::process
    | Looking(i: nat)  // setProcessingQueued of dependency i is next
    | Pushing(i: nat)  // it said yes
    | Failing          // setFailed is next
    | Finishing(ok: bool)
    | Ended(ok: bool)

  datatype Worker = Worker(package: Package, pc: Pc)

  /** pushed is a history: every package ever pushed, in order. */
  datatype State = State(
    main: Main,
    pq: Contents,
    queued: set<Package>,   // the processing_queued flags
    workers: seq<Worker>,
    failed: bool,
    pushed: seq<Package>)

  datatype Action =
    | MainStep
    | SpuriousWakeup
    | Work(t: nat, ok: bool)  // ok: whether Package::process succeeds

  function Wake(main: Main): Main {
    if main.Asleep? then AtDone else main
  }

  function MainThen(s: State): State
    requires !s.main.Asleep? && !s.main.Returned?
  {
    match s.main
    case AtDone => s.(main := if Drained(s.pq) then Returned else AtPop)
    case AtPop =>
      if s.pq.queue == [] then s.(main := AtWait)
      else s.(main := Popped(s.pq.queue[0]), pq := s.pq.(queue := s.pq.queue[1..]))
    case Popped(p) => s.(main := Spawning(p), pq := Started(s.pq))
    case Spawning(p) => s.(main := AtWait, workers := s.workers + [Worker(p, Processing)])
    case AtWait => s.(main := if MustWait(s.pq) then Asleep else AtDone)
  }

  predicate May(s: State, a: Action) {
    match a
    case MainStep => !s.main.Asleep? && !s.main.Returned?
    case SpuriousWakeup => s.main.Asleep?
    case Work(t, ok) => t < |s.workers| && !s.workers[t].pc.Ended?
  }

  function NextPc(cfg: Config, queued: set<Package>, w: Worker, ok: bool): Pc
    requires !w.pc.Ended?
  {
    var deps := DependsOn(cfg.depends, w.package);
    match w.pc
    case Processing => if ok then Looking(0) else Failing
    case Looking(i) =>
      if i >= |deps| then Finishing(true)
      else if deps[i].package in queued then Looking(i + 1)
      else Pushing(i)
    case Pushing(i) => Looking(i + 1)
    case Failing => Finishing(false)
    case Finishing(r) => Ended(r)
  }

  /** One step of a process_package thread: an access to a shared object. */
  function WorkThen(cfg: Config, s: State, t: nat, ok: bool): State
    requires t < |s.workers| && !s.workers[t].pc.Ended?
  {
    var w := s.workers[t];
    var deps := DependsOn(cfg.depends, w.package);
    var s1 := s.(workers := s.workers[t := w.(pc := NextPc(cfg, s.queued, w, ok))]);
    match w.pc
    case Processing => s1
    case Looking(i) => if i < |deps| then s1.(queued := s.queued + {deps[i].package}) else s1
    case Pushing(i) =>
      if i < |deps| then s1.(pq := Pushed(s.pq, deps[i].package), pushed := s.pushed + [deps[i].package]) else s1
    case Failing => s1.(failed := true)
    case Finishing(_) => s1.(pq := Finished(s.pq), main := Wake(s.main))
  }

  function Then(cfg: Config, s: State, a: Action): State
    requires May(s, a)
  {
    match a
    case MainStep => MainThen(s)
    case SpuriousWakeup => s.(main := Wake(s.main))
    case Work(t, ok) => WorkThen(cfg, s, t, ok)
  }

  /** process_packages has pushed the base package, without marking it. */
  function Init(cfg: Config): State {
    State(AtDone, Pushed(Contents([], 0, 0), cfg.base), {}, [], false, [cfg.base])
  }

  function After(cfg: Config, actions: seq<Action>): Option<State> {
    if actions == [] then Some(Init(cfg))
    else
      var last := |actions| - 1;
      match After(cfg, actions[..last])
      case None => None
      case Some(s) => if May(s, actions[last]) then Some(Then(cfg, s, actions[last])) else None
  }

  ghost predicate Reachable(cfg: Config, s: State) {
    exists actions :: After(cfg, actions) == Some(s)
  }
}
