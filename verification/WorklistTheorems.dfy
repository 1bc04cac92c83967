/** Discovery reaches every package, processes it once, and notices when it is
    done, under every schedule. */
module WorklistTheorems {
  import opened Digraph
  import opened Packages
  import opened Worklist

  // ---------------------------------------------------------------------
  // The invariant

  function PackagesIn(workers: seq<Worker>): (ps: seq<Package>)
    ensures |ps| == |workers| && forall i :: 0 <= i < |ps| ==> ps[i] == workers[i].package
  {
    seq(|workers|, i requires 0 <= i < |workers| => workers[i].package)
  }

  /** What main has popped and not yet given to a thread. */
  function InHand(main: Main): seq<Package> {
    if main.Popped? || main.Spawning? then [main.package] else []
  }

  function EndedCount(workers: seq<Worker>): nat {
    if workers == [] then 0 else (if workers[0].pc.Ended? then 1 else 0) + EndedCount(workers[1..])
  }

  /** What the worker has marked queued but not pushed yet. */
  function Pending(cfg: Config, w: Worker): multiset<Package> {
    var deps := DependsOn(cfg.depends, w.package);
    if w.pc.Pushing? && w.pc.i < |deps| then multiset{deps[w.pc.i].package} else multiset{}
  }

  function AllPending(cfg: Config, workers: seq<Worker>): multiset<Package> {
    if workers == [] then multiset{} else Pending(cfg, workers[0]) + AllPending(cfg, workers[1..])
  }

  predicate Lost(pc: Pc) {
    pc == Finishing(false) || pc == Ended(false)
  }

  /** The first n dependencies of p are marked queued. */
  predicate Marked(cfg: Config, queued: set<Package>, p: Package, n: nat) {
    forall j :: 0 <= j < n && j < |DependsOn(cfg.depends, p)| ==> DependsOn(cfg.depends, p)[j].package in queued
  }

  predicate WorkerOk(cfg: Config, queued: set<Package>, failed: bool, w: Worker) {
    var deps := DependsOn(cfg.depends, w.package);
    match w.pc
    case Looking(i) => i <= |deps| && Marked(cfg, queued, w.package, i)
    case Pushing(i) => i < |deps| && Marked(cfg, queued, w.package, i + 1)
    case Finishing(ok) => if ok then Marked(cfg, queued, w.package, |deps|) else failed
    case Ended(ok) => if ok then Marked(cfg, queued, w.package, |deps|) else failed
    case _ => true
  }

  /** p is the base package, or discovered from it. */
  ghost predicate Discovered(cfg: Config, p: Package) {
    p == cfg.base || Reaches(Targets(cfg.depends), cfg.base, p)
  }

  /** Every package pushed is with a thread, in main's hand or in the queue. */
  predicate HistoryOk(s: State) {
    s.pushed == PackagesIn(s.workers) + InHand(s.main) + s.pq.queue
  }

  predicate CountersOk(s: State) {
    && s.pq.started == |s.workers| + (if s.main.Spawning? then 1 else 0)
    && s.pq.finished == EndedCount(s.workers)
  }

  /** After the base package, exactly the marked packages are or will be pushed,
      each once. */
  predicate MarksOk(cfg: Config, s: State) {
    && s.pushed != [] && s.pushed[0] == cfg.base
    && multiset(s.pushed[1..]) + AllPending(cfg, s.workers) == multiset(s.queued)
  }

  ghost predicate OriginsOk(cfg: Config, s: State) {
    && (forall q :: q in s.queued ==> Reaches(Targets(cfg.depends), cfg.base, q))
    && forall t :: 0 <= t < |s.workers| ==> Discovered(cfg, s.workers[t].package)
  }

  predicate WorkersOk(cfg: Config, s: State) {
    forall t :: 0 <= t < |s.workers| ==> WorkerOk(cfg, s.queued, s.failed, s.workers[t])
  }

  ghost predicate FailureOk(s: State) {
    s.failed ==> exists t :: 0 <= t < |s.workers| && Lost(s.workers[t].pc)
  }

  predicate MainOk(s: State) {
    && (s.main.Asleep? ==> s.pq.started != s.pq.finished)
    && (s.main.Returned? ==> Drained(s.pq))
  }

  ghost predicate Inv(cfg: Config, s: State) {
    && HistoryOk(s) && CountersOk(s) && MarksOk(cfg, s) && OriginsOk(cfg, s)
    && WorkersOk(cfg, s) && FailureOk(s) && MainOk(s)
  }

  // ---------------------------------------------------------------------
  // Steps

  lemma {:induction false} EndedUpdate(workers: seq<Worker>, t: nat, w: Worker)
    requires t < |workers|
    ensures EndedCount(workers[t := w]) + (if workers[t].pc.Ended? then 1 else 0)
         == EndedCount(workers) + (if w.pc.Ended? then 1 else 0)
  {
    if t > 0 {
      EndedUpdate(workers[1..], t - 1, w);
      assert workers[t := w][1..] == workers[1..][t - 1 := w];
    } else {
      assert workers[t := w][1..] == workers[1..];
    }
  }

  lemma {:induction false} PendingUpdate(cfg: Config, workers: seq<Worker>, t: nat, w: Worker)
    requires t < |workers|
    ensures AllPending(cfg, workers[t := w]) + Pending(cfg, workers[t]) == AllPending(cfg, workers) + Pending(cfg, w)
  {
    if t > 0 {
      PendingUpdate(cfg, workers[1..], t - 1, w);
      var rest, rest' := AllPending(cfg, workers[1..]), AllPending(cfg, workers[1..][t - 1 := w]);
      assert workers[t := w][1..] == workers[1..][t - 1 := w];
      var first := Pending(cfg, workers[0]);
      assert (first + rest') + Pending(cfg, workers[t]) == first + (rest' + Pending(cfg, workers[t]));
    } else {
      assert workers[t := w][1..] == workers[1..];
    }
  }

  lemma {:induction false} Appended(cfg: Config, workers: seq<Worker>, w: Worker)
    ensures AllPending(cfg, workers + [w]) == AllPending(cfg, workers) + Pending(cfg, w)
    ensures EndedCount(workers + [w]) == EndedCount(workers) + (if w.pc.Ended? then 1 else 0)
  {
    hide Pending;
    if workers != [] {
      Appended(cfg, workers[1..], w);
      assert (workers + [w])[1..] == workers[1..] + [w];
    } else {
      assert (workers + [w])[1..] == [];
    }
  }

  lemma {:induction false} EndedAtMost(workers: seq<Worker>)
    ensures EndedCount(workers) <= |workers|
    ensures EndedCount(workers) == |workers| <==> forall t :: 0 <= t < |workers| ==> workers[t].pc.Ended?
  {
    if workers != [] {
      EndedAtMost(workers[1..]);
      if workers[0].pc.Ended? && (forall t :: 0 <= t < |workers| - 1 ==> workers[1..][t].pc.Ended?) {
        forall t | 0 <= t < |workers|
          ensures workers[t].pc.Ended?
        {
          if t > 0 {
            assert workers[1..][t - 1].pc.Ended?;
          }
        }
      }
    }
  }

  lemma DiscoveredInPushed(cfg: Config, s: State, p: Package)
    requires MarksOk(cfg, s) && OriginsOk(cfg, s) && p in s.pushed
    ensures Discovered(cfg, p)
  {
    if p != cfg.base {
      var i :| 0 <= i < |s.pushed| && s.pushed[i] == p;
      assert s.pushed[1..][i - 1] == p;
      assert p in multiset(s.pushed[1..]);
      assert p in multiset(s.queued);
    }
  }

  lemma SpawnKeeps(cfg: Config, s: State)
    requires Inv(cfg, s) && s.main.Spawning?
    ensures Inv(cfg, MainThen(s))
  {
    hide *;
    InvHas(cfg, s);
    SpawnHistory(cfg, s, MainThen(s));
    SpawnCounts(cfg, s, MainThen(s));
    SpawnWorkers(cfg, s, MainThen(s));
    InvFrom(cfg, MainThen(s));
  }

  lemma InvHas(cfg: Config, s: State)
    requires Inv(cfg, s)
    ensures HistoryOk(s) && CountersOk(s) && MarksOk(cfg, s) && OriginsOk(cfg, s)
    ensures WorkersOk(cfg, s) && FailureOk(s) && MainOk(s)
  {
    hide HistoryOk, CountersOk, MarksOk, OriginsOk, WorkersOk, FailureOk, MainOk;
  }

  lemma InvFrom(cfg: Config, s: State)
    requires HistoryOk(s) && CountersOk(s) && MarksOk(cfg, s) && OriginsOk(cfg, s)
    requires WorkersOk(cfg, s) && FailureOk(s) && MainOk(s)
    ensures Inv(cfg, s)
  {
    hide HistoryOk, CountersOk, MarksOk, OriginsOk, WorkersOk, FailureOk, MainOk;
  }

  lemma SpawnCounts(cfg: Config, s: State, s': State)
    requires MarksOk(cfg, s) && CountersOk(s) && FailureOk(s) && s.main.Spawning? && s' == MainThen(s)
    ensures MarksOk(cfg, s') && CountersOk(s') && FailureOk(s') && MainOk(s')
  {
    var w := Worker(s.main.package, Processing);
    Appended(cfg, s.workers, w);
    assert Pending(cfg, w) == multiset{};
    FailureStays(s, s');
    hide FailureOk, AllPending, EndedCount;
  }

  lemma SpawnWorkers(cfg: Config, s: State, s': State)
    requires OriginsOk(cfg, s) && WorkersOk(cfg, s) && s.main.Spawning? && s' == MainThen(s)
    requires Discovered(cfg, s.main.package)
    ensures OriginsOk(cfg, s') && WorkersOk(cfg, s')
  {
    hide Discovered;
    forall t | 0 <= t < |s.workers|
      ensures WorkerOk(cfg, s'.queued, s'.failed, s'.workers[t])
    {
      assert WorkerOk(cfg, s.queued, s.failed, s.workers[t]);
    }
    hide WorkerOk;
  }

  lemma SpawnHistory(cfg: Config, s: State, s': State)
    requires Inv(cfg, s) && s.main.Spawning? && s' == MainThen(s)
    ensures HistoryOk(s') && Discovered(cfg, s.main.package)
  {
    assert s.pushed[|s.workers|] == s.main.package;
    DiscoveredInPushed(cfg, s, s.main.package);
    assert PackagesIn(s'.workers) == PackagesIn(s.workers) + [s.main.package];
    hide MarksOk, WorkersOk, OriginsOk, FailureOk, Discovered;
  }

  /** Main's other steps touch neither marks nor threads. */
  lemma MainLeaves(cfg: Config, s: State)
    requires May(s, MainStep) && !s.main.Spawning?
    ensures var s' := MainThen(s);
            s'.workers == s.workers && s'.queued == s.queued && s'.pushed == s.pushed && s'.failed == s.failed
  {
  }

  lemma MainHistory(s: State)
    requires HistoryOk(s) && CountersOk(s) && May(s, MainStep) && !s.main.Spawning?
    ensures HistoryOk(MainThen(s)) && CountersOk(MainThen(s)) && MainOk(MainThen(s))
  {
    hide PackagesIn, EndedCount;
    if s.main.AtPop? && s.pq.queue != [] {
      assert s.pq.queue == [s.pq.queue[0]] + s.pq.queue[1..];
    }
  }

  lemma MainKeeps(cfg: Config, s: State)
    requires Inv(cfg, s) && May(s, MainStep)
    ensures Inv(cfg, MainThen(s))
  {
    if s.main.Spawning? {
      SpawnKeeps(cfg, s);
    } else {
      MainLeaves(cfg, s);
      MainHistory(s);
      FailureStays(s, MainThen(s));
      hide MainThen, HistoryOk, CountersOk, MainOk, FailureOk;
    }
  }

  lemma FailureStays(s: State, s': State)
    requires FailureOk(s) && (s'.failed ==> s.failed)
    requires |s.workers| <= |s'.workers|
    requires forall t :: 0 <= t < |s.workers| && Lost(s.workers[t].pc) ==> Lost(s'.workers[t].pc)
    ensures FailureOk(s')
  {
    if s.failed {
      var t :| 0 <= t < |s.workers| && Lost(s.workers[t].pc);
      assert Lost(s'.workers[t].pc);
    }
  }

  lemma PushBalances(pushed: seq<Package>, q: Package, a: multiset<Package>, a': multiset<Package>)
    requires pushed != [] && a == a' + multiset{q}
    ensures multiset((pushed + [q])[1..]) + a' == multiset(pushed[1..]) + a
  {
    assert (pushed + [q])[1..] == pushed[1..] + [q];
  }

  /** What a step does to the marks, the pushes and what is pending. */
  lemma MarkMoves(cfg: Config, s: State, t: nat, ok: bool)
    requires WorkersOk(cfg, s) && May(s, Work(t, ok))
    ensures var s', w := WorkThen(cfg, s, t, ok), s.workers[t];
            var deps, w' := DependsOn(cfg.depends, w.package), s'.workers[t];
            && s'.workers == s.workers[t := w']
            && if w.pc.Pushing? then
                 && w.pc.i < |deps| && s'.pushed == s.pushed + [deps[w.pc.i].package] && s'.queued == s.queued
                 && Pending(cfg, w) == multiset{deps[w.pc.i].package} && Pending(cfg, w') == multiset{}
               else
                 && s'.pushed == s.pushed && Pending(cfg, w) == multiset{}
                 && multiset(s'.queued) == multiset(s.queued) + Pending(cfg, w')
  {
    var s', w := WorkThen(cfg, s, t, ok), s.workers[t];
    assert WorkerOk(cfg, s.queued, s.failed, w);
    var deps := DependsOn(cfg.depends, w.package);
    if w.pc.Looking? && w.pc.i < |deps| && deps[w.pc.i].package !in s.queued {
      assert multiset(s'.queued) == multiset(s.queued) + multiset{deps[w.pc.i].package};
    } else {
      assert s'.queued == s.queued;
    }
  }

  lemma MarksKept(cfg: Config, s: State, t: nat, ok: bool)
    requires MarksOk(cfg, s) && WorkersOk(cfg, s) && May(s, Work(t, ok))
    ensures MarksOk(cfg, WorkThen(cfg, s, t, ok))
  {
    MarkMoves(cfg, s, t, ok);
    var s' := WorkThen(cfg, s, t, ok);
    PendingUpdate(cfg, s.workers, t, s'.workers[t]);
    var a, a' := AllPending(cfg, s.workers), AllPending(cfg, s'.workers);
    hide WorkersOk, WorkThen, Pending, AllPending, DependsOn;
    ghost var m, m' := multiset(s.pushed[1..]), multiset(s'.pushed[1..]);
    if s.workers[t].pc.Pushing? {
      assert a + multiset{} == a;
      PushBalances(s.pushed, s'.pushed[|s.pushed|], a, a');
      assert m' + a' == multiset(s'.queued);
    } else {
      ghost var p := Pending(cfg, s'.workers[t]);
      assert a' + multiset{} == a';
      assert m + (a + p) == (m + a) + p;
      assert m' + a' == multiset(s'.queued);
    }
  }

  lemma OriginsKept(cfg: Config, s: State, t: nat, ok: bool)
    requires OriginsOk(cfg, s) && May(s, Work(t, ok))
    ensures OriginsOk(cfg, WorkThen(cfg, s, t, ok))
  {
    var w := s.workers[t];
    if w.pc.Looking? && w.pc.i < |DependsOn(cfg.depends, w.package)| {
      var q := DependsOn(cfg.depends, w.package)[w.pc.i].package;
      DependIsEdge(cfg.depends, w.package, w.pc.i);
      EdgeReaches(Targets(cfg.depends), w.package, q);
      assert Discovered(cfg, w.package);
      if w.package != cfg.base {
        ReachesTransitive(Targets(cfg.depends), cfg.base, w.package, q);
      }
    }
  }

  lemma WorkersKept(cfg: Config, s: State, t: nat, ok: bool)
    requires WorkersOk(cfg, s) && May(s, Work(t, ok))
    ensures WorkersOk(cfg, WorkThen(cfg, s, t, ok))
  {
    var s' := WorkThen(cfg, s, t, ok);
    assert s.queued <= s'.queued && (s.failed ==> s'.failed);
    assert WorkerOk(cfg, s.queued, s.failed, s.workers[t]);
    forall u | 0 <= u < |s'.workers|
      ensures WorkerOk(cfg, s'.queued, s'.failed, s'.workers[u])
    {
      if u != t {
        assert WorkerOk(cfg, s.queued, s.failed, s.workers[u]);
      }
    }
  }

  lemma PushedByWork(cfg: Config, s: State, t: nat, ok: bool) returns (more: seq<Package>)
    requires May(s, Work(t, ok))
    ensures var s' := WorkThen(cfg, s, t, ok);
            && PackagesIn(s'.workers) == PackagesIn(s.workers) && InHand(s'.main) == InHand(s.main)
            && s'.pushed == s.pushed + more && s'.pq.queue == s.pq.queue + more
  {
    var s' := WorkThen(cfg, s, t, ok);
    assert PackagesIn(s'.workers) == PackagesIn(s.workers);
    more := s'.pushed[|s.pushed|..];
  }

  lemma HistoryKept(cfg: Config, s: State, t: nat, ok: bool)
    requires HistoryOk(s) && May(s, Work(t, ok))
    ensures HistoryOk(WorkThen(cfg, s, t, ok))
  {
    hide WorkThen, PackagesIn, InHand;
    var more := PushedByWork(cfg, s, t, ok);
  }

  lemma CounterMoves(cfg: Config, s: State, t: nat, ok: bool)
    requires May(s, Work(t, ok))
    ensures var s' := WorkThen(cfg, s, t, ok);
            && s'.workers == s.workers[t := s'.workers[t]] && !s.workers[t].pc.Ended?
            && s'.pq.started == s.pq.started
            && s'.pq.finished == s.pq.finished + (if s'.workers[t].pc.Ended? then 1 else 0)
            && s'.main == if s'.workers[t].pc.Ended? then Wake(s.main) else s.main
  {
  }

  lemma CountersKept(cfg: Config, s: State, t: nat, ok: bool)
    requires CountersOk(s) && MainOk(s) && May(s, Work(t, ok))
    ensures CountersOk(WorkThen(cfg, s, t, ok)) && MainOk(WorkThen(cfg, s, t, ok))
  {
    CounterMoves(cfg, s, t, ok);
    EndedUpdate(s.workers, t, WorkThen(cfg, s, t, ok).workers[t]);
    EndedAtMost(s.workers);
    hide EndedCount, WorkThen, NextPc, May;
  }

  lemma FailureKept(cfg: Config, s: State, t: nat, ok: bool)
    requires FailureOk(s) && May(s, Work(t, ok))
    ensures FailureOk(WorkThen(cfg, s, t, ok))
  {
    var s' := WorkThen(cfg, s, t, ok);
    if s.workers[t].pc.Failing? {
      assert Lost(s'.workers[t].pc);
    } else {
      FailureStays(s, s');
    }
  }

  lemma WorkKeeps(cfg: Config, s: State, t: nat, ok: bool)
    requires Inv(cfg, s) && May(s, Work(t, ok))
    ensures Inv(cfg, WorkThen(cfg, s, t, ok))
  {
    MarksKept(cfg, s, t, ok);
    OriginsKept(cfg, s, t, ok);
    WorkersKept(cfg, s, t, ok);
    HistoryKept(cfg, s, t, ok);
    CountersKept(cfg, s, t, ok);
    FailureKept(cfg, s, t, ok);
    hide MarksOk, OriginsOk, WorkersOk, HistoryOk, CountersOk, FailureOk, MainOk, WorkThen;
  }

  lemma StepKeeps(cfg: Config, s: State, a: Action)
    requires Inv(cfg, s) && May(s, a)
    ensures Inv(cfg, Then(cfg, s, a))
  {
    match a
    case MainStep => MainKeeps(cfg, s);
    case SpuriousWakeup =>
    case Work(t, ok) => WorkKeeps(cfg, s, t, ok);
  }

  lemma {:induction false} InvAlways(cfg: Config, actions: seq<Action>)
    ensures var s := After(cfg, actions); s.Some? ==> Inv(cfg, s.value)
  {
    if actions == [] {
      assert Init(cfg).pushed[1..] == [];
    } else {
      var last := |actions| - 1;
      InvAlways(cfg, actions[..last]);
      var r := After(cfg, actions[..last]);
      if r.Some? && May(r.value, actions[last]) {
        StepKeeps(cfg, r.value, actions[last]);
      }
    }
  }

  lemma ReachableInv(cfg: Config, s: State)
    requires Reachable(cfg, s)
    ensures Inv(cfg, s)
  {
    var actions :| After(cfg, actions) == Some(s);
    InvAlways(cfg, actions);
  }

  // ---------------------------------------------------------------------
  // Termination is detected exactly

  /** When done() says so, every thread has finished, so none can still push, and
      every package pushed has been through a thread. */
  lemma DoneMeansQuiet(cfg: Config, s: State)
    requires Reachable(cfg, s) && s.main.Returned?
    ensures forall t :: 0 <= t < |s.workers| ==> s.workers[t].pc.Ended?
    ensures PackagesIn(s.workers) == s.pushed && s.pq.queue == []
    ensures forall a :: !May(s, a)
  {
    ReachableInv(cfg, s);
    EndedAtMost(s.workers);
  }

  /** While main sleeps some finish() is still to come: no wakeup is lost. */
  lemma SleepIsWatched(cfg: Config, s: State)
    requires Reachable(cfg, s) && s.main.Asleep?
    ensures exists t :: 0 <= t < |s.workers| && !s.workers[t].pc.Ended?
  {
    ReachableInv(cfg, s);
    EndedAtMost(s.workers);
  }

  /** Until process_packages returns, something can move. */
  lemma SomethingMoves(cfg: Config, s: State) returns (a: Action)
    requires Reachable(cfg, s) && !s.main.Returned?
    ensures May(s, a) && !a.SpuriousWakeup?
  {
    if s.main.Asleep? {
      SleepIsWatched(cfg, s);
      var t :| 0 <= t < |s.workers| && !s.workers[t].pc.Ended?;
      a := Work(t, true);
    } else {
      a := MainStep;
    }
  }

  /** Whatever happens, packages other than the base are processed at most once,
      the base at most twice, and nothing that is not needed. */
  lemma ProcessedAtMostOnce(cfg: Config, s: State, p: Package)
    requires Reachable(cfg, s)
    ensures multiset(PackagesIn(s.workers))[p] <= (if p == cfg.base then 1 else 0)
                                                 + (if Reaches(Targets(cfg.depends), cfg.base, p) then 1 else 0)
  {
    ReachableInv(cfg, s);
    assert s.pushed == [cfg.base] + s.pushed[1..];
    assert multiset(s.pushed)[p] == multiset{cfg.base}[p] + multiset(s.pushed[1..])[p];
    assert multiset(s.queued)[p] <= 1;
    assert p in multiset(s.queued) ==> Reaches(Targets(cfg.depends), cfg.base, p);
  }

  lemma WorkerOf(s: State, p: Package) returns (t: nat)
    requires HistoryOk(s) && s.main.Returned? && s.pq.queue == [] && p in s.pushed
    ensures t < |s.workers| && s.workers[t].package == p
  {
    t :| 0 <= t < |s.pushed| && s.pushed[t] == p;
  }

  lemma {:induction false} MarkedAlongPath(cfg: Config, s: State, path: seq<Package>)
    requires Inv(cfg, s) && s.main.Returned? && !s.failed
    requires forall t :: 0 <= t < |s.workers| ==> s.workers[t].pc.Ended?
    requires |path| >= 2 && IsPath(Targets(cfg.depends), path) && (path[0] == cfg.base || path[0] in s.queued)
    ensures path[|path| - 1] in s.queued
  {
    EndedAtMost(s.workers);
    PushedOrMarked(cfg, s, path[0]);
    var t := WorkerOf(s, path[0]);
    assert WorkerOk(cfg, s.queued, s.failed, s.workers[t]);
    var i := EdgeIsDepend(cfg.depends, path[0], path[1]);
    assert Marked(cfg, s.queued, path[0], |DependsOn(cfg.depends, path[0])|);
    assert DependsOn(cfg.depends, path[0])[i].package in s.queued;
    if |path| > 2 {
      MarkedAlongPath(cfg, s, path[1..]);
    }
  }

  lemma {:induction false} NothingPending(cfg: Config, workers: seq<Worker>)
    requires forall t :: 0 <= t < |workers| ==> workers[t].pc.Ended?
    ensures AllPending(cfg, workers) == multiset{}
  {
    if workers != [] {
      assert workers[0].pc.Ended?;
      NothingPending(cfg, workers[1..]);
    }
  }

  lemma PushedOrMarked(cfg: Config, s: State, p: Package)
    requires MarksOk(cfg, s) && (p == cfg.base || p in s.queued)
    requires forall t :: 0 <= t < |s.workers| ==> s.workers[t].pc.Ended?
    ensures p in s.pushed
  {
    NothingPending(cfg, s.workers);
    if p in s.queued {
      assert p in multiset(s.queued);
      assert p in multiset(s.pushed[1..]);
    }
  }

  /** Unless some package failed to process, discovery processes exactly the
      packages below the base: each once, and the base again if something that
      was discovered depends on it, because it was pushed without being marked. */
  lemma DiscoveryIsExact(cfg: Config, s: State, p: Package)
    requires Reachable(cfg, s) && s.main.Returned? && !s.failed
    ensures multiset(PackagesIn(s.workers))[p] == (if p == cfg.base then 1 else 0)
                                                 + (if Reaches(Targets(cfg.depends), cfg.base, p) then 1 else 0)
  {
    ReachableInv(cfg, s);
    DoneMeansQuiet(cfg, s);
    NothingPending(cfg, s.workers);
    var g := Targets(cfg.depends);
    assert s.pushed == [cfg.base] + s.pushed[1..];
    assert multiset(s.pushed)[p] == multiset{cfg.base}[p] + multiset(s.queued)[p];
    if Reaches(g, cfg.base, p) {
      var path :| |path| >= 2 && PathFromTo(g, path, cfg.base, p);
      MarkedAlongPath(cfg, s, path);
    }
    assert p in s.queued <==> Reaches(g, cfg.base, p);
  }

  /** What was discovered is closed under dependencies, so the graph filled from
      it is complete; with a failure process_packages reports it instead. */
  lemma DiscoveryIsComplete(cfg: Config, s: State, t: nat, i: nat)
    requires Reachable(cfg, s) && s.main.Returned?
    requires t < |s.workers| && i < |DependsOn(cfg.depends, s.workers[t].package)|
    ensures s.failed || DependsOn(cfg.depends, s.workers[t].package)[i].package in PackagesIn(s.workers)
    ensures s.failed <==> exists u :: 0 <= u < |s.workers| && Lost(s.workers[u].pc)
  {
    ReachableInv(cfg, s);
    DoneMeansQuiet(cfg, s);
    assert WorkerOk(cfg, s.queued, s.failed, s.workers[t]);
    if !s.failed {
      PushedOrMarked(cfg, s, DependsOn(cfg.depends, s.workers[t].package)[i].package);
    }
    forall u | 0 <= u < |s.workers| && Lost(s.workers[u].pc)
      ensures s.failed
    {
      assert WorkerOk(cfg, s.queued, s.failed, s.workers[u]);
    }
  }
}
