/** Discovery ends: a bound on the length of every run. */
module WorklistBound {
  import opened Packages
  import opened Worklist
  import opened WorklistTheorems

  /** The longest depends list is at most this long. */
  ghost predicate AtMost(cfg: Config, most: nat) {
    forall p :: |DependsOn(cfg.depends, p)| <= most
  }

  function Minus(n: nat, i: nat): nat {
    if i < n then n - i else 0
  }

  /** Steps a thread has left. */
  function Steps(cfg: Config, w: Worker): nat {
    var n := |DependsOn(cfg.depends, w.package)|;
    match w.pc
    case Processing => 2 * n + 3
    case Looking(i) => 2 * Minus(n, i) + 2
    case Pushing(i) => 2 * Minus(n, i) + 1
    case Failing => 2
    case Finishing(_) => 1
    case Ended(_) => 0
  }

  function AllSteps(cfg: Config, workers: seq<Worker>): nat {
    if workers == [] then 0 else Steps(cfg, workers[0]) + AllSteps(cfg, workers[1..])
  }

  /** Steps main has left before it sleeps, returns or takes something. */
  function MainLeft(main: Main, pq: Contents): nat {
    match main
    case AtDone => if Drained(pq) then 1 else if pq.queue == [] then 4 else 2
    case AtPop => if pq.queue == [] then 3 else 1
    case Popped(_) => 6
    case Spawning(_) => 5
    case AtWait => if pq.queue == [] then 2 else 3
    case Asleep => 0
    case Returned => 0
  }

  function Item(most: nat): nat {
    20 * most + 30
  }

  /** Packages that are still to be popped. */
  function Coming(cfg: Config, s: State): nat {
    |cfg.depends.Keys - s.queued| + |AllPending(cfg, s.workers)| + |s.pq.queue|
  }

  function Times(k: nat, n: nat): nat {
    if n == 0 then 0 else Times(k, n - 1) + k
  }

  function StepsLeft(cfg: Config, most: nat, s: State): nat {
    Times(Item(most) + 10, Coming(cfg, s)) + (if InHand(s.main) == [] then 0 else Item(most))
    + 10 * AllSteps(cfg, s.workers) + MainLeft(s.main, s.pq)
  }

  lemma {:induction false} MoreCostsMore(k: nat, a: nat, b: nat)
    requires a <= b
    ensures Times(k, a) <= Times(k, b)
    ensures a < b ==> Times(k, a) + k <= Times(k, b)
  {
    if a < b {
      MoreCostsMore(k, a, b - 1);
    }
  }

  lemma {:induction false} StepsUpdate(cfg: Config, workers: seq<Worker>, t: nat, w: Worker)
    requires t < |workers|
    ensures AllSteps(cfg, workers[t := w]) + Steps(cfg, workers[t]) == AllSteps(cfg, workers) + Steps(cfg, w)
  {
    if t > 0 {
      StepsUpdate(cfg, workers[1..], t - 1, w);
      assert workers[t := w][1..] == workers[1..][t - 1 := w];
    } else {
      assert workers[t := w][1..] == workers[1..];
    }
  }

  lemma {:induction false} StepsAppended(cfg: Config, workers: seq<Worker>, w: Worker)
    ensures AllSteps(cfg, workers + [w]) == AllSteps(cfg, workers) + Steps(cfg, w)
  {
    if workers != [] {
      StepsAppended(cfg, workers[1..], w);
      assert (workers + [w])[1..] == workers[1..] + [w];
    } else {
      assert (workers + [w])[1..] == [];
    }
  }

  lemma OneStep(cfg: Config, s: State, t: nat, ok: bool)
    requires WorkersOk(cfg, s) && May(s, Work(t, ok))
    ensures var s' := WorkThen(cfg, s, t, ok);
            s'.workers == s.workers[t := s'.workers[t]] && Steps(cfg, s'.workers[t]) < Steps(cfg, s.workers[t])
  {
    assert WorkerOk(cfg, s.queued, s.failed, s.workers[t]);
  }

  /** A thread's step uses up one of its steps. */
  lemma StepsFall(cfg: Config, s: State, t: nat, ok: bool)
    requires WorkersOk(cfg, s) && May(s, Work(t, ok))
    ensures AllSteps(cfg, WorkThen(cfg, s, t, ok).workers) < AllSteps(cfg, s.workers)
  {
    OneStep(cfg, s, t, ok);
    StepsUpdate(cfg, s.workers, t, WorkThen(cfg, s, t, ok).workers[t]);
    hide AllSteps, DependsOn, WorkThen, Steps, WorkersOk;
  }

  lemma SizesOf(a: multiset<Package>, b: multiset<Package>, c: multiset<Package>, d: multiset<Package>)
    requires a + b == c + d
    ensures |a| + |b| == |c| + |d|
  {
    assert |a + b| == |c + d|;
  }

  /** Packages to come are not made more by a thread's step: what is marked was
      unmarked before, what is pushed was pending. */
  lemma ComingStays(cfg: Config, s: State, t: nat, ok: bool)
    requires Complete(cfg.depends) && WorkersOk(cfg, s) && May(s, Work(t, ok))
    ensures Coming(cfg, WorkThen(cfg, s, t, ok)) <= Coming(cfg, s)
  {
    var s', w := WorkThen(cfg, s, t, ok), s.workers[t];
    MarkMoves(cfg, s, t, ok);
    PendingUpdate(cfg, s.workers, t, s'.workers[t]);
    SizesOf(AllPending(cfg, s'.workers), Pending(cfg, w), AllPending(cfg, s.workers), Pending(cfg, s'.workers[t]));
    QueueGrows(cfg, s, t, ok);
    UnmarkedFall(cfg, s, t, ok);
    hide AllPending, WorkThen, DependsOn, WorkersOk;
  }

  lemma QueueGrows(cfg: Config, s: State, t: nat, ok: bool)
    requires May(s, Work(t, ok))
    ensures var s' := WorkThen(cfg, s, t, ok);
            |s'.pq.queue| - |s.pq.queue| == |s'.pushed| - |s.pushed|
  {
  }

  lemma MarkOne(all: set<Package>, queued: set<Package>, q: Package)
    requires q in all && q !in queued
    ensures |all - (queued + {q})| + 1 == |all - queued|
  {
    assert all - queued == (all - (queued + {q})) + {q};
  }

  lemma QueuedMoves(cfg: Config, s: State, t: nat, ok: bool)
    requires Complete(cfg.depends) && May(s, Work(t, ok))
    ensures var s' := WorkThen(cfg, s, t, ok);
            if s'.queued == s.queued then Pending(cfg, s'.workers[t]) == multiset{}
            else exists q :: q in cfg.depends.Keys && q !in s.queued && s'.queued == s.queued + {q}
                             && Pending(cfg, s'.workers[t]) == multiset{q}
  {
    var w := s.workers[t];
    var deps := DependsOn(cfg.depends, w.package);
    if w.pc.Looking? && w.pc.i < |deps| && deps[w.pc.i].package !in s.queued {
      assert deps[w.pc.i].package in WorkThen(cfg, s, t, ok).queued;
    } else {
      assert WorkThen(cfg, s, t, ok).queued == s.queued;
    }
  }

  lemma UnmarkedFall(cfg: Config, s: State, t: nat, ok: bool)
    requires Complete(cfg.depends) && May(s, Work(t, ok))
    ensures var s' := WorkThen(cfg, s, t, ok);
            |cfg.depends.Keys - s'.queued| + |Pending(cfg, s'.workers[t])| <= |cfg.depends.Keys - s.queued|
  {
    QueuedMoves(cfg, s, t, ok);
    var s' := WorkThen(cfg, s, t, ok);
    hide WorkThen, Pending, Complete;
    if s'.queued != s.queued {
      var q :| q in cfg.depends.Keys && q !in s.queued && s'.queued == s.queued + {q}
               && Pending(cfg, s'.workers[t]) == multiset{q};
      MarkOne(cfg.depends.Keys, s.queued, q);
    }
  }

  lemma WorkMain(cfg: Config, s: State, t: nat, ok: bool)
    requires May(s, Work(t, ok))
    ensures var s' := WorkThen(cfg, s, t, ok);
            MainLeft(s'.main, s'.pq) <= MainLeft(s.main, s.pq) + 4 && InHand(s'.main) == InHand(s.main)
  {
  }

  lemma WorkFalls(cfg: Config, most: nat, s: State, t: nat, ok: bool)
    requires Complete(cfg.depends) && WorkersOk(cfg, s) && May(s, Work(t, ok))
    ensures StepsLeft(cfg, most, WorkThen(cfg, s, t, ok)) < StepsLeft(cfg, most, s)
  {
    ComingStays(cfg, s, t, ok);
    StepsFall(cfg, s, t, ok);
    WorkMain(cfg, s, t, ok);
    MoreCostsMore(Item(most) + 10, Coming(cfg, WorkThen(cfg, s, t, ok)), Coming(cfg, s));
    hide Coming, AllSteps, MainLeft, InHand, WorkThen, WorkersOk, Times;
  }

  lemma SpawnComing(cfg: Config, most: nat, s: State)
    requires AtMost(cfg, most) && s.main.Spawning?
    ensures Coming(cfg, MainThen(s)) == Coming(cfg, s)
    ensures AllSteps(cfg, MainThen(s).workers) <= AllSteps(cfg, s.workers) + 2 * most + 3
  {
    var w := Worker(s.main.package, Processing);
    StepsAppended(cfg, s.workers, w);
    Appended(cfg, s.workers, w);
    assert Pending(cfg, w) == multiset{};
    assert |DependsOn(cfg.depends, w.package)| <= most;
    hide AllPending, AllSteps, DependsOn;
  }

  lemma OtherComing(cfg: Config, s: State)
    requires May(s, MainStep) && !s.main.Spawning?
    ensures MainThen(s).workers == s.workers
    ensures if s.main.AtPop? && s.pq.queue != [] then Coming(cfg, MainThen(s)) == Coming(cfg, s) - 1
            else Coming(cfg, MainThen(s)) == Coming(cfg, s)
  {
    hide AllPending, AllSteps;
  }

  lemma MainLeftFalls(s: State)
    requires May(s, MainStep)
    ensures var s' := MainThen(s);
            if s.main.AtPop? && s.pq.queue != [] then
              InHand(s.main) == [] && MainLeft(s'.main, s'.pq) == 6
            else
              && MainLeft(s'.main, s'.pq) < MainLeft(s.main, s.pq)
              && (InHand(s'.main) == [] <==> InHand(s.main) == [] || s.main.Spawning?)
  {
  }

  lemma MainFalls(cfg: Config, most: nat, s: State)
    requires AtMost(cfg, most) && May(s, MainStep)
    ensures StepsLeft(cfg, most, MainThen(s)) < StepsLeft(cfg, most, s)
  {
    var s' := MainThen(s);
    MainLeftFalls(s);
    if s.main.Spawning? {
      SpawnComing(cfg, most, s);
    } else {
      OtherComing(cfg, s);
      if s.main.AtPop? && s.pq.queue != [] {
        MoreCostsMore(Item(most) + 10, Coming(cfg, s'), Coming(cfg, s));
      }
    }
    hide Coming, AllSteps, MainLeft, InHand, MainThen, Times;
  }

  // ---------------------------------------------------------------------
  // Runs

  function Wakeups(actions: seq<Action>): nat {
    if actions == [] then 0
    else Wakeups(actions[..|actions| - 1]) + if actions[|actions| - 1].SpuriousWakeup? then 1 else 0
  }

  lemma WakeupCosts(cfg: Config, most: nat, s: State)
    requires s.main.Asleep?
    ensures StepsLeft(cfg, most, s.(main := AtDone)) <= StepsLeft(cfg, most, s) + 4
  {
  }

  lemma StepFalls(cfg: Config, most: nat, s: State, a: Action)
    requires Complete(cfg.depends) && AtMost(cfg, most) && Inv(cfg, s) && May(s, a)
    ensures StepsLeft(cfg, most, Then(cfg, s, a)) < StepsLeft(cfg, most, s) + if a.SpuriousWakeup? then 5 else 0
  {
    hide StepsLeft, MainThen, WorkThen, AtMost, Complete;
    match a
    case MainStep => MainFalls(cfg, most, s);
    case SpuriousWakeup => WakeupCosts(cfg, most, s);
    case Work(t, ok) =>
      assert WorkersOk(cfg, s);
      WorkFalls(cfg, most, s, t, ok);
  }

  /** Every run ends, after a number of steps that depends only on the packages:
      discovery terminates under every schedule and every pattern of failures. */
  lemma {:induction false} RunsAreBounded(cfg: Config, most: nat, actions: seq<Action>)
    requires Complete(cfg.depends) && AtMost(cfg, most) && After(cfg, actions).Some?
    ensures |actions| + StepsLeft(cfg, most, After(cfg, actions).value)
         <= Times(20 * most + 40, |cfg.depends| + 1) + 2 + 5 * Wakeups(actions)
  {
    if actions == [] {
      assert cfg.depends.Keys - {} == cfg.depends.Keys;
      assert Init(cfg).pq.queue == [cfg.base];
      assert |cfg.depends.Keys| == |cfg.depends|;
    } else {
      var last := |actions| - 1;
      RunsAreBounded(cfg, most, actions[..last]);
      InvAlways(cfg, actions[..last]);
      StepFalls(cfg, most, After(cfg, actions[..last]).value, actions[last]);
    }
    hide StepsLeft, Then, Inv, Complete, Times;
  }
}
