/** The World object: its critical sections, each proved to be the step of the
    scheduler that it stands for. */
module BuildWorld {
  import opened Digraph
  import opened Packages
  import opened InternalGraphs
  import opened Scheduler
  import SchedulerBound

  /** main's next n steps with no other thread in between. */
  function Repeat(cfg: Config, s: State, n: nat): Option<State> {
    if n == 0 then Some(s)
    else
      match Repeat(cfg, s, n - 1)
      case None => None
      case Some(t) => if MainMay(t.main) then Some(MainThen(cfg, t)) else None
  }

  lemma Once(cfg: Config, s: State, n: nat, t: State)
    requires Repeat(cfg, s, n) == Some(t) && MainMay(t.main)
    ensures Repeat(cfg, s, n + 1) == Some(MainThen(cfg, t))
  {
  }

  /** So what holds of every reachable state holds of what the methods below do. */
  lemma {:induction false} RepeatStaysReachable(cfg: Config, s: State, n: nat)
    requires Reachable(cfg, s) && Repeat(cfg, s, n).Some?
    ensures Reachable(cfg, Repeat(cfg, s, n).value)
  {
    hide Reachable, MainThen, MainMay;
    if n > 0 {
      RepeatStaysReachable(cfg, s, n - 1);
      var t := Repeat(cfg, s, n - 1).value;
      assert MainMay(t.main);
      SchedulerBound.ReachableNext(cfg, t, MainStep);
    }
  }

  lemma SortedIsListing(cfg: Config, view: Graph, p: Package, order: seq<Package>)
    requires view.Keys == cfg.depends.Keys && Topological(Cleared(view, p), order)
    ensures Listing(cfg, order)
  {
    assert Cleared(view, p).Keys == cfg.depends.Keys;
  }

  /** What main does once topoNext has returned. */
  lemma AfterScan(cfg: Config, s: State, n: nat, t: State, best: Option<Package>)
    requires Repeat(cfg, s, n) == Some(t) && t.main == ScanBuilt(|t.order|, best)
    ensures best.None? ==> Repeat(cfg, s, n + 1) == Some(t.(main := Asleep))
    ensures best.Some? ==> Repeat(cfg, s, n + 2) == Some(
              if best.value in t.shared.building then t.(main := ReadFailed) else StartWorker(t, best.value))
  {
    Once(cfg, s, n, t);
    if best.Some? {
      Once(cfg, s, n + 1, t.(main := Picked(best.value)));
    }
  }

  class World {
    var order: seq<Package>
    var workers: seq<Package>
    var phases: seq<Phase>
    var shared: Shared
    var failed: bool
    var failedPackages: seq<Package>
    var threadsRunning: int

    function Contents(main: Main): State
      reads this
    {
      State(main, order, workers, phases, shared, failed, failedPackages, threadsRunning)
    }

    constructor (order: seq<Package>)
      ensures Contents(ReadFailed) == Init(order)
    {
      this.order, workers, phases, shared := order, [], [], NOTHING_BUILT;
      failed, failedPackages, threadsRunning := false, [], 0;
    }

    /** The waiter that notify_all wakes. */
    method NotifyAll(main: Main) returns (main': Main)
      ensures main' == Notify(main)
    {
      main' := match main
        case Asleep => Woken
        case KgAsleep => KgWoken
        case _ => main;
    }

    /** deleteNode and topological. */
    static method Resort(cfg: Config, p: Package, graph: InternalGraph) returns (sorted: seq<Package>)
      requires graph.Valid() && Acyclic(graph.view) && graph.view.Keys == cfg.depends.Keys && p in graph.view
      modifies graph
      ensures graph.Valid() && Acyclic(graph.view) && graph.view == Cleared(old(graph.view), p)
      ensures Topological(graph.view, sorted) && Listing(cfg, sorted)
    {
      ghost var view := graph.view;
      ghost var order := graph.PackageFinished(p);
      sorted := Rename(graph.nodeMap, graph.c);
      assert sorted == order;
      SortedIsListing(cfg, view, p, sorted);
      hide Cleared, Topological, Listing, Acyclic;
    }

    /** packageFinished: the worker's package is cleared from the graph, which is
        sorted again; that is the scheduler's step with the new order. */
    method PackageFinished(cfg: Config, main: Main, t: nat, graph: InternalGraph) returns (main': Main)
      requires t < |workers| && t < |phases| && phases[t].Finishing? && !HoldsCond(main)
      requires graph.Valid() && Acyclic(graph.view) && graph.view.Keys == cfg.depends.Keys && workers[t] in graph.view
      modifies this`order, this`phases, graph
      ensures graph.Valid() && Acyclic(graph.view) && graph.view == Cleared(old(graph.view), workers[t])
      ensures Topological(graph.view, order) && May(cfg, old(Contents(main)), Finish(t, order))
      ensures Contents(main') == Then(cfg, old(Contents(main)), Finish(t, order))
    {
      hide Cleared, Topological, Listing, Acyclic;
      var sorted := Resort(cfg, workers[t], graph);
      order := sorted;
      phases := phases[t := Ending(true)];
      main' := NotifyAll(main);
    }

    method SetFailed(cfg: Config, main: Main, t: nat) returns (main': Main)
      requires May(cfg, Contents(main), Fail(t))
      modifies this`failed, this`failedPackages, this`phases
      ensures Contents(main') == Then(cfg, old(Contents(main)), Fail(t))
    {
      failedPackages := failedPackages + [workers[t]];
      failed := true;
      phases := phases[t := Ending(false)];
      main' := NotifyAll(main);
    }

    method ThreadEnded(cfg: Config, main: Main, t: nat) returns (main': Main)
      requires May(cfg, Contents(main), End(t))
      modifies this`threadsRunning, this`phases
      ensures Contents(main') == Then(cfg, old(Contents(main)), End(t))
    {
      threadsRunning := threadsRunning - 1;
      phases := phases[t := Ended(phases[t].ok)];
      main' := NotifyAll(main);
    }

    /** canBuild. */
    method CanBuild(cfg: Config, i: nat, best: Option<Package>, ghost s: State, ghost n: nat)
        returns (yes: bool, ghost n': nat)
      requires i < |order| && Repeat(cfg, s, n) == Some(Contents(ScanCan(i, best)))
      ensures yes <==> order[i] in shared.built || DepsBuilt(cfg.depends, shared.built, order[i])
      ensures Repeat(cfg, s, n') == Some(Contents(ScanBuilt(i + 1, if yes then Some(order[i]) else best)))
    {
      hide Repeat;
      n' := n + 1;
      Once(cfg, s, n, Contents(ScanCan(i, best)));
      if order[i] in shared.built {
        return true, n';
      }
      var deps := DependsOn(cfg.depends, order[i]);
      var d := 0;
      while d < |deps|
        invariant 0 <= d <= |deps| && forall j :: 0 <= j < d ==> deps[j].package in shared.built
        invariant Repeat(cfg, s, n') == Some(Contents(ScanDep(i, best, d)))
      {
        Once(cfg, s, n', Contents(ScanDep(i, best, d)));
        n' := n' + 1;
        if deps[d].package !in shared.built {
          return false, n';
        }
        d := d + 1;
      }
      Once(cfg, s, n', Contents(ScanDep(i, best, d)));
      return true, n' + 1;
    }

    /** topoNext: the last package of the order that is ready. */
    method TopoNext(cfg: Config, ghost s: State, ghost n: nat) returns (best: Option<Package>, ghost n': nat)
      requires Repeat(cfg, s, n) == Some(Contents(ScanBuilt(0, None)))
      ensures best.None? ==>
                forall j :: 0 <= j < |order| ==> !Ready(cfg.depends, shared.built, shared.building, order[j])
      ensures best.Some? ==>
                exists i :: 0 <= i < |order| && order[i] == best.value
                  && Ready(cfg.depends, shared.built, shared.building, order[i])
                  && forall j :: i < j < |order| ==> !Ready(cfg.depends, shared.built, shared.building, order[j])
      ensures Repeat(cfg, s, n') == Some(Contents(ScanBuilt(|order|, best)))
    {
      hide Repeat;
      best, n' := None, n;
      ghost var at := 0;
      var i := 0;
      while i < |order|
        invariant 0 <= i <= |order|
        invariant best.None? ==> forall j :: 0 <= j < i ==> !Ready(cfg.depends, shared.built, shared.building, order[j])
        invariant best.Some? ==>
                    && 0 <= at < i && order[at] == best.value
                    && Ready(cfg.depends, shared.built, shared.building, order[at])
                    && forall j :: at < j < i ==> !Ready(cfg.depends, shared.built, shared.building, order[j])
        invariant Repeat(cfg, s, n') == Some(Contents(ScanBuilt(i, best)))
      {
        var p := order[i];
        Once(cfg, s, n', Contents(ScanBuilt(i, best)));
        n' := n' + 1;
        if p !in shared.built {
          Once(cfg, s, n', Contents(ScanBuilding(i, best)));
          n' := n' + 1;
          if p !in shared.building {
            var yes;
            yes, n' := CanBuild(cfg, i, best, s, n');
            if yes {
              best, at := Some(p), i;
            }
          }
        }
        i := i + 1;
      }
    }

    /** setBuilding, threadStarted and a new detached thread. */
    method StartThread(p: Package)
      modifies this`workers, this`phases, this`shared, this`threadsRunning
      ensures Contents(ReadFailed) == StartWorker(old(Contents(Picked(p))), p)
    {
      shared := shared.(building := shared.building + {p});
      threadsRunning := threadsRunning + 1;
      workers, phases := workers + [p], phases + [Building(Frame(p, false, Lock, Bottom))];
    }

    /** The body of basePackage's loop, under cond_lock: start a worker for the
        package that topoNext finds, or go to sleep. It does what main's steps do
        when no worker moves in between. */
    method Schedule(cfg: Config) returns (main: Main, ghost n: nat)
      modifies this`workers, this`phases, this`shared, this`threadsRunning
      ensures Repeat(cfg, old(Contents(CheckLimit)), n) == Some(Contents(main))
      ensures main.ReadFailed? || main.Asleep?
      ensures main.Asleep? ==> Contents(CheckLimit) == old(Contents(CheckLimit))
    {
      ghost var s := Contents(CheckLimit);
      assert Repeat(cfg, s, 0) == Some(s);
      hide Repeat, Ready;
      Once(cfg, s, 0, s);
      n := 1;
      if cfg.limit == 0 || threadsRunning < cfg.limit {
        var best;
        best, n := TopoNext(cfg, s, n);
        hide MainThen;
        AfterScan(cfg, s, n, Contents(ScanBuilt(|order|, best)), best);
        if best.Some? {
          if best.value !in shared.building {
            StartThread(best.value);
          }
          return ReadFailed, n + 2;
        }
        n := n + 1;
      }
      main := Asleep;
    }
  }
}
