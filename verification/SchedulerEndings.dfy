/** How the build loop ends: what main does once a worker has failed or the base
    package is built, whatever the workers do meanwhile. */
module SchedulerEndings {
  import opened Digraph
  import opened Packages
  import opened Scheduler
  import opened SchedulerInvariant
  import opened SchedulerSteps
  import opened SchedulerTheorems
  import opened SchedulerModes

  /** How many of the actions are main's. */
  function MainSteps(actions: seq<Action>): nat {
    if actions == [] then 0
    else MainSteps(actions[..|actions| - 1]) + if actions[|actions| - 1] == MainStep then 1 else 0
  }

  /** A run with one action more, seen from the state it was in after k. */
  lemma RunGoesOn(cfg: Config, order: seq<Package>, actions: seq<Action>, k: nat)
    requires k < |actions| && After(cfg, order, actions).Some?
    ensures var last := |actions| - 1;
            && actions[..last][..k] == actions[..k] && actions[..last][k..] == actions[k..][..last - k]
            && actions[k..][last - k] == actions[last]
            && After(cfg, order, actions[..last]).Some?
            && May(cfg, After(cfg, order, actions[..last]).value, actions[last])
            && After(cfg, order, actions) == Some(Then(cfg, After(cfg, order, actions[..last]).value, actions[last]))
            && MainSteps(actions[k..]) == MainSteps(actions[..last][k..]) + if actions[last] == MainStep then 1 else 0
  {
    hide May, Then, Listing;
  }

  // ---------------------------------------------------------------------
  // Failures

  /** Every worker that failed has noted its package, once. */
  ghost predicate Noted(s: State) {
    && |s.workers| == |s.phases|
    && NoDuplicates(s.failedPackages)
    && forall t :: 0 <= t < |s.phases| && Lost(s.phases[t]) ==> s.workers[t] in s.failedPackages
  }

  /** A worker about to fail is for a package that no failed worker was for. */
  lemma FailsAlone(cfg: Config, s: State, t: nat)
    requires Inv(cfg, s) && t < |s.phases| && s.phases[t].Failing?
    ensures t < |s.workers| && s.workers[t] !in s.failedPackages
  {
    WorkerAt(cfg, s, t);
    assert FailuresOk(s) && StartsOk(s.workers, s.shared);
    hide Inv, StartsOk;
    var w := s.workers[t];
    if i :| 0 <= i < |s.failedPackages| && s.failedPackages[i] == w {
      assert LostWorker(s, s.failedPackages[i]);
      var u: nat :| IsLost(s, u, w);
      OnlyWorker(s.workers, s.shared, t, u);
      assert false;
    }
  }

  lemma StepKeepsNoted(cfg: Config, s: State, a: Action)
    requires Inv(cfg, s) && Noted(s) && May(cfg, s, a)
    ensures Noted(Then(cfg, s, a))
  {
    match a
    case Work(t, o) =>
      hide Inv, FrameMay, FrameThen, PhaseThen, NoDuplicates;
      PhaseGoesOn(s.phases[t].stack, o);
    case Fail(t) =>
      hide Inv;
      FailsAlone(cfg, s, t);
    case _ =>
      hide Inv, FrameMay, FrameThen, PhaseThen, Listing, NoDuplicates;
      RestMoves(cfg, s, a);
  }

  lemma {:induction false} NotedAlways(cfg: Config, rank: map<Package, nat>, order: seq<Package>, actions: seq<Action>)
    requires Gated(cfg, rank)
    ensures var s := After(cfg, order, actions); s.Some? ==> Noted(s.value)
  {
    hide Gated, Inv, May, Then;
    if actions != [] {
      var last := |actions| - 1;
      NotedAlways(cfg, rank, order, actions[..last]);
      InvAlways(cfg, rank, order, actions[..last]);
      var r := After(cfg, order, actions[..last]);
      hide Noted;
      if r.Some? && May(cfg, r.value, actions[last]) {
        StepKeepsNoted(cfg, r.value, actions[last]);
      }
    }
  }

  /** The list of failed packages names exactly the packages whose worker failed,
      each once. */
  lemma FailuresAreListed(cfg: Config, rank: map<Package, nat>, s: State)
    requires Gated(cfg, rank) && Reachable(cfg, s)
    ensures NoDuplicates(s.failedPackages)
    ensures forall p :: p in s.failedPackages <==> LostWorker(s, p)
    ensures s.failed <==> s.failedPackages != []
  {
    var order, actions :| After(cfg, order, actions) == Some(s);
    NotedAlways(cfg, rank, order, actions);
    ReachableInv(cfg, rank, s);
    assert FailuresOk(s);
    hide Gated, Inv, Reachable, After;
    forall p
      ensures p in s.failedPackages <==> LostWorker(s, p)
    {
      if i :| 0 <= i < |s.failedPackages| && s.failedPackages[i] == p {
        assert LostWorker(s, s.failedPackages[i]);
      }
    }
  }

  /** main has seen that a worker failed, or will before it starts another one. */
  predicate SeesFailure(main: Main) {
    main.ReadFailed? || main.Asleep? || main.Woken? || main.AfterLoop? || main.KgWantLock? || main.KgReadBuilt?
    || main.KgReadRunning? || main.KgAsleep? || main.KgWoken? || main.Returning? || main.Returned?
  }

  lemma StepAfterFailure(cfg: Config, s: State, a: Action)
    requires May(cfg, s, a) && s.failed
    ensures var s' := Then(cfg, s, a);
            && s'.failed
            && (SeesFailure(s.main) ==> SeesFailure(s'.main) && s'.workers == s.workers)
            && (s'.workers == s.workers || (SeesFailure(s'.main) && |s'.workers| == |s.workers| + 1))
  {
    hide FrameMay, FrameThen, Listing;
  }

  /** Once a worker has failed at most one more is started, in any mode: main may
      have read `failed` just before. */
  lemma {:induction false} FailureStopsStarts(cfg: Config, order: seq<Package>, actions: seq<Action>, k: nat)
    requires k <= |actions| && After(cfg, order, actions).Some?
    ensures After(cfg, order, actions[..k]).Some?
    ensures var s, s' := After(cfg, order, actions[..k]).value, After(cfg, order, actions).value;
            s.failed ==>
              && s'.failed
              && |s.workers| <= |s'.workers| <= |s.workers| + 1
              && (SeesFailure(s.main) ==> SeesFailure(s'.main) && s'.workers == s.workers)
              && (!SeesFailure(s'.main) ==> s'.workers == s.workers)
    decreases |actions|
  {
    hide *;
    if k < |actions| {
      var last := |actions| - 1;
      RunGoesOn(cfg, order, actions, k);
      FailureStopsStarts(cfg, order, actions[..last], k);
      var r := After(cfg, order, actions[..last]).value;
      if r.failed {
        StepAfterFailure(cfg, r, actions[last]);
      }
    } else {
      assert actions[..k] == actions;
    }
  }

  // ---------------------------------------------------------------------
  // Returning

  /** The positions of the keep-going epilogue. */
  predicate InEpilogue(main: Main) {
    main.KgWantLock? || main.KgReadBuilt? || main.KgReadRunning? || main.KgAsleep? || main.KgWoken?
  }

  lemma {:induction false} EpilogueIsForKeepGoing(cfg: Config, order: seq<Package>, actions: seq<Action>)
    requires !cfg.keepGoing
    ensures var s := After(cfg, order, actions); s.Some? ==> !InEpilogue(s.value.main)
  {
    if actions != [] {
      var last := |actions| - 1;
      EpilogueIsForKeepGoing(cfg, order, actions[..last]);
      var r := After(cfg, order, actions[..last]);
      hide May, Then, Listing, InEpilogue;
      if r.Some? && May(cfg, r.value, actions[last]) {
        NoEpilogue(cfg, r.value, actions[last]);
      }
    }
  }

  lemma NoEpilogue(cfg: Config, s: State, a: Action)
    requires May(cfg, s, a) && !cfg.keepGoing && !InEpilogue(s.main)
    ensures !InEpilogue(Then(cfg, s, a).main)
  {
    hide FrameMay, FrameThen, Listing;
  }

  /** Without keep-going, main is never in the epilogue, and the two steps it takes
      when it leaves the loop return, whatever the workers do: it waits for none. */
  lemma {:induction false} ReturnsAtOnce(cfg: Config, order: seq<Package>, actions: seq<Action>, k: nat)
    requires k <= |actions| && After(cfg, order, actions).Some? && !cfg.keepGoing
    requires After(cfg, order, actions[..k]).Some? && After(cfg, order, actions[..k]).value.main.AfterLoop?
    ensures var s := After(cfg, order, actions).value;
            match MainSteps(actions[k..])
            case 0 => s.main.AfterLoop?
            case 1 => s.main.Returning?
            case n => n == 2 && s.main.Returned?
    decreases |actions|
  {
    hide *;
    if k < |actions| {
      var last := |actions| - 1;
      RunGoesOn(cfg, order, actions, k);
      ReturnsAtOnce(cfg, order, actions[..last], k);
      LeavesLoop(cfg, After(cfg, order, actions[..last]).value, actions[last]);
    } else {
      assert actions[..k] == actions && actions[k..] == [];
      NoSteps();
    }
  }

  lemma NoSteps()
    ensures MainSteps([]) == 0
  {
  }

  lemma LeavesLoop(cfg: Config, s: State, a: Action)
    requires May(cfg, s, a) && !cfg.keepGoing && (s.main.AfterLoop? || s.main.Returning? || s.main.Returned?)
    ensures var main := Then(cfg, s, a).main;
            if a != MainStep then main == s.main
            else (s.main.AfterLoop? && main.Returning?) || (s.main.Returning? && main.Returned?)
  {
    hide FrameMay, FrameThen, Listing;
  }

  /** main is about to look whether the build is over, which it is, and will not
      have to wait for workers. */
  predicate Closing(cfg: Config, s: State) {
    if cfg.base in s.shared.built then
      s.main.Woken? || s.main.ReadFailed? || s.main.ReadBuilt? || s.main.AfterLoop? || s.main.KgWoken?
      || s.main.KgWantLock? || s.main.KgReadBuilt? || s.main.Returning? || s.main.Returned?
    else
      s.failed && !cfg.keepGoing
      && (s.main.Woken? || s.main.ReadFailed? || s.main.AfterLoop? || s.main.Returning? || s.main.Returned?)
  }

  /** main's steps until it has returned. */
  function ToReturn(main: Main): nat {
    match main
    case Woken => 7
    case ReadFailed => 6
    case ReadBuilt => 5
    case AfterLoop => 4
    case KgWoken => 4
    case KgWantLock => 3
    case KgReadBuilt => 2
    case Returning => 1
    case _ => 0
  }

  lemma StepCloses(cfg: Config, s: State, a: Action)
    requires May(cfg, s, a) && Closing(cfg, s) && s.shared.built <= Then(cfg, s, a).shared.built
    ensures Closing(cfg, Then(cfg, s, a))
    ensures ToReturn(Then(cfg, s, a).main) + (if a == MainStep then 1 else 0) <= ToReturn(s.main)
  {
    hide FrameMay, FrameThen, Listing;
  }

  /** When main looks whether the build is over it does not miss that it is: once
      the base package is built, or without keep-going once a worker has failed,
      it returns after at most seven steps of its own, whatever the workers do. */
  lemma {:induction false} OverIsSeen(cfg: Config, rank: map<Package, nat>, order: seq<Package>, actions: seq<Action>,
                                      k: nat)
    requires Gated(cfg, rank) && k <= |actions| && After(cfg, order, actions).Some?
    requires After(cfg, order, actions[..k]).Some? && Closing(cfg, After(cfg, order, actions[..k]).value)
    ensures var s, s' := After(cfg, order, actions[..k]).value, After(cfg, order, actions).value;
            && MainSteps(actions[k..]) + ToReturn(s'.main) <= ToReturn(s.main) <= 7
            && (s'.main.Returned? || MainMay(s'.main))
            && Closing(cfg, s')
    decreases |actions|
  {
    if k < |actions| {
      var last := |actions| - 1;
      RunGoesOn(cfg, order, actions, k);
      OverIsSeen(cfg, rank, order, actions[..last], k);
      var r := After(cfg, order, actions[..last]).value;
      assert Reachable(cfg, r);
      hide After, May, Then, Gated, Reachable, MainSteps, ToReturn;
      FlagsOnlyGrow(cfg, rank, r, actions[last]);
      StepCloses(cfg, r, actions[last]);
    } else {
      assert actions[..k] == actions && actions[k..] == [];
      hide After;
    }
  }

  /** packageFinished, setFailed and threadEnded all wake main. */
  lemma NobodyEndsUnheard(cfg: Config, s: State, a: Action)
    requires May(cfg, s, a) && (a.Finish? || a.Fail? || a.End?)
    ensures s.main.Asleep? ==> Then(cfg, s, a).main.Woken?
    ensures s.main.KgAsleep? ==> Then(cfg, s, a).main.KgWoken?
  {
  }
}
