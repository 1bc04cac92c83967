/** A run in which one worker is about to describe its package while another one,
    which rebuilds locally what was only skipped, lists an output. */
module SchedulerRaces {
  import opened Digraph
  import opened Packages
  import opened Scheduler
  import opened SchedulerInvariant
  import opened SchedulerTheorems
  import opened SchedulerRuns

  // ---------------------------------------------------------------------
  // Down to a package that is kept

  /** Of the local dependencies from i on, one is kept. */
  predicate Leads(cfg: Config, plan: Plan, p: Package, i: nat) {
    exists j :: i <= j < |DependsOn(cfg.depends, p)| && DependsOn(cfg.depends, p)[j].locally
                && DependsOn(cfg.depends, p)[j].package in plan.keep
  }

  lemma SparesOrLeads(cfg: Config, plan: Plan, p: Package)
    ensures Spares(cfg, plan, p) || Leads(cfg, plan, p, 0)
  {
  }

  /** f, at the local dependencies of its package, goes down to the first package
      that is kept and whose own local dependencies are not, and lists its output. */
  lemma {:induction false} Descends(cfg: Config, rank: map<Package, nat>, plan: Plan, s: State, t: nat, sh: Shared,
                                    f: Stack) returns (sh': Shared, g: Stack)
    requires Gated(cfg, rank) && Sorts(cfg, plan) && cfg.suppressed == {} && !cfg.fetchOnly
    requires t < |s.phases| && f.Frame? && f.pc.LocalDeps? && Ran(cfg, plan, At(s, t, sh, Building(f)))
    requires f.package in cfg.depends && f.package in rank && Leads(cfg, plan, f.package, f.pc.i)
    requires FreeBelow(cfg, sh, f.package) && DepsBuilt(cfg.depends, sh.built, f.package)
    requires BuiltAsPlanned(cfg, plan, sh) && OthersQuiet(s, t)
    ensures g.Frame? && g.pc == List && g.package in plan.keep && Spares(cfg, plan, g.package)
    ensures Ran(cfg, plan, At(s, t, sh', Building(g)))
    decreases rank[f.package], |DependsOn(cfg.depends, f.package)| - f.pc.i, 0
  {
    hide Ran, At, Gated, Sorts, BuiltAsPlanned, FreeBelow, Spares;
    var deps, i := DependsOn(cfg.depends, f.package), f.pc.i;
    DependIsFree(cfg, rank, sh, f.package, i);
    if deps[i].locally && deps[i].package in plan.keep {
      sh', g := Enters(cfg, rank, plan, s, t, sh, f);
    } else {
      var sh1 := PassLocal(cfg, rank, plan, s, t, sh, f);
      StillLater(cfg, rank, plan, sh, sh1, f.package);
      sh', g := Descends(cfg, rank, plan, s, t, sh1, f.(pc := LocalDeps(i + 1)));
    }
  }

  lemma KeptIsThere(cfg: Config, plan: Plan, sh: Shared, d: Package)
    requires BuiltAsPlanned(cfg, plan, sh) && d in sh.built && d in plan.keep
    ensures d in cfg.depends && DepsBuilt(cfg.depends, sh.built, d) && d !in sh.wasBuilt
  {
  }

  /** The local call for a kept package. */
  lemma {:induction false} Enters(cfg: Config, rank: map<Package, nat>, plan: Plan, s: State, t: nat, sh: Shared,
                                  f: Stack) returns (sh': Shared, g: Stack)
    requires Gated(cfg, rank) && Sorts(cfg, plan) && cfg.suppressed == {} && !cfg.fetchOnly
    requires t < |s.phases| && f.Frame? && f.pc.LocalDeps? && Ran(cfg, plan, At(s, t, sh, Building(f)))
    requires f.package in cfg.depends && f.package in rank && f.pc.i < |DependsOn(cfg.depends, f.package)|
    requires var dep := DependsOn(cfg.depends, f.package)[f.pc.i]; dep.locally && dep.package in plan.keep
    requires FreeBelow(cfg, sh, f.package) && DepsBuilt(cfg.depends, sh.built, f.package)
    requires BuiltAsPlanned(cfg, plan, sh) && OthersQuiet(s, t)
    ensures g.Frame? && g.pc == List && g.package in plan.keep && Spares(cfg, plan, g.package)
    ensures Ran(cfg, plan, At(s, t, sh', Building(g)))
    decreases rank[f.package], |DependsOn(cfg.depends, f.package)| - f.pc.i - 1, 1
  {
    hide Ran, At, Gated, Sorts, BuiltAsPlanned, FreeBelow, Spares;
    var deps, i := DependsOn(cfg.depends, f.package), f.pc.i;
    var d := deps[i].package;
    DependIsFree(cfg, rank, sh, f.package, i);
    KeptIsThere(cfg, plan, sh, d);
    Moves(cfg, plan, s, t, sh, f, Call(d, true));
    var h := Frame(d, true, Lock, f);
    ToSuppress(cfg, rank, plan, s, t, sh, h);
    var held := sh.(locks := sh.locks[d := t]);
    HeldIsFine(cfg, rank, plan, sh, t, d);
    ToLocals(cfg, plan, s, t, held, h.(pc := Suppress));
    SparesOrLeads(cfg, plan, d);
    if Spares(cfg, plan, d) {
      var sh1 := PassLocals(cfg, rank, plan, s, t, held, h.(pc := LocalDeps(0)));
      ToPacking(cfg, plan, s, t, sh1, h.(pc := Fetch));
      sh' := sh1.(executed := sh1.executed + multiset{d});
      ToListing(cfg, plan, s, t, sh', h.(pc := PackStaging));
      g := h.(pc := List);
    } else {
      sh', g := Descends(cfg, rank, plan, s, t, held, h.(pc := LocalDeps(0)));
    }
  }

  // ---------------------------------------------------------------------
  // Two workers that wait

  /** Workers w and v were started for p and q and have not moved; all others have
      ended. */
  ghost predicate BothWait(cfg: Config, plan: Plan, s: State, w: nat, p: Package, v: nat, q: Package) {
    && Calm(cfg, plan, s) && w < |s.phases| && v < |s.phases| && w != v
    && w < |s.workers| && s.workers[w] == p && v < |s.workers| && s.workers[v] == q
    && s.phases[w] == Own(p, Lock) && s.phases[v] == Own(q, Lock)
    && (forall t :: 0 <= t < |s.phases| && t != w && t != v ==> s.phases[t] == Ended(true))
    && p !in s.shared.built && q !in s.shared.built
  }

  /** One of two packages is started first. */
  lemma {:induction false} FirstOfTwo(cfg: Config, rank: map<Package, nat>, plan: Plan, s: State, p: Package,
                                      q: Package) returns (s': State, w: nat, first: Package)
    requires Gated(cfg, rank) && Sorts(cfg, plan) && Calm(cfg, plan, s) && AllEnded(s) && |s.workers| == |s.phases|
    requires p in cfg.depends && p !in s.shared.built && q !in s.shared.built && Gentle(cfg, plan, p)
    ensures (first == p || first == q) && Waits(cfg, plan, s', w, first)
    ensures p !in s'.shared.built && q !in s'.shared.built
    decreases |cfg.depends.Keys - s.shared.built|
  {
    hide *;
    var r := FindsReady(cfg, rank, plan, s, p);
    if r == p || r == q {
      first := r;
      s' := StartsWaiting(cfg, plan, s, r);
      w := |s.phases|;
    } else {
      GentleMeans(cfg, plan, p, r);
      ReadyIsNew(cfg, s, r);
      var s1 := Round(cfg, rank, plan, s, r);
      StillEnded(s, s1, r);
      Unbuilt(cfg, s.shared.built, r);
      OneMoreBuilt(s, s1, r);
      s', w, first := FirstOfTwo(cfg, rank, plan, s1, p, q);
    }
  }

  lemma GentleMeans(cfg: Config, plan: Plan, p: Package, r: Package)
    requires Gentle(cfg, plan, p) && r in cfg.depends && r != p
    ensures r !in plan.skip ==> Spares(cfg, plan, r)
  {
  }

  lemma ReadyIsNew(cfg: Config, s: State, r: Package)
    requires Ready(cfg.depends, s.shared.built, s.shared.building, r)
    ensures r !in s.shared.built
  {
  }

  lemma OneMoreBuilt(s: State, s': State, r: Package)
    requires OneMore(s, s', r)
    ensures s'.shared.built == s.shared.built + {r}
  {
  }

  lemma {:induction false} LowestBelow(cfg: Config, rank: map<Package, nat>, sh: Shared, p: Package)
      returns (q: Package)
    requires Gated(cfg, rank) && p in cfg.depends && p !in sh.built
    ensures q in cfg.depends && q !in sh.built && DepsBuilt(cfg.depends, sh.built, q)
    ensures q == p || Reaches(Targets(cfg.depends), p, q)
    decreases rank[p]
  {
    if i :| 0 <= i < |DependsOn(cfg.depends, p)| && DependsOn(cfg.depends, p)[i].package !in sh.built {
      var d := DependsOn(cfg.depends, p)[i].package;
      DependIsEdge(cfg.depends, p, i);
      EdgeReaches(Targets(cfg.depends), p, d);
      q := LowestBelow(cfg, rank, sh, d);
      if q != d {
        ReachesTransitive(Targets(cfg.depends), p, d, q);
      }
    } else {
      q := p;
    }
  }

  /** While p's worker waits, something that p is not above can be started. */
  lemma SomeOtherReady(cfg: Config, rank: map<Package, nat>, plan: Plan, s: State, w: nat, p: Package, q: Package)
      returns (r: Package)
    requires Gated(cfg, rank) && Inv(cfg, s) && Waits(cfg, plan, s, w, p)
    requires q in cfg.depends && q !in s.shared.built && q != p && !Reaches(Targets(cfg.depends), q, p)
    ensures r in s.order && Ready(cfg.depends, s.shared.built, s.shared.building, r)
  {
    r := LowestBelow(cfg, rank, s.shared, q);
    hide Gated, Calm, Reaches, DepsBuilt;
    if r in s.shared.building {
      BuildingHasWorker(cfg, s, r);
      var t :| 0 <= t < |s.phases| && t < |s.workers| && s.workers[t] == r;
      if t != w {
        EndedIsBuilt(cfg, s, t);
      }
    }
    AllAreListed(cfg, s, r);
  }

  lemma EndedIsBuilt(cfg: Config, s: State, t: nat)
    requires Inv(cfg, s) && t < |s.phases| && s.phases[t] == Ended(true)
    ensures t < |s.workers| && s.workers[t] in s.shared.built
  {
    WorkerAt(cfg, s, t);
  }

  lemma AllAreListed(cfg: Config, s: State, r: Package)
    requires Inv(cfg, s) && r in cfg.depends
    ensures r in s.order
  {
    assert Listing(cfg, s.order);
  }

  lemma StartsBoth(cfg: Config, plan: Plan, s: State, w: nat, p: Package, q: Package) returns (s': State)
    requires Waits(cfg, plan, s, w, p) && |s.workers| == |s.phases| && q != p
    requires Ran(cfg, plan, s.(main := ScanBuilt(|s.order|, Some(q))))
    requires Ready(cfg.depends, s.shared.built, s.shared.building, q) && cfg.base !in s.shared.built
    ensures BothWait(cfg, plan, s', w, p, |s.phases|, q) && Ran(cfg, plan, s'.(main := ReadFailed))
  {
    hide Ran, BuiltAsPlanned, DepsBuilt;
    Starts(cfg, plan, s, q);
    s' := StartWorker(s, q).(main := WantLock);
    assert s'.(main := ReadFailed) == StartWorker(s, q);
    PlannedStays(cfg, plan, s.shared, s'.shared);
  }

  lemma {:induction false} ThenTheOther(cfg: Config, rank: map<Package, nat>, plan: Plan, s: State, w: nat, p: Package,
                                        q: Package) returns (s': State, v: nat)
    requires Gated(cfg, rank) && Sorts(cfg, plan) && Waits(cfg, plan, s, w, p) && cfg.limit != 1
    requires p in cfg.depends && q in cfg.depends && q !in s.shared.built && q != p
    requires !Reaches(Targets(cfg.depends), q, p)
    requires forall r :: r in cfg.depends && r != p && r != q && r !in plan.skip ==> Spares(cfg, plan, r)
    ensures BothWait(cfg, plan, s', w, p, v, q) && Ran(cfg, plan, s'.(main := ReadFailed))
    decreases |cfg.depends.Keys - s.shared.built|
  {
    hide *;
    WaitsMeans(cfg, plan, s, w, p);
    RanInv(cfg, rank, plan, s);
    BaseNeeds(cfg, rank, s, p);
    PhasesCount(cfg, s);
    var ready := SomeOtherReady(cfg, rank, plan, s, w, p, q);
    ScanStarts(cfg, plan, s);
    var best := ScanUpTo(cfg, plan, s, 0, |s.order|, None);
    var r := best.value;
    OrderIsKnown(cfg, s, r);
    NotBuilding(cfg, s, p, r);
    if r == q {
      s' := StartsBoth(cfg, plan, s, w, p, q);
      v := |s.phases|;
    } else {
      var s1 := Round(cfg, rank, plan, s, r);
      StillWaits(cfg, plan, s, s1, w, p, r);
      Unbuilt(cfg, s.shared.built, r);
      OneMoreBuilt(s, s1, r);
      s', v := ThenTheOther(cfg, rank, plan, s1, w, p, q);
    }
  }

  lemma WaitsMeans(cfg: Config, plan: Plan, s: State, w: nat, p: Package)
    requires Waits(cfg, plan, s, w, p)
    ensures Calm(cfg, plan, s) && Ran(cfg, plan, s) && s.main == WantLock && s.running == 1
    ensures p !in s.shared.built && p in s.shared.building
  {
    hide Ran, BuiltAsPlanned;
  }

  lemma NotBuilding(cfg: Config, s: State, p: Package, r: Package)
    requires Ready(cfg.depends, s.shared.built, s.shared.building, r) && p in s.shared.building
    ensures r != p && r !in s.shared.built
  {
  }

  // ---------------------------------------------------------------------
  // The race

  lemma FreeUnlessReached(cfg: Config, sh: Shared, p: Package, q: Package, t: nat)
    requires sh.locks == map[q := t] && !Reaches(Targets(cfg.depends), p, q)
    ensures FreeBelow(cfg, sh, p)
  {
    hide Reaches;
  }

  lemma BothBegin(cfg: Config, rank: map<Package, nat>, plan: Plan, s: State, w: nat, p: Package, v: nat, q: Package)
    requires Gated(cfg, rank) && BothWait(cfg, plan, s, w, p, v, q) && p in cfg.depends && q in cfg.depends
    ensures p in rank && q in rank && DepsBuilt(cfg.depends, s.shared.built, p)
    ensures DepsBuilt(cfg.depends, s.shared.built, q)
  {
    RanInv(cfg, rank, plan, s);
    BelowIsBuilt(cfg, rank, s, w, p);
    BelowIsBuilt(cfg, rank, s, v, q);
  }

  /** While d's worker is about to describe d, c's lists the output of a package
      that is kept. */
  lemma RaceRun(cfg: Config, rank: map<Package, nat>, plan: Plan, s: State, w: nat, c: Package, v: nat, d: Package)
      returns (s': State, g: Stack)
    requires Gated(cfg, rank) && Sorts(cfg, plan) && cfg.suppressed == {} && !cfg.fetchOnly
    requires BothWait(cfg, plan, s, w, c, v, d) && c in cfg.depends && d in cfg.depends && c != d
    requires c !in plan.skip && Leads(cfg, plan, c, 0) && !Reaches(Targets(cfg.depends), c, d)
    ensures Ran(cfg, plan, s') && v < |s'.phases| && s'.phases[v] == Own(d, Prepare)
    ensures w < |s'.phases| && s'.phases[w] == Building(g) && w != v
    ensures g.Frame? && g.pc == List && g.package in plan.keep && Spares(cfg, plan, g.package)
  {
    BothBegin(cfg, rank, plan, s, w, c, v, d);
    var s1 := ToDescribe(cfg, rank, plan, s, w, c, v, d);
    hide *;
    var sh1 := DescendsBeside(cfg, rank, plan, s1, w, c, d, v);
    var sh2;
    sh2, g := Descends(cfg, rank, plan, s1, w, sh1, Frame(c, false, LocalDeps(0), Bottom));
    s' := At(s1, w, sh2, Building(g));
    AtIs(s1, w, sh2, Building(g));
  }

  lemma AtIs(s: State, t: nat, sh: Shared, phase: Phase)
    requires t < |s.phases|
    ensures At(s, t, sh, phase).phases == s.phases[t := phase]
  {
  }

  /** d's worker is about to describe d. */
  lemma ToDescribe(cfg: Config, rank: map<Package, nat>, plan: Plan, s: State, w: nat, c: Package, v: nat, d: Package)
      returns (s': State)
    requires Gated(cfg, rank) && Sorts(cfg, plan) && cfg.suppressed == {} && c in cfg.depends
    requires BothWait(cfg, plan, s, w, c, v, d) && d in cfg.depends && DepsBuilt(cfg.depends, s.shared.built, d)
    ensures Ran(cfg, plan, s') && s'.phases == s.phases[v := Own(d, Prepare)] && OthersQuiet(s', w)
    ensures s'.shared == s.shared.(locks := map[d := v]) && BuiltAsPlanned(cfg, plan, s'.shared)
    ensures w < |s.phases| && v < |s.phases| && w != v && s.phases[w] == Own(c, Lock) && c !in s.shared.built
    ensures c in rank
  {
    GatedIsRanked(cfg, rank);
    assert c in rank.Keys;
    hide Gated, Sorts, FreeBelow, DepsBuilt, Ran;
    ToPrepare(cfg, rank, plan, s, v, d);
    s' := At(s, v, s.shared.(locks := map[d := v]), Own(d, Prepare));
  }

  lemma ToPrepare(cfg: Config, rank: map<Package, nat>, plan: Plan, s: State, v: nat, d: Package)
    requires Gated(cfg, rank) && Ran(cfg, plan, s) && v < |s.phases| && s.phases[v] == Own(d, Lock)
    requires s.shared.locks == map[] && d !in cfg.suppressed && d in cfg.depends && d !in s.shared.built
    requires DepsBuilt(cfg.depends, s.shared.built, d)
    ensures Ran(cfg, plan, At(s, v, s.shared.(locks := map[d := v]), Own(d, Prepare)))
  {
    hide Gated, FreeBelow, DepsBuilt, Ran;
    var sh, f := s.shared, Frame(d, false, Lock, Bottom);
    assert At(s, v, sh, Building(f)) == s;
    NothingHeld(cfg, sh, d);
    ToSuppress(cfg, rank, plan, s, v, sh, f);
    var held := sh.(locks := sh.locks[d := v]);
    assert sh.locks[d := v] == map[d := v];
    Goes(cfg, plan, s, v, held, f.(pc := Suppress), Prepare);
  }

  lemma NothingHeld(cfg: Config, sh: Shared, p: Package)
    requires sh.locks == map[]
    ensures FreeBelow(cfg, sh, p)
  {
  }

  /** c's worker, beside d's, as far as c's local dependencies. */
  lemma DescendsBeside(cfg: Config, rank: map<Package, nat>, plan: Plan, s: State, w: nat, c: Package, d: Package,
                       v: nat) returns (sh: Shared)
    requires Gated(cfg, rank) && Sorts(cfg, plan) && cfg.suppressed == {} && c !in plan.skip
    requires w < |s.phases| && s.phases[w] == Own(c, Lock) && Ran(cfg, plan, s) && OthersQuiet(s, w)
    requires c in cfg.depends && c !in s.shared.built && s.shared.locks == map[d := v] && c != d
    requires DepsBuilt(cfg.depends, s.shared.built, c) && BuiltAsPlanned(cfg, plan, s.shared)
    requires !Reaches(Targets(cfg.depends), c, d)
    ensures Ran(cfg, plan, At(s, w, sh, Building(Frame(c, false, LocalDeps(0), Bottom))))
    ensures FreeBelow(cfg, sh, c) && DepsBuilt(cfg.depends, sh.built, c) && BuiltAsPlanned(cfg, plan, sh)
  {
    hide Ran, Gated, Sorts, BuiltAsPlanned, FreeBelow, DepsBuilt, Reaches;
    var f := Frame(c, false, Lock, Bottom);
    assert At(s, w, s.shared, Building(f)) == s;
    FreeUnlessReached(cfg, s.shared, c, d, v);
    ToSuppress(cfg, rank, plan, s, w, s.shared, f);
    sh := s.shared.(locks := s.shared.locks[c := w]);
    HeldIsFine(cfg, rank, plan, s.shared, w, c);
    ToLocals(cfg, plan, s, w, sh, f.(pc := Suppress));
  }

  /** Such a run exists whenever two threads may run and neither package is below
      the other. */
  lemma SomeRace(cfg: Config, rank: map<Package, nat>, plan: Plan, c: Package, d: Package)
      returns (s: State, u: nat, t: nat, g: Stack)
    requires Gated(cfg, rank) && Sorts(cfg, plan) && cfg.suppressed == {} && !cfg.fetchOnly && cfg.limit != 1
    requires c in cfg.depends && d in cfg.depends && c != d && plan.skip == cfg.depends.Keys - {c}
    requires Leads(cfg, plan, c, 0)
    requires !Reaches(Targets(cfg.depends), c, d) && !Reaches(Targets(cfg.depends), d, c)
    ensures Ran(cfg, plan, s) && t < |s.phases| && s.phases[t] == Own(d, Prepare)
    ensures u < |s.phases| && s.phases[u] == Building(g) && u != t
    ensures g.Frame? && g.pc == List && g.package in plan.keep && Spares(cfg, plan, g.package)
  {
    var s0 := FirstWait(cfg, plan);
    assert Gentle(cfg, plan, c);
    hide Ran, Gated, Sorts, Spares, Leads, Calm, Waits, BothWait, Gentle, Reaches;
    var s1, w, first := FirstOfTwo(cfg, rank, plan, s0, c, d);
    var s2, v;
    if first == c {
      s2, v := ThenTheOther(cfg, rank, plan, s1, w, c, d);
      u, t := w, v;
    } else {
      s2, v := ThenTheOther(cfg, rank, plan, s1, w, d, c);
      Swapped(cfg, plan, s2, w, d, v, c);
      u, t := v, w;
    }
    s, g := RaceRun(cfg, rank, plan, s2, u, c, t, d);
  }

  lemma Swapped(cfg: Config, plan: Plan, s: State, w: nat, p: Package, v: nat, q: Package)
    requires BothWait(cfg, plan, s, w, p, v, q)
    ensures BothWait(cfg, plan, s, v, q, w, p)
  {
    hide Calm;
  }
}
