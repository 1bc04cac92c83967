/** When a package can be described while a local rebuild, on another thread,
    writes an .output.info that the description needs. */
module IncrementalRaces {
  import opened Digraph
  import opened Packages
  import opened Scheduler
  import opened SchedulerInvariant
  import opened SchedulerSteps
  import opened SchedulerTheorems
  import opened Worlds
  import opened Incremental
  import opened IncrementalInvariant

  /** Building the first package of the path can rebuild the last one, which was
      only skipped before. */
  ghost predicate RebuildPath(B: Setup, path: seq<Package>) {
    && |path| >= 2 && LocalPath(B.cfg.depends, path)
    && forall i :: 1 <= i < |path| ==> path[i] in B.W.own && !AlwaysBuilt(Def(B.T, B.W, path[i]))
  }

  /** c and d can be built at the same time, and d be described while building c
      writes the .output.info of q, a dependency of d, again. */
  ghost predicate Race(B: Setup, c: Package, d: Package, q: Package) {
    && HashedBy(B.T, B.W, d, q)
    && c != d && !Reaches(Targets(B.cfg.depends), c, d) && !Reaches(Targets(B.cfg.depends), d, c)
    && exists path :: RebuildPath(B, path) && path[0] == c && path[|path| - 1] == q
  }

  ghost predicate QuietListings(B: Setup) {
    B.cfg.limit == 1 || forall c, d, q :: !Race(B, c, d, q)
  }

  // ---------------------------------------------------------------------
  // Without a race nobody lists what a description needs

  lemma {:induction false} LocalPathGoesOn(depends: Depends, path: seq<Package>, q: Package)
    requires LocalPath(depends, path) && LocalEdge(depends, path[|path| - 1], q)
    ensures LocalPath(depends, path + [q])
  {
    hide LocalEdge;
    if |path| > 1 {
      LocalPathGoesOn(depends, path[1..], q);
      assert (path + [q])[1..] == path[1..] + [q];
    } else {
      assert (path + [q])[1..] == [q];
    }
  }

  /** The package is built, but not by this run's own work. */
  ghost predicate OnlySkipped(B: Setup, sh: Shared, p: Package) {
    p in B.W.own && p in sh.built && sh.cleared[p] == 0
  }

  ghost predicate AlwaysBuiltAreCleared(B: Setup, sh: Shared) {
    forall p :: p in B.W.own && p in sh.built && AlwaysBuilt(Def(B.T, B.W, p)) ==> sh.cleared[p] > 0
  }

  lemma LocalCallIs(B: Setup, t: nat, w: Package, sh: Shared, f: Stack)
    requires StackOk(B.cfg, t, w, sh, f) && f.locally && Active(f.pc) && B.cfg.depends.Keys == B.W.own.Keys
    ensures OnlySkipped(B, sh, f.package)
    ensures f.caller.Frame? && LocalEdge(B.cfg.depends, f.caller.package, f.package)
    ensures StackOk(B.cfg, t, w, sh, f.caller)
    ensures if f.caller.caller.Bottom? then f.caller.package == w else f.caller.locally && Active(f.caller.pc)
  {
    assert f.package in B.cfg.depends.Keys;
  }

  /** The calls that lead to a local rebuild follow local dependencies on packages
      that were skipped before. */
  lemma {:induction false} LocalCallsFollow(B: Setup, t: nat, w: Package, sh: Shared, f: Stack)
      returns (path: seq<Package>)
    requires StackOk(B.cfg, t, w, sh, f) && f.locally && Active(f.pc) && B.cfg.depends.Keys == B.W.own.Keys
    requires AlwaysBuiltAreCleared(B, sh)
    ensures RebuildPath(B, path) && path[0] == w && path[|path| - 1] == f.package
  {
    LocalCallIs(B, t, w, sh, f);
    hide StackOk, LocalEdge, DepsBuilt;
    assert !AlwaysBuilt(Def(B.T, B.W, f.package));
    if f.caller.caller.Bottom? {
      path := [w, f.package];
      assert path[1..] == [f.package] && LocalPath(B.cfg.depends, path[1..]);
      assert LocalEdge(B.cfg.depends, path[0], path[1]);
    } else {
      var above := LocalCallsFollow(B, t, w, sh, f.caller);
      LocalPathGoesOn(B.cfg.depends, above, f.package);
      path := above + [f.package];
    }
  }

  lemma TwoAreLive(cfg: Config, s: State, t: nat, u: nat)
    requires Inv(cfg, s) && t < |s.phases| && u < |s.phases| && t != u
    requires s.phases[t].Building? && s.phases[u].Building?
    ensures cfg.limit != 1
  {
    var two := {t, u};
    assert two <= Live(s.phases);
    SubsetCount(two, Live(s.phases));
  }

  lemma SubsetCount(a: set<nat>, b: set<nat>)
    requires a <= b
    ensures |a| <= |b|
  {
    assert b == a + (b - a);
    assert |b| == |a| + |b - a|;
  }

  lemma ListingIsLocal(cfg: Config, s: State, u: nat, q: Package)
    requires Inv(cfg, s) && ListedBy(s, u, q) && q in s.shared.built
    ensures u < |s.workers| && StackOk(cfg, u, s.workers[u], s.shared, s.phases[u].stack)
    ensures s.phases[u].stack.locally && Active(s.phases[u].stack.pc)
    ensures s.workers[u] !in s.shared.built && DepsBuilt(cfg.depends, s.shared.built, s.workers[u])
  {
    WorkerAt(cfg, s, u);
    OutermostUnfinished(cfg, u, s.workers[u], s.shared, s.phases[u].stack);
  }

  lemma AlwaysBuiltWere(B: Setup, s: BuildState)
    requires SetupOk(B) && BuildInv(B, s)
    ensures AlwaysBuiltAreCleared(B, s.sched.shared)
  {
    forall p | p in B.W.own && p in s.sched.shared.built && AlwaysBuilt(Def(B.T, B.W, p))
      ensures s.sched.shared.cleared[p] > 0
    {
      BuiltIsRight(B, s, p);
      hide SetupOk, BuildInv, Right, OutputInfoRight;
    }
    hide SetupOk, BuildInv;
  }

  lemma RaceFrom(B: Setup, c: Package, d: Package, q: Package, path: seq<Package>)
    requires RebuildPath(B, path) && path[0] == c && path[|path| - 1] == q && HashedBy(B.T, B.W, d, q) && c != d
    requires !Reaches(Targets(B.cfg.depends), c, d) && !Reaches(Targets(B.cfg.depends), d, c)
    ensures Race(B, c, d, q)
  {
    hide RebuildPath, HashedBy, Reaches;
  }

  /** The two threads' packages are different, and neither is below the other. */
  lemma NeitherIsBelow(cfg: Config, s: State, t: nat, u: nat, q: Package)
    requires Inv(cfg, s) && t < |s.phases| && s.phases[t].Building? && ListedBy(s, u, q) && q in s.shared.built
    requires var f := s.phases[t].stack; f.Frame? && f.pc.Prepare? && !f.locally
    ensures u < |s.workers| && StackOk(cfg, u, s.workers[u], s.shared, s.phases[u].stack) && cfg.limit != 1
    ensures var c, d := s.workers[u], s.phases[t].stack.package;
            c != d && !Reaches(Targets(cfg.depends), c, d) && !Reaches(Targets(cfg.depends), d, c)
  {
    hide *;
    NotBegunYet(cfg, s, t);
    ListingIsLocal(cfg, s, u, q);
    var c, d := s.workers[u], s.phases[t].stack.package;
    ListedMeans(s, u, q);
    TwoAreLive(cfg, s, t, u);
    OneEach(cfg, s, u, t);
    ClosedFlagsOf(cfg, s);
    WorkerDepends(cfg, s, t);
    UnbuiltIsNotBelow(cfg, s.shared, c, d);
    UnbuiltIsNotBelow(cfg, s.shared, d, c);
  }

  lemma WorkerDepends(cfg: Config, s: State, t: nat)
    requires Inv(cfg, s) && t < |s.phases|
    ensures t < |s.workers| && DepsBuilt(cfg.depends, s.shared.built, s.workers[t])
  {
    WorkerAt(cfg, s, t);
  }

  lemma OneEach(cfg: Config, s: State, u: nat, t: nat)
    requires Inv(cfg, s) && t < |s.workers| && u < |s.workers| && t != u && s.shared.cleared[s.workers[t]] == 0
    ensures s.workers[u] != s.workers[t]
  {
    OnlyWorker(s.workers, s.shared, u, t);
  }

  lemma NotListedNow(B: Setup, s: BuildState, t: nat, q: Package)
    requires SetupOk(B) && BuildInv(B, s) && t < |s.sched.phases| && s.sched.phases[t].Building?
    requires var f := s.sched.phases[t].stack;
             && f.Frame? && f.pc.Prepare? && !f.locally && HashedBy(B.T, B.W, f.package, q)
    requires QuietListings(B) && q in s.sched.shared.built
    ensures !BeingListed(s.sched, q)
  {
    hide *;
    if BeingListed(s.sched, q) {
      var u := Lister(s.sched, q);
      StoreHas(B, s);
      SetupGraph(B);
      NeitherIsBelow(B.cfg, s.sched, t, u, q);
      ListingIsLocal(B.cfg, s.sched, u, q);
      AlwaysBuiltWere(B, s);
      var path := LocalCallsFollow(B, u, s.sched.workers[u], s.sched.shared, s.sched.phases[u].stack);
      ListedMeans(s.sched, u, q);
      RaceFrom(B, s.sched.workers[u], s.sched.phases[t].stack.package, q, path);
      QuietMeans(B, s.sched.workers[u], s.sched.phases[t].stack.package, q);
    }
  }

  lemma QuietMeans(B: Setup, c: Package, d: Package, q: Package)
    requires QuietListings(B) && B.cfg.limit != 1
    ensures !Race(B, c, d, q)
  {
    hide Race;
  }

  lemma HashedIsBuilt(B: Setup, s: BuildState, t: nat, q: Package)
    requires SetupOk(B) && BuildInv(B, s) && t < |s.sched.phases| && s.sched.phases[t].Building?
    requires s.sched.phases[t].stack.Frame? && HashedBy(B.T, B.W, s.sched.phases[t].stack.package, q)
    ensures q in s.sched.shared.built
  {
    StoreHas(B, s);
    DependsAreBuilt(B, s, t);
    hide SetupOk, BuildInv, Inv, ClosedFlags, DepsBuilt;
  }

  /** Without a race a package is never described while a file it needs is being
      written. */
  lemma QuietIsReliable(B: Setup, s: BuildState, t: nat)
    requires SetupOk(B) && BuildInv(B, s) && t < |s.sched.phases| && s.sched.phases[t].Building? && QuietListings(B)
    requires var f := s.sched.phases[t].stack; f.Frame? && f.pc.Prepare? && !f.locally
    ensures !DependListed(B, s.sched, s.sched.phases[t].stack.package)
  {
    hide *;
    forall q | HashedBy(B.T, B.W, s.sched.phases[t].stack.package, q)
      ensures !BeingListed(s.sched, q)
    {
      HashedIsBuilt(B, s, t, q);
      NotListedNow(B, s, t, q);
    }
    NoneIsListed(B, s.sched, s.sched.phases[t].stack.package);
  }

  lemma NoneIsListed(B: Setup, s: State, p: Package)
    requires forall q :: HashedBy(B.T, B.W, p, q) ==> !BeingListed(s, q)
    ensures !DependListed(B, s, p)
  {
    hide BeingListed, HashedBy;
  }
}
