/** Races happen: what a description that is assembled during one says, and that
    a build can go on to return true with it. */
module IncrementalRaceRuns {
  import opened Digraph
  import opened Packages
  import opened Scheduler
  import opened SchedulerTheorems
  import opened SchedulerRuns
  import opened SchedulerRaces
  import SchedulerWorkers
  import opened Descriptions
  import opened Worlds
  import opened Incremental
  import opened IncrementalInvariant
  import opened IncrementalRaces
  import opened IncrementalResults
  import opened IncrementalOutputs
  import opened IncrementalTheorems
  import opened IncrementalRuns
  import opened IncrementalFinish

  // ---------------------------------------------------------------------
  // A description assembled during a race

  lemma LineIsClean(B: Setup, disk: Disk, q: Package)
    requires SetupOk(B) && WorldOk(B.T, B.W) && q in B.W.own && q in disk
    requires Def(B.T, B.W, q).hashOutput && disk[q].outputInfo.Some?
    ensures LineFor(B.T, B.W, disk, q)
            == OutputInfoFile(B.T.workDir(q) + "/.output.info", B.T.digest(disk[q].outputInfo.value))
  {
    hide WorldOk;
  }

  /** The hash of a dependency is a field. */
  lemma HashIsField(B: Setup, disk: Disk, q: Package, trusted: bool)
    requires ToolsOk(B.T) && WorldOk(B.T, B.W) && q in B.W.own && q in disk && Right(B, disk[q], q, trusted)
    requires Def(B.T, B.W, q).hashOutput ==> disk[q].outputInfo.Some?
    ensures Clean(LineFor(B.T, B.W, disk, q))
  {
    PathsAreFields(B.T, q);
    hide WorldOk, CleanOut, Text;
  }

  lemma LinesAreClean(B: Setup, disk: Disk, p: Package)
    requires OnDisk(B, disk, p)
    requires forall i: nat :: i < |Def(B.T, B.W, p).depends| ==>
               var q := Def(B.T, B.W, p).depends[i].package;
               q in B.W.own && q in disk && Clean(LineFor(B.T, B.W, disk, q))
    ensures AllClean(LinesFor(B.T, B.W, disk, p))
  {
    hide WorldOk, LineFor, Clean;
  }

  lemma RecordedIsClean(B: Setup, p: Package)
    requires SetupOk(B) && WorldOk(B.T, B.W) && p in B.W.own
    ensures p in B.W.extraction && AllClean(B.W.own[p] + [ExtractionUnit(B.T, B.W, p)])
  {
    assert p in B.W.extraction.Keys;
    PathsAreFields(B.T, p);
    ToolsOf(B);
    assert AllClean(B.W.own[p]);
    hide CutoffsCovered;
  }

  lemma AllCleanPrefix(us: seq<BuildUnit>, vs: seq<BuildUnit>)
    requires AllClean(us) && AllClean(vs)
    ensures AllClean(us + vs)
  {
    hide Clean;
  }

  /** If what is assembled is the description, every line is as it should be. */
  lemma SameLines(B: Setup, disk: Disk, p: Package)
    requires SetupOk(B) && WorldOk(B.T, B.W) && OnDisk(B, disk, p) && p in B.W.own && p in B.W.extraction
    requires AllClean(LinesFor(B.T, B.W, disk, p)) && Assembled(B.T, B.W, disk, p) == Text(B.T, B.W, p)
    ensures LinesFor(B.T, B.W, disk, p) == DepUnits(B.T, B.W, p)
  {
    RecordedIsClean(B, p);
    ToolsOf(B);
    DescIsClean(B.T, B.W, p);
    var front := B.W.own[p] + [ExtractionUnit(B.T, B.W, p)];
    AllCleanPrefix(front, LinesFor(B.T, B.W, disk, p));
    hide SetupOk, WorldOk, AllClean, Print, LineFor, LinesFor, DepUnits, CleanOut, OnDisk;
    PrintInjective(front + LinesFor(B.T, B.W, disk, p), Desc(B.T, B.W, p));
    assert Desc(B.T, B.W, p)[|front|..] == DepUnits(B.T, B.W, p);
    assert (front + LinesFor(B.T, B.W, disk, p))[|front|..] == LinesFor(B.T, B.W, disk, p);
  }

  /** A description that hashed an empty .output.info is not the current one. */
  lemma EmptyIsWrong(B: Setup, disk: Disk, p: Package, i: nat)
    requires SetupOk(B) && WorldOk(B.T, B.W) && OnDisk(B, disk, p) && p in B.W.own && p in B.W.extraction
    requires AllClean(LinesFor(B.T, B.W, disk, p)) && i < |Def(B.T, B.W, p).depends|
    requires var q := Def(B.T, B.W, p).depends[i].package;
             && q in B.W.own && q in disk && Def(B.T, B.W, q).hashOutput && disk[q].outputInfo == Some("")
             && B.T.listing(CleanOut(B.T, B.W, q)) != ""
    ensures Assembled(B.T, B.W, disk, p) != Text(B.T, B.W, p)
  {
    if Assembled(B.T, B.W, disk, p) == Text(B.T, B.W, p) {
      SameLines(B, disk, p);
      UnitsDiffer(B, disk, p, i);
    }
    hide *;
  }

  lemma UnitsDiffer(B: Setup, disk: Disk, p: Package, i: nat)
    requires SetupOk(B) && WorldOk(B.T, B.W) && OnDisk(B, disk, p) && p in B.W.own
    requires i < |Def(B.T, B.W, p).depends|
    requires var q := Def(B.T, B.W, p).depends[i].package;
             && q in B.W.own && q in disk && Def(B.T, B.W, q).hashOutput && disk[q].outputInfo == Some("")
             && B.T.listing(CleanOut(B.T, B.W, q)) != ""
    ensures LinesFor(B.T, B.W, disk, p) != DepUnits(B.T, B.W, p)
  {
    var q := Def(B.T, B.W, p).depends[i].package;
    DependIn(B.T, B.W, p, i);
    ToolsOf(B);
    LineIsClean(B, disk, q);
    hide SetupOk, WorldOk, CleanOut, Text, LineFor, DepUnits, OnDisk;
    assert LinesFor(B.T, B.W, disk, p)[i] == LineFor(B.T, B.W, disk, q);
  }

  /** d is described while q's output is being listed: the description is wrong. */
  lemma RacedIsWrong(B: Setup, s: BuildState, t: nat, q: Package)
    requires SetupOk(B) && BuildInv(B, s) && t < |s.sched.phases| && s.sched.phases[t].Building?
    requires var f := s.sched.phases[t].stack;
             && f.Frame? && f.pc == Prepare && !f.locally && HashedBy(B.T, B.W, f.package, q)
             && CanMove(B, s, Move(Work(t, Goto(Decide)), NOTHING_SPECIAL))
    requires forall x :: x in B.W.own && x in s.sched.shared.built && Def(B.T, B.W, x).hashOutput ==>
               x in s.disk && s.disk[x].outputInfo.Some?
    requires BeingListed(s.sched, q) && WorldOk(B.T, B.W) && B.T.listing(CleanOut(B.T, B.W, q)) != ""
    ensures var d, s' := s.sched.phases[t].stack.package, Moved(B, s, Move(Work(t, Goto(Decide)), NOTHING_SPECIAL));
            d in s'.disk && d in B.W.own && s'.disk[d].text.Some? && s'.disk[d].text != Some(Text(B.T, B.W, d))
  {
    hide *;
    var f, s' := MoveFacts(B, s, t, Goto(Decide), NOTHING_SPECIAL);
    var d := f.package;
    DependsAreBuilt(B, s, t);
    EarlyIsPristine(B, s, t);
    PristineHasNoText(B.T, d, s.disk[d]);
    PrepareMoves(B, s, f, NOTHING_SPECIAL);
    ToolsOf(B);
    KnownDepends(B, s.disk, d);
    forall i: nat | i < |Def(B.T, B.W, d).depends|
      ensures var x := Def(B.T, B.W, d).depends[i].package;
              x in B.W.own && x in s.disk && Clean(LineFor(B.T, B.W, s.disk, x))
    {
      var x := Def(B.T, B.W, d).depends[i].package;
      BuiltIsRight(B, s, x);
      HashIsField(B, s.disk, x, x !in s.spoiled);
    }
    LinesAreClean(B, s.disk, d);
    var i := IndexOfHashed(B.T, B.W, d, q);
    ListedIsEmpty(B, s, q);
    EmptyIsWrong(B, s.disk, d, i);
    FreshText(B, s, f);
  }

  lemma FreshText(B: Setup, s: BuildState, f: Stack)
    requires f.Frame? && OnDisk(B, s.disk, f.package) && f.package in s.disk && s.disk[f.package].text.None?
    requires f.package in B.W.own && f.package in B.W.extraction && Known(B.T, B.W, s.disk, f.package)
    ensures Prepared(B.T, Cleaned(s.disk[f.package], Def(B.T, B.W, f.package).clean),
              Assembled(B.T, B.W, s.disk, f.package)).text
            == Some(Assembled(B.T, B.W, s.disk, f.package))
  {
    hide WorldOk, Assembled, Known;
  }

  lemma IndexOfHashed(T: Tools, W: World, d: Package, q: Package) returns (i: nat)
    requires HashedBy(T, W, d, q)
    ensures d in W.own && q in W.own && i < |Def(T, W, d).depends| && Def(T, W, d).depends[i].package == q
    ensures Def(T, W, q).hashOutput
  {
    i :| 0 <= i < |Def(T, W, d).depends| && Def(T, W, d).depends[i].package == q;
  }

  lemma ListedIsEmpty(B: Setup, s: BuildState, q: Package)
    requires SetupOk(B) && BuildInv(B, s) && BeingListed(s.sched, q) && q in B.W.own && Def(B.T, B.W, q).hashOutput
    ensures q in s.disk && s.disk[q].outputInfo == Some("")
  {
    hide *;
    var u := Lister(s.sched, q);
    ListedMeans(s.sched, u, q);
    TopFilesAre(B, s, u);
    var f := s.sched.phases[u].stack;
    TopFacts(B, s, f);
    EmptyWhileListing(B, s.disk[q], q, f.locally, q !in s.spoiled);
  }

  lemma EmptyWhileListing(B: Setup, fs: Files, q: Package, locally: bool, trusted: bool)
    requires WorldOk(B.T, B.W) && q in B.W.own && FilesOk(B, fs, q, locally, List, trusted)
    requires Def(B.T, B.W, q).hashOutput
    ensures fs.outputInfo == Some("") && List != Lock
  {
    hide WorldOk, Text, CleanOut, Right, OutputInfoRight, Consistent;
  }

  // ---------------------------------------------------------------------
  // Descriptions stay

  lemma OwnTextStays(B: Setup, disk: Disk, sh: Shared, f: Stack, o: Outcome, e: Effect)
    requires f.Frame? && OnDisk(B, disk, f.package) && DiskMay(B, disk, f, o, e) && f.package in disk
    requires FrameMay(B.cfg, sh, f, o) && disk[f.package].text.Some?
    ensures FilesThen(B, disk, f, o, e).text == disk[f.package].text
  {
    if f.pc.Prepare? {
      assert f.package in B.W.extraction.Keys;
    }
    hide WorldOk, HashMissing, Assembled, ArchivesExist, Known, Downloads, EntryFor, AlwaysBuilt;
    hide StagingSet, InstallSet;
  }

  lemma TextStaysHere(B: Setup, s: BuildState, m: Move, p: Package)
    requires SetupOk(B) && BuildInv(B, s) && CanMove(B, s, m) && p in s.disk && s.disk[p].text.Some?
    ensures p in Moved(B, s, m).disk && Moved(B, s, m).disk[p].text == s.disk[p].text
  {
    hide *;
    if m.action.Work? {
      assert m == Move(Work(m.action.t, m.action.o), m.effect);
      var f, s' := MoveFacts(B, s, m.action.t, m.action.o, m.effect);
      if p == f.package {
        OwnTextStays(B, s.disk, s.sched.shared, f, m.action.o, m.effect);
      }
    } else {
      MovedSched(B, s, m);
    }
  }

  /** What is reached from a reachable state is reachable, and descriptions are the
      same there. */
  lemma {:induction false} LeadsOnward(B: Setup, order: seq<Package>, disk: Disk, before: seq<Move>, s: BuildState,
                                       moves: seq<Move>, s': BuildState, p: Package)
    requires SetupOk(B) && AfterMoves(B, order, disk, before) == Some(s) && AfterFrom(B, s, moves) == Some(s')
    requires BuildInv(B, s) && p in s.disk && s.disk[p].text.Some?
    ensures ReachableFrom(B, disk, s') && p in s'.disk && s'.disk[p].text == s.disk[p].text
    decreases |moves|
  {
    hide SetupOk, CanMove, Moved, BuildInv;
    if moves == [] {
      ReachedBy(B, order, disk, before, s);
    } else {
      var s1 := Moved(B, s, moves[0]);
      assert (before + [moves[0]])[..|before + [moves[0]]| - 1] == before;
      assert AfterMoves(B, order, disk, before + [moves[0]]) == Some(s1);
      MoveKeeps(B, s, moves[0]);
      TextStaysHere(B, s, moves[0], p);
      LeadsOnward(B, order, disk, before + [moves[0]], s1, moves[1..], s', p);
    }
  }

  // ---------------------------------------------------------------------
  // The plan of a race

  /** No package has to be built, and no work directory is cleaned. */
  ghost predicate PlainTree(B: Setup) {
    forall x :: x in B.W.own ==> !AlwaysBuilt(Def(B.T, B.W, x)) && !Def(B.T, B.W, x).clean
  }

  /** From x local dependencies lead to q without passing through c. */
  ghost predicate LocallyAbove(cfg: Config, c: Package, x: Package, q: Package) {
    exists path :: LocalPath(cfg.depends, path) && path[0] == x && path[|path| - 1] == q && c !in path
  }

  lemma LocallyAboveNext(cfg: Config, c: Package, x: Package, i: nat, q: Package)
    requires i < |DependsOn(cfg.depends, x)| && DependsOn(cfg.depends, x)[i].locally && x != c
    requires LocallyAbove(cfg, c, DependsOn(cfg.depends, x)[i].package, q)
    ensures LocallyAbove(cfg, c, x, q)
  {
    var y := DependsOn(cfg.depends, x)[i].package;
    var path :| LocalPath(cfg.depends, path) && path[0] == y && path[|path| - 1] == q && c !in path;
    assert DependsOn(cfg.depends, x)[i] == PackageDepend(y, true);
    assert ([x] + path)[1..] == path;
    assert LocalPath(cfg.depends, [x] + path);
  }

  /** The last package on the way is q itself. */
  lemma LocallyAboveIsLast(cfg: Config, c: Package, x: Package, q: Package)
    requires LocallyAbove(cfg, c, x, q) && x != q
    ensures exists i :: 0 <= i < |DependsOn(cfg.depends, x)| && DependsOn(cfg.depends, x)[i].locally
                        && LocallyAbove(cfg, c, DependsOn(cfg.depends, x)[i].package, q)
  {
    var path :| LocalPath(cfg.depends, path) && path[0] == x && path[|path| - 1] == q && c !in path;
    var i :| 0 <= i < |DependsOn(cfg.depends, x)| && DependsOn(cfg.depends, x)[i] == PackageDepend(path[1], true);
    assert c !in path[1..];
    assert LocallyAbove(cfg, c, path[1], q);
    assert DependsOn(cfg.depends, x)[i].package == path[1];
  }

  lemma {:induction false} LocalPathIsPath(depends: Depends, path: seq<Package>)
    requires LocalPath(depends, path) && Complete(depends) && path[0] in depends
    ensures IsPath(Targets(depends), path)
  {
    if |path| > 1 {
      var i :| 0 <= i < |DependsOn(depends, path[0])| && DependsOn(depends, path[0])[i] == PackageDepend(path[1], true);
      DependIsEdge(depends, path[0], i);
      LocalPathIsPath(depends, path[1..]);
    }
  }

  /** The rest of a path does not come back to where it began. */
  lemma NotBackAgain(cfg: Config, rank: map<Package, nat>, path: seq<Package>)
    requires Gated(cfg, rank) && LocalPath(cfg.depends, path) && path[0] in cfg.depends
    ensures path[0] !in path[1..]
  {
    if path[0] in path[1..] {
      var k :| 0 <= k < |path[1..]| && path[1..][k] == path[0];
      LocalPathIsPath(cfg.depends, path);
      GatedIsRanked(cfg, rank);
      RankedIsAcyclic(Targets(cfg.depends), rank);
      PathPrefix(Targets(cfg.depends), path, k + 2);
      assert PathFromTo(Targets(cfg.depends), path[..k + 2], path[0], path[0]);
      assert Reaches(Targets(cfg.depends), path[0], path[0]);
    }
  }

  lemma {:induction false} PathPrefix(g: Graph, path: seq<Package>, n: nat)
    requires IsPath(g, path) && 1 <= n <= |path|
    ensures IsPath(g, path[..n])
  {
    if n > 1 {
      PathPrefix(g, path[1..], n - 1);
      assert path[..n][1..] == path[1..][..n - 1];
    }
  }

  lemma RacesLead(B: Setup, plan: Plan, c: Package, d: Package, q: Package)
    requires SetupOk(B) && Race(B, c, d, q) && c in B.W.own
    requires plan.keep == set x | x in B.W.own && LocallyAbove(B.cfg, c, x, q)
    ensures Leads(B.cfg, plan, c, 0)
  {
    SetupCfg(B);
    SetupGraph(B);
    hide *;
    var path := RacePath(B, c, d, q);
    assert c in B.cfg.depends.Keys;
    NotBackAgain(B.cfg, B.W.rank, path);
    FirstStepLeads(B.cfg, plan, path, q, B.W.own.Keys);
  }

  lemma RacePath(B: Setup, c: Package, d: Package, q: Package) returns (path: seq<Package>)
    requires Race(B, c, d, q)
    ensures |path| >= 2 && LocalPath(B.cfg.depends, path) && path[0] == c && path[|path| - 1] == q
  {
    path :| RebuildPath(B, path) && path[0] == c && path[|path| - 1] == q;
  }

  lemma FirstStepLeads(cfg: Config, plan: Plan, path: seq<Package>, q: Package, known: set<Package>)
    requires |path| >= 2 && LocalPath(cfg.depends, path) && path[|path| - 1] == q && path[0] !in path[1..]
    requires Complete(cfg.depends) && path[0] in cfg.depends && known == cfg.depends.Keys
    requires plan.keep == set x | x in known && LocallyAbove(cfg, path[0], x, q)
    ensures Leads(cfg, plan, path[0], 0)
  {
    var i :| 0 <= i < |DependsOn(cfg.depends, path[0])|
             && DependsOn(cfg.depends, path[0])[i] == PackageDepend(path[1], true);
    assert LocallyAbove(cfg, path[0], path[1], q);
    assert DependsOn(cfg.depends, path[0])[i].package in cfg.depends.Keys;
  }

  lemma NextIsKept(cfg: Config, plan: Plan, c: Package, x: Package, q: Package, known: set<Package>)
    requires Complete(cfg.depends) && known == cfg.depends.Keys
    requires plan.keep == set x | x in known && LocallyAbove(cfg, c, x, q)
    requires x in plan.keep && x != q
    ensures !Spares(cfg, plan, x)
  {
    LocallyAboveIsLast(cfg, c, x, q);
    assert x in cfg.depends;
    forall i | 0 <= i < |DependsOn(cfg.depends, x)|
      ensures DependsOn(cfg.depends, x)[i].package in known
    {
    }
    hide LocallyAbove, Complete;
  }

  lemma SparedIsLast(B: Setup, plan: Plan, c: Package, x: Package, q: Package)
    requires plan.keep == set x | x in B.W.own && LocallyAbove(B.cfg, c, x, q)
    requires x in plan.keep && Spares(B.cfg, plan, x) && B.cfg.depends.Keys == B.W.own.Keys && Complete(B.cfg.depends)
    ensures x == q
  {
    hide *;
    if x != q {
      assert plan.keep == set x | x in B.W.own.Keys && LocallyAbove(B.cfg, c, x, q);
      NextIsKept(B.cfg, plan, c, x, q, B.W.own.Keys);
    }
  }

  /** All packages but c are skipped, and nothing but c asks for q. */
  lemma RacePlan(B: Setup, c: Package, q: Package) returns (plan: Plan)
    requires SetupOk(B) && B.cfg.depends.Keys == B.W.own.Keys
    ensures Sorts(B.cfg, plan) && plan.skip == B.cfg.depends.Keys - {c}
    ensures plan.keep == set x | x in B.W.own && LocallyAbove(B.cfg, c, x, q)
  {
    hide SetupOk, Listing, LocalPath;
    var order := SchedulerWorkers.SomeOrder(B.cfg.depends.Keys);
    OrderIsListing(B.cfg, order);
    var keep := set x | x in B.W.own && LocallyAbove(B.cfg, c, x, q);
    plan := Plan(order, (s, t) => order, B.cfg.depends.Keys - {c}, keep);
    forall x | x in plan.keep
      ensures x in plan.skip
    {
      NotThrough(B.cfg, c, x, q);
    }
    forall p | p in plan.skip && p !in plan.keep
      ensures Spares(B.cfg, plan, p)
    {
      forall i | 0 <= i < |DependsOn(B.cfg.depends, p)| && DependsOn(B.cfg.depends, p)[i].locally
        ensures DependsOn(B.cfg.depends, p)[i].package !in plan.keep
      {
        if DependsOn(B.cfg.depends, p)[i].package in plan.keep {
          LocallyAboveNext(B.cfg, c, p, i, q);
        }
      }
    }
    PlanSorts(B.cfg, plan, order);
  }

  lemma NotThrough(cfg: Config, c: Package, x: Package, q: Package)
    requires LocallyAbove(cfg, c, x, q)
    ensures x != c
  {
  }

  // ---------------------------------------------------------------------
  // The disk of a race

  /** What a clean build of x leaves. */
  ghost function CleanFiles(B: Setup, x: Package): Files
    requires WorldOk(B.T, B.W) && x in B.W.own
  {
    var out := CleanOut(B.T, B.W, x);
    NO_FILES.(buildInfo := Some(Text(B.T, B.W, x)), staging := Some(out.staging), install := Some(out.install),
              outputInfo := Some(B.T.listing(out)))
  }

  /** Everything but c is as a clean build leaves it. */
  ghost function AllButOne(B: Setup, c: Package): Disk
    requires WorldOk(B.T, B.W)
  {
    map x | x in B.W.own :: if x == c then NO_FILES else CleanFiles(B, x)
  }

  lemma CleanIsFine(B: Setup, c: Package, x: Package)
    requires WorldOk(B.T, B.W) && CutoffsCovered(B.T, B.W) && x in B.W.own
    ensures x in AllButOne(B, c) && Pristine(B.T, x, AllButOne(B, c)[x])
    ensures x == c ==> AllButOne(B, c)[x] == NO_FILES
    ensures x != c && !AlwaysBuilt(Def(B.T, B.W, x)) && !Def(B.T, B.W, x).clean ==> Skippable(B, x, AllButOne(B, c)[x])
  {
    hide WorldOk, CleanOut, Text, CutoffsCovered, InCache, AlwaysBuilt;
    if x != c {
      assert Describes(B.T, B.W, x, CleanFiles(B, x));
    }
  }

  lemma RaceDiskFits(B: Setup, plan: Plan, c: Package)
    requires SetupOk(B) && WorldOk(B.T, B.W) && PlainTree(B) && plan.skip == B.W.own.Keys - {c}
    ensures Fit(B, plan, AllButOne(B, c)) && DiskOk(B, AllButOne(B, c))
  {
    hide *;
    ToolsOf(B);
    var disk := AllButOne(B, c);
    AllButOneKeys(B, c);
    forall x | x in B.W.own
      ensures x in disk && Pristine(B.T, x, disk[x])
      ensures if x in plan.skip then Skippable(B, x, disk[x]) else disk[x].install.None? && disk[x].newOut.None?
    {
      PlainMeans(B, x);
      CleanIsFine(B, c, x);
      NoFilesAre();
    }
    FitFromAll(B, plan, disk);
  }

  lemma AllButOneKeys(B: Setup, c: Package)
    requires WorldOk(B.T, B.W)
    ensures AllButOne(B, c).Keys == B.W.own.Keys
  {
    hide WorldOk, CleanFiles;
  }

  lemma NoFilesAre()
    ensures NO_FILES.install.None? && NO_FILES.newOut.None?
  {
  }

  lemma PlainMeans(B: Setup, x: Package)
    requires PlainTree(B) && x in B.W.own
    ensures !AlwaysBuilt(Def(B.T, B.W, x)) && !Def(B.T, B.W, x).clean
  {
    hide AlwaysBuilt;
  }

  lemma FitFromAll(B: Setup, plan: Plan, disk: Disk)
    requires WorldOk(B.T, B.W) && disk.Keys == B.W.own.Keys
    requires forall x :: x in B.W.own ==>
               && x in disk && Pristine(B.T, x, disk[x])
               && if x in plan.skip then Skippable(B, x, disk[x]) else disk[x].install.None? && disk[x].newOut.None?
    ensures Fit(B, plan, disk) && DiskOk(B, disk)
  {
    hide WorldOk, Skippable, Pristine;
  }

  // ---------------------------------------------------------------------
  // The race

  lemma GoingIsFine(B: Setup, plan: Plan, s: BuildState)
    requires SetupOk(B) && Going(B, plan, s) && PlainTree(B)
    ensures Fine(B, s)
  {
    hide *;
    GoingHas(B, plan, s);
    forall p | p in B.W.own
      ensures PackageFine(B, s, p)
    {
      GoingPackage(B, plan, s, p);
      FitsMeans(B, plan, s, p);
      PlainMeans(B, p);
      if p in plan.skip && p !in s.sched.shared.built && Def(B.T, B.W, p).hashOutput {
        SkippableHas(B, p, s.disk[p]);
      }
      PackageFineFrom(B, s, p);
    }
    forall t: nat | t < |s.sched.phases|
      ensures PhaseFine(s.sched.phases[t])
    {
      GoingPhase(B, plan, s, t);
      FitsIsFine(plan, s.sched.phases[t]);
    }
    FineFrom(B, s);
  }

  lemma SkippableHas(B: Setup, p: Package, fs: Files)
    requires WorldOk(B.T, B.W) && p in B.W.own && Skippable(B, p, fs) && Def(B.T, B.W, p).hashOutput
    ensures fs.outputInfo.Some? || (fs.install.None? && fs.newOut.None?)
  {
    hide WorldOk, Text, InCache, AlwaysBuilt;
  }

  lemma {:induction false} StackFitsIsFine(plan: Plan, f: Stack)
    requires StackFits(plan, f)
    ensures StackFine(f)
  {
    if f.Frame? {
      StackFitsIsFine(plan, f.caller);
    }
  }

  lemma FitsIsFine(plan: Plan, phase: Phase)
    requires PhaseFits(plan, phase)
    ensures PhaseFine(phase)
  {
    if phase.Building? {
      StackFitsIsFine(plan, phase.stack);
    }
  }

  /** A reachable state in which d is about to be described while q is listed. */
  lemma RaceState(B: Setup, c: Package, d: Package, q: Package)
      returns (order: seq<Package>, moves: seq<Move>, s: BuildState, t: nat)
    requires SetupOk(B) && WorldOk(B.T, B.W) && B.cfg.limit != 1 && Race(B, c, d, q) && PlainTree(B) && c in B.W.own
    ensures DiskOk(B, AllButOne(B, c)) && AfterMoves(B, order, AllButOne(B, c), moves) == Some(s) && Fine(B, s)
    ensures t < |s.sched.phases| && s.sched.phases[t] == Own(d, Prepare) && BeingListed(s.sched, q)
  {
    hide *;
    SetupCfg(B);
    SetupGraph(B);
    RaceMeans(B, c, d, q);
    DependsIn(B.T, B.W, d, q);
    var plan := RacePlan(B, c, q);
    RacesLead(B, plan, c, d, q);
    assert c in B.cfg.depends.Keys && d in B.cfg.depends.Keys;
    var sched, u, g;
    sched, u, t, g := SomeRace(B.cfg, B.W.rank, plan, c, d);
    SparedIsLast(B, plan, c, g.package, q);
    RaceDiskFits(B, plan, c);
    var actions := RanBy(B.cfg, plan, sched);
    order := plan.order;
    moves, s := RunFollows(B, plan, AllButOne(B, c), actions);
    GoingIsFine(B, plan, s);
    IsBeingListed(s.sched, u, g, q);
  }

  lemma IsBeingListed(s: State, u: nat, g: Stack, q: Package)
    requires u < |s.phases| && s.phases[u] == Building(g) && g.Frame? && g.pc == List && g.package == q
    ensures BeingListed(s, q)
  {
    assert ListedBy(s, u, q);
  }

  lemma RaceMeans(B: Setup, c: Package, d: Package, q: Package)
    requires Race(B, c, d, q)
    ensures HashedBy(B.T, B.W, d, q) && c != d
    ensures !Reaches(Targets(B.cfg.depends), c, d) && !Reaches(Targets(B.cfg.depends), d, c)
  {
    hide HashedBy, Reaches, RebuildPath;
  }

  /** In a tree with a race there is a build that returns true and leaves a
      .build.info that is not the current description. */
  lemma RacesMislead(B: Setup, c: Package, d: Package, q: Package) returns (disk: Disk, s: BuildState)
    requires SetupOk(B) && WorldOk(B.T, B.W) && PlainTree(B) && B.cfg.limit != 1 && Race(B, c, d, q)
    requires c in B.W.own && q in B.W.own && B.T.listing(CleanOut(B.T, B.W, q)) != ""
    ensures DiskOk(B, disk) && ReachableFrom(B, disk, s) && s.sched.main == Returned(true)
    ensures d in s.disk && d in B.W.own && s.disk[d].buildInfo != Some(Text(B.T, B.W, d))
  {
    hide *;
    disk := AllButOne(B, c);
    var order, moves, s0, t := RaceState(B, c, d, q);
    FineHas(B, s0);
    RaceMeans(B, c, d, q);
    OwnIs(d, Prepare);
    DependsAreBuilt(B, s0, t);
    assert d in s0.disk.Keys;
    var o := SmoothMoves(B, s0, t);
    var f := Frame(d, false, Prepare, Bottom);
    SmoothIsSmooth(B, s0, f);
    PreparePcs();
    var m := Move(Work(t, Goto(Decide)), NOTHING_SPECIAL);
    forall x | x in B.W.own && x in s0.sched.shared.built && Def(B.T, B.W, x).hashOutput
      ensures x in s0.disk && s0.disk[x].outputInfo.Some?
    {
      FineMeans(B, s0, x);
    }
    RacedIsWrong(B, s0, t, q);
    SmoothKeeps(B, s0, t, o);
    var s1 := Moved(B, s0, m);
    s := EndsWrong(B, order, disk, moves, s0, m, s1, d);
  }

  lemma PreparePcs()
    ensures Prepare != Leave(false) && Prepare != Lock && Prepare != Decide
  {
  }

  /** From there the build is carried on; the description stays. */
  lemma EndsWrong(B: Setup, order: seq<Package>, disk: Disk, moves: seq<Move>, s0: BuildState, m: Move, s1: BuildState,
                  d: Package) returns (s: BuildState)
    requires SetupOk(B) && DiskOk(B, disk) && WorldOk(B.T, B.W) && d in B.W.own
    requires AfterMoves(B, order, disk, moves) == Some(s0) && CanMove(B, s0, m) && s1 == Moved(B, s0, m)
    requires Fine(B, s1) && d in s1.disk && s1.disk[d].text.Some? && s1.disk[d].text != Some(Text(B.T, B.W, d))
    ensures ReachableFrom(B, disk, s) && s.sched.main == Returned(true)
    ensures d in s.disk && s.disk[d].buildInfo != Some(Text(B.T, B.W, d))
  {
    hide *;
    AfterOneMore(B, order, disk, moves, s0, m);
    ReachableResult(B, disk, s1);
    FineHas(B, s1);
    s := GoodBuildsCanSucceed(B, s1);
    var more := LeadsBy(B, s1, s);
    var order1, moves1 := RunTo(B, disk, s1);
    LeadsOnward(B, order1, disk, moves1, s1, more, s, d);
    ReachableResult(B, disk, s);
    ReturnedTrue(B, s.sched);
    BaseBuiltMeansVouched(B, s, d);
    VouchedText(s.disk[d]);
  }

  lemma VouchedText(fs: Files)
    requires Vouched(fs)
    ensures fs.buildInfo == fs.text
  {
  }

  /** In a plain tree whose hashed outputs are not empty, every successful build
      leaves the current descriptions exactly if there is no race. */
  lemma QuietIsExact(B: Setup)
    requires SetupOk(B) && WorldOk(B.T, B.W) && PlainTree(B)
    requires forall q :: q in B.W.own && Def(B.T, B.W, q).hashOutput ==> B.T.listing(CleanOut(B.T, B.W, q)) != ""
    ensures QuietListings(B) <==>
            forall disk, s, p | DiskOk(B, disk) && ReachableFrom(B, disk, s) && s.sched.main == Returned(true)
                                && p in B.W.own && p in s.disk ::
              s.disk[p].buildInfo == Some(Text(B.T, B.W, p))
  {
    hide *;
    if QuietListings(B) {
      forall disk, s, p | DiskOk(B, disk) && ReachableFrom(B, disk, s) && s.sched.main == Returned(true)
                          && p in B.W.own && p in s.disk
        ensures s.disk[p].buildInfo == Some(Text(B.T, B.W, p))
      {
        BuildEqualsFromScratch(B, disk, s, p);
        CleanInfo(B, p, s.disk[p]);
      }
    } else {
      var c, d, q := SomeRaceOf(B);
      var disk, s := RacesMislead(B, c, d, q);
    }
  }

  lemma CleanInfo(B: Setup, p: Package, fs: Files)
    requires WorldOk(B.T, B.W) && p in B.W.own && CleanOnDisk(B.T, B.W, p, fs)
    ensures fs.buildInfo == Some(Text(B.T, B.W, p))
  {
    hide WorldOk, CleanOut, Text, HashedBy;
  }

  lemma SomeRaceOf(B: Setup) returns (c: Package, d: Package, q: Package)
    requires SetupOk(B) && !QuietListings(B)
    ensures B.cfg.limit != 1 && Race(B, c, d, q) && c in B.W.own && q in B.W.own && Def(B.T, B.W, q).hashOutput
  {
    c, d, q :| Race(B, c, d, q);
    RaceMeans(B, c, d, q);
    DependsIn(B.T, B.W, d, q);
    SetupCfg(B);
    RaceStarts(B, c, d, q);
  }

  lemma RaceStarts(B: Setup, c: Package, d: Package, q: Package)
    requires Race(B, c, d, q) && B.cfg.depends.Keys == B.W.own.Keys
    ensures c in B.W.own
  {
    var path :| RebuildPath(B, path) && path[0] == c && path[|path| - 1] == q;
    assert LocalEdge(B.cfg.depends, path[0], path[1]);
    assert c in B.cfg.depends;
    assert c in B.cfg.depends.Keys;
  }
}
