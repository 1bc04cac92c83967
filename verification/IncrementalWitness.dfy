/** Trees and runs that meet the assumptions of the incremental theorems: a build
    that runs commands, one that is skipped, one that is restored from a cache and
    one that rebuilds a dependency locally; and runs that mislead. */
module IncrementalWitness {
  import opened Digraph
  import opened Packages
  import opened Scheduler
  import opened SchedulerRuns
  import SchedulerWorkers
  import opened Descriptions
  import opened Worlds
  import opened Merkle
  import opened Incremental
  import opened IncrementalRaces
  import opened IncrementalTheorems
  import opened IncrementalRuns
  import opened IncrementalRaceRuns

  // ---------------------------------------------------------------------
  // Tools

  function EscapeChar(c: char): string {
    if c == '\n' then "%n" else if c == ' ' then "%s" else if c == '%' then "%%" else [c]
  }

  function Escape(s: string): (e: string)
    ensures Field(e)
  {
    if s == "" then "" else EscapeChar(s[0]) + Escape(s[1..])
  }

  lemma {:induction false} EscapeInjective(s: string, t: string)
    requires Escape(s) == Escape(t)
    ensures s == t
  {
    if s != "" && t != "" {
      var a, b := EscapeChar(s[0]), EscapeChar(t[0]);
      assert Escape(s)[0] == a[0] && Escape(t)[0] == b[0];
      assert |a| == |b|;
      assert Escape(s)[..|a|] == a && Escape(t)[..|b|] == b;
      assert Escape(s)[|a|..] == Escape(s[1..]) && Escape(t)[|b|..] == Escape(t[1..]);
      EscapeInjective(s[1..], t[1..]);
    }
  }

  function ListingOf(out: Output): (s: string)
    ensures s != ""
  {
    Escape(out.staging) + [' '] + Escape(out.install)
  }

  function Plain(depends: seq<PackageDepend>): Definition {
    Definition(depends, false, false, false, false, false, false, false)
  }

  const HASHED := Definition([], true, true, true, false, false, false, false)

  /** 0 stands alone; 10 depends locally on 11; 20 depends on 21 and 22, which both
      depend on 23, the first one locally. 11 and 23 hash their output. */
  function Interpret(p: Package): Definition {
    match p
    case 10 => Plain([PackageDepend(11, true)])
    case 20 => Plain([PackageDepend(21, false), PackageDepend(22, false)])
    case 21 => Plain([PackageDepend(23, true)])
    case 22 => Plain([PackageDepend(23, false)])
    case _ => if p == 11 || p == 23 then HASHED else Plain([])
  }

  /** What a package's commands make depends on the lines it records. */
  const TOOLS := Tools(x => "." + Escape(x), x => ListingOf(x), (p, us) => Interpret(p),
                       (p, us, x, staged, installed) => Output(if us == [] then "new" else "old", ""), p => "w")

  lemma ToolsAreOk()
    ensures ToolsOk(TOOLS)
  {
    forall x, y | TOOLS.digest(x) == TOOLS.digest(y)
      ensures x == y
    {
      assert ("." + Escape(x))[1..] == Escape(x) && ("." + Escape(y))[1..] == Escape(y);
      EscapeInjective(x, y);
    }
    forall x, y | TOOLS.listing(x) == TOOLS.listing(y)
      ensures x == y
    {
      SplitIsUnique(' ', Escape(x.staging), Escape(x.install), Escape(y.staging), Escape(y.install));
      EscapeInjective(x.staging, y.staging);
      EscapeInjective(x.install, y.install);
    }
  }

  // ---------------------------------------------------------------------
  // Trees

  const TREE := World(map[0 := []], map[0 := ""], map[0 := 0])

  /** The same package, described differently. */
  const OLD_TREE := World(map[0 := [FeatureNil("old")]], map[0 := ""], map[0 := 0])

  const LOCAL_TREE := World(map[10 := [], 11 := []], map[10 := "", 11 := ""], map[10 := 1, 11 := 0])

  const RACE_TREE :=
    World(map[20 := [], 21 := [], 22 := [], 23 := []], map[20 := "", 21 := "", 22 := "", 23 := ""],
          map[20 := 2, 21 := 1, 22 := 1, 23 := 0])

  lemma DefsAre(W: World, p: Package)
    requires p in W.own
    ensures Def(TOOLS, W, p) == Interpret(p)
  {
  }

  predicate IsExample(W: World) {
    W == TREE || W == OLD_TREE || W == LOCAL_TREE || W == RACE_TREE
  }

  lemma KeysAre(W: World)
    requires IsExample(W)
    ensures W.rank.Keys == W.own.Keys == W.extraction.Keys
  {
  }

  lemma LinesAreOk(W: World, p: Package)
    requires IsExample(W) && p in W.own
    ensures AllClean(W.own[p]) && forall i :: 0 <= i < |W.own[p]| ==> Worlds.Recorded(W.own[p][i])
  {
    assert W.own[p] == [] || W.own[p] == [FeatureNil("old")];
  }

  lemma DependsAreOk(W: World, p: Package)
    requires IsExample(W) && p in W.own
    ensures forall i :: 0 <= i < |Interpret(p).depends| ==>
              var q := Interpret(p).depends[i].package;
              q in W.own && q in W.rank && p in W.rank && W.rank[q] < W.rank[p]
  {
    if W == RACE_TREE {
      RaceDependsAreOk(p);
    }
  }

  lemma RaceDependsAreOk(p: Package)
    requires p in RACE_TREE.own
    ensures forall i :: 0 <= i < |Interpret(p).depends| ==>
              var q := Interpret(p).depends[i].package;
              && q in RACE_TREE.own && q in RACE_TREE.rank && p in RACE_TREE.rank
              && RACE_TREE.rank[q] < RACE_TREE.rank[p]
  {
  }

  lemma HashersIntercept(p: Package)
    ensures Interpret(p).hashOutput ==> Interpret(p).interceptStaging && Interpret(p).interceptInstall
  {
  }

  lemma WorldFrom(W: World)
    requires W.rank.Keys == W.own.Keys == W.extraction.Keys
    requires forall p :: p in W.own ==>
               && AllClean(W.own[p]) && (forall i :: 0 <= i < |W.own[p]| ==> Worlds.Recorded(W.own[p][i]))
               && DependsOk(TOOLS, W, p)
    ensures WorldOk(TOOLS, W)
  {
    hide DependsOk, AllClean, Worlds.Recorded;
  }

  lemma DependsOkFrom(W: World, p: Package)
    requires W.rank.Keys == W.own.Keys && p in W.own && Def(TOOLS, W, p) == Interpret(p)
    requires forall i :: 0 <= i < |Interpret(p).depends| ==>
               var q := Interpret(p).depends[i].package;
               q in W.own && q in W.rank && p in W.rank && W.rank[q] < W.rank[p]
    ensures DependsOk(TOOLS, W, p)
  {
    hide Interpret, Def;
  }

  lemma InterceptsFrom(W: World)
    requires forall p :: p in W.own ==>
               && Def(TOOLS, W, p) == Interpret(p)
               && (Interpret(p).hashOutput ==> Interpret(p).interceptStaging && Interpret(p).interceptInstall)
    ensures CutoffsIntercept(TOOLS, W)
  {
    hide Interpret, Def;
  }

  lemma TreesAreOk(W: World)
    requires IsExample(W)
    ensures WorldOk(TOOLS, W) && CutoffsCovered(TOOLS, W)
  {
    hide *;
    KeysAre(W);
    forall p | p in W.own
      ensures DependsOk(TOOLS, W, p) && AllClean(W.own[p]) && Def(TOOLS, W, p) == Interpret(p)
      ensures forall i :: 0 <= i < |W.own[p]| ==> Worlds.Recorded(W.own[p][i])
      ensures Interpret(p).hashOutput ==> Interpret(p).interceptStaging && Interpret(p).interceptInstall
    {
      LinesAreOk(W, p);
      DependsAreOk(W, p);
      DefsAre(W, p);
      DependsOkFrom(W, p);
      HashersIntercept(p);
    }
    WorldFrom(W);
    InterceptsFrom(W);
    InterceptingCovers(TOOLS, W);
  }

  /** Any number of threads, and no special mode. */
  function SetupFor(W: World, base: Package, cache: Option<Cache>): Setup {
    Setup(Config(DependsMap(TOOLS, W), base, {}, false, false, 0), TOOLS, W, cache)
  }

  lemma EdgeOf(W: World, p: Package, i: nat)
    requires p in W.own && i < |Interpret(p).depends|
    ensures Edge(Targets(DependsMap(TOOLS, W)), p, Interpret(p).depends[i].package)
    ensures Reaches(Targets(DependsMap(TOOLS, W)), p, Interpret(p).depends[i].package)
  {
    DefsAre(W, p);
    assert DependsMap(TOOLS, W)[p] == Interpret(p).depends;
    DependIsEdge(DependsMap(TOOLS, W), p, i);
    EdgeReaches(Targets(DependsMap(TOOLS, W)), p, Interpret(p).depends[i].package);
  }

  lemma BaseReachesAll(W: World, base: Package, p: Package)
    requires (W == TREE && base == 0) || (W == LOCAL_TREE && base == 10) || (W == RACE_TREE && base == 20)
    requires p in W.own && p != base
    ensures Reaches(Targets(DependsMap(TOOLS, W)), base, p)
  {
    hide Reaches, DependsMap, Targets;
    if p == 11 {
      EdgeOf(W, 10, 0);
    } else if p == 21 {
      EdgeOf(W, 20, 0);
    } else if p == 22 {
      EdgeOf(W, 20, 1);
    } else {
      EdgeOf(W, 20, 0);
      EdgeOf(W, 21, 0);
      ReachesTransitive(Targets(DependsMap(TOOLS, W)), 20, 21, 23);
    }
  }

  lemma TreesAreGated(W: World, base: Package)
    requires (W == TREE && base == 0) || (W == LOCAL_TREE && base == 10) || (W == RACE_TREE && base == 20)
    requires WorldOk(TOOLS, W)
    ensures Gated(SetupFor(W, base, None).cfg, W.rank)
  {
    WorldIsRanked(TOOLS, W);
    WorldIsComplete(TOOLS, W);
    forall p | p in W.own && p != base
      ensures Reaches(Targets(DependsMap(TOOLS, W)), base, p)
    {
      BaseReachesAll(W, base, p);
    }
    assert base in W.own;
    hide Reaches, WorldOk, Ranked, Complete, Targets;
  }

  lemma SetupFrom(B: Setup)
    requires ToolsOk(B.T) && WorldOk(B.T, B.W) && CutoffsCovered(B.T, B.W) && B.cfg.depends == DependsMap(B.T, B.W)
    requires Gated(B.cfg, B.W.rank) && B.cfg.suppressed == {} && !B.cfg.fetchOnly
    requires B.cache.Some? ==> Honest(B.T, B.cache.value)
    ensures SetupOk(B)
  {
    hide ToolsOk, WorldOk, CutoffsCovered, DependsMap, Gated, Honest;
  }

  lemma SetupsAreOk(W: World, base: Package, cache: Option<Cache>)
    requires (W == TREE && base == 0) || (W == LOCAL_TREE && base == 10) || (W == RACE_TREE && base == 20)
    requires cache.Some? ==> Honest(TOOLS, cache.value)
    ensures SetupOk(SetupFor(W, base, cache)) && WorldOk(TOOLS, W) && CutoffsCovered(TOOLS, W)
  {
    ToolsAreOk();
    assert IsExample(W);
    TreesAreOk(W);
    TreesAreGated(W, base);
    hide ToolsOk, WorldOk, CutoffsCovered, DependsMap, Gated, Honest, SetupOk;
    SetupFrom(SetupFor(W, base, cache));
  }

  /** What a build of the one package leaves. */
  lemma CleanOutputs()
    requires WorldOk(TOOLS, TREE) && WorldOk(TOOLS, OLD_TREE)
    ensures CleanOut(TOOLS, TREE, 0) == Output("new", "") && CleanOut(TOOLS, OLD_TREE, 0) == Output("old", "")
  {
    hide WorldOk, CleanStaging, CleanInstall;
  }

  // ---------------------------------------------------------------------
  // Builds that succeed

  /** A plan with packages to skip, of which some are to be kept from being built. */
  lemma PlanFor(W: World, base: Package, skip: set<Package>, keep: set<Package>) returns (plan: Plan)
    requires keep <= skip && forall p :: p in W.own && p !in keep ==> Asks(p) !! keep
    requires skip <= W.own.Keys
    ensures Sorts(SetupFor(W, base, None).cfg, plan) && AllSpare(SetupFor(W, base, None).cfg, plan)
    ensures plan.skip == skip && plan.keep == keep
  {
    var cfg := SetupFor(W, base, None).cfg;
    hide *;
    DependsKeys(W, base);
    var order := SchedulerWorkers.SomeOrder(cfg.depends.Keys);
    OrderIsListing(cfg, order);
    plan := Plan(order, (s, t) => order, skip, keep);
    forall p | p in W.own && p !in keep
      ensures Spares(cfg, plan, p)
    {
      AsksAre(W, base, plan, p);
    }
    PlanSorts(cfg, plan, order);
    AllSpareFrom(cfg, plan, W.own.Keys);
  }

  /** p's local dependencies. */
  function Asks(p: Package): set<Package> {
    set d | d in Interpret(p).depends && d.locally :: d.package
  }

  lemma DependsKeys(W: World, base: Package)
    ensures SetupFor(W, base, None).cfg.depends.Keys == W.own.Keys
  {
  }

  lemma AsksAre(W: World, base: Package, plan: Plan, p: Package)
    requires p in W.own && Asks(p) !! plan.keep
    ensures Spares(SetupFor(W, base, None).cfg, plan, p)
  {
    DefsAre(W, p);
    var deps := DependsOn(SetupFor(W, base, None).cfg.depends, p);
    assert deps == Interpret(p).depends;
    forall i | 0 <= i < |deps| && deps[i].locally
      ensures deps[i].package !in plan.keep
    {
      assert deps[i] in Interpret(p).depends;
      assert deps[i].package in Asks(p);
    }
  }

  lemma AllSpareFrom(cfg: Config, plan: Plan, known: set<Package>)
    requires known == cfg.depends.Keys && plan.keep <= plan.skip
    requires forall p :: p in known && p !in plan.keep ==> Spares(cfg, plan, p)
    ensures AllSpare(cfg, plan)
  {
    hide Spares;
  }

  /** Two packages of which one depends on the other cannot race. */
  lemma TreesAreQuiet(W: World, base: Package, cache: Option<Cache>)
    requires (W == TREE && base == 0) || (W == LOCAL_TREE && base == 10)
    ensures QuietListings(SetupFor(W, base, cache))
  {
    var B := SetupFor(W, base, cache);
    forall c, d, q
      ensures !Race(B, c, d, q)
    {
      if Race(B, c, d, q) {
        HasherIs(W, d, q);
        var path := RacePath(B, c, d, q);
        LocalStart(W, base, path[0], path[1]);
      }
    }
    hide Race;
  }

  lemma HasherIs(W: World, d: Package, q: Package)
    requires (W == TREE || W == LOCAL_TREE) && HashedBy(TOOLS, W, d, q)
    ensures d == 10
  {
  }

  lemma LocalStart(W: World, base: Package, c: Package, x: Package)
    requires (W == TREE || W == LOCAL_TREE) && LocalEdge(DependsMap(TOOLS, W), c, x)
    ensures c == 10
  {
  }

  lemma NothingIsTrue(T: Tools, p: Package)
    ensures Pristine(T, p, NO_FILES)
  {
  }

  const NEVER_BUILT: Disk := map[0 := NO_FILES]

  lemma OneFits(B: Setup, plan: Plan, fs: Files)
    requires B.W == TREE && B.T == TOOLS && WorldOk(TOOLS, TREE) && Pristine(TOOLS, 0, fs)
    requires if 0 in plan.skip then Skippable(B, 0, fs) else fs.install.None? && fs.newOut.None?
    ensures Fit(B, plan, map[0 := fs]) && DiskOk(B, map[0 := fs])
  {
    assert TREE.own.Keys == {0};
    hide WorldOk, Pristine, Skippable;
  }

  lemma OnePath(depends: Depends, p: Package)
    ensures LocalPath(depends, [p])
  {
  }

  lemma CfgIs(W: World, base: Package, cache: Option<Cache>)
    ensures SetupFor(W, base, cache).cfg == SetupFor(W, base, None).cfg
    ensures SetupFor(W, base, cache).W == W && SetupFor(W, base, cache).T == TOOLS
    ensures SetupFor(W, base, cache).cache == cache
  {
  }

  lemma ZeroIsThere()
    ensures 0 in TREE.own && TREE.own.Keys == {0} && Asks(0) == {} && 0 in OLD_TREE.own
  {
  }

  /** What the theorems about successful builds assume can be met, by a build that
      runs commands. */
  lemma SomeBuildSucceeds() returns (B: Setup, s: BuildState)
    ensures SetupOk(B) && QuietListings(B) && DiskOk(B, NEVER_BUILT) && ReachableFrom(B, NEVER_BUILT, s)
    ensures s.sched.main == Returned(true) && 0 in s.sched.shared.wasBuilt
  {
    B := SetupFor(TREE, 0, None);
    hide *;
    CfgIs(TREE, 0, None);
    SetupsAreOk(TREE, 0, None);
    TreesAreQuiet(TREE, 0, None);
    ZeroIsThere();
    var plan := PlanFor(TREE, 0, {}, {});
    NothingIsTrue(TOOLS, 0);
    NoFilesAre();
    NeverBuiltIs();
    OneFits(B, plan, NO_FILES);
    s := TreeBuilds(B, plan, NEVER_BUILT);
    OnePath(B.cfg.depends, 0);
    var path := [0];
    assert path[|path| - 1] in s.sched.shared.wasBuilt;
  }

  lemma NeverBuiltIs()
    ensures NEVER_BUILT == map[0 := NO_FILES]
  {
  }

  lemma CleanIsSkippable(B: Setup, p: Package)
    requires WorldOk(B.T, B.W) && CutoffsCovered(B.T, B.W) && p in B.W.own
    requires !AlwaysBuilt(Def(B.T, B.W, p)) && !Def(B.T, B.W, p).clean
    ensures Pristine(B.T, p, CleanFiles(B, p)) && Skippable(B, p, CleanFiles(B, p))
  {
    hide WorldOk, CleanOut, Text, CutoffsCovered, AlwaysBuilt;
    assert Describes(B.T, B.W, p, CleanFiles(B, p));
  }

  lemma ZeroIsPlain(W: World)
    requires 0 in W.own
    ensures !AlwaysBuilt(Def(TOOLS, W, 0)) && !Def(TOOLS, W, 0).clean && !Def(TOOLS, W, 0).hashOutput
  {
  }

  /** The same for a build that finds its package up to date, and does not build it. */
  lemma SomeBuildSkips() returns (B: Setup, disk: Disk, s: BuildState)
    ensures SetupOk(B) && QuietListings(B) && DiskOk(B, disk) && ReachableFrom(B, disk, s)
    ensures s.sched.main == Returned(true) && 0 in B.W.own && 0 !in s.sched.shared.wasBuilt && B.cache.None?
  {
    B := SetupFor(TREE, 0, None);
    hide *;
    CfgIs(TREE, 0, None);
    SetupsAreOk(TREE, 0, None);
    TreesAreQuiet(TREE, 0, None);
    ZeroIsThere();
    ZeroIsPlain(TREE);
    var plan := PlanFor(TREE, 0, {0}, {0});
    CleanIsSkippable(B, 0);
    disk := map[0 := CleanFiles(B, 0)];
    OneFits(B, plan, CleanFiles(B, 0));
    s := TreeBuilds(B, plan, disk);
  }

  // ---------------------------------------------------------------------
  // The build cache

  /** The cache has what the tree's clean build makes, or part of it. */
  ghost function CacheWith(install: Option<string>): Cache
    requires WorldOk(TOOLS, TREE)
  {
    map[(0, TOOLS.digest(Text(TOOLS, TREE, 0))) := Entry(true, Some("new"), install, None)]
  }

  lemma CacheIsHonest(install: Option<string>)
    requires ToolsOk(TOOLS) && WorldOk(TOOLS, TREE) && CutoffsCovered(TOOLS, TREE) && install in [None, Some("")]
    requires CleanOut(TOOLS, TREE, 0) == Output("new", "")
    ensures Honest(TOOLS, CacheWith(install))
  {
    hide WorldOk, CutoffsCovered, CleanOut, Text, ToolsOk;
    var cache := CacheWith(install);
    forall W0, p | WorldOk(TOOLS, W0) && CutoffsCovered(TOOLS, W0) && p in W0.own
                   && (p, TOOLS.digest(Text(TOOLS, W0, p))) in cache
      ensures EntryIsClean(TOOLS, W0, p, cache[(p, TOOLS.digest(Text(TOOLS, W0, p)))])
    {
      SameTree(W0);
    }
  }

  /** Only trees with the same description of the package have its hash. */
  lemma SameTree(W0: World)
    requires ToolsOk(TOOLS) && WorldOk(TOOLS, TREE) && CutoffsCovered(TOOLS, TREE)
    requires WorldOk(TOOLS, W0) && CutoffsCovered(TOOLS, W0) && 0 in W0.own
    requires TOOLS.digest(Text(TOOLS, W0, 0)) == TOOLS.digest(Text(TOOLS, TREE, 0))
    ensures CleanOut(TOOLS, W0, 0) == CleanOut(TOOLS, TREE, 0)
  {
    hide WorldOk, CutoffsCovered, CleanOut, Text;
    SameTextSameOut(TOOLS, W0, TREE, 0);
  }

  lemma OldIsExample()
    ensures IsExample(OLD_TREE)
  {
  }

  /** A setup with such a cache. */
  lemma CachedSetup(install: Option<string>) returns (B: Setup)
    requires install in [None, Some("")]
    ensures WorldOk(TOOLS, TREE) && B == SetupFor(TREE, 0, Some(CacheWith(install))) && SetupOk(B)
    ensures WorldOk(TOOLS, OLD_TREE) && CutoffsCovered(TOOLS, OLD_TREE)
    ensures CleanOut(TOOLS, TREE, 0) == Output("new", "") && CleanOut(TOOLS, OLD_TREE, 0) == Output("old", "")
  {
    hide *;
    SetupsAreOk(TREE, 0, None);
    OldIsExample();
    TreesAreOk(OLD_TREE);
    ToolsAreOk();
    ZeroIsThere();
    CleanOutputs();
    CacheIsHonest(install);
    B := SetupFor(TREE, 0, Some(CacheWith(install)));
    SetupsAreOk(TREE, 0, Some(CacheWith(install)));
  }

  lemma CacheHas(install: Option<string>)
    requires WorldOk(TOOLS, TREE)
    ensures var B := SetupFor(TREE, 0, Some(CacheWith(install)));
            && 0 in B.W.own && WorldOk(B.T, B.W) && PartlyInCache(B, 0)
            && (install == Some("") ==> InCache(B, 0) && Skippable(B, 0, NO_FILES))
  {
    ZeroIsPlain(TREE);
    hide WorldOk, Text, Def;
  }

  /** The same for a build that restores its package from the cache. */
  lemma SomeBuildRestores() returns (B: Setup, s: BuildState)
    ensures SetupOk(B) && QuietListings(B) && DiskOk(B, NEVER_BUILT) && ReachableFrom(B, NEVER_BUILT, s)
    ensures s.sched.main == Returned(true) && 0 in B.W.own && 0 !in s.sched.shared.wasBuilt
  {
    hide *;
    B := CachedSetup(Some(""));
    CfgIs(TREE, 0, Some(CacheWith(Some(""))));
    TreesAreQuiet(TREE, 0, Some(CacheWith(Some(""))));
    ZeroIsThere();
    var plan := PlanFor(TREE, 0, {0}, {0});
    CacheHas(Some(""));
    NothingIsTrue(TOOLS, 0);
    NeverBuiltIs();
    OneFits(B, plan, NO_FILES);
    s := TreeBuilds(B, plan, NEVER_BUILT);
  }

  /** A partial restore can mislead: a tree, an earlier one and a cache for which
      it does. */
  lemma SomeRestoreMisleads() returns (B: Setup, disk: Disk, s: BuildState)
    ensures SetupOk(B) && DiskOk(B, disk) && ReachableFrom(B, disk, s)
    ensures 0 in s.disk && !Consistent(B.T, 0, s.disk[0]) && 0 !in s.spoiled
  {
    hide *;
    B := CachedSetup(None);
    CfgIs(TREE, 0, Some(CacheWith(None)));
    ZeroIsThere();
    ZeroIsPlain(TREE);
    CacheHas(None);
    disk, s := PartialRestoreMisleads(B, OLD_TREE, 0);
  }

  // ---------------------------------------------------------------------
  // Local rebuilds

  lemma LocalIs()
    ensures LOCAL_TREE.own.Keys == {10, 11} && 10 in LOCAL_TREE.own && 11 in LOCAL_TREE.own
    ensures !AlwaysBuilt(Def(TOOLS, LOCAL_TREE, 11)) && !Def(TOOLS, LOCAL_TREE, 11).clean
    ensures HashedBy(TOOLS, LOCAL_TREE, 10, 11)
    ensures LocalPath(SetupFor(LOCAL_TREE, 10, None).cfg.depends, [10, 11])
  {
    var depends := SetupFor(LOCAL_TREE, 10, None).cfg.depends;
    assert DependsOn(depends, 10) == [PackageDepend(11, true)];
    assert DependsOn(depends, 10)[0] == PackageDepend(11, true);
    assert Def(TOOLS, LOCAL_TREE, 10).depends[0].package == 11;
    assert [10, 11][1..] == [11];
  }

  lemma LocalFits(B: Setup, plan: Plan)
    requires B.W == LOCAL_TREE && B.T == TOOLS && WorldOk(TOOLS, LOCAL_TREE) && plan.skip == {11} && 11 in B.W.own
    requires Pristine(TOOLS, 11, CleanFiles(B, 11)) && Skippable(B, 11, CleanFiles(B, 11))
    requires LOCAL_TREE.own.Keys == {10, 11}
    ensures var disk := map[10 := NO_FILES, 11 := CleanFiles(B, 11)]; Fit(B, plan, disk) && DiskOk(B, disk)
  {
    hide WorldOk, Pristine, Skippable, CleanFiles;
    forall p
      ensures Pristine(TOOLS, p, NO_FILES)
    {
      NothingIsTrue(TOOLS, p);
    }
  }

  /** The same for a build that skips a package that hashes its output, and rebuilds
      it locally for the package that is described by that output. */
  lemma SomeBuildIsLocal() returns (B: Setup, disk: Disk, s: BuildState)
    ensures SetupOk(B) && QuietListings(B) && DiskOk(B, disk) && ReachableFrom(B, disk, s)
    ensures s.sched.main == Returned(true) && HashedBy(B.T, B.W, 10, 11)
    ensures WorldOk(B.T, B.W) && 11 in B.W.own && 11 in disk && disk[11] == CleanFiles(B, 11)
    ensures 11 in s.sched.shared.wasBuilt
  {
    hide *;
    B := SetupFor(LOCAL_TREE, 10, None);
    CfgIs(LOCAL_TREE, 10, None);
    SetupsAreOk(LOCAL_TREE, 10, None);
    TreesAreQuiet(LOCAL_TREE, 10, None);
    LocalIs();
    var plan := PlanFor(LOCAL_TREE, 10, {11}, {});
    CleanIsSkippable(B, 11);
    LocalFits(B, plan);
    disk := map[10 := NO_FILES, 11 := CleanFiles(B, 11)];
    s := TreeBuilds(B, plan, disk);
    var path := [10, 11];
    assert path[|path| - 1] in s.sched.shared.wasBuilt;
  }

  // ---------------------------------------------------------------------
  // A race

  lemma RacersAre()
    ensures RACE_TREE.own.Keys == {20, 21, 22, 23} && HashedBy(TOOLS, RACE_TREE, 22, 23)
    ensures LocalPath(SetupFor(RACE_TREE, 20, None).cfg.depends, [21, 23])
    ensures !AlwaysBuilt(Def(TOOLS, RACE_TREE, 23)) && PlainTree(SetupFor(RACE_TREE, 20, None))
  {
    DefsAre(RACE_TREE, 21);
    DefsAre(RACE_TREE, 22);
    DefsAre(RACE_TREE, 23);
    var depends := SetupFor(RACE_TREE, 20, None).cfg.depends;
    assert DependsOn(depends, 21) == [PackageDepend(23, true)];
    assert DependsOn(depends, 21)[0] == PackageDepend(23, true);
    assert Def(TOOLS, RACE_TREE, 22).depends[0].package == 23;
    assert [21, 23][1..] == [23];
    forall x | x in RACE_TREE.own
      ensures !AlwaysBuilt(Def(TOOLS, RACE_TREE, x)) && !Def(TOOLS, RACE_TREE, x).clean
    {
      DefsAre(RACE_TREE, x);
    }
  }

  lemma SameRank()
    ensures 21 in RACE_TREE.rank && 22 in RACE_TREE.rank && RACE_TREE.rank[21] == RACE_TREE.rank[22]
  {
  }

  lemma NeitherAbove(x: Package, y: Package)
    requires (x == 21 && y == 22) || (x == 22 && y == 21)
    requires WorldOk(TOOLS, RACE_TREE)
    ensures !Reaches(Targets(DependsMap(TOOLS, RACE_TREE)), x, y)
  {
    hide *;
    SameRank();
    WorldIsRanked(TOOLS, RACE_TREE);
    GraphIs(RACE_TREE);
    RanksApart(Targets(DependsMap(TOOLS, RACE_TREE)), RACE_TREE.rank, x, y);
  }

  lemma GraphIs(W: World)
    ensures GraphOf(TOOLS, W) == Targets(DependsMap(TOOLS, W))
  {
    hide Targets, DependsMap;
  }

  lemma RanksApart(g: Graph, rank: map<Package, nat>, x: Package, y: Package)
    requires Ranked(g, rank) && x in rank && y in rank && rank[x] == rank[y]
    ensures !Reaches(g, x, y)
  {
    if Reaches(g, x, y) {
      var path :| |path| >= 2 && PathFromTo(g, path, x, y);
      RankFallsAlongPath(g, rank, path);
    }
  }

  /** Races happen: a tree in which one does, and misleads a build that returns
      true. */
  lemma SomeRaceMisleads() returns (B: Setup, disk: Disk, s: BuildState)
    ensures SetupOk(B) && Race(B, 21, 22, 23) && DiskOk(B, disk) && ReachableFrom(B, disk, s)
    ensures s.sched.main == Returned(true) && WorldOk(B.T, B.W) && 22 in B.W.own
    ensures 22 in s.disk && s.disk[22].buildInfo != Some(Text(B.T, B.W, 22))
  {
    hide *;
    B := SetupFor(RACE_TREE, 20, None);
    CfgIs(RACE_TREE, 20, None);
    SetupsAreOk(RACE_TREE, 20, None);
    RacersAre();
    NeitherAbove(21, 22);
    NeitherAbove(22, 21);
    RaceIs(B);
    NotEmpty(CleanOut(TOOLS, RACE_TREE, 23));
    NoLimit();
    disk, s := RacesMislead(B, 21, 22, 23);
  }

  lemma RaceIs(B: Setup)
    requires B == SetupFor(RACE_TREE, 20, None) && HashedBy(TOOLS, RACE_TREE, 22, 23)
    requires LocalPath(B.cfg.depends, [21, 23]) && 23 in RACE_TREE.own && !AlwaysBuilt(Def(TOOLS, RACE_TREE, 23))
    requires !Reaches(Targets(DependsMap(TOOLS, RACE_TREE)), 21, 22)
    requires !Reaches(Targets(DependsMap(TOOLS, RACE_TREE)), 22, 21)
    ensures Race(B, 21, 22, 23)
  {
    hide LocalPath, Reaches, HashedBy, DependsMap;
    var path := [21, 23];
    assert RebuildPath(B, path) && path[0] == 21 && path[|path| - 1] == 23;
  }

  lemma NotEmpty(out: Output)
    ensures TOOLS.listing(out) != ""
  {
  }

  lemma NoLimit()
    ensures SetupFor(RACE_TREE, 20, None).cfg.limit != 1
  {
  }
}
