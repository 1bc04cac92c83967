/** What a run has damaged, told from its moves: where unreliable and exposed
    packages come from, and that nothing else is. */
module IncrementalDamage {
  import opened Digraph
  import opened Packages
  import opened Scheduler
  import opened SchedulerModes
  import opened Closures
  import opened Worlds
  import opened Incremental
  import opened IncrementalInvariant
  import opened IncrementalRaces
  import opened IncrementalResults

  // ---------------------------------------------------------------------
  // Moves

  /** m is a step of a call for p. */
  ghost predicate StepsFor(B: Setup, s: BuildState, m: Move, p: Package) {
    CanMove(B, s, m) && m.action.Work? && s.sched.phases[m.action.t].stack.package == p
  }

  /** The state before move i. */
  ghost function Before(B: Setup, order: seq<Package>, disk: Disk, moves: seq<Move>, i: nat): Option<BuildState>
    requires i <= |moves|
  {
    AfterMoves(B, order, disk, moves[..i])
  }

  lemma LastMove(B: Setup, order: seq<Package>, disk: Disk, moves: seq<Move>)
    requires moves != [] && AfterMoves(B, order, disk, moves).Some?
    ensures var last := |moves| - 1;
            var r := AfterMoves(B, order, disk, moves[..last]);
            && r.Some? && CanMove(B, r.value, moves[last])
            && AfterMoves(B, order, disk, moves) == Some(Moved(B, r.value, moves[last]))
            && Before(B, order, disk, moves, last) == r
            && forall i: nat :: i <= last ==>
                 Before(B, order, disk, moves[..last], i) == Before(B, order, disk, moves, i)
  {
    hide CanMove, Moved;
    var last := |moves| - 1;
    forall i: nat | i <= last
      ensures moves[..last][..i] == moves[..i]
    {
    }
  }

  // ---------------------------------------------------------------------
  // Where unreliable packages come from

  /** A tar that packs p up fails over its archive, or the listing of p's output
      fails when it is hashed. */
  ghost predicate Harms(B: Setup, s: BuildState, m: Move, p: Package) {
    && StepsFor(B, s, m, p) && (m.action.o == Throw || m.action.o == Goto(Leave(false)))
    && var pc := s.sched.phases[m.action.t].stack.pc;
       || ((pc.PackStaging? || pc.PackInstall?) && m.effect.left.Some?)
       || (pc.List? && p in B.W.own && Def(B.T, B.W, p).hashOutput)
  }

  ghost predicate HarmedAt(B: Setup, order: seq<Package>, disk: Disk, moves: seq<Move>, i: nat, p: Package)
    requires i < |moves|
  {
    Before(B, order, disk, moves, i).Some? && Harms(B, Before(B, order, disk, moves, i).value, moves[i], p)
  }

  ghost predicate AboveSpoiled(B: Setup, spoiled: set<Package>, p: Package) {
    exists q :: q in spoiled && Reaches(GraphOf(B.T, B.W), p, q)
  }

  lemma CutIsReached(g: Graph, cut: set<Package>, p: Package, q: Package)
    requires CutReaches(g, cut, p, q)
    ensures Reaches(g, p, q)
  {
    var path :| CutPath(g, cut, path) && path[0] == p && path[|path| - 1] == q;
    CutPathIsPath(g, cut, path);
    assert |path| >= 2 && PathFromTo(g, path, p, q);
  }

  lemma StagedAreReached(B: Setup, p: Package, q: Package)
    requires WorldOk(B.T, B.W) && p in B.W.own && q in StagingSet(B.T, B.W, p) + InstallSet(B.T, B.W, p)
    ensures Reaches(GraphOf(B.T, B.W), p, q)
  {
    hide WorldOk, CutReaches, Reaches;
    if q in StagingSet(B.T, B.W, p) {
      CutIsReached(GraphOf(B.T, B.W), StagingCut(B.T, B.W), p, q);
    } else {
      CutIsReached(GraphOf(B.T, B.W), InstallCut(B.T, B.W, Def(B.T, B.W, p).directOnly), p, q);
    }
  }

  lemma ClosureIsAbove(B: Setup, spoiled: set<Package>, p: Package)
    requires WorldOk(B.T, B.W) && p in B.W.own && ClosureSpoiled(B, spoiled, p)
    ensures AboveSpoiled(B, spoiled, p)
  {
    hide WorldOk, StagingSet, InstallSet, Reaches;
    var q :| q in spoiled && (q in StagingSet(B.T, B.W, p) || q in InstallSet(B.T, B.W, p));
    StagedAreReached(B, p, q);
  }

  lemma DependIsAbove(B: Setup, spoiled: set<Package>, p: Package)
    requires WorldOk(B.T, B.W) && p in B.W.own && DependSpoiled(B, spoiled, p)
    ensures AboveSpoiled(B, spoiled, p)
  {
    hide WorldOk, Reaches;
    var i: nat :| i < |Def(B.T, B.W, p).depends| && Def(B.T, B.W, p).depends[i].package in spoiled;
    DependIsEdge(DependsMap(B.T, B.W), p, i);
    EdgeReaches(GraphOf(B.T, B.W), p, Def(B.T, B.W, p).depends[i].package);
  }

  /** A move spoils its package because a command fails over a file, or because of
      a package below that is spoiled, if what is described is not being listed. */
  lemma SpoilHasCause(B: Setup, s: BuildState, m: Move)
    requires WorldOk(B.T, B.W) && CanMove(B, s, m) && m.action.Work?
    requires var f := s.sched.phases[m.action.t].stack;
             && Spoils(B, s, f, m.action.o, m.effect)
             && (f.pc.Prepare? ==> s.disk[f.package].text.Some? || !DependListed(B, s.sched, f.package))
    ensures var p := s.sched.phases[m.action.t].stack.package;
            Harms(B, s, m, p) || AboveSpoiled(B, s.spoiled, p)
  {
    var f := s.sched.phases[m.action.t].stack;
    hide AboveSpoiled, DependListed, DependSpoiled, ClosureSpoiled, WorldOk, May, DiskMay;
    if f.pc.Prepare? {
      DependIsAbove(B, s.spoiled, f.package);
    } else if f.pc.Stage? {
      ClosureIsAbove(B, s.spoiled, f.package);
    }
  }

  /** Without a race descriptions are reliable. */
  lemma NotListedWhenDescribed(B: Setup, s: BuildState, m: Move)
    requires SetupOk(B) && BuildInv(B, s) && QuietListings(B) && CanMove(B, s, m) && m.action.Work?
    ensures var f := s.sched.phases[m.action.t].stack;
            && f.package in s.disk
            && (f.pc.Prepare? ==> s.disk[f.package].text.Some? || !DependListed(B, s.sched, f.package))
  {
    hide *;
    var t := m.action.t;
    MoveIs(m);
    var f, s' := MoveFacts(B, s, t, m.action.o, m.effect);
    if f.pc.Prepare? {
      TopFilesAre(B, s, t);
      TopFacts(B, s, f);
      PrepareFacts(B, s, f);
      if f.locally {
        RightHasText(B, s.disk[f.package], f.package, f.package !in s.spoiled);
      } else {
        QuietIsReliable(B, s, t);
      }
    }
  }

  lemma MoveIs(m: Move)
    requires m.action.Work?
    ensures m == Move(Work(m.action.t, m.action.o), m.effect)
  {
  }

  lemma NewlySpoiled(B: Setup, s: BuildState, m: Move, p: Package)
    requires CanMove(B, s, m) && p in Moved(B, s, m).spoiled && p !in s.spoiled
    ensures m.action.Work? && s.sched.phases[m.action.t].stack.package == p
    ensures Spoils(B, s, s.sched.phases[m.action.t].stack, m.action.o, m.effect)
  {
    hide Spoils, FilesThen, ExposedAfter, Then, May, DiskMay;
  }

  /** p is, or is above, a package that a failed command of the run harmed. */
  ghost predicate Blamed(B: Setup, order: seq<Package>, disk: Disk, moves: seq<Move>, p: Package) {
    exists i: nat, q ::
      i < |moves| && HarmedAt(B, order, disk, moves, i, q) && (q == p || Reaches(GraphOf(B.T, B.W), p, q))
  }

  lemma BlameStays(B: Setup, order: seq<Package>, disk: Disk, moves: seq<Move>, p: Package)
    requires moves != [] && AfterMoves(B, order, disk, moves).Some? && Blamed(B, order, disk, moves[..|moves| - 1], p)
    ensures Blamed(B, order, disk, moves, p)
  {
    LastMove(B, order, disk, moves);
    hide Reaches, Harms, AfterMoves, Before;
    var last := |moves| - 1;
    var i: nat, q :| i < last && HarmedAt(B, order, disk, moves[..last], i, q)
                     && (q == p || Reaches(GraphOf(B.T, B.W), p, q));
    assert HarmedAt(B, order, disk, moves, i, q);
  }

  lemma BlameGoesUp(B: Setup, order: seq<Package>, disk: Disk, moves: seq<Move>, p: Package, q: Package)
    requires Reaches(GraphOf(B.T, B.W), p, q) && Blamed(B, order, disk, moves, q)
    ensures Blamed(B, order, disk, moves, p)
  {
    hide HarmedAt, Reaches;
    var i: nat, r :| i < |moves| && HarmedAt(B, order, disk, moves, i, r)
                     && (r == q || Reaches(GraphOf(B.T, B.W), q, r));
    if r != q {
      ReachesTransitive(GraphOf(B.T, B.W), p, q, r);
    }
  }

  lemma HarmIsBlamed(B: Setup, order: seq<Package>, disk: Disk, moves: seq<Move>, p: Package)
    requires moves != [] && Before(B, order, disk, moves, |moves| - 1).Some?
    requires Harms(B, Before(B, order, disk, moves, |moves| - 1).value, moves[|moves| - 1], p)
    ensures Blamed(B, order, disk, moves, p)
  {
    hide Harms, Before;
    assert HarmedAt(B, order, disk, moves, |moves| - 1, p);
  }

  /** Without races, only packages at which a command failed over the file it was
      writing, and packages above them, are ever unreliable: no other failure, and
      no partial restore, does harm beyond its own package. */
  lemma {:induction false} SpoiledIsBlamed(B: Setup, order: seq<Package>, disk: Disk, moves: seq<Move>, p: Package)
    requires SetupOk(B) && DiskOk(B, disk) && QuietListings(B) && AfterMoves(B, order, disk, moves).Some?
    requires p in AfterMoves(B, order, disk, moves).value.spoiled
    ensures exists i: nat, q ::
              i < |moves| && HarmedAt(B, order, disk, moves, i, q) && (q == p || Reaches(GraphOf(B.T, B.W), p, q))
  {
    hide SetupOk, DiskOk, WorldOk, CanMove, Moved, Before, Reaches, Spoils, QuietListings;
    hide Harms, HarmedAt, AboveSpoiled;
    if moves == [] {
      assert false;
    } else {
      var last := |moves| - 1;
      LastMove(B, order, disk, moves);
      ResultAlways(B, order, disk, moves[..last]);
      var s := AfterMoves(B, order, disk, moves[..last]).value;
      hide AfterMoves, ResultInv, DependListed, BuildInv;
      if p in s.spoiled {
        SpoiledIsBlamed(B, order, disk, moves[..last], p);
        BlameStays(B, order, disk, moves, p);
      } else {
        ResultHas(B, s);
        NewlySpoiled(B, s, moves[last], p);
        NotListedWhenDescribed(B, s, moves[last]);
        SpoilHasCause(B, s, moves[last]);
        if Harms(B, s, moves[last], p) {
          HarmIsBlamed(B, order, disk, moves, p);
        } else {
          var q := SpoiledBelow(B, s.spoiled, p);
          SpoiledIsBlamed(B, order, disk, moves[..last], q);
          BlameGoesUp(B, order, disk, moves[..last], p, q);
          BlameStays(B, order, disk, moves, p);
        }
      }
    }
  }

  lemma SpoiledBelow(B: Setup, spoiled: set<Package>, p: Package) returns (q: Package)
    requires AboveSpoiled(B, spoiled, p)
    ensures q in spoiled && Reaches(GraphOf(B.T, B.W), p, q)
  {
    q :| q in spoiled && Reaches(GraphOf(B.T, B.W), p, q);
  }

  // ---------------------------------------------------------------------
  // Where exposed packages come from

  /** m leaves something under p's .build.info that it does not speak for: files
      that shouldBuild restored and did not accept, an archive that was packed, an
      .output.info that was emptied, or one of another build when .build.info is
      replaced. */
  ghost predicate Tears(B: Setup, s: BuildState, m: Move, p: Package) {
    && StepsFor(B, s, m, p) && p in s.disk && p in B.W.own && p in Moved(B, s, m).disk
    && var pc, fs, fs' := s.sched.phases[m.action.t].stack.pc, s.disk[p], Moved(B, s, m).disk[p];
       || (pc.Decide? && m.action.o != Goto(Leave(true)) && fs' != fs && fs'.buildInfo.Some?)
       || ((pc.PackStaging? || pc.PackInstall? || pc.Truncate?) && fs' != fs && fs'.buildInfo.Some?)
       || (pc.Record? && m.action.o == Goto(Truncate) && Def(B.T, B.W, p).hashOutput && fs'.outputInfo.Some?)
  }

  /** m leaves p's .build.info with the files it speaks for: a complete restore, or
      the end of updateBuildInfo. */
  ghost predicate Mends(B: Setup, s: BuildState, m: Move, p: Package) {
    && StepsFor(B, s, m, p) && p in B.W.own && p in Moved(B, s, m).disk
    && var pc, fs' := s.sched.phases[m.action.t].stack.pc, Moved(B, s, m).disk[p];
       || (pc.Decide? && m.action.o == Goto(Leave(true)))
       || (pc.Record? && m.action.o == Goto(Truncate) && !(Def(B.T, B.W, p).hashOutput && fs'.outputInfo.Some?))
       || (pc.List? && m.action.o == Goto(Clear))
  }

  ghost predicate TornAt(B: Setup, order: seq<Package>, disk: Disk, moves: seq<Move>, i: nat, p: Package)
    requires i < |moves|
  {
    Before(B, order, disk, moves, i).Some? && Tears(B, Before(B, order, disk, moves, i).value, moves[i], p)
  }

  ghost predicate MendedAt(B: Setup, order: seq<Package>, disk: Disk, moves: seq<Move>, i: nat, p: Package)
    requires i < |moves|
  {
    Before(B, order, disk, moves, i).Some? && Mends(B, Before(B, order, disk, moves, i).value, moves[i], p)
  }

  ghost predicate TornSince(B: Setup, order: seq<Package>, disk: Disk, moves: seq<Move>, i: nat, p: Package)
    requires i < |moves|
  {
    TornAt(B, order, disk, moves, i, p)
    && forall j: nat :: i < j < |moves| ==> !MendedAt(B, order, disk, moves, j, p)
  }

  /** One move's part in it. */
  lemma ExposureMoves(B: Setup, s: BuildState, m: Move, p: Package)
    requires CanMove(B, s, m)
    ensures p in Moved(B, s, m).exposed <==> Tears(B, s, m, p) || (p in s.exposed && !Mends(B, s, m, p))
  {
    hide May, Then, DiskMay, FilesThen, Spoils;
  }

  /** What a run without its last move says of the moves it has. */
  lemma SameMarks(B: Setup, order: seq<Package>, disk: Disk, moves: seq<Move>, j: nat, p: Package)
    requires AfterMoves(B, order, disk, moves).Some? && j < |moves| - 1
    ensures MendedAt(B, order, disk, moves, j, p) == MendedAt(B, order, disk, moves[..|moves| - 1], j, p)
    ensures TornAt(B, order, disk, moves, j, p) == TornAt(B, order, disk, moves[..|moves| - 1], j, p)
  {
    LastMove(B, order, disk, moves);
    hide AfterMoves, Tears, Mends, Before;
  }

  lemma TornBefore(B: Setup, order: seq<Package>, disk: Disk, moves: seq<Move>, i: nat, p: Package)
    requires AfterMoves(B, order, disk, moves).Some? && i < |moves| - 1
    ensures TornSince(B, order, disk, moves, i, p) <==>
              TornSince(B, order, disk, moves[..|moves| - 1], i, p)
              && !MendedAt(B, order, disk, moves, |moves| - 1, p)
  {
    hide AfterMoves, TornAt, MendedAt;
    var last := |moves| - 1;
    SameMarks(B, order, disk, moves, i, p);
    forall j: nat | j < last
      ensures MendedAt(B, order, disk, moves, j, p) == MendedAt(B, order, disk, moves[..last], j, p)
    {
      SameMarks(B, order, disk, moves, j, p);
    }
  }

  lemma TornLast(B: Setup, order: seq<Package>, disk: Disk, moves: seq<Move>, p: Package)
    requires moves != []
    ensures TornSince(B, order, disk, moves, |moves| - 1, p) <==> TornAt(B, order, disk, moves, |moves| - 1, p)
  {
    hide TornAt, MendedAt;
  }

  ghost predicate LeftTorn(B: Setup, order: seq<Package>, disk: Disk, moves: seq<Move>, p: Package) {
    exists i: nat :: i < |moves| && TornSince(B, order, disk, moves, i, p)
  }

  lemma LeftTornMoves(B: Setup, order: seq<Package>, disk: Disk, moves: seq<Move>, p: Package)
    requires moves != [] && AfterMoves(B, order, disk, moves).Some?
    ensures var last := |moves| - 1;
            LeftTorn(B, order, disk, moves, p) <==>
              || TornAt(B, order, disk, moves, last, p)
              || (LeftTorn(B, order, disk, moves[..last], p) && !MendedAt(B, order, disk, moves, last, p))
  {
    hide AfterMoves, TornAt, MendedAt, TornSince;
    var last := |moves| - 1;
    TornLast(B, order, disk, moves, p);
    if LeftTorn(B, order, disk, moves, p) {
      var i: nat :| i < |moves| && TornSince(B, order, disk, moves, i, p);
      if i < last {
        TornBefore(B, order, disk, moves, i, p);
      }
    }
    if LeftTorn(B, order, disk, moves[..last], p) && !MendedAt(B, order, disk, moves, last, p) {
      var i: nat :| i < last && TornSince(B, order, disk, moves[..last], i, p);
      TornBefore(B, order, disk, moves, i, p);
    }
  }

  lemma {:induction false} ExposedSince(B: Setup, order: seq<Package>, disk: Disk, moves: seq<Move>, p: Package)
    requires AfterMoves(B, order, disk, moves).Some?
    ensures p in AfterMoves(B, order, disk, moves).value.exposed <==> LeftTorn(B, order, disk, moves, p)
  {
    if moves != [] {
      var last := |moves| - 1;
      LastMove(B, order, disk, moves);
      hide *;
      ExposedSince(B, order, disk, moves[..last], p);
      LastMarks(B, order, disk, moves, p);
      ExposureMoves(B, Before(B, order, disk, moves, last).value, moves[last], p);
      LeftTornMoves(B, order, disk, moves, p);
    }
  }

  lemma LastMarks(B: Setup, order: seq<Package>, disk: Disk, moves: seq<Move>, p: Package)
    requires moves != [] && Before(B, order, disk, moves, |moves| - 1).Some?
    ensures var s, m := Before(B, order, disk, moves, |moves| - 1).value, moves[|moves| - 1];
            && (TornAt(B, order, disk, moves, |moves| - 1, p) <==> Tears(B, s, m, p))
            && (MendedAt(B, order, disk, moves, |moves| - 1, p) <==> Mends(B, s, m, p))
  {
    hide Before, Tears, Mends;
  }

  /** A package is exposed exactly if some move left files under its .build.info
      that this does not speak for, and no move since has set that right. */
  lemma ExposedIsTorn(B: Setup, order: seq<Package>, disk: Disk, moves: seq<Move>, p: Package)
    requires AfterMoves(B, order, disk, moves).Some?
    ensures p in AfterMoves(B, order, disk, moves).value.exposed <==>
              exists i: nat :: i < |moves| && TornAt(B, order, disk, moves, i, p)
                && forall j: nat :: i < j < |moves| ==> !MendedAt(B, order, disk, moves, j, p)
  {
    ExposedSince(B, order, disk, moves, p);
    hide AfterMoves, TornAt, MendedAt;
    if LeftTorn(B, order, disk, moves, p) {
      var i: nat :| i < |moves| && TornSince(B, order, disk, moves, i, p);
      assert TornAt(B, order, disk, moves, i, p);
    }
    if i: nat :| i < |moves| && TornAt(B, order, disk, moves, i, p)
                 && forall j: nat :: i < j < |moves| ==> !MendedAt(B, order, disk, moves, j, p) {
      assert TornSince(B, order, disk, moves, i, p);
    }
  }

  // ---------------------------------------------------------------------
  // Exposure without failures

  /** After shouldBuild said yes and before the end of updateBuildInfo. */
  predicate Open(pc: Pc) {
    pc.LocalDeps? || pc.Fetch? || pc.Stage? || pc.Commands? || Packing(pc)
  }

  /** f is a call for p in that part of build. */
  predicate OpenCall(stack: Stack, f: Stack, p: Package) {
    OnStack(stack, f) && f.Frame? && f.package == p && Open(f.pc)
  }

  ghost predicate UnderWay(s: State, p: Package) {
    exists t, f :: 0 <= t < |s.phases| && s.phases[t].Building? && OpenCall(s.phases[t].stack, f, p)
  }

  /** A call stays on the stack, or becomes the top and goes on. */
  lemma OpenCallStays(cfg: Config, sh: Shared, f: Stack, o: Outcome, g: Stack, p: Package) returns (g': Stack)
    requires f.Frame? && FrameMay(cfg, sh, f, o) && OpenCall(f, g, p) && !GivenUp(PhaseThen(f, o))
    requires g == f ==> o.Call? || (o.Goto? && Open(o.pc))
    ensures PhaseThen(f, o).Building? && OpenCall(PhaseThen(f, o).stack, g', p)
  {
    if g != f {
      assert OnStack(f.caller, g);
    }
    match o
    case Goto(pc) => g' := if g == f then f.(pc := pc) else g;
    case Call(q, locally) =>
      g' := g;
      assert OnStack(Frame(q, locally, Lock, f), g);
    case Return(ok) =>
      var c := f.caller.(pc := Resume(f.caller.pc, ok));
      g' := if g == f.caller then c else g;
      if g != f.caller {
        assert OnStack(f.caller.caller, g);
      }
    case Throw => g' := g;
  }

  /** The step that ends a call's part in it leaves its package unexposed. */
  lemma OpenEnds(B: Setup, s: BuildState, m: Move, p: Package)
    requires CanMove(B, s, m) && m.action.Work? && !B.cfg.fetchOnly
    requires var f := s.sched.phases[m.action.t].stack;
             && p == f.package && !GivenUp(PhaseThen(f, m.action.o)) && p in Moved(B, s, m).exposed
    ensures var f, o := s.sched.phases[m.action.t].stack, m.action.o;
            (o.Goto? && Open(o.pc)) || (p in s.exposed && (Open(f.pc) ==> o.Call?))
  {
    hide Then, DiskMay, FilesThen, Spoils;
  }

  lemma MovedPhases(B: Setup, s: BuildState, m: Move)
    requires CanMove(B, s, m) && m.action.Work?
    ensures var t, o := m.action.t, m.action.o;
            && t < |s.sched.phases| && s.sched.phases[t].Building? && s.sched.phases[t].stack.Frame?
            && FrameMay(B.cfg, s.sched.shared, s.sched.phases[t].stack, o)
            && Moved(B, s, m).sched.phases == s.sched.phases[t := PhaseThen(s.sched.phases[t].stack, o)]
    ensures forall p :: p in Moved(B, s, m).exposed && p != s.sched.phases[m.action.t].stack.package ==> p in s.exposed
  {
    hide FrameMay, DiskMay, FilesThen, Spoils, ExposedAfter, OnDisk;
  }

  lemma OpenCallOf(s: State, p: Package) returns (t: nat, f: Stack)
    requires UnderWay(s, p)
    ensures t < |s.phases| && s.phases[t].Building? && OpenCall(s.phases[t].stack, f, p)
    ensures f == s.phases[t].stack ==> f.Frame? && f.package == p && Open(f.pc)
  {
    t, f :| 0 <= t < |s.phases| && s.phases[t].Building? && OpenCall(s.phases[t].stack, f, p);
  }

  lemma StillUnderWay(s: State, t: nat, f: Stack, p: Package)
    requires t < |s.phases| && s.phases[t].Building? && OpenCall(s.phases[t].stack, f, p)
    ensures UnderWay(s, p)
  {
  }

  lemma TopIsOpen(f: Stack, pc: Pc)
    requires f.Frame? && Open(pc)
    ensures PhaseThen(f, Goto(pc)) == Building(f.(pc := pc)) && OpenCall(f.(pc := pc), f.(pc := pc), f.package)
  {
  }

  lemma MustGoOn(s: State, t: nat)
    requires NothingFailed(s) && t < |s.phases|
    ensures !GivenUp(s.phases[t])
  {
  }

  lemma WorkKeepsUnderWay(B: Setup, s: BuildState, m: Move, p: Package)
    requires CanMove(B, s, m) && m.action.Work? && !B.cfg.fetchOnly && NothingFailed(Moved(B, s, m).sched)
    requires p in s.exposed ==> UnderWay(s.sched, p)
    requires p in Moved(B, s, m).exposed
    ensures UnderWay(Moved(B, s, m).sched, p)
  {
    hide *;
    MovedPhases(B, s, m);
    var t, o := m.action.t, m.action.o;
    var f, s' := s.sched.phases[t].stack, Moved(B, s, m);
    MustGoOn(s'.sched, t);
    if p == f.package {
      OpenEnds(B, s, m, p);
    }
    if p == f.package && o.Goto? && Open(o.pc) {
      TopIsOpen(f, o.pc);
      StillUnderWay(s'.sched, t, f.(pc := o.pc), p);
    } else {
      var u, g := OpenCallOf(s.sched, p);
      if u == t {
        var g' := OpenCallStays(B.cfg, s.sched.shared, f, o, g, p);
        StillUnderWay(s'.sched, t, g', p);
      } else {
        StillUnderWay(s'.sched, u, g, p);
      }
    }
  }

  lemma OtherKeepsUnderWay(B: Setup, s: BuildState, m: Move, p: Package)
    requires CanMove(B, s, m) && !m.action.Work? && UnderWay(s.sched, p)
    ensures UnderWay(Moved(B, s, m).sched, p)
  {
    MovedSched(B, s, m);
    hide *;
    var t, f := OpenCallOf(s.sched, p);
    OthersLeaveBuilding(B.cfg, s.sched, m.action, t);
    StillUnderWay(Moved(B, s, m).sched, t, f, p);
  }

  lemma ExposedStays(B: Setup, s: BuildState, m: Move)
    requires CanMove(B, s, m) && !m.action.Work?
    ensures Moved(B, s, m).exposed == s.exposed
  {
    hide May, Then;
  }

  /** As long as nothing has failed, a package is exposed only while a call of
      build for it is past shouldBuild and has not finished updateBuildInfo. */
  lemma ExposedIsUnderWay(B: Setup, order: seq<Package>, disk: Disk, moves: seq<Move>, p: Package)
    requires !B.cfg.fetchOnly && AfterMoves(B, order, disk, moves).Some?
    requires var s := AfterMoves(B, order, disk, moves).value; NothingFailed(s.sched) && p in s.exposed
    ensures var s := AfterMoves(B, order, disk, moves).value.sched;
            exists t, f :: 0 <= t < |s.phases| && s.phases[t].Building? && OnStack(s.phases[t].stack, f)
              && f.Frame? && f.package == p
              && (f.pc.LocalDeps? || f.pc.Fetch? || f.pc.Stage? || f.pc.Commands? || f.pc.PackStaging?
                  || f.pc.PackInstall? || f.pc.Record? || f.pc.Truncate? || f.pc.List?)
  {
    UnderWayAlways(B, order, disk, moves, p);
    hide AfterMoves, NothingFailed, OnStack;
    var s := AfterMoves(B, order, disk, moves).value.sched;
    var t, f :| 0 <= t < |s.phases| && s.phases[t].Building? && OpenCall(s.phases[t].stack, f, p);
    assert OnStack(s.phases[t].stack, f);
  }

  lemma {:induction false} UnderWayAlways(B: Setup, order: seq<Package>, disk: Disk, moves: seq<Move>, p: Package)
    requires !B.cfg.fetchOnly && AfterMoves(B, order, disk, moves).Some?
    requires var s := AfterMoves(B, order, disk, moves).value; NothingFailed(s.sched) && p in s.exposed
    ensures UnderWay(AfterMoves(B, order, disk, moves).value.sched, p)
  {
    hide NothingFailed, CanMove, Moved, UnderWay;
    if moves == [] {
      assert false;
    } else {
      var last := |moves| - 1;
      LastMove(B, order, disk, moves);
      var s, m := AfterMoves(B, order, disk, moves[..last]).value, moves[last];
      MovedSched(B, s, m);
      FailureStays(B.cfg, s.sched, m.action);
      if p in s.exposed {
        UnderWayAlways(B, order, disk, moves[..last], p);
      }
      hide *;
      if m.action.Work? {
        WorkKeepsUnderWay(B, s, m, p);
      } else {
        ExposedStays(B, s, m);
        OtherKeepsUnderWay(B, s, m, p);
      }
    }
  }
}
