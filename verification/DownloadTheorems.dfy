/** What the download guard promises, and exactly when. */
module DownloadTheorems {
  import opened Packages
  import opened Downloads

  lemma {:induction false} AfterConcat(cfg: Config, fetches: seq<Fetch>, s: State, a: seq<Action>, b: seq<Action>)
    requires After(cfg, fetches, s, a).Some?
    ensures After(cfg, fetches, s, a + b) == After(cfg, fetches, After(cfg, fetches, s, a).value, b)
    decreases |a|
  {
    hide May, Then;
    if a == [] {
      assert a + b == b;
    } else {
      assert (a + b)[1..] == a[1..] + b;
      AfterConcat(cfg, fetches, Then(cfg, fetches, s, a[0]), a[1..], b);
    }
  }

  // ---------------------------------------------------------------------
  // The recorded hash

  /** Along any run a recorded hash is never replaced. */
  lemma {:induction false} RecordedOnce(cfg: Config, fetches: seq<Fetch>, s: State, actions: seq<Action>, name: string)
    requires After(cfg, fetches, s, actions).Some? && Recorded(s, name) != ""
    ensures Recorded(After(cfg, fetches, s, actions).value, name) == Recorded(s, name)
    decreases |actions|
  {
    hide Then, May, Recorded;
    if actions != [] {
      RecordedStays(cfg, fetches, s, actions[0], name);
      RecordedOnce(cfg, fetches, Then(cfg, fetches, s, actions[0]), actions[1..], name);
    }
  }

  lemma {:induction false} SuccessLasts(cfg: Config, fetches: seq<Fetch>, s: State, actions: seq<Action>, t: nat)
    requires After(cfg, fetches, s, actions).Some? && t < |s.pcs| && Succeeded(s.pcs[t])
    ensures var s' := After(cfg, fetches, s, actions).value; t < |s'.pcs| && Succeeded(s'.pcs[t])
    decreases |actions|
  {
    if actions != [] {
      SucceededStays(cfg, fetches, s, actions[0], t);
      SuccessLasts(cfg, fetches, Then(cfg, fetches, s, actions[0]), actions[1..], t);
    }
  }

  /** A fetch that wants another hash than the one on record never gets past the
      check, where it has not touched any file; it can only be refused. */
  lemma OtherHashesAreRefused(cfg: Config, fetches: seq<Fetch>, files: map<string, string>, actions: seq<Action>,
                              t: nat)
    requires After(cfg, fetches, Init(fetches, files), actions).Some? && t < |fetches|
    requires var s := After(cfg, fetches, Init(fetches, files), actions).value;
             !Agrees(Recorded(s, fetches[t].name), fetches[t].hash)
    ensures var s := After(cfg, fetches, Init(fetches, files), actions).value;
            && t < |s.pcs| && !Accepted(s.pcs[t])
            && forall a: Action :: a.t == t && May(cfg, fetches, s, a) && !s.pcs[t].Leaving? ==>
                 && Then(cfg, fetches, s, a).files == s.files
                 && (s.pcs[t].Claiming? ==> NextPc(cfg, fetches, s, a) == Leaving(false))
  {
    InvAlways(cfg, fetches, files, actions);
    var s := After(cfg, fetches, Init(fetches, files), actions).value;
    assert ThreadOk(cfg, fetches, s, t);
    hide After, Init, Inv, Intact, Apart, Temp;
  }

  // ---------------------------------------------------------------------
  // The file

  /** Once a fetch that expects a hash has succeeded, its file keeps that hash for
      the rest of the run, whatever other fetches do, as long as none of them has
      that file, or has its temporary file there, under another name. */
  lemma DownloadsStayIntact(cfg: Config, fetches: seq<Fetch>, files: map<string, string>, before: seq<Action>,
                            after: seq<Action>, t: nat)
    requires After(cfg, fetches, Init(fetches, files), before + after).Some?
    requires After(cfg, fetches, Init(fetches, files), before).Some?
    requires t < |fetches| && fetches[t].hash != "" && Apart(cfg, fetches, fetches[t])
    requires var s := After(cfg, fetches, Init(fetches, files), before).value; t < |s.pcs| && Succeeded(s.pcs[t])
    ensures Intact(cfg, After(cfg, fetches, Init(fetches, files), before + after).value, fetches[t])
  {
    var s := After(cfg, fetches, Init(fetches, files), before).value;
    AfterConcat(cfg, fetches, Init(fetches, files), before, after);
    SuccessLasts(cfg, fetches, s, after, t);
    InvAlways(cfg, fetches, files, before + after);
    assert ThreadOk(cfg, fetches, After(cfg, fetches, Init(fetches, files), before + after).value, t);
    hide After, Init, Inv, Intact, Apart;
  }

  // ---------------------------------------------------------------------
  // One fetch by itself

  /** s' comes after s in some run. */
  ghost predicate Leads(cfg: Config, fetches: seq<Fetch>, s: State, s': State) {
    exists actions :: After(cfg, fetches, s, actions) == Some(s')
  }

  lemma LeadsNext(cfg: Config, fetches: seq<Fetch>, s: State, s': State, a: Action)
    requires Leads(cfg, fetches, s, s') && May(cfg, fetches, s', a)
    ensures Leads(cfg, fetches, s, Then(cfg, fetches, s', a))
  {
    hide May, Then;
    var actions :| After(cfg, fetches, s, actions) == Some(s');
    AfterConcat(cfg, fetches, s, actions, [a]);
    assert [a][1..] == [];
    assert After(cfg, fetches, s, actions + [a]) == Some(Then(cfg, fetches, s', a));
  }

  /** s with thread t somewhere else, and its name recorded and locked or not. */
  function At(s: State, t: nat, pc: Pc, recorded: map<string, string>, locks: map<string, nat>,
              files: map<string, string>): State
    requires t < |s.pcs|
  {
    State(s.pcs[t := pc], recorded, locks, files)
  }

  /** The contents that t's fetch is left with: those of the file if it is there,
      else the cache's, if one is configured and has them, else upstream's. */
  function Obtained(cfg: Config, f: Fetch, files: map<string, string>, cache: Option<string>,
                    upstream: Option<string>): Option<string> {
    if FileOf(cfg, f) in files then Some(files[FileOf(cfg, f)])
    else if cfg.tarballCache && cache.Some? then cache
    else upstream
  }

  lemma ToLooking(cfg: Config, fetches: seq<Fetch>, s: State, t: nat) returns (recorded: map<string, string>)
    requires |s.pcs| == |fetches| && t < |fetches| && s.pcs[t] == Finding && fetches[t].name !in s.locks
    ensures Leads(cfg, fetches, s,
              At(s, t, if Agrees(Recorded(s, fetches[t].name), fetches[t].hash) then Looking else Leaving(false),
                 recorded, s.locks[fetches[t].name := t], s.files))
  {
    assert After(cfg, fetches, s, []) == Some(s);
    hide Leads, After;
    var a := Action(t, true, None);
    LeadsNext(cfg, fetches, s, s, a);
    var s1 := Then(cfg, fetches, s, a);
    LeadsNext(cfg, fetches, s, s1, a);
    var s2 := Then(cfg, fetches, s1, a);
    var locks := s.locks[fetches[t].name := t];
    assert s2 == At(s, t, Claiming, s1.recorded, locks, s.files);
    LeadsNext(cfg, fetches, s, s2, a);
    var s3 := Then(cfg, fetches, s2, a);
    recorded := s3.recorded;
    assert s3 == At(s, t, s3.pcs[t], recorded, locks, s.files);
  }

  /** A download from the cache or upstream, which a wget with contents completes
      and one without, whatever it leaves, does not. */
  lemma Downloading(cfg: Config, fetches: seq<Fetch>, s: State, t: nat, recorded: map<string, string>,
                    locks: map<string, nat>, files: map<string, string>, cache: bool, got: Option<string>,
                    left: Option<string>) returns (files': map<string, string>)
    requires |s.pcs| == |fetches| && t < |fetches| && TempOf(cfg, fetches[t]) != FileOf(cfg, fetches[t])
    requires Leads(cfg, fetches, s, At(s, t, Clearing(cache), recorded, locks, files))
    requires FileOf(cfg, fetches[t]) !in files
    ensures var file := FileOf(cfg, fetches[t]);
            if got.Some? then
              && Leads(cfg, fetches, s, At(s, t, Checking, recorded, locks, files'))
              && file in files' && files'[file] == got.value
            else
              && Leads(cfg, fetches, s,
                   if cache then At(s, t, Clearing(false), recorded, locks, files')
                   else At(s, t, Thrown, recorded, locks - {fetches[t].name}, files'))
              && file !in files'
  {
    hide Leads, After;
    var s0 := At(s, t, Clearing(cache), recorded, locks, files);
    var a := Action(t, got.Some?, if got.Some? then got else left);
    LeadsNext(cfg, fetches, s, s0, a);
    var s1 := Then(cfg, fetches, s0, a);
    assert s1 == At(s, t, Getting(cache), recorded, locks, files - {TempOf(cfg, fetches[t])});
    LeadsNext(cfg, fetches, s, s1, a);
    var s2 := Then(cfg, fetches, s1, a);
    files' := s2.files;
    if got.Some? {
      assert s2 == At(s, t, Storing, recorded, locks, files');
      LeadsNext(cfg, fetches, s, s2, a);
      files' := Then(cfg, fetches, s2, a).files;
      assert Then(cfg, fetches, s2, a) == At(s, t, Checking, recorded, locks, files');
    } else {
      assert s2 == if cache then At(s, t, Clearing(false), recorded, locks, files')
                   else At(s, t, Thrown, recorded, locks - {fetches[t].name}, files');
    }
  }

  /** From the check of the hash to the end. */
  lemma ChecksAndLeaves(cfg: Config, fetches: seq<Fetch>, s: State, t: nat, recorded: map<string, string>,
                        locks: map<string, nat>, files: map<string, string>) returns (s': State)
    requires |s.pcs| == |fetches| && t < |fetches|
    requires Leads(cfg, fetches, s, At(s, t, Checking, recorded, locks, files))
    requires FileOf(cfg, fetches[t]) in files
    ensures var f, file := fetches[t], FileOf(cfg, fetches[t]);
            var ok := f.hash == "" || cfg.digest(files[file]) == f.hash;
            && Leads(cfg, fetches, s, s')
            && s' == At(s, t, Done(ok), recorded, locks - {f.name}, if ok then files else files - {file})
  {
    hide Leads, After;
    var s0 := At(s, t, Checking, recorded, locks, files);
    var a := Action(t, true, None);
    LeadsNext(cfg, fetches, s, s0, a);
    var s1 := Then(cfg, fetches, s0, a);
    LeadsNext(cfg, fetches, s, s1, a);
    s' := Then(cfg, fetches, s1, a);
  }

  /** What a fetch comes to while no other one moves: it is refused if another hash
      is on record; it throws if neither the cache nor upstream has the file; and
      otherwise it succeeds, and keeps the file, if the contents have the hash.
      A cache that misses only means that upstream is asked. */
  lemma FetchByItself(cfg: Config, fetches: seq<Fetch>, s: State, t: nat, cache: Option<string>,
                      upstream: Option<string>, left: Option<string>) returns (s': State)
    requires |s.pcs| == |fetches| && t < |fetches| && s.pcs[t] == Finding && fetches[t].name !in s.locks
    requires TempOf(cfg, fetches[t]) != FileOf(cfg, fetches[t])
    ensures Leads(cfg, fetches, s, s') && |s'.pcs| == |s.pcs|
    ensures s'.locks == s.locks && forall u :: 0 <= u < |s.pcs| && u != t ==> s'.pcs[u] == s.pcs[u]
    ensures var f, file := fetches[t], FileOf(cfg, fetches[t]);
            var got := Obtained(cfg, f, s.files, cache, upstream);
            if !Agrees(Recorded(s, f.name), f.hash) then
              s'.pcs[t] == Done(false) && s'.files == s.files
            else if got.None? then
              s'.pcs[t] == Thrown && file !in s'.files
            else if f.hash == "" || cfg.digest(got.value) == f.hash then
              s'.pcs[t] == Done(true) && file in s'.files && s'.files[file] == got.value
            else
              s'.pcs[t] == Done(false) && file !in s'.files
  {
    var recorded := ToLooking(cfg, fetches, s, t);
    hide Leads, After;
    var f, a := fetches[t], Action(t, true, None);
    var locks, files := s.locks[f.name := t], s.files;
    assert locks - {f.name} == s.locks;
    if !Agrees(Recorded(s, f.name), f.hash) {
      LeadsNext(cfg, fetches, s, At(s, t, Leaving(false), recorded, locks, files), a);
      s' := Then(cfg, fetches, At(s, t, Leaving(false), recorded, locks, files), a);
    } else {
      var s1 := At(s, t, Looking, recorded, locks, files);
      LeadsNext(cfg, fetches, s, s1, a);
      assert Then(cfg, fetches, s1, a)
          == At(s, t, if FileOf(cfg, f) in files then Checking else Clearing(cfg.tarballCache), recorded, locks, files);
      hide Then, May;
      if FileOf(cfg, f) !in files {
        if cfg.tarballCache {
          files := Downloading(cfg, fetches, s, t, recorded, locks, files, true, cache, left);
        }
        if !cfg.tarballCache || cache.None? {
          files := Downloading(cfg, fetches, s, t, recorded, locks, files, false, upstream, left);
        }
      }
      if Obtained(cfg, f, s.files, cache, upstream).None? {
        s' := At(s, t, Thrown, recorded, s.locks, files);
      } else {
        s' := ChecksAndLeaves(cfg, fetches, s, t, recorded, locks, files);
      }
    }
  }

  // ---------------------------------------------------------------------
  // When the guard holds

  lemma First(cfg: Config, fetches: seq<Fetch>, s: State, a: Action, rest: seq<Action>)
    requires May(cfg, fetches, s, a)
    ensures After(cfg, fetches, s, [a] + rest) == After(cfg, fetches, Then(cfg, fetches, s, a), rest)
  {
    assert ([a] + rest)[1..] == rest;
  }

  /** Thread t up to its download, when its file is missing. */
  lemma RunToClear(cfg: Config, fetches: seq<Fetch>, s: State, t: nat) returns (actions: seq<Action>)
    requires |s.pcs| == |fetches| && t < |fetches| && s.pcs[t] == Finding
    requires var n := fetches[t].name; n !in s.locks && Recorded(s, n) == ""
    requires FileOf(cfg, fetches[t]) !in s.files
    ensures var s' := After(cfg, fetches, s, actions);
            && s'.Some? && s'.value.files == s.files
            && s'.value.pcs == s.pcs[t := Clearing(cfg.tarballCache)]
            && s'.value.locks.Keys == s.locks.Keys + {fetches[t].name}
            && forall m :: m != fetches[t].name ==> Recorded(s'.value, m) == Recorded(s, m)
  {
    var a := Action(t, true, None);
    var s1 := Then(cfg, fetches, s, a);
    var s2 := Then(cfg, fetches, s1, a);
    var s3 := Then(cfg, fetches, s2, a);
    assert s3.pcs[t] == Looking && s3.files == s.files;
    var s4 := Then(cfg, fetches, s3, a);
    hide Then;
    First(cfg, fetches, s3, a, []);
    First(cfg, fetches, s2, a, [a]);
    First(cfg, fetches, s1, a, [a] + [a]);
    First(cfg, fetches, s, a, [a] + ([a] + [a]));
    actions := [a] + ([a] + ([a] + [a]));
    assert [a] + [] == [a];
  }

  /** Thread t downloads contents: its file has them, and its temporary file is
      gone unless that is the same file. */
  lemma RunToStore(cfg: Config, fetches: seq<Fetch>, s: State, t: nat, contents: string) returns (actions: seq<Action>)
    requires |s.pcs| == |fetches| && t < |fetches| && s.pcs[t] == Clearing(cfg.tarballCache)
    ensures var s' := After(cfg, fetches, s, actions);
            var file, temp := FileOf(cfg, fetches[t]), TempOf(cfg, fetches[t]);
            && s'.Some? && s'.value.pcs == s.pcs[t := Checking]
            && file in s'.value.files && s'.value.files[file] == contents
            && (temp != file ==> temp !in s'.value.files)
  {
    var a := Action(t, true, Some(contents));
    var s1 := Then(cfg, fetches, s, a);
    var s2 := Then(cfg, fetches, s1, a);
    assert s2.pcs[t] == Storing && s2.files == s1.files[TempOf(cfg, fetches[t]) := contents];
    var s3 := Then(cfg, fetches, s2, a);
    hide Then;
    First(cfg, fetches, s2, a, []);
    First(cfg, fetches, s1, a, [a]);
    First(cfg, fetches, s, a, [a] + [a]);
    actions := [a] + ([a] + [a]);
    assert [a] + [] == [a];
  }

  /** Two threads find their file missing under two names; the second one has
      succeeded when the first one downloads something else. */
  lemma ThreatsClash(cfg: Config, fetches: seq<Fetch>, t: nat, i: nat, contents: string, other: string)
      returns (actions: seq<Action>)
    requires t < |fetches| && i < |fetches| && Threat(cfg, fetches[i], fetches[t])
    requires cfg.digest(contents) == fetches[t].hash != cfg.digest(other)
    ensures !Vouched(cfg, fetches, t, map[], actions)
  {
    hide After;
    var s0 := Init(fetches, map[]);
    var a1 := RunToClear(cfg, fetches, s0, i);
    var s1 := After(cfg, fetches, s0, a1).value;
    assert Recorded(s1, fetches[t].name) == Recorded(s0, fetches[t].name) == "";
    var a2 := RunToClear(cfg, fetches, s1, t);
    var s2 := After(cfg, fetches, s1, a2).value;
    var a3 := RunToStore(cfg, fetches, s2, t, contents);
    var s3 := After(cfg, fetches, s2, a3).value;
    var a4 := CheckPasses(cfg, fetches, s3, t);
    var s4 := After(cfg, fetches, s3, a4).value;
    assert s4.pcs[i] == Clearing(cfg.tarballCache) && Succeeded(s4.pcs[t]);
    var a5 := RunToStore(cfg, fetches, s4, i, other);
    AfterConcat(cfg, fetches, s0, a1, a2);
    AfterConcat(cfg, fetches, s0, a1 + a2, a3);
    AfterConcat(cfg, fetches, s0, a1 + a2 + a3, a4);
    AfterConcat(cfg, fetches, s0, a1 + a2 + a3 + a4, a5);
    actions := a1 + a2 + a3 + a4 + a5;
  }

  lemma CheckPasses(cfg: Config, fetches: seq<Fetch>, s: State, t: nat) returns (actions: seq<Action>)
    requires |s.pcs| == |fetches| && t < |fetches| && s.pcs[t] == Checking && Intact(cfg, s, fetches[t])
    ensures var s' := After(cfg, fetches, s, actions); s'.Some? && s'.value.pcs == s.pcs[t := Leaving(true)]
  {
    var a := Action(t, true, None);
    First(cfg, fetches, s, a, []);
    actions := [a];
    assert [a] + [] == [a];
  }

  ghost predicate Guarded(cfg: Config, fetches: seq<Fetch>, t: nat)
    requires t < |fetches|
  {
    forall files, actions :: Vouched(cfg, fetches, t, files, actions)
  }

  /** If t has succeeded after the actions, its file is there with its hash. */
  predicate Vouched(cfg: Config, fetches: seq<Fetch>, t: nat, files: map<string, string>, actions: seq<Action>)
    requires t < |fetches|
  {
    var s := After(cfg, fetches, Init(fetches, files), actions);
    s.Some? && t < |s.value.pcs| && Succeeded(s.value.pcs[t]) ==> Intact(cfg, s.value, fetches[t])
  }

  /** The guard protects a fetch's file, in all runs, exactly when no fetch with
      another name has that file, or has its temporary file there. */
  lemma GuardIsExact(cfg: Config, fetches: seq<Fetch>, t: nat, contents: string, other: string)
    requires t < |fetches| && fetches[t].hash != "" && cfg.digest(contents) == fetches[t].hash != cfg.digest(other)
    ensures Guarded(cfg, fetches, t) <==> Apart(cfg, fetches, fetches[t])
  {
    if Apart(cfg, fetches, fetches[t]) {
      forall files, actions
        ensures Vouched(cfg, fetches, t, files, actions)
      {
        InvAlways(cfg, fetches, files, actions);
        var s := After(cfg, fetches, Init(fetches, files), actions);
        if s.Some? && t < |s.value.pcs| {
          assert ThreadOk(cfg, fetches, s.value, t);
        }
      }
    } else {
      var i :| 0 <= i < |fetches| && Threat(cfg, fetches[i], fetches[t]);
      var actions := ThreatsClash(cfg, fetches, t, i, contents, other);
      assert !Vouched(cfg, fetches, t, map[], actions);
    }
    hide After, Init, Temp, Vouched;
  }
}
