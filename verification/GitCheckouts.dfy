/** GitExtractionUnit::fetch: concurrent checkouts into shared source directories,
    guarded by a mutex and a set-once refspec per path. */
module GitCheckouts {
  import opened Packages

  /** One GitExtractionUnit: the path of its source directory as findGDObject
      compares it, the directory that this path leads to, and the refspec it
      wants, which is never empty: without a branch it is origin/master. */
  datatype Unit = Unit(path: string, dir: string, refspec: string)

  /** A path leads to one directory; a directory may have several paths. */
  predicate UnitsOk(units: seq<Unit>) {
    && (forall t :: 0 <= t < |units| ==> units[t].refspec != "")
    && forall t, u :: 0 <= t < |units| && 0 <= u < |units| && units[t].path == units[u].path ==>
         units[t].dir == units[u].dir
  }

  datatype Pc =
    | Finding
    | Locking
    | Claiming       // the check of the recorded refspec
    | Opening        // clone, or update an existing clone
    | Switching      // checkout, unless HEAD is wanted
    | Hashing        // comparing git_hash with the committed hash
    | Leaving(ok: bool)
    | Done(ok: bool)
    | Thrown

  /** recorded and locks belong to paths. trees belongs to directories: the
      refspec that each existing one is at, "" for a clone in which nothing has
      been checked out yet. */
  datatype State = State(
    pcs: seq<Pc>,
    recorded: map<string, string>,
    locks: map<string, nat>,
    trees: map<string, string>)

  /** ok is how the step's commands end. */
  datatype Action = Action(t: nat, ok: bool)

  function RefSpec(s: State, path: string): string {
    if path in s.recorded then s.recorded[path] else ""
  }

  predicate May(units: seq<Unit>, s: State, a: Action) {
    && |s.pcs| == |units| && a.t < |s.pcs|
    && !s.pcs[a.t].Done? && !s.pcs[a.t].Thrown?
    && (s.pcs[a.t].Locking? ==> units[a.t].path !in s.locks)
  }

  /** Nothing is on record yet, or what is wanted. */
  predicate Agrees(recorded: string, wanted: string) {
    recorded == "" || recorded == wanted
  }

  function NextPc(units: seq<Unit>, s: State, a: Action): Pc
    requires May(units, s, a)
  {
    var u := units[a.t];
    match s.pcs[a.t]
    case Finding => Locking
    case Locking => Claiming
    case Claiming => if Agrees(RefSpec(s, u.path), u.refspec) then Opening else Leaving(false)
    case Opening => if a.ok then Switching else Thrown
    case Switching => if a.ok || u.refspec == "HEAD" then Hashing else Thrown
    case Hashing => Leaving(a.ok)
    case Leaving(ok) => Done(ok)
  }

  function Then(units: seq<Unit>, s: State, a: Action): State
    requires May(units, s, a)
  {
    var u := units[a.t];
    var pc := NextPc(units, s, a);
    State(
      s.pcs[a.t := pc],
      if s.pcs[a.t].Claiming? && pc.Opening? then s.recorded[u.path := u.refspec] else s.recorded,
      if s.pcs[a.t].Locking? then s.locks[u.path := a.t]
      else if s.pcs[a.t].Leaving? || pc.Thrown? then s.locks - {u.path}
      else s.locks,
      if s.pcs[a.t].Opening? && a.ok && u.dir !in s.trees then s.trees[u.dir := ""]
      else if s.pcs[a.t].Switching? && a.ok && u.refspec != "HEAD" then s.trees[u.dir := u.refspec]
      else s.trees)
  }

  function Init(units: seq<Unit>, trees: map<string, string>): State {
    State(seq(|units|, i => Finding), map[], map[], trees)
  }

  function After(units: seq<Unit>, s: State, actions: seq<Action>): Option<State>
    decreases |actions|
  {
    if actions == [] then Some(s)
    else if May(units, s, actions[0]) then After(units, Then(units, s, actions[0]), actions[1..])
    else None
  }

  // ---------------------------------------------------------------------
  // The invariant

  predicate Holding(pc: Pc) {
    pc.Claiming? || pc.Opening? || pc.Switching? || pc.Hashing? || pc.Leaving?
  }

  predicate Accepted(pc: Pc) {
    pc.Opening? || pc.Switching? || pc.Hashing? || Succeeded(pc)
  }

  predicate Succeeded(pc: Pc) {
    pc == Leaving(true) || pc == Done(true)
  }

  /** The source directory is at the unit's refspec. */
  predicate At(s: State, u: Unit) {
    u.dir in s.trees && (u.refspec != "HEAD" ==> s.trees[u.dir] == u.refspec)
  }

  /** Two paths to one directory, wanted at different refspecs. */
  predicate Clash(units: seq<Unit>, t: nat, u: nat)
    requires t < |units| && u < |units|
  {
    units[t].dir == units[u].dir && units[t].path != units[u].path && units[t].refspec != units[u].refspec
  }

  predicate Alone(units: seq<Unit>, t: nat)
    requires t < |units|
  {
    forall u :: 0 <= u < |units| ==> !Clash(units, t, u)
  }

  predicate UnitOk(units: seq<Unit>, s: State, t: nat)
    requires t < |s.pcs| == |units|
  {
    var u, pc := units[t], s.pcs[t];
    && (Holding(pc) ==> u.path in s.locks && s.locks[u.path] == t)
    && (Accepted(pc) ==> RefSpec(s, u.path) == u.refspec)
    && (pc.Switching? ==> u.dir in s.trees)
    && (Alone(units, t) && (pc.Hashing? || Succeeded(pc)) ==> At(s, u))
  }

  ghost predicate Inv(units: seq<Unit>, s: State) {
    |s.pcs| == |units| && forall t :: 0 <= t < |s.pcs| ==> UnitOk(units, s, t)
  }

  lemma UnitKept(units: seq<Unit>, s: State, a: Action, t: nat)
    requires UnitsOk(units) && Inv(units, s) && May(units, s, a) && t < |s.pcs|
    ensures UnitOk(units, Then(units, s, a), t)
  {
    assert UnitOk(units, s, t) && UnitOk(units, s, a.t);
    assert Alone(units, t) ==> !Clash(units, t, a.t);
    hide Inv, Alone;
  }

  lemma {:induction false} InvAlong(units: seq<Unit>, s: State, actions: seq<Action>)
    requires UnitsOk(units) && Inv(units, s) && After(units, s, actions).Some?
    ensures Inv(units, After(units, s, actions).value)
    decreases |actions|
  {
    hide UnitOk, UnitsOk;
    if actions != [] {
      var s' := Then(units, s, actions[0]);
      forall t: nat | t < |s'.pcs|
        ensures UnitOk(units, s', t)
      {
        UnitKept(units, s, actions[0], t);
      }
      InvAlong(units, s', actions[1..]);
    }
  }

  lemma InvAlways(units: seq<Unit>, trees: map<string, string>, actions: seq<Action>)
    requires UnitsOk(units)
    ensures var s := After(units, Init(units, trees), actions); s.Some? ==> Inv(units, s.value)
  {
    if After(units, Init(units, trees), actions).Some? {
      assert Inv(units, Init(units, trees));
      InvAlong(units, Init(units, trees), actions);
    }
  }

  // ---------------------------------------------------------------------
  // What the guard promises

  lemma {:induction false} SuccessLasts(units: seq<Unit>, s: State, actions: seq<Action>, t: nat)
    requires After(units, s, actions).Some? && t < |s.pcs| && Succeeded(s.pcs[t])
    ensures var s' := After(units, s, actions).value; t < |s'.pcs| && Succeeded(s'.pcs[t])
    decreases |actions|
  {
    if actions != [] {
      SuccessLasts(units, Then(units, s, actions[0]), actions[1..], t);
    }
  }

  /** Once a unit has succeeded its source directory stays at its refspec,
      whatever the other units do, unless one of them wants the same directory by
      another path at another refspec. */
  lemma CheckoutsStay(units: seq<Unit>, trees: map<string, string>, before: seq<Action>, after: seq<Action>, t: nat)
    requires After(units, Init(units, trees), before).Some?
    requires After(units, Init(units, trees), before + after).Some?
    requires UnitsOk(units) && t < |units| && Alone(units, t)
    requires var s := After(units, Init(units, trees), before).value; t < |s.pcs| && Succeeded(s.pcs[t])
    ensures At(After(units, Init(units, trees), before + after).value, units[t])
  {
    AfterConcat(units, Init(units, trees), before, after);
    SuccessLasts(units, After(units, Init(units, trees), before).value, after, t);
    InvAlways(units, trees, before + after);
    assert UnitOk(units, After(units, Init(units, trees), before + after).value, t);
    hide After, Init, Inv, At, Alone, UnitsOk;
  }

  lemma {:induction false} AfterConcat(units: seq<Unit>, s: State, a: seq<Action>, b: seq<Action>)
    requires After(units, s, a).Some?
    ensures After(units, s, a + b) == After(units, After(units, s, a).value, b)
    decreases |a|
  {
    hide May, Then;
    if a == [] {
      assert a + b == b;
    } else {
      assert (a + b)[1..] == a[1..] + b;
      AfterConcat(units, Then(units, s, a[0]), a[1..], b);
    }
  }

  /** No two refspecs succeed in one source directory after these actions. */
  predicate OneRefspec(units: seq<Unit>, trees: map<string, string>, actions: seq<Action>) {
    var r := After(units, Init(units, trees), actions);
    r.Some? && |r.value.pcs| == |units| ==>
      forall t, u :: 0 <= t < |units| && 0 <= u < |units| && BothSucceeded(units, r.value, t, u) ==>
        units[t].refspec == units[u].refspec
  }

  predicate BothSucceeded(units: seq<Unit>, s: State, t: nat, u: nat)
    requires t < |units| == |s.pcs| && u < |units|
  {
    units[t].dir == units[u].dir && Succeeded(s.pcs[t]) && Succeeded(s.pcs[u])
  }

  predicate SomeClash(units: seq<Unit>) {
    exists t, u :: 0 <= t < |units| && 0 <= u < |units| && Clash(units, t, u)
  }

  // ---------------------------------------------------------------------
  // One unit by itself

  /** s' comes after s in some run. */
  ghost predicate Leads(units: seq<Unit>, s: State, s': State) {
    exists actions :: After(units, s, actions) == Some(s')
  }

  lemma LeadsNext(units: seq<Unit>, s: State, s': State, a: Action)
    requires Leads(units, s, s') && May(units, s', a)
    ensures Leads(units, s, Then(units, s', a))
  {
    hide May, Then;
    var actions :| After(units, s, actions) == Some(s');
    AfterConcat(units, s, actions, [a]);
    assert [a][1..] == [];
    assert After(units, s, actions + [a]) == Some(Then(units, s', a));
  }

  lemma LeadsOn(units: seq<Unit>, s: State, s': State, s'': State) returns (actions: seq<Action>)
    requires Leads(units, s, s') && Leads(units, s', s'')
    ensures After(units, s, actions) == Some(s'')
  {
    var a :| After(units, s, a) == Some(s');
    var b :| After(units, s', b) == Some(s'');
    AfterConcat(units, s, a, b);
    actions := a + b;
  }

  /** s with thread t somewhere else. */
  function Moved(s: State, t: nat, pc: Pc, recorded: map<string, string>, locks: map<string, nat>,
                 trees: map<string, string>): State
    requires t < |s.pcs|
  {
    State(s.pcs[t := pc], recorded, locks, trees)
  }

  lemma ToOpening(units: seq<Unit>, s: State, t: nat) returns (s': State)
    requires |s.pcs| == |units| && t < |units| && s.pcs[t] == Finding && units[t].path !in s.locks
    ensures var path, refspec := units[t].path, units[t].refspec;
            var locks := s.locks[path := t];
            && Leads(units, s, s')
            && s' == if Agrees(RefSpec(s, path), refspec) then
                       Moved(s, t, Opening, s.recorded[path := refspec], locks, s.trees)
                     else Moved(s, t, Leaving(false), s.recorded, locks, s.trees)
  {
    assert After(units, s, []) == Some(s);
    hide Leads, After;
    var a := Action(t, true);
    LeadsNext(units, s, s, a);
    var s1 := Then(units, s, a);
    LeadsNext(units, s, s1, a);
    var s2 := Then(units, s1, a);
    assert s2 == Moved(s, t, Claiming, s.recorded, s.locks[units[t].path := t], s.trees);
    LeadsNext(units, s, s2, a);
    s' := Then(units, s2, a);
  }

  /** What a unit comes to while no other one moves: it is refused, and touches
      nothing, if another refspec is on record; it throws if git fails; and
      otherwise its source directory is at its refspec, or left alone for HEAD. */
  lemma CheckoutByItself(units: seq<Unit>, s: State, t: nat, opens: bool, switches: bool, matches: bool)
      returns (s': State)
    requires |s.pcs| == |units| && t < |units| && s.pcs[t] == Finding && units[t].path !in s.locks
    ensures Leads(units, s, s') && s'.locks == s.locks
    ensures var u := units[t];
            var trees := if u.dir in s.trees then s.trees else s.trees[u.dir := ""];
            var recorded := s.recorded[u.path := u.refspec];
            if RefSpec(s, u.path) != "" && RefSpec(s, u.path) != u.refspec then
              s' == s.(pcs := s.pcs[t := Done(false)])
            else if !opens then
              s' == s.(pcs := s.pcs[t := Thrown], recorded := recorded)
            else if u.refspec == "HEAD" then
              s' == s.(pcs := s.pcs[t := Done(matches)], recorded := recorded, trees := trees)
            else if !switches then
              s' == s.(pcs := s.pcs[t := Thrown], recorded := recorded, trees := trees)
            else
              s' == s.(pcs := s.pcs[t := Done(matches)], recorded := recorded, trees := s.trees[u.dir := u.refspec])
  {
    var s1 := ToOpening(units, s, t);
    hide Leads, After, Then, May;
    var u := units[t];
    assert s.locks[u.path := t] - {u.path} == s.locks;
    if s1.pcs[t].Opening? {
      s' := FromOpening(units, s, s1, t, opens, switches, matches);
      assert s.trees[u.dir := ""][u.dir := u.refspec] == s.trees[u.dir := u.refspec];
    } else {
      s' := Leaves(units, s, s1, t);
    }
  }

  lemma Leaves(units: seq<Unit>, s: State, s1: State, t: nat) returns (s': State)
    requires Leads(units, s, s1) && |s1.pcs| == |units| && t < |units| && s1.pcs[t].Leaving?
    ensures Leads(units, s, s')
    ensures s' == Moved(s1, t, Done(s1.pcs[t].ok), s1.recorded, s1.locks - {units[t].path}, s1.trees)
  {
    hide Leads, After;
    LeadsNext(units, s, s1, Action(t, true));
    s' := Then(units, s1, Action(t, true));
  }

  lemma FromOpening(units: seq<Unit>, s: State, s1: State, t: nat, opens: bool, switches: bool, matches: bool)
      returns (s': State)
    requires Leads(units, s, s1) && |s1.pcs| == |units| && t < |units| && s1.pcs[t] == Opening
    ensures Leads(units, s, s')
    ensures var u := units[t];
            var trees := if u.dir in s1.trees then s1.trees else s1.trees[u.dir := ""];
            var locks := s1.locks - {u.path};
            s' == if !opens then Moved(s1, t, Thrown, s1.recorded, locks, s1.trees)
                  else if u.refspec == "HEAD" then Moved(s1, t, Done(matches), s1.recorded, locks, trees)
                  else if !switches then Moved(s1, t, Thrown, s1.recorded, locks, trees)
                  else Moved(s1, t, Done(matches), s1.recorded, locks, trees[u.dir := u.refspec])
  {
    hide Leads, After;
    LeadsNext(units, s, s1, Action(t, opens));
    s' := Then(units, s1, Action(t, opens));
    if opens {
      s' := FromSwitching(units, s, s', t, switches, matches);
    }
  }

  lemma FromSwitching(units: seq<Unit>, s: State, s1: State, t: nat, switches: bool, matches: bool)
      returns (s': State)
    requires Leads(units, s, s1) && |s1.pcs| == |units| && t < |units| && s1.pcs[t] == Switching
    ensures Leads(units, s, s')
    ensures var u := units[t];
            var pc := if switches || u.refspec == "HEAD" then Done(matches) else Thrown;
            var trees := if switches && u.refspec != "HEAD" then s1.trees[u.dir := u.refspec] else s1.trees;
            s' == Moved(s1, t, pc, s1.recorded, s1.locks - {u.path}, trees)
  {
    hide Leads, After;
    LeadsNext(units, s, s1, Action(t, switches));
    s' := Then(units, s1, Action(t, switches));
    if s'.pcs[t].Hashing? {
      LeadsNext(units, s, s', Action(t, matches));
      s' := Then(units, s', Action(t, matches));
      s' := Leaves(units, s, s', t);
    }
  }

  // ---------------------------------------------------------------------
  // When the guard holds

  /** The guard keeps two refspecs from succeeding in one source directory, in all
      runs, exactly when no directory is wanted by two paths at two refspecs: what
      it compares are paths, as they were written. */
  lemma GuardIsExact(units: seq<Unit>)
    requires UnitsOk(units)
    ensures (forall trees, actions :: OneRefspec(units, trees, actions)) <==> !SomeClash(units)
  {
    if SomeClash(units) {
      var t, u :| 0 <= t < |units| && 0 <= u < |units| && Clash(units, t, u);
      var actions := OtherPathSlips(units, t, u);
      assert !OneRefspec(units, map[], actions);
    } else {
      forall trees, actions
        ensures OneRefspec(units, trees, actions)
      {
        NoClashNoSlip(units, trees, actions);
      }
    }
    hide OneRefspec, UnitsOk;
  }

  lemma OtherPathSlips(units: seq<Unit>, t: nat, u: nat) returns (actions: seq<Action>)
    requires t < |units| && u < |units| && Clash(units, t, u)
    ensures !OneRefspec(units, map[], actions)
  {
    var s := Init(units, map[]);
    var s1 := CheckoutByItself(units, s, t, true, true, true);
    assert RefSpec(s1, units[u].path) == RefSpec(s, units[u].path) == "";
    var s2 := CheckoutByItself(units, s1, u, true, true, true);
    actions := LeadsOn(units, s, s1, s2);
    assert BothSucceeded(units, s2, t, u);
    hide After, Leads;
  }

  lemma NoClashNoSlip(units: seq<Unit>, trees: map<string, string>, actions: seq<Action>)
    requires UnitsOk(units) && !SomeClash(units)
    ensures OneRefspec(units, trees, actions)
  {
    InvAlways(units, trees, actions);
    hide After, Init;
    var r := After(units, Init(units, trees), actions);
    if r.Some? && |r.value.pcs| == |units| {
      forall t, u | 0 <= t < |units| && 0 <= u < |units| && BothSucceeded(units, r.value, t, u)
        ensures units[t].refspec == units[u].refspec
      {
        assert UnitOk(units, r.value, t) && UnitOk(units, r.value, u);
        assert !Clash(units, t, u);
      }
    }
  }
}
