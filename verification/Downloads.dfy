/** DownloadFetch::fetch: concurrent downloads into one directory, guarded by a
    mutex and a set-once hash per file name. */
module Downloads {
  import opened Packages

  /** One DownloadFetch unit: full_name() and the hash it expects, "" for none. */
  datatype Fetch = Fetch(name: string, hash: string)

  /** hash_file on contents, the file that a name below the download directory
      leads to, and whether a local tarball cache is configured. Names are used as
      they were written, so several may lead to one file. */
  datatype Config = Config(digest: string -> string, resolve: string -> string, tarballCache: bool)

  // ---------------------------------------------------------------------
  // Names

  /** The position after the last '/', or 0. */
  function AfterSlash(uri: string): (i: nat)
    ensures i <= |uri|
    ensures '/' !in uri[i..]
    ensures i > 0 ==> uri[i - 1] == '/'
  {
    if uri == "" then 0
    else if uri[|uri| - 1] == '/' then |uri|
    else
      var i := AfterSlash(uri[..|uri| - 1]);
      assert uri[i..] == uri[..|uri| - 1][i..] + [uri[|uri| - 1]];
      i
  }

  /** full_name: the name given, else what follows the last '/' of the URI; a URI
      without one has no name. */
  function FullName(uri: string, filename: string): (name: string)
    ensures filename != "" ==> name == filename
    ensures filename == "" ==> '/' !in name
    ensures filename == "" && name != "" ==> |name| < |uri| && uri[|uri| - |name| - 1..] == "/" + name
    ensures filename == "" && name == "" <==> filename == "" && ('/' !in uri || uri[|uri| - 1] == '/')
  {
    if filename != "" then filename
    else if '/' in uri then
      var i := AfterSlash(uri);
      assert uri[0..] == uri;
      uri[i..]
    else ""
  }

  // ---------------------------------------------------------------------
  // The objects shared by all fetches

  class DLObject {
    const fileName: string
    var hash: string

    constructor (fileName: string)
      ensures this.fileName == fileName && hash == ""
    {
      this.fileName, hash := fileName, "";
    }
  }

  class DLObjects {
    var objects: seq<DLObject>

    /** No two objects for one name. */
    ghost predicate Valid()
      reads this
    {
      forall i, j :: 0 <= i < j < |objects| ==> objects[i].fileName != objects[j].fileName
    }

    constructor ()
      ensures Valid() && objects == []
    {
      objects := [];
    }

    /** findDLObject: fetches of one name share one object, whichever comes first. */
    method FindDLObject(fname: string) returns (obj: DLObject)
      requires Valid()
      modifies this
      ensures Valid() && obj in objects && obj.fileName == fname
      ensures (exists o :: o in old(objects) && o.fileName == fname) ==> objects == old(objects)
      ensures (forall o :: o in old(objects) ==> o.fileName != fname) ==>
                fresh(obj) && obj.hash == "" && objects == old(objects) + [obj]
    {
      var i := 0;
      while i < |objects|
        invariant 0 <= i <= |objects|
        invariant forall j :: 0 <= j < i ==> objects[j].fileName != fname
      {
        if objects[i].fileName == fname {
          return objects[i];
        }
        i := i + 1;
      }
      obj := new DLObject(fname);
      objects := objects + [obj];
    }

    /** The check at the top of fetch, under the object's mutex: false if another
        hash is on record, else the hash is put on record. */
    static method Claim(obj: DLObject, hash: string) returns (ok: bool)
      modifies obj
      ensures ok == Agrees(old(obj.hash), hash)
      ensures obj.hash == if ok then Claimed(old(obj.hash), hash) else old(obj.hash)
    {
      if hash != "" {
        if obj.hash != "" {
          if obj.hash != hash {
            return false;
          }
        } else {
          obj.hash := hash;
        }
      }
      ok := true;
    }
  }

  /** The recorded hash, if any, is the one wanted, if any. */
  predicate Agrees(recorded: string, wanted: string) {
    recorded == "" || wanted == "" || recorded == wanted
  }

  function Claimed(recorded: string, wanted: string): string {
    if recorded == "" then wanted else recorded
  }

  // ---------------------------------------------------------------------
  // The threads

  datatype Pc =
    | Finding                  // findDLObject
    | Locking
    | Claiming
    | Looking                  // is the file there?
    | Clearing(cache: bool)    // removing <name>.tmp, before a download from the cache or upstream
    | Getting(cache: bool)     // wget into <name>.tmp
    | Storing                  // renaming <name>.tmp
    | Checking                 // comparing hashes, removing the file if they differ
    | Leaving(ok: bool)        // releasing the mutex
    | Done(ok: bool)
    | Thrown

  /** recorded and locks are the DLObjects' and belong to names; files belongs to
      the files that names lead to. */
  datatype State = State(
    pcs: seq<Pc>,
    recorded: map<string, string>,
    locks: map<string, nat>,
    files: map<string, string>)

  /** How a step ends where that is not determined: a wget leaves left in the
      temporary file, or nothing, and succeeds or not. */
  datatype Action = Action(t: nat, ok: bool, left: Option<string>)

  function Temp(name: string): string {
    name + ".tmp"
  }

  function FileOf(cfg: Config, f: Fetch): string {
    cfg.resolve(f.name)
  }

  function TempOf(cfg: Config, f: Fetch): string {
    cfg.resolve(Temp(f.name))
  }

  function Recorded(s: State, name: string): string {
    if name in s.recorded then s.recorded[name] else ""
  }

  predicate May(cfg: Config, fetches: seq<Fetch>, s: State, a: Action) {
    && |s.pcs| == |fetches| && a.t < |s.pcs|
    && match s.pcs[a.t]
       case Locking => fetches[a.t].name !in s.locks
       case Getting(_) => a.ok ==> a.left.Some?
       case Done(_) => false
       case Thrown => false
       case _ => true
  }

  /** The file is there and has the hash. */
  predicate Intact(cfg: Config, s: State, f: Fetch) {
    FileOf(cfg, f) in s.files && cfg.digest(s.files[FileOf(cfg, f)]) == f.hash
  }

  function NextPc(cfg: Config, fetches: seq<Fetch>, s: State, a: Action): Pc
    requires May(cfg, fetches, s, a)
  {
    var f := fetches[a.t];
    match s.pcs[a.t]
    case Finding => Locking
    case Locking => Claiming
    case Claiming => if Agrees(Recorded(s, f.name), f.hash) then Looking else Leaving(false)
    case Looking => if FileOf(cfg, f) in s.files then Checking else Clearing(cfg.tarballCache)
    case Clearing(cache) => Getting(cache)
    case Getting(cache) => if a.ok then Storing else if cache then Clearing(false) else Thrown
    case Storing => if TempOf(cfg, f) in s.files then Checking else Thrown
    case Checking =>
      Leaving(f.hash == "" || Intact(cfg, s, f))
    case Leaving(ok) => Done(ok)
  }

  function FilesThen(cfg: Config, fetches: seq<Fetch>, s: State, a: Action): map<string, string>
    requires May(cfg, fetches, s, a)
  {
    var f := fetches[a.t];
    var file, temp := FileOf(cfg, f), TempOf(cfg, f);
    match s.pcs[a.t]
    case Clearing(_) => s.files - {temp}
    case Getting(_) => if a.left.Some? then s.files[temp := a.left.value] else s.files - {temp}
    case Storing => if temp in s.files && temp != file then s.files[file := s.files[temp]] - {temp} else s.files
    case Checking => if NextPc(cfg, fetches, s, a) == Leaving(false) then s.files - {file} else s.files
    case _ => s.files
  }

  function Then(cfg: Config, fetches: seq<Fetch>, s: State, a: Action): State
    requires May(cfg, fetches, s, a)
  {
    var f := fetches[a.t];
    var pc := NextPc(cfg, fetches, s, a);
    State(
      s.pcs[a.t := pc],
      match s.pcs[a.t]
      case Finding => if f.name in s.recorded then s.recorded else s.recorded[f.name := ""]
      case Claiming => if pc.Looking? then s.recorded[f.name := Claimed(Recorded(s, f.name), f.hash)] else s.recorded
      case _ => s.recorded,
      match s.pcs[a.t]
      case Locking => s.locks[f.name := a.t]
      case Leaving(_) => s.locks - {f.name}
      case _ => if pc.Thrown? then s.locks - {f.name} else s.locks,
      FilesThen(cfg, fetches, s, a))
  }

  function Init(fetches: seq<Fetch>, files: map<string, string>): State {
    State(seq(|fetches|, i => Finding), map[], map[], files)
  }

  /** Where the actions lead from s, if each of them is possible. */
  function After(cfg: Config, fetches: seq<Fetch>, s: State, actions: seq<Action>): Option<State>
    decreases |actions|
  {
    if actions == [] then Some(s)
    else if May(cfg, fetches, s, actions[0]) then After(cfg, fetches, Then(cfg, fetches, s, actions[0]), actions[1..])
    else None
  }

  // ---------------------------------------------------------------------
  // The invariant

  predicate Holding(pc: Pc) {
    pc.Claiming? || pc.Looking? || pc.Clearing? || pc.Getting? || pc.Storing? || pc.Checking? || pc.Leaving?
  }

  /** Past the check of the recorded hash. */
  predicate Accepted(pc: Pc) {
    pc.Looking? || pc.Clearing? || pc.Getting? || pc.Storing? || pc.Checking? || pc.Thrown?
    || pc == Leaving(true) || pc == Done(true)
  }

  predicate Succeeded(pc: Pc) {
    pc == Leaving(true) || pc == Done(true)
  }

  /** Fetches of f's file by another name, or into a temporary file that is f's. */
  predicate Threat(cfg: Config, g: Fetch, f: Fetch) {
    g.name != f.name && (FileOf(cfg, g) == FileOf(cfg, f) || TempOf(cfg, g) == FileOf(cfg, f))
  }

  predicate Apart(cfg: Config, fetches: seq<Fetch>, f: Fetch) {
    forall i :: 0 <= i < |fetches| ==> !Threat(cfg, fetches[i], f)
  }

  predicate ThreadOk(cfg: Config, fetches: seq<Fetch>, s: State, t: nat)
    requires t < |s.pcs| == |fetches|
  {
    var f, pc := fetches[t], s.pcs[t];
    && (Holding(pc) ==> f.name in s.locks && s.locks[f.name] == t)
    && (Accepted(pc) && f.hash != "" ==> Recorded(s, f.name) == f.hash)
    && (Succeeded(pc) && f.hash != "" && Apart(cfg, fetches, f) ==> Intact(cfg, s, f))
  }

  ghost predicate Inv(cfg: Config, fetches: seq<Fetch>, s: State) {
    && |s.pcs| == |fetches|
    && (forall t :: 0 <= t < |s.pcs| ==> ThreadOk(cfg, fetches, s, t))
    && forall t, u :: 0 <= t < |s.pcs| && 0 <= u < |s.pcs| ==> NotReplacing(cfg, fetches, s, t, u)
  }

  predicate Replacing(pc: Pc) {
    pc.Clearing? || pc.Getting? || pc.Storing?
  }

  /** While a hash is vouched for, nobody downloads that file again. */
  predicate NotReplacing(cfg: Config, fetches: seq<Fetch>, s: State, t: nat, u: nat)
    requires t < |s.pcs| == |fetches| && u < |s.pcs|
  {
    && Succeeded(s.pcs[t]) && fetches[t].hash != "" && Apart(cfg, fetches, fetches[t])
    && fetches[u].name == fetches[t].name
    ==> !Replacing(s.pcs[u])
  }

  lemma RecordedStays(cfg: Config, fetches: seq<Fetch>, s: State, a: Action, name: string)
    requires May(cfg, fetches, s, a) && Recorded(s, name) != ""
    ensures Recorded(Then(cfg, fetches, s, a), name) == Recorded(s, name)
  {
  }

  lemma SucceededStays(cfg: Config, fetches: seq<Fetch>, s: State, a: Action, u: nat)
    requires May(cfg, fetches, s, a) && u < |s.pcs| && Succeeded(s.pcs[u])
    ensures Succeeded(Then(cfg, fetches, s, a).pcs[u])
  {
  }

  lemma LockStays(cfg: Config, fetches: seq<Fetch>, s: State, a: Action, u: nat)
    requires Inv(cfg, fetches, s) && May(cfg, fetches, s, a) && u < |s.pcs| && u != a.t && Holding(s.pcs[u])
    ensures var s' := Then(cfg, fetches, s, a); fetches[u].name in s'.locks && s'.locks[fetches[u].name] == u
  {
    assert ThreadOk(cfg, fetches, s, u) && ThreadOk(cfg, fetches, s, a.t);
    hide Inv, Apart, Intact;
  }

  /** Neither another file's download nor another fetch of the same name disturbs
      a file that is vouched for. */
  lemma IntactStays(cfg: Config, fetches: seq<Fetch>, s: State, a: Action, u: nat)
    requires Inv(cfg, fetches, s) && May(cfg, fetches, s, a) && u < |s.pcs|
    requires Succeeded(s.pcs[u]) && fetches[u].hash != "" && Apart(cfg, fetches, fetches[u])
    ensures Intact(cfg, Then(cfg, fetches, s, a), fetches[u])
  {
    assert ThreadOk(cfg, fetches, s, u) && ThreadOk(cfg, fetches, s, a.t);
    assert NotReplacing(cfg, fetches, s, u, a.t);
    assert !Threat(cfg, fetches[a.t], fetches[u]);
    hide Inv, Apart, Temp;
  }

  lemma OwnThreadKept(cfg: Config, fetches: seq<Fetch>, s: State, a: Action)
    requires Inv(cfg, fetches, s) && May(cfg, fetches, s, a)
    ensures ThreadOk(cfg, fetches, Then(cfg, fetches, s, a), a.t)
  {
    assert ThreadOk(cfg, fetches, s, a.t);
    if Succeeded(s.pcs[a.t]) && fetches[a.t].hash != "" && Apart(cfg, fetches, fetches[a.t]) {
      IntactStays(cfg, fetches, s, a, a.t);
    }
    hide Inv, Apart, Temp;
  }

  lemma ThreadKept(cfg: Config, fetches: seq<Fetch>, s: State, a: Action, u: nat)
    requires Inv(cfg, fetches, s) && May(cfg, fetches, s, a) && u < |s.pcs| && u != a.t
    ensures ThreadOk(cfg, fetches, Then(cfg, fetches, s, a), u)
  {
    assert ThreadOk(cfg, fetches, s, u);
    if Holding(s.pcs[u]) {
      LockStays(cfg, fetches, s, a, u);
    }
    if fetches[u].hash != "" {
      if Accepted(s.pcs[u]) {
        RecordedStays(cfg, fetches, s, a, fetches[u].name);
      }
      if Succeeded(s.pcs[u]) && Apart(cfg, fetches, fetches[u]) {
        IntactStays(cfg, fetches, s, a, u);
      }
    }
    assert Then(cfg, fetches, s, a).pcs[u] == s.pcs[u];
    hide Inv, Apart, Temp, Then, Recorded, Intact;
  }

  lemma NotReplacingKept(cfg: Config, fetches: seq<Fetch>, s: State, a: Action, t: nat, u: nat)
    requires Inv(cfg, fetches, s) && May(cfg, fetches, s, a) && t < |s.pcs| && u < |s.pcs|
    ensures NotReplacing(cfg, fetches, Then(cfg, fetches, s, a), t, u)
  {
    assert ThreadOk(cfg, fetches, s, t) && ThreadOk(cfg, fetches, s, u);
    assert NotReplacing(cfg, fetches, s, t, u);
    hide Inv, Apart, Temp, FilesThen;
  }

  lemma StepKeeps(cfg: Config, fetches: seq<Fetch>, s: State, a: Action)
    requires Inv(cfg, fetches, s) && May(cfg, fetches, s, a)
    ensures Inv(cfg, fetches, Then(cfg, fetches, s, a))
  {
    var s' := Then(cfg, fetches, s, a);
    assert |s'.pcs| == |s.pcs| == |fetches|;
    forall u: nat | u < |s'.pcs|
      ensures ThreadOk(cfg, fetches, s', u)
    {
      if u == a.t {
        OwnThreadKept(cfg, fetches, s, a);
      } else {
        ThreadKept(cfg, fetches, s, a, u);
      }
    }
    forall t: nat, u: nat | t < |s'.pcs| && u < |s'.pcs|
      ensures NotReplacing(cfg, fetches, s', t, u)
    {
      NotReplacingKept(cfg, fetches, s, a, t, u);
    }
    hide ThreadOk, NotReplacing, Then, May;
  }

  lemma {:induction false} InvAlong(cfg: Config, fetches: seq<Fetch>, s: State, actions: seq<Action>)
    requires Inv(cfg, fetches, s) && After(cfg, fetches, s, actions).Some?
    ensures Inv(cfg, fetches, After(cfg, fetches, s, actions).value)
    decreases |actions|
  {
    hide Inv, May, Then;
    if actions != [] {
      StepKeeps(cfg, fetches, s, actions[0]);
      InvAlong(cfg, fetches, Then(cfg, fetches, s, actions[0]), actions[1..]);
    }
  }

  lemma InvAlways(cfg: Config, fetches: seq<Fetch>, files: map<string, string>, actions: seq<Action>)
    ensures var s := After(cfg, fetches, Init(fetches, files), actions); s.Some? ==> Inv(cfg, fetches, s.value)
  {
    if After(cfg, fetches, Init(fetches, files), actions).Some? {
      assert Inv(cfg, fetches, Init(fetches, files));
      InvAlong(cfg, fetches, Init(fetches, files), actions);
    }
  }
}
