/** Build descriptions (BuildDescription): the lines recorded about a package and
    the text that is hashed into its build-info hash. */
module Descriptions {

  datatype BuildUnit =
    | FeatureValue(name: string, text: string)
    | FeatureNil(text: string)
    | PackageFile(name: string, text: string)
    | RequireFile(name: string, text: string)
    | OutputInfoFile(name: string, text: string)
    | BuildInfoFile(name: string, text: string)
    | ExtractionInfoFile(name: string, text: string)

  function Tag(u: BuildUnit): string {
    match u
    case FeatureValue(_, _) => "FeatureValue"
    case FeatureNil(_) => "FeatureNil"
    case PackageFile(_, _) => "PackageFile"
    case RequireFile(_, _) => "RequireFile"
    case OutputInfoFile(_, _) => "OutputInfoFile"
    case BuildInfoFile(_, _) => "BuildInfoFile"
    case ExtractionInfoFile(_, _) => "ExtractionInfoFile"
  }

  /** The string the add functions push for a unit. */
  function Format(u: BuildUnit): string {
    if u.FeatureNil? then Tag(u) + " " + u.text
    else Tag(u) + " " + u.name + " " + u.text
  }

  /** The add functions' format strings, filled in. */
  lemma FormatIs(u: BuildUnit)
    ensures match u
            case FeatureValue(name, text) => Format(u) == "FeatureValue " + name + " " + text
            case FeatureNil(text) => Format(u) == "FeatureNil " + text
            case PackageFile(name, text) => Format(u) == "PackageFile " + name + " " + text
            case RequireFile(name, text) => Format(u) == "RequireFile " + name + " " + text
            case OutputInfoFile(name, text) => Format(u) == "OutputInfoFile " + name + " " + text
            case BuildInfoFile(name, text) => Format(u) == "BuildInfoFile " + name + " " + text
            case ExtractionInfoFile(name, text) => Format(u) == "ExtractionInfoFile " + name + " " + text
  {
    assert Tag(u) + " " == match u
                           case FeatureValue(_, _) => "FeatureValue "
                           case FeatureNil(_) => "FeatureNil "
                           case PackageFile(_, _) => "PackageFile "
                           case RequireFile(_, _) => "RequireFile "
                           case OutputInfoFile(_, _) => "OutputInfoFile "
                           case BuildInfoFile(_, _) => "BuildInfoFile "
                           case ExtractionInfoFile(_, _) => "ExtractionInfoFile ";
  }

  function Lines(us: seq<BuildUnit>): seq<string> {
    if us == [] then [] else [Format(us[0])] + Lines(us[1..])
  }

  /** Each line, ended by a newline. */
  function Join(lines: seq<string>): string {
    if lines == [] then "" else lines[0] + "\n" + Join(lines[1..])
  }

  function Print(us: seq<BuildUnit>): string {
    Join(Lines(us))
  }

  class BuildDescription {
    var buildUnits: seq<string>
    ghost var units: seq<BuildUnit>

    ghost predicate Valid()
      reads this
    {
      buildUnits == Lines(units)
    }

    constructor ()
      ensures Valid() && units == []
    {
      buildUnits, units := [], [];
    }

    /** The other add functions; fields are formatted and pushed as they are. */
    method Add(u: BuildUnit)
      requires Valid()
      modifies this
      ensures Valid() && units == old(units) + [u]
    {
      LinesAppend(units, u);
      buildUnits, units := buildUnits + [Format(u)], units + [u];
    }

    /** add_feature_value drops features that are to be ignored. */
    method AddFeatureValue(ignored: seq<string>, feature: string, value: string)
      requires Valid()
      modifies this
      ensures Valid()
      ensures units == old(units) + if feature in ignored then [] else [FeatureValue(feature, value)]
    {
      var i := 0;
      while i < |ignored| && ignored[i] != feature
        invariant 0 <= i <= |ignored| && feature !in ignored[..i]
      {
        i := i + 1;
      }
      if i == |ignored| {
        assert ignored[..i] == ignored;
        Add(FeatureValue(feature, value));
      }
    }

    method PrintTo(out: string) returns (printed: string)
      requires Valid()
      ensures printed == out + Print(units)
    {
      printed := out;
      var i := 0;
      while i < |buildUnits|
        invariant 0 <= i <= |buildUnits|
        invariant printed + Join(buildUnits[i..]) == out + Join(buildUnits)
      {
        assert buildUnits[i..] == [buildUnits[i]] + buildUnits[i + 1..];
        ghost var rest := Join(buildUnits[i + 1..]);
        assert printed + (buildUnits[i] + "\n" + rest) == (printed + buildUnits[i] + "\n") + rest;
        printed := printed + buildUnits[i] + "\n";
        i := i + 1;
      }
    }
  }

  lemma {:induction false} LinesAppend(us: seq<BuildUnit>, u: BuildUnit)
    ensures Lines(us + [u]) == Lines(us) + [Format(u)]
  {
    if us != [] {
      LinesAppend(us[1..], u);
      assert (us + [u])[1..] == us[1..] + [u];
    }
  }

  // ---------------------------------------------------------------------
  // Equal texts mean equal descriptions

  /** The fields cannot be mistaken for the separators around them. */
  predicate Clean(u: BuildUnit) {
    && '\n' !in u.text
    && (!u.FeatureNil? ==> '\n' !in u.name && ' ' !in u.name)
  }

  predicate AllClean(us: seq<BuildUnit>) {
    forall i :: 0 <= i < |us| ==> Clean(us[i])
  }

  lemma FirstIsAt(c: char, a: string, s: string)
    requires c !in a
    ensures var whole := a + [c] + s;
            && whole[|a|] == c && whole[..|a|] == a && whole[|a| + 1..] == s
            && forall i :: 0 <= i < |a| ==> whole[i] != c
  {
  }

  /** What comes before the first c is determined, and so is what comes after. */
  lemma SplitIsUnique(c: char, a: string, s: string, b: string, t: string)
    requires c !in a && c !in b && a + [c] + s == b + [c] + t
    ensures a == b && s == t
  {
    FirstIsAt(c, a, s);
    FirstIsAt(c, b, t);
  }

  lemma TagsDiffer(u: BuildUnit, v: BuildUnit)
    ensures ' ' !in Tag(u) && '\n' !in Tag(u)
    ensures Tag(u) == Tag(v) ==>
              && (u.FeatureNil? <==> v.FeatureNil?)
              && (u.FeatureValue? <==> v.FeatureValue?) && (u.PackageFile? <==> v.PackageFile?)
              && (u.RequireFile? <==> v.RequireFile?) && (u.OutputInfoFile? <==> v.OutputInfoFile?)
              && (u.BuildInfoFile? <==> v.BuildInfoFile?) && (u.ExtractionInfoFile? <==> v.ExtractionInfoFile?)
  {
    assert |Tag(FeatureNil(""))| == 10 && |Tag(PackageFile("", ""))| == 11 && |Tag(RequireFile("", ""))| == 11;
    assert Tag(PackageFile("", ""))[0] == 'P' && Tag(RequireFile("", ""))[0] == 'R';
    assert |Tag(FeatureValue("", ""))| == 12 && |Tag(BuildInfoFile("", ""))| == 13;
    assert |Tag(OutputInfoFile("", ""))| == 14 && |Tag(ExtractionInfoFile("", ""))| == 18;
  }

  /** What follows a line's tag. */
  function Tail(u: BuildUnit): string {
    if u.FeatureNil? then u.text else u.name + [' '] + u.text
  }

  lemma FormatShape(u: BuildUnit)
    ensures Format(u) == Tag(u) + [' '] + Tail(u)
  {
  }

  // ---------------------------------------------------------------------
  // Which names keep texts apart

  /** No field holds a newline, and all names are in the set. */
  predicate Over(names: iset<string>, us: seq<BuildUnit>) {
    forall i :: 0 <= i < |us| ==> '\n' !in us[i].text && (!us[i].FeatureNil? ==> us[i].name in names)
  }

  ghost predicate OneLine(names: iset<string>) {
    forall name :: name in names ==> '\n' !in name
  }

  /** One name goes on, after a space, where another ends. */
  ghost predicate Runs(names: iset<string>) {
    exists short, long :: short in names && long in names && short + " " <= long
  }

  /** Equal texts mean equal descriptions. */
  ghost predicate Unambiguous(names: iset<string>) {
    forall us, vs :: Over(names, us) && Over(names, vs) && Print(us) == Print(vs) ==> us == vs
  }

  lemma LongerRuns(n: string, s: string, m: string, t: string)
    requires n + [' '] + s == m + [' '] + t && |n| < |m|
    ensures n + " " <= m
  {
    var whole := n + [' '] + s;
    assert whole[..|n| + 1] == n + " ";
    assert whole == m + [' '] + t;
    assert whole[..|m|] == m;
    assert m[..|n| + 1] == whole[..|n| + 1];
  }

  lemma TailsDiffer(names: iset<string>, n: string, s: string, m: string, t: string)
    requires n in names && m in names && !Runs(names) && n + [' '] + s == m + [' '] + t
    ensures n == m && s == t
  {
    if |n| < |m| {
      LongerRuns(n, s, m, t);
    } else if |m| < |n| {
      LongerRuns(m, t, n, s);
    } else {
      var whole := n + [' '] + s;
      assert whole == m + [' '] + t;
      assert whole[..|n|] == n && whole[..|m|] == m;
      assert whole[|n| + 1..] == s && whole[|m| + 1..] == t;
    }
  }

  lemma LineDecides(names: iset<string>, u: BuildUnit, v: BuildUnit)
    requires Over(names, [u]) && Over(names, [v]) && !Runs(names) && Format(u) == Format(v)
    ensures u == v
  {
    assert '\n' !in [u][0].text && '\n' !in [v][0].text;
    TagsDiffer(u, v);
    TagsDiffer(v, u);
    FormatShape(u);
    FormatShape(v);
    hide Tag, Format;
    SplitIsUnique(' ', Tag(u), Tail(u), Tag(v), Tail(v));
    if !u.FeatureNil? {
      assert [u][0].name in names && [v][0].name in names;
      TailsDiffer(names, u.name, u.text, v.name, v.text);
    }
  }

  lemma NoNewline(names: iset<string>, u: BuildUnit)
    requires Over(names, [u]) && OneLine(names)
    ensures '\n' !in Format(u)
  {
    assert '\n' !in [u][0].text && (!u.FeatureNil? ==> [u][0].name in names);
    TagsDiffer(u, u);
  }

  lemma {:induction false} TextsDecide(names: iset<string>, us: seq<BuildUnit>, vs: seq<BuildUnit>)
    requires OneLine(names) && !Runs(names) && Over(names, us) && Over(names, vs) && Print(us) == Print(vs)
    ensures us == vs
  {
    if us == [] || vs == [] {
      assert |Print(us)| == |Print(vs)|;
    } else {
      NoNewline(names, us[0]);
      NoNewline(names, vs[0]);
      var s, t := Print(us[1..]), Print(vs[1..]);
      assert Print(us) == Format(us[0]) + ['\n'] + s && Print(vs) == Format(vs[0]) + ['\n'] + t;
      SplitIsUnique('\n', Format(us[0]), s, Format(vs[0]), t);
      LineDecides(names, us[0], vs[0]);
      TextsDecide(names, us[1..], vs[1..]);
    }
  }

  /** For one-line fields, texts decide descriptions exactly when no name in use
      goes on, after a space, where another one ends. */
  lemma TextIsExact(names: iset<string>)
    requires OneLine(names)
    ensures Unambiguous(names) <==> !Runs(names)
  {
    if Runs(names) {
      var short, long :| short in names && long in names && short + " " <= long;
      var rest := long[|short| + 1..];
      assert long == short + " " + rest;
      var u, v := FeatureValue(short, rest + " "), FeatureValue(long, "");
      assert Format(u) == Format(v) by {
        assert short + " " + (rest + " ") == short + " " + rest + " " + "";
      }
      PrintOne(u);
      PrintOne(v);
      assert [u][0] != [v][0];
      assert Over(names, [u]) && Over(names, [v]) && Print([u]) == Print([v]);
    } else {
      forall us, vs | Over(names, us) && Over(names, vs) && Print(us) == Print(vs)
        ensures us == vs
      {
        TextsDecide(names, us, vs);
      }
    }
  }

  lemma SpaceFollows(short: string, long: string)
    ensures short + " " <= long ==> ' ' in long
  {
    assert (short + " ")[|short|] == ' ';
  }

  /** Names without spaces do not run on, so clean descriptions are decided. */
  lemma PrintInjective(us: seq<BuildUnit>, vs: seq<BuildUnit>)
    requires AllClean(us) && AllClean(vs) && Print(us) == Print(vs)
    ensures us == vs
  {
    var names := iset name: string | ' ' !in name && '\n' !in name;
    forall short: string, long | long in names
      ensures !(short + " " <= long)
    {
      SpaceFollows(short, long);
    }
    TextsDecide(names, us, vs);
  }

  /** A newline in a value makes it pass for a value and another line, when what
      follows the newline reads as one. */
  lemma NewlineIsAmbiguous(name: string, value: string, u: BuildUnit)
    ensures Print([FeatureValue(name, value + "\n" + Format(u))]) == Print([FeatureValue(name, value), u])
  {
    var v := FeatureValue(name, value);
    PrintOne(FeatureValue(name, value + "\n" + Format(u)));
    PrintOne(u);
    assert [v, u][1..] == [u];
    assert Print([v, u]) == Format(v) + "\n" + Print([u]);
    assert Format(FeatureValue(name, value + "\n" + Format(u))) == Format(v) + "\n" + Format(u);
  }

  lemma PrintOne(u: BuildUnit)
    ensures Print([u]) == Format(u) + "\n"
  {
    assert Lines([u]) == [Format(u)] && [Format(u)][1..] == [];
    assert Join([Format(u)]) == Format(u) + "\n" + Join([]);
  }
}
