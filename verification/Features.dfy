/** Feature values: the map they are set in and the lookup by package name. */
module Features {
  import opened Packages

  class FeatureMap {
    var features: map<string, string>

    constructor ()
      ensures features == map[]
    {
      features := map[];
    }

    /** setFeature: the first value set stays, unless override is asked for. */
    method SetFeature(key: string, value: string, override: bool)
      modifies this
      ensures features == if key in old(features) && !override then old(features) else old(features)[key := value]
    {
      if key in features {
        if override {
          features := features[key := value];
        }
      } else {
        features := features[key := value];
      }
    }

    /** The key=value form; the value may contain more '='. */
    method SetFeatureFrom(kv: string) returns (ok: bool)
      modifies this
      ensures ok <==> '=' in kv
      ensures !ok ==> features == old(features)
      ensures ok ==> exists key, value ::
                kv == key + "=" + value && '=' !in key && features == old(features)[key := value]
    {
      var pos := 0;
      while pos < |kv| && kv[pos] != '='
        invariant 0 <= pos <= |kv| && '=' !in kv[..pos]
      {
        pos := pos + 1;
      }
      if pos == |kv| {
        assert kv[..pos] == kv;
        return false;
      }
      SetFeature(kv[..pos], kv[pos + 1..], true);
      assert kv == kv[..pos] + "=" + kv[pos + 1..];
      ok := true;
    }

    /** getFeature; None is NoKeyException. */
    function GetFeature(key: string): Option<string>
      reads this
    {
      if key in features then Some(features[key]) else None
    }

    /** get_feature_value: tries the package name and then its parents. */
    method GetFeatureFor(name: string, key: string) returns (value: Option<string>)
      ensures name != "" && name + ":" + key in features ==> value == Some(features[name + ":" + key])
      ensures name == "" ==> value == if key in features then Some(features[key]) else None
      ensures value == GetFeatureValue(features, name, key)
      decreases |name|
    {
      value := GetFeature(Scoped(name, key));
      if value.None? && name != "" {
        var found := LastSlash(name);
        value := GetFeatureFor(if found.Some? then name[..found.value] else "", key);
      }
    }
  }

  /** The position of the last '/'. */
  function LastSlash(name: string): (r: Option<nat>)
    ensures r.None? ==> forall j :: 0 <= j < |name| ==> name[j] != '/'
    ensures r.Some? ==> r.value < |name| && name[r.value] == '/' && forall j :: r.value < j < |name| ==> name[j] != '/'
  {
    if name == "" then None
    else if name[|name| - 1] == '/' then Some(|name| - 1)
    else LastSlash(name[..|name| - 1])
  }

  function Scoped(scope: string, key: string): string {
    if scope == "" then key else scope + ":" + key
  }

  /** get_feature_value: the package name, then its parent directories, then the
      global value. */
  function GetFeatureValue(features: map<string, string>, name: string, key: string): (value: Option<string>)
    ensures name != "" && name + ":" + key in features ==> value == Some(features[name + ":" + key])
    ensures name == "" && key in features ==> value == Some(features[key])
    decreases |name|
  {
    if Scoped(name, key) in features then Some(features[Scoped(name, key)])
    else if name == "" then None
    else
      match LastSlash(name)
      case None => GetFeatureValue(features, "", key)
      case Some(i) => GetFeatureValue(features, name[..i], key)
  }

  lemma SlashFollows(scope: string, name: string)
    ensures scope + "/" <= name <==> |scope| < |name| && name[..|scope|] == scope && name[|scope|] == '/'
  {
    if |scope| < |name| && name[..|scope|] == scope && name[|scope|] == '/' {
      assert name[..|scope| + 1] == scope + "/";
    }
    if scope + "/" <= name {
      assert name[|scope|] == (scope + "/")[|scope|];
    }
  }

  /** The parent of a package name encloses it together with everything further out. */
  lemma ParentScopes(name: string, scope: string)
    requires name != ""
    requires scope != ""
    ensures var parent := if LastSlash(name).Some? then name[..LastSlash(name).value] else "";
            scope + "/" <= name <==> scope == parent || scope + "/" <= parent
  {
    var parent := if LastSlash(name).Some? then name[..LastSlash(name).value] else "";
    SlashFollows(scope, name);
    SlashFollows(scope, parent);
    assert |scope| < |parent| ==> parent[..|scope|] == name[..|scope|];
  }

  /** A package sees exactly the innermost setting of a feature: scope + ":" + key
      of itself or the closest directory above it that has one, or else the global
      key. */
  lemma {:induction false} LookupIsInnermost(features: map<string, string>, name: string, key: string, scope: string)
    ensures scope != "" && (scope == name || scope + "/" <= name) && scope + ":" + key in features
            && (forall other :: |other| > |scope| && (other == name || other + "/" <= name) ==>
                  other + ":" + key !in features)
            ==> GetFeatureValue(features, name, key) == Some(features[scope + ":" + key])
    ensures (forall other :: other != "" && (other == name || other + "/" <= name) ==>
               other + ":" + key !in features)
            ==> GetFeatureValue(features, name, key) == if key in features then Some(features[key]) else None
    decreases |name|
  {
    if name == "" {
      SlashFollows(scope, name);
    } else if name + ":" + key in features {
      SlashFollows(scope, name);
      assert scope + "/" <= name ==> |name| > |scope|;
    } else {
      var parent := if LastSlash(name).Some? then name[..LastSlash(name).value] else "";
      forall other | other != ""
        ensures other + "/" <= name <==> other == parent || other + "/" <= parent
      {
        ParentScopes(name, other);
      }
      LookupIsInnermost(features, parent, key, scope);
    }
  }
}
