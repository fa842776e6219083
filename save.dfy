/**
 * What internal/pkg/save shares between its save methods: the default key names and
 * unsetAndSetEnv, which unsets one map of environment variables and then sets another.
 */
module Save {
  import opened Outcomes
  import opened Env

  const DefaultInitResponseKey := "vault-init.json"
  const DefaultRootTokenKey := "root_token"

  /** The environment after some Setenv calls, and the error of the one that failed, if any. */
  datatype Applied = Applied(vars: map<string, string>, err: Option<string>)

  /** The set loop of unsetAndSetEnv over `s`: Setenv each entry in turn, stopping at the first failure. */
  function SetAll(s: seq<Var>, vars: map<string, string>): Applied
    decreases |s|
  {
    if s == [] then Applied(vars, None)
    else if !(NameOk(s[0].key) && Nul !in s[0].value) then Applied(vars, Some(InvalidArgument))
    else SetAll(s[1..], vars[s[0].key := s[0].value])
  }

  /** unsetAndSetEnv when the set map is ranged over in the order `setOrder`. */
  function UnsetAndSetSpec(unset: set<string>, setOrder: seq<Var>, vars: map<string, string>): Applied {
    SetAll(setOrder, vars - unset)
  }

  /** Whether Setenv accepts every entry of `s`. */
  predicate AllSettable(s: seq<Var>) {
    forall i :: 0 <= i < |s| ==> NameOk(s[i].key) && Nul !in s[i].value
  }

  /**
   * The set loop, seen at one name `k`: it fails exactly when some entry is refused, the one
   * error is Setenv's; a name the entries do not have is untouched; a name they have ends
   * with its new value, unless the loop failed, in which case it may still be untouched.
   */
  lemma {:induction false} SetAllAt(s: seq<Var>, vars: map<string, string>, k: string)
    requires forall i, j :: 0 <= i < j < |s| ==> s[i].key != s[j].key
    ensures var r := SetAll(s, vars);
      && (r.err.None? <==> AllSettable(s))
      && (r.err.Some? ==> r.err == Some(InvalidArgument))
      && ((forall i :: 0 <= i < |s| ==> s[i].key != k) ==> (k in r.vars <==> k in vars) && (k in vars ==> r.vars[k] == vars[k]))
      && (forall i :: 0 <= i < |s| && s[i].key == k ==>
            || (k in r.vars && r.vars[k] == s[i].value)
            || (r.err.Some? && (k in r.vars <==> k in vars) && (k in vars ==> r.vars[k] == vars[k])))
    decreases |s|
  {
    if s != [] {
      var t := s[1..];
      var r := SetAll(s, vars);
      if NameOk(s[0].key) && Nul !in s[0].value {
        var v1 := vars[s[0].key := s[0].value];
        SetAllAt(t, v1, k);
        assert r == SetAll(t, v1);
        assert AllSettable(s) <==> AllSettable(t) by {
          if AllSettable(t) {
            forall i | 0 <= i < |s| ensures NameOk(s[i].key) && Nul !in s[i].value {
              if i > 0 { assert s[i] == t[i - 1]; }
            }
          }
        }
        forall i | 0 <= i < |s| && s[i].key == k
          ensures || (k in r.vars && r.vars[k] == s[i].value)
                  || (r.err.Some? && (k in r.vars <==> k in vars) && (k in vars ==> r.vars[k] == vars[k]))
        {
          if i > 0 {
            assert s[i] == t[i - 1];
          } else {
            forall j | 0 <= j < |t| ensures t[j].key != k {
              assert t[j] == s[j + 1];
            }
          }
        }
        forall i | 0 <= i < |t| && t[i].key == k ensures s[i + 1].key == k { }
      }
    }
  }

  /** The set loop over a listing of the set map, seen at one name `k`. */
  lemma SetListingAt(setMap: map<string, string>, setOrder: seq<Var>, base: map<string, string>, k: string)
    requires Listing(setOrder, setMap)
    ensures var r := SetAll(setOrder, base);
      && (k !in setMap ==> (k in r.vars <==> k in base) && (k in r.vars ==> r.vars[k] == base[k]))
      && (k in setMap ==> || (k in r.vars && r.vars[k] == setMap[k])
                          || (r.err.Some? && (k in r.vars <==> k in base) && (k in r.vars ==> r.vars[k] == base[k])))
  {
    SetAllAt(setOrder, base, k);
    if k in setMap {
      var i :| 0 <= i < |setOrder| && setOrder[i].key == k;
    }
  }

  /** Setenv accepts every entry of a listing exactly when it accepts every entry of the map. */
  lemma SettableListing(setMap: map<string, string>, setOrder: seq<Var>)
    requires Listing(setOrder, setMap)
    ensures AllSettable(setOrder) <==> forall k :: k in setMap ==> NameOk(k) && Nul !in setMap[k]
  {
    if AllSettable(setOrder) {
      forall k | k in setMap ensures NameOk(k) && Nul !in setMap[k] {
        var i :| 0 <= i < |setOrder| && setOrder[i].key == k;
      }
    }
  }

  /**
   * unsetAndSetEnv over any listing of the set map: it succeeds exactly when Setenv accepts
   * every entry, and then the environment is the old one without the unset names, overlaid
   * with the set map (a name in both maps ends with its set value). Whether it fails or not,
   * a name in neither map keeps its value, a name only in the unset map is gone, and a name
   * in the set map holds its new value or, after a failure, what the unset loop left.
   */
  lemma UnsetAndSetEffect(unset: set<string>, setMap: map<string, string>, setOrder: seq<Var>, vars: map<string, string>)
    requires Listing(setOrder, setMap)
    ensures var r := UnsetAndSetSpec(unset, setOrder, vars);
      && (r.err.None? <==> forall k :: k in setMap ==> NameOk(k) && Nul !in setMap[k])
      && (r.err.Some? ==> r.err == Some(InvalidArgument))
      && (r.err.None? ==> r.vars == (vars - unset) + setMap)
      && (forall k :: k !in setMap ==> (k in r.vars <==> k in vars && k !in unset) && (k in r.vars ==> r.vars[k] == vars[k]))
      && (forall k :: k in setMap ==>
            || (k in r.vars && r.vars[k] == setMap[k])
            || (r.err.Some? && (k in r.vars <==> k in vars && k !in unset) && (k in r.vars ==> r.vars[k] == vars[k])))
  {
    var base := vars - unset;
    forall k {
      SetListingAt(setMap, setOrder, base, k);
    }
    SetAllAt(setOrder, base, "");
    SettableListing(setMap, setOrder);
    var r := SetAll(setOrder, base);
    if r.err.None? {
      assert r.vars == base + setMap;
    }
  }

  /**
   * unsetAndSetEnv: unset every name of `unset` (its values are not used), then set the
   * entries of `setMap` in the order `setOrder` the range over it produced, returning the
   * error of the first Setenv that fails and skipping the rest.
   */
  method UnsetAndSetEnv(env: Environment, unset: map<string, string>, setMap: map<string, string>)
      returns (err: Option<string>, setOrder: seq<Var>)
    modifies env
    ensures Listing(setOrder, setMap)
    ensures Applied(env.vars, err) == UnsetAndSetSpec(unset.Keys, setOrder, old(env.vars))
  {
    var rest := unset.Keys;
    while rest != {}
      invariant rest <= unset.Keys
      invariant env.vars == old(env.vars) - (unset.Keys - rest)
      decreases |rest|
    {
      var key :| key in rest;
      env.Unsetenv(key);
      rest := rest - {key};
    }
    assert unset.Keys - rest == unset.Keys;
    setOrder := ListMap(setMap);
    ghost var whole := SetAll(setOrder, env.vars);
    var i := 0;
    while i < |setOrder|
      invariant 0 <= i <= |setOrder|
      invariant SetAll(setOrder[i..], env.vars) == whole
    {
      assert setOrder[i..][1..] == setOrder[i + 1..];
      err := env.Setenv(setOrder[i].key, setOrder[i].value);
      if err.Some? {
        return;
      }
      i := i + 1;
    }
    err := None;
  }
}
