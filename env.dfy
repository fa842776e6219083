/**
 * The environment helpers of internal/pkg/util: moving variables to and from a backup name
 * prefix, and clearing them. Each works over a snapshot of the environment taken when it
 * starts, matching on the whole `name=value` entry.
 *
 * The process environment is a map from name to value. os.Environ lists it in an order
 * Go does not specify, so every property here holds for any listing.
 */
module Env {
  import opened Outcomes

  datatype Var = Var(key: string, value: string)

  const Nul: char := 0 as char
  /** The text of os.Setenv's error, a syscall error for EINVAL. */
  const InvalidArgument := "setenv: invalid argument"

  /** The `name=value` form os.Environ lists. */
  function Entry(e: Var): (s: string)
    ensures |s| == |e.key| + 1 + |e.value| && s[|e.key|] == '='
  {
    e.key + "=" + e.value
  }

  /** strings.HasPrefix(s, p). */
  predicate HasPrefix(p: string, s: string) {
    |p| <= |s| && s[..|p|] == p
  }

  /** strings.TrimPrefix(s, p). */
  function TrimPrefix(s: string, p: string): (r: string)
    ensures HasPrefix(p, s) ==> p + r == s
    ensures !HasPrefix(p, s) ==> r == s
  {
    if HasPrefix(p, s) then s[|p|..] else s
  }

  /** strings.SplitN(s, "=", 2): the text before the first '=' and the rest, or s alone. */
  function SplitEntry(s: string): (parts: seq<string>)
    ensures '=' !in s ==> parts == [s]
    ensures '=' in s ==> |parts| == 2 && parts[0] + "=" + parts[1] == s && '=' !in parts[0]
    decreases |s|
  {
    if s == [] then [s]
    else if s[0] == '=' then ["", s[1..]]
    else
      var rest := SplitEntry(s[1..]);
      assert s == [s[0]] + s[1..];
      if |rest| == 1 then [s] else [[s[0]] + rest[0], rest[1]]
  }

  /** An entry whose name has no '=' splits back into its name and its value, which may hold '='. */
  lemma {:induction false} SplitEntryOfEntry(e: Var)
    requires '=' !in e.key
    ensures SplitEntry(Entry(e)) == [e.key, e.value]
    decreases |e.key|
  {
    var s := Entry(e);
    if e.key != [] {
      assert s[1..] == Entry(Var(e.key[1..], e.value));
      SplitEntryOfEntry(Var(e.key[1..], e.value));
      assert [e.key[0]] + e.key[1..] == e.key;
    } else {
      assert s[1..] == e.value;
    }
  }

  /** The names os.Setenv accepts. */
  predicate NameOk(k: string) {
    k != "" && '=' !in k && Nul !in k
  }

  /** os.Setenv's effect: an empty name, or a name with '=' or NUL, or a value with NUL, is refused. */
  function SetVar(vars: map<string, string>, k: string, v: string): (r: map<string, string>)
    ensures NameOk(k) && Nul !in v ==> k in r && r[k] == v
    ensures !(NameOk(k) && Nul !in v) ==> r == vars
    ensures forall j :: j != k ==> (j in r <==> j in vars) && (j in vars ==> r[j] == vars[j])
  {
    if NameOk(k) && Nul !in v then vars[k := v] else vars
  }

  /** The environment as the process can hold it: every name acceptable to Setenv, no value with NUL. */
  predicate EnvOk(vars: map<string, string>) {
    forall k :: k in vars ==> NameOk(k) && Nul !in vars[k]
  }

  /** `s` lists `vars`: every variable exactly once, with its value. */
  predicate Listing(s: seq<Var>, vars: map<string, string>) {
    && (forall i :: 0 <= i < |s| ==> s[i].key in vars && vars[s[i].key] == s[i].value)
    && (forall i, j :: 0 <= i < j < |s| ==> s[i].key != s[j].key)
    && (forall k :: k in vars ==> exists i :: 0 <= i < |s| && s[i].key == k)
  }

  /** Where a matched variable goes: under the backup prefix, or back from under it. */
  datatype Rename = AddPrefix(p: string) | StripPrefix(p: string)

  function Renamed(r: Rename, k: string): string {
    match r
    case AddPrefix(p) => p + k
    case StripPrefix(p) => TrimPrefix(k, p)
  }

  /** One pass of the loop of EnvBackup or EnvRestore over snapshot entry `e`. */
  function MoveStep(vars: map<string, string>, e: Var, prefix: string, rename: Rename): map<string, string> {
    var entry := Entry(e);
    if !HasPrefix(prefix, entry) then vars
    else
      var parts := SplitEntry(entry);
      SetVar(vars, Renamed(rename, parts[0]), parts[1]) - {parts[0]}
  }

  function MoveAll(s: seq<Var>, vars: map<string, string>, prefix: string, rename: Rename): map<string, string>
    decreases |s|
  {
    if s == [] then vars else MoveAll(s[1..], MoveStep(vars, s[0], prefix, rename), prefix, rename)
  }

  /** EnvBackup over `snapshot`: every entry starting with filterPrefix moves to backupPrefix + its name. */
  function BackupSpec(snapshot: seq<Var>, vars: map<string, string>, backupPrefix: string, filterPrefix: string): map<string, string> {
    MoveAll(snapshot, vars, filterPrefix, AddPrefix(backupPrefix))
  }

  /** EnvRestore over `snapshot`: every entry starting with backupPrefix moves to its name without the prefix. */
  function RestoreSpec(snapshot: seq<Var>, vars: map<string, string>, backupPrefix: string): map<string, string> {
    MoveAll(snapshot, vars, backupPrefix, StripPrefix(backupPrefix))
  }

  /** EnvClear over `snapshot`: every entry starting with backupPrefix is unset. */
  function ClearSpec(s: seq<Var>, vars: map<string, string>, backupPrefix: string): map<string, string>
    decreases |s|
  {
    if s == [] then vars
    else
      var entry := Entry(s[0]);
      var next := if HasPrefix(backupPrefix, entry) then vars - {SplitEntry(entry)[0]} else vars;
      ClearSpec(s[1..], next, backupPrefix)
  }

  predicate Picked(e: Var, prefix: string) {
    HasPrefix(prefix, Entry(e))
  }

  /** The moves of one pass do not disturb each other. */
  predicate Independent(s: seq<Var>, prefix: string, rename: Rename) {
    && (forall i :: 0 <= i < |s| ==> '=' !in s[i].key)
    && (forall i, j :: 0 <= i < j < |s| ==> s[i].key != s[j].key)
    && (forall i :: 0 <= i < |s| && Picked(s[i], prefix) ==> NameOk(Renamed(rename, s[i].key)) && Nul !in s[i].value)
    && (forall i, j :: 0 <= i < |s| && 0 <= j < |s| && Picked(s[i], prefix) && Picked(s[j], prefix) ==>
          Renamed(rename, s[i].key) != s[j].key)
    && (forall i, j :: 0 <= i < j < |s| && Picked(s[i], prefix) && Picked(s[j], prefix) ==>
          Renamed(rename, s[i].key) != Renamed(rename, s[j].key))
  }

  ghost function Moved(s: seq<Var>, prefix: string): set<string> {
    set i | 0 <= i < |s| && Picked(s[i], prefix) :: s[i].key
  }

  ghost function Targets(s: seq<Var>, prefix: string, rename: Rename): set<string> {
    set i | 0 <= i < |s| && Picked(s[i], prefix) :: Renamed(rename, s[i].key)
  }

  lemma IndependentTail(s: seq<Var>, prefix: string, rename: Rename)
    requires s != [] && Independent(s, prefix, rename)
    ensures Independent(s[1..], prefix, rename)
  {
    var t := s[1..];
    forall i, j | 0 <= i < |t| && 0 <= j < |t| && Picked(t[i], prefix) && Picked(t[j], prefix)
      ensures Renamed(rename, t[i].key) != t[j].key
    {
      assert t[i] == s[i + 1] && t[j] == s[j + 1];
    }
    forall i, j | 0 <= i < j < |t| && Picked(t[i], prefix) && Picked(t[j], prefix)
      ensures Renamed(rename, t[i].key) != Renamed(rename, t[j].key)
    {
      assert t[i] == s[i + 1] && t[j] == s[j + 1];
    }
  }

  lemma MovedCons(s: seq<Var>, prefix: string)
    requires s != []
    ensures Moved(s, prefix) == (if Picked(s[0], prefix) then {s[0].key} else {}) + Moved(s[1..], prefix)
  {
    var t := s[1..];
    forall x | x in Moved(t, prefix) ensures x in Moved(s, prefix) {
      var i :| 0 <= i < |t| && Picked(t[i], prefix) && t[i].key == x;
      assert s[i + 1] == t[i];
    }
    forall x | x in Moved(s, prefix) && x != s[0].key ensures x in Moved(t, prefix) {
      var i :| 0 <= i < |s| && Picked(s[i], prefix) && s[i].key == x;
      assert t[i - 1] == s[i];
    }
    if !Picked(s[0], prefix) {
      forall x | x in Moved(s, prefix) ensures x in Moved(t, prefix) {
        var i :| 0 <= i < |s| && Picked(s[i], prefix) && s[i].key == x;
        assert t[i - 1] == s[i];
      }
    }
  }

  lemma TargetsCons(s: seq<Var>, prefix: string, rename: Rename)
    requires s != []
    ensures Targets(s, prefix, rename)
         == (if Picked(s[0], prefix) then {Renamed(rename, s[0].key)} else {}) + Targets(s[1..], prefix, rename)
  {
    var t := s[1..];
    forall x | x in Targets(t, prefix, rename) ensures x in Targets(s, prefix, rename) {
      var i :| 0 <= i < |t| && Picked(t[i], prefix) && Renamed(rename, t[i].key) == x;
      assert s[i + 1] == t[i];
    }
    forall x | x in Targets(s, prefix, rename) && !(Picked(s[0], prefix) && x == Renamed(rename, s[0].key))
      ensures x in Targets(t, prefix, rename)
    {
      var i :| 0 <= i < |s| && Picked(s[i], prefix) && Renamed(rename, s[i].key) == x;
      assert i != 0;
      assert t[i - 1] == s[i];
    }
  }

  /** The first move of an independent pass is not undone or overwritten by the later ones. */
  lemma HeadApart(s: seq<Var>, prefix: string, rename: Rename)
    requires s != [] && Independent(s, prefix, rename) && Picked(s[0], prefix)
    ensures var t := s[1..]; var x := Renamed(rename, s[0].key);
      && x !in Moved(t, prefix) && x !in Targets(t, prefix, rename)
      && s[0].key !in Targets(t, prefix, rename) && s[0].key !in Moved(t, prefix)
  {
    var t := s[1..];
    forall j | 0 <= j < |t| && Picked(t[j], prefix)
      ensures t[j].key != Renamed(rename, s[0].key) && Renamed(rename, t[j].key) != Renamed(rename, s[0].key)
      ensures Renamed(rename, t[j].key) != s[0].key && t[j].key != s[0].key
    {
      assert t[j] == s[j + 1];
    }
  }

  /**
   * A pass whose moves are independent, seen at one name `k`: a matched variable is gone,
   * its snapshot value sits under its new name, and every other name is as before.
   */
  lemma {:induction false} MoveAllAt(s: seq<Var>, vars: map<string, string>, prefix: string, rename: Rename, k: string)
    requires Independent(s, prefix, rename)
    ensures var r := MoveAll(s, vars, prefix, rename);
      && (forall i :: 0 <= i < |s| && Picked(s[i], prefix) && Renamed(rename, s[i].key) == k ==> k in r && r[k] == s[i].value)
      && (k in Moved(s, prefix) ==> k !in r)
      && (k !in Moved(s, prefix) && k !in Targets(s, prefix, rename) ==> (k in r <==> k in vars) && (k in vars ==> r[k] == vars[k]))
    decreases |s|
  {
    if s != [] {
      var e := s[0];
      var t := s[1..];
      SplitEntryOfEntry(e);
      var v1 := MoveStep(vars, e, prefix, rename);
      IndependentTail(s, prefix, rename);
      MoveAllAt(t, v1, prefix, rename, k);
      MovedCons(s, prefix);
      TargetsCons(s, prefix, rename);
      var r := MoveAll(s, vars, prefix, rename);
      assert r == MoveAll(t, v1, prefix, rename);
      if Picked(e, prefix) {
        HeadApart(s, prefix, rename);
      }
      forall i | 0 <= i < |s| && Picked(s[i], prefix) && Renamed(rename, s[i].key) == k ensures k in r && r[k] == s[i].value {
        if i > 0 { assert s[i] == t[i - 1]; }
      }
    }
  }

  /** With an empty backup prefix EnvBackup deletes what it matches: it is EnvClear with the filter prefix. */
  lemma {:induction false} EmptyBackupPrefixClears(s: seq<Var>, vars: map<string, string>, filterPrefix: string)
    ensures BackupSpec(s, vars, "", filterPrefix) == ClearSpec(s, vars, filterPrefix)
    decreases |s|
  {
    if s != [] {
      var entry := Entry(s[0]);
      var next := if HasPrefix(filterPrefix, entry) then vars - {SplitEntry(entry)[0]} else vars;
      assert MoveStep(vars, s[0], filterPrefix, AddPrefix("")) == next by {
        if HasPrefix(filterPrefix, entry) {
          var parts := SplitEntry(entry);
          assert Renamed(AddPrefix(""), parts[0]) == parts[0];
        }
      }
      EmptyBackupPrefixClears(s[1..], next, filterPrefix);
    }
  }

  /** EnvClear, seen at one name: it is gone exactly when some matched snapshot entry has it. */
  lemma {:induction false} ClearAt(s: seq<Var>, vars: map<string, string>, prefix: string, k: string)
    requires forall i :: 0 <= i < |s| ==> '=' !in s[i].key
    ensures var r := ClearSpec(s, vars, prefix);
      (k in r <==> k in vars && k !in Moved(s, prefix)) && (k in r ==> r[k] == vars[k])
    decreases |s|
  {
    if s != [] {
      SplitEntryOfEntry(s[0]);
      var next := if Picked(s[0], prefix) then vars - {s[0].key} else vars;
      ClearAt(s[1..], next, prefix, k);
      MovedCons(s, prefix);
    }
  }

  /**
   * EnvClear over a listing of the environment (of names without '=') removes exactly the
   * variables whose entry starts with the prefix; all others keep their values.
   */
  lemma ClearRemovesExactly(s: seq<Var>, vars: map<string, string>, prefix: string)
    requires Listing(s, vars) && forall k :: k in vars ==> '=' !in k
    ensures var r := ClearSpec(s, vars, prefix);
      && (forall k :: k in r <==> k in vars && !HasPrefix(prefix, Entry(Var(k, vars[k]))))
      && (forall k :: k in r ==> r[k] == vars[k])
  {
    var r := ClearSpec(s, vars, prefix);
    forall k ensures (k in r <==> k in vars && !HasPrefix(prefix, Entry(Var(k, vars[k])))) && (k in r ==> r[k] == vars[k]) {
      ClearAt(s, vars, prefix, k);
      if k in vars {
        MovedIsMatched(s, vars, prefix, k);
      }
    }
  }

  /** Over a listing, a name is matched in the pass exactly when its entry starts with the prefix. */
  lemma MovedIsMatched(s: seq<Var>, vars: map<string, string>, prefix: string, k: string)
    requires Listing(s, vars) && k in vars
    ensures k in Moved(s, prefix) <==> HasPrefix(prefix, Entry(Var(k, vars[k])))
    ensures exists i :: 0 <= i < |s| && s[i] == Var(k, vars[k])
  {
    var i :| 0 <= i < |s| && s[i].key == k;
    assert s[i] == Var(k, vars[k]);
    if k in Moved(s, prefix) {
      var j :| 0 <= j < |s| && Picked(s[j], prefix) && s[j].key == k;
      assert i == j;
    }
  }

  /** With a prefix that has no '=', a name starting with it gives an entry starting with it. */
  lemma PrefixOfName(p: string, e: Var)
    requires HasPrefix(p, e.key)
    ensures HasPrefix(p, Entry(e))
  {
    assert Entry(e)[..|p|] == e.key[..|p|];
  }

  lemma AddPrefixInjective(p: string, a: string, b: string)
    requires p + a == p + b
    ensures a == b
  {
    assert a == (p + a)[|p|..];
    assert b == (p + b)[|p|..];
  }

  /** Whether variable `k` is one EnvBackup with filter prefix `f` moves. */
  predicate Matched(vars: map<string, string>, f: string, k: string) {
    k in vars && HasPrefix(f, Entry(Var(k, vars[k])))
  }

  /** No variable's entry starts with the backup prefix. */
  predicate NoneStartWith(vars: map<string, string>, b: string) {
    forall k :: k in vars ==> !HasPrefix(b, Entry(Var(k, vars[k])))
  }

  lemma NameStartsNot(vars: map<string, string>, b: string, k: string)
    requires k in vars && NoneStartWith(vars, b)
    ensures !HasPrefix(b, k)
  {
    if HasPrefix(b, k) { PrefixOfName(b, Var(k, vars[k])); }
  }

  lemma BackupIndependent(vars: map<string, string>, b: string, f: string, s: seq<Var>)
    requires EnvOk(vars) && Listing(s, vars)
    requires b != "" && '=' !in b && Nul !in b && NoneStartWith(vars, b)
    ensures Independent(s, f, AddPrefix(b))
  {
    var rename := AddPrefix(b);
    forall i | 0 <= i < |s| ensures !HasPrefix(b, s[i].key) && '=' !in s[i].key {
      NameStartsNot(vars, b, s[i].key);
    }
    forall i, j | 0 <= i < |s| && 0 <= j < |s| && Picked(s[i], f) && Picked(s[j], f)
      ensures Renamed(rename, s[i].key) != s[j].key
    {
      assert HasPrefix(b, b + s[i].key);
    }
    forall i, j | 0 <= i < j < |s| && Picked(s[i], f) && Picked(s[j], f)
      ensures Renamed(rename, s[i].key) != Renamed(rename, s[j].key)
    {
      if b + s[i].key == b + s[j].key { AddPrefixInjective(b, s[i].key, s[j].key); }
    }
  }

  /** EnvBackup under the conditions of the round trip, seen at one name `k`. */
  lemma BackupAt(vars: map<string, string>, b: string, f: string, s: seq<Var>, k: string)
    requires EnvOk(vars) && Listing(s, vars)
    requires b != "" && '=' !in b && Nul !in b && NoneStartWith(vars, b)
    ensures var r := BackupSpec(s, vars, b, f);
      && (Matched(vars, f, k) ==> k !in r && b + k in r && r[b + k] == vars[k])
      && (k in vars && !Matched(vars, f, k) ==> k in r && r[k] == vars[k])
      && (k in r ==> (k in vars && !Matched(vars, f, k)) || (HasPrefix(b, k) && Matched(vars, f, k[|b|..])))
  {
    var rename := AddPrefix(b);
    BackupIndependent(vars, b, f, s);
    MoveAllAt(s, vars, f, rename, k);
    MoveAllAt(s, vars, f, rename, b + k);
    var r := BackupSpec(s, vars, b, f);
    if k in vars {
      MovedIsMatched(s, vars, f, k);
      NameStartsNot(vars, b, k);
      forall i | 0 <= i < |s| && Picked(s[i], f) ensures Renamed(rename, s[i].key) != k {
        assert HasPrefix(b, b + s[i].key);
      }
      var i :| 0 <= i < |s| && s[i] == Var(k, vars[k]);
      assert Renamed(rename, s[i].key) == b + k;
    }
    if k in Targets(s, f, rename) {
      var i :| 0 <= i < |s| && Picked(s[i], f) && b + s[i].key == k;
      assert k[|b|..] == s[i].key;
      assert HasPrefix(b, b + s[i].key);
    }
  }

  /**
   * EnvBackup under the conditions of the round trip: every matched variable is gone and
   * its value sits under backupPrefix + its name; every other variable is unchanged; and
   * nothing else exists afterwards. Names it creates are not visited again.
   */
  lemma BackupPointwise(vars: map<string, string>, b: string, f: string, s: seq<Var>)
    requires EnvOk(vars) && Listing(s, vars)
    requires b != "" && '=' !in b && Nul !in b && NoneStartWith(vars, b)
    ensures var r := BackupSpec(s, vars, b, f);
      && (forall k :: Matched(vars, f, k) ==> k !in r && b + k in r && r[b + k] == vars[k])
      && (forall k :: k in vars && !Matched(vars, f, k) ==> k in r && r[k] == vars[k])
      && (forall k :: k in r ==>
            || (k in vars && !Matched(vars, f, k))
            || (HasPrefix(b, k) && Matched(vars, f, k[|b|..])))
  {
    forall k {
      BackupAt(vars, b, f, s, k);
    }
  }

  /** An entry listed after EnvBackup, under the conditions of the round trip. */
  lemma RestoreEntry(vars: map<string, string>, b: string, f: string, s0: seq<Var>, e: Var)
    requires EnvOk(vars) && Listing(s0, vars)
    requires b != "" && '=' !in b && Nul !in b && NoneStartWith(vars, b)
    requires var mid := BackupSpec(s0, vars, b, f); e.key in mid && mid[e.key] == e.value
    ensures '=' !in e.key
    ensures Picked(e, b) <==> HasPrefix(b, e.key)
    ensures Picked(e, b) ==> var k := e.key[|b|..];
      && Matched(vars, f, k) && e.value == vars[k] && !HasPrefix(b, k) && NameOk(k) && Nul !in e.value
      && Renamed(StripPrefix(b), e.key) == k
  {
    BackupAt(vars, b, f, s0, e.key);
    if HasPrefix(b, e.key) {
      var k := e.key[|b|..];
      assert b + k == e.key;
      PrefixOfName(b, e);
      if e.key in vars {
        NameStartsNot(vars, b, e.key);
      }
      BackupAt(vars, b, f, s0, k);
      NameStartsNot(vars, b, k);
    } else {
      assert e == Var(e.key, vars[e.key]);
    }
  }

  lemma RestoreIndependent(vars: map<string, string>, b: string, f: string, s0: seq<Var>, s1: seq<Var>)
    requires EnvOk(vars) && Listing(s0, vars)
    requires b != "" && '=' !in b && Nul !in b && NoneStartWith(vars, b)
    requires Listing(s1, BackupSpec(s0, vars, b, f))
    ensures Independent(s1, b, StripPrefix(b))
  {
    forall i | 0 <= i < |s1| ensures '=' !in s1[i].key {
      RestoreEntry(vars, b, f, s0, s1[i]);
    }
    forall i | 0 <= i < |s1| && Picked(s1[i], b)
      ensures NameOk(Renamed(StripPrefix(b), s1[i].key)) && Nul !in s1[i].value
    {
      RestoreEntry(vars, b, f, s0, s1[i]);
    }
    forall i, j | 0 <= i < |s1| && 0 <= j < |s1| && Picked(s1[i], b) && Picked(s1[j], b)
      ensures Renamed(StripPrefix(b), s1[i].key) != s1[j].key
    {
      RestoreEntry(vars, b, f, s0, s1[i]);
      RestoreEntry(vars, b, f, s0, s1[j]);
    }
    forall i, j | 0 <= i < j < |s1| && Picked(s1[i], b) && Picked(s1[j], b)
      ensures Renamed(StripPrefix(b), s1[i].key) != Renamed(StripPrefix(b), s1[j].key)
    {
      RestoreEntry(vars, b, f, s0, s1[i]);
      RestoreEntry(vars, b, f, s0, s1[j]);
      assert s1[i].key == b + s1[i].key[|b|..] && s1[j].key == b + s1[j].key[|b|..];
    }
  }

  /** The round trip, seen at one name. */
  lemma RoundTripAt(vars: map<string, string>, b: string, f: string, s0: seq<Var>, s1: seq<Var>, k: string)
    requires EnvOk(vars) && Listing(s0, vars)
    requires b != "" && '=' !in b && Nul !in b && NoneStartWith(vars, b)
    requires Listing(s1, BackupSpec(s0, vars, b, f))
    ensures var r := RestoreSpec(s1, BackupSpec(s0, vars, b, f), b);
      (k in r <==> k in vars) && (k in vars ==> r[k] == vars[k])
  {
    var mid := BackupSpec(s0, vars, b, f);
    var rename := StripPrefix(b);
    RestoreIndependent(vars, b, f, s0, s1);
    MoveAllAt(s1, mid, b, rename, k);
    BackupAt(vars, b, f, s0, k);
    var r := RestoreSpec(s1, mid, b);
    if Matched(vars, f, k) {
      var i :| 0 <= i < |s1| && s1[i].key == b + k;
      RestoreEntry(vars, b, f, s0, s1[i]);
      assert s1[i].key[|b|..] == k;
      assert k in Targets(s1, b, rename);
    }
    if k in mid && HasPrefix(b, k) {
      var i :| 0 <= i < |s1| && s1[i].key == k;
      RestoreEntry(vars, b, f, s0, s1[i]);
      assert k in Moved(s1, b);
    }
    if k in Targets(s1, b, rename) {
      var i :| 0 <= i < |s1| && Picked(s1[i], b) && Renamed(rename, s1[i].key) == k;
      RestoreEntry(vars, b, f, s0, s1[i]);
    }
    if k in Moved(s1, b) {
      var i :| 0 <= i < |s1| && Picked(s1[i], b) && s1[i].key == k;
      RestoreEntry(vars, b, f, s0, s1[i]);
      if k in vars { NameStartsNot(vars, b, k); }
    }
  }

  /**
   * EnvBackup(b, f) then EnvRestore(b) gives back the original environment when b is
   * non-empty, holds no '=' (or NUL), and no variable starts with b; whatever order the two
   * snapshots list the variables in.
   */
  lemma BackupRestoreRoundTrip(vars: map<string, string>, b: string, f: string, s0: seq<Var>, s1: seq<Var>)
    requires EnvOk(vars) && Listing(s0, vars)
    requires b != "" && '=' !in b && Nul !in b && NoneStartWith(vars, b)
    requires Listing(s1, BackupSpec(s0, vars, b, f))
    ensures RestoreSpec(s1, BackupSpec(s0, vars, b, f), b) == vars
  {
    var r := RestoreSpec(s1, BackupSpec(s0, vars, b, f), b);
    forall k ensures (k in r <==> k in vars) && (k in vars ==> r[k] == vars[k]) {
      RoundTripAt(vars, b, f, s0, s1, k);
    }
  }

  /** `s` lists the variables of `vars` that are no longer in `rest`, which holds the others. */
  ghost predicate ListedSoFar(s: seq<Var>, rest: map<string, string>, vars: map<string, string>) {
    && (forall k :: k in rest ==> k in vars && rest[k] == vars[k])
    && (forall i :: 0 <= i < |s| ==> s[i].key in vars && vars[s[i].key] == s[i].value && s[i].key !in rest)
    && (forall i, j :: 0 <= i < j < |s| ==> s[i].key != s[j].key)
    && (forall k :: k in vars ==> k in rest || exists i :: 0 <= i < |s| && s[i].key == k)
  }

  lemma ListedSoFarStep(s: seq<Var>, rest: map<string, string>, vars: map<string, string>, k: string)
    requires ListedSoFar(s, rest, vars) && k in rest
    ensures ListedSoFar(s + [Var(k, rest[k])], rest - {k}, vars)
  {
    var s1 := s + [Var(k, rest[k])];
    forall j | j in vars && j !in rest - {k} ensures exists i :: 0 <= i < |s1| && s1[i].key == j {
      if j == k {
        assert s1[|s|].key == j;
      } else {
        var i :| 0 <= i < |s| && s[i].key == j;
        assert s1[i] == s[i];
      }
    }
  }

  /** Ranging over a Go map: each entry once, in an order the caller cannot rely on. */
  method ListMap(m: map<string, string>) returns (s: seq<Var>)
    ensures Listing(s, m)
  {
    s := [];
    var rest := m;
    while rest != map[]
      invariant ListedSoFar(s, rest, m)
      decreases |rest|
    {
      var k :| k in rest;
      ListedSoFarStep(s, rest, m, k);
      s := s + [Var(k, rest[k])];
      rest := rest - {k};
    }
  }

  /** The process environment. */
  class Environment {
    var vars: map<string, string>

    constructor (vars: map<string, string>)
      ensures this.vars == vars
    {
      this.vars := vars;
    }

    /** os.Setenv. */
    method Setenv(key: string, value: string) returns (err: Option<string>)
      modifies this
      ensures vars == SetVar(old(vars), key, value)
      ensures err.Some? <==> !(NameOk(key) && Nul !in value)
      ensures err.Some? ==> err == Some(InvalidArgument)
    {
      if !(NameOk(key) && Nul !in value) {
        return Some(InvalidArgument);
      }
      vars := vars[key := value];
      return None;
    }

    /** os.Unsetenv, which does not fail on the platforms this program targets. */
    method Unsetenv(key: string)
      modifies this
      ensures vars == old(vars) - {key}
    {
      vars := vars - {key};
    }

    /** os.Environ: a copy of the variables, in an order the caller cannot rely on. */
    method Environ() returns (snapshot: seq<Var>)
      ensures Listing(snapshot, vars)
    {
      snapshot := ListMap(vars);
    }

    method EnvBackup(backupPrefix: string, filterPrefix: string) returns (ghost snapshot: seq<Var>)
      modifies this
      ensures Listing(snapshot, old(vars))
      ensures vars == BackupSpec(snapshot, old(vars), backupPrefix, filterPrefix)
    {
      var environ := Environ();
      snapshot := environ;
      var i := 0;
      while i < |environ|
        invariant 0 <= i <= |environ|
        invariant MoveAll(environ[i..], vars, filterPrefix, AddPrefix(backupPrefix))
               == BackupSpec(environ, old(vars), backupPrefix, filterPrefix)
      {
        assert environ[i..][0] == environ[i] && environ[i..][1..] == environ[i + 1..];
        ghost var before := vars;
        var e := Entry(environ[i]);
        if HasPrefix(filterPrefix, e) {
          var s := SplitEntry(e);
          var k := s[0];
          var v := s[1];
          var _ := Setenv(backupPrefix + k, v);
          Unsetenv(k);
        }
        assert vars == MoveStep(before, environ[i], filterPrefix, AddPrefix(backupPrefix));
        i := i + 1;
      }
    }

    method EnvRestore(backupPrefix: string) returns (ghost snapshot: seq<Var>)
      modifies this
      ensures Listing(snapshot, old(vars))
      ensures vars == RestoreSpec(snapshot, old(vars), backupPrefix)
    {
      var environ := Environ();
      snapshot := environ;
      var i := 0;
      while i < |environ|
        invariant 0 <= i <= |environ|
        invariant MoveAll(environ[i..], vars, backupPrefix, StripPrefix(backupPrefix))
               == RestoreSpec(environ, old(vars), backupPrefix)
      {
        assert environ[i..][0] == environ[i] && environ[i..][1..] == environ[i + 1..];
        ghost var before := vars;
        var e := Entry(environ[i]);
        if HasPrefix(backupPrefix, e) {
          var s := SplitEntry(e);
          var k := s[0];
          var v := s[1];
          var rst := TrimPrefix(k, backupPrefix);
          var _ := Setenv(rst, v);
          Unsetenv(k);
        }
        assert vars == MoveStep(before, environ[i], backupPrefix, StripPrefix(backupPrefix));
        i := i + 1;
      }
    }

    method EnvClear(backupPrefix: string) returns (ghost snapshot: seq<Var>)
      modifies this
      ensures Listing(snapshot, old(vars))
      ensures vars == ClearSpec(snapshot, old(vars), backupPrefix)
    {
      var environ := Environ();
      snapshot := environ;
      var i := 0;
      while i < |environ|
        invariant 0 <= i <= |environ|
        invariant ClearSpec(environ[i..], vars, backupPrefix) == ClearSpec(environ, old(vars), backupPrefix)
      {
        assert environ[i..][0] == environ[i] && environ[i..][1..] == environ[i + 1..];
        var e := Entry(environ[i]);
        if HasPrefix(backupPrefix, e) {
          var s := SplitEntry(e);
          var k := s[0];
          Unsetenv(k);
        }
        i := i + 1;
      }
    }
  }
}
