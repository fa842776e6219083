/**
 * The Vault KV (version 2) save method of internal/pkg/save: the init response as JSON,
 * and the root token on its own, under two keys of one KV secret.
 */
module VaultKvSave {
  import opened Outcomes
  import opened Codec
  import opened Save
  import FileSystem

  /** A value inside a secret's data, as the Go client decodes it from JSON. */
  datatype Value = Str(text: Text<InitResponse>) | Obj(fields: map<string, Value>) | Other

  const DefaultMountPath := "secret"
  const PermissionDenied := "permission denied"

  /** What Logical().Read returns: the secret's data, if any, and the error, if any. */
  datatype ReadReply = ReadReply(secret: Option<map<string, Value>>, err: Option<string>)

  /** The fields of VaultKVSaveMethod that the functional options may set. */
  datatype KvSettings = KvSettings(secretPath: string, mountPath: string, initResponseKey: string, rootTokenKey: string)

  function ApplyKvOptions(s: KvSettings, options: seq<KvSettings -> KvSettings>): KvSettings
    decreases |options|
  {
    if options == [] then s else ApplyKvOptions(options[0](s), options[1..])
  }

  /** The defaults applied after the options: each empty setting takes its default, others are kept. */
  function WithDefaults(s: KvSettings): (r: KvSettings)
    ensures r.secretPath == s.secretPath
    ensures r.mountPath != "" && r.initResponseKey != "" && r.rootTokenKey != ""
    ensures s.mountPath != "" ==> r.mountPath == s.mountPath
    ensures s.initResponseKey != "" ==> r.initResponseKey == s.initResponseKey
    ensures s.rootTokenKey != "" ==> r.rootTokenKey == s.rootTokenKey
    ensures s.mountPath == "" ==> r.mountPath == DefaultMountPath
    ensures s.initResponseKey == "" ==> r.initResponseKey == DefaultInitResponseKey
    ensures s.rootTokenKey == "" ==> r.rootTokenKey == DefaultRootTokenKey
  {
    KvSettings(
      s.secretPath,
      if s.mountPath == "" then DefaultMountPath else s.mountPath,
      if s.initResponseKey == "" then DefaultInitResponseKey else s.initResponseKey,
      if s.rootTokenKey == "" then DefaultRootTokenKey else s.rootTokenKey)
  }

  /** The elements path.Join keeps: the non-empty ones, in order. */
  function NonEmpty(parts: seq<string>): (r: seq<string>)
    ensures forall i :: 0 <= i < |r| ==> r[i] != ""
    ensures r == [] <==> forall i :: 0 <= i < |parts| ==> parts[i] == ""
    decreases |parts|
  {
    if parts == [] then []
    else if parts[0] == "" then NonEmpty(parts[1..])
    else [parts[0]] + NonEmpty(parts[1..])
  }

  /**
   * path.Clean on one more slash-free segment of a relative path: "." is dropped, ".."
   * removes the last kept segment unless that is itself "..", and is kept when there is
   * nothing to remove; any other segment is kept.
   */
  function CleanStep(kept: seq<string>, seg: string): (r: seq<string>)
    ensures seg != "" && (forall i :: 0 <= i < |kept| ==> kept[i] != "") ==> forall i :: 0 <= i < |r| ==> r[i] != ""
  {
    if seg == "." then kept
    else if seg == ".." then
      if |kept| > 0 && kept[|kept| - 1] != ".." then kept[..|kept| - 1] else kept + [".."]
    else kept + [seg]
  }

  function CleanAll(kept: seq<string>, segs: seq<string>): (r: seq<string>)
    ensures (forall i :: 0 <= i < |kept| ==> kept[i] != "") && (forall i :: 0 <= i < |segs| ==> segs[i] != "") ==>
              forall i :: 0 <= i < |r| ==> r[i] != ""
    decreases |segs|
  {
    if segs == [] then kept else CleanAll(CleanStep(kept, segs[0]), segs[1..])
  }

  /** Segments separated by "/". */
  function Slashed(segs: seq<string>): string
    decreases |segs|
  {
    if segs == [] then ""
    else if |segs| == 1 then segs[0]
    else segs[0] + "/" + Slashed(segs[1..])
  }

  /** A segment that Clean keeps as it is. */
  predicate Plain(seg: string) {
    seg != "" && seg != "." && seg != ".."
  }

  /**
   * path.Join for elements without slashes: "" when every element is empty; otherwise the
   * non-empty elements joined by "/" and cleaned, which is "." when nothing is left.
   */
  function JoinPath(parts: seq<string>): (p: string)
    ensures p == "" <==> forall i :: 0 <= i < |parts| ==> parts[i] == ""
  {
    var segs := NonEmpty(parts);
    if segs == [] then ""
    else
      var cleaned := CleanAll([], segs);
      if cleaned == [] then "."
      else
        SlashedNonEmpty(cleaned);
        Slashed(cleaned)
  }

  lemma {:induction false} SlashedNonEmpty(segs: seq<string>)
    requires segs != [] && segs[0] != ""
    ensures Slashed(segs) != ""
  {
    if |segs| > 1 {
      assert Slashed(segs) == segs[0] + "/" + Slashed(segs[1..]);
    }
  }

  /** Cleaning three segments is three steps. */
  lemma CleanThree(a: string, b: string, c: string)
    ensures CleanAll([], [a, b, c]) == CleanStep(CleanStep(CleanStep([], a), b), c)
  {
    var t := [a, b, c];
    assert t[1..] == [b, c] && t[1..][1..] == [c] && t[1..][1..][1..] == [];
    var k1 := CleanStep([], a);
    var k2 := CleanStep(k1, b);
    assert CleanAll([], t) == CleanAll(k1, [b, c]);
    assert CleanAll(k1, [b, c]) == CleanAll(k2, [c]);
    assert CleanAll(k2, [c]) == CleanAll(CleanStep(k2, c), []);
  }

  /** The elements of the full path that path.Join keeps. */
  lemma NonEmptyThree(a: string, c: string)
    ensures NonEmpty([a, "data", c]) == (if a == "" then [] else [a]) + ["data"] + (if c == "" then [] else [c])
  {
    var t := [a, "data", c];
    assert t[1..] == ["data", c] && t[1..][1..] == [c] && t[1..][1..][1..] == [];
    var last: seq<string> := if c == "" then [] else [c];
    assert NonEmpty([c]) == last by {
      assert NonEmpty([c][1..]) == [];
      if c != "" { assert [c] + [] == [c]; }
    }
    assert NonEmpty(["data", c]) == ["data"] + last;
  }

  /** Clean keeps plain segments one by one. */
  lemma {:induction false} CleanAllPlain(kept: seq<string>, segs: seq<string>)
    requires forall i :: 0 <= i < |segs| ==> Plain(segs[i])
    ensures CleanAll(kept, segs) == kept + segs
    decreases |segs|
  {
    if segs != [] {
      CleanAllPlain(kept + [segs[0]], segs[1..]);
      assert kept + [segs[0]] + segs[1..] == kept + segs;
    }
  }

  /** `{{ mountPath }}/data/{{ secretPath }}`, the location Save and Load both use. */
  function FullPath(s: KvSettings): string {
    JoinPath([s.mountPath, "data", s.secretPath])
  }

  /** Under a plain mount path, the location is the mount path, "/data", and the secret path, when that is plain or empty. */
  lemma FullPathShape(s: KvSettings)
    requires Plain(s.mountPath) && (s.secretPath == "" || Plain(s.secretPath))
    ensures FullPath(s) == s.mountPath + "/data" + (if s.secretPath == "" then "" else "/" + s.secretPath)
  {
    var m, x := s.mountPath, s.secretPath;
    NonEmptyThree(m, x);
    if x == "" {
      assert NonEmpty([m, "data", x]) == [m, "data"];
      CleanAllPlain([], [m, "data"]);
      assert [] + [m, "data"] == [m, "data"];
      SlashedTwo(m, "data");
    } else {
      assert NonEmpty([m, "data", x]) == [m, "data", x];
      CleanAllPlain([], [m, "data", x]);
      assert [] + [m, "data", x] == [m, "data", x];
      SlashedThree(m, "data", x);
      assert m + "/" + ("data" + "/" + x) == m + "/data" + ("/" + x);
    }
  }

  lemma SlashedTwo(a: string, b: string)
    ensures Slashed([a, b]) == a + "/" + b
  {
    assert [a, b][1..] == [b];
  }

  lemma SlashedThree(a: string, b: string, c: string)
    ensures Slashed([a, b, c]) == a + "/" + (b + "/" + c)
  {
    assert [a, b, c][1..] == [b, c];
    SlashedTwo(b, c);
  }

  /**
   * Clean acts on "." and ".." elements: under a plain mount path a secret path "." is
   * dropped and ".." cancels the "data" element; a mount path "." is dropped and ".." is
   * kept in front.
   */
  lemma FullPathDots(s: KvSettings)
    ensures Plain(s.mountPath) && s.secretPath == "." ==> FullPath(s) == s.mountPath + "/data"
    ensures Plain(s.mountPath) && s.secretPath == ".." ==> FullPath(s) == s.mountPath
    ensures s.mountPath == "." && Plain(s.secretPath) ==> FullPath(s) == "data/" + s.secretPath
    ensures s.mountPath == ".." && Plain(s.secretPath) ==> FullPath(s) == "../data/" + s.secretPath
  {
    var m, x := s.mountPath, s.secretPath;
    if m != "" && x != "" {
      NonEmptyThree(m, x);
      assert NonEmpty([m, "data", x]) == [m, "data", x];
      CleanThree(m, "data", x);
      if Plain(m) && x == "." {
        assert CleanAll([], [m, "data", x]) == [m, "data"];
        SlashedTwo(m, "data");
      } else if Plain(m) && x == ".." {
        assert CleanStep([m, "data"], x) == [m];
      } else if m == "." && Plain(x) {
        assert CleanAll([], [m, "data", x]) == ["data", x];
        SlashedTwo("data", x);
      } else if m == ".." && Plain(x) {
        assert CleanAll([], [m, "data", x]) == ["..", "data", x];
        SlashedThree("..", "data", x);
      }
    }
  }

  /**
   * The body Save writes: a "data" object holding exactly the JSON of the response under
   * the init-response key and the root token under the root-token key (a later key of a Go
   * map literal overwrites an equal earlier one).
   */
  function SaveBody(s: KvSettings, resp: InitResponse): (body: map<string, Value>)
    ensures body.Keys == {"data"} && body["data"].Obj?
    ensures body["data"].fields.Keys == {s.initResponseKey, s.rootTokenKey}
    ensures body["data"].fields[s.rootTokenKey] == Str(Raw(resp.rootToken))
    ensures s.initResponseKey != s.rootTokenKey ==> body["data"].fields[s.initResponseKey] == Str(Marshal(resp))
  {
    map["data" := Obj(map[s.initResponseKey := Str(Marshal(resp))][s.rootTokenKey := Str(Raw(resp.rootToken))])]
  }

  /** What Load returns: a response or nil, and an error or nil; or a panic on a nil secret. */
  datatype LoadResult = Returned(resp: Option<InitResponse>, err: Option<string>) | Panicked

  /** The secret read holds `text` as the string under `key` of its "data" object. */
  predicate Holds(reply: ReadReply, key: string, text: Text<InitResponse>) {
    && reply.secret.Some? && "data" in reply.secret.value && reply.secret.value["data"].Obj?
    && key in reply.secret.value["data"].fields && reply.secret.value["data"].fields[key] == Str(text)
  }

  /**
   * Load after the read: a nil secret panics; a missing or non-object "data", a missing key
   * or a non-string value gives no response and the read's error (nil when the read
   * succeeded); otherwise the string is decoded, and its decoding error, if any, returned.
   */
  function LoadFrom(reply: ReadReply, key: string): (r: LoadResult)
    ensures r.Panicked? <==> reply.secret.None?
    ensures r.Returned? && r.resp.Some? ==> Holds(reply, key, Marshal(r.resp.value)) && r.err.None?
    ensures forall doc :: Holds(reply, key, Encoded(doc)) ==> r == Returned(Some(doc), None)
    ensures r.Returned? && r.resp.None? && r.err != reply.err ==> exists s :: Holds(reply, key, Raw(s))
  {
    match reply.secret
    case None => Panicked
    case Some(data) =>
      if "data" !in data || !data["data"].Obj? then Returned(None, reply.err)
      else
        var fields := data["data"].fields;
        if key !in fields || !fields[key].Str? then Returned(None, reply.err)
        else
          match Unmarshal(fields[key].text)
          case Ok(resp) => Returned(Some(resp), None)
          case Err(e) => Returned(None, Some(e))
  }

  /** Logical().Read: a refused path gives an error and no secret; a missing one gives neither. */
  function ReadSpec(secrets: map<string, map<string, Value>>, denied: set<string>, path: string): (reply: ReadReply)
    ensures reply.secret.Some? <==> path !in denied && path in secrets
    ensures reply.secret.Some? ==> reply.secret.value == secrets[path] && reply.err.None?
    ensures reply.err.Some? <==> path in denied
  {
    if path in denied then ReadReply(None, Some(PermissionDenied))
    else if path !in secrets then ReadReply(None, None)
    else ReadReply(Some(secrets[path]), None)
  }

  /**
   * Save then Load on one location reads back the saved response, provided the two keys
   * differ and the write was accepted.
   */
  lemma SaveLoadRoundTrip(secrets: map<string, map<string, Value>>, denied: set<string>, s: KvSettings, resp: InitResponse)
    requires FullPath(s) !in denied && s.initResponseKey != s.rootTokenKey
    ensures var after := FileSystem.Written(secrets, denied, FullPath(s), SaveBody(s, resp));
      LoadFrom(ReadSpec(after, denied, FullPath(s)), s.initResponseKey) == Returned(Some(resp), None)
  {
    var body := SaveBody(s, resp);
    assert body["data"].fields[s.initResponseKey] == Str(Marshal(resp));
  }

  /**
   * With equal keys the root token replaces the JSON, and Load then fails to decode: a root
   * token is a plain string, taken here as a text that never decodes as an init response.
   */
  lemma CollidingKeysLoseResponse(secrets: map<string, map<string, Value>>, denied: set<string>, s: KvSettings, resp: InitResponse)
    requires FullPath(s) !in denied && s.initResponseKey == s.rootTokenKey
    ensures var after := FileSystem.Written(secrets, denied, FullPath(s), SaveBody(s, resp));
      var r := LoadFrom(ReadSpec(after, denied, FullPath(s)), s.initResponseKey);
      r.Returned? && r.resp.None? && r.err.Some?
  {
    var body := SaveBody(s, resp);
    assert body["data"].fields[s.initResponseKey] == Str(Raw(resp.rootToken));
  }

  /** A read error is not returned: the nil secret that comes with it makes Load panic, as does a missing secret. */
  lemma UnreadableSecretPanics(secrets: map<string, map<string, Value>>, denied: set<string>, path: string, key: string)
    requires path in denied || path !in secrets
    ensures LoadFrom(ReadSpec(secrets, denied, path), key) == Panicked
  {
  }

  /** A secret read without error that lacks the key gives neither a response nor an error. */
  lemma MissingKeyGivesNilNil(secrets: map<string, map<string, Value>>, denied: set<string>, path: string, key: string)
    requires path !in denied && path in secrets
    requires "data" !in secrets[path] || !secrets[path]["data"].Obj? || key !in secrets[path]["data"].fields
    ensures LoadFrom(ReadSpec(secrets, denied, path), key) == Returned(None, None)
  {
  }

  /** The KV secrets engine, as a map from location to the body last written there. */
  class KvStore {
    var secrets: map<string, map<string, Value>>
    const denied: set<string>

    constructor (secrets: map<string, map<string, Value>>, denied: set<string>)
      ensures this.secrets == secrets && this.denied == denied
    {
      this.secrets := secrets;
      this.denied := denied;
    }

    /** Logical().Write. */
    method Write(path: string, body: map<string, Value>) returns (err: Option<string>)
      modifies this
      ensures secrets == FileSystem.Written(old(secrets), denied, path, body)
      ensures err.Some? <==> path in denied
    {
      if path in denied {
        return Some(PermissionDenied);
      }
      secrets := secrets[path := body];
      return None;
    }

    /** Logical().Read. */
    method Read(path: string) returns (reply: ReadReply)
      ensures reply == ReadSpec(secrets, denied, path)
    {
      if path in denied {
        return ReadReply(None, Some(PermissionDenied));
      }
      if path !in secrets {
        return ReadReply(None, None);
      }
      return ReadReply(Some(secrets[path]), None);
    }
  }

  class VaultKvSaveMethod {
    const settings: KvSettings
    const kv: KvStore

    /** NewVaultKVSaveMethod, given a client: the secret path, the options in order, then the defaults. */
    constructor (secretPath: string, kv: KvStore, options: seq<KvSettings -> KvSettings>)
      ensures settings == WithDefaults(ApplyKvOptions(KvSettings(secretPath, "", "", ""), options))
      ensures this.kv == kv
    {
      var m := KvSettings(secretPath, "", "", "");
      var i := 0;
      while i < |options|
        invariant 0 <= i <= |options|
        invariant ApplyKvOptions(m, options[i..]) == ApplyKvOptions(KvSettings(secretPath, "", "", ""), options)
      {
        assert options[i..][1..] == options[i + 1..];
        m := options[i](m);
        i := i + 1;
      }
      if m.mountPath == "" {
        m := m.(mountPath := DefaultMountPath);
      }
      if m.initResponseKey == "" {
        m := m.(initResponseKey := DefaultInitResponseKey);
      }
      if m.rootTokenKey == "" {
        m := m.(rootTokenKey := DefaultRootTokenKey);
      }
      settings := m;
      this.kv := kv;
    }

    /** Save: writes the two-entry body at the full path and returns that path; a refused write gives ("", err). */
    method Save(response: InitResponse) returns (r: Result<string>)
      modifies kv
      ensures kv.secrets == FileSystem.Written(old(kv.secrets), kv.denied, FullPath(settings), SaveBody(settings, response))
      ensures r.Ok? <==> FullPath(settings) !in kv.denied
      ensures r.Ok? ==> r.value == FullPath(settings)
    {
      var fullPath := JoinPath([settings.mountPath, "data", settings.secretPath]);
      var err := kv.Write(fullPath, SaveBody(settings, response));
      if err.Some? {
        return Err(err.value);
      }
      return Ok(fullPath);
    }

    method Load() returns (r: LoadResult)
      ensures r == LoadFrom(ReadSpec(kv.secrets, kv.denied, FullPath(settings)), settings.initResponseKey)
    {
      var fullPath := JoinPath([settings.mountPath, "data", settings.secretPath]);
      var reply := kv.Read(fullPath);
      r := LoadFrom(reply, settings.initResponseKey);
    }
  }
}
