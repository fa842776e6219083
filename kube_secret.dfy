/**
 * The Kubernetes-secret save method of the Rust rewrite (src/save/kube_secret.rs): the init
 * response as JSON under one key of one secret, written by create or by replace.
 *
 * The cluster is a store of secrets addressed by namespace and name, each carrying the
 * resource version the API server gave it. A secret is written with `string_data`, which
 * the API server turns into `data`: the same entries, as bytes.
 */
module KubeSecret {
  import opened Outcomes
  import opened Codec

  /** The response of the init call, as the Rust rewrite declares it. */
  datatype PostInitResponse = PostInitResponse(keys: seq<string>, keysBase64: seq<string>, rootToken: string)

  const DefaultSecretName := "vault-init"
  const DefaultSecretKey := "init.json"

  const NoClient := "no Kubernetes client configuration"
  const NotFound := "secret not found"
  const AlreadyExists := "secret already exists"
  const Forbidden := "forbidden"
  const Conflict := "resource version conflict"
  const ExistsNoOverwrite := "Kube secret already exists, but not configured to overwrite"
  const NoData := "Kubernetes secret contained no data"
  const MissingKey := "Kubernetes secret did not contain expected key"
  const InvalidUtf8 := "invalid utf-8 sequence"

  /** The bytes under one key of a stored secret: valid UTF-8 text, or not. */
  datatype SecretBytes = Utf8(text: Text<PostInitResponse>) | NotUtf8

  /** The fields of the KubeSecret configuration. */
  datatype KubeSecretConfig = KubeSecretConfig(
    name: Option<string>,
    namespace: Option<string>,
    labels: Option<map<string, string>>,
    annotations: Option<map<string, string>>,
    key: Option<string>,
    overwrite: Option<bool>)

  /** Where a secret lives. */
  datatype SecretRef = SecretRef(namespace: string, name: string)

  /** A secret as submitted by save_init: metadata and `string_data`. */
  datatype Submitted = Submitted(
    name: string,
    labels: Option<map<string, string>>,
    annotations: Option<map<string, string>>,
    resourceVersion: Option<nat>,
    stringData: map<string, Text<PostInitResponse>>)

  /** A secret as the API server keeps it. */
  datatype Stored = Stored(
    name: string,
    labels: Option<map<string, string>>,
    annotations: Option<map<string, string>>,
    resourceVersion: nat,
    data: Option<map<string, SecretBytes>>)

  /** The state of the cluster's secrets. */
  datatype Store = Store(secrets: map<SecretRef, Stored>, version: nat)

  function UnwrapOr<T>(o: Option<T>, default: T): T {
    match o
    case Some(v) => v
    case None => default
  }

  /** The secret save_init and load_init address: the configured namespace or the client's default. */
  function Address(cfg: KubeSecretConfig, defaultNamespace: string): (r: SecretRef)
    ensures cfg.namespace.Some? ==> r.namespace == cfg.namespace.value
    ensures cfg.namespace.None? ==> r.namespace == defaultNamespace
    ensures cfg.name.Some? ==> r.name == cfg.name.value
    ensures cfg.name.None? ==> r.name == DefaultSecretName
  {
    SecretRef(UnwrapOr(cfg.namespace, defaultNamespace), UnwrapOr(cfg.name, DefaultSecretName))
  }

  /** The key of the secret's data that holds the response. */
  function DataKey(cfg: KubeSecretConfig): (k: string)
    ensures cfg.key.Some? ==> k == cfg.key.value
    ensures cfg.key.None? ==> k == DefaultSecretKey
  {
    UnwrapOr(cfg.key, DefaultSecretKey)
  }

  /** The secret save_init builds, before any resource version is carried over. */
  function Build(cfg: KubeSecretConfig, data: PostInitResponse): Submitted {
    Submitted(UnwrapOr(cfg.name, DefaultSecretName), cfg.labels, cfg.annotations, None,
              map[DataKey(cfg) := Marshal(data)])
  }

  /** What the API server keeps for a submitted secret it accepts, at resource version `version`. */
  function Accepted(s: Submitted, version: nat): Stored {
    Stored(s.name, s.labels, s.annotations, version, Some(map k | k in s.stringData :: Utf8(s.stringData[k])))
  }

  /** GET of one secret: it fails when the secret is absent or when the client may not read it. */
  function GetSpec(st: Store, getDenied: set<SecretRef>, r: SecretRef): Result<Stored> {
    if r in getDenied then Err(Forbidden)
    else if r !in st.secrets then Err(NotFound)
    else Ok(st.secrets[r])
  }

  /** The store after a write the API server accepts: only `r` changes, at a fresh resource version. */
  function Put(st: Store, r: SecretRef, s: Submitted): Store {
    Store(st.secrets[r := Accepted(s, st.version + 1)], st.version + 1)
  }

  /** POST of a new secret: refused when the client may not write it or it already exists. */
  function CreateSpec(st: Store, writeDenied: set<SecretRef>, r: SecretRef, s: Submitted): Saved {
    if r in writeDenied then Saved(st, Fail(Forbidden))
    else if r in st.secrets then Saved(st, Fail(AlreadyExists))
    else Saved(Put(st, r, s), Pass)
  }

  /**
   * PUT of an existing secret: refused when the client may not write it, when it is absent,
   * or when the resource version carried is not the stored one.
   */
  function ReplaceSpec(st: Store, writeDenied: set<SecretRef>, r: SecretRef, s: Submitted): Saved {
    if r in writeDenied then Saved(st, Fail(Forbidden))
    else if r !in st.secrets then Saved(st, Fail(NotFound))
    else if s.resourceVersion.Some? && s.resourceVersion.value != st.secrets[r].resourceVersion then Saved(st, Fail(Conflict))
    else Saved(Put(st, r, s), Pass)
  }

  /** The store after a save and the save's outcome. */
  datatype Saved = Saved(store: Store, outcome: Outcome)

  /** The client the KubeSecret methods work through: its configuration and the cluster it reaches. */
  datatype Client = Client(configured: bool, defaultNamespace: string, getDenied: set<SecretRef>, writeDenied: set<SecretRef>)

  /**
   * save_init: no client configuration fails; an existing secret is an error unless overwrite
   * is set, and is then replaced carrying its resource version; a get that fails for any
   * reason leads to a create.
   */
  function SaveSpec(cfg: KubeSecretConfig, data: PostInitResponse, c: Client, st: Store): (sv: Saved)
    ensures !c.configured ==> sv == Saved(st, Fail(NoClient))
    ensures var r := Address(cfg, c.defaultNamespace);
      c.configured && r !in c.getDenied && r in st.secrets && !UnwrapOr(cfg.overwrite, false) ==>
        sv == Saved(st, Fail(ExistsNoOverwrite))
    ensures sv.outcome.Fail? || sv.outcome.Pass?
    ensures sv.outcome.Fail? ==> sv.store == st
    ensures sv.outcome.Pass? ==>
      sv.store.version == st.version + 1 && Address(cfg, c.defaultNamespace) in sv.store.secrets
  {
    if !c.configured then Saved(st, Fail(NoClient))
    else
      var r := Address(cfg, c.defaultNamespace);
      var secret := Build(cfg, data);
      match GetSpec(st, c.getDenied, r)
      case Ok(existing) =>
        if !UnwrapOr(cfg.overwrite, false) then Saved(st, Fail(ExistsNoOverwrite))
        else ReplaceSpec(st, c.writeDenied, r, secret.(resourceVersion := Some(existing.resourceVersion)))
      case Err(_) => CreateSpec(st, c.writeDenied, r, secret)
  }

  /**
   * load_init: the chain of steps that can each fail: the client, the get, the data, the key,
   * UTF-8, then the JSON decoding. Its error is the first failing step's, and it succeeds
   * exactly when every step does.
   */
  function LoadSpec(cfg: KubeSecretConfig, c: Client, st: Store): (res: Result<PostInitResponse>)
    ensures var r := Address(cfg, c.defaultNamespace); var k := DataKey(cfg);
      res.Ok? <==>
        && c.configured && r !in c.getDenied && r in st.secrets
        && st.secrets[r].data.Some? && k in st.secrets[r].data.value
        && st.secrets[r].data.value[k].Utf8? && st.secrets[r].data.value[k].text.Encoded?
    ensures res.Ok? ==> st.secrets[Address(cfg, c.defaultNamespace)].data.value[DataKey(cfg)] == Utf8(Marshal(res.value))
    ensures var r := Address(cfg, c.defaultNamespace);
      (c.configured && r in st.secrets && r !in c.getDenied && st.secrets[r].data.None?) ==> res == Err(NoData)
    ensures !c.configured ==> res == Err(NoClient)
  {
    if !c.configured then Err(NoClient)
    else
      match GetSpec(st, c.getDenied, Address(cfg, c.defaultNamespace))
      case Err(e) => Err(e)
      case Ok(secret) =>
        if secret.data.None? then Err(NoData)
        else
          var k := DataKey(cfg);
          if k !in secret.data.value then Err(MissingKey)
          else
            match secret.data.value[k]
            case NotUtf8 => Err(InvalidUtf8)
            case Utf8(text) => Unmarshal(text)
  }

  /** The cluster's secrets, as the API server holds them. */
  class Cluster {
    var secrets: map<SecretRef, Stored>
    var version: nat
    const getDenied: set<SecretRef>
    const writeDenied: set<SecretRef>

    constructor (secrets: map<SecretRef, Stored>, version: nat, getDenied: set<SecretRef>, writeDenied: set<SecretRef>)
      ensures this.secrets == secrets && this.version == version
      ensures this.getDenied == getDenied && this.writeDenied == writeDenied
    {
      this.secrets := secrets;
      this.version := version;
      this.getDenied := getDenied;
      this.writeDenied := writeDenied;
    }

    function State(): Store
      reads this
    {
      Store(secrets, version)
    }

    method Get(r: SecretRef) returns (res: Result<Stored>)
      ensures res == GetSpec(State(), getDenied, r)
    {
      if r in getDenied {
        return Err(Forbidden);
      }
      if r !in secrets {
        return Err(NotFound);
      }
      return Ok(secrets[r]);
    }

    method Create(r: SecretRef, s: Submitted) returns (o: Outcome)
      modifies this
      ensures Saved(State(), o) == CreateSpec(old(State()), writeDenied, r, s)
    {
      if r in writeDenied {
        return Fail(Forbidden);
      }
      if r in secrets {
        return Fail(AlreadyExists);
      }
      version := version + 1;
      secrets := secrets[r := Accepted(s, version)];
      return Pass;
    }

    method Replace(r: SecretRef, s: Submitted) returns (o: Outcome)
      modifies this
      ensures Saved(State(), o) == ReplaceSpec(old(State()), writeDenied, r, s)
    {
      if r in writeDenied {
        return Fail(Forbidden);
      }
      if r !in secrets {
        return Fail(NotFound);
      }
      if s.resourceVersion.Some? && s.resourceVersion.value != secrets[r].resourceVersion {
        return Fail(Conflict);
      }
      version := version + 1;
      secrets := secrets[r := Accepted(s, version)];
      return Pass;
    }
  }

  /** The KubeSecret save method: its configuration and the cluster its client reaches. */
  class KubeSecretMethod {
    const cfg: KubeSecretConfig
    const configured: bool
    const defaultNamespace: string
    const cluster: Cluster

    constructor (cfg: KubeSecretConfig, configured: bool, defaultNamespace: string, cluster: Cluster)
      ensures this.cfg == cfg && this.configured == configured
      ensures this.defaultNamespace == defaultNamespace && this.cluster == cluster
    {
      this.cfg := cfg;
      this.configured := configured;
      this.defaultNamespace := defaultNamespace;
      this.cluster := cluster;
    }

    function ClientOf(): Client
      reads cluster
    {
      Client(configured, defaultNamespace, cluster.getDenied, cluster.writeDenied)
    }

    method SaveInit(data: PostInitResponse) returns (o: Outcome)
      modifies cluster
      ensures Saved(cluster.State(), o) == SaveSpec(cfg, data, ClientOf(), old(cluster.State()))
    {
      if !configured {
        return Fail(NoClient);
      }
      var r := SecretRef(UnwrapOr(cfg.namespace, defaultNamespace), UnwrapOr(cfg.name, DefaultSecretName));
      var secret := Build(cfg, data);
      var existing := cluster.Get(r);
      if existing.Ok? {
        if !UnwrapOr(cfg.overwrite, false) {
          return Fail(ExistsNoOverwrite);
        }
        secret := secret.(resourceVersion := Some(existing.value.resourceVersion));
        o := cluster.Replace(r, secret);
      } else {
        o := cluster.Create(r, secret);
      }
    }

    method LoadInit() returns (res: Result<PostInitResponse>)
      ensures res == LoadSpec(cfg, ClientOf(), cluster.State())
    {
      if !configured {
        return Err(NoClient);
      }
      var r := SecretRef(UnwrapOr(cfg.namespace, defaultNamespace), UnwrapOr(cfg.name, DefaultSecretName));
      var got := cluster.Get(r);
      if got.Err? {
        return Err(got.msg);
      }
      var secret := got.value;
      if secret.data.None? {
        return Err(NoData);
      }
      var k := UnwrapOr(cfg.key, DefaultSecretKey);
      if k !in secret.data.value {
        return Err(MissingKey);
      }
      if secret.data.value[k].NotUtf8? {
        return Err(InvalidUtf8);
      }
      res := Unmarshal(secret.data.value[k].text);
    }
  }

  /**
   * What save_init does to the cluster: when it succeeds, the addressed secret and only it
   * is written, at a fresh resource version, with exactly one data entry (the key and the
   * JSON of the response) and the configured name, labels and annotations; when it fails,
   * nothing changes.
   */
  lemma SaveWrites(cfg: KubeSecretConfig, data: PostInitResponse, c: Client, st: Store)
    ensures var sv := SaveSpec(cfg, data, c, st);
      var r := Address(cfg, c.defaultNamespace);
      && (sv.outcome.Fail? ==> sv.store == st)
      && (sv.outcome.Pass? ==>
            && sv.store.version == st.version + 1
            && sv.store.secrets.Keys == st.secrets.Keys + {r}
            && (forall o :: o in st.secrets && o != r ==> sv.store.secrets[o] == st.secrets[o])
            && sv.store.secrets[r] == Stored(r.name, cfg.labels, cfg.annotations, st.version + 1,
                                              Some(map[DataKey(cfg) := Utf8(Marshal(data))])))
  {
    var s := Build(cfg, data);
    assert (map k | k in s.stringData :: Utf8(s.stringData[k])) == map[DataKey(cfg) := Utf8(Marshal(data))];
  }

  /**
   * Which way save_init goes: an existing readable secret without overwrite is an error and
   * nothing is written; with overwrite it is replaced, carrying the stored resource version,
   * which always matches, so only a write refusal fails it; a get that fails for any reason,
   * also for a secret that exists but may not be read, leads to a create, which then fails
   * with the server's already-exists error.
   */
  lemma SaveBranches(cfg: KubeSecretConfig, data: PostInitResponse, c: Client, st: Store)
    requires c.configured
    ensures var sv := SaveSpec(cfg, data, c, st);
      var r := Address(cfg, c.defaultNamespace);
      var readable := r !in c.getDenied && r in st.secrets;
      var overwrite := cfg.overwrite == Some(true);
      && (readable && !overwrite ==> sv == Saved(st, Fail(ExistsNoOverwrite)))
      && (readable && overwrite ==>
            sv == (if r in c.writeDenied then Saved(st, Fail(Forbidden))
                   else Saved(Put(st, r, Build(cfg, data).(resourceVersion := Some(st.secrets[r].resourceVersion))), Pass)))
      && (!readable ==> sv == CreateSpec(st, c.writeDenied, r, Build(cfg, data)))
      && (r in c.getDenied && r in st.secrets ==> sv.outcome == Fail(if r in c.writeDenied then Forbidden else AlreadyExists))
  {
  }

  /** A secret save_init wrote is one load_init, with the same configuration, reads the response back from. */
  lemma SaveLoadRoundTrip(cfg: KubeSecretConfig, data: PostInitResponse, c: Client, st: Store)
    requires SaveSpec(cfg, data, c, st).outcome.Pass?
    requires Address(cfg, c.defaultNamespace) !in c.getDenied
    ensures LoadSpec(cfg, c, SaveSpec(cfg, data, c, st).store) == Ok(data)
  {
    SaveWrites(cfg, data, c, st);
  }

  /** The failures of load_init, one per step of its chain, with the step's own error. */
  lemma LoadErrors(cfg: KubeSecretConfig, c: Client, st: Store)
    requires c.configured
    ensures var r := Address(cfg, c.defaultNamespace); var k := DataKey(cfg);
      var res := LoadSpec(cfg, c, st);
      && (r in c.getDenied ==> res == Err(Forbidden))
      && (r !in c.getDenied && r !in st.secrets ==> res == Err(NotFound))
      && (r !in c.getDenied && r in st.secrets && st.secrets[r].data.Some? ==>
            && (k !in st.secrets[r].data.value ==> res == Err(MissingKey))
            && (k in st.secrets[r].data.value && st.secrets[r].data.value[k] == NotUtf8 ==> res == Err(InvalidUtf8))
            && (k in st.secrets[r].data.value && st.secrets[r].data.value[k].Utf8? ==>
                  res == Unmarshal(st.secrets[r].data.value[k].text)))
  {
  }
}
