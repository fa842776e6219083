/**
 * The seal-operations orchestrator of internal/pkg/sealops: initialize the server, rotate
 * its unseal or recovery keys, and rotate its root token, persisting the init response
 * through the configured save method.
 *
 * Each operation is a method on VaultInitializer that drives the Remote oracle, proved
 * equal to a specification function of the history before the call; the ordering
 * guarantees are lemmas about those functions.
 */
module SealOps {
  import opened Outcomes
  import opened Codec
  import opened Base64
  import opened Remote
  import opened KeySubmission

  /** The init, rekey and rotation parameters of a VaultInitializer. */
  datatype Settings = Settings(
    pgpKeys: seq<string>,
    rootTokenPgpKey: string,
    secretShares: int,
    secretThreshold: int,
    storedShares: int,
    recoveryShares: int,
    recoveryThreshold: int,
    recoveryPgpKeys: seq<string>,
    backup: bool,
    requireVerification: bool)

  /** The zero value of the parameters, before any functional option ran. */
  const NoSettings := Settings([], "", 0, 0, 0, 0, 0, [], false, false)

  /** The functional options, applied in order. */
  function ApplyOptions(s: Settings, options: seq<Settings -> Settings>): Settings
    decreases |options|
  {
    if options == [] then s else ApplyOptions(options[0](s), options[1..])
  }

  /** The history of a run and what the operation returned. */
  datatype Run = Run(trace: seq<Event>, outcome: Outcome)

  const InitTimeoutMessage := "vault init failed"
  /** The length of the one-time pad RotateRoot generates. */
  const OtpLength := 26

  function InitRequestOf(s: Settings): InitRequest {
    InitRequest(s.secretShares, s.secretThreshold, s.storedShares, s.pgpKeys,
                s.recoveryShares, s.recoveryThreshold, s.recoveryPgpKeys, s.rootTokenPgpKey)
  }

  /** One pass of Init's polling loop: either it retries from a longer history, or it returns. */
  datatype Attempt = Retry(trace: seq<Event>) | Stop(run: Run)

  /**
   * One poll: read the init status, retrying on an error; if the server is initialized
   * return nil; otherwise init, retrying on an error; save the result and return what the
   * save returned.
   */
  function InitAttempt(req: InitRequest, h: seq<Event>, respond: seq<Event> -> Reply): Attempt {
    var h1 := h + [InitStatus];
    match AsFlag(respond(h1))
    case Err(_) => Retry(h1)
    case Ok(initialized) =>
      if initialized then Stop(Run(h1, Pass))
      else
        var h2 := h1 + [Init(req)];
        match AsResponse(respond(h2))
        case Err(_) => Retry(h2)
        case Ok(resp) =>
          var h3 := h2 + [Save(resp)];
          match AsText(respond(h3))
          case Err(e) => Stop(Run(h3, Fail(e)))
          case Ok(_) => Stop(Run(h3, Pass))
  }

  /** Init with `attempts` polls left. */
  function InitAttempts(req: InitRequest, attempts: nat, h: seq<Event>, respond: seq<Event> -> Reply): Run
    decreases attempts
  {
    if attempts == 0 then Run(h, Fail(InitTimeoutMessage))
    else
      match InitAttempt(req, h, respond)
      case Retry(h') => InitAttempts(req, attempts - 1, h', respond)
      case Stop(r) => r
  }

  predicate Extends(h: seq<Event>, t: seq<Event>) {
    |h| <= |t| && t[..|h|] == h
  }

  predicate NoSave(t: seq<Event>) {
    forall i :: 0 <= i < |t| ==> !t[i].Save?
  }

  function StatusPolls(t: seq<Event>): nat {
    multiset(t)[InitStatus]
  }

  /** The PGP keys the new shares of a rekey of `kind` are encrypted with. */
  function PgpKeysFor(s: Settings, kind: KeyKind): seq<string> {
    match kind
    case Unseal => s.pgpKeys
    case Recovery => s.recoveryPgpKeys
  }

  /** Rekey and RekeyRecoveryKey refuse verification of PGP-encrypted keys. */
  predicate PgpBlocked(s: Settings, kind: KeyKind) {
    s.requireVerification && |PgpKeysFor(s, kind)| > 0
  }

  function PgpVerifyMessage(kind: KeyKind): string {
    match kind
    case Unseal => "rekey verification with PGP not supported"
    case Recovery => "rekey recovery key verification with PGP not supported"
  }

  function RekeyBusyMessage(kind: KeyKind): string {
    match kind
    case Unseal => "rekey process is already in progress"
    case Recovery => "rekey recovery key process is already in progress"
  }

  const RootBusyMessage := "generate root process is already in progress"

  /**
   * Go's error for a string that is not base64, without the offset of the first corrupt
   * byte that Go appends ("at input byte N").
   */
  const IllegalBase64Message := "illegal base64 data"

  /** The start request: Rekey takes the secret-share parameters, RekeyRecoveryKey the recovery ones. */
  function RekeyRequestFor(s: Settings, kind: KeyKind): RekeyRequest {
    match kind
    case Unseal =>
      RekeyRequest(s.secretShares, s.secretThreshold, s.storedShares, s.pgpKeys, s.backup, s.requireVerification)
    case Recovery =>
      RekeyRequest(s.recoveryShares, s.recoveryThreshold, s.storedShares, s.recoveryPgpKeys, s.backup, s.requireVerification)
  }

  /** The stored key shares a rekey of `kind` submits. */
  function KeysOf(resp: InitResponse, kind: KeyKind): seq<string> {
    match kind
    case Unseal => resp.keysB64
    case Recovery => resp.recoveryKeysB64
  }

  function PlainKeysOf(resp: InitResponse, kind: KeyKind): seq<string> {
    match kind
    case Unseal => resp.keys
    case Recovery => resp.recoveryKeys
  }

  /**
   * The init response after the key loop: a completed rekey replaces the rotated key set
   * (both spellings) with the new one; any other end leaves the response as loaded.
   */
  function Rekeyed(resp: InitResponse, kind: KeyKind, end: LoopEnd): (r: InitResponse)
    ensures end.Completed? ==> PlainKeysOf(r, kind) == end.progress.keys && KeysOf(r, kind) == end.progress.keysB64
    ensures !end.Completed? ==> r == resp
    ensures kind.Unseal? ==> r.recoveryKeys == resp.recoveryKeys && r.recoveryKeysB64 == resp.recoveryKeysB64
    ensures kind.Recovery? ==> r.keys == resp.keys && r.keysB64 == resp.keysB64
    ensures r.rootToken == resp.rootToken
  {
    match end
    case Completed(p) =>
      (match kind
       case Unseal => resp.(keys := p.keys, keysB64 := p.keysB64)
       case Recovery => resp.(recoveryKeys := p.keys, recoveryKeysB64 := p.keysB64))
    case _ => resp
  }

  /** The shares RotateRoot submits: the unseal keys, or the recovery keys when there are none. */
  function RotationKeys(resp: InitResponse): seq<string> {
    if |resp.keysB64| < 1 then resp.recoveryKeysB64 else resp.keysB64
  }

  /** Go's string(bytes), one character per byte. */
  function ByteString(b: seq<byte>): (s: string)
    ensures |s| == |b|
    ensures forall i :: 0 <= i < |b| ==> s[i] as int == b[i]
  {
    seq(|b|, i requires 0 <= i < |b| => b[i] as char)
  }

  /** decodeRoot: base64 without padding, then Vault's xor helper against the one-time pad. */
  function DecodeRoot(encoded: string, otp: string, xor: (seq<byte>, string) -> Result<seq<byte>>): (r: Result<string>)
    ensures r.Ok? <==> RawStdDecode(encoded).Some? && xor(RawStdDecode(encoded).value, otp).Ok?
    ensures r.Ok? ==> r.value == ByteString(xor(RawStdDecode(encoded).value, otp).value)
    ensures RawStdDecode(encoded).None? ==> r == Err(IllegalBase64Message)
  {
    match RawStdDecode(encoded)
    case None => Err(IllegalBase64Message)
    case Some(bytes) =>
      match xor(bytes, otp)
      case Err(e) => Err(e)
      case Ok(token) => Ok(ByteString(token))
  }

  /**
   * A token the server encoded the way decodeRoot expects (xor with the pad, then base64
   * without padding) is recovered: the decoded string is the xor helper's result.
   */
  lemma DecodeRootRoundTrip(token: seq<byte>, otp: string, xor: (seq<byte>, string) -> Result<seq<byte>>)
    requires xor(token, otp).Ok?
    ensures DecodeRoot(RawStdEncode(token), otp, xor) == Ok(ByteString(xor(token, otp).value))
  {
    RoundTrip(token);
  }

  /** An Init run whose first status read reports the server initialized returns nil right away. */
  lemma InitAlreadyInitialized(req: InitRequest, attempts: nat, h: seq<Event>, respond: seq<Event> -> Reply)
    requires attempts > 0 && respond(h + [InitStatus]) == InitState(true)
    ensures InitAttempts(req, attempts, h, respond) == Run(h + [InitStatus], Pass)
  {
    AttemptShape(req, h, respond);
  }

  /** A step of an operation that either goes on from a longer history with a value, or returns. */
  datatype Stage<T> = Next(trace: seq<Event>, value: T) | Halt(run: Run)

  predicate Idle(r: Reply) {
    AsProcess(r).Ok? && !AsProcess(r).value.started
  }

  /**
   * The common opening: read the process status, refuse a started one, then load the init
   * response. A Load that panics takes the process down; a nil response with no error is
   * passed on, since nothing checks it here.
   */
  function CheckAndLoad(c: Ceremony, busy: string, h: seq<Event>, respond: seq<Event> -> Reply): Stage<Option<InitResponse>> {
    var h1 := h + [ProcessStatus(c)];
    match AsProcess(respond(h1))
    case Err(e) => Halt(Run(h1, Fail(e)))
    case Ok(status) =>
      if status.started then Halt(Run(h1, Fail(busy)))
      else
        var h2 := h1 + [Load];
        if respond(h2).Panicked? then Halt(Run(h2, Crash))
        else
          match AsLoaded(respond(h2))
          case Err(e) => Halt(Run(h2, Fail(e)))
          case Ok(loaded) => Next(h2, loaded)
  }

  /**
   * Rekey up to the start call, which yields the loaded response and the process nonce. A
   * nil response is first dereferenced by the key loop, after a successful start: the
   * process panics there.
   */
  function OpenRekey(s: Settings, kind: KeyKind, h: seq<Event>, respond: seq<Event> -> Reply): Stage<(InitResponse, string)> {
    if PgpBlocked(s, kind) then Halt(Run(h, Fail(PgpVerifyMessage(kind))))
    else
      match CheckAndLoad(Rekey(kind), RekeyBusyMessage(kind), h, respond)
      case Halt(r) => Halt(r)
      case Next(h2, loaded) =>
        var h3 := h2 + [RekeyStart(kind, RekeyRequestFor(s, kind))];
        match AsProcess(respond(h3))
        case Err(e) => Halt(Run(h3, Fail(e)))
        case Ok(p) =>
          match loaded
          case None => Halt(Run(h3, Crash))
          case Some(resp) => Next(h3, (resp, p.nonce))
  }

  /**
   * Rekey from the key loop on: submit the stored shares, save the (possibly) rekeyed
   * response unless the loop aborted, then, when verification is required, submit the
   * saved response's recovery keys to the verification process.
   */
  function FinishRekey(s: Settings, kind: KeyKind, resp: InitResponse, nonce: string, h: seq<Event>, respond: seq<Event> -> Reply): Run {
    var loop := KeyLoop(Rekey(kind), KeysOf(resp, kind), nonce, h, respond);
    if loop.end.Aborted? then Run(loop.trace, Fail(loop.end.msg))
    else
      var saved := Rekeyed(resp, kind, loop.end);
      var h1 := loop.trace + [Save(saved)];
      match AsText(respond(h1))
      case Err(e) => Run(h1, Fail(e))
      case Ok(_) =>
        if !s.requireVerification then Run(h1, Pass)
        else
          var v := KeyLoop(RekeyVerify(kind), saved.recoveryKeysB64, nonce, h1, respond);
          Run(v.trace, if v.end.Aborted? then Fail(v.end.msg) else Pass)
  }

  /** Rekey (kind Unseal) and RekeyRecoveryKey (kind Recovery). */
  function RekeySpec(s: Settings, kind: KeyKind, h: seq<Event>, respond: seq<Event> -> Reply): Run {
    match OpenRekey(s, kind, h, respond)
    case Halt(r) => r
    case Next(t, v) => FinishRekey(s, kind, v.0, v.1, t, respond)
  }

  /**
   * RotateRoot up to the start call, which yields the loaded response, the pad and the
   * nonce. A nil response is first dereferenced when the keys are chosen, after a
   * successful start: the process panics there.
   */
  function OpenRotate(s: Settings, h: seq<Event>, respond: seq<Event> -> Reply): Stage<(InitResponse, string, string)> {
    match CheckAndLoad(GenerateRoot, RootBusyMessage, h, respond)
    case Halt(r) => Halt(r)
    case Next(h2, loaded) =>
      var h3 := h2 + [GenerateOtp(OtpLength)];
      match AsText(respond(h3))
      case Err(e) => Halt(Run(h3, Fail(e)))
      case Ok(otp) =>
        var h4 := h3 + [GenerateRootStart(otp, s.rootTokenPgpKey)];
        match AsProcess(respond(h4))
        case Err(e) => Halt(Run(h4, Fail(e)))
        case Ok(p) =>
          match loaded
          case None => Halt(Run(h4, Crash))
          case Some(resp) => Next(h4, (resp, otp, p.nonce))
  }

  /** Save the response, then revoke the current token only if the save succeeded. */
  function SaveAndRevoke(resp: InitResponse, h: seq<Event>, respond: seq<Event> -> Reply): Run {
    var h1 := h + [Save(resp)];
    match AsText(respond(h1))
    case Err(e) => Run(h1, Fail(e))
    case Ok(_) =>
      var h2 := h1 + [RevokeSelf];
      Run(h2, AsOutcome(respond(h2)))
  }

  /** RotateRoot from the key loop on. */
  function FinishRotate(resp: InitResponse, otp: string, nonce: string, h: seq<Event>, respond: seq<Event> -> Reply,
                        xor: (seq<byte>, string) -> Result<seq<byte>>): Run {
    var loop := KeyLoop(GenerateRoot, RotationKeys(resp), nonce, h, respond);
    match loop.end
    case Aborted(e) => Run(loop.trace, Fail(e))
    case Exhausted => SaveAndRevoke(resp, loop.trace, respond)
    case Completed(p) =>
      match DecodeRoot(p.encodedToken, otp, xor)
      case Err(e) => Run(loop.trace, Fail(e))
      case Ok(token) => SaveAndRevoke(resp.(rootToken := token), loop.trace, respond)
  }

  function RotateRootSpec(s: Settings, h: seq<Event>, respond: seq<Event> -> Reply,
                          xor: (seq<byte>, string) -> Result<seq<byte>>): Run {
    match OpenRotate(s, h, respond)
    case Halt(r) => r
    case Next(t, v) => FinishRotate(v.0, v.1, v.2, t, respond, xor)
  }

  /** Neither a save nor a revocation. */
  predicate Quiet(t: seq<Event>) {
    forall i :: 0 <= i < |t| ==> !t[i].Save? && !t[i].RevokeSelf?
  }

  class VaultInitializer {
    const vault: Server
    const settings: Settings
    /** Vault's xor helper, which is not part of this model. */
    const xor: (seq<byte>, string) -> Result<seq<byte>>

    constructor (vault: Server, options: seq<Settings -> Settings>, xor: (seq<byte>, string) -> Result<seq<byte>>)
      ensures this.vault == vault && this.xor == xor
      ensures settings == ApplyOptions(NoSettings, options)
    {
      var s := NoSettings;
      var i := 0;
      while i < |options|
        invariant 0 <= i <= |options|
        invariant ApplyOptions(s, options[i..]) == ApplyOptions(NoSettings, options)
      {
        assert options[i..][1..] == options[i + 1..];
        s := options[i](s);
        i := i + 1;
      }
      this.vault := vault;
      this.xor := xor;
      settings := s;
    }

    /** Init, with the wall-clock timeout replaced by a number of polls. */
    method Init(attempts: nat) returns (o: Outcome)
      modifies vault
      ensures Run(vault.trace, o) == InitAttempts(InitRequestOf(settings), attempts, old(vault.trace), vault.respond)
    {
      var req := InitRequestOf(settings);
      ghost var whole := InitAttempts(req, attempts, vault.trace, vault.respond);
      var left: nat := attempts;
      while left > 0
        invariant left <= attempts
        invariant InitAttempts(req, left, vault.trace, vault.respond) == whole
      {
        ghost var before := vault.trace;
        var status := vault.Call(InitStatus);
        var initialized := AsFlag(status);
        if initialized.Err? {
          left := left - 1;
          continue;
        }
        if initialized.value {
          return Pass;
        }
        var reply := vault.Call(Event.Init(req));
        var initResp := AsResponse(reply);
        if initResp.Err? {
          left := left - 1;
          continue;
        }
        var saved := vault.Call(Save(initResp.value));
        var location := AsText(saved);
        if location.Err? {
          return Fail(location.msg);
        }
        return Pass;
      }
      o := Fail(InitTimeoutMessage);
    }

    /** Rekey and RekeyRecoveryKey, which differ only in the key set they rotate. */
    method RekeyKeys(kind: KeyKind) returns (o: Outcome)
      modifies vault
      ensures Run(vault.trace, o) == RekeySpec(settings, kind, old(vault.trace), vault.respond)
    {
      if PgpBlocked(settings, kind) {
        return Fail(PgpVerifyMessage(kind));
      }
      var statusReply := vault.Call(ProcessStatus(Ceremony.Rekey(kind)));
      var status := AsProcess(statusReply);
      if status.Err? {
        return Fail(status.msg);
      }
      if status.value.started {
        return Fail(RekeyBusyMessage(kind));
      }
      var loaded := vault.Call(Load);
      if loaded.Panicked? {
        return Crash;
      }
      var resp := AsLoaded(loaded);
      if resp.Err? {
        return Fail(resp.msg);
      }
      var startReply := vault.Call(RekeyStart(kind, RekeyRequestFor(settings, kind)));
      var start := AsProcess(startReply);
      if start.Err? {
        return Fail(start.msg);
      }
      if resp.value.None? {
        return Crash;
      }
      var initResp := resp.value.value;
      assert OpenRekey(settings, kind, old(vault.trace), vault.respond) == Next(vault.trace, (initResp, start.value.nonce));
      ghost var loaded0 := initResp;
      ghost var loopStart := vault.trace;
      var end, _ := SubmitKeys(vault, Ceremony.Rekey(kind), KeysOf(initResp, kind), start.value.nonce);
      if end.Aborted? {
        return Fail(end.msg);
      }
      if end.Completed? {
        match kind
        case Unseal =>
          initResp := initResp.(keys := end.progress.keys, keysB64 := end.progress.keysB64);
        case Recovery =>
          initResp := initResp.(recoveryKeys := end.progress.keys, recoveryKeysB64 := end.progress.keysB64);
      }
      assert initResp == Rekeyed(loaded0, kind, end);
      assert vault.trace == KeyLoop(Ceremony.Rekey(kind), KeysOf(loaded0, kind), start.value.nonce, loopStart, vault.respond).trace;
      var saveReply := vault.Call(Save(initResp));
      var location := AsText(saveReply);
      if location.Err? {
        return Fail(location.msg);
      }
      if settings.requireVerification {
        var verified, _ := SubmitKeys(vault, RekeyVerify(kind), initResp.recoveryKeysB64, start.value.nonce);
        if verified.Aborted? {
          return Fail(verified.msg);
        }
      }
      return Pass;
    }

    method Rekey() returns (o: Outcome)
      modifies vault
      ensures Run(vault.trace, o) == RekeySpec(settings, Unseal, old(vault.trace), vault.respond)
    {
      o := RekeyKeys(Unseal);
    }

    method RekeyRecoveryKey() returns (o: Outcome)
      modifies vault
      ensures Run(vault.trace, o) == RekeySpec(settings, Recovery, old(vault.trace), vault.respond)
    {
      o := RekeyKeys(Recovery);
    }

    method RotateRoot() returns (o: Outcome)
      modifies vault
      ensures Run(vault.trace, o) == RotateRootSpec(settings, old(vault.trace), vault.respond, xor)
    {
      var statusReply := vault.Call(ProcessStatus(GenerateRoot));
      var status := AsProcess(statusReply);
      if status.Err? {
        return Fail(status.msg);
      }
      if status.value.started {
        return Fail(RootBusyMessage);
      }
      var loaded := vault.Call(Load);
      if loaded.Panicked? {
        return Crash;
      }
      var resp := AsLoaded(loaded);
      if resp.Err? {
        return Fail(resp.msg);
      }
      var otpReply := vault.Call(GenerateOtp(OtpLength));
      var otp := AsText(otpReply);
      if otp.Err? {
        return Fail(otp.msg);
      }
      var startReply := vault.Call(GenerateRootStart(otp.value, settings.rootTokenPgpKey));
      var start := AsProcess(startReply);
      if start.Err? {
        return Fail(start.msg);
      }
      if resp.value.None? {
        return Crash;
      }
      var initResp := resp.value.value;
      var keys := initResp.keysB64;
      if |keys| < 1 {
        keys := initResp.recoveryKeysB64;
      }
      var end, _ := SubmitKeys(vault, GenerateRoot, keys, start.value.nonce);
      if end.Aborted? {
        return Fail(end.msg);
      }
      if end.Completed? {
        var decoded := DecodeRoot(end.progress.encodedToken, otp.value, xor);
        if decoded.Err? {
          return Fail(decoded.msg);
        }
        initResp := initResp.(rootToken := decoded.value);
      }
      var saveReply := vault.Call(Save(initResp));
      var location := AsText(saveReply);
      if location.Err? {
        return Fail(location.msg);
      }
      var revokeReply := vault.Call(RevokeSelf);
      o := AsOutcome(revokeReply);
    }
  }

  /** What the configured Save's reply makes the operation return. */
  function SaveOutcome(r: Reply): Outcome {
    match AsText(r)
    case Ok(_) => Pass
    case Err(e) => Fail(e)
  }

  /**
   * One poll retries after a status error (one call) or after an init error (the status
   * read and the init call); it returns nil right after a status read saying the server is
   * initialized, and otherwise right after the single save of the init result.
   */
  lemma AttemptShape(req: InitRequest, h: seq<Event>, respond: seq<Event> -> Reply)
    ensures match InitAttempt(req, h, respond)
      case Retry(h') =>
        || (h' == h + [InitStatus] && AsFlag(respond(h')).Err?)
        || (h' == h + [InitStatus, Init(req)] && respond(h + [InitStatus]) == InitState(false))
      case Stop(r) =>
        || (r.trace == h + [InitStatus] && r.outcome == Pass && respond(r.trace) == InitState(true))
        || (&& |r.trace| == |h| + 3 && r.trace[..|h| + 2] == h + [InitStatus, Init(req)]
            && respond(h + [InitStatus]) == InitState(false)
            && SavesInitReply(req, r.trace, respond) && r.outcome == SaveOutcome(respond(r.trace)))
  {
    var h1 := h + [InitStatus];
    if AsFlag(respond(h1)).Ok? && !AsFlag(respond(h1)).value {
      var h2 := h1 + [Init(req)];
      assert h2 == h + [InitStatus, Init(req)];
      match AsResponse(respond(h2))
      case Err(_) =>
      case Ok(resp) =>
        var h3 := h2 + [Save(resp)];
        assert h3[..|h| + 2] == h2 && h3[..|h3| - 1] == h2;
    }
  }

  /**
   * The last call of `t` saves what the init call just before it, one with request `req`,
   * returned.
   */
  predicate SavesInitReply(req: InitRequest, t: seq<Event>, respond: seq<Event> -> Reply) {
    && |t| >= 2 && t[|t| - 2] == Init(req)
    && AsResponse(respond(t[..|t| - 1])).Ok?
    && t[|t| - 1] == Save(AsResponse(respond(t[..|t| - 1])).value)
  }

  /** What one poll adds to the history, in the terms the lemmas about whole runs need. */
  lemma AttemptParts(req: InitRequest, h: seq<Event>, respond: seq<Event> -> Reply)
    ensures match InitAttempt(req, h, respond)
      case Retry(h') =>
        Extends(h, h') && StatusPolls(h'[|h|..]) == 1 && NoSave(h'[|h|..])
      case Stop(r) =>
        var t := r.trace;
        && Extends(h, t) && |t| > |h| && StatusPolls(t[|h|..]) == 1
        && (|| (NoSave(t[|h|..]) && r.outcome == Pass && t[|t| - 1] == InitStatus && respond(t) == InitState(true))
            || (&& t[|t| - 1].Save? && |t| >= |h| + 2 && SavesInitReply(req, t, respond)
                && NoSave(t[|h|..|t| - 1]) && r.outcome == SaveOutcome(respond(t))))
  {
    if InitAttempt(req, h, respond).Retry? {
      RetryParts(req, h, respond);
    } else {
      StopParts(req, h, respond);
    }
  }

  lemma RetryParts(req: InitRequest, h: seq<Event>, respond: seq<Event> -> Reply)
    requires InitAttempt(req, h, respond).Retry?
    ensures var h' := InitAttempt(req, h, respond).trace;
      Extends(h, h') && StatusPolls(h'[|h|..]) == 1 && NoSave(h'[|h|..])
  {
    AttemptShape(req, h, respond);
    var h' := InitAttempt(req, h, respond).trace;
    if h' == h + [InitStatus] {
      assert h'[|h|..] == [InitStatus];
    } else {
      assert h'[|h|..] == [InitStatus, Init(req)];
    }
  }

  lemma StopParts(req: InitRequest, h: seq<Event>, respond: seq<Event> -> Reply)
    requires InitAttempt(req, h, respond).Stop?
    ensures var r := InitAttempt(req, h, respond).run;
      var t := r.trace;
      && Extends(h, t) && |t| > |h| && StatusPolls(t[|h|..]) == 1
      && (|| (NoSave(t[|h|..]) && r.outcome == Pass && t[|t| - 1] == InitStatus && respond(t) == InitState(true))
          || (&& t[|t| - 1].Save? && |t| >= |h| + 2 && SavesInitReply(req, t, respond)
              && NoSave(t[|h|..|t| - 1]) && r.outcome == SaveOutcome(respond(t))))
  {
    AttemptShape(req, h, respond);
    var t := InitAttempt(req, h, respond).run.trace;
    if t == h + [InitStatus] {
      assert t[|h|..] == [InitStatus];
    } else {
      assert t[..|h|] == t[..|h| + 2][..|h|];
      assert t[|h|..] == [InitStatus, Init(req), t[|t| - 1]];
      assert t[|h|..|t| - 1] == [InitStatus, Init(req)];
    }
  }

  /** Init only adds to the history, and reads the init status at most `attempts` times. */
  lemma {:induction false} InitPollsBounded(req: InitRequest, attempts: nat, h: seq<Event>, respond: seq<Event> -> Reply)
    ensures var t := InitAttempts(req, attempts, h, respond).trace;
      Extends(h, t) && StatusPolls(t[|h|..]) <= attempts
    decreases attempts
  {
    var t := InitAttempts(req, attempts, h, respond).trace;
    if attempts == 0 {
      assert t[|h|..] == [];
    } else {
      AttemptParts(req, h, respond);
      match InitAttempt(req, h, respond)
      case Retry(h') =>
        InitPollsBounded(req, attempts - 1, h', respond);
        NewPartSplit(h, h', t);
      case Stop(r) =>
    }
  }

  /**
   * A run from `h` with `attempts` polls that never saved found the server initialized, so
   * that its last call was a status read saying so and it returns nil, or used up every
   * poll and returns the timeout error.
   */
  predicate EndsWithoutSave(h: seq<Event>, attempts: nat, r: Run, respond: seq<Event> -> Reply) {
    var t := r.trace;
    Extends(h, t) && NoSave(t[|h|..]) ==>
      || (r.outcome == Pass && |t| > |h| && t[|t| - 1] == InitStatus && respond(t) == InitState(true))
      || (r.outcome == Fail(InitTimeoutMessage) && StatusPolls(t[|h|..]) == attempts)
  }

  /** One more poll before, which read the status once and did not save, keeps the form. */
  lemma EndsWithoutSaveAfter(h: seq<Event>, m: seq<Event>, attempts: nat, r: Run, respond: seq<Event> -> Reply)
    requires Extends(h, m) && Extends(m, r.trace) && NoSave(m[|h|..]) && StatusPolls(m[|h|..]) == 1
    requires EndsWithoutSave(m, attempts, r, respond)
    ensures EndsWithoutSave(h, attempts + 1, r, respond)
  {
    NewPartSplit(h, m, r.trace);
  }

  /**
   * An Init run that never saved either found the server initialized, so that its last
   * call was a status read that said so and it returns nil, or used up every poll and
   * returns the timeout error: status and init errors are retried, never returned.
   */
  lemma {:induction false} InitWithoutSave(req: InitRequest, attempts: nat, h: seq<Event>, respond: seq<Event> -> Reply)
    ensures EndsWithoutSave(h, attempts, InitAttempts(req, attempts, h, respond), respond)
    decreases attempts
  {
    if attempts == 0 {
      assert InitAttempts(req, attempts, h, respond).trace[|h|..] == [];
    } else if InitAttempt(req, h, respond).Retry? {
      InitWithoutSave(req, attempts - 1, InitAttempt(req, h, respond).trace, respond);
      RetryEndsWithoutSave(req, attempts, h, respond);
    } else {
      StopEndsWithoutSave(req, attempts, h, respond);
    }
  }

  /** A poll that stops has the form. */
  lemma StopEndsWithoutSave(req: InitRequest, attempts: nat, h: seq<Event>, respond: seq<Event> -> Reply)
    requires attempts > 0 && InitAttempt(req, h, respond).Stop?
    ensures EndsWithoutSave(h, attempts, InitAttempts(req, attempts, h, respond), respond)
  {
    var r := InitAttempt(req, h, respond).run;
    var t := r.trace;
    assert InitAttempts(req, attempts, h, respond) == r;
    AttemptParts(req, h, respond);
    if t[|t| - 1].Save? {
      assert t[|h|..][|t| - 1 - |h|] == t[|t| - 1];
    }
  }

  /** A poll that retries keeps the form of the rest of the run, with one poll more. */
  lemma RetryEndsWithoutSave(req: InitRequest, attempts: nat, h: seq<Event>, respond: seq<Event> -> Reply)
    requires attempts > 0 && InitAttempt(req, h, respond).Retry?
    requires var h' := InitAttempt(req, h, respond).trace;
      EndsWithoutSave(h', attempts - 1, InitAttempts(req, attempts - 1, h', respond), respond)
    ensures EndsWithoutSave(h, attempts, InitAttempts(req, attempts, h, respond), respond)
  {
    var h' := InitAttempt(req, h, respond).trace;
    var r := InitAttempts(req, attempts - 1, h', respond);
    assert InitAttempts(req, attempts, h, respond) == r;
    AttemptParts(req, h, respond);
    InitPollsBounded(req, attempts - 1, h', respond);
    EndsWithoutSaveAfter(h, h', attempts - 1, r, respond);
  }

  /**
   * Every init call of an Init run comes right after a status read that reported the
   * server not initialized: a server found initialized is never initialized again.
   */
  lemma {:induction false} InitOnlyWhenUninitialized(req: InitRequest, attempts: nat, h: seq<Event>, respond: seq<Event> -> Reply)
    ensures var t := InitAttempts(req, attempts, h, respond).trace;
      forall i | |h| <= i < |t| && t[i].Init? :: i > |h| && t[i - 1] == InitStatus && respond(t[..i]) == InitState(false)
    decreases attempts
  {
    var t := InitAttempts(req, attempts, h, respond).trace;
    if attempts > 0 {
      AttemptShape(req, h, respond);
      match InitAttempt(req, h, respond)
      case Retry(h') =>
        InitOnlyWhenUninitialized(req, attempts - 1, h', respond);
        InitPollsBounded(req, attempts - 1, h', respond);
        forall i | |h| <= i < |t| && t[i].Init?
          ensures i > |h| && t[i - 1] == InitStatus && respond(t[..i]) == InitState(false)
        {
          if i < |h'| {
            assert t[..|h'|] == h';
            assert t[i] == h'[i];
            assert i == |h| + 1 && h' == h + [InitStatus, Init(req)];
            assert t[..i] == h'[..i];
            assert h'[..i] == h + [InitStatus];
          }
        }
      case Stop(r) =>
        forall i | |h| <= i < |t| && t[i].Init?
          ensures i > |h| && t[i - 1] == InitStatus && respond(t[..i]) == InitState(false)
        {
          assert t[..|h| + 2] == h + [InitStatus, Init(req)];
          assert t[..i] == h + [InitStatus];
        }
    }
  }

  /**
   * A run that saved after `h` did so exactly once, as its last call, saving what the init
   * call just before it returned, and returns what that save returned.
   */
  predicate SavesOnceLast(req: InitRequest, h: seq<Event>, r: Run, respond: seq<Event> -> Reply) {
    var t := r.trace;
    Extends(h, t) && !NoSave(t[|h|..]) ==>
      && |t| >= |h| + 2 && t[|t| - 1].Save? && NoSave(t[|h|..|t| - 1])
      && SavesInitReply(req, t, respond)
      && r.outcome == SaveOutcome(respond(t))
  }

  /** Calls before, none of them a save, keep the form. */
  lemma SavesOnceLastAfter(req: InitRequest, h: seq<Event>, m: seq<Event>, r: Run, respond: seq<Event> -> Reply)
    requires Extends(h, m) && Extends(m, r.trace) && NoSave(m[|h|..]) && SavesOnceLast(req, m, r, respond)
    ensures SavesOnceLast(req, h, r, respond)
  {
    var t := r.trace;
    if !NoSave(t[|h|..]) {
      SaveAfterQuietPrefix(h, m, t);
    }
  }

  /** A poll that stops has the form. */
  lemma StopSavesOnceLast(req: InitRequest, h: seq<Event>, respond: seq<Event> -> Reply)
    requires InitAttempt(req, h, respond).Stop?
    ensures SavesOnceLast(req, h, InitAttempt(req, h, respond).run, respond)
  {
    AttemptParts(req, h, respond);
  }

  /** A poll that retries keeps the form of the rest of the run. */
  lemma RetrySavesOnceLast(req: InitRequest, attempts: nat, h: seq<Event>, respond: seq<Event> -> Reply)
    requires attempts > 0 && InitAttempt(req, h, respond).Retry?
    requires var h' := InitAttempt(req, h, respond).trace;
      SavesOnceLast(req, h', InitAttempts(req, attempts - 1, h', respond), respond)
    ensures SavesOnceLast(req, h, InitAttempts(req, attempts, h, respond), respond)
  {
    var h' := InitAttempt(req, h, respond).trace;
    var r := InitAttempts(req, attempts - 1, h', respond);
    assert InitAttempts(req, attempts, h, respond) == r;
    AttemptParts(req, h, respond);
    InitPollsBounded(req, attempts - 1, h', respond);
    SavesOnceLastAfter(req, h, h', r, respond);
  }

  /**
   * An Init run that saved did so exactly once, as its last call, saving the reply of the
   * init call just before it, and returns what that save returned: a failed save is
   * returned at once and not retried.
   */
  lemma {:induction false} InitSavesOnceLast(req: InitRequest, attempts: nat, h: seq<Event>, respond: seq<Event> -> Reply)
    ensures SavesOnceLast(req, h, InitAttempts(req, attempts, h, respond), respond)
    decreases attempts
  {
    if attempts == 0 {
      assert InitAttempts(req, attempts, h, respond).trace[|h|..] == [];
    } else if InitAttempt(req, h, respond).Retry? {
      InitSavesOnceLast(req, attempts - 1, InitAttempt(req, h, respond).trace, respond);
      RetrySavesOnceLast(req, attempts, h, respond);
    } else {
      StopSavesOnceLast(req, h, respond);
    }
  }

  /** A save after a prefix with none lies in the rest, and a last-call save stays the only one. */
  lemma SaveAfterQuietPrefix(h: seq<Event>, m: seq<Event>, t: seq<Event>)
    requires Extends(h, m) && Extends(m, t) && NoSave(m[|h|..]) && !NoSave(t[|h|..])
    ensures !NoSave(t[|m|..])
    ensures |t| > |m| && NoSave(t[|m|..|t| - 1]) ==> NoSave(t[|h|..|t| - 1])
  {
    NewPartSplit(h, m, t);
    if |t| > |m| {
      NoSaveConcat(m[|h|..], t[|m|..|t| - 1]);
    }
  }

  lemma NoSaveConcat(a: seq<Event>, b: seq<Event>)
    ensures NoSave(a + b) <==> NoSave(a) && NoSave(b)
  {
    if NoSave(a) && NoSave(b) {
      forall i | 0 <= i < |a + b| ensures !(a + b)[i].Save? {
        if i >= |a| { assert (a + b)[i] == b[i - |a|]; }
      }
    }
    if NoSave(a + b) {
      forall i | 0 <= i < |a| ensures !a[i].Save? {
        assert (a + b)[i] == a[i];
      }
      forall i | 0 <= i < |b| ensures !b[i].Save? {
        assert (a + b)[|a| + i] == b[i];
      }
    }
  }

  lemma QuietConcat(a: seq<Event>, b: seq<Event>)
    ensures Quiet(a + b) <==> Quiet(a) && Quiet(b)
  {
    if Quiet(a) && Quiet(b) {
      forall i | 0 <= i < |a + b| ensures !(a + b)[i].Save? && !(a + b)[i].RevokeSelf? {
        if i >= |a| { assert (a + b)[i] == b[i - |a|]; }
      }
    }
    if Quiet(a + b) {
      forall i | 0 <= i < |a| ensures !a[i].Save? && !a[i].RevokeSelf? {
        assert (a + b)[i] == a[i];
      }
      forall i | 0 <= i < |b| ensures !b[i].Save? && !b[i].RevokeSelf? {
        assert (a + b)[|a| + i] == b[i];
      }
    }
  }

  /** A key loop neither saves nor revokes, and its k-th update submits the k-th key. */
  lemma LoopCalls(c: Ceremony, keys: seq<string>, nonce: string, h: seq<Event>, respond: seq<Event> -> Reply)
    ensures var r := KeyLoop(c, keys, nonce, h, respond);
      && Extends(h, r.trace) && Quiet(r.trace[|h|..])
      && forall i | |h| <= i < |r.trace| && r.trace[i].Update? ::
           i - |h| < |keys| && r.trace[i] == Update(c, keys[i - |h|], nonce)
  {
    KeyLoopTrace(c, keys, nonce, h, respond);
    var r := KeyLoop(c, keys, nonce, h, respond);
    var u := Updates(c, keys[..r.sent], nonce);
    var tail: seq<Event> := if r.end.Aborted? then [Cancel(c)] else [];
    assert r.trace == h + (u + tail);
    assert r.trace[..|h|] == h;
    assert r.trace[|h|..] == u + tail;
    forall i | 0 <= i < |u + tail| ensures (u + tail)[i].Update? || (u + tail)[i] == Cancel(c) {
      if i >= |u| { assert (u + tail)[i] == tail[i - |u|]; }
    }
    forall i | |h| <= i < |r.trace| && r.trace[i].Update?
      ensures i - |h| < |keys| && r.trace[i] == Update(c, keys[i - |h|], nonce)
    {
      assert r.trace[i] == (u + tail)[i - |h|];
    }
  }

  lemma CheckAndLoadShape(c: Ceremony, busy: string, h: seq<Event>, respond: seq<Event> -> Reply)
    ensures var h1 := h + [ProcessStatus(c)];
      match CheckAndLoad(c, busy, h, respond)
      case Next(t, loaded) =>
        t == h1 + [Load] && Idle(respond(h1)) && AsLoaded(respond(t)) == Ok(loaded)
      case Halt(r) =>
        && (r.outcome.Fail? || (r.outcome == Crash && r.trace == h1 + [Load] && respond(r.trace).Panicked?))
        && (|| (r.trace == h1 && !Idle(respond(h1)))
            || (r.trace == h1 + [Load] && Idle(respond(h1)) && AsLoaded(respond(r.trace)).Err?))
        && (AsProcess(respond(h1)).Ok? && AsProcess(respond(h1)).value.started ==> r.outcome == Fail(busy))
  {
  }

  /**
   * Rekey after the start call: every update submits the next stored share against the
   * start call's nonce; an aborted loop ends with its cancel call and returns without
   * saving; otherwise the response (rekeyed, or unchanged when the loop never saw the
   * process complete) is saved once, right after the loop; nil is returned only after a
   * successful save; and the verification updates, made only when verification is required
   * and the save succeeded, submit the saved response's recovery keys in order.
   */
  lemma RekeyClosing(s: Settings, kind: KeyKind, resp: InitResponse, nonce: string, h: seq<Event>, respond: seq<Event> -> Reply)
    ensures var loop := KeyLoop(Rekey(kind), KeysOf(resp, kind), nonce, h, respond);
      var saved := Rekeyed(resp, kind, loop.end);
      var m := loop.trace + [Save(saved)];
      var r := FinishRekey(s, kind, resp, nonce, h, respond);
      && Extends(h, loop.trace) && Extends(loop.trace, r.trace) && Extends(h, r.trace)
      && (forall i | |h| <= i < |loop.trace| && r.trace[i].Update? ::
            i - |h| < |KeysOf(resp, kind)| && r.trace[i] == Update(Rekey(kind), KeysOf(resp, kind)[i - |h|], nonce))
      && (loop.end.Aborted? ==>
            && r.trace == loop.trace && |r.trace| > |h| && r.trace[|r.trace| - 1] == Cancel(Rekey(kind))
            && NoSave(r.trace[|h|..]) && r.outcome == Fail(loop.end.msg))
      && (!loop.end.Aborted? ==> Extends(m, r.trace) && NoSave(loop.trace[|h|..]) && NoSave(r.trace[|m|..]))
      && (r.outcome == Pass ==> !loop.end.Aborted? && AsText(respond(m)).Ok?)
      && (|r.trace| > |m| ==> !loop.end.Aborted? && s.requireVerification && AsText(respond(m)).Ok?)
  {
    var loop := KeyLoop(Rekey(kind), KeysOf(resp, kind), nonce, h, respond);
    var saved := Rekeyed(resp, kind, loop.end);
    var m := loop.trace + [Save(saved)];
    var r := FinishRekey(s, kind, resp, nonce, h, respond);
    LoopCalls(Rekey(kind), KeysOf(resp, kind), nonce, h, respond);
    CancelOnlyOnAbort(Rekey(kind), KeysOf(resp, kind), nonce, h, respond);
    if loop.end.Aborted? {
      assert r == Run(loop.trace, Fail(loop.end.msg));
    } else {
      assert Extends(loop.trace, m);
      ExtendsTrans(h, loop.trace, m);
      if AsText(respond(m)).Ok? && s.requireVerification {
        var v := KeyLoop(RekeyVerify(kind), saved.recoveryKeysB64, nonce, m, respond);
        LoopCalls(RekeyVerify(kind), saved.recoveryKeysB64, nonce, m, respond);
        assert r == Run(v.trace, if v.end.Aborted? then Fail(v.end.msg) else Pass);
        ExtendsTrans(loop.trace, m, v.trace);
        ExtendsTrans(h, m, v.trace);
        assert NoSave(v.trace[|m|..]);
      } else {
        assert r.trace == m;
        assert r.trace[|m|..] == [];
      }
    }
  }

  /**
   * The verification updates after a rekey's save submit, in order and against the start
   * call's nonce, the recovery keys of the saved response, for both kinds: after a rekey
   * of the unseal keys these are the stored recovery keys, which that rekey left unchanged.
   */
  lemma RekeyVerifiesSavedRecoveryKeys(s: Settings, kind: KeyKind, resp: InitResponse, nonce: string, h: seq<Event>, respond: seq<Event> -> Reply)
    ensures var loop := KeyLoop(Rekey(kind), KeysOf(resp, kind), nonce, h, respond);
      var saved := Rekeyed(resp, kind, loop.end);
      var m := loop.trace + [Save(saved)];
      var r := FinishRekey(s, kind, resp, nonce, h, respond);
      && (kind.Unseal? ==> saved.recoveryKeysB64 == resp.recoveryKeysB64)
      && (|r.trace| > |m| ==>
            forall i | |m| <= i < |r.trace| && r.trace[i].Update? ::
              i - |m| < |saved.recoveryKeysB64| && r.trace[i] == Update(RekeyVerify(kind), saved.recoveryKeysB64[i - |m|], nonce))
  {
    var loop := KeyLoop(Rekey(kind), KeysOf(resp, kind), nonce, h, respond);
    var saved := Rekeyed(resp, kind, loop.end);
    var m := loop.trace + [Save(saved)];
    if !loop.end.Aborted? && AsText(respond(m)).Ok? && s.requireVerification {
      LoopCalls(RekeyVerify(kind), saved.recoveryKeysB64, nonce, m, respond);
    }
  }

  /**
   * Rekey before the key loop: with verification required and PGP keys configured it fails
   * before any call; otherwise its first call reads the process status, a started process
   * fails with the in-progress error, the init response is loaded only after a status
   * saying no process is started, and the start call, carrying the kind's parameters, comes
   * only after a successful load.
   */
  lemma RekeyOpening(s: Settings, kind: KeyKind, h: seq<Event>, respond: seq<Event> -> Reply)
    ensures var r := RekeySpec(s, kind, h, respond);
      var t := r.trace;
      var h1 := h + [ProcessStatus(Rekey(kind))];
      var h2 := h1 + [Load];
      && (PgpBlocked(s, kind) ==> r == Run(h, Fail(PgpVerifyMessage(kind))))
      && (!PgpBlocked(s, kind) ==> Extends(h1, t))
      && (!PgpBlocked(s, kind) && AsProcess(respond(h1)).Ok? && AsProcess(respond(h1)).value.started ==>
            r == Run(h1, Fail(RekeyBusyMessage(kind))))
      && (|t| > |h1| ==> Idle(respond(h1)) && Extends(h2, t))
      && (|t| > |h2| ==> AsLoaded(respond(h2)).Ok? && Extends(h2 + [RekeyStart(kind, RekeyRequestFor(s, kind))], t))
  {
    OpenRekeyShape(s, kind, h, respond);
    match OpenRekey(s, kind, h, respond)
    case Halt(_) =>
    case Next(t0, v) =>
      RekeyClosing(s, kind, v.0, v.1, t0, respond);
      var h1 := h + [ProcessStatus(Rekey(kind))];
      var h2 := h1 + [Load];
      var t := RekeySpec(s, kind, h, respond).trace;
      assert Extends(h1, t0) && Extends(h2, t0);
      ExtendsTrans(h1, t0, t);
      ExtendsTrans(h2, t0, t);
  }

  /**
   * A Load that panics takes a rekey down at once; a Load that returns neither a response
   * nor an error lets the start call go out, and the rekey then fails with that call's error
   * or, when it succeeded, panics on the missing response before any update.
   */
  lemma RekeyNilLoad(s: Settings, kind: KeyKind, h: seq<Event>, respond: seq<Event> -> Reply)
    requires !PgpBlocked(s, kind) && Idle(respond(h + [ProcessStatus(Rekey(kind))]))
    ensures var h2 := h + [ProcessStatus(Rekey(kind)), Load];
      var h3 := h2 + [RekeyStart(kind, RekeyRequestFor(s, kind))];
      var r := RekeySpec(s, kind, h, respond);
      && (respond(h2).Panicked? ==> r == Run(h2, Crash))
      && (respond(h2) == Empty ==>
            r == Run(h3, if AsProcess(respond(h3)).Ok? then Crash else Fail(AsProcess(respond(h3)).msg)))
  {
    assert h + [ProcessStatus(Rekey(kind)), Load] == h + [ProcessStatus(Rekey(kind))] + [Load];
  }

  lemma OpenRekeyShape(s: Settings, kind: KeyKind, h: seq<Event>, respond: seq<Event> -> Reply)
    ensures var h1 := h + [ProcessStatus(Rekey(kind))];
      match OpenRekey(s, kind, h, respond)
      case Next(t, v) =>
        && !PgpBlocked(s, kind) && t == h1 + [Load, RekeyStart(kind, RekeyRequestFor(s, kind))]
        && Idle(respond(h1)) && AsLoaded(respond(h1 + [Load])) == Ok(Some(v.0))
        && AsProcess(respond(t)).Ok? && AsProcess(respond(t)).value.nonce == v.1
      case Halt(r) =>
        RekeyHaltForm(s, kind, h, r, respond)
  {
    match OpenRekey(s, kind, h, respond)
    case Next(_, _) => OpenRekeyNext(s, kind, h, respond);
    case Halt(_) => OpenRekeyHalt(s, kind, h, respond);
  }

  lemma OpenRekeyNext(s: Settings, kind: KeyKind, h: seq<Event>, respond: seq<Event> -> Reply)
    requires OpenRekey(s, kind, h, respond).Next?
    ensures var h1 := h + [ProcessStatus(Rekey(kind))];
      var st := OpenRekey(s, kind, h, respond);
      && !PgpBlocked(s, kind) && st.trace == h1 + [Load, RekeyStart(kind, RekeyRequestFor(s, kind))]
      && Idle(respond(h1)) && AsLoaded(respond(h1 + [Load])) == Ok(Some(st.value.0))
      && AsProcess(respond(st.trace)).Ok? && AsProcess(respond(st.trace)).value.nonce == st.value.1
  {
    CheckAndLoadShape(Rekey(kind), RekeyBusyMessage(kind), h, respond);
  }

  /**
   * How a rekey that stops before its key loop ends: without a save and without success, the
   * calls made in order, each only after the previous one succeeded, and a crash only where
   * the load panicked or returned nothing and the start call succeeded.
   */
  predicate RekeyHaltForm(s: Settings, kind: KeyKind, h: seq<Event>, r: Run, respond: seq<Event> -> Reply) {
    var h1 := h + [ProcessStatus(Rekey(kind))];
    && Extends(h, r.trace) && NoSave(r.trace[|h|..]) && r.outcome != Pass
    && (r.outcome == Crash ==>
          || (r.trace == h1 + [Load] && respond(r.trace).Panicked?)
          || (&& r.trace == h1 + [Load, RekeyStart(kind, RekeyRequestFor(s, kind))]
              && AsLoaded(respond(h1 + [Load])) == Ok(None) && AsProcess(respond(r.trace)).Ok?))
    && (PgpBlocked(s, kind) ==> r == Run(h, Fail(PgpVerifyMessage(kind))))
    && (!PgpBlocked(s, kind) ==> Extends(h1, r.trace))
    && (!PgpBlocked(s, kind) && AsProcess(respond(h1)).Ok? && AsProcess(respond(h1)).value.started ==>
          r == Run(h1, Fail(RekeyBusyMessage(kind))))
    && (|r.trace| > |h1| ==> Idle(respond(h1)) && Extends(h1 + [Load], r.trace))
    && (|r.trace| > |h1| + 1 ==>
          && AsLoaded(respond(h1 + [Load])).Ok? && |r.trace| == |h1| + 2
          && r.trace == h1 + [Load, RekeyStart(kind, RekeyRequestFor(s, kind))])
  }

  lemma OpenRekeyHalt(s: Settings, kind: KeyKind, h: seq<Event>, respond: seq<Event> -> Reply)
    requires OpenRekey(s, kind, h, respond).Halt?
    ensures RekeyHaltForm(s, kind, h, OpenRekey(s, kind, h, respond).run, respond)
  {
    if PgpBlocked(s, kind) {
      assert OpenRekey(s, kind, h, respond).run.trace[|h|..] == [];
    } else if CheckAndLoad(Rekey(kind), RekeyBusyMessage(kind), h, respond).Halt? {
      RekeyHaltBeforeStart(s, kind, h, respond);
    } else {
      RekeyHaltAtStart(s, kind, h, respond);
    }
  }

  /** The status read or the load stopped the rekey. */
  lemma RekeyHaltBeforeStart(s: Settings, kind: KeyKind, h: seq<Event>, respond: seq<Event> -> Reply)
    requires !PgpBlocked(s, kind) && CheckAndLoad(Rekey(kind), RekeyBusyMessage(kind), h, respond).Halt?
    ensures RekeyHaltForm(s, kind, h, OpenRekey(s, kind, h, respond).run, respond)
  {
    var h1 := h + [ProcessStatus(Rekey(kind))];
    CheckAndLoadShape(Rekey(kind), RekeyBusyMessage(kind), h, respond);
    var r := CheckAndLoad(Rekey(kind), RekeyBusyMessage(kind), h, respond).run;
    assert OpenRekey(s, kind, h, respond).run == r;
    if r.trace == h1 {
      assert r.trace[|h|..] == [ProcessStatus(Rekey(kind))];
    } else {
      assert r.trace[|h|..] == [ProcessStatus(Rekey(kind)), Load];
      assert r.trace[..|h1|] == h1;
    }
  }

  /** The start call failed. */
  lemma RekeyHaltAtStart(s: Settings, kind: KeyKind, h: seq<Event>, respond: seq<Event> -> Reply)
    requires !PgpBlocked(s, kind) && CheckAndLoad(Rekey(kind), RekeyBusyMessage(kind), h, respond).Next?
    requires OpenRekey(s, kind, h, respond).Halt?
    ensures RekeyHaltForm(s, kind, h, OpenRekey(s, kind, h, respond).run, respond)
  {
    var h1 := h + [ProcessStatus(Rekey(kind))];
    CheckAndLoadShape(Rekey(kind), RekeyBusyMessage(kind), h, respond);
    var h2 := CheckAndLoad(Rekey(kind), RekeyBusyMessage(kind), h, respond).trace;
    var h3 := h2 + [RekeyStart(kind, RekeyRequestFor(s, kind))];
    assert OpenRekey(s, kind, h, respond).run.trace == h3;
    assert h3 == h1 + [Load, RekeyStart(kind, RekeyRequestFor(s, kind))];
    assert h3[|h|..] == [ProcessStatus(Rekey(kind)), Load, RekeyStart(kind, RekeyRequestFor(s, kind))];
    assert h3[..|h1|] == h1 && h3[..|h2|] == h2;
  }

  lemma OpenRotateShape(s: Settings, h: seq<Event>, respond: seq<Event> -> Reply)
    ensures var h1 := h + [ProcessStatus(GenerateRoot)];
      match OpenRotate(s, h, respond)
      case Next(t, v) =>
        && t == h1 + [Load, GenerateOtp(OtpLength), GenerateRootStart(v.1, s.rootTokenPgpKey)]
        && Idle(respond(h1)) && AsLoaded(respond(h1 + [Load])) == Ok(Some(v.0))
        && AsText(respond(h1 + [Load, GenerateOtp(OtpLength)])) == Ok(v.1)
        && AsProcess(respond(t)).Ok? && AsProcess(respond(t)).value.nonce == v.2
      case Halt(r) =>
        && Extends(h, r.trace) && Quiet(r.trace[|h|..]) && r.outcome != Pass
        && (r.outcome == Crash ==>
              || (r.trace == h1 + [Load] && respond(r.trace).Panicked?)
              || (|r.trace| == |h1| + 3 && AsLoaded(respond(h1 + [Load])) == Ok(None) && AsProcess(respond(r.trace)).Ok?))
        && (AsProcess(respond(h1)).Ok? && AsProcess(respond(h1)).value.started ==> r == Run(h1, Fail(RootBusyMessage)))
        && Extends(h1, r.trace)
        && (|r.trace| > |h1| ==> Idle(respond(h1)) && Extends(h1 + [Load], r.trace))
        && (|r.trace| > |h1| + 1 ==> AsLoaded(respond(h1 + [Load])).Ok? && Extends(h1 + [Load, GenerateOtp(OtpLength)], r.trace))
        && (|r.trace| > |h1| + 2 ==>
              && AsText(respond(h1 + [Load, GenerateOtp(OtpLength)])).Ok?
              && r.trace == h1 + [Load, GenerateOtp(OtpLength),
                                  GenerateRootStart(AsText(respond(h1 + [Load, GenerateOtp(OtpLength)])).value, s.rootTokenPgpKey)])
  {
    var h1 := h + [ProcessStatus(GenerateRoot)];
    CheckAndLoadShape(GenerateRoot, RootBusyMessage, h, respond);
    match CheckAndLoad(GenerateRoot, RootBusyMessage, h, respond)
    case Halt(r) =>
      if r.trace == h1 {
        assert r.trace[|h|..] == [ProcessStatus(GenerateRoot)];
      } else {
        assert r.trace[|h|..] == [ProcessStatus(GenerateRoot), Load];
        assert r.trace[..|h1|] == h1;
      }
    case Next(h2, _) =>
      var h3 := h2 + [GenerateOtp(OtpLength)];
      assert h3 == h1 + [Load, GenerateOtp(OtpLength)];
      match AsText(respond(h3))
      case Err(_) =>
        assert h3[|h|..] == [ProcessStatus(GenerateRoot), Load, GenerateOtp(OtpLength)];
        assert h3[..|h1|] == h1 && h3[..|h2|] == h2;
      case Ok(otp) =>
        var h4 := h3 + [GenerateRootStart(otp, s.rootTokenPgpKey)];
        assert h4 == h1 + [Load, GenerateOtp(OtpLength), GenerateRootStart(otp, s.rootTokenPgpKey)];
        assert h4[|h|..] == [ProcessStatus(GenerateRoot), Load, GenerateOtp(OtpLength), GenerateRootStart(otp, s.rootTokenPgpKey)];
        assert h4[..|h1|] == h1 && h4[..|h2|] == h2 && h4[..|h3|] == h3;
  }

  /**
   * RotateRoot after the start call: every update submits the next share of RotationKeys
   * (the unseal keys, or the recovery keys when there are none) against the start call's
   * nonce; an aborted loop, or a completed one whose token does not decode, returns before
   * any save; otherwise the next call saves the response, with the decoded root token when
   * the process completed and unchanged when it did not.
   */
  lemma RotateRootClosing(resp: InitResponse, otp: string, nonce: string, h: seq<Event>, respond: seq<Event> -> Reply,
                          xor: (seq<byte>, string) -> Result<seq<byte>>)
    ensures var loop := KeyLoop(GenerateRoot, RotationKeys(resp), nonce, h, respond);
      var r := FinishRotate(resp, otp, nonce, h, respond, xor);
      && Extends(h, loop.trace) && Extends(loop.trace, r.trace) && Extends(h, r.trace) && Quiet(loop.trace[|h|..])
      && (forall i | |h| <= i < |loop.trace| && loop.trace[i].Update? ::
            i - |h| < |RotationKeys(resp)| && loop.trace[i] == Update(GenerateRoot, RotationKeys(resp)[i - |h|], nonce))
      && (loop.end.Aborted? ==> r == Run(loop.trace, Fail(loop.end.msg)))
      && (loop.end.Completed? && DecodeRoot(loop.end.progress.encodedToken, otp, xor).Err? ==>
            r == Run(loop.trace, Fail(DecodeRoot(loop.end.progress.encodedToken, otp, xor).msg)))
      && (loop.end.Exhausted? ==> |r.trace| > |loop.trace| && r.trace[|loop.trace|] == Save(resp))
      && (loop.end.Completed? && DecodeRoot(loop.end.progress.encodedToken, otp, xor).Ok? ==>
            && |r.trace| > |loop.trace|
            && r.trace[|loop.trace|] == Save(resp.(rootToken := DecodeRoot(loop.end.progress.encodedToken, otp, xor).value)))
  {
    LoopCalls(GenerateRoot, RotationKeys(resp), nonce, h, respond);
    var loop := KeyLoop(GenerateRoot, RotationKeys(resp), nonce, h, respond);
    var r := FinishRotate(resp, otp, nonce, h, respond, xor);
    ExtendsTrans(h, loop.trace, r.trace);
  }

  lemma ExtendsTrans(a: seq<Event>, b: seq<Event>, c: seq<Event>)
    requires Extends(a, b) && Extends(b, c)
    ensures Extends(a, c)
  {
    assert c[..|a|] == c[..|b|][..|a|];
  }

  /**
   * The ways a run that ends by saving and revoking can end after history `h`: failing or
   * crashing with neither a save nor a revocation, or with its only save, which failed and whose error it
   * returns, or with its only save, which succeeded, followed by the revocation of the
   * current token, whose result it returns.
   */
  predicate SavesBeforeRevoke(h: seq<Event>, r: Run, respond: seq<Event> -> Reply) {
    var t := r.trace;
    && Extends(h, t)
    && (|| (Quiet(t[|h|..]) && r.outcome != Pass)
        || (&& |t| > |h| && Quiet(t[|h|..|t| - 1]) && t[|t| - 1].Save?
            && AsText(respond(t)).Err? && r.outcome == Fail(AsText(respond(t)).msg))
        || (&& |t| > |h| + 1 && Quiet(t[|h|..|t| - 2]) && t[|t| - 2].Save? && AsText(respond(t[..|t| - 1])).Ok?
            && t[|t| - 1] == RevokeSelf && r.outcome == AsOutcome(respond(t))))
  }

  /** A quiet prefix keeps the form. */
  lemma SavesBeforeRevokeAfter(h: seq<Event>, m: seq<Event>, r: Run, respond: seq<Event> -> Reply)
    requires Extends(h, m) && Quiet(m[|h|..]) && SavesBeforeRevoke(m, r, respond)
    ensures SavesBeforeRevoke(h, r, respond)
  {
    var t := r.trace;
    ExtendsTrans(h, m, t);
    assert t[..|m|] == m;
    assert t[|h|..] == m[|h|..] + t[|m|..];
    QuietConcat(m[|h|..], t[|m|..]);
    if |t| > |m| {
      assert t[|h|..|t| - 1] == m[|h|..] + t[|m|..|t| - 1];
      QuietConcat(m[|h|..], t[|m|..|t| - 1]);
    }
    if |t| > |m| + 1 {
      assert t[|h|..|t| - 2] == m[|h|..] + t[|m|..|t| - 2];
      QuietConcat(m[|h|..], t[|m|..|t| - 2]);
    }
  }

  /** Saving and then revoking has the form from its own start. */
  lemma SaveAndRevokeForm(resp: InitResponse, m: seq<Event>, respond: seq<Event> -> Reply)
    ensures SavesBeforeRevoke(m, SaveAndRevoke(resp, m, respond), respond)
  {
    var r := SaveAndRevoke(resp, m, respond);
    var t := r.trace;
    var m1 := m + [Save(resp)];
    assert t[..|m|] == m;
    if AsText(respond(m1)).Err? {
      assert t[|m|..|t| - 1] == [];
    } else {
      assert t[..|t| - 1] == m1;
      assert t[|m|..|t| - 2] == [];
    }
  }

  lemma FinishRotateSavesBeforeRevoke(resp: InitResponse, otp: string, nonce: string, h: seq<Event>, respond: seq<Event> -> Reply,
                                      xor: (seq<byte>, string) -> Result<seq<byte>>)
    ensures SavesBeforeRevoke(h, FinishRotate(resp, otp, nonce, h, respond, xor), respond)
  {
    var loop := KeyLoop(GenerateRoot, RotationKeys(resp), nonce, h, respond);
    LoopCalls(GenerateRoot, RotationKeys(resp), nonce, h, respond);
    var r := FinishRotate(resp, otp, nonce, h, respond, xor);
    var saves := loop.end.Exhausted? || (loop.end.Completed? && DecodeRoot(loop.end.progress.encodedToken, otp, xor).Ok?);
    if saves {
      var resp' := if loop.end.Exhausted? then resp
                   else resp.(rootToken := DecodeRoot(loop.end.progress.encodedToken, otp, xor).value);
      assert r == SaveAndRevoke(resp', loop.trace, respond);
      SaveAndRevokeForm(resp', loop.trace, respond);
      SavesBeforeRevokeAfter(h, loop.trace, r, respond);
    } else {
      assert r.trace == loop.trace && r.outcome.Fail?;
    }
  }

  /**
   * A RotateRoot run either fails or crashes making neither a save nor a revocation, or ends with its
   * only save, which failed and whose error it returns, or ends with its only save, which
   * succeeded, followed by the revocation of the current token, whose result it returns:
   * the token is revoked only after the new one has been saved.
   */
  lemma RotateRootSavesBeforeRevoke(s: Settings, h: seq<Event>, respond: seq<Event> -> Reply,
                                    xor: (seq<byte>, string) -> Result<seq<byte>>)
    ensures SavesBeforeRevoke(h, RotateRootSpec(s, h, respond, xor), respond)
  {
    if OpenRotate(s, h, respond).Halt? {
      OpenRotateHaltQuiet(s, h, respond);
    } else {
      OpenRotateNextQuiet(s, h, respond);
      var st := OpenRotate(s, h, respond);
      var r := FinishRotate(st.value.0, st.value.1, st.value.2, st.trace, respond, xor);
      assert RotateRootSpec(s, h, respond, xor) == r;
      FinishRotateSavesBeforeRevoke(st.value.0, st.value.1, st.value.2, st.trace, respond, xor);
      SavesBeforeRevokeAfter(h, st.trace, r, respond);
    }
  }

  /** A rotation that stops before its key loop does not succeed, and neither saves nor revokes. */
  lemma OpenRotateHaltQuiet(s: Settings, h: seq<Event>, respond: seq<Event> -> Reply)
    requires OpenRotate(s, h, respond).Halt?
    ensures var r := OpenRotate(s, h, respond).run;
      Extends(h, r.trace) && Quiet(r.trace[|h|..]) && r.outcome != Pass
  {
    OpenRotateShape(s, h, respond);
  }

  /** The calls before the key loop neither save nor revoke. */
  lemma OpenRotateNextQuiet(s: Settings, h: seq<Event>, respond: seq<Event> -> Reply)
    requires OpenRotate(s, h, respond).Next?
    ensures var t := OpenRotate(s, h, respond).trace;
      Extends(h, t) && Quiet(t[|h|..])
  {
    OpenRotateShape(s, h, respond);
    var st := OpenRotate(s, h, respond);
    assert st.trace[|h|..] == [ProcessStatus(GenerateRoot), Load, GenerateOtp(OtpLength), GenerateRootStart(st.value.1, s.rootTokenPgpKey)];
  }

  /**
   * RotateRoot before the key loop: its first call reads the process status, a started
   * process fails with the in-progress error, the init response is loaded only after a
   * status saying no process is started, the pad is generated only after a successful load,
   * and the start call carries that pad and the configured PGP key.
   */
  lemma RotateRootOpening(s: Settings, h: seq<Event>, respond: seq<Event> -> Reply,
                          xor: (seq<byte>, string) -> Result<seq<byte>>)
    ensures var r := RotateRootSpec(s, h, respond, xor);
      var t := r.trace;
      var h1 := h + [ProcessStatus(GenerateRoot)];
      var h2 := h1 + [Load];
      var h3 := h2 + [GenerateOtp(OtpLength)];
      && Extends(h1, t)
      && (AsProcess(respond(h1)).Ok? && AsProcess(respond(h1)).value.started ==> r == Run(h1, Fail(RootBusyMessage)))
      && (|t| > |h1| ==> Idle(respond(h1)) && Extends(h2, t))
      && (|t| > |h2| ==> AsLoaded(respond(h2)).Ok? && Extends(h3, t))
      && (|t| > |h3| ==> AsText(respond(h3)).Ok? && Extends(h3 + [GenerateRootStart(AsText(respond(h3)).value, s.rootTokenPgpKey)], t))
  {
    OpenRotateShape(s, h, respond);
    var h1 := h + [ProcessStatus(GenerateRoot)];
    var h2 := h1 + [Load];
    var h3 := h2 + [GenerateOtp(OtpLength)];
    match OpenRotate(s, h, respond)
    case Halt(_) =>
    case Next(t0, v) =>
      RotateRootClosing(v.0, v.1, v.2, t0, respond, xor);
      var t := RotateRootSpec(s, h, respond, xor).trace;
      assert Extends(h1, t0) && Extends(h2, t0) && Extends(h3, t0);
      ExtendsTrans(h1, t0, t);
      ExtendsTrans(h2, t0, t);
      ExtendsTrans(h3, t0, t);
  }

  /**
   * A Load that panics takes a rotation down at once; a Load that returns neither a response
   * nor an error lets the pad and the start call go out, and the rotation then fails with
   * the first of those calls' errors or, when both succeeded, panics on the missing response
   * before any update.
   */
  lemma RotateNilLoad(s: Settings, h: seq<Event>, respond: seq<Event> -> Reply,
                      xor: (seq<byte>, string) -> Result<seq<byte>>)
    requires Idle(respond(h + [ProcessStatus(GenerateRoot)]))
    ensures var h2 := h + [ProcessStatus(GenerateRoot), Load];
      var h3 := h2 + [GenerateOtp(OtpLength)];
      var r := RotateRootSpec(s, h, respond, xor);
      && (respond(h2).Panicked? ==> r == Run(h2, Crash))
      && (respond(h2) == Empty && AsText(respond(h3)).Err? ==> r == Run(h3, Fail(AsText(respond(h3)).msg)))
      && (respond(h2) == Empty && AsText(respond(h3)).Ok? ==>
            var h4 := h3 + [GenerateRootStart(AsText(respond(h3)).value, s.rootTokenPgpKey)];
            r == Run(h4, if AsProcess(respond(h4)).Ok? then Crash else Fail(AsProcess(respond(h4)).msg)))
  {
    assert h + [ProcessStatus(GenerateRoot), Load] == h + [ProcessStatus(GenerateRoot)] + [Load];
  }

  /** The new part of a history extended in two steps is the first step's part followed by the second's. */
  lemma NewPartSplit(h: seq<Event>, m: seq<Event>, t: seq<Event>)
    requires Extends(h, m) && Extends(m, t)
    ensures Extends(h, t)
    ensures t[|h|..] == m[|h|..] + t[|m|..]
    ensures multiset(t[|h|..])[InitStatus] == multiset(m[|h|..])[InitStatus] + multiset(t[|m|..])[InitStatus]
    ensures NoSave(t[|h|..]) <==> NoSave(m[|h|..]) && NoSave(t[|m|..])
    ensures |t| > |m| ==> t[|h|..|t| - 1] == m[|h|..] + t[|m|..|t| - 1]
  {
    assert t[..|m|] == m;
    assert t[|h|..] == t[|h|..|m|] + t[|m|..];
    assert t[|h|..|m|] == m[|h|..];
    if |t| > |m| {
      assert t[|h|..|t| - 1] == t[|h|..|m|] + t[|m|..|t| - 1];
    }
  }
}
