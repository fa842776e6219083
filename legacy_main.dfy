/**
 * The older command-line entry point (main.go with store_file.go): initialize, or, in
 * rotate mode, rekey the recovery keys and then rotate the root token, persisting the
 * init response through the selected save function with a fallback to the file.
 *
 * A fatal log ends the process; it is the terminal Exit Fatal. The state a run changes
 * is a World: the remote calls made, the files on disk and the value of the --save flag.
 */
module LegacyMain {
  import opened Outcomes
  import opened Codec
  import opened Remote
  import opened KeySubmission
  import opened FileSystem
  import SealOps
  import Base64

  datatype Exit = Finished | Fatal(msg: string)

  /** The flags this part of the program reads (the save function is looked up from `save`). */
  datatype Flags = Flags(save: string, filePath: string, recoveryShares: int, recoveryThreshold: int, rotate: bool)

  const SaveFile := "file"
  /**
   * The key of the Kubernetes-secret save function, whose code is not part of this model.
   * Its value is the one the --save help text names (main.go:56).
   */
  const SaveKubeSecret := "kube-secret"

  datatype SaveFunc = SaveToFile | SaveToKubeSecret

  /** The saveFuncs table. */
  function LookupSaveFunc(name: string): (f: Option<SaveFunc>)
    ensures f.Some? <==> name == SaveFile || name == SaveKubeSecret
    ensures f == Some(SaveToFile) <==> name == SaveFile
  {
    if name == SaveFile then Some(SaveToFile)
    else if name == SaveKubeSecret then Some(SaveToKubeSecret)
    else None
  }

  const UnsupportedSave := "unsupported save type"
  const ClientFailed := "unable to create vault api client"
  const InitJsonEmpty := "environment variable VAULT_INIT_JSON empty or unset"
  const InitJsonInvalid := "unable to unmarshal as VAULT_INIT_JSON"
  const InitTimeout := "unable to initialize vault within timeout"
  const KeysLost := "fallback file save failed, root token and keys have been lost"
  const RecoveryKeysLost := "fallback file save failed, new recovery keys have been lost"
  const RootTokenLost := "fallback file save failed, new root token has been lost"
  const RekeyStatusFailed := "error checking rekey recovery key status"
  const RekeyBusy := "rekey recovery key process is already in progress"
  const RekeyStartFailed := "error beginning rekey recovery key process"
  const RekeyCancelFailed := "error cancelling rekey recovery key process"
  const RekeyCancelled := "cancelled rekey recovery key process"
  const RootStatusFailed := "error checking generate root status before beginning"
  const RootBusy := "generate root process is already in progress"
  const OtpFailed := "error generating otp"
  const RootStartFailed := "error beginning generate root process"
  const RootCancelFailed := "error cancelling generate root process"
  const RootCancelled := "cancelled generate root process"
  const TokenLost := "error decoding root token, new root token has been lost"
  const RevokeFailed := "error revoking current root token"

  /** What a run changes: the remote calls, the files, and the --save flag's value. */
  datatype World = World(trace: seq<Event>, files: map<string, Text<InitResponse>>, flagSave: string)

  datatype Ending = Ending(world: World, exit: Exit)

  datatype Saved = Saved(world: World, result: Result<string>)

  /** saveFile: the JSON of the response written to the --file-path, which is the location. */
  function SaveFileSpec(path: string, locked: set<string>, w: World, resp: InitResponse): Saved {
    var files := Written(w.files, locked, path, Marshal(resp));
    match WriteError(locked, path)
    case Some(e) => Saved(w.(files := files), Err(e))
    case None => Saved(w.(files := files), Ok(path))
  }

  /** The selected save function; the Kubernetes-secret one is a remote call. */
  function SaveFuncSpec(f: SaveFunc, path: string, locked: set<string>, w: World, resp: InitResponse,
                        respond: seq<Event> -> Reply): Saved {
    match f
    case SaveToFile => SaveFileSpec(path, locked, w, resp)
    case SaveToKubeSecret =>
      var t := w.trace + [Save(resp)];
      Saved(w.(trace := t), AsText(respond(t)))
  }

  /**
   * Save through the selected function; when it fails, set --save to "file" and write the
   * file instead, and when that fails too, exit with `lost`.
   */
  function SaveOrFallback(f: SaveFunc, path: string, locked: set<string>, w: World, resp: InitResponse,
                          respond: seq<Event> -> Reply, lost: string): Ending {
    var first := SaveFuncSpec(f, path, locked, w, resp, respond);
    if first.result.Ok? then Ending(first.world, Finished)
    else
      var second := SaveFileSpec(path, locked, first.world.(flagSave := SaveFile), resp);
      if second.result.Ok? then Ending(second.world, Finished) else Ending(second.world, Fatal(lost))
  }

  /** The init request initialize sends: only the recovery shares and threshold are set. */
  function LegacyInitRequest(flags: Flags): InitRequest {
    InitRequest(0, 0, 0, [], flags.recoveryShares, flags.recoveryThreshold, [], "")
  }

  datatype Poll = Repoll(world: World) | Settled(ending: Ending)

  /** One pass of initialize's polling loop. */
  function InitializePoll(f: SaveFunc, flags: Flags, locked: set<string>, w: World, respond: seq<Event> -> Reply): Poll {
    var t1 := w.trace + [InitStatus];
    match AsFlag(respond(t1))
    case Err(_) => Repoll(w.(trace := t1))
    case Ok(initialized) =>
      if initialized then Settled(Ending(w.(trace := t1), Finished))
      else
        var t2 := t1 + [Init(LegacyInitRequest(flags))];
        match AsResponse(respond(t2))
        case Err(_) => Repoll(w.(trace := t2))
        case Ok(resp) => Settled(SaveOrFallback(f, flags.filePath, locked, w.(trace := t2), resp, respond, KeysLost))
  }

  /** initialize with `attempts` polls left before the timeout. */
  function InitializeSpec(f: SaveFunc, flags: Flags, attempts: nat, locked: set<string>, w: World,
                          respond: seq<Event> -> Reply): Ending
    decreases attempts
  {
    if attempts == 0 then Ending(w, Fatal(InitTimeout))
    else
      match InitializePoll(f, flags, locked, w, respond)
      case Repoll(w') => InitializeSpec(f, flags, attempts - 1, locked, w', respond)
      case Settled(e) => e
  }

  /** The fatal exit after a failed update: which one depends on whether the cancel call failed. */
  function CancelExit(cancelReply: Reply, cancelFailed: string, cancelled: string): Exit {
    if AsOutcome(cancelReply).Fail? then Fatal(cancelFailed) else Fatal(cancelled)
  }

  /** An ending and the init response as the shared response variable holds it afterwards. */
  datatype Carried = Carried(ending: Ending, resp: InitResponse)

  function LegacyRekeyRequest(flags: Flags): RekeyRequest {
    RekeyRequest(flags.recoveryShares, flags.recoveryThreshold, 0, [], false, false)
  }

  datatype Started = Started(world: World, nonce: string, otp: string) | Stopped(ending: Ending)

  /** rekey up to its start call. */
  function OpenRekey(flags: Flags, w: World, respond: seq<Event> -> Reply): Started {
    var t1 := w.trace + [ProcessStatus(Rekey(Recovery))];
    match AsProcess(respond(t1))
    case Err(_) => Stopped(Ending(w.(trace := t1), Fatal(RekeyStatusFailed)))
    case Ok(status) =>
      if status.started then Stopped(Ending(w.(trace := t1), Fatal(RekeyBusy)))
      else
        var t2 := t1 + [RekeyStart(Recovery, LegacyRekeyRequest(flags))];
        match AsProcess(respond(t2))
        case Err(_) => Stopped(Ending(w.(trace := t2), Fatal(RekeyStartFailed)))
        case Ok(p) => Started(w.(trace := t2), p.nonce, "")
  }

  /** rekey from its key loop on: submit the recovery keys, then save what the loop left. */
  function FinishRekey(f: SaveFunc, flags: Flags, locked: set<string>, w: World, resp: InitResponse, nonce: string,
                       respond: seq<Event> -> Reply): Carried {
    var loop := KeyLoop(Rekey(Recovery), resp.recoveryKeysB64, nonce, w.trace, respond);
    var w1 := w.(trace := loop.trace);
    if loop.end.Aborted? then
      Carried(Ending(w1, CancelExit(respond(loop.trace), RekeyCancelFailed, RekeyCancelled)), resp)
    else
      var resp' := SealOps.Rekeyed(resp, Recovery, loop.end);
      Carried(SaveOrFallback(f, flags.filePath, locked, w1, resp', respond, RecoveryKeysLost), resp')
  }

  function RekeySpec(f: SaveFunc, flags: Flags, locked: set<string>, w: World, resp: InitResponse,
                     respond: seq<Event> -> Reply): Carried {
    match OpenRekey(flags, w, respond)
    case Stopped(e) => Carried(e, resp)
    case Started(w1, nonce, _) => FinishRekey(f, flags, locked, w1, resp, nonce, respond)
  }

  /** rotateRoot up to its start call, which carries the pad and an empty PGP key. */
  function OpenRotation(w: World, respond: seq<Event> -> Reply): Started {
    var t1 := w.trace + [ProcessStatus(GenerateRoot)];
    match AsProcess(respond(t1))
    case Err(_) => Stopped(Ending(w.(trace := t1), Fatal(RootStatusFailed)))
    case Ok(status) =>
      if status.started then Stopped(Ending(w.(trace := t1), Fatal(RootBusy)))
      else
        var t2 := t1 + [GenerateOtp(SealOps.OtpLength)];
        match AsText(respond(t2))
        case Err(_) => Stopped(Ending(w.(trace := t2), Fatal(OtpFailed)))
        case Ok(otp) =>
          var t3 := t2 + [GenerateRootStart(otp, "")];
          match AsProcess(respond(t3))
          case Err(_) => Stopped(Ending(w.(trace := t3), Fatal(RootStartFailed)))
          case Ok(p) => Started(w.(trace := t3), p.nonce, otp)
  }

  /** Save with fallback, then revoke the current token unless the run already exited. */
  function SaveThenRevoke(f: SaveFunc, flags: Flags, locked: set<string>, w: World, resp: InitResponse,
                          respond: seq<Event> -> Reply): Ending {
    var saved := SaveOrFallback(f, flags.filePath, locked, w, resp, respond, RootTokenLost);
    if saved.exit.Fatal? then saved
    else
      var t := saved.world.trace + [RevokeSelf];
      Ending(saved.world.(trace := t), if AsOutcome(respond(t)).Fail? then Fatal(RevokeFailed) else Finished)
  }

  /** rotateRoot from its key loop on: submit the recovery keys, decode the new token, save, revoke. */
  function FinishRotation(f: SaveFunc, flags: Flags, locked: set<string>, w: World, resp: InitResponse, nonce: string,
                          otp: string, respond: seq<Event> -> Reply, xor: (seq<Base64.byte>, string) -> Result<seq<Base64.byte>>): Carried {
    var loop := KeyLoop(GenerateRoot, resp.recoveryKeysB64, nonce, w.trace, respond);
    var w1 := w.(trace := loop.trace);
    match loop.end
    case Aborted(_) => Carried(Ending(w1, CancelExit(respond(loop.trace), RootCancelFailed, RootCancelled)), resp)
    case Exhausted => Carried(SaveThenRevoke(f, flags, locked, w1, resp, respond), resp)
    case Completed(p) =>
      match SealOps.DecodeRoot(p.encodedToken, otp, xor)
      case Err(_) => Carried(Ending(w1, Fatal(TokenLost)), resp)
      case Ok(token) =>
        var resp' := resp.(rootToken := token);
        Carried(SaveThenRevoke(f, flags, locked, w1, resp', respond), resp')
  }

  function RotateRootSpec(f: SaveFunc, flags: Flags, locked: set<string>, w: World, resp: InitResponse,
                          respond: seq<Event> -> Reply, xor: (seq<Base64.byte>, string) -> Result<seq<Base64.byte>>): Carried {
    match OpenRotation(w, respond)
    case Stopped(e) => Carried(e, resp)
    case Started(w1, nonce, otp) => FinishRotation(f, flags, locked, w1, resp, nonce, otp, respond, xor)
  }

  /** main after flag parsing and logging set-up. */
  function MainSpec(flags: Flags, initJson: Text<InitResponse>, attempts: nat, locked: set<string>, w: World,
                    respond: seq<Event> -> Reply, xor: (seq<Base64.byte>, string) -> Result<seq<Base64.byte>>): Ending {
    match LookupSaveFunc(w.flagSave)
    case None => Ending(w, Fatal(UnsupportedSave))
    case Some(f) =>
      var w1 := w.(trace := w.trace + [CreateClient]);
      if AsOutcome(respond(w1.trace)).Fail? then Ending(w1, Fatal(ClientFailed))
      else if !flags.rotate then InitializeSpec(f, flags, attempts, locked, w1, respond)
      else if IsEmptyText(initJson) then Ending(w1, Fatal(InitJsonEmpty))
      else
        match Unmarshal(initJson)
        case Err(_) => Ending(w1, Fatal(InitJsonInvalid))
        case Ok(resp) =>
          var k := RekeySpec(f, flags, locked, w1, resp, respond);
          if k.ending.exit.Fatal? then k.ending
          else RotateRootSpec(f, flags, locked, k.ending.world, k.resp, respond, xor).ending
  }

  /** The *vaultapi.InitResponse that rekey and rotateRoot share and update in place. */
  class ResponseRef {
    var value: InitResponse

    constructor (value: InitResponse)
      ensures this.value == value
    {
      this.value := value;
    }
  }

  class Program {
    var flagSave: string
    const flags: Flags
    /** The value of VAULT_INIT_JSON; Raw("") when it is empty or unset. */
    const initJson: Text<InitResponse>
    /** The --timeout, as a number of polls. */
    const attempts: nat
    const vault: Server
    const disk: Disk
    /** Vault's xor helper, which is not part of this model. */
    const xor: (seq<Base64.byte>, string) -> Result<seq<Base64.byte>>

    constructor (flags: Flags, initJson: Text<InitResponse>, attempts: nat, vault: Server, disk: Disk,
                 xor: (seq<Base64.byte>, string) -> Result<seq<Base64.byte>>)
      ensures flagSave == flags.save && this.flags == flags && this.initJson == initJson && this.attempts == attempts
      ensures this.vault == vault && this.disk == disk && this.xor == xor
    {
      flagSave := flags.save;
      this.flags := flags;
      this.initJson := initJson;
      this.attempts := attempts;
      this.vault := vault;
      this.disk := disk;
      this.xor := xor;
    }

    function State(): World
      reads this, vault, disk
    {
      World(vault.trace, disk.files, flagSave)
    }

    /** saveFile (store_file.go). */
    method SaveToFilePath(response: InitResponse) returns (r: Result<string>)
      modifies disk
      ensures Saved(State(), r) == SaveFileSpec(flags.filePath, disk.locked, old(State()), response)
    {
      var initJson := Marshal(response);
      var err := disk.WriteFile(flags.filePath, initJson);
      if err.Some? {
        return Err(err.value);
      }
      return Ok(flags.filePath);
    }

    method CallSaveFunc(f: SaveFunc, response: InitResponse) returns (r: Result<string>)
      modifies vault, disk
      ensures Saved(State(), r) == SaveFuncSpec(f, flags.filePath, disk.locked, old(State()), response, vault.respond)
    {
      match f
      case SaveToFile =>
        r := SaveToFilePath(response);
      case SaveToKubeSecret =>
        var reply := vault.Call(Save(response));
        r := AsText(reply);
    }

    method SaveWithFallback(f: SaveFunc, response: InitResponse, lost: string) returns (exit: Exit)
      modifies this, vault, disk
      ensures Ending(State(), exit) == SaveOrFallback(f, flags.filePath, disk.locked, old(State()), response, vault.respond, lost)
    {
      var location := CallSaveFunc(f, response);
      if location.Err? {
        flagSave := SaveFile;
        location := SaveToFilePath(response);
        if location.Err? {
          return Fatal(lost);
        }
      }
      return Finished;
    }

    method Initialize(f: SaveFunc) returns (exit: Exit)
      modifies this, vault, disk
      ensures Ending(State(), exit) == InitializeSpec(f, flags, attempts, disk.locked, old(State()), vault.respond)
    {
      ghost var whole := InitializeSpec(f, flags, attempts, disk.locked, State(), vault.respond);
      var left: nat := attempts;
      while left > 0
        invariant InitializeSpec(f, flags, left, disk.locked, State(), vault.respond) == whole
      {
        var status := vault.Call(InitStatus);
        var initialized := AsFlag(status);
        if initialized.Err? {
          left := left - 1;
          continue;
        }
        if initialized.value {
          return Finished;
        }
        var reply := vault.Call(Event.Init(LegacyInitRequest(flags)));
        var initResp := AsResponse(reply);
        if initResp.Err? {
          left := left - 1;
          continue;
        }
        exit := SaveWithFallback(f, initResp.value, KeysLost);
        return;
      }
      return Fatal(InitTimeout);
    }

    method RekeyRecoveryKeys(f: SaveFunc, initResp: ResponseRef) returns (exit: Exit)
      modifies this, vault, disk, initResp
      ensures Carried(Ending(State(), exit), initResp.value)
           == RekeySpec(f, flags, disk.locked, old(State()), old(initResp.value), vault.respond)
    {
      var statusReply := vault.Call(ProcessStatus(Ceremony.Rekey(Recovery)));
      var status := AsProcess(statusReply);
      if status.Err? {
        return Fatal(RekeyStatusFailed);
      }
      if status.value.started {
        return Fatal(RekeyBusy);
      }
      var startReply := vault.Call(RekeyStart(Recovery, LegacyRekeyRequest(flags)));
      var start := AsProcess(startReply);
      if start.Err? {
        return Fatal(RekeyStartFailed);
      }
      assert OpenRekey(flags, old(State()), vault.respond) == Started(State(), start.value.nonce, "");
      var end, cancelReply := SubmitKeys(vault, Ceremony.Rekey(Recovery), initResp.value.recoveryKeysB64, start.value.nonce);
      if end.Aborted? {
        return if AsOutcome(cancelReply.value).Fail? then Fatal(RekeyCancelFailed) else Fatal(RekeyCancelled);
      }
      if end.Completed? {
        initResp.value := initResp.value.(recoveryKeys := end.progress.keys, recoveryKeysB64 := end.progress.keysB64);
      }
      exit := SaveWithFallback(f, initResp.value, RecoveryKeysLost);
    }

    method RotateRoot(f: SaveFunc, initResp: ResponseRef) returns (exit: Exit)
      modifies this, vault, disk, initResp
      ensures Carried(Ending(State(), exit), initResp.value)
           == RotateRootSpec(f, flags, disk.locked, old(State()), old(initResp.value), vault.respond, xor)
    {
      var statusReply := vault.Call(ProcessStatus(GenerateRoot));
      var status := AsProcess(statusReply);
      if status.Err? {
        return Fatal(RootStatusFailed);
      }
      if status.value.started {
        return Fatal(RootBusy);
      }
      var otpReply := vault.Call(GenerateOtp(SealOps.OtpLength));
      var otp := AsText(otpReply);
      if otp.Err? {
        return Fatal(OtpFailed);
      }
      var startReply := vault.Call(GenerateRootStart(otp.value, ""));
      var start := AsProcess(startReply);
      if start.Err? {
        return Fatal(RootStartFailed);
      }
      assert OpenRotation(old(State()), vault.respond) == Started(State(), start.value.nonce, otp.value);
      var end, cancelReply := SubmitKeys(vault, GenerateRoot, initResp.value.recoveryKeysB64, start.value.nonce);
      if end.Aborted? {
        return if AsOutcome(cancelReply.value).Fail? then Fatal(RootCancelFailed) else Fatal(RootCancelled);
      }
      if end.Completed? {
        var decoded := SealOps.DecodeRoot(end.progress.encodedToken, otp.value, xor);
        if decoded.Err? {
          return Fatal(TokenLost);
        }
        initResp.value := initResp.value.(rootToken := decoded.value);
      }
      exit := SaveWithFallback(f, initResp.value, RootTokenLost);
      if exit.Fatal? {
        return;
      }
      var revoked := vault.Call(RevokeSelf);
      if AsOutcome(revoked).Fail? {
        return Fatal(RevokeFailed);
      }
      return Finished;
    }

    /** main, from the save-function lookup on. */
    method Start() returns (exit: Exit)
      modifies this, vault, disk
      ensures Ending(State(), exit) == MainSpec(flags, initJson, attempts, disk.locked, old(State()), vault.respond, xor)
    {
      var f := LookupSaveFunc(flagSave);
      if f.None? {
        return Fatal(UnsupportedSave);
      }
      var client := vault.Call(CreateClient);
      if AsOutcome(client).Fail? {
        return Fatal(ClientFailed);
      }
      if !flags.rotate {
        exit := Initialize(f.value);
        return;
      }
      if IsEmptyText(initJson) {
        return Fatal(InitJsonEmpty);
      }
      var decoded := Unmarshal(initJson);
      if decoded.Err? {
        return Fatal(InitJsonInvalid);
      }
      var initResp := new ResponseRef(decoded.value);
      exit := RekeyRecoveryKeys(f.value, initResp);
      if exit.Fatal? {
        return;
      }
      exit := RotateRoot(f.value, initResp);
    }
  }

  /** The response is durably stored in `after`: in the file at `path`, or by the last call, a save that succeeded. */
  predicate Stored(path: string, after: World, resp: InitResponse, respond: seq<Event> -> Reply) {
    || (path in after.files && after.files[path] == Marshal(resp))
    || (|after.trace| > 0 && after.trace[|after.trace| - 1] == Save(resp) && AsText(respond(after.trace)).Ok?)
  }

  predicate NoRevoke(s: seq<Event>) {
    forall i :: 0 <= i < |s| ==> !s[i].RevokeSelf?
  }

  predicate SavesAndRevokesOnly(s: seq<Event>) {
    forall i :: 0 <= i < |s| ==> s[i].Save? || s[i].RevokeSelf?
  }

  /**
   * The save with fallback makes at most one remote call, the configured saver's; it
   * finishes exactly when the configured save or the file write succeeded, and then the
   * response is stored; otherwise it exits with `lost`. After a failed configured save the
   * --save flag reads "file". Files other than the --file-path are left alone.
   */
  lemma FallbackPersists(f: SaveFunc, path: string, locked: set<string>, w: World, resp: InitResponse,
                         respond: seq<Event> -> Reply, lost: string)
    ensures var first := SaveFuncSpec(f, path, locked, w, resp, respond);
      var e := SaveOrFallback(f, path, locked, w, resp, respond, lost);
      && (e.world.trace == w.trace || (f == SaveToKubeSecret && e.world.trace == w.trace + [Save(resp)]))
      && (e.exit == Finished <==> first.result.Ok? || path !in locked)
      && (e.exit != Finished ==> e.exit == Fatal(lost))
      && (e.exit == Finished ==> Stored(path, e.world, resp, respond))
      && e.world.flagSave == (if first.result.Ok? then w.flagSave else SaveFile)
      && (forall p | p != path :: (p in e.world.files <==> p in w.files) && (p in w.files ==> e.world.files[p] == w.files[p]))
  {
  }

  /**
   * Saving and revoking either exits without revoking, or revokes once, as the last call,
   * with the response stored just before; the run finishes exactly when the revocation did.
   */
  predicate RevokesAfterStoring(h: seq<Event>, e: Ending, resp: InitResponse, path: string, respond: seq<Event> -> Reply) {
    var t := e.world.trace;
    && SealOps.Extends(h, t)
    && (|| (NoRevoke(t[|h|..]) && e.exit != Finished)
        || (&& |t| > |h| && t[|t| - 1] == RevokeSelf && NoRevoke(t[|h|..|t| - 1])
            && Stored(path, e.world.(trace := t[..|t| - 1]), resp, respond)
            && (e.exit == Finished <==> AsOutcome(respond(t)).Pass?)))
  }

  /** The save with fallback only adds its one optional save call. */
  lemma FallbackCalls(f: SaveFunc, path: string, locked: set<string>, w: World, resp: InitResponse,
                      respond: seq<Event> -> Reply, lost: string)
    ensures var s := SaveOrFallback(f, path, locked, w, resp, respond, lost).world.trace;
      && SealOps.Extends(w.trace, s) && NoRevoke(s[|w.trace|..]) && SavesAndRevokesOnly(s[|w.trace|..])
  {
    FallbackPersists(f, path, locked, w, resp, respond, lost);
    var s := SaveOrFallback(f, path, locked, w, resp, respond, lost).world.trace;
    if s == w.trace {
      assert s[|w.trace|..] == [];
    } else {
      assert s[|w.trace|..] == [Save(resp)];
    }
  }

  /** Revoking after a finished save that stored the response: the revocation is last and after storing. */
  lemma RevokeAfterSaved(h: seq<Event>, saved: Ending, resp: InitResponse, path: string, respond: seq<Event> -> Reply)
    requires SealOps.Extends(h, saved.world.trace) && NoRevoke(saved.world.trace[|h|..])
    requires SavesAndRevokesOnly(saved.world.trace[|h|..]) && Stored(path, saved.world, resp, respond)
    ensures var t := saved.world.trace + [RevokeSelf];
      var e := Ending(saved.world.(trace := t), if AsOutcome(respond(t)).Fail? then Fatal(RevokeFailed) else Finished);
      RevokesAfterStoring(h, e, resp, path, respond) && SavesAndRevokesOnly(t[|h|..])
  {
    var s := saved.world.trace;
    var t := s + [RevokeSelf];
    assert t[..|t| - 1] == s;
    assert t[..|h|] == h;
    assert t[|h|..|t| - 1] == s[|h|..];
    assert t[|h|..] == s[|h|..] + [RevokeSelf];
    assert saved.world.(trace := t).(trace := t[..|t| - 1]) == saved.world;
  }

  lemma SaveThenRevokeStores(f: SaveFunc, flags: Flags, locked: set<string>, w: World, resp: InitResponse,
                             respond: seq<Event> -> Reply)
    ensures var e := SaveThenRevoke(f, flags, locked, w, resp, respond);
      && RevokesAfterStoring(w.trace, e, resp, flags.filePath, respond)
      && SavesAndRevokesOnly(e.world.trace[|w.trace|..])
  {
    FallbackPersists(f, flags.filePath, locked, w, resp, respond, RootTokenLost);
    FallbackCalls(f, flags.filePath, locked, w, resp, respond, RootTokenLost);
    var saved := SaveOrFallback(f, flags.filePath, locked, w, resp, respond, RootTokenLost);
    if !saved.exit.Fatal? {
      RevokeAfterSaved(w.trace, saved, resp, flags.filePath, respond);
    }
  }

  lemma NoRevokeConcat(a: seq<Event>, b: seq<Event>)
    ensures NoRevoke(a + b) <==> NoRevoke(a) && NoRevoke(b)
  {
    if NoRevoke(a) && NoRevoke(b) {
      forall i | 0 <= i < |a + b| ensures !(a + b)[i].RevokeSelf? {
        if i >= |a| { assert (a + b)[i] == b[i - |a|]; }
      }
    }
    if NoRevoke(a + b) {
      forall i | 0 <= i < |a| ensures !a[i].RevokeSelf? {
        assert (a + b)[i] == a[i];
      }
      forall i | 0 <= i < |b| ensures !b[i].RevokeSelf? {
        assert (a + b)[|a| + i] == b[i];
      }
    }
  }

  /** Calls that do not revoke, made before, keep the form. */
  lemma RevokesAfterStoringAfter(h: seq<Event>, m: seq<Event>, e: Ending, resp: InitResponse, path: string,
                                 respond: seq<Event> -> Reply)
    requires SealOps.Extends(h, m) && NoRevoke(m[|h|..]) && RevokesAfterStoring(m, e, resp, path, respond)
    ensures RevokesAfterStoring(h, e, resp, path, respond)
  {
    var t := e.world.trace;
    SealOps.ExtendsTrans(h, m, t);
    assert t[..|m|] == m;
    if NoRevoke(t[|m|..]) && e.exit != Finished {
      assert t[|h|..] == m[|h|..] + t[|m|..];
      NoRevokeConcat(m[|h|..], t[|m|..]);
    } else {
      assert t[|h|..|t| - 1] == m[|h|..] + t[|m|..|t| - 1];
      NoRevokeConcat(m[|h|..], t[|m|..|t| - 1]);
    }
  }

  lemma QuietHasNoRevoke(s: seq<Event>)
    requires SealOps.Quiet(s)
    ensures NoRevoke(s)
  {
  }

  /** Saving and revoking after calls that do not revoke: the form holds from before them, and no update follows. */
  lemma SaveThenRevokeAfter(f: SaveFunc, flags: Flags, locked: set<string>, h: seq<Event>, m: World, resp: InitResponse,
                            respond: seq<Event> -> Reply)
    requires SealOps.Extends(h, m.trace) && NoRevoke(m.trace[|h|..])
    ensures var e := SaveThenRevoke(f, flags, locked, m, resp, respond);
      && RevokesAfterStoring(h, e, resp, flags.filePath, respond)
      && SealOps.Extends(m.trace, e.world.trace)
      && forall i | |m.trace| <= i < |e.world.trace| :: !e.world.trace[i].Update?
  {
    SaveThenRevokeStores(f, flags, locked, m, resp, respond);
    var e := SaveThenRevoke(f, flags, locked, m, resp, respond);
    var t := e.world.trace;
    RevokesAfterStoringAfter(h, m.trace, e, resp, flags.filePath, respond);
    forall i | |m.trace| <= i < |t| ensures !t[i].Update? {
      assert t[i] == t[|m.trace|..][i - |m.trace|];
    }
  }

  /** rotateRoot from the key loop on: every update submits the next recovery key, in order, against the start call's nonce. */
  lemma FinishRotationUpdates(f: SaveFunc, flags: Flags, locked: set<string>, w: World, resp: InitResponse, nonce: string,
                              otp: string, respond: seq<Event> -> Reply, xor: (seq<Base64.byte>, string) -> Result<seq<Base64.byte>>)
    ensures var t := FinishRotation(f, flags, locked, w, resp, nonce, otp, respond, xor).ending.world.trace;
      forall i | |w.trace| <= i < |t| && t[i].Update? ::
        i - |w.trace| < |resp.recoveryKeysB64| && t[i] == Update(GenerateRoot, resp.recoveryKeysB64[i - |w.trace|], nonce)
  {
    var loop := KeyLoop(GenerateRoot, resp.recoveryKeysB64, nonce, w.trace, respond);
    SealOps.LoopCalls(GenerateRoot, resp.recoveryKeysB64, nonce, w.trace, respond);
    QuietHasNoRevoke(loop.trace[|w.trace|..]);
    var w1 := w.(trace := loop.trace);
    var c := FinishRotation(f, flags, locked, w, resp, nonce, otp, respond, xor);
    var t := c.ending.world.trace;
    var saves := loop.end.Exhausted? || (loop.end.Completed? && SealOps.DecodeRoot(loop.end.progress.encodedToken, otp, xor).Ok?);
    if saves {
      assert c.ending == SaveThenRevoke(f, flags, locked, w1, c.resp, respond);
      SaveThenRevokeAfter(f, flags, locked, w.trace, w1, c.resp, respond);
    } else {
      assert t == loop.trace;
    }
    assert t[..|loop.trace|] == loop.trace;
    forall i | |w.trace| <= i < |t| && t[i].Update?
      ensures i - |w.trace| < |resp.recoveryKeysB64| && t[i] == Update(GenerateRoot, resp.recoveryKeysB64[i - |w.trace|], nonce)
    {
      assert i < |loop.trace|;
      assert t[i] == loop.trace[i];
    }
  }

  /**
   * rotateRoot from the key loop on: every update submits the next recovery key, in order,
   * against the start call's nonce (the unseal keys are never used); the token is revoked
   * only as the last call, and only once the response, which differs from the loaded one
   * at most in its root token, is stored.
   */
  lemma FinishRotationStores(f: SaveFunc, flags: Flags, locked: set<string>, w: World, resp: InitResponse, nonce: string,
                             otp: string, respond: seq<Event> -> Reply, xor: (seq<Base64.byte>, string) -> Result<seq<Base64.byte>>)
    ensures var c := FinishRotation(f, flags, locked, w, resp, nonce, otp, respond, xor);
      var t := c.ending.world.trace;
      && RevokesAfterStoring(w.trace, c.ending, c.resp, flags.filePath, respond)
      && c.resp == resp.(rootToken := c.resp.rootToken)
      && (forall i | |w.trace| <= i < |t| && t[i].Update? ::
            i - |w.trace| < |resp.recoveryKeysB64| && t[i] == Update(GenerateRoot, resp.recoveryKeysB64[i - |w.trace|], nonce))
  {
    FinishRotationUpdates(f, flags, locked, w, resp, nonce, otp, respond, xor);
    var loop := KeyLoop(GenerateRoot, resp.recoveryKeysB64, nonce, w.trace, respond);
    SealOps.LoopCalls(GenerateRoot, resp.recoveryKeysB64, nonce, w.trace, respond);
    QuietHasNoRevoke(loop.trace[|w.trace|..]);
    var w1 := w.(trace := loop.trace);
    var c := FinishRotation(f, flags, locked, w, resp, nonce, otp, respond, xor);
    var saves := loop.end.Exhausted? || (loop.end.Completed? && SealOps.DecodeRoot(loop.end.progress.encodedToken, otp, xor).Ok?);
    if saves {
      assert c.ending == SaveThenRevoke(f, flags, locked, w1, c.resp, respond);
      SaveThenRevokeAfter(f, flags, locked, w.trace, w1, c.resp, respond);
    } else {
      assert c.ending.world == w1 && c.ending.exit.Fatal?;
    }
  }

  lemma OpenRotationCalls(w: World, respond: seq<Event> -> Reply)
    ensures match OpenRotation(w, respond)
      case Started(w1, nonce, otp) =>
        w1 == w.(trace := w.trace + [ProcessStatus(GenerateRoot), GenerateOtp(SealOps.OtpLength), GenerateRootStart(otp, "")])
      case Stopped(e) =>
        && e.world == w.(trace := e.world.trace) && e.exit.Fatal? && SealOps.Extends(w.trace, e.world.trace)
        && NoRevoke(e.world.trace[|w.trace|..])
        && forall i | |w.trace| <= i < |e.world.trace| :: !e.world.trace[i].Update?
  {
  }

  /** rotateRoot's updates submit the recovery keys in order, right after its three opening calls. */
  lemma LegacyRotationUpdates(f: SaveFunc, flags: Flags, locked: set<string>, w: World, resp: InitResponse,
                              respond: seq<Event> -> Reply, xor: (seq<Base64.byte>, string) -> Result<seq<Base64.byte>>)
    ensures var t := RotateRootSpec(f, flags, locked, w, resp, respond, xor).ending.world.trace;
      forall i | |w.trace| <= i < |t| && t[i].Update? ::
        3 <= i - |w.trace| < |resp.recoveryKeysB64| + 3 && t[i].key == resp.recoveryKeysB64[i - |w.trace| - 3]
  {
    OpenRotationCalls(w, respond);
    match OpenRotation(w, respond)
    case Stopped(e) =>
    case Started(w1, nonce, otp) =>
      FinishRotationStores(f, flags, locked, w1, resp, nonce, otp, respond, xor);
      var t := RotateRootSpec(f, flags, locked, w, resp, respond, xor).ending.world.trace;
      assert |w1.trace| == |w.trace| + 3;
      assert t[..|w1.trace|] == w1.trace;
      forall i | |w.trace| <= i < |t| && t[i].Update?
        ensures 3 <= i - |w.trace| < |resp.recoveryKeysB64| + 3 && t[i].key == resp.recoveryKeysB64[i - |w.trace| - 3]
      {
        assert i >= |w1.trace|;
      }
  }

  /**
   * rotateRoot as a whole: it opens with the generate-root status call; every update
   * submits the next recovery key, in order; the current token is revoked only as the last
   * call, after the response has been stored; the response changes at most in its root token.
   */
  lemma LegacyRotationRevokesAfterStoring(f: SaveFunc, flags: Flags, locked: set<string>, w: World, resp: InitResponse,
                                          respond: seq<Event> -> Reply, xor: (seq<Base64.byte>, string) -> Result<seq<Base64.byte>>)
    ensures var c := RotateRootSpec(f, flags, locked, w, resp, respond, xor);
      var t := c.ending.world.trace;
      && RevokesAfterStoring(w.trace, c.ending, c.resp, flags.filePath, respond)
      && |t| > |w.trace| && t[|w.trace|] == ProcessStatus(GenerateRoot)
      && c.resp == resp.(rootToken := c.resp.rootToken)
      && (forall i | |w.trace| <= i < |t| && t[i].Update? ::
            3 <= i - |w.trace| < |resp.recoveryKeysB64| + 3 && t[i].key == resp.recoveryKeysB64[i - |w.trace| - 3])
  {
    LegacyRotationUpdates(f, flags, locked, w, resp, respond, xor);
    OpenRotationCalls(w, respond);
    match OpenRotation(w, respond)
    case Stopped(e) =>
      assert e.world.trace[|w.trace|..|e.world.trace|] == e.world.trace[|w.trace|..];
    case Started(w1, nonce, otp) =>
      FinishRotationStores(f, flags, locked, w1, resp, nonce, otp, respond, xor);
      var c := RotateRootSpec(f, flags, locked, w, resp, respond, xor);
      assert w1.trace[|w.trace|..] == [ProcessStatus(GenerateRoot), GenerateOtp(SealOps.OtpLength), GenerateRootStart(otp, "")];
      RevokesAfterStoringAfter(w.trace, w1.trace, c.ending, c.resp, flags.filePath, respond);
      SealOps.ExtendsTrans(w.trace, w1.trace, c.ending.world.trace);
  }

  lemma OpenRekeyCalls(flags: Flags, w: World, respond: seq<Event> -> Reply)
    ensures match OpenRekey(flags, w, respond)
      case Started(w1, _, _) =>
        w1 == w.(trace := w.trace + [ProcessStatus(Rekey(Recovery)), RekeyStart(Recovery, LegacyRekeyRequest(flags))])
      case Stopped(e) =>
        && e.world == w.(trace := e.world.trace) && e.exit.Fatal? && SealOps.Extends(w.trace, e.world.trace)
        && |e.world.trace| > |w.trace| && e.world.trace[|w.trace|] == ProcessStatus(Rekey(Recovery))
        && NoRevoke(e.world.trace[|w.trace|..])
        && forall i | |w.trace| <= i < |e.world.trace| :: !e.world.trace[i].Update?
  {
  }

  /**
   * rekey from the key loop on: every update submits the next stored recovery key, in
   * order, against the start call's nonce; it never revokes; only the recovery keys of the
   * response change; and when it finishes, the response is stored.
   */
  lemma FinishRekeyStores(f: SaveFunc, flags: Flags, locked: set<string>, w: World, resp: InitResponse, nonce: string,
                          respond: seq<Event> -> Reply)
    ensures var c := FinishRekey(f, flags, locked, w, resp, nonce, respond);
      var t := c.ending.world.trace;
      && SealOps.Extends(w.trace, t) && NoRevoke(t[|w.trace|..])
      && c.resp == resp.(recoveryKeys := c.resp.recoveryKeys, recoveryKeysB64 := c.resp.recoveryKeysB64)
      && (c.ending.exit == Finished ==> Stored(flags.filePath, c.ending.world, c.resp, respond))
      && (forall i | |w.trace| <= i < |t| && t[i].Update? ::
            i - |w.trace| < |resp.recoveryKeysB64| && t[i] == Update(Rekey(Recovery), resp.recoveryKeysB64[i - |w.trace|], nonce))
  {
    var loop := KeyLoop(Rekey(Recovery), resp.recoveryKeysB64, nonce, w.trace, respond);
    SealOps.LoopCalls(Rekey(Recovery), resp.recoveryKeysB64, nonce, w.trace, respond);
    QuietHasNoRevoke(loop.trace[|w.trace|..]);
    var c := FinishRekey(f, flags, locked, w, resp, nonce, respond);
    var t := c.ending.world.trace;
    if !loop.end.Aborted? {
      FallbackPersists(f, flags.filePath, locked, w.(trace := loop.trace), c.resp, respond, RecoveryKeysLost);
      if t != loop.trace {
        assert t == loop.trace + [Save(c.resp)];
        assert t[|w.trace|..] == loop.trace[|w.trace|..] + [Save(c.resp)];
        NoRevokeConcat(loop.trace[|w.trace|..], [Save(c.resp)]);
        SealOps.ExtendsTrans(w.trace, loop.trace, t);
      }
    }
  }

  /**
   * rekey as a whole: it opens with the recovery-key rekey status call; every update
   * submits the next stored recovery key, in order; it never revokes; only the recovery
   * keys of the response change; and when it finishes, the response is stored.
   */
  lemma LegacyRekeyStores(f: SaveFunc, flags: Flags, locked: set<string>, w: World, resp: InitResponse,
                          respond: seq<Event> -> Reply)
    ensures var c := RekeySpec(f, flags, locked, w, resp, respond);
      var t := c.ending.world.trace;
      && SealOps.Extends(w.trace, t) && NoRevoke(t[|w.trace|..])
      && |t| > |w.trace| && t[|w.trace|] == ProcessStatus(Rekey(Recovery))
      && c.resp == resp.(recoveryKeys := c.resp.recoveryKeys, recoveryKeysB64 := c.resp.recoveryKeysB64)
      && (c.ending.exit == Finished ==> Stored(flags.filePath, c.ending.world, c.resp, respond))
      && (forall i | |w.trace| <= i < |t| && t[i].Update? ::
            2 <= i - |w.trace| < |resp.recoveryKeysB64| + 2 && t[i].key == resp.recoveryKeysB64[i - |w.trace| - 2])
  {
    OpenRekeyCalls(flags, w, respond);
    match OpenRekey(flags, w, respond)
    case Stopped(e) =>
    case Started(w1, nonce, _) =>
      FinishRekeyStores(f, flags, locked, w1, resp, nonce, respond);
      var c := RekeySpec(f, flags, locked, w, resp, respond);
      var t := c.ending.world.trace;
      SealOps.ExtendsTrans(w.trace, w1.trace, t);
      assert w1.trace[|w.trace|..] == [ProcessStatus(Rekey(Recovery)), RekeyStart(Recovery, LegacyRekeyRequest(flags))];
      assert t[|w.trace|..] == w1.trace[|w.trace|..] + t[|w1.trace|..];
      NoRevokeConcat(w1.trace[|w.trace|..], t[|w1.trace|..]);
      forall i | |w.trace| <= i < |w1.trace| ensures !t[i].Update? {
        assert t[i] == w1.trace[|w.trace|..][i - |w.trace|];
      }
  }

  /** Every call initialize makes is an init-status poll, an init request carrying only the recovery settings, or a save. */
  predicate InitCalls(flags: Flags, s: seq<Event>) {
    forall i :: 0 <= i < |s| ==> s[i] == InitStatus || s[i] == Init(LegacyInitRequest(flags)) || s[i].Save?
  }

  lemma InitCallsConcat(flags: Flags, a: seq<Event>, b: seq<Event>)
    requires InitCalls(flags, a) && InitCalls(flags, b)
    ensures InitCalls(flags, a + b)
  {
    forall i | 0 <= i < |a + b|
      ensures (a + b)[i] == InitStatus || (a + b)[i] == Init(LegacyInitRequest(flags)) || (a + b)[i].Save?
    {
      if i >= |a| { assert (a + b)[i] == b[i - |a|]; }
    }
  }

  /**
   * Why initialize may finish: its last poll found the server initialized, or the reply of
   * its last init call, one with the recovery settings, has been stored: that call ends the
   * history, or comes right before the save that ends it.
   */
  predicate InitDone(flags: Flags, after: World, respond: seq<Event> -> Reply) {
    var t := after.trace;
    var call := Init(LegacyInitRequest(flags));
    || (|t| > 0 && t[|t| - 1] == InitStatus && AsFlag(respond(t)) == Ok(true))
    || (&& |t| > 0 && t[|t| - 1] == call && AsResponse(respond(t)).Ok?
        && Stored(flags.filePath, after, AsResponse(respond(t)).value, respond))
    || (&& |t| > 1 && t[|t| - 2] == call && AsResponse(respond(t[..|t| - 1])).Ok?
        && Stored(flags.filePath, after, AsResponse(respond(t[..|t| - 1])).value, respond))
  }

  lemma PollCalls(f: SaveFunc, flags: Flags, locked: set<string>, w: World, respond: seq<Event> -> Reply)
    ensures match InitializePoll(f, flags, locked, w, respond)
      case Repoll(w') =>
        && w' == w.(trace := w'.trace) && SealOps.Extends(w.trace, w'.trace)
        && InitCalls(flags, w'.trace[|w.trace|..])
      case Settled(e) =>
        && SealOps.Extends(w.trace, e.world.trace) && InitCalls(flags, e.world.trace[|w.trace|..])
        && (e.exit != Finished ==> e.exit == Fatal(KeysLost))
        && (e.exit == Finished ==> InitDone(flags, e.world, respond))
  {
    var t1 := w.trace + [InitStatus];
    var t2 := t1 + [Init(LegacyInitRequest(flags))];
    match InitializePoll(f, flags, locked, w, respond)
    case Repoll(w') =>
      assert w'.trace[|w.trace|..] == [InitStatus] || w'.trace[|w.trace|..] == [InitStatus, Init(LegacyInitRequest(flags))];
    case Settled(e) =>
      if AsFlag(respond(t1)) == Ok(true) {
        assert e.world.trace[|w.trace|..] == [InitStatus];
      } else {
        var resp := AsResponse(respond(t2)).value;
        assert e == SaveOrFallback(f, flags.filePath, locked, w.(trace := t2), resp, respond, KeysLost);
        SettleAfterInit(f, flags, locked, w, resp, respond);
      }
  }

  /** Saving the init response after the status poll and the init call. */
  lemma SettleAfterInit(f: SaveFunc, flags: Flags, locked: set<string>, w: World, resp: InitResponse, respond: seq<Event> -> Reply)
    requires AsResponse(respond(w.trace + [InitStatus] + [Init(LegacyInitRequest(flags))])) == Ok(resp)
    ensures var t2 := w.trace + [InitStatus] + [Init(LegacyInitRequest(flags))];
      var e := SaveOrFallback(f, flags.filePath, locked, w.(trace := t2), resp, respond, KeysLost);
      && SealOps.Extends(w.trace, e.world.trace) && InitCalls(flags, e.world.trace[|w.trace|..])
      && (e.exit != Finished ==> e.exit == Fatal(KeysLost))
      && (e.exit == Finished ==> InitDone(flags, e.world, respond))
  {
    var t2 := w.trace + [InitStatus] + [Init(LegacyInitRequest(flags))];
    FallbackPersists(f, flags.filePath, locked, w.(trace := t2), resp, respond, KeysLost);
    var e := SaveOrFallback(f, flags.filePath, locked, w.(trace := t2), resp, respond, KeysLost);
    var t := e.world.trace;
    if t == t2 {
      assert t[|w.trace|..] == [InitStatus, Init(LegacyInitRequest(flags))];
    } else {
      assert t[|w.trace|..] == [InitStatus, Init(LegacyInitRequest(flags)), Save(resp)];
      assert t[..|t| - 1] == t2;
    }
    assert t[..|w.trace|] == w.trace;
    if e.exit == Finished {
      assert Stored(flags.filePath, e.world, resp, respond);
    }
  }

  /**
   * initialize makes only init-status polls, init requests with the recovery settings, and
   * saves; it fails only by timing out or by losing the keys; and it finishes only when its
   * last poll found the server initialized or a response has been stored.
   */
  lemma {:induction false} InitializeOnlyInits(f: SaveFunc, flags: Flags, attempts: nat, locked: set<string>, w: World,
                                               respond: seq<Event> -> Reply)
    ensures var e := InitializeSpec(f, flags, attempts, locked, w, respond);
      && SealOps.Extends(w.trace, e.world.trace) && InitCalls(flags, e.world.trace[|w.trace|..])
      && (e.exit != Finished ==> e.exit == Fatal(InitTimeout) || e.exit == Fatal(KeysLost))
      && (e.exit == Finished ==> InitDone(flags, e.world, respond))
    decreases attempts
  {
    var e := InitializeSpec(f, flags, attempts, locked, w, respond);
    if attempts > 0 {
      PollCalls(f, flags, locked, w, respond);
      match InitializePoll(f, flags, locked, w, respond)
      case Repoll(w') =>
        InitializeOnlyInits(f, flags, attempts - 1, locked, w', respond);
        SealOps.ExtendsTrans(w.trace, w'.trace, e.world.trace);
        assert e.world.trace[|w.trace|..] == w'.trace[|w.trace|..] + e.world.trace[|w'.trace|..];
        InitCallsConcat(flags, w'.trace[|w.trace|..], e.world.trace[|w'.trace|..]);
      case Settled(_) =>
    } else {
      assert e.world.trace[|w.trace|..] == [];
    }
  }

  /**
   * main: an unsupported --save value exits before any call, and only then is nothing
   * called; otherwise the first call creates the client, and when rotation is off every
   * later call belongs to initialize.
   */
  lemma MainOpening(flags: Flags, initJson: Text<InitResponse>, attempts: nat, locked: set<string>, w: World,
                    respond: seq<Event> -> Reply, xor: (seq<Base64.byte>, string) -> Result<seq<Base64.byte>>)
    ensures var e := MainSpec(flags, initJson, attempts, locked, w, respond, xor);
      var h1 := w.trace + [CreateClient];
      && (LookupSaveFunc(w.flagSave).None? <==> e == Ending(w, Fatal(UnsupportedSave)))
      && (LookupSaveFunc(w.flagSave).Some? ==> SealOps.Extends(h1, e.world.trace))
      && (LookupSaveFunc(w.flagSave).Some? && !flags.rotate ==> InitCalls(flags, e.world.trace[|h1|..]))
  {
    var e := MainSpec(flags, initJson, attempts, locked, w, respond, xor);
    var w1 := w.(trace := w.trace + [CreateClient]);
    match LookupSaveFunc(w.flagSave)
    case None =>
    case Some(f) =>
      if AsOutcome(respond(w1.trace)).Pass? {
        if !flags.rotate {
          InitializeOnlyInits(f, flags, attempts, locked, w1, respond);
        } else if !IsEmptyText(initJson) && Unmarshal(initJson).Ok? {
          var resp := Unmarshal(initJson).value;
          LegacyRekeyStores(f, flags, locked, w1, resp, respond);
          var k := RekeySpec(f, flags, locked, w1, resp, respond);
          if !k.ending.exit.Fatal? {
            LegacyRotationRevokesAfterStoring(f, flags, locked, k.ending.world, k.resp, respond, xor);
            SealOps.ExtendsTrans(w1.trace, k.ending.world.trace, e.world.trace);
          }
        }
      } else {
        assert e.world.trace[|w1.trace|..] == [];
      }
  }

  /**
   * main with rotation on, once the client is created: an empty VAULT_INIT_JSON and one that
   * does not decode exit at once; otherwise rekey runs first, on the decoded response, and a
   * fatal rekey ends main; else rotateRoot runs next on the response as rekey left it, which
   * rekey has stored, so that the rotation submits the rekeyed recovery keys.
   */
  lemma MainRotate(flags: Flags, initJson: Text<InitResponse>, attempts: nat, locked: set<string>, w: World,
                   respond: seq<Event> -> Reply, xor: (seq<Base64.byte>, string) -> Result<seq<Base64.byte>>)
    requires flags.rotate && LookupSaveFunc(w.flagSave).Some?
    requires AsOutcome(respond(w.trace + [CreateClient])).Pass?
    ensures var e := MainSpec(flags, initJson, attempts, locked, w, respond, xor);
      var w1 := w.(trace := w.trace + [CreateClient]);
      var f := LookupSaveFunc(w.flagSave).value;
      && (IsEmptyText(initJson) ==> e == Ending(w1, Fatal(InitJsonEmpty)))
      && (!IsEmptyText(initJson) && Unmarshal(initJson).Err? ==> e == Ending(w1, Fatal(InitJsonInvalid)))
      && (!IsEmptyText(initJson) && Unmarshal(initJson).Ok? ==>
            var k := RekeySpec(f, flags, locked, w1, Unmarshal(initJson).value, respond);
            var m := k.ending.world.trace;
            var t := e.world.trace;
            && SealOps.Extends(w1.trace, m) && |m| > |w1.trace| && m[|w1.trace|] == ProcessStatus(Rekey(Recovery))
            && (k.ending.exit.Fatal? ==> e == k.ending)
            && (k.ending.exit == Finished ==>
                  && Stored(flags.filePath, k.ending.world, k.resp, respond)
                  && e == RotateRootSpec(f, flags, locked, k.ending.world, k.resp, respond, xor).ending
                  && SealOps.Extends(m, t) && |t| > |m| && t[|m|] == ProcessStatus(GenerateRoot)
                  && (forall i | |m| <= i < |t| && t[i].Update? ::
                        3 <= i - |m| < |k.resp.recoveryKeysB64| + 3 && t[i].key == k.resp.recoveryKeysB64[i - |m| - 3])))
  {
    var w1 := w.(trace := w.trace + [CreateClient]);
    var f := LookupSaveFunc(w.flagSave).value;
    if !IsEmptyText(initJson) && Unmarshal(initJson).Ok? {
      var resp := Unmarshal(initJson).value;
      LegacyRekeyStores(f, flags, locked, w1, resp, respond);
      var k := RekeySpec(f, flags, locked, w1, resp, respond);
      if k.ending.exit == Finished {
        LegacyRotationRevokesAfterStoring(f, flags, locked, k.ending.world, k.resp, respond, xor);
      }
    }
  }
}
