/**
 * The remote side of the seal operations, as an oracle.
 *
 * Every call the orchestrator makes on the Vault API client, on the configured save
 * method and on the random one-time-pad generator is an Event. The oracle answers a call
 * with a Reply computed from the whole history of calls so far (the call included), so
 * any deterministic server behaviour can be scripted, and it records the calls in order.
 */
module Remote {
  import opened Outcomes
  import opened Codec

  /** Which key set a rekey process rotates: the unseal keys or the recovery keys. */
  datatype KeyKind = Unseal | Recovery

  /** The server-side multi-step processes that take one key share per update call. */
  datatype Ceremony = Rekey(kind: KeyKind) | RekeyVerify(kind: KeyKind) | GenerateRoot

  /** vaultapi.InitRequest. */
  datatype InitRequest = InitRequest(
    secretShares: int,
    secretThreshold: int,
    storedShares: int,
    pgpKeys: seq<string>,
    recoveryShares: int,
    recoveryThreshold: int,
    recoveryPgpKeys: seq<string>,
    rootTokenPgpKey: string)

  /** vaultapi.RekeyInitRequest. */
  datatype RekeyRequest = RekeyRequest(
    secretShares: int,
    secretThreshold: int,
    storedShares: int,
    pgpKeys: seq<string>,
    backup: bool,
    requireVerification: bool)

  datatype Event =
    | CreateClient                                 // vaultapi.NewClient
    | InitStatus                                   // Sys().InitStatus
    | Init(req: InitRequest)                       // Sys().Init
    | ProcessStatus(c: Ceremony)                   // Sys().RekeyStatus, RekeyRecoveryKeyStatus, GenerateRootStatus
    | RekeyStart(kind: KeyKind, rekeyReq: RekeyRequest) // Sys().RekeyInit, RekeyRecoveryKeyInit
    | GenerateOtp(length: nat)                     // base62.Random
    | GenerateRootStart(otp: string, pgpKey: string) // Sys().GenerateRootInit
    | Update(c: Ceremony, key: string, nonce: string) // Sys().*Update
    | Cancel(c: Ceremony)                          // Sys().*Cancel
    | RevokeSelf                                    // Auth().Token().RevokeSelf
    | Save(resp: InitResponse)                     // SaveMethod.Save, or a save function not in this model
    | Load                                         // SaveMethod.Load

  /** The status of a multi-step process, as the status and start calls report it. */
  datatype Process = Process(started: bool, nonce: string)

  /** The reply to one update call. */
  datatype Progress = Progress(complete: bool, keys: seq<string>, keysB64: seq<string>, encodedToken: string)

  datatype Reply =
    | Failure(err: string)
    | Done
    | InitState(initialized: bool)
    | Response(resp: InitResponse)
    | ProcessReply(process: Process)
    | ProgressReply(progress: Progress)
    | TextReply(text: string)
    | Empty                 // neither a value nor an error: a Load's (nil, nil)
    | Panicked              // the call panicked instead of returning, as a Load may

  const Unexpected := "unexpected response"

  /** A reply that carries no payload: success, or the error. */
  function AsOutcome(r: Reply): (o: Outcome)
    ensures o == Pass <==> r == Done
    ensures r.Failure? ==> o == Fail(r.err)
    ensures !o.Crash?
  {
    match r
    case Failure(e) => Fail(e)
    case Done => Pass
    case _ => Fail(Unexpected)
  }

  function AsFlag(r: Reply): (x: Result<bool>)
    ensures x.Ok? <==> r.InitState?
    ensures x.Ok? ==> x.value == r.initialized
  {
    match r
    case Failure(e) => Err(e)
    case InitState(b) => Ok(b)
    case _ => Err(Unexpected)
  }

  function AsResponse(r: Reply): (x: Result<InitResponse>)
    ensures x.Ok? <==> r.Response?
    ensures x.Ok? ==> x.value == r.resp
  {
    match r
    case Failure(e) => Err(e)
    case Response(v) => Ok(v)
    case _ => Err(Unexpected)
  }

  /**
   * SaveMethod.Load's pair: the response, or neither a response nor an error (a nil
   * response), or the error.
   */
  function AsLoaded(r: Reply): (x: Result<Option<InitResponse>>)
    ensures x == Ok(None) <==> r == Empty
    ensures x.Ok? && x.value.Some? <==> r.Response?
    ensures x.Ok? && x.value.Some? ==> x.value.value == r.resp
    ensures r.Failure? ==> x == Err(r.err)
  {
    match r
    case Failure(e) => Err(e)
    case Response(v) => Ok(Some(v))
    case Empty => Ok(None)
    case _ => Err(Unexpected)
  }

  function AsProcess(r: Reply): (x: Result<Process>)
    ensures x.Ok? <==> r.ProcessReply?
    ensures x.Ok? ==> x.value == r.process
  {
    match r
    case Failure(e) => Err(e)
    case ProcessReply(p) => Ok(p)
    case _ => Err(Unexpected)
  }

  function AsProgress(r: Reply): (x: Result<Progress>)
    ensures x.Ok? <==> r.ProgressReply?
    ensures x.Ok? ==> x.value == r.progress
  {
    match r
    case Failure(e) => Err(e)
    case ProgressReply(p) => Ok(p)
    case _ => Err(Unexpected)
  }

  function AsText(r: Reply): (x: Result<string>)
    ensures x.Ok? <==> r.TextReply?
    ensures x.Ok? ==> x.value == r.text
  {
    match r
    case Failure(e) => Err(e)
    case TextReply(s) => Ok(s)
    case _ => Err(Unexpected)
  }

  /** The remote parties and their record of the calls made. */
  class Server {
    const respond: seq<Event> -> Reply
    var trace: seq<Event>

    constructor (respond: seq<Event> -> Reply)
      ensures this.respond == respond && trace == []
    {
      this.respond := respond;
      trace := [];
    }

    /** Makes one call: it is recorded, and answered from the history including it. */
    method Call(e: Event) returns (r: Reply)
      modifies this
      ensures trace == old(trace) + [e]
      ensures r == respond(trace)
    {
      trace := trace + [e];
      r := respond(trace);
    }
  }
}
