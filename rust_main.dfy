/**
 * The entry point of the Rust rewrite (src/main.rs): read the arguments, ask the server
 * whether it is initialized, and if not, send one init request built from the arguments.
 *
 * The server is an oracle over the history of calls, as in the Go model; nothing is saved.
 */
module RustMain {
  import opened Outcomes

  /** Rust's u8. */
  type u8 = x: int | 0 <= x < 256

  const DefaultVaultAddr := "http://127.0.0.1:8200"
  const VaultAddrVar := "VAULT_ADDR"
  const DefaultShares: u8 := 1
  const DefaultThreshold: u8 := 1
  const UndecodableBody := "error decoding response body"

  /** The options given on the command line; those with a default may be absent. */
  datatype CommandLine = CommandLine(
    vaultAddr: Option<string>,
    pgpKeys: Option<seq<string>>,
    rootTokenPgpKey: Option<string>,
    secretShares: Option<u8>,
    secretThreshold: Option<u8>,
    storedShares: Option<u8>,
    recoveryShares: Option<u8>,
    recoveryThreshold: Option<u8>,
    recoveryPgpKeys: Option<seq<string>>)

  /** The parsed arguments. */
  datatype Args = Args(
    vaultAddr: string,
    pgpKeys: Option<seq<string>>,
    rootTokenPgpKey: Option<string>,
    secretShares: u8,
    secretThreshold: u8,
    storedShares: Option<u8>,
    recoveryShares: Option<u8>,
    recoveryThreshold: Option<u8>,
    recoveryPgpKeys: Option<seq<string>>)

  /** The body of the init call. */
  datatype StartInitRequest = StartInitRequest(
    pgpKeys: Option<seq<string>>,
    rootTokenPgpKey: Option<string>,
    secretShares: u8,
    secretThreshold: u8,
    storedShares: Option<u8>,
    recoveryShares: Option<u8>,
    recoveryThreshold: Option<u8>,
    recoveryPgpKeys: Option<seq<string>>)

  datatype StartInitResponse = StartInitResponse(keys: seq<string>, keysBase64: seq<string>, rootToken: string)

  /**
   * The defaults the argument parser applies: the address from the command line, else from
   * VAULT_ADDR, else the local default; one share and a threshold of one.
   */
  function ParseArgs(cl: CommandLine, env: map<string, string>): (a: Args)
    ensures cl.vaultAddr.Some? ==> a.vaultAddr == cl.vaultAddr.value
    ensures cl.vaultAddr.None? && VaultAddrVar in env ==> a.vaultAddr == env[VaultAddrVar]
    ensures cl.vaultAddr.None? && VaultAddrVar !in env ==> a.vaultAddr == DefaultVaultAddr
    ensures a.secretShares == (if cl.secretShares.Some? then cl.secretShares.value else 1)
    ensures a.secretThreshold == (if cl.secretThreshold.Some? then cl.secretThreshold.value else 1)
    ensures a.pgpKeys == cl.pgpKeys && a.rootTokenPgpKey == cl.rootTokenPgpKey && a.storedShares == cl.storedShares
    ensures a.recoveryShares == cl.recoveryShares && a.recoveryThreshold == cl.recoveryThreshold
    ensures a.recoveryPgpKeys == cl.recoveryPgpKeys
  {
    var addr := match cl.vaultAddr
      case Some(v) => v
      case None => if VaultAddrVar in env then env[VaultAddrVar] else DefaultVaultAddr;
    Args(addr, cl.pgpKeys, cl.rootTokenPgpKey,
         match cl.secretShares case Some(n) => n case None => DefaultShares,
         match cl.secretThreshold case Some(n) => n case None => DefaultThreshold,
         cl.storedShares, cl.recoveryShares, cl.recoveryThreshold, cl.recoveryPgpKeys)
  }

  /** From<Args> for StartInitRequest: the eight init fields, copied unchanged. */
  function FromArgs(a: Args): (r: StartInitRequest)
    ensures && r.pgpKeys == a.pgpKeys && r.rootTokenPgpKey == a.rootTokenPgpKey
            && r.secretShares == a.secretShares && r.secretThreshold == a.secretThreshold
            && r.storedShares == a.storedShares && r.recoveryShares == a.recoveryShares
            && r.recoveryThreshold == a.recoveryThreshold && r.recoveryPgpKeys == a.recoveryPgpKeys
  {
    StartInitRequest(a.pgpKeys, a.rootTokenPgpKey, a.secretShares, a.secretThreshold,
                     a.storedShares, a.recoveryShares, a.recoveryThreshold, a.recoveryPgpKeys)
  }

  /**
   * The request carries nothing but the eight init fields of the arguments: two argument
   * sets give the same request exactly when they agree on all eight, whatever their server
   * addresses.
   */
  lemma FromArgsCopiesInitFields(a: Args, b: Args)
    ensures FromArgs(a) == FromArgs(b) <==> a.(vaultAddr := b.vaultAddr) == b
  {
  }

  /** The two calls the entry point makes. */
  datatype Call = ReadInitStatus | StartInit(request: StartInitRequest)

  /** What the server answers: an error, or a body of one of the two shapes. */
  datatype Answer = Failed(msg: string) | Status(initialized: bool) | Started(response: StartInitResponse)

  /** read_init_status's result; a body of the other shape does not decode. */
  function AsStatus(a: Answer): Result<bool> {
    match a
    case Failed(e) => Err(e)
    case Status(b) => Ok(b)
    case Started(_) => Err(UndecodableBody)
  }

  /** start_init's result. */
  function AsStarted(a: Answer): Result<StartInitResponse> {
    match a
    case Failed(e) => Err(e)
    case Started(r) => Ok(r)
    case Status(_) => Err(UndecodableBody)
  }

  /** The history of calls after the entry point, and what it returns. */
  datatype Session = Session(trace: seq<Call>, outcome: Outcome)

  /** main, from history `h`. */
  function MainSpec(a: Args, respond: seq<Call> -> Answer, h: seq<Call>): Session {
    var h1 := h + [ReadInitStatus];
    match AsStatus(respond(h1))
    case Err(e) => Session(h1, Fail(e))
    case Ok(initialized) =>
      if initialized then Session(h1, Pass)
      else Session(h1 + [StartInit(FromArgs(a))], Pass)
  }

  /** The server, answering each call from the history so far. */
  class VaultClient {
    const respond: seq<Call> -> Answer
    var trace: seq<Call>

    constructor (respond: seq<Call> -> Answer)
      ensures this.respond == respond && trace == []
    {
      this.respond := respond;
      trace := [];
    }

    method ReadInitStatus() returns (r: Result<bool>)
      modifies this
      ensures trace == old(trace) + [Call.ReadInitStatus]
      ensures r == AsStatus(respond(trace))
    {
      trace := trace + [Call.ReadInitStatus];
      r := AsStatus(respond(trace));
    }

    method StartInit(request: StartInitRequest) returns (r: Result<StartInitResponse>)
      modifies this
      ensures trace == old(trace) + [Call.StartInit(request)]
      ensures r == AsStarted(respond(trace))
    {
      trace := trace + [Call.StartInit(request)];
      r := AsStarted(respond(trace));
    }
  }

  /** main's sequence of calls: the status, then at most one init, whose result is dropped. */
  method Run(a: Args, vault: VaultClient) returns (o: Outcome)
    modifies vault
    ensures Session(vault.trace, o) == MainSpec(a, vault.respond, old(vault.trace))
  {
    var status := vault.ReadInitStatus();
    if status.Err? {
      return Fail(status.msg);
    }
    if status.value {
      return Pass;
    }
    var request := FromArgs(a);
    var _ := vault.StartInit(request);
    return Pass;
  }

  /**
   * What main does: it always reads the status first; a failed read is returned with its
   * error and no init call follows; an initialized server gets no init call; otherwise
   * exactly one init call goes out, carrying the request built from the arguments, and main
   * returns Ok. No other call is made.
   */
  lemma MainDecision(a: Args, respond: seq<Call> -> Answer, h: seq<Call>)
    ensures var r := MainSpec(a, respond, h);
      var status := AsStatus(respond(h + [ReadInitStatus]));
      && |h| < |r.trace| && r.trace[..|h| + 1] == h + [ReadInitStatus]
      && (status.Err? ==> r == Session(h + [ReadInitStatus], Fail(status.msg)))
      && (status == Ok(true) ==> r == Session(h + [ReadInitStatus], Pass))
      && (status == Ok(false) ==> r == Session(h + [ReadInitStatus, StartInit(FromArgs(a))], Pass))
      && (r.outcome.Fail? <==> status.Err?)
      && (forall i | |h| <= i < |r.trace| :: r.trace[i].StartInit? ==> i == |h| + 1 && status == Ok(false))
  {
  }

  /**
   * The init call's answer is discarded: two servers that give the same status answer lead
   * main to the same calls and the same outcome, however they answer the init call.
   */
  lemma InitAnswerIgnored(a: Args, r1: seq<Call> -> Answer, r2: seq<Call> -> Answer, h: seq<Call>)
    requires r1(h + [ReadInitStatus]) == r2(h + [ReadInitStatus])
    ensures MainSpec(a, r1, h) == MainSpec(a, r2, h)
  {
  }
}
