/**
 * The key-submission loop that Rekey, RekeyRecoveryKey and RotateRoot (and their older
 * copies rekey and rotateRoot) share: submit the key shares one by one against the nonce
 * of the started process; on the first failed update cancel the process and give up; stop
 * at the first reply that reports the process complete.
 */
module KeySubmission {
  import opened Outcomes
  import opened Remote

  /** How the loop ended: at a completing reply, with every key sent, or after a cancel. */
  datatype LoopEnd = Completed(progress: Progress) | Exhausted | Aborted(msg: string)

  /** The history after the loop, how it ended, and how many keys it sent. */
  datatype LoopRun = LoopRun(trace: seq<Event>, end: LoopEnd, sent: nat)

  /** The update calls that submit `keys` in order, all against `nonce`. */
  function Updates(c: Ceremony, keys: seq<string>, nonce: string): (u: seq<Event>)
    ensures |u| == |keys|
    ensures forall i :: 0 <= i < |u| ==> u[i] == Update(c, keys[i], nonce)
  {
    seq(|keys|, i requires 0 <= i < |keys| => Update(c, keys[i], nonce))
  }

  /**
   * The error the loop returns after a failed update: the cancel call's own error when the
   * cancel fails, otherwise the update's error.
   */
  function CancelMessage(cancelReply: Reply, updateErr: string): string {
    if AsOutcome(cancelReply).Fail? then AsOutcome(cancelReply).msg else updateErr
  }

  predicate Completes(r: Reply) {
    AsProgress(r).Ok? && AsProgress(r).value.complete
  }

  predicate Continues(r: Reply) {
    AsProgress(r).Ok? && !AsProgress(r).value.complete
  }

  /** The loop, run from history `h`. */
  function KeyLoop(c: Ceremony, keys: seq<string>, nonce: string, h: seq<Event>, respond: seq<Event> -> Reply): LoopRun
    decreases |keys|
  {
    if keys == [] then LoopRun(h, Exhausted, 0)
    else
      var h1 := h + [Update(c, keys[0], nonce)];
      match AsProgress(respond(h1))
      case Err(e) =>
        var h2 := h1 + [Cancel(c)];
        LoopRun(h2, Aborted(CancelMessage(respond(h2), e)), 1)
      case Ok(p) =>
        if p.complete then LoopRun(h1, Completed(p), 1)
        else
          var rest := KeyLoop(c, keys[1..], nonce, h1, respond);
          rest.(sent := rest.sent + 1)
  }

  /**
   * The loop as the source runs it: a `for` over the keys with `break` and early return.
   * After a failed update it also hands back the cancel call's reply, which the older entry
   * point turns into its own fatal exit.
   */
  method SubmitKeys(vault: Server, c: Ceremony, keys: seq<string>, nonce: string) returns (end: LoopEnd, cancelReply: Option<Reply>)
    modifies vault
    ensures var run := KeyLoop(c, keys, nonce, old(vault.trace), vault.respond);
      vault.trace == run.trace && end == run.end
    ensures cancelReply.Some? <==> end.Aborted?
    ensures cancelReply.Some? ==> cancelReply.value == vault.respond(vault.trace)
  {
    ghost var whole := KeyLoop(c, keys, nonce, vault.trace, vault.respond);
    var i := 0;
    while i < |keys|
      invariant 0 <= i <= |keys|
      invariant var rest := KeyLoop(c, keys[i..], nonce, vault.trace, vault.respond);
        rest.trace == whole.trace && rest.end == whole.end
    {
      assert keys[i..][0] == keys[i] && keys[i..][1..] == keys[i + 1..];
      var reply := vault.Call(Update(c, keys[i], nonce));
      var progress := AsProgress(reply);
      if progress.Err? {
        var reply := vault.Call(Cancel(c));
        return Aborted(CancelMessage(reply, progress.msg)), Some(reply);
      }
      if progress.value.complete {
        return Completed(progress.value), None;
      }
      i := i + 1;
    }
    end, cancelReply := Exhausted, None;
  }

  /**
   * The calls the loop makes: the first `sent` keys, in list order, each against the
   * same nonce, followed by one cancel call exactly when the loop aborted. A loop that
   * sent every key without completing ends Exhausted; any other end sent at least one key.
   */
  lemma {:induction false} KeyLoopTrace(c: Ceremony, keys: seq<string>, nonce: string, h: seq<Event>, respond: seq<Event> -> Reply)
    ensures var r := KeyLoop(c, keys, nonce, h, respond);
      && r.sent <= |keys|
      && r.trace == h + Updates(c, keys[..r.sent], nonce) + (if r.end.Aborted? then [Cancel(c)] else [])
      && (r.end.Exhausted? ==> r.sent == |keys|)
      && (!r.end.Exhausted? ==> r.sent >= 1)
    decreases |keys|
  {
    if keys != [] {
      var h1 := h + [Update(c, keys[0], nonce)];
      var r := KeyLoop(c, keys, nonce, h, respond);
      match AsProgress(respond(h1))
      case Err(e) =>
        assert Updates(c, keys[..1], nonce) == [Update(c, keys[0], nonce)];
      case Ok(p) =>
        if p.complete {
          assert Updates(c, keys[..1], nonce) == [Update(c, keys[0], nonce)];
        } else {
          KeyLoopTrace(c, keys[1..], nonce, h1, respond);
          var rest := KeyLoop(c, keys[1..], nonce, h1, respond);
          assert keys[..r.sent] == [keys[0]] + keys[1..][..rest.sent];
          assert Updates(c, keys[..r.sent], nonce) == [Update(c, keys[0], nonce)] + Updates(c, keys[1..][..rest.sent], nonce);
        }
    }
  }

  /**
   * The replies the loop saw: every update before the last one sent was answered with an
   * incomplete progress; the last one completed the process (and its reply is the
   * Completed payload), failed (Aborted), or was incomplete too (Exhausted).
   */
  lemma {:induction false} KeyLoopReplies(c: Ceremony, keys: seq<string>, nonce: string, h: seq<Event>, respond: seq<Event> -> Reply)
    ensures var r := KeyLoop(c, keys, nonce, h, respond);
      var last := |h| + r.sent;
      && last <= |r.trace|
      && (forall k | |h| < k < last :: Continues(respond(r.trace[..k])))
      && (r.end.Exhausted? && r.sent > 0 ==> Continues(respond(r.trace[..last])))
      && (r.end.Completed? ==> AsProgress(respond(r.trace[..last])) == Ok(r.end.progress) && r.end.progress.complete)
      && (r.end.Aborted? ==> AsProgress(respond(r.trace[..last])).Err?)
    decreases |keys|
  {
    KeyLoopTrace(c, keys, nonce, h, respond);
    if keys != [] {
      var h1 := h + [Update(c, keys[0], nonce)];
      var r := KeyLoop(c, keys, nonce, h, respond);
      assert r.trace[..|h| + 1] == h1;
      match AsProgress(respond(h1))
      case Err(e) =>
      case Ok(p) =>
        if !p.complete {
          KeyLoopReplies(c, keys[1..], nonce, h1, respond);
          KeyLoopTrace(c, keys[1..], nonce, h1, respond);
          var rest := KeyLoop(c, keys[1..], nonce, h1, respond);
          assert rest.trace == r.trace;
          forall k | |h| < k < |h| + r.sent
            ensures Continues(respond(r.trace[..k]))
          {
            if k == |h| + 1 {
              assert r.trace[..k] == h1;
            }
          }
        }
    }
  }

  /** No key is submitted after a reply that reports the process complete. */
  lemma NoUpdateAfterCompletion(c: Ceremony, keys: seq<string>, nonce: string, h: seq<Event>, respond: seq<Event> -> Reply)
    ensures var r := KeyLoop(c, keys, nonce, h, respond);
      forall k | |h| < k <= |r.trace| && r.trace[k - 1].Update? && Completes(respond(r.trace[..k])) ::
        k == |r.trace| && r.end.Completed?
  {
    KeyLoopTrace(c, keys, nonce, h, respond);
    KeyLoopReplies(c, keys, nonce, h, respond);
  }

  /** A loop that ends any way but Aborted makes no cancel call. */
  lemma CancelOnlyOnAbort(c: Ceremony, keys: seq<string>, nonce: string, h: seq<Event>, respond: seq<Event> -> Reply)
    ensures var r := KeyLoop(c, keys, nonce, h, respond);
      && |h| <= |r.trace|
      && (Cancel(c) in r.trace[|h|..] <==> r.end.Aborted?)
      && (r.end.Aborted? ==> r.trace[|r.trace| - 1] == Cancel(c))
  {
    KeyLoopTrace(c, keys, nonce, h, respond);
    var r := KeyLoop(c, keys, nonce, h, respond);
    var u := Updates(c, keys[..r.sent], nonce);
    if r.end.Aborted? {
      assert r.trace[|h|..] == u + [Cancel(c)];
    } else {
      assert r.trace[|h|..] == u;
    }
  }
}
