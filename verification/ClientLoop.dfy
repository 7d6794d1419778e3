/** The client process: its two phases, with their retry loops, over a connection whose answers are given. */
module ClientLoop {
  import opened Protocol
  import opened TwoPhase

  datatype SendEnd = Delivered | GaveUp | StreamEnded | StillSending

  // How a phase ends; `delivered` is false when the response was given up on, which the client does not notice.
  datatype PhaseEnd = Returned(result: int, delivered: bool) | Died | Hung

  // The first answer that is not empty.
  function FirstGot(script: seq<Got>): Got {
    if script == [] then Empty else if script[0] != Empty then script[0] else FirstGot(script[1..])
  }

  // Everything before the answer is empty, and the answer is empty only if everything is.
  ghost predicate FirstIs(script: seq<Got>, got: Got) {
    if got == Empty then forall k :: 0 <= k < |script| ==> script[k] == Empty
    else exists k :: 0 <= k < |script| && script[k] == got && forall j :: 0 <= j < k ==> script[j] == Empty
  }

  lemma {:induction false} FirstMeans(script: seq<Got>, got: Got)
    ensures FirstIs(script, got) <==> got == FirstGot(script)
  {
    if script != [] {
      FirstMeans(script[1..], got);
      if script[0] != Empty {
        assert FirstIs(script, script[0]);
      } else {
        FirstBehind(script, got);
      }
    }
  }

  lemma FirstBehind(script: seq<Got>, got: Got)
    requires script != [] && script[0] == Empty
    ensures FirstIs(script, got) <==> FirstIs(script[1..], got)
  {
    if got != Empty {
      if FirstIs(script, got) {
        var k :| 0 <= k < |script| && script[k] == got && forall j :: 0 <= j < k ==> script[j] == Empty;
        assert script[1..][k - 1] == got;
      }
      if FirstIs(script[1..], got) {
        var k :| 0 <= k < |script[1..]| && script[1..][k] == got && forall j :: 0 <= j < k ==> script[1..][j] == Empty;
        assert script[k + 1] == got;
        assert forall j :: 1 <= j < k + 1 ==> script[j] == script[1..][j - 1];
      }
    } else {
      assert forall k :: 1 <= k < |script| ==> script[k] == script[1..][k - 1];
    }
  }

  function Rtos(codes: seq<Code>): nat {
    if codes == [] then 0 else Rtos(codes[..|codes| - 1]) + (if codes[|codes| - 1] == RtoFired then 1 else 0)
  }

  // Answers after which the sender tries again.
  predicate Retries(codes: seq<Code>) { forall k :: 0 <= k < |codes| ==> codes[k] == Again || codes[k] == RtoFired }

  // The call of end_write that settles a response: the first that succeeds or fails, or the one after the limit.
  predicate Settles(codes: seq<Code>, tries: nat, end: SendEnd) {
    && tries <= |codes| && Retries(codes[..tries]) && Rtos(codes[..tries]) <= RTOS_MAX
    && (end == GaveUp <==> Rtos(codes[..tries]) == RTOS_MAX)
    && (end == Delivered ==> tries < |codes| && codes[tries] == NoError)
    && (end == StreamEnded ==> tries < |codes| && codes[tries] == Fin)
    && (end == StillSending ==> tries == |codes|)
  }

  lemma {:induction false} RtosGrow(codes: seq<Code>, a: nat, b: nat)
    requires a <= b <= |codes|
    ensures Rtos(codes[..a]) <= Rtos(codes[..b])
  {
    if a < b {
      assert codes[..b][..b - 1] == codes[..b - 1];
      RtosGrow(codes, a, b - 1);
    }
  }

  lemma RtosStep(codes: seq<Code>, k: nat)
    requires k < |codes|
    ensures Rtos(codes[..k + 1]) == Rtos(codes[..k]) + (if codes[k] == RtoFired then 1 else 0)
  {
    assert codes[..k + 1][..k] == codes[..k];
  }

  lemma SettledByLimit(codes: seq<Code>, tries: nat, end: SendEnd, tries': nat, end': SendEnd)
    requires Settles(codes, tries, end) && Settles(codes, tries', end') && tries < tries'
    ensures end == GaveUp == end'
  {
    assert codes[..tries'][tries] == codes[tries];
    RtosGrow(codes, tries, tries');
  }

  /** Nothing but the answers decides how sending a response ends. */
  lemma SettlesOnce(codes: seq<Code>, tries: nat, end: SendEnd, tries': nat, end': SendEnd)
    requires Settles(codes, tries, end) && Settles(codes, tries', end')
    ensures end == end'
  {
    if tries < tries' {
      SettledByLimit(codes, tries, end, tries', end');
    } else if tries' < tries {
      SettledByLimit(codes, tries', end', tries, end);
    }
  }

  // end_write succeeds before the limit of retransmissions is reached.
  ghost predicate Delivers(codes: seq<Code>) {
    exists k :: 0 <= k < |codes| && codes[k] == NoError && Retries(codes[..k]) && Rtos(codes[..k]) < RTOS_MAX
  }

  // The limit of retransmissions is reached before anything else is decided.
  ghost predicate GivesUp(codes: seq<Code>) {
    exists k :: 0 <= k <= |codes| && Retries(codes[..k]) && Rtos(codes[..k]) == RTOS_MAX
  }

  // The stream ends before the limit of retransmissions is reached.
  ghost predicate Breaks(codes: seq<Code>) {
    exists k :: 0 <= k < |codes| && codes[k] == Fin && Retries(codes[..k]) && Rtos(codes[..k]) < RTOS_MAX
  }

  // Nothing is decided yet.
  predicate Pends(codes: seq<Code>) { Retries(codes) && Rtos(codes) < RTOS_MAX }

  /** Exactly when a response is acknowledged, given up, cut off, or still being sent. */
  lemma SettlesMeans(codes: seq<Code>, tries: nat, end: SendEnd)
    requires Settles(codes, tries, end)
    ensures end == Delivered <==> Delivers(codes)
    ensures end == GaveUp <==> GivesUp(codes)
    ensures end == StreamEnded <==> Breaks(codes)
    ensures end == StillSending <==> Pends(codes)
  {
    assert codes[..|codes|] == codes;
    if Breaks(codes) {
      var k :| 0 <= k < |codes| && codes[k] == Fin && Retries(codes[..k]) && Rtos(codes[..k]) < RTOS_MAX;
      SettlesOnce(codes, tries, end, k, StreamEnded);
    }
    if Pends(codes) {
      SettlesOnce(codes, tries, end, |codes|, StillSending);
    }
    if Delivers(codes) {
      var k :| 0 <= k < |codes| && codes[k] == NoError && Retries(codes[..k]) && Rtos(codes[..k]) < RTOS_MAX;
      SettlesOnce(codes, tries, end, k, Delivered);
    }
    if GivesUp(codes) {
      var k :| 0 <= k <= |codes| && Retries(codes[..k]) && Rtos(codes[..k]) == RTOS_MAX;
      SettlesOnce(codes, tries, end, k, GaveUp);
    }
  }

  lemma {:induction false} RtosOfFired(codes: seq<Code>)
    requires forall k :: 0 <= k < |codes| ==> codes[k] == RtoFired
    ensures Rtos(codes) == |codes|
  {
    if codes != [] {
      RtosOfFired(codes[..|codes| - 1]);
    }
  }

  /** The input on which a client gives up: nothing but timeouts, as many as the limit. */
  lemma LimitGivesUp(codes: seq<Code>)
    requires |codes| == RTOS_MAX && forall k :: 0 <= k < |codes| ==> codes[k] == RtoFired
    ensures GivesUp(codes) && !Delivers(codes)
  {
    assert codes[..RTOS_MAX] == codes;
    RtosOfFired(codes);
  }

  class ClientProcess {
    const clientNum: nat
    var voteCount: nat
    var out: Msg
    ghost var votes: seq<bool>
    ghost var acted: seq<bool>

    // The client as the two-phase commit machine has it, at the given point of its loop.
    ghost function At(pc: ClientPc): Client
      reads this
    {
      Client(pc, voteCount, false, false, votes, acted)
    }

    // run_client's start, with the connect message already acknowledged.
    constructor (clientId: nat)
      ensures clientNum == clientId && At(AwaitRequest) == Client(AwaitRequest, clientId, false, false, [], [])
    {
      clientNum, voteCount := clientId, clientId;
      out := Msg(Connect, clientId, 0, 0, 0);
      votes, acted := [], [];
    }

    // get_messge: poll until something comes, the stream ends or, if there is a timeout, it fires.
    method GetMessage(script: seq<Got>) returns (got: Got)
      ensures FirstIs(script, got) && got == FirstGot(script)
    {
      FirstMeans(script, FirstGot(script));
      var i := 0;
      while i < |script|
        invariant 0 <= i <= |script|
        invariant FirstGot(script) == FirstGot(script[i..])
      {
        if script[i] != Empty {
          return script[i];
        }
        i := i + 1;
      }
      got := Empty;
    }

    // send_response: an answer to `request`, echoing its timestamp and counters, sent until acknowledged.
    method SendResponse(kind: Kind, request: Msg, codes: seq<Code>) returns (end: SendEnd, ghost tries: nat)
      modifies this`out
      ensures out == Msg(kind, clientNum, request.cRto, request.sRto, request.ts)
      ensures Settles(codes, tries, end)
    {
      out := Msg(kind, clientNum, request.cRto, request.sRto, request.ts);
      var rtos, i := 0, 0;
      while rtos < RTOS_MAX && i < |codes|
        invariant out == Msg(kind, clientNum, request.cRto, request.sRto, request.ts)
        invariant 0 <= i <= |codes| && rtos == Rtos(codes[..i]) <= RTOS_MAX && Retries(codes[..i])
        decreases |codes| - i
      {
        RtosStep(codes, i);
        match codes[i] {
          case NoError => return Delivered, i;
          case Fin => return StreamEnded, i;
          case Again =>
          case RtoFired => rtos := rtos + 1;
        }
        i := i + 1;
      }
      tries := i;
      end := if rtos >= RTOS_MAX then GaveUp else StillSending;
    }

    /** do_phase1 is the machine's Hear, Vote and Written, and its vote is the one the machine casts; anything but a
        request ends the process with nothing sent. */
    method DoPhase1(script: seq<Got>, timeout: bool, codes: seq<Code>) returns (end: PhaseEnd)
      modifies this
      ensures var got, before := FirstGot(script), old(At(AwaitRequest));
        if got.Message? && got.msg.kind == Request then
          var cast := Heard(before, Request);
          && cast.pc.CastVote?
          && out == Msg(VoteKind(cast.pc.yes), clientNum, got.msg.cRto, got.msg.sRto, got.msg.ts)
          && At(VoteWritten).votes == ClientNext(cast, Vote).votes
          && (end.Returned? ==> At(AwaitDecision) == WrittenDone(ClientNext(cast, Vote)))
          && (end.Returned? ==> end.result == (if cast.pc.yes then 0 else 1))
          && (end.Returned? <==> Delivers(codes) || GivesUp(codes))
          && (end == Died <==> Breaks(codes)) && (end == Hung <==> Pends(codes))
          && (end.Returned? ==> (end.delivered <==> Delivers(codes)) && (end.delivered <==> !GivesUp(codes)))
        else
          && out == old(out) && At(AwaitRequest) == before
          && (end == Hung <==> got == Empty && !timeout) && !end.Returned?
          && (got.Message? ==> Heard(before, got.msg.kind).violation)
    {
      var got := GetMessage(script);
      if !got.Message? {
        return if got == Empty && !timeout then Hung else Died;
      }
      var voteYes := voteCount % 5;
      if got.msg.kind != Request {
        return Died;
      }
      votes := votes + [voteYes != 0];
      var sent; ghost var tries;
      sent, tries := SendResponse(if voteYes != 0 then VoteYes else VoteNo, got.msg, codes);
      SettlesMeans(codes, tries, sent);
      if sent == StreamEnded {
        return Died;
      } else if sent == StillSending {
        return Hung;
      }
      voteCount := voteCount + 1;
      end := Returned(if voteYes != 0 then 0 else 1, sent == Delivered);
    }

    /** do_phase2 is the machine's Hear, AckOrder and Written; the client acts on the decision it was sent, and
        anything else ends the process with nothing sent. */
    method DoPhase2(script: seq<Got>, timeout: bool, codes: seq<Code>) returns (end: PhaseEnd)
      modifies this
      ensures var got, before := FirstGot(script), old(At(AwaitDecision));
        if got.Message? && (got.msg.kind == Commit || got.msg.kind == Cancel) then
          var told := Heard(before, got.msg.kind);
          && out == Msg(Ack, clientNum, got.msg.cRto, got.msg.sRto, got.msg.ts)
          && At(SendAck) == told
          && (end.Returned? ==> At(AwaitRequest) == WrittenDone(ClientNext(told, AckOrder)))
          && (end.Returned? ==> end.result == (if got.msg.kind == Commit then 0 else 1))
          && (end.Returned? <==> Delivers(codes) || GivesUp(codes))
          && (end == Died <==> Breaks(codes)) && (end == Hung <==> Pends(codes))
          && (end.Returned? ==> (end.delivered <==> Delivers(codes)) && (end.delivered <==> !GivesUp(codes)))
        else
          && out == old(out) && At(AwaitDecision) == before
          && (end == Hung <==> got == Empty && !timeout) && !end.Returned?
          && (got.Message? ==> Heard(before, got.msg.kind).violation)
    {
      var got := GetMessage(script);
      if !got.Message? {
        return if got == Empty && !timeout then Hung else Died;
      }
      if got.msg.kind != Commit && got.msg.kind != Cancel {
        return Died;
      }
      acted := acted + [got.msg.kind == Commit];
      var sent; ghost var tries;
      sent, tries := SendResponse(Ack, got.msg, codes);
      SettlesMeans(codes, tries, sent);
      if sent == StreamEnded {
        return Died;
      } else if sent == StillSending {
        return Hung;
      }
      end := Returned(if got.msg.kind == Commit then 0 else 1, sent == Delivered);
    }
  }
}
