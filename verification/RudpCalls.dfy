/** The calls of the connection object are runs of the network model's actions. */
module RudpCalls {
  import opened Protocol
  import opened RudpEndpoint
  import opened RudpChannel
  import opened RudpProgress

  // What one call needs from outside for the model to describe it: the socket works, and a datagram
  // that is read was in flight.
  predicate Plausible(n: Net, client: bool, io: WriteIo) {
    && io.firstOk && io.retryOk
    && (io.read.Datagram? ==> io.read.packet in Me(n, client).inbox)
    && !io.read.Closed?
  }

  // The end is in the middle of a write, as end_write's callers have it.
  predicate IsWriting(n: Net, client: bool) {
    var pc := Me(n, client).pc;
    pc == Stamped || pc == Outstanding || pc == Stale
  }

  // What the invariant says about such an end.
  predicate Writing(n: Net, client: bool) {
    var me := Me(n, client);
    && IsWriting(n, client) && me.ep.strict == client && me.ep.armed == (me.pc != Stamped)
    && (me.pc == Stale ==> client && me.ep.currentSeq < me.ep.seqNo)
  }

  lemma WritingHolds(n: Net, client: bool)
    requires Inv(n) && IsWriting(n, client)
    ensures Writing(n, client)
  {
  }

  function SendActions(n: Net, client: bool, io: WriteIo): seq<Action> {
    if Me(n, client).pc != Stamped then []
    else if client then [FirstSend(true, io.firstNow)]
    else [FirstSend(false, io.firstNow), ArmWrite(io.firstNow)]
  }

  function ReadActions(n: Net, client: bool, base: BaseRead): seq<Action> {
    if Me(n, client).ep.slot.None? && base.Datagram? then [Deliver(client, base.packet)] else []
  }

  function SettleActions(n: Net, client: bool, rtoUs: int, io: WriteIo): seq<Action> {
    var ep := Me(n, client).ep;
    if Acked(ep) then [Poll(client)]
    else if io.now < ep.tsStart + rtoUs then []
    else [OnTimeout(n, client, io.retryNow)]
  }

  // What beg_read may hand over: the last message accepted, waiting since then or accepted now.
  predicate HandsOver(before: Side, after: Side, code: Code, data: Option<Msg>) {
    && (code == NoError <==> data.Some?) && (code != NoError ==> after.got == before.got)
    && (code == NoError ==>
          && after.got != [] && data == Some(after.got[|after.got| - 1])
          && (if before.ep.slot.Some? then after.got == before.got
              else after.got[..|after.got| - 1] == before.got && after.ep.seqNo == before.ep.seqNo + 1))
  }

  // A new datagram is taken; an old one changes nothing but the datagrams in flight.
  lemma TakeHandsOver(x: Side, p: Packet)
    requires x.ep.slot.None? && (Accepts(x.ep, p.seqNo) ==> Accept(x.ep, p).seqNo == x.ep.seqNo + 1)
    ensures var r := BegRead(x.ep, Datagram(p)); HandsOver(x, Take(x, p), r.code, r.data)
  {
    if Accepts(x.ep, p.seqNo) {
      assert (x.got + [p.body])[..|x.got|] == x.got;
    }
  }

  lemma WaitingHandsOver(x: Side, base: BaseRead)
    requires x.ep.slot.Some? && ReaderOk(x.ep, x.got)
    ensures var r := BegRead(x.ep, base); HandsOver(x, x, r.code, r.data)
  {
  }

  lemma DatagramHandsOver(n: Net, client: bool, p: Packet)
    requires Inv(n) && Enabled(n, Deliver(client, p))
    ensures var r := BegRead(Me(n, client).ep, Datagram(p));
      HandsOver(Me(n, client), Me(Next(n, Deliver(client, p)), client), r.code, r.data)
  {
    if Accepts(Me(n, client).ep, p.seqNo) {
      AcceptedIsNext(n, client, p);
    }
    TakeHandsOver(Me(n, client), p);
  }

  lemma IdleHandsOver(x: Side)
    requires x.ep.slot.None?
    ensures var r := BegRead(x.ep, Nothing); HandsOver(x, x, r.code, r.data)
  {
  }

  lemma SlotIsLast(n: Net, client: bool)
    requires Inv(n)
    ensures ReaderOk(Me(n, client).ep, Me(n, client).got)
  {
  }

  lemma ReadHandsOver(n: Net, client: bool, base: BaseRead)
    requires Inv(n) && !base.Closed? && (base.Datagram? ==> base.packet in Me(n, client).inbox)
    requires Exec(n, ReadActions(n, client, base)).Some?
    ensures var r := BegRead(Me(n, client).ep, base);
      HandsOver(Me(n, client), Me(Exec(n, ReadActions(n, client, base)).value, client), r.code, r.data)
  {
    if Me(n, client).ep.slot.Some? {
      SlotIsLast(n, client);
      WaitingHandsOver(Me(n, client), base);
    } else if base.Datagram? {
      ExecOne(n, Deliver(client, base.packet));
      DatagramHandsOver(n, client, base.packet);
    } else {
      IdleHandsOver(Me(n, client));
    }
  }

  /** beg_read: an accepted datagram moves the end exactly as the Deliver action does, and what is handed over is the
      last message this end has accepted. */
  lemma ReadCallIsSteps(n: Net, client: bool, base: BaseRead)
    requires !base.Closed? && (base.Datagram? ==> base.packet in Me(n, client).inbox)
    ensures Exec(n, ReadActions(n, client, base)).Some?
    ensures var m := Exec(n, ReadActions(n, client, base)).value;
      && Me(m, client).ep == BegRead(Me(n, client).ep, base).after
      && Me(m, client).pc == Me(n, client).pc && Me(m, !client) == Me(n, !client)
      && Me(m, client).retries == Me(n, client).retries && Me(m, client).wrote == Me(n, client).wrote
    ensures Inv(n) ==>
      var m := Exec(n, ReadActions(n, client, base)).value; var r := BegRead(Me(n, client).ep, base);
      HandsOver(Me(n, client), Me(m, client), r.code, r.data)
  {
    if ReadActions(n, client, base) != [] {
      ExecOne(n, Deliver(client, base.packet));
    }
    if Inv(n) {
      ReadHandsOver(n, client, base);
    }
  }

  // A call in two parts: the first send and the read, then the test, the timer and the retransmission.
  function FrontActions(n: Net, client: bool, io: WriteIo): seq<Action> {
    var first := SendActions(n, client, io);
    if client && Exec(n, first).Some? then first + ReadActions(Exec(n, first).value, client, io.read) else first
  }

  function CallActions(n: Net, client: bool, rtoUs: int, io: WriteIo): seq<Action> {
    var front := FrontActions(n, client, io);
    if Exec(n, front).Some? then front + SettleActions(Exec(n, front).value, client, rtoUs, io) else front
  }

  // A retransmission by this end.
  predicate IsResend(a: Action, client: bool) { (a.Retransmit? && a.client == client) || (a.GiveUp? && client) }

  predicate Resends(actions: seq<Action>, client: bool) { exists a :: a in actions && IsResend(a, client) }

  // What the answer of a call says about the run.
  predicate CodeIsRun(code: Code, actions: seq<Action>, client: bool) {
    && (code == NoError <==> Poll(client) in actions)
    && (code == RtoFired <==> Resends(actions, client))
    && code != Fin
  }

  // A stale write stays stale, any other is under way after the first send.
  function Sending(pc: WritePc): WritePc { if pc == Stale then Stale else Outstanding }

  // Retransmissions and writes after the (possible) first send.
  function RetriesAtStart(x: Side): nat { if x.pc == Stamped then 0 else x.retries }

  function WroteAtStart(x: Side): seq<Msg> { if x.pc == Stamped then x.wrote + [x.ep.out.body] else x.wrote }

  lemma SendCallIsSteps(n: Net, client: bool, io: WriteIo)
    requires Writing(n, client)
    ensures Exec(n, SendActions(n, client, io)).Some?
    ensures var m := Exec(n, SendActions(n, client, io)).value; var e := Me(n, client).ep;
      && Me(m, client).pc == Sending(Me(n, client).pc) && Me(m, client).retries == RetriesAtStart(Me(n, client))
      && Me(m, client).wrote == WroteAtStart(Me(n, client))
      && Me(m, client).ep == (if e.armed then e else Arm(e, io.firstNow))
      && Me(m, client).inbox == Me(n, client).inbox
      && Me(m, !client).inbox == Me(n, !client).inbox + multiset(if e.armed then [] else [e.out])
  {
    if Me(n, client).pc == Stamped {
      if client {
        ExecOne(n, FirstSend(true, io.firstNow));
      } else {
        ExecTwo(n, FirstSend(false, io.firstNow), ArmWrite(io.firstNow));
      }
    } else {
      assert Exec(n, []) == Some(n);
    }
  }

  lemma TimeoutSends(n: Net, client: bool, now: int)
    requires Me(n, client).pc == Outstanding && !Acked(Me(n, client).ep)
    ensures Enabled(n, OnTimeout(n, client, now))
    ensures var m := Next(n, OnTimeout(n, client, now)); var e := Me(n, client).ep;
      && Me(m, client).ep == Bump(e).(tsStart := now)
      && Me(m, client).retries == Me(n, client).retries + 1 && Me(m, client).wrote == Me(n, client).wrote
      && Me(m, client).pc == (if client && LastTry(Me(n, client)) then Abandoned else Outstanding)
      && Me(m, !client).inbox == Me(n, !client).inbox + multiset{Bump(e).out}
  {
  }

  lemma PollSendsNothing(n: Net, client: bool)
    requires Enabled(n, Poll(client))
    ensures var m := Next(n, Poll(client));
      && Me(m, client).ep == Me(n, client).ep.(armed := false) && Me(m, !client) == Me(n, !client)
      && Me(m, client).retries == Me(n, client).retries && Me(m, client).wrote == Me(n, client).wrote
  {
  }

  // The writer after a call, against the writer after its first send: a timeout counts, and the last one gives up.
  predicate WriterAfter(x: Side, y: Side, client: bool, code: Code) {
    && y.wrote == x.wrote && y.retries == x.retries + (if code == RtoFired then 1 else 0)
    && (code == Again ==> y.pc == x.pc)
    && (code == RtoFired ==> y.pc == (if client && LastTry(x) then Abandoned else Outstanding))
  }

  lemma SettleCallIsSteps(n: Net, client: bool, sent: seq<Packet>, rtoUs: int, io: WriteIo)
    requires (Me(n, client).pc == Outstanding || (Me(n, client).pc == Stale && Acked(Me(n, client).ep))) && io.retryOk
    ensures Exec(n, SettleActions(n, client, rtoUs, io)).Some?
    ensures var m := Exec(n, SettleActions(n, client, rtoUs, io)).value;
      var r := Settle(Me(n, client).ep, sent, rtoUs, io);
      && Me(m, client).ep == r.after && sent <= r.sent
      && Me(m, !client).inbox == Me(n, !client).inbox + multiset(r.sent[|sent|..])
      && CodeIsRun(r.code, SettleActions(n, client, rtoUs, io), client)
      && WriterAfter(Me(n, client), Me(m, client), client, r.code)
  {
    var ep := Me(n, client).ep;
    if Acked(ep) {
      ExecOne(n, Poll(client));
      PollSendsNothing(n, client);
    } else if io.now >= ep.tsStart + rtoUs {
      ExecOne(n, OnTimeout(n, client, io.retryNow));
      TimeoutSends(n, client, io.retryNow);
      assert (sent + [Bump(ep).out])[|sent|..] == [Bump(ep).out];
      assert IsResend(SettleActions(n, client, rtoUs, io)[0], client);
    }
  }

  // The end before the last part of end_write, and what the call has sent by then.
  function Prepared(e: Endpoint, io: WriteIo): Endpoint {
    var armed := if e.armed then e else Arm(e, io.firstNow);
    if e.strict then BegRead(armed, io.read).after else armed
  }

  function FirstSent(e: Endpoint): seq<Packet> { if e.armed then [] else [e.out] }

  lemma EndWriteSplits(e: Endpoint, rtoUs: int, io: WriteIo)
    requires io.firstOk && !io.read.Closed?
    ensures EndWrite(e, rtoUs, io) == Settle(Prepared(e, io), FirstSent(e), rtoUs, io)
  {
  }

  lemma PrepareIsSteps(n: Net, client: bool, io: WriteIo)
    requires Writing(n, client)
    requires Plausible(n, client, io)
    ensures var actions := FrontActions(n, client, io);
      Exec(n, actions).Some? && Poll(client) !in actions && !Resends(actions, client)
    ensures var m := Exec(n, FrontActions(n, client, io)).value; var e := Me(n, client).ep;
      && Me(m, client).pc == Sending(Me(n, client).pc) && Me(m, client).ep == Prepared(e, io)
      && Me(m, client).retries == RetriesAtStart(Me(n, client)) && Me(m, client).wrote == WroteAtStart(Me(n, client))
      && Me(m, !client).inbox == Me(n, !client).inbox + multiset(FirstSent(e))
  {
    SendCallIsSteps(n, client, io);
    var first := SendActions(n, client, io);
    if client {
      var n1 := Exec(n, first).value;
      ReadCallIsSteps(n1, client, io.read);
      ExecConcat(n, first, ReadActions(n1, client, io.read));
    }
  }

  lemma Appended(xs: seq<Packet>, ys: seq<Packet>)
    requires xs <= ys
    ensures multiset(ys) == multiset(xs) + multiset(ys[|xs|..])
  {
    assert ys == xs + ys[|xs|..];
  }

  lemma StaleStaysAcked(e: Endpoint, io: WriteIo)
    requires e.strict && e.armed && e.currentSeq < e.seqNo
    ensures Acked(Prepared(e, io))
  {
  }

  lemma CodeOfParts(front: seq<Action>, back: seq<Action>, client: bool, code: Code)
    requires Poll(client) !in front && !Resends(front, client)
    ensures CodeIsRun(code, back, client) <==> CodeIsRun(code, front + back, client)
  {
    if Resends(back, client) {
      var a :| a in back && IsResend(a, client);
      assert a in front + back;
    }
  }

  // The two parts of a call, one after the other.
  lemma PartsCompose(n: Net, n1: Net, client: bool, e: Endpoint, rtoUs: int, io: WriteIo, front: seq<Action>)
    requires Exec(n, front) == Some(n1) && Poll(client) !in front && !Resends(front, client) && io.retryOk
    requires Me(n1, client).pc == Outstanding || (Me(n1, client).pc == Stale && Acked(Me(n1, client).ep))
    requires Me(n1, !client).inbox == Me(n, !client).inbox + multiset(FirstSent(e))
    ensures var actions := front + SettleActions(n1, client, rtoUs, io);
      var r := Settle(Me(n1, client).ep, FirstSent(e), rtoUs, io);
      && Exec(n, actions).Some? && Me(Exec(n, actions).value, client).ep == r.after
      && Me(Exec(n, actions).value, !client).inbox == Me(n, !client).inbox + multiset(r.sent)
      && CodeIsRun(r.code, actions, client)
      && WriterAfter(Me(n1, client), Me(Exec(n, actions).value, client), client, r.code)
  {
    var back := SettleActions(n1, client, rtoUs, io);
    CodeOfParts(front, back, client, Settle(Me(n1, client).ep, FirstSent(e), rtoUs, io).code);
    SettleCallIsSteps(n1, client, FirstSent(e), rtoUs, io);
    ExecConcat(n, front, back);
    Appended(FirstSent(e), Settle(Me(n1, client).ep, FirstSent(e), rtoUs, io).sent);
  }

  // The writer at the end of a call, against the state before it.
  predicate CallCounts(x: Side, y: Side, client: bool, code: Code) {
    && y.wrote == WroteAtStart(x) && y.retries == RetriesAtStart(x) + (if code == RtoFired then 1 else 0)
    && (code == Again ==> y.pc == Sending(x.pc))
    && (code == RtoFired ==>
          y.pc == (if client && |y.wrote| > 1 && y.retries >= RTOS_MAX then Abandoned else Outstanding))
  }

  lemma WritingCallIsSteps(n: Net, client: bool, rtoUs: int, io: WriteIo)
    requires Writing(n, client)
    requires Plausible(n, client, io)
    ensures Exec(n, CallActions(n, client, rtoUs, io)).Some?
    ensures var actions := CallActions(n, client, rtoUs, io); var m := Exec(n, actions).value;
      var r := EndWrite(Me(n, client).ep, rtoUs, io);
      && Me(m, client).ep == r.after
      && Me(m, !client).inbox == Me(n, !client).inbox + multiset(r.sent)
      && CodeIsRun(r.code, actions, client) && CallCounts(Me(n, client), Me(m, client), client, r.code)
  {
    var e := Me(n, client).ep;
    EndWriteSplits(e, rtoUs, io);
    PrepareIsSteps(n, client, io);
    if Me(n, client).pc == Stale {
      StaleStaysAcked(e, io);
    }
    var front := FrontActions(n, client, io);
    PartsCompose(n, Exec(n, front).value, client, e, rtoUs, io, front);
  }

  /** end_write: in every reachable state in which an end is writing, one call on the object is a run of the model
      that leaves the end in the object's state and puts into the network what the call sent. It reports success
      exactly when the run polls an acknowledgement, and a timeout exactly when the run retransmits. */
  lemma WriteCallIsSteps(n: Net, client: bool, rtoUs: int, io: WriteIo)
    requires Inv(n) && IsWriting(n, client)
    requires Plausible(n, client, io)
    ensures Exec(n, CallActions(n, client, rtoUs, io)).Some?
    ensures var actions := CallActions(n, client, rtoUs, io); var m := Exec(n, actions).value;
      var r := EndWrite(Me(n, client).ep, rtoUs, io);
      && Me(m, client).ep == r.after
      && Me(m, !client).inbox == Me(n, !client).inbox + multiset(r.sent)
      && CodeIsRun(r.code, actions, client) && CallCounts(Me(n, client), Me(m, client), client, r.code)
  {
    WritingHolds(n, client);
    WritingCallIsSteps(n, client, rtoUs, io);
  }

  // ----- success without sending -----

  // The end after the read that end_write makes of its own accord.
  function AfterOwnRead(e: Endpoint, io: WriteIo): Endpoint { if e.strict then BegRead(e, io.read).after else e }

  /** The first call of end_write on a message just stamped reports success without having sent anything if and only
      if ack_outstanding is still set from an earlier write and the number has moved on since that one was sent. */
  lemma SuccessUnsent(e: Endpoint, body: Msg, rtoUs: int, io: WriteIo)
    requires !io.read.Closed?
    ensures var r := EndWrite(Stamp(e, body), rtoUs, io);
      r.code == NoError && r.sent == [] <==> e.armed && Acked(AfterOwnRead(e, io))
  {
    assert Acked(AfterOwnRead(Stamp(e, body), io)) == Acked(AfterOwnRead(e, io));
  }
}
