/** One message each way over a reliable-UDP connection that nothing disturbs. */
module NetExchange {
  import opened Protocol
  import opened RudpEndpoint
  import opened RudpChannel

  // Both ends have read all there is; the client's last message has arrived, but it does not know that yet.
  predicate Rested(n: Net) {
    && Inv(n) && n.c.pc == Outstanding && n.c.ep.slot == n.s.ep.slot == None
    && n.s.ep.seqNo == n.c.ep.seqNo >= 0
  }

  predicate Ready(n: Net) { Rested(n) && n.s.pc == Idle }

  // ... after at least one exchange.
  predicate Used(n: Net) { Ready(n) && n.c.ep.seqNo >= 1 }

  predicate ToSend(n: Net, order: Msg) { Rested(n) && n.s.pc == Stamped && n.s.ep.out == Packet(n.s.ep.seqNo, order) }

  lemma Stamps(n: Net, order: Msg)
    requires Ready(n)
    ensures Enabled(n, BeginWrite(false, order)) && ToSend(Next(n, BeginWrite(false, order)), order)
    ensures Next(n, BeginWrite(false, order)).c == n.c
  {
    StepKeepsInv(n, BeginWrite(false, order));
  }

  // The coordinator's message is in flight.
  predicate InFlight(n: Net, p: Packet) {
    && Rested(n) && n.s.pc == Outstanding && n.s.ep.currentSeq == n.s.ep.seqNo == p.seqNo && p in n.c.inbox
  }

  function Sent(n: Net): Net { Next(n, FirstSend(false, 0)) }

  lemma Sends(n: Net, order: Msg)
    requires ToSend(n, order)
    ensures Enabled(n, FirstSend(false, 0)) && Enabled(Sent(n), ArmWrite(0)) && Sent(n).s.pc == Unarmed
    ensures InFlight(Next(Sent(n), ArmWrite(0)), n.s.ep.out)
  {
    StepKeepsInv(n, FirstSend(false, 0));
    StepKeepsInv(Sent(n), ArmWrite(0));
  }

  // It has reached the client, whose earlier write is thereby acknowledged.
  predicate Reached(n: Net, p: Packet) {
    && Inv(n) && n.c.pc == Outstanding && Acked(n.c.ep) && n.c.ep.slot == Some(p) && n.s.ep.slot == None
    && n.s.pc == Outstanding && n.s.ep.currentSeq == n.s.ep.seqNo && n.c.ep.seqNo == n.s.ep.seqNo + 1
  }

  lemma Arrives(n: Net, p: Packet)
    requires InFlight(n, p)
    ensures Enabled(n, Deliver(true, p)) && Accepts(n.c.ep, p.seqNo) && Reached(Next(n, Deliver(true, p)), p)
  {
    StepKeepsInv(n, Deliver(true, p));
  }

  // The client has taken it and may answer.
  predicate Free(n: Net) {
    && Inv(n) && n.c.pc == Idle && n.c.ep.slot == n.s.ep.slot == None
    && n.s.pc == Outstanding && n.s.ep.currentSeq == n.s.ep.seqNo && n.c.ep.seqNo == n.s.ep.seqNo + 1
  }

  lemma Takes(n: Net, p: Packet)
    requires Reached(n, p)
    ensures Enabled(n, Poll(true)) && Next(n, Poll(true)).c.ep.slot == Some(p)
    ensures Enabled(Next(n, Poll(true)), FinishRead(true)) && Free(Next(Next(n, Poll(true)), FinishRead(true)))
    ensures Next(Next(n, Poll(true)), FinishRead(true)).c.ep.seqNo == n.c.ep.seqNo
  {
    StepKeepsInv(n, Poll(true));
    StepKeepsInv(Next(n, Poll(true)), FinishRead(true));
  }

  // The answer is in flight.
  predicate Answering(n: Net, p: Packet) {
    && Inv(n) && n.c.pc == Outstanding && n.c.ep.slot == n.s.ep.slot == None && p in n.s.inbox
    && n.s.pc == Outstanding && n.s.ep.currentSeq == n.s.ep.seqNo && n.c.ep.seqNo == n.s.ep.seqNo + 1 == p.seqNo
  }

  function Answered(n: Net, answer: Msg): Net { Next(Next(n, BeginWrite(true, answer)), FirstSend(true, 0)) }

  lemma Answers(n: Net, answer: Msg)
    requires Free(n)
    ensures Exec(n, [BeginWrite(true, answer), FirstSend(true, 0)]) == Some(Answered(n, answer))
    ensures Answering(Answered(n, answer), Packet(n.c.ep.seqNo, answer))
  {
    var n1 := Next(n, BeginWrite(true, answer));
    StepKeepsInv(n, BeginWrite(true, answer));
    StepKeepsInv(n1, FirstSend(true, 0));
    assert [BeginWrite(true, answer), FirstSend(true, 0)][1..] == [FirstSend(true, 0)];
    assert [FirstSend(true, 0)][1..] == [];
    assert Exec(n1, [FirstSend(true, 0)]) == Some(Answered(n, answer));
  }

  // A worker has accepted the answer; and has ended its read; and the coordinator's write is acknowledged.
  predicate Back(n: Net) {
    && Inv(n) && n.c.pc == Outstanding && n.c.ep.slot == None && n.s.ep.slot.Some?
    && n.s.pc == Outstanding && Acked(n.s.ep) && n.c.ep.seqNo == n.s.ep.seqNo >= 1
  }

  predicate Ended(n: Net) { Rested(n) && n.s.pc == Outstanding && Acked(n.s.ep) && n.c.ep.seqNo >= 1 }

  lemma ComesBack(n: Net, p: Packet)
    requires Answering(n, p)
    ensures Enabled(n, Deliver(false, p)) && Accepts(n.s.ep, p.seqNo) && Back(Next(n, Deliver(false, p)))
  {
    StepKeepsInv(n, Deliver(false, p));
  }

  lemma Ends(n: Net)
    requires Back(n)
    ensures Enabled(n, FinishRead(false)) && Ended(Next(n, FinishRead(false)))
  {
    StepKeepsInv(n, FinishRead(false));
  }

  lemma Settles(n: Net)
    requires Ended(n)
    ensures Enabled(n, Poll(false)) && Used(Next(n, Poll(false)))
  {
    StepKeepsInv(n, Poll(false));
  }
}
