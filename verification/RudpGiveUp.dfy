/** What becomes of the write after one the client has given up: end_write reports success for a message that is
    never sent. Exactly when, and a run that gets there. */
module RudpGiveUp {
  import opened Protocol
  import opened RudpEndpoint
  import opened RudpChannel
  import opened RudpProgress
  import opened RudpCalls
  import ClientLoop

  // Not the beginning and not the end of a write of this end.
  predicate WithinWrite(a: Action, client: bool) {
    match a
    case BeginWrite(me, _) => me != client
    case Poll(me) => me != client
    case GiveUp(_) => !client
    case _ => true
  }

  // The write of `body` that began when `before` had been sent, with ack_outstanding as it was then.
  predicate Underway(x: Side, before: seq<Msg>, body: Msg, armed: bool) {
    if armed then x.pc == Stale && x.wrote == before
    else || (x.pc == Stamped && x.wrote == before && x.ep.out.body == body)
         || ((x.pc == Unarmed || x.pc == Outstanding) && x.wrote == before + [body])
  }

  lemma StepKeepsUnderway(n: Net, a: Action, client: bool, before: seq<Msg>, body: Msg, armed: bool)
    requires Inv(n) && Enabled(n, a) && WithinWrite(a, client) && Underway(Me(n, client), before, body, armed)
    ensures Underway(Me(Next(n, a), client), before, body, armed)
  {
  }

  lemma {:induction false} RunKeepsUnderway(n: Net, actions: seq<Action>, client: bool,
      before: seq<Msg>, body: Msg, armed: bool)
    requires Inv(n) && Exec(n, actions).Some? && Underway(Me(n, client), before, body, armed)
    requires forall i :: 0 <= i < |actions| ==> WithinWrite(actions[i], client)
    ensures Inv(Exec(n, actions).value) && Underway(Me(Exec(n, actions).value, client), before, body, armed)
    decreases |actions|
  {
    if actions != [] {
      StepKeepsUnderway(n, actions[0], client, before, body, armed);
      StepKeepsInv(n, actions[0]);
      RunKeepsUnderway(Next(n, actions[0]), actions[1..], client, before, body, armed);
    }
  }

  // The message was sent, as the one after those before it, and the peer's last accepted message is a copy of it.
  predicate Acknowledged(me: Side, peer: Side, client: bool, before: seq<Msg>, body: Msg) {
    me.wrote == before + [body] && |peer.got| == |me.wrote| && SomeCopy(client, peer.got[|peer.got| - 1], body)
  }

  // The message was never sent: no datagram and nothing accepted carries its number.
  predicate NeverSent(me: Side, peer: Side, before: seq<Msg>) {
    && me.wrote == before && me.ep.out.seqNo == |before| == |peer.got|
    && forall p :: p in peer.inbox ==> p.seqNo != me.ep.out.seqNo
  }

  lemma SuccessTells(m: Net, client: bool, before: seq<Msg>, body: Msg, armed: bool)
    requires Inv(m) && Enabled(m, Poll(client)) && Underway(Me(m, client), before, body, armed)
    ensures Acknowledged(Me(m, client), Me(m, !client), client, before, body) <==> !armed
    ensures armed ==> NeverSent(Me(m, client), Me(m, !client), before)
  {
    AckedMeansAccepted(m, client);
  }

  /** A successful end_write acknowledges the message just stamped if and only if ack_outstanding was clear when it
      was stamped; otherwise that message was never sent. */
  lemma SuccessIffUnarmed(n: Net, client: bool, body: Msg, actions: seq<Action>)
    requires Inv(n) && Enabled(n, BeginWrite(client, body))
    requires forall i :: 0 <= i < |actions| ==> WithinWrite(actions[i], client)
    requires var r := Exec(Next(n, BeginWrite(client, body)), actions); r.Some? && Enabled(r.value, Poll(client))
    ensures var m := Exec(Next(n, BeginWrite(client, body)), actions).value; var before := Me(n, client).wrote;
      && (Acknowledged(Me(m, client), Me(m, !client), client, before, body) <==> !Me(n, client).ep.armed)
      && (Me(n, client).ep.armed ==> NeverSent(Me(m, client), Me(m, !client), before))
  {
    var n1 := Next(n, BeginWrite(client, body));
    var before, armed := Me(n, client).wrote, Me(n, client).ep.armed;
    StepKeepsInv(n, BeginWrite(client, body));
    RunKeepsUnderway(n1, actions, client, before, body, armed);
    SuccessTells(Exec(n1, actions).value, client, before, body, armed);
  }

  /** A response that was given up spoils the next one: once the client has taken the message it answers, the first
      end_write reports success without sending, and whatever follows, the client's phase counts as delivered. */
  lemma GivenUpSpoilsNext(e: Endpoint, p: Packet, body: Msg, rtoUs: int, io: WriteIo, more: seq<Code>)
    requires e.strict && e.armed && !Acked(e) && e.slot == None && Accepts(e, p.seqNo)
    requires !io.read.Closed?
    ensures var told := EndRead(BegRead(e, Datagram(p)).after);
      var r := EndWrite(Stamp(told, body), rtoUs, io);
      && r.code == NoError && r.sent == [] && !r.after.armed
      && ClientLoop.Delivers([r.code] + more)
  {
    var told := EndRead(BegRead(e, Datagram(p)).after);
    SuccessUnsent(told, body, rtoUs, io);
    var codes := [NoError] + more;
    assert codes[0] == NoError && codes[..0] == [];
    assert ClientLoop.Retries(codes[..0]) && ClientLoop.Rtos(codes[..0]) == 0;
  }

  // ----- a run that gets there -----

  // Some run leads from one state to the other.
  ghost predicate Leads(n: Net, m: Net) { exists actions :: Exec(n, actions) == Some(m) }

  lemma LeadsOn(n: Net, m: Net, k: Net)
    requires Leads(n, m) && Leads(m, k)
    ensures Leads(n, k)
  {
    var xs :| Exec(n, xs) == Some(m);
    var ys :| Exec(m, ys) == Some(k);
    ExecConcat(n, xs, ys);
  }

  lemma TwoLead(n: Net, a: Action, b: Action)
    requires Enabled(n, a) && Enabled(Next(n, a), b)
    ensures Leads(n, Next(Next(n, a), b))
  {
    ExecTwo(n, a, b);
  }

  lemma OneLeads(n: Net, a: Action)
    requires Enabled(n, a)
    ensures Leads(n, Next(n, a))
  {
    ExecOne(n, a);
  }

  // The client still waits, k timeouts later; nothing came back and the coordinator has not moved.
  predicate Waited(n: Net, m: Net, k: nat) {
    && Inv(m) && m.c.pc == Outstanding && !Acked(m.c.ep) && m.c.retries == n.c.retries + k
    && m.c.ep.slot == n.c.ep.slot && m.c.ep.seqNo == n.c.ep.seqNo && m.c.wrote == n.c.wrote
    && m.c.inbox == n.c.inbox && m.s.ep == n.s.ep && m.s.pc == n.s.pc && m.s.wrote == n.s.wrote
  }

  lemma TimerFiresOnce(n: Net)
    requires Inv(n) && n.c.pc == Outstanding && !Acked(n.c.ep) && !LastTry(n.c)
    ensures Waited(n, Next(n, Retransmit(true, 0)), 1)
  {
    StepKeepsInv(n, Retransmit(true, 0));
  }

  lemma WaitedOn(n: Net, n1: Net, m: Net, k: nat)
    requires Waited(n, n1, 1) && Waited(n1, m, k)
    ensures Waited(n, m, k + 1)
  {
  }

  // The client's timer fires k times, short of the limit, without anything coming back.
  lemma {:induction false} TimerFires(n: Net, k: nat) returns (m: Net)
    requires Inv(n) && n.c.pc == Outstanding && !Acked(n.c.ep) && n.c.retries + k < RTOS_MAX
    ensures Leads(n, m) && Waited(n, m, k)
    decreases k
  {
    if k == 0 {
      m := n;
      NoStep(n);
    } else {
      var n1 := Next(n, Retransmit(true, 0));
      TimerFiresOnce(n);
      OneLeads(n, Retransmit(true, 0));
      m := TimerFires(n1, k - 1);
      WaitedOn(n, n1, m, k - 1);
      LeadsOn(n, n1, m);
    }
  }

  lemma NoStep(n: Net)
    ensures Leads(n, n)
  {
    assert Exec(n, []) == Some(n);
  }

  // The client has taken the coordinator's request number 0 and owes an answer.
  predicate Asked(n: Net) {
    && Inv(n) && n.c.pc == Idle && n.s.pc == Outstanding && n.c.ep.slot == n.s.ep.slot == None
    && n.c.ep.seqNo == 1 && n.s.ep.seqNo == 0
  }

  lemma RecordRequest(n: Net) returns (m: Net)
    requires Inv(n) && n.c.pc == Idle && n.s.pc == Unarmed && n.s.ep.seqNo == n.s.ep.out.seqNo == 0
    requires n.c.ep.seqNo == 1 && n.s.ep.slot == n.c.ep.slot == None
    ensures Leads(n, m) && Asked(m)
  {
    m := Next(n, ArmWrite(0));
    OneLeads(n, ArmWrite(0));
    StepKeepsInv(n, ArmWrite(0));
  }

  // The answer is under way, accepted by the coordinator, but nothing has come back.
  predicate Answered(n: Net) {
    && Inv(n) && n.c.pc == Outstanding && !Acked(n.c.ep) && n.c.ep.slot == None && |n.c.wrote| == 2 && n.c.retries == 0
    && n.s.pc == Outstanding && Acked(n.s.ep) && n.s.ep.slot.Some? && n.s.ep.seqNo == n.c.ep.seqNo == 1
  }

  lemma SendAnswer(n: Net, vote: Msg) returns (m: Net)
    requires Asked(n)
    ensures Leads(n, m) && m.c.pc == Outstanding && Answered(Next(m, Deliver(false, Packet(1, vote))))
    ensures Enabled(m, Deliver(false, Packet(1, vote)))
  {
    TwoLead(n, BeginWrite(true, vote), FirstSend(true, 0));
    var n1 := Next(n, BeginWrite(true, vote));
    m := Next(n1, FirstSend(true, 0));
    StepKeepsInv(n, BeginWrite(true, vote));
    StepKeepsInv(n1, FirstSend(true, 0));
    StepKeepsInv(m, Deliver(false, Packet(1, vote)));
  }

  // The client gives up although its answer has arrived.
  predicate GivenUp(n: Net) {
    && Inv(n) && n.c.pc == Abandoned && !Acked(n.c.ep) && n.c.ep.slot == None
    && n.s.pc == Outstanding && Acked(n.s.ep) && n.s.ep.slot.Some? && n.s.ep.seqNo == n.c.ep.seqNo == 1
  }

  lemma GivesUp(n: Net) returns (m: Net)
    requires Answered(n)
    ensures Leads(n, m) && GivenUp(m)
  {
    var n1 := TimerFires(n, RTOS_MAX - 1);
    OneLeads(n1, GiveUp(0));
    LeadsOn(n, n1, Next(n1, GiveUp(0)));
    StepKeepsInv(n1, GiveUp(0));
    m := Next(n1, GiveUp(0));
  }

  // The coordinator sends its next message, and nothing it would accept is in flight.
  predicate Asking(n: Net) {
    && Inv(n) && n.c.pc == Abandoned && !Acked(n.c.ep) && n.c.ep.slot == None
    && n.s.pc == Unarmed && n.s.ep.seqNo == n.s.ep.out.seqNo == n.c.ep.seqNo == 1 && n.s.ep.out in n.c.inbox
  }

  lemma AsksAgain(n: Net, order: Msg) returns (m: Net)
    requires GivenUp(n)
    ensures Leads(n, m) && Asking(m)
  {
    var n1 := Next(n, FinishRead(false));
    var n2 := Next(n1, Poll(false));
    var n3 := Next(n2, BeginWrite(false, order));
    m := Next(n3, FirstSend(false, 0));
    TwoLead(n, FinishRead(false), Poll(false));
    StepKeepsInv(n, FinishRead(false));
    StepKeepsInv(n1, Poll(false));
    TwoLead(n2, BeginWrite(false, order), FirstSend(false, 0));
    StepKeepsInv(n2, BeginWrite(false, order));
    StepKeepsInv(n3, FirstSend(false, 0));
    LeadsOn(n, n2, m);
  }

  // The message reaches the client, which takes it.
  lemma NextMessage(n: Net) returns (m: Net)
    requires Asking(n)
    ensures Leads(n, m) && Inv(m) && m.c.pc == Abandoned && Acked(m.c.ep) && m.c.ep.armed && m.c.ep.slot == None
  {
    var n1 := Next(n, Deliver(true, n.s.ep.out));
    m := Next(n1, FinishRead(true));
    TwoLead(n, Deliver(true, n.s.ep.out), FinishRead(true));
    StepKeepsInv(n, Deliver(true, n.s.ep.out));
    StepKeepsInv(n1, FinishRead(true));
  }

  lemma RunFromInit(outC: Packet, outS: Packet, con: Msg, req: Msg, vote: Msg, order: Msg) returns (m: Net)
    ensures Leads(Init(outC, outS), m) && Asking(m)
  {
    var n := Init(outC, outS);
    var n1 := RaceConnects(n, con);
    var n2 := RaceRequests(n1, req);
    LeadsOn(n, n1, n2);
    var n3 := RecordRequest(n2);
    LeadsOn(n, n2, n3);
    var n4 := SendAnswer(n3, vote);
    LeadsOn(n, n3, n4);
    var n5 := Next(n4, Deliver(false, Packet(1, vote)));
    OneLeads(n4, Deliver(false, Packet(1, vote)));
    LeadsOn(n, n4, n5);
    var n6 := GivesUp(n5);
    LeadsOn(n, n5, n6);
    m := AsksAgain(n6, order);
    LeadsOn(n, n6, m);
  }

  /** The other way in which the coordinator's write fails: its number is recorded in time, but the client has given up
      on an answer that had arrived, and so has nothing left to acknowledge with. */
  lemma DesertionIsReachable(outC: Packet, outS: Packet, con: Msg, req: Msg, vote: Msg, order: Msg) returns (n: Net)
    ensures Leads(Init(outC, outS), n) && Enabled(n, ArmWrite(0)) && n.s.ep.seqNo == n.s.ep.out.seqNo
    ensures !CanFinish(Next(n, ArmWrite(0)))
  {
    n := RunFromInit(outC, outS, con, req, vote, order);
    if Answerable(n) {
      AnswerableIffUnaccepted(n);
    }
    ArmingDecides(n, 0);
  }

  /** The failing input: after a response is given up at the limit, whatever the client stamps next is reported as
      written at once, although it was never sent, is not in flight and has not been accepted. */
  lemma UnsentSuccessIsReachable(outC: Packet, outS: Packet, con: Msg, req: Msg, vote: Msg, order: Msg, ack: Msg)
    returns (n: Net, m: Net)
    ensures Leads(Init(outC, outS), n) && Enabled(n, BeginWrite(true, ack)) && m == Next(n, BeginWrite(true, ack))
    ensures Enabled(m, Poll(true)) && m.c.ep.out.body == ack && NeverSent(m.c, m.s, n.c.wrote)
  {
    var n1 := RunFromInit(outC, outS, con, req, vote, order);
    n := NextMessage(n1);
    LeadsOn(Init(outC, outS), n1, n);
    m := Next(n, BeginWrite(true, ack));
    StepKeepsInv(n, BeginWrite(true, ack));
    assert Exec(m, []) == Some(m);
    SuccessIffUnarmed(n, true, ack, []);
  }
}
