/** When a reliable-UDP write can complete: retransmission makes progress unless the coordinator recorded its number
    too late, or the client's answer was given up or spoiled by one given up; in both cases it never can. */
module RudpProgress {
  import opened Protocol
  import opened RudpEndpoint
  import opened RudpChannel

  function Total(n: Net): int { n.c.ep.seqNo + n.s.ep.seqNo }

  // The end whose message the other one is waiting for.
  predicate ClientDrives(n: Net) { n.c.ep.seqNo == n.s.ep.seqNo + 1 }

  // current_seq was recorded before a worker thread moved seq_no past the message being sent.
  predicate Timely(n: Net) {
    && (n.s.pc == Unarmed ==> n.s.ep.seqNo == n.s.ep.out.seqNo)
    && (n.s.pc == Outstanding ==> n.s.ep.currentSeq == n.s.ep.out.seqNo)
  }

  predicate Wedged(n: Net) { n.s.pc == Outstanding && n.s.ep.currentSeq != n.s.ep.out.seqNo }

  // An accept by the coordinator between the first send of its write and the recording of current_seq.
  predicate Overtakes(n: Net, a: Action) { a.Deliver? && !a.client && n.s.pc == Unarmed }

  lemma TimelyIsKept(n: Net, a: Action)
    requires Inv(n) && Timely(n) && Enabled(n, a) && !Overtakes(n, a)
    ensures Timely(Next(n, a))
  {
  }

  // Let the end finish reading what it holds, if anything, and deliver a datagram to it.
  function Handing(n: Net, client: bool, p: Packet): seq<Action> {
    (if Me(n, client).ep.slot.Some? then [FinishRead(client)] else []) + [Deliver(client, p)]
  }

  function Cleared(x: Side): Side { x.(ep := EndRead(x.ep)) }

  function Handed(n: Net, client: bool, p: Packet): Net { Put(n, client, Take(Cleared(Me(n, client)), p)) }

  lemma HandingRuns(n: Net, client: bool, p: Packet)
    ensures Exec(n, Handing(n, client, p)) == if p in Me(n, client).inbox then Some(Handed(n, client, p)) else None
  {
    var n1 := Put(n, client, Cleared(Me(n, client)));
    ExecOne(n1, Deliver(client, p));
    if Me(n, client).ep.slot.Some? {
      ExecOne(n, FinishRead(client));
      ExecConcat(n, [FinishRead(client)], [Deliver(client, p)]);
    } else {
      assert n1 == n;
      assert Handing(n, client, p) == [Deliver(client, p)];
    }
  }

  // The timer fires: the message is sent again, by the client perhaps for the last time.
  function OnTimeout(n: Net, client: bool, now: int): Action {
    if client && LastTry(n.c) then GiveUp(now) else Retransmit(client, now)
  }

  // Retransmit, let the peer finish reading, deliver the copy.
  function PushThrough(n: Net, client: bool): seq<Action> {
    var a := OnTimeout(n, client, 0);
    [a] + Handing(Next(n, a), !client, Retry(Me(n, client), 0).ep.out)
  }

  // The two ends after PushThrough.
  function Pushed(n: Net, client: bool): Net {
    Handed(Next(n, OnTimeout(n, client, 0)), !client, Retry(Me(n, client), 0).ep.out)
  }

  lemma PushThroughRuns(n: Net, client: bool)
    requires Me(n, client).pc == Outstanding && !Acked(Me(n, client).ep)
    ensures Exec(n, PushThrough(n, client)) == Some(Pushed(n, client))
  {
    var a, p := OnTimeout(n, client, 0), Retry(Me(n, client), 0).ep.out;
    ExecOne(n, a);
    HandingRuns(Next(n, a), !client, p);
    ExecConcat(n, [a], Handing(Next(n, a), !client, p));
  }

  // The message that the other end waits for is new to it.
  lemma AwaitedIsNew(n: Net, client: bool)
    requires Inv(n) && client == ClientDrives(n) && Me(n, client).pc == Outstanding && !Acked(Me(n, client).ep)
    requires Timely(n)
    ensures Accepts(Me(n, !client).ep, Me(n, client).ep.out.seqNo)
    ensures Me(n, client).ep.out.seqNo == Me(n, !client).ep.seqNo + (if client then 1 else 0)
    ensures Me(n, client).ep.strict == client && Me(n, !client).ep.strict == !client
  {
  }

  // What delivering it changes.
  lemma PushMoves(n: Net, client: bool)
    requires Accepts(Me(n, !client).ep, Me(n, client).ep.out.seqNo)
    requires Me(n, client).ep.out.seqNo == Me(n, !client).ep.seqNo + (if client then 1 else 0)
    requires Me(n, client).ep.strict == client && Me(n, !client).ep.strict == !client
    ensures var m := Pushed(n, client); var me, peer := Me(n, client), Me(n, !client);
      && Me(m, !client).ep.seqNo == peer.ep.seqNo + 1 && Me(m, client).ep.seqNo == me.ep.seqNo
      && Me(m, !client).pc == peer.pc && Me(m, !client).ep.currentSeq == peer.ep.currentSeq
      && Me(m, client).pc == (if client && LastTry(n.c) then Abandoned else me.pc)
      && Me(m, client).ep.currentSeq == me.ep.currentSeq && Me(m, client).ep.out.seqNo == me.ep.out.seqNo
  {
  }

  lemma PushIsAccepted(n: Net, client: bool)
    requires Inv(n) && client == ClientDrives(n) && Me(n, client).pc == Outstanding && !Acked(Me(n, client).ep)
    requires Timely(n)
    ensures var m := Pushed(n, client); var me, peer := Me(n, client), Me(n, !client);
      && Me(m, !client).ep.seqNo == peer.ep.seqNo + 1 && Me(m, client).ep.seqNo == me.ep.seqNo
      && Me(m, !client).pc == peer.pc && Me(m, !client).ep.currentSeq == peer.ep.currentSeq
      && Me(m, client).pc == (if client && LastTry(n.c) then Abandoned else me.pc)
      && Me(m, client).ep.currentSeq == me.ep.currentSeq && Me(m, client).ep.out.seqNo == me.ep.out.seqNo
  {
    AwaitedIsNew(n, client);
    PushMoves(n, client);
  }

  /** The end the other one waits for is never stuck: its write is acknowledged already, or one
      retransmission and one delivery advance the pair by exactly one number. */
  lemma NeverWedges(n: Net, client: bool)
    requires Inv(n) && Timely(n) && client == ClientDrives(n) && Me(n, client).pc == Outstanding
    ensures !Enabled(n, Poll(client)) ==>
      var r := Exec(n, PushThrough(n, client));
      r.Some? && Total(r.value) == Total(n) + 1
  {
    if !Enabled(n, Poll(client)) {
      PushThroughRuns(n, client);
      PushIsAccepted(n, client);
    }
  }

  // A run in which no worker gets between a first send and the recording of current_seq.
  predicate Prompt(n: Net, actions: seq<Action>)
    decreases |actions|
  {
    actions == [] ||
    (Enabled(n, actions[0]) && !Overtakes(n, actions[0]) && Prompt(Next(n, actions[0]), actions[1..]))
  }

  lemma {:induction false} PromptStaysTimely(n: Net, actions: seq<Action>)
    requires Inv(n) && Timely(n) && Prompt(n, actions)
    ensures Exec(n, actions).Some? && Inv(Exec(n, actions).value) && Timely(Exec(n, actions).value)
    decreases |actions|
  {
    if actions != [] {
      StepKeepsInv(n, actions[0]);
      TimelyIsKept(n, actions[0]);
      PromptStaysTimely(Next(n, actions[0]), actions[1..]);
    }
  }

  // ----- a client from which nothing more will come -----

  /** The client can still get a message to the coordinator: neither was its last one stamped without being sent, nor
      has it given up on its last one without a copy that is in flight and that the coordinator would accept. */
  predicate Answerable(n: Net) {
    && n.c.pc != Stale && n.c.pc != Spent
    && (n.c.pc == Abandoned ==> exists p :: p in n.s.inbox && Accepts(n.s.ep, p.seqNo))
  }

  // In other words: of a message given up, the one with the highest number, which the coordinator has not accepted.
  lemma AnswerableIffUnaccepted(n: Net)
    requires Inv(n) && n.c.pc == Abandoned
    ensures Answerable(n) <==>
      n.s.ep.seqNo < |n.c.wrote| - 1 && exists p :: p in n.s.inbox && p.seqNo == |n.c.wrote| - 1
  {
    forall p | p in n.s.inbox
      ensures Accepts(n.s.ep, p.seqNo) <==> n.s.ep.seqNo < |n.c.wrote| - 1 && p.seqNo == |n.c.wrote| - 1
    {
    }
  }

  lemma MuteSaysNothing(n: Net, p: Packet)
    requires Inv(n) && !Answerable(n) && p in n.s.inbox
    ensures !Accepts(n.s.ep, p.seqNo)
  {
    if Accepts(n.s.ep, p.seqNo) {
      AcceptedIsNext(n, false, p);
    }
  }

  // An end that has given up sends nothing, and stays so once it may not begin again.
  predicate GaveUp(pc: WritePc) { pc == Abandoned || pc == Stale || pc == Spent }

  lemma GivenUpSendsNothing(n: Net, a: Action)
    requires Inv(n) && GaveUp(n.c.pc) && Enabled(n, a)
    ensures GaveUp(Next(n, a).c.pc) && (n.c.pc != Abandoned ==> Next(n, a).c.pc != Abandoned)
    ensures forall p :: p in Next(n, a).s.inbox ==> p in n.s.inbox
  {
  }

  lemma NothingNewKeepsNumber(n: Net, a: Action)
    requires Enabled(n, a) && (a.Deliver? && !a.client ==> !Accepts(n.s.ep, a.packet.seqNo))
    ensures Next(n, a).s.ep.seqNo == n.s.ep.seqNo && Next(n, a).s.ep.strict == n.s.ep.strict
  {
  }

  lemma MuteStaysMute(n: Net, a: Action)
    requires Inv(n) && !Answerable(n) && Enabled(n, a)
    ensures !Answerable(Next(n, a)) && Next(n, a).s.ep.seqNo == n.s.ep.seqNo
  {
    if a.Deliver? && !a.client {
      MuteSaysNothing(n, a.packet);
    }
    GivenUpSendsNothing(n, a);
    NothingNewKeepsNumber(n, a);
    forall p | p in Next(n, a).s.inbox
      ensures n.c.pc == Abandoned ==> !Accepts(Next(n, a).s.ep, p.seqNo)
    {
      MuteSaysNothing(n, p);
    }
  }

  /** From a client that is not answerable nothing is ever accepted again. */
  lemma {:induction false} MuteForever(n: Net, actions: seq<Action>)
    requires Inv(n) && !Answerable(n) && Exec(n, actions).Some?
    ensures var m := Exec(n, actions).value; Inv(m) && !Answerable(m) && m.s.ep.seqNo == n.s.ep.seqNo
    decreases |actions|
  {
    if actions != [] {
      MuteStaysMute(n, actions[0]);
      StepKeepsInv(n, actions[0]);
      MuteForever(Next(n, actions[0]), actions[1..]);
    }
  }

  /** What the end that is waited for can do. While it writes, its write is acknowledged already or one retransmission
      and one delivery advance the pair. If it has given up on its last message, a copy in flight advances the pair.
      Otherwise its peer has accepted all it sent, and it can send the message it has stamped, or begin one once it
      has taken what it holds. */
  ghost predicate CanProceed(n: Net, client: bool) {
    var me, peer := Me(n, client), Me(n, !client);
    match me.pc
    case Outstanding => Enabled(n, Poll(client)) || Advances(n, PushThrough(n, client))
    case Abandoned => exists p :: p in peer.inbox && Advances(n, Handing(n, !client, p))
    case Idle => |peer.got| == |me.wrote| && forall m :: Enabled(Put(n, client, Cleared(me)), BeginWrite(client, m))
    case Stamped => |peer.got| == |me.wrote| && Enabled(n, FirstSend(client, 0))
    case _ => false
  }

  predicate Advances(n: Net, actions: seq<Action>) {
    Exec(n, actions).Some? && Total(Exec(n, actions).value) == Total(n) + 1
  }

  lemma AcceptedAdvances(n: Net, client: bool, p: Packet)
    requires Inv(n)
    ensures Advances(n, Handing(n, client, p)) <==> p in Me(n, client).inbox && Accepts(Me(n, client).ep, p.seqNo)
  {
    HandingRuns(n, client, p);
    if p in Me(n, client).inbox && Accepts(Me(n, client).ep, p.seqNo) {
      AcceptedIsNext(n, client, p);
    }
  }

  lemma GivenUpProceeds(n: Net)
    requires Inv(n) && ClientDrives(n) && n.c.pc == Abandoned
    ensures CanProceed(n, true) <==> Answerable(n)
  {
    if Answerable(n) {
      var p :| p in n.s.inbox && Accepts(n.s.ep, p.seqNo);
      AcceptedAdvances(n, false, p);
    } else if CanProceed(n, true) {
      var p :| p in n.s.inbox && Advances(n, Handing(n, false, p));
      AcceptedAdvances(n, false, p);
    }
  }

  /** The end that is waited for can proceed, unless it is a client that is not answerable. */
  lemma DrivingEndProceeds(n: Net, client: bool)
    requires Inv(n) && Timely(n) && client == ClientDrives(n) && Me(n, client).pc != Unarmed
    ensures CanProceed(n, client) <==> (client ==> Answerable(n))
  {
    match Me(n, client).pc
    case Outstanding => NeverWedges(n, client);
    case Abandoned => GivenUpProceeds(n);
    case _ =>
  }

  // Once the coordinator waits for a client that is not answerable, neither number moves.
  lemma StalledStep(n: Net, a: Action)
    requires Inv(n) && ClientDrives(n) && !Answerable(n) && Enabled(n, a)
    ensures ClientDrives(Next(n, a)) && Total(Next(n, a)) == Total(n)
  {
    MuteStaysMute(n, a);
    StepKeepsInv(n, a);
  }

  /** ... in which case neither number ever moves again, whatever both ends and the network do. */
  lemma {:induction false} StalledForever(n: Net, actions: seq<Action>)
    requires Inv(n) && ClientDrives(n) && !Answerable(n) && Exec(n, actions).Some?
    ensures Total(Exec(n, actions).value) == Total(n)
    decreases |actions|
  {
    if actions != [] {
      StalledStep(n, actions[0]);
      MuteStaysMute(n, actions[0]);
      StepKeepsInv(n, actions[0]);
      StalledForever(Next(n, actions[0]), actions[1..]);
    }
  }

  /** With send and recording atomic, in every reachable state the end that is waited for can proceed, at once or after
      the recording that belongs to the send just made, unless it is a client that is not answerable. */
  lemma PromptRunsNeverWedge(outC: Packet, outS: Packet, actions: seq<Action>)
    requires Prompt(Init(outC, outS), actions)
    ensures Exec(Init(outC, outS), actions).Some?
    ensures var n := Exec(Init(outC, outS), actions).value; var client := ClientDrives(n);
      if Me(n, client).pc == Unarmed then
        !client && Enabled(n, ArmWrite(0)) && CanProceed(Next(n, ArmWrite(0)), client)
      else CanProceed(n, client) <==> (client ==> Answerable(n))
  {
    PromptStaysTimely(Init(outC, outS), actions);
    var n := Exec(Init(outC, outS), actions).value;
    var client := ClientDrives(n);
    if Me(n, client).pc == Unarmed {
      StepKeepsInv(n, ArmWrite(0));
      TimelyIsKept(n, ArmWrite(0));
      DrivingEndProceeds(Next(n, ArmWrite(0)), client);
    } else {
      DrivingEndProceeds(n, client);
    }
  }

  // ----- exactly which writes can be acknowledged -----

  // Some continuation lets the coordinator's end_write return success.
  ghost predicate CanFinish(n: Net) {
    exists actions :: Exec(n, actions).Some? && Enabled(Exec(n, actions).value, Poll(false))
  }

  // In a wedged state nothing the coordinator could still receive is new to it.
  lemma WedgedAcceptsNothing(n: Net, p: Packet)
    requires Inv(n) && Wedged(n) && p in n.s.inbox
    ensures !Accepts(n.s.ep, p.seqNo)
  {
    if Accepts(n.s.ep, p.seqNo) {
      AcceptedIsNext(n, false, p);
    }
  }

  lemma WedgedIsKept(n: Net, a: Action)
    requires Inv(n) && Wedged(n) && Enabled(n, a)
    ensures Wedged(Next(n, a))
  {
    if a.Deliver? && !a.client {
      WedgedAcceptsNothing(n, a.packet);
    }
  }

  lemma {:induction false} WedgedForever(n: Net, actions: seq<Action>)
    requires Inv(n) && Wedged(n) && Exec(n, actions).Some?
    ensures !Enabled(Exec(n, actions).value, Poll(false))
    decreases |actions|
  {
    if actions != [] {
      WedgedIsKept(n, actions[0]);
      StepKeepsInv(n, actions[0]);
      WedgedForever(Next(n, actions[0]), actions[1..]);
    }
  }

  lemma FinishLater(n: Net, actions: seq<Action>)
    requires Exec(n, actions).Some? && CanFinish(Exec(n, actions).value)
    ensures CanFinish(n)
  {
    var more :| Exec(Exec(n, actions).value, more).Some?
      && Enabled(Exec(Exec(n, actions).value, more).value, Poll(false));
    ExecConcat(n, actions, more);
  }

  lemma FinishAfter(n: Net, a: Action)
    requires Enabled(n, a) && CanFinish(Next(n, a))
    ensures CanFinish(n)
  {
    ExecOne(n, a);
    FinishLater(n, [a]);
  }

  lemma FinishNow(n: Net)
    requires Enabled(n, Poll(false))
    ensures CanFinish(n)
  {
    assert Exec(n, []) == Some(n);
  }

  lemma OutstandingStays(n: Net, a: Action)
    requires n.s.pc == Outstanding && Enabled(n, a) && a != Poll(false)
    ensures Next(n, a).s.pc == Outstanding
  {
  }

  // A write that cannot finish stays under way.
  lemma {:induction false} UnfinishedForever(n: Net, actions: seq<Action>)
    requires n.s.pc == Outstanding && !CanFinish(n) && Exec(n, actions).Some?
    ensures var m := Exec(n, actions).value; m.s.pc == Outstanding && !CanFinish(m)
    decreases |actions|
  {
    if actions != [] {
      if actions[0] == Poll(false) {
        FinishNow(n);
      }
      if CanFinish(Next(n, actions[0])) {
        FinishAfter(n, actions[0]);
      }
      OutstandingStays(n, actions[0]);
      UnfinishedForever(Next(n, actions[0]), actions[1..]);
    }
  }

  // The client's own write brings the coordinator's acknowledgement.
  lemma AnswerFinishes(n: Net)
    requires Inv(n) && Timely(n) && n.s.pc == Outstanding && ClientDrives(n)
    requires n.c.pc == Outstanding && !Enabled(n, Poll(true)) && !Enabled(n, Poll(false))
    ensures CanFinish(n)
  {
    PushThroughRuns(n, true);
    PushIsAccepted(n, true);
    FinishNow(Pushed(n, true));
    FinishLater(n, PushThrough(n, true));
  }

  lemma StampedFinishes(n: Net)
    requires Inv(n) && Timely(n) && n.s.pc == Outstanding && ClientDrives(n)
    requires n.c.pc == Stamped && !Enabled(n, Poll(false))
    ensures CanFinish(n)
  {
    var a := FirstSend(true, 0);
    StepKeepsInv(n, a);
    AnswerFinishes(Next(n, a));
    FinishAfter(n, a);
  }

  lemma IdleFinishes(n: Net)
    requires Inv(n) && Timely(n) && n.s.pc == Outstanding && ClientDrives(n)
    requires n.c.pc == Idle && n.c.ep.slot == None && !Enabled(n, Poll(false))
    ensures CanFinish(n)
  {
    var a := BeginWrite(true, Msg(Ack, 0, 0, 0, 0));
    StepKeepsInv(n, a);
    StampedFinishes(Next(n, a));
    FinishAfter(n, a);
  }

  lemma HolderFinishes(n: Net)
    requires Inv(n) && Timely(n) && n.s.pc == Outstanding && ClientDrives(n)
    requires n.c.pc == Idle && !Enabled(n, Poll(false))
    ensures CanFinish(n)
  {
    if n.c.ep.slot == None {
      IdleFinishes(n);
    } else {
      StepKeepsInv(n, FinishRead(true));
      IdleFinishes(Next(n, FinishRead(true)));
      FinishAfter(n, FinishRead(true));
    }
  }

  // A copy that is still in flight acknowledges the coordinator's write when it arrives.
  lemma CopyFinishes(n: Net, p: Packet)
    requires Inv(n) && n.s.pc == Outstanding && !Acked(n.s.ep) && p in n.s.inbox && Accepts(n.s.ep, p.seqNo)
    ensures CanFinish(n)
  {
    var n1 := if n.s.ep.slot.Some? then Next(n, FinishRead(false)) else n;
    FinishNow(Next(n1, Deliver(false, p)));
    FinishAfter(n1, Deliver(false, p));
    if n.s.ep.slot.Some? {
      FinishAfter(n, FinishRead(false));
    }
  }

  lemma ClientTurnFinishes(n: Net)
    requires Inv(n) && Timely(n) && n.s.pc == Outstanding && ClientDrives(n)
    requires !Enabled(n, Poll(false)) && Answerable(n)
    ensures CanFinish(n)
  {
    match n.c.pc
    case Idle => HolderFinishes(n);
    case Stamped => StampedFinishes(n);
    case Abandoned =>
      var p :| p in n.s.inbox && Accepts(n.s.ep, p.seqNo);
      CopyFinishes(n, p);
    case Outstanding =>
      if Enabled(n, Poll(true)) {
        StepKeepsInv(n, Poll(true));
        HolderFinishes(Next(n, Poll(true)));
        FinishAfter(n, Poll(true));
      } else {
        AnswerFinishes(n);
      }
  }

  // The coordinator's own retransmission makes it the client's turn.
  lemma CoordinatorTurnFinishes(n: Net)
    requires Inv(n) && Timely(n) && n.s.pc == Outstanding && !ClientDrives(n)
    requires !Enabled(n, Poll(false)) && Answerable(n)
    ensures CanFinish(n)
  {
    PushThroughRuns(n, false);
    PushIsAccepted(n, false);
    RunKeepsInv(n, PushThrough(n, false));
    assert n.c.pc != Abandoned by {
      if n.c.pc == Abandoned {
        AnswerableIffUnaccepted(n);
      }
    }
    ClientTurnFinishes(Pushed(n, false));
    FinishLater(n, PushThrough(n, false));
  }

  lemma TimelyFinishes(n: Net)
    requires Inv(n) && Timely(n) && n.s.pc == Outstanding && Answerable(n)
    ensures CanFinish(n)
  {
    if Enabled(n, Poll(false)) {
      FinishNow(n);
    } else if ClientDrives(n) {
      ClientTurnFinishes(n);
    } else {
      CoordinatorTurnFinishes(n);
    }
  }

  // The coordinator waits for an acknowledgement from a client that is not answerable.
  predicate Deserted(n: Net) { n.s.pc == Outstanding && !Acked(n.s.ep) && !Answerable(n) }

  lemma DesertedIsKept(n: Net, a: Action)
    requires Inv(n) && Deserted(n) && Enabled(n, a)
    ensures Deserted(Next(n, a))
  {
    MuteStaysMute(n, a);
  }

  /** Then its write is never acknowledged. */
  lemma {:induction false} DesertedForever(n: Net, actions: seq<Action>)
    requires Inv(n) && Deserted(n) && Exec(n, actions).Some?
    ensures Inv(Exec(n, actions).value) && Deserted(Exec(n, actions).value)
    ensures !Enabled(Exec(n, actions).value, Poll(false))
    decreases |actions|
  {
    if actions != [] {
      DesertedIsKept(n, actions[0]);
      StepKeepsInv(n, actions[0]);
      DesertedForever(Next(n, actions[0]), actions[1..]);
    }
  }

  /** The race in end_write, exactly: a coordinator's write can still be acknowledged if and only if current_seq is
      recorded while seq_no is still the number that was sent, and the client is answerable. */
  lemma ArmingDecides(n: Net, now: int)
    requires Inv(n) && Enabled(n, ArmWrite(now))
    ensures CanFinish(Next(n, ArmWrite(now))) <==> n.s.ep.seqNo == n.s.ep.out.seqNo && Answerable(n)
  {
    var n' := Next(n, ArmWrite(now));
    StepKeepsInv(n, ArmWrite(now));
    if n.s.ep.seqNo == n.s.ep.out.seqNo && Answerable(n) {
      TimelyFinishes(n');
    } else if CanFinish(n') {
      var actions :| Exec(n', actions).Some? && Enabled(Exec(n', actions).value, Poll(false));
      if n.s.ep.seqNo == n.s.ep.out.seqNo {
        DesertedForever(n', actions);
      } else {
        WedgedForever(n', actions);
      }
    }
  }

  // The coordinator's request number 0 is answered by vote number 1 before current_seq is recorded.
  function ConnectActions(con: Msg): seq<Action> {
    [BeginWrite(true, con), FirstSend(true, 0)] + [Deliver(false, Packet(0, con)), FinishRead(false)]
  }

  function RequestActions(req: Msg): seq<Action> {
    [BeginWrite(false, req), FirstSend(false, 0)] + [Deliver(true, Packet(0, req)), Poll(true)] + [FinishRead(true)]
  }

  function AnswerActions(vote: Msg): seq<Action> {
    [BeginWrite(true, vote), FirstSend(true, 0)] + [Deliver(false, Packet(1, vote)), ArmWrite(0)]
  }

  lemma ExecTwo(n: Net, a: Action, b: Action)
    requires Enabled(n, a) && Enabled(Next(n, a), b)
    ensures Exec(n, [a, b]) == Some(Next(Next(n, a), b))
  {
    ExecOne(n, a);
    ExecOne(Next(n, a), b);
    ExecConcat(n, [a], [b]);
    assert [a] + [b] == [a, b];
  }

  lemma RaceConnects(n: Net, con: Msg) returns (m: Net)
    requires Inv(n) && n.c.pc == n.s.pc == Idle && n.s.ep.seqNo == -1 && n.c.ep.seqNo == 0
    requires n.s.ep.slot == n.c.ep.slot == None
    ensures Exec(n, ConnectActions(con)) == Some(m)
    ensures Inv(m) && m.c.pc == Outstanding && m.s.pc == Idle && m.s.ep.seqNo == m.c.ep.seqNo == 0
    ensures m.s.ep.slot == m.c.ep.slot == None
  {
    var n1 := Next(Next(n, BeginWrite(true, con)), FirstSend(true, 0));
    ExecTwo(n, BeginWrite(true, con), FirstSend(true, 0));
    ExecTwo(n1, Deliver(false, Packet(0, con)), FinishRead(false));
    ExecConcat(n, [BeginWrite(true, con), FirstSend(true, 0)], [Deliver(false, Packet(0, con)), FinishRead(false)]);
    m := Next(Next(n1, Deliver(false, Packet(0, con))), FinishRead(false));
    RunKeepsInv(n, ConnectActions(con));
  }

  lemma RaceRequests(n: Net, req: Msg) returns (m: Net)
    requires Inv(n) && n.c.pc == Outstanding && n.s.pc == Idle && n.s.ep.seqNo == n.c.ep.seqNo == 0
    requires n.s.ep.slot == n.c.ep.slot == None
    ensures Exec(n, RequestActions(req)) == Some(m)
    ensures Inv(m) && m.c.pc == Idle && m.s.pc == Unarmed && m.s.ep.seqNo == m.s.ep.out.seqNo == 0
    ensures m.c.ep.seqNo == 1 && m.s.ep.slot == m.c.ep.slot == None
  {
    var n1 := Next(Next(n, BeginWrite(false, req)), FirstSend(false, 0));
    ExecTwo(n, BeginWrite(false, req), FirstSend(false, 0));
    ExecTwo(n1, Deliver(true, Packet(0, req)), Poll(true));
    ExecConcat(n, [BeginWrite(false, req), FirstSend(false, 0)], [Deliver(true, Packet(0, req)), Poll(true)]);
    var n2 := Next(Next(n1, Deliver(true, Packet(0, req))), Poll(true));
    ExecOne(n2, FinishRead(true));
    ExecConcat(n, [BeginWrite(false, req), FirstSend(false, 0)] + [Deliver(true, Packet(0, req)), Poll(true)],
      [FinishRead(true)]);
    m := Next(n2, FinishRead(true));
    RunKeepsInv(n, RequestActions(req));
  }

  lemma RaceAnswers(n: Net, vote: Msg) returns (m: Net)
    requires Inv(n) && n.c.pc == Idle && n.s.pc == Unarmed && n.s.ep.seqNo == n.s.ep.out.seqNo == 0
    requires n.c.ep.seqNo == 1 && n.s.ep.slot == n.c.ep.slot == None
    ensures Exec(n, AnswerActions(vote)) == Some(m)
    ensures Inv(m) && Wedged(m)
  {
    var n1 := Next(Next(n, BeginWrite(true, vote)), FirstSend(true, 0));
    ExecTwo(n, BeginWrite(true, vote), FirstSend(true, 0));
    ExecTwo(n1, Deliver(false, Packet(1, vote)), ArmWrite(0));
    ExecConcat(n, [BeginWrite(true, vote), FirstSend(true, 0)], [Deliver(false, Packet(1, vote)), ArmWrite(0)]);
    m := Next(Next(n1, Deliver(false, Packet(1, vote))), ArmWrite(0));
    RunKeepsInv(n, AnswerActions(vote));
  }

  /** The race is reachable: a run without loss, duplication or reordering wedges the first request for good. */
  lemma WedgeIsReachable(outC: Packet, outS: Packet, con: Msg, req: Msg, vote: Msg)
    ensures var r := Exec(Init(outC, outS), ConnectActions(con) + RequestActions(req) + AnswerActions(vote));
      r.Some? && Wedged(r.value) && !CanFinish(r.value)
  {
    var n := Init(outC, outS);
    var n1 := RaceConnects(n, con);
    var n2 := RaceRequests(n1, req);
    var n3 := RaceAnswers(n2, vote);
    ExecConcat(n, ConnectActions(con), RequestActions(req));
    ExecConcat(n, ConnectActions(con) + RequestActions(req), AnswerActions(vote));
    if CanFinish(n3) {
      var actions :| Exec(n3, actions).Some? && Enabled(Exec(n3, actions).value, Poll(false));
      WedgedForever(n3, actions);
    }
  }
}
