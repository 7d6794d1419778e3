/** What a client's giving up costs two-phase commit over reliable UDP: not safety, but the round never ends. The same
    happens after the race in end_write. */
module EndToEndGiveUp {
  import opened Protocol
  import opened EndToEnd
  import opened EndToEndProof
  import opened EndToEndTheorems
  import opened EndToEndWitness
  import P = TwoPhase
  import R = RudpChannel
  import E = RudpEndpoint
  import G = RudpProgress
  import N = NetExchange

  // ----- a write that cannot finish stalls the round -----

  lemma NetStep(cfg: P.Config, e: System, a: Action, j: nat) returns (xs: seq<R.Action>)
    requires Enabled(cfg, e, a) && j < |e.nets|
    ensures |Next(cfg, e, a).nets| == |e.nets| && R.Exec(e.nets[j], xs) == Some(Next(cfg, e, a).nets[j])
  {
    xs := if NetActions(a) != [] && ConnOf(e, a) == j then NetActions(a) else [];
  }

  // No step clears the stop flag, leaves termination or changes the phase during a broadcast.
  predicate KeepsPlace(c: P.Core, c': P.Core) {
    && (c.stop ==> c'.stop) && (c.pc == P.Term ==> c'.pc == P.Term)
    && (Sending(c.pc) ==> c'.round == c.round && c'.second == c.second)
  }

  lemma MainKeepsPlace(cfg: P.Config, c: P.Core, m: P.MainStep)
    requires P.MainEnabled(cfg, c, m)
    ensures KeepsPlace(c, P.MainNext(cfg, c, m))
  {
  }

  lemma StepKeepsPlace(cfg: P.Config, c: P.Core, st: P.Step)
    requires P.CoreEnabled(cfg, c, st)
    ensures KeepsPlace(c, P.CoreNext(cfg, c, st))
  {
    if st.MainDo? {
      MainKeepsPlace(cfg, c, st.m);
    }
  }

  // The main thread is stopped, or at the broadcast of that phase with connection j not acknowledged.
  predicate Stalled(c: P.Core, j: nat, round: nat, second: bool) {
    || c.pc == P.Term || c.stop
    || (j < P.N(c) && Sending(c.pc) && c.slots[j].flag == P.Sent && c.round == round && c.second == second)
  }

  // Connection j has a write that can never be acknowledged.
  ghost predicate Hopeless(e: System, j: nat) {
    j < |e.nets| && e.nets[j].s.pc == R.Outstanding && !G.CanFinish(e.nets[j])
  }

  lemma HopelessIsStalled(cfg: P.Config, e: System, j: nat)
    requires Inv(cfg, e) && Hopeless(e, j)
    ensures Stalled(e.core, j, e.core.round, e.core.second) && !R.Enabled(e.nets[j], R.Poll(false))
  {
    EveryConnection(cfg, e, j);
    if R.Enabled(e.nets[j], R.Poll(false)) {
      G.FinishNow(e.nets[j]);
    }
  }

  lemma HopelessStep(cfg: P.Config, e: System, a: Action, j: nat)
    requires Inv(cfg, e) && Hopeless(e, j) && Enabled(cfg, e, a)
    ensures Inv(cfg, Next(cfg, e, a)) && Hopeless(Next(cfg, e, a), j)
    ensures KeepsPlace(e.core, Next(cfg, e, a).core)
  {
    ActionRefines(cfg, e, a);
    var xs := NetStep(cfg, e, a, j);
    G.UnfinishedForever(e.nets[j], xs);
    if StepOf(e, a).Some? {
      StepKeepsPlace(cfg, e.core, StepOf(e, a).value);
    }
  }

  lemma {:induction false} HopelessForever(cfg: P.Config, e: System, j: nat, actions: seq<Action>)
    requires Inv(cfg, e) && Hopeless(e, j) && Exec(cfg, e, actions).Some?
    ensures var m := Exec(cfg, e, actions).value;
      && Inv(cfg, m) && Hopeless(m, j) && Stalled(m.core, j, e.core.round, e.core.second)
      && (e.core.stop ==> m.core.stop) && (e.core.pc == P.Term ==> m.core.pc == P.Term)
    decreases |actions|
  {
    HopelessIsStalled(cfg, e, j);
    if actions != [] {
      HopelessStep(cfg, e, actions[0], j);
      HopelessForever(cfg, Next(cfg, e, actions[0]), j, actions[1..]);
    }
  }

  /** If the number that end_write records has moved since the first send, or the client is not answerable, then in no
      continuation is the message acknowledged: the main thread stays in this broadcast of this round until the stop
      signal or termination, whatever clients, workers and the network do. */
  lemma LostAnswerStallsRound(cfg: P.Config, e: System, j: nat, now: int, actions: seq<Action>)
    requires Inv(cfg, e) && Enabled(cfg, e, ArmVisit(j, now))
    requires e.nets[j].s.ep.seqNo != e.nets[j].s.ep.out.seqNo || !G.Answerable(e.nets[j])
    requires Exec(cfg, Next(cfg, e, ArmVisit(j, now)), actions).Some?
    ensures var m := Exec(cfg, Next(cfg, e, ArmVisit(j, now)), actions).value;
      && Stalled(m.core, j, e.core.round, e.core.second)
      && j < |m.nets| && !R.Enabled(m.nets[j], R.Poll(false))
  {
    var e1 := Next(cfg, e, ArmVisit(j, now));
    OneNet(cfg, e, ArmVisit(j, now), R.ArmWrite(now));
    G.ArmingDecides(e.nets[j], now);
    ActionRefines(cfg, e, ArmVisit(j, now));
    HopelessForever(cfg, e1, j, actions);
    HopelessIsStalled(cfg, Exec(cfg, e1, actions).value, j);
  }

  // ----- such a run -----

  // The coordinator's next message is stamped; the client does not know yet that its last one has arrived.
  predicate Unaware(n: R.Net, order: Msg) { N.ToSend(n, order) && n.c.ep.seqNo >= 1 }

  lemma TriesAgain(n: R.Net, order: Msg)
    requires Unaware(n, order) && !R.LastTry(n.c)
    ensures R.Enabled(n, R.Retransmit(true, 0))
    ensures var n' := R.Next(n, R.Retransmit(true, 0)); Unaware(n', order) && n'.c.retries == n.c.retries + 1
  {
    R.StepKeepsInv(n, R.Retransmit(true, 0));
  }

  // The client has given up; the coordinator's next message may be sent.
  predicate Quit(n: R.Net, order: Msg) {
    && R.Inv(n) && n.c.pc == R.Abandoned && !E.Acked(n.c.ep) && n.c.ep.slot == n.s.ep.slot == None
    && n.s.pc == R.Stamped && n.s.ep.out == E.Packet(n.s.ep.seqNo, order) && n.s.ep.seqNo == n.c.ep.seqNo
  }

  lemma LastTryQuits(n: R.Net, order: Msg)
    requires Unaware(n, order) && R.LastTry(n.c)
    ensures R.Enabled(n, R.GiveUp(0)) && Quit(R.Next(n, R.GiveUp(0)), order)
  {
    R.StepKeepsInv(n, R.GiveUp(0));
  }

  // It is in flight.
  predicate Underway(n: R.Net, p: E.Packet) {
    && R.Inv(n) && n.c.pc == R.Abandoned && !E.Acked(n.c.ep) && n.c.ep.slot == n.s.ep.slot == None
    && n.s.pc == R.Outstanding && p in n.c.inbox && p.seqNo == n.s.ep.seqNo == n.c.ep.seqNo
  }

  lemma QuitSends(n: R.Net, order: Msg)
    requires Quit(n, order)
    ensures R.Enabled(n, R.FirstSend(false, 0)) && N.Sent(n).s.pc == R.Unarmed
    ensures Underway(R.Next(N.Sent(n), R.ArmWrite(0)), n.s.ep.out)
  {
    R.StepKeepsInv(n, R.FirstSend(false, 0));
    R.StepKeepsInv(N.Sent(n), R.ArmWrite(0));
  }

  // The client holds it, or has taken it.
  predicate Holding(n: R.Net, slot: Option<E.Packet>) {
    && R.Inv(n) && n.c.pc == R.Abandoned && E.Acked(n.c.ep) && n.c.ep.slot == slot && n.s.pc == R.Outstanding
  }

  lemma Lands(n: R.Net, p: E.Packet)
    requires Underway(n, p)
    ensures R.Enabled(n, R.Deliver(true, p)) && Holding(R.Next(n, R.Deliver(true, p)), Some(p))
  {
    R.StepKeepsInv(n, R.Deliver(true, p));
  }

  lemma IsTaken(n: R.Net, p: E.Packet)
    requires Holding(n, Some(p))
    ensures R.Enabled(n, R.FinishRead(true)) && Holding(R.Next(n, R.FinishRead(true)), None)
  {
    R.StepKeepsInv(n, R.FinishRead(true));
  }

  lemma Spoils(n: R.Net, answer: Msg)
    requires Holding(n, None)
    ensures R.Enabled(n, R.BeginWrite(true, answer))
    ensures var n' := R.Next(n, R.BeginWrite(true, answer));
      n'.c.pc == R.Stale && n'.s.pc == R.Outstanding && !G.CanFinish(n')
  {
    var n' := R.Next(n, R.BeginWrite(true, answer));
    R.StepKeepsInv(n, R.BeginWrite(true, answer));
    if G.CanFinish(n') {
      var actions :| R.Exec(n', actions).Some? && R.Enabled(R.Exec(n', actions).value, R.Poll(false));
      G.DesertedForever(n', actions);
    }
  }

  lemma Fires(cfg: P.Config, s: System, j: nat, t: nat) returns (s': System)
    requires Base(cfg, s, j, t) && R.Enabled(s.nets[j], R.Retransmit(true, 0)) && !s.core.slots[j].client.halted
    ensures Leads(cfg, s, ClientRetry(j, 0), s') && Only(s, s', j, t)
    ensures PartOf(s', j, t) == PartOf(s, j, t).(n := R.Next(s.nets[j], R.Retransmit(true, 0)))
  {
    R.ExecOne(s.nets[j], R.Retransmit(true, 0));
    s' := Next(cfg, s, ClientRetry(j, 0));
  }

  // The client's timer fires until one timeout is left.
  lemma {:induction false} TimesOut(cfg: P.Config, s: System, j: nat, t: nat, order: Msg) returns (s': System)
    requires Base(cfg, s, j, t) && !s.core.slots[j].client.halted && Unaware(s.nets[j], order)
    ensures Joined(cfg, s, s') && Only(s, s', j, t) && PartOf(s', j, t) == PartOf(s, j, t).(n := s'.nets[j])
    ensures Unaware(s'.nets[j], order) && R.LastTry(s'.nets[j].c)
    decreases if R.LastTry(s.nets[j].c) then 0 else RTOS_MAX - s.nets[j].c.retries
  {
    Stay(cfg, s);
    if R.LastTry(s.nets[j].c) {
      s' := s;
    } else {
      TriesAgain(s.nets[j], order);
      var s1 := Fires(cfg, s, j, t);
      Move(cfg, s, s, ClientRetry(j, 0), s1, j, t);
      s' := TimesOut(cfg, s1, j, t, order);
      Then(cfg, s, s1, s', j, t);
    }
  }

  lemma Abandons(cfg: P.Config, s: System, j: nat, t: nat) returns (s': System)
    requires Base(cfg, s, j, t) && R.Enabled(s.nets[j], R.GiveUp(0)) && cfg.losesUp
    requires P.ClientEnabled(s.core.slots[j].client, P.Written)
    ensures Leads(cfg, s, ClientGiveUp(j, 0), s') && Only(s, s', j, t)
    ensures PartOf(s', j, t) ==
      PartOf(s, j, t).(x := Stepped(s.core.slots[j], P.Written), n := R.Next(s.nets[j], R.GiveUp(0)))
  {
    R.ExecOne(s.nets[j], R.GiveUp(0));
    s' := Next(cfg, s, ClientGiveUp(j, 0));
  }

  lemma SpeaksUnsent(cfg: P.Config, s: System, j: nat, t: nat, answer: Msg) returns (s': System)
    requires Base(cfg, s, j, t) && Holding(s.nets[j], None) && cfg.losesUp && answer.src == j + 1
    requires P.ClientEnabled(s.core.slots[j].client, AnswerStep(s.core.slots[j].client))
    requires answer.kind == Answer(s.core.slots[j].client)
    ensures Leads(cfg, s, ClientSpeakUnsent(j, answer), s') && Only(s, s', j, t)
    ensures PartOf(s', j, t) == PartOf(s, j, t).(
      x := Stepped(s.core.slots[j], AnswerStep(s.core.slots[j].client)),
      n := R.Next(s.nets[j], R.BeginWrite(true, answer)))
  {
    Spoils(s.nets[j], answer);
    R.ExecOne(s.nets[j], R.BeginWrite(true, answer));
    s' := Next(cfg, s, ClientSpeakUnsent(j, answer));
  }

  // The client gives up on its vote.
  lemma GivesUp(cfg: P.Config, s: System, j: nat, t: nat, order: Msg) returns (s': System)
    requires Base(cfg, s, j, t) && cfg.losesUp && Waiting(s.core, s.core.slots[j].client) && Unaware(s.nets[j], order)
    ensures Joined(cfg, s, s') && Only(s, s', j, t) && Quit(s'.nets[j], order)
    ensures PartOf(s', j, t) == PartOf(s, j, t).(x := Stepped(s.core.slots[j], P.Written), n := s'.nets[j])
  {
    var s1 := TimesOut(cfg, s, j, t, order);
    LastTryQuits(s1.nets[j], order);
    s' := Abandons(cfg, s1, j, t);
    Move(cfg, s, s1, ClientGiveUp(j, 0), s', j, t);
  }

  // The coordinator sends its next message.
  lemma Orders(cfg: P.Config, s: System, j: nat, t: nat, order: Msg) returns (s': System, p: E.Packet)
    requires Base(cfg, s, j, t) && s.core.pc == P.SendAct && s.core.slots[j].flag == P.Stamped
    requires Quit(s.nets[j], order)
    ensures Joined(cfg, s, s') && Only(s, s', j, t) && Underway(s'.nets[j], p) && p.body == order
    ensures PartOf(s', j, t) ==
      PartOf(s, j, t).(pc := P.SendPoll(j), x := Told(s.core, s.core.slots[j]), n := s'.nets[j])
  {
    p := s.nets[j].s.ep.out;
    QuitSends(s.nets[j], order);
    Stay(cfg, s);
    var s1 := Visits(cfg, s, j, t);
    Move(cfg, s, s, FirstVisit(j, 0), s1, j, t);
    s' := Arms(cfg, s1, j, t);
    Move(cfg, s, s1, ArmVisit(j, 0), s', j, t);
  }

  // The client takes it and answers into the void.
  lemma AnswersInVain(cfg: P.Config, s: System, j: nat, t: nat, p: E.Packet) returns (s': System)
    requires Base(cfg, s, j, t) && cfg.losesUp && Underway(s.nets[j], p)
    requires !s.core.slots[j].client.halted && EndToEnd.Reads(s.core.slots[j].client.pc)
    requires P.ClientEnabled(s.core.slots[j].client, P.Hear(p.body.kind))
    requires var cl := P.Heard(s.core.slots[j].client, p.body.kind); P.ClientEnabled(cl, AnswerStep(cl))
    ensures Joined(cfg, s, s') && Hopeless(s', j) && s'.nets[j].c.pc == R.Stale && s'.core.pc == s.core.pc
    ensures !s'.core.stop && s'.core.second == s.core.second && s'.core.round == s.core.round
  {
    Lands(s.nets[j], p);
    Stay(cfg, s);
    var s1 := EndToEndWitness.Reads(cfg, s, j, t, p);
    Move(cfg, s, s, ClientRead(j, p), s1, j, t);
    IsTaken(s1.nets[j], p);
    var s2 := Hears(cfg, s1, j, t, p);
    Move(cfg, s, s1, ClientHear(j), s2, j, t);
    var answer := Msg(Answer(s2.core.slots[j].client), j + 1, 0, 0, 0);
    Spoils(s2.nets[j], answer);
    s' := SpeaksUnsent(cfg, s2, j, t, answer);
    Move(cfg, s, s2, ClientSpeakUnsent(j, answer), s', j, t);
  }

  // From a broadcast about to visit the client that gives up.
  lemma Spoiled(cfg: P.Config, s: System, j: nat, t: nat, order: Msg) returns (s': System)
    requires Base(cfg, s, j, t) && cfg.losesUp && s.core.pc == P.SendAct && s.core.slots[j].flag == P.Stamped
    requires Waiting(s.core, s.core.slots[j].client) && Unaware(s.nets[j], order) && order.kind == P.Outgoing(s.core)
    ensures Joined(cfg, s, s') && Hopeless(s', j) && s'.nets[j].c.pc == R.Stale && s'.core.pc == P.SendPoll(j)
    ensures !s'.core.stop && s'.core.second == s.core.second && s'.core.round == s.core.round
  {
    TurnSteps(s.core, s.core.slots[j].client);
    var s1 := GivesUp(cfg, s, j, t, order);
    var s2, p := Orders(cfg, s1, j, t, order);
    Then(cfg, s, s1, s2, j, t);
    s' := AnswersInVain(cfg, s2, j, t, p);
    Join(cfg, s, s2, s');
  }

  // Phase 2 is about to begin, and every client has voted.
  lemma SecondPhase(cfg: P.Config) returns (s: System)
    requires P.ValidConfig(cfg)
    ensures Joined(cfg, First(cfg), s) && PhaseStart(cfg, s) && s.core.second && s.core.round == 0
    ensures forall j :: 0 <= j < |s.nets| ==> N.Used(s.nets[j])
  {
    FirstIsInitial(cfg);
    s := PhaseRuns(cfg, First(cfg));
  }

  // What the buffers hold before the first visit, on the first connection.
  lemma FirstIsUnaware(cfg: P.Config, s: System, s1: System, s2: System)
    requires PhaseStart(cfg, s) && |cfg.owner| > 0 && N.Used(s.nets[0])
    requires SameClients(s, s1) && s1.nets == s.nets
    requires SameClients(s1, s2) && FilledBelow(s2, |s1.nets|) && SameClientEnds(s1.nets, s2.nets)
    ensures Base(cfg, s2, 0, cfg.owner[0]) && s2.core.slots[0].flag == P.Stamped && !P.AllFinished(s2.core)
    ensures Waiting(s2.core, s2.core.slots[0].client) && Unaware(s2.nets[0], Order(s2.core))
    ensures s2.core.second == s.core.second && s2.core.round == s.core.round
  {
  }

  // Its broadcast is about to visit the first connection.
  lemma SecondBroadcast(cfg: P.Config, s: System) returns (s': System)
    requires PhaseStart(cfg, s) && |cfg.owner| > 0 && forall j :: 0 <= j < |s.nets| ==> N.Used(s.nets[j])
    ensures Joined(cfg, s, s') && Base(cfg, s', 0, cfg.owner[0]) && s'.core.pc == P.SendAct
    ensures s'.core.slots[0].flag == P.Stamped && Waiting(s'.core, s'.core.slots[0].client)
    ensures Unaware(s'.nets[0], Order(s'.core))
    ensures s'.core.second == s.core.second && s'.core.round == s.core.round
  {
    Stay(cfg, s);
    var s1 := Wipes(cfg, s, s, 0);
    WipedIsEmpty(cfg, s, s1);
    var s2 := Fills(cfg, s, s1, 0);
    FirstIsUnaware(cfg, s, s1, s2);
    s' := Main(cfg, s, s2, P.CheckSend);
  }

  /** For any number of clients and threads there is a run over reliable UDP in which a client gives up on a vote that
      has arrived and then answers the decision into the void; from there the round never ends. */
  lemma GivingUpIsReached(cfg: P.Config) returns (e: System)
    requires P.ValidConfig(cfg) && !cfg.losesDown && cfg.losesUp && |cfg.owner| > 0
    ensures Reachable(cfg, e) && e.core.pc == P.SendPoll(0) && e.core.second && !e.core.stop
    ensures |e.nets| == |cfg.owner| && e.nets[0].c.pc == R.Stale
    ensures forall actions :: Exec(cfg, e, actions).Some? ==>
      Stalled(Exec(cfg, e, actions).value.core, 0, e.core.round, e.core.second)
  {
    FirstIsInitial(cfg);
    var s := First(cfg);
    var s1 := SecondPhase(cfg);
    var s2 := SecondBroadcast(cfg, s1);
    Join(cfg, s, s1, s2);
    e := Spoiled(cfg, s2, 0, cfg.owner[0], Order(s2.core));
    Join(cfg, s, s2, e);
    assert Reachable(cfg, e);
    ReachableRefines(cfg, e);
    forall actions | Exec(cfg, e, actions).Some?
      ensures Stalled(Exec(cfg, e, actions).value.core, 0, e.core.round, e.core.second)
    {
      HopelessForever(cfg, e, 0, actions);
    }
  }
}
