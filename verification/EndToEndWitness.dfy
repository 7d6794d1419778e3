/** The states the theorems speak about exist: for any number of clients and threads every round is reached and
    completed by some run over reliable UDP. */
module EndToEndWitness {
  import opened Protocol
  import opened Counting
  import opened EndToEnd
  import opened EndToEndProof
  import opened EndToEndTheorems
  import P = TwoPhase
  import T = TwoPhaseTheorems
  import X = TwoPhaseExact
  import R = RudpChannel
  import E = RudpEndpoint
  import N = NetExchange

  predicate Leads(cfg: P.Config, s: System, a: Action, s': System) { Enabled(cfg, s, a) && Next(cfg, s, a) == s' }

  // Some list of actions leads from one state to the other.
  ghost predicate Joined(cfg: P.Config, s: System, s': System) { exists actions :: Exec(cfg, s, actions) == Some(s') }

  lemma {:induction false} ExecConcat(cfg: P.Config, s: System, xs: seq<Action>, ys: seq<Action>)
    requires Exec(cfg, s, xs).Some?
    ensures Exec(cfg, s, xs + ys) == Exec(cfg, Exec(cfg, s, xs).value, ys)
    decreases |xs|
  {
    if xs == [] {
      assert xs + ys == ys;
    } else {
      assert (xs + ys)[1..] == xs[1..] + ys;
      ExecConcat(cfg, Next(cfg, s, xs[0]), xs[1..], ys);
    }
  }

  lemma Join(cfg: P.Config, s: System, s1: System, s2: System)
    requires Joined(cfg, s, s1) && Joined(cfg, s1, s2)
    ensures Joined(cfg, s, s2)
  {
    var xs :| Exec(cfg, s, xs) == Some(s1);
    var ys :| Exec(cfg, s1, ys) == Some(s2);
    ExecConcat(cfg, s, xs, ys);
  }

  lemma Stay(cfg: P.Config, s: System)
    ensures Joined(cfg, s, s)
  {
    assert Exec(cfg, s, []) == Some(s);
  }

  lemma Follow(cfg: P.Config, s: System, s1: System, a: Action, s2: System)
    requires Joined(cfg, s, s1) && Leads(cfg, s1, a, s2)
    ensures Joined(cfg, s, s2)
  {
    assert [a][1..] == [];
    assert Exec(cfg, s1, [a]) == Some(s2);
    Join(cfg, s, s1, s2);
  }

  // ----- one connection -----

  // Connection j and the thread t that reads it, in a system that neither pauses nor stops.
  predicate Base(cfg: P.Config, s: System, j: nat, t: nat) {
    && j < P.N(s.core) == |s.nets| == |cfg.owner| && cfg.owner[j] == t < |s.core.workers| == |s.core.counts|
    && !s.core.pause && !s.core.stop
  }

  // What belongs to connection j and thread t, and where the main thread is.
  datatype Part = Part(pc: P.CoordPc, x: P.Slot, w: P.WorkerPc, v: int, n: R.Net)

  function PartOf(s: System, j: nat, t: nat): Part
    requires j < |s.core.slots| && j < |s.nets| && t < |s.core.workers| && t < |s.core.counts|
  {
    Part(s.core.pc, s.core.slots[j], s.core.workers[t], s.core.counts[t], s.nets[j])
  }

  // Everything else is the same.
  predicate Only(s: System, s': System, j: nat, t: nat) {
    var c, c' := s.core, s'.core;
    && j < |c.slots| == |c'.slots| && j < |s.nets| == |s'.nets|
    && t < |c.workers| == |c'.workers| && t < |c.counts| == |c'.counts|
    && c'.round == c.round && c'.second == c.second && c'.result == c.result && c'.verdict == c.verdict
    && c'.pause == c.pause && c'.stop == c.stop
    && c'.slots == c.slots[j := c'.slots[j]] && s'.nets == s.nets[j := s'.nets[j]]
    && c'.workers == c.workers[t := c'.workers[t]] && c'.counts == c.counts[t := c'.counts[t]]
  }

  lemma OnlyTwice(s: System, s1: System, s2: System, j: nat, t: nat)
    requires Only(s, s1, j, t) && Only(s1, s2, j, t)
    ensures Only(s, s2, j, t)
  {
  }

  lemma Move(cfg: P.Config, s: System, s1: System, a: Action, s2: System, j: nat, t: nat)
    requires Joined(cfg, s, s1) && Only(s, s1, j, t) && Leads(cfg, s1, a, s2) && Only(s1, s2, j, t)
    ensures Joined(cfg, s, s2) && Only(s, s2, j, t)
  {
    Follow(cfg, s, s1, a, s2);
    OnlyTwice(s, s1, s2, j, t);
  }

  // What the broadcast's first send does to the slot.
  function Told(c: P.Core, x: P.Slot): P.Slot {
    if c.second then x.(flag := P.Sent, orders := x.orders + [c.verdict == P.RequestSuccess])
    else x.(flag := P.Sent, asked := x.asked + 1)
  }

  lemma VisitCore(cfg: P.Config, c: P.Core, j: nat)
    requires c.pc == P.SendAct && j < P.N(c) && c.slots[j].flag == P.Stamped
    ensures P.MainEnabled(cfg, c, P.Visit(j))
    ensures P.MainNext(cfg, c, P.Visit(j)) == c.(pc := P.SendPoll(j), slots := c.slots[j := Told(c, c.slots[j])])
  {
  }

  lemma VisitEnabled(cfg: P.Config, s: System, j: nat)
    requires s.core.pc == P.SendAct && j < P.N(s.core) == |s.nets| && s.core.slots[j].flag == P.Stamped
    requires R.Enabled(s.nets[j], R.FirstSend(false, 0))
    ensures Enabled(cfg, s, FirstVisit(j, 0))
    ensures Next(cfg, s, FirstVisit(j, 0)) ==
      System(P.MainNext(cfg, s.core, P.Visit(j)), s.nets[j := N.Sent(s.nets[j])])
  {
    R.ExecOne(s.nets[j], R.FirstSend(false, 0));
  }

  lemma Visits(cfg: P.Config, s: System, j: nat, t: nat) returns (s': System)
    requires Base(cfg, s, j, t) && s.core.pc == P.SendAct && s.core.slots[j].flag == P.Stamped
    requires R.Enabled(s.nets[j], R.FirstSend(false, 0))
    ensures Leads(cfg, s, FirstVisit(j, 0), s') && Only(s, s', j, t)
    ensures PartOf(s', j, t) ==
      PartOf(s, j, t).(pc := P.SendPoll(j), x := Told(s.core, s.core.slots[j]), n := N.Sent(s.nets[j]))
  {
    VisitEnabled(cfg, s, j);
    VisitCore(cfg, s.core, j);
    s' := Next(cfg, s, FirstVisit(j, 0));
  }

  lemma Arms(cfg: P.Config, s: System, j: nat, t: nat) returns (s': System)
    requires Base(cfg, s, j, t) && s.core.pc == P.SendPoll(j) && s.nets[j].s.pc == R.Unarmed
    ensures Leads(cfg, s, ArmVisit(j, 0), s') && Only(s, s', j, t)
    ensures PartOf(s', j, t) == PartOf(s, j, t).(n := R.Next(s.nets[j], R.ArmWrite(0)))
  {
    R.ExecOne(s.nets[j], R.ArmWrite(0));
    s' := Next(cfg, s, ArmVisit(j, 0));
  }

  lemma Reads(cfg: P.Config, s: System, j: nat, t: nat, p: E.Packet) returns (s': System)
    requires Base(cfg, s, j, t) && R.Enabled(s.nets[j], R.Deliver(true, p))
    requires !s.core.slots[j].client.halted && EndToEnd.Reads(s.core.slots[j].client.pc)
    ensures Leads(cfg, s, ClientRead(j, p), s') && Only(s, s', j, t)
    ensures PartOf(s', j, t) == PartOf(s, j, t).(n := R.Next(s.nets[j], R.Deliver(true, p)))
  {
    R.ExecOne(s.nets[j], R.Deliver(true, p));
    s' := Next(cfg, s, ClientRead(j, p));
  }

  // The slot after a step of its client.
  function Stepped(x: P.Slot, a: P.ClientStep): P.Slot
    requires P.ClientEnabled(x.client, a)
  {
    x.(client := P.ClientNext(x.client, a))
  }

  lemma Written(cfg: P.Config, s: System, j: nat, t: nat) returns (s': System)
    requires Base(cfg, s, j, t) && R.Enabled(s.nets[j], R.Poll(true))
      && P.ClientEnabled(s.core.slots[j].client, P.Written)
    ensures Leads(cfg, s, ClientWritten(j), s') && Only(s, s', j, t)
    ensures PartOf(s', j, t) ==
      PartOf(s, j, t).(x := Stepped(s.core.slots[j], P.Written), n := R.Next(s.nets[j], R.Poll(true)))
  {
    R.ExecOne(s.nets[j], R.Poll(true));
    s' := Next(cfg, s, ClientWritten(j));
  }

  lemma Hears(cfg: P.Config, s: System, j: nat, t: nat, p: E.Packet) returns (s': System)
    requires Base(cfg, s, j, t) && s.nets[j].c.ep.slot == Some(p)
    requires P.ClientEnabled(s.core.slots[j].client, P.Hear(p.body.kind))
    ensures Leads(cfg, s, ClientHear(j), s') && Only(s, s', j, t)
    ensures PartOf(s', j, t) ==
      PartOf(s, j, t).(x := Stepped(s.core.slots[j], P.Hear(p.body.kind)), n := R.Next(s.nets[j], R.FinishRead(true)))
  {
    R.ExecOne(s.nets[j], R.FinishRead(true));
    s' := Next(cfg, s, ClientHear(j));
  }

  function AnswerStep(cl: P.Client): P.ClientStep { if cl.pc.CastVote? then P.Vote else P.AckOrder }

  lemma SpeakEnabled(cfg: P.Config, s: System, j: nat, answer: Msg)
    requires j < P.N(s.core) == |s.nets| && N.Free(s.nets[j]) && answer.src == j + 1
    requires P.ClientEnabled(s.core.slots[j].client, AnswerStep(s.core.slots[j].client))
    requires answer.kind == Answer(s.core.slots[j].client)
    ensures Enabled(cfg, s, ClientSpeak(j, answer, 0))
    ensures Next(cfg, s, ClientSpeak(j, answer, 0)) == System(
      P.With(s.core, j, Stepped(s.core.slots[j], AnswerStep(s.core.slots[j].client))),
      s.nets[j := N.Answered(s.nets[j], answer)])
  {
    N.Answers(s.nets[j], answer);
  }

  lemma Speaks(cfg: P.Config, s: System, j: nat, t: nat, answer: Msg) returns (s': System)
    requires Base(cfg, s, j, t) && N.Free(s.nets[j]) && answer.src == j + 1
    requires P.ClientEnabled(s.core.slots[j].client, AnswerStep(s.core.slots[j].client))
    requires answer.kind == Answer(s.core.slots[j].client)
    ensures Leads(cfg, s, ClientSpeak(j, answer, 0), s') && Only(s, s', j, t)
    ensures PartOf(s', j, t) == PartOf(s, j, t).(
      x := Stepped(s.core.slots[j], AnswerStep(s.core.slots[j].client)), n := N.Answered(s.nets[j], answer))
  {
    SpeakEnabled(cfg, s, j, answer);
    s' := Next(cfg, s, ClientSpeak(j, answer, 0));
  }

  // A worker's step that touches no connection.
  lemma Works(cfg: P.Config, s: System, j: nat, t: nat, w: P.WorkStep, p: Part) returns (s': System)
    requires Base(cfg, s, j, t) && P.WorkEnabled(cfg, s.core, t, w)
    requires match w
      case StartPoll => p == PartOf(s, j, t).(w := P.Polling)
      case StopPoll => p == PartOf(s, j, t).(w := P.Top)
      case Score => s.core.workers[t] == P.Got(j) && s.core.slots[j].held.Some?
        && p == PartOf(s, j, t).(w := P.Scored(j),
          x := s.core.slots[j].(board := s.core.slots[j].held.value, held := None))
      case LoadCount => s.core.workers[t] == P.Ended(j) && p == PartOf(s, j, t).(w := P.Loaded(j, s.core.counts[t]))
      case StoreCount => s.core.workers[t] == P.Loaded(j, s.core.counts[t])
        && p == PartOf(s, j, t).(w := P.Polling, v := s.core.counts[t] + 1)
      case _ => false
    ensures Leads(cfg, s, Plain(P.WorkerDo(t, w)), s') && Only(s, s', j, t) && PartOf(s', j, t) == p
  {
    s' := Next(cfg, s, Plain(P.WorkerDo(t, w)));
  }

  lemma Receives(cfg: P.Config, s: System, j: nat, t: nat, p: E.Packet) returns (s': System)
    requires Base(cfg, s, j, t) && s.core.workers[t] == P.Polling
    requires R.Enabled(s.nets[j], R.Deliver(false, p)) && E.Accepts(s.nets[j].s.ep, p.seqNo)
    ensures Leads(cfg, s, Receive(t, j, p), s') && Only(s, s', j, t)
    ensures PartOf(s', j, t) == PartOf(s, j, t).(
      x := s.core.slots[j].(held := Some(p.body.kind)), w := P.Got(j), n := R.Next(s.nets[j], R.Deliver(false, p)))
  {
    R.ExecOne(s.nets[j], R.Deliver(false, p));
    s' := Next(cfg, s, Receive(t, j, p));
  }

  lemma EndsRead(cfg: P.Config, s: System, j: nat, t: nat) returns (s': System)
    requires Base(cfg, s, j, t) && s.core.workers[t] == P.Scored(j) && R.Enabled(s.nets[j], R.FinishRead(false))
    ensures Leads(cfg, s, EndRead(t), s') && Only(s, s', j, t)
    ensures PartOf(s', j, t) == PartOf(s, j, t).(w := P.Ended(j), n := R.Next(s.nets[j], R.FinishRead(false)))
  {
    R.ExecOne(s.nets[j], R.FinishRead(false));
    s' := Next(cfg, s, EndRead(t));
  }

  lemma Acknowledged(cfg: P.Config, s: System, j: nat, t: nat) returns (s': System)
    requires Base(cfg, s, j, t) && s.core.pc == P.SendPoll(j) && R.Enabled(s.nets[j], R.Poll(false))
    ensures Leads(cfg, s, VisitAcked, s') && Only(s, s', j, t)
    ensures PartOf(s', j, t) == PartOf(s, j, t).(
      pc := P.SendCheck, x := s.core.slots[j].(flag := P.Finished), n := R.Next(s.nets[j], R.Poll(false)))
  {
    R.ExecOne(s.nets[j], R.Poll(false));
    s' := Next(cfg, s, VisitAcked);
  }

  // The coordinator's message reaches the client.
  lemma Delivers(cfg: P.Config, s: System, j: nat, t: nat, order: Msg) returns (s': System, p: E.Packet)
    requires Base(cfg, s, j, t) && s.core.pc == P.SendAct && s.core.slots[j].flag == P.Stamped
    requires N.ToSend(s.nets[j], order)
    requires !s.core.slots[j].client.halted && EndToEnd.Reads(s.core.slots[j].client.pc)
    ensures Joined(cfg, s, s') && Only(s, s', j, t) && N.Reached(s'.nets[j], p) && p.body == order
    ensures PartOf(s', j, t) ==
      PartOf(s, j, t).(pc := P.SendPoll(j), x := Told(s.core, s.core.slots[j]), n := s'.nets[j])
  {
    p := s.nets[j].s.ep.out;
    N.Sends(s.nets[j], order);
    var s1 := Visits(cfg, s, j, t);
    Stay(cfg, s);
    Move(cfg, s, s, FirstVisit(j, 0), s1, j, t);
    var s2 := Arms(cfg, s1, j, t);
    Move(cfg, s, s1, ArmVisit(j, 0), s2, j, t);
    N.Arrives(s2.nets[j], p);
    s' := Reads(cfg, s2, j, t, p);
    Move(cfg, s, s2, ClientRead(j, p), s', j, t);
  }

  // The client at the end of its last answer, about to hear the broadcast of this phase.
  predicate Waiting(c: P.Core, cl: P.Client) {
    !cl.halted && cl.pc == if c.second then P.VoteWritten else P.AckWritten
  }

  function Heard(c: P.Core, cl: P.Client): P.Client { P.Heard(P.WrittenDone(cl), P.Outgoing(c)) }

  // ... and after its answer to that.
  function Turned(c: P.Core, cl: P.Client): P.Client
    requires Waiting(c, cl)
  {
    P.ClientNext(Heard(c, cl), AnswerStep(Heard(c, cl)))
  }

  // The client's program can do all that.
  lemma TurnSteps(c: P.Core, cl: P.Client)
    requires Waiting(c, cl)
    ensures EndToEnd.Reads(cl.pc)
    ensures P.ClientEnabled(cl, P.Written) && P.ClientNext(cl, P.Written) == P.WrittenDone(cl)
    ensures P.ClientEnabled(P.WrittenDone(cl), P.Hear(P.Outgoing(c)))
    ensures P.ClientNext(P.WrittenDone(cl), P.Hear(P.Outgoing(c))) == Heard(c, cl)
    ensures P.ClientEnabled(Heard(c, cl), AnswerStep(Heard(c, cl)))
  {
  }

  // The client takes the message ...
  lemma TakesIt(cfg: P.Config, s: System, j: nat, t: nat, p: E.Packet) returns (s': System)
    requires Base(cfg, s, j, t) && Waiting(s.core, s.core.slots[j].client) && N.Reached(s.nets[j], p)
    requires p.body.kind == P.Outgoing(s.core)
    ensures Joined(cfg, s, s') && Only(s, s', j, t)
    ensures N.Free(s'.nets[j]) && s'.nets[j].c.ep.seqNo == s.nets[j].c.ep.seqNo
    ensures PartOf(s', j, t) == PartOf(s, j, t).(
      x := s.core.slots[j].(client := Heard(s.core, s.core.slots[j].client)), n := s'.nets[j])
  {
    TurnSteps(s.core, s.core.slots[j].client);
    N.Takes(s.nets[j], p);
    var s1 := Written(cfg, s, j, t);
    Stay(cfg, s);
    Move(cfg, s, s, ClientWritten(j), s1, j, t);
    s' := Hears(cfg, s1, j, t, p);
    Move(cfg, s, s1, ClientHear(j), s', j, t);
  }

  // ... and answers.
  lemma Responds(cfg: P.Config, s: System, j: nat, t: nat, p: E.Packet, answer: Msg) returns (s': System)
    requires Base(cfg, s, j, t) && Waiting(s.core, s.core.slots[j].client) && N.Reached(s.nets[j], p)
    requires p.body.kind == P.Outgoing(s.core)
    requires answer.src == j + 1 && answer.kind == Answer(Heard(s.core, s.core.slots[j].client))
    ensures Joined(cfg, s, s') && Only(s, s', j, t)
    ensures N.Answering(s'.nets[j], E.Packet(s.nets[j].c.ep.seqNo, answer))
    ensures PartOf(s', j, t) == PartOf(s, j, t).(
      x := s.core.slots[j].(client := Turned(s.core, s.core.slots[j].client)), n := s'.nets[j])
  {
    TurnSteps(s.core, s.core.slots[j].client);
    var s1 := TakesIt(cfg, s, j, t, p);
    N.Answers(s1.nets[j], answer);
    s' := Speaks(cfg, s1, j, t, answer);
    Move(cfg, s, s1, ClientSpeak(j, answer, 0), s', j, t);
  }

  // The worker receives and scores the answer ...
  lemma Scores(cfg: P.Config, s: System, j: nat, t: nat, p: E.Packet) returns (s': System)
    requires Base(cfg, s, j, t) && s.core.workers[t] == P.Top && N.Answering(s.nets[j], p)
    ensures Joined(cfg, s, s') && Only(s, s', j, t) && N.Ended(s'.nets[j])
    ensures PartOf(s', j, t) == PartOf(s, j, t).(
      x := s.core.slots[j].(board := p.body.kind, held := None), w := P.Ended(j), n := s'.nets[j])
  {
    var part := PartOf(s, j, t);
    var s1 := Works(cfg, s, j, t, P.StartPoll, part.(w := P.Polling));
    Stay(cfg, s);
    Move(cfg, s, s, Plain(P.WorkerDo(t, P.StartPoll)), s1, j, t);
    N.ComesBack(s1.nets[j], p);
    var s2 := Receives(cfg, s1, j, t, p);
    Move(cfg, s, s1, Receive(t, j, p), s2, j, t);
    var s3 := Works(cfg, s2, j, t, P.Score,
      PartOf(s2, j, t).(w := P.Scored(j), x := s2.core.slots[j].(board := p.body.kind, held := None)));
    Move(cfg, s, s2, Plain(P.WorkerDo(t, P.Score)), s3, j, t);
    N.Ends(s3.nets[j]);
    s' := EndsRead(cfg, s3, j, t);
    Move(cfg, s, s3, EndRead(t), s', j, t);
  }

  // ... and counts it.
  lemma Counts(cfg: P.Config, s: System, j: nat, t: nat) returns (s': System)
    requires Base(cfg, s, j, t) && s.core.workers[t] == P.Ended(j)
    ensures Joined(cfg, s, s') && Only(s, s', j, t)
    ensures PartOf(s', j, t) == PartOf(s, j, t).(w := P.Top, v := s.core.counts[t] + 1)
  {
    var part := PartOf(s, j, t);
    var s1 := Works(cfg, s, j, t, P.LoadCount, part.(w := P.Loaded(j, part.v)));
    Stay(cfg, s);
    Move(cfg, s, s, Plain(P.WorkerDo(t, P.LoadCount)), s1, j, t);
    var s2 := Works(cfg, s1, j, t, P.StoreCount, part.(w := P.Polling, v := part.v + 1));
    Move(cfg, s, s1, Plain(P.WorkerDo(t, P.StoreCount)), s2, j, t);
    s' := Works(cfg, s2, j, t, P.StopPoll, part.(w := P.Top, v := part.v + 1));
    Move(cfg, s, s2, Plain(P.WorkerDo(t, P.StopPoll)), s', j, t);
  }

  lemma Then(cfg: P.Config, s: System, s1: System, s2: System, j: nat, t: nat)
    requires Joined(cfg, s, s1) && Only(s, s1, j, t) && Joined(cfg, s1, s2) && Only(s1, s2, j, t)
    ensures Joined(cfg, s, s2) && Only(s, s2, j, t)
  {
    Join(cfg, s, s1, s2);
    OnlyTwice(s, s1, s2, j, t);
  }

  // What one visit makes of the slot, from the stamped message to the acknowledged one.
  function Visited(c: P.Core, x: P.Slot): P.Slot
    requires Waiting(c, x.client)
  {
    Told(c, x).(client := Turned(c, x.client), board := Answer(Heard(c, x.client)), held := None, flag := P.Finished)
  }

  // The message goes out and the answer is on its way.
  lemma Turns(cfg: P.Config, s: System, j: nat, t: nat, order: Msg, answer: Msg) returns (s': System, p: E.Packet)
    requires Base(cfg, s, j, t) && s.core.pc == P.SendAct && s.core.slots[j].flag == P.Stamped
    requires N.ToSend(s.nets[j], order) && order.kind == P.Outgoing(s.core)
    requires Waiting(s.core, s.core.slots[j].client)
    requires answer.src == j + 1 && answer.kind == Answer(Heard(s.core, s.core.slots[j].client))
    ensures Joined(cfg, s, s') && Only(s, s', j, t) && N.Answering(s'.nets[j], p) && p.body == answer
    ensures PartOf(s', j, t) == PartOf(s, j, t).(pc := P.SendPoll(j),
      x := Told(s.core, s.core.slots[j]).(client := Turned(s.core, s.core.slots[j].client)), n := s'.nets[j])
  {
    var s1, q := Delivers(cfg, s, j, t, order);
    p := E.Packet(s1.nets[j].c.ep.seqNo, answer);
    s' := Responds(cfg, s1, j, t, q, answer);
    Then(cfg, s, s1, s', j, t);
  }

  // The answer is scored and counted, and the message thereby acknowledged.
  lemma Collects(cfg: P.Config, s: System, j: nat, t: nat, p: E.Packet) returns (s': System)
    requires Base(cfg, s, j, t) && s.core.pc == P.SendPoll(j) && s.core.workers[t] == P.Top
    requires N.Answering(s.nets[j], p)
    ensures Joined(cfg, s, s') && Only(s, s', j, t) && N.Used(s'.nets[j])
    ensures PartOf(s', j, t) == Part(P.SendCheck,
      s.core.slots[j].(board := p.body.kind, held := None, flag := P.Finished), P.Top, s.core.counts[t] + 1, s'.nets[j])
  {
    var s1 := Scores(cfg, s, j, t, p);
    var s2 := Counts(cfg, s1, j, t);
    Then(cfg, s, s1, s2, j, t);
    N.Settles(s2.nets[j]);
    s' := Acknowledged(cfg, s2, j, t);
    Move(cfg, s, s2, VisitAcked, s', j, t);
  }

  /** One whole visit of send_request to a connection, with the client's answer scored and counted. */
  lemma Exchanges(cfg: P.Config, s: System, j: nat, t: nat, order: Msg) returns (s': System)
    requires Base(cfg, s, j, t) && s.core.pc == P.SendAct && s.core.slots[j].flag == P.Stamped
    requires N.ToSend(s.nets[j], order) && order.kind == P.Outgoing(s.core)
    requires Waiting(s.core, s.core.slots[j].client) && s.core.workers[t] == P.Top
    ensures Joined(cfg, s, s') && Only(s, s', j, t) && N.Used(s'.nets[j])
    ensures PartOf(s', j, t) ==
      Part(P.SendCheck, Visited(s.core, s.core.slots[j]), P.Top, s.core.counts[t] + 1, s'.nets[j])
  {
    var answer := Msg(Answer(Heard(s.core, s.core.slots[j].client)), j + 1, 0, 0, 0);
    var s1, p := Turns(cfg, s, j, t, order, answer);
    s' := Collects(cfg, s1, j, t, p);
    Then(cfg, s, s1, s', j, t);
  }

  // ----- the main thread's loops -----

  // A step of the main thread that touches no connection.
  lemma Main(cfg: P.Config, s: System, s1: System, m: P.MainStep) returns (s2: System)
    requires Joined(cfg, s, s1) && P.MainEnabled(cfg, s1.core, m) && NoConnection(P.MainDo(m))
    ensures Joined(cfg, s, s2) && s2 == System(P.MainNext(cfg, s1.core, m), s1.nets)
  {
    s2 := System(P.MainNext(cfg, s1.core, m), s1.nets);
    Follow(cfg, s, s1, Plain(P.MainDo(m)), s2);
  }

  // Only the main thread's pc, the scoreboard and the flags of the broadcast differ.
  predicate SameClients(s: System, s': System) {
    var c, c' := s.core, s'.core;
    && c' == c.(pc := c'.pc, slots := c'.slots) && |c'.slots| == |c.slots|
    && forall j :: 0 <= j < |c.slots| ==>
         c'.slots[j] == c.slots[j].(board := c'.slots[j].board, flag := c'.slots[j].flag)
  }

  predicate MayBroadcast(c: P.Core) { c.second ==> c.verdict == P.RequestSuccess || c.verdict == P.RequestFail }

  // The loops continue a run from the state o.
  lemma {:induction false} Wipes(cfg: P.Config, o: System, s: System, i: nat) returns (s': System)
    requires Joined(cfg, o, s) && s.core.pc == P.Reset(i) && i <= P.N(s.core) && MayBroadcast(s.core)
    ensures Joined(cfg, o, s') && SameClients(s, s') && s'.nets == s.nets && s'.core.pc == P.Prep
    ensures forall j :: 0 <= j < P.N(s.core) ==> s'.core.slots[j].flag == P.Fresh
    decreases P.N(s.core) - i
  {
    if i == P.N(s.core) {
      s' := Main(cfg, o, s, P.ResetDone);
    } else {
      var s1 := Main(cfg, o, s, P.ResetSlot);
      s' := Wipes(cfg, o, s1, i + 1);
    }
  }

  function Order(c: P.Core): Msg { Msg(P.Outgoing(c), -1, 0, 0, 0) }

  // send_request has filled the buffers of the connections below i.
  predicate FilledBelow(s: System, i: nat) {
    && P.N(s.core) == |s.nets| && i <= |s.nets|
    && (forall j :: 0 <= j < i ==> s.core.slots[j].flag == P.Stamped && N.ToSend(s.nets[j], Order(s.core)))
    && (forall j :: i <= j < |s.nets| ==> s.core.slots[j].flag == P.Fresh && N.Ready(s.nets[j]))
  }

  predicate SameClientEnds(nets: seq<R.Net>, nets': seq<R.Net>) {
    |nets'| == |nets| && forall j :: 0 <= j < |nets| ==> nets'[j].c == nets[j].c
  }

  lemma StampEnabled(cfg: P.Config, s: System, i: nat)
    requires s.core.pc == P.Prep && !s.core.stop && i < |s.nets| == P.N(s.core)
    requires s.core.slots[i].flag == P.Fresh && N.Ready(s.nets[i])
    ensures Enabled(cfg, s, StampOne(i, Order(s.core)))
    ensures Next(cfg, s, StampOne(i, Order(s.core))) == System(
      s.core.(slots := s.core.slots[i := s.core.slots[i].(flag := P.Stamped)]),
      s.nets[i := R.Next(s.nets[i], R.BeginWrite(false, Order(s.core)))])
  {
    N.Stamps(s.nets[i], Order(s.core));
    R.ExecOne(s.nets[i], R.BeginWrite(false, Order(s.core)));
  }

  lemma FillsOne(cfg: P.Config, s: System, i: nat) returns (s': System)
    requires s.core.pc == P.Prep && !s.core.stop && FilledBelow(s, i) && i < |s.nets|
    ensures Leads(cfg, s, StampOne(i, Order(s.core)), s') && SameClients(s, s') && s'.core.pc == P.Prep
    ensures FilledBelow(s', i + 1) && SameClientEnds(s.nets, s'.nets)
  {
    N.Stamps(s.nets[i], Order(s.core));
    StampEnabled(cfg, s, i);
    s' := Next(cfg, s, StampOne(i, Order(s.core)));
  }

  lemma {:induction false} Fills(cfg: P.Config, o: System, s: System, i: nat) returns (s': System)
    requires Joined(cfg, o, s) && s.core.pc == P.Prep && !s.core.stop && FilledBelow(s, i)
    ensures Joined(cfg, o, s') && SameClients(s, s') && s'.core.pc == P.SendCheck
    ensures FilledBelow(s', |s.nets|) && SameClientEnds(s.nets, s'.nets)
    decreases |s.nets| - i
  {
    if i == |s.nets| {
      s' := Main(cfg, o, s, P.PrepDone);
    } else {
      var s1 := FillsOne(cfg, s, i);
      Follow(cfg, o, s, StampOne(i, Order(s.core)), s1);
      s' := Fills(cfg, o, s1, i + 1);
    }
  }

  // ----- the visits -----

  predicate Sized(cfg: P.Config, s: System) {
    && P.ValidConfig(cfg) && P.N(s.core) == |s.nets| == |cfg.owner|
    && |s.core.workers| == |s.core.counts| == cfg.threads
    && !s.core.pause && !s.core.stop && forall t :: 0 <= t < cfg.threads ==> s.core.workers[t] == P.Top
  }

  predicate Same(c: P.Core, c': P.Core) {
    c'.round == c.round && c'.second == c.second && c'.verdict == c.verdict && P.N(c') == P.N(c)
  }

  // The connections below i have been visited, as seen from the state b at the beginning of the visits.
  predicate VisitedBelow(b: System, s: System, i: nat) {
    && Same(b.core, s.core) && |s.nets| == |b.nets| == P.N(s.core) && i <= |s.nets|
    && (forall j :: 0 <= j < |s.nets| ==> Waiting(b.core, b.core.slots[j].client))
    && (forall j :: 0 <= j < i ==> N.Used(s.nets[j]) && Over(b.core, b.core.slots[j].client, s.core.slots[j]))
    && (forall j :: i <= j < |s.nets| ==> Ahead(b.core, b.core.slots[j].client, s.core.slots[j], s.nets[j]))
  }

  // The slot and the connection before a visit.
  predicate Ahead(c: P.Core, cl: P.Client, x: P.Slot, n: R.Net) {
    x.flag == P.Stamped && x.client == cl && N.ToSend(n, Order(c))
  }

  // The slot after a visit.
  predicate Over(c: P.Core, cl: P.Client, x: P.Slot)
    requires Waiting(c, cl)
  {
    x.flag == P.Finished && x.client == Turned(c, cl) && x.board == Answer(Heard(c, cl))
  }

  function Done(n: nat, i: nat): seq<bool> { seq(n, k => k < i) }

  predicate CountsBelow(cfg: P.Config, s: System, i: nat) {
    && i <= |cfg.owner|
    && forall t :: 0 <= t < |s.core.counts| ==> s.core.counts[t] == CountFor(Done(|cfg.owner|, i), cfg.owner, t)
  }

  lemma CountsStep(cfg: P.Config, s: System, s': System, i: nat, t: nat)
    requires Sized(cfg, s) && CountsBelow(cfg, s, i) && i < |cfg.owner| && cfg.owner[i] == t
    requires t < |s.core.counts| && s'.core.counts == s.core.counts[t := s.core.counts[t] + 1]
    ensures CountsBelow(cfg, s', i + 1)
  {
    var n := |cfg.owner|;
    assert Done(n, i + 1) == Done(n, i)[i := true];
    forall u | 0 <= u < |s'.core.counts|
      ensures s'.core.counts[u] == CountFor(Done(n, i + 1), cfg.owner, u)
    {
      CountForSet(Done(n, i), cfg.owner, u, i);
    }
  }

  // What one visit keeps for the others.
  lemma VisitStep(cfg: P.Config, b: System, s: System, s': System, i: nat, t: nat)
    requires Sized(cfg, s) && VisitedBelow(b, s, i) && i < |s.nets| && cfg.owner[i] == t && t < cfg.threads
    requires Only(s, s', i, t) && N.Used(s'.nets[i])
    requires Waiting(s.core, s.core.slots[i].client)
    requires PartOf(s', i, t) ==
      Part(P.SendCheck, Visited(s.core, s.core.slots[i]), P.Top, s.core.counts[t] + 1, s'.nets[i])
    ensures Sized(cfg, s') && VisitedBelow(b, s', i + 1)
  {
    assert s.core.slots[i].client == b.core.slots[i].client;
    assert Heard(s.core, s.core.slots[i].client) == Heard(b.core, b.core.slots[i].client);
  }

  lemma VisitsOne(cfg: P.Config, b: System, s: System, i: nat) returns (s': System)
    requires Sized(cfg, s) && s.core.pc == P.SendCheck && VisitedBelow(b, s, i)
      && CountsBelow(cfg, s, i) && i < |s.nets|
    ensures Joined(cfg, s, s') && Sized(cfg, s') && s'.core.pc == P.SendCheck
    ensures VisitedBelow(b, s', i + 1) && CountsBelow(cfg, s', i + 1) && |s'.nets| == |s.nets|
  {
    var t := cfg.owner[i];
    assert s.core.slots[i].flag != P.Finished;
    Stay(cfg, s);
    var s1 := Main(cfg, s, s, P.CheckSend);
    s' := Exchanges(cfg, s1, i, t, Order(b.core));
    Join(cfg, s, s1, s');
    VisitStep(cfg, b, s1, s', i, t);
    CountsStep(cfg, s1, s', i, t);
  }

  lemma AllVisited(b: System, s: System)
    requires VisitedBelow(b, s, |s.nets|)
    ensures P.AllFinished(s.core)
  {
    forall j | 0 <= j < P.N(s.core)
      ensures s.core.slots[j].flag == P.Finished
    {
      assert Over(b.core, b.core.slots[j].client, s.core.slots[j]);
    }
  }

  // Only the main thread's place differs.
  lemma PlaceIsFree(cfg: P.Config, b: System, s: System, s': System, i: nat)
    requires s'.core == s.core.(pc := s'.core.pc) && s'.nets == s.nets
    ensures Sized(cfg, s) ==> Sized(cfg, s')
    ensures VisitedBelow(b, s, i) ==> VisitedBelow(b, s', i)
    ensures CountsBelow(cfg, s, i) ==> CountsBelow(cfg, s', i)
  {
  }

  lemma VisitsEnd(cfg: P.Config, b: System, s: System) returns (s': System)
    requires Sized(cfg, s) && s.core.pc == P.SendCheck && VisitedBelow(b, s, |s.nets|) && CountsBelow(cfg, s, |s.nets|)
    ensures Joined(cfg, s, s') && Sized(cfg, s') && s'.core.pc == P.WaitTop
    ensures |s'.nets| == |s.nets| && VisitedBelow(b, s', |s.nets|) && CountsBelow(cfg, s', |s.nets|)
  {
    AllVisited(b, s);
    Stay(cfg, s);
    s' := Main(cfg, s, s, P.CheckSend);
    PlaceIsFree(cfg, b, s, s', |s.nets|);
  }

  // The visits below i are made, in a run from the state o.
  ghost predicate Visiting(cfg: P.Config, o: System, b: System, s: System, i: nat) {
    Joined(cfg, o, s) && Sized(cfg, s) && |s.nets| == |b.nets| && VisitedBelow(b, s, i) && CountsBelow(cfg, s, i)
  }

  lemma VisitsOneMore(cfg: P.Config, o: System, b: System, s: System, i: nat) returns (s': System)
    requires Visiting(cfg, o, b, s, i) && s.core.pc == P.SendCheck && i < |s.nets|
    ensures Visiting(cfg, o, b, s', i + 1) && s'.core.pc == P.SendCheck
  {
    s' := VisitsOne(cfg, b, s, i);
    Join(cfg, o, s, s');
  }

  lemma VisitsNoMore(cfg: P.Config, o: System, b: System, s: System) returns (s': System)
    requires Visiting(cfg, o, b, s, |b.nets|) && s.core.pc == P.SendCheck
    ensures Visiting(cfg, o, b, s', |b.nets|) && s'.core.pc == P.WaitTop
  {
    s' := VisitsEnd(cfg, b, s);
    Join(cfg, o, s, s');
  }

  lemma {:induction false} VisitsAll(cfg: P.Config, o: System, b: System, s: System, i: nat) returns (s': System)
    requires i <= |b.nets| && Visiting(cfg, o, b, s, i) && s.core.pc == P.SendCheck
    ensures Visiting(cfg, o, b, s', |b.nets|) && s'.core.pc == P.WaitTop
    decreases |b.nets| - i
  {
    if i == |b.nets| {
      s' := VisitsNoMore(cfg, o, b, s);
    } else {
      var s1 := VisitsOneMore(cfg, o, b, s, i);
      s' := VisitsAll(cfg, o, b, s1, i + 1);
    }
  }

  // ----- the wait, the scan and the release -----

  lemma AddStep(cfg: P.Config, c: P.Core, t: nat)
    requires t < |c.counts| && c.pc == P.WaitSum(t, SumTo(c.counts, t))
    ensures P.MainEnabled(cfg, c, P.AddCount)
    ensures P.MainNext(cfg, c, P.AddCount) == c.(pc := P.WaitSum(t + 1, SumTo(c.counts, t + 1)))
  {
  }

  // One counter is added, or the sum is compared with the number of clients.
  lemma SumsOne(cfg: P.Config, o: System, s: System, t: nat) returns (s': System)
    requires Joined(cfg, o, s) && t < |s.core.counts| && s.core.pc == P.WaitSum(t, SumTo(s.core.counts, t))
    ensures Joined(cfg, o, s')
    ensures s' == System(s.core.(pc := P.WaitSum(t + 1, SumTo(s.core.counts, t + 1))), s.nets)
  {
    AddStep(cfg, s.core, t);
    s' := Main(cfg, o, s, P.AddCount);
  }

  lemma SumsUp(cfg: P.Config, o: System, s: System) returns (s': System)
    requires Joined(cfg, o, s) && s.core.pc == P.WaitSum(|s.core.counts|, P.N(s.core))
    ensures Joined(cfg, o, s') && s' == System(s.core.(pc := P.Pausing), s.nets)
  {
    s' := Main(cfg, o, s, P.Decide);
  }

  lemma {:induction false} Sums(cfg: P.Config, o: System, s: System, t: nat) returns (s': System)
    requires Joined(cfg, o, s) && t <= |s.core.counts| && s.core.pc == P.WaitSum(t, SumTo(s.core.counts, t))
    requires SumTo(s.core.counts, |s.core.counts|) == P.N(s.core)
    ensures Joined(cfg, o, s') && s' == System(s.core.(pc := P.Pausing), s.nets)
    decreases |s.core.counts| - t
  {
    if t == |s.core.counts| {
      s' := SumsUp(cfg, o, s);
    } else {
      var s1 := SumsOne(cfg, o, s, t);
      s' := Sums(cfg, o, s1, t + 1);
    }
  }

  lemma Waits(cfg: P.Config, o: System, s: System) returns (s': System)
    requires Joined(cfg, o, s) && Sized(cfg, s) && s.core.pc == P.WaitTop && CountsBelow(cfg, s, |cfg.owner|)
    ensures Joined(cfg, o, s') && s' == System(s.core.(pc := P.Pausing), s.nets)
  {
    var done := Done(|cfg.owner|, |cfg.owner|);
    CountersAddUp(s.core.counts, done, cfg.owner);
    var s1 := Main(cfg, o, s, P.StartSum);
    s' := Sums(cfg, o, s1, 0);
  }

  // A status that is no failure, and a scoreboard that leads to none.
  predicate Good(second: bool, status: P.Status) {
    if second then status == P.CommitSuccess else status == P.RequestSuccess || status == P.RequestFail
  }

  predicate GoodBoard(second: bool, slots: seq<P.Slot>) {
    forall j :: 0 <= j < |slots| ==>
      if second then slots[j].board == Ack else slots[j].board == VoteYes || slots[j].board == VoteNo
  }

  lemma {:induction false} Scans(cfg: P.Config, o: System, s: System, i: nat) returns (s': System)
    requires Joined(cfg, o, s) && s.core.pc == P.ScanCheck(i) && i <= P.N(s.core) && !s.core.stop
    requires Good(s.core.second, s.core.result) && GoodBoard(s.core.second, s.core.slots)
    ensures Joined(cfg, o, s') && s' == System(s.core.(pc := P.ZeroCount(0), result := s'.core.result), s.nets)
    ensures Good(s.core.second, s'.core.result)
    decreases P.N(s.core) - i
  {
    var s1 := Main(cfg, o, s, P.CheckScan);
    if i == P.N(s.core) {
      s' := s1;
    } else {
      var s2 := Main(cfg, o, s1, P.ReadSlot);
      s' := Scans(cfg, o, s2, i + 1);
    }
  }

  lemma {:induction false} Clears(cfg: P.Config, o: System, s: System, t: nat) returns (s': System)
    requires Joined(cfg, o, s) && s.core.pc == P.ZeroCount(t) && t <= |s.core.counts| && X.ZeroBelow(s.core.counts, t)
    ensures Joined(cfg, o, s') && s' == System(s.core.(pc := P.Unpausing, counts := s'.core.counts), s.nets)
    ensures |s'.core.counts| == |s.core.counts| && X.ZeroBelow(s'.core.counts, |s.core.counts|)
    decreases |s.core.counts| - t
  {
    var s1 := Main(cfg, o, s, P.ZeroOne);
    if t == |s.core.counts| {
      s' := s1;
    } else {
      s' := Clears(cfg, o, s1, t + 1);
    }
  }

  // From the end of the wait to the end of the phase.
  lemma Concludes(cfg: P.Config, o: System, s: System) returns (s': System)
    requires Joined(cfg, o, s) && s.core.pc == P.Pausing && !s.core.stop && GoodBoard(s.core.second, s.core.slots)
    ensures Joined(cfg, o, s') && s'.nets == s.nets && X.ZeroBelow(s'.core.counts, |s'.core.counts|)
    ensures |s'.core.counts| == |s.core.counts| && Good(s.core.second, s'.core.result)
    ensures s'.core == s.core.(pause := false, counts := s'.core.counts, result := s'.core.result, second := true,
      verdict := if s.core.second then s.core.verdict else s'.core.result,
      pc := if s.core.second then P.RoundEnd else P.Reset(0))
  {
    var s1 := Main(cfg, o, s, P.Pause);
    var s2 := Scans(cfg, o, s1, 0);
    var s3 := Clears(cfg, o, s2, 0);
    s' := Main(cfg, o, s3, P.Unpause);
  }

  // ----- whole phases and rounds -----

  // All is quiet: the workers are between two passes, the counters are clear,
  // every connection is ready and every client waits.
  predicate Quiet(cfg: P.Config, s: System) {
    && Sized(cfg, s) && X.ZeroBelow(s.core.counts, |s.core.counts|)
    && forall j :: 0 <= j < |s.nets| ==> N.Ready(s.nets[j])
  }

  predicate AllWait(s: System) { forall j :: 0 <= j < P.N(s.core) ==> Waiting(s.core, s.core.slots[j].client) }

  predicate PhaseStart(cfg: P.Config, s: System) {
    Quiet(cfg, s) && AllWait(s) && s.core.pc == P.Reset(0) && MayBroadcast(s.core)
  }

  // The clients that answered a broadcast wait for the next one.
  predicate AllTurned(s: System) {
    forall j :: 0 <= j < P.N(s.core) ==>
      && !s.core.slots[j].client.halted
      && s.core.slots[j].client.pc == (if s.core.second then P.AckWritten else P.VoteWritten)
  }

  lemma TurnedWaits(c: P.Core, cl: P.Client)
    requires Waiting(c, cl)
    ensures !Turned(c, cl).halted && Turned(c, cl).pc == if c.second then P.AckWritten else P.VoteWritten
    ensures if c.second then Answer(Heard(c, cl)) == Ack
            else Answer(Heard(c, cl)) == VoteYes || Answer(Heard(c, cl)) == VoteNo
  {
  }

  lemma NothingCounted(cfg: P.Config, s: System)
    requires Sized(cfg, s) && X.ZeroBelow(s.core.counts, |s.core.counts|)
    ensures CountsBelow(cfg, s, 0)
  {
    forall t | 0 <= t < |s.core.counts|
      ensures CountFor(Done(|cfg.owner|, 0), cfg.owner, t) == 0
    {
      CountForNone(Done(|cfg.owner|, 0), cfg.owner, t);
    }
  }

  lemma WipedIsEmpty(cfg: P.Config, s: System, s': System)
    requires PhaseStart(cfg, s) && SameClients(s, s') && s'.nets == s.nets
    requires forall j :: 0 <= j < P.N(s.core) ==> s'.core.slots[j].flag == P.Fresh
    ensures FilledBelow(s', 0) && Sized(cfg, s') && AllWait(s') && CountsBelow(cfg, s', 0) && Same(s.core, s'.core)
  {
    NothingCounted(cfg, s);
  }

  lemma FilledIsAhead(cfg: P.Config, s: System, s': System)
    requires Sized(cfg, s) && AllWait(s) && CountsBelow(cfg, s, 0)
    requires SameClients(s, s') && |s'.nets| == |s.nets| && FilledBelow(s', |s.nets|)
    ensures Sized(cfg, s') && VisitedBelow(s', s', 0) && CountsBelow(cfg, s', 0) && Same(s.core, s'.core)
  {
  }

  // The scoreboard is reset and the buffers are filled.
  lemma Prepares(cfg: P.Config, s: System) returns (s': System)
    requires PhaseStart(cfg, s)
    ensures Visiting(cfg, s, s', s', 0) && s'.core.pc == P.SendCheck && Same(s.core, s'.core) && |s'.nets| == |s.nets|
  {
    Stay(cfg, s);
    var s1 := Wipes(cfg, s, s, 0);
    WipedIsEmpty(cfg, s, s1);
    s' := Fills(cfg, s, s1, 0);
    FilledIsAhead(cfg, s1, s');
  }

  lemma VisitedHasTurned(b: System, s: System, j: nat)
    requires VisitedBelow(b, s, |s.nets|) && j < |s.nets|
    ensures !s.core.slots[j].client.halted
    ensures s.core.slots[j].client.pc == if s.core.second then P.AckWritten else P.VoteWritten
    ensures if s.core.second then s.core.slots[j].board == Ack
            else s.core.slots[j].board == VoteYes || s.core.slots[j].board == VoteNo
  {
    TurnedWaits(b.core, b.core.slots[j].client);
    assert Over(b.core, b.core.slots[j].client, s.core.slots[j]);
  }

  lemma AllHaveTurned(b: System, s: System)
    requires VisitedBelow(b, s, |s.nets|)
    ensures AllTurned(s) && GoodBoard(s.core.second, s.core.slots)
  {
    forall j | 0 <= j < P.N(s.core)
      ensures !s.core.slots[j].client.halted
      ensures s.core.slots[j].client.pc == if s.core.second then P.AckWritten else P.VoteWritten
      ensures if s.core.second then s.core.slots[j].board == Ack
              else s.core.slots[j].board == VoteYes || s.core.slots[j].board == VoteNo
    {
      VisitedHasTurned(b, s, j);
    }
  }

  // A broadcast that every client answers.
  lemma Broadcasts(cfg: P.Config, s: System) returns (s': System)
    requires PhaseStart(cfg, s)
    ensures Joined(cfg, s, s') && Sized(cfg, s') && s'.core.pc == P.WaitTop && CountsBelow(cfg, s', |cfg.owner|)
    ensures Same(s.core, s'.core) && |s'.nets| == |s.nets| && forall j :: 0 <= j < |s.nets| ==> N.Used(s'.nets[j])
    ensures AllTurned(s') && GoodBoard(s'.core.second, s'.core.slots)
  {
    var s1 := Prepares(cfg, s);
    s' := VisitsAll(cfg, s, s1, s1, 0);
    AllHaveTurned(s1, s');
  }

  // The state after the wait, and after the phase.
  lemma PhaseEnds(cfg: P.Config, s: System, s': System)
    requires Sized(cfg, s) && AllTurned(s) && s.core.pc == P.Pausing
    requires forall j :: 0 <= j < |s.nets| ==> N.Used(s.nets[j])
    requires s'.nets == s.nets && X.ZeroBelow(s'.core.counts, |s'.core.counts|) && |s'.core.counts| == |s.core.counts|
    requires Good(s.core.second, s'.core.result)
    requires s'.core == s.core.(pause := false, counts := s'.core.counts, result := s'.core.result, second := true,
      verdict := if s.core.second then s.core.verdict else s'.core.result,
      pc := if s.core.second then P.RoundEnd else P.Reset(0))
    ensures Quiet(cfg, s')
    ensures if s.core.second then AllTurned(s') else PhaseStart(cfg, s')
  {
  }

  // ... up to the end of the wait.
  lemma Collected(cfg: P.Config, s: System) returns (s': System)
    requires PhaseStart(cfg, s)
    ensures Joined(cfg, s, s') && Sized(cfg, s') && s'.core.pc == P.Pausing
    ensures Same(s.core, s'.core) && forall j :: 0 <= j < |s'.nets| ==> N.Used(s'.nets[j])
    ensures AllTurned(s') && GoodBoard(s'.core.second, s'.core.slots)
  {
    var s1 := Broadcasts(cfg, s);
    s' := Waits(cfg, s, s1);
  }

  /** A whole phase can run, from the reset of the scoreboard through broadcast, answers, counting, wait, scan and
      release, to phase 2 of the same round or to the end of the round. */
  lemma PhaseRuns(cfg: P.Config, s: System) returns (s': System)
    requires PhaseStart(cfg, s)
    ensures Joined(cfg, s, s') && s'.core.second && s'.core.round == s.core.round && Quiet(cfg, s')
    ensures if s.core.second then s'.core.pc == P.RoundEnd && AllTurned(s') else PhaseStart(cfg, s')
    ensures forall j :: 0 <= j < |s'.nets| ==> N.Used(s'.nets[j])
  {
    var s1 := Collected(cfg, s);
    s' := Concludes(cfg, s, s1);
    PhaseEnds(cfg, s1, s');
  }

  // Round r has been completed and all clients have acted on it.
  predicate RoundOver(cfg: P.Config, s: System, r: nat) {
    Quiet(cfg, s) && AllTurned(s) && s.core.pc == P.RoundEnd && s.core.second && s.core.round == r
  }

  lemma RoundRuns(cfg: P.Config, s: System) returns (s': System)
    requires PhaseStart(cfg, s) && !s.core.second
    ensures Joined(cfg, s, s') && RoundOver(cfg, s', s.core.round)
  {
    var s1 := PhaseRuns(cfg, s);
    s' := PhaseRuns(cfg, s1);
    Join(cfg, s, s1, s');
  }

  lemma Continues(cfg: P.Config, s: System, r: nat) returns (s': System)
    requires RoundOver(cfg, s, r)
    ensures Joined(cfg, s, s') && PhaseStart(cfg, s') && !s'.core.second && s'.core.round == r + 1
  {
    Stay(cfg, s);
    s' := Main(cfg, s, s, P.NextRound);
  }

  lemma {:induction false} Rounds(cfg: P.Config, s: System, r: nat) returns (s': System)
    requires PhaseStart(cfg, s) && !s.core.second && s.core.round == 0
    ensures Joined(cfg, s, s') && RoundOver(cfg, s', r)
  {
    if r == 0 {
      s' := RoundRuns(cfg, s);
    } else {
      var s1 := Rounds(cfg, s, r - 1);
      var s2 := Continues(cfg, s1, r - 1);
      Join(cfg, s, s1, s2);
      s' := RoundRuns(cfg, s2);
      Join(cfg, s, s2, s');
    }
  }

  // ----- the first state -----

  function ConnectMessage(j: nat): E.Packet { E.Packet(0, Msg(Connect, j + 1, 0, 0, 0)) }

  function FirstNet(j: nat): R.Net { Opened(R.Init(ConnectMessage(j), ConnectMessage(j)), ConnectMessage(j), 0) }

  function First(cfg: P.Config): System {
    System(P.FirstCore(cfg), seq(|cfg.owner|, j requires 0 <= j => FirstNet(j)))
  }

  lemma FirstNetConnects(j: nat)
    ensures Connected(FirstNet(j), j) && N.Ready(FirstNet(j))
  {
    ConnectingRuns(ConnectMessage(j), ConnectMessage(j), ConnectMessage(j), 0);
    ConnectingSucceeds(j, ConnectMessage(j), ConnectMessage(j), ConnectMessage(j), 0);
    ConnectedIsReady(FirstNet(j), j);
  }

  lemma ConnectedIsReady(n: R.Net, j: nat)
    requires Connected(n, j)
    ensures N.Ready(n)
  {
    R.Counted(n, false);
  }

  lemma FirstIsInitial(cfg: P.Config)
    requires P.ValidConfig(cfg)
    ensures Initial(cfg, First(cfg)) && PhaseStart(cfg, First(cfg))
  {
    var s := First(cfg);
    forall j | 0 <= j < |s.nets|
      ensures Connected(s.nets[j], j) && N.Ready(s.nets[j])
    {
      FirstNetConnects(j);
    }
  }

  /** For any number of clients and threads, every round is reached and completed by some run in which all clients
      act on every decision: what is proved about completed rounds is about runs that exist. */
  lemma EveryRoundIsReached(cfg: P.Config, r: nat) returns (e: System)
    requires P.ValidConfig(cfg) && !cfg.losesDown
    ensures Reachable(cfg, e) && T.Reachable(cfg, Abs(e))
    ensures e.core.pc == P.RoundEnd && e.core.round == r && !e.core.stop
    ensures P.N(e.core) == |cfg.owner|
    ensures forall j :: 0 <= j < P.N(e.core) ==> |e.core.slots[j].client.acted| == r + 1
  {
    FirstIsInitial(cfg);
    e := Rounds(cfg, First(cfg), r);
    assert Reachable(cfg, e);
    ReachableRefines(cfg, e);
    forall j | 0 <= j < P.N(e.core)
      ensures |e.core.slots[j].client.acted| == r + 1
    {
      EndToEndSynchronises(cfg, e, j);
    }
  }
}
