/** The end-to-end system refines two-phase commit over lossless queues. */
module EndToEndProof {
  import opened Protocol
  import opened EndToEnd
  import opened ConnectionView
  import P = TwoPhase
  import R = RudpChannel
  import G = RudpProgress
  import E = RudpEndpoint

  function Views(nets: seq<R.Net>): seq<P.Chan> {
    seq(|nets|, j requires 0 <= j < |nets| => View(nets[j]))
  }

  function Abs(e: System): P.Cluster { P.Cluster(e.core, Views(e.nets)) }

  // send_request is under way.
  predicate Sending(pc: P.CoordPc) { pc == P.Prep || pc == P.SendCheck || pc == P.SendAct || pc.SendPoll? }

  predicate SendSide(stop: bool, flag: P.Flag, outgoing: Kind, pc: R.WritePc, kind: Kind) {
    match flag
    case Stamped => pc == R.Stamped && kind == outgoing
    case Sent => pc == R.Unarmed || pc == R.Outstanding
    case _ => stop || pc == R.Idle
  }

  // The main thread's view of its end of connection j.
  predicate MainSide(cpc: P.CoordPc, stop: bool, outgoing: Kind, flag: P.Flag, j: nat, pc: R.WritePc, kind: Kind) {
    cpc != P.Term ==>
      && (pc == R.Unarmed ==> cpc == P.SendPoll(j))
      && (if Sending(cpc) then SendSide(stop, flag, outgoing, pc, kind) else stop || pc == R.Idle)
  }

  predicate ReadingFrom(w: P.WorkerPc, j: nat) { w == P.Got(j) || w == P.Scored(j) }

  /** The client program's view of its end: a write is under way exactly while the program waits in end_write; a
      message is taken before it is answered; what has been accepted since a send acknowledges it; and nothing is
      accepted after a message that was not sent. */
  predicate ClientSide(cpc: P.ClientPc, pc: R.WritePc, acked: bool, slot: bool) {
    && (if cpc == P.VoteWritten || cpc == P.AckWritten then pc == R.Outstanding || pc == R.Stale
        else pc == R.Idle || pc == R.Abandoned || pc == R.Spent)
    && (!Reads(cpc) ==> !slot && pc != R.Spent && (pc == R.Abandoned ==> acked))
    && (pc == R.Stale || pc == R.Spent ==> !slot) && (slot && pc != R.Idle ==> acked)
  }

  predicate ClientEnd(cpc: P.ClientPc, n: R.Net) {
    ClientSide(cpc, n.c.pc, E.Acked(n.c.ep), n.c.ep.slot.Some?)
  }

  // Every message the client wrote carries its own id, which selects its scoreboard slot.
  predicate Signed(wrote: seq<Msg>, j: nat) { forall k :: 0 <= k < |wrote| ==> wrote[k].src == j + 1 }

  predicate NetSide(n: R.Net, j: nat, reading: bool) {
    n.s.got != [] && (n.s.ep.slot.Some? <==> reading) && Signed(n.c.wrote, j)
  }

  predicate Coupled(cfg: P.Config, c: P.Core, j: nat, n: R.Net)
    requires j < P.N(c) && j < |cfg.owner| && cfg.owner[j] < |c.workers|
  {
    && NetSide(n, j, ReadingFrom(c.workers[cfg.owner[j]], j))
    && MainSide(c.pc, c.stop, P.Outgoing(c), c.slots[j].flag, j, n.s.pc, n.s.ep.out.body.kind)
    && ClientEnd(c.slots[j].client.pc, n) && (G.GaveUp(n.c.pc) ==> cfg.losesUp)
  }

  predicate Shape(cfg: P.Config, e: System) {
    && P.ValidConfig(cfg)
    && P.N(e.core) == |e.nets| == |cfg.owner| && |e.core.workers| == |e.core.counts| == cfg.threads
    && (forall t :: 0 <= t < cfg.threads && (e.core.workers[t].Got? || e.core.workers[t].Scored?) ==>
          e.core.workers[t].j < |cfg.owner| && cfg.owner[e.core.workers[t].j] == t)
  }

  predicate ChannelsOk(nets: seq<R.Net>) { forall j :: 0 <= j < |nets| ==> R.Inv(nets[j]) }

  predicate CoupledAll(cfg: P.Config, e: System) {
    Shape(cfg, e) && forall j :: 0 <= j < |e.nets| ==> Coupled(cfg, e.core, j, e.nets[j])
  }

  predicate Inv(cfg: P.Config, e: System) { ChannelsOk(e.nets) && CoupledAll(cfg, e) }

  // Whatever an action does to its connection is a run of the channel model.
  lemma ChannelsStayOk(cfg: P.Config, e: System, a: Action)
    requires ChannelsOk(e.nets) && Enabled(cfg, e, a)
    ensures ChannelsOk(Next(cfg, e, a).nets)
  {
    if NetActions(a) != [] {
      R.RunKeepsInv(e.nets[ConnOf(e, a)], NetActions(a));
    }
  }

  // All clients have connected: one connect message written by each, accepted and read by the coordinator.
  predicate Connected(n: R.Net, j: nat) {
    && R.Inv(n) && |n.c.wrote| == 1 && n.c.wrote[0].src == j + 1
    && |n.s.got| == 1 && n.s.wrote == [] && n.s.ep.slot == None
    && n.s.pc == R.Idle && n.c.pc == R.Outstanding
  }

  function Connecting(p: E.Packet, ts: int): seq<R.Action> {
    [R.BeginWrite(true, p.body), R.FirstSend(true, ts), R.Deliver(false, p), R.FinishRead(false)]
  }

  lemma ExecHead(n: R.Net, a: R.Action, rest: seq<R.Action>)
    requires R.Enabled(n, a)
    ensures R.Exec(n, [a] + rest) == R.Exec(R.Next(n, a), rest)
  {
    assert ([a] + rest)[1..] == rest;
  }

  function Opened(n: R.Net, p: E.Packet, ts: int): R.Net {
    var sent := R.Next(R.Next(n, R.BeginWrite(true, p.body)), R.FirstSend(true, ts));
    R.Next(R.Next(sent, R.Deliver(false, p)), R.FinishRead(false))
  }

  lemma ConnectingRuns(outC: E.Packet, outS: E.Packet, p: E.Packet, ts: int)
    requires p.seqNo == 0
    ensures R.Exec(R.Init(outC, outS), Connecting(p, ts)) == Some(Opened(R.Init(outC, outS), p, ts))
  {
    var n0 := R.Init(outC, outS);
    var n1 := R.Next(n0, R.BeginWrite(true, p.body));
    var n2 := R.Next(n1, R.FirstSend(true, ts));
    var n3 := R.Next(n2, R.Deliver(false, p));
    ExecHead(n0, R.BeginWrite(true, p.body), [R.FirstSend(true, ts), R.Deliver(false, p), R.FinishRead(false)]);
    ExecHead(n1, R.FirstSend(true, ts), [R.Deliver(false, p), R.FinishRead(false)]);
    ExecHead(n2, R.Deliver(false, p), [R.FinishRead(false)]);
    R.ExecOne(n3, R.FinishRead(false));
  }

  lemma OpenedIsConnected(j: nat, outC: E.Packet, outS: E.Packet, p: E.Packet, ts: int)
    requires p.seqNo == 0 && p.body.src == j + 1 && R.Inv(Opened(R.Init(outC, outS), p, ts))
    ensures Connected(Opened(R.Init(outC, outS), p, ts), j)
  {
  }

  /** do_connectall can get every connection there: the client's connect message is sent, accepted and read. */
  lemma ConnectingSucceeds(j: nat, outC: E.Packet, outS: E.Packet, p: E.Packet, ts: int)
    requires p.seqNo == 0 && p.body.src == j + 1
    ensures var r := R.Exec(R.Init(outC, outS), Connecting(p, ts)); r.Some? && Connected(r.value, j)
  {
    ConnectingRuns(outC, outS, p, ts);
    R.RunKeepsInv(R.Init(outC, outS), Connecting(p, ts));
    OpenedIsConnected(j, outC, outS, p, ts);
  }

  predicate Initial(cfg: P.Config, e: System) {
    && P.InitialCore(cfg, e.core) && |e.nets| == |cfg.owner|
    && (forall j :: 0 <= j < |e.nets| ==> Connected(e.nets[j], j))
  }

  lemma ConnectedView(n: R.Net, j: nat)
    requires Connected(n, j)
    ensures View(n) == P.Chan([], [])
  {
    R.Counted(n, false);
    assert n.s.wrote[Taken(n.c)..] == [] && n.c.wrote[1..] == [];
  }

  lemma InitialRefines(cfg: P.Config, e: System)
    requires P.ValidConfig(cfg) && Initial(cfg, e)
    ensures Inv(cfg, e) && P.Initial(cfg, Abs(e))
  {
    forall j | 0 <= j < |e.nets|
      ensures View(e.nets[j]) == P.Chan([], []) && Coupled(cfg, e.core, j, e.nets[j])
    {
      ConnectedView(e.nets[j], j);
      assert P.InitialSlot(j, e.core.slots[j]);
    }
  }

  // ----- one step -----

  // The step and then, for an answer that is never sent, its loss.
  predicate Performs(cfg: P.Config, s: P.Cluster, st: P.Step, s': P.Cluster) {
    P.Enabled(cfg, s, P.Do(st)) && s' == P.Next(cfg, s, P.Do(st))
  }

  predicate Loses(cfg: P.Config, s: P.Cluster, j: nat, i: nat, s': P.Cluster) {
    P.Enabled(cfg, s, P.LoseUp(j, i)) && s' == P.Next(cfg, s, P.LoseUp(j, i))
  }

  // An action seen from the protocol: its step, or nothing; an answer that is never sent is written and lost.
  ghost predicate Refines(cfg: P.Config, e: System, a: Action)
    requires Enabled(cfg, e, a)
  {
    match StepOf(e, a)
    case None => Abs(Next(cfg, e, a)) == Abs(e)
    case Some(st) =>
      if a.ClientSpeakUnsent? then
        exists s, i :: Performs(cfg, Abs(e), st, s) && Loses(cfg, s, a.j, i, Abs(Next(cfg, e, a)))
      else Performs(cfg, Abs(e), st, Abs(Next(cfg, e, a)))
  }

  lemma QuietViews(nets: seq<R.Net>, j: nat, n: R.Net)
    requires j < |nets| && View(n) == View(nets[j])
    ensures Views(nets[j := n]) == Views(nets)
  {
  }

  lemma ChangedView(nets: seq<R.Net>, j: nat, n: R.Net)
    requires j < |nets|
    ensures Views(nets[j := n]) == Views(nets)[j := View(n)]
  {
  }

  // An action with a single effect on its connection.
  lemma OneNet(cfg: P.Config, e: System, a: Action, x: R.Action)
    requires Enabled(cfg, e, a) && NetActions(a) == [x]
    ensures var j := ConnOf(e, a);
      && j < |e.nets| && R.Enabled(e.nets[j], x)
      && Next(cfg, e, a).nets == e.nets[j := R.Next(e.nets[j], x)]
      && Next(cfg, e, a).core == (if StepOf(e, a).Some? then P.CoreNext(cfg, e.core, StepOf(e, a).value) else e.core)
  {
    R.ExecOne(e.nets[ConnOf(e, a)], x);
  }

  // A main-thread step without connection keeps every connection's coupling.
  lemma MainStepKeepsRest(cfg: P.Config, c: P.Core, m: P.MainStep, j: nat)
    requires P.MainEnabled(cfg, c, m) && NoConnection(P.MainDo(m)) && j < P.N(c)
    ensures var c' := P.MainNext(cfg, c, m);
      && P.N(c') == P.N(c) && c'.slots[j].client == c.slots[j].client
      && c'.workers == c.workers && |c'.counts| == |c.counts| && c'.stop == c.stop
      && (!m.ResetDone? ==> c'.slots[j].flag == c.slots[j].flag)
  {
  }

  // Between two broadcasts the main thread has nothing outstanding, so a broadcast starts with idle connections.
  lemma StartKeepsSide(cfg: P.Config, c: P.Core, j: nat, pc: R.WritePc, kind: Kind)
    requires P.MainEnabled(cfg, c, P.ResetDone) && j < P.N(c)
    requires MainSide(c.pc, c.stop, P.Outgoing(c), c.slots[j].flag, j, pc, kind)
    ensures var c' := P.MainNext(cfg, c, P.ResetDone);
      P.N(c') == P.N(c) && MainSide(c'.pc, c'.stop, P.Outgoing(c'), c'.slots[j].flag, j, pc, kind)
  {
  }

  lemma BetweenKeepsSide(cfg: P.Config, c: P.Core, m: P.MainStep, j: nat, pc: R.WritePc, kind: Kind)
    requires P.MainEnabled(cfg, c, m) && NoConnection(P.MainDo(m)) && j < P.N(c) && m != P.ResetDone
    requires !Sending(c.pc) && MainSide(c.pc, c.stop, P.Outgoing(c), c.slots[j].flag, j, pc, kind)
    ensures var c' := P.MainNext(cfg, c, m);
      P.N(c') == P.N(c) && MainSide(c'.pc, c'.stop, P.Outgoing(c'), c'.slots[j].flag, j, pc, kind)
  {
    MainStepKeepsRest(cfg, c, m, j);
    assert !Sending(P.MainNext(cfg, c, m).pc);
  }

  lemma MainStepKeepsSide(cfg: P.Config, c: P.Core, m: P.MainStep, j: nat, pc: R.WritePc, kind: Kind)
    requires P.MainEnabled(cfg, c, m) && NoConnection(P.MainDo(m)) && j < P.N(c)
    requires MainSide(c.pc, c.stop, P.Outgoing(c), c.slots[j].flag, j, pc, kind)
    ensures var c' := P.MainNext(cfg, c, m);
      P.N(c') == P.N(c) && MainSide(c'.pc, c'.stop, P.Outgoing(c'), c'.slots[j].flag, j, pc, kind)
  {
    if m == P.ResetDone {
      StartKeepsSide(cfg, c, j, pc, kind);
    } else if !Sending(c.pc) {
      BetweenKeepsSide(cfg, c, m, j, pc, kind);
    } else {
      MainStepKeepsRest(cfg, c, m, j);
    }
  }

  lemma PlainMainRefines(cfg: P.Config, e: System, m: P.MainStep)
    requires Inv(cfg, e) && Enabled(cfg, e, Plain(P.MainDo(m)))
    ensures CoupledAll(cfg, Next(cfg, e, Plain(P.MainDo(m)))) && Refines(cfg, e, Plain(P.MainDo(m)))
  {
    var e' := Next(cfg, e, Plain(P.MainDo(m)));
    forall j | 0 <= j < |e.nets|
      ensures P.N(e'.core) == P.N(e.core) && e'.core.workers == e.core.workers && |e'.core.counts| == |e.core.counts|
      ensures Coupled(cfg, e'.core, j, e'.nets[j])
    {
      assert Coupled(cfg, e.core, j, e.nets[j]);
      MainStepKeepsRest(cfg, e.core, m, j);
      MainStepKeepsSide(cfg, e.core, m, j, e.nets[j].s.pc, e.nets[j].s.ep.out.body.kind);
    }
    assert P.N(e'.core) == P.N(e.core) && e'.core.workers == e.core.workers && |e'.core.counts| == |e.core.counts|;
  }

  // A step of a worker or of a client: only connection j and what belongs to it change.
  predicate SideChange(cfg: P.Config, e: System, e': System, j: nat)
    requires Shape(cfg, e) && Shape(cfg, e') && j < |e.nets|
  {
    var c, c' := e.core, e'.core;
    && c'.pc == c.pc && c'.stop == c.stop && c'.second == c.second && c'.verdict == c.verdict
    && e'.nets == e.nets[j := e'.nets[j]]
    && c'.slots[j].flag == c.slots[j].flag
    && forall k :: 0 <= k < |e.nets| && k != j ==>
         && c'.slots[k].flag == c.slots[k].flag && c'.slots[k].client.pc == c.slots[k].client.pc
         && ReadingFrom(c'.workers[cfg.owner[k]], k) == ReadingFrom(c.workers[cfg.owner[k]], k)
  }

  lemma SideKeepsCoupled(cfg: P.Config, e: System, e': System, j: nat)
    requires CoupledAll(cfg, e) && Shape(cfg, e') && j < |e.nets| && SideChange(cfg, e, e', j)
    requires Coupled(cfg, e'.core, j, e'.nets[j])
    ensures CoupledAll(cfg, e')
  {
    forall k | 0 <= k < |e.nets| && k != j
      ensures Coupled(cfg, e'.core, k, e'.nets[k])
    {
      assert Coupled(cfg, e.core, k, e.nets[k]);
    }
  }

  // A step of send_request on connection j.
  predicate VisitChange(cfg: P.Config, e: System, e': System, j: nat)
    requires Shape(cfg, e) && Shape(cfg, e') && j < |e.nets|
  {
    var c, c' := e.core, e'.core;
    && Sending(c.pc) && Sending(c'.pc) && (c.pc.SendPoll? ==> c.pc.j == j)
    && c'.stop == c.stop && c'.second == c.second && c'.verdict == c.verdict && c'.workers == c.workers
    && e'.nets == e.nets[j := e'.nets[j]]
    && c'.slots[j].client == c.slots[j].client
    && forall k :: 0 <= k < |e.nets| && k != j ==> c'.slots[k] == c.slots[k]
  }

  lemma VisitKeepsCoupled(cfg: P.Config, e: System, e': System, j: nat)
    requires CoupledAll(cfg, e) && Shape(cfg, e') && j < |e.nets| && VisitChange(cfg, e, e', j)
    requires Coupled(cfg, e'.core, j, e'.nets[j])
    ensures CoupledAll(cfg, e')
  {
    forall k | 0 <= k < |e.nets| && k != j
      ensures Coupled(cfg, e'.core, k, e'.nets[k])
    {
      assert Coupled(cfg, e.core, k, e.nets[k]);
    }
  }

  // The connection after a step of send_request that the client's side does not notice.
  lemma VisitedConnection(cfg: P.Config, c: P.Core, c': P.Core, j: nat, n: R.Net, n': R.Net)
    requires j < P.N(c) == P.N(c') == |cfg.owner| && cfg.owner[j] < |c.workers| && c'.workers == c.workers
    requires Coupled(cfg, c, j, n) && c'.slots[j].client == c.slots[j].client
    requires n'.c.wrote == n.c.wrote && n'.s.got == n.s.got && n'.s.ep.slot == n.s.ep.slot && ClientKept(n, n')
    requires MainSide(c'.pc, c'.stop, P.Outgoing(c'), c'.slots[j].flag, j, n'.s.pc, n'.s.ep.out.body.kind)
    ensures Coupled(cfg, c', j, n')
  {
  }

  // send_request's work on connection j that leaves the protocol's queues alone.
  lemma QuietVisit(cfg: P.Config, e: System, e': System, m: P.MainStep, j: nat)
    requires CoupledAll(cfg, e) && j < |e.nets| && P.MainEnabled(cfg, e.core, m)
    requires m == P.VisitAcked || m == P.VisitAgain || m == P.StampOne(j)
    requires m != P.StampOne(j) ==> e.core.pc == P.SendPoll(j)
    requires e'.core == P.MainNext(cfg, e.core, m)
    requires |e'.nets| == |e.nets| && e'.nets == e.nets[j := e'.nets[j]]
    requires P.N(e'.core) == P.N(e.core)
    requires var n, n' := e.nets[j], e'.nets[j];
      && Quiet(n, n') && ClientKept(n, n') && n'.s.pc != R.Unarmed
      && SendSide(e.core.stop, e'.core.slots[j].flag, P.Outgoing(e.core), n'.s.pc, n'.s.ep.out.body.kind)
    ensures CoupledAll(cfg, e')
    ensures P.Enabled(cfg, Abs(e), P.Do(P.MainDo(m))) && Abs(e') == P.Next(cfg, Abs(e), P.Do(P.MainDo(m)))
  {
    QuietViews(e.nets, j, e'.nets[j]);
    VisitedConnection(cfg, e.core, e'.core, j, e.nets[j], e'.nets[j]);
    VisitKeepsCoupled(cfg, e, e', j);
  }

  lemma StampRefines(cfg: P.Config, e: System, j: nat, body: Msg)
    requires Inv(cfg, e) && Enabled(cfg, e, StampOne(j, body))
    ensures CoupledAll(cfg, Next(cfg, e, StampOne(j, body))) && Refines(cfg, e, StampOne(j, body))
  {
    assert Coupled(cfg, e.core, j, e.nets[j]);
    OneNet(cfg, e, StampOne(j, body), R.BeginWrite(false, body));
    StampIsInvisible(e.nets[j], body);
    QuietVisit(cfg, e, Next(cfg, e, StampOne(j, body)), P.StampOne(j), j);
  }

  lemma AckedRefines(cfg: P.Config, e: System)
    requires Inv(cfg, e) && Enabled(cfg, e, VisitAcked)
    ensures CoupledAll(cfg, Next(cfg, e, VisitAcked)) && Refines(cfg, e, VisitAcked)
  {
    var j := e.core.pc.j;
    OneNet(cfg, e, VisitAcked, R.Poll(false));
    PollIsInvisible(e.nets[j], false);
    QuietVisit(cfg, e, Next(cfg, e, VisitAcked), P.VisitAcked, j);
  }

  lemma RetryKeepsSide(cfg: P.Config, e: System, j: nat, n': R.Net)
    requires Inv(cfg, e) && j < |e.nets| && e.core.pc == P.SendPoll(j)
    requires e.nets[j].s.pc == R.Outstanding && SamePcs(e.nets[j], n')
    ensures j < P.N(e.core)
    ensures SendSide(e.core.stop, e.core.slots[j].flag, P.Outgoing(e.core), n'.s.pc, n'.s.ep.out.body.kind)
  {
    assert Coupled(cfg, e.core, j, e.nets[j]);
  }

  lemma RetryRefines(cfg: P.Config, e: System, now: int)
    requires Inv(cfg, e) && Enabled(cfg, e, VisitRetry(now))
    ensures CoupledAll(cfg, Next(cfg, e, VisitRetry(now))) && Refines(cfg, e, VisitRetry(now))
  {
    var j := e.core.pc.j;
    OneNet(cfg, e, VisitRetry(now), R.Retransmit(false, now));
    NetworkIsInvisible(e.nets[j], R.Retransmit(false, now));
    RetryKeepsSide(cfg, e, j, R.Next(e.nets[j], R.Retransmit(false, now)));
    QuietVisit(cfg, e, Next(cfg, e, VisitRetry(now)), P.VisitAgain, j);
  }

  lemma AgainRefines(cfg: P.Config, e: System)
    requires Inv(cfg, e) && Enabled(cfg, e, VisitAgain)
    ensures CoupledAll(cfg, Next(cfg, e, VisitAgain)) && Refines(cfg, e, VisitAgain)
  {
    var j := e.core.pc.j;
    assert Coupled(cfg, e.core, j, e.nets[j]);
    QuietVisit(cfg, e, Next(cfg, e, VisitAgain), P.VisitAgain, j);
  }

  lemma ArmRefines(cfg: P.Config, e: System, j: nat, now: int)
    requires Inv(cfg, e) && Enabled(cfg, e, ArmVisit(j, now))
    ensures CoupledAll(cfg, Next(cfg, e, ArmVisit(j, now))) && Refines(cfg, e, ArmVisit(j, now))
  {
    var n := e.nets[j];
    assert Coupled(cfg, e.core, j, n);
    OneNet(cfg, e, ArmVisit(j, now), R.ArmWrite(now));
    ArmIsInvisible(n, now);
    QuietViews(e.nets, j, R.Next(n, R.ArmWrite(now)));
    VisitKeepsCoupled(cfg, e, Next(cfg, e, ArmVisit(j, now)), j);
  }

  lemma LaterVisitRefines(cfg: P.Config, e: System, j: nat)
    requires Inv(cfg, e) && Enabled(cfg, e, LaterVisit(j))
    ensures CoupledAll(cfg, Next(cfg, e, LaterVisit(j))) && Refines(cfg, e, LaterVisit(j))
  {
    assert Coupled(cfg, e.core, j, e.nets[j]);
    VisitKeepsCoupled(cfg, e, Next(cfg, e, LaterVisit(j)), j);
  }

  // The first end_write on connection j enqueues the message.
  lemma PushVisit(cfg: P.Config, e: System, e': System, j: nat)
    requires CoupledAll(cfg, e) && j < |e.nets| && P.MainEnabled(cfg, e.core, P.Visit(j))
    requires e.core.slots[j].flag == P.Stamped
    requires e'.core == P.MainNext(cfg, e.core, P.Visit(j))
    requires |e'.nets| == |e.nets| && e'.nets == e.nets[j := e'.nets[j]]
    requires var n, n' := e.nets[j], e'.nets[j];
      && n'.c.wrote == n.c.wrote && n'.s.got == n.s.got && n'.s.ep.slot == n.s.ep.slot
      && ClientKept(n, n') && n'.s.pc == R.Unarmed
      && View(n') == View(n).(down := View(n).down + [n.s.ep.out.body.kind])
    ensures CoupledAll(cfg, e')
    ensures var st := P.MainDo(P.Visit(j));
      P.Enabled(cfg, Abs(e), P.Do(st)) && Abs(e') == P.Next(cfg, Abs(e), P.Do(st))
  {
    ChangedView(e.nets, j, e'.nets[j]);
    VisitedConnection(cfg, e.core, e'.core, j, e.nets[j], e'.nets[j]);
    VisitKeepsCoupled(cfg, e, e', j);
  }

  lemma FirstVisitRefines(cfg: P.Config, e: System, j: nat, now: int)
    requires Inv(cfg, e) && Enabled(cfg, e, FirstVisit(j, now))
    ensures CoupledAll(cfg, Next(cfg, e, FirstVisit(j, now))) && Refines(cfg, e, FirstVisit(j, now))
  {
    OneNet(cfg, e, FirstVisit(j, now), R.FirstSend(false, now));
    FirstSendPushes(e.nets[j], now);
    PushVisit(cfg, e, Next(cfg, e, FirstVisit(j, now)), j);
  }

  lemma PlainWorkerPcs(cfg: P.Config, c: P.Core, t: nat, w: P.WorkStep, u: nat)
    requires t < |c.workers| == |c.counts| && P.WorkEnabled(cfg, c, t, w) && NoConnection(P.WorkerDo(t, w))
    requires u < |c.workers|
    ensures var c' := P.WorkNext(cfg, c, t, w);
      && |c'.workers| == |c.workers| == |c'.counts| && P.N(c') == P.N(c)
      && c'.pc == c.pc && c'.stop == c.stop && P.Outgoing(c') == P.Outgoing(c)
      && (forall j :: ReadingFrom(c'.workers[u], j) <==> ReadingFrom(c.workers[u], j))
      && ((c'.workers[u].Got? || c'.workers[u].Scored?) ==> ReadingFrom(c.workers[u], c'.workers[u].j))
  {
  }

  lemma PlainWorkerSlots(cfg: P.Config, c: P.Core, t: nat, w: P.WorkStep, j: nat)
    requires t < |c.workers| == |c.counts| && P.WorkEnabled(cfg, c, t, w) && NoConnection(P.WorkerDo(t, w))
    requires j < P.N(c)
    ensures var c' := P.WorkNext(cfg, c, t, w);
      P.N(c') == P.N(c) && c'.slots[j].flag == c.slots[j].flag && c'.slots[j].client == c.slots[j].client
  {
  }

  lemma PlainWorkerRefines(cfg: P.Config, e: System, t: nat, w: P.WorkStep)
    requires Inv(cfg, e) && Enabled(cfg, e, Plain(P.WorkerDo(t, w)))
    ensures CoupledAll(cfg, Next(cfg, e, Plain(P.WorkerDo(t, w)))) && Refines(cfg, e, Plain(P.WorkerDo(t, w)))
  {
    var e' := Next(cfg, e, Plain(P.WorkerDo(t, w)));
    forall u | 0 <= u < |e.core.workers| && (e'.core.workers[u].Got? || e'.core.workers[u].Scored?)
      ensures e'.core.workers[u].j < |cfg.owner| && cfg.owner[e'.core.workers[u].j] == u
    {
      PlainWorkerPcs(cfg, e.core, t, w, u);
    }
    forall j | 0 <= j < |e.nets|
      ensures Coupled(cfg, e'.core, j, e'.nets[j])
    {
      assert Coupled(cfg, e.core, j, e.nets[j]);
      PlainWorkerPcs(cfg, e.core, t, w, cfg.owner[j]);
      PlainWorkerSlots(cfg, e.core, t, w, j);
    }
  }

  lemma HaltRefines(cfg: P.Config, e: System, j: nat)
    requires Inv(cfg, e) && Enabled(cfg, e, Plain(P.ClientDo(j, P.Halt)))
    ensures CoupledAll(cfg, Next(cfg, e, Plain(P.ClientDo(j, P.Halt)))) && Refines(cfg, e, Plain(P.ClientDo(j, P.Halt)))
  {
    var e' := Next(cfg, e, Plain(P.ClientDo(j, P.Halt)));
    forall k | 0 <= k < |e.nets|
      ensures Coupled(cfg, e'.core, k, e'.nets[k])
    {
      assert Coupled(cfg, e.core, k, e.nets[k]);
    }
  }

  lemma StopRefines(cfg: P.Config, e: System)
    requires Inv(cfg, e)
    ensures CoupledAll(cfg, Next(cfg, e, Plain(P.RaiseStop))) && Refines(cfg, e, Plain(P.RaiseStop))
  {
    var e' := Next(cfg, e, Plain(P.RaiseStop));
    forall k | 0 <= k < |e.nets|
      ensures Coupled(cfg, e'.core, k, e'.nets[k])
    {
      assert Coupled(cfg, e.core, k, e.nets[k]);
    }
  }

  // A worker's beg_read accepts the head of its queue.
  lemma PopUpSide(cfg: P.Config, e: System, e': System, t: nat, j: nat, kind: Kind)
    requires CoupledAll(cfg, e) && j < |e.nets| && P.CoreEnabled(cfg, e.core, P.WorkerDo(t, P.Receive(j, kind)))
    requires e'.core == P.CoreNext(cfg, e.core, P.WorkerDo(t, P.Receive(j, kind)))
    requires |e'.nets| == |e.nets| && e'.nets == e.nets[j := e'.nets[j]]
    requires var n, n' := e.nets[j], e'.nets[j];
      && SamePcs(n, n') && ClientKept(n, n') && n'.s.got != [] && n'.s.ep.slot.Some? && n'.c.wrote == n.c.wrote
      && View(n).up != [] && View(n).up[0] == kind && View(n') == View(n).(up := View(n).up[1..])
    ensures CoupledAll(cfg, e')
    ensures var st := P.WorkerDo(t, P.Receive(j, kind));
      P.Enabled(cfg, Abs(e), P.Do(st)) && Abs(e') == P.Next(cfg, Abs(e), P.Do(st))
  {
    assert Coupled(cfg, e.core, j, e.nets[j]);
    ChangedView(e.nets, j, e'.nets[j]);
    assert Coupled(cfg, e'.core, j, e'.nets[j]);
    SideKeepsCoupled(cfg, e, e', j);
  }

  lemma ReceiveRefines(cfg: P.Config, e: System, t: nat, j: nat, p: E.Packet)
    requires Inv(cfg, e) && Enabled(cfg, e, Receive(t, j, p))
    ensures CoupledAll(cfg, Next(cfg, e, Receive(t, j, p))) && Refines(cfg, e, Receive(t, j, p))
  {
    OneNet(cfg, e, Receive(t, j, p), R.Deliver(false, p));
    CoordinatorAcceptPops(e.nets[j], p);
    PopUpSide(cfg, e, Next(cfg, e, Receive(t, j, p)), t, j, p.body.kind);
  }

  // The application is told about nothing: only the network or a slot changed.
  lemma SilentSide(cfg: P.Config, e: System, e': System, j: nat)
    requires CoupledAll(cfg, e) && j < |e.nets| && e'.core == e.core
    requires |e'.nets| == |e.nets| && e'.nets == e.nets[j := e'.nets[j]]
    requires j < P.N(e.core) && Quiet(e.nets[j], e'.nets[j]) && SamePcs(e.nets[j], e'.nets[j])
    requires ClientEnd(e.core.slots[j].client.pc, e'.nets[j])
    ensures CoupledAll(cfg, e') && Abs(e') == Abs(e)
  {
    assert Coupled(cfg, e.core, j, e.nets[j]);
    QuietViews(e.nets, j, e'.nets[j]);
    SideKeepsCoupled(cfg, e, e', j);
  }

  predicate SilentAction(a: Action) { a.Ignore? || a.ClientRead? || a.ClientRetry? || a.Lose? || a.Duplicate? }

  lemma SilentActionIsSilent(cfg: P.Config, e: System, a: Action)
    requires Enabled(cfg, e, a) && SilentAction(a)
    ensures |NetActions(a)| == 1 && NetActions(a) == [NetActions(a)[0]] && StepOf(e, a) == None
    ensures ConnOf(e, a) < |e.nets| && Silent(e.nets[ConnOf(e, a)], NetActions(a)[0])
    ensures NetActions(a)[0].Deliver? && NetActions(a)[0].client ==>
      ConnOf(e, a) < P.N(e.core) && Reads(e.core.slots[ConnOf(e, a)].client.pc)
  {
  }

  lemma SilentNext(cfg: P.Config, e: System, a: Action) returns (j: nat)
    requires Inv(cfg, e) && Enabled(cfg, e, a) && SilentAction(a)
    ensures StepOf(e, a) == None && j < |e.nets|
    ensures var e' := Next(cfg, e, a);
      && e'.core == e.core && |e'.nets| == |e.nets| && e'.nets == e.nets[j := e'.nets[j]]
      && Quiet(e.nets[j], e'.nets[j]) && SamePcs(e.nets[j], e'.nets[j])
      && j < P.N(e.core) && ClientEnd(e.core.slots[j].client.pc, e'.nets[j])
  {
    j := ConnOf(e, a);
    SilentActionIsSilent(cfg, e, a);
    OneNet(cfg, e, a, NetActions(a)[0]);
    SilentIsInvisible(e.nets[j], NetActions(a)[0]);
    assert Coupled(cfg, e.core, j, e.nets[j]);
  }

  lemma SilentRefines(cfg: P.Config, e: System, a: Action)
    requires Inv(cfg, e) && Enabled(cfg, e, a) && SilentAction(a)
    ensures CoupledAll(cfg, Next(cfg, e, a)) && Refines(cfg, e, a)
  {
    var j := SilentNext(cfg, e, a);
    SilentSide(cfg, e, Next(cfg, e, a), j);
  }

  lemma EndReadSide(cfg: P.Config, e: System, e': System, t: nat, j: nat)
    requires CoupledAll(cfg, e) && P.CoreEnabled(cfg, e.core, P.WorkerDo(t, P.EndRead))
      && e.core.workers[t] == P.Scored(j)
    requires j < |e.nets| && e'.core == P.CoreNext(cfg, e.core, P.WorkerDo(t, P.EndRead))
    requires |e'.nets| == |e.nets| && e'.nets == e.nets[j := e'.nets[j]]
    requires var n, n' := e.nets[j], e'.nets[j];
      && SamePcs(n, n') && ClientKept(n, n')
      && n'.s.ep.slot.None? && n'.s.got == n.s.got && n'.c.wrote == n.c.wrote && View(n') == View(n)
    ensures CoupledAll(cfg, e')
    ensures var st := P.WorkerDo(t, P.EndRead);
      P.Enabled(cfg, Abs(e), P.Do(st)) && Abs(e') == P.Next(cfg, Abs(e), P.Do(st))
  {
    assert Coupled(cfg, e.core, j, e.nets[j]);
    QuietViews(e.nets, j, e'.nets[j]);
    assert Coupled(cfg, e'.core, j, e'.nets[j]);
    SideKeepsCoupled(cfg, e, e', j);
  }

  lemma EndReadRefines(cfg: P.Config, e: System, t: nat)
    requires Inv(cfg, e) && Enabled(cfg, e, EndRead(t))
    ensures CoupledAll(cfg, Next(cfg, e, EndRead(t))) && Refines(cfg, e, EndRead(t))
  {
    var j := e.core.workers[t].j;
    OneNet(cfg, e, EndRead(t), R.FinishRead(false));
    EndReadIsInvisible(e.nets[j]);
    EndReadSide(cfg, e, Next(cfg, e, EndRead(t)), t, j);
  }

  // What a client's step does to the queues of its connection.
  predicate ViewStep(v: P.Chan, v': P.Chan, cl: P.Client, a: P.ClientStep)
    requires P.ClientEnabled(cl, a)
  {
    match a
    case Hear(kind) => v.down != [] && v.down[0] == kind && v' == v.(down := v.down[1..])
    case Vote => v' == v.(up := v.up + [VoteKind(cl.pc.yes)])
    case AckOrder => v' == v.(up := v.up + [Ack])
    case _ => v' == v
  }

  // A client's step, at its end of the connection.
  predicate NetChange(cfg: P.Config, cl: P.Client, a: P.ClientStep, j: nat, n: R.Net, n': R.Net)
    requires P.ClientEnabled(cl, a)
  {
    && n'.s.pc == n.s.pc && n'.s.ep.out.body.kind == n.s.ep.out.body.kind && n'.s.ep.slot == n.s.ep.slot
    && n'.s.got == n.s.got && Signed(n'.c.wrote, j)
    && (G.GaveUp(n'.c.pc) ==> cfg.losesUp)
    && ClientEnd(P.ClientNext(cl, a).pc, n') && ViewStep(View(n), View(n'), cl, a)
  }

  lemma ClientSideStep(cfg: P.Config, e: System, e': System, j: nat, a: P.ClientStep)
    requires CoupledAll(cfg, e) && j < |e.nets| && P.CoreEnabled(cfg, e.core, P.ClientDo(j, a))
    requires e'.core == P.CoreNext(cfg, e.core, P.ClientDo(j, a))
    requires |e'.nets| == |e.nets| && e'.nets == e.nets[j := e'.nets[j]]
    requires NetChange(cfg, e.core.slots[j].client, a, j, e.nets[j], e'.nets[j])
    ensures CoupledAll(cfg, e') && Performs(cfg, Abs(e), P.ClientDo(j, a), Abs(e'))
  {
    assert Coupled(cfg, e.core, j, e.nets[j]);
    ChangedView(e.nets, j, e'.nets[j]);
    assert Coupled(cfg, e'.core, j, e'.nets[j]);
    SideKeepsCoupled(cfg, e, e', j);
  }

  // A client's action that is one step of its program and changes its end as that step should.
  lemma ClientActionRefines(cfg: P.Config, e: System, x: Action, j: nat, a: P.ClientStep, n': R.Net)
    requires CoupledAll(cfg, e) && Enabled(cfg, e, x) && !x.ClientSpeakUnsent?
    requires StepOf(e, x) == Some(P.ClientDo(j, a)) && j < |e.nets| && Next(cfg, e, x).nets == e.nets[j := n']
    requires NetChange(cfg, e.core.slots[j].client, a, j, e.nets[j], n')
    ensures CoupledAll(cfg, Next(cfg, e, x)) && Refines(cfg, e, x)
  {
    ClientSideStep(cfg, e, Next(cfg, e, x), j, a);
  }

  // What the coupling says about the client's end, for the lemmas about one connection.
  predicate ClientsEnd(cfg: P.Config, cl: P.Client, j: nat, n: R.Net) {
    && R.Inv(n) && Signed(n.c.wrote, j) && ClientEnd(cl.pc, n)
    && (G.GaveUp(n.c.pc) ==> cfg.losesUp)
  }

  lemma EndOf(cfg: P.Config, e: System, j: nat)
    requires Inv(cfg, e) && j < |e.nets|
    ensures j < P.N(e.core) && ClientsEnd(cfg, e.core.slots[j].client, j, e.nets[j])
  {
    assert Coupled(cfg, e.core, j, e.nets[j]);
  }

  lemma HearChange(cfg: P.Config, cl: P.Client, j: nat, n: R.Net)
    requires ClientsEnd(cfg, cl, j, n) && R.Enabled(n, R.FinishRead(true))
    requires P.ClientEnabled(cl, P.Hear(n.c.ep.slot.value.body.kind))
    ensures NetChange(cfg, cl, P.Hear(n.c.ep.slot.value.body.kind), j, n, R.Next(n, R.FinishRead(true)))
  {
    ClientTakePops(n);
  }

  lemma HearRefines(cfg: P.Config, e: System, j: nat)
    requires Inv(cfg, e) && Enabled(cfg, e, ClientHear(j))
    ensures CoupledAll(cfg, Next(cfg, e, ClientHear(j))) && Refines(cfg, e, ClientHear(j))
  {
    var n := e.nets[j];
    EndOf(cfg, e, j);
    OneNet(cfg, e, ClientHear(j), R.FinishRead(true));
    HearChange(cfg, e.core.slots[j].client, j, n);
    ClientActionRefines(cfg, e, ClientHear(j), j, P.Hear(n.c.ep.slot.value.body.kind), R.Next(n, R.FinishRead(true)));
  }

  lemma WrittenChange(cfg: P.Config, cl: P.Client, j: nat, n: R.Net)
    requires ClientsEnd(cfg, cl, j, n) && R.Enabled(n, R.Poll(true)) && P.ClientEnabled(cl, P.Written)
    ensures NetChange(cfg, cl, P.Written, j, n, R.Next(n, R.Poll(true)))
  {
    PollIsInvisible(n, true);
  }

  lemma WrittenStep(cfg: P.Config, e: System, j: nat)
    requires Enabled(cfg, e, ClientWritten(j))
    ensures StepOf(e, ClientWritten(j)) == Some(P.ClientDo(j, P.Written))
    ensures j < P.N(e.core) && P.ClientEnabled(e.core.slots[j].client, P.Written)
  {
  }

  lemma WrittenRefines(cfg: P.Config, e: System, j: nat)
    requires Inv(cfg, e) && Enabled(cfg, e, ClientWritten(j))
    ensures CoupledAll(cfg, Next(cfg, e, ClientWritten(j))) && Refines(cfg, e, ClientWritten(j))
  {
    WrittenStep(cfg, e, j);
    OneNet(cfg, e, ClientWritten(j), R.Poll(true));
    EndOf(cfg, e, j);
    WrittenChange(cfg, e.core.slots[j].client, j, e.nets[j]);
    ClientActionRefines(cfg, e, ClientWritten(j), j, P.Written, R.Next(e.nets[j], R.Poll(true)));
  }

  lemma SpeakNets(cfg: P.Config, e: System, j: nat, body: Msg, now: int)
    requires Enabled(cfg, e, ClientSpeak(j, body, now))
    ensures j < |e.nets|
    ensures R.Enabled(e.nets[j], R.BeginWrite(true, body))
    ensures Next(cfg, e, ClientSpeak(j, body, now)).nets
         == e.nets[j := R.Next(R.Next(e.nets[j], R.BeginWrite(true, body)), R.FirstSend(true, now))]
  {
    assert NetActions(ClientSpeak(j, body, now))[1..] == [R.FirstSend(true, now)];
    R.ExecOne(R.Next(e.nets[j], R.BeginWrite(true, body)), R.FirstSend(true, now));
  }

  // The two actions of an answer that is sent.
  function Spoken(n: R.Net, body: Msg, now: int): R.Net {
    R.Next(R.Next(n, R.BeginWrite(true, body)), R.FirstSend(true, now))
  }

  // The answer the client's program gives, as a step of the protocol.
  predicate Gives(cl: P.Client, a: P.ClientStep, body: Msg) {
    && P.ClientEnabled(cl, a) && !Reads(cl.pc)
    && (P.ClientNext(cl, a).pc == P.VoteWritten || P.ClientNext(cl, a).pc == P.AckWritten)
    && ((a == P.Vote && body.kind == VoteKind(cl.pc.yes)) || (a == P.AckOrder && body.kind == Ack))
  }

  lemma SignedPush(wrote: seq<Msg>, j: nat, body: Msg)
    requires Signed(wrote, j) && body.src == j + 1
    ensures Signed(wrote + [body], j)
  {
  }

  // What the answer does to the client's end is what the step of its program does.
  lemma AnswerChange(cfg: P.Config, cl: P.Client, a: P.ClientStep, j: nat, n: R.Net, n': R.Net, kind: Kind)
    requires P.ClientEnabled(cl, a)
      && ((a == P.Vote && kind == VoteKind(cl.pc.yes)) || (a == P.AckOrder && kind == Ack))
    requires n'.s.pc == n.s.pc && n'.s.ep == n.s.ep && n'.s.got == n.s.got && Signed(n'.c.wrote, j)
    requires n'.c.pc == R.Outstanding && n'.c.ep.slot == None
    requires View(n') == View(n).(up := View(n).up + [kind])
    ensures NetChange(cfg, cl, a, j, n, n')
  {
  }

  lemma SpeakChange(cfg: P.Config, cl: P.Client, a: P.ClientStep, j: nat, n: R.Net, body: Msg, now: int)
    requires ClientsEnd(cfg, cl, j, n) && n.c.pc == R.Idle && Gives(cl, a, body) && body.src == j + 1
    ensures NetChange(cfg, cl, a, j, n, Spoken(n, body, now))
  {
    ClientSpeakPushes(n, body, now);
    SignedPush(n.c.wrote, j, body);
    AnswerChange(cfg, cl, a, j, n, Spoken(n, body, now), body.kind);
  }

  // A message is only sent from an idle end.
  lemma SpeakIsIdle(cfg: P.Config, e: System, j: nat, body: Msg, now: int)
    requires Enabled(cfg, e, ClientSpeak(j, body, now)) && R.Inv(e.nets[j])
    ensures e.nets[j].c.pc == R.Idle
  {
    ExecHead(e.nets[j], R.BeginWrite(true, body), [R.FirstSend(true, now)]);
  }

  lemma SpeakStep(cfg: P.Config, e: System, j: nat, body: Msg, now: int) returns (a: P.ClientStep)
    requires Enabled(cfg, e, ClientSpeak(j, body, now))
    ensures StepOf(e, ClientSpeak(j, body, now)) == Some(P.ClientDo(j, a))
    ensures Gives(e.core.slots[j].client, a, body) && body.src == j + 1
  {
    a := StepOf(e, ClientSpeak(j, body, now)).value.a;
  }

  lemma SpeakRefines(cfg: P.Config, e: System, j: nat, body: Msg, now: int)
    requires Inv(cfg, e) && Enabled(cfg, e, ClientSpeak(j, body, now))
    ensures CoupledAll(cfg, Next(cfg, e, ClientSpeak(j, body, now))) && Refines(cfg, e, ClientSpeak(j, body, now))
  {
    EndOf(cfg, e, j);
    var a := SpeakStep(cfg, e, j, body, now);
    SpeakIsIdle(cfg, e, j, body, now);
    SpeakNets(cfg, e, j, body, now);
    SpeakChange(cfg, e.core.slots[j].client, a, j, e.nets[j], body, now);
    ClientActionRefines(cfg, e, ClientSpeak(j, body, now), j, a, Spoken(e.nets[j], body, now));
  }

  // What the client's program does in an answer, sent or not.
  lemma UnsentStep(cfg: P.Config, e: System, j: nat, body: Msg) returns (a: P.ClientStep)
    requires Enabled(cfg, e, ClientSpeakUnsent(j, body))
    ensures StepOf(e, ClientSpeakUnsent(j, body)) == Some(P.ClientDo(j, a)) && Gives(e.core.slots[j].client, a, body)
  {
    a := StepOf(e, ClientSpeakUnsent(j, body)).value.a;
  }

  lemma UnsentNext(cfg: P.Config, e: System, j: nat, body: Msg)
    requires Enabled(cfg, e, ClientSpeakUnsent(j, body)) && R.Inv(e.nets[j])
    ensures cfg.losesUp
    ensures var e' := Next(cfg, e, ClientSpeakUnsent(j, body)); var n, n' := e.nets[j], e'.nets[j];
      && |e'.nets| == |e.nets| && e'.nets == e.nets[j := n']
      && Quiet(n, n') && n'.s == n.s && n'.c.pc == R.Stale && n'.c.ep.slot == n.c.ep.slot && E.Acked(n'.c.ep)
  {
    OneNet(cfg, e, ClientSpeakUnsent(j, body), R.BeginWrite(true, body));
    UnsentIsInvisible(e.nets[j], body);
  }

  // In the protocol the answer enters the queue and is lost again.
  lemma SpokenAndLost(cfg: P.Config, e: System, e': System, j: nat, a: P.ClientStep) returns (s: P.Cluster, i: nat)
    requires cfg.losesUp && j < |e.nets| && P.CoreEnabled(cfg, e.core, P.ClientDo(j, a))
      && (a == P.Vote || a == P.AckOrder)
    requires e'.core == P.CoreNext(cfg, e.core, P.ClientDo(j, a)) && Views(e'.nets) == Views(e.nets)
    ensures Performs(cfg, Abs(e), P.ClientDo(j, a), s) && Loses(cfg, s, j, i, Abs(e'))
  {
    var up := Views(e.nets)[j].up;
    i := |up|;
    s := P.Next(cfg, Abs(e), P.Do(P.ClientDo(j, a)));
    assert P.Without(s.chans[j].up, i) == up;
    assert P.Next(cfg, s, P.LoseUp(j, i)).chans == Views(e.nets);
  }

  lemma UnsentCoupled(cfg: P.Config, e: System, e': System, j: nat, a: P.ClientStep, body: Msg)
    requires CoupledAll(cfg, e) && j < |e.nets| && cfg.losesUp && Gives(e.core.slots[j].client, a, body)
    requires e'.core == P.CoreNext(cfg, e.core, P.ClientDo(j, a))
    requires |e'.nets| == |e.nets| && e'.nets == e.nets[j := e'.nets[j]]
    requires var n, n' := e.nets[j], e'.nets[j];
      Quiet(n, n') && n'.s == n.s && n'.c.pc == R.Stale && n'.c.ep.slot == n.c.ep.slot && E.Acked(n'.c.ep)
    ensures CoupledAll(cfg, e')
  {
    assert Coupled(cfg, e.core, j, e.nets[j]);
    assert Coupled(cfg, e'.core, j, e'.nets[j]);
    SideKeepsCoupled(cfg, e, e', j);
  }

  lemma UnsentRefines(cfg: P.Config, e: System, j: nat, body: Msg)
    requires Inv(cfg, e) && Enabled(cfg, e, ClientSpeakUnsent(j, body))
    ensures CoupledAll(cfg, Next(cfg, e, ClientSpeakUnsent(j, body))) && Refines(cfg, e, ClientSpeakUnsent(j, body))
  {
    var e' := Next(cfg, e, ClientSpeakUnsent(j, body));
    UnsentNext(cfg, e, j, body);
    var a := UnsentStep(cfg, e, j, body);
    UnsentCoupled(cfg, e, e', j, a, body);
    QuietViews(e.nets, j, e'.nets[j]);
    var s, i := SpokenAndLost(cfg, e, e', j, a);
  }

  lemma GiveUpChange(cfg: P.Config, cl: P.Client, j: nat, n: R.Net, now: int)
    requires ClientsEnd(cfg, cl, j, n) && R.Enabled(n, R.GiveUp(now)) && P.ClientEnabled(cl, P.Written) && cfg.losesUp
    ensures NetChange(cfg, cl, P.Written, j, n, R.Next(n, R.GiveUp(now)))
  {
    GiveUpIsInvisible(n, now);
  }

  lemma GiveUpStep(cfg: P.Config, e: System, j: nat, now: int)
    requires Enabled(cfg, e, ClientGiveUp(j, now))
    ensures StepOf(e, ClientGiveUp(j, now)) == Some(P.ClientDo(j, P.Written))
    ensures cfg.losesUp && j < P.N(e.core) && P.ClientEnabled(e.core.slots[j].client, P.Written)
  {
  }

  lemma GiveUpRefines(cfg: P.Config, e: System, j: nat, now: int)
    requires Inv(cfg, e) && Enabled(cfg, e, ClientGiveUp(j, now))
    ensures CoupledAll(cfg, Next(cfg, e, ClientGiveUp(j, now))) && Refines(cfg, e, ClientGiveUp(j, now))
  {
    GiveUpStep(cfg, e, j, now);
    OneNet(cfg, e, ClientGiveUp(j, now), R.GiveUp(now));
    EndOf(cfg, e, j);
    GiveUpChange(cfg, e.core.slots[j].client, j, e.nets[j], now);
    ClientActionRefines(cfg, e, ClientGiveUp(j, now), j, P.Written, R.Next(e.nets[j], R.GiveUp(now)));
  }

  lemma PlainRefines(cfg: P.Config, e: System, st: P.Step)
    requires Inv(cfg, e) && Enabled(cfg, e, Plain(st))
    ensures CoupledAll(cfg, Next(cfg, e, Plain(st))) && Refines(cfg, e, Plain(st))
  {
    match st
    case MainDo(m) => PlainMainRefines(cfg, e, m);
    case WorkerDo(t, w) => PlainWorkerRefines(cfg, e, t, w);
    case ClientDo(j, a) => HaltRefines(cfg, e, j);
    case RaiseStop => StopRefines(cfg, e);
  }

  // The actions of send_request.
  predicate IsVisit(a: Action) {
    a.StampOne? || a.FirstVisit? || a.ArmVisit? || a.LaterVisit? || a.VisitAcked? || a.VisitAgain? || a.VisitRetry?
  }

  lemma VisitRefines(cfg: P.Config, e: System, a: Action)
    requires Inv(cfg, e) && Enabled(cfg, e, a) && IsVisit(a)
    ensures CoupledAll(cfg, Next(cfg, e, a)) && Refines(cfg, e, a)
  {
    match a
    case StampOne(j, body) => StampRefines(cfg, e, j, body);
    case FirstVisit(j, now) => FirstVisitRefines(cfg, e, j, now);
    case ArmVisit(j, now) => ArmRefines(cfg, e, j, now);
    case LaterVisit(j) => LaterVisitRefines(cfg, e, j);
    case VisitAcked => AckedRefines(cfg, e);
    case VisitAgain => AgainRefines(cfg, e);
    case VisitRetry(now) => RetryRefines(cfg, e, now);
  }

  /** One action of the end-to-end system is one step of the protocol over queues, or none; only an answer that is
      never sent, after one that was given up, is a step and a loss. */
  lemma ActionRefines(cfg: P.Config, e: System, a: Action)
    requires Inv(cfg, e) && Enabled(cfg, e, a)
    ensures Inv(cfg, Next(cfg, e, a)) && Refines(cfg, e, a)
  {
    ChannelsStayOk(cfg, e, a);
    if IsVisit(a) {
      VisitRefines(cfg, e, a);
    } else {
      match a
      case Plain(st) => PlainRefines(cfg, e, st);
      case Receive(t, j, p) => ReceiveRefines(cfg, e, t, j, p);
      case EndRead(t) => EndReadRefines(cfg, e, t);
      case ClientHear(j) => HearRefines(cfg, e, j);
      case ClientSpeak(j, body, now) => SpeakRefines(cfg, e, j, body, now);
      case ClientSpeakUnsent(j, body) => UnsentRefines(cfg, e, j, body);
      case ClientGiveUp(j, now) => GiveUpRefines(cfg, e, j, now);
      case ClientWritten(j) => WrittenRefines(cfg, e, j);
      case _ => SilentRefines(cfg, e, a);
    }
  }

  // The protocol's actions for one action.
  lemma StepsOf(cfg: P.Config, e: System, a: Action) returns (steps: seq<P.Action>)
    requires Enabled(cfg, e, a) && Refines(cfg, e, a)
    ensures P.Exec(cfg, Abs(e), steps) == Some(Abs(Next(cfg, e, a)))
  {
    var e' := Next(cfg, e, a);
    match StepOf(e, a)
    case None => steps := [];
    case Some(st) =>
      if a.ClientSpeakUnsent? {
        var s, i :| Performs(cfg, Abs(e), st, s) && Loses(cfg, s, a.j, i, Abs(e'));
        steps := TwoSteps(cfg, Abs(e), st, s, a.j, i, Abs(e'));
      } else {
        P.ExecOne(cfg, Abs(e), P.Do(st));
        steps := [P.Do(st)];
      }
  }

  lemma TwoSteps(cfg: P.Config, s: P.Cluster, st: P.Step, s1: P.Cluster, j: nat, i: nat, s2: P.Cluster)
    returns (steps: seq<P.Action>)
    requires Performs(cfg, s, st, s1) && Loses(cfg, s1, j, i, s2)
    ensures P.Exec(cfg, s, steps) == Some(s2)
  {
    P.ExecOne(cfg, s, P.Do(st));
    P.ExecOne(cfg, s1, P.LoseUp(j, i));
    P.ExecConcat(cfg, s, [P.Do(st)], [P.LoseUp(j, i)]);
    steps := [P.Do(st)] + [P.LoseUp(j, i)];
  }

  /** Every run of the end-to-end system is, message for message, a run of the protocol over queues. They lose nothing
      on the way to a client, and nothing on the way from it if clients do not give up. */
  lemma {:induction false} RunRefines(cfg: P.Config, e: System, actions: seq<Action>) returns (steps: seq<P.Action>)
    requires Inv(cfg, e) && Exec(cfg, e, actions).Some?
    ensures Inv(cfg, Exec(cfg, e, actions).value)
    ensures P.Exec(cfg, Abs(e), steps) == Some(Abs(Exec(cfg, e, actions).value))
    decreases |actions|
  {
    if actions == [] {
      steps := [];
    } else {
      ActionRefines(cfg, e, actions[0]);
      var first := StepsOf(cfg, e, actions[0]);
      var rest := RunRefines(cfg, Next(cfg, e, actions[0]), actions[1..]);
      P.ExecConcat(cfg, Abs(e), first, rest);
      steps := first + rest;
    }
  }

  // ----- nothing is blocked -----

  // The connection and its coupling, as Inv gives them for connection j.
  predicate At(cfg: P.Config, e: System, j: nat) {
    && j < P.N(e.core) && j < |e.nets| && j < |cfg.owner| && cfg.owner[j] < |e.core.workers| == |e.core.counts|
    && R.Inv(e.nets[j]) && Coupled(cfg, e.core, j, e.nets[j])
  }

  lemma EveryConnection(cfg: P.Config, e: System, j: nat)
    requires Inv(cfg, e) && j < |e.nets|
    ensures At(cfg, e, j)
  {
  }

  lemma CanStamp(n: R.Net, m: Msg)
    requires R.Inv(n) && n.s.got != [] && n.s.pc == R.Idle
    ensures R.Exec(n, [R.BeginWrite(false, m)]).Some?
  {
    R.ExecOne(n, R.BeginWrite(false, m));
  }

  lemma CanSpeak(n: R.Net, m: Msg, now: int)
    requires R.Inv(n) && n.c.pc == R.Idle && n.c.ep.slot == None
    ensures R.Exec(n, [R.BeginWrite(true, m), R.FirstSend(true, now)]).Some?
  {
    ExecHead(n, R.BeginWrite(true, m), [R.FirstSend(true, now)]);
    R.ExecOne(R.Next(n, R.BeginWrite(true, m)), R.FirstSend(true, now));
  }

  /** Coupling the programs to the connections blocks nothing, in any reachable state: whenever send_request is about
      to stamp a connection, the connection is idle and can be stamped, ... */
  lemma StampIsNeverBlocked(cfg: P.Config, e: System, j: nat, m: Msg)
    requires Inv(cfg, e) && P.MainEnabled(cfg, e.core, P.StampOne(j)) && m.kind == P.Outgoing(e.core)
    ensures Enabled(cfg, e, StampOne(j, m))
  {
    EveryConnection(cfg, e, j);
    CanStamp(e.nets[j], m);
  }

  // ... whenever it visits a connection, the message can be sent or was sent before,
  lemma VisitIsNeverBlocked(cfg: P.Config, e: System, j: nat, now: int)
    requires Inv(cfg, e) && P.MainEnabled(cfg, e.core, P.Visit(j))
    ensures if e.core.slots[j].flag == P.Stamped then Enabled(cfg, e, FirstVisit(j, now))
      else Enabled(cfg, e, LaterVisit(j))
  {
    EveryConnection(cfg, e, j);
    R.ExecOne(e.nets[j], R.FirstSend(false, now));
  }

  // ... and inside a visit the number can be recorded or the acknowledgement polled;
  lemma PollIsNeverBlocked(cfg: P.Config, e: System, j: nat, now: int)
    requires Inv(cfg, e) && j < |e.nets| && e.core.pc == P.SendPoll(j) && e.core.slots[j].flag == P.Sent
    ensures if e.nets[j].s.pc == R.Unarmed then Enabled(cfg, e, ArmVisit(j, now)) else Enabled(cfg, e, VisitAgain)
  {
    EveryConnection(cfg, e, j);
    R.ExecOne(e.nets[j], R.ArmWrite(now));
  }

  lemma SpeakIsNeverBlocked(cfg: P.Config, e: System, j: nat, m: Msg, now: int)
    requires At(cfg, e, j) && !e.core.slots[j].client.halted && !Reads(e.core.slots[j].client.pc)
    requires m.kind == EndToEnd.Answer(e.core.slots[j].client) && m.src == j + 1 && e.nets[j].c.pc == R.Idle
    ensures Enabled(cfg, e, ClientSpeak(j, m, now))
  {
    CanSpeak(e.nets[j], m, now);
  }

  lemma UnsentIsNeverBlocked(cfg: P.Config, e: System, j: nat, m: Msg)
    requires At(cfg, e, j) && !e.core.slots[j].client.halted && !Reads(e.core.slots[j].client.pc)
    requires m.kind == EndToEnd.Answer(e.core.slots[j].client) && m.src == j + 1 && e.nets[j].c.pc != R.Idle
    ensures Enabled(cfg, e, ClientSpeakUnsent(j, m))
  {
    R.ExecOne(e.nets[j], R.BeginWrite(true, m));
  }

  // ... a client can answer whenever its program does, be it into the void after an answer it has given up,
  lemma AnswerIsNeverBlocked(cfg: P.Config, e: System, j: nat, m: Msg, now: int)
    requires Inv(cfg, e) && j < |e.nets| && !e.core.slots[j].client.halted && !Reads(e.core.slots[j].client.pc)
    requires m.kind == EndToEnd.Answer(e.core.slots[j].client) && m.src == j + 1
    ensures if e.nets[j].c.pc == R.Idle then Enabled(cfg, e, ClientSpeak(j, m, now))
            else Enabled(cfg, e, ClientSpeakUnsent(j, m))
  {
    EveryConnection(cfg, e, j);
    if e.nets[j].c.pc == R.Idle {
      SpeakIsNeverBlocked(cfg, e, j, m, now);
    } else {
      UnsentIsNeverBlocked(cfg, e, j, m);
    }
  }

  // ... and a worker can end the read it has scored.
  lemma EndReadIsNeverBlocked(cfg: P.Config, e: System, t: nat)
    requires Inv(cfg, e) && t < |e.core.workers| && e.core.workers[t].Scored?
    ensures Enabled(cfg, e, EndRead(t))
  {
    var j := e.core.workers[t].j;
    EveryConnection(cfg, e, j);
    R.ExecOne(e.nets[j], R.FinishRead(false));
  }

  // ... An acknowledged visit can end, and any other can retransmit;
  lemma VisitCanSettle(cfg: P.Config, e: System, j: nat, now: int)
    requires Inv(cfg, e) && j < |e.nets| && e.core.pc == P.SendPoll(j) && e.nets[j].s.pc == R.Outstanding
    ensures Enabled(cfg, e, VisitRetry(now)) && (E.Acked(e.nets[j].s.ep) ==> Enabled(cfg, e, VisitAcked))
  {
    EveryConnection(cfg, e, j);
    R.ExecOne(e.nets[j], R.Retransmit(false, now));
    R.ExecOne(e.nets[j], R.Poll(false));
  }

  lemma WritingEnd(cfg: P.Config, cl: P.Client, j: nat, n: R.Net, now: int)
    requires ClientsEnd(cfg, cl, j, n) && P.ClientEnabled(cl, P.Written)
    ensures if E.Acked(n.c.ep) then R.Enabled(n, R.Poll(true))
            else if R.LastTry(n.c) then R.Enabled(n, R.GiveUp(now)) else R.Enabled(n, R.Retransmit(true, now))
  {
  }

  // ... so can a client's write, which also ends, if clients do give up, with the last retransmission;
  lemma ClientCanSettle(cfg: P.Config, e: System, j: nat, now: int)
    requires Inv(cfg, e) && j < |e.nets| && P.ClientEnabled(e.core.slots[j].client, P.Written)
    ensures if E.Acked(e.nets[j].c.ep) then Enabled(cfg, e, ClientWritten(j))
            else if R.LastTry(e.nets[j].c) then cfg.losesUp ==> Enabled(cfg, e, ClientGiveUp(j, now))
            else Enabled(cfg, e, ClientRetry(j, now))
  {
    EndOf(cfg, e, j);
    WritingEnd(cfg, e.core.slots[j].client, j, e.nets[j], now);
    R.ExecOne(e.nets[j], R.Poll(true));
    R.ExecOne(e.nets[j], R.GiveUp(now));
    R.ExecOne(e.nets[j], R.Retransmit(true, now));
  }

  // ... a worker that polls its connection takes any datagram there is, when it has ended its last read;
  lemma NotReading(cfg: P.Config, e: System, j: nat)
    requires Inv(cfg, e) && j < |e.nets| && e.core.workers[cfg.owner[j]] == P.Polling
    ensures j < P.N(e.core) && e.nets[j].s.ep.slot == None
  {
    assert Coupled(cfg, e.core, j, e.nets[j]);
  }

  lemma WorkerCanRead(cfg: P.Config, e: System, t: nat, j: nat, p: E.Packet)
    requires Inv(cfg, e) && j < |e.nets| && cfg.owner[j] == t && e.core.workers[t] == P.Polling
    requires p in e.nets[j].s.inbox
    ensures if E.Accepts(e.nets[j].s.ep, p.seqNo) then Enabled(cfg, e, Receive(t, j, p))
            else Enabled(cfg, e, Ignore(t, j, p))
  {
    NotReading(cfg, e, j);
    R.ExecOne(e.nets[j], R.Deliver(false, p));
  }

  // ... and a client that waits for a message takes the one it holds, or reads the datagrams there are.
  predicate Listens(e: System, j: nat) {
    && j < P.N(e.core) && j < |e.nets| && !e.core.slots[j].client.halted
    && (e.core.slots[j].client.pc == P.AwaitRequest || e.core.slots[j].client.pc == P.AwaitDecision)
  }

  lemma ClientCanHear(cfg: P.Config, e: System, j: nat)
    requires Listens(e, j) && e.nets[j].c.ep.slot.Some?
    ensures Enabled(cfg, e, ClientHear(j))
  {
    R.ExecOne(e.nets[j], R.FinishRead(true));
  }

  lemma ClientCanRead(cfg: P.Config, e: System, j: nat, p: E.Packet)
    requires Listens(e, j) && e.nets[j].c.ep.slot.None? && p in e.nets[j].c.inbox
    ensures Enabled(cfg, e, ClientRead(j, p))
  {
    R.ExecOne(e.nets[j], R.Deliver(true, p));
  }
}
