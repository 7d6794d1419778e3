/** Two-phase commit with every connection a reliable-UDP channel over a network that loses, duplicates and
    reorders datagrams: each run is a run of the protocol over perfect queues. */
module EndToEnd {
  import opened Protocol
  import P = TwoPhase
  import R = RudpChannel
  import E = RudpEndpoint

  datatype System = System(core: P.Core, nets: seq<R.Net>)

  datatype Action =
    | Plain(st: P.Step)                                      // touches no connection
    | StampOne(j: nat, body: Msg)                            // main thread: beg_write
    | FirstVisit(j: nat, now: int)                           // main thread: first send of end_write
    | ArmVisit(j: nat, now: int)                             // main thread: record current_seq
    | LaterVisit(j: nat)                                     // main thread: end_write called again
    | VisitAcked                                             // main thread: end_write succeeds
    | VisitAgain                                             // main thread: timer still running
    | VisitRetry(now: int)                                   // main thread: timer fired
    | Receive(t: nat, j: nat, p: E.Packet)                   // worker: beg_read accepts
    | Ignore(t: nat, j: nat, p: E.Packet)                    // worker: beg_read drops
    | EndRead(t: nat)                                        // worker: end_read
    | ClientRead(j: nat, p: E.Packet)                        // client: a datagram read, accepted or dropped
    | ClientHear(j: nat)                                     // client: the message is taken, end_read
    | ClientSpeak(j: nat, body: Msg, now: int)               // client: beg_write and first send of an answer
    | ClientSpeakUnsent(j: nat, body: Msg)                   // client: beg_write with ack_outstanding still set
    | ClientGiveUp(j: nat, now: int)                         // client: timer fired, the retransmission limit is reached
    | ClientWritten(j: nat)                                  // client: end_write succeeds
    | ClientRetry(j: nat, now: int)                          // client: timer fired
    | Lose(j: nat, client: bool, p: E.Packet)
    | Duplicate(j: nat, client: bool, p: E.Packet)

  // Steps that have no action of their own above.
  predicate NoConnection(st: P.Step) {
    match st
    case MainDo(m) => !m.StampOne? && !m.Visit? && !m.VisitAcked? && !m.VisitAgain?
    case WorkerDo(_, w) => !w.Receive? && !w.EndRead?
    case ClientDo(_, a) => a == P.Halt
    case RaiseStop => true
  }

  // The answer a client is about to write.
  function Answer(cl: P.Client): Kind {
    if cl.pc.CastVote? then VoteKind(cl.pc.yes) else Ack
  }

  // The protocol step an action performs, if any.
  function StepOf(e: System, a: Action): Option<P.Step> {
    match a
    case Plain(st) => Some(st)
    case StampOne(j, _) => Some(P.MainDo(P.StampOne(j)))
    case FirstVisit(j, _) => Some(P.MainDo(P.Visit(j)))
    case LaterVisit(j) => Some(P.MainDo(P.Visit(j)))
    case VisitAcked => Some(P.MainDo(P.VisitAcked))
    case VisitAgain => Some(P.MainDo(P.VisitAgain))
    case VisitRetry(_) => Some(P.MainDo(P.VisitAgain))
    case Receive(t, j, p) => Some(P.WorkerDo(t, P.Receive(j, p.body.kind)))
    case EndRead(t) => Some(P.WorkerDo(t, P.EndRead))
    case ClientHear(j) =>
      if j < |e.nets| && e.nets[j].c.ep.slot.Some? then Some(P.ClientDo(j, P.Hear(e.nets[j].c.ep.slot.value.body.kind)))
      else None
    case ClientSpeak(j, _, _) =>
      if j < P.N(e.core) && e.core.slots[j].client.pc.CastVote? then Some(P.ClientDo(j, P.Vote))
      else Some(P.ClientDo(j, P.AckOrder))
    case ClientSpeakUnsent(j, _) =>
      if j < P.N(e.core) && e.core.slots[j].client.pc.CastVote? then Some(P.ClientDo(j, P.Vote))
      else Some(P.ClientDo(j, P.AckOrder))
    case ClientGiveUp(j, _) => Some(P.ClientDo(j, P.Written))
    case ClientWritten(j) => Some(P.ClientDo(j, P.Written))
    case _ => None
  }

  // The connection an action works on; |nets| when there is none.
  function ConnOf(e: System, a: Action): nat {
    match a
    case Plain(_) => |e.nets|
    case LaterVisit(_) => |e.nets|
    case VisitAgain => |e.nets|
    case VisitAcked => if e.core.pc.SendPoll? then e.core.pc.j else |e.nets|
    case VisitRetry(_) => if e.core.pc.SendPoll? then e.core.pc.j else |e.nets|
    case EndRead(t) => if t < |e.core.workers| && e.core.workers[t].Scored? then e.core.workers[t].j else |e.nets|
    case StampOne(j, _) => j
    case FirstVisit(j, _) => j
    case ArmVisit(j, _) => j
    case Receive(_, j, _) => j
    case Ignore(_, j, _) => j
    case ClientRead(j, _) => j
    case ClientHear(j) => j
    case ClientSpeak(j, _, _) => j
    case ClientSpeakUnsent(j, _) => j
    case ClientGiveUp(j, _) => j
    case ClientWritten(j) => j
    case ClientRetry(j, _) => j
    case Lose(j, _, _) => j
    case Duplicate(j, _, _) => j
  }

  // What an action does to its connection, in order.
  function NetActions(a: Action): seq<R.Action> {
    match a
    case StampOne(_, body) => [R.BeginWrite(false, body)]
    case FirstVisit(_, now) => [R.FirstSend(false, now)]
    case ArmVisit(_, now) => [R.ArmWrite(now)]
    case VisitAcked => [R.Poll(false)]
    case VisitRetry(now) => [R.Retransmit(false, now)]
    case Receive(_, _, p) => [R.Deliver(false, p)]
    case Ignore(_, _, p) => [R.Deliver(false, p)]
    case EndRead(_) => [R.FinishRead(false)]
    case ClientRead(_, p) => [R.Deliver(true, p)]
    case ClientHear(_) => [R.FinishRead(true)]
    case ClientSpeak(_, body, now) => [R.BeginWrite(true, body), R.FirstSend(true, now)]
    case ClientSpeakUnsent(_, body) => [R.BeginWrite(true, body)]
    case ClientGiveUp(_, now) => [R.GiveUp(now)]
    case ClientWritten(_) => [R.Poll(true)]
    case ClientRetry(_, now) => [R.Retransmit(true, now)]
    case Lose(_, client, p) => [R.Lose(client, p)]
    case Duplicate(_, client, p) => [R.Duplicate(client, p)]
    case _ => []
  }

  // The client is inside a read or a write: it reads its socket only in get_messge and in end_write.
  predicate Reads(pc: P.ClientPc) { !pc.CastVote? && pc != P.SendAck }

  /** When an action may happen, beyond what its protocol step and its connection demand. Clients give up only in
      configurations that let messages from them be lost. */
  predicate Guard(cfg: P.Config, e: System, a: Action) {
    var c := e.core;
    match a
    case Plain(st) => NoConnection(st)
    case StampOne(_, body) => body.kind == P.Outgoing(c)
    case FirstVisit(j, _) => j < P.N(c) && c.slots[j].flag == P.Stamped
    case ArmVisit(j, _) => c.pc == P.SendPoll(j)
    case LaterVisit(j) => j < P.N(c) && c.slots[j].flag == P.Sent
    case VisitAgain => c.pc.SendPoll? && c.pc.j < |e.nets| && e.nets[c.pc.j].s.pc == R.Outstanding
    case Receive(_, j, p) => j < |e.nets| && E.Accepts(e.nets[j].s.ep, p.seqNo)
    case Ignore(t, j, p) => t < |c.workers| && c.workers[t] == P.Polling && j < |cfg.owner| && cfg.owner[j] == t
                            && j < |e.nets| && !E.Accepts(e.nets[j].s.ep, p.seqNo)
    case ClientRead(j, _) => j < P.N(c) && !c.slots[j].client.halted && Reads(c.slots[j].client.pc)
    case ClientHear(j) => j < |e.nets| && e.nets[j].c.ep.slot.Some?
    case ClientSpeak(j, body, _) => j < P.N(c) && body.kind == Answer(c.slots[j].client) && body.src == j + 1
    case ClientSpeakUnsent(j, body) =>
      && cfg.losesUp && j < P.N(c) && body.kind == Answer(c.slots[j].client) && body.src == j + 1
      && j < |e.nets| && e.nets[j].c.pc == R.Abandoned
    case ClientGiveUp(_, _) => cfg.losesUp
    case ClientRetry(j, _) => j < P.N(c) && !c.slots[j].client.halted
    case _ => true
  }

  predicate Enabled(cfg: P.Config, e: System, a: Action) {
    && Guard(cfg, e, a)
    && (StepOf(e, a).Some? ==> P.CoreEnabled(cfg, e.core, StepOf(e, a).value))
    && (NetActions(a) != [] ==>
          ConnOf(e, a) < |e.nets| && R.Exec(e.nets[ConnOf(e, a)], NetActions(a)).Some?)
  }

  function Next(cfg: P.Config, e: System, a: Action): System
    requires Enabled(cfg, e, a)
  {
    System(
      if StepOf(e, a).Some? then P.CoreNext(cfg, e.core, StepOf(e, a).value) else e.core,
      if NetActions(a) == [] then e.nets
      else e.nets[ConnOf(e, a) := R.Exec(e.nets[ConnOf(e, a)], NetActions(a)).value])
  }

  function Exec(cfg: P.Config, e: System, actions: seq<Action>): Option<System>
    decreases |actions|
  {
    if actions == [] then Some(e)
    else if Enabled(cfg, e, actions[0]) then Exec(cfg, Next(cfg, e, actions[0]), actions[1..])
    else None
  }
}
