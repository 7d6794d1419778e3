/** Two reliable-UDP ends joined by a network that loses, duplicates and reorders datagrams. */
module RudpChannel {
  import opened Protocol
  import opened RudpEndpoint

  /** Where an end stands in writing one message. The client process may give up on a write: ack_outstanding then
      stays set (Abandoned), the next message it stamps (Stale) is never sent, and after the success reported for that
      (Spent) its number stays unused. */
  datatype WritePc = Idle | Stamped | Unarmed | Outstanding | Abandoned | Stale | Spent

  /** One end, the datagrams in flight towards it, and the history of what it wrote and accepted.
      `retries` counts the retransmissions of the message being written. */
  datatype Side = Side(
    ep: Endpoint,
    pc: WritePc,
    inbox: multiset<Packet>,
    wrote: seq<Msg>,
    got: seq<Msg>,
    retries: nat)

  datatype Net = Net(c: Side, s: Side)

  // `client` names the end that acts; Lose and Duplicate act on the datagrams in flight towards it.
  datatype Action =
    | BeginWrite(client: bool, body: Msg)
    | FirstSend(client: bool, now: int)
    | ArmWrite(now: int)
    | Poll(client: bool)
    | Retransmit(client: bool, now: int)
    | GiveUp(now: int)
    | Deliver(client: bool, packet: Packet)
    | FinishRead(client: bool)
    | Lose(client: bool, packet: Packet)
    | Duplicate(client: bool, packet: Packet)

  function Me(n: Net, client: bool): Side { if client then n.c else n.s }

  function Put(n: Net, client: bool, me: Side): Net { if client then n.(c := me) else n.(s := me) }

  /** The client process writes its connect message, and then only in answer to a message it has taken: one accepted
      since it sent its last one (if it is idle, it has), since it gave that up, or since a write that was not sent.
      The coordinator writes when its last write was acknowledged, whether or not a worker is reading. */
  predicate MayBegin(x: Side) {
    && (x.ep.strict ==> x.ep.slot == None)
    && (x.pc == Idle || (x.pc == Abandoned && Acked(x.ep)) || (x.pc == Spent && x.ep.seqNo > x.ep.out.seqNo))
  }

  // The next timeout of the client's write is the last one. The connect message has no limit.
  predicate LastTry(x: Side) { |x.wrote| > 1 && x.retries + 1 >= RTOS_MAX }

  /** The coordinator first writes after it has accepted the connect message, that is with seqNo >= 0. The client
      process leaves its loop with the retransmission that reaches the limit (GiveUp). Its acknowledgement test and
      its retransmission are one step; the coordinator's are two, and a worker may accept a message in between. */
  predicate Enabled(n: Net, a: Action) {
    match a
    case BeginWrite(client, _) => MayBegin(Me(n, client)) && (!client ==> n.s.ep.seqNo >= 0)
    case FirstSend(client, _) => Me(n, client).pc == Stamped
    case ArmWrite(_) => n.s.pc == Unarmed
    case Poll(client) =>
      (Me(n, client).pc == Outstanding || Me(n, client).pc == Stale) && Acked(Me(n, client).ep)
    case Retransmit(client, _) => Me(n, client).pc == Outstanding && (client ==> !Acked(n.c.ep) && !LastTry(n.c))
    case GiveUp(_) => n.c.pc == Outstanding && !Acked(n.c.ep) && LastTry(n.c)
    case Deliver(client, p) => p in Me(n, client).inbox && Me(n, client).ep.slot.None?
    case FinishRead(client) => Me(n, client).ep.slot.Some?
    case Lose(client, p) => p in Me(n, client).inbox
    case Duplicate(client, p) => p in Me(n, client).inbox
  }

  function Begin(x: Side, body: Msg): Side {
    x.(ep := Stamp(x.ep, body), pc := if x.ep.armed then Stale else Stamped)
  }

  function Armed(x: Side, now: int): Side { x.(ep := Arm(x.ep, now), pc := Outstanding) }

  /** The coordinator's first send and the assignment of current_seq are two steps, because worker
      threads read the same connection in between; the client process is single-threaded. */
  function Launch(x: Side, now: int): Side {
    var sent := x.(pc := Unarmed, wrote := x.wrote + [x.ep.out.body], retries := 0);
    if x.ep.strict then Armed(sent, now) else sent
  }

  function Finish(x: Side): Side { x.(ep := x.ep.(armed := false), pc := if x.pc == Stale then Spent else Idle) }

  function Retry(x: Side, now: int): Side {
    x.(ep := Bump(x.ep).(tsStart := now), retries := x.retries + 1)
  }

  function Arrive(x: Side, p: Packet): Side { x.(inbox := x.inbox + multiset{p}) }

  function Drop(x: Side, p: Packet): Side { x.(inbox := x.inbox - multiset{p}) }

  function Take(x: Side, p: Packet): Side {
    if Accepts(x.ep, p.seqNo) then Drop(x, p).(ep := Accept(x.ep, p), got := x.got + [p.body]) else Drop(x, p)
  }

  function Next(n: Net, a: Action): Net {
    match a
    case BeginWrite(client, body) => Put(n, client, Begin(Me(n, client), body))
    case FirstSend(client, now) =>
      var me := Me(n, client);
      Put(Put(n, client, Launch(me, now)), !client, Arrive(Me(n, !client), me.ep.out))
    case ArmWrite(now) => n.(s := Armed(n.s, now))
    case Poll(client) => Put(n, client, Finish(Me(n, client)))
    case Retransmit(client, now) =>
      var me := Retry(Me(n, client), now);
      Put(Put(n, client, me), !client, Arrive(Me(n, !client), me.ep.out))
    case GiveUp(now) =>
      var me := Retry(n.c, now);
      Net(me.(pc := Abandoned), Arrive(n.s, me.ep.out))
    case Deliver(client, p) => Put(n, client, Take(Me(n, client), p))
    case FinishRead(client) =>
      var me := Me(n, client);
      Put(n, client, me.(ep := EndRead(me.ep)))
    case Lose(client, p) => Put(n, client, Drop(Me(n, client), p))
    case Duplicate(client, p) => Put(n, client, Arrive(Me(n, client), p))
  }

  function Init(outC: Packet, outS: Packet): Net {
    Net(Side(Start(true, outC), Idle, multiset{}, [], [], 0),
        Side(Start(false, outS), Idle, multiset{}, [], [], 0))
  }

  // Executes a list of actions; None when one of them is not enabled.
  function Exec(n: Net, actions: seq<Action>): Option<Net>
    decreases |actions|
  {
    if actions == [] then Some(n)
    else if Enabled(n, actions[0]) then Exec(Next(n, actions[0]), actions[1..])
    else None
  }

  lemma ExecOne(n: Net, a: Action)
    ensures Exec(n, [a]) == if Enabled(n, a) then Some(Next(n, a)) else None
  {
    assert [a][1..] == [];
  }

  lemma {:induction false} ExecConcat(n: Net, xs: seq<Action>, ys: seq<Action>)
    requires Exec(n, xs).Some?
    ensures Exec(n, xs + ys) == Exec(Exec(n, xs).value, ys)
    decreases |xs|
  {
    if xs == [] {
      assert xs + ys == ys;
    } else {
      assert (xs + ys)[1..] == xs[1..] + ys;
      ExecConcat(Next(n, xs[0]), xs[1..], ys);
    }
  }

  // The retransmission counter that an end advances itself.
  function OwnRto(strict: bool, m: Msg): nat { if strict then m.cRto else m.sRto }

  /** `m` is `orig` after `extra` retransmissions: nothing but the sender's own counter differs. */
  predicate CopyOf(strict: bool, m: Msg, orig: Msg, extra: int) {
    && OwnRto(strict, m) == OwnRto(strict, orig) + extra
    && (if strict then m.sRto == orig.sRto else m.cRto == orig.cRto)
    && m.kind == orig.kind && m.src == orig.src && m.ts == orig.ts
  }

  predicate SomeCopy(strict: bool, m: Msg, orig: Msg) {
    OwnRto(strict, m) >= OwnRto(strict, orig) && CopyOf(strict, m, orig, OwnRto(strict, m) - OwnRto(strict, orig))
  }

  // The write in progress against the numbers: message k is written under sequence number k.
  predicate WriterOk(ep: Endpoint, pc: WritePc, wrote: seq<Msg>, retries: nat) {
    var k := |wrote|;
    && ep.armed == (pc == Outstanding || pc == Abandoned || pc == Stale)
    && match pc
    case Idle => ep.seqNo == k || (!ep.strict && ep.seqNo == -1 && k == 0)
    case Stamped => ep.out.seqNo == ep.seqNo == k
    case Unarmed => !ep.strict && SendingLast(ep, wrote, retries)
    case Outstanding => SendingLast(ep, wrote, retries) && k - 1 <= ep.currentSeq <= ep.seqNo
                        && (ep.strict ==> ep.currentSeq == k - 1 && (k > 1 ==> retries < RTOS_MAX))
    case Abandoned => ep.strict && SendingLast(ep, wrote, retries) && ep.currentSeq == k - 1
    case Stale => ep.strict && 1 <= k && ep.out.seqNo == ep.seqNo == k && ep.currentSeq == k - 1
    case Spent => ep.strict && 1 <= k && ep.out.seqNo == ep.seqNo == k && ep.currentSeq == k - 1
  }

  predicate SendingLast(ep: Endpoint, wrote: seq<Msg>, retries: nat) {
    var k := |wrote|;
    && 1 <= k && ep.out.seqNo == k - 1 && k - 1 <= ep.seqNo <= k
    && CopyOf(ep.strict, ep.out.body, wrote[k - 1], retries)
  }

  // What arrived, and the number that counts it.
  predicate ReaderOk(ep: Endpoint, got: seq<Msg>) {
    && |got| == (if ep.strict then ep.seqNo else ep.seqNo + 1)
    && (ep.slot.Some? ==> got != [] && ep.slot.value.body == got[|got| - 1])
  }

  // Every datagram in flight is a copy of the message written under its number.
  predicate InFlightOk(strict: bool, wrote: seq<Msg>, inbox: multiset<Packet>) {
    forall p :: p in inbox ==> 0 <= p.seqNo < |wrote| && SomeCopy(strict, p.body, wrote[p.seqNo])
  }

  // What was delivered is, in order and once each, copies of what was written.
  predicate DeliveredOk(strict: bool, wrote: seq<Msg>, got: seq<Msg>) {
    |got| <= |wrote| && forall j :: 0 <= j < |got| ==> SomeCopy(strict, got[j], wrote[j])
  }

  predicate Lockstep(n: Net) {
    -1 <= n.s.ep.seqNo <= n.c.ep.seqNo <= n.s.ep.seqNo + 1
  }

  // Everything about the messages that `x` writes and `y` reads.
  predicate Half(x: Side, y: Side) {
    && WriterOk(x.ep, x.pc, x.wrote, x.retries)
    && InFlightOk(x.ep.strict, x.wrote, y.inbox)
    && DeliveredOk(x.ep.strict, x.wrote, y.got)
    && ReaderOk(y.ep, y.got)
  }

  predicate Inv(n: Net) {
    n.c.ep.strict && !n.s.ep.strict && Lockstep(n) && Half(n.c, n.s) && Half(n.s, n.c)
  }

  lemma LaunchKeepsHalf(x: Side, y: Side, now: int)
    requires x.pc == Stamped && Half(x, y)
    ensures Half(Launch(x, now), Arrive(y, x.ep.out))
  {
  }

  lemma RetryKeepsHalf(x: Side, y: Side, now: int)
    requires x.pc == Outstanding && Half(x, y) && (x.ep.strict ==> !LastTry(x))
    ensures Half(Retry(x, now), Arrive(y, Retry(x, now).ep.out))
  {
  }

  lemma LastTryKeepsHalf(x: Side, y: Side, now: int)
    requires x.pc == Outstanding && Half(x, y) && x.ep.strict
    ensures Half(Retry(x, now).(pc := Abandoned), Arrive(y, Retry(x, now).ep.out))
  {
  }

  // What an end reads is not affected by its own retransmission.
  lemma RetryKeepsReading(x: Side, y: Side, now: int, p: Packet)
    requires x.pc == Outstanding && Half(y, x)
    ensures Half(Arrive(y, p), Retry(x, now))
  {
  }

  lemma NetworkKeepsHalf(x: Side, y: Side, p: Packet)
    requires p in y.inbox && Half(x, y)
    ensures Half(x, Drop(y, p)) && Half(x, Arrive(y, p))
  {
  }

  lemma TakeKeepsHalf(x: Side, y: Side, p: Packet)
    requires p in y.inbox && Half(x, y)
    requires Accepts(y.ep, p.seqNo) ==> p.seqNo == |y.got|
    ensures Half(x, Take(y, p))
  {
  }

  /** The coordinator's permissive test never skips: whatever either end accepts is the next number. */
  lemma AcceptedIsNext(n: Net, client: bool, p: Packet)
    requires Inv(n) && p in Me(n, client).inbox && Accepts(Me(n, client).ep, p.seqNo)
    ensures p.seqNo == |Me(n, client).got|
    ensures var me := Me(n, client).ep; Accept(me, p).seqNo == me.seqNo + 1
  {
  }

  lemma SendKeepsInv(n: Net, client: bool, now: int)
    requires Inv(n) && Enabled(n, FirstSend(client, now))
    ensures Inv(Next(n, FirstSend(client, now)))
  {
    LaunchKeepsHalf(Me(n, client), Me(n, !client), now);
  }

  lemma RetransmitKeepsInv(n: Net, client: bool, now: int)
    requires Inv(n) && Enabled(n, Retransmit(client, now))
    ensures Inv(Next(n, Retransmit(client, now)))
  {
    var me, peer := Me(n, client), Me(n, !client);
    RetryKeepsHalf(me, peer, now);
    RetryKeepsReading(me, peer, now, Retry(me, now).ep.out);
  }

  lemma GiveUpKeepsInv(n: Net, now: int)
    requires Inv(n) && Enabled(n, GiveUp(now))
    ensures Inv(Next(n, GiveUp(now)))
  {
    LastTryKeepsHalf(n.c, n.s, now);
    RetryKeepsReading(n.c, n.s, now, Retry(n.c, now).ep.out);
  }

  lemma NetworkKeepsInv(n: Net, a: Action)
    requires Inv(n) && Enabled(n, a) && (a.Lose? || a.Duplicate?)
    ensures Inv(Next(n, a))
  {
    NetworkKeepsHalf(Me(n, !a.client), Me(n, a.client), a.packet);
  }

  lemma DeliverKeepsInv(n: Net, client: bool, p: Packet)
    requires Inv(n) && Enabled(n, Deliver(client, p))
    ensures Inv(Next(n, Deliver(client, p)))
  {
    if Accepts(Me(n, client).ep, p.seqNo) {
      AcceptedIsNext(n, client, p);
    }
    TakeKeepsHalf(Me(n, !client), Me(n, client), p);
  }

  lemma BeginKeepsInv(n: Net, client: bool, body: Msg)
    requires Inv(n) && Enabled(n, BeginWrite(client, body))
    ensures Inv(Next(n, BeginWrite(client, body)))
  {
  }

  lemma PollKeepsInv(n: Net, client: bool)
    requires Inv(n) && Enabled(n, Poll(client))
    ensures Inv(Next(n, Poll(client)))
  {
  }

  lemma FinishReadKeepsInv(n: Net, client: bool)
    requires Inv(n) && Enabled(n, FinishRead(client))
    ensures Inv(Next(n, FinishRead(client)))
  {
  }

  lemma StepKeepsInv(n: Net, a: Action)
    requires Inv(n) && Enabled(n, a)
    ensures Inv(Next(n, a))
  {
    match a
    case FirstSend(client, now) => SendKeepsInv(n, client, now);
    case Retransmit(client, now) => RetransmitKeepsInv(n, client, now);
    case Deliver(client, p) => DeliverKeepsInv(n, client, p);
    case Lose(_, _) => NetworkKeepsInv(n, a);
    case Duplicate(_, _) => NetworkKeepsInv(n, a);
    case BeginWrite(client, body) => BeginKeepsInv(n, client, body);
    case Poll(client) => PollKeepsInv(n, client);
    case FinishRead(client) => FinishReadKeepsInv(n, client);
    case GiveUp(now) => GiveUpKeepsInv(n, now);
    case ArmWrite(_) =>
  }

  lemma {:induction false} RunKeepsInv(n: Net, actions: seq<Action>)
    requires Inv(n) && Exec(n, actions).Some?
    ensures Inv(Exec(n, actions).value)
    decreases |actions|
  {
    if actions != [] {
      StepKeepsInv(n, actions[0]);
      RunKeepsInv(Next(n, actions[0]), actions[1..]);
    }
  }

  /** In every reachable state each end has been handed, in order and exactly once each, copies of a prefix
      of what the other end wrote, and the two sequence numbers are in lockstep. */
  lemma DeliveryIsExactlyOnce(outC: Packet, outS: Packet, actions: seq<Action>)
    requires Exec(Init(outC, outS), actions).Some?
    ensures var n := Exec(Init(outC, outS), actions).value;
      && Lockstep(n)
      && DeliveredOk(true, n.c.wrote, n.s.got) && DeliveredOk(false, n.s.wrote, n.c.got)
      && |n.c.got| == n.c.ep.seqNo && |n.s.got| == n.s.ep.seqNo + 1
      && (forall p :: p in n.s.inbox ==> p.seqNo <= n.c.ep.seqNo)
      && (forall p :: p in n.c.inbox ==> p.seqNo <= n.s.ep.seqNo)
  {
    RunKeepsInv(Init(outC, outS), actions);
  }

  /** What a successful end_write stands for: the peer holds everything that was ever sent. The message it is
      reported for is the last of that if the write was sent at all; a stale one comes after it. */
  predicate SuccessMeans(me: Side, peer: Side, client: bool) {
    && |peer.got| == |me.wrote| > 0
    && SomeCopy(client, peer.got[|peer.got| - 1], me.wrote[|me.wrote| - 1])
    && (me.pc == Outstanding ==>
          me.ep.out.seqNo == |me.wrote| - 1 && SomeCopy(client, me.ep.out.body, me.wrote[|me.wrote| - 1]))
    && (me.pc == Stale ==> me.ep.out.seqNo == |me.wrote|)
  }

  lemma AckedMeansAccepted(n: Net, client: bool)
    requires Inv(n) && Enabled(n, Poll(client))
    ensures SuccessMeans(Me(n, client), Me(n, !client), client)
  {
  }

  /** When end_write reports success the peer has accepted everything sent so far, although only the local number
      was looked at; and that includes the message just written exactly if it was sent. */
  lemma AcknowledgementIsSound(outC: Packet, outS: Packet, actions: seq<Action>, client: bool)
    requires Exec(Init(outC, outS), actions).Some?
    requires Enabled(Exec(Init(outC, outS), actions).value, Poll(client))
    ensures var n := Exec(Init(outC, outS), actions).value; SuccessMeans(Me(n, client), Me(n, !client), client)
  {
    RunKeepsInv(Init(outC, outS), actions);
    AckedMeansAccepted(Exec(Init(outC, outS), actions).value, client);
  }

  // A perfect queue: written messages enter at the back, accepted ones leave at the front.
  datatype Event = Push(m: Msg) | Pop(m: Msg) | Silent

  predicate QueueStep(strict: bool, q: seq<Msg>, e: Event, q': seq<Msg>) {
    match e
    case Push(m) => q' == q + [m]
    case Pop(m) => q != [] && q' == q[1..] && SomeCopy(strict, m, q[0])
    case Silent => q' == q
  }

  // The messages that `client` (or the coordinator) wrote and its peer has not accepted.
  function Queue(n: Net, client: bool): seq<Msg>
    requires |Me(n, !client).got| <= |Me(n, client).wrote|
  {
    Me(n, client).wrote[|Me(n, !client).got|..]
  }

  // What an action does to the queue filled by `client`.
  function Effect(n: Net, a: Action, client: bool): Event {
    match a
    case FirstSend(me, _) => if me == client then Push(Me(n, client).ep.out.body) else Silent
    case Deliver(me, p) => if me != client && Accepts(Me(n, me).ep, p.seqNo) then Pop(p.body) else Silent
    case _ => Silent
  }

  lemma AcceptedIsHead(n: Net, client: bool, p: Packet)
    requires Inv(n) && p in Me(n, client).inbox && Accepts(Me(n, client).ep, p.seqNo)
    ensures |Me(n, client).got| < |Me(n, !client).wrote|
    ensures SomeCopy(!client, p.body, Queue(n, !client)[0])
  {
    AcceptedIsNext(n, client, p);
  }

  // How one action extends the two histories, whatever the state.
  predicate Extends(n: Net, a: Action, client: bool) {
    var e := Effect(n, a, client);
    var n' := Next(n, a);
    && Me(n', client).wrote == (if e.Push? then Me(n, client).wrote + [e.m] else Me(n, client).wrote)
    && Me(n', !client).got == (if e.Pop? then Me(n, !client).got + [e.m] else Me(n, !client).got)
  }

  lemma HistoryOfDeliver(n: Net, me: bool, p: Packet, client: bool)
    ensures Extends(n, Deliver(me, p), client)
  {
    assert Next(n, Deliver(me, p)) == Put(n, me, Take(Me(n, me), p));
  }

  lemma HistoryOfSend(n: Net, a: Action, client: bool)
    requires a.FirstSend? || a.Retransmit?
    ensures Extends(n, a, client)
  {
    if a.client == client {
      assert Me(Next(n, a), client) ==
        if a.FirstSend? then Launch(Me(n, client), a.now) else Retry(Me(n, client), a.now);
    }
  }

  lemma HistoryOfRest(n: Net, a: Action, client: bool)
    requires !a.Deliver? && !a.FirstSend? && !a.Retransmit?
    ensures Extends(n, a, client)
  {
  }

  lemma HistoryOf(n: Net, a: Action, client: bool)
    ensures Extends(n, a, client)
  {
    if a.Deliver? {
      HistoryOfDeliver(n, a.client, a.packet, client);
    } else if a.FirstSend? || a.Retransmit? {
      HistoryOfSend(n, a, client);
    } else {
      HistoryOfRest(n, a, client);
    }
  }

  lemma Counted(n: Net, client: bool)
    requires Inv(n)
    ensures |Me(n, !client).got| <= |Me(n, client).wrote|
  {
  }

  lemma SliceStep(strict: bool, wrote: seq<Msg>, got: seq<Msg>, e: Event)
    requires |got| <= |wrote|
    requires e.Pop? ==> |got| < |wrote| && SomeCopy(strict, e.m, wrote[|got|])
    ensures var wrote' := if e.Push? then wrote + [e.m] else wrote;
      var got' := if e.Pop? then got + [e.m] else got;
      QueueStep(strict, wrote[|got|..], e, wrote'[|got'|..])
  {
  }

  /** Every action over the faulty network is a push, a pop or nothing on a perfect queue, both ways. */
  lemma RefinesQueue(n: Net, a: Action, client: bool)
    requires Inv(n) && Enabled(n, a)
    ensures |Me(n, !client).got| <= |Me(n, client).wrote|
    ensures |Me(Next(n, a), !client).got| <= |Me(Next(n, a), client).wrote|
    ensures QueueStep(client, Queue(n, client), Effect(n, a, client), Queue(Next(n, a), client))
  {
    Counted(n, client);
    HistoryOf(n, a, client);
    var e := Effect(n, a, client);
    if e.Pop? {
      AcceptedIsHead(n, !client, a.packet);
    }
    SliceStep(client, Me(n, client).wrote, Me(n, !client).got, e);
  }
}
