/** What the protocol sees of one reliable-UDP connection: two queues of message kinds. */
module ConnectionView {
  import opened Protocol
  import opened RudpEndpoint
  import opened RudpChannel
  import TwoPhase

  function Kinds(q: seq<Msg>): seq<Kind> { seq(|q|, i requires 0 <= i < |q| => q[i].kind) }

  function Backlog(wrote: seq<Msg>, from: nat): seq<Kind> {
    if from <= |wrote| then Kinds(wrote[from..]) else []
  }

  // Messages the application has taken: an accepted one waits in the slot until end_read.
  function Taken(x: Side): nat { if x.ep.slot.Some? && x.got != [] then |x.got| - 1 else |x.got| }

  /** Messages to the client stay queued until it takes them;
      messages to the coordinator until a worker accepts them. */
  function View(n: Net): TwoPhase.Chan {
    TwoPhase.Chan(Backlog(n.s.wrote, Taken(n.c)), Backlog(n.c.wrote, |n.s.got|))
  }

  // Nothing that the view or the protocol looks at changes.
  predicate Quiet(n: Net, n': Net) {
    && n'.c.wrote == n.c.wrote && n'.s.wrote == n.s.wrote
    && n'.s.got == n.s.got && n'.s.ep.slot == n.s.ep.slot
    && Taken(n'.c) == Taken(n.c)
  }

  predicate SamePcs(n: Net, n': Net) {
    n'.c.pc == n.c.pc && n'.s.pc == n.s.pc && n'.s.ep.out.body.kind == n.s.ep.out.body.kind
  }

  // The client's end stands where it stood, as far as its program can tell.
  predicate ClientKept(n: Net, n': Net) {
    n'.c.pc == n.c.pc && n'.c.ep.slot == n.c.ep.slot && Acked(n'.c.ep) == Acked(n.c.ep)
  }

  lemma BacklogPush(wrote: seq<Msg>, from: nat, m: Msg)
    requires from <= |wrote|
    ensures Backlog(wrote + [m], from) == Backlog(wrote, from) + [m.kind]
  {
    assert (wrote + [m])[from..] == wrote[from..] + [m];
  }

  lemma BacklogPop(wrote: seq<Msg>, from: nat)
    requires from < |wrote|
    ensures Backlog(wrote, from) != [] && Backlog(wrote, from)[0] == wrote[from].kind
    ensures Backlog(wrote, from + 1) == Backlog(wrote, from)[1..]
  {
    assert wrote[from..][1..] == wrote[from + 1..];
  }

  lemma RetransmitChangesNothingSeen(n: Net, client: bool, now: int)
    requires Enabled(n, Retransmit(client, now))
    ensures Quiet(n, Next(n, Retransmit(client, now))) && SamePcs(n, Next(n, Retransmit(client, now)))
    ensures ClientKept(n, Next(n, Retransmit(client, now)))
  {
    if client {
      assert Next(n, Retransmit(client, now)).c == Retry(n.c, now);
    } else {
      assert Next(n, Retransmit(client, now)).s == Retry(n.s, now);
    }
  }

  lemma NetworkChangesNothingSeen(n: Net, a: Action)
    requires a.Lose? || a.Duplicate?
    ensures Quiet(n, Next(n, a)) && SamePcs(n, Next(n, a)) && ClientKept(n, Next(n, a))
  {
  }

  // Retransmissions, the network's mischief, and the bookkeeping of writes are invisible.
  lemma NetworkIsInvisible(n: Net, a: Action)
    requires Inv(n) && Enabled(n, a) && (a.Retransmit? || a.Lose? || a.Duplicate?)
    ensures Inv(Next(n, a)) && Quiet(n, Next(n, a)) && SamePcs(n, Next(n, a)) && ClientKept(n, Next(n, a))
  {
    StepKeepsInv(n, a);
    if a.Retransmit? {
      RetransmitChangesNothingSeen(n, a.client, a.now);
    } else {
      NetworkChangesNothingSeen(n, a);
    }
  }

  lemma StampIsInvisible(n: Net, body: Msg)
    requires Inv(n) && Enabled(n, BeginWrite(false, body))
    ensures var n' := Next(n, BeginWrite(false, body));
      && Inv(n') && Quiet(n, n') && ClientKept(n, n') && n'.s.pc == Stamped && n'.s.ep.out.body == body
  {
    StepKeepsInv(n, BeginWrite(false, body));
  }

  lemma FirstSendPushes(n: Net, now: int)
    requires Inv(n) && Enabled(n, FirstSend(false, now))
    ensures var n' := Next(n, FirstSend(false, now));
      && Inv(n') && ClientKept(n, n') && n'.s.pc == Unarmed
      && n'.c.wrote == n.c.wrote && n'.s.got == n.s.got && n'.s.ep.slot == n.s.ep.slot
      && View(n') == View(n).(down := View(n).down + [n.s.ep.out.body.kind])
  {
    StepKeepsInv(n, FirstSend(false, now));
    Counted(n, false);
    BacklogPush(n.s.wrote, Taken(n.c), n.s.ep.out.body);
  }

  lemma ArmIsInvisible(n: Net, now: int)
    requires Inv(n) && Enabled(n, ArmWrite(now))
    ensures var n' := Next(n, ArmWrite(now));
      && Inv(n') && Quiet(n, n') && ClientKept(n, n') && n'.s.pc == Outstanding
  {
    StepKeepsInv(n, ArmWrite(now));
  }

  lemma PollIsInvisible(n: Net, client: bool)
    requires Inv(n) && Enabled(n, Poll(client))
    ensures var n' := Next(n, Poll(client));
      && Inv(n') && Quiet(n, n') && Me(n', !client).pc == Me(n, !client).pc
      && Me(n', client).pc == (if Me(n, client).pc == Stale then Spent else Idle)
      && (Me(n, client).pc == Stale ==> client)
      && n'.s.ep.out == n.s.ep.out && n'.c.ep.slot == n.c.ep.slot && Acked(n'.c.ep) == Acked(n.c.ep)
  {
    StepKeepsInv(n, Poll(client));
  }

  lemma CoordinatorAcceptPops(n: Net, p: Packet)
    requires Inv(n) && Enabled(n, Deliver(false, p)) && Accepts(n.s.ep, p.seqNo)
    ensures var n' := Next(n, Deliver(false, p));
      && Inv(n') && SamePcs(n, n') && ClientKept(n, n')
      && n'.s.got != [] && n'.s.ep.slot.Some? && n'.c.wrote == n.c.wrote
      && View(n).up != [] && View(n).up[0] == p.body.kind
      && View(n') == View(n).(up := View(n).up[1..])
    ensures |n.s.got| < |n.c.wrote| && p.body.src == n.c.wrote[|n.s.got|].src
  {
    StepKeepsInv(n, Deliver(false, p));
    AcceptedIsHead(n, false, p);
    BacklogPop(n.c.wrote, |n.s.got|);
  }

  lemma DropIsInvisible(n: Net, client: bool, p: Packet)
    requires Inv(n) && Enabled(n, Deliver(client, p)) && !Accepts(Me(n, client).ep, p.seqNo)
    ensures var n' := Next(n, Deliver(client, p)); Inv(n') && Quiet(n, n') && SamePcs(n, n') && ClientKept(n, n')
  {
    StepKeepsInv(n, Deliver(client, p));
  }

  // The client accepts into its slot, possibly inside end_write; the message stays queued.
  lemma ClientAcceptIsInvisible(n: Net, p: Packet)
    requires Inv(n) && Enabled(n, Deliver(true, p)) && Accepts(n.c.ep, p.seqNo)
    ensures var n' := Next(n, Deliver(true, p));
      && Inv(n') && Quiet(n, n') && SamePcs(n, n') && n.c.ep.slot == None
      && (n.c.ep.armed ==> Acked(n'.c.ep)) && n.c.pc != Stale && n.c.pc != Spent
  {
    StepKeepsInv(n, Deliver(true, p));
  }

  lemma EndReadIsInvisible(n: Net)
    requires Inv(n) && Enabled(n, FinishRead(false))
    ensures var n' := Next(n, FinishRead(false));
      && Inv(n') && SamePcs(n, n') && ClientKept(n, n')
      && n'.s.ep.slot.None? && n'.s.got == n.s.got && n'.c.wrote == n.c.wrote
      && View(n') == View(n)
  {
    StepKeepsInv(n, FinishRead(false));
  }

  lemma SlotIsHead(n: Net)
    requires Inv(n) && n.c.ep.slot.Some?
    ensures n.c.got != [] && Taken(n.c) == |n.c.got| - 1 < |n.s.wrote|
    ensures n.c.ep.slot.value.body.kind == n.s.wrote[|n.c.got| - 1].kind
  {
  }

  lemma ClientTakePops(n: Net)
    requires Inv(n) && Enabled(n, FinishRead(true))
    ensures var n' := Next(n, FinishRead(true));
      && Inv(n') && SamePcs(n, n') && n'.s == n.s && n'.c.wrote == n.c.wrote
      && n'.c.ep.slot == None && Acked(n'.c.ep) == Acked(n.c.ep)
      && View(n).down != [] && View(n).down[0] == n.c.ep.slot.value.body.kind
      && View(n') == View(n).(down := View(n).down[1..])
  {
    StepKeepsInv(n, FinishRead(true));
    SlotIsHead(n);
    BacklogPop(n.s.wrote, Taken(n.c));
  }

  lemma ClientSpeakPushes(n: Net, body: Msg, now: int)
    requires Inv(n) && n.c.pc == Idle && n.c.ep.slot == None
    ensures Enabled(n, BeginWrite(true, body)) && Enabled(Next(n, BeginWrite(true, body)), FirstSend(true, now))
    ensures var n' := Next(Next(n, BeginWrite(true, body)), FirstSend(true, now));
      && Inv(n') && n'.c.pc == Outstanding && n'.c.ep.slot == n.c.ep.slot
      && n'.s.pc == n.s.pc && n'.s.ep == n.s.ep && n'.s.got == n.s.got
      && n'.c.wrote == n.c.wrote + [body]
      && View(n') == View(n).(up := View(n).up + [body.kind])
  {
    var n1 := Next(n, BeginWrite(true, body));
    StepKeepsInv(n, BeginWrite(true, body));
    StepKeepsInv(n1, FirstSend(true, now));
    Counted(n, true);
    BacklogPush(n.c.wrote, |n.s.got|, body);
  }

  // The last retransmission, and giving up after it: nothing has been accepted since the message was sent.
  lemma GiveUpIsInvisible(n: Net, now: int)
    requires Inv(n) && Enabled(n, GiveUp(now))
    ensures var n' := Next(n, GiveUp(now));
      && Inv(n') && Quiet(n, n') && n'.c.pc == Abandoned && n'.s.pc == n.s.pc && n'.s.ep == n.s.ep
      && n'.c.ep.slot == n.c.ep.slot && !Acked(n'.c.ep) && !Acked(n.c.ep)
  {
    StepKeepsInv(n, GiveUp(now));
  }

  // The write after one given up reaches nobody.
  lemma UnsentIsInvisible(n: Net, body: Msg)
    requires Inv(n) && Enabled(n, BeginWrite(true, body)) && n.c.pc == Abandoned
    ensures var n' := Next(n, BeginWrite(true, body));
      && Inv(n') && Quiet(n, n') && n'.c.pc == Stale && n'.s == n.s && n'.c.ep.slot == n.c.ep.slot && Acked(n'.c.ep)
  {
    StepKeepsInv(n, BeginWrite(true, body));
  }

  // What neither the protocol nor the coordinator's worker gets to see.
  predicate Silent(n: Net, a: Action) {
    match a
    case Retransmit(_, _) => true
    case Lose(_, _) => true
    case Duplicate(_, _) => true
    case Deliver(client, p) => client || !Accepts(n.s.ep, p.seqNo)
    case _ => false
  }

  lemma SilentIsInvisible(n: Net, a: Action)
    requires Inv(n) && Enabled(n, a) && Silent(n, a)
    ensures Quiet(n, Next(n, a)) && SamePcs(n, Next(n, a))
    ensures ClientKept(n, Next(n, a)) ||
      (a.Deliver? && a.client && n.c.ep.slot == None && (n.c.ep.armed ==> Acked(Next(n, a).c.ep))
       && n.c.pc != Stale && n.c.pc != Spent)
  {
    if !a.Deliver? {
      NetworkIsInvisible(n, a);
    } else if Accepts(Me(n, a.client).ep, a.packet.seqNo) {
      ClientAcceptIsInvisible(n, a.packet);
    } else {
      DropIsInvisible(n, a.client, a.packet);
    }
  }
}
