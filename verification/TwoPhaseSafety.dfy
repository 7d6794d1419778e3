/** Safety of two-phase commit under every interleaving, message loss, timeouts and stop signals. */
module TwoPhaseSafety {
  import opened Protocol
  import opened TwoPhase

  // Client j voted yes (no) in round r.
  predicate Yes(x: Slot, r: nat) { r < |x.client.votes| && x.client.votes[r] }

  predicate No(x: Slot, r: nat) { r < |x.client.votes| && !x.client.votes[r] }

  predicate AllYes(slots: seq<Slot>, r: nat) { forall j :: 0 <= j < |slots| ==> Yes(slots[j], r) }

  predicate SomeNo(slots: seq<Slot>, r: nat) { exists j :: 0 <= j < |slots| && No(slots[j], r) }

  // Acknowledgements written so far; a delivered decision is acknowledged one step later.
  function Acks(cl: Client): int { if cl.pc == SendAck then |cl.acted| - 1 else |cl.acted| }

  predicate ClientOk(r: nat, cl: Client) {
    var v, d := |cl.votes|, |cl.acted|;
    && r <= d <= v <= r + 1
    && match cl.pc
    case AwaitRequest => v == d
    case AckWritten => v == d
    case CastVote(_) => v == d == r
    case VoteWritten => v == r + 1 && d == r
    case AwaitDecision => v == r + 1 && d == r
    case SendAck => v == d == r + 1
  }

  // The request of round r is on its way, or the decision is.
  predicate MayHoldRequest(r: nat, cl: Client, asked: nat) {
    asked == r + 1 && |cl.votes| == r && (cl.pc == AwaitRequest || cl.pc == AckWritten)
  }

  predicate MayHoldOrder(r: nat, cl: Client, orders: seq<bool>) { |orders| == r + 1 && |cl.acted| == r }

  predicate DownOk(r: nat, cl: Client, asked: nat, orders: seq<bool>, down: seq<Kind>) {
    || down == []
    || (MayHoldRequest(r, cl, asked) && down == [Request])
    || (MayHoldOrder(r, cl, orders) && down == [OrderKind(orders[r])])
    || (MayHoldRequest(r, cl, asked) && MayHoldOrder(r, cl, orders) && down == [Request, OrderKind(orders[r])])
  }

  function Held(held: Option<Kind>): seq<Kind> { if held.Some? then [held.value] else [] }

  // What travels to the scoreboard: the message a worker holds, then the channel.
  predicate UpOk(r: nat, cl: Client, up: seq<Kind>) {
    || up == []
    || (|cl.votes| == r + 1 && up == [VoteKind(cl.votes[r])])
    || (Acks(cl) == r + 1 && up == [Ack])
    || (Acks(cl) == r + 1 && |cl.votes| == r + 1 && up == [VoteKind(cl.votes[r]), Ack])
  }

  predicate BoardOk(r: nat, second: bool, cl: Client, board: Kind, up: seq<Kind>) {
    || board == Lost
    || (|cl.votes| == r + 1 && board == VoteKind(cl.votes[r]))
    || (second && Acks(cl) == r + 1 && board == Ack && up == [])
  }

  // Everything about one client and its channels in round r; `wiped` says its slot was reset in this phase.
  predicate LinkInv(r: nat, second: bool, verdict: Status, wiped: bool, x: Slot, ch: Chan) {
    && ClientOk(r, x.client)
    && r <= |x.orders| <= x.asked <= r + 1
    && (|x.client.votes| == r + 1 || x.client.pc.CastVote? ==> x.asked == r + 1)
    && x.client.acted <= x.orders
    && (|x.orders| == r + 1 ==> second && x.orders[r] == (verdict == RequestSuccess))
    && DownOk(r, x.client, x.asked, x.orders, ch.down)
    && UpOk(r, x.client, Held(x.held) + ch.up)
    && (wiped ==> BoardOk(r, second, x.client, x.board, Held(x.held) + ch.up))
  }

  predicate Wiped(pc: CoordPc, j: nat) { pc != Term && (pc.Reset? ==> j < pc.i) }

  // Client j has finished round r and nothing is in flight to or from it.
  predicate Synced(r: nat, x: Slot, ch: Chan) {
    && |x.client.votes| == |x.client.acted| == Acks(x.client) == r + 1
    && |x.orders| == r + 1 && ch.down == [] && Held(x.held) + ch.up == []
  }

  predicate SyncedBelow(s: Cluster, i: nat) {
    forall j :: 0 <= j < i && j < N(s.core) && j < |s.chans| ==> Synced(s.core.round, s.core.slots[j], s.chans[j])
  }

  predicate YesBelow(slots: seq<Slot>, r: nat, i: nat) {
    forall j :: 0 <= j < i && j < |slots| ==> Yes(slots[j], r)
  }

  // The broadcast of the current phase has been written to this connection.
  predicate WrittenTo(second: bool, r: nat, x: Slot) { if second then |x.orders| == r + 1 else x.asked == r + 1 }

  predicate NoneSent(slots: seq<Slot>, second: bool, r: nat) {
    forall j :: 0 <= j < |slots| ==> !WrittenTo(second, r, slots[j])
  }

  predicate FlagsTell(slots: seq<Slot>, second: bool, r: nat) {
    forall j :: 0 <= j < |slots| ==>
      (WrittenTo(second, r, slots[j]) <==> slots[j].flag == Sent || slots[j].flag == Finished)
  }

  predicate NoneFresh(slots: seq<Slot>) { forall j :: 0 <= j < |slots| ==> slots[j].flag != Fresh }

  predicate AllAsked(slots: seq<Slot>, r: nat) { forall j :: 0 <= j < |slots| ==> slots[j].asked == r + 1 }

  // What phase 1 left behind for phase 2.
  predicate VerdictOk(slots: seq<Slot>, r: nat, verdict: Status, stop: bool) {
    && (verdict == RequestSuccess || verdict == RequestFail || verdict == ClusterFail)
    && (stop || AllAsked(slots, r))
    && (verdict == RequestSuccess ==> stop || AllYes(slots, r))
    && (verdict == RequestFail ==> SomeNo(slots, r))
  }

  // What a scan that read the slots below i has established.
  predicate ScanOk(s: Cluster, i: nat) {
    var c := s.core;
    if c.second then
      && (c.result == CommitSuccess || c.result == ClusterFail)
      && (c.result == CommitSuccess ==> SyncedBelow(s, i))
    else
      && (c.result == RequestSuccess || c.result == RequestFail || c.result == ClusterFail)
      && (c.result == RequestSuccess ==> YesBelow(c.slots, c.round, i))
      && (c.result == RequestFail ==> SomeNo(c.slots, c.round))
  }

  predicate ScanDone(s: Cluster) {
    var c := s.core;
    if c.second then
      && (c.result == CommitSuccess || c.result == ClusterFail)
      && (c.result == CommitSuccess ==> c.stop || SyncedBelow(s, N(c)))
    else
      && (c.result == RequestSuccess || c.result == RequestFail || c.result == ClusterFail)
      && (c.result == RequestSuccess ==> c.stop || AllYes(c.slots, c.round))
      && (c.result == RequestFail ==> SomeNo(c.slots, c.round))
  }

  // A write is possible: in phase 2 the scan of phase 1 was complete.
  predicate MayWrite(c: Core) {
    && FlagsTell(c.slots, c.second, c.round) && NoneFresh(c.slots)
    && (c.second ==> AllAsked(c.slots, c.round) && (c.verdict == RequestSuccess ==> AllYes(c.slots, c.round)))
  }

  predicate CoordInv(s: Cluster) {
    var c := s.core;
    && (c.second && !c.pc.Term? ==> VerdictOk(c.slots, c.round, c.verdict, c.stop))
    && (c.second && !c.pc.Term? && !c.pc.Reset? ==> c.verdict != ClusterFail)
    && match c.pc
    case Reset(i) => i <= N(c) && NoneSent(c.slots, c.second, c.round)
    case Prep => FlagsTell(c.slots, c.second, c.round)
    case SendCheck => FlagsTell(c.slots, c.second, c.round) && (c.stop || NoneFresh(c.slots))
    case SendAct => MayWrite(c)
    case SendPoll(j) => MayWrite(c) && j < N(c) && c.slots[j].flag == Sent
    case WaitTop => c.stop || AllAsked(c.slots, c.round)
    case WaitSum(_, _) => c.stop || AllAsked(c.slots, c.round)
    case Pausing => c.stop || AllAsked(c.slots, c.round)
    case ScanCheck(i) => (c.stop || AllAsked(c.slots, c.round)) && i <= N(c) && ScanOk(s, i)
    case ScanRead(i) => (c.stop || AllAsked(c.slots, c.round)) && i < N(c) && ScanOk(s, i)
    case ZeroCount(_) => (c.stop || AllAsked(c.slots, c.round)) && ScanDone(s)
    case Unpausing => (c.stop || AllAsked(c.slots, c.round)) && ScanDone(s)
    case RoundEnd => c.second && (c.stop || SyncedBelow(s, N(c)))
    case Term => true
  }

  // A worker that is about to score a message holds it, and every held message has its worker.
  predicate WorkersOk(cfg: Config, c: Core) {
    && |c.workers| == |c.counts| == cfg.threads && N(c) == |cfg.owner|
    && (forall t :: 0 <= t < cfg.threads && c.workers[t].Got? ==>
          c.workers[t].j < N(c) && cfg.owner[c.workers[t].j] == t && c.slots[c.workers[t].j].held.Some?)
    && (forall j :: 0 <= j < N(c) && c.slots[j].held.Some? ==>
          cfg.owner[j] < cfg.threads && c.workers[cfg.owner[j]] == Got(j))
  }

  predicate LinksOk(s: Cluster) {
    && |s.chans| == N(s.core)
    && forall j :: 0 <= j < N(s.core) ==>
         LinkInv(s.core.round, s.core.second, s.core.verdict, Wiped(s.core.pc, j), s.core.slots[j], s.chans[j])
  }

  // Every decision ever written follows from the votes of its own round.
  predicate OrderOk(slots: seq<Slot>, r: nat, commit: bool) {
    if commit then AllYes(slots, r) else SomeNo(slots, r)
  }

  predicate OrdersOk(slots: seq<Slot>) {
    forall j, r: nat :: 0 <= j < |slots| && r < |slots[j].orders| ==> OrderOk(slots, r, slots[j].orders[r])
  }

  predicate Inv(cfg: Config, s: Cluster) {
    ValidConfig(cfg) && WorkersOk(cfg, s.core) && LinksOk(s) && CoordInv(s) && OrdersOk(s.core.slots)
  }

  // A step of client j, of its worker or of the network: the main thread's own variables stay put.
  predicate LocalChange(s: Cluster, s': Cluster, j: nat) {
    var c, c' := s.core, s'.core;
    && j < N(c) && |s.chans| == N(c)
    && c'.pc == c.pc && c'.round == c.round && c'.second == c.second
    && c'.result == c.result && c'.verdict == c.verdict && c'.stop == c.stop
    && N(c') == N(c) && c'.slots == c.slots[j := c'.slots[j]]
    && |s'.chans| == |s.chans| && s'.chans == s.chans[j := s'.chans[j]]
    && c'.slots[j].asked == c.slots[j].asked && c'.slots[j].orders == c.slots[j].orders
    && c'.slots[j].flag == c.slots[j].flag && c.slots[j].client.votes <= c'.slots[j].client.votes
  }

  lemma SomeNoStays(s: Cluster, s': Cluster, j: nat, r: nat)
    requires LocalChange(s, s', j) && SomeNo(s.core.slots, r)
    ensures SomeNo(s'.core.slots, r)
  {
    var k :| 0 <= k < N(s.core) && No(s.core.slots[k], r);
    assert No(s'.core.slots[k], r);
  }

  lemma LocalKeepsOrders(s: Cluster, s': Cluster, j: nat)
    requires LocalChange(s, s', j) && OrdersOk(s.core.slots)
    ensures OrdersOk(s'.core.slots)
  {
    var slots, slots' := s.core.slots, s'.core.slots;
    forall k, r: nat | 0 <= k < |slots'| && r < |slots'[k].orders|
      ensures OrderOk(slots', r, slots'[k].orders[r])
    {
      assert OrderOk(slots, r, slots[k].orders[r]);
      if !slots'[k].orders[r] {
        SomeNoStays(s, s', j, r);
      }
    }
  }

  lemma LocalKeepsVotes(s: Cluster, s': Cluster, j: nat)
    requires LocalChange(s, s', j)
    ensures forall i: nat :: YesBelow(s.core.slots, s.core.round, i) ==> YesBelow(s'.core.slots, s.core.round, i)
    ensures AllYes(s.core.slots, s.core.round) ==> AllYes(s'.core.slots, s.core.round)
    ensures SomeNo(s.core.slots, s.core.round) ==> SomeNo(s'.core.slots, s.core.round)
  {
    if SomeNo(s.core.slots, s.core.round) {
      SomeNoStays(s, s', j, s.core.round);
    }
  }

  lemma LocalKeepsWrites(s: Cluster, s': Cluster, j: nat)
    requires LocalChange(s, s', j)
    ensures AllAsked(s.core.slots, s.core.round) <==> AllAsked(s'.core.slots, s.core.round)
    ensures NoneFresh(s.core.slots) <==> NoneFresh(s'.core.slots)
    ensures NoneSent(s.core.slots, s.core.second, s.core.round) ==> NoneSent(s'.core.slots, s.core.second, s.core.round)
    ensures FlagsTell(s.core.slots, s.core.second, s.core.round) ==>
      FlagsTell(s'.core.slots, s.core.second, s.core.round)
  {
    forall k | 0 <= k < N(s.core)
      ensures s'.core.slots[k].asked == s.core.slots[k].asked && s'.core.slots[k].orders == s.core.slots[k].orders
      ensures s'.core.slots[k].flag == s.core.slots[k].flag
    {
    }
  }

  lemma LocalKeepsSynced(s: Cluster, s': Cluster, j: nat)
    requires LocalChange(s, s', j)
    requires Synced(s.core.round, s.core.slots[j], s.chans[j]) ==> Synced(s.core.round, s'.core.slots[j], s'.chans[j])
    ensures forall i: nat :: SyncedBelow(s, i) ==> SyncedBelow(s', i)
  {
  }

  lemma LocalKeepsCoord(s: Cluster, s': Cluster, j: nat)
    requires LocalChange(s, s', j) && CoordInv(s)
    requires Synced(s.core.round, s.core.slots[j], s.chans[j]) ==> Synced(s.core.round, s'.core.slots[j], s'.chans[j])
    ensures CoordInv(s')
  {
    LocalKeepsVotes(s, s', j);
    LocalKeepsWrites(s, s', j);
    LocalKeepsSynced(s, s', j);
  }

  lemma LocalKeepsLinks(s: Cluster, s': Cluster, j: nat)
    requires LocalChange(s, s', j) && LinksOk(s)
    requires var c' := s'.core; LinkInv(c'.round, c'.second, c'.verdict, Wiped(c'.pc, j), c'.slots[j], s'.chans[j])
    ensures LinksOk(s')
  {
  }

  // ----- one link at a time -----

  lemma HearKeepsLink(r: nat, second: bool, verdict: Status, wiped: bool, x: Slot, ch: Chan)
    requires LinkInv(r, second, verdict, wiped, x, ch) && ch.down != []
    requires x.client.pc == AwaitRequest || x.client.pc == AwaitDecision
    ensures LinkInv(r, second, verdict, wiped, x.(client := Heard(x.client, ch.down[0])), ch.(down := ch.down[1..]))
  {
  }

  lemma VoteKeepsLink(r: nat, second: bool, verdict: Status, wiped: bool, x: Slot, ch: Chan)
    requires LinkInv(r, second, verdict, wiped, x, ch) && x.client.pc.CastVote?
    ensures var cl := x.client;
      LinkInv(r, second, verdict, wiped, x.(client := cl.(pc := VoteWritten, votes := cl.votes + [cl.pc.yes])),
              ch.(up := ch.up + [VoteKind(cl.pc.yes)]))
  {
    assert Held(x.held) + ch.up == [];
    assert Held(x.held) + (ch.up + [VoteKind(x.client.pc.yes)]) == [VoteKind(x.client.pc.yes)];
  }

  lemma AckKeepsLink(r: nat, second: bool, verdict: Status, wiped: bool, x: Slot, ch: Chan)
    requires LinkInv(r, second, verdict, wiped, x, ch) && x.client.pc == SendAck
    ensures LinkInv(r, second, verdict, wiped, x.(client := x.client.(pc := AckWritten)), ch.(up := ch.up + [Ack]))
  {
    assert (Held(x.held) + ch.up) + [Ack] == Held(x.held) + (ch.up + [Ack]);
  }

  lemma ReceiveKeepsLink(r: nat, second: bool, verdict: Status, wiped: bool, x: Slot, ch: Chan)
    requires LinkInv(r, second, verdict, wiped, x, ch) && x.held == None && ch.up != []
    ensures LinkInv(r, second, verdict, wiped, x.(held := Some(ch.up[0])), ch.(up := ch.up[1..]))
  {
    assert Held(Some(ch.up[0])) + ch.up[1..] == Held(x.held) + ch.up;
  }

  lemma ScoreKeepsLink(r: nat, second: bool, verdict: Status, wiped: bool, x: Slot, ch: Chan)
    requires LinkInv(r, second, verdict, wiped, x, ch) && x.held.Some?
    ensures LinkInv(r, second, verdict, wiped, x.(board := x.held.value, held := None), ch)
  {
    var q := Held(x.held) + ch.up;
    assert Held(None) + ch.up == ch.up == q[1..];
    assert q[0] == x.held.value && |x.client.acted| <= |x.orders|;
  }

  lemma WithoutIs(q: seq<Kind>, i: nat)
    requires i < |q| <= 2
    ensures |q| == 1 ==> Without(q, i) == []
    ensures |q| == 2 ==> Without(q, i) == [q[1 - i]]
  {
  }

  lemma LossKeepsDown(r: nat, cl: Client, asked: nat, orders: seq<bool>, down: seq<Kind>, i: nat)
    requires DownOk(r, cl, asked, orders, down) && i < |down|
    ensures DownOk(r, cl, asked, orders, Without(down, i))
  {
    WithoutIs(down, i);
  }

  lemma LossKeepsUp(r: nat, second: bool, cl: Client, board: Kind, up: seq<Kind>, i: nat)
    requires UpOk(r, cl, up) && i < |up|
    ensures UpOk(r, cl, Without(up, i))
    ensures BoardOk(r, second, cl, board, up) ==> BoardOk(r, second, cl, board, Without(up, i))
  {
    WithoutIs(up, i);
  }

  lemma LossKeepsLink(r: nat, second: bool, verdict: Status, wiped: bool, x: Slot, ch: Chan, i: nat)
    requires LinkInv(r, second, verdict, wiped, x, ch)
    ensures i < |ch.down| ==> LinkInv(r, second, verdict, wiped, x, ch.(down := Without(ch.down, i)))
    ensures i < |ch.up| ==> LinkInv(r, second, verdict, wiped, x, ch.(up := Without(ch.up, i)))
  {
    if i < |ch.down| {
      LossKeepsDown(r, x.client, x.asked, x.orders, ch.down, i);
    }
    if i < |ch.up| {
      var q := Held(x.held) + ch.up;
      assert Held(x.held) + Without(ch.up, i) == Without(q, |Held(x.held)| + i);
      LossKeepsUp(r, second, x.client, x.board, q, |Held(x.held)| + i);
    }
  }

  // ----- steps of clients, workers and the network -----

  lemma LocalKeepsInv(cfg: Config, s: Cluster, s': Cluster, j: nat)
    requires Inv(cfg, s) && LocalChange(s, s', j) && WorkersOk(cfg, s'.core)
    requires var c := s.core; LinkInv(c.round, c.second, c.verdict, Wiped(c.pc, j), s'.core.slots[j], s'.chans[j])
    requires Synced(s.core.round, s.core.slots[j], s.chans[j]) ==> Synced(s.core.round, s'.core.slots[j], s'.chans[j])
    ensures Inv(cfg, s')
  {
    LocalKeepsOrders(s, s', j);
    LocalKeepsCoord(s, s', j);
    LocalKeepsLinks(s, s', j);
  }

  lemma HearKeepsInv(cfg: Config, s: Cluster, j: nat, kind: Kind)
    requires Inv(cfg, s) && Enabled(cfg, s, Do(ClientDo(j, Hear(kind))))
    ensures Inv(cfg, Next(cfg, s, Do(ClientDo(j, Hear(kind)))))
  {
    var c := s.core;
    HearKeepsLink(c.round, c.second, c.verdict, Wiped(c.pc, j), c.slots[j], s.chans[j]);
    LocalKeepsInv(cfg, s, Next(cfg, s, Do(ClientDo(j, Hear(kind)))), j);
  }

  lemma VoteKeepsInv(cfg: Config, s: Cluster, j: nat)
    requires Inv(cfg, s) && Enabled(cfg, s, Do(ClientDo(j, Vote)))
    ensures Inv(cfg, Next(cfg, s, Do(ClientDo(j, Vote))))
  {
    var c := s.core;
    VoteKeepsLink(c.round, c.second, c.verdict, Wiped(c.pc, j), c.slots[j], s.chans[j]);
    LocalKeepsInv(cfg, s, Next(cfg, s, Do(ClientDo(j, Vote))), j);
  }

  lemma AckKeepsInv(cfg: Config, s: Cluster, j: nat)
    requires Inv(cfg, s) && Enabled(cfg, s, Do(ClientDo(j, AckOrder)))
    ensures Inv(cfg, Next(cfg, s, Do(ClientDo(j, AckOrder))))
  {
    var c := s.core;
    AckKeepsLink(c.round, c.second, c.verdict, Wiped(c.pc, j), c.slots[j], s.chans[j]);
    LocalKeepsInv(cfg, s, Next(cfg, s, Do(ClientDo(j, AckOrder))), j);
  }

  lemma WrittenKeepsInv(cfg: Config, s: Cluster, j: nat)
    requires Inv(cfg, s) && Enabled(cfg, s, Do(ClientDo(j, Written)))
    ensures Inv(cfg, Next(cfg, s, Do(ClientDo(j, Written))))
  {
    LocalKeepsInv(cfg, s, Next(cfg, s, Do(ClientDo(j, Written))), j);
  }

  lemma HaltKeepsInv(cfg: Config, s: Cluster, j: nat)
    requires Inv(cfg, s) && Enabled(cfg, s, Do(ClientDo(j, Halt)))
    ensures Inv(cfg, Next(cfg, s, Do(ClientDo(j, Halt))))
  {
    LocalKeepsInv(cfg, s, Next(cfg, s, Do(ClientDo(j, Halt))), j);
  }

  lemma MessageKeepsWorkers(cfg: Config, c: Core, t: nat, w: WorkStep)
    requires ValidConfig(cfg) && WorkersOk(cfg, c) && t < |c.workers| && WorkEnabled(cfg, c, t, w)
    requires w.Receive? || w.Score?
    ensures WorkersOk(cfg, WorkNext(cfg, c, t, w))
  {
    var j := if w.Receive? then w.j else c.workers[t].j;
    var c' := WorkNext(cfg, c, t, w);
    assert c'.workers == c.workers[t := c'.workers[t]] && c'.slots == c.slots[j := c'.slots[j]];
  }

  lemma ReceiveKeepsInv(cfg: Config, s: Cluster, t: nat, j: nat, kind: Kind)
    requires Inv(cfg, s) && Enabled(cfg, s, Do(WorkerDo(t, Receive(j, kind))))
    ensures Inv(cfg, Next(cfg, s, Do(WorkerDo(t, Receive(j, kind)))))
  {
    var c := s.core;
    ReceiveKeepsLink(c.round, c.second, c.verdict, Wiped(c.pc, j), c.slots[j], s.chans[j]);
    MessageKeepsWorkers(cfg, c, t, Receive(j, kind));
    LocalKeepsInv(cfg, s, Next(cfg, s, Do(WorkerDo(t, Receive(j, kind)))), j);
  }

  lemma ScoreKeepsInv(cfg: Config, s: Cluster, t: nat)
    requires Inv(cfg, s) && Enabled(cfg, s, Do(WorkerDo(t, Score)))
    ensures Inv(cfg, Next(cfg, s, Do(WorkerDo(t, Score))))
  {
    var c := s.core;
    var j := c.workers[t].j;
    ScoreKeepsLink(c.round, c.second, c.verdict, Wiped(c.pc, j), c.slots[j], s.chans[j]);
    MessageKeepsWorkers(cfg, c, t, Score);
    LocalKeepsInv(cfg, s, Next(cfg, s, Do(WorkerDo(t, Score))), j);
  }

  // A queue with one message less.
  predicate Shorter(ch: Chan, ch': Chan, i: nat) {
    || (i < |ch.down| && ch' == ch.(down := Without(ch.down, i)))
    || (i < |ch.up| && ch' == ch.(up := Without(ch.up, i)))
  }

  lemma LossIsLocal(cfg: Config, s: Cluster, a: Action)
    requires |s.chans| == N(s.core) && Enabled(cfg, s, a) && !a.Do?
    ensures a.j < N(s.core) && LocalChange(s, Next(cfg, s, a), a.j) && Next(cfg, s, a).core == s.core
    ensures Shorter(s.chans[a.j], Next(cfg, s, a).chans[a.j], a.i)
  {
  }

  lemma ShorterKeepsInv(cfg: Config, s: Cluster, s': Cluster, j: nat, i: nat)
    requires Inv(cfg, s) && j < N(s.core) && LocalChange(s, s', j) && s'.core == s.core
    requires Shorter(s.chans[j], s'.chans[j], i)
    ensures Inv(cfg, s')
  {
    var c := s.core;
    LossKeepsLink(c.round, c.second, c.verdict, Wiped(c.pc, j), c.slots[j], s.chans[j], i);
    LocalKeepsInv(cfg, s, s', j);
  }

  lemma LossKeepsInv(cfg: Config, s: Cluster, a: Action)
    requires Inv(cfg, s) && Enabled(cfg, s, a) && !a.Do?
    ensures Inv(cfg, Next(cfg, s, a))
  {
    LossIsLocal(cfg, s, a);
    ShorterKeepsInv(cfg, s, Next(cfg, s, a), a.j, a.i);
  }

  // Worker pcs, counters and flags of the main thread do not matter to the links.
  lemma SameMainKeepsInv(cfg: Config, s: Cluster, s': Cluster)
    requires Inv(cfg, s) && WorkersOk(cfg, s'.core) && s'.chans == s.chans
    requires var c, c' := s.core, s'.core;
      && c'.pc == c.pc && c'.round == c.round && c'.second == c.second && c'.slots == c.slots
      && c'.result == c.result && c'.verdict == c.verdict && (c.stop ==> c'.stop)
    ensures Inv(cfg, s')
  {
  }

  lemma WorkerKeepsWorkers(cfg: Config, c: Core, t: nat, w: WorkStep)
    requires ValidConfig(cfg) && WorkersOk(cfg, c) && t < |c.workers| && WorkEnabled(cfg, c, t, w)
    requires !w.Receive? && !w.Score?
    ensures WorkersOk(cfg, WorkNext(cfg, c, t, w))
  {
    var c' := WorkNext(cfg, c, t, w);
    assert !c.workers[t].Got? && !c'.workers[t].Got?;
    assert c'.workers == c.workers[t := c'.workers[t]] && c'.slots == c.slots;
  }

  lemma WorkerKeepsInv(cfg: Config, s: Cluster, t: nat, w: WorkStep)
    requires Inv(cfg, s) && Enabled(cfg, s, Do(WorkerDo(t, w))) && !w.Receive? && !w.Score?
    ensures Inv(cfg, Next(cfg, s, Do(WorkerDo(t, w))))
  {
    WorkerKeepsWorkers(cfg, s.core, t, w);
    SameMainKeepsInv(cfg, s, Next(cfg, s, Do(WorkerDo(t, w))));
  }

  // ----- steps of the main thread -----

  // The main thread leaves messages, clients and workers alone.
  predicate MainChange(s: Cluster, s': Cluster) {
    var c, c' := s.core, s'.core;
    && N(c') == N(c) && s'.chans == s.chans && c'.workers == c.workers && |c'.counts| == |c.counts| && c'.stop == c.stop
    && forall j :: 0 <= j < N(c) ==>
         c'.slots[j] == c.slots[j].(board := c'.slots[j].board, flag := c'.slots[j].flag)
  }

  lemma MainKeepsVotes(s: Cluster, s': Cluster)
    requires MainChange(s, s')
    ensures forall r: nat :: SomeNo(s.core.slots, r) ==> SomeNo(s'.core.slots, r)
    ensures forall r: nat :: AllYes(s.core.slots, r) ==> AllYes(s'.core.slots, r)
  {
    forall r: nat | SomeNo(s.core.slots, r)
      ensures SomeNo(s'.core.slots, r)
    {
      var j :| 0 <= j < N(s.core) && No(s.core.slots[j], r);
      assert No(s'.core.slots[j], r);
    }
  }

  lemma MainKeepsWorkers(cfg: Config, s: Cluster, s': Cluster)
    requires MainChange(s, s') && WorkersOk(cfg, s.core)
    ensures WorkersOk(cfg, s'.core)
  {
  }

  lemma MainKeepsOrders(s: Cluster, s': Cluster)
    requires MainChange(s, s') && OrdersOk(s.core.slots)
    ensures OrdersOk(s'.core.slots)
  {
    MainKeepsVotes(s, s');
    forall k, r: nat | 0 <= k < N(s'.core) && r < |s'.core.slots[k].orders|
      ensures OrderOk(s'.core.slots, r, s'.core.slots[k].orders[r])
    {
      assert OrderOk(s.core.slots, r, s.core.slots[k].orders[r]);
    }
  }

  lemma MainKeepsLinks(s: Cluster, s': Cluster)
    requires MainChange(s, s') && LinksOk(s)
    requires s'.core.round == s.core.round && s'.core.second == s.core.second && s'.core.verdict == s.core.verdict
    requires forall j :: 0 <= j < N(s.core) && Wiped(s'.core.pc, j) ==>
      s'.core.slots[j].board == Lost || (Wiped(s.core.pc, j) && s'.core.slots[j].board == s.core.slots[j].board)
    ensures LinksOk(s')
  {
  }

  lemma MainKeepsInv(cfg: Config, s: Cluster, s': Cluster)
    requires Inv(cfg, s) && MainChange(s, s') && CoordInv(s')
    requires s'.core.round == s.core.round && s'.core.second == s.core.second && s'.core.verdict == s.core.verdict
    requires forall j :: 0 <= j < N(s.core) && Wiped(s'.core.pc, j) ==>
      s'.core.slots[j].board == Lost || (Wiped(s.core.pc, j) && s'.core.slots[j].board == s.core.slots[j].board)
    ensures Inv(cfg, s')
  {
    MainKeepsWorkers(cfg, s, s');
    MainKeepsOrders(s, s');
    MainKeepsLinks(s, s');
  }

  lemma ResetSlotKeepsInv(cfg: Config, s: Cluster)
    requires Inv(cfg, s) && Enabled(cfg, s, Do(MainDo(ResetSlot)))
    ensures Inv(cfg, Next(cfg, s, Do(MainDo(ResetSlot))))
  {
    var s' := Next(cfg, s, Do(MainDo(ResetSlot)));
    MainKeepsVotes(s, s');
    MainKeepsInv(cfg, s, s');
  }

  lemma ResetDoneKeepsInv(cfg: Config, s: Cluster)
    requires Inv(cfg, s) && Enabled(cfg, s, Do(MainDo(ResetDone)))
    ensures Inv(cfg, Next(cfg, s, Do(MainDo(ResetDone))))
  {
    var s' := Next(cfg, s, Do(MainDo(ResetDone)));
    MainKeepsVotes(s, s');
    MainKeepsInv(cfg, s, s');
  }

  lemma StampKeepsInv(cfg: Config, s: Cluster, j: nat)
    requires Inv(cfg, s) && Enabled(cfg, s, Do(MainDo(StampOne(j))))
    ensures Inv(cfg, Next(cfg, s, Do(MainDo(StampOne(j)))))
  {
    var s' := Next(cfg, s, Do(MainDo(StampOne(j))));
    MainKeepsVotes(s, s');
    MainKeepsInv(cfg, s, s');
  }

  lemma AckedKeepsCoord(cfg: Config, s: Cluster, s': Cluster)
    requires CoordInv(s) && MainChange(s, s') && s.core.pc.SendPoll? && s'.core.pc == SendCheck
    requires s'.core.round == s.core.round && s'.core.second == s.core.second && s'.core.verdict == s.core.verdict
    requires s'.core.slots == s.core.slots[s.core.pc.j := s.core.slots[s.core.pc.j].(flag := Finished)]
    ensures CoordInv(s')
  {
    MainKeepsVotes(s, s');
  }

  lemma AckedKeepsInv(cfg: Config, s: Cluster)
    requires Inv(cfg, s) && Enabled(cfg, s, Do(MainDo(VisitAcked)))
    ensures Inv(cfg, Next(cfg, s, Do(MainDo(VisitAcked))))
  {
    var s' := Next(cfg, s, Do(MainDo(VisitAcked)));
    AckedKeepsCoord(cfg, s, s');
    MainKeepsInv(cfg, s, s');
  }

  // The loops of send_request and wait_for_votes, away from the slots.
  lemma SendLoopKeepsInv(cfg: Config, s: Cluster, m: MainStep)
    requires Inv(cfg, s) && Enabled(cfg, s, Do(MainDo(m))) && (m == PrepDone || m == CheckSend || m == VisitAgain)
    ensures Inv(cfg, Next(cfg, s, Do(MainDo(m))))
  {
    MainKeepsInv(cfg, s, Next(cfg, s, Do(MainDo(m))));
  }

  lemma WaitKeepsInv(cfg: Config, s: Cluster, m: MainStep)
    requires Inv(cfg, s) && Enabled(cfg, s, Do(MainDo(m)))
    requires m == Timeout || m == StartSum || m == AddCount || m == Decide
    ensures Inv(cfg, Next(cfg, s, Do(MainDo(m))))
  {
    MainKeepsInv(cfg, s, Next(cfg, s, Do(MainDo(m))));
  }

  lemma ScanLoopKeepsInv(cfg: Config, s: Cluster, m: MainStep)
    requires Inv(cfg, s) && Enabled(cfg, s, Do(MainDo(m))) && (m == Pause || m == CheckScan)
    ensures Inv(cfg, Next(cfg, s, Do(MainDo(m))))
  {
    MainKeepsInv(cfg, s, Next(cfg, s, Do(MainDo(m))));
  }

  lemma ZeroKeepsInv(cfg: Config, s: Cluster)
    requires Inv(cfg, s) && Enabled(cfg, s, Do(MainDo(ZeroOne)))
    ensures Inv(cfg, Next(cfg, s, Do(MainDo(ZeroOne))))
  {
    MainKeepsInv(cfg, s, Next(cfg, s, Do(MainDo(ZeroOne))));
  }

  lemma TerminateKeepsInv(cfg: Config, s: Cluster)
    requires Inv(cfg, s) && Enabled(cfg, s, Do(MainDo(Terminate)))
    ensures Inv(cfg, Next(cfg, s, Do(MainDo(Terminate))))
  {
    MainKeepsInv(cfg, s, Next(cfg, s, Do(MainDo(Terminate))));
  }

  /** No slot ever holds a message that phase 1 does not expect, not even with losses and timeouts. */
  lemma ScannedSlotIsExpected(s: Cluster)
    requires LinksOk(s) && CoordInv(s) && s.core.pc.ScanRead?
    ensures var c := s.core; var i := c.pc.i; var x := c.slots[i];
      && (x.board == Lost || (Yes(x, c.round) && x.board == VoteYes) || (No(x, c.round) && x.board == VoteNo)
          || (c.second && x.board == Ack && Synced(c.round, x, s.chans[i])))
  {
    var c := s.core;
    assert LinkInv(c.round, c.second, c.verdict, true, c.slots[c.pc.i], s.chans[c.pc.i]);
  }

  // A slot that shows a yes vote, in phase 1.
  lemma YesExtends(s: Cluster, i: nat)
    requires i < N(s.core) && YesBelow(s.core.slots, s.core.round, i) && Yes(s.core.slots[i], s.core.round)
    ensures YesBelow(s.core.slots, s.core.round, i + 1)
  {
  }

  // A slot that shows an acknowledgement, in phase 2.
  lemma SyncedExtends(s: Cluster, s': Cluster, i: nat)
    requires i < N(s.core) == |s.chans| && s'.chans == s.chans && s'.core.slots == s.core.slots
    requires s'.core.round == s.core.round
    requires SyncedBelow(s, i) && Synced(s.core.round, s.core.slots[i], s.chans[i])
    ensures SyncedBelow(s', i + 1)
  {
  }

  lemma ReadSlotKeepsScan(s: Cluster, s': Cluster)
    requires LinksOk(s) && s.core.pc.ScanRead? && s.core.pc.i < N(s.core) && ScanOk(s, s.core.pc.i)
    requires LinkInv(s.core.round, s.core.second, s.core.verdict, true, s.core.slots[s.core.pc.i], s.chans[s.core.pc.i])
    requires s'.core == AfterRead(s.core, s.core.pc.i) && s'.chans == s.chans
    ensures s'.core.pc == ScanCheck(s.core.pc.i + 1) && ScanOk(s', s.core.pc.i + 1)
  {
    var c := s.core;
    var x := c.slots[c.pc.i];
    if c.second {
      if c.result == CommitSuccess && x.board == Ack {
        SyncedExtends(s, s', c.pc.i);
      }
    } else if x.board == VoteNo {
      assert No(x, c.round);
    } else if x.board == VoteYes && c.result == RequestSuccess {
      YesExtends(s, c.pc.i);
    }
  }

  lemma ReadSlotKeepsCoord(cfg: Config, s: Cluster)
    requires LinksOk(s) && CoordInv(s) && Enabled(cfg, s, Do(MainDo(ReadSlot)))
    ensures CoordInv(Next(cfg, s, Do(MainDo(ReadSlot))))
    ensures Next(cfg, s, Do(MainDo(ReadSlot))).core.pc != Term
  {
    ReadSlotKeepsScan(s, Next(cfg, s, Do(MainDo(ReadSlot))));
  }

  lemma ReadSlotKeepsInv(cfg: Config, s: Cluster)
    requires Inv(cfg, s) && Enabled(cfg, s, Do(MainDo(ReadSlot)))
    ensures Inv(cfg, Next(cfg, s, Do(MainDo(ReadSlot))))
  {
    ReadSlotKeepsCoord(cfg, s);
    MainKeepsInv(cfg, s, Next(cfg, s, Do(MainDo(ReadSlot))));
  }

  lemma UnpauseKeepsLink(r: nat, second: bool, verdict: Status, verdict': Status, x: Slot, ch: Chan)
    requires LinkInv(r, second, verdict, true, x, ch)
    ensures second ==> LinkInv(r, true, verdict, false, x, ch)
    ensures !second ==> LinkInv(r, true, verdict', false, x, ch)
  {
  }

  lemma UnpauseKeepsLinks(cfg: Config, s: Cluster)
    requires LinksOk(s) && Enabled(cfg, s, Do(MainDo(Unpause)))
    ensures LinksOk(Next(cfg, s, Do(MainDo(Unpause))))
  {
    var c := s.core;
    var s' := Next(cfg, s, Do(MainDo(Unpause)));
    forall j | 0 <= j < N(c)
      ensures LinkInv(s'.core.round, s'.core.second, s'.core.verdict, Wiped(s'.core.pc, j),
        s'.core.slots[j], s'.chans[j])
    {
      assert LinkInv(c.round, c.second, c.verdict, Wiped(c.pc, j), c.slots[j], s.chans[j]);
      UnpauseKeepsLink(c.round, c.second, c.verdict, c.result, c.slots[j], s.chans[j]);
    }
  }

  lemma UnpauseKeepsCoord(cfg: Config, s: Cluster)
    requires LinksOk(s) && CoordInv(s) && Enabled(cfg, s, Do(MainDo(Unpause)))
    ensures CoordInv(Next(cfg, s, Do(MainDo(Unpause))))
  {
    var c := s.core;
    forall j | 0 <= j < N(c) && !c.second
      ensures !WrittenTo(true, c.round, c.slots[j])
    {
      assert LinkInv(c.round, c.second, c.verdict, Wiped(c.pc, j), c.slots[j], s.chans[j]);
    }
  }

  // What does not look at the main thread's variables.
  lemma SameSlotsKeep(cfg: Config, c: Core, c': Core)
    requires c'.slots == c.slots && c'.workers == c.workers && |c'.counts| == |c.counts|
    ensures WorkersOk(cfg, c) ==> WorkersOk(cfg, c')
    ensures OrdersOk(c.slots) ==> OrdersOk(c'.slots)
  {
  }

  lemma UnpauseKeepsInv(cfg: Config, s: Cluster)
    requires Inv(cfg, s) && Enabled(cfg, s, Do(MainDo(Unpause)))
    ensures Inv(cfg, Next(cfg, s, Do(MainDo(Unpause))))
  {
    UnpauseKeepsLinks(cfg, s);
    UnpauseKeepsCoord(cfg, s);
    SameSlotsKeep(cfg, s.core, Next(cfg, s, Do(MainDo(Unpause))).core);
  }

  // A client that has finished its round starts the next one with nothing in flight.
  lemma NextRoundKeepsLink(r: nat, verdict: Status, wiped: bool, x: Slot, ch: Chan)
    requires LinkInv(r, true, verdict, wiped, x, ch) && Synced(r, x, ch)
    ensures LinkInv(r + 1, false, verdict, false, x, ch)
  {
  }

  lemma NextRoundKeepsLinks(cfg: Config, s: Cluster)
    requires LinksOk(s) && CoordInv(s) && Enabled(cfg, s, Do(MainDo(NextRound))) && !s.core.stop
    ensures LinksOk(Next(cfg, s, Do(MainDo(NextRound))))
  {
    var c := s.core;
    var s' := Next(cfg, s, Do(MainDo(NextRound)));
    forall j | 0 <= j < N(c)
      ensures LinkInv(s'.core.round, s'.core.second, s'.core.verdict, Wiped(s'.core.pc, j),
        s'.core.slots[j], s'.chans[j])
    {
      NextRoundKeepsLink(c.round, c.verdict, Wiped(c.pc, j), c.slots[j], s.chans[j]);
    }
  }

  lemma EndKeepsLinks(cfg: Config, s: Cluster)
    requires LinksOk(s) && Enabled(cfg, s, Do(MainDo(NextRound))) && s.core.stop
    ensures LinksOk(Next(cfg, s, Do(MainDo(NextRound))))
  {
    assert forall j :: 0 <= j < N(s.core) ==>
      LinkInv(s.core.round, s.core.second, s.core.verdict, Wiped(s.core.pc, j), s.core.slots[j], s.chans[j]);
  }

  lemma NextRoundKeepsInv(cfg: Config, s: Cluster)
    requires Inv(cfg, s) && Enabled(cfg, s, Do(MainDo(NextRound)))
    ensures Inv(cfg, Next(cfg, s, Do(MainDo(NextRound))))
  {
    if s.core.stop {
      EndKeepsLinks(cfg, s);
    } else {
      NextRoundKeepsLinks(cfg, s);
    }
  }

  // ----- writing a message -----

  lemma VisitKeepsLink(r: nat, second: bool, verdict: Status, x: Slot, ch: Chan)
    requires LinkInv(r, second, verdict, true, x, ch) && !WrittenTo(second, r, x)
    requires second ==> x.asked == r + 1
    ensures var commit := verdict == RequestSuccess;
      var x' := if second then x.(flag := Sent, orders := x.orders + [commit])
        else x.(flag := Sent, asked := x.asked + 1);
      var kind := if second then OrderKind(commit) else Request;
      LinkInv(r, second, verdict, true, x', ch.(down := ch.down + [kind]))
  {
  }

  // The main thread writes one message to connection j.
  predicate VisitChange(s: Cluster, s': Cluster, j: nat) {
    var c, c' := s.core, s'.core;
    && j < N(c) == |s.chans| && c.pc == SendAct && c.slots[j].flag == Stamped
    && c'.pc == SendPoll(j) && c'.round == c.round && c'.second == c.second
    && c'.result == c.result && c'.verdict == c.verdict && c'.stop == c.stop
    && c'.workers == c.workers && c'.counts == c.counts
    && c'.slots == c.slots[j := Visited(c, j).slots[j]]
    && s'.chans == s.chans[j := s.chans[j].(down := s.chans[j].down + [Outgoing(c)])]
  }

  lemma VisitKeepsVotes(s: Cluster, s': Cluster, j: nat)
    requires VisitChange(s, s', j)
    ensures forall r: nat :: SomeNo(s.core.slots, r) ==> SomeNo(s'.core.slots, r)
    ensures forall r: nat :: AllYes(s.core.slots, r) ==> AllYes(s'.core.slots, r)
  {
    assert s'.core.slots[j].client == s.core.slots[j].client;
    forall r: nat | SomeNo(s.core.slots, r)
      ensures SomeNo(s'.core.slots, r)
    {
      var k :| 0 <= k < N(s.core) && No(s.core.slots[k], r);
      assert No(s'.core.slots[k], r);
    }
  }

  /** The heart of the protocol: the decision that is written now is the one the votes of this round call for. */
  lemma VisitKeepsOrders(s: Cluster, s': Cluster, j: nat)
    requires VisitChange(s, s', j) && CoordInv(s) && LinksOk(s) && OrdersOk(s.core.slots)
    ensures OrdersOk(s'.core.slots)
  {
    var c, c' := s.core, s'.core;
    VisitKeepsVotes(s, s', j);
    forall k, r: nat | 0 <= k < N(c') && r < |c'.slots[k].orders|
      ensures OrderOk(c'.slots, r, c'.slots[k].orders[r])
    {
      if r < |c.slots[k].orders| {
        assert OrderOk(c.slots, r, c.slots[k].orders[r]);
      } else {
        assert k == j && r == |c.slots[j].orders| && c.second;
        assert LinkInv(c.round, c.second, c.verdict, true, c.slots[j], s.chans[j]);
        assert r == c.round;
      }
    }
  }

  lemma VisitKeepsLinks(s: Cluster, s': Cluster, j: nat)
    requires VisitChange(s, s', j) && CoordInv(s) && LinksOk(s)
    ensures LinksOk(s')
  {
    var c := s.core;
    VisitKeepsLink(c.round, c.second, c.verdict, c.slots[j], s.chans[j]);
  }

  lemma VisitKeepsCoord(s: Cluster, s': Cluster, j: nat)
    requires VisitChange(s, s', j) && CoordInv(s) && LinksOk(s)
    ensures CoordInv(s')
  {
    var c := s.core;
    VisitKeepsVotes(s, s', j);
    assert LinkInv(c.round, c.second, c.verdict, true, c.slots[j], s.chans[j]);
  }

  lemma VisitKeepsWorkers(cfg: Config, s: Cluster, s': Cluster, j: nat)
    requires VisitChange(s, s', j) && WorkersOk(cfg, s.core)
    ensures WorkersOk(cfg, s'.core)
  {
    assert s'.core.slots[j].held == s.core.slots[j].held;
  }

  lemma FirstVisitChanges(cfg: Config, s: Cluster, j: nat)
    requires Enabled(cfg, s, Do(MainDo(Visit(j)))) && s.core.slots[j].flag == Stamped && |s.chans| == N(s.core)
    ensures VisitChange(s, Next(cfg, s, Do(MainDo(Visit(j)))), j)
  {
  }

  lemma FirstVisitKeepsInv(cfg: Config, s: Cluster, j: nat)
    requires Inv(cfg, s) && Enabled(cfg, s, Do(MainDo(Visit(j)))) && s.core.slots[j].flag == Stamped
    ensures Inv(cfg, Next(cfg, s, Do(MainDo(Visit(j)))))
  {
    var s' := Next(cfg, s, Do(MainDo(Visit(j))));
    FirstVisitChanges(cfg, s, j);
    VisitKeepsOrders(s, s', j);
    VisitKeepsLinks(s, s', j);
    VisitKeepsCoord(s, s', j);
    VisitKeepsWorkers(cfg, s, s', j);
  }

  lemma LaterVisitKeepsInv(cfg: Config, s: Cluster, j: nat)
    requires Inv(cfg, s) && Enabled(cfg, s, Do(MainDo(Visit(j)))) && s.core.slots[j].flag != Stamped
    ensures Inv(cfg, Next(cfg, s, Do(MainDo(Visit(j)))))
  {
    MainKeepsInv(cfg, s, Next(cfg, s, Do(MainDo(Visit(j)))));
  }

  lemma RaiseKeepsInv(cfg: Config, s: Cluster)
    requires Inv(cfg, s)
    ensures Inv(cfg, Next(cfg, s, Do(RaiseStop)))
  {
    SameMainKeepsInv(cfg, s, Next(cfg, s, Do(RaiseStop)));
  }

  predicate IsSend(m: MainStep) {
    m.StampOne? || m.PrepDone? || m.CheckSend? || m.Visit? || m.VisitAcked? || m.VisitAgain?
  }

  predicate IsScan(m: MainStep) { m.Pause? || m.CheckScan? || m.ReadSlot? || m.ZeroOne? || m.Unpause? }

  lemma VisitKeepsInv(cfg: Config, s: Cluster, j: nat)
    requires Inv(cfg, s) && Enabled(cfg, s, Do(MainDo(Visit(j))))
    ensures Inv(cfg, Next(cfg, s, Do(MainDo(Visit(j)))))
  {
    if s.core.slots[j].flag == Stamped {
      FirstVisitKeepsInv(cfg, s, j);
    } else {
      LaterVisitKeepsInv(cfg, s, j);
    }
  }

  lemma SendKeepsInv(cfg: Config, s: Cluster, m: MainStep)
    requires Inv(cfg, s) && Enabled(cfg, s, Do(MainDo(m))) && IsSend(m)
    ensures Inv(cfg, Next(cfg, s, Do(MainDo(m))))
  {
    if m.StampOne? {
      StampKeepsInv(cfg, s, m.j);
    } else if m.Visit? {
      VisitKeepsInv(cfg, s, m.j);
    } else if m.VisitAcked? {
      AckedKeepsInv(cfg, s);
    } else {
      SendLoopKeepsInv(cfg, s, m);
    }
  }

  lemma ScanKeepsInv(cfg: Config, s: Cluster, m: MainStep)
    requires Inv(cfg, s) && Enabled(cfg, s, Do(MainDo(m))) && IsScan(m)
    ensures Inv(cfg, Next(cfg, s, Do(MainDo(m))))
  {
    if m.ReadSlot? {
      ReadSlotKeepsInv(cfg, s);
    } else if m.ZeroOne? {
      ZeroKeepsInv(cfg, s);
    } else if m.Unpause? {
      UnpauseKeepsInv(cfg, s);
    } else {
      ScanLoopKeepsInv(cfg, s, m);
    }
  }

  lemma RestKeepsInv(cfg: Config, s: Cluster, m: MainStep)
    requires Inv(cfg, s) && Enabled(cfg, s, Do(MainDo(m))) && !IsSend(m) && !IsScan(m)
    ensures Inv(cfg, Next(cfg, s, Do(MainDo(m))))
  {
    if m.ResetSlot? {
      ResetSlotKeepsInv(cfg, s);
    } else if m.ResetDone? {
      ResetDoneKeepsInv(cfg, s);
    } else if m.NextRound? {
      NextRoundKeepsInv(cfg, s);
    } else if m.Terminate? {
      TerminateKeepsInv(cfg, s);
    } else {
      WaitKeepsInv(cfg, s, m);
    }
  }

  lemma MainDoKeepsInv(cfg: Config, s: Cluster, m: MainStep)
    requires Inv(cfg, s) && Enabled(cfg, s, Do(MainDo(m)))
    ensures Inv(cfg, Next(cfg, s, Do(MainDo(m))))
  {
    if IsSend(m) {
      SendKeepsInv(cfg, s, m);
    } else if IsScan(m) {
      ScanKeepsInv(cfg, s, m);
    } else {
      RestKeepsInv(cfg, s, m);
    }
  }

  lemma ClientDoKeepsInv(cfg: Config, s: Cluster, j: nat, a: ClientStep)
    requires Inv(cfg, s) && Enabled(cfg, s, Do(ClientDo(j, a)))
    ensures Inv(cfg, Next(cfg, s, Do(ClientDo(j, a))))
  {
    match a
    case Hear(kind) => HearKeepsInv(cfg, s, j, kind);
    case Vote => VoteKeepsInv(cfg, s, j);
    case AckOrder => AckKeepsInv(cfg, s, j);
    case Written => WrittenKeepsInv(cfg, s, j);
    case Halt => HaltKeepsInv(cfg, s, j);
  }

  lemma WorkerDoKeepsInv(cfg: Config, s: Cluster, t: nat, w: WorkStep)
    requires Inv(cfg, s) && Enabled(cfg, s, Do(WorkerDo(t, w)))
    ensures Inv(cfg, Next(cfg, s, Do(WorkerDo(t, w))))
  {
    match w
    case Receive(j, kind) => ReceiveKeepsInv(cfg, s, t, j, kind);
    case Score => ScoreKeepsInv(cfg, s, t);
    case _ => WorkerKeepsInv(cfg, s, t, w);
  }

  lemma StepKeepsInv(cfg: Config, s: Cluster, a: Action)
    requires Inv(cfg, s) && Enabled(cfg, s, a)
    ensures Inv(cfg, Next(cfg, s, a))
  {
    match a
    case Do(MainDo(m)) => MainDoKeepsInv(cfg, s, m);
    case Do(WorkerDo(t, w)) => WorkerDoKeepsInv(cfg, s, t, w);
    case Do(ClientDo(j, act)) => ClientDoKeepsInv(cfg, s, j, act);
    case Do(RaiseStop) => RaiseKeepsInv(cfg, s);
    case _ => LossKeepsInv(cfg, s, a);
  }

  lemma InitialInv(cfg: Config, s: Cluster)
    requires ValidConfig(cfg) && Initial(cfg, s)
    ensures Inv(cfg, s)
  {
  }

  lemma {:induction false} RunKeepsInv(cfg: Config, s: Cluster, actions: seq<Action>)
    requires Inv(cfg, s) && Exec(cfg, s, actions).Some?
    ensures Inv(cfg, Exec(cfg, s, actions).value)
    decreases |actions|
  {
    if actions != [] {
      StepKeepsInv(cfg, s, actions[0]);
      RunKeepsInv(cfg, Next(cfg, s, actions[0]), actions[1..]);
    }
  }
}
