/** Waits that do not time out: whatever the channels lose, the vote counters are exact, so the main thread leaves a
    wait exactly when every client's answer to the current phase is on the scoreboard. */
module TwoPhaseExact {
  import opened Protocol
  import opened Counting
  import opened TwoPhase
  import opened TwoPhaseSafety
  import opened TwoPhaseTheorems

  // The worker is between scoring client j's message and counting it.
  predicate Mid(w: WorkerPc, j: nat) { (w.Scored? || w.Ended? || w.Loaded?) && w.j == j }

  // The client has answered the broadcast of the current phase.
  predicate Replied(r: nat, second: bool, cl: Client) { if second then Acks(cl) == r + 1 else |cl.votes| == r + 1 }

  // ... and the scoreboard shows that answer.
  predicate Answer(r: nat, second: bool, cl: Client, board: Kind) {
    Replied(r, second, cl) && board == if second then Ack else VoteKind(cl.votes[r])
  }

  // ... and it has been counted.
  predicate Counted(r: nat, second: bool, cl: Client, board: Kind, mid: bool) {
    Answer(r, second, cl, board) && !mid
  }

  predicate LinkExact(r: nat, second: bool, cl: Client, board: Kind, up: seq<Kind>, mid: bool) {
    && (second ==> |cl.votes| == r + 1 && (up == [] || up == [Ack]))
    && (mid ==> Answer(r, second, cl, board))
    && (Answer(r, second, cl, board) ==> up == [])
  }

  predicate Shape(cfg: Config, s: Cluster) {
    && ValidConfig(cfg)
    && |s.chans| == N(s.core) == |cfg.owner| && |s.core.workers| == |s.core.counts| == cfg.threads
  }

  function Up(s: Cluster, j: nat): seq<Kind>
    requires j < N(s.core) && j < |s.chans|
  {
    Held(s.core.slots[j].held) + s.chans[j].up
  }

  predicate CountedAt(cfg: Config, s: Cluster, j: nat)
    requires Shape(cfg, s) && j < N(s.core)
  {
    var x := s.core.slots[j];
    Counted(s.core.round, s.core.second, x.client, x.board, Mid(s.core.workers[cfg.owner[j]], j))
  }

  predicate LinkExactAt(cfg: Config, s: Cluster, j: nat)
    requires Shape(cfg, s) && j < N(s.core)
  {
    var c := s.core;
    LinkExact(c.round, c.second, c.slots[j].client, c.slots[j].board, Up(s, j), Mid(c.workers[cfg.owner[j]], j))
  }

  function Flags(cfg: Config, s: Cluster): seq<bool>
    requires Shape(cfg, s)
  {
    seq(N(s.core), j requires 0 <= j < N(s.core) => CountedAt(cfg, s, j))
  }

  // From the reset of the scoreboard to the end of the wait.
  predicate Active(pc: CoordPc) {
    pc.Reset? || pc == Prep || pc == SendCheck || pc == SendAct || pc.SendPoll? || pc == WaitTop || pc.WaitSum?
  }

  predicate MidsOwned(cfg: Config, c: Core) {
    forall t :: 0 <= t < |c.workers| && (c.workers[t].Scored? || c.workers[t].Ended? || c.workers[t].Loaded?) ==>
      c.workers[t].j < |cfg.owner| && cfg.owner[c.workers[t].j] == t
  }

  predicate CountersOk(counts: seq<int>, flags: seq<bool>, owner: seq<nat>) {
    |flags| == |owner| && forall t :: 0 <= t < |counts| ==> counts[t] == CountFor(flags, owner, t)
  }

  predicate PendingOk(counts: seq<int>, workers: seq<WorkerPc>) {
    |workers| == |counts|
    && forall t :: 0 <= t < |workers| ==>
      && (workers[t] == SeenPause ==> counts[t] == 0)
      && (workers[t].Loaded? ==> workers[t].v == counts[t])
  }

  predicate SumOk(counts: seq<int>, pc: CoordPc) {
    pc.WaitSum? ==> pc.t <= |counts| && pc.acc <= SumTo(counts, pc.t)
  }

  predicate ActiveOk(cfg: Config, s: Cluster)
    requires Shape(cfg, s)
  {
    var c := s.core;
    && !c.pause
    && CountersOk(c.counts, Flags(cfg, s), cfg.owner) && PendingOk(c.counts, c.workers) && SumOk(c.counts, c.pc)
  }

  predicate ZeroBelow(counts: seq<int>, t: nat) { forall u :: 0 <= u < t && u < |counts| ==> counts[u] == 0 }

  predicate AllCounted(cfg: Config, s: Cluster)
    requires Shape(cfg, s)
  {
    forall j :: 0 <= j < N(s.core) ==> CountedAt(cfg, s, j)
  }

  // From the end of the wait to the end of the phase.
  predicate WindowOk(cfg: Config, s: Cluster)
    requires Shape(cfg, s)
  {
    var c := s.core;
    && AllCounted(cfg, s)
    && (c.pc.ZeroCount? ==> ZeroBelow(c.counts, c.pc.t))
    && (c.pc == Unpausing || c.pc == RoundEnd ==> ZeroBelow(c.counts, |c.counts|))
    && (c.pc != Pausing ==> c.result != ClusterFail)
    && (c.pc == RoundEnd ==> !c.pause)
  }

  predicate Exact(cfg: Config, s: Cluster) {
    && Shape(cfg, s) && MidsOwned(cfg, s.core)
    && (s.core.pc != Term ==>
          && (forall j :: 0 <= j < N(s.core) ==> LinkExactAt(cfg, s, j))
          && (s.core.second ==> s.core.verdict != ClusterFail)
          && (if Active(s.core.pc) then ActiveOk(cfg, s) else WindowOk(cfg, s)))
  }

  // ----- steps of clients and workers -----

  // A step that concerns client j and its worker only, and changes no counter.
  predicate QuietChange(cfg: Config, s: Cluster, s': Cluster, j: nat) {
    && Shape(cfg, s) && Shape(cfg, s') && j < N(s.core)
    && s'.core.pc == s.core.pc && s'.core.round == s.core.round && s'.core.second == s.core.second
    && s'.core.result == s.core.result && s'.core.verdict == s.core.verdict && s'.core.pause == s.core.pause
    && s'.core.counts == s.core.counts
    && (forall k :: 0 <= k < N(s.core) && k != j ==>
          s'.core.slots[k] == s.core.slots[k] && s'.chans[k] == s.chans[k]
          && Mid(s'.core.workers[cfg.owner[k]], k) == Mid(s.core.workers[cfg.owner[k]], k))
  }

  lemma QuietKeepsExact(cfg: Config, s: Cluster, s': Cluster, j: nat)
    requires Exact(cfg, s) && QuietChange(cfg, s, s', j) && s.core.pc != Term
    requires LinkExactAt(cfg, s', j) && (CountedAt(cfg, s', j) <==> CountedAt(cfg, s, j))
    requires MidsOwned(cfg, s'.core) && (Active(s.core.pc) ==> PendingOk(s'.core.counts, s'.core.workers))
    ensures Exact(cfg, s')
  {
    forall k | 0 <= k < N(s.core)
      ensures CountedAt(cfg, s', k) == CountedAt(cfg, s, k) && LinkExactAt(cfg, s', k)
    {
      assert LinkExactAt(cfg, s, k);
    }
    assert Flags(cfg, s') == Flags(cfg, s);
  }

  // What a client's step appends to its channel.
  function Spoken(cl: Client, a: ClientStep): seq<Kind>
    requires ClientEnabled(cl, a)
  {
    if a.Vote? then [VoteKind(cl.pc.yes)] else if a.AckOrder? then [Ack] else []
  }

  // A client that is about to answer has no answer on the scoreboard.
  predicate Unanswered(second: bool, cl: Client, board: Kind) {
    && (cl.pc.CastVote? ==> !second && board == Lost)
    && (cl.pc == SendAck ==> second && board != Ack)
  }

  lemma AnswersOnce(s: Cluster, j: nat)
    requires LinksOk(s) && CoordInv(s) && j < N(s.core) && s.core.pc != Term
    requires s.core.second ==> |s.core.slots[j].client.votes| == s.core.round + 1
    ensures Unanswered(s.core.second, s.core.slots[j].client, s.core.slots[j].board)
  {
    var c := s.core;
    assert LinkInv(c.round, c.second, c.verdict, Wiped(c.pc, j), c.slots[j], s.chans[j]);
    if c.pc.Reset? {
      assert !WrittenTo(c.second, c.round, c.slots[j]);
    }
  }

  lemma ClientKeepsLinkExact(r: nat, second: bool, cl: Client, a: ClientStep, board: Kind, up: seq<Kind>, mid: bool)
    requires ClientOk(r, cl) && UpOk(r, cl, up) && ClientEnabled(cl, a)
    requires cl.pc == SendAck ==> second
    requires LinkExact(r, second, cl, board, up, mid) && Unanswered(second, cl, board)
    ensures LinkExact(r, second, ClientNext(cl, a), board, up + Spoken(cl, a), mid)
    ensures Counted(r, second, ClientNext(cl, a), board, mid) <==> Counted(r, second, cl, board, mid)
  {
  }

  lemma ClientKeepsExact(cfg: Config, s: Cluster, j: nat, a: ClientStep)
    requires Inv(cfg, s) && Exact(cfg, s) && Enabled(cfg, s, Do(ClientDo(j, a)))
    ensures Exact(cfg, Next(cfg, s, Do(ClientDo(j, a))))
  {
    var c := s.core;
    var s' := Next(cfg, s, Do(ClientDo(j, a)));
    if c.pc != Term {
      assert LinkInv(c.round, c.second, c.verdict, Wiped(c.pc, j), c.slots[j], s.chans[j]);
      assert LinkExactAt(cfg, s, j);
      assert Up(s', j) == Up(s, j) + Spoken(c.slots[j].client, a);
      AnswersOnce(s, j);
      ClientKeepsLinkExact(c.round, c.second, c.slots[j].client, a, c.slots[j].board, Up(s, j),
                           Mid(c.workers[cfg.owner[j]], j));
      QuietKeepsExact(cfg, s, s', j);
    }
  }

  lemma ReceiveIsQuiet(cfg: Config, s: Cluster, t: nat, j: nat, kind: Kind)
    requires Inv(cfg, s) && Shape(cfg, s) && Enabled(cfg, s, Do(WorkerDo(t, Receive(j, kind))))
    ensures var s' := Next(cfg, s, Do(WorkerDo(t, Receive(j, kind))));
      && Shape(cfg, s') && QuietChange(cfg, s, s', j) && Up(s', j) == Up(s, j)
      && Mid(s'.core.workers[t], j) == Mid(s.core.workers[t], j) && cfg.owner[j] == t
      && s'.core.slots[j].client == s.core.slots[j].client && s'.core.slots[j].board == s.core.slots[j].board
  {
    assert s.core.slots[j].held == None;
  }

  lemma ReceiveKeepsMids(cfg: Config, c: Core, t: nat, j: nat, kind: Kind)
    requires t < |c.workers| == |c.counts| && WorkEnabled(cfg, c, t, Receive(j, kind)) && MidsOwned(cfg, c)
    ensures var c' := WorkNext(cfg, c, t, Receive(j, kind));
      MidsOwned(cfg, c') && (PendingOk(c.counts, c.workers) ==> PendingOk(c'.counts, c'.workers))
  {
  }

  lemma ReceiveKeepsExact(cfg: Config, s: Cluster, t: nat, j: nat, kind: Kind)
    requires Inv(cfg, s) && Exact(cfg, s) && Enabled(cfg, s, Do(WorkerDo(t, Receive(j, kind))))
    ensures Exact(cfg, Next(cfg, s, Do(WorkerDo(t, Receive(j, kind)))))
  {
    if s.core.pc != Term {
      assert LinkExactAt(cfg, s, j);
      ReceiveIsQuiet(cfg, s, t, j, kind);
      ReceiveKeepsMids(cfg, s.core, t, j, kind);
      QuietKeepsExact(cfg, s, Next(cfg, s, Do(WorkerDo(t, Receive(j, kind)))), j);
    }
  }

  lemma ScoreKeepsLinkExact(r: nat, second: bool, cl: Client, board: Kind, up: seq<Kind>, mid: bool)
    requires up != [] && ClientOk(r, cl) && UpOk(r, cl, up) && LinkExact(r, second, cl, board, up, mid)
    requires |cl.acted| == r + 1 ==> second
    ensures LinkExact(r, second, cl, up[0], up[1..], true) && !Answer(r, second, cl, board)
  {
  }

  // What the step does to the link of the connection it scores.
  lemma ScoreIsQuiet(cfg: Config, s: Cluster, t: nat)
    requires Inv(cfg, s) && Shape(cfg, s) && Enabled(cfg, s, Do(WorkerDo(t, Score)))
    ensures var s', j := Next(cfg, s, Do(WorkerDo(t, Score))), s.core.workers[t].j;
      && j < N(s.core) && cfg.owner[j] == t && Shape(cfg, s') && QuietChange(cfg, s, s', j)
      && Up(s', j) == Up(s, j)[1..] && s.core.slots[j].held.value == Up(s, j)[0]
  {
  }

  lemma ScoreLink(cfg: Config, s: Cluster, t: nat)
    requires Inv(cfg, s) && Exact(cfg, s) && Enabled(cfg, s, Do(WorkerDo(t, Score))) && s.core.pc != Term
    ensures var s', j := Next(cfg, s, Do(WorkerDo(t, Score))), s.core.workers[t].j;
      && j < N(s.core) && Shape(cfg, s') && QuietChange(cfg, s, s', j)
      && LinkExactAt(cfg, s', j) && !CountedAt(cfg, s, j) && !CountedAt(cfg, s', j)
  {
    var c := s.core;
    var j := c.workers[t].j;
    ScoreIsQuiet(cfg, s, t);
    assert LinkInv(c.round, c.second, c.verdict, Wiped(c.pc, j), c.slots[j], s.chans[j]);
    assert LinkExactAt(cfg, s, j);
    ScoreKeepsLinkExact(c.round, c.second, c.slots[j].client, c.slots[j].board, Up(s, j),
                        Mid(c.workers[t], j));
  }

  lemma ScoreKeepsMids(cfg: Config, c: Core, t: nat)
    requires t < |c.workers| == |c.counts| && WorkEnabled(cfg, c, t, Score) && MidsOwned(cfg, c)
    requires c.workers[t].j < |cfg.owner| && cfg.owner[c.workers[t].j] == t
    ensures var c' := WorkNext(cfg, c, t, Score);
      MidsOwned(cfg, c') && (PendingOk(c.counts, c.workers) ==> PendingOk(c'.counts, c'.workers))
  {
  }

  lemma ScoreKeepsExact(cfg: Config, s: Cluster, t: nat)
    requires Inv(cfg, s) && Exact(cfg, s) && Enabled(cfg, s, Do(WorkerDo(t, Score)))
    ensures Exact(cfg, Next(cfg, s, Do(WorkerDo(t, Score))))
  {
    if s.core.pc != Term {
      ScoreLink(cfg, s, t);
      ScoreKeepsMids(cfg, s.core, t);
      QuietKeepsExact(cfg, s, Next(cfg, s, Do(WorkerDo(t, Score))), s.core.workers[t].j);
    }
  }

  // A step that moves no message, whoever makes it.
  predicate StillChange(cfg: Config, s: Cluster, s': Cluster) {
    && Shape(cfg, s) && Shape(cfg, s')
    && s'.core.round == s.core.round && s'.core.second == s.core.second
    && (forall k :: 0 <= k < N(s.core) ==>
          && s'.core.slots[k].client == s.core.slots[k].client && Up(s', k) == Up(s, k)
          && Mid(s'.core.workers[cfg.owner[k]], k) == Mid(s.core.workers[cfg.owner[k]], k)
          && (s'.core.slots[k].board == s.core.slots[k].board
                || !Replied(s.core.round, s.core.second, s.core.slots[k].client)))
  }

  lemma StillKeepsLinks(cfg: Config, s: Cluster, s': Cluster)
    requires StillChange(cfg, s, s')
    requires forall j :: 0 <= j < N(s.core) ==> LinkExactAt(cfg, s, j)
    ensures forall j :: 0 <= j < N(s'.core) ==> LinkExactAt(cfg, s', j)
    ensures Flags(cfg, s') == Flags(cfg, s)
    ensures AllCounted(cfg, s') <==> AllCounted(cfg, s)
  {
    forall k | 0 <= k < N(s.core)
      ensures CountedAt(cfg, s', k) == CountedAt(cfg, s, k) && LinkExactAt(cfg, s', k)
    {
      assert LinkExactAt(cfg, s, k);
    }
  }

  lemma WorkIsStill(cfg: Config, s: Cluster, t: nat, w: WorkStep)
    requires Shape(cfg, s) && Enabled(cfg, s, Do(WorkerDo(t, w)))
    requires !w.Receive? && !w.Score? && !w.StoreCount?
    ensures StillChange(cfg, s, Next(cfg, s, Do(WorkerDo(t, w))))
  {
  }

  lemma WorkKeepsPending(cfg: Config, c: Core, t: nat, w: WorkStep)
    requires t < |c.workers| == |c.counts| && WorkEnabled(cfg, c, t, w) && MidsOwned(cfg, c)
    requires !w.Receive? && !w.Score? && !w.StoreCount?
    ensures MidsOwned(cfg, WorkNext(cfg, c, t, w))
    ensures PendingOk(c.counts, c.workers) && !c.pause ==>
      PendingOk(WorkNext(cfg, c, t, w).counts, WorkNext(cfg, c, t, w).workers)
      && WorkNext(cfg, c, t, w).counts == c.counts
    ensures forall u :: ZeroBelow(c.counts, u) ==> ZeroBelow(WorkNext(cfg, c, t, w).counts, u)
  {
    if PendingOk(c.counts, c.workers) && w.ZeroOwn? {
      assert c.counts[t := 0] == c.counts;
    }
  }

  // Between the scoreboard and the counter, and the pause handshake.
  lemma PcOnlyKeepsExact(cfg: Config, s: Cluster, t: nat, w: WorkStep)
    requires Exact(cfg, s) && Enabled(cfg, s, Do(WorkerDo(t, w)))
    requires !w.Receive? && !w.Score? && !w.StoreCount?
    ensures Exact(cfg, Next(cfg, s, Do(WorkerDo(t, w))))
  {
    WorkIsStill(cfg, s, t, w);
    WorkKeepsPending(cfg, s.core, t, w);
    if s.core.pc != Term {
      StillKeepsLinks(cfg, s, Next(cfg, s, Do(WorkerDo(t, w))));
    }
  }

  // Thread t stores the counter it has loaded, for connection j.
  predicate StoreStep(cfg: Config, s: Cluster, s': Cluster, t: nat, j: nat, v: int) {
    && Shape(cfg, s) && Shape(cfg, s') && t < cfg.threads && j < N(s.core) && cfg.owner[j] == t
    && s.core.workers[t] == Loaded(j, v) && s'.core.workers == s.core.workers[t := Polling]
    && s'.core.counts == s.core.counts[t := v + 1]
    && s'.core.slots == s.core.slots && s'.chans == s.chans
    && s'.core.pc == s.core.pc && s'.core.round == s.core.round && s'.core.second == s.core.second
    && s'.core.verdict == s.core.verdict && s'.core.pause == s.core.pause
  }

  lemma StoreIsStoreStep(cfg: Config, s: Cluster, t: nat)
    requires Shape(cfg, s) && MidsOwned(cfg, s.core) && Enabled(cfg, s, Do(WorkerDo(t, StoreCount)))
    ensures var w := s.core.workers[t]; StoreStep(cfg, s, Next(cfg, s, Do(WorkerDo(t, StoreCount))), t, w.j, w.v)
  {
  }

  lemma StoreCountsOne(cfg: Config, s: Cluster, s': Cluster, t: nat, j: nat, v: int)
    requires StoreStep(cfg, s, s', t, j, v)
    requires forall k :: 0 <= k < N(s.core) ==> LinkExactAt(cfg, s, k)
    ensures forall k :: 0 <= k < N(s.core) ==> LinkExactAt(cfg, s', k)
    ensures !CountedAt(cfg, s, j) && Flags(cfg, s') == Flags(cfg, s)[j := true]
  {
    assert LinkExactAt(cfg, s, j);
    forall k | 0 <= k < N(s.core)
      ensures CountedAt(cfg, s', k) == (k == j || CountedAt(cfg, s, k)) && LinkExactAt(cfg, s', k)
    {
      assert LinkExactAt(cfg, s, k);
    }
  }

  lemma StoreKeepsCounters(counts: seq<int>, flags: seq<bool>, owner: seq<nat>, t: nat, j: nat)
    requires CountersOk(counts, flags, owner) && t < |counts| && j < |flags| && owner[j] == t && !flags[j]
    ensures CountersOk(counts[t := counts[t] + 1], flags[j := true], owner)
  {
    var counts' := counts[t := counts[t] + 1];
    forall u | 0 <= u < |counts'|
      ensures counts'[u] == CountFor(flags[j := true], owner, u)
    {
      CountForSet(flags, owner, u, j);
    }
  }

  lemma StoreKeepsWorkers(cfg: Config, s: Cluster, s': Cluster, t: nat, j: nat, v: int)
    requires StoreStep(cfg, s, s', t, j, v) && MidsOwned(cfg, s.core)
    ensures MidsOwned(cfg, s'.core)
    ensures PendingOk(s.core.counts, s.core.workers) ==>
      v == s.core.counts[t] && PendingOk(s'.core.counts, s'.core.workers)
  {
  }

  lemma StoreKeepsSum(counts: seq<int>, pc: CoordPc, t: nat)
    requires SumOk(counts, pc) && t < |counts|
    ensures SumOk(counts[t := counts[t] + 1], pc)
  {
    if pc.WaitSum? {
      SumToGrows(counts, t, counts[t] + 1, pc.t);
    }
  }

  lemma StoreKeepsActive(cfg: Config, s: Cluster, s': Cluster, t: nat, j: nat, v: int)
    requires StoreStep(cfg, s, s', t, j, v) && ActiveOk(cfg, s)
    requires v == s.core.counts[t] && PendingOk(s'.core.counts, s'.core.workers)
    requires !CountedAt(cfg, s, j) && Flags(cfg, s') == Flags(cfg, s)[j := true]
    ensures ActiveOk(cfg, s')
  {
    StoreKeepsCounters(s.core.counts, Flags(cfg, s), cfg.owner, t, j);
    StoreKeepsSum(s.core.counts, s.core.pc, t);
  }

  /** The increment: the vote becomes counted at the very step that raises its thread's counter by one. */
  lemma StoreKeepsExact(cfg: Config, s: Cluster, t: nat)
    requires Exact(cfg, s) && Enabled(cfg, s, Do(WorkerDo(t, StoreCount)))
    ensures Exact(cfg, Next(cfg, s, Do(WorkerDo(t, StoreCount))))
  {
    StoreIsStoreStep(cfg, s, t);
    var w := s.core.workers[t];
    StoreStepKeepsExact(cfg, s, Next(cfg, s, Do(WorkerDo(t, StoreCount))), t, w.j, w.v);
  }

  // After the wait every vote is counted, so no worker is about to count one.
  lemma StoreIsActive(cfg: Config, s: Cluster, s': Cluster, t: nat, j: nat, v: int)
    requires Exact(cfg, s) && StoreStep(cfg, s, s', t, j, v) && s.core.pc != Term
    ensures Active(s.core.pc)
  {
    StoreCountsOne(cfg, s, s', t, j, v);
  }

  lemma StoreStepKeepsExact(cfg: Config, s: Cluster, s': Cluster, t: nat, j: nat, v: int)
    requires Exact(cfg, s) && StoreStep(cfg, s, s', t, j, v)
    ensures Exact(cfg, s')
  {
    StoreKeepsWorkers(cfg, s, s', t, j, v);
    if s.core.pc != Term {
      StoreIsActive(cfg, s, s', t, j, v);
      StoreCountsOne(cfg, s, s', t, j, v);
      StoreKeepsActive(cfg, s, s', t, j, v);
    }
  }

  // ----- steps of the main thread -----

  // Before the broadcast of a phase nobody has answered it.
  lemma NoReplyBeforeSend(r: nat, second: bool, verdict: Status, wiped: bool, x: Slot, ch: Chan)
    requires LinkInv(r, second, verdict, wiped, x, ch) && !WrittenTo(second, r, x)
    ensures !Replied(r, second, x.client)
  {
  }

  lemma ResetIsStill(cfg: Config, s: Cluster, m: MainStep)
    requires Shape(cfg, s) && Enabled(cfg, s, Do(MainDo(m))) && (m.ResetSlot? || m.ResetDone?)
    requires forall j :: 0 <= j < N(s.core) ==> !Replied(s.core.round, s.core.second, s.core.slots[j].client)
    ensures StillChange(cfg, s, Next(cfg, s, Do(MainDo(m))))
  {
  }

  lemma ResetStaysActive(cfg: Config, s: Cluster, m: MainStep)
    requires Shape(cfg, s) && Enabled(cfg, s, Do(MainDo(m))) && (m.ResetSlot? || m.ResetDone?)
    requires s.core.second ==> s.core.verdict == RequestSuccess || s.core.verdict == RequestFail
    ensures var c, c' := s.core, Next(cfg, s, Do(MainDo(m))).core;
      && Active(c.pc) && Active(c'.pc) && !c'.pc.WaitSum? && c'.workers == c.workers && c'.counts == c.counts
      && c'.pause == c.pause && c'.verdict == c.verdict
  {
  }

  lemma ResetKeepsExact(cfg: Config, s: Cluster, m: MainStep)
    requires LinksOk(s) && CoordInv(s) && Exact(cfg, s) && Enabled(cfg, s, Do(MainDo(m)))
    requires m.ResetSlot? || m.ResetDone?
    ensures Exact(cfg, Next(cfg, s, Do(MainDo(m))))
  {
    var c := s.core;
    forall j | 0 <= j < N(c)
      ensures !Replied(c.round, c.second, c.slots[j].client)
    {
      NoReplyBeforeSend(c.round, c.second, c.verdict, Wiped(c.pc, j), c.slots[j], s.chans[j]);
    }
    ResetIsStill(cfg, s, m);
    ResetStaysActive(cfg, s, m);
    ActiveStaysExact(cfg, s, Next(cfg, s, Do(MainDo(m))));
  }

  // The main thread moves on inside the active part of a phase.
  lemma ActiveStaysExact(cfg: Config, s: Cluster, s': Cluster)
    requires Exact(cfg, s) && StillChange(cfg, s, s') && Active(s.core.pc) && Active(s'.core.pc)
    requires s'.core.workers == s.core.workers && s'.core.counts == s.core.counts
    requires s'.core.pause == s.core.pause && s'.core.verdict == s.core.verdict
    requires SumOk(s.core.counts, s'.core.pc)
    ensures Exact(cfg, s')
  {
    StillKeepsLinks(cfg, s, s');
  }

  lemma SendIsStill(cfg: Config, s: Cluster, m: MainStep)
    requires Shape(cfg, s) && Enabled(cfg, s, Do(MainDo(m)))
    requires m.StampOne? || m.PrepDone? || m.CheckSend? || m.Visit? || m.VisitAcked? || m.VisitAgain?
    ensures StillChange(cfg, s, Next(cfg, s, Do(MainDo(m))))
  {
  }

  lemma SendKeepsExact(cfg: Config, s: Cluster, m: MainStep)
    requires Exact(cfg, s) && Enabled(cfg, s, Do(MainDo(m)))
    requires m.StampOne? || m.PrepDone? || m.CheckSend? || m.Visit? || m.VisitAcked? || m.VisitAgain?
    ensures Exact(cfg, Next(cfg, s, Do(MainDo(m))))
  {
    SendIsStill(cfg, s, m);
    ActiveStaysExact(cfg, s, Next(cfg, s, Do(MainDo(m))));
  }

  lemma FullSumMeansCounted(cfg: Config, s: Cluster)
    requires Shape(cfg, s) && CountersOk(s.core.counts, Flags(cfg, s), cfg.owner)
    ensures SumTo(s.core.counts, |s.core.counts|) <= N(s.core)
    ensures SumTo(s.core.counts, |s.core.counts|) == N(s.core) <==> AllCounted(cfg, s)
  {
    var flags := Flags(cfg, s);
    CountersAddUp(s.core.counts, flags, cfg.owner);
    assert forall j :: 0 <= j < N(s.core) ==> flags[j] == CountedAt(cfg, s, j);
  }

  lemma WaitIsStill(cfg: Config, s: Cluster, m: MainStep)
    requires Shape(cfg, s) && Enabled(cfg, s, Do(MainDo(m))) && (m.StartSum? || m.AddCount? || m.Decide?)
    ensures StillChange(cfg, s, Next(cfg, s, Do(MainDo(m))))
  {
  }

  /** The wait: a complete sum of the counters reaches the number of clients only when every answer is counted. */
  lemma WaitStaysActive(cfg: Config, c: Core, m: MainStep)
    requires MainEnabled(cfg, c, m) && (m.StartSum? || m.AddCount? || m.Decide?) && SumOk(c.counts, c.pc)
    ensures Active(c.pc)
    ensures var c' := MainNext(cfg, c, m);
      && c'.workers == c.workers && c'.counts == c.counts && c'.pause == c.pause && c'.verdict == c.verdict
      && (c'.pc != Pausing ==> Active(c'.pc) && SumOk(c'.counts, c'.pc))
      && (c'.pc == Pausing ==> m.Decide?)
  {
  }

  lemma WaitKeepsExact(cfg: Config, s: Cluster, m: MainStep)
    requires Exact(cfg, s) && Enabled(cfg, s, Do(MainDo(m))) && (m.StartSum? || m.AddCount? || m.Decide?)
    ensures Exact(cfg, Next(cfg, s, Do(MainDo(m))))
  {
    var s' := Next(cfg, s, Do(MainDo(m)));
    WaitIsStill(cfg, s, m);
    WaitStaysActive(cfg, s.core, m);
    if s'.core.pc == Pausing {
      FullSumMeansCounted(cfg, s);
      StillKeepsLinks(cfg, s, s');
    } else {
      ActiveStaysExact(cfg, s, s');
    }
  }

  lemma ScanIsStill(cfg: Config, s: Cluster, m: MainStep)
    requires Shape(cfg, s) && Enabled(cfg, s, Do(MainDo(m))) && (m.Pause? || m.CheckScan? || m.ReadSlot? || m.ZeroOne?)
    ensures StillChange(cfg, s, Next(cfg, s, Do(MainDo(m))))
  {
  }

  // In phase 1 the scan finds yes or no in every slot, in phase 2 an acknowledgement.
  lemma ScanFindsAnswers(cfg: Config, s: Cluster)
    requires Exact(cfg, s) && s.core.pc.ScanRead? && s.core.pc.i < N(s.core)
    ensures var c := s.core; Answer(c.round, c.second, c.slots[c.pc.i].client, c.slots[c.pc.i].board)
  {
    assert LinkExactAt(cfg, s, s.core.pc.i) && CountedAt(cfg, s, s.core.pc.i);
  }

  lemma WindowStaysExact(cfg: Config, s: Cluster, s': Cluster)
    requires Exact(cfg, s) && StillChange(cfg, s, s') && !Active(s.core.pc) && !Active(s'.core.pc)
    requires s.core.pc != Term && s'.core.workers == s.core.workers && s'.core.verdict == s.core.verdict
    requires s'.core.result != ClusterFail && s'.core.pc != Pausing && s'.core.pc != RoundEnd
    requires s'.core.pc.ZeroCount? ==> ZeroBelow(s'.core.counts, s'.core.pc.t)
    requires s'.core.pc == Unpausing ==> ZeroBelow(s'.core.counts, |s'.core.counts|)
    ensures Exact(cfg, s')
  {
    StillKeepsLinks(cfg, s, s');
  }

  // A scan meets only answers of its phase, so it goes on and finds no failure.
  lemma ReadGoesOn(cfg: Config, s: Cluster)
    requires Exact(cfg, s) && Enabled(cfg, s, Do(MainDo(ReadSlot)))
    ensures var c' := MainNext(cfg, s.core, ReadSlot); c'.pc == ScanCheck(s.core.pc.i + 1) && c'.result != ClusterFail
  {
    ScanFindsAnswers(cfg, s);
  }

  lemma ScanStaysInWindow(cfg: Config, s: Cluster, m: MainStep)
    requires Exact(cfg, s) && Enabled(cfg, s, Do(MainDo(m)))
    requires m.Pause? || m.CheckScan? || m.ReadSlot? || m.ZeroOne?
    ensures !Active(s.core.pc) && s.core.pc != Term
    ensures var c' := MainNext(cfg, s.core, m);
      && !Active(c'.pc) && c'.workers == s.core.workers && c'.verdict == s.core.verdict
      && c'.result != ClusterFail && c'.pc != Pausing && c'.pc != RoundEnd
      && (c'.pc.ZeroCount? ==> ZeroBelow(c'.counts, c'.pc.t))
      && (c'.pc == Unpausing ==> ZeroBelow(c'.counts, |c'.counts|))
  {
    if m.ReadSlot? {
      ReadGoesOn(cfg, s);
    }
  }

  lemma ScanKeepsExact(cfg: Config, s: Cluster, m: MainStep)
    requires Exact(cfg, s) && Enabled(cfg, s, Do(MainDo(m)))
    requires m.Pause? || m.CheckScan? || m.ReadSlot? || m.ZeroOne?
    ensures Exact(cfg, Next(cfg, s, Do(MainDo(m))))
  {
    ScanStaysInWindow(cfg, s, m);
    ScanIsStill(cfg, s, m);
    WindowStaysExact(cfg, s, Next(cfg, s, Do(MainDo(m))));
  }

  // A new phase starts with no answer, no message on the way up and all counters at zero.
  lemma FreshPhase(cfg: Config, s: Cluster)
    requires Shape(cfg, s) && s.core.pc == Reset(0) && !s.core.pause && ZeroBelow(s.core.counts, |s.core.counts|)
    requires forall t :: 0 <= t < |s.core.workers| ==> !s.core.workers[t].Loaded?
    requires forall j :: 0 <= j < N(s.core) ==> !Replied(s.core.round, s.core.second, s.core.slots[j].client)
    ensures ActiveOk(cfg, s)
  {
    var flags := Flags(cfg, s);
    forall t | 0 <= t < |s.core.counts|
      ensures CountFor(flags, cfg.owner, t) == 0
    {
      CountForNone(flags, cfg.owner, t);
    }
  }

  lemma NoMidWhenCounted(cfg: Config, s: Cluster)
    requires Shape(cfg, s) && MidsOwned(cfg, s.core) && AllCounted(cfg, s)
    ensures forall t :: 0 <= t < |s.core.workers| ==> !s.core.workers[t].Loaded?
    ensures forall j :: 0 <= j < N(s.core) ==> !Mid(s.core.workers[cfg.owner[j]], j)
  {
    forall j | 0 <= j < N(s.core)
      ensures !Mid(s.core.workers[cfg.owner[j]], j)
    {
      assert CountedAt(cfg, s, j);
    }
  }

  // A counted vote is no answer to the decision that follows.
  lemma VoteIsNoAck(r: nat, verdict: Status, x: Slot, ch: Chan, up: seq<Kind>, mid: bool)
    requires LinkInv(r, false, verdict, true, x, ch) && LinkExact(r, false, x.client, x.board, up, mid)
    requires Counted(r, false, x.client, x.board, mid)
    ensures !Replied(r, true, x.client) && LinkExact(r, true, x.client, x.board, up, mid)
  {
  }

  lemma PhaseTwoStartsFresh(cfg: Config, s: Cluster, j: nat)
    requires LinksOk(s) && Exact(cfg, s) && s.core.pc == Unpausing && !s.core.second && j < N(s.core)
    ensures !Replied(s.core.round, true, s.core.slots[j].client)
    ensures LinkExactAt(cfg, Next(cfg, s, Do(MainDo(Unpause))), j)
  {
    var c := s.core;
    assert CountedAt(cfg, s, j) && LinkExactAt(cfg, s, j);
    VoteIsNoAck(c.round, c.verdict, c.slots[j], s.chans[j], Up(s, j), Mid(c.workers[cfg.owner[j]], j));
  }

  lemma PhaseStartsExact(cfg: Config, s: Cluster, s': Cluster)
    requires Exact(cfg, s) && (s.core.pc == Unpausing || s.core.pc == RoundEnd) && Shape(cfg, s')
    requires s'.core.workers == s.core.workers && s'.core.counts == s.core.counts
    requires s'.core.pc == Reset(0) && !s'.core.pause && (s'.core.second ==> s'.core.verdict != ClusterFail)
    requires forall j :: 0 <= j < N(s'.core) ==> LinkExactAt(cfg, s', j)
    requires forall j :: 0 <= j < N(s'.core) ==> !Replied(s'.core.round, s'.core.second, s'.core.slots[j].client)
    ensures Exact(cfg, s')
  {
    NoMidWhenCounted(cfg, s);
    FreshPhase(cfg, s');
  }

  // What the two steps that start a phase do to the main thread's variables.
  lemma FirstUnpauseSteps(cfg: Config, s: Cluster)
    requires Shape(cfg, s) && Enabled(cfg, s, Do(MainDo(Unpause))) && !s.core.second
    ensures var c, c' := s.core, Next(cfg, s, Do(MainDo(Unpause))).core;
      && c'.pc == Reset(0) && !c'.pause && c'.second && c'.verdict == c.result && c'.round == c.round
      && c'.workers == c.workers && c'.counts == c.counts && c'.slots == c.slots
      && Shape(cfg, Next(cfg, s, Do(MainDo(Unpause))))
  {
  }

  lemma NextRoundSteps(cfg: Config, s: Cluster)
    requires Shape(cfg, s) && Enabled(cfg, s, Do(MainDo(NextRound)))
    ensures var c, c' := s.core, Next(cfg, s, Do(MainDo(NextRound))).core;
      && c'.workers == c.workers && c'.counts == c.counts && c'.slots == c.slots && c'.pause == c.pause
      && (if c.stop then c'.pc == Term else c'.pc == Reset(0) && !c'.second && c'.round == c.round + 1)
      && Shape(cfg, Next(cfg, s, Do(MainDo(NextRound))))
  {
  }

  lemma FirstUnpauseKeepsExact(cfg: Config, s: Cluster)
    requires LinksOk(s) && Exact(cfg, s) && Enabled(cfg, s, Do(MainDo(Unpause))) && !s.core.second
    ensures Exact(cfg, Next(cfg, s, Do(MainDo(Unpause))))
  {
    var s' := Next(cfg, s, Do(MainDo(Unpause)));
    FirstUnpauseSteps(cfg, s);
    forall j | 0 <= j < N(s.core)
      ensures !Replied(s.core.round, true, s.core.slots[j].client) && LinkExactAt(cfg, s', j)
    {
      PhaseTwoStartsFresh(cfg, s, j);
    }
    PhaseStartsExact(cfg, s, s');
  }

  lemma SecondUnpauseKeepsExact(cfg: Config, s: Cluster)
    requires Exact(cfg, s) && Enabled(cfg, s, Do(MainDo(Unpause))) && s.core.second
    ensures Exact(cfg, Next(cfg, s, Do(MainDo(Unpause))))
  {
    StillKeepsLinks(cfg, s, Next(cfg, s, Do(MainDo(Unpause))));
  }

  lemma NextRoundStartsFresh(cfg: Config, s: Cluster, j: nat)
    requires LinksOk(s) && Exact(cfg, s) && s.core.pc == RoundEnd && !s.core.stop && j < N(s.core)
    ensures !Replied(s.core.round + 1, false, s.core.slots[j].client)
    ensures LinkExactAt(cfg, Next(cfg, s, Do(MainDo(NextRound))), j)
  {
    var c := s.core;
    assert CountedAt(cfg, s, j);
    assert LinkInv(c.round, c.second, c.verdict, true, c.slots[j], s.chans[j]);
  }

  lemma NextRoundKeepsExact(cfg: Config, s: Cluster)
    requires LinksOk(s) && Exact(cfg, s) && Enabled(cfg, s, Do(MainDo(NextRound)))
    ensures Exact(cfg, Next(cfg, s, Do(MainDo(NextRound))))
  {
    var s' := Next(cfg, s, Do(MainDo(NextRound)));
    NextRoundSteps(cfg, s);
    if !s.core.stop {
      forall j | 0 <= j < N(s.core)
        ensures !Replied(s.core.round + 1, false, s.core.slots[j].client) && LinkExactAt(cfg, s', j)
      {
        NextRoundStartsFresh(cfg, s, j);
      }
      PhaseStartsExact(cfg, s, s');
    }
  }

  // ----- whole runs -----

  lemma MainDoKeepsExact(cfg: Config, s: Cluster, m: MainStep)
    requires Inv(cfg, s) && Exact(cfg, s) && Enabled(cfg, s, Do(MainDo(m))) && !cfg.timeouts
    ensures Exact(cfg, Next(cfg, s, Do(MainDo(m))))
  {
    match m
    case ResetSlot => ResetKeepsExact(cfg, s, m);
    case ResetDone => ResetKeepsExact(cfg, s, m);
    case StartSum => WaitKeepsExact(cfg, s, m);
    case AddCount => WaitKeepsExact(cfg, s, m);
    case Decide => WaitKeepsExact(cfg, s, m);
    case Pause => ScanKeepsExact(cfg, s, m);
    case CheckScan => ScanKeepsExact(cfg, s, m);
    case ReadSlot => ScanKeepsExact(cfg, s, m);
    case ZeroOne => ScanKeepsExact(cfg, s, m);
    case Unpause =>
      if s.core.second {
        SecondUnpauseKeepsExact(cfg, s);
      } else {
        FirstUnpauseKeepsExact(cfg, s);
      }
    case NextRound => NextRoundKeepsExact(cfg, s);
    case Terminate =>
    case Timeout =>
    case _ => SendKeepsExact(cfg, s, m);
  }

  lemma WorkerDoKeepsExact(cfg: Config, s: Cluster, t: nat, w: WorkStep)
    requires Inv(cfg, s) && Exact(cfg, s) && Enabled(cfg, s, Do(WorkerDo(t, w)))
    ensures Exact(cfg, Next(cfg, s, Do(WorkerDo(t, w))))
  {
    match w
    case Receive(j, kind) => ReceiveKeepsExact(cfg, s, t, j, kind);
    case Score => ScoreKeepsExact(cfg, s, t);
    case StoreCount => StoreKeepsExact(cfg, s, t);
    case _ => PcOnlyKeepsExact(cfg, s, t, w);
  }

  lemma RaiseKeepsExact(cfg: Config, s: Cluster)
    requires Exact(cfg, s)
    ensures Exact(cfg, Next(cfg, s, Do(RaiseStop)))
  {
    if s.core.pc != Term {
      StillKeepsLinks(cfg, s, Next(cfg, s, Do(RaiseStop)));
    }
  }

  // A message that is lost was not counted.
  lemma LossKeepsExact(cfg: Config, s: Cluster, a: Action, j: nat)
    requires Exact(cfg, s) && Enabled(cfg, s, a) && ((a.LoseDown? && a.j == j) || (a.LoseUp? && a.j == j))
    ensures Exact(cfg, Next(cfg, s, a))
  {
    if s.core.pc != Term {
      assert LinkExactAt(cfg, s, j);
      QuietKeepsExact(cfg, s, Next(cfg, s, a), j);
    }
  }

  lemma StepKeepsExact(cfg: Config, s: Cluster, a: Action)
    requires Inv(cfg, s) && Exact(cfg, s) && Enabled(cfg, s, a) && !cfg.timeouts
    ensures Exact(cfg, Next(cfg, s, a))
  {
    match a
    case Do(MainDo(m)) => MainDoKeepsExact(cfg, s, m);
    case Do(WorkerDo(t, w)) => WorkerDoKeepsExact(cfg, s, t, w);
    case Do(ClientDo(j, act)) => ClientKeepsExact(cfg, s, j, act);
    case Do(RaiseStop) => RaiseKeepsExact(cfg, s);
    case LoseDown(j, i) => LossKeepsExact(cfg, s, a, j);
    case LoseUp(j, i) => LossKeepsExact(cfg, s, a, j);
  }

  lemma InitialExact(cfg: Config, s: Cluster)
    requires ValidConfig(cfg) && Initial(cfg, s)
    ensures Exact(cfg, s)
  {
    forall j | 0 <= j < N(s.core)
      ensures LinkExactAt(cfg, s, j) && !Replied(0, false, s.core.slots[j].client)
    {
      assert InitialSlot(j, s.core.slots[j]);
    }
    FreshPhase(cfg, s);
  }

  lemma {:induction false} RunKeepsExact(cfg: Config, s: Cluster, actions: seq<Action>)
    requires Inv(cfg, s) && Exact(cfg, s) && Exec(cfg, s, actions).Some? && !cfg.timeouts
    ensures Exact(cfg, Exec(cfg, s, actions).value)
    decreases |actions|
  {
    if actions != [] {
      StepKeepsExact(cfg, s, actions[0]);
      StepKeepsInv(cfg, s, actions[0]);
      RunKeepsExact(cfg, Next(cfg, s, actions[0]), actions[1..]);
    }
  }

  lemma ReachableExact(cfg: Config, s: Cluster)
    requires Reachable(cfg, s) && !cfg.timeouts
    ensures Exact(cfg, s)
  {
    var s0, actions :| Initial(cfg, s0) && Exec(cfg, s0, actions) == Some(s);
    InitialInv(cfg, s0);
    InitialExact(cfg, s0);
    RunKeepsExact(cfg, s0, actions);
  }

  /** While a phase is active the counters never exceed the number of clients, and reach it exactly when
      every client's answer to this phase has been scored and counted. */
  lemma CountersAreExact(cfg: Config, s: Cluster)
    requires Reachable(cfg, s) && !cfg.timeouts && Active(s.core.pc)
    ensures Shape(cfg, s)
    ensures SumTo(s.core.counts, |s.core.counts|) <= N(s.core)
    ensures SumTo(s.core.counts, |s.core.counts|) == N(s.core) <==> AllCounted(cfg, s)
  {
    ReachableExact(cfg, s);
    FullSumMeansCounted(cfg, s);
  }

  // The main thread is between the end of a wait and the end of the scan that follows.
  predicate Scanning(pc: CoordPc) { pc == Pausing || pc.ScanCheck? || pc.ScanRead? }

  /** The wait never ends early: when it is over every scoreboard slot holds the answer of this phase, yes or no
      in phase 1 and an acknowledgement in phase 2. */
  lemma WaitNeverEndsEarly(cfg: Config, s: Cluster, j: nat)
    requires Reachable(cfg, s) && !cfg.timeouts && Scanning(s.core.pc) && j < N(s.core)
    ensures |s.chans| == N(s.core)
    ensures var x := s.core.slots[j];
      && Replied(s.core.round, s.core.second, x.client) && Answer(s.core.round, s.core.second, x.client, x.board)
      && x.held == None && s.chans[j].up == []
  {
    ReachableExact(cfg, s);
    assert CountedAt(cfg, s, j) && LinkExactAt(cfg, s, j);
  }

  /** Without timeouts no phase ever reports that the cluster failed. */
  lemma ClusterNeverFails(cfg: Config, s: Cluster)
    requires Reachable(cfg, s) && !cfg.timeouts && s.core.pc != Term
    ensures s.core.second ==> s.core.verdict != ClusterFail
    ensures !Active(s.core.pc) && s.core.pc != Pausing ==> s.core.result != ClusterFail
  {
    ReachableExact(cfg, s);
  }

  function AddActions(k: nat): seq<Action> {
    if k == 0 then [Do(MainDo(Decide))] else [Do(MainDo(AddCount))] + AddActions(k - 1)
  }

  lemma {:induction false} SumReachesTotal(cfg: Config, s: Cluster)
    requires s.core.pc.WaitSum? && s.core.pc.t <= |s.core.counts| && s.core.pc.acc == SumTo(s.core.counts, s.core.pc.t)
    requires SumTo(s.core.counts, |s.core.counts|) >= N(s.core)
    ensures var r := Exec(cfg, s, AddActions(|s.core.counts| - s.core.pc.t));
      r.Some? && r.value.core.pc == Pausing
    decreases |s.core.counts| - s.core.pc.t
  {
    var k := |s.core.counts| - s.core.pc.t;
    if k == 0 {
      assert AddActions(k)[1..] == [];
    } else {
      assert AddActions(k)[1..] == AddActions(k - 1);
      SumReachesTotal(cfg, Next(cfg, s, Do(MainDo(AddCount))));
    }
  }

  // One sum of the counters.
  function SumActions(c: Core): seq<Action> { [Do(MainDo(StartSum))] + AddActions(|c.counts|) }

  lemma SumEndsWait(cfg: Config, s: Cluster)
    requires s.core.pc == WaitTop && SumTo(s.core.counts, |s.core.counts|) >= N(s.core)
    ensures var r := Exec(cfg, s, SumActions(s.core)); r.Some? && r.value.core.pc == Pausing
  {
    SumReachesTotal(cfg, Next(cfg, s, Do(MainDo(StartSum))));
    assert SumActions(s.core)[1..] == AddActions(|s.core.counts|);
  }

  /** The wait never misses a vote: once every answer is counted, one more sum of the counters ends it. */
  lemma WaitNeverMisses(cfg: Config, s: Cluster)
    requires Reachable(cfg, s) && !cfg.timeouts && s.core.pc == WaitTop
    requires Shape(cfg, s) && AllCounted(cfg, s)
    ensures var r := Exec(cfg, s, SumActions(s.core)); r.Some? && r.value.core.pc == Pausing
  {
    CountersAreExact(cfg, s);
    SumEndsWait(cfg, s);
  }
}
