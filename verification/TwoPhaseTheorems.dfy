/** What two-phase commit promises over whole runs, with losses, late messages, timeouts and stop signals. */
module TwoPhaseTheorems {
  import opened Protocol
  import opened TwoPhase
  import opened TwoPhaseSafety

  ghost predicate Reachable(cfg: Config, s: Cluster) {
    && ValidConfig(cfg)
    && exists s0, actions :: Initial(cfg, s0) && Exec(cfg, s0, actions) == Some(s)
  }

  lemma ReachableInv(cfg: Config, s: Cluster)
    requires Reachable(cfg, s)
    ensures Inv(cfg, s)
  {
    var s0, actions :| Initial(cfg, s0) && Exec(cfg, s0, actions) == Some(s);
    InitialInv(cfg, s0);
    RunKeepsInv(cfg, s0, actions);
  }

  /** A commit message of round r is written to a client only if every client voted yes in that same round,
      and a cancel message only if some client voted no in it. */
  lemma DecisionsFollowVotes(cfg: Config, s: Cluster, j: nat, r: nat)
    requires Reachable(cfg, s) && j < N(s.core) && r < |s.core.slots[j].orders|
    ensures s.core.slots[j].orders[r] ==> AllYes(s.core.slots, r)
    ensures !s.core.slots[j].orders[r] ==> SomeNo(s.core.slots, r)
  {
    ReachableInv(cfg, s);
    assert OrderOk(s.core.slots, r, s.core.slots[j].orders[r]);
  }

  // What a client acted on in a round is what was written to it in that round.
  lemma ActedAsOrdered(cfg: Config, s: Cluster, j: nat)
    requires Reachable(cfg, s) && j < N(s.core)
    ensures s.core.slots[j].client.acted <= s.core.slots[j].orders
  {
    ReachableInv(cfg, s);
    assert LinkInv(s.core.round, s.core.second, s.core.verdict, Wiped(s.core.pc, j), s.core.slots[j], s.chans[j]);
  }

  /** No two clients act on different decisions for the same round, and a client commits only when all voted yes. */
  lemma Agreement(cfg: Config, s: Cluster, j: nat, k: nat, r: nat)
    requires Reachable(cfg, s) && j < N(s.core) && k < N(s.core)
    requires r < |s.core.slots[j].client.acted| && r < |s.core.slots[k].client.acted|
    ensures s.core.slots[j].client.acted[r] == s.core.slots[k].client.acted[r]
    ensures s.core.slots[j].client.acted[r] ==> AllYes(s.core.slots, r)
  {
    ActedAsOrdered(cfg, s, j);
    ActedAsOrdered(cfg, s, k);
    DecisionsFollowVotes(cfg, s, j, r);
    DecisionsFollowVotes(cfg, s, k, r);
  }

  /** When phase 2 returns success with the stop signal clear, every client has voted in and acted on exactly the
      rounds so far, the last one as decided, and nothing is in flight to or from it. */
  lemma CompletedRoundsSynchronise(cfg: Config, s: Cluster, j: nat)
    requires Reachable(cfg, s) && s.core.pc == RoundEnd && !s.core.stop && j < N(s.core)
    ensures |s.chans| == N(s.core)
    ensures var x := s.core.slots[j];
      && |x.client.votes| == |x.client.acted| == s.core.round + 1
      && x.client.acted[s.core.round] == (s.core.verdict == RequestSuccess)
      && (x.client.pc == AckWritten || x.client.pc == AwaitRequest)
      && s.chans[j] == Chan([], []) && x.held == None
  {
    ReachableInv(cfg, s);
    var c := s.core;
    assert Synced(c.round, c.slots[j], s.chans[j]);
    assert LinkInv(c.round, c.second, c.verdict, true, c.slots[j], s.chans[j]);
  }

  // The stop signal is up and the main thread is not past the check that precedes a write.
  predicate Stopped(c: Core) { c.stop && c.pc != SendAct }

  predicate SameWrites(c: Core, c': Core) {
    && N(c') == N(c)
    && forall j :: 0 <= j < N(c) ==> c'.slots[j].orders == c.slots[j].orders && c'.slots[j].asked == c.slots[j].asked
  }

  // ... except for at most one message more to client k.
  predicate OneWrite(c: Core, c': Core, k: nat) {
    && N(c') == N(c)
    && (forall j :: 0 <= j < N(c) && j != k ==>
          c'.slots[j].orders == c.slots[j].orders && c'.slots[j].asked == c.slots[j].asked)
    && (k < N(c) ==> Added(c.slots[k], c'.slots[k]))
  }

  predicate Added(x: Slot, x': Slot) {
    || (x'.orders == x.orders && (x'.asked == x.asked || x'.asked == x.asked + 1))
    || (x'.asked == x.asked && |x'.orders| == |x.orders| + 1 && x.orders <= x'.orders)
  }

  lemma StoppedMainWritesNothing(cfg: Config, c: Core, m: MainStep)
    requires Stopped(c) && MainEnabled(cfg, c, m)
    ensures Stopped(MainNext(cfg, c, m)) && SameWrites(c, MainNext(cfg, c, m))
  {
  }

  lemma WorkerWritesNothing(cfg: Config, c: Core, t: nat, w: WorkStep)
    requires t < |c.workers| == |c.counts| && WorkEnabled(cfg, c, t, w)
    ensures var c' := WorkNext(cfg, c, t, w); c'.stop == c.stop && c'.pc == c.pc && SameWrites(c, c')
  {
  }

  lemma OtherStepWritesNothing(cfg: Config, c: Core, st: Step)
    requires CoreEnabled(cfg, c, st) && !st.MainDo?
    ensures var c' := CoreNext(cfg, c, st); (c.stop ==> c'.stop) && c'.pc == c.pc && SameWrites(c, c')
  {
    if st.WorkerDo? {
      WorkerWritesNothing(cfg, c, st.t, st.w);
    }
  }

  lemma StoppedStepWritesNothing(cfg: Config, c: Core, st: Step)
    requires Stopped(c) && CoreEnabled(cfg, c, st)
    ensures Stopped(CoreNext(cfg, c, st)) && SameWrites(c, CoreNext(cfg, c, st))
  {
    if st.MainDo? {
      StoppedMainWritesNothing(cfg, c, st.m);
    } else {
      OtherStepWritesNothing(cfg, c, st);
    }
  }

  // Behind a check that precedes a write only the main thread's next step writes, once.
  lemma CheckedMainWritesOnce(cfg: Config, c: Core, m: MainStep) returns (k: nat)
    requires c.stop && c.pc == SendAct && MainEnabled(cfg, c, m)
    ensures Stopped(MainNext(cfg, c, m)) && OneWrite(c, MainNext(cfg, c, m), k)
  {
    k := if m.Visit? then m.j else 0;
  }

  lemma SameAfter(c: Core, c1: Core, c2: Core, k: nat)
    requires (OneWrite(c, c1, k) && SameWrites(c1, c2)) || (SameWrites(c, c1) && OneWrite(c1, c2, k))
    ensures OneWrite(c, c2, k)
  {
  }

  // A run from behind the check writes nothing.
  lemma {:induction false} StopSilences(cfg: Config, s: Cluster, actions: seq<Action>)
    requires Stopped(s.core) && Exec(cfg, s, actions).Some?
    ensures SameWrites(s.core, Exec(cfg, s, actions).value.core)
    decreases |actions|
  {
    if actions != [] {
      if actions[0].Do? {
        StoppedStepWritesNothing(cfg, s.core, actions[0].st);
      }
      StopSilences(cfg, Next(cfg, s, actions[0]), actions[1..]);
    }
  }

  /** After the stop signal at most one more message is written, to one client, and none at all unless the main thread
      was between the check of the stop flag and the write that follows it. */
  lemma {:induction false} StopAllowsOneWrite(cfg: Config, s: Cluster, actions: seq<Action>)
    requires s.core.stop && Exec(cfg, s, actions).Some?
    ensures s.core.pc != SendAct ==> SameWrites(s.core, Exec(cfg, s, actions).value.core)
    ensures exists k :: OneWrite(s.core, Exec(cfg, s, actions).value.core, k)
    decreases |actions|
  {
    if s.core.pc != SendAct {
      StopSilences(cfg, s, actions);
      assert OneWrite(s.core, Exec(cfg, s, actions).value.core, 0);
    } else if actions == [] {
      assert OneWrite(s.core, s.core, 0);
    } else if actions[0].Do? && actions[0].st.MainDo? {
      var s1 := Next(cfg, s, actions[0]);
      var k := CheckedMainWritesOnce(cfg, s.core, actions[0].st.m);
      StopSilences(cfg, s1, actions[1..]);
      SameAfter(s.core, s1.core, Exec(cfg, s, actions).value.core, k);
    } else {
      var s1 := Next(cfg, s, actions[0]);
      if actions[0].Do? {
        OtherStepWritesNothing(cfg, s.core, actions[0].st);
      }
      StopAllowsOneWrite(cfg, s1, actions[1..]);
      var k :| OneWrite(s1.core, Exec(cfg, s, actions).value.core, k);
      SameAfter(s.core, s1.core, Exec(cfg, s, actions).value.core, k);
    }
  }

  lemma StoppedMainKeepsRound(cfg: Config, c: Core, m: MainStep)
    requires c.stop && MainEnabled(cfg, c, m)
    ensures MainNext(cfg, c, m).stop && MainNext(cfg, c, m).round == c.round
  {
  }

  lemma WorkerKeepsRound(cfg: Config, c: Core, t: nat, w: WorkStep)
    requires t < |c.workers| == |c.counts| && WorkEnabled(cfg, c, t, w)
    ensures WorkNext(cfg, c, t, w).stop == c.stop && WorkNext(cfg, c, t, w).round == c.round
  {
  }

  lemma StoppedStepKeepsRound(cfg: Config, c: Core, st: Step)
    requires c.stop && CoreEnabled(cfg, c, st)
    ensures CoreNext(cfg, c, st).stop && CoreNext(cfg, c, st).round == c.round
  {
    if st.MainDo? {
      StoppedMainKeepsRound(cfg, c, st.m);
    } else if st.WorkerDo? {
      WorkerKeepsRound(cfg, c, st.t, st.w);
    }
  }

  /** After the stop signal no further round begins. */
  lemma {:induction false} StopEndsRounds(cfg: Config, s: Cluster, actions: seq<Action>)
    requires s.core.stop && Exec(cfg, s, actions).Some?
    ensures Exec(cfg, s, actions).value.core.round == s.core.round
    decreases |actions|
  {
    if actions != [] {
      if actions[0].Do? {
        StoppedStepKeepsRound(cfg, s.core, actions[0].st);
      }
      StopEndsRounds(cfg, Next(cfg, s, actions[0]), actions[1..]);
    }
  }

  // Client j has stopped, having voted and acted like this.
  predicate Gone(c: Core, j: nat, votes: seq<bool>, acted: seq<bool>) {
    j < N(c) && c.slots[j].client.halted && c.slots[j].client.votes == votes && c.slots[j].client.acted == acted
  }

  lemma MainLeavesClients(cfg: Config, c: Core, m: MainStep, j: nat)
    requires MainEnabled(cfg, c, m) && j < N(c)
    ensures N(MainNext(cfg, c, m)) == N(c) && MainNext(cfg, c, m).slots[j].client == c.slots[j].client
  {
  }

  lemma WorkerLeavesClients(cfg: Config, c: Core, t: nat, w: WorkStep, j: nat)
    requires t < |c.workers| == |c.counts| && WorkEnabled(cfg, c, t, w) && j < N(c)
    ensures N(WorkNext(cfg, c, t, w)) == N(c) && WorkNext(cfg, c, t, w).slots[j].client == c.slots[j].client
  {
  }

  lemma GoneStays(cfg: Config, c: Core, st: Step, j: nat, votes: seq<bool>, acted: seq<bool>)
    requires Gone(c, j, votes, acted) && CoreEnabled(cfg, c, st)
    ensures Gone(CoreNext(cfg, c, st), j, votes, acted)
  {
    if st.MainDo? {
      MainLeavesClients(cfg, c, st.m, j);
    } else if st.WorkerDo? {
      WorkerLeavesClients(cfg, c, st.t, st.w, j);
    }
  }

  lemma {:induction false} GoneForever(cfg: Config, s: Cluster, actions: seq<Action>, j: nat, votes: seq<bool>,
      acted: seq<bool>)
    requires Gone(s.core, j, votes, acted) && Exec(cfg, s, actions).Some?
    ensures Gone(Exec(cfg, s, actions).value.core, j, votes, acted)
    decreases |actions|
  {
    if actions != [] {
      if actions[0].Do? {
        GoneStays(cfg, s.core, actions[0].st, j, votes, acted);
      }
      GoneForever(cfg, Next(cfg, s, actions[0]), actions[1..], j, votes, acted);
    }
  }

  /** A client process that has ended neither votes nor acts any more, whatever the others do. */
  lemma EndedClientIsSilent(cfg: Config, s: Cluster, j: nat, actions: seq<Action>)
    requires Enabled(cfg, s, Do(ClientDo(j, Halt))) && Exec(cfg, Next(cfg, s, Do(ClientDo(j, Halt))), actions).Some?
    ensures var cl := s.core.slots[j].client;
      Gone(Exec(cfg, Next(cfg, s, Do(ClientDo(j, Halt))), actions).value.core, j, cl.votes, cl.acted)
  {
    var cl := s.core.slots[j].client;
    GoneForever(cfg, Next(cfg, s, Do(ClientDo(j, Halt))), actions, j, cl.votes, cl.acted);
  }

  // The main thread is between the end of its wait and the release of the workers.
  predicate Concluding(pc: CoordPc) { pc.ScanCheck? || pc.ScanRead? || pc.ZeroCount? || pc == Unpausing }

  predicate PauseOk(c: Core) { c.pc != Term ==> (c.pause <==> Concluding(c.pc)) }

  lemma MainKeepsPause(cfg: Config, c: Core, m: MainStep)
    requires PauseOk(c) && MainEnabled(cfg, c, m)
    ensures PauseOk(MainNext(cfg, c, m))
  {
  }

  lemma WorkerKeepsPause(cfg: Config, c: Core, t: nat, w: WorkStep)
    requires t < |c.workers| == |c.counts| && WorkEnabled(cfg, c, t, w)
    ensures WorkNext(cfg, c, t, w).pc == c.pc && WorkNext(cfg, c, t, w).pause == c.pause
  {
  }

  lemma StepKeepsPause(cfg: Config, c: Core, st: Step)
    requires PauseOk(c) && CoreEnabled(cfg, c, st)
    ensures PauseOk(CoreNext(cfg, c, st))
  {
    if st.MainDo? {
      MainKeepsPause(cfg, c, st.m);
    } else if st.WorkerDo? {
      WorkerKeepsPause(cfg, c, st.t, st.w);
    }
  }

  lemma {:induction false} RunKeepsPause(cfg: Config, s: Cluster, actions: seq<Action>)
    requires PauseOk(s.core) && Exec(cfg, s, actions).Some?
    ensures PauseOk(Exec(cfg, s, actions).value.core)
    decreases |actions|
  {
    if actions != [] {
      if actions[0].Do? {
        StepKeepsPause(cfg, s.core, actions[0].st);
      }
      RunKeepsPause(cfg, Next(cfg, s, actions[0]), actions[1..]);
    }
  }

  /** From the end of a wait to the end of its phase, and at no other time, the workers are told to pause: while the
      scoreboard is scanned and the counters are cleared no worker begins a pass. */
  lemma PauseCoversScan(cfg: Config, s: Cluster, t: nat)
    requires Reachable(cfg, s) && s.core.pc != Term
    ensures s.core.pause <==> Concluding(s.core.pc)
    ensures Concluding(s.core.pc) && t < |s.core.workers| == |s.core.counts| ==> !WorkEnabled(cfg, s.core, t, StartPoll)
  {
    var s0, actions :| Initial(cfg, s0) && Exec(cfg, s0, actions) == Some(s);
    RunKeepsPause(cfg, s0, actions);
  }
}
