/** The wait for votes does not look at the stop signal: once the worker threads have left, it
    ends by itself or never. */
module TwoPhaseWait {
  import opened Protocol
  import opened Counting
  import opened TwoPhase
  import opened TwoPhaseExact
  import opened TwoPhaseTheorems

  // The main thread waits, and every worker thread has seen the stop signal and left.
  predicate Alone(c: Core) {
    && |c.workers| == |c.counts| && (forall t :: 0 <= t < |c.workers| ==> c.workers[t] == Exited)
    && (c.pc == WaitTop || (c.pc.WaitSum? && c.pc.t <= |c.counts| && c.pc.acc == SumTo(c.counts, c.pc.t)))
  }

  // ... with fewer votes counted than there are clients.
  predicate Short(c: Core) { SumTo(c.counts, |c.counts|) < N(c) }

  predicate Stuck(c: Core) { c.pc == Term || (Alone(c) && Short(c)) }

  lemma StuckMain(cfg: Config, c: Core, m: MainStep)
    requires Stuck(c) && MainEnabled(cfg, c, m) && !cfg.timeouts
    ensures Stuck(MainNext(cfg, c, m))
  {
  }

  lemma StuckStep(cfg: Config, c: Core, st: Step)
    requires Stuck(c) && CoreEnabled(cfg, c, st) && !cfg.timeouts
    ensures Stuck(CoreNext(cfg, c, st))
  {
    if st.MainDo? {
      StuckMain(cfg, c, st.m);
    }
  }

  lemma {:induction false} StuckForever(cfg: Config, s: Cluster, actions: seq<Action>)
    requires Stuck(s.core) && Exec(cfg, s, actions).Some? && !cfg.timeouts
    ensures Stuck(Exec(cfg, s, actions).value.core)
    decreases |actions|
  {
    if actions != [] {
      if actions[0].Do? {
        StuckStep(cfg, s.core, actions[0].st);
      }
      StuckForever(cfg, Next(cfg, s, actions[0]), actions[1..]);
    }
  }

  // Some continuation gets past the wait.
  ghost predicate CanLeave(cfg: Config, s: Cluster) {
    exists actions :: Exec(cfg, s, actions).Some? && Exec(cfg, s, actions).value.core.pc == Pausing
  }

  /** With the workers gone the wait can be left if and only if it has a timeout or the counters already add up to the
      number of clients; otherwise only termination ends it, whatever the clients and the network do. */
  lemma WaitEndsIfCounted(cfg: Config, s: Cluster)
    requires s.core.pc == WaitTop && Alone(s.core)
    ensures CanLeave(cfg, s) <==> cfg.timeouts || !Short(s.core)
  {
    if cfg.timeouts {
      ExecOne(cfg, s, Do(MainDo(Timeout)));
    } else if Short(s.core) {
      if CanLeave(cfg, s) {
        var actions :| Exec(cfg, s, actions).Some? && Exec(cfg, s, actions).value.core.pc == Pausing;
        StuckForever(cfg, s, actions);
      }
    } else {
      SumEndsWait(cfg, s);
    }
  }

  // ----- such waits exist -----

  // Some list of actions leads from one state to the other.
  ghost predicate Leads(cfg: Config, s: Cluster, s': Cluster) { exists actions :: Exec(cfg, s, actions) == Some(s') }

  lemma LeadsOn(cfg: Config, s: Cluster, s1: Cluster, a: Action)
    requires Leads(cfg, s, s1) && Enabled(cfg, s1, a)
    ensures Leads(cfg, s, Next(cfg, s1, a))
  {
    var actions :| Exec(cfg, s, actions) == Some(s1);
    ExecOne(cfg, s1, a);
    ExecConcat(cfg, s, actions, [a]);
  }

  // The main thread is at the given place, workers are between two passes from thread t on and gone below.
  predicate Quiet(cfg: Config, c: Core, pc: CoordPc, t: nat) {
    && c.pc == pc && N(c) == |cfg.owner| && |c.workers| == |c.counts| == cfg.threads && !c.second
    && forall u :: 0 <= u < cfg.threads ==> c.counts[u] == 0 && c.workers[u] == if u < t then Exited else Top
  }

  // The scoreboard is reset.
  lemma {:induction false} Resets(cfg: Config, s: Cluster, s1: Cluster, i: nat) returns (s2: Cluster)
    requires Leads(cfg, s, s1) && i <= N(s1.core) && Quiet(cfg, s1.core, Reset(i), 0)
    ensures Leads(cfg, s, s2) && Quiet(cfg, s2.core, Prep, 0)
    decreases N(s1.core) - i
  {
    if i == N(s1.core) {
      LeadsOn(cfg, s, s1, Do(MainDo(ResetDone)));
      s2 := Next(cfg, s1, Do(MainDo(ResetDone)));
    } else {
      LeadsOn(cfg, s, s1, Do(MainDo(ResetSlot)));
      s2 := Resets(cfg, s, Next(cfg, s1, Do(MainDo(ResetSlot))), i + 1);
    }
  }

  // The stop signal comes before anything is sent, so send_request returns at once.
  lemma Stops(cfg: Config, s: Cluster, s1: Cluster) returns (s2: Cluster)
    requires Leads(cfg, s, s1) && Quiet(cfg, s1.core, Prep, 0)
    ensures Leads(cfg, s, s2) && Quiet(cfg, s2.core, WaitTop, 0) && s2.core.stop
  {
    var raised := Next(cfg, s1, Do(RaiseStop));
    var prepared := Next(cfg, raised, Do(MainDo(PrepDone)));
    LeadsOn(cfg, s, s1, Do(RaiseStop));
    LeadsOn(cfg, s, raised, Do(MainDo(PrepDone)));
    LeadsOn(cfg, s, prepared, Do(MainDo(CheckSend)));
    s2 := Next(cfg, prepared, Do(MainDo(CheckSend)));
  }

  // The workers see it and leave.
  lemma {:induction false} Leaves(cfg: Config, s: Cluster, s1: Cluster, t: nat) returns (s2: Cluster)
    requires Leads(cfg, s, s1) && t <= cfg.threads && Quiet(cfg, s1.core, WaitTop, t) && s1.core.stop
    ensures Leads(cfg, s, s2) && Quiet(cfg, s2.core, WaitTop, cfg.threads)
    decreases cfg.threads - t
  {
    if t == cfg.threads {
      s2 := s1;
    } else {
      LeadsOn(cfg, s, s1, Do(WorkerDo(t, Leave)));
      s2 := Leaves(cfg, s, Next(cfg, s1, Do(WorkerDo(t, Leave))), t + 1);
    }
  }

  lemma {:induction false} SumOfZeros(counts: seq<int>, t: nat)
    requires t <= |counts| && forall u :: 0 <= u < |counts| ==> counts[u] == 0
    ensures SumTo(counts, t) == 0
  {
    if t > 0 {
      SumOfZeros(counts, t - 1);
    }
  }

  /** For any number of clients and threads such a wait is reached: a stop signal before the first request goes out
      leaves the main thread waiting, with all workers gone, for votes that nobody has been asked for. */
  lemma EndlessWaitIsReached(cfg: Config) returns (s: Cluster)
    requires ValidConfig(cfg) && |cfg.owner| > 0 && !cfg.timeouts
    ensures Reachable(cfg, s) && s.core.pc == WaitTop && Alone(s.core) && Short(s.core) && !CanLeave(cfg, s)
  {
    var s0 := Cluster(FirstCore(cfg), seq(|cfg.owner|, _ => Chan([], [])));
    assert Initial(cfg, s0);
    assert Exec(cfg, s0, []) == Some(s0);
    var s1 := Resets(cfg, s0, s0, 0);
    var s2 := Stops(cfg, s0, s1);
    s := Leaves(cfg, s0, s2, 0);
    SumOfZeros(s.core.counts, |s.core.counts|);
    WaitEndsIfCounted(cfg, s);
  }
}
