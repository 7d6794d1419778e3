/** Channels that lose nothing on the way to a client: no client ever meets a message it does not expect,
    timeouts or not. */
module TwoPhaseLossless {
  import opened Protocol
  import opened TwoPhase
  import opened TwoPhaseSafety
  import opened TwoPhaseTheorems

  // A request that was written and not yet received is at the head of the channel.
  predicate LinkKept(r: nat, cl: Client, asked: nat, down: seq<Kind>) {
    && !cl.violation
    && (asked == r + 1 && |cl.votes| == r && !cl.pc.CastVote? ==> down != [] && down[0] == Request)
  }

  predicate Kept(s: Cluster) {
    && |s.chans| == N(s.core)
    && forall j :: 0 <= j < N(s.core) ==>
         LinkKept(s.core.round, s.core.slots[j].client, s.core.slots[j].asked, s.chans[j].down)
  }

  lemma HearKeepsLinkKept(r: nat, second: bool, verdict: Status, wiped: bool, x: Slot, ch: Chan)
    requires LinkInv(r, second, verdict, wiped, x, ch) && LinkKept(r, x.client, x.asked, ch.down) && ch.down != []
    requires x.client.pc == AwaitRequest || x.client.pc == AwaitDecision
    ensures LinkKept(r, Heard(x.client, ch.down[0]), x.asked, ch.down[1..])
  {
  }

  lemma ClientKeepsKept(cfg: Config, s: Cluster, j: nat, a: ClientStep)
    requires Inv(cfg, s) && Kept(s) && Enabled(cfg, s, Do(ClientDo(j, a)))
    ensures Kept(Next(cfg, s, Do(ClientDo(j, a))))
  {
    var c := s.core;
    assert LinkInv(c.round, c.second, c.verdict, Wiped(c.pc, j), c.slots[j], s.chans[j]);
    var s' := Next(cfg, s, Do(ClientDo(j, a)));
    if a.Hear? {
      HearKeepsLinkKept(c.round, c.second, c.verdict, Wiped(c.pc, j), c.slots[j], s.chans[j]);
    }
    assert LinkKept(c.round, s'.core.slots[j].client, s'.core.slots[j].asked, s'.chans[j].down);
  }

  lemma WorkerTouchesNoClient(cfg: Config, c: Core, t: nat, w: WorkStep)
    requires t < |c.workers| == |c.counts| && WorkEnabled(cfg, c, t, w)
    ensures var c' := WorkNext(cfg, c, t, w);
      && N(c') == N(c) && c'.round == c.round
      && forall j :: 0 <= j < N(c) ==>
           c'.slots[j].client == c.slots[j].client && c'.slots[j].asked == c.slots[j].asked
  {
  }

  lemma WorkerKeepsDown(cfg: Config, s: Cluster, t: nat, w: WorkStep)
    requires Enabled(cfg, s, Do(WorkerDo(t, w)))
    ensures var chans := Next(cfg, s, Do(WorkerDo(t, w))).chans;
      |chans| == |s.chans| && forall j :: 0 <= j < |chans| ==> chans[j].down == s.chans[j].down
  {
  }

  lemma WorkerKeepsKept(cfg: Config, s: Cluster, t: nat, w: WorkStep)
    requires Inv(cfg, s) && Kept(s) && Enabled(cfg, s, Do(WorkerDo(t, w)))
    ensures Kept(Next(cfg, s, Do(WorkerDo(t, w))))
  {
    WorkerTouchesNoClient(cfg, s.core, t, w);
    WorkerKeepsDown(cfg, s, t, w);
    SameKept(s, Next(cfg, s, Do(WorkerDo(t, w))));
  }

  lemma SameKept(s: Cluster, s': Cluster)
    requires Kept(s) && N(s'.core) == N(s.core) && s'.core.round == s.core.round && |s'.chans| == |s.chans|
    requires forall j :: 0 <= j < N(s.core) ==>
      && s'.core.slots[j].client == s.core.slots[j].client && s'.core.slots[j].asked == s.core.slots[j].asked
      && s'.chans[j].down == s.chans[j].down
    ensures Kept(s')
  {
    forall j | 0 <= j < N(s'.core)
      ensures LinkKept(s'.core.round, s'.core.slots[j].client, s'.core.slots[j].asked, s'.chans[j].down)
    {
      assert LinkKept(s.core.round, s.core.slots[j].client, s.core.slots[j].asked, s.chans[j].down);
    }
  }

  lemma VisitKeepsKept(s: Cluster, s': Cluster, j: nat)
    requires VisitChange(s, s', j) && CoordInv(s) && LinksOk(s) && Kept(s)
    ensures Kept(s')
  {
    var c := s.core;
    assert LinkInv(c.round, c.second, c.verdict, true, c.slots[j], s.chans[j]);
    assert LinkKept(c.round, s'.core.slots[j].client, s'.core.slots[j].asked, s'.chans[j].down);
  }

  lemma NextRoundKeepsKept(cfg: Config, s: Cluster)
    requires LinksOk(s) && Kept(s) && Enabled(cfg, s, Do(MainDo(NextRound)))
    ensures Kept(Next(cfg, s, Do(MainDo(NextRound))))
  {
    var c := s.core;
    forall j | 0 <= j < N(c)
      ensures c.slots[j].asked <= c.round + 1
    {
      assert LinkInv(c.round, c.second, c.verdict, true, c.slots[j], s.chans[j]);
    }
  }

  lemma OtherMainIsLocal(cfg: Config, s: Cluster, m: MainStep)
    requires Enabled(cfg, s, Do(MainDo(m))) && !m.NextRound?
    requires m.Visit? ==> s.core.slots[m.j].flag != Stamped
    ensures MainChange(s, Next(cfg, s, Do(MainDo(m))))
    ensures Next(cfg, s, Do(MainDo(m))).core.round == s.core.round
  {
  }

  lemma MainKeepsKept(cfg: Config, s: Cluster, m: MainStep)
    requires Inv(cfg, s) && Kept(s) && Enabled(cfg, s, Do(MainDo(m)))
    ensures Kept(Next(cfg, s, Do(MainDo(m))))
  {
    var s' := Next(cfg, s, Do(MainDo(m)));
    if m.Visit? && s.core.slots[m.j].flag == Stamped {
      VisitKeepsKept(s, s', m.j);
    } else if m.NextRound? {
      NextRoundKeepsKept(cfg, s);
    } else {
      OtherMainIsLocal(cfg, s, m);
    }
  }

  lemma StepKeepsKept(cfg: Config, s: Cluster, a: Action)
    requires Inv(cfg, s) && Kept(s) && Enabled(cfg, s, a) && !cfg.losesDown
    ensures Kept(Next(cfg, s, a))
  {
    match a
    case Do(MainDo(m)) => MainKeepsKept(cfg, s, m);
    case Do(WorkerDo(t, w)) => WorkerKeepsKept(cfg, s, t, w);
    case Do(ClientDo(j, act)) => ClientKeepsKept(cfg, s, j, act);
    case Do(RaiseStop) =>
    case LoseUp(_, _) =>
  }

  lemma {:induction false} RunKeepsKept(cfg: Config, s: Cluster, actions: seq<Action>)
    requires Inv(cfg, s) && Kept(s) && Exec(cfg, s, actions).Some? && !cfg.losesDown
    ensures Kept(Exec(cfg, s, actions).value)
    decreases |actions|
  {
    if actions != [] {
      StepKeepsKept(cfg, s, actions[0]);
      StepKeepsInv(cfg, s, actions[0]);
      RunKeepsKept(cfg, Next(cfg, s, actions[0]), actions[1..]);
    }
  }

  /** Without losses no client ever stops on an unexpected message: it sees a request in phase 1 and a
      commit or cancel in phase 2, even when the coordinator's waits time out. */
  lemma NoProtocolViolation(cfg: Config, s: Cluster, j: nat)
    requires Reachable(cfg, s) && !cfg.losesDown && j < N(s.core)
    ensures !s.core.slots[j].client.violation
  {
    var s0, actions :| Initial(cfg, s0) && Exec(cfg, s0, actions) == Some(s);
    InitialInv(cfg, s0);
    RunKeepsKept(cfg, s0, actions);
    assert LinkKept(s.core.round, s.core.slots[j].client, s.core.slots[j].asked, s.chans[j].down);
  }
}
