/** What two-phase commit promises when it runs over reliable UDP on a network that loses, duplicates and reorders.
    All of it holds whether or not clients give up on responses, and then take the next one, which is never sent, for
    written: a configuration says whether they may. */
module EndToEndTheorems {
  import opened Protocol
  import opened EndToEnd
  import opened EndToEndProof
  import P = TwoPhase
  import S = TwoPhaseSafety
  import T = TwoPhaseTheorems
  import L = TwoPhaseLossless
  import X = TwoPhaseExact
  import D = DecisionLaw
  import R = RudpChannel
  import E = RudpEndpoint

  // The queues to the clients lose nothing, whatever the network does; those from a client only if it gives up.
  ghost predicate Reachable(cfg: P.Config, e: System) {
    && P.ValidConfig(cfg) && !cfg.losesDown
    && exists e0, actions :: Initial(cfg, e0) && Exec(cfg, e0, actions) == Some(e)
  }

  /** Refinement: a reachable state of the end-to-end system is a reachable state of the protocol. */
  lemma ReachableRefines(cfg: P.Config, e: System)
    requires Reachable(cfg, e)
    ensures T.Reachable(cfg, Abs(e)) && Inv(cfg, e)
  {
    var e0, actions :| Initial(cfg, e0) && Exec(cfg, e0, actions) == Some(e);
    InitialRefines(cfg, e0);
    var steps := RunRefines(cfg, e0, actions);
    assert P.Initial(cfg, Abs(e0)) && P.Exec(cfg, Abs(e0), steps) == Some(Abs(e));
  }

  /** No two clients ever act on different decisions for the same round; commit means that all voted yes in it. */
  lemma EndToEndAgreement(cfg: P.Config, e: System, j: nat, k: nat, r: nat)
    requires Reachable(cfg, e) && j < P.N(e.core) && k < P.N(e.core)
    requires r < |e.core.slots[j].client.acted| && r < |e.core.slots[k].client.acted|
    ensures e.core.slots[j].client.acted[r] == e.core.slots[k].client.acted[r]
    ensures e.core.slots[j].client.acted[r] ==> S.AllYes(e.core.slots, r)
  {
    ReachableRefines(cfg, e);
    T.Agreement(cfg, Abs(e), j, k, r);
  }

  /** A client acts on commit in round r exactly when no client id i has (i + r) divisible by five. */
  lemma EndToEndDecisions(cfg: P.Config, e: System, j: nat, r: nat)
    requires Reachable(cfg, e) && j < P.N(e.core) && r < |e.core.slots[j].client.acted|
    ensures e.core.slots[j].client.acted[r] <==> D.Commits(P.N(e.core), r)
  {
    ReachableRefines(cfg, e);
    T.ActedAsOrdered(cfg, Abs(e), j);
    D.DecisionLaw(cfg, Abs(e), j, r);
  }

  /** Clients never meet an unexpected message, whatever the network does and however long it takes. */
  lemma EndToEndNoViolation(cfg: P.Config, e: System, j: nat)
    requires Reachable(cfg, e) && j < P.N(e.core)
    ensures !e.core.slots[j].client.violation
  {
    ReachableRefines(cfg, e);
    L.NoProtocolViolation(cfg, Abs(e), j);
  }

  /** A completed round leaves every client synchronised: it acted as decided and its queues are empty. */
  lemma EndToEndSynchronises(cfg: P.Config, e: System, j: nat)
    requires Reachable(cfg, e) && e.core.pc == P.RoundEnd && !e.core.stop && j < P.N(e.core)
    ensures var cl := e.core.slots[j].client;
      && |cl.votes| == |cl.acted| == e.core.round + 1
      && cl.acted[e.core.round] == (e.core.verdict == P.RequestSuccess)
    ensures j < |e.nets| && |e.nets[j].s.got| == |e.nets[j].c.wrote|
    ensures ConnectionTaken(e.nets[j])
  {
    ReachableRefines(cfg, e);
    T.CompletedRoundsSynchronise(cfg, Abs(e), j);
    R.Counted(e.nets[j], true);
    R.Counted(e.nets[j], false);
    assert Abs(e).chans[j].down == [] && Abs(e).chans[j].up == [];
  }

  // The client has taken everything the coordinator wrote.
  predicate ConnectionTaken(n: R.Net) { |n.c.got| == |n.s.wrote| && n.c.ep.slot == None }

  /** Without timeouts the vote counters stay exact over the faulty network too: a wait ends only when every
      scoreboard slot holds this phase's answer. */
  lemma EndToEndWaitIsExact(cfg: P.Config, e: System, j: nat)
    requires Reachable(cfg, e) && !cfg.timeouts && X.Scanning(e.core.pc) && j < P.N(e.core)
    ensures var x := e.core.slots[j];
      X.Replied(e.core.round, e.core.second, x.client) && X.Answer(e.core.round, e.core.second, x.client, x.board)
  {
    ReachableRefines(cfg, e);
    X.WaitNeverEndsEarly(cfg, Abs(e), j);
  }

  /** The scoreboard slot a worker fills, chosen by the id inside the message, is the slot of the connection it read. */
  lemma MessageNamesItsSlot(cfg: P.Config, e: System, t: nat, j: nat, p: E.Packet)
    requires Reachable(cfg, e) && Enabled(cfg, e, Receive(t, j, p))
    ensures 1 <= p.body.src <= P.N(e.core) && p.body.src - 1 == j
  {
    ReachableRefines(cfg, e);
    assert Coupled(cfg, e.core, j, e.nets[j]);
    OneNet(cfg, e, Receive(t, j, p), R.Deliver(false, p));
    R.AcceptedIsHead(e.nets[j], false, p);
  }
}
