/** Which rounds commit: the clients' one-in-five rule decides every round of every run. */
module DecisionLaw {
  import opened Protocol
  import opened TwoPhase
  import opened TwoPhaseSafety
  import opened TwoPhaseTheorems

  // The vote of the client with this id in round r.
  predicate VotesYes(id: nat, r: nat) { (id + r) % 5 != 0 }

  // vote_count starts at the client's id and advances once per completed vote.
  predicate VoterOk(id: nat, cl: Client) {
    && cl.voteCount + (if cl.pc == VoteWritten then 1 else 0) == id + |cl.votes|
    && (forall r :: 0 <= r < |cl.votes| ==> cl.votes[r] == VotesYes(id, r))
    && (cl.pc.CastVote? ==> cl.pc.yes == VotesYes(id, |cl.votes|))
  }

  predicate VotersOk(c: Core) {
    forall j :: 0 <= j < N(c) ==> VoterOk(j + 1, c.slots[j].client)
  }

  lemma MainKeepsVoters(cfg: Config, c: Core, m: MainStep)
    requires VotersOk(c) && MainEnabled(cfg, c, m)
    ensures VotersOk(MainNext(cfg, c, m))
  {
    var c' := MainNext(cfg, c, m);
    forall j | 0 <= j < N(c')
      ensures VoterOk(j + 1, c'.slots[j].client)
    {
      assert VoterOk(j + 1, c.slots[j].client);
    }
  }

  lemma ClientKeepsVoter(id: nat, cl: Client, a: ClientStep)
    requires VoterOk(id, cl) && ClientEnabled(cl, a)
    ensures VoterOk(id, ClientNext(cl, a))
  {
  }

  lemma WorkKeepsVoters(cfg: Config, c: Core, t: nat, w: WorkStep)
    requires VotersOk(c) && t < |c.workers| == |c.counts| && WorkEnabled(cfg, c, t, w)
    ensures VotersOk(WorkNext(cfg, c, t, w))
  {
  }

  lemma StepKeepsVoters(cfg: Config, c: Core, st: Step)
    requires VotersOk(c) && CoreEnabled(cfg, c, st)
    ensures VotersOk(CoreNext(cfg, c, st))
  {
    match st
    case MainDo(m) => MainKeepsVoters(cfg, c, m);
    case ClientDo(j, a) => ClientKeepsVoter(j + 1, c.slots[j].client, a);
    case WorkerDo(t, w) => WorkKeepsVoters(cfg, c, t, w);
    case RaiseStop =>
  }

  lemma {:induction false} RunKeepsVoters(cfg: Config, s: Cluster, actions: seq<Action>)
    requires VotersOk(s.core) && Exec(cfg, s, actions).Some?
    ensures VotersOk(Exec(cfg, s, actions).value.core)
    decreases |actions|
  {
    if actions != [] {
      if actions[0].Do? {
        StepKeepsVoters(cfg, s.core, actions[0].st);
      }
      RunKeepsVoters(cfg, Next(cfg, s, actions[0]), actions[1..]);
    }
  }

  predicate Commits(n: nat, r: nat) { forall id :: 1 <= id <= n ==> VotesYes(id, r) }

  lemma CommitsClosedForm(n: nat, r: nat)
    ensures Commits(n, r) <==> r % 5 + n < 5
  {
    var id := 5 - r % 5;
    assert (id + r) % 5 == 0;
    if r % 5 + n < 5 {
      forall i | 1 <= i <= n
        ensures VotesYes(i, r)
      {
      }
    } else {
      assert !VotesYes(id, r);
    }
  }

  /** The decision written in round r is commit if and only if r mod 5 plus the number of clients is below 5,
      whatever was lost, late or interrupted. */
  lemma DecisionLaw(cfg: Config, s: Cluster, j: nat, r: nat)
    requires Reachable(cfg, s) && j < N(s.core) && r < |s.core.slots[j].orders|
    ensures s.core.slots[j].orders[r] <==> Commits(N(s.core), r)
    ensures s.core.slots[j].orders[r] <==> r % 5 + N(s.core) < 5
  {
    var s0, actions :| Initial(cfg, s0) && Exec(cfg, s0, actions) == Some(s);
    assert VotersOk(s0.core);
    RunKeepsVoters(cfg, s0, actions);
    DecisionsFollowVotes(cfg, s, j, r);
    if s.core.slots[j].orders[r] {
      forall id | 1 <= id <= N(s.core)
        ensures VotesYes(id, r)
      {
        assert Yes(s.core.slots[id - 1], r) && VoterOk(id, s.core.slots[id - 1].client);
      }
    } else {
      var k :| 0 <= k < N(s.core) && No(s.core.slots[k], r);
      assert !VotesYes(k + 1, r);
    }
    CommitsClosedForm(N(s.core), r);
  }

  // How many of the `len` rounds from `r` on commit.
  function CommitCount(n: nat, r: nat, len: nat): nat
    decreases len
  {
    if len == 0 then 0 else (if Commits(n, r) then 1 else 0) + CommitCount(n, r + 1, len - 1)
  }

  lemma CommitCountStep(n: nat, r: nat, len: nat)
    requires len > 0
    ensures CommitCount(n, r, len) == (if r % 5 + n < 5 then 1 else 0) + CommitCount(n, r + 1, len - 1)
    ensures (r + 1) % 5 == if r % 5 == 4 then 0 else r % 5 + 1
  {
    CommitsClosedForm(n, r);
  }

  /** Of any five consecutive rounds exactly 5 - n commit with n < 5 clients, and none with more. */
  lemma FiveRounds(n: nat, r: nat)
    ensures CommitCount(n, r, 5) == if n < 5 then 5 - n else 0
  {
    CommitCountStep(n, r, 5);
    CommitCountStep(n, r + 1, 4);
    CommitCountStep(n, r + 2, 3);
    CommitCountStep(n, r + 3, 2);
    CommitCountStep(n, r + 4, 1);
  }
}
