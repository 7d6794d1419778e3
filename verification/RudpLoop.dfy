/** The loops around end_write: what a whole sequence of its answers stands for. */
module RudpLoop {
  import opened Protocol
  import opened RudpEndpoint
  import opened RudpChannel
  import opened RudpProgress
  import opened RudpCalls
  import opened ClientLoop

  // Anything but a step of this end's own write: the peer, the network, and the readers of this end.
  predicate Elsewhere(a: Action, client: bool) {
    match a
    case BeginWrite(me, _) => me != client
    case FirstSend(me, _) => me != client
    case ArmWrite(_) => client
    case Poll(me) => me != client
    case Retransmit(me, _) => me != client
    case GiveUp(_) => !client
    case _ => true
  }

  lemma ElsewhereKeepsWriter(n: Net, a: Action, client: bool)
    requires Enabled(n, a) && Elsewhere(a, client)
    ensures var x, y := Me(n, client), Me(Next(n, a), client);
      y.pc == x.pc && y.wrote == x.wrote && y.retries == x.retries
  {
  }

  lemma {:induction false} RunElsewhere(n: Net, actions: seq<Action>, client: bool)
    requires Inv(n) && Exec(n, actions).Some? && forall i :: 0 <= i < |actions| ==> Elsewhere(actions[i], client)
    ensures Inv(Exec(n, actions).value)
    ensures var x, y := Me(n, client), Me(Exec(n, actions).value, client);
      y.pc == x.pc && y.wrote == x.wrote && y.retries == x.retries
    decreases |actions|
  {
    if actions != [] {
      StepKeepsInv(n, actions[0]);
      ElsewhereKeepsWriter(n, actions[0], client);
      RunElsewhere(Next(n, actions[0]), actions[1..], client);
    }
  }

  // One call of end_write, and what happens elsewhere before the next one.
  datatype Turn = Turn(io: WriteIo, between: seq<Action>)

  function Answer(n: Net, client: bool, rtoUs: int, turn: Turn): Code {
    EndWrite(Me(n, client).ep, rtoUs, turn.io).code
  }

  function AfterTurn(n: Net, client: bool, rtoUs: int, turn: Turn): Option<Net> {
    match Exec(n, CallActions(n, client, rtoUs, turn.io))
    case None => None
    case Some(m) => Exec(m, turn.between)
  }

  predicate MayTurn(n: Net, client: bool, rtoUs: int, turn: Turn) {
    && IsWriting(n, client) && Me(n, client).pc != Stale && Plausible(n, client, turn.io)
    && (forall i :: 0 <= i < |turn.between| ==> Elsewhere(turn.between[i], client))
    && AfterTurn(n, client, rtoUs, turn).Some?
  }

  // A loop that goes on as long as end_write says "again" or reports a timeout, with these answers, up to the state m.
  predicate Loops(n: Net, client: bool, rtoUs: int, turns: seq<Turn>, codes: seq<Code>, m: Net)
    decreases |turns|
  {
    if turns == [] then codes == [] && m == n
    else
      && MayTurn(n, client, rtoUs, turns[0])
      && codes != [] && codes[0] == Answer(n, client, rtoUs, turns[0])
      && (codes[0] == Again || codes[0] == RtoFired)
      && Loops(AfterTurn(n, client, rtoUs, turns[0]).value, client, rtoUs, turns[1..], codes[1..], m)
  }

  lemma {:induction false} RtosFront(codes: seq<Code>)
    requires codes != []
    ensures Rtos(codes) == (if codes[0] == RtoFired then 1 else 0) + Rtos(codes[1..])
  {
    if |codes| > 1 {
      var front := codes[..|codes| - 1];
      RtosFront(front);
      assert codes[1..][..|codes| - 2] == front[1..];
    }
  }

  // After some turns: the timeouts have been counted, and the limit has been seen exactly when it was reached.
  predicate Counts(x: Side, y: Side, client: bool, codes: seq<Code>) {
    && y.wrote == WroteAtStart(x) && y.retries == RetriesAtStart(x) + Rtos(codes)
    && (y.pc == Outstanding || y.pc == Abandoned)
    && (y.pc == Abandoned <==> client && |y.wrote| > 1 && y.retries >= RTOS_MAX)
  }

  lemma TurnCounts(n: Net, client: bool, rtoUs: int, turn: Turn)
    requires Inv(n) && MayTurn(n, client, rtoUs, turn)
    requires Answer(n, client, rtoUs, turn) == Again || Answer(n, client, rtoUs, turn) == RtoFired
    ensures var m := AfterTurn(n, client, rtoUs, turn).value;
      Inv(m) && Counts(Me(n, client), Me(m, client), client, [Answer(n, client, rtoUs, turn)])
  {
    var actions := CallActions(n, client, rtoUs, turn.io);
    WriteCallIsSteps(n, client, rtoUs, turn.io);
    RunKeepsInv(n, actions);
    RunElsewhere(Exec(n, actions).value, turn.between, client);
    RtosFront([Answer(n, client, rtoUs, turn)]);
  }

  lemma FirstTurn(n: Net, client: bool, rtoUs: int, turns: seq<Turn>, codes: seq<Code>, m: Net) returns (n1: Net)
    requires Inv(n) && turns != [] && Loops(n, client, rtoUs, turns, codes, m)
    ensures codes != [] && (codes[0] == Again || codes[0] == RtoFired)
    ensures Inv(n1) && Counts(Me(n, client), Me(n1, client), client, [codes[0]])
    ensures Loops(n1, client, rtoUs, turns[1..], codes[1..], m) && (turns[1..] != [] ==> Me(n1, client).pc != Abandoned)
  {
    n1 := AfterTurn(n, client, rtoUs, turns[0]).value;
    TurnCounts(n, client, rtoUs, turns[0]);
    if turns[1..] != [] {
      GoesOn(n1, client, rtoUs, turns[1..], codes[1..], m);
    }
  }

  // A loop that goes on is not beyond the limit.
  lemma GoesOn(n: Net, client: bool, rtoUs: int, turns: seq<Turn>, codes: seq<Code>, m: Net)
    requires turns != [] && Loops(n, client, rtoUs, turns, codes, m)
    ensures Me(n, client).pc != Abandoned
  {
  }

  lemma LoopEnds(n: Net, client: bool, rtoUs: int, codes: seq<Code>, m: Net)
    requires Loops(n, client, rtoUs, [], codes, m)
    ensures codes == [] && m == n
  {
  }

  /** The caller's count of timeouts is the machine's count of retransmissions, at either end and whatever happens
      between the calls; and a client is beyond its last retransmission exactly when it has counted up to the limit. */
  lemma {:induction false} LoopCountsRetries(n: Net, client: bool, rtoUs: int, turns: seq<Turn>,
      codes: seq<Code>, m: Net)
    requires Inv(n) && turns != [] && Loops(n, client, rtoUs, turns, codes, m)
    ensures Inv(m) && Retries(codes) && |codes| == |turns| && Counts(Me(n, client), Me(m, client), client, codes)
    decreases |turns|
  {
    var n1 := FirstTurn(n, client, rtoUs, turns, codes, m);
    if turns[1..] != [] {
      LoopCountsRetries(n1, client, rtoUs, turns[1..], codes[1..], m);
      CountsOn(Me(n, client), Me(n1, client), Me(m, client), client, codes);
    } else {
      LoopEnds(n1, client, rtoUs, codes[1..], m);
      assert codes == [codes[0]];
    }
  }

  lemma CountsOn(x: Side, y: Side, z: Side, client: bool, codes: seq<Code>)
    requires codes != [] && y.pc != Abandoned
    requires Counts(x, y, client, [codes[0]]) && Counts(y, z, client, codes[1..])
    ensures Counts(x, z, client, codes)
  {
    RtosFront(codes);
    RtosFront([codes[0]]);
  }

  /** A response is given up in the machine exactly when the client's loop has seen as many timeouts as the limit. */
  lemma GivesUpAtLimit(n: Net, rtoUs: int, turns: seq<Turn>, codes: seq<Code>, m: Net)
    requires Inv(n) && n.c.pc == Stamped && n.c.wrote != [] && turns != [] && Loops(n, true, rtoUs, turns, codes, m)
    ensures m.c.retries == Rtos(codes) <= RTOS_MAX
    ensures m.c.pc == Abandoned <==> Rtos(codes) == RTOS_MAX
  {
    LoopCountsRetries(n, true, rtoUs, turns, codes, m);
    LimitIsLast(n, rtoUs, turns, codes, m);
  }

  // The loop cannot go past the limit.
  lemma {:induction false} LimitIsLast(n: Net, rtoUs: int, turns: seq<Turn>, codes: seq<Code>, m: Net)
    requires Inv(n) && Loops(n, true, rtoUs, turns, codes, m)
    requires |WroteAtStart(n.c)| > 1
    ensures turns != [] ==> m.c.retries <= RTOS_MAX
    decreases |turns|
  {
    if turns != [] {
      var n1 := FirstTurn(n, true, rtoUs, turns, codes, m);
      RtosFront([codes[0]]);
      if turns[1..] != [] {
        LimitIsLast(n1, rtoUs, turns[1..], codes[1..], m);
      } else {
        LoopEnds(n1, true, rtoUs, codes[1..], m);
      }
    }
  }
}
