/** The broadcast loop's calls are steps of the two-phase commit machine. */
module SendSteps {
  import opened Protocol
  import opened TwoPhase
  import opened SendLog

  predicate Called(log: seq<Call>, j: nat) { exists a :: 0 <= a < |log| && log[a].conn == j }

  // How far the machine says the broadcast is with connection j after these calls.
  function FlagAfter(log: seq<Call>, j: nat): Flag {
    if Entry(log, j) < 0 then Finished else if Called(log, j) then Flag.Sent else Flag.Stamped
  }

  predicate Matches(c: Core, log: seq<Call>) {
    c.pc == SendCheck && forall j :: 0 <= j < N(c) ==> c.slots[j].flag == FlagAfter(log, j)
  }

  function Answered(c: Core, code: Code): MainStep { if code == NoError then VisitAcked else VisitAgain }

  // The machine's three steps for one call: look at the loop's guard, call end_write, take its answer.
  function AfterCall(cfg: Config, c: Core, call: Call): Option<Core> {
    if !MainEnabled(cfg, c, CheckSend) then None
    else
      var c1 := MainNext(cfg, c, CheckSend);
      if !MainEnabled(cfg, c1, Visit(call.conn)) then None
      else
        var c2 := MainNext(cfg, c1, Visit(call.conn));
        if !MainEnabled(cfg, c2, Answered(c2, call.code)) then None
        else Some(MainNext(cfg, c2, Answered(c2, call.code)))
  }

  function AfterCalls(cfg: Config, c: Core, log: seq<Call>): Option<Core> {
    if log == [] then Some(c)
    else match AfterCalls(cfg, c, log[..|log| - 1])
      case None => None
      case Some(before) => AfterCall(cfg, before, log[|log| - 1])
  }

  lemma FlagsAfterOneMore(log: seq<Call>, call: Call, j: nat)
    requires Entry(log, call.conn) >= 0
    ensures FlagAfter(log + [call], j) ==
      if j != call.conn then FlagAfter(log, j) else if call.code == NoError then Finished else Flag.Sent
    ensures FlagAfter(log, call.conn) != Finished
  {
    var more := log + [call];
    assert more[..|log|] == log && more[|log|] == call;
    if j == call.conn {
      assert Called(more, j);
      OneMore(log, call);
    } else if Called(log, j) {
      var a :| 0 <= a < |log| && log[a].conn == j;
      assert more[a].conn == j;
    }
  }

  lemma OneMore(log: seq<Call>, call: Call)
    requires Entry(log, call.conn) >= 0
    ensures Entry(log + [call], call.conn) < 0 <==> call.code == NoError
  {
    assert (log + [call])[..|log|] == log;
  }

  lemma CallIsSteps(cfg: Config, c: Core, log: seq<Call>, call: Call)
    requires Matches(c, log) && !c.stop && call.conn < N(c) && Entry(log, call.conn) >= 0
    ensures AfterCall(cfg, c, call).Some?
    ensures var c' := AfterCall(cfg, c, call).value;
      Matches(c', log + [call]) && !c'.stop && N(c') == N(c)
  {
    FlagsAfterOneMore(log, call, call.conn);
    var c1 := MainNext(cfg, c, CheckSend);
    assert c.slots[call.conn].flag != Finished;
    var c' := AfterCall(cfg, c, call).value;
    forall j | 0 <= j < N(c)
      ensures c'.slots[j].flag == FlagAfter(log + [call], j)
    {
      FlagsAfterOneMore(log, call, j);
    }
  }

  /** Every legal sequence of end_write calls, made while the stop flag is down, is a run of the machine from the
      point where all buffers are stamped; once all connections are acknowledged the machine, too, leaves the loop. */
  lemma {:induction false} CallsAreSteps(cfg: Config, c: Core, log: seq<Call>, limit: nat)
    requires Matches(c, []) && !c.stop && Legal(log, N(c), limit)
    ensures AfterCalls(cfg, c, log).Some?
    ensures var c' := AfterCalls(cfg, c, log).value;
      && Matches(c', log) && !c'.stop && N(c') == N(c)
      && (AllFinished(c') <==> Count(log, NoError) == N(c))
  {
    if log != [] {
      var front, last := log[..|log| - 1], log[|log| - 1];
      CallsAreSteps(cfg, c, front, limit);
      CallIsSteps(cfg, AfterCalls(cfg, c, front).value, front, last);
      assert front + [last] == log;
    }
    FinishedIsCommitted(AfterCalls(cfg, c, log).value, log, limit);
  }

  lemma FinishedIsCommitted(c: Core, log: seq<Call>, limit: nat)
    requires Matches(c, log) && Legal(log, N(c), limit)
    ensures AllFinished(c) <==> Count(log, NoError) == N(c)
  {
    NegativesAreCommitted(log, N(c), limit);
    AllNegative(Entries(log, N(c)));
    forall j | 0 <= j < N(c)
      ensures c.slots[j].flag == Finished <==> Entries(log, N(c))[j] < 0
    {
    }
  }

  lemma {:induction false} AllNegative(entries: seq<int>)
    ensures Negatives(entries) <= |entries|
    ensures Negatives(entries) == |entries| <==> forall j :: 0 <= j < |entries| ==> entries[j] < 0
  {
    if entries != [] {
      var front := entries[..|entries| - 1];
      AllNegative(front);
      assert forall j :: 0 <= j < |front| ==> entries[j] == front[j];
    }
  }
}
