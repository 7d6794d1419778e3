/** The main thread's loops over the server's global arrays. What other threads do shows up in three places: the
    stop flag is raised from some observation on, end_write answers what it likes, and the workers score messages. */
module Coordinator {
  import opened Protocol
  import opened Counting
  import opened TwoPhase
  import opened SendLog
  import opened Scoreboard
  import opened Worker

  const MAX_RTOS: nat := 200_000

  datatype Exit = Returned | Terminated

  datatype WaitEnd = AllVotes | TimedOut | StillWaiting

  // How a phase ends: with a status, with the process, or not at all.
  datatype PhaseEnd = Done(status: Status) | Died | Hung

  // What one phase meets: each connection's answers to end_write, the counters each poll reads, and the messages that
  // the worker threads score between the reset of the scoreboard and its scan.
  datatype PhaseIo = PhaseIo(codes: Answers, polls: seq<seq<int>>, timeouts: bool, scored: seq<Msg>)

  // Every client's last scored message in a phase is of this kind.
  ghost predicate AllSay(n: nat, io: PhaseIo, kind: Kind) { forall c :: 0 <= c < n ==> Says(io.scored, c, kind) }

  // The calls answered as given, each with this broadcast's message in the buffer.
  predicate Faithful(kind: Kind, codes: Answers, log: seq<Call>, outbox: seq<Option<Kind>>) {
    && Answered(log, codes)
    && forall a :: 0 <= a < |log| ==> log[a].conn < |outbox| && outbox[log[a].conn] == Some(kind)
  }

  // The next call that the broadcast may make ends the server.
  ghost predicate Struck(log: seq<Call>, codes: Answers, n: nat) {
    exists i :: 0 <= i < n && Fatal(log, codes, i, MAX_RTOS)
  }

  // Some poll's counters add up to the number of clients.
  ghost predicate FullPoll(polls: seq<seq<int>>, threads: nat, n: nat) {
    exists p :: 0 <= p < |polls| && |polls[p]| == threads && SumTo(polls[p], threads) >= n
  }

  // The wait for votes ends.
  ghost predicate WaitEnds(io: PhaseIo, threads: nat, n: nat) { io.timeouts || FullPoll(io.polls, threads, n) }

  // How phase 1 ends when nothing cuts it short: as the scan of all slots concludes.
  ghost function FirstEnd(io: PhaseIo, threads: nat, n: nat): PhaseEnd {
    if !WaitEnds(io, threads, n) then Hung
    else match Scan(false, Tally(n, io.scored)) case None => Died case Some(status) => Done(status)
  }

  // ... and phase 2, after a vote that was won or lost: as decided if every client acknowledges.
  ghost function SecondEnd(status: Status, io: PhaseIo, threads: nat, n: nat): PhaseEnd {
    if !WaitEnds(io, threads, n) then Hung
    else if !AllSay(n, io, Ack) then Done(ClusterFail)
    else Done(if status == RequestSuccess then CommitSuccess else CommitFail)
  }

  lemma PassesBound(n: nat, p: nat, rounds: nat)
    requires p < rounds
    ensures p * (n + 1) + n + 1 <= rounds * (n + 1)
  {
    assert (p + 1) * (n + 1) == p * (n + 1) + n + 1;
    assert (p + 1) * (n + 1) <= rounds * (n + 1);
  }

  class Server {
    const n: nat
    const stopAt: nat
    const outbox: array<Option<Kind>>
    const fired: array<int>
    const board: array<Kind>
    const counts: array<int>
    var clock: nat        // how often the stop flag has been read; it is up from reading number stopAt on
    var pause: bool
    var totalRtos: int

    ghost predicate Valid() {
      && outbox.Length == fired.Length == board.Length == n
      && fired != counts
    }

    constructor (n: nat, threads: nat, stopAt: nat)
      ensures Valid() && this.n == n && counts.Length == threads && this.stopAt == stopAt && !pause && totalRtos == 0
      ensures fresh(outbox) && fresh(fired) && fresh(board) && fresh(counts)
    {
      this.n, this.stopAt := n, stopAt;
      outbox := new Option<Kind>[n](_ => None);
      fired := new int[n](_ => 0);
      board := new Kind[n](_ => Lost);
      counts := new int[threads](_ => 0);
      clock, pause, totalRtos := 0, false, 0;
    }

    // Whether the flag has been read as raised; it then stays so.
    ghost predicate StopSeen()
      reads `clock
    {
      clock > stopAt
    }

    method ReadStop() returns (stop: bool)
      modifies this`clock
      ensures stop <==> StopSeen()
      ensures clock == old(clock) + 1
    {
      stop := clock >= stopAt;
      clock := clock + 1;
    }

    // The first loop of send_request: fill every connection's write buffer.
    method Collect(kind: Kind)
      requires Valid()
      modifies this`clock, outbox
      ensures old(clock) <= clock <= old(clock) + n
      ensures StopSeen() || forall i :: 0 <= i < n ==> outbox[i] == Some(kind)
    {
      var i := 0;
      while i < n
        invariant 0 <= i <= n && clock == old(clock) + i
        invariant forall k :: 0 <= k < i ==> outbox[k] == Some(kind)
      {
        var stop := ReadStop();
        if stop {
          return;
        }
        outbox[i] := Some(kind);
        i := i + 1;
      }
    }

    // The switch on what end_write answered for connection i.
    method HandleResult(i: nat, code: Code, committed: nat, ghost log: seq<Call>) returns (exit: Exit, committed': nat)
      requires Valid() && i < n && Legal(log, n, MAX_RTOS) && fired[..] == Entries(log, n) && fired[i] >= 0
      modifies this`totalRtos, fired
      ensures exit == Terminated <==> code == Fin || (code == RtoFired && Entry(log, i) >= MAX_RTOS)
      ensures exit == Terminated ==>
        committed' == committed && totalRtos == old(totalRtos) && fired[..] == old(fired[..])
      ensures exit == Returned ==> Legal(log + [Call(i, code)], n, MAX_RTOS)
      ensures exit == Returned ==> fired[..] == Entries(log + [Call(i, code)], n)
      ensures exit == Returned ==> committed' == committed + (if code == NoError then 1 else 0)
      ensures exit == Returned ==> totalRtos == old(totalRtos) + (if code == RtoFired then 1 else 0)
    {
      exit, committed' := Returned, committed;
      ghost var before := fired[..];
      assert fired[i] == Entries(log, n)[i];
      EntriesStep(log, n, Call(i, code));
      match code {
        case RtoFired =>
          if fired[i] >= MAX_RTOS {
            exit := Terminated;
            return;
          }
          fired[i] := fired[i] + 1;
          totalRtos := totalRtos + 1;
        case Again =>
        case NoError =>
          fired[i] := -1;
          committed' := committed + 1;
        case Fin =>
          exit := Terminated;
          return;
      }
      LegalStep(log, n, MAX_RTOS, Call(i, code));
      assert fired[..] == before[i := fired[i]];
    }

    // What holds of the broadcast so far, at every point of the two nested loops.
    ghost predicate Sending(kind: Kind, codes: Answers, log: seq<Call>, totalBefore: int)
      reads `totalRtos, outbox, fired
    {
      && Valid()
      && Legal(log, n, MAX_RTOS) && fired[..] == Entries(log, n)
      && totalRtos == totalBefore + Count(log, RtoFired)
      && Faithful(kind, codes, log, outbox[..])
    }

    // Skip an acknowledged connection, otherwise call its end_write.
    method WriteOne(i: nat, kind: Kind, codes: Answers, log: seq<Call>, committed: nat, ghost totalBefore: int)
      returns (exit: Exit, log': seq<Call>, committed': nat)
      requires Sending(kind, codes, log, totalBefore) && committed == Count(log, NoError)
      requires i < n && outbox[i] == Some(kind)
      modifies this`totalRtos, fired
      ensures Sending(kind, codes, log', totalBefore) && committed' == Count(log', NoError)
      ensures log' == if exit == Terminated then log else Turn(log, codes, i)
      ensures exit == Terminated <==> Fatal(log, codes, i, MAX_RTOS)
    {
      log', committed', exit := log, committed, Returned;
      assert fired[i] == Entries(log, n)[i];
      if fired[i] < 0 {
        return;
      }
      var code := codes(i, CallsTo(log, i));
      exit, committed' := HandleResult(i, code, committed, log);
      if exit == Returned {
        EntriesStep(log, n, Call(i, code));
        AnsweredStep(log, codes, i);
        log' := log + [Call(i, code)];
      }
    }

    // One turn of the inner loop, from its guard on; `go` says that the loop continues.
    method OneTurn(i: nat, kind: Kind, codes: Answers, log: seq<Call>, committed: nat, ghost totalBefore: int)
      returns (go: bool, exit: Exit, log': seq<Call>, committed': nat)
      requires Sending(kind, codes, log, totalBefore) && committed == Count(log, NoError)
      requires i < n && (StopSeen() || outbox[i] == Some(kind))
      modifies this`clock, this`totalRtos, fired
      ensures Sending(kind, codes, log', totalBefore) && committed' == Count(log', NoError)
      ensures clock == old(clock) + 1 && (go <==> exit == Returned && !StopSeen())
      ensures log' == if go then Turn(log, codes, i) else log
      ensures exit == Terminated <==> !StopSeen() && Fatal(log, codes, i, MAX_RTOS)
    {
      var stop := ReadStop();
      if stop {
        return false, Returned, log, committed;
      }
      exit, log', committed' := WriteOne(i, kind, codes, log, committed, totalBefore);
      go := exit == Returned;
    }

    /** One pass over the connections. It makes one call on every connection that was open before it, in order, and none
        on the others, and stops early, at connection `at`, only for the stop flag or at a call that ends the server. */
    method Pass(kind: Kind, codes: Answers, log: seq<Call>, committed: nat, ghost totalBefore: int)
      returns (exit: Exit, log': seq<Call>, committed': nat, ghost at: nat)
      requires Sending(kind, codes, log, totalBefore) && committed == Count(log, NoError)
      requires StopSeen() || forall i :: 0 <= i < n ==> outbox[i] == Some(kind)
      modifies this`clock, this`totalRtos, fired
      ensures Sending(kind, codes, log', totalBefore) && committed' == Count(log', NoError)
      ensures old(clock) <= clock <= old(clock) + n
      ensures old(StopSeen()) ==> log' == log && exit == Returned
      ensures at <= n && Passed(log, codes, at, log')
      ensures exit == Returned && !StopSeen() ==> at == n
      ensures exit == Terminated ==> at < n && Fatal(log', codes, at, MAX_RTOS)
    {
      log', committed', exit := log, committed, Returned;
      PassBegins(log, codes);
      var i, go := 0, true;
      at := 0;
      while i < n && go
        invariant 0 <= i <= n && clock == old(clock) + i && at == (if go then i else i - 1)
        invariant Sending(kind, codes, log', totalBefore) && committed' == Count(log', NoError)
        invariant Passed(log, codes, at, log')
        invariant go ==> exit == Returned && (i > 0 ==> !StopSeen())
        invariant !go ==> (if exit == Returned then StopSeen() else Fatal(log', codes, at, MAX_RTOS))
        invariant old(StopSeen()) ==> log' == log && exit == Returned
        decreases n - i
      {
        PassGoesOn(log, codes, i, log');
        go, exit, log', committed' := OneTurn(i, kind, codes, log', committed', totalBefore);
        i := i + 1;
        if go {
          at := i;
        }
      }
    }

    // The flag stays down for the time that so many passes take, counted from reading number `from` on.
    ghost predicate InTime(codes: Answers, rounds: nat, from: nat) {
      AllAck(codes, n, rounds, MAX_RTOS) && from + n + rounds * (n + 1) <= stopAt
    }

    // The broadcast after p whole passes and `now` readings of the flag, unless that has been seen; and nobody who
    // allowed for enough passes has seen it.
    ghost predicate Steady(codes: Answers, log: seq<Call>, p: nat, from: nat, now: nat) {
      && (now <= stopAt ==> Even(log, n, p) && now <= from + n + p * (n + 1))
      && (forall rounds: nat :: InTime(codes, rounds, from) ==> now <= stopAt && p <= rounds)
    }

    lemma BeginsSteady(codes: Answers, from: nat, now: nat)
      requires now <= from + n
      ensures Steady(codes, [], 0, from, now)
    {
    }

    // A pass begun with a connection open is one of those allowed for.
    lemma OpenIsInTime(codes: Answers, log: seq<Call>, p: nat, from: nat, now: nat, rounds: nat)
      requires Legal(log, n, MAX_RTOS) && Answered(log, codes) && Count(log, NoError) < n
      requires Steady(codes, log, p, from, now) && InTime(codes, rounds, from)
      ensures p < rounds && now + 1 + n <= stopAt
    {
      OpenIsEarly(log, codes, n, MAX_RTOS, p, rounds);
      PassesBound(n, p, rounds);
    }

    lemma PassKeepsSteady(codes: Answers, before: seq<Call>, log: seq<Call>, p: nat, from: nat, now: nat, now': nat)
      requires Legal(before, n, MAX_RTOS) && Answered(before, codes) && Count(before, NoError) < n
      requires Steady(codes, before, p, from, now) && now <= now' <= now + 1 + n
      requires now' <= stopAt ==> Passed(before, codes, n, log)
      ensures Steady(codes, log, p + 1, from, now')
    {
      assert (p + 1) * (n + 1) == p * (n + 1) + n + 1;
      if now' <= stopAt {
        PassIsEven(before, codes, n, log, p);
      }
      forall rounds: nat | InTime(codes, rounds, from)
        ensures now' <= stopAt && p + 1 <= rounds
      {
        OpenIsInTime(codes, before, p, from, now, rounds);
      }
    }

    lemma StruckIsNotInTime(codes: Answers, log: seq<Call>, from: nat, rounds: nat)
      requires Legal(log, n, MAX_RTOS) && Answered(log, codes) && Struck(log, codes, n)
      ensures !InTime(codes, rounds, from)
    {
      if InTime(codes, rounds, from) {
        var i :| 0 <= i < n && Fatal(log, codes, i, MAX_RTOS);
        AllAckIsNeverFatal(log, codes, n, MAX_RTOS, rounds, i);
      }
    }

    lemma SteadyIsBounded(codes: Answers, log: seq<Call>, p: nat, from: nat, now: nat, rounds: nat)
      requires Steady(codes, log, p, from, now) && InTime(codes, rounds, from)
      ensures now <= stopAt && now <= from + n + rounds * (n + 1)
    {
      assert p * (n + 1) <= rounds * (n + 1);
    }

    // What is owed to a broadcast that is in time.
    ghost predicate Prompt(codes: Answers, exit: Exit, committed: nat, from: nat, now: nat) {
      forall rounds: nat :: InTime(codes, rounds, from) ==>
        exit == Returned && committed == n && now <= stopAt && now <= from + n + rounds * (n + 1)
    }

    lemma StoppedIsLate(codes: Answers, log: seq<Call>, p: nat, from: nat, now: nat, exit: Exit, committed: nat)
      requires Legal(log, n, MAX_RTOS) && Answered(log, codes) && Count(log, NoError) < n
      requires Steady(codes, log, p, from, now) && now >= stopAt
      ensures Prompt(codes, exit, committed, from, now + 1)
    {
      forall rounds: nat | InTime(codes, rounds, from)
        ensures false
      {
        OpenIsInTime(codes, log, p, from, now, rounds);
      }
    }

    lemma StruckIsPrompt(codes: Answers, log: seq<Call>, exit: Exit, committed: nat, from: nat, now: nat)
      requires Legal(log, n, MAX_RTOS) && Answered(log, codes) && Struck(log, codes, n)
      ensures Prompt(codes, exit, committed, from, now)
    {
      forall rounds: nat
        ensures !InTime(codes, rounds, from)
      {
        StruckIsNotInTime(codes, log, from, rounds);
      }
    }

    lemma DoneIsPrompt(codes: Answers, log: seq<Call>, p: nat, from: nat, now: nat)
      requires Steady(codes, log, p, from, now)
      ensures Prompt(codes, Returned, n, from, now)
    {
      forall rounds: nat | InTime(codes, rounds, from)
        ensures now <= stopAt && now <= from + n + rounds * (n + 1)
      {
        SteadyIsBounded(codes, log, p, from, now, rounds);
      }
    }

    /** send_request: on every exit the loop's books are right, every message sent is this broadcast's, and a stop
        flag seen before the call lets nothing out. A return without having seen the flag means all were acknowledged;
        only a finished stream or one timeout too many terminates; and if every connection acknowledges within so many
        calls and the flag stays down for so many passes, it returns with all acknowledged. */
    method SendRequest(kind: Kind, codes: Answers) returns (exit: Exit, log: seq<Call>, committed: nat)
      requires Valid()
      modifies this`clock, this`totalRtos, outbox, fired
      ensures Sending(kind, codes, log, old(totalRtos)) && committed == Count(log, NoError) && clock >= old(clock)
      ensures old(StopSeen()) ==> log == [] && exit == Returned
      ensures exit == Returned && !StopSeen() ==> committed == n
      ensures exit == Terminated ==> Struck(log, codes, n)
      ensures Prompt(codes, exit, committed, old(clock), clock)
    {
      Collect(kind);
      committed, log, exit := 0, [], Returned;
      forall i | 0 <= i < n {
        fired[i] := 0;
      }
      ghost var p := 0;
      BeginsSteady(codes, old(clock), clock);
      while committed < n
        invariant Sending(kind, codes, log, old(totalRtos)) && committed == Count(log, NoError)
        invariant clock >= old(clock) && exit == Returned && Steady(codes, log, p, old(clock), clock)
        invariant StopSeen() || forall i :: 0 <= i < n ==> outbox[i] == Some(kind)
        invariant old(StopSeen()) ==> log == []
        decreases stopAt - clock
      {
        ghost var before, now := log, clock;
        var stop := ReadStop();
        if stop {
          StoppedIsLate(codes, log, p, old(clock), now, exit, committed);
          return;
        }
        ghost var at;
        exit, log, committed, at := Pass(kind, codes, log, committed, old(totalRtos));
        if exit == Terminated {
          StruckIsPrompt(codes, log, exit, committed, old(clock), clock);
          return;
        }
        PassKeepsSteady(codes, before, log, p, old(clock), now, clock);
        p := p + 1;
      }
      AllAcknowledgedOnce(log, n, MAX_RTOS, 0);
      DoneIsPrompt(codes, log, p, old(clock), clock);
    }

    /** wait_for_votes: it leaves for all votes at the first poll whose counters add up to the number of clients,
        and on a timeout none has. */
    method WaitForVotes(polls: seq<seq<int>>, timeouts: bool) returns (end: WaitEnd, polled: nat)
      requires forall p :: 0 <= p < |polls| ==> |polls[p]| == counts.Length
      ensures polled <= |polls|
      ensures forall p :: 0 <= p < polled ==> SumTo(polls[p], counts.Length) < n
      ensures end == AllVotes <==> polled < |polls|
      ensures end == AllVotes ==> SumTo(polls[polled], counts.Length) >= n
      ensures end == AllVotes <==> FullPoll(polls, counts.Length, n)
      ensures end == TimedOut <==> polled == |polls| && timeouts
    {
      polled := 0;
      while polled < |polls|
        invariant 0 <= polled <= |polls|
        invariant forall p :: 0 <= p < polled ==> SumTo(polls[p], counts.Length) < n
      {
        var total := 0;
        for t := 0 to counts.Length
          invariant total == SumTo(polls[polled], t)
        {
          total := total + polls[polled][t];
        }
        if total >= n {
          return AllVotes, polled;
        }
        polled := polled + 1;
      }
      end := if timeouts then TimedOut else StillWaiting;
    }

    method ResetBoard()
      requires Valid()
      modifies board
      ensures forall i :: 0 <= i < n ==> board[i] == Lost
    {
      for i := 0 to n
        invariant forall k :: 0 <= k < i ==> board[k] == Lost
      {
        board[i] := Lost;
      }
    }

    /** The scan of the scoreboard: it concludes from a prefix of the slots, from all of them unless it has seen
        the stop flag. */
    method ScanBoard(second: bool) returns (result: Option<Status>, scanned: nat)
      requires Valid()
      modifies this`clock
      ensures old(clock) <= clock <= old(clock) + n && scanned <= n
      ensures result == Scan(second, board[..scanned])
      ensures result.Some? && !StopSeen() ==> scanned == n
      ensures !StopSeen() ==> result == Scan(second, board[..])
      ensures old(StopSeen()) ==> scanned == 0
    {
      var i := 0;
      var status := if second then CommitSuccess else RequestSuccess;
      while i < n
        invariant 0 <= i <= n && clock == old(clock) + i
        invariant Some(status) == Scan(second, board[..i])
        invariant old(StopSeen()) ==> i == 0
      {
        var stop := ReadStop();
        if stop {
          return Some(status), i;
        }
        assert board[..i + 1][..i] == board[..i];
        match ScanSlot(second, status, board[i]) {
          case None =>
            NoneStays(second, board[..], i + 1);
            return None, i + 1;
          case Some(next) => status := next;
        }
        i := i + 1;
      }
      assert board[..n] == board[..];
      return Some(status), n;
    }

    method ZeroCounts()
      modifies counts
      ensures forall t :: 0 <= t < counts.Length ==> counts[t] == 0
    {
      for t := 0 to counts.Length
        invariant forall u :: 0 <= u < t ==> counts[u] == 0
      {
        counts[t] := 0;
      }
    }

    // What the worker threads do to the scoreboard meanwhile.
    method Score(msgs: seq<Msg>)
      requires Valid()
      modifies board
      ensures board[..] == Board(old(board[..]), msgs)
    {
      for k := 0 to |msgs|
        invariant board[..] == Board(old(board[..]), msgs[..k])
      {
        assert msgs[..k + 1][..k] == msgs[..k];
        if Known(msgs[k], n) {
          board[msgs[k].src - 1] := msgs[k].kind;
        }
      }
      assert msgs[..|msgs|] == msgs;
    }

    // From the wait to the end of a phase: pause the workers, read the votes, clear the counters, let them go on.
    method Conclude(second: bool, io: PhaseIo) returns (result: Option<Status>, scanned: nat)
      requires Valid() && forall i :: 0 <= i < n ==> board[i] == Lost
      modifies this`clock, this`pause, board, counts
      ensures old(clock) <= clock <= old(clock) + n
      ensures scanned <= n == |Tally(n, io.scored)| && board[..] == Tally(n, io.scored)
      ensures result == Scan(second, Tally(n, io.scored)[..scanned])
      ensures result.Some? ==> !pause && forall t :: 0 <= t < counts.Length ==> counts[t] == 0
      ensures result.Some? && !StopSeen() ==> scanned == n
      ensures clock <= stopAt ==> result == Scan(second, Tally(n, io.scored))
    {
      assert board[..] == seq(n, _ => Lost);
      Score(io.scored);
      pause := true;
      result, scanned := ScanBoard(second);
      if result.Some? {
        ZeroCounts();
        pause := false;
      }
    }

    // A phase with this broadcast sees no stop flag: it stays down for so many passes and for one scan.
    ghost predicate PhaseInTime(io: PhaseIo, rounds: nat, from: nat) { InTime(io.codes, rounds, from + n) }

    lemma PhaseIsInTime(io: PhaseIo, rounds: nat, from: nat)
      requires PhaseInTime(io, rounds, from)
      ensures InTime(io.codes, rounds, from)
    {
    }

    // What is owed to a phase that is in time.
    ghost predicate PhasePrompt(io: PhaseIo, end: PhaseEnd, owed: PhaseEnd, log: seq<Call>, from: nat, now: nat) {
      forall rounds: nat :: PhaseInTime(io, rounds, from) ==>
        end == owed && Count(log, NoError) == n && now <= stopAt && now <= from + 2 * n + rounds * (n + 1)
    }

    // The broadcast was in time, and the rest of the phase read the flag at most n times.
    lemma PhaseIsPrompt(io: PhaseIo, exit: Exit, committed: nat, from: nat, sent: nat, end: PhaseEnd, owed: PhaseEnd,
        log: seq<Call>, now: nat)
      requires Prompt(io.codes, exit, committed, from, sent) && sent <= now <= sent + n
      requires committed == Count(log, NoError) && (exit == Returned && committed == n && now <= stopAt ==> end == owed)
      ensures PhasePrompt(io, end, owed, log, from, now)
    {
      forall rounds: nat | PhaseInTime(io, rounds, from)
        ensures end == owed && Count(log, NoError) == n && now <= stopAt && now <= from + 2 * n + rounds * (n + 1)
      {
        PhaseIsInTime(io, rounds, from);
      }
    }

    /** do_phase1: the status is what the scan concludes from the votes read; success with the flag not seen means
        that every client was asked, was acknowledged once and voted yes. The process dies only of a connection or of an
        unexpected vote, and hangs exactly if the wait does not end. */
    method DoPhase1(io: PhaseIo) returns (end: PhaseEnd, log: seq<Call>, ghost scanned: nat)
      requires Valid()
      requires forall p :: 0 <= p < |io.polls| ==> |io.polls[p]| == counts.Length
      modifies this`clock, this`totalRtos, this`pause, outbox, fired, board, counts
      ensures Valid() && clock >= old(clock) && scanned <= n == |Tally(n, io.scored)|
      ensures Sending(Request, io.codes, log, old(totalRtos))
      ensures end.Done? ==>
        Some(end.status) == Scan(false, Tally(n, io.scored)[..scanned]) && board[..] == Tally(n, io.scored)
      ensures end.Done? && !StopSeen() ==> scanned == n && Count(log, NoError) == n
      ensures old(StopSeen()) ==> log == []
      ensures end == Died ==> Struck(log, io.codes, n) || Scan(false, Tally(n, io.scored)[..scanned]) == None
      ensures end == Hung <==> end != Died && !WaitEnds(io, counts.Length, n)
      ensures PhasePrompt(io, end, FirstEnd(io, counts.Length, n), log, old(clock), clock)
    {
      ResetBoard();
      BoardKeepsLength(seq(n, _ => Lost), io.scored);
      var exit, committed;
      exit, log, committed := SendRequest(Request, io.codes);
      scanned := 0;
      ghost var sent := clock;
      ghost var owed := FirstEnd(io, counts.Length, n);
      if exit == Terminated {
        end := Died;
        PhaseIsPrompt(io, exit, committed, old(clock), sent, end, owed, log, clock);
        return;
      }
      var wait, _ := WaitForVotes(io.polls, io.timeouts);
      if wait == StillWaiting {
        end := Hung;
        PhaseIsPrompt(io, exit, committed, old(clock), sent, end, owed, log, clock);
        return;
      }
      var result, read := Conclude(false, io);
      scanned := read;
      assert Sending(Request, io.codes, log, old(totalRtos));
      end := match result case None => Died case Some(status) => Done(status);
      PhaseIsPrompt(io, exit, committed, old(clock), sent, end, owed, log, clock);
    }

    // ... in phase 2: the status after the answers read.
    method ConcludeSecond(status: Status, io: PhaseIo) returns (end: PhaseEnd, scanned: nat)
      requires Valid() && forall i :: 0 <= i < n ==> board[i] == Lost
      modifies this`clock, this`pause, board, counts
      ensures old(clock) <= clock <= old(clock) + n
      ensures scanned <= n == |Tally(n, io.scored)| && (!StopSeen() ==> scanned == n)
      ensures end == Done(if exists i :: 0 <= i < scanned && Tally(n, io.scored)[i] != Ack then ClusterFail
                          else if status == RequestSuccess then CommitSuccess else CommitFail)
    {
      var result, read := Conclude(true, io);
      scanned := read;
      Phase2Verdict(Tally(n, io.scored)[..read]);
      if result == Some(ClusterFail) {
        end := Done(ClusterFail);
      } else {
        end := Done(if status == RequestSuccess then CommitSuccess else CommitFail);
      }
    }

    // With the flag not seen, phase 2 concludes from every client's last message.
    lemma SecondConcludes(status: Status, io: PhaseIo, end: PhaseEnd, scanned: nat)
      requires scanned == n == |Tally(n, io.scored)| && WaitEnds(io, counts.Length, n)
      requires end == Done(if exists i :: 0 <= i < scanned && Tally(n, io.scored)[i] != Ack then ClusterFail
                           else if status == RequestSuccess then CommitSuccess else CommitFail)
      ensures end == SecondEnd(status, io, counts.Length, n)
    {
      AcksFollowMessages(io);
    }

    /** do_phase2: a failed cluster is told nothing; otherwise the decision broadcast follows phase 1's status, and
        the phase succeeds exactly when every slot it read is an acknowledgement. The process dies only of a status that
        phase 1 never has or of a connection, and hangs exactly if it has sent a decision and the wait does not end. */
    method DoPhase2(status: Status, io: PhaseIo) returns (end: PhaseEnd, log: seq<Call>, ghost scanned: nat)
      requires Valid()
      requires forall p :: 0 <= p < |io.polls| ==> |io.polls[p]| == counts.Length
      modifies this`clock, this`totalRtos, this`pause, outbox, fired, board, counts
      ensures Valid() && clock >= old(clock) && scanned <= n == |Tally(n, io.scored)|
      ensures status == ClusterFail ==> end == Done(ClusterFail) && forall i :: 0 <= i < n ==> board[i] == Lost
      ensures status != RequestSuccess && status != RequestFail ==> log == [] && (status == ClusterFail || end == Died)
      ensures log != [] ==> Sending(OrderKind(status == RequestSuccess), io.codes, log, old(totalRtos))
      ensures log == [] ==> totalRtos == old(totalRtos)
      ensures end.Done? && status != ClusterFail ==>
        end.status == (if exists i :: 0 <= i < scanned && Tally(n, io.scored)[i] != Ack then ClusterFail
                       else if status == RequestSuccess then CommitSuccess else CommitFail)
      ensures end.Done? && status != ClusterFail && !StopSeen() ==> scanned == n && Count(log, NoError) == n
      ensures old(StopSeen()) ==> log == []
      ensures end == Died && (status == RequestSuccess || status == RequestFail) ==> Struck(log, io.codes, n)
      ensures end == Hung <==>
        (status == RequestSuccess || status == RequestFail) && end != Died && !WaitEnds(io, counts.Length, n)
      ensures status == RequestSuccess || status == RequestFail ==>
        PhasePrompt(io, end, SecondEnd(status, io, counts.Length, n), log, old(clock), clock)
    {
      ResetBoard();
      BoardKeepsLength(seq(n, _ => Lost), io.scored);
      log, scanned := [], 0;
      if status == ClusterFail {
        end := Done(ClusterFail);
        return;
      }
      if status != RequestSuccess && status != RequestFail {
        end := Died;
        return;
      }
      var exit, committed;
      exit, log, committed := SendRequest(OrderKind(status == RequestSuccess), io.codes);
      ghost var sent := clock;
      ghost var owed := SecondEnd(status, io, counts.Length, n);
      if exit == Terminated {
        end := Died;
        PhaseIsPrompt(io, exit, committed, old(clock), sent, end, owed, log, clock);
        return;
      }
      var wait, _ := WaitForVotes(io.polls, io.timeouts);
      if wait == StillWaiting {
        end := Hung;
        PhaseIsPrompt(io, exit, committed, old(clock), sent, end, owed, log, clock);
        return;
      }
      var after, read := ConcludeSecond(status, io);
      end, scanned := after, read;
      assert Sending(OrderKind(status == RequestSuccess), io.codes, log, old(totalRtos));
      if !StopSeen() {
        SecondConcludes(status, io, end, scanned);
      }
      PhaseIsPrompt(io, exit, committed, old(clock), sent, end, owed, log, clock);
    }

    // Both phases of a round are in time, one after the other.
    ghost predicate RoundInTime(io1: PhaseIo, io2: PhaseIo, rounds: nat, from: nat) {
      && PhaseInTime(io1, rounds, from)
      && PhaseInTime(io2, rounds, from + 2 * n + rounds * (n + 1))
      && WaitEnds(io1, counts.Length, n) && WaitEnds(io2, counts.Length, n)
    }

    // Every client has answered a vote with yes or no, and one of them with no.
    ghost predicate Outvoted(io: PhaseIo) {
      && (forall c :: 0 <= c < n ==> Says(io.scored, c, VoteYes) || Says(io.scored, c, VoteNo))
      && (exists c :: 0 <= c < n && Says(io.scored, c, VoteNo))
    }

    // What a round that is in time owes to clients that all answer: the decision of their votes.
    ghost predicate RoundPrompt(io1: PhaseIo, io2: PhaseIo, end: PhaseEnd, log: seq<Call>, from: nat) {
      forall rounds: nat :: RoundInTime(io1, io2, rounds, from) && AllSay(n, io2, Ack) ==>
        && (AllSay(n, io1, VoteYes) ==> end == Done(CommitSuccess) && Count(log, NoError) == n)
        && (Outvoted(io1) ==> end == Done(CommitFail) && Count(log, NoError) == n)
    }

    lemma LaterIsInTime(io: PhaseIo, rounds: nat, from: nat, later: nat)
      requires PhaseInTime(io, rounds, later) && from <= later
      ensures PhaseInTime(io, rounds, from)
    {
    }

    lemma RoundIsPrompt(io1: PhaseIo, io2: PhaseIo, first: PhaseEnd, end: PhaseEnd, asked: seq<Call>, log: seq<Call>,
        from: nat, between: nat, now: nat)
      requires PhasePrompt(io1, first, FirstEnd(io1, counts.Length, n), asked, from, between)
      requires first.Done? && (first.status == RequestSuccess || first.status == RequestFail) ==>
        PhasePrompt(io2, end, SecondEnd(first.status, io2, counts.Length, n), log, between, now)
      ensures RoundPrompt(io1, io2, end, log, from)
    {
      forall rounds: nat | RoundInTime(io1, io2, rounds, from) && AllSay(n, io2, Ack)
        ensures AllSay(n, io1, VoteYes) ==> end == Done(CommitSuccess) && Count(log, NoError) == n
        ensures Outvoted(io1) ==> end == Done(CommitFail) && Count(log, NoError) == n
      {
        LaterIsInTime(io2, rounds, between, from + 2 * n + rounds * (n + 1));
        VotesDecide(io1);
      }
    }

    // A scan of all slots follows the clients' votes.
    lemma VotesDecide(io: PhaseIo)
      ensures AllSay(n, io, VoteYes) ==> Scan(false, Tally(n, io.scored)) == Some(RequestSuccess)
      ensures Outvoted(io) ==> Scan(false, Tally(n, io.scored)) == Some(RequestFail)
    {
      var board := Tally(n, io.scored);
      BoardKeepsLength(seq(n, _ => Lost), io.scored);
      forall c | 0 <= c < n
        ensures board[c] == VoteYes <==> Says(io.scored, c, VoteYes)
        ensures board[c] == VoteNo <==> Says(io.scored, c, VoteNo)
      {
        SlotSays(n, io.scored, c, VoteYes);
        SlotSays(n, io.scored, c, VoteNo);
      }
      Phase1Verdict(board);
      if Outvoted(io) {
        VotesOnly(board);
      }
    }

    /** One round of run_server: a commit is written to any connection only if every client's vote is a yes, and a
        round that ends in success without the stop flag has every vote a yes and every answer an acknowledgement. */
    method Round(io1: PhaseIo, io2: PhaseIo) returns (end: PhaseEnd, log: seq<Call>)
      requires Valid()
      requires forall p :: 0 <= p < |io1.polls| ==> |io1.polls[p]| == counts.Length
      requires forall p :: 0 <= p < |io2.polls| ==> |io2.polls[p]| == counts.Length
      modifies this`clock, this`totalRtos, this`pause, outbox, fired, board, counts
      ensures forall a :: 0 <= a < |log| ==>
        log[a].conn < outbox.Length && outbox[log[a].conn] in {Some(Commit), Some(Cancel)}
      ensures (exists a :: 0 <= a < |log| && log[a].conn < outbox.Length && outbox[log[a].conn] == Some(Commit)) ==>
        AllSay(n, io1, VoteYes)
      ensures end == Done(CommitSuccess) && !StopSeen() ==> AllSay(n, io1, VoteYes) && AllSay(n, io2, Ack)
      ensures end == Done(CommitFail) && !StopSeen() ==>
        (exists c :: 0 <= c < n && Says(io1.scored, c, VoteNo)) && AllSay(n, io2, Ack)
      ensures totalRtos <= old(totalRtos) + 2 * n * MAX_RTOS
      ensures RoundPrompt(io1, io2, end, log, old(clock))
    {
      log := [];
      var first, asked; ghost var scanned1;
      first, asked, scanned1 := DoPhase1(io1);
      RetransmissionsAreBounded(asked, n, MAX_RTOS);
      ghost var between := clock;
      if !first.Done? {
        RoundIsPrompt(io1, io2, first, first, asked, log, old(clock), between, clock);
        return first, log;
      }
      VerdictFollowsMessages(io1, scanned1);
      assert StopSeen() || scanned1 == n;
      var second, sent; ghost var scanned2;
      second, sent, scanned2 := DoPhase2(first.status, io2);
      if sent != [] {
        RetransmissionsAreBounded(sent, n, MAX_RTOS);
      }
      AcksFollowMessages(io2);
      RoundIsPrompt(io1, io2, first, second, asked, sent, old(clock), between, clock);
      return second, sent;
    }

    lemma VerdictFollowsMessages(io: PhaseIo, scanned: nat)
      requires scanned <= n == |Tally(n, io.scored)|
      ensures var status := Scan(false, Tally(n, io.scored)[..scanned]);
        && (status.Some? ==> status.value in {RequestSuccess, RequestFail, ClusterFail})
        && (scanned == n && status == Some(RequestSuccess) ==> AllSay(n, io, VoteYes))
        && (scanned == n && status == Some(RequestFail) ==> exists c :: 0 <= c < n && Says(io.scored, c, VoteNo))
    {
      var board := Tally(n, io.scored);
      Phase1Verdict(board[..scanned]);
      if scanned == n {
        assert board[..scanned] == board;
        forall c | 0 <= c < n
          ensures board[c] == VoteYes <==> Says(io.scored, c, VoteYes)
          ensures board[c] == VoteNo <==> Says(io.scored, c, VoteNo)
        {
          SlotSays(n, io.scored, c, VoteYes);
          SlotSays(n, io.scored, c, VoteNo);
        }
      }
    }

    lemma AcksFollowMessages(io: PhaseIo)
      ensures |Tally(n, io.scored)| == n
      ensures (forall i :: 0 <= i < n ==> Tally(n, io.scored)[i] == Ack) <==> AllSay(n, io, Ack)
    {
      BoardKeepsLength(seq(n, _ => Lost), io.scored);
      forall c | 0 <= c < n
        ensures Tally(n, io.scored)[c] == Ack <==> Says(io.scored, c, Ack)
      {
        SlotSays(n, io.scored, c, Ack);
      }
    }
  }
}
