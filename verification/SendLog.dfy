/** The record of one send_request broadcast: which connection's end_write was called and what it answered. */
module SendLog {
  import opened Protocol

  datatype Call = Call(conn: nat, code: Code)

  // What conn_rtofired_count[i] holds after these calls: retransmissions so far, or -1 once acknowledged.
  function Entry(log: seq<Call>, i: nat): int {
    if log == [] then 0
    else
      var e, c := Entry(log[..|log| - 1], i), log[|log| - 1];
      if c.conn != i then e
      else match c.code
        case RtoFired => e + 1
        case NoError => -1
        case _ => e
  }

  /** The calls the loop may make: only on connections not yet acknowledged, and never past the retransmission
      limit; a call that ends the server is not recorded. */
  predicate Legal(log: seq<Call>, n: nat, limit: nat) {
    log == [] ||
    var before, c := log[..|log| - 1], log[|log| - 1];
    && Legal(before, n, limit) && c.conn < n && c.code != Fin && Entry(before, c.conn) >= 0
    && (c.code == RtoFired ==> Entry(before, c.conn) < limit)
  }

  function Entries(log: seq<Call>, n: nat): seq<int> { seq(n, i requires 0 <= i < n => Entry(log, i)) }

  function Count(log: seq<Call>, code: Code): nat {
    if log == [] then 0 else Count(log[..|log| - 1], code) + (if log[|log| - 1].code == code then 1 else 0)
  }

  function CountAt(log: seq<Call>, code: Code, i: nat): nat {
    if log == [] then 0 else CountAt(log[..|log| - 1], code, i) + (if log[|log| - 1] == Call(i, code) then 1 else 0)
  }

  function SumAt(log: seq<Call>, code: Code, n: nat): nat {
    if n == 0 then 0 else SumAt(log, code, n - 1) + CountAt(log, code, n - 1)
  }

  function Negatives(entries: seq<int>): nat {
    if entries == [] then 0
    else Negatives(entries[..|entries| - 1]) + (if entries[|entries| - 1] < 0 then 1 else 0)
  }

  /** The overloaded counter means what the source says: negative exactly when that connection was acknowledged,
      once; otherwise the number of its retransmissions. */
  lemma {:induction false} EntryTells(log: seq<Call>, n: nat, limit: nat, i: nat)
    requires Legal(log, n, limit)
    ensures Entry(log, i) >= -1
    ensures CountAt(log, NoError, i) == if Entry(log, i) < 0 then 1 else 0
    ensures Entry(log, i) >= 0 ==> CountAt(log, RtoFired, i) == Entry(log, i)
    ensures CountAt(log, RtoFired, i) <= limit
  {
    if log != [] {
      EntryTells(log[..|log| - 1], n, limit, i);
    }
  }

  lemma {:induction false} SumAtStep(log: seq<Call>, code: Code, n: nat)
    requires log != []
    ensures var c := log[|log| - 1];
      SumAt(log, code, n) == SumAt(log[..|log| - 1], code, n) + (if c.code == code && c.conn < n then 1 else 0)
  {
    if n > 0 {
      SumAtStep(log, code, n - 1);
    }
  }

  lemma {:induction false} SumAtEmpty(code: Code, n: nat)
    ensures SumAt([], code, n) == 0
  {
    if n > 0 {
      SumAtEmpty(code, n - 1);
    }
  }

  // Every call is counted for exactly one connection.
  lemma {:induction false} SumAtIsCount(log: seq<Call>, code: Code, n: nat, limit: nat)
    requires Legal(log, n, limit)
    ensures SumAt(log, code, n) == Count(log, code)
  {
    if log == [] {
      SumAtEmpty(code, n);
    } else {
      SumAtStep(log, code, n);
      SumAtIsCount(log[..|log| - 1], code, n, limit);
    }
  }

  lemma {:induction false} NegativesAreAcks(log: seq<Call>, n: nat, limit: nat, k: nat)
    requires Legal(log, n, limit) && k <= n
    ensures Negatives(Entries(log, k)) == SumAt(log, NoError, k)
  {
    if k > 0 {
      NegativesAreAcks(log, n, limit, k - 1);
      assert Entries(log, k)[..k - 1] == Entries(log, k - 1);
      EntryTells(log, n, limit, k - 1);
    }
  }

  /** The number of negative entries is the number of acknowledgements the loop has counted. */
  lemma NegativesAreCommitted(log: seq<Call>, n: nat, limit: nat)
    requires Legal(log, n, limit)
    ensures Negatives(Entries(log, n)) == Count(log, NoError)
  {
    NegativesAreAcks(log, n, limit, n);
    SumAtIsCount(log, NoError, n, limit);
  }

  lemma {:induction false} SumAtFull(log: seq<Call>, n: nat, limit: nat, k: nat, i: nat)
    requires Legal(log, n, limit)
    ensures SumAt(log, NoError, k) <= k
    ensures SumAt(log, NoError, k) == k && i < k ==> CountAt(log, NoError, i) == 1
  {
    if k > 0 {
      SumAtFull(log, n, limit, k - 1, i);
      EntryTells(log, n, limit, k - 1);
    }
  }

  /** When as many acknowledgements as connections have been counted, every connection has had exactly one. */
  lemma AllAcknowledgedOnce(log: seq<Call>, n: nat, limit: nat, i: nat)
    requires Legal(log, n, limit)
    ensures Count(log, NoError) <= n
    ensures Count(log, NoError) == n && i < n ==> CountAt(log, NoError, i) == 1
  {
    SumAtIsCount(log, NoError, n, limit);
    SumAtFull(log, n, limit, n, i);
  }

  lemma {:induction false} SumAtBound(log: seq<Call>, n: nat, limit: nat, k: nat)
    requires Legal(log, n, limit)
    ensures SumAt(log, RtoFired, k) <= k * limit
  {
    if k > 0 {
      SumAtBound(log, n, limit, k - 1);
      EntryTells(log, n, limit, k - 1);
      assert k * limit == (k - 1) * limit + limit;
    }
  }

  /** One broadcast adds at most the limit per connection to the total of retransmissions. */
  lemma RetransmissionsAreBounded(log: seq<Call>, n: nat, limit: nat)
    requires Legal(log, n, limit)
    ensures Count(log, RtoFired) <= n * limit
  {
    SumAtIsCount(log, RtoFired, n, limit);
    SumAtBound(log, n, limit, n);
  }

  lemma {:induction false} StaysNegative(log: seq<Call>, n: nat, limit: nat, a: nat)
    requires Legal(log, n, limit) && a < |log| && log[a].code == NoError
    ensures Entry(log, log[a].conn) < 0
    ensures forall b :: a < b < |log| ==> log[b].conn != log[a].conn
  {
    if a < |log| - 1 {
      StaysNegative(log[..|log| - 1], n, limit, a);
    }
  }

  /** Once its end_write has succeeded, a connection is not written to again in the same broadcast. */
  lemma SilentAfterSuccess(log: seq<Call>, n: nat, limit: nat, a: nat, b: nat)
    requires Legal(log, n, limit) && a < b < |log| && log[a].code == NoError
    ensures log[b].conn != log[a].conn
  {
    StaysNegative(log, n, limit, a);
  }

  // ----- what the connections answer -----

  // What connection i answers to its call number k.
  type Answers = (nat, nat) -> Code

  // How many calls connection i has had.
  function CallsTo(log: seq<Call>, i: nat): nat {
    if log == [] then 0 else CallsTo(log[..|log| - 1], i) + (if log[|log| - 1].conn == i then 1 else 0)
  }

  // Every call was answered as given.
  predicate Answered(log: seq<Call>, codes: Answers) {
    forall a :: 0 <= a < |log| ==> log[a].code == codes(log[a].conn, CallsTo(log[..a], log[a].conn))
  }

  // The next call on connection i ends the server: its stream is finished, or it has one timeout too many.
  predicate Fatal(log: seq<Call>, codes: Answers, i: nat, limit: nat) {
    && Entry(log, i) >= 0
    && var c := codes(i, CallsTo(log, i)); c == Fin || (c == RtoFired && Entry(log, i) >= limit)
  }

  // Timeouts among the first k answers of connection i.
  function Timeouts(codes: Answers, i: nat, k: nat): nat {
    if k == 0 then 0 else Timeouts(codes, i, k - 1) + (if codes(i, k - 1) == RtoFired then 1 else 0)
  }

  predicate RetriesOnly(codes: Answers, i: nat, k: nat) {
    forall j :: 0 <= j < k ==> codes(i, j) == Again || codes(i, j) == RtoFired
  }

  /** Connection i acknowledges at its call number k: nothing but retries before, and no more timeouts than allowed. */
  predicate Acks(codes: Answers, i: nat, k: nat, limit: nat) {
    codes(i, k) == NoError && Timeouts(codes, i, k) <= limit && RetriesOnly(codes, i, k)
  }

  ghost predicate AcksWithin(codes: Answers, i: nat, rounds: nat, limit: nat) {
    exists k: nat :: k < rounds && Acks(codes, i, k, limit)
  }

  // Every connection acknowledges within its first `rounds` calls.
  ghost predicate AllAck(codes: Answers, n: nat, rounds: nat, limit: nat) {
    forall i :: 0 <= i < n ==> AcksWithin(codes, i, rounds, limit)
  }

  // Connections that answer with success at once are in time.
  lemma EagerAcks(codes: Answers, n: nat, limit: nat)
    requires forall i, k :: codes(i, k) == NoError
    ensures AllAck(codes, n, 1, limit)
  {
    forall i | 0 <= i < n
      ensures AcksWithin(codes, i, 1, limit)
    {
      assert Acks(codes, i, 0, limit);
    }
  }

  lemma {:induction false} TimeoutsGrow(codes: Answers, i: nat, a: nat, b: nat)
    requires a <= b
    ensures Timeouts(codes, i, a) <= Timeouts(codes, i, b)
  {
    if a < b {
      TimeoutsGrow(codes, i, a, b - 1);
    }
  }

  lemma AnsweredBefore(log: seq<Call>, codes: Answers)
    requires log != [] && Answered(log, codes)
    ensures var front, c := log[..|log| - 1], log[|log| - 1];
      Answered(front, codes) && c.code == codes(c.conn, CallsTo(front, c.conn))
  {
    var front := log[..|log| - 1];
    forall a | 0 <= a < |front|
      ensures front[a].code == codes(front[a].conn, CallsTo(front[..a], front[a].conn))
    {
      assert front[..a] == log[..a];
    }
  }

  // A connection not yet acknowledged has answered with nothing but retries, and its entry counts the timeouts.
  lemma {:induction false} OpenHasRetried(log: seq<Call>, codes: Answers, n: nat, limit: nat, i: nat)
    requires Legal(log, n, limit) && Answered(log, codes) && Entry(log, i) >= 0
    ensures Entry(log, i) == Timeouts(codes, i, CallsTo(log, i)) && RetriesOnly(codes, i, CallsTo(log, i))
  {
    if log != [] {
      AnsweredBefore(log, codes);
      OpenHasRetried(log[..|log| - 1], codes, n, limit, i);
    }
  }

  lemma AcksAfterRetries(codes: Answers, i: nat, k: nat, c: nat, limit: nat)
    requires Acks(codes, i, k, limit) && RetriesOnly(codes, i, c)
    ensures c <= k
  {
  }

  lemma AckedInLimit(codes: Answers, i: nat, k: nat, c: nat, limit: nat)
    requires Acks(codes, i, k, limit) && c <= k
    ensures codes(i, c) != Fin && (codes(i, c) == RtoFired ==> Timeouts(codes, i, c) < limit)
  {
    if c < k {
      TimeoutsGrow(codes, i, c + 1, k);
    }
  }

  // So it has not had more calls than it takes to acknowledge, and the next one does not end the server.
  lemma AckIsAhead(log: seq<Call>, codes: Answers, n: nat, limit: nat, i: nat, k: nat)
    requires Legal(log, n, limit) && Answered(log, codes) && Entry(log, i) >= 0 && Acks(codes, i, k, limit)
    ensures CallsTo(log, i) <= k && !Fatal(log, codes, i, limit)
  {
    OpenHasRetried(log, codes, n, limit, i);
    AcksAfterRetries(codes, i, k, CallsTo(log, i), limit);
    AckedInLimit(codes, i, k, CallsTo(log, i), limit);
  }

  // ----- one pass -----

  // One turn of the inner loop: an acknowledged connection is left out.
  function Turn(log: seq<Call>, codes: Answers, i: nat): seq<Call> {
    if Entry(log, i) < 0 then log else log + [Call(i, codes(i, CallsTo(log, i)))]
  }

  /** What a pass that has come to connection i has added to the log: one call, with its next answer, for every
      connection below i that was not acknowledged before the pass, in increasing order, and none for the others. */
  predicate Passed(log: seq<Call>, codes: Answers, i: nat, log': seq<Call>) {
    && log <= log'
    && (forall a :: |log| <= a < |log'| ==>
          && log'[a].conn < i && Entry(log, log'[a].conn) >= 0
          && log'[a].code == codes(log'[a].conn, CallsTo(log, log'[a].conn)))
    && (forall a, b :: |log| <= a < b < |log'| ==> log'[a].conn < log'[b].conn)
    && (forall c :: 0 <= c < i && Entry(log, c) >= 0 ==> CalledSince(log, log', c))
  }

  predicate CalledSince(log: seq<Call>, log': seq<Call>, c: nat) {
    exists a :: |log| <= a < |log'| && log'[a].conn == c
  }

  // A connection that was not called keeps its entry.
  lemma {:induction false} NotCalled(log: seq<Call>, log': seq<Call>, i: nat)
    requires log <= log' && forall a :: |log| <= a < |log'| ==> log'[a].conn != i
    ensures Entry(log', i) == Entry(log, i) && CallsTo(log', i) == CallsTo(log, i)
    decreases |log'|
  {
    if log' != log {
      NotCalled(log, log'[..|log'| - 1], i);
    }
  }

  // A connection that was called once has one call more.
  lemma {:induction false} CalledOnce(log: seq<Call>, log': seq<Call>, i: nat, at: nat)
    requires log <= log' && |log| <= at < |log'| && log'[at].conn == i
    requires forall a :: |log| <= a < |log'| && a != at ==> log'[a].conn != i
    ensures CallsTo(log', i) == CallsTo(log, i) + 1
    decreases |log'|
  {
    var front := log'[..|log'| - 1];
    if at == |log'| - 1 {
      NotCalled(log, front, i);
    } else {
      CalledOnce(log, front, i, at);
    }
  }

  lemma PassBegins(log: seq<Call>, codes: Answers)
    ensures Passed(log, codes, 0, log)
  {
  }

  lemma PassGoesOn(log: seq<Call>, codes: Answers, i: nat, log': seq<Call>)
    requires Passed(log, codes, i, log')
    ensures Passed(log, codes, i + 1, Turn(log', codes, i))
  {
    NotCalled(log, log', i);
    var log2 := Turn(log', codes, i);
    forall c | 0 <= c < i + 1 && Entry(log, c) >= 0
      ensures CalledSince(log, log2, c)
    {
      if c == i {
        assert log2[|log'|].conn == i;
      } else {
        var a :| |log| <= a < |log'| && log'[a].conn == c;
        assert log2[a].conn == c;
      }
    }
  }

  // Every connection not yet acknowledged has had p calls.
  predicate Even(log: seq<Call>, n: nat, p: nat) {
    forall i :: 0 <= i < n && Entry(log, i) >= 0 ==> CallsTo(log, i) == p
  }

  /** A whole pass calls every open connection once. */
  lemma PassIsEven(log: seq<Call>, codes: Answers, n: nat, log': seq<Call>, p: nat)
    requires Passed(log, codes, n, log') && Even(log, n, p)
    ensures Even(log', n, p + 1)
  {
    forall i | 0 <= i < n && Entry(log', i) >= 0
      ensures CallsTo(log', i) == p + 1
    {
      if Entry(log, i) < 0 {
        NotCalled(log, log', i);
      } else {
        var at :| |log| <= at < |log'| && log'[at].conn == i;
        CalledOnce(log, log', i, at);
      }
    }
  }

  // As long as one connection is open, fewer passes have been made than it takes.
  lemma OpenIsEarly(log: seq<Call>, codes: Answers, n: nat, limit: nat, p: nat, rounds: nat)
    requires Legal(log, n, limit) && Answered(log, codes) && Even(log, n, p) && Count(log, NoError) < n
    requires AllAck(codes, n, rounds, limit)
    ensures p < rounds
  {
    NegativesAreCommitted(log, n, limit);
    var i := SomeOpen(Entries(log, n));
    assert AcksWithin(codes, i, rounds, limit);
    var k: nat :| k < rounds && Acks(codes, i, k, limit);
    AckIsAhead(log, codes, n, limit, i, k);
  }

  lemma {:induction false} SomeOpen(entries: seq<int>) returns (i: nat)
    requires Negatives(entries) < |entries|
    ensures i < |entries| && entries[i] >= 0
  {
    i := |entries| - 1;
    if entries[i] < 0 {
      i := SomeOpen(entries[..i]);
    }
  }

  lemma AllAckIsNeverFatal(log: seq<Call>, codes: Answers, n: nat, limit: nat, rounds: nat, i: nat)
    requires Legal(log, n, limit) && Answered(log, codes) && AllAck(codes, n, rounds, limit) && i < n
    ensures !Fatal(log, codes, i, limit)
  {
    if Entry(log, i) >= 0 {
      assert AcksWithin(codes, i, rounds, limit);
      var k: nat :| k < rounds && Acks(codes, i, k, limit);
      AckIsAhead(log, codes, n, limit, i, k);
    }
  }

  // One more call changes one entry.
  lemma EntriesStep(log: seq<Call>, n: nat, c: Call)
    requires c.conn < n
    ensures Entries(log + [c], n) == Entries(log, n)[c.conn := Entry(log + [c], c.conn)]
    ensures Entry(log + [c], c.conn) == match c.code
      case RtoFired => Entry(log, c.conn) + 1
      case NoError => -1
      case _ => Entry(log, c.conn)
    ensures Count(log + [c], NoError) == Count(log, NoError) + (if c.code == NoError then 1 else 0)
    ensures Count(log + [c], RtoFired) == Count(log, RtoFired) + (if c.code == RtoFired then 1 else 0)
  {
    assert (log + [c])[..|log|] == log;
  }

  lemma AnsweredStep(log: seq<Call>, codes: Answers, i: nat)
    requires Answered(log, codes)
    ensures Answered(log + [Call(i, codes(i, CallsTo(log, i)))], codes)
  {
    var more := log + [Call(i, codes(i, CallsTo(log, i)))];
    forall a | 0 <= a < |more|
      ensures more[a].code == codes(more[a].conn, CallsTo(more[..a], more[a].conn))
    {
      assert more[..a] == log[..a];
    }
  }

  lemma LegalStep(log: seq<Call>, n: nat, limit: nat, c: Call)
    requires Legal(log, n, limit) && c.conn < n && c.code != Fin && Entry(log, c.conn) >= 0
    requires c.code == RtoFired ==> Entry(log, c.conn) < limit
    ensures Legal(log + [c], n, limit)
  {
    assert (log + [c])[..|log|] == log;
  }
}
