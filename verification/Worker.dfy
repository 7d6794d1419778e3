/** A worker thread's polling loop over its connections, the shared scoreboard and its own vote counter. */
module Worker {
  import opened Protocol
  import opened TwoPhase

  predicate Known(msg: Msg, clients: nat) { 1 <= msg.src <= clients }

  /** The messages one pass scores: those from known clients, up to a finished stream or the end of the memory for
      statistics, of which `room` entries are left. */
  function Handled(polled: seq<Got>, clients: nat, room: nat): seq<Msg> {
    if polled == [] || polled[0].StreamOver? || room == 0 then []
    else if polled[0].Message? && Known(polled[0].msg, clients) then
      [polled[0].msg] + Handled(polled[1..], clients, room - 1)
    else Handled(polled[1..], clients, room)
  }

  // The scoreboard after these messages.
  function Board(board: seq<Kind>, msgs: seq<Msg>): seq<Kind> {
    if msgs == [] then board
    else
      var b, m := Board(board, msgs[..|msgs| - 1]), msgs[|msgs| - 1];
      if Known(m, |b|) then b[m.src - 1 := m.kind] else b
  }

  // Message k is the last one from its client.
  predicate Latest(msgs: seq<Msg>, k: nat) {
    k < |msgs| && forall i :: k < i < |msgs| ==> msgs[i].src != msgs[k].src
  }

  lemma {:induction false} BoardKeepsLength(board: seq<Kind>, msgs: seq<Msg>)
    ensures |Board(board, msgs)| == |board|
  {
    if msgs != [] {
      BoardKeepsLength(board, msgs[..|msgs| - 1]);
    }
  }

  // A client that sent nothing keeps its slot.
  lemma {:induction false} BoardElsewhere(board: seq<Kind>, msgs: seq<Msg>, c: nat)
    requires c < |board| && forall k :: 0 <= k < |msgs| ==> msgs[k].src != c + 1
    ensures |Board(board, msgs)| == |board| && Board(board, msgs)[c] == board[c]
  {
    if msgs != [] {
      BoardElsewhere(board, msgs[..|msgs| - 1], c);
    }
  }

  /** A client's slot shows its latest message. */
  lemma {:induction false} BoardShowsLatest(board: seq<Kind>, msgs: seq<Msg>, k: nat)
    requires Latest(msgs, k) && Known(msgs[k], |board|)
    ensures |Board(board, msgs)| == |board| && Board(board, msgs)[msgs[k].src - 1] == msgs[k].kind
  {
    var front := msgs[..|msgs| - 1];
    if k < |front| {
      BoardShowsLatest(board, front, k);
    } else {
      BoardKeepsLength(board, front);
    }
  }

  // The last message from client number c, counted from 0, is of this kind.
  ghost predicate Says(msgs: seq<Msg>, c: nat, kind: Kind) {
    exists k: nat :: Latest(msgs, k) && msgs[k].src == c + 1 && msgs[k].kind == kind
  }

  // The last message from client number c, if there is one.
  lemma {:induction false} FindLatest(msgs: seq<Msg>, c: nat) returns (found: bool, k: nat)
    ensures found ==> Latest(msgs, k) && msgs[k].src == c + 1
    ensures !found ==> forall i :: 0 <= i < |msgs| ==> msgs[i].src != c + 1
  {
    found, k := false, 0;
    if msgs != [] {
      var i := |msgs| - 1;
      if msgs[i].src == c + 1 {
        found, k := true, i;
      } else {
        found, k := FindLatest(msgs[..i], c);
        assert forall m :: 0 <= m < i ==> msgs[..i][m] == msgs[m];
      }
    }
  }

  // The scoreboard after a reset and these messages.
  function Tally(clients: nat, msgs: seq<Msg>): seq<Kind> { Board(seq(clients, _ => Lost), msgs) }

  /** After a reset a slot shows a message exactly if that is the last one from its client. */
  lemma SlotSays(clients: nat, msgs: seq<Msg>, c: nat, kind: Kind)
    requires c < clients && kind != Lost
    ensures |Tally(clients, msgs)| == clients
    ensures Tally(clients, msgs)[c] == kind <==> Says(msgs, c, kind)
  {
    var board := seq(clients, _ => Lost);
    BoardKeepsLength(board, msgs);
    var found, k := FindLatest(msgs, c);
    if found {
      BoardShowsLatest(board, msgs, k);
      assert Says(msgs, c, msgs[k].kind);
    } else {
      BoardElsewhere(board, msgs, c);
    }
  }

  // The scored messages all come from known clients, and there is one statistics entry for each.
  lemma {:induction false} HandledAreKnown(polled: seq<Got>, clients: nat, room: nat)
    ensures forall k :: 0 <= k < |Handled(polled, clients, room)| ==> Known(Handled(polled, clients, room)[k], clients)
    ensures |Handled(polled, clients, room)| <= room && |Handled(polled, clients, room)| <= |polled|
  {
    if polled != [] && !polled[0].StreamOver? && room > 0 {
      if polled[0].Message? && Known(polled[0].msg, clients) {
        HandledAreKnown(polled[1..], clients, room - 1);
      } else {
        HandledAreKnown(polled[1..], clients, room);
      }
    }
  }

  predicate IsKnown(got: Got, clients: nat) { got.Message? && Known(got.msg, clients) }

  // The messages are those at these positions, in order, and no others from known clients stand before the cut.
  predicate Picked(polled: seq<Got>, clients: nat, msgs: seq<Msg>, at: seq<nat>, cut: nat) {
    && cut <= |polled| && |at| == |msgs|
    && (forall k :: 0 <= k < |at| ==> at[k] < cut && IsKnown(polled[at[k]], clients) && polled[at[k]].msg == msgs[k])
    && (forall k, m :: 0 <= k < m < |at| ==> at[k] < at[m])
    && (forall p :: 0 <= p < cut ==> !polled[p].StreamOver? && (IsKnown(polled[p], clients) ==> p in at))
  }

  // The same positions, counted from one earlier.
  function Shifted(at: seq<nat>): seq<nat> { seq(|at|, k requires 0 <= k < |at| => at[k] + 1) }

  lemma ShiftedHolds(at: seq<nat>, p: nat)
    requires p in at
    ensures p + 1 in Shifted(at)
  {
    var k :| 0 <= k < |at| && at[k] == p;
    assert Shifted(at)[k] == p + 1;
  }

  lemma PickedLater(polled: seq<Got>, clients: nat, msgs: seq<Msg>, at: seq<nat>, cut: nat)
    requires polled != [] && Picked(polled[1..], clients, msgs, at, cut)
    ensures forall p :: 1 <= p < cut + 1 ==>
      !polled[p].StreamOver? && (IsKnown(polled[p], clients) ==> p in Shifted(at))
  {
    forall p | 1 <= p < cut + 1
      ensures !polled[p].StreamOver? && (IsKnown(polled[p], clients) ==> p in Shifted(at))
    {
      assert polled[p] == polled[1..][p - 1];
      if IsKnown(polled[p], clients) {
        ShiftedHolds(at, p - 1);
      }
    }
  }

  lemma PickSkips(polled: seq<Got>, clients: nat, msgs: seq<Msg>, at: seq<nat>, cut: nat)
    requires polled != [] && !polled[0].StreamOver? && !IsKnown(polled[0], clients)
    requires Picked(polled[1..], clients, msgs, at, cut)
    ensures Picked(polled, clients, msgs, Shifted(at), cut + 1)
  {
    PickedLater(polled, clients, msgs, at, cut);
  }

  lemma TakenInOrder(at: seq<nat>, polled: seq<Got>, clients: nat, msgs: seq<Msg>, cut: nat)
    requires polled != [] && IsKnown(polled[0], clients) && Picked(polled[1..], clients, msgs, at, cut)
    ensures var at', msgs' := [0] + Shifted(at), [polled[0].msg] + msgs;
      && (forall k :: 0 <= k < |at'| ==>
            at'[k] < cut + 1 && IsKnown(polled[at'[k]], clients) && polled[at'[k]].msg == msgs'[k])
      && (forall k, m :: 0 <= k < m < |at'| ==> at'[k] < at'[m])
  {
    var at', msgs' := [0] + Shifted(at), [polled[0].msg] + msgs;
    forall k | 0 <= k < |at'|
      ensures at'[k] < cut + 1 && IsKnown(polled[at'[k]], clients) && polled[at'[k]].msg == msgs'[k]
    {
      if k > 0 {
        assert at'[k] == at[k - 1] + 1 && polled[at'[k]] == polled[1..][at[k - 1]] && msgs'[k] == msgs[k - 1];
      }
    }
  }

  lemma PickTakes(polled: seq<Got>, clients: nat, msgs: seq<Msg>, at: seq<nat>, cut: nat)
    requires polled != [] && IsKnown(polled[0], clients) && Picked(polled[1..], clients, msgs, at, cut)
    ensures Picked(polled, clients, [polled[0].msg] + msgs, [0] + Shifted(at), cut + 1)
  {
    TakenInOrder(at, polled, clients, msgs, cut);
    PickedLater(polled, clients, msgs, at, cut);
    assert ([0] + Shifted(at))[0] == 0;
    forall p | 0 <= p < cut + 1
      ensures !polled[p].StreamOver? && (IsKnown(polled[p], clients) ==> p in [0] + Shifted(at))
    {
    }
  }

  /** What a pass scores, position by position: up to the cut, every message from a known client, in order, and nothing
      else; and the cut is the end of the pass, a finished stream, or where the memory for statistics is used up. */
  lemma {:induction false} HandledTells(polled: seq<Got>, clients: nat, room: nat) returns (at: seq<nat>, cut: nat)
    ensures Picked(polled, clients, Handled(polled, clients, room), at, cut) && |at| <= room
    ensures cut == |polled| || polled[cut].StreamOver? || |at| == room
  {
    at, cut := [], 0;
    if polled != [] && !polled[0].StreamOver? && room > 0 {
      if IsKnown(polled[0], clients) {
        at, cut := HandledTells(polled[1..], clients, room - 1);
        PickTakes(polled, clients, Handled(polled[1..], clients, room - 1), at, cut);
        at, cut := [0] + Shifted(at), cut + 1;
      } else {
        at, cut := HandledTells(polled[1..], clients, room);
        PickSkips(polled, clients, Handled(polled[1..], clients, room), at, cut);
        at, cut := Shifted(at), cut + 1;
      }
    }
  }

  // After k answers of a pass, msgs have been scored and room entries are left.
  predicate PassAt(polled: seq<Got>, all: seq<Msg>, k: nat, clients: nat, room: nat, msgs: seq<Msg>) {
    && k <= |polled| && all == msgs + Handled(polled[k..], clients, room)
    && forall i :: 0 <= i < k ==> !polled[i].StreamOver?
  }

  lemma PassStep(polled: seq<Got>, all: seq<Msg>, k: nat, clients: nat, room: nat, msgs: seq<Msg>)
    requires k < |polled| && room > 0 && PassAt(polled, all, k, clients, room, msgs)
    ensures if polled[k].StreamOver? then all == msgs
      else if polled[k].Message? && Known(polled[k].msg, clients)
        then PassAt(polled, all, k + 1, clients, room - 1, msgs + [polled[k].msg])
      else PassAt(polled, all, k + 1, clients, room, msgs)
  {
    assert polled[k..][1..] == polled[k + 1..];
  }

  lemma PassEnds(polled: seq<Got>, all: seq<Msg>, k: nat, clients: nat, room: nat, msgs: seq<Msg>)
    requires PassAt(polled, all, k, clients, room, msgs) && (k == |polled| || room == 0)
    ensures all == msgs
  {
  }

  lemma BoardStep(board: seq<Kind>, msgs: seq<Msg>, msg: Msg)
    ensures Board(board, msgs + [msg]) ==
      (var b := Board(board, msgs); if Known(msg, |b|) then b[msg.src - 1 := msg.kind] else b)
  {
    assert (msgs + [msg])[..|msgs|] == msgs;
  }

  class WorkerThread {
    const lo: nat
    const hi: nat
    const clients: nat
    const threadId: nat
    const statsLen: nat
    const board: array<Kind>
    const counts: array<int>
    var statsIdx: nat
    var stop: bool

    predicate Valid()
      reads this
    {
      && lo <= hi <= clients == board.Length && threadId < counts.Length
      && (statsIdx < statsLen || stop)
    }

    constructor (lo: nat, hi: nat, threadId: nat, statsLen: nat, board: array<Kind>, counts: array<int>)
      requires lo <= hi <= board.Length && threadId < counts.Length && statsLen > 0
      ensures Valid() && !stop && statsIdx == 0 && this.board == board && this.counts == counts
      ensures this.lo == lo && this.hi == hi && this.threadId == threadId && this.statsLen == statsLen
    {
      this.lo, this.hi, this.threadId, this.statsLen := lo, hi, threadId, statsLen;
      this.board, this.counts, clients := board, counts, board.Length;
      statsIdx, stop := 0, false;
    }

    // A paused worker keeps clearing its counter.
    method PausedTurn()
      requires Valid()
      modifies counts
      ensures counts[..] == old(counts[..])[threadId := 0]
    {
      counts[threadId] := 0;
    }

    // Score and count one message.
    method HandleMessage(msg: Msg)
      requires Valid() && !stop && Known(msg, clients)
      modifies this`statsIdx, this`stop, board, counts
      ensures Valid() && board[..] == old(board[..])[msg.src - 1 := msg.kind]
      ensures counts[..] == old(counts[..])[threadId := old(counts[threadId]) + 1]
      ensures statsIdx == old(statsIdx) + 1 && (stop <==> statsIdx >= statsLen)
    {
      board[msg.src - 1] := msg.kind;
      counts[threadId] := counts[threadId] + 1;
      statsIdx := statsIdx + 1;
      if statsIdx >= statsLen {
        stop := true;
      }
    }

    // Everything these messages change, against the state before them.
    ghost predicate Scored(msgs: seq<Msg>, board0: seq<Kind>, counts0: seq<int>, idx0: nat)
      requires threadId < |counts0|
      reads `statsIdx, board, counts
    {
      && threadId < counts.Length && board[..] == Board(board0, msgs)
      && counts[..] == counts0[threadId := counts0[threadId] + |msgs|] && statsIdx == idx0 + |msgs|
    }

    method ScoreNext(msg: Msg, ghost msgs: seq<Msg>, ghost board0: seq<Kind>, ghost counts0: seq<int>, ghost idx0: nat)
      requires threadId < |counts0| && Valid() && Scored(msgs, board0, counts0, idx0) && !stop && Known(msg, clients)
      modifies this`statsIdx, this`stop, board, counts
      ensures Valid() && Scored(msgs + [msg], board0, counts0, idx0) && (stop <==> statsIdx >= statsLen)
    {
      BoardStep(board0, msgs, msg);
      HandleMessage(msg);
    }

    /** One pass over the thread's connections: the scoreboard, the counter and the statistics index move by exactly
        the messages of this pass, and the stop flag goes up for a finished stream or when the statistics are full. */
    method Pass(polled: seq<Got>) returns (ghost msgs: seq<Msg>)
      requires Valid() && !stop && |polled| == hi - lo
      modifies this`statsIdx, this`stop, board, counts
      ensures msgs == Handled(polled, clients, statsLen - old(statsIdx))
      ensures Valid() && Scored(msgs, old(board[..]), old(counts[..]), old(statsIdx))
      ensures stop ==> statsIdx == statsLen || exists i :: 0 <= i < |polled| && polled[i].StreamOver?
      ensures !stop ==> statsIdx < statsLen && forall i :: 0 <= i < |polled| ==> !polled[i].StreamOver?
    {
      ghost var board0, counts0, idx0 := board[..], counts[..], statsIdx;
      ghost var all := Handled(polled, clients, statsLen - idx0);
      ghost var k, room := 0, statsLen - idx0;
      msgs := [];
      var i := lo;
      while i < hi
        invariant lo <= i <= hi && !stop && Valid()
        invariant Scored(msgs, board0, counts0, idx0)
        invariant k == i - lo && room == statsLen - statsIdx
        invariant PassAt(polled, all, k, clients, room, msgs)
      {
        var got := polled[i - lo];
        PassStep(polled, all, k, clients, room, msgs);
        k := k + 1;
        if got.StreamOver? {
          stop := true;
          return;
        }
        if got.Message? && Known(got.msg, clients) {
          ScoreNext(got.msg, msgs, board0, counts0, idx0);
          msgs, room := msgs + [got.msg], room - 1;
          if stop {
            PassEnds(polled, all, k, clients, room, msgs);
            return;
          }
        }
        i := i + 1;
      }
      PassEnds(polled, all, k, clients, room, msgs);
    }
  }

  // The machine's steps for one message of connection j: first the scoreboard, then the counter.
  function Scores(cfg: Config, c: Core, t: nat, j: nat, kind: Kind): Core
    requires t < |c.workers| == |c.counts| && WorkEnabled(cfg, c, t, Receive(j, kind))
  {
    WorkNext(cfg, WorkNext(cfg, c, t, Receive(j, kind)), t, Score)
  }

  function Counts(cfg: Config, c: Core, t: nat): Core
    requires t < |c.workers| == |c.counts| && WorkEnabled(cfg, c, t, EndRead)
  {
    WorkNext(cfg, WorkNext(cfg, WorkNext(cfg, c, t, EndRead), t, LoadCount), t, StoreCount)
  }

  lemma ScoreIsSteps(cfg: Config, c: Core, t: nat, j: nat, kind: Kind)
    requires t < |c.workers| == |c.counts| && WorkEnabled(cfg, c, t, Receive(j, kind))
    ensures Scores(cfg, c, t, j, kind) ==
      c.(slots := c.slots[j := c.slots[j].(board := kind, held := None)], workers := c.workers[t := WorkerPc.Scored(j)])
  {
    var c' := Scores(cfg, c, t, j, kind);
    assert c'.workers == c.workers[t := WorkerPc.Scored(j)];
    assert c'.slots == c.slots[j := c.slots[j].(board := kind, held := None)];
  }

  lemma CountIsSteps(cfg: Config, c: Core, t: nat, j: nat)
    requires t < |c.workers| == |c.counts| && c.workers[t] == WorkerPc.Scored(j)
    ensures Counts(cfg, c, t) == c.(counts := c.counts[t := c.counts[t] + 1], workers := c.workers[t := Polling])
  {
    assert Counts(cfg, c, t).workers == c.workers[t := Polling];
  }

  /** Handling one message is the machine's Receive, Score, EndRead, LoadCount and StoreCount: the same change to the
      scoreboard and to the counter, for the owner of the connection and for nobody else. */
  lemma MessageIsSteps(cfg: Config, c: Core, t: nat, j: nat, kind: Kind)
    requires t < |c.workers| == |c.counts| && j < N(c) == |cfg.owner| && c.workers[t] == Polling
    ensures WorkEnabled(cfg, c, t, Receive(j, kind)) <==> cfg.owner[j] == t
    ensures cfg.owner[j] == t ==>
      && Scores(cfg, c, t, j, kind).workers[t] == WorkerPc.Scored(j)
      && Counts(cfg, Scores(cfg, c, t, j, kind), t) ==
        c.(slots := c.slots[j := c.slots[j].(board := kind, held := None)], counts := c.counts[t := c.counts[t] + 1])
  {
    if cfg.owner[j] == t {
      ScoreIsSteps(cfg, c, t, j, kind);
      CountIsSteps(cfg, Scores(cfg, c, t, j, kind), t, j);
    }
  }

  /** A paused turn is the machine's SeePause and ZeroOwn: it clears the thread's own counter and nothing else. */
  lemma PauseIsSteps(cfg: Config, c: Core, t: nat)
    requires t < |c.workers| == |c.counts| && c.workers[t] == Top && c.pause
    ensures WorkEnabled(cfg, c, t, SeePause)
    ensures WorkEnabled(cfg, WorkNext(cfg, c, t, SeePause), t, ZeroOwn)
    ensures WorkNext(cfg, WorkNext(cfg, c, t, SeePause), t, ZeroOwn) == c.(counts := c.counts[t := 0])
  {
    var c' := WorkNext(cfg, WorkNext(cfg, c, t, SeePause), t, ZeroOwn);
    assert c'.workers == c.workers;
  }
}
