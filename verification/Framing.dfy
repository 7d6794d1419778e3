/** Message framing on a byte stream: the greedy parse, and the delimiter's two calls as functions on a
    buffer with at most one message found at its front. */
module Framing {
  import opened Protocol

  newtype byte = x: int | 0 <= x < 256

  // Says how long the message at the front of the buffer is; 0 when it is not complete.
  type Delimiter = seq<byte> -> int

  ghost predicate Bounded(d: Delimiter) { forall s :: 0 <= d(s) <= |s| }

  // Once a message is complete, more bytes do not change its length.
  ghost predicate Stable(d: Delimiter) { forall s, t :: d(s) > 0 ==> d(s + t) == d(s) }

  // The messages at the front of a stream, and what is left after them.
  ghost function Frames(d: Delimiter, s: seq<byte>): seq<seq<byte>>
    requires Bounded(d)
    decreases |s|
  {
    if d(s) == 0 then [] else [s[..d(s)]] + Frames(d, s[d(s)..])
  }

  ghost function Rest(d: Delimiter, s: seq<byte>): seq<byte>
    requires Bounded(d)
    decreases |s|
  {
    if d(s) == 0 then s else Rest(d, s[d(s)..])
  }

  function Flatten(frames: seq<seq<byte>>): seq<byte> {
    if frames == [] then [] else frames[0] + Flatten(frames[1..])
  }

  lemma {:induction false} FlattenSnoc(frames: seq<seq<byte>>, f: seq<byte>)
    ensures Flatten(frames + [f]) == Flatten(frames) + f
  {
    if frames == [] {
      assert [f][1..] == [];
    } else {
      assert (frames + [f])[1..] == frames[1..] + [f];
      FlattenSnoc(frames[1..], f);
    }
  }

  // What one read() on the socket yields; a successful read is never empty.
  datatype Read = Nothing | Closed | Data(chunk: seq<byte>)

  // The undelivered bytes; `pending` is the length of the message found at their front, 0 if none.
  datatype Framer = Framer(buffer: seq<byte>, pending: int)

  datatype Begun = Begun(after: Framer, code: Code, message: seq<byte>, consumed: seq<byte>)

  ghost predicate FramerOk(d: Delimiter, f: Framer) {
    0 <= f.pending <= |f.buffer| && (f.pending > 0 ==> f.pending == d(f.buffer))
  }

  function Look(d: Delimiter, buffer: seq<byte>, consumed: seq<byte>): Begun
    requires d(buffer) <= |buffer|
  {
    if d(buffer) > 0 then Begun(Framer(buffer, d(buffer)), NoError, buffer[..d(buffer)], consumed)
    else Begun(Framer(buffer, 0), Again, [], consumed)
  }

  // beg_delimit: a message already found, one that is in the buffer, or one more read.
  ghost function Begin(d: Delimiter, f: Framer, read: Read): Begun
    requires Bounded(d) && FramerOk(d, f)
  {
    if f.pending > 0 then Begun(f, NoError, f.buffer[..f.pending], [])
    else if d(f.buffer) > 0 then Look(d, f.buffer, [])
    else match read
      case Nothing => Begun(f, Again, [], [])
      case Closed => Begun(f, Fin, [], [])
      case Data(chunk) => Look(d, f.buffer + chunk, chunk)
  }

  // The bytes that a call of beg_delimit reads: it reads only when no complete message is there.
  ghost function Arriving(d: Delimiter, bytes: seq<byte>, read: Read): seq<byte> {
    if d(bytes) == 0 && read.Data? then read.chunk else []
  }

  /** What a call of beg_delimit means to its caller, in terms of the undelivered bytes and of what the socket yields.
      It succeeds exactly if a complete message is at their front, counting those it read itself, and hands over that
      one; it reports the end of the stream exactly if none was there and the stream has ended; otherwise it says
      "again", with no message. */
  ghost predicate BeginTells(d: Delimiter, before: seq<byte>, read: Read, after: seq<byte>, code: Code,
      message: seq<byte>)
    requires Bounded(d)
  {
    && after == before + Arriving(d, before, read)
    && (code == NoError <==> d(after) > 0) && message == (if d(after) > 0 then after[..d(after)] else [])
    && (code == Fin <==> d(before) == 0 && read.Closed?)
    && (code == Again <==>
          d(before) == 0 && (read.Nothing? || (read.Data? && d(before + read.chunk) == 0)))
  }

  lemma BeginMeans(d: Delimiter, f: Framer, read: Read, code: Code, message: seq<byte>)
    requires Bounded(d) && FramerOk(d, f)
    ensures var b := Begin(d, f, read);
      BeginTells(d, f.buffer, read, b.after.buffer, code, message) <==> code == b.code && message == b.message
    ensures var b := Begin(d, f, read);
      b.after.pending == d(b.after.buffer) && b.consumed == Arriving(d, f.buffer, read)
  {
  }

  // What is handed over is the front of the bytes, as long as the message found.
  lemma HandsFront(d: Delimiter, f: Framer, read: Read)
    requires Bounded(d) && FramerOk(d, f)
    ensures var b := Begin(d, f, read);
      && 0 <= b.after.pending <= |b.after.buffer|
      && b.message == if b.code == NoError then b.after.buffer[..b.after.pending] else []
  {
  }

  // end_delimit: drop the delivered message and look, optimistically, for the next one.
  ghost function End(d: Delimiter, f: Framer): Framer
    requires Bounded(d) && FramerOk(d, f)
  {
    if f.pending == 0 then f
    else
      var rest := f.buffer[f.pending..];
      Framer(rest, d(rest))
  }

  datatype Op = BeginOp(read: Read) | EndOp

  // A run: what came in from the socket and which messages were handed over and released.
  datatype Outcome = Outcome(after: Framer, received: seq<byte>, delivered: seq<seq<byte>>)

  ghost function Step(d: Delimiter, o: Outcome, op: Op): Outcome
    requires Bounded(d) && FramerOk(d, o.after)
  {
    match op
    case BeginOp(read) =>
      var b := Begin(d, o.after, read);
      Outcome(b.after, o.received + b.consumed, o.delivered)
    case EndOp =>
      Outcome(End(d, o.after), o.received,
              if o.after.pending == 0 then o.delivered else o.delivered + [o.after.buffer[..o.after.pending]])
  }

  lemma StepKeepsFramer(d: Delimiter, o: Outcome, op: Op)
    requires Bounded(d) && FramerOk(d, o.after)
    ensures FramerOk(d, Step(d, o, op).after)
  {
  }

  ghost function Run(d: Delimiter, o: Outcome, ops: seq<Op>): (r: Outcome)
    requires Bounded(d) && FramerOk(d, o.after)
    ensures FramerOk(d, r.after)
    decreases |ops|
  {
    if ops == [] then o
    else
      StepKeepsFramer(d, o, ops[0]);
      Run(d, Step(d, o, ops[0]), ops[1..])
  }

  const EMPTY := Outcome(Framer([], 0), [], [])

  // Bytes are neither lost, invented nor reordered.
  predicate Conserved(o: Outcome) { Flatten(o.delivered) + o.after.buffer == o.received }

  lemma ReadConserves(d: Delimiter, o: Outcome, read: Read)
    requires Bounded(d) && FramerOk(d, o.after) && Conserved(o)
    ensures Conserved(Step(d, o, BeginOp(read)))
  {
    var f := o.after;
    if f.pending == 0 && d(f.buffer) == 0 && read.Data? {
      assert Flatten(o.delivered) + (f.buffer + read.chunk) == o.received + read.chunk;
    }
  }

  lemma EndConserves(d: Delimiter, o: Outcome)
    requires Bounded(d) && FramerOk(d, o.after) && Conserved(o)
    ensures Conserved(Step(d, o, EndOp))
  {
    var f := o.after;
    if f.pending > 0 {
      FlattenSnoc(o.delivered, f.buffer[..f.pending]);
      assert f.buffer == f.buffer[..f.pending] + f.buffer[f.pending..];
    }
  }

  lemma StepConserves(d: Delimiter, o: Outcome, op: Op)
    requires Bounded(d) && FramerOk(d, o.after) && Conserved(o)
    ensures Conserved(Step(d, o, op))
  {
    match op
    case BeginOp(read) => ReadConserves(d, o, read);
    case EndOp => EndConserves(d, o);
  }

  /** For any delimiter, any chunking and any number of calls, the delivered messages followed by the
      undelivered bytes are the bytes received. */
  lemma {:induction false} RunConserves(d: Delimiter, o: Outcome, ops: seq<Op>)
    requires Bounded(d) && FramerOk(d, o.after) && Conserved(o)
    ensures Conserved(Run(d, o, ops))
    decreases |ops|
  {
    if ops != [] {
      StepKeepsFramer(d, o, ops[0]);
      StepConserves(d, o, ops[0]);
      RunConserves(d, Step(d, o, ops[0]), ops[1..]);
    }
  }

  // The messages delivered so far are the first ones of the greedy parse of everything received.
  ghost predicate Greedy(d: Delimiter, o: Outcome)
    requires Bounded(d)
  {
    Frames(d, o.received) == o.delivered + Frames(d, o.after.buffer)
  }

  lemma {:induction false} FramesGrow(d: Delimiter, s: seq<byte>, t: seq<byte>)
    requires Bounded(d) && Stable(d)
    ensures Frames(d, s + t) == Frames(d, s) + Frames(d, Rest(d, s) + t)
    decreases |s|
  {
    var k := d(s);
    if k > 0 {
      assert d(s + t) == k;
      assert (s + t)[..k] == s[..k] && (s + t)[k..] == s[k..] + t;
      FramesGrow(d, s[k..], t);
    }
  }

  lemma {:induction false} RestAfter(d: Delimiter, o: Outcome)
    requires Bounded(d) && Conserved(o) && Greedy(d, o) && d(o.after.buffer) == 0
    ensures Rest(d, o.received) == o.after.buffer
  {
    FramesThenRest(d, o.received);
    assert o.delivered + Frames(d, o.after.buffer) == o.delivered;
    assert Flatten(o.delivered) + Rest(d, o.received) == Flatten(o.delivered) + o.after.buffer;
    SameTail(Flatten(o.delivered), Rest(d, o.received), o.after.buffer);
  }

  lemma SameTail(a: seq<byte>, x: seq<byte>, y: seq<byte>)
    requires a + x == a + y
    ensures x == y
  {
    assert x == (a + x)[|a|..] && y == (a + y)[|a|..];
  }

  lemma {:induction false} FramesThenRest(d: Delimiter, s: seq<byte>)
    requires Bounded(d)
    ensures Flatten(Frames(d, s)) + Rest(d, s) == s
    decreases |s|
  {
    var k := d(s);
    if k > 0 {
      FramesThenRest(d, s[k..]);
      assert Frames(d, s)[1..] == Frames(d, s[k..]);
      assert s == s[..k] + s[k..];
    }
  }

  lemma FirstFrame(d: Delimiter, s: seq<byte>, delivered: seq<seq<byte>>)
    requires Bounded(d) && d(s) > 0
    ensures |Frames(d, s)| == |Frames(d, s[d(s)..])| + 1 && Rest(d, s) == Rest(d, s[d(s)..])
    ensures delivered + Frames(d, s) == (delivered + [s[..d(s)]]) + Frames(d, s[d(s)..])
  {
  }

  // A read that is looked at only because no complete message was left.
  lemma ReadStaysGreedy(d: Delimiter, o: Outcome, chunk: seq<byte>)
    requires Bounded(d) && Stable(d) && Conserved(o) && Greedy(d, o) && d(o.after.buffer) == 0
    ensures Frames(d, o.received + chunk) == o.delivered + Frames(d, o.after.buffer + chunk)
  {
    FramesGrow(d, o.received, chunk);
    RestAfter(d, o);
    assert o.delivered + Frames(d, o.after.buffer) == o.delivered;
  }

  lemma StepStaysGreedy(d: Delimiter, o: Outcome, op: Op)
    requires Bounded(d) && Stable(d) && FramerOk(d, o.after) && Conserved(o) && Greedy(d, o)
    ensures Greedy(d, Step(d, o, op))
  {
    var f := o.after;
    match op
    case BeginOp(read) =>
      if f.pending == 0 && d(f.buffer) == 0 && read.Data? {
        ReadStaysGreedy(d, o, read.chunk);
      } else {
        assert o.received + [] == o.received;
      }
    case EndOp =>
      if f.pending > 0 {
        FirstFrame(d, f.buffer, o.delivered);
      }
  }

  lemma {:induction false} RunStaysGreedy(d: Delimiter, o: Outcome, ops: seq<Op>)
    requires Bounded(d) && Stable(d) && FramerOk(d, o.after) && Conserved(o) && Greedy(d, o)
    ensures Greedy(d, Run(d, o, ops))
    decreases |ops|
  {
    if ops != [] {
      StepKeepsFramer(d, o, ops[0]);
      StepConserves(d, o, ops[0]);
      StepStaysGreedy(d, o, ops[0]);
      RunStaysGreedy(d, Step(d, o, ops[0]), ops[1..]);
    }
  }

  /** Independence of chunking: two runs that received the same bytes and have no complete message left have
      delivered the same messages and hold the same bytes. */
  lemma ChunkingIsIrrelevant(d: Delimiter, ops1: seq<Op>, ops2: seq<Op>)
    requires Bounded(d) && Stable(d)
    requires Run(d, EMPTY, ops1).received == Run(d, EMPTY, ops2).received
    requires d(Run(d, EMPTY, ops1).after.buffer) == 0 && d(Run(d, EMPTY, ops2).after.buffer) == 0
    ensures Run(d, EMPTY, ops1).delivered == Run(d, EMPTY, ops2).delivered
    ensures Run(d, EMPTY, ops1).after.buffer == Run(d, EMPTY, ops2).after.buffer
  {
    var o1, o2 := Run(d, EMPTY, ops1), Run(d, EMPTY, ops2);
    RunConserves(d, EMPTY, ops1);
    RunConserves(d, EMPTY, ops2);
    RunStaysGreedy(d, EMPTY, ops1);
    RunStaysGreedy(d, EMPTY, ops2);
    RestAfter(d, o1);
    RestAfter(d, o2);
    assert o1.delivered + Frames(d, o1.after.buffer) == o1.delivered;
    assert o2.delivered + Frames(d, o2.after.buffer) == o2.delivered;
  }

  // ----- what the calls hand over -----

  /** A run with its application: the messages handed over, one for each that was released or is still held. */
  datatype Taker = Taker(o: Outcome, handed: seq<seq<byte>>, holds: bool)

  // The application ends only what it has begun.
  ghost predicate MayTake(d: Delimiter, t: Taker, op: Op) {
    Bounded(d) && FramerOk(d, t.o.after) && (op.EndOp? ==> t.holds)
  }

  // A call that succeeds while the last message is not released hands over the same one again.
  ghost function Taking(d: Delimiter, t: Taker, op: Op): Taker
    requires MayTake(d, t, op)
  {
    match op
    case BeginOp(read) =>
      var b := Begin(d, t.o.after, read);
      if b.code != NoError then t.(o := Step(d, t.o, op))
      else Taker(Step(d, t.o, op), if t.holds then t.handed else t.handed + [b.message], true)
    case EndOp => Taker(Step(d, t.o, op), t.handed, false)
  }

  // What was handed over is what was delivered, and then the message that is held.
  ghost predicate Matches(d: Delimiter, t: Taker)
    requires Bounded(d) && FramerOk(d, t.o.after)
  {
    && (t.holds ==> t.o.after.pending > 0)
    && t.handed == t.o.delivered + (if t.holds then [t.o.after.buffer[..t.o.after.pending]] else [])
  }

  lemma TakingMatches(d: Delimiter, t: Taker, op: Op)
    requires MayTake(d, t, op) && Matches(d, t)
    ensures FramerOk(d, Taking(d, t, op).o.after) && Matches(d, Taking(d, t, op))
    ensures op.BeginOp? && Begin(d, t.o.after, op.read).code == NoError ==>
      var handed := Taking(d, t, op).handed;
      handed != [] && Begin(d, t.o.after, op.read).message == handed[|handed| - 1]
  {
    StepKeepsFramer(d, t.o, op);
    if op.BeginOp? {
      BeginMeans(d, t.o.after, op.read, Begin(d, t.o.after, op.read).code, Begin(d, t.o.after, op.read).message);
    }
  }

  // A run in which the application keeps to that.
  ghost function Takes(d: Delimiter, t: Taker, ops: seq<Op>): Option<Taker>
    decreases |ops|
  {
    if ops == [] then Some(t)
    else if MayTake(d, t, ops[0]) then Takes(d, Taking(d, t, ops[0]), ops[1..])
    else None
  }

  lemma {:induction false} TakesMatch(d: Delimiter, t: Taker, ops: seq<Op>)
    requires Bounded(d) && FramerOk(d, t.o.after) && Matches(d, t) && Takes(d, t, ops).Some?
    ensures FramerOk(d, Takes(d, t, ops).value.o.after) && Matches(d, Takes(d, t, ops).value)
    ensures Takes(d, t, ops).value.o == Run(d, t.o, ops)
    decreases |ops|
  {
    if ops != [] {
      TakingMatches(d, t, ops[0]);
      StepKeepsFramer(d, t.o, ops[0]);
      TakesMatch(d, Taking(d, t, ops[0]), ops[1..]);
    }
  }

  /** Over every run, the messages that successful calls of beg_delimit hand over are the first ones of the greedy
      parse of the bytes received, in order and once each; and each is the next one that end_delimit releases. */
  lemma HandedAreFrames(d: Delimiter, ops: seq<Op>)
    requires Bounded(d) && Stable(d) && Takes(d, Taker(EMPTY, [], false), ops).Some?
    ensures var t := Takes(d, Taker(EMPTY, [], false), ops).value;
      && t.handed <= Frames(d, t.o.received) && t.o.delivered <= t.handed
      && |t.handed| == |t.o.delivered| + (if t.holds then 1 else 0)
  {
    var t := Takes(d, Taker(EMPTY, [], false), ops).value;
    TakesMatch(d, Taker(EMPTY, [], false), ops);
    RunConserves(d, EMPTY, ops);
    RunStaysGreedy(d, EMPTY, ops);
    if t.holds {
      FirstFrame(d, t.o.after.buffer, t.o.delivered);
    }
  }

  // ----- stability is needed -----

  function Ends(k: nat): seq<Op> { if k == 0 then [] else [EndOp] + Ends(k - 1) }

  lemma {:induction false} RunConcat(d: Delimiter, o: Outcome, xs: seq<Op>, ys: seq<Op>)
    requires Bounded(d) && FramerOk(d, o.after)
    ensures Run(d, o, xs + ys) == Run(d, Run(d, o, xs), ys)
    decreases |xs|
  {
    if xs == [] {
      assert xs + ys == ys;
    } else {
      StepKeepsFramer(d, o, xs[0]);
      assert (xs + ys)[1..] == xs[1..] + ys;
      RunConcat(d, Step(d, o, xs[0]), xs[1..], ys);
    }
  }

  lemma EndsHead(d: Delimiter, o: Outcome, n: nat)
    requires Bounded(d) && FramerOk(d, o.after)
    ensures FramerOk(d, Step(d, o, EndOp).after)
    ensures Run(d, o, Ends(n + 1)) == Run(d, Step(d, o, EndOp), Ends(n))
  {
    StepKeepsFramer(d, o, EndOp);
    assert Ends(n + 1)[1..] == Ends(n);
  }

  // The state with s in the buffer and its first message, if complete, found.
  ghost function Holding(d: Delimiter, s: seq<byte>, received: seq<byte>, delivered: seq<seq<byte>>): (o: Outcome)
    requires Bounded(d)
    ensures FramerOk(d, o.after)
  {
    Outcome(Framer(s, d(s)), received, delivered)
  }

  // Ending over and over delivers every complete message in the buffer.
  lemma {:induction false} EndsDrain(d: Delimiter, s: seq<byte>, received: seq<byte>, delivered: seq<seq<byte>>)
    requires Bounded(d)
    ensures Run(d, Holding(d, s, received, delivered), Ends(|Frames(d, s)|))
         == Holding(d, Rest(d, s), received, delivered + Frames(d, s))
    decreases |s|
  {
    if d(s) == 0 {
      assert delivered + [] == delivered;
    } else {
      var rest, more := s[d(s)..], delivered + [s[..d(s)]];
      FirstFrame(d, s, delivered);
      OneEnd(d, s, received, delivered);
      EndsHead(d, Holding(d, s, received, delivered), |Frames(d, rest)|);
      EndsDrain(d, rest, received, more);
    }
  }

  lemma OneEnd(d: Delimiter, s: seq<byte>, received: seq<byte>, delivered: seq<seq<byte>>)
    requires Bounded(d) && d(s) > 0
    ensures Step(d, Holding(d, s, received, delivered), EndOp)
         == Holding(d, s[d(s)..], received, delivered + [s[..d(s)]])
  {
  }

  // Receive s, deliver all of its messages, then receive t.
  ghost function SplitOps(d: Delimiter, s: seq<byte>, t: seq<byte>): seq<Op>
    requires Bounded(d)
  {
    [BeginOp(Data(s))] + Ends(|Frames(d, s)|) + [BeginOp(Data(t))]
  }

  lemma SplitRun(d: Delimiter, s: seq<byte>, t: seq<byte>)
    requires Bounded(d)
    ensures var o := Run(d, EMPTY, SplitOps(d, s, t));
      o.received == s + t && o.delivered == Frames(d, s)
  {
    var first, last := BeginOp(Data(s)), BeginOp(Data(t));
    var o1 := Step(d, EMPTY, first);
    assert [] + s == s;
    StepKeepsFramer(d, EMPTY, first);
    assert [first][1..] == [];
    assert Run(d, EMPTY, [first]) == o1;
    EndsDrain(d, s, s, []);
    assert [] + Frames(d, s) == Frames(d, s);
    RunConcat(d, EMPTY, [first], Ends(|Frames(d, s)|));
    RunConcat(d, EMPTY, [first] + Ends(|Frames(d, s)|), [last]);
    var o2 := Run(d, EMPTY, [first] + Ends(|Frames(d, s)|));
    RestIsIncomplete(d, s);
    StepKeepsFramer(d, o2, last);
    assert [last][1..] == [];
    assert Run(d, o2, [last]) == Step(d, o2, last);
  }

  lemma {:induction false} RestIsIncomplete(d: Delimiter, s: seq<byte>)
    requires Bounded(d)
    ensures d(Rest(d, s)) == 0
    decreases |s|
  {
    if d(s) > 0 {
      RestIsIncomplete(d, s[d(s)..]);
    }
  }

  lemma GreedySplitIsStable(d: Delimiter, s: seq<byte>, t: seq<byte>)
    requires Bounded(d) && d(s) > 0 && Greedy(d, Run(d, EMPTY, SplitOps(d, s, t)))
    ensures d(s + t) == d(s)
  {
    SplitRun(d, s, t);
    assert Frames(d, s + t) == Frames(d, s) + Frames(d, Run(d, EMPTY, SplitOps(d, s, t)).after.buffer);
    assert Frames(d, s)[0] == s[..d(s)] && Frames(d, s + t)[0] == (s + t)[..d(s + t)];
    assert |(s + t)[..d(s + t)]| == |s[..d(s)]|;
  }

  ghost predicate AlwaysGreedy(d: Delimiter)
    requires Bounded(d)
  {
    forall ops :: Greedy(d, Run(d, EMPTY, ops))
  }

  /** Delivery is the greedy parse of the stream under every chunking if and only if the delimiter is stable. */
  lemma GreedyIffStable(d: Delimiter)
    requires Bounded(d)
    ensures Stable(d) <==> AlwaysGreedy(d)
  {
    if Stable(d) {
      forall ops
        ensures Greedy(d, Run(d, EMPTY, ops))
      {
        RunStaysGreedy(d, EMPTY, ops);
      }
    } else {
      var s, t :| d(s) > 0 && d(s + t) != d(s);
      if AlwaysGreedy(d) {
        GreedySplitIsStable(d, s, t);
      }
    }
  }
}
