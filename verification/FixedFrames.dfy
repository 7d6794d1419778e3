/** The server's delimiter, messages of one fixed size, and the round trip through the byte stream. */
module FixedFrames {
  import opened Framing
  import opened TcpConnection

  // delimit: a message is complete once msgSize bytes are there.
  function Delimit(msgSize: nat): Delimiter {
    (s: seq<byte>) => if |s| >= msgSize then msgSize else 0
  }

  lemma DelimitIsStable(msgSize: nat)
    ensures Bounded(Delimit(msgSize)) && Stable(Delimit(msgSize))
  {
  }

  predicate AllOfSize(frames: seq<seq<byte>>, msgSize: nat) {
    forall i :: 0 <= i < |frames| ==> |frames[i]| == msgSize
  }

  /** Parsing undoes writing: the frames come back, with whatever incomplete frame follows left over. */
  lemma {:induction false} ParseOfFrames(frames: seq<seq<byte>>, tail: seq<byte>, msgSize: nat)
    requires msgSize > 0 && AllOfSize(frames, msgSize) && |tail| < msgSize
    ensures Bounded(Delimit(msgSize))
    ensures Frames(Delimit(msgSize), Flatten(frames) + tail) == frames
    ensures Rest(Delimit(msgSize), Flatten(frames) + tail) == tail
  {
    var s := Flatten(frames) + tail;
    if frames == [] {
      assert s == tail;
    } else {
      var more := Flatten(frames[1..]) + tail;
      assert s == frames[0] + more;
      assert s[..msgSize] == frames[0] && s[msgSize..] == more;
      ParseOfFrames(frames[1..], tail, msgSize);
    }
  }

  // A prefix of the stream of frames is some whole frames and a part of the next one.
  lemma {:induction false} PrefixSplits(frames: seq<seq<byte>>, msgSize: nat, received: seq<byte>) returns (k: nat)
    requires msgSize > 0 && AllOfSize(frames, msgSize) && received <= Flatten(frames)
    ensures k <= |frames| && Flatten(frames[..k]) <= received
    ensures |received| - |Flatten(frames[..k])| < msgSize
  {
    if |received| < msgSize {
      k := 0;
    } else {
      assert Flatten(frames) == frames[0] + Flatten(frames[1..]);
      assert received[msgSize..] <= Flatten(frames[1..]);
      var k' := PrefixSplits(frames[1..], msgSize, received[msgSize..]);
      k := k' + 1;
      assert frames[..k][0] == frames[0] && frames[..k][1..] == frames[1..][..k'];
      assert Flatten(frames[..k]) == frames[0] + Flatten(frames[1..][..k']);
      assert received == received[..msgSize] + received[msgSize..];
      assert received[..msgSize] == frames[0];
    }
  }

  // One call of end_write: its status, and what it put on the wire.
  datatype WriteCall = WriteCall(status: WriteStatus, wire: seq<byte>)

  /** Calls of end_write for the frames in order: a frame is begun only after the one before it was written. */
  predicate WriteCalls(frames: seq<seq<byte>>, calls: seq<WriteCall>) {
    && |calls| <= |frames|
    && (forall i :: 0 <= i < |calls| ==> PutOnWire(frames[i], calls[i].status, calls[i].wire))
    && (forall i :: 0 <= i < |calls| - 1 ==> calls[i].status == AllWritten)
  }

  function Wires(calls: seq<WriteCall>): seq<seq<byte>> {
    seq(|calls|, i requires 0 <= i < |calls| => calls[i].wire)
  }

  /** Each frame of a list is put into the connection's write buffer and written; sending ends at the first frame that
      is not written or does not fit. */
  method SendFrames(conn: TcpConn, frames: seq<seq<byte>>, scripts: seq<seq<WriteEvent>>)
    returns (calls: seq<WriteCall>)
    requires |scripts| == |frames| && forall i :: 0 <= i < |frames| ==> Possible(scripts[i], |frames[i]|)
    modifies conn.writeBuffer
    ensures WriteCalls(frames, calls)
    ensures |calls| < |frames| ==>
      |frames[|calls|]| > conn.writeBuffer.Length || (calls != [] && calls[|calls| - 1].status != AllWritten)
  {
    calls := [];
    while |calls| < |frames|
      invariant WriteCalls(frames, calls)
      invariant forall i :: 0 <= i < |calls| ==> calls[i].status == AllWritten
      decreases |frames| - |calls|
    {
      var frame := frames[|calls|];
      if |frame| > conn.writeBuffer.Length {
        return;
      }
      forall k | 0 <= k < |frame| {
        conn.writeBuffer[k] := frame[k];
      }
      assert conn.writeBuffer[..|frame|] == frame;
      var status, wire := conn.FinishWrite(|frame|, scripts[|calls|]);
      calls := calls + [WriteCall(status, wire)];
      if status != AllWritten {
        return;
      }
    }
  }

  // What the write loop put on the wire for each frame: every frame but the last one begun went out whole.
  predicate Sent(frames: seq<seq<byte>>, wires: seq<seq<byte>>) {
    && |wires| <= |frames|
    && (forall i :: 0 <= i < |wires| ==> wires[i] <= frames[i])
    && (forall i :: 0 <= i < |wires| - 1 ==> wires[i] == frames[i])
  }

  lemma {:induction false} WiresArePrefix(frames: seq<seq<byte>>, wires: seq<seq<byte>>)
    requires Sent(frames, wires)
    ensures Flatten(wires) <= Flatten(frames)
  {
    if |wires| == 1 {
      assert wires[1..] == [] && Flatten(wires) == wires[0];
      assert Flatten(frames) == frames[0] + Flatten(frames[1..]);
    } else if |wires| > 1 {
      assert wires[0] == frames[0];
      WiresArePrefix(frames[1..], wires[1..]);
    }
  }

  // The frames a received prefix of the stream parses into are the first ones sent.
  lemma ParseOfPrefix(frames: seq<seq<byte>>, msgSize: nat, received: seq<byte>)
    requires msgSize > 0 && AllOfSize(frames, msgSize) && Bounded(Delimit(msgSize)) && received <= Flatten(frames)
    ensures Frames(Delimit(msgSize), received) <= frames
  {
    var k := PrefixSplits(frames, msgSize, received);
    var whole := Flatten(frames[..k]);
    assert received == whole + received[|whole|..];
    ParseOfFrames(frames[..k], received[|whole|..], msgSize);
  }

  lemma ParseOfAll(frames: seq<seq<byte>>, msgSize: nat)
    requires msgSize > 0 && AllOfSize(frames, msgSize) && Bounded(Delimit(msgSize))
    ensures Frames(Delimit(msgSize), Flatten(frames)) == frames && Rest(Delimit(msgSize), Flatten(frames)) == []
  {
    ParseOfFrames(frames, [], msgSize);
    assert Flatten(frames) + [] == Flatten(frames);
  }

  // A run from the empty connection conserves bytes and follows the greedy parse.
  lemma RunParses(msgSize: nat, ops: seq<Op>)
    requires Bounded(Delimit(msgSize))
    ensures var o := Run(Delimit(msgSize), EMPTY, ops); Conserved(o) && Greedy(Delimit(msgSize), o)
  {
    DelimitIsStable(msgSize);
    RunStaysGreedy(Delimit(msgSize), EMPTY, ops);
    RunConserves(Delimit(msgSize), EMPTY, ops);
  }

  lemma CallsAreSent(frames: seq<seq<byte>>, calls: seq<WriteCall>)
    requires WriteCalls(frames, calls)
    ensures Sent(frames, Wires(calls))
    ensures |calls| == |frames| && (calls != [] ==> calls[|calls| - 1].status == AllWritten) ==> Wires(calls) == frames
  {
  }

  /** Round trip: whatever the calls of end_write got onto the wire, whatever part of that has arrived, in whatever
      chunks, and whatever calls were made to read it, the messages delivered are the first frames sent, unchanged and
      in order; once everything has arrived and no complete message is waiting, they are all the frames. */
  lemma RoundTrip(frames: seq<seq<byte>>, calls: seq<WriteCall>, msgSize: nat, ops: seq<Op>)
    requires msgSize > 0 && AllOfSize(frames, msgSize) && Bounded(Delimit(msgSize)) && WriteCalls(frames, calls)
    requires Run(Delimit(msgSize), EMPTY, ops).received <= Flatten(Wires(calls))
    ensures Run(Delimit(msgSize), EMPTY, ops).delivered <= frames
    ensures var o := Run(Delimit(msgSize), EMPTY, ops);
      o.received == Flatten(frames) && |o.after.buffer| < msgSize ==> o.delivered == frames && o.after.buffer == []
    ensures |calls| == |frames| && (calls != [] ==> calls[|calls| - 1].status == AllWritten) ==>
      Flatten(Wires(calls)) == Flatten(frames)
  {
    var o := Run(Delimit(msgSize), EMPTY, ops);
    CallsAreSent(frames, calls);
    WiresArePrefix(frames, Wires(calls));
    RunParses(msgSize, ops);
    Delivered(frames, msgSize, o);
  }

  lemma Delivered(frames: seq<seq<byte>>, msgSize: nat, o: Outcome)
    requires msgSize > 0 && AllOfSize(frames, msgSize) && Bounded(Delimit(msgSize)) && o.received <= Flatten(frames)
    requires Conserved(o) && Greedy(Delimit(msgSize), o)
    ensures o.delivered <= frames
    ensures o.received == Flatten(frames) && |o.after.buffer| < msgSize ==>
      o.delivered == frames && o.after.buffer == []
  {
    ParseOfPrefix(frames, msgSize, o.received);
    if o.received == Flatten(frames) && |o.after.buffer| < msgSize {
      ParseOfAll(frames, msgSize);
      assert o.delivered + Frames(Delimit(msgSize), o.after.buffer) == o.delivered;
      RestAfter(Delimit(msgSize), o);
    }
  }
}
