/** A TCP connection's delimiter state and write loop, updated in place as the source does. */
module TcpConnection {
  import opened Protocol
  import opened Framing

  // What one write() on the socket did; it never takes more than it was offered.
  datatype WriteEvent = Wrote(n: nat) | WouldBlock | Failed

  // How a call of end_write stands when the recorded writes are used up.
  datatype WriteStatus = AllWritten | StreamEnded | StillWriting | TooLong

  // Every recorded write takes at most what is left of `len` bytes when it is made.
  predicate Possible(script: seq<WriteEvent>, len: nat) {
    script == [] ||
    match script[0]
    case Wrote(n) => n <= len && Possible(script[1..], len - n)
    case _ => Possible(script[1..], len)
  }

  // How many bytes these writes took.
  function Taken(script: seq<WriteEvent>): nat {
    if script == [] then 0
    else Taken(script[..|script| - 1]) + (match script[|script| - 1] case Wrote(n) => n case _ => 0)
  }

  predicate NoneFailed(script: seq<WriteEvent>) { forall j :: 0 <= j < |script| ==> script[j] != Failed }

  // The write of len bytes goes on over the first k recorded writes: none failed, and bytes were left for the last.
  predicate GoesOn(script: seq<WriteEvent>, k: nat, len: nat) {
    k <= |script| && NoneFailed(script[..k]) && (k > 0 ==> Taken(script[..k - 1]) < len)
  }

  lemma {:induction false} TakenGrows(script: seq<WriteEvent>, a: nat, b: nat)
    requires a <= b <= |script|
    ensures Taken(script[..a]) <= Taken(script[..b])
  {
    if a < b {
      assert script[..b][..b - 1] == script[..b - 1];
      TakenGrows(script, a, b - 1);
    }
  }

  lemma OneMoreWrite(script: seq<WriteEvent>, i: nat, len: nat)
    requires i < |script| && script[i] != Failed && GoesOn(script, i, len) && Taken(script[..i]) < len
    ensures GoesOn(script, i + 1, len)
    ensures Taken(script[..i + 1]) == Taken(script[..i]) + (match script[i] case Wrote(n) => n case _ => 0)
  {
    assert script[..i + 1][..i] == script[..i];
  }

  // The call ends after k of them: with the last byte, with a failed one, or not yet.
  predicate DecidedBy(script: seq<WriteEvent>, len: nat, k: nat, status: WriteStatus, onWire: nat) {
    && GoesOn(script, k, len) && onWire == Taken(script[..k])
    && match status
       case AllWritten => onWire == len
       case StreamEnded => k < |script| && script[k] == Failed && onWire < len
       case StillWriting => k == |script| && onWire < len
       case TooLong => false
  }

  ghost predicate Decided(script: seq<WriteEvent>, len: nat, status: WriteStatus, onWire: nat) {
    exists k: nat :: DecidedBy(script, len, k, status, onWire)
  }

  // A call that has ended does not go on.
  lemma EndsFirst(script: seq<WriteEvent>, len: nat, k: nat, status: WriteStatus, onWire: nat, more: nat)
    requires DecidedBy(script, len, k, status, onWire) && GoesOn(script, more, len)
    ensures more <= k
  {
    if k < more {
      assert script[..more][k] == script[k];
      TakenGrows(script, k, more - 1);
    }
  }

  /** The recorded writes alone decide how the call ends and how much is on the wire. */
  lemma DecidedOnce(script: seq<WriteEvent>, len: nat, s1: WriteStatus, w1: nat, s2: WriteStatus, w2: nat)
    requires Decided(script, len, s1, w1) && Decided(script, len, s2, w2)
    ensures s1 == s2 && w1 == w2
  {
    var k1: nat :| DecidedBy(script, len, k1, s1, w1);
    var k2: nat :| DecidedBy(script, len, k2, s2, w2);
    EndsFirst(script, len, k1, s1, w1, k2);
    EndsFirst(script, len, k2, s2, w2, k1);
  }

  // What one call of end_write with a message that fits the buffer puts on the wire, so far or in the end.
  predicate PutOnWire(frame: seq<byte>, status: WriteStatus, wire: seq<byte>) {
    wire <= frame && (status == AllWritten <==> wire == frame) && status != TooLong
  }

  class TcpConn {
    const delimit: Delimiter
    const readBuffer: array<byte>
    const writeBuffer: array<byte>
    var readUsed: nat
    var delimBuffer: array<byte>
    var delimUsed: nat
    var result: Option<nat>     // offset of the message found, if any
    var resultLen: int

    // Where the undelivered bytes start.
    function Head(): nat
      reads this
    {
      if result.Some? then result.value else 0
    }

    /** A found message lies inside the used bytes, and the used bytes lie inside the buffer. */
    ghost predicate Sound()
      reads this
    {
      && Bounded(delimit)
      && readBuffer != delimBuffer && writeBuffer != delimBuffer && readBuffer != writeBuffer
      && delimBuffer.Length > 0
      && Head() + delimUsed <= delimBuffer.Length
      && 0 <= resultLen <= delimUsed
      && (result.Some? <==> resultLen > 0)
    }

    // Between two calls nothing read from the socket waits outside the delimiter's buffer.
    ghost predicate Valid()
      reads this
    {
      Sound() && readUsed == 0
    }

    // The undelivered bytes.
    ghost function Bytes(): seq<byte>
      reads this, delimBuffer
      requires Sound()
    {
      delimBuffer[Head()..Head() + delimUsed]
    }

    ghost function State(): Framer
      reads this, delimBuffer
      requires Valid()
    {
      Framer(Bytes(), resultLen)
    }

    // The message found is the one the delimiter finds.
    ghost predicate Found()
      reads this, delimBuffer
    {
      Valid() && FramerOk(delimit, State())
    }

    constructor (delimit: Delimiter, size: nat)
      requires Bounded(delimit) && size > 0
      ensures Found() && State() == Framer([], 0) && this.delimit == delimit
      ensures fresh(delimBuffer) && fresh(readBuffer) && fresh(writeBuffer)
    {
      this.delimit := delimit;
      readBuffer := new byte[size];
      writeBuffer := new byte[size];
      delimBuffer := new byte[size];
      readUsed := 0;
      delimUsed := 0;
      result := None;
      resultLen := 0;
    }

    // conn_beg_read: one read() into the read buffer. With bytes still waiting there it succeeds without reading
    // and without saying where they are; between two delimiter calls that never is the case.
    method BeginRead(read: Read) returns (code: Code, len: nat)
      requires read.Data? ==> 0 < |read.chunk| <= readBuffer.Length
      modifies this`readUsed, readBuffer
      ensures old(readUsed) > 0 ==> code == NoError
      ensures old(readUsed) == 0 ==>
        (read.Nothing? <==> code == Again) && (read.Closed? <==> code == Fin) && (read.Data? <==> code == NoError)
      ensures old(readUsed) > 0 || code != NoError ==>
        readUsed == old(readUsed) && readBuffer[..] == old(readBuffer[..])
      ensures old(readUsed) == 0 && code == NoError ==>
        len == readUsed == |read.chunk| && readBuffer[..len] == read.chunk
    {
      len := 0;
      if readUsed > 0 {
        return NoError, len;
      }
      match read
      case Nothing =>
        code := Again;
      case Closed =>
        code := Fin;
      case Data(chunk) =>
        forall i | 0 <= i < |chunk| {
          readBuffer[i] := chunk[i];
        }
        readUsed := |chunk|;
        code, len := NoError, readUsed;
    }

    // realloc to twice the size; only when no found message points into the buffer.
    method Grow()
      requires Sound() && result == None
      modifies this`delimBuffer
      ensures Sound() && fresh(delimBuffer) && delimBuffer.Length == 2 * old(delimBuffer.Length)
      ensures Bytes() == old(Bytes())
    {
      var bigger := new byte[2 * delimBuffer.Length];
      forall i | 0 <= i < delimBuffer.Length {
        bigger[i] := delimBuffer[i];
      }
      delimBuffer := bigger;
    }

    // The growth loop: afterwards len more bytes fit.
    method MakeRoom(len: nat)
      requires Sound() && result == None
      modifies this`delimBuffer
      ensures Sound() && Bytes() == old(Bytes())
      ensures len <= delimBuffer.Length - delimUsed
      ensures delimBuffer == old(delimBuffer) || fresh(delimBuffer)
    {
      while len > delimBuffer.Length - delimUsed
        invariant Sound() && Bytes() == old(Bytes())
        invariant delimBuffer == old(delimBuffer) || fresh(delimBuffer)
        decreases len + delimUsed - delimBuffer.Length
      {
        Grow();
      }
    }

    // memcpy and end_read: the bytes just read end up behind the ones already there.
    method Append(len: nat)
      requires Sound() && result == None && len <= readBuffer.Length && len <= delimBuffer.Length - delimUsed
      modifies this`delimUsed, this`readUsed, delimBuffer
      ensures Valid() && Bytes() == old(Bytes()) + old(readBuffer[..len])
    {
      forall i | 0 <= i < len {
        delimBuffer[delimUsed + i] := readBuffer[i];
      }
      delimUsed := delimUsed + len;
      readUsed := 0;
    }

    // memmove of the undelivered bytes from the middle of the buffer to its front.
    method MoveToFront(next: nat)
      requires next + delimUsed <= delimBuffer.Length
      modifies delimBuffer
      ensures delimBuffer[..delimUsed] == old(delimBuffer[next..next + delimUsed])
    {
      forall i | 0 <= i < delimUsed {
        delimBuffer[i] := delimBuffer[next + i];
      }
    }

    // Look for a message at the front of the buffer and point at it.
    method Find() returns (found: bool)
      requires Valid() && result == None
      modifies this`result, this`resultLen
      ensures Valid() && State() == Framer(old(Bytes()), delimit(old(Bytes())))
      ensures found == (resultLen > 0) && (found ==> result == Some(0))
    {
      var size := delimit(delimBuffer[..delimUsed]);
      found := size > 0 && size <= delimUsed;
      if found {
        result, resultLen := Some(0), size;
      }
    }

    // The half of conn_beg_delimit that reads more bytes: no complete message is in the buffer.
    method ReadAndFind(read: Read) returns (code: Code, len: nat)
      requires Found() && result == None && delimit(Bytes()) == 0
      requires read.Data? ==> 0 < |read.chunk| <= readBuffer.Length
      modifies this, readBuffer, delimBuffer
      ensures Valid() && State() == Begin(delimit, old(State()), read).after
      ensures code == Begin(delimit, old(State()), read).code
      ensures code == NoError ==> result == Some(0) && len == resultLen
      ensures delimBuffer == old(delimBuffer) || fresh(delimBuffer)
    {
      code, len := BeginRead(read);
      if code != NoError {
        return;
      }
      MakeRoom(len);
      Append(len);
      var found := Find();
      if found {
        return NoError, resultLen;
      }
      code := Again;
    }

    // The three ways to find a message: it was found before, it is in the buffer, or a read completes it.
    method Locate(read: Read) returns (code: Code, data: nat, len: nat)
      requires Found()
      requires read.Data? ==> 0 < |read.chunk| <= readBuffer.Length
      modifies this, readBuffer, delimBuffer
      ensures Found() && State() == Begin(delimit, old(State()), read).after
      ensures code == Begin(delimit, old(State()), read).code
      ensures code == NoError ==> result == Some(data) && resultLen == len > 0
      ensures old(result).Some? ==> delimBuffer == old(delimBuffer) && result == old(result)
      ensures delimBuffer == old(delimBuffer) || fresh(delimBuffer)
    {
      data, len := 0, 0;
      if result.Some? && resultLen > 0 {
        return NoError, result.value, resultLen;
      }
      if delimUsed > 0 {
        var found := Find();
        if found {
          return NoError, 0, resultLen;
        }
      }
      assert delimit(Bytes()) == 0;
      code, len := ReadAndFind(read);
    }

    // The message found is the first part of the undelivered bytes.
    lemma FoundIsFront()
      requires Found() && result.Some?
      ensures 0 <= resultLen <= |Bytes()| && result.value + resultLen <= delimBuffer.Length
      ensures delimBuffer[result.value..result.value + resultLen] == Bytes()[..resultLen]
    {
    }

    /** conn_beg_delimit behaves as the pure Begin, which is to say as BeginTells describes it; it never reallocates
        while a found message is outstanding. */
    method BeginDelimit(read: Read) returns (code: Code, data: nat, len: nat)
      requires Found()
      requires read.Data? ==> 0 < |read.chunk| <= readBuffer.Length
      modifies this, readBuffer, delimBuffer
      ensures Found() && State() == Begin(delimit, old(State()), read).after
      ensures code == Begin(delimit, old(State()), read).code
      ensures code == NoError ==> result == Some(data) && resultLen == len > 0
      ensures code == NoError ==> delimBuffer[data..data + len] == Begin(delimit, old(State()), read).message
      ensures BeginTells(delimit, old(Bytes()), read, Bytes(), code,
        if code == NoError then delimBuffer[data..data + len] else [])
      ensures old(result).Some? ==> delimBuffer == old(delimBuffer) && result == old(result)
      ensures delimBuffer == old(delimBuffer) || fresh(delimBuffer)
    {
      ghost var before := State();
      code, data, len := Locate(read);
      if code == NoError {
        FoundIsFront();
      }
      BeginMeans(delimit, before, read, code, if code == NoError then delimBuffer[data..data + len] else []);
      HandsFront(delimit, before, read);
    }

    // The optimistic look at the bytes behind the message just released, which start at `next`; if they hold no
    // complete message they are moved to the front of the buffer.
    method LookAhead(next: nat)
      requires Bounded(delimit) && readBuffer != delimBuffer && writeBuffer != delimBuffer && readBuffer != writeBuffer
      requires 0 < delimUsed && next + delimUsed <= delimBuffer.Length && readUsed == 0
      modifies this`result, this`resultLen, delimBuffer
      ensures Valid() && Bytes() == old(delimBuffer[next..next + delimUsed])
      ensures resultLen == delimit(Bytes())
    {
      var size := delimit(delimBuffer[next..next + delimUsed]);
      if size != 0 && size <= delimUsed {
        result, resultLen := Some(next), size;
        return;
      }
      MoveToFront(next);
      resultLen, result := 0, None;
    }

    /** conn_end_delimit behaves as the pure End. The branch for a message longer than the used bytes, whose
        purpose the source's author doubts, cannot be reached. */
    method EndDelimit()
      requires Found()
      modifies this, delimBuffer
      ensures Found() && State() == End(delimit, old(State()))
      ensures Bytes() == old(Bytes())[old(resultLen)..]
      ensures old(result).Some? ==> resultLen == delimit(Bytes())
      ensures delimBuffer == old(delimBuffer)
    {
      if result == None {
        return;
      }
      var next := result.value + resultLen;
      if resultLen <= delimUsed {
        ghost var rest := Bytes()[resultLen..];
        delimUsed := delimUsed - resultLen;
        assert delimBuffer[next..next + delimUsed] == rest;
        if delimUsed == 0 {
          resultLen, result := 0, None;
          assert Bytes() == rest;
          return;
        }
        LookAhead(next);
      } else {
        assert false;
      }
    }

    /** conn_end_write: for every way the socket may take the bytes, what has reached the wire is a prefix of the
        write buffer, the whole message exactly when the call reports no error. */
    method FinishWrite(len: nat, script: seq<WriteEvent>) returns (status: WriteStatus, wire: seq<byte>)
      requires Possible(script, len)
      ensures |wire| <= len
      ensures status == TooLong <==> len > writeBuffer.Length
      ensures status == TooLong ==> wire == []
      ensures status != TooLong ==> wire == writeBuffer[..|wire|]
      ensures status == AllWritten <==> |wire| == len <= writeBuffer.Length
      ensures len <= writeBuffer.Length ==> Decided(script, len, status, |wire|)
      ensures len <= writeBuffer.Length ==> PutOnWire(writeBuffer[..len], status, wire)
    {
      wire := [];
      if len > writeBuffer.Length {
        return TooLong, wire;
      }
      var data, left, i := 0, len, 0;
      while left > 0 && i < |script|
        invariant 0 <= i <= |script| && data + left == len && Possible(script[i..], left)
        invariant wire == writeBuffer[..data] && data == Taken(script[..i]) && GoesOn(script, i, len)
        decreases |script| - i
      {
        match script[i] {
          case Wrote(n) =>
            OneMoreWrite(script, i, len);
            wire := wire + writeBuffer[data..data + n];
            data, left := data + n, left - n;
          case WouldBlock =>
            OneMoreWrite(script, i, len);
          case Failed =>
            assert DecidedBy(script, len, i, StreamEnded, |wire|);
            return StreamEnded, wire;
        }
        i := i + 1;
      }
      assert script[..|script|] == script;
      status := if left == 0 then AllWritten else StillWriting;
      assert DecidedBy(script, len, i, status, |wire|);
    }
  }
}
