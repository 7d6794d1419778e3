/** One end of a reliable-UDP connection: stop-and-wait, acknowledgements carried by the peer's next message. */
module RudpEndpoint {
  import opened Protocol

  // A datagram: the sequence number the transport prepends, then the message.
  datatype Packet = Packet(seqNo: int, body: Msg)

  // What one non-blocking read of the socket yields.
  datatype BaseRead = Nothing | Closed | Datagram(packet: Packet)

  /** The state of one end. `strict` is the flag the source calls is_server: it is set on the
      client process, which accepts only its own number, and clear on the coordinator. */
  datatype Endpoint = Endpoint(
    strict: bool,
    seqNo: int,
    slot: Option<Packet>,
    out: Packet,
    armed: bool,
    currentSeq: int,
    tsStart: int)

  // Everything end_write learns from outside during one call.
  datatype WriteIo = WriteIo(
    firstOk: bool, firstNow: int,
    read: BaseRead,
    now: int,
    retryOk: bool, retryNow: int)

  datatype ReadResult = ReadResult(after: Endpoint, code: Code, data: Option<Msg>)
  datatype WriteResult = WriteResult(after: Endpoint, sent: seq<Packet>, code: Code)

  predicate Accepts(e: Endpoint, seqNo: int) {
    if e.strict then seqNo == e.seqNo else seqNo > e.seqNo
  }

  function Accept(e: Endpoint, p: Packet): Endpoint {
    e.(seqNo := if e.strict then e.seqNo + 1 else p.seqNo, slot := Some(p))
  }

  function BegRead(e: Endpoint, base: BaseRead): (r: ReadResult)
    ensures r.code == NoError ==> r.data.Some?
  {
    if e.slot.Some? then ReadResult(e, NoError, Some(e.slot.value.body))
    else match base
      case Nothing => ReadResult(e, Again, None)
      case Closed => ReadResult(e, Fin, None)
      case Datagram(p) =>
        if Accepts(e, p.seqNo) then ReadResult(Accept(e, p), NoError, Some(p.body))
        else ReadResult(e, Again, None)
  }

  function EndRead(e: Endpoint): Endpoint { e.(slot := None) }

  // beg_write stamps the number into the buffer; the application then fills in the body.
  function Stamp(e: Endpoint, body: Msg): Endpoint { e.(out := Packet(e.seqNo, body)) }

  function Arm(e: Endpoint, now: int): Endpoint {
    e.(armed := true, currentSeq := e.seqNo, tsStart := now)
  }

  predicate Acked(e: Endpoint) { e.currentSeq != e.seqNo }

  // Each end counts its own retransmissions, in a field of its own.
  function CountRto(strict: bool, m: Msg): Msg {
    if strict then m.(cRto := m.cRto + 1) else m.(sRto := m.sRto + 1)
  }

  function Bump(e: Endpoint): Endpoint { e.(out := e.out.(body := CountRto(e.strict, e.out.body))) }

  // The part of end_write after the (possible) first send and read: acknowledge, wait or retransmit.
  function Settle(e: Endpoint, sent: seq<Packet>, rtoUs: int, io: WriteIo): WriteResult {
    if Acked(e) then WriteResult(e.(armed := false), sent, NoError)
    else if io.now < e.tsStart + rtoUs then WriteResult(e, sent, Again)
    else if !io.retryOk then WriteResult(Bump(e), sent, Fin)
    else WriteResult(Bump(e).(tsStart := io.retryNow), sent + [Bump(e).out], RtoFired)
  }

  function EndWrite(e: Endpoint, rtoUs: int, io: WriteIo): WriteResult {
    if !e.armed && !io.firstOk then WriteResult(e, [], Fin)
    else
      var sent := if e.armed then [] else [e.out];
      var armed := if e.armed then e else Arm(e, io.firstNow);
      if !e.strict then Settle(armed, sent, rtoUs, io)
      else
        var r := BegRead(armed, io.read);
        if r.code == Fin then WriteResult(r.after, sent, Fin) else Settle(r.after, sent, rtoUs, io)
  }

  /** What a call of beg_read means to its caller. It succeeds exactly if a message is waiting afterwards, and hands
      over that one: the one that waited before, or the datagram just read, if its number is new to this end. It
      reports the end of the stream exactly if nothing waited and the base stream has ended. */
  predicate ReadTells(e: Endpoint, base: BaseRead, after: Endpoint, code: Code, data: Option<Msg>) {
    && (code == NoError <==> after.slot.Some?) && (code == Fin <==> e.slot.None? && base.Closed?) && code != RtoFired
    && data == (if after.slot.Some? then Some(after.slot.value.body) else None)
    && (if e.slot.None? && base.Datagram? && Accepts(e, base.packet.seqNo) then
          after == e.(slot := Some(base.packet), seqNo := if e.strict then e.seqNo + 1 else base.packet.seqNo)
        else after == e)
  }

  lemma ReadMeans(e: Endpoint, base: BaseRead, after: Endpoint, code: Code, data: Option<Msg>)
    ensures ReadTells(e, base, after, code, data) <==> ReadResult(after, code, data) == BegRead(e, base)
  {
  }

  // ----- what a call of end_write means to its caller -----

  // The message was sent, in an earlier call or in this one.
  predicate WasSent(e: Endpoint, io: WriteIo) { e.armed || io.firstOk }

  // The number it waits on, and since when.
  function WaitsOn(e: Endpoint): int { if e.armed then e.currentSeq else e.seqNo }

  function Since(e: Endpoint, io: WriteIo): int { if e.armed then e.tsStart else io.firstNow }

  // The read that the client process makes of its own accord finds the stream ended.
  predicate ReadEnded(e: Endpoint, io: WriteIo) { e.strict && e.slot.None? && io.read.Closed? }

  predicate StillWaits(e: Endpoint, io: WriteIo, after: Endpoint) {
    WasSent(e, io) && !ReadEnded(e, io) && after.seqNo == WaitsOn(e)
  }

  predicate Expired(e: Endpoint, rtoUs: int, io: WriteIo) { io.now >= Since(e, io) + rtoUs }

  /** It succeeds exactly if the number has moved since the send; otherwise it says "again" exactly while the timer is
      running, and reports a timeout exactly after a retransmission. It fails exactly if a send or the read failed. */
  predicate CodeTells(e: Endpoint, rtoUs: int, io: WriteIo, after: Endpoint, code: Code) {
    && (code == NoError <==> WasSent(e, io) && !ReadEnded(e, io) && after.seqNo != WaitsOn(e))
    && (code == Again <==> StillWaits(e, io, after) && !Expired(e, rtoUs, io))
    && (code == RtoFired <==> StillWaits(e, io, after) && Expired(e, rtoUs, io) && io.retryOk)
    && (code == Fin <==> !WasSent(e, io) || ReadEnded(e, io)
                         || (StillWaits(e, io, after) && Expired(e, rtoUs, io) && !io.retryOk))
  }

  // The buffer with the retransmission counter of its own end one higher.
  function Recounted(e: Endpoint): Packet {
    var m := e.out.body;
    Packet(e.out.seqNo, if e.strict then m.(cRto := m.cRto + 1) else m.(sRto := m.sRto + 1))
  }

  // What goes on the wire: the message if it was not sent before, and its copy with a timeout.
  predicate WireTells(e: Endpoint, io: WriteIo, sent: seq<Packet>, code: Code) {
    sent == (if !e.armed && io.firstOk then [e.out] else []) + (if code == RtoFired then [Recounted(e)] else [])
  }

  // What the call leaves behind: what its own read accepted, the timer, and whether an acknowledgement is awaited.
  predicate StateTells(e: Endpoint, rtoUs: int, io: WriteIo, after: Endpoint, code: Code) {
    var read := if e.strict && WasSent(e, io) then BegRead(e, io.read).after else e;
    && after.strict == e.strict && after.seqNo == read.seqNo && after.slot == read.slot
    && after.out == (if StillWaits(e, io, after) && Expired(e, rtoUs, io) then Recounted(e) else e.out)
    && after.armed == (WasSent(e, io) && code != NoError)
    && after.currentSeq == (if WasSent(e, io) then WaitsOn(e) else e.currentSeq)
    && after.tsStart == (if code == RtoFired then io.retryNow else if WasSent(e, io) then Since(e, io) else e.tsStart)
  }

  predicate WriteTells(e: Endpoint, rtoUs: int, io: WriteIo, after: Endpoint, sent: seq<Packet>, code: Code) {
    && CodeTells(e, rtoUs, io, after, code) && WireTells(e, io, sent, code) && StateTells(e, rtoUs, io, after, code)
  }

  lemma EndWriteTells(e: Endpoint, rtoUs: int, io: WriteIo)
    ensures var r := EndWrite(e, rtoUs, io); WriteTells(e, rtoUs, io, r.after, r.sent, r.code)
  {
  }

  lemma WriteTellsOnce(e: Endpoint, rtoUs: int, io: WriteIo, r: WriteResult, r': WriteResult)
    requires WriteTells(e, rtoUs, io, r.after, r.sent, r.code) && WriteTells(e, rtoUs, io, r'.after, r'.sent, r'.code)
    ensures r == r'
  {
    assert r.after.seqNo == r'.after.seqNo && r.code == r'.code;
  }

  lemma WriteMeans(e: Endpoint, rtoUs: int, io: WriteIo, after: Endpoint, sent: seq<Packet>, code: Code)
    ensures WriteTells(e, rtoUs, io, after, sent, code) <==> WriteResult(after, sent, code) == EndWrite(e, rtoUs, io)
  {
    EndWriteTells(e, rtoUs, io);
    if WriteTells(e, rtoUs, io, after, sent, code) {
      WriteTellsOnce(e, rtoUs, io, WriteResult(after, sent, code), EndWrite(e, rtoUs, io));
    }
  }

  /** The connection object, updated in place as the source updates its private record. */
  class RudpConn {
    const strict: bool
    const rtoUs: int
    var seqNo: int
    var readData: Option<Packet>
    var writeBuffer: Packet
    var ackOutstanding: bool
    var currentSeq: int
    var tsStart: int

    function State(): Endpoint
      reads this
    {
      Endpoint(strict, seqNo, readData, writeBuffer, ackOutstanding, currentSeq, tsStart)
    }

    constructor (coordinator: bool, rtoUs: int)
      ensures State() == Start(!coordinator, writeBuffer) && this.rtoUs == rtoUs
    {
      strict := !coordinator;
      seqNo := if !coordinator then 0 else -1;
      readData := None;
      writeBuffer := Packet(0, Msg(Lost, 0, 0, 0, 0));
      ackOutstanding := false;
      currentSeq := 0;
      tsStart := 0;
      this.rtoUs := rtoUs;
    }

    method BeginRead(base: BaseRead) returns (code: Code, data: Option<Msg>)
      modifies this
      ensures ReadTells(old(State()), base, State(), code, data)
      ensures ReadResult(State(), code, data) == BegRead(old(State()), base)
    {
      if readData.Some? {
        return NoError, Some(readData.value.body);
      }
      if base.Nothing? {
        return Again, None;
      } else if base.Closed? {
        return Fin, None;
      }
      var got := base.packet.seqNo;
      if strict {
        if got != seqNo {
          return Again, None;
        }
        seqNo := seqNo + 1;
      } else {
        if got <= seqNo {
          return Again, None;
        }
        seqNo := got;
      }
      readData := Some(base.packet);
      return NoError, Some(base.packet.body);
    }

    method FinishRead()
      modifies this
      ensures State() == EndRead(old(State()))
    {
      readData := None;
    }

    method BeginWrite(body: Msg)
      modifies this
      ensures State() == Stamp(old(State()), body)
    {
      writeBuffer := Packet(seqNo, body);
    }

    method FinishWrite(io: WriteIo) returns (sent: seq<Packet>, code: Code)
      modifies this
      ensures WriteTells(old(State()), rtoUs, io, State(), sent, code)
      ensures WriteResult(State(), sent, code) == EndWrite(old(State()), rtoUs, io)
    {
      sent := [];
      if !ackOutstanding {
        if !io.firstOk {
          return sent, Fin;
        }
        sent := [writeBuffer];
        tsStart := io.firstNow;
        currentSeq := seqNo;
        ackOutstanding := true;
      }
      if strict {
        var result, _ := BeginRead(io.read);
        if result == Fin {
          return sent, Fin;
        }
      }
      if currentSeq != seqNo {
        ackOutstanding := false;
        return sent, NoError;
      }
      if io.now < tsStart + rtoUs {
        return sent, Again;
      }
      if strict {
        writeBuffer := writeBuffer.(body := writeBuffer.body.(cRto := writeBuffer.body.cRto + 1));
      } else {
        writeBuffer := writeBuffer.(body := writeBuffer.body.(sRto := writeBuffer.body.sRto + 1));
      }
      if !io.retryOk {
        return sent, Fin;
      }
      sent := sent + [writeBuffer];
      tsStart := io.retryNow;
      return sent, RtoFired;
    }
  }

  // A connection before any traffic: the client process waits for number 0, the coordinator has seen none.
  function Start(strict: bool, out: Packet): Endpoint {
    Endpoint(strict, if strict then 0 else -1, None, out, false, 0, 0)
  }
}
