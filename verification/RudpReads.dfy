/** What beg_read hands over, call after call: the peer's messages in order, once each. */
module RudpReads {
  import opened Protocol
  import opened RudpEndpoint
  import opened RudpChannel
  import opened RudpCalls

  /** One end with its application: the messages handed over to it, one for each read it began, and whether it has
      not ended the last one yet. */
  datatype Reader = Reader(net: Net, handed: seq<Msg>, holds: bool)

  // A call of the application's reader, or anything else at this end, at the other or in the network. The client's
  // end_write reads from the same connection, without handing anything over.
  datatype Event = BeginCall(base: BaseRead) | EndCall | Other(a: Action)

  // The application ends only reads that it has begun.
  predicate May(r: Reader, client: bool, ev: Event) {
    match ev
    case BeginCall(base) => base.Datagram? ==> base.packet in Me(r.net, client).inbox
    case EndCall => r.holds && Enabled(r.net, FinishRead(client))
    case Other(a) => Enabled(r.net, a) && a != FinishRead(client)
  }

  // A call that succeeds while the last read is not ended hands over the same message once more.
  function After(r: Reader, client: bool, ev: Event): Reader
    requires May(r, client, ev)
  {
    match ev
    case BeginCall(base) =>
      var e := Me(r.net, client).ep;
      var call := BegRead(e, base);
      if call.code != NoError then r.(net := AfterRead(r.net, client, base))
      else Reader(AfterRead(r.net, client, base), if r.holds then r.handed else r.handed + [call.data.value], true)
    case EndCall => Reader(Next(r.net, FinishRead(client)), r.handed, false)
    case Other(a) => r.(net := Next(r.net, a))
  }

  function AfterRead(n: Net, client: bool, base: BaseRead): Net {
    match Exec(n, ReadActions(n, client, base))
    case None => n
    case Some(m) => m
  }

  function Events(r: Reader, client: bool, events: seq<Event>): Option<Reader>
    decreases |events|
  {
    if events == [] then Some(r)
    else if May(r, client, events[0]) then Events(After(r, client, events[0]), client, events[1..])
    else None
  }

  // All messages accepted have been handed over, in this order, but for the one that still waits.
  predicate Ordered(handed: seq<Msg>, holds: bool, waits: bool, got: seq<Msg>) {
    && (holds ==> waits)
    && handed == (if waits && !holds && got != [] then got[..|got| - 1] else got)
  }

  predicate InOrder(r: Reader, client: bool) {
    Ordered(r.handed, r.holds, Me(r.net, client).ep.slot.Some?, Me(r.net, client).got)
  }

  // What a step of this end or another leaves of the messages accepted.
  lemma OtherAccepts(n: Net, client: bool, a: Action)
    requires Enabled(n, a) && a != FinishRead(client)
    ensures var x, y := Me(n, client), Me(Next(n, a), client);
      || (y.got == x.got && y.ep.slot == x.ep.slot)
      || (x.ep.slot.None? && y.ep.slot.Some? && y.got != [] && y.got[..|y.got| - 1] == x.got)
  {
    var x := Me(n, client);
    if a.Deliver? && a.client == client {
      assert (x.got + [a.packet.body])[..|x.got|] == x.got;
    }
  }

  lemma OtherKeepsOrder(r: Reader, client: bool, a: Action)
    requires InOrder(r, client) && May(r, client, Other(a))
    ensures InOrder(After(r, client, Other(a)), client)
  {
    OtherAccepts(r.net, client, a);
  }

  lemma EndReleases(n: Net, client: bool)
    requires Enabled(n, FinishRead(client))
    ensures var y := Me(Next(n, FinishRead(client)), client); y.got == Me(n, client).got && y.ep.slot == None
  {
  }

  lemma EndKeepsOrder(r: Reader, client: bool)
    requires InOrder(r, client) && May(r, client, EndCall)
    ensures InOrder(After(r, client, EndCall), client)
  {
    EndReleases(r.net, client);
  }

  lemma HandingKeepsOrder(handed: seq<Msg>, holds: bool, x: Side, y: Side, code: Code, data: Option<Msg>)
    requires Ordered(handed, holds, x.ep.slot.Some?, x.got) && HandsOver(x, y, code, data)
    requires (code == NoError <==> y.ep.slot.Some?) && (x.ep.slot.Some? ==> y == x)
    ensures code != NoError ==> Ordered(handed, holds, y.ep.slot.Some?, y.got)
    ensures code == NoError ==>
      var handed' := if holds then handed else handed + [data.value];
      Ordered(handed', true, y.ep.slot.Some?, y.got) && handed' != [] && data.value == handed'[|handed'| - 1]
  {
    if code == NoError {
      assert y.got == y.got[..|y.got| - 1] + [data.value];
    }
  }

  // The slot after a call of beg_read.
  lemma BeginFillsSlot(n: Net, client: bool, base: BaseRead)
    requires Inv(n) && (base.Datagram? ==> base.packet in Me(n, client).inbox)
    ensures Inv(AfterRead(n, client, base))
    ensures var e, x := Me(n, client).ep, Me(AfterRead(n, client, base), client);
      && (BegRead(e, base).code == NoError <==> x.ep.slot.Some?) && (e.slot.Some? ==> x == Me(n, client))
      && HandsOver(Me(n, client), x, BegRead(e, base).code, BegRead(e, base).data)
  {
    if base.Closed? {
      if Me(n, client).ep.slot.Some? {
        WaitingHandsOver(Me(n, client), base);
      }
    } else {
      ReadCallIsSteps(n, client, base);
      RunKeepsInv(n, ReadActions(n, client, base));
      ReadMeans(Me(n, client).ep, base, BegRead(Me(n, client).ep, base).after,
        BegRead(Me(n, client).ep, base).code, BegRead(Me(n, client).ep, base).data);
    }
  }

  // What a call records.
  lemma BeginRecords(r: Reader, client: bool, base: BaseRead) returns (r': Reader)
    requires May(r, client, BeginCall(base))
    ensures r' == After(r, client, BeginCall(base)) && r'.net == AfterRead(r.net, client, base)
    ensures var call := BegRead(Me(r.net, client).ep, base);
      if call.code != NoError then r'.handed == r.handed && r'.holds == r.holds
      else r'.holds && r'.handed == if r.holds then r.handed else r.handed + [call.data.value]
  {
    r' := After(r, client, BeginCall(base));
  }

  lemma RecordsInOrder(r: Reader, r': Reader, client: bool, code: Code, data: Option<Msg>)
    requires InOrder(r, client) && HandsOver(Me(r.net, client), Me(r'.net, client), code, data)
    requires code == NoError <==> Me(r'.net, client).ep.slot.Some?
    requires Me(r.net, client).ep.slot.Some? ==> Me(r'.net, client) == Me(r.net, client)
    requires if code != NoError then r'.handed == r.handed && r'.holds == r.holds
             else r'.holds && data.Some? && r'.handed == if r.holds then r.handed else r.handed + [data.value]
    ensures InOrder(r', client)
    ensures code == NoError ==> r'.handed != [] && data == Some(r'.handed[|r'.handed| - 1])
  {
    HandingKeepsOrder(r.handed, r.holds, Me(r.net, client), Me(r'.net, client), code, data);
  }

  lemma BeginKeepsOrder(r: Reader, client: bool, base: BaseRead)
    requires Inv(r.net) && InOrder(r, client) && May(r, client, BeginCall(base))
    ensures InOrder(After(r, client, BeginCall(base)), client)
    ensures var call := BegRead(Me(r.net, client).ep, base); var handed := After(r, client, BeginCall(base)).handed;
      call.code == NoError ==> handed != [] && call.data == Some(handed[|handed| - 1])
  {
    var call := BegRead(Me(r.net, client).ep, base);
    var r' := BeginRecords(r, client, base);
    BeginFillsSlot(r.net, client, base);
    RecordsInOrder(r, r', client, call.code, call.data);
  }

  lemma EventKeepsOrder(r: Reader, client: bool, ev: Event)
    requires Inv(r.net) && InOrder(r, client) && May(r, client, ev)
    ensures Inv(After(r, client, ev).net) && InOrder(After(r, client, ev), client)
  {
    match ev
    case BeginCall(base) =>
      BeginFillsSlot(r.net, client, base);
      BeginKeepsOrder(r, client, base);
    case EndCall =>
      StepKeepsInv(r.net, FinishRead(client));
      EndKeepsOrder(r, client);
    case Other(a) =>
      StepKeepsInv(r.net, a);
      OtherKeepsOrder(r, client, a);
  }

  lemma {:induction false} EventsKeepOrder(r: Reader, client: bool, events: seq<Event>)
    requires Inv(r.net) && InOrder(r, client) && Events(r, client, events).Some?
    ensures Inv(Events(r, client, events).value.net) && InOrder(Events(r, client, events).value, client)
    decreases |events|
  {
    if events != [] {
      EventKeepsOrder(r, client, events[0]);
      EventsKeepOrder(After(r, client, events[0]), client, events[1..]);
    }
  }

  // The coupling and the prefix, in any state.
  lemma OrderedIsPrefix(r: Reader, client: bool)
    requires Inv(r.net) && InOrder(r, client)
    ensures var x, wrote := Me(r.net, client), Me(r.net, !client).wrote;
      && r.handed <= x.got && |r.handed| <= |wrote|
      && (forall j :: 0 <= j < |r.handed| ==> SomeCopy(!client, r.handed[j], wrote[j]))
      && |x.got| - |r.handed| == (if x.ep.slot.Some? && !r.holds then 1 else 0)
  {
  }

  /** Over every run, the messages that beg_read hands over are copies of the peer's first writes, in order and once
      each, up to the last one accepted or, while that still waits, the one before it. */
  lemma HandedOverOnce(outC: Packet, outS: Packet, client: bool, events: seq<Event>)
    requires Events(Reader(Init(outC, outS), [], false), client, events).Some?
    ensures var r := Events(Reader(Init(outC, outS), [], false), client, events).value;
      var x, wrote := Me(r.net, client), Me(r.net, !client).wrote;
      && r.handed <= x.got && |r.handed| <= |wrote|
      && (forall j :: 0 <= j < |r.handed| ==> SomeCopy(!client, r.handed[j], wrote[j]))
      && |x.got| - |r.handed| == (if x.ep.slot.Some? && !r.holds then 1 else 0)
  {
    EventsKeepOrder(Reader(Init(outC, outS), [], false), client, events);
    OrderedIsPrefix(Events(Reader(Init(outC, outS), [], false), client, events).value, client);
  }

  lemma AfterReadKeepsPeer(n: Net, client: bool, base: BaseRead)
    requires base.Datagram? ==> base.packet in Me(n, client).inbox
    ensures Me(AfterRead(n, client, base), !client) == Me(n, !client)
  {
    if !base.Closed? {
      ReadCallIsSteps(n, client, base);
    }
  }

  // The data is a copy of the peer's next write, or of the one already handed over.
  predicate NextOf(r: Reader, wrote: seq<Msg>, strict: bool, data: Option<Msg>) {
    var k := |r.handed| - (if r.holds then 1 else 0);
    0 <= k < |wrote| && data.Some? && SomeCopy(strict, data.value, wrote[k])
  }

  // A call that succeeds leaves one entry for each read begun.
  lemma BeginCounts(r: Reader, client: bool, base: BaseRead)
    requires May(r, client, BeginCall(base)) && BegRead(Me(r.net, client).ep, base).code == NoError
    ensures |After(r, client, BeginCall(base)).handed| == |r.handed| + (if r.holds then 0 else 1)
  {
  }

  lemma LastIsNext(r: Reader, handed: seq<Msg>, wrote: seq<Msg>, strict: bool, data: Option<Msg>)
    requires |handed| == |r.handed| + (if r.holds then 0 else 1) && 0 < |handed| <= |wrote|
    requires forall j :: 0 <= j < |handed| ==> SomeCopy(strict, handed[j], wrote[j])
    requires data == Some(handed[|handed| - 1])
    ensures NextOf(r, wrote, strict, data)
  {
  }

  // The state after such a call.
  lemma BeginLeads(r: Reader, client: bool, base: BaseRead) returns (r': Reader)
    requires Inv(r.net) && InOrder(r, client) && May(r, client, BeginCall(base))
    requires BegRead(Me(r.net, client).ep, base).code == NoError
    ensures Inv(r'.net) && InOrder(r', client) && Me(r'.net, !client) == Me(r.net, !client)
    ensures |r'.handed| == |r.handed| + (if r.holds then 0 else 1) && r'.handed != []
    ensures BegRead(Me(r.net, client).ep, base).data == Some(r'.handed[|r'.handed| - 1])
  {
    r' := After(r, client, BeginCall(base));
    BeginKeepsOrder(r, client, base);
    EventKeepsOrder(r, client, BeginCall(base));
    BeginCounts(r, client, base);
    AfterReadKeepsPeer(r.net, client, base);
  }

  lemma LastHandedIsNext(r: Reader, r': Reader, client: bool, data: Option<Msg>)
    requires Inv(r'.net) && InOrder(r', client) && r'.handed != [] && data == Some(r'.handed[|r'.handed| - 1])
    requires |r'.handed| == |r.handed| + (if r.holds then 0 else 1)
    ensures NextOf(r, Me(r'.net, !client).wrote, !client, data)
  {
    OrderedIsPrefix(r', client);
    LastIsNext(r, r'.handed, Me(r'.net, !client).wrote, !client, data);
  }

  lemma CallReturnsNext(r: Reader, client: bool, base: BaseRead)
    requires Inv(r.net) && InOrder(r, client) && May(r, client, BeginCall(base))
    requires BegRead(Me(r.net, client).ep, base).code == NoError
    ensures NextOf(r, Me(r.net, !client).wrote, !client, BegRead(Me(r.net, client).ep, base).data)
  {
    var r' := BeginLeads(r, client, base);
    LastHandedIsNext(r, r', client, BegRead(Me(r.net, client).ep, base).data);
  }

  /** And the message that a successful call returns is the last of these: a copy of the peer's next write, or the same
      one again while the read is not ended. */
  lemma ReturnsNext(outC: Packet, outS: Packet, client: bool, events: seq<Event>, base: BaseRead)
    requires var r := Events(Reader(Init(outC, outS), [], false), client, events);
      r.Some? && May(r.value, client, BeginCall(base)) && BegRead(Me(r.value.net, client).ep, base).code == NoError
    ensures var r := Events(Reader(Init(outC, outS), [], false), client, events).value;
      NextOf(r, Me(r.net, !client).wrote, !client, BegRead(Me(r.net, client).ep, base).data)
  {
    var r := Events(Reader(Init(outC, outS), [], false), client, events).value;
    EventsKeepOrder(Reader(Init(outC, outS), [], false), client, events);
    CallReturnsNext(r, client, base);
  }
}
