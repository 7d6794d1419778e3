/** Two-phase commit: the coordinator's main thread, its worker threads and the clients, one shared access per
    step. Core is everything but the message channels; Cluster adds a pair of FIFO channels per client. */
module TwoPhase {
  import opened Protocol

  // Results of a phase, as the main thread keeps them.
  datatype Status = RequestSuccess | RequestFail | CommitSuccess | CommitFail | ClusterFail

  /** Connection j is polled by thread owner[j]. Channels that lose messages on the way down to a client or up from it,
      and timeouts of the coordinator's wait, are optional. */
  datatype Config = Config(owner: seq<nat>, threads: nat, losesDown: bool, losesUp: bool, timeouts: bool)

  predicate ValidConfig(cfg: Config) {
    forall j :: 0 <= j < |cfg.owner| ==> cfg.owner[j] < cfg.threads
  }

  // Where a client stands in its endless loop of phase 1 and phase 2.
  datatype ClientPc = AwaitRequest | CastVote(yes: bool) | VoteWritten | AwaitDecision | SendAck | AckWritten

  /** `votes` and `acted` are histories: what the client voted, and what it was told to do, round by round.
      `violation` records that it stopped because of a message it did not expect. */
  datatype Client = Client(
    pc: ClientPc, voteCount: nat, halted: bool, violation: bool,
    votes: seq<bool>, acted: seq<bool>)

  // How far send_request is with one connection.
  datatype Flag = Fresh | Stamped | Sent | Finished

  /** Everything about client j except the channels: the client, its scoreboard slot, the message its worker has
      received and not yet scored, and histories of what the coordinator wrote to it (requests and decisions). */
  datatype Slot = Slot(
    client: Client, board: Kind, held: Option<Kind>, flag: Flag,
    asked: nat, orders: seq<bool>)

  datatype CoordPc =
    | Reset(i: nat)
    | Prep
    | SendCheck
    | SendAct
    | SendPoll(j: nat)
    | WaitTop
    | WaitSum(t: nat, acc: int)
    | Pausing
    | ScanCheck(i: nat)
    | ScanRead(i: nat)
    | ZeroCount(t: nat)
    | Unpausing
    | RoundEnd
    | Term

  datatype WorkerPc =
    | Top
    | SeenPause
    | Polling
    | Got(j: nat)
    | Scored(j: nat)
    | Ended(j: nat)
    | Loaded(j: nat, v: int)
    | Exited

  datatype Core = Core(
    pc: CoordPc, round: nat, second: bool, result: Status, verdict: Status,
    pause: bool, stop: bool,
    counts: seq<int>, workers: seq<WorkerPc>, slots: seq<Slot>)

  datatype MainStep =
    | ResetSlot | ResetDone
    | StampOne(j: nat) | PrepDone
    | CheckSend | Visit(j: nat) | VisitAcked | VisitAgain
    | Timeout | StartSum | AddCount | Decide
    | Pause | CheckScan | ReadSlot | ZeroOne | Unpause
    | NextRound | Terminate

  datatype WorkStep =
    | SeePause | ZeroOwn | StartPoll | StopPoll | Leave
    | Receive(j: nat, kind: Kind) | Score | EndRead | LoadCount | StoreCount

  datatype ClientStep = Hear(kind: Kind) | Vote | AckOrder | Written | Halt

  datatype Step =
    | MainDo(m: MainStep)
    | WorkerDo(t: nat, w: WorkStep)
    | ClientDo(j: nat, a: ClientStep)
    | RaiseStop

  function N(c: Core): nat { |c.slots| }

  function With(c: Core, j: nat, x: Slot): Core
    requires j < N(c)
  {
    c.(slots := c.slots[j := x])
  }

  function WithClient(c: Core, j: nat, cl: Client): Core
    requires j < N(c)
  {
    With(c, j, c.slots[j].(client := cl))
  }

  function WithWorker(c: Core, t: nat, w: WorkerPc): Core
    requires t < |c.workers|
  {
    c.(workers := c.workers[t := w])
  }

  // What send_request is broadcasting in the current phase.
  function Outgoing(c: Core): Kind {
    if !c.second then Request else OrderKind(c.verdict == RequestSuccess)
  }

  /** One slot of a scan. In phase 1 the break leaves only the switch, so a later slot can still change the
      result; None is a message that phase 1 answers by terminating. */
  function ScanSlot(second: bool, result: Status, slot: Kind): Option<Status> {
    if second then Some(if slot == Ack then result else ClusterFail)
    else match slot
      case VoteYes => Some(result)
      case VoteNo => Some(RequestFail)
      case Lost => Some(ClusterFail)
      case _ => None
  }

  predicate MainEnabled(cfg: Config, c: Core, m: MainStep) {
    match m
    case ResetSlot => c.pc.Reset? && c.pc.i < N(c)
    case ResetDone => c.pc.Reset? && c.pc.i == N(c)
    case StampOne(j) => c.pc == Prep && !c.stop && j < N(c) && c.slots[j].flag == Fresh
    case PrepDone => c.pc == Prep && (c.stop || forall j :: 0 <= j < N(c) ==> c.slots[j].flag != Fresh)
    case CheckSend => c.pc == SendCheck
    case Visit(j) => c.pc == SendAct && j < N(c) && (c.slots[j].flag == Stamped || c.slots[j].flag == Sent)
    case VisitAcked => c.pc.SendPoll? && c.pc.j < N(c)
    case VisitAgain => c.pc.SendPoll?
    case Timeout => c.pc == WaitTop && cfg.timeouts
    case StartSum => c.pc == WaitTop
    case AddCount => c.pc.WaitSum? && c.pc.t < |c.counts|
    case Decide => c.pc.WaitSum? && c.pc.t == |c.counts|
    case Pause => c.pc == Pausing
    case CheckScan => c.pc.ScanCheck?
    case ReadSlot => c.pc.ScanRead? && c.pc.i < N(c)
    case ZeroOne => c.pc.ZeroCount?
    case Unpause => c.pc == Unpausing
    case NextRound => c.pc == RoundEnd
    case Terminate => c.pc != Term
  }

  predicate WorkEnabled(cfg: Config, c: Core, t: nat, w: WorkStep)
    requires t < |c.workers| == |c.counts|
  {
    var pc := c.workers[t];
    match w
    case SeePause => pc == Top && c.pause
    case ZeroOwn => pc == SeenPause
    case StartPoll => pc == Top && !c.pause
    case StopPoll => pc == Polling
    case Leave => pc == Top && c.stop
    case Receive(j, _) => pc == Polling && j < N(c) && j < |cfg.owner| && cfg.owner[j] == t
    case Score => pc.Got? && pc.j < N(c) && c.slots[pc.j].held.Some?
    case EndRead => pc.Scored?
    case LoadCount => pc.Ended?
    case StoreCount => pc.Loaded?
  }

  predicate ClientEnabled(cl: Client, a: ClientStep) {
    match a
    case Hear(_) => !cl.halted && (cl.pc == AwaitRequest || cl.pc == AwaitDecision)
    case Vote => !cl.halted && cl.pc.CastVote?
    case AckOrder => !cl.halted && cl.pc == SendAck
    case Written => !cl.halted && (cl.pc == VoteWritten || cl.pc == AckWritten)
    case Halt => true
  }

  predicate CoreEnabled(cfg: Config, c: Core, st: Step) {
    match st
    case MainDo(m) => MainEnabled(cfg, c, m)
    case WorkerDo(t, w) => t < |c.workers| == |c.counts| && WorkEnabled(cfg, c, t, w)
    case ClientDo(j, a) => j < N(c) && ClientEnabled(c.slots[j].client, a)
    case RaiseStop => true
  }

  // The client's reaction to a message: one in five votes is a no; an unexpected message ends it.
  function Heard(cl: Client, kind: Kind): Client {
    if cl.pc == AwaitRequest && kind == Request then cl.(pc := CastVote(cl.voteCount % 5 != 0))
    else if cl.pc == AwaitDecision && (kind == Commit || kind == Cancel) then
      cl.(pc := SendAck, acted := cl.acted + [kind == Commit])
    else cl.(halted := true, violation := true)
  }

  function WrittenDone(cl: Client): Client {
    if cl.pc == VoteWritten then cl.(pc := AwaitDecision, voteCount := cl.voteCount + 1)
    else cl.(pc := AwaitRequest)
  }

  // The first end_write on a connection puts the message into the channel.
  function Visited(c: Core, j: nat): Core
    requires j < N(c)
  {
    var x := c.slots[j];
    if x.flag != Stamped then c
    else if c.second then With(c, j, x.(flag := Sent, orders := x.orders + [c.verdict == RequestSuccess]))
    else With(c, j, x.(flag := Sent, asked := x.asked + 1))
  }

  function AfterReset(c: Core): Core {
    if c.second && c.verdict != RequestSuccess && c.verdict != RequestFail then c.(pc := Term)
    else c.(pc := Prep, slots := seq(N(c), j requires 0 <= j < N(c) => c.slots[j].(flag := Fresh)))
  }

  function AfterUnpause(c: Core): Core {
    var c' := c.(pause := false);
    if !c.second then c'.(second := true, verdict := c.result, pc := Reset(0))
    else c'.(pc := if c.result == ClusterFail then Term else RoundEnd)
  }

  function AfterRead(c: Core, i: nat): Core
    requires i < N(c)
  {
    match ScanSlot(c.second, c.result, c.slots[i].board)
    case Some(result) => c.(result := result, pc := ScanCheck(i + 1))
    case None => c.(pc := Term)
  }

  predicate AllFinished(c: Core) { forall j :: 0 <= j < N(c) ==> c.slots[j].flag == Finished }

  function MainNext(cfg: Config, c: Core, m: MainStep): Core
    requires MainEnabled(cfg, c, m)
  {
    match m
    case ResetSlot => With(c, c.pc.i, c.slots[c.pc.i].(board := Lost)).(pc := Reset(c.pc.i + 1))
    case ResetDone => AfterReset(c)
    case StampOne(j) => With(c, j, c.slots[j].(flag := Stamped))
    case PrepDone => c.(pc := SendCheck)
    case CheckSend => c.(pc := if c.stop || AllFinished(c) then WaitTop else SendAct)
    case Visit(j) => Visited(c, j).(pc := SendPoll(j))
    case VisitAcked => With(c, c.pc.j, c.slots[c.pc.j].(flag := Finished)).(pc := SendCheck)
    case VisitAgain => c.(pc := SendCheck)
    case Timeout => c.(pc := Pausing)
    case StartSum => c.(pc := WaitSum(0, 0))
    case AddCount => c.(pc := WaitSum(c.pc.t + 1, c.pc.acc + c.counts[c.pc.t]))
    case Decide => c.(pc := if c.pc.acc >= N(c) then Pausing else WaitTop)
    case Pause => c.(pause := true, result := if c.second then CommitSuccess else RequestSuccess, pc := ScanCheck(0))
    case CheckScan => c.(pc := if c.pc.i < N(c) && !c.stop then ScanRead(c.pc.i) else ZeroCount(0))
    case ReadSlot => AfterRead(c, c.pc.i)
    case ZeroOne =>
      if c.pc.t < |c.counts| then c.(counts := c.counts[c.pc.t := 0], pc := ZeroCount(c.pc.t + 1))
      else c.(pc := Unpausing)
    case Unpause => AfterUnpause(c)
    case NextRound => if c.stop then c.(pc := Term) else c.(pc := Reset(0), round := c.round + 1, second := false)
    case Terminate => c.(pc := Term)
  }

  function WorkNext(cfg: Config, c: Core, t: nat, w: WorkStep): Core
    requires t < |c.workers| == |c.counts| && WorkEnabled(cfg, c, t, w)
  {
    var pc := c.workers[t];
    match w
    case SeePause => WithWorker(c, t, SeenPause)
    case ZeroOwn => WithWorker(c, t, Top).(counts := c.counts[t := 0])
    case StartPoll => WithWorker(c, t, Polling)
    case StopPoll => WithWorker(c, t, Top)
    case Leave => WithWorker(c, t, Exited)
    case Receive(j, kind) => WithWorker(With(c, j, c.slots[j].(held := Some(kind))), t, Got(j))
    case Score =>
      var x := c.slots[pc.j];
      WithWorker(With(c, pc.j, x.(board := x.held.value, held := None)), t, Scored(pc.j))
    case EndRead => WithWorker(c, t, Ended(pc.j))
    case LoadCount => WithWorker(c, t, Loaded(pc.j, c.counts[t]))
    case StoreCount => WithWorker(c, t, Polling).(counts := c.counts[t := pc.v + 1])
  }

  function ClientNext(cl: Client, a: ClientStep): Client
    requires ClientEnabled(cl, a)
  {
    match a
    case Hear(kind) => Heard(cl, kind)
    case Vote => cl.(pc := VoteWritten, votes := cl.votes + [cl.pc.yes])
    case AckOrder => cl.(pc := AckWritten)
    case Written => WrittenDone(cl)
    case Halt => cl.(halted := true)
  }

  function CoreNext(cfg: Config, c: Core, st: Step): Core
    requires CoreEnabled(cfg, c, st)
  {
    match st
    case MainDo(m) => MainNext(cfg, c, m)
    case WorkerDo(t, w) => WorkNext(cfg, c, t, w)
    case ClientDo(j, a) => WithClient(c, j, ClientNext(c.slots[j].client, a))
    case RaiseStop => c.(stop := true)
  }

  // What a step does to the channels: `down` leads to client j, `up` comes from it.
  datatype ChanOp = PushDown(j: nat, kind: Kind) | PopDown(j: nat, kind: Kind)
                  | PushUp(j: nat, kind: Kind) | PopUp(j: nat, kind: Kind) | NoOp

  function Op(cfg: Config, c: Core, st: Step): ChanOp
    requires CoreEnabled(cfg, c, st)
  {
    match st
    case MainDo(Visit(j)) => if c.slots[j].flag == Stamped then PushDown(j, Outgoing(c)) else NoOp
    case WorkerDo(_, Receive(j, kind)) => PopUp(j, kind)
    case ClientDo(j, Hear(kind)) => PopDown(j, kind)
    case ClientDo(j, Vote) => PushUp(j, VoteKind(c.slots[j].client.pc.yes))
    case ClientDo(j, AckOrder) => PushUp(j, Ack)
    case _ => NoOp
  }

  datatype Chan = Chan(down: seq<Kind>, up: seq<Kind>)

  datatype Cluster = Cluster(core: Core, chans: seq<Chan>)

  datatype Action = Do(st: Step) | LoseDown(j: nat, i: nat) | LoseUp(j: nat, i: nat)

  predicate OpEnabled(chans: seq<Chan>, op: ChanOp) {
    match op
    case PushDown(j, _) => j < |chans|
    case PushUp(j, _) => j < |chans|
    case PopDown(j, kind) => j < |chans| && chans[j].down != [] && chans[j].down[0] == kind
    case PopUp(j, kind) => j < |chans| && chans[j].up != [] && chans[j].up[0] == kind
    case NoOp => true
  }

  function OpNext(chans: seq<Chan>, op: ChanOp): seq<Chan>
    requires OpEnabled(chans, op)
  {
    match op
    case PushDown(j, kind) => chans[j := chans[j].(down := chans[j].down + [kind])]
    case PushUp(j, kind) => chans[j := chans[j].(up := chans[j].up + [kind])]
    case PopDown(j, _) => chans[j := chans[j].(down := chans[j].down[1..])]
    case PopUp(j, _) => chans[j := chans[j].(up := chans[j].up[1..])]
    case NoOp => chans
  }

  function Without(q: seq<Kind>, i: nat): seq<Kind>
    requires i < |q|
  {
    q[..i] + q[i + 1..]
  }

  predicate Enabled(cfg: Config, s: Cluster, a: Action) {
    match a
    case Do(st) => CoreEnabled(cfg, s.core, st) && OpEnabled(s.chans, Op(cfg, s.core, st))
    case LoseDown(j, i) => cfg.losesDown && j < |s.chans| && i < |s.chans[j].down|
    case LoseUp(j, i) => cfg.losesUp && j < |s.chans| && i < |s.chans[j].up|
  }

  function Next(cfg: Config, s: Cluster, a: Action): Cluster
    requires Enabled(cfg, s, a)
  {
    match a
    case Do(st) => Cluster(CoreNext(cfg, s.core, st), OpNext(s.chans, Op(cfg, s.core, st)))
    case LoseDown(j, i) => s.(chans := s.chans[j := s.chans[j].(down := Without(s.chans[j].down, i))])
    case LoseUp(j, i) => s.(chans := s.chans[j := s.chans[j].(up := Without(s.chans[j].up, i))])
  }

  // Every client is connected, with its connect message already read; client ids are 1, 2, and so on.
  predicate InitialSlot(j: nat, x: Slot) {
    && x.client == Client(AckWritten, j + 1, false, false, [], [])
    && x.held == None && x.asked == 0 && x.orders == []
  }

  predicate InitialCore(cfg: Config, c: Core) {
    && c.pc == Reset(0) && c.round == 0 && !c.second && !c.pause
    && |c.workers| == |c.counts| == cfg.threads && |c.slots| == |cfg.owner|
    && (forall t :: 0 <= t < cfg.threads ==> c.workers[t] == Top && c.counts[t] == 0)
    && (forall j :: 0 <= j < |c.slots| ==> InitialSlot(j, c.slots[j]))
  }

  function FirstSlot(j: nat): Slot {
    Slot(Client(AckWritten, j + 1, false, false, [], []), Lost, None, Fresh, 0, [])
  }

  // An initial core: the one with a clear stop flag and an empty scoreboard.
  function FirstCore(cfg: Config): Core {
    Core(Reset(0), 0, false, RequestSuccess, RequestSuccess, false, false,
         seq(cfg.threads, _ => 0), seq(cfg.threads, _ => Top), seq(|cfg.owner|, j requires 0 <= j => FirstSlot(j)))
  }

  predicate Initial(cfg: Config, s: Cluster) {
    && InitialCore(cfg, s.core) && |s.chans| == |cfg.owner|
    && (forall j :: 0 <= j < |s.chans| ==> s.chans[j] == Chan([], []))
  }

  function Exec(cfg: Config, s: Cluster, actions: seq<Action>): Option<Cluster>
    decreases |actions|
  {
    if actions == [] then Some(s)
    else if Enabled(cfg, s, actions[0]) then Exec(cfg, Next(cfg, s, actions[0]), actions[1..])
    else None
  }

  lemma {:induction false} ExecConcat(cfg: Config, s: Cluster, xs: seq<Action>, ys: seq<Action>)
    requires Exec(cfg, s, xs).Some?
    ensures Exec(cfg, s, xs + ys) == Exec(cfg, Exec(cfg, s, xs).value, ys)
    decreases |xs|
  {
    if xs == [] {
      assert xs + ys == ys;
    } else {
      assert (xs + ys)[1..] == xs[1..] + ys;
      ExecConcat(cfg, Next(cfg, s, xs[0]), xs[1..], ys);
    }
  }

  lemma ExecOne(cfg: Config, s: Cluster, a: Action)
    requires Enabled(cfg, s, a)
    ensures Exec(cfg, s, [a]) == Some(Next(cfg, s, a))
  {
    assert [a][1..] == [];
  }
}
