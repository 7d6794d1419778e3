# q2pc: two-phase commit over reliable UDP and over framed TCP, proved in Dafny

q2pc is a two-phase-commit coordinator with its clients. The coordinator's main thread asks every client for a vote,
waits until its worker threads have counted all answers, decides, broadcasts the decision and waits for the
acknowledgements. It runs over several transports; the two with logic of their own are a home-grown reliable UDP
(stop-and-wait, acknowledged by the peer's next message) and TCP with a message delimiter. This project models that
logic and proves what each layer promises, and that the layers together keep two-phase commit's promise: over a network
that loses, duplicates and reorders datagrams, no two clients ever act on different decisions for the same round.

Check it with `dafny verify dfyconfig.toml`.

## How the project is laid out

| files | what they hold |
|---|---|
| `Protocol.dfy` | message kinds, the message record, return codes |
| `RudpEndpoint.dfy` | one end of a reliable-UDP connection: the object updated in place, the same calls as functions, and what each answer means to the caller |
| `RudpChannel.dfy` | two ends and a network as a transition system; exactly-once, in-order delivery; refinement of a perfect queue |
| `RudpProgress.dfy` | when a write can complete: retransmission makes progress, except after one race or a client's giving up, which are characterised exactly |
| `RudpGiveUp.dfy` | the write after one that the client gave up: exactly when end_write reports success for a message that was never sent, and a run that gets there |
| `RudpCalls.dfy`, `RudpLoop.dfy`, `RudpReads.dfy` | each call on the connection object is a run of the transition system; the callers' counts of timeouts; what beg_read hands over, call after call |
| `TwoPhase.dfy` | the protocol as a transition system: main thread, worker threads, clients, one shared access per step, FIFO channels that may lose messages |
| `TwoPhaseSafety.dfy`, `TwoPhaseTheorems.dfy` | its invariant; agreement, validity, synchronised rounds, what stop and pause signals and ended clients bring about |
| `DecisionLaw.dfy` | which rounds commit |
| `TwoPhaseWait.dfy` | the wait for votes does not see the stop signal: when it can still end, and a run into a wait that cannot |
| `TwoPhaseLossless.dfy`, `Counting.dfy`, `TwoPhaseExact.dfy` | channels that lose nothing on the way to a client: no unexpected message; waits without timeouts: exact vote counters, waits that end exactly when they should, whatever is lost |
| `EndToEnd.dfy`, `ConnectionView.dfy`, `EndToEndProof.dfy`, `EndToEndTheorems.dfy` | the protocol with every connection a reliable-UDP channel; it refines the protocol over queues, so all of the above carries over |
| `EndToEndGiveUp.dfy` | a write that cannot be acknowledged stalls the round for good, and a run into such a state |
| `NetExchange.dfy`, `EndToEndWitness.dfy` | for any number of clients and threads every round is reached and completed by some run, so the theorems are not empty |
| `Framing.dfy`, `FixedFrames.dfy`, `TcpConnection.dfy` | the greedy parse of a byte stream, the server's fixed-size delimiter, and the growing buffer that implements the parse in place |
| `Partition.dfy` | how connections are dealt out to worker threads |
| `SendLog.dfy`, `Scoreboard.dfy`, `Coordinator.dfy`, `SendSteps.dfy`, `ScanSteps.dfy` | the main thread's loops over its global arrays, and that their calls are steps of the protocol machine |
| `Worker.dfy`, `ClientLoop.dfy` | a worker's polling pass and a client's two phases, tied to the same machine |

## Reading the model

- The flag the reliable UDP calls `is_server` is set on the client process and clear on the coordinator (it is the
  negation of the transport's `server` option). The model calls it `strict`: the strict end accepts only its own number
  and counts up, the other end accepts anything larger and jumps.
- Sequence numbers and counters are unbounded integers. Clocks become parameters of the calls or free choices of the
  transition systems: a timeout may fire, and a retransmission may happen, at any time.
- What other threads and the operating system do to a sequential loop is given as an argument: the answers of each
  connection's `end_write` call by call, the number of the reading from which the stop flag is up (it never goes down again), the
  counters each poll reads, the votes found at the end of a wait, the outcomes of socket reads and writes.
- In the transition systems every access to shared state is a step of its own: a worker's receive, its scoreboard
  write, its `end_read`, the load and the store of its counter; the main thread's reset and scan, slot by slot; the
  guard of the sending loop and the call behind it; inside `end_write`, the first send and the recording of the number,
  and the acknowledgement test and the retransmission, between which a worker may accept a message. The client process
  has one thread, so its calls are not taken apart.
- A client gives up on a response with its retransmission number 200000, but never on its connect message. In the
  protocol over queues, the answer after that is one that is written and lost; a configuration says whether clients do
  give up.

## What turned out differently from what one would expect

- `end_write` records `current_seq` only after its first send. If a worker accepts the answer in between, the write is
  never acknowledged: a run without any loss reaches this state (`RudpProgress.WedgeIsReachable`). There is a second way
  to fail, without that race: the client has given up on an answer that had arrived, so its next answer is never sent
  (`RudpGiveUp.DesertionIsReachable`). The write can still be acknowledged if and only if the number has not moved when
  it is recorded and the client is answerable (`RudpProgress.ArmingDecides`): its last message was sent, and if it has
  given up on that one, a copy that the coordinator would accept is in flight. If not, the whole round stalls until the
  stop signal or termination (`EndToEndGiveUp.LostAnswerStallsRound`). Safety does not depend on it.
- The `break` inside phase 1's scan leaves only the `switch`, so the last slot that is not a yes decides between a
  cancelled round and a failed cluster (`Scoreboard.LastDissentDecides`, `Scoreboard.OrderOfDissentMatters`).
- The second case of `conn_end_delimit`, whose purpose its author doubts in a comment, cannot be reached: a found
  message is never longer than the bytes in use (`TcpConnection.TcpConn.EndDelimit`).
- The decision law holds in every run, also with losses, timeouts and stop signals, because a decision is only written
  after the votes it follows from (`DecisionLaw.DecisionLaw`).
- Delivery through the delimiter is the greedy parse under every chunking if and only if more bytes never change the
  length of a complete message (`Framing.GreedyIffStable`); the server's fixed-size delimiter satisfies this.
- A client that gives up on a response goes on as if it had been delivered. It does so exactly if the limit of
  retransmissions is reached before `end_write` succeeds or fails (`ClientLoop.SettlesMeans`, with the input in
  `ClientLoop.LimitGivesUp`), and that spoils the next response: `ack_outstanding` is still set, so the first
  `end_write` sends nothing and reports success as soon as the number has moved (`RudpCalls.SuccessUnsent`,
  `RudpGiveUp.GivenUpSpoilsNext`, with a run in `RudpGiveUp.UnsentSuccessIsReachable`). Success acknowledges the message
  just stamped if and only if `ack_outstanding` was clear when it was stamped (`RudpGiveUp.SuccessIffUnarmed`). Every
  end-to-end result below survives: agreement, the decision law, the absence of unexpected messages, synchronised
  rounds, exact waits and the scoreboard slots are proved for runs in which clients give up, too. What is lost is
  progress: the coordinator waits for an answer that never comes (`RudpProgress.MuteForever`,
  `EndToEndGiveUp.GivingUpIsReached`).
- `wait_for_votes` does not look at the stop signal. After the workers have left, it ends if and only if it has a timeout
  or the counters already add up to the number of clients (`TwoPhaseWait.WaitEndsIfCounted`); a stop signal before
  the first request leads into a wait that never ends (`TwoPhaseWait.EndlessWaitIsReached`).
- The vote counters are exact whatever the channels lose, as long as the wait does not time out
  (`TwoPhaseExact.CountersAreExact`).

## Model

| member | source | states |
|---|---|---|
| RudpEndpoint.RudpConn.constructor | src/transport/q2pc_trans_rudp.c:307-314 | a new end has the initial numbers: 0 and strict on the client process, -1 on the coordinator |
| RudpEndpoint.RudpConn.BeginRead | src/transport/q2pc_trans_rudp.c:63-134 | success exactly if a message waits afterwards, and then that one is handed over: the one that waited, with nothing changed, or one that is new to this end, with its number moved; end of stream exactly if nothing waited and the base has ended; otherwise "again" with no data |
| RudpEndpoint.ReadMeans | src/transport/q2pc_trans_rudp.c:63-134 | that description fixes state, code and data of a call completely |
| RudpEndpoint.RudpConn.FinishRead | src/transport/q2pc_trans_rudp.c:136-145 | releases the slot and nothing else |
| RudpEndpoint.RudpConn.BeginWrite | src/transport/q2pc_trans_rudp.c:148-175 | the write buffer carries the current number and the new body |
| RudpEndpoint.RudpConn.FinishWrite | src/transport/q2pc_trans_rudp.c:178-252 | success exactly if the number has moved since the send; "again" exactly while it has not and the timer runs; a timeout exactly if the timer has run out and the buffer, with its own counter one higher, went out again; failure exactly on a failed send or an ended read; and what is on the wire and left in the object in each case |
| RudpEndpoint.WriteMeans | src/transport/q2pc_trans_rudp.c:178-252 | that description fixes state, datagrams and code of a call completely |
| RudpChannel.AcceptedIsNext | src/transport/q2pc_trans_rudp.c:94-122 | whatever either end accepts is exactly the next number, so the coordinator's permissive test never skips one |
| RudpChannel.TakeKeepsHalf | src/transport/q2pc_trans_rudp.c:94-131 | accepting a datagram from the bag keeps one direction's invariant |
| RudpChannel.StepKeepsInv | src/transport/q2pc_trans_rudp.c:63-252 | every step of either end, and every loss and duplication, keeps the invariant over both ends and all datagrams in flight |
| RudpChannel.RunKeepsInv | src/transport/q2pc_trans_rudp.c:63-252 | so does every run |
| RudpChannel.DeliveryIsExactlyOnce | src/transport/q2pc_trans_rudp.c:94-131 | in every reachable state each end has been handed, in order and once each, copies of a prefix of what the other wrote; the numbers are in lockstep; no datagram in flight is ahead of its sender |
| RudpChannel.AcknowledgementIsSound | src/transport/q2pc_trans_rudp.c:194-214 | when end_write reports success the peer has accepted everything sent; the message just written is the last of that if it was sent, and follows it if it was stamped after a write given up |
| RudpGiveUp.SuccessIffUnarmed | src/transport/q2pc_trans_rudp.c:182-214 | a success acknowledges the message just stamped if and only if ack_outstanding was clear at beg_write; otherwise the message was never sent, is not in flight and has not been accepted |
| RudpGiveUp.UnsentSuccessIsReachable | src/client/q2pc_client.c:191-211 | a run from the first state that gives up at the limit and then reports success for a message that was never sent |
| RudpCalls.SuccessUnsent | src/transport/q2pc_trans_rudp.c:182-214 | one call on a message just stamped succeeds without sending exactly if ack_outstanding is still set and the number has moved |
| RudpGiveUp.GivenUpSpoilsNext | src/client/q2pc_client.c:159-212 | after a response given up and the next message taken, the next response is never sent and counts as delivered |
| RudpChannel.RefinesQueue | src/transport/q2pc_trans_rudp.c:63-252 | every step is a push, a pop or nothing on a perfect queue, in both directions |
| RudpCalls.ReadCallIsSteps | src/transport/q2pc_trans_rudp.c:63-134 | a beg_read call is a run of the transition system with the same resulting end, and hands over the last message accepted: the one that waited, or one more than before |
| RudpReads.HandedOverOnce | src/transport/q2pc_trans_rudp.c:63-145 | over every run of reads, writes and network faults, the messages handed over are copies of the peer's first writes, in order and once each, complete but for one that waits |
| RudpReads.ReturnsNext | src/transport/q2pc_trans_rudp.c:63-134 | a successful call returns a copy of the peer's next write, or the same one again while that read is not ended |
| RudpCalls.WriteCallIsSteps | src/transport/q2pc_trans_rudp.c:178-252 | in every reachable state in which an end writes, an end_write call is a run with the same resulting end and the same datagrams added to the network; it reports success exactly when the run polls an acknowledgement, and a timeout exactly when it retransmits |
| RudpLoop.LoopCountsRetries | src/transport/q2pc_trans_rudp.c:178-252 | whatever happens between the calls, the timeouts a caller counts are the retransmissions made, at either end |
| RudpLoop.GivesUpAtLimit | src/client/q2pc_client.c:191-211 | a response is given up exactly when the client's loop has counted as many timeouts as the limit, and never counts more |
| RudpProgress.TimelyIsKept | src/transport/q2pc_trans_rudp.c:184-196 | the recorded number stays the one sent unless a worker accepts between the first send and the recording |
| RudpProgress.NeverWedges | src/transport/q2pc_trans_rudp.c:182-251 | the end that is waited for has its write acknowledged, or one retransmission and one delivery advance the sum of the numbers by one |
| RudpProgress.AnswerableIffUnaccepted | src/client/q2pc_client.c:191-211 | a client that has given up is answerable exactly if the coordinator has not accepted its last message and a copy of that is in flight |
| RudpProgress.MuteForever | src/transport/q2pc_trans_rudp.c:182-214 | once the client is not answerable, the coordinator never accepts anything from it again |
| RudpProgress.DrivingEndProceeds | src/transport/q2pc_trans_rudp.c:182-251 | the end that is waited for can proceed (acknowledged; one retransmission or one copy in flight away from the next number; or free to begin or send its next message with everything accepted) if and only if it is not a client that is not answerable |
| RudpProgress.StalledForever | src/transport/q2pc_trans_rudp.c:182-251 | while the coordinator waits for a client that is not answerable, neither number ever moves again |
| RudpProgress.PromptRunsNeverWedge | src/transport/q2pc_trans_rudp.c:182-251 | the same if and only if holds in every state reached by runs in which send and recording are not separated, at the latest after the recording that is due |
| RudpProgress.WedgedForever | src/transport/q2pc_trans_rudp.c:194-214 | once the number was recorded too late, no continuation acknowledges the write |
| RudpProgress.ArmingDecides | src/transport/q2pc_trans_rudp.c:184-214 | a write can still be acknowledged if and only if its number had not moved when it was recorded and the client is answerable |
| RudpProgress.WedgeIsReachable | src/transport/q2pc_trans_rudp.c:184-214 | a run without loss, duplication or reordering ends with a number recorded too late |
| RudpGiveUp.DesertionIsReachable | src/client/q2pc_client.c:191-211 | a run from the first state ends with a number recorded in time that can never be acknowledged, because the client gave up on an answer that had arrived |
| TwoPhaseSafety.HearKeepsInv | src/client/q2pc_client.c:215-281 | a client's reaction to any message keeps the protocol's invariant |
| TwoPhaseSafety.ScoreKeepsInv | src/server/q2pc_server_worker.c:98 | so does a worker's scoreboard write, at any time relative to the main thread |
| TwoPhaseSafety.FirstVisitKeepsInv | src/server/q2pc_server.c:342-353 | so does the write of a request or decision, which relies on the complete scan behind the decision |
| TwoPhaseSafety.ScannedSlotIsExpected | src/server/q2pc_server.c:458-461 | no scanned slot ever holds a message that phase 1 does not expect, nor a vote of another round, even with losses and timeouts |
| TwoPhaseSafety.StepKeepsInv | src/server/q2pc_server.c:277-591 | every step of the main thread, the workers, the clients and the network keeps the invariant |
| TwoPhaseTheorems.DecisionsFollowVotes | src/server/q2pc_server.c:421-491 | a commit of round r is written only if every client voted yes in round r, a cancel only if some client voted no in it, under every interleaving, loss and timeout |
| TwoPhaseTheorems.Agreement | src/client/q2pc_client.c:251-281 | no two clients act on different decisions of one round |
| TwoPhaseTheorems.CompletedRoundsSynchronise | src/server/q2pc_server.c:502-543 | a round that ends with success and the stop flag clear leaves every client at that round, having acted as decided, with both channels empty |
| TwoPhaseTheorems.StopAllowsOneWrite | src/server/q2pc_server.c:312-343 | once the stop flag is up at most one more message is written, to one client, and none unless the main thread was between the check and the write |
| TwoPhaseTheorems.StopEndsRounds | src/server/q2pc_server.c:563-591 | once the stop flag is up no further round begins |
| TwoPhaseTheorems.PauseCoversScan | src/server/q2pc_server.c:438-470 | exactly from the end of a wait to the end of its phase the workers are told to pause, so that no worker begins a pass while the scoreboard is scanned and the counters are cleared |
| TwoPhaseTheorems.EndedClientIsSilent | src/client/q2pc_client.c:26-37 | a client process that has ended neither votes nor acts any more |
| DecisionLaw.DecisionLaw | src/client/q2pc_client.c:223-248 | round r commits if and only if no client id i has (i + r) divisible by five, that is r mod 5 plus the number of clients is below five |
| DecisionLaw.FiveRounds | src/client/q2pc_client.c:223-248 | of five consecutive rounds exactly 5 - n commit with n below five clients, none with more |
| TwoPhaseWait.WaitEndsIfCounted | src/server/q2pc_server.c:398-416 | once the workers have left, the wait can be left if and only if it has a timeout or the counters add up to the number of clients, whatever happens next |
| TwoPhaseWait.EndlessWaitIsReached | src/server/q2pc_server.c:311-418 | for any number of clients and threads a stop signal before the first request leads to a wait that can never be left |
| TwoPhaseLossless.NoProtocolViolation | src/client/q2pc_client.c:227-277 | without losses on the way to a client no client meets a message it does not expect, even when waits time out |
| Counting.CountersAddUp | src/server/q2pc_server.c:408-415 | per-thread counters that count disjoint connections add up to the number of counted votes, and to all of them exactly when every vote is in |
| TwoPhaseExact.StoreKeepsExact | src/server/q2pc_server_worker.c:109 | the increment makes exactly one vote counted, in the middle of a sum by the main thread or not |
| TwoPhaseExact.CountersAreExact | src/server/q2pc_server.c:408-415 | without timeouts, whatever is lost, the counters never exceed the number of clients and reach it exactly when every client's answer of this phase is scored and counted |
| TwoPhaseExact.WaitNeverEndsEarly | src/server/q2pc_server.c:396-416 | when a wait is over every slot holds this phase's answer and nothing is on the way up |
| TwoPhaseExact.WaitNeverMisses | src/server/q2pc_server.c:396-416 | once every answer is counted, the next complete sum ends the wait |
| TwoPhaseExact.ClusterNeverFails | src/server/q2pc_server.c:441-463 | without timeouts no phase reports a failed cluster |
| EndToEndProof.ConnectingSucceeds | src/server/q2pc_server.c:133-179 | the initial state is real: the connect message can be sent, accepted and read |
| EndToEndProof.ActionRefines | src/transport/q2pc_trans_rudp.c:63-252 | every action of the programs, their connections or the network is one step of the protocol over queues, or none; an answer that is never sent, after one given up, is a step and a loss |
| EndToEndProof.RunRefines | src/transport/q2pc_trans_rudp.c:63-252 | every run is a run of the protocol over queues that lose nothing on the way to a client, and nothing at all if clients do not give up |
| EndToEndProof.StampIsNeverBlocked | src/server/q2pc_server.c:311-336 | whenever send_request fills a buffer its connection is idle |
| EndToEndProof.VisitIsNeverBlocked | src/server/q2pc_server.c:351-353 | whenever it visits a connection the message can be sent or was sent before |
| EndToEndProof.PollIsNeverBlocked | src/transport/q2pc_trans_rudp.c:191-214 | inside a visit the number can be recorded, or end_write can return |
| EndToEndProof.AnswerIsNeverBlocked | src/client/q2pc_client.c:159-212 | whenever a client is to answer, its connection can take the answer, if only to drop it after one given up |
| EndToEndProof.EndReadIsNeverBlocked | src/server/q2pc_server_worker.c:106 | a worker that has scored a message can end its read |
| EndToEndProof.VisitCanSettle | src/transport/q2pc_trans_rudp.c:209-251 | inside a visit whose number is recorded the coordinator can retransmit, and end the visit if the number has moved |
| EndToEndProof.ClientCanSettle | src/client/q2pc_client.c:191-211 | a client in end_write can end it if its number has moved, and otherwise retransmit or, with the last retransmission, give up |
| EndToEndProof.WorkerCanRead | src/server/q2pc_server_worker.c:68-90 | a polling worker takes any datagram that reaches one of its connections, as a new message or as one to drop |
| EndToEndProof.ClientCanHear | src/client/q2pc_client.c:126-135 | a client that waits takes the message it holds |
| EndToEndProof.ClientCanRead | src/client/q2pc_client.c:126-135 | and, holding none, reads any datagram that reaches it |
| EndToEndTheorems.EndToEndAgreement | src/client/q2pc_client.c:251-281 | over the faulty network no two clients act on different decisions of a round, and a commit means all voted yes |
| EndToEndTheorems.EndToEndDecisions | src/client/q2pc_client.c:223-248 | the decision law for what clients act on, over the faulty network |
| EndToEndTheorems.EndToEndNoViolation | src/client/q2pc_client.c:227-277 | clients never meet an unexpected message, whatever the network does |
| EndToEndTheorems.EndToEndSynchronises | src/server/q2pc_server.c:502-543 | a completed round leaves every client and both histories of its connection synchronised |
| EndToEndTheorems.EndToEndWaitIsExact | src/server/q2pc_server.c:396-416 | without timeouts a wait over the faulty network ends only when every slot holds this phase's answer |
| EndToEndWitness.Exchanges | src/server/q2pc_server.c:351-368 | one visit of send_request to a connection can run through delivery, answer, score, count and acknowledgement |
| EndToEndWitness.PhaseRuns | src/server/q2pc_server.c:421-543 | for any number of clients and threads a whole phase can run, to phase 2 or to the end of the round |
| EndToEndWitness.EveryRoundIsReached | src/server/q2pc_server.c:563-591 | for any number of clients and threads and every r, some run completes round r with all clients having acted on all decisions |
| EndToEndGiveUp.LostAnswerStallsRound | src/server/q2pc_server.c:342-377 | if the number has moved when it is recorded, or the client is not answerable, the main thread stays in this broadcast of this round in every continuation, until stop signal or termination |
| EndToEndGiveUp.GivingUpIsReached | src/client/q2pc_client.c:191-211 | for any number of clients and threads some run has a client give up on a vote that arrived and answer the decision into the void, and from there the round never ends |
| EndToEndTheorems.MessageNamesItsSlot | src/server/q2pc_server_worker.c:92-98 | the id in a received message is in range and selects the slot of the connection it came from |
| Framing.RunConserves | src/transport/q2pc_trans_tcp.c:86-227 | for any delimiter, chunking and calls: delivered messages followed by undelivered bytes are the bytes received |
| Framing.RunStaysGreedy | src/transport/q2pc_trans_tcp.c:86-227 | the delivered messages are the first ones of the greedy parse of everything received |
| Framing.ChunkingIsIrrelevant | src/transport/q2pc_trans_tcp.c:86-227 | two runs that received the same bytes and hold no complete message have delivered the same |
| Framing.GreedyIffStable | src/transport/q2pc_trans_tcp.c:86-227 | delivery is the greedy parse under every chunking if and only if the delimiter is stable |
| Framing.BeginMeans | src/transport/q2pc_trans_tcp.c:86-150 | code and message of a beg_delimit call follow from the undelivered bytes, the read and the delimiter alone |
| Framing.HandedAreFrames | src/transport/q2pc_trans_tcp.c:86-227 | over every run, the messages that successful calls hand over are the first ones of the greedy parse, in order and once each, and each is the next one released |
| FixedFrames.DelimitIsStable | src/server/q2pc_server.c:263-272 | the server's delimiter is bounded and stable |
| FixedFrames.ParseOfFrames | src/server/q2pc_server.c:263-272 | parsing undoes the concatenation of frames |
| FixedFrames.SendFrames | src/transport/q2pc_trans_tcp.c:233-271 | frame after frame through the one write buffer, the calls of end_write put each on the wire before the next is begun, until one fails or does not fit |
| FixedFrames.RoundTrip | src/transport/q2pc_trans_tcp.c:86-271 | frames sent by such calls, through partial writes, and received through arbitrary reads come out as the same frames in order |
| TcpConnection.TcpConn.constructor | src/transport/q2pc_trans_tcp.c:305-332 | a new connection holds no bytes and no found message |
| TcpConnection.TcpConn.BeginRead | src/transport/q2pc_trans_tcp.c:47-77 | one socket read puts its bytes into the read buffer, unless bytes still wait there |
| TcpConnection.TcpConn.MakeRoom | src/transport/q2pc_trans_tcp.c:121-125 | the growth loop ends, keeps the bytes and makes enough room |
| TcpConnection.TcpConn.Append | src/transport/q2pc_trans_tcp.c:133-135 | the copy is in bounds and puts the new bytes behind the old ones |
| TcpConnection.TcpConn.BeginDelimit | src/transport/q2pc_trans_tcp.c:86-150 | success exactly if a complete message is at the front of the undelivered bytes, including those just read, and the range handed over is that message; end of stream exactly if none was there and the stream has ended; "again" exactly if none was there and nothing, or not enough, arrived; the buffer is never reallocated while a found message points into it |
| TcpConnection.TcpConn.LookAhead | src/transport/q2pc_trans_tcp.c:185-198 | the optimistic look, with or without the move to the front, keeps the remaining bytes |
| TcpConnection.TcpConn.EndDelimit | src/transport/q2pc_trans_tcp.c:161-227 | the message is dropped, the rest kept, and the next message found if it is complete; the second case is unreachable |
| TcpConnection.TcpConn.FinishWrite | src/transport/q2pc_trans_tcp.c:240-271 | for every way the socket takes the bytes, a prefix of the message is on the wire, all of it exactly on success; the call ends with the first write that fails or takes the last byte |
| TcpConnection.DecidedOnce | src/transport/q2pc_trans_tcp.c:250-269 | what the socket does decides alone how the call ends and how much is on the wire |
| Partition.Assign | src/server/q2pc_server.c:217-259 | every started thread gets the share that its index and the block size give, although the first upper end is not clipped |
| Partition.SharesPartition | src/server/q2pc_server.c:217-259 | the shares are ordered, gapless, disjoint, in bounds and cover every connection |
| Partition.SharesAreSmall | src/server/q2pc_server.c:217-218 | no thread reads more connections than the clients divided by the threads, rounded up |
| Partition.IdleThread | src/server/q2pc_server.c:256-258 | a thread gets no connection exactly when the blocks before it cover all clients |
| Partition.StatisticsShare | src/server/q2pc_server.c:252 | a thread's share of the statistics entries is empty exactly when there are fewer entries than threads |
| Partition.OneReader | src/server/q2pc_server_worker.c:68-69 | the protocol machine's one worker per connection is what the shares provide |
| SendLog.EntryTells | src/server/q2pc_server.c:345-367 | the overloaded counter is negative exactly on the connections acknowledged, once each, and otherwise counts retransmissions up to the limit |
| SendLog.NegativesAreCommitted | src/server/q2pc_server.c:339-368 | commited is the number of negative entries |
| SendLog.AllAcknowledgedOnce | src/server/q2pc_server.c:342-368 | when the loop is done every connection was acknowledged exactly once |
| SendLog.SilentAfterSuccess | src/server/q2pc_server.c:345-349 | a connection is not written to again after its success |
| SendLog.PassIsEven | src/server/q2pc_server.c:343-353 | a whole pass gives every connection that is still open exactly one more call |
| SendLog.AckIsAhead | src/server/q2pc_server.c:353-375 | a connection that acknowledges at its call number k has at most k calls before, and none of them ends the server |
| SendLog.EagerAcks | src/server/q2pc_server.c:366-369 | connections that succeed at their first call are in time for what is promised to such broadcasts |
| SendLog.RetransmissionsAreBounded | src/server/q2pc_server.c:355-362 | one broadcast adds at most the limit per connection to the total |
| Coordinator.Server.HandleResult | src/server/q2pc_server.c:354-375 | each answer changes the books as it should; only a finished stream or the exceeded limit terminates |
| Coordinator.Server.Pass | src/server/q2pc_server.c:343-376 | one pass makes exactly one end_write call on every connection that was open before it, in increasing order, and none on the others; it stops early only for the stop flag or at a call that ends the server |
| Coordinator.Server.SendRequest | src/server/q2pc_server.c:311-378 | the books are right on every exit, every message is this broadcast's, a stop flag seen before lets nothing out, and a return without it means all were acknowledged; only a finished stream or one timeout too many terminates; and if every connection acknowledges and the flag stays down long enough, it returns with all acknowledged |
| SendSteps.CallsAreSteps | src/server/q2pc_server.c:338-377 | every such sequence of calls is a run of the protocol machine, which leaves its loop at the same point |
| Coordinator.Server.WaitForVotes | src/server/q2pc_server.c:385-418 | the wait ends at the first poll whose counters add up to the number of clients, and exactly if there is one or there is a timeout |
| Coordinator.Server.ScanBoard | src/server/q2pc_server.c:441-463 | the scan concludes from a prefix of the slots, from all of them unless the stop flag is seen |
| Scoreboard.Phase1Verdict | src/server/q2pc_server.c:441-463 | phase 1 succeeds exactly on a board of yes votes, and terminates exactly on an unexpected slot |
| Scoreboard.LastDissentDecides | src/server/q2pc_server.c:448-456 | the last slot that is not a yes decides between no and lost |
| Scoreboard.OrderOfDissentMatters | src/server/q2pc_server.c:448-456 | the same two slots in the two orders give different results |
| Scoreboard.Phase2Verdict | src/server/q2pc_server.c:505-520 | phase 2 succeeds exactly on a board of acknowledgements |
| ScanSteps.ScanIsSteps | src/server/q2pc_server.c:441-463 | slot by slot the scan is the machine's: the same conclusion from the same slots while the stop flag is down, and none is looked at when it is up |
| Coordinator.Server.DoPhase1 | src/server/q2pc_server.c:421-472 | the status is the scan's conclusion from the scoreboard that the workers' messages leave after the reset, over all slots and after a complete broadcast unless the stop flag was seen; the process dies only of a connection or of an unexpected vote, hangs exactly if the wait does not end, and otherwise, with the flag down long enough, ends as the clients' last messages say |
| Coordinator.Server.DoPhase2 | src/server/q2pc_server.c:475-543 | a failed cluster is told nothing; otherwise the decision follows the status and success means only acknowledgements were read; the process dies only of a status phase 1 never has or of a connection, hangs exactly if the wait does not end, and otherwise, with the flag down long enough, acknowledges the decision on every connection and ends as decided |
| Coordinator.Server.Round | src/server/q2pc_server.c:579-590 | a commit goes out only if every client's last message of phase 1 was a yes; successful rounds without stop flag have all clients' votes and acknowledgements as their last messages; retransmissions are bounded; and if all connections acknowledge in time, votes that are all yes end in commit success, and votes with a no in a cancelled round |
| Worker.BoardShowsLatest | src/server/q2pc_server_worker.c:98 | a client's slot shows its latest message |
| Worker.SlotSays | src/server/q2pc_server.c:427-430 | after a reset a slot shows a message exactly if that is its client's last one |
| Worker.HandledTells | src/server/q2pc_server_worker.c:68-134 | a pass scores, in order, every message from a known client up to the cut and nothing else; the cut is the end of the pass, a finished stream, or full statistics |
| Worker.HandledAreKnown | src/server/q2pc_server_worker.c:92-134 | only messages from known clients are scored, never more than there is memory for statistics |
| Worker.WorkerThread.HandleMessage | src/server/q2pc_server_worker.c:98-134 | one message changes one slot, adds one to the thread's counter and one statistics entry, and raises the stop flag when they are full |
| Worker.WorkerThread.PausedTurn | src/server/q2pc_server_worker.c:61-65 | a paused worker clears its own counter only |
| Worker.WorkerThread.Pass | src/server/q2pc_server_worker.c:68-138 | one pass moves scoreboard, counter and index by exactly its messages and stops for a finished stream or full statistics |
| Worker.MessageIsSteps | src/server/q2pc_server_worker.c:72-110 | handling a message is the protocol machine's sequence of worker steps, possible for the connection's owner only |
| Worker.PauseIsSteps | src/server/q2pc_server_worker.c:61-65 | a paused turn is the machine's two steps and clears the thread's own counter |
| ClientLoop.SettlesOnce | src/client/q2pc_client.c:191-211 | the answers of end_write alone decide how a response ends |
| ClientLoop.SettlesMeans | src/client/q2pc_client.c:191-211 | a response is acknowledged exactly if end_write succeeds before the limit, given up exactly if the limit comes first, cut off exactly if the stream ends before both, and pending otherwise |
| ClientLoop.LimitGivesUp | src/client/q2pc_client.c:191 | nothing but timeouts, as many as the limit, make a client give up |
| ClientLoop.ClientProcess.GetMessage | src/client/q2pc_client.c:108-156 | polling returns the answer before which everything was empty, and nothing only if all answers are |
| ClientLoop.ClientProcess.SendResponse | src/client/q2pc_client.c:159-212 | the response echoes timestamp and counters, and ends at the first success or failure or at the retransmission limit |
| ClientLoop.ClientProcess.DoPhase1 | src/client/q2pc_client.c:215-249 | the phase is the machine's hear, vote and written, it returns exactly if the response was acknowledged or given up, and tells which, dies exactly if the stream ends before and hangs otherwise; any other message ends the process with nothing sent |
| ClientLoop.ClientProcess.DoPhase2 | src/client/q2pc_client.c:251-281 | the phase is the machine's hear, acknowledge and written, it returns exactly if the response was acknowledged or given up, and tells which, dies exactly if the stream ends before and hangs otherwise; any other message ends the process with nothing sent |

## Left out

- Sockets, connecting, accepting, `errno` handling, and the plain UDP and Q-Jump transports: UDP is a bag of datagrams, TCP reads and writes are arbitrary chunk sizes.
- The broadcast branch of `send_request` for Q-Jump: its reliability rests on the network, and it does not look at the stop flag.
- Option parsing, logging, the transport factory, the connection array and vector templates, throughput reports and the statistics file: no property of their own.
- Wall-clock time: timeouts and retransmission timers are free choices in the transition systems and arguments of the calls.
- Signal handlers, `cleanup`, thread creation and joining, allocation failure and freeing: `term` is a terminal state that may be entered at any time.
- Host ids out of range in the protocol machine (each client has its own id, one per connection; `Worker.WorkerThread.Pass` does model the bounds check, but not that such a message stays unread in its connection), and base-transport errors other than "try again" and "finished".
- Overflow of the 16-bit retransmission counters, of sequence numbers and of the vote count, and the checks that a buffer holds `msg_size` bytes: numbers are unbounded and buffers large enough.
- Weak memory: shared accesses are sequentially consistent single steps.
- In the protocol machine a coordinator that gives up after its retransmission limit is one that terminates, which it may do at any time.
- A transport user that begins a write after one given up, or never sent, without having read a message in between: the client program never does (`EndToEndProof.AnswerIsNeverBlocked`), and two messages would then share a number.
- The order in which the main thread visits connections and a worker polls its own is free in the protocol machine; the fixed order of the loops is in `Coordinator` and `Worker`.
- The protocol machine starts when all clients have connected; `do_connectall` is represented by `EndToEndProof.ConnectingSucceeds` only.
- Worker.WorkerThread.constructor: requires room for at least one statistics entry. The server hands every thread a share that is empty exactly when there are fewer entries than threads (`Partition.StatisticsShare`); what the first message then does to memory is not modelled.
- Liveness of whole runs: progress is proved per connection and for the end of a wait, not that rounds keep completing, nor that the programs of an answerable client and its worker take the steps that acknowledge a write.
- Coordinator.Server.DoPhase1: takes the messages scored during the phase as an argument; that they are this phase's answers is proved for the protocol machine, where the workers run in parallel.
- Coordinator.Server.DoPhase2: takes the messages scored during the phase as an argument, as above.
- Coordinator.Server.Round: takes the messages scored during its two phases as arguments, as above.
