/** What every part of the model shares: message kinds, the message record and return codes. */
module Protocol {

  datatype Option<+T> = None | Some(value: T)

  // The message kinds of the wire protocol. `Lost` is never sent: it marks an empty scoreboard slot.
  datatype Kind = Lost | Request | VoteYes | VoteNo | Commit | Cancel | Ack | Connect

  datatype Msg = Msg(kind: Kind, src: int, cRto: nat, sRto: nat, ts: int)

  // Return codes of the connection operations.
  datatype Code = NoError | Again | Fin | RtoFired

  // What beg_read tells an application.
  datatype Got = Empty | Message(msg: Msg) | StreamOver

  // How often the client retransmits one response before it gives up on it.
  const RTOS_MAX: nat := 200_000

  function VoteKind(yes: bool): Kind { if yes then VoteYes else VoteNo }

  function OrderKind(commit: bool): Kind { if commit then Commit else Cancel }
}
