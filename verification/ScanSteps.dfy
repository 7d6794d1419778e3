/** The scan of the scoreboard, slot by slot, is the two-phase commit machine's. */
module ScanSteps {
  import opened Protocol
  import opened TwoPhase
  import opened Scoreboard

  function Slots(c: Core): seq<Kind> { seq(N(c), j requires 0 <= j < N(c) => c.slots[j].board) }

  // The machine's two steps for one slot: look at the loop's guard, and read.
  function AfterSlot(cfg: Config, c: Core): Core {
    if !MainEnabled(cfg, c, CheckScan) then c
    else
      var c1 := MainNext(cfg, c, CheckScan);
      if !MainEnabled(cfg, c1, ReadSlot) then c1 else MainNext(cfg, c1, ReadSlot)
  }

  function AfterSlots(cfg: Config, c: Core, k: nat): Core {
    if k == 0 then c else AfterSlot(cfg, AfterSlots(cfg, c, k - 1))
  }

  // The scan has read k slots and goes on, or has ended the server at an unexpected one.
  predicate HasRead(c0: Core, c: Core, k: nat)
    requires k <= N(c0)
  {
    match Scan(c0.second, Slots(c0)[..k])
    case Some(status) => c == c0.(pc := ScanCheck(k), result := status)
    case None => c.pc == Term
  }

  lemma SlotIsStep(cfg: Config, c0: Core, c: Core, k: nat)
    requires k < N(c0) && HasRead(c0, c, k) && !c0.stop
    ensures HasRead(c0, AfterSlot(cfg, c), k + 1)
  {
    assert Slots(c0)[..k + 1][..k] == Slots(c0)[..k] && Slots(c0)[..k + 1][k] == c0.slots[k].board;
  }

  /** While the stop flag is down the machine's scan concludes what the loop concludes, from as many slots; and it looks
      at no slot once the flag is up. */
  lemma {:induction false} ScanIsSteps(cfg: Config, c0: Core, k: nat)
    requires c0.pc == ScanCheck(0) && c0.result == (if c0.second then CommitSuccess else RequestSuccess)
    requires k <= N(c0)
    ensures !c0.stop ==> HasRead(c0, AfterSlots(cfg, c0, k), k)
    ensures c0.stop && k > 0 ==> AfterSlots(cfg, c0, k) == c0.(pc := ZeroCount(0))
  {
    if k > 0 {
      ScanIsSteps(cfg, c0, k - 1);
      if !c0.stop {
        SlotIsStep(cfg, c0, AfterSlots(cfg, c0, k - 1), k - 1);
      }
    }
  }
}
