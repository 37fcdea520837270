/** Transmit accounting: completions credit the slots while monitor passes read each
    occupied slot's counter and take off, in a second step, what they read. Reading and
    subtracting are separate steps, so completions and link commands can come between; and
    two passes can be under way at once, one run by the monitor timer and one by the host's
    completion callback. */
module TxMonitor {
  import opened Words
  import opened BapContext
  import opened LinkTables

  /** The slot array after a completion of a packet tagged with `tag`. */
  function Credit(links: seq<LogLink>, tag: u32): (r: seq<LogLink>)
    ensures |r| == |links|
  {
    var link := tag % 16;
    if ValidLogLink(link) && link < |links|
    then links[link := links[link].(txCompleted := (links[link].txCompleted + 1) % U32_MODULUS)]
    else links
  }

  /** A completion raises the counter of the slot its tag names in four bits, unless that is
      slot 0, and changes nothing else. */
  lemma CreditOnly(links: seq<LogLink>, tag: u32, l: nat)
    requires |links| == MAX_LOG_LINKS && l < MAX_LOG_LINKS
    ensures Credit(links, tag)[l] ==
            if l == tag % 16 && l != 0
            then links[l].(txCompleted := (links[l].txCompleted + 1) % U32_MODULUS)
            else links[l]
  {
  }

  /** vos_atomic_decrement_U32_by_value on one slot's counter. */
  function Subtract(links: seq<LogLink>, i: nat, n: u32): (r: seq<LogLink>)
    requires i < |links|
    ensures |r| == |links|
  {
    links[i := links[i].(txCompleted := (links[i].txCompleted - n) % U32_MODULUS)]
  }

  /** One line of the event: a slot, its handle and the count read from it. */
  datatype Entry = Entry(link: nat, handle: u16, count: u32)

  /** Where a monitor pass stands: about to look at a slot, or holding what it read there. */
  datatype Pass =
    | Idle
    | Reading(slot: nat, done: seq<Entry>)
    | Holding(slot: nat, held: Option<Entry>, done: seq<Entry>)

  predicate ValidPass(p: Pass) {
    && (p.Reading? ==> p.slot <= MAX_LOG_LINKS)
    && (p.Holding? ==> p.slot < MAX_LOG_LINKS)
    && (p.Holding? && p.held.Some? ==> p.held.value.link == p.slot)
  }

  /** Who runs the monitor handler. */
  datatype Caller = Timer | Callback

  function Other(who: Caller): Caller {
    if who == Timer then Callback else Timer
  }

  datatype Monitor = Monitor(table: LinkTable, timer: Pass, callback: Pass, reports: seq<seq<Entry>>) {
    predicate Valid() {
      table.Valid() && ValidPass(timer) && ValidPass(callback)
    }

    function PassOf(who: Caller): Pass {
      if who == Timer then timer else callback
    }

    function With(who: Caller, p: Pass): Monitor {
      if who == Timer then this.(timer := p) else this.(callback := p)
    }
  }

  /** The guard of the event looks at the last count only. */
  predicate Reported(done: seq<Entry>) {
    |done| > 0 && done[|done| - 1].count != 0
  }

  function AdvancePass(m: Monitor, who: Caller): (r: Monitor)
    requires m.Valid()
    ensures r.Valid()
  {
    match m.PassOf(who)
    case Idle => m
    case Reading(i, done) =>
      if i < MAX_LOG_LINKS then
        var l := m.table.links[i];
        m.With(who, Holding(i, if l.present then Some(Entry(i, l.handle, l.txCompleted)) else None, done))
      else
        m.With(who, Idle).(reports := if Reported(done) then m.reports + [done] else m.reports)
    case Holding(i, held, done) =>
      match held
      case None => m.With(who, Reading(i + 1, done))
      case Some(e) =>
        m.With(who, Reading(i + 1, done + [e])).(
          table := m.table.(links := Subtract(m.table.links, i, e.count)))
  }

  datatype MonAction =
    | Complete(tag: u32)
    | StartPass(who: Caller)
    | Advance(who: Caller)
    | Create(phy: u8, flowSpec: seq<u8>)
    | Disconnect(handle: u16)
    | DropAll
    | NewPhysLink

  /** Each caller runs one pass at a time; a start during its own pass does nothing. */
  function MonStep(m: Monitor, a: MonAction, parse: FlowSpecParser): (r: Monitor)
    requires m.Valid()
    ensures r.Valid()
  {
    match a
    case Complete(tag) => m.(table := m.table.(links := Credit(m.table.links, tag)))
    case StartPass(who) => if m.PassOf(who).Idle? then m.With(who, Reading(0, [])) else m
    case Advance(who) => AdvancePass(m, who)
    case Create(phy, flowSpec) => m.(table := Allocate(m.table, phy, flowSpec, parse))
    case Disconnect(handle) => m.(table := Release(m.table, handle))
    case DropAll => m.(table := ReleaseAll(m.table))
    case NewPhysLink => m.(table := ResetCounters(m.table))
  }

  function MonRun(m: Monitor, run: seq<MonAction>, parse: FlowSpecParser): (r: Monitor)
    requires m.Valid()
    ensures r.Valid()
  {
    if run == [] then m
    else MonStep(MonRun(m, run[..|run| - 1], parse), run[|run| - 1], parse)
  }

  // ----- no underflow

  /** What a pass has read from slot i and not yet taken off. */
  function HeldOn(p: Pass, i: nat): nat {
    if p.Holding? && p.held.Some? && p.slot == i then p.held.value.count else 0
  }

  function HeldSum(m: Monitor, i: nat): nat {
    HeldOn(m.timer, i) + HeldOn(m.callback, i)
  }

  predicate SlotCovered(m: Monitor, i: nat)
    requires m.Valid() && i < MAX_LOG_LINKS
  {
    m.table.links[i].txCompleted >= HeldSum(m, i)
  }

  /** Every counter is at least the sum of the snapshots read from it and not yet taken off. */
  predicate HeldCovered(m: Monitor)
    requires m.Valid()
  {
    forall i: nat :: i < MAX_LOG_LINKS ==> SlotCovered(m, i)
  }

  /** The link command zeroes slot i: it opens a link there, or disconnects the one there. */
  predicate Zeroes(t: LinkTable, a: MonAction, i: nat, parse: FlowSpecParser)
    requires t.Valid()
  {
    || (a.Create? && parse(a.flowSpec).Some? && NextIndex(t) == i)
    || (a.Disconnect? && Releasable(t, a.handle) && a.handle / 256 == i)
  }

  /** The completion carries slot i's counter past 2^32. */
  predicate Wraps(t: LinkTable, a: MonAction, i: nat)
    requires t.Valid() && i < MAX_LOG_LINKS
  {
    a.Complete? && a.tag % 16 == i && ValidLogLink(i) &&
    t.links[i].txCompleted == U32_MODULUS - 1
  }

  /** The step is a pass's read of slot i. */
  predicate Reads(m: Monitor, a: MonAction, i: nat)
    requires m.Valid() && i < MAX_LOG_LINKS
  {
    a.Advance? && m.PassOf(a.who).Reading? && m.PassOf(a.who).slot == i && m.table.links[i].present
  }

  /** The ways to uncover a snapshot: to zero or wrap the slot it is held on, or to read a
      nonzero counter while the other pass holds a nonzero snapshot of the slot. */
  predicate UncoversSlot(m: Monitor, a: MonAction, i: nat, parse: FlowSpecParser)
    requires m.Valid() && i < MAX_LOG_LINKS
  {
    || (HeldSum(m, i) > 0 && (Zeroes(m.table, a, i, parse) || Wraps(m.table, a, i)))
    || (Reads(m, a, i) && m.table.links[i].txCompleted > 0 && HeldOn(m.PassOf(Other(a.who)), i) > 0)
  }

  predicate Uncovers(m: Monitor, a: MonAction, parse: FlowSpecParser)
    requires m.Valid()
  {
    exists i: nat :: i < MAX_LOG_LINKS && UncoversSlot(m, a, i, parse)
  }

  lemma {:induction false} AdvanceOnSlot(m: Monitor, who: Caller, i: nat, parse: FlowSpecParser)
    requires m.Valid() && i < MAX_LOG_LINKS && SlotCovered(m, i)
    ensures SlotCovered(AdvancePass(m, who), i) <==> !UncoversSlot(m, Advance(who), i, parse)
  {
    hide Allocate, Release, ReleaseAll, Credit;
  }

  lemma {:induction false} CommandOnSlot(m: Monitor, a: MonAction, i: nat, parse: FlowSpecParser)
    requires m.Valid() && i < MAX_LOG_LINKS && SlotCovered(m, i) && !a.Advance?
    ensures SlotCovered(MonStep(m, a, parse), i) <==> !UncoversSlot(m, a, i, parse)
  {
    hide AdvancePass;
  }

  lemma {:induction false} SlotStaysCovered(m: Monitor, a: MonAction, i: nat, parse: FlowSpecParser)
    requires m.Valid() && i < MAX_LOG_LINKS && SlotCovered(m, i)
    ensures SlotCovered(MonStep(m, a, parse), i) <==> !UncoversSlot(m, a, i, parse)
  {
    hide AdvancePass, UncoversSlot, SlotCovered;
    if a.Advance? {
      AdvanceOnSlot(m, a.who, i, parse);
    } else {
      CommandOnSlot(m, a, i, parse);
    }
  }

  /** A step keeps every counter above the snapshots held on it exactly when it does not
      uncover one. */
  lemma {:induction false} HeldStaysCovered(m: Monitor, a: MonAction, parse: FlowSpecParser)
    requires m.Valid() && HeldCovered(m)
    ensures HeldCovered(MonStep(m, a, parse)) <==> !Uncovers(m, a, parse)
  {
    hide MonStep, UncoversSlot;
    forall i: nat | i < MAX_LOG_LINKS
      ensures SlotCovered(MonStep(m, a, parse), i) <==> !UncoversSlot(m, a, i, parse)
    {
      assert SlotCovered(m, i);
      SlotStaysCovered(m, a, i, parse);
    }
  }

  predicate CoveringRun(m: Monitor, run: seq<MonAction>, parse: FlowSpecParser)
    requires m.Valid()
  {
    run == [] ||
    (CoveringRun(m, run[..|run| - 1], parse) &&
     !Uncovers(MonRun(m, run[..|run| - 1], parse), run[|run| - 1], parse))
  }

  predicate CoveredThroughout(m: Monitor, run: seq<MonAction>, parse: FlowSpecParser)
    requires m.Valid()
  {
    HeldCovered(MonRun(m, run, parse)) &&
    (run == [] || CoveredThroughout(m, run[..|run| - 1], parse))
  }

  /** No underflow: over every interleaving of completions, link commands and two passes, no
      counter ever falls below the sum of the snapshots held on it if and only if no step
      zeroes or wraps a slot a nonzero snapshot is held on, and none reads a nonzero counter
      while the other pass holds a nonzero snapshot of that slot. */
  lemma {:induction false} NoUnderflow(m: Monitor, run: seq<MonAction>, parse: FlowSpecParser)
    requires m.Valid() && HeldCovered(m)
    ensures CoveredThroughout(m, run, parse) <==> CoveringRun(m, run, parse)
  {
    hide MonStep, Uncovers, HeldCovered;
    if run != [] {
      NoUnderflow(m, run[..|run| - 1], parse);
      if CoveredThroughout(m, run[..|run| - 1], parse) {
        CoveredNow(m, run[..|run| - 1], parse);
        HeldStaysCovered(MonRun(m, run[..|run| - 1], parse), run[|run| - 1], parse);
      }
    }
  }

  lemma CoveredNow(m: Monitor, run: seq<MonAction>, parse: FlowSpecParser)
    requires m.Valid() && CoveredThroughout(m, run, parse)
    ensures HeldCovered(MonRun(m, run, parse))
  {
  }

  lemma SubtractionStep(m: Monitor, who: Caller, parse: FlowSpecParser)
    requires m.Valid() && m.PassOf(who).Holding? && m.PassOf(who).held.Some?
    ensures var i, after := m.PassOf(who).slot, MonStep(m, Advance(who), parse);
            && after.table.links[i].txCompleted ==
                 (m.table.links[i].txCompleted - m.PassOf(who).held.value.count) % U32_MODULUS
            && after.PassOf(Other(who)) == m.PassOf(Other(who))
  {
  }

  /** Where the snapshots are covered, a subtraction is exact. */
  lemma CoveredSubtraction(m: Monitor, who: Caller)
    requires m.Valid() && HeldCovered(m) && m.PassOf(who).Holding? && m.PassOf(who).held.Some?
    ensures var i, e := m.PassOf(who).slot, m.PassOf(who).held.value;
            AdvancePass(m, who).table.links[i].txCompleted == m.table.links[i].txCompleted - e.count
  {
    assert SlotCovered(m, m.PassOf(who).slot);
  }

  /** What happens otherwise: a link disconnected between the read and the subtraction keeps
      the two's complement of what was read, and the next link in that slot is spared only
      because opening it zeroes the counter. */
  lemma DisconnectDuringPassUnderflows(m: Monitor, who: Caller, handle: u16, parse: FlowSpecParser)
    requires m.Valid() && m.PassOf(who).Holding? && m.PassOf(who).held.Some?
    requires m.PassOf(who).held.value.count > 0
    requires Releasable(m.table, handle) && handle / 256 == m.PassOf(who).slot
    ensures var after := MonStep(MonStep(m, Disconnect(handle), parse), Advance(who), parse);
            after.table.links[m.PassOf(who).slot].txCompleted ==
              U32_MODULUS - m.PassOf(who).held.value.count
  {
  }

  /** Two passes hold one slot: whichever subtracts first, the counter ends at what was there
      less both snapshots, and does so without underflow exactly when it covered their sum.
      After reads of c and, d completions later, of c + d, that takes c completions more. */
  lemma OverlappingPasses(m: Monitor, first: Caller, i: nat, parse: FlowSpecParser)
    requires m.Valid() && i < MAX_LOG_LINKS
    requires m.timer.Holding? && m.timer.held.Some? && m.timer.slot == i
    requires m.callback.Holding? && m.callback.held.Some? && m.callback.slot == i
    ensures var tx := m.table.links[i].txCompleted;
            var once := MonStep(m, Advance(first), parse);
            var after := MonStep(once, Advance(Other(first)), parse).table.links[i].txCompleted;
            && (after == tx - HeldSum(m, i) <==> SlotCovered(m, i))
            && after == (tx - HeldSum(m, i)) % U32_MODULUS
  {
    hide MonStep;
    SubtractionStep(m, first, parse);
    SubtractionStep(MonStep(m, Advance(first), parse), Other(first), parse);
    SubtractTwice(m.table.links[i].txCompleted, HeldOn(m.PassOf(first), i), HeldOn(m.PassOf(Other(first)), i));
  }

  lemma SubtractTwice(tx: int, x: int, y: int)
    ensures ((tx - x) % U32_MODULUS - y) % U32_MODULUS == (tx - (x + y)) % U32_MODULUS
  {
    var q := (tx - x) / U32_MODULUS;
    assert (tx - x) % U32_MODULUS - y == (tx - (x + y)) + (-q) * U32_MODULUS;
    Shift(tx - (x + y), -q);
  }

  // ----- completions after the read

  /** Completions in the run that are counted on slot i. */
  function CreditsTo(run: seq<MonAction>, i: nat): nat {
    if run == [] then 0
    else
      var a := run[|run| - 1];
      CreditsTo(run[..|run| - 1], i) +
        (if a.Complete? && a.tag % 16 == i && ValidLogLink(i) then 1 else 0)
  }

  /** The step takes slot i's counter down: it zeroes it, or is a pass's subtraction. */
  predicate Lowers(m: Monitor, a: MonAction, i: nat, parse: FlowSpecParser)
    requires m.Valid()
  {
    || Zeroes(m.table, a, i, parse)
    || (a.Advance? && HeldOn(m.PassOf(a.who), i) > 0)
  }

  /** The pass of `who` stands still and nobody takes slot i's counter down. */
  predicate Waits(m: Monitor, run: seq<MonAction>, who: Caller, i: nat, parse: FlowSpecParser)
    requires m.Valid()
  {
    run == [] ||
    (Waits(m, run[..|run| - 1], who, i, parse) && run[|run| - 1] != Advance(who) &&
     !Lowers(MonRun(m, run[..|run| - 1], parse), run[|run| - 1], i, parse))
  }

  lemma WaitingStep(m: Monitor, a: MonAction, who: Caller, i: nat, parse: FlowSpecParser)
    requires m.Valid() && m.PassOf(who).Holding? && i < MAX_LOG_LINKS
    requires a != Advance(who) && !Lowers(m, a, i, parse)
    ensures MonStep(m, a, parse).PassOf(who) == m.PassOf(who)
    ensures MonStep(m, a, parse).table.links[i].txCompleted ==
            (m.table.links[i].txCompleted +
             (if a.Complete? && a.tag % 16 == i && ValidLogLink(i) then 1 else 0)) % U32_MODULUS
  {
  }

  lemma {:induction false} WaitingCounter(m: Monitor, run: seq<MonAction>, who: Caller, i: nat,
                                          parse: FlowSpecParser)
    requires m.Valid() && m.PassOf(who).Holding? && i < MAX_LOG_LINKS && Waits(m, run, who, i, parse)
    ensures var now := MonRun(m, run, parse);
            && now.PassOf(who) == m.PassOf(who)
            && now.table.links[i].txCompleted ==
                 (m.table.links[i].txCompleted + CreditsTo(run, i)) % U32_MODULUS
  {
    hide MonStep, Lowers;
    if run != [] {
      var before := run[..|run| - 1];
      WaitingCounter(m, before, who, i, parse);
      WaitingStep(MonRun(m, before, parse), run[|run| - 1], who, i, parse);
      Increment(m.table.links[i].txCompleted + CreditsTo(before, i));
    }
  }

  lemma Increment(x: nat)
    ensures (x % U32_MODULUS + 1) % U32_MODULUS == (x + 1) % U32_MODULUS
  {
  }

  lemma TakeOff(count: u32, more: nat)
    ensures ((count + more) % U32_MODULUS - count) % U32_MODULUS == more % U32_MODULUS
  {
    var q := (count + more) / U32_MODULUS;
    assert (count + more) % U32_MODULUS - count == more - q * U32_MODULUS;
    Shift(more, -q);
  }

  lemma Shift(x: int, k: int)
    ensures (x + k * U32_MODULUS) % U32_MODULUS == x % U32_MODULUS
  {
    var q := x / U32_MODULUS;
    assert x + k * U32_MODULUS == x % U32_MODULUS + (q + k) * U32_MODULUS;
  }

  /** Every completion arriving between the read and the subtraction survives it: right after
      the subtraction the counter is their number, whatever it had been. */
  lemma {:induction false} SurvivingCompletions(m: Monitor, run: seq<MonAction>, who: Caller,
                                                parse: FlowSpecParser)
    requires m.Valid() && m.PassOf(who).Holding? && m.PassOf(who).held.Some?
    requires m.table.links[m.PassOf(who).slot].txCompleted == m.PassOf(who).held.value.count
    requires Waits(m, run, who, m.PassOf(who).slot, parse)
    ensures MonStep(MonRun(m, run, parse), Advance(who), parse).table.links[m.PassOf(who).slot].txCompleted ==
            CreditsTo(run, m.PassOf(who).slot) % U32_MODULUS
  {
    hide MonRun, MonStep, Waits, CreditsTo;
    WaitingCounter(m, run, who, m.PassOf(who).slot, parse);
    SubtractionStep(MonRun(m, run, parse), who, parse);
    TakeOff(m.PassOf(who).held.value.count, CreditsTo(run, m.PassOf(who).slot));
  }
}
