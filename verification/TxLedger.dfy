/** The end-to-end ledger of one logical-link slot: what Tx translation accepted for it
    against what is in flight, counted, reported or forfeited. */
module TxLedger {
  import opened Words
  import opened Vos
  import opened BapContext
  import opened LinkTables
  import opened TxMonitor
  import opened ReportPass
  import opened Translation

  /** The books of slot l, kept beside the monitor. A packet is in flight from its
      translation to its completion. `lost` is the error term: every way in which the driver
      drops or invents a count adds to it. */
  datatype Ledger = Ledger(
    mon: Monitor, accepted: nat, inflight: nat, reported: nat, forfeited: nat, lost: int)

  datatype Action =
    | Transmit(phy: u8, p: VosPkt)       // the host hands a packet to Tx translation
    | Move(a: MonAction)

  /** The counts of slot l in the lines of a pass, and as the event carries them, in sixteen
      bits. */
  function Counts(done: seq<Entry>, l: nat): nat {
    if done == [] then 0
    else
      var e := done[|done| - 1];
      Counts(done[..|done| - 1], l) + (if e.link == l then e.count else 0)
  }

  function WireCounts(done: seq<Entry>, l: nat): (n: nat)
    ensures n <= Counts(done, l)
  {
    if done == [] then 0
    else
      var e := done[|done| - 1];
      WireCounts(done[..|done| - 1], l) + (if e.link == l then e.count % 0x1_0000 else 0)
  }

  /** Taken off the counter by the passes under way, and not yet reported. */
  function PendingIn(p: Pass, l: nat): nat {
    if p.Idle? then 0 else Counts(p.done, l)
  }

  function Pending(m: Monitor, l: nat): nat {
    PendingIn(m.timer, l) + PendingIn(m.callback, l)
  }

  predicate Finishes(m: Monitor, a: MonAction) {
    a.Advance? && m.PassOf(a.who).Reading? && m.PassOf(a.who).slot == MAX_LOG_LINKS
  }

  function ReportedBy(m: Monitor, a: MonAction, l: nat): nat {
    if Finishes(m, a) && Reported(m.PassOf(a.who).done) then WireCounts(m.PassOf(a.who).done, l) else 0
  }

  /** The counter goes when the link is disconnected, or its slot used again. */
  function ForfeitedBy(m: Monitor, a: MonAction, l: nat, parse: FlowSpecParser): nat
    requires m.Valid() && l < MAX_LOG_LINKS
  {
    if Zeroes(m.table, a, l, parse) then m.table.links[l].txCompleted else 0
  }

  /** The step takes off more than slot l's counter holds. */
  predicate Underflows(m: Monitor, a: MonAction, l: nat)
    requires m.Valid() && l < MAX_LOG_LINKS
  {
    a.Advance? && m.table.links[l].txCompleted < HeldOn(m.PassOf(a.who), l)
  }

  function LostBy(m: Monitor, a: MonAction, l: nat): int
    requires m.Valid() && l < MAX_LOG_LINKS
  {
    if Wraps(m.table, a, l) then U32_MODULUS
    else if Underflows(m, a, l) then -U32_MODULUS
    else if Finishes(m, a) then Counts(m.PassOf(a.who).done, l) - ReportedBy(m, a, l)
    else 0
  }

  /** One step. A completion of slot l needs a packet of its in flight. */
  function LedgerStep(s: Ledger, a: Action, l: nat, e: Endpoint, parse: FlowSpecParser): (r: Ledger)
    requires s.mon.Valid() && l < MAX_LOG_LINKS
    ensures r.mon.Valid()
  {
    match a
    case Transmit(phy, p) =>
      var out := XlateTx(e.(links := s.mon.table.links), phy, p);
      if out.status == Success && out.pkt.userData == l
      then s.(accepted := s.accepted + 1, inflight := s.inflight + 1) else s
    case Move(move) =>
      var completes := move.Complete? && move.tag % 16 == l;
      if completes && s.inflight == 0 then s
      else
        Ledger(MonStep(s.mon, move, parse), s.accepted,
               if completes then s.inflight - 1 else s.inflight,
               s.reported + ReportedBy(s.mon, move, l),
               s.forfeited + ForfeitedBy(s.mon, move, l, parse),
               s.lost + LostBy(s.mon, move, l))
  }

  function LedgerRun(s: Ledger, run: seq<Action>, l: nat, e: Endpoint, parse: FlowSpecParser): (r: Ledger)
    requires s.mon.Valid() && l < MAX_LOG_LINKS
    ensures r.mon.Valid()
  {
    if run == [] then s
    else LedgerStep(LedgerRun(s, run[..|run| - 1], l, e, parse), run[|run| - 1], l, e, parse)
  }

  predicate Balances(s: Ledger, l: nat)
    requires s.mon.Valid() && l < MAX_LOG_LINKS
  {
    s.accepted == s.inflight + s.mon.table.links[l].txCompleted + Pending(s.mon, l) +
                  s.reported + s.forfeited + s.lost
  }

  lemma CountsAppend(done: seq<Entry>, e: Entry, l: nat)
    ensures Counts(done + [e], l) == Counts(done, l) + (if e.link == l then e.count else 0)
  {
    assert (done + [e])[..|done|] == done;
  }

  lemma {:induction false} CommandBalances(m: Monitor, a: MonAction, l: nat, parse: FlowSpecParser)
    requires m.Valid() && 0 < l < MAX_LOG_LINKS && !a.Advance?
    ensures var t := MonStep(m, a, parse);
            && Pending(t, l) == Pending(m, l)
            && m.table.links[l].txCompleted + (if a.Complete? && a.tag % 16 == l then 1 else 0)
               == t.table.links[l].txCompleted + ForfeitedBy(m, a, l, parse) + LostBy(m, a, l)
  {
    hide AdvancePass, WireCounts;
  }

  /** One advance, on the pass that makes it. */
  lemma {:induction false} AdvanceBalances(m: Monitor, who: Caller, l: nat)
    requires m.Valid() && 0 < l < MAX_LOG_LINKS
    ensures var a, t := Advance(who), AdvancePass(m, who);
            && t.PassOf(Other(who)) == m.PassOf(Other(who))
            && m.table.links[l].txCompleted + PendingIn(m.PassOf(who), l)
               == t.table.links[l].txCompleted + PendingIn(t.PassOf(who), l) +
                  ReportedBy(m, a, l) + LostBy(m, a, l)
  {
    hide Counts, WireCounts;
    if m.PassOf(who).Holding? && m.PassOf(who).held.Some? {
      SubtractionBalances(m, who, l);
    } else if m.PassOf(who).Reading? && m.PassOf(who).slot < MAX_LOG_LINKS {
      assert PendingIn(AdvancePass(m, who).PassOf(who), l) == PendingIn(m.PassOf(who), l);
    }
  }

  lemma {:induction false} SubtractionBalances(m: Monitor, who: Caller, l: nat)
    requires m.Valid() && 0 < l < MAX_LOG_LINKS
    requires m.PassOf(who).Holding? && m.PassOf(who).held.Some?
    ensures var t := AdvancePass(m, who);
            && t.PassOf(Other(who)) == m.PassOf(Other(who))
            && PendingIn(t.PassOf(who), l) == PendingIn(m.PassOf(who), l) + HeldOn(m.PassOf(who), l)
            && t.table.links[l].txCompleted == m.table.links[l].txCompleted - HeldOn(m.PassOf(who), l) -
                 LostBy(m, Advance(who), l)
  {
    CountsAppend(m.PassOf(who).done, m.PassOf(who).held.value, l);
    hide Counts, WireCounts, Reported;
  }

  /** The counter and the passes after one move, against what the books say went where. */
  lemma {:induction false} MoveBalances(m: Monitor, a: MonAction, l: nat, parse: FlowSpecParser)
    requires m.Valid() && 0 < l < MAX_LOG_LINKS
    ensures var t := MonStep(m, a, parse);
            m.table.links[l].txCompleted + Pending(m, l) +
              (if a.Complete? && a.tag % 16 == l then 1 else 0)
            == t.table.links[l].txCompleted + Pending(t, l) +
               ReportedBy(m, a, l) + ForfeitedBy(m, a, l, parse) + LostBy(m, a, l)
  {
    hide AdvancePass, PendingIn, LostBy, Allocate, Release, ReleaseAll, Credit, WireCounts;
    if a.Advance? {
      AdvanceBalances(m, a.who, l);
    } else {
      CommandBalances(m, a, l, parse);
    }
  }

  lemma {:induction false} LedgerStepBalances(s: Ledger, a: Action, l: nat, e: Endpoint, parse: FlowSpecParser)
    requires s.mon.Valid() && 0 < l < MAX_LOG_LINKS && Balances(s, l)
    ensures Balances(LedgerStep(s, a, l, e, parse), l)
  {
    if a.Move? {
      MoveBalances(s.mon, a.a, l, parse);
    }
  }

  /** The books of a slot close over every run whatsoever, error term included. */
  lemma {:induction false} LedgerBalances(s: Ledger, run: seq<Action>, l: nat, e: Endpoint, parse: FlowSpecParser)
    requires s.mon.Valid() && 0 < l < MAX_LOG_LINKS && Balances(s, l)
    ensures Balances(LedgerRun(s, run, l, e, parse), l)
  {
    if run != [] {
      LedgerBalances(s, run[..|run| - 1], l, e, parse);
      LedgerStepBalances(LedgerRun(s, run[..|run| - 1], l, e, parse), run[|run| - 1], l, e, parse);
    }
  }

  // ----- when a pass loses nothing

  /** The event carries every count of the pass, or there is nothing to carry. */
  predicate Whole(done: seq<Entry>) {
    if Reported(done) then forall e <- done :: e.count < 0x1_0000
    else forall e <- done :: e.count == 0
  }

  lemma {:induction false} CountsAtLeast(done: seq<Entry>, j: nat)
    requires j < |done|
    ensures Counts(done, done[j].link) >= done[j].count
    ensures Counts(done, done[j].link) - WireCounts(done, done[j].link) >=
            done[j].count - done[j].count % 0x1_0000
  {
    if j < |done| - 1 {
      assert done[..|done| - 1][j] == done[j];
      CountsAtLeast(done[..|done| - 1], j);
    }
  }

  lemma {:induction false} SmallCountsFit(done: seq<Entry>, l: nat)
    ensures (forall e <- done :: e.count == 0) ==> Counts(done, l) == 0
    ensures (forall e <- done :: e.count < 0x1_0000) ==> WireCounts(done, l) == Counts(done, l)
  {
    if done != [] {
      var before := done[..|done| - 1];
      assert forall e <- before :: e in done;
      assert done[|done| - 1] in done;
      SmallCountsFit(before, l);
    }
  }

  /** The last step of a pass loses nothing, for any slot, exactly when the event goes out
      with every count below 2^16, or does not go out and every count is zero. */
  lemma LastStepLosesNothing(m: Monitor, who: Caller)
    requires m.Valid() && Finishes(m, Advance(who))
    requires forall e <- m.PassOf(who).done :: e.link < MAX_LOG_LINKS
    ensures (forall l: nat :: l < MAX_LOG_LINKS ==> LostBy(m, Advance(who), l) == 0)
            <==> Whole(m.PassOf(who).done)
  {
    var done := m.PassOf(who).done;
    if Whole(done) {
      forall l: nat | l < MAX_LOG_LINKS ensures LostBy(m, Advance(who), l) == 0 {
        SmallCountsFit(done, l);
      }
    } else {
      var j :| 0 <= j < |done| && done[j].count != 0 && (Reported(done) ==> done[j].count >= 0x1_0000);
      CountsAtLeast(done, j);
      assert done[j] in done;
      assert LostBy(m, Advance(who), done[j].link) > 0;
    }
  }

  // ----- the same, said of the slots before the pass

  /** What a pass takes off slot l. */
  function ReadFrom(links: seq<LogLink>, arr: Arrivals, l: nat): nat
    requires l < |links|
  {
    if links[l].present then Snapshot(links, arr, l) else 0
  }

  /** What the event of the pass tells of slot l; nothing if there is no event. */
  function ToldOf(links: seq<LogLink>, arr: Arrivals, l: nat): nat
    requires |links| == MAX_LOG_LINKS
  {
    var lines := Lines(links, arr, MAX_LOG_LINKS);
    if Reported(lines) then WireCounts(lines, l) else 0
  }

  /** The highest occupied slot reads nonzero and every read fits the event, or every read is
      zero. */
  ghost predicate TopSpeaksForAll(links: seq<LogLink>, arr: Arrivals) {
    || (exists top :: Highest(links, top, |links|) && Snapshot(links, arr, top) != 0 &&
          forall i :: 0 <= i < |links| && links[i].present ==> Snapshot(links, arr, i) < 0x1_0000)
    || (forall i :: 0 <= i < |links| && links[i].present ==> Snapshot(links, arr, i) == 0)
  }

  lemma {:induction false} CountsOfLines(links: seq<LogLink>, arr: Arrivals, n: nat, l: nat)
    requires n <= |links| && l < |links|
    ensures Counts(Lines(links, arr, n), l) == (if l < n then ReadFrom(links, arr, l) else 0)
    ensures WireCounts(Lines(links, arr, n), l) == (if l < n then ReadFrom(links, arr, l) % 0x1_0000 else 0)
  {
    if n > 0 {
      CountsOfLines(links, arr, n - 1, l);
      var before := Lines(links, arr, n - 1);
      if links[n - 1].present {
        assert Lines(links, arr, n)[..|before|] == before;
      }
    }
  }

  lemma {:induction false} HighestExists(links: seq<LogLink>, i: nat, n: nat) returns (top: nat)
    requires i < n <= |links| && links[i].present
    ensures Highest(links, top, n)
  {
    if links[n - 1].present {
      top := n - 1;
    } else {
      top := HighestExists(links, i, n - 1);
    }
  }

  lemma ToldIsRead(links: seq<LogLink>, arr: Arrivals, l: nat)
    requires |links| == MAX_LOG_LINKS && l < MAX_LOG_LINKS
    ensures ToldOf(links, arr, l) == ReadFrom(links, arr, l) <==>
            (if Reported(Lines(links, arr, MAX_LOG_LINKS)) then ReadFrom(links, arr, l) < 0x1_0000
             else ReadFrom(links, arr, l) == 0)
  {
    CountsOfLines(links, arr, MAX_LOG_LINKS, l);
  }

  /** When a pass loses nothing, said of the slots before it and the completions to come: what
      the event tells of each slot is what was taken off it if and only if the highest
      occupied slot reads nonzero and every occupied slot reads below 2^16, or every occupied
      slot reads zero. */
  lemma {:induction false} PassLosesNothingExactly(links: seq<LogLink>, arr: Arrivals)
    requires |links| == MAX_LOG_LINKS
    ensures (forall l :: 0 <= l < MAX_LOG_LINKS ==> ToldOf(links, arr, l) == ReadFrom(links, arr, l))
            <==> TopSpeaksForAll(links, arr)
  {
    hide ToldOf, Lines, Snapshot;
    forall l | 0 <= l < MAX_LOG_LINKS
      ensures ToldOf(links, arr, l) == ReadFrom(links, arr, l) <==>
              (if Reported(Lines(links, arr, MAX_LOG_LINKS)) then ReadFrom(links, arr, l) < 0x1_0000
               else ReadFrom(links, arr, l) == 0)
    {
      ToldIsRead(links, arr, l);
    }
    GuardIsTop(links, arr);
    if forall l :: 0 <= l < MAX_LOG_LINKS ==> ToldOf(links, arr, l) == ReadFrom(links, arr, l) {
      forall i | 0 <= i < |links| && links[i].present
        ensures if Reported(Lines(links, arr, MAX_LOG_LINKS)) then Snapshot(links, arr, i) < 0x1_0000
                else Snapshot(links, arr, i) == 0
      {
        assert ToldOf(links, arr, i) == ReadFrom(links, arr, i);
      }
    }
  }

  /** The guard of the event, said of the slots. */
  lemma GuardIsTop(links: seq<LogLink>, arr: Arrivals)
    requires |links| == MAX_LOG_LINKS
    ensures Reported(Lines(links, arr, MAX_LOG_LINKS)) <==>
            exists top :: Highest(links, top, |links|) && Snapshot(links, arr, top) != 0
  {
    if i :| 0 <= i < |links| && links[i].present {
      var top := HighestExists(links, i, |links|);
      LastLine(links, arr, top, |links|);
      assert forall other :: Highest(links, other, |links|) ==> other == top;
    } else {
      LinesAreTheOccupiedSlots(links, arr, MAX_LOG_LINKS);
      assert links[..MAX_LOG_LINKS] == links;
      OccupiedBounds(links);
      assert forall l <- links :: !l.present;
    }
  }

  /** The two accounts agree: what a whole pass loses at its last step is what it took off a
      slot and did not tell. */
  lemma {:induction false} FinishedPassLoses(m: Monitor, who: Caller, arr: Arrivals, l: nat)
    requires m.Valid() && l < MAX_LOG_LINKS
    ensures var links, now := m.table.links, Paced(m, who, arr, MAX_LOG_LINKS);
            && Finishes(now, Advance(who))
            && LostBy(now, Advance(who), l) == ReadFrom(links, arr, l) - ToldOf(links, arr, l)
  {
    hide Paced, Lines, Snapshot;
    PassInProgress(m, who, arr, MAX_LOG_LINKS);
    CountsOfLines(m.table.links, arr, MAX_LOG_LINKS, l);
  }

  // ----- the books of one link

  /** The books of the link opened last in slot l, beside those of the slot: `own` are its own
      packets in flight, `strays` the packets in flight that the slot's earlier links left
      behind, and strayDone counts the strays completed since the link was opened. */
  datatype LinkBooks = LinkBooks(slot: Ledger, own: nat, strays: nat, strayDone: nat)

  /** At the opening, everything in flight is a stray. */
  function OpenBooks(s: Ledger): LinkBooks {
    LinkBooks(s, 0, s.inflight, 0)
  }

  predicate CompletesSlot(a: Action, l: nat) {
    a.Move? && a.a.Complete? && a.a.tag % 16 == l
  }

  /** One step of both books. Nothing in a packet tells whose it is, so a completion of the
      slot is the link's own or a stray's as the run says; it needs one of them in flight. */
  function LinkStep(b: LinkBooks, a: Action, stray: bool, l: nat, e: Endpoint, parse: FlowSpecParser)
    : (r: LinkBooks)
    requires b.slot.mon.Valid() && l < MAX_LOG_LINKS
    ensures r.slot.mon.Valid()
  {
    var next := LedgerStep(b.slot, a, l, e, parse);
    if CompletesSlot(a, l) then
      if stray then
        if b.strays == 0 then b
        else b.(slot := next, strays := b.strays - 1, strayDone := b.strayDone + 1)
      else
        if b.own == 0 then b else b.(slot := next, own := b.own - 1)
    else
      b.(slot := next, own := b.own + (next.accepted - b.slot.accepted))
  }

  function LinkRun(b: LinkBooks, run: seq<(Action, bool)>, l: nat, e: Endpoint, parse: FlowSpecParser)
    : (r: LinkBooks)
    requires b.slot.mon.Valid() && l < MAX_LOG_LINKS
    ensures r.slot.mon.Valid()
  {
    if run == [] then b
    else
      var last := run[|run| - 1];
      LinkStep(LinkRun(b, run[..|run| - 1], l, e, parse), last.0, last.1, l, e, parse)
  }

  /** The link's own law: the packets accepted since it was opened are its own in flight, in
      the counter, held by a pass, reported, forfeited or lost since. */
  predicate OwnBooksClose(opening: Ledger, now: LinkBooks, l: nat)
    requires now.slot.mon.Valid() && l < MAX_LOG_LINKS
  {
    now.slot.accepted - opening.accepted ==
      now.own + now.slot.mon.table.links[l].txCompleted + Pending(now.slot.mon, l) +
      (now.slot.reported - opening.reported) + (now.slot.forfeited - opening.forfeited) +
      (now.slot.lost - opening.lost)
  }

  lemma {:induction false} LinkBooksKept(s: Ledger, run: seq<(Action, bool)>, l: nat, e: Endpoint,
                                         parse: FlowSpecParser)
    requires s.mon.Valid() && 0 < l < MAX_LOG_LINKS && Balances(s, l)
    ensures var now := LinkRun(OpenBooks(s), run, l, e, parse);
            && Balances(now.slot, l)
            && now.slot.inflight == now.own + now.strays
            && now.strays + now.strayDone == s.inflight
  {
    hide Balances, MonStep, XlateTx, ReportedBy, ForfeitedBy, LostBy;
    if run != [] {
      LinkBooksKept(s, run[..|run| - 1], l, e, parse);
      LedgerStepBalances(LinkRun(OpenBooks(s), run[..|run| - 1], l, e, parse).slot, run[|run| - 1].0, l, e, parse);
    }
  }

  /** The per-link law, over every run after a link is opened in slot l: the books of its own
      packets close if and only if no stray has completed since and no pass held an unreported
      line of the slot at the opening; they are off by exactly those. */
  lemma {:induction false} OwnBooksCloseExactly(s: Ledger, run: seq<(Action, bool)>, l: nat, e: Endpoint,
                                                parse: FlowSpecParser)
    requires s.mon.Valid() && 0 < l < MAX_LOG_LINKS && Balances(s, l)
    requires s.mon.table.links[l].txCompleted == 0
    ensures var now := LinkRun(OpenBooks(s), run, l, e, parse);
            && (OwnBooksClose(s, now, l) <==> now.strayDone == 0 && Pending(s.mon, l) == 0)
            && now.slot.accepted - s.accepted + now.strayDone + Pending(s.mon, l) ==
                 now.own + now.slot.mon.table.links[l].txCompleted + Pending(now.slot.mon, l) +
                 (now.slot.reported - s.reported) + (now.slot.forfeited - s.forfeited) +
                 (now.slot.lost - s.lost)
  {
    LinkBooksKept(s, run, l, e, parse);
  }

  /** If nothing of the earlier links is left at the opening, the law holds over every run. */
  lemma {:induction false} OwnBooksCloseAfterCleanOpening(s: Ledger, run: seq<(Action, bool)>, l: nat,
                                                          e: Endpoint, parse: FlowSpecParser)
    requires s.mon.Valid() && 0 < l < MAX_LOG_LINKS && Balances(s, l)
    requires s.mon.table.links[l].txCompleted == 0 && s.inflight == 0 && Pending(s.mon, l) == 0
    ensures OwnBooksClose(s, LinkRun(OpenBooks(s), run, l, e, parse), l)
  {
    LinkBooksKept(s, run, l, e, parse);
    OwnBooksCloseExactly(s, run, l, e, parse);
  }

  /** Opening a link zeroes the slot's counter and leaves its packets in flight. */
  lemma OpeningZeroesCounter(s: Ledger, phy: u8, flowSpec: seq<u8>, l: nat, e: Endpoint, parse: FlowSpecParser)
    requires s.mon.Valid() && 0 < l < MAX_LOG_LINKS && Balances(s, l)
    requires parse(flowSpec).Some? && NextIndex(s.mon.table) == l
    ensures var opening := LedgerStep(s, Move(Create(phy, flowSpec)), l, e, parse);
            && opening.mon.table.links[l].txCompleted == 0 && opening.mon.table.links[l].present
            && opening.mon.table.links[l].handle == HandleOf(NextIndex(s.mon.table), phy)
            && opening.inflight == s.inflight && Balances(opening, l)
  {
    LedgerStepBalances(s, Move(Create(phy, flowSpec)), l, e, parse);
  }

  /** A stray at work: a link is opened in a slot with a packet of an earlier link in flight,
      and transmits nothing. The stray completes, the next pass sends its event, and the event
      tells of one packet under the new link's handle. */
  lemma StrayReportedForNewLink(s: Ledger, phy: u8, flowSpec: seq<u8>, tag: u32, who: Caller, e: Endpoint,
                                parse: FlowSpecParser)
    requires s.mon.Valid() && ValidLogLink(NextIndex(s.mon.table)) && parse(flowSpec).Some?
    requires s.inflight > 0 && tag == NextIndex(s.mon.table)
    requires forall k :: tag < k < MAX_LOG_LINKS ==> !s.mon.table.links[k].present
    ensures var opening := LedgerStep(s, Move(Create(phy, flowSpec)), tag, e, parse);
            var done := LinkStep(OpenBooks(opening), Move(Complete(tag)), true, tag, e, parse);
            var after := Finished(done.slot.mon, who, _ => []);
            && done.own == 0 && done.slot.accepted == opening.accepted && done.strayDone == 1
            && |after.reports| == |s.mon.reports| + 1
            && Entry(tag, HandleOf(tag, phy), 1) in after.reports[|s.mon.reports|]
  {
    var opening := LedgerStep(s, Move(Create(phy, flowSpec)), tag, e, parse);
    var done := LinkStep(OpenBooks(opening), Move(Complete(tag)), true, tag, e, parse);
    NewLinkHolds(s.mon, phy, flowSpec, tag, parse);
    QuietPassReports(done.slot.mon, who, tag);
  }

  /** A pass with nothing arriving, over a highest slot with one completion. */
  lemma QuietPassReports(m: Monitor, who: Caller, l: nat)
    requires m.Valid() && Highest(m.table.links, l, MAX_LOG_LINKS) && m.table.links[l].txCompleted == 1
    ensures var after := Finished(m, who, _ => []);
            && |after.reports| == |m.reports| + 1
            && Entry(l, m.table.links[l].handle, 1) in after.reports[|m.reports|]
  {
    var quiet: Arrivals := _ => [];
    FinishPass(m, who, quiet);
    LastLine(m.table.links, quiet, l, MAX_LOG_LINKS);
    NothingArrives(quiet, 2 * l + 1, l);
  }

  /** The slots after a create in slot `tag` and one completion of a packet tagged with it. */
  lemma NewLinkHolds(m: Monitor, phy: u8, flowSpec: seq<u8>, tag: u32, parse: FlowSpecParser)
    requires m.Valid() && ValidLogLink(tag) && tag == NextIndex(m.table) && parse(flowSpec).Some?
    ensures var t := MonStep(MonStep(m, Create(phy, flowSpec), parse), Complete(tag), parse);
            && t.table.links[tag].present && t.table.links[tag].handle == HandleOf(tag, phy)
            && t.table.links[tag].txCompleted == 1 && t.reports == m.reports
            && forall k :: 0 <= k < MAX_LOG_LINKS && k != tag ==> t.table.links[k] == m.table.links[k]
  {
  }

  // ----- the end-to-end law

  predicate AtMostOneLink(links: seq<LogLink>) {
    forall i, j :: 0 <= i < j < |links| ==> !(links[i].present && links[j].present)
  }

  predicate SmallCounters(links: seq<LogLink>) {
    forall l <- links :: l.txCompleted < 0x1_0000
  }

  /** The pass has, holds or will read at most one line, as the slots stand. */
  predicate AtMostOneLine(p: Pass, links: seq<LogLink>) {
    match p
    case Idle => true
    case Reading(i, done) => LinesAhead(|done|, i, links)
    case Holding(i, held, done) => LinesAhead(|done| + (if held.Some? then 1 else 0), i + 1, links)
  }

  /** With this many lines so far, and the slots from i on still to be read. */
  predicate LinesAhead(sofar: nat, i: nat, links: seq<LogLink>) {
    && sofar <= 1
    && (forall j, k :: i <= j < k < |links| ==> !(links[j].present && links[k].present))
    && (sofar == 1 ==> forall j :: i <= j < |links| ==> !links[j].present)
  }

  /** What a caller can arrange: no counter reaches 2^16; no command or read uncovers a held
      snapshot; and where a pass starts or a link is created, no pass comes to two lines. */
  predicate Orderly(m: Monitor, a: MonAction, parse: FlowSpecParser)
    requires m.Valid()
  {
    var t := MonStep(m, a, parse);
    && SmallCounters(t.table.links)
    && !Uncovers(m, a, parse)
    && (a.StartPass? || a.Create? ==>
          AtMostOneLine(t.timer, t.table.links) && AtMostOneLine(t.callback, t.table.links))
  }

  predicate OrderlyRun(s: Ledger, run: seq<Action>, l: nat, e: Endpoint, parse: FlowSpecParser)
    requires s.mon.Valid() && l < MAX_LOG_LINKS
  {
    run == [] ||
    (var before, a := run[..|run| - 1], run[|run| - 1];
     OrderlyRun(s, before, l, e, parse) &&
     (a.Move? ==> Orderly(LedgerRun(s, before, l, e, parse).mon, a.a, parse)))
  }

  predicate SmallLines(p: Pass) {
    && (!p.Idle? ==> forall e <- p.done :: e.count < 0x1_0000)
    && (p.Holding? && p.held.Some? ==> p.held.value.count < 0x1_0000)
  }

  /** What an orderly run keeps: each pass comes to at most one line, small enough for the
      event, and what it holds is covered. */
  predicate OneLine(m: Monitor)
    requires m.Valid()
  {
    && SmallCounters(m.table.links) && HeldCovered(m)
    && AtMostOneLine(m.timer, m.table.links) && AtMostOneLine(m.callback, m.table.links)
    && SmallLines(m.timer) && SmallLines(m.callback)
  }

  lemma FewerLinksFewerLines(p: Pass, links: seq<LogLink>, after: seq<LogLink>)
    requires |links| == |after| && AtMostOneLine(p, links)
    requires forall j :: 0 <= j < |links| && after[j].present ==> links[j].present
    ensures ValidPass(p) ==> AtMostOneLine(p, after)
  {
  }

  /** Only a create makes a slot occupied. */
  lemma {:induction false} OnlyCreateOccupies(m: Monitor, a: MonAction, j: nat, parse: FlowSpecParser)
    requires m.Valid() && !a.Create? && j < MAX_LOG_LINKS
    ensures MonStep(m, a, parse).table.links[j].present ==> m.table.links[j].present
  {
  }

  lemma {:induction false} AdvanceKeepsAtMostOneLine(m: Monitor, who: Caller)
    requires m.Valid() && AtMostOneLine(m.PassOf(who), m.table.links)
    ensures AtMostOneLine(AdvancePass(m, who).PassOf(who), m.table.links)
  {
  }

  lemma {:induction false} StepKeepsAtMostOneLine(m: Monitor, a: MonAction, who: Caller, parse: FlowSpecParser)
    requires m.Valid() && !a.StartPass? && !a.Create?
    requires AtMostOneLine(m.PassOf(who), m.table.links)
    ensures AtMostOneLine(MonStep(m, a, parse).PassOf(who), MonStep(m, a, parse).table.links)
  {
    var t := MonStep(m, a, parse);
    if a == Advance(who) {
      AdvanceKeepsAtMostOneLine(m, who);
    }
    hide AtMostOneLine, MonStep, AdvancePass;
    forall j | 0 <= j < MAX_LOG_LINKS && t.table.links[j].present ensures m.table.links[j].present {
      OnlyCreateOccupies(m, a, j, parse);
    }
    PassMoves(m, a, who, parse);
    FewerLinksFewerLines(t.PassOf(who), m.table.links, t.table.links);
  }

  lemma {:induction false} PassMoves(m: Monitor, a: MonAction, who: Caller, parse: FlowSpecParser)
    requires m.Valid() && !a.StartPass?
    ensures MonStep(m, a, parse).PassOf(who) ==
            (if a == Advance(who) then AdvancePass(m, who) else m).PassOf(who)
  {
  }

  lemma {:induction false} StepKeepsSmallLines(m: Monitor, a: MonAction, who: Caller, parse: FlowSpecParser)
    requires m.Valid() && SmallCounters(m.table.links) && SmallLines(m.PassOf(who))
    ensures SmallLines(MonStep(m, a, parse).PassOf(who))
  {
    var p := m.PassOf(who);
    if p.Reading? && p.slot < MAX_LOG_LINKS {
      assert m.table.links[p.slot] in m.table.links;
    }
  }

  lemma {:induction false} OrderlyKeepsOneLine(m: Monitor, a: MonAction, parse: FlowSpecParser)
    requires m.Valid() && OneLine(m) && Orderly(m, a, parse)
    ensures OneLine(MonStep(m, a, parse))
  {
    hide MonStep, AtMostOneLine, SmallLines, Uncovers, HeldCovered, SmallCounters;
    HeldStaysCovered(m, a, parse);
    StepKeepsSmallLines(m, a, Timer, parse);
    StepKeepsSmallLines(m, a, Callback, parse);
    if !a.StartPass? && !a.Create? {
      StepKeepsAtMostOneLine(m, a, Timer, parse);
      StepKeepsAtMostOneLine(m, a, Callback, parse);
    }
  }

  lemma {:induction false} OrderlyLosesNothing(m: Monitor, a: MonAction, l: nat, parse: FlowSpecParser)
    requires m.Valid() && OneLine(m) && Orderly(m, a, parse) && 0 < l < MAX_LOG_LINKS
    ensures LostBy(m, a, l) == 0
  {
    assert m.table.links[l] in m.table.links && SlotCovered(m, l);
    if Finishes(m, a) {
      SmallCountsFit(m.PassOf(a.who).done, l);
    }
  }

  /** End-to-end ledger of a slot: over every run in which no pass comes to two lines, no step
      uncovers a held snapshot and counters stay below 2^16, the packets Tx translation
      accepted for the slot are those in flight, counted, held by a pass, reported, and
      forfeited by disconnecting its link or opening another; nothing is lost. */
  lemma {:induction false} EndToEnd(s: Ledger, run: seq<Action>, l: nat, e: Endpoint, parse: FlowSpecParser)
    requires s.mon.Valid() && 0 < l < MAX_LOG_LINKS && Balances(s, l) && s.lost == 0
    requires OneLine(s.mon) && OrderlyRun(s, run, l, e, parse)
    ensures var now := LedgerRun(s, run, l, e, parse);
            && OneLine(now.mon) && now.lost == 0
            && now.accepted == now.inflight + now.mon.table.links[l].txCompleted +
                 Pending(now.mon, l) + now.reported + now.forfeited
            && (now.mon.timer.Idle? && now.mon.callback.Idle? ==> Pending(now.mon, l) == 0)
  {
    hide Orderly, OneLine, LostBy;
    LedgerBalances(s, run, l, e, parse);
    if run != [] {
      var before, a := run[..|run| - 1], run[|run| - 1];
      var was := LedgerRun(s, before, l, e, parse);
      EndToEnd(s, before, l, e, parse);
      if a.Move? {
        OrderlyKeepsOneLine(was.mon, a.a, parse);
        OrderlyLosesNothing(was.mon, a.a, l, parse);
      }
    }
  }

  /** A simple discipline: one pass at a time, at most one link present where it starts, no
      create and no disconnect while it is under way, and counters below 2^16. The physical
      link may go down, or come up, at any time. */
  predicate Simple(m: Monitor, a: MonAction, parse: FlowSpecParser)
    requires m.Valid()
  {
    && SmallCounters(MonStep(m, a, parse).table.links)
    && (a.StartPass? ==> AtMostOneLink(m.table.links))
    && (a.StartPass? || a.Create? || a.Disconnect? ==> m.timer.Idle? && m.callback.Idle?)
  }

  lemma {:induction false} SimpleIsOrderly(m: Monitor, a: MonAction, parse: FlowSpecParser)
    requires m.Valid() && OneLine(m) && Simple(m, a, parse)
    requires m.timer.Idle? || m.callback.Idle?
    ensures Orderly(m, a, parse)
    ensures var t := MonStep(m, a, parse); t.timer.Idle? || t.callback.Idle?
  {
    forall i: nat | i < MAX_LOG_LINKS ensures !UncoversSlot(m, a, i, parse) {
      assert m.table.links[i] in m.table.links;
    }
  }

  predicate SimpleRun(s: Ledger, run: seq<Action>, l: nat, e: Endpoint, parse: FlowSpecParser)
    requires s.mon.Valid() && l < MAX_LOG_LINKS
  {
    run == [] ||
    (var before, a := run[..|run| - 1], run[|run| - 1];
     SimpleRun(s, before, l, e, parse) &&
     (a.Move? ==> Simple(LedgerRun(s, before, l, e, parse).mon, a.a, parse)))
  }

  /** End-to-end ledger under the simple discipline: over every run in which every step keeps
      it, the run is orderly, and nothing is lost. */
  lemma {:induction false} EndToEndSimple(s: Ledger, run: seq<Action>, l: nat, e: Endpoint, parse: FlowSpecParser)
    requires s.mon.Valid() && 0 < l < MAX_LOG_LINKS && Balances(s, l) && s.lost == 0
    requires OneLine(s.mon) && (s.mon.timer.Idle? || s.mon.callback.Idle?)
    requires SimpleRun(s, run, l, e, parse)
    ensures var now := LedgerRun(s, run, l, e, parse);
            && OrderlyRun(s, run, l, e, parse)
            && (now.mon.timer.Idle? || now.mon.callback.Idle?)
            && OneLine(now.mon) && now.lost == 0
            && now.accepted == now.inflight + now.mon.table.links[l].txCompleted +
                 Pending(now.mon, l) + now.reported + now.forfeited
  {
    hide Orderly, Simple, OneLine, LostBy, ReportedBy, ForfeitedBy, XlateTx, MonStep;
    if run != [] {
      var before, a := run[..|run| - 1], run[|run| - 1];
      EndToEndSimple(s, before, l, e, parse);
      if a.Move? {
        SimpleIsOrderly(LedgerRun(s, before, l, e, parse).mon, a.a, parse);
      }
    }
    EndToEnd(s, run, l, e, parse);
  }

  /** A fresh context is a place to start from. */
  lemma FreshBooks(l: nat)
    requires 0 < l < MAX_LOG_LINKS
    ensures var m := Monitor(LinkTable(seq(MAX_LOG_LINKS, _ => EMPTY_LINK), 0, 0), Idle, Idle, []);
            m.Valid() && OneLine(m) && Balances(Ledger(m, 0, 0, 0, 0, 0), l)
  {
  }
}
