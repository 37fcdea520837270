/** One whole monitor pass, with completions arriving at every point of it: the exact event
    and the exact counters it leaves. */
module ReportPass {
  import opened Words
  import opened BapContext
  import opened LinkTables
  import opened TxMonitor

  /** The completions that arrive during a pass, by the tags of their packets: point 2i is
      before slot i is looked at, 2i + 1 between its read and its subtraction, and 32 before
      the event is sent. */
  type Arrivals = nat -> seq<u32>

  function CreditAll(links: seq<LogLink>, tags: seq<u32>): (r: seq<LogLink>)
    ensures |r| == |links|
  {
    if tags == [] then links else Credit(CreditAll(links, tags[..|tags| - 1]), tags[|tags| - 1])
  }

  /** The completions at one point, then one advance. */
  function Advanced(m: Monitor, who: Caller, tags: seq<u32>): (r: Monitor)
    requires m.Valid()
    ensures r.Valid()
  {
    AdvancePass(m.(table := m.table.(links := CreditAll(m.table.links, tags))), who)
  }

  /** A pass about to look at slot i: two advances for each slot before it. */
  function Paced(m: Monitor, who: Caller, arr: Arrivals, i: nat): (r: Monitor)
    requires m.Valid()
    ensures r.Valid()
  {
    if i == 0 then m.With(who, Reading(0, []))
    else
      var j := i - 1;
      Advanced(Advanced(Paced(m, who, arr, j), who, arr(2 * j)), who, arr(2 * j + 1))
  }

  /** A pass after its last advance. */
  function Finished(m: Monitor, who: Caller, arr: Arrivals): (r: Monitor)
    requires m.Valid()
    ensures r.Valid()
  {
    Advanced(Paced(m, who, arr, MAX_LOG_LINKS), who, arr(2 * MAX_LOG_LINKS))
  }

  // ----- a pass is a run of the monitor

  function Completions(tags: seq<u32>): seq<MonAction> {
    seq(|tags|, i requires 0 <= i < |tags| => Complete(tags[i]))
  }

  function Script(who: Caller, arr: Arrivals, i: nat): seq<MonAction> {
    if i == 0 then [StartPass(who)]
    else
      var j := i - 1;
      Script(who, arr, j) + Point(who, arr(2 * j)) + Point(who, arr(2 * j + 1))
  }

  function Point(who: Caller, tags: seq<u32>): seq<MonAction> {
    Completions(tags) + [Advance(who)]
  }

  lemma {:induction false} MonRunConcat(m: Monitor, before: seq<MonAction>, after: seq<MonAction>,
                                        parse: FlowSpecParser)
    requires m.Valid()
    ensures MonRun(m, before + after, parse) == MonRun(MonRun(m, before, parse), after, parse)
  {
    if after == [] {
      assert before + after == before;
    } else {
      var k := |after| - 1;
      assert (before + after)[..|before + after| - 1] == before + after[..k];
      MonRunConcat(m, before, after[..k], parse);
    }
  }

  lemma {:induction false} CompletionsRun(m: Monitor, tags: seq<u32>, parse: FlowSpecParser)
    requires m.Valid()
    ensures MonRun(m, Completions(tags), parse) ==
            m.(table := m.table.(links := CreditAll(m.table.links, tags)))
  {
    if tags != [] {
      var k := |tags| - 1;
      assert Completions(tags)[..k] == Completions(tags[..k]);
      CompletionsRun(m, tags[..k], parse);
    }
  }

  lemma {:induction false} PointRun(m: Monitor, who: Caller, tags: seq<u32>, parse: FlowSpecParser)
    requires m.Valid()
    ensures MonRun(m, Point(who, tags), parse) == Advanced(m, who, tags)
  {
    hide AdvancePass, CreditAll;
    CompletionsRun(m, tags, parse);
    RunAppend(m, Completions(tags), Advance(who), parse);
  }

  lemma {:induction false} RunAppend(m: Monitor, before: seq<MonAction>, a: MonAction, parse: FlowSpecParser)
    requires m.Valid()
    ensures MonRun(m, before + [a], parse) == MonStep(MonRun(m, before, parse), a, parse)
  {
    hide MonStep;
    assert (before + [a])[..|before|] == before;
  }

  lemma {:induction false} RunOnePoint(m: Monitor, who: Caller, before: seq<MonAction>, now: Monitor,
                                       tags: seq<u32>, parse: FlowSpecParser)
    requires m.Valid() && MonRun(m, before, parse) == now
    ensures MonRun(m, before + Point(who, tags), parse) == Advanced(now, who, tags)
  {
    hide Advanced, Point, MonRun;
    MonRunConcat(m, before, Point(who, tags), parse);
    PointRun(now, who, tags, parse);
  }

  lemma StartRun(m: Monitor, who: Caller, parse: FlowSpecParser)
    requires m.Valid()
    ensures m.PassOf(who).Idle? ==> MonRun(m, [StartPass(who)], parse) == m.With(who, Reading(0, []))
  {
    assert [StartPass(who)][..0] == [];
  }

  lemma {:induction false} PacedIsRun(m: Monitor, who: Caller, arr: Arrivals, i: nat, parse: FlowSpecParser)
    requires m.Valid() && m.PassOf(who).Idle?
    ensures MonRun(m, Script(who, arr, i), parse) == Paced(m, who, arr, i)
  {
    hide MonRun, Advanced, Point;
    if i == 0 {
      StartRun(m, who, parse);
    } else {
      var j := i - 1;
      var before, now := Script(who, arr, j), Paced(m, who, arr, j);
      PacedIsRun(m, who, arr, j, parse);
      RunOnePoint(m, who, before, now, arr(2 * j), parse);
      RunOnePoint(m, who, before + Point(who, arr(2 * j)), Advanced(now, who, arr(2 * j)), arr(2 * j + 1), parse);
    }
  }

  /** A finished pass is a run of the monitor, so whatever holds over all runs holds of it. */
  lemma {:induction false} FinishedIsRun(m: Monitor, who: Caller, arr: Arrivals, parse: FlowSpecParser)
    requires m.Valid() && m.PassOf(who).Idle?
    ensures MonRun(m, Script(who, arr, MAX_LOG_LINKS) + Point(who, arr(2 * MAX_LOG_LINKS)), parse) ==
            Finished(m, who, arr)
  {
    hide MonRun, Advanced, Point, Script, Paced;
    PacedIsRun(m, who, arr, 16, parse);
    RunOnePoint(m, who, Script(who, arr, 16), Paced(m, who, arr, 16), arr(32), parse);
  }

  // ----- the reference: what a pass should read, report and leave

  function Hits(tags: seq<u32>, i: nat): nat {
    if tags == [] then 0
    else Hits(tags[..|tags| - 1], i) +
         (if tags[|tags| - 1] % 16 == i && ValidLogLink(i) then 1 else 0)
  }

  /** Completions for slot i at the points before n. */
  function Arrived(arr: Arrivals, n: nat, i: nat): nat {
    if n == 0 then 0 else Arrived(arr, n - 1, i) + Hits(arr(n - 1), i)
  }

  /** Slot i's counter when the completions at the points before n have arrived: once what
      was read has been taken off, only what arrived after the read is left. */
  function Counter(links: seq<LogLink>, arr: Arrivals, n: nat, i: nat, takenOff: bool): u32
    requires i < |links|
  {
    if takenOff then (Arrived(arr, n, i) - Arrived(arr, 2 * i + 1, i)) % U32_MODULUS
    else (links[i].txCompleted + Arrived(arr, n, i)) % U32_MODULUS
  }

  /** What the pass reads from slot i. */
  function Snapshot(links: seq<LogLink>, arr: Arrivals, i: nat): u32
    requires i < |links|
  {
    Counter(links, arr, 2 * i + 1, i, false)
  }

  /** The lines for the occupied slots below n. */
  function Lines(links: seq<LogLink>, arr: Arrivals, n: nat): seq<Entry>
    requires n <= |links|
  {
    if n == 0 then []
    else if !links[n - 1].present then Lines(links, arr, n - 1)
    else Lines(links, arr, n - 1) + [Entry(n - 1, links[n - 1].handle, Snapshot(links, arr, n - 1))]
  }

  /** Slot k when the completions at the points before n have arrived and the slots below i
      have been looked at. */
  function SlotAfter(links: seq<LogLink>, arr: Arrivals, n: nat, i: nat, k: nat): LogLink
    requires k < |links|
  {
    links[k].(txCompleted := Counter(links, arr, n, k, links[k].present && k < i))
  }

  lemma {:induction false} CreditAllAt(links: seq<LogLink>, tags: seq<u32>, i: nat)
    requires |links| == MAX_LOG_LINKS && i < MAX_LOG_LINKS
    ensures CreditAll(links, tags)[i] ==
            links[i].(txCompleted := (links[i].txCompleted + Hits(tags, i)) % U32_MODULUS)
  {
    if tags != [] {
      CreditAllAt(links, tags[..|tags| - 1], i);
      Increment(links[i].txCompleted + Hits(tags[..|tags| - 1], i));
    }
  }

  lemma AddMod(x: int, y: int)
    ensures (x % U32_MODULUS + y) % U32_MODULUS == (x + y) % U32_MODULUS
  {
    var q := x / U32_MODULUS;
    assert x % U32_MODULUS + y == x + y + (-q) * U32_MODULUS;
    Shift(x + y, -q);
  }

  lemma CounterGrows(links: seq<LogLink>, arr: Arrivals, n: nat, i: nat, takenOff: bool)
    requires i < |links|
    ensures (Counter(links, arr, n, i, takenOff) + Hits(arr(n), i)) % U32_MODULUS
            == Counter(links, arr, n + 1, i, takenOff)
  {
    AddMod(if takenOff then Arrived(arr, n, i) - Arrived(arr, 2 * i + 1, i)
           else links[i].txCompleted + Arrived(arr, n, i), Hits(arr(n), i));
  }

  /** One point's completions on one slot. */
  lemma PointArrives(links: seq<LogLink>, arr: Arrivals, n: nat, i: nat, now: seq<LogLink>, k: nat)
    requires |links| == |now| == MAX_LOG_LINKS && k < MAX_LOG_LINKS
    requires now[k] == SlotAfter(links, arr, n, i, k)
    ensures CreditAll(now, arr(n))[k] == SlotAfter(links, arr, n + 1, i, k)
  {
    CreditAllAt(now, arr(n), k);
    CounterGrows(links, arr, n, k, links[k].present && k < i);
  }

  /** The subtraction in slot i leaves what arrived between its read and it. */
  lemma AfterSubtraction(links: seq<LogLink>, arr: Arrivals, i: nat)
    requires i < |links|
    ensures (Counter(links, arr, 2 * i + 2, i, false) - Snapshot(links, arr, i)) % U32_MODULUS
            == Counter(links, arr, 2 * i + 2, i, true)
  {
    var c, d := links[i].txCompleted + Arrived(arr, 2 * i + 1, i), Hits(arr(2 * i + 1), i);
    AddMod(c, d);
    TakeOff(c % U32_MODULUS, d);
  }

  /** Looking at one slot as the code does: a read, then a subtraction, each after the
      completions at its point. */
  function LookedAt(links: seq<LogLink>, i: nat, atRead: seq<u32>, atSubtraction: seq<u32>): (r: seq<LogLink>)
    requires i < |links|
    ensures |r| == |links|
  {
    var read := CreditAll(links, atRead);
    var later := CreditAll(read, atSubtraction);
    if read[i].present then Subtract(later, i, read[i].txCompleted) else later
  }

  lemma TwoAdvances(now: Monitor, who: Caller, i: nat, atRead: seq<u32>, atSubtraction: seq<u32>)
    requires now.Valid() && now.PassOf(who).Reading? && now.PassOf(who).slot == i < MAX_LOG_LINKS
    ensures var after := Advanced(Advanced(now, who, atRead), who, atSubtraction);
            var done, read := now.PassOf(who).done, CreditAll(now.table.links, atRead)[i];
            after == now.With(who, Reading(i + 1,
                       if read.present then done + [Entry(i, read.handle, read.txCompleted)] else done)).(
                       table := now.table.(links := LookedAt(now.table.links, i, atRead, atSubtraction)))
  {
  }

  function SlotsAfter(links: seq<LogLink>, arr: Arrivals, n: nat, i: nat): (r: seq<LogLink>)
    ensures |r| == |links|
  {
    seq(|links|, k requires 0 <= k < |links| => SlotAfter(links, arr, n, i, k))
  }

  /** What the pass reads from slot i is its snapshot. */
  lemma SlotRead(links: seq<LogLink>, arr: Arrivals, i: nat)
    requires |links| == MAX_LOG_LINKS && i < MAX_LOG_LINKS
    ensures CreditAll(SlotsAfter(links, arr, 2 * i, i), arr(2 * i))[i] ==
            links[i].(txCompleted := Snapshot(links, arr, i))
  {
    PointArrives(links, arr, 2 * i, i, SlotsAfter(links, arr, 2 * i, i), i);
  }

  /** Looking at slot i moves each slot to where it should be next. */
  lemma SlotLookedAt(links: seq<LogLink>, arr: Arrivals, i: nat, now: seq<LogLink>, k: nat)
    requires |links| == |now| == MAX_LOG_LINKS && i < MAX_LOG_LINKS && k < MAX_LOG_LINKS
    requires now[k] == SlotAfter(links, arr, 2 * i, i, k)
    requires CreditAll(now, arr(2 * i))[i] == links[i].(txCompleted := Snapshot(links, arr, i))
    ensures LookedAt(now, i, arr(2 * i), arr(2 * i + 1))[k] == SlotAfter(links, arr, 2 * i + 2, i + 1, k)
  {
    var read := CreditAll(now, arr(2 * i));
    PointArrives(links, arr, 2 * i, i, now, k);
    PointArrives(links, arr, 2 * i + 1, i, read, k);
    if k == i {
      AfterSubtraction(links, arr, i);
    }
  }

  lemma SlotsLookedAt(links: seq<LogLink>, arr: Arrivals, i: nat)
    requires |links| == MAX_LOG_LINKS && i < MAX_LOG_LINKS
    ensures LookedAt(SlotsAfter(links, arr, 2 * i, i), i, arr(2 * i), arr(2 * i + 1)) ==
            SlotsAfter(links, arr, 2 * i + 2, i + 1)
  {
    var now := SlotsAfter(links, arr, 2 * i, i);
    var after := LookedAt(now, i, arr(2 * i), arr(2 * i + 1));
    SlotRead(links, arr, i);
    forall k | 0 <= k < |after| ensures after[k] == SlotAfter(links, arr, 2 * i + 2, i + 1, k) {
      SlotLookedAt(links, arr, i, now, k);
    }
  }

  /** The pass that should be about to look at slot i. */
  function Expected(m: Monitor, who: Caller, arr: Arrivals, i: nat): (r: Monitor)
    requires m.Valid() && i <= MAX_LOG_LINKS
    ensures r.Valid()
  {
    m.With(who, Reading(i, Lines(m.table.links, arr, i))).(
      table := m.table.(links := SlotsAfter(m.table.links, arr, 2 * i, i)))
  }

  lemma PassStarts(m: Monitor, who: Caller, arr: Arrivals)
    requires m.Valid()
    ensures Paced(m, who, arr, 0) == Expected(m, who, arr, 0)
  {
    assert SlotsAfter(m.table.links, arr, 0, 0) == m.table.links;
  }

  lemma PassStep(m: Monitor, who: Caller, arr: Arrivals, i: nat)
    requires m.Valid() && i < MAX_LOG_LINKS
    ensures Advanced(Advanced(Expected(m, who, arr, i), who, arr(2 * i)), who, arr(2 * i + 1)) ==
            Expected(m, who, arr, i + 1)
  {
    SlotRead(m.table.links, arr, i);
    SlotsLookedAt(m.table.links, arr, i);
    TwoAdvances(Expected(m, who, arr, i), who, i, arr(2 * i), arr(2 * i + 1));
  }

  /** At every slot the pass is the expected one. */
  lemma {:induction false} PassInProgress(m: Monitor, who: Caller, arr: Arrivals, i: nat)
    requires m.Valid() && i <= MAX_LOG_LINKS
    ensures Paced(m, who, arr, i) == Expected(m, who, arr, i)
  {
    hide Advanced, Expected;
    if i == 0 {
      PassStarts(m, who, arr);
    } else {
      PassInProgress(m, who, arr, i - 1);
      PassStep(m, who, arr, i - 1);
    }
  }

  /** One iteration of the loop in the code. */
  lemma SlotTurn(m: Monitor, who: Caller, arr: Arrivals, i: nat)
    requires m.Valid() && i < MAX_LOG_LINKS
    ensures var now := Paced(m, who, arr, i).table.links;
            && CreditAll(now, arr(2 * i))[i] ==
                 m.table.links[i].(txCompleted := Snapshot(m.table.links, arr, i))
            && Paced(m, who, arr, i + 1).table.links == LookedAt(now, i, arr(2 * i), arr(2 * i + 1))
  {
    PassInProgress(m, who, arr, i);
    SlotRead(m.table.links, arr, i);
    TwoAdvances(Paced(m, who, arr, i), who, i, arr(2 * i), arr(2 * i + 1));
  }

  // ----- exactness

  /** The lines are the occupied slots in index order: slot i's line, if it has one, stands
      behind the lines of the occupied slots below it. */
  lemma {:induction false} LinesAreTheOccupiedSlots(links: seq<LogLink>, arr: Arrivals, n: nat)
    requires n <= |links|
    ensures |Lines(links, arr, n)| == Occupied(links[..n])
    ensures forall i :: 0 <= i < n && links[i].present ==>
              var j := Occupied(links[..i]);
              j < |Lines(links, arr, n)| &&
              Lines(links, arr, n)[j] == Entry(i, links[i].handle, Snapshot(links, arr, i))
  {
    if n > 0 {
      LinesAreTheOccupiedSlots(links, arr, n - 1);
      OccupiedAppend(links[..n - 1], links[n - 1]);
      assert links[..n - 1] + [links[n - 1]] == links[..n];
    }
  }

  /** The highest occupied slot below n, whose snapshot alone decides about the event. */
  predicate Highest(links: seq<LogLink>, i: nat, n: nat) {
    i < n <= |links| && links[i].present && forall k :: i < k < n ==> !links[k].present
  }

  lemma {:induction false} LastLine(links: seq<LogLink>, arr: Arrivals, i: nat, n: nat)
    requires Highest(links, i, n)
    ensures Lines(links, arr, n) != []
    ensures Lines(links, arr, n)[|Lines(links, arr, n)| - 1] ==
            Entry(i, links[i].handle, Snapshot(links, arr, i))
  {
    if n - 1 > i {
      LastLine(links, arr, i, n - 1);
    }
  }

  /** Report-pass exactness, for completions arriving at every point of the pass. The event
      has one line for each occupied slot, at most 16, in index order, each with the handle
      and the count at the time of its read; it is sent whole or not at all, and exactly when
      the highest occupied slot read nonzero. Each occupied slot is left with precisely the
      completions after its read, the others with all. */
  lemma ReportPassExact(m: Monitor, who: Caller, arr: Arrivals)
    requires m.Valid()
    ensures var after, links := Finished(m, who, arr), m.table.links;
            var lines := Lines(links, arr, MAX_LOG_LINKS);
            && after.PassOf(who) == Idle && after.PassOf(Other(who)) == m.PassOf(Other(who))
            && after.reports == m.reports + (if Reported(lines) then [lines] else [])
            && |lines| == Occupied(links) <= MAX_LOG_LINKS
            && (forall i :: 0 <= i < MAX_LOG_LINKS && links[i].present ==>
                  var j := Occupied(links[..i]);
                  j < |lines| && lines[j] == Entry(i, links[i].handle, Snapshot(links, arr, i)))
            && (forall i :: Highest(links, i, MAX_LOG_LINKS) ==>
                  (Reported(lines) <==> Snapshot(links, arr, i) != 0))
            && (lines == [] ==> !Reported(lines))
            && after.table == m.table.(links := after.table.links)
            && (forall k :: 0 <= k < MAX_LOG_LINKS ==>
                  after.table.links[k] == Left(links, arr, k))
  {
    var links := m.table.links;
    assert links[..MAX_LOG_LINKS] == links;
    FinishPass(m, who, arr);
    forall k | 0 <= k < MAX_LOG_LINKS ensures Finished(m, who, arr).table.links[k] == Left(links, arr, k) {
      FinalCounters(m, who, arr, k);
    }
    LinesAreTheOccupiedSlots(links, arr, MAX_LOG_LINKS);
    OccupiedBounds(links);
    forall i | Highest(links, i, MAX_LOG_LINKS)
      ensures Reported(Lines(links, arr, MAX_LOG_LINKS)) <==> Snapshot(links, arr, i) != 0
    {
      LastLine(links, arr, i, MAX_LOG_LINKS);
    }
  }

  lemma FinishPass(m: Monitor, who: Caller, arr: Arrivals)
    requires m.Valid()
    ensures var after, lines := Finished(m, who, arr), Lines(m.table.links, arr, MAX_LOG_LINKS);
            && after.PassOf(who) == Idle && after.PassOf(Other(who)) == m.PassOf(Other(who))
            && after.reports == m.reports + (if Reported(lines) then [lines] else [])
            && after.table == m.table.(links := CreditAll(Paced(m, who, arr, MAX_LOG_LINKS).table.links,
                                                          arr(2 * MAX_LOG_LINKS)))
  {
    hide Advanced, Paced, Lines, CreditAll;
    PassInProgress(m, who, arr, MAX_LOG_LINKS);
    LastAdvance(Paced(m, who, arr, MAX_LOG_LINKS), who, arr(2 * MAX_LOG_LINKS));
  }

  lemma LastAdvance(now: Monitor, who: Caller, tags: seq<u32>)
    requires now.Valid() && now.PassOf(who).Reading? && now.PassOf(who).slot == MAX_LOG_LINKS
    ensures var done := now.PassOf(who).done;
            Advanced(now, who, tags) ==
            now.With(who, Idle).(table := now.table.(links := CreditAll(now.table.links, tags)),
                                 reports := now.reports + (if Reported(done) then [done] else []))
  {
  }

  /** What is left in slot k when the pass is over. */
  function Left(links: seq<LogLink>, arr: Arrivals, k: nat): LogLink
    requires k < |links|
  {
    SlotAfter(links, arr, 2 * MAX_LOG_LINKS + 1, MAX_LOG_LINKS, k)
  }

  lemma FinalCounters(m: Monitor, who: Caller, arr: Arrivals, k: nat)
    requires m.Valid() && k < MAX_LOG_LINKS
    ensures Finished(m, who, arr).table.links[k] == Left(m.table.links, arr, k)
  {
    FinishPass(m, who, arr);
    PassInProgress(m, who, arr, MAX_LOG_LINKS);
    PointArrives(m.table.links, arr, 32, 16, SlotsAfter(m.table.links, arr, 32, 16), k);
  }

  lemma {:induction false} NothingArrives(arr: Arrivals, n: nat, i: nat)
    requires forall k :: arr(k) == []
    ensures Arrived(arr, n, i) == 0
  {
    if n > 0 {
      NothingArrives(arr, n - 1, i);
    }
  }

  /** What the guard does with two links, the lower one with completions and the higher one
      without, and nothing arriving: no event, and the completions are gone. */
  lemma LowerLinkForgotten(m: Monitor, who: Caller, low: nat, high: nat)
    requires m.Valid() && low < high && Highest(m.table.links, high, MAX_LOG_LINKS)
    requires m.table.links[low].present && m.table.links[high].txCompleted == 0
    ensures var after := Finished(m, who, _ => []);
            after.reports == m.reports && after.table.links[low].txCompleted == 0
  {
    var quiet: Arrivals := _ => [];
    FinishPass(m, who, quiet);
    FinalCounters(m, who, quiet, low);
    LastLine(m.table.links, quiet, high, MAX_LOG_LINKS);
    NothingArrives(quiet, 2 * high + 1, high);
    NothingArrives(quiet, 2 * MAX_LOG_LINKS + 1, low);
    NothingArrives(quiet, 2 * low + 1, low);
  }
}
