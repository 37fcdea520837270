/** bapApiTimer.c: what the two timers of the layer do when they run out. */
module BapApiTimer {
  import opened Words
  import opened Vos
  import opened BapContext
  import opened FrameFormat
  import opened SupervisionTimer
  import opened BapApiLinkSupervision
  import opened BapApiData
  import opened TxMonitor
  import opened ReportPass
  import opened LinkTables
  import opened TxLedger
  import Heartbeat

  /** WLAN_BAP_TX_PKT_MONITOR_TIME, in milliseconds. */
  const TX_PKT_MONITOR_TIME: nat := 100

  /** WLANBAP_LinkSupervisionTimerHandler; disconnection is an event to the link state
      machine. */
  method LinkSupervisionTimerHandler(ctx: BapContext, plat: Platform, tlAccepts: bool)
    modifies ctx`dataPktPending, ctx`lsReqPktPending, ctx`retries, ctx`supervisionTimer,
             plat`inTl, plat`fsmEvents
    ensures LsView(ctx, plat) == Heartbeat.Handler(old(LsView(ctx, plat)), tlAccepts)
    ensures plat.fsmEvents == old(plat.fsmEvents) ||
            plat.fsmEvents == old(plat.fsmEvents) + [MacIndicatesMediaDisconnection]
  {
    var vosStatus;
    if ctx.dataPktPending {
      ctx.dataPktPending := false;
      ctx.lsReqPktPending := false;
      ctx.retries := 0;
      vosStatus := StopLinkSupervisionTimer(ctx);
      vosStatus := StartLinkSupervisionTimer(ctx, ctx.linkSupervisionInterval * BASEBAND_SLOT_TIME);
    } else if ctx.lsReqPktPending && ctx.retries == Heartbeat.RETRIES {
      plat.fsmEvents := plat.fsmEvents + [MacIndicatesMediaDisconnection];
    } else {
      vosStatus := StopLinkSupervisionTimer(ctx);
      vosStatus := TxLinkSupervision(ctx, plat, ctx.lsReqPacket, TYPE_LS_REQ, tlAccepts);
    }
  }

  ghost function MonitorOf(ctx: BapContext): (m: Monitor)
    reads ctx, ctx.logLinks
    requires ctx.Valid()
    ensures m.Valid()
  {
    Monitor(ctx.Table(), Idle, Idle, [])
  }

  /** The handle and count columns of the event, the counts cut to sixteen bits. */
  function Handles(lines: seq<Entry>): seq<u16> {
    seq(|lines|, i requires 0 <= i < |lines| => lines[i].handle)
  }

  function WireColumn(lines: seq<Entry>): seq<u16> {
    seq(|lines|, i requires 0 <= i < |lines| => lines[i].count % 0x1_0000)
  }

  const TOTAL_NUM_DATA_BLOCKS: u16 := 16

  /** What a monitor pass reports: the same handles and counts in either mode. */
  function ReportEvents(mode: TrafficMode, lines: seq<Entry>): seq<HciEvent> {
    if !Reported(lines) then []
    else if mode == BlockBased
    then [CompletedBlocks(Handles(lines), WireColumn(lines), WireColumn(lines), TOTAL_NUM_DATA_BLOCKS)]
    else [CompletedPackets(Handles(lines), WireColumn(lines))]
  }

  /** What the host is told of a pass, line by line, in the form of the mode. If the highest
      occupied slot read nonzero there is one event; for each occupied slot it has, behind the
      lines of the occupied slots below, the slot's handle, and the count read in sixteen
      bits; in block mode as many blocks, and a total of 16. Otherwise there is no event. */
  ghost predicate Tells(events: seq<HciEvent>, mode: TrafficMode, links: seq<LogLink>, arr: Arrivals)
    requires |links| == MAX_LOG_LINKS
  {
    if exists top :: Highest(links, top, MAX_LOG_LINKS) && Snapshot(links, arr, top) != 0 then
      |events| == 1 &&
      match events[0]
      case CompletedPackets(handles, packets) =>
        mode == PacketBased && TellsColumns(handles, packets, links, arr)
      case CompletedBlocks(handles, packets, blocks, totalBlocks) =>
        mode == BlockBased && TellsColumns(handles, packets, links, arr) &&
        blocks == packets && totalBlocks == 16
      case _ => false
    else events == []
  }

  ghost predicate TellsColumns(handles: seq<u16>, packets: seq<u16>, links: seq<LogLink>, arr: Arrivals)
    requires |links| == MAX_LOG_LINKS
  {
    && |handles| == |packets| == Occupied(links)
    && forall i :: 0 <= i < MAX_LOG_LINKS && links[i].present ==>
         var j := Occupied(links[..i]);
         j < |handles| && handles[j] == links[i].handle &&
         packets[j] == Snapshot(links, arr, i) % 0x1_0000
  }

  lemma {:induction false} ReportTells(mode: TrafficMode, links: seq<LogLink>, arr: Arrivals)
    requires |links| == MAX_LOG_LINKS
    ensures Tells(ReportEvents(mode, Lines(links, arr, MAX_LOG_LINKS)), mode, links, arr)
  {
    hide Snapshot, Lines;
    assert links[..MAX_LOG_LINKS] == links;
    LinesAreTheOccupiedSlots(links, arr, MAX_LOG_LINKS);
    GuardIsTop(links, arr);
  }

  /** Completions that TL delivers while a pass is under way. */
  method DeliverCompletions(ctx: BapContext, tags: seq<u32>)
    requires ctx.Valid()
    modifies ctx.logLinks
    ensures ctx.logLinks[..] == CreditAll(old(ctx.logLinks[..]), tags)
  {
    for k := 0 to |tags|
      invariant ctx.logLinks[..] == CreditAll(old(ctx.logLinks[..]), tags[..k])
    {
      assert tags[..k + 1][..k] == tags[..k];
      CountCompletion(ctx, tags[k]);
    }
    assert tags[..|tags|] == tags;
  }

  /** What both event functions do with one slot: read its counter and take the value off
      again. Nobody looks at the slot again in between. */
  method LookAtSlot(ctx: BapContext, i: nat, atRead: seq<u32>, atSubtraction: seq<u32>)
    returns (present: bool, handle: u16, uTxCompleted: u32)
    requires ctx.Valid() && i < MAX_LOG_LINKS
    modifies ctx.logLinks
    ensures ctx.logLinks[..] == LookedAt(old(ctx.logLinks[..]), i, atRead, atSubtraction)
    ensures var read := CreditAll(old(ctx.logLinks[..]), atRead)[i];
            present == read.present && handle == read.handle && uTxCompleted == read.txCompleted
  {
    DeliverCompletions(ctx, atRead);
    present, handle := ctx.logLinks[i].present, ctx.logLinks[i].handle;
    uTxCompleted := ctx.logLinks[i].txCompleted;
    DeliverCompletions(ctx, atSubtraction);
    if present {
      var l := ctx.logLinks[i];
      ctx.logLinks[i] := l.(txCompleted := (l.txCompleted - uTxCompleted) % U32_MODULUS);
    }
  }

  /** The loop's variables before slot i, against the reference. */
  predicate LoopState(lines: seq<Entry>, j: int, uTxCompleted: u32, handles: seq<u16>, counts: seq<u16>) {
    && j == |lines| <= |handles| == |counts|
    && handles[..j] == Handles(lines) && counts[..j] == WireColumn(lines)
    && (Reported(lines) <==> j != 0 && uTxCompleted != 0)
  }

  lemma BeforeLoop(m: Monitor, arr: Arrivals, handles: seq<u16>, counts: seq<u16>)
    requires m.Valid() && |handles| == |counts|
    ensures Paced(m, Timer, arr, 0).table.links == m.table.links
    ensures LoopState(Lines(m.table.links, arr, 0), 0, 0, handles, counts)
  {
  }

  lemma AddLine(links: seq<LogLink>, arr: Arrivals, i: nat, j: int, uTxCompleted: u32, count: u32,
                handles: seq<u16>, counts: seq<u16>)
    requires i < |links| && LoopState(Lines(links, arr, i), j, uTxCompleted, handles, counts)
    requires j < |handles| && count == Snapshot(links, arr, i)
    ensures if links[i].present
            then LoopState(Lines(links, arr, i + 1), j + 1, count,
                           handles[j := links[i].handle], counts[j := count % 0x1_0000])
            else LoopState(Lines(links, arr, i + 1), j, uTxCompleted, handles, counts)
  {
  }

  /** The loop both event functions run over the slots: it fills the columns of the event and
      takes off what it read. */
  method CollectCompleted(ctx: BapContext, arr: Arrivals, connHandles: array<u16>, numCompletedPkts: array<u16>)
    returns (j: int, uTxCompleted: u32)
    requires ctx.Valid() && connHandles != numCompletedPkts
    requires connHandles.Length == numCompletedPkts.Length == MAX_LOG_LINKS
    modifies ctx.logLinks, connHandles, numCompletedPkts
    ensures ctx.logLinks[..] == Paced(old(MonitorOf(ctx)), Timer, arr, MAX_LOG_LINKS).table.links
    ensures LoopState(Lines(old(ctx.logLinks[..]), arr, MAX_LOG_LINKS), j, uTxCompleted,
                      connHandles[..], numCompletedPkts[..])
  {
    hide Paced, LookedAt, CreditAll, Lines, LoopState;
    ghost var m := MonitorOf(ctx);
    j, uTxCompleted := 0, 0;
    BeforeLoop(m, arr, connHandles[..], numCompletedPkts[..]);
    for i := 0 to MAX_LOG_LINKS
      invariant ctx.logLinks[..] == Paced(m, Timer, arr, i).table.links && j <= i
      invariant LoopState(Lines(m.table.links, arr, i), j, uTxCompleted, connHandles[..], numCompletedPkts[..])
    {
      SlotTurn(m, Timer, arr, i);
      var present, handle, count := LookAtSlot(ctx, i, arr(2 * i), arr(2 * i + 1));
      AddLine(m.table.links, arr, i, j, uTxCompleted, count, connHandles[..], numCompletedPkts[..]);
      if present {
        uTxCompleted := count;
        connHandles[j] := handle;
        numCompletedPkts[j] := count % 0x1_0000;
        j := j + 1;
      }
    }
  }

  /** WLANBAP_SendCompletedPktsEvent, with completions arriving between its steps. */
  method SendCompletedPktsEvent(ctx: BapContext, plat: Platform, arr: Arrivals)
    requires ctx.Valid()
    modifies ctx.logLinks, plat`hciEvents
    ensures ctx.Table() == Finished(old(MonitorOf(ctx)), Timer, arr).table
    ensures var lines := Lines(old(ctx.logLinks[..]), arr, MAX_LOG_LINKS);
            plat.hciEvents == old(plat.hciEvents) + ReportEvents(PacketBased, lines)
    ensures exists events :: plat.hciEvents == old(plat.hciEvents) + events &&
                             Tells(events, PacketBased, old(ctx.logLinks[..]), arr)
  {
    ReportTells(PacketBased, ctx.logLinks[..], arr);
    ghost var m := MonitorOf(ctx);
    var connHandles, numCompletedPkts := new u16[MAX_LOG_LINKS], new u16[MAX_LOG_LINKS];
    var j, uTxCompleted := CollectCompleted(ctx, arr, connHandles, numCompletedPkts);
    DeliverCompletions(ctx, arr(2 * MAX_LOG_LINKS));
    FinishPass(m, Timer, arr);
    if j != 0 && uTxCompleted != 0 {
      plat.hciEvents := plat.hciEvents + [CompletedPackets(connHandles[..j], numCompletedPkts[..j])];
    }
  }

  /** WLANBAP_SendCompletedDataBlksEvent: the same list, with a column of blocks, one block a
      packet. */
  method SendCompletedDataBlksEvent(ctx: BapContext, plat: Platform, arr: Arrivals)
    requires ctx.Valid()
    modifies ctx.logLinks, plat`hciEvents
    ensures ctx.Table() == Finished(old(MonitorOf(ctx)), Timer, arr).table
    ensures var lines := Lines(old(ctx.logLinks[..]), arr, MAX_LOG_LINKS);
            plat.hciEvents == old(plat.hciEvents) + ReportEvents(BlockBased, lines)
    ensures exists events :: plat.hciEvents == old(plat.hciEvents) + events &&
                             Tells(events, BlockBased, old(ctx.logLinks[..]), arr)
  {
    ReportTells(BlockBased, ctx.logLinks[..], arr);
    ghost var m := MonitorOf(ctx);
    var connHandles, numCompletedPkts := new u16[MAX_LOG_LINKS], new u16[MAX_LOG_LINKS];
    var j, uTxCompleted := CollectCompleted(ctx, arr, connHandles, numCompletedPkts);
    DeliverCompletions(ctx, arr(2 * MAX_LOG_LINKS));
    FinishPass(m, Timer, arr);
    if j != 0 && uTxCompleted != 0 {
      var numCompletedBlocks := numCompletedPkts[..j];
      plat.hciEvents := plat.hciEvents +
        [CompletedBlocks(connHandles[..j], numCompletedPkts[..j], numCompletedBlocks, TOTAL_NUM_DATA_BLOCKS)];
    }
  }

  /** WLANBAP_TxPacketMonitorHandler: one pass, then the timer again if the physical link is
      still there. */
  method TxPacketMonitorHandler(ctx: BapContext, plat: Platform, arr: Arrivals)
    requires ctx.Valid()
    modifies ctx.logLinks, ctx`monitorTimer, plat`hciEvents
    ensures ctx.Table() == Finished(old(MonitorOf(ctx)), Timer, arr).table
    ensures plat.hciEvents == old(plat.hciEvents) +
              ReportEvents(ctx.trafficMode, Lines(old(ctx.logLinks[..]), arr, MAX_LOG_LINKS))
    ensures exists events :: plat.hciEvents == old(plat.hciEvents) + events &&
                             Tells(events, ctx.trafficMode, old(ctx.logLinks[..]), arr)
    ensures ctx.monitorTimer == (old(ctx.monitorTimer) || ctx.physState == Connected)
  {
    if ctx.trafficMode == BlockBased {
      SendCompletedDataBlksEvent(ctx, plat, arr);
    } else {
      SendCompletedPktsEvent(ctx, plat, arr);
    }
    if ctx.physState == Connected {
      ctx.monitorTimer := TimerAfterStart(ctx.monitorTimer, TX_PKT_MONITOR_TIME);
    }
  }
}
