/** Logical-link commands as a machine over values, and what holds of its runs. */
module LinkLifecycle {
  import opened Words
  import opened Vos
  import opened BapContext
  import opened LinkTables

  /** What the logical-link commands read and write; `posted` counts the establishments
      waiting in the SME queue. */
  datatype LinkCtl = LinkCtl(
    phys: PhysState, phy: u8, table: LinkTable, state: LogLinkState,
    cancel: bool, async: bool, req: ReqInfo, posted: nat)

  /** Result of a create or accept: new state, return value, the status of the command
      status event and the Logical Link Complete event handed back. None: not written. */
  datatype Reply = Reply(
    ctl: LinkCtl, status: VosStatus, commandStatus: Option<u8>, complete: LogicalLinkComplete)

  function Completion(c: LinkCtl, status: Option<u8>, handle: u16, phy: u8): LogicalLinkComplete
    requires c.table.Valid() && handle / 256 < MAX_LOG_LINKS
  {
    LogicalLinkComplete(status, handle, phy, c.table.links[handle / 256].flowSpecId)
  }

  function Refuse(c: LinkCtl, commandStatus: u8, status: u8, phy: u8): Reply
    requires c.table.Valid()
  {
    Reply(c, EFailure, Some(commandStatus), Completion(c, Some(status), 0, phy))
  }

  /** Allocation with its effect on the one shared link state. */
  function Establishment(c: LinkCtl, phy: u8, txFlowSpec: seq<u8>, parse: FlowSpecParser)
    : (LinkCtl, LogicalLinkComplete)
    requires c.table.Valid()
  {
    var ok := parse(txFlowSpec).Some?;
    var c' := c.(table := Allocate(c.table, phy, txFlowSpec, parse),
                 state := if ok then LogLinkOpen else LogLinkClosed);
    var handle := HandleOf(NextIndex(c.table), phy);
    (c', Completion(c', Some(if ok then STATUS_SUCCESS else ERROR_INVALID_HCI_CMND_PARAM), handle, phy))
  }

  /** WLAN_BAPLogicalLinkCreate and WLAN_BAPLogicalLinkAccept. */
  function Request(c: LinkCtl, phy: u8, txFlowSpec: seq<u8>, rxFlowSpec: seq<u8>,
                   parse: FlowSpecParser, postOk: bool): Reply
    requires c.table.Valid()
  {
    if c.phys == Disconnected then Refuse(c, ERROR_NO_CNCT, ERROR_CMND_DISALLOWED, phy)
    else if c.phys != Connected then Refuse(c, ERROR_CMND_DISALLOWED, ERROR_CMND_DISALLOWED, phy)
    else if phy != c.phy then
      Refuse(c, ERROR_INVALID_HCI_CMND_PARAM, ERROR_INVALID_HCI_CMND_PARAM, phy)
    else if c.cancel then
      Refuse(c.(state := LogLinkClosed, cancel := false), ERROR_NO_CNCT, ERROR_NO_CNCT, phy)
    else if !c.async then
      var (c', complete) := Establishment(c, phy, txFlowSpec, parse);
      Reply(c', if c'.state == LogLinkOpen then Success else EFailure, complete.status, complete)
    else
      var kept := c.(req := ReqInfo(phy, txFlowSpec, rxFlowSpec), async := false);
      if postOk then
        var waiting := kept.(state := LogLinkInProgress, posted := c.posted + 1);
        Reply(waiting, EBusy, None, Completion(waiting, None, 0, phy))
      else
        Refuse(kept.(state := LogLinkClosed),
               ERROR_INVALID_HCI_CMND_PARAM, ERROR_INVALID_HCI_CMND_PARAM, phy)
  }

  /** WLAN_BAPEstablishLogicalLink, when a posted message is taken from the queue. */
  function Establish(c: LinkCtl, parse: FlowSpecParser): (LinkCtl, LogicalLinkComplete)
    requires c.table.Valid() && c.posted > 0
  {
    var taken := c.(posted := c.posted - 1);
    if c.cancel then
      var closed := taken.(state := LogLinkClosed, cancel := false);
      (closed, Completion(closed, Some(ERROR_NO_CNCT), 0, c.req.phy))
    else
      Establishment(taken, c.req.phy, c.req.txFlowSpec, parse)
  }

  /** WLAN_BAPLogicalLinkCancel and its status. */
  function Cancel(c: LinkCtl, phy: u8): (LinkCtl, u8) {
    if phy != c.phy then (c, ERROR_NO_CNCT)
    else match c.state
      case LogLinkClosed => (c, ERROR_NO_CNCT)
      case LogLinkOpen => (c, ERROR_MAX_NUM_ACL_CNCTS)
      case LogLinkInProgress => (c.(cancel := true), STATUS_SUCCESS)
  }

  /** WLAN_BAPLogicalLinkDisconnect past its bound check. */
  function Disconnect(c: LinkCtl, handle: u16): LinkCtl
    requires c.table.Valid()
  {
    if Releasable(c.table, handle)
    then c.(table := Release(c.table, handle), state := LogLinkClosed) else c
  }

  /** The bound check of disconnect. */
  predicate PassesBoundCheck(handle: u16) {
    handle / 256 <= MAX_LOG_LINKS
  }

  /** The memory behind the slot array reads as an occupied slot of this handle. */
  predicate Overruns(handle: u16, beyond: LogLink) {
    handle / 256 == MAX_LOG_LINKS && beyond.present && beyond.handle == handle
  }

  /** WLAN_BAPLogicalLinkDisconnect on any handle; `beyond` is what the memory behind the
      last slot reads as, and is what index 16 names. */
  function DisconnectAny(c: LinkCtl, handle: u16, beyond: LogLink): (LinkCtl, LogLink)
    requires c.table.Valid()
  {
    if Overruns(handle, beyond)
    then (c.(table := c.table.(total := (c.table.total - 1) % 256), state := LogLinkClosed),
          beyond.(present := false, txCompleted := 0, handle := 0))
    else (Disconnect(c, handle), beyond)
  }

  /** The bound check lets exactly one index through that has no slot. There, disconnect
      frees no slot; if the memory behind the array reads as an occupied slot of the handle,
      it is overwritten, the total drops by one all the same and the link state closes;
      otherwise nothing changes. Below it, the memory behind the array is never touched. */
  lemma BoundCheckIsOffByOne(c: LinkCtl, handle: u16, beyond: LogLink)
    requires c.table.Valid() && PassesBoundCheck(handle)
    ensures var (after, memory) := DisconnectAny(c, handle, beyond);
            if handle / 256 < MAX_LOG_LINKS then
              memory == beyond && after == Disconnect(c, handle)
            else
              && after.table.links == c.table.links
              && (memory != beyond <==> Overruns(handle, beyond))
              && (after != c ==> Overruns(handle, beyond))
              && (Overruns(handle, beyond) ==>
                    after.table.total == (c.table.total - 1) % 256 && after.state == LogLinkClosed &&
                    !memory.present && memory.handle == 0 && memory.txCompleted == 0 &&
                    memory.flowSpecId == beyond.flowSpecId && memory.ac == beyond.ac &&
                    memory.tid == beyond.tid && memory.up == beyond.up)
  {
  }

  // ----- what a command does and answers

  /** A Logical Link Complete event that reports success names the slot it opened: the event's
      handle is that of the one slot changed, which is occupied under it, made of the slot's
      number and the physical handle; the event carries the parser's flow spec id and the
      physical handle, and disconnecting the handle releases the slot. */
  predicate NamesOpenedSlot(t: LinkTable, r: LinkTable, complete: LogicalLinkComplete, phy: u8,
                            spec: seq<u8>, parse: FlowSpecParser)
    requires t.Valid() && r.Valid()
  {
    var i := complete.handle / 256;
    && complete.phy == phy && complete.handle % 256 == phy
    && i < MAX_LOG_LINKS && i == (t.current + 1) % 16
    && r.links[i].present && r.links[i].handle == complete.handle
    && Some(complete.flowSpecId) == parse(spec) && r.links[i].flowSpecId == complete.flowSpecId
    && (forall k :: 0 <= k < MAX_LOG_LINKS && k != i ==> r.links[k] == t.links[k])
    && Releasable(r, complete.handle)
    && !Release(r, complete.handle).links[i].present
  }

  /** A create or accept that reports success has opened the slot it names. It does so exactly
      when it is past its gates, no cancel is pending, it is not deferred, and the flow spec
      is accepted; then the command status and the return value say success, too. */
  lemma {:induction false} RequestNamesOpenedSlot(c: LinkCtl, phy: u8, txFlowSpec: seq<u8>, rxFlowSpec: seq<u8>,
                                                  parse: FlowSpecParser, postOk: bool)
    requires c.table.Valid()
    ensures var reply := Request(c, phy, txFlowSpec, rxFlowSpec, parse, postOk);
            && reply.ctl.table.Valid()
            && (reply.complete.status == Some(STATUS_SUCCESS) <==>
                  c.phys == Connected && phy == c.phy && !c.cancel && !c.async && parse(txFlowSpec).Some?)
            && (reply.complete.status == Some(STATUS_SUCCESS) <==> reply.status == Success)
            && (reply.complete.status == Some(STATUS_SUCCESS) ==>
                  reply.commandStatus == Some(STATUS_SUCCESS) && reply.ctl.state == LogLinkOpen &&
                  NamesOpenedSlot(c.table, reply.ctl.table, reply.complete, phy, txFlowSpec, parse))
  {
    AllocatedSlot(c.table, phy, txFlowSpec, parse);
    HandleParts(NextIndex(c.table), phy);
  }

  /** The same of the establishment of a posted request, with the request's own arguments. */
  lemma {:induction false} EstablishNamesOpenedSlot(c: LinkCtl, parse: FlowSpecParser)
    requires c.table.Valid() && c.posted > 0
    ensures var (done, complete) := Establish(c, parse);
            && done.table.Valid()
            && (complete.status == Some(STATUS_SUCCESS) <==> !c.cancel && parse(c.req.txFlowSpec).Some?)
            && (complete.status == Some(STATUS_SUCCESS) ==>
                  done.state == LogLinkOpen &&
                  NamesOpenedSlot(c.table, done.table, complete, c.req.phy, c.req.txFlowSpec, parse))
  {
    AllocatedSlot(c.table, c.req.phy, c.req.txFlowSpec, parse);
    HandleParts(NextIndex(c.table), c.req.phy);
  }

  /** The answer to a create or accept that does not open a slot, in status codes of the
      command status event, of the event handed back, and in the return value. */
  datatype Answer = Answer(command: Option<u8>, event: Option<u8>, retval: VosStatus)

  function ExpectedAnswer(c: LinkCtl, phy: u8, accepted: bool, postOk: bool): Answer {
    if c.phys == Disconnected then Answer(Some(0x02), Some(0x0c), EFailure)      // no connection
    else if c.phys != Connected then Answer(Some(0x0c), Some(0x0c), EFailure)    // disallowed
    else if phy != c.phy then Answer(Some(0x12), Some(0x12), EFailure)           // invalid parameter
    else if c.cancel then Answer(Some(0x02), Some(0x02), EFailure)
    else if c.async && postOk then Answer(None, None, EBusy)                     // nothing written yet
    else if c.async || !accepted then Answer(Some(0x12), Some(0x12), EFailure)
    else Answer(Some(0x00), Some(0x00), Success)
  }

  /** Every answer a create or accept gives; one that allocates nothing hands back handle 0
      with the flow spec id slot 0 has, and leaves the table alone. */
  lemma {:induction false} RequestAnswers(c: LinkCtl, phy: u8, txFlowSpec: seq<u8>, rxFlowSpec: seq<u8>,
                                          parse: FlowSpecParser, postOk: bool)
    requires c.table.Valid()
    ensures var reply := Request(c, phy, txFlowSpec, rxFlowSpec, parse, postOk);
            && Answer(reply.commandStatus, reply.complete.status, reply.status) ==
                 ExpectedAnswer(c, phy, parse(txFlowSpec).Some?, postOk)
            && reply.complete.phy == phy
            && (c.phys != Connected || phy != c.phy || c.cancel || c.async ==>
                  reply.complete.handle == 0 && reply.ctl.table == c.table &&
                  reply.complete.flowSpecId == c.table.links[0].flowSpecId)
            && (c.phys == Connected && phy == c.phy && !c.cancel && !c.async && parse(txFlowSpec) == None ==>
                  NamesRefusedSlot(c.table, reply.ctl.table, reply.complete, phy))
  {
    HandleParts(NextIndex(c.table), phy);
  }

  /** A refused flow spec: the event names the slot whose turn it was, and no slot changes. */
  predicate NamesRefusedSlot(t: LinkTable, r: LinkTable, complete: LogicalLinkComplete, phy: u8)
    requires t.Valid() && r.Valid()
  {
    var i := (t.current + 1) % 16;
    && complete.handle / 256 == i && complete.handle % 256 == phy && complete.phy == phy
    && r.links == t.links && r.current == i && complete.flowSpecId == t.links[i].flowSpecId
  }

  /** Every answer of an establishment. */
  lemma {:induction false} EstablishAnswers(c: LinkCtl, parse: FlowSpecParser)
    requires c.table.Valid() && c.posted > 0
    ensures var (done, complete) := Establish(c, parse);
            && complete.phy == c.req.phy
            && complete.status ==
                 Some(if c.cancel then 0x02 else if parse(c.req.txFlowSpec) == None then 0x12 else 0x00)
            && (c.cancel ==>
                  complete.handle == 0 && complete.flowSpecId == c.table.links[0].flowSpecId &&
                  done.table == c.table)
            && (!c.cancel && parse(c.req.txFlowSpec) == None ==>
                  NamesRefusedSlot(c.table, done.table, complete, c.req.phy))
  {
    HandleParts(NextIndex(c.table), c.req.phy);
  }

  /** Every answer of a cancel: success only while a request of this physical link is in
      progress; no connection for another handle or without a link; refused over an open one.
      It changes the flag, on success, and nothing else. */
  lemma CancelAnswers(c: LinkCtl, phy: u8)
    ensures var (after, status) := Cancel(c, phy);
            && (status == 0x00 <==> phy == c.phy && c.state == LogLinkInProgress)
            && (status == 0x0b <==> phy == c.phy && c.state == LogLinkOpen)
            && (status == 0x02 <==> phy != c.phy || c.state == LogLinkClosed)
            && (status == 0x00 ==> after.cancel) && (status != 0x00 ==> after == c)
            && after.(cancel := c.cancel) == c
  {
  }

  /** A disconnect of an occupied handle closes the link state, so that a cancel after it finds
      no connection; of any other handle it changes nothing. */
  lemma DisconnectCloses(c: LinkCtl, handle: u16, beyond: LogLink)
    requires c.table.Valid() && handle / 256 != MAX_LOG_LINKS
    ensures var i := handle / 256;
            var after := DisconnectAny(c, handle, beyond).0;
            if i < MAX_LOG_LINKS && c.table.links[i].present && c.table.links[i].handle == handle
            then after.state == LogLinkClosed && !after.table.links[i].present &&
                 Cancel(after, c.phy).1 == 0x02
            else after == c
  {
  }

  // ----- runs

  datatype LinkAction =
    | ArmDeferred                                       // WLAN_BAPVendorSpecificCmd1
    | DoRequest(phy: u8, txFlowSpec: seq<u8>, rxFlowSpec: seq<u8>, postOk: bool)
    | DoEstablish
    | DoCancel(phy: u8)
    | DoDisconnect(handle: u16, beyond: LogLink)
    | PhysCreate(newPhy: u8)                            // physical-link create or accept
    | PhysDown                                          // signalHCIPhysLinkDiscEvent
    | PhysMoves(to: PhysState, newPhy: u8)              // the link state machine

  function LinkStep(c: LinkCtl, a: LinkAction, parse: FlowSpecParser): (r: LinkCtl)
    requires c.table.Valid()
    ensures r.table.Valid()
  {
    match a
    case ArmDeferred => c.(async := true)
    case DoRequest(phy, txFlowSpec, rxFlowSpec, postOk) =>
      Request(c, phy, txFlowSpec, rxFlowSpec, parse, postOk).ctl
    case DoEstablish => if c.posted > 0 then Establish(c, parse).0 else c
    case DoCancel(phy) => Cancel(c, phy).0
    case DoDisconnect(handle, beyond) => DisconnectAny(c, handle, beyond).0
    case PhysCreate(newPhy) =>
      if c.phys == Disconnected then c.(table := ResetCounters(c.table), phy := newPhy) else c
    case PhysDown => c.(table := ReleaseAll(c.table), phy := 0)
    case PhysMoves(to, newPhy) => c.(phys := to, phy := newPhy)
  }

  function LinkRun(c: LinkCtl, run: seq<LinkAction>, parse: FlowSpecParser): (r: LinkCtl)
    requires c.table.Valid()
    ensures r.table.Valid()
  {
    if run == [] then c
    else LinkStep(LinkRun(c, run[..|run| - 1], parse), run[|run| - 1], parse)
  }

  /** Did this step allocate, and from which table with which flow spec? */
  function AllocatedSpec(c: LinkCtl, a: LinkAction): Option<seq<u8>> {
    if a.DoRequest? && c.phys == Connected && a.phy == c.phy && !c.cancel && !c.async
    then Some(a.txFlowSpec)
    else if a.DoEstablish? && c.posted > 0 && !c.cancel then Some(c.req.txFlowSpec)
    else None
  }

  function NextDrift(c: LinkCtl, a: LinkAction, parse: FlowSpecParser, drift: int): int
    requires c.table.Valid()
  {
    var spec := AllocatedSpec(c, a);
    if a.PhysDown? then 0
    else if a.PhysCreate? && c.phys == Disconnected then 0 - Occupied(c.table.links)
    else if spec.Some? && Drifts(c.table, spec.value, parse) then drift + 1
    else if a.DoDisconnect? && Overruns(a.handle, a.beyond) then drift - 1
    else drift
  }

  /** How far the total is ahead of the occupied slots: by the allocations that counted
      without occupying a slot, less the disconnects that counted without freeing one, since
      the physical link last went down; a new physical link starts it again, behind by the
      slots still occupied. */
  function Drift(c: LinkCtl, run: seq<LinkAction>, parse: FlowSpecParser): int
    requires c.table.Valid()
  {
    if run == [] then 0
    else
      var before := run[..|run| - 1];
      NextDrift(LinkRun(c, before, parse), run[|run| - 1], parse, Drift(c, before, parse))
  }

  /** What a step does to the table, whatever command caused it. */
  lemma StepOnTable(c: LinkCtl, a: LinkAction, parse: FlowSpecParser)
    requires c.table.Valid()
    ensures var t := LinkStep(c, a, parse).table;
            match AllocatedSpec(c, a)
            case Some(spec) => exists phy: u8 :: t == Allocate(c.table, phy, spec, parse)
            case None =>
              if a.DoDisconnect? && Overruns(a.handle, a.beyond)
              then t == c.table.(total := (c.table.total - 1) % 256)
              else if a.DoDisconnect? then t == Release(c.table, a.handle)
              else if a.PhysDown? then t == ReleaseAll(c.table)
              else if a.PhysCreate? && c.phys == Disconnected then t == ResetCounters(c.table)
              else t == c.table
  {
    if a.DoRequest? && AllocatedSpec(c, a).Some? {
      assert LinkStep(c, a, parse).table == Allocate(c.table, a.phy, a.txFlowSpec, parse);
    }
    if a.DoEstablish? && AllocatedSpec(c, a).Some? {
      assert LinkStep(c, a, parse).table == Allocate(c.table, c.req.phy, c.req.txFlowSpec, parse);
    }
  }

  lemma TableStep(c: LinkCtl, a: LinkAction, parse: FlowSpecParser, drift: int)
    requires Balanced(c.table, drift)
    ensures Balanced(LinkStep(c, a, parse).table, NextDrift(c, a, parse, drift))
  {
    StepOnTable(c, a, parse);
    match AllocatedSpec(c, a)
    case Some(spec) =>
      var phy: u8 :| LinkStep(c, a, parse).table == Allocate(c.table, phy, spec, parse);
      AllocateBalanced(c.table, phy, spec, parse, drift);
    case None =>
      ReleaseBalanced(c.table, if a.DoDisconnect? then a.handle else 0, drift);
      ResetBalanced(c.table, drift);
  }

  /** Slot-table theorem, over all runs: handles always lead back to their slots (so they are
      distinct), and the total is the number of occupied slots plus the drift, modulo 256. */
  lemma {:induction false} SlotTableInvariant(c: LinkCtl, run: seq<LinkAction>, parse: FlowSpecParser)
    requires Balanced(c.table, 0)
    ensures Balanced(LinkRun(c, run, parse).table, Drift(c, run, parse))
  {
    if run != [] {
      var before := run[..|run| - 1];
      SlotTableInvariant(c, before, parse);
      TableStep(LinkRun(c, before, parse), run[|run| - 1], parse, Drift(c, before, parse));
    }
  }

  /** The total equals the number of links exactly when the drift is a multiple of 256; in
      particular when the physical link came up on an empty table and no allocation since was
      rejected or landed on an occupied slot. */
  lemma {:induction false} TotalIsCountExactlyWithoutDrift(c: LinkCtl, run: seq<LinkAction>, parse: FlowSpecParser)
    requires c.table.Valid() && HandlesLeadBack(c.table)
    requires c.table.total == Occupied(c.table.links)
    ensures var t := LinkRun(c, run, parse).table;
            t.total == Occupied(t.links) <==> Drift(c, run, parse) % 256 == 0
  {
    CountIsBalanced(c.table);
    SlotTableInvariant(c, run, parse);
    BalancedByCount(LinkRun(c, run, parse).table, Drift(c, run, parse));
  }

  lemma {:induction false} LinkRunSnoc(c: LinkCtl, run: seq<LinkAction>, a: LinkAction, parse: FlowSpecParser)
    requires c.table.Valid()
    ensures LinkRun(c, run + [a], parse) == LinkStep(LinkRun(c, run, parse), a, parse)
  {
    hide LinkStep;
    assert (run + [a])[..|run|] == run;
  }

  /** The link is lost while a deferred request waits, and comes up anew after it. */
  function LostWhileWaiting(phy: u8, spec: seq<u8>, newPhy: u8): seq<LinkAction> {
    [DoRequest(phy, spec, spec, true)] + [PhysDown] + [PhysMoves(Disconnected, 0)] + [DoEstablish] +
    [PhysCreate(newPhy)]
  }

  /** How the drift can be negative, and a link outlive its physical link: the physical link
      goes down while a deferred request waits; its establishment asks for no physical link
      and opens slot 1; the next physical link sets the total to 0 over one occupied slot. */
  lemma LateEstablishmentOutlivesLink(c: LinkCtl, spec: seq<u8>, newPhy: u8, parse: FlowSpecParser)
    requires c.table.Valid() && c.phys == Connected && c.async && !c.cancel && c.posted == 0
    requires parse(spec).Some?
    ensures var run := LostWhileWaiting(c.phy, spec, newPhy);
            var late := LinkRun(c, run, parse);
            && late.phys == Disconnected && late.phy == newPhy
            && late.table.links[1].present && late.table.links[1].handle == HandleOf(1, c.phy)
            && late.table.total == 0 && Occupied(late.table.links) == 1
            && NextIndex(late.table) == 1
  {
    var a, b, d, e, f :=
      DoRequest(c.phy, spec, spec, true), PhysDown, PhysMoves(Disconnected, 0), DoEstablish, PhysCreate(newPhy);
    LinkRunSnoc(c, [], a, parse);
    LinkRunSnoc(c, [a], b, parse);
    LinkRunSnoc(c, [a] + [b], d, parse);
    LinkRunSnoc(c, [a] + [b] + [d], e, parse);
    LinkRunSnoc(c, [a] + [b] + [d] + [e], f, parse);
    assert [] + [a] == [a];
    var down := ReleaseAll(c.table);
    ReleaseAllCounts(c.table);
    AllocationCounts(down, c.phy, spec, parse);
  }

  // ----- the link state and the request, told from the run

  /** A create or accept that gets past the gates: its own checks on the physical link. */
  predicate PassesGates(c: LinkCtl, a: LinkAction) {
    a.DoRequest? && c.phys == Connected && a.phy == c.phy
  }

  predicate Establishes(c: LinkCtl, a: LinkAction) {
    a.DoEstablish? && c.posted > 0
  }

  /** The disconnect names a slot occupied under that very handle. */
  predicate NamesOccupied(c: LinkCtl, a: LinkAction)
    requires c.table.Valid()
  {
    a.DoDisconnect? &&
    (Overruns(a.handle, a.beyond) ||
     exists i :: 0 <= i < MAX_LOG_LINKS && i == a.handle / 256 && c.table.links[i].present &&
                 c.table.links[i].handle == a.handle)
  }

  /** What the last deciding event made of the link state. */
  function StateTold(c: LinkCtl, run: seq<LinkAction>, parse: FlowSpecParser): LogLinkState
    requires c.table.Valid()
  {
    if run == [] then c.state
    else
      var before, a := run[..|run| - 1], run[|run| - 1];
      var now := LinkRun(c, before, parse);
      if PassesGates(now, a) then
        if now.cancel then LogLinkClosed                  // the pending cancel is consumed
        else if DeferredTold(c, before, parse) then if a.postOk then LogLinkInProgress else LogLinkClosed
        else if parse(a.txFlowSpec).Some? then LogLinkOpen else LogLinkClosed
      else if Establishes(now, a) then
        if now.cancel || parse(now.req.txFlowSpec) == None then LogLinkClosed else LogLinkOpen
      else if NamesOccupied(now, a) then LogLinkClosed
      else StateTold(c, before, parse)
  }

  /** The vendor command arms the deferred path; the next request past its gates that no
      cancel stops uses it up. */
  predicate DeferredTold(c: LinkCtl, run: seq<LinkAction>, parse: FlowSpecParser)
    requires c.table.Valid()
  {
    if run == [] then c.async
    else
      var before, a := run[..|run| - 1], run[|run| - 1];
      var now := LinkRun(c, before, parse);
      if a.ArmDeferred? then true
      else if PassesGates(now, a) && !now.cancel then false
      else DeferredTold(c, before, parse)
  }

  /** Messages posted and not yet established. */
  function PostedTold(c: LinkCtl, run: seq<LinkAction>, parse: FlowSpecParser): int
    requires c.table.Valid()
  {
    if run == [] then c.posted
    else
      var before, a := run[..|run| - 1], run[|run| - 1];
      var now := LinkRun(c, before, parse);
      var was := PostedTold(c, before, parse);
      if PassesGates(now, a) && !now.cancel && DeferredTold(c, before, parse) && a.postOk then was + 1
      else if Establishes(now, a) then was - 1
      else was
  }

  /** The arguments of the last request that took the deferred path. */
  function RequestTold(c: LinkCtl, run: seq<LinkAction>, parse: FlowSpecParser): ReqInfo
    requires c.table.Valid()
  {
    if run == [] then c.req
    else
      var before, a := run[..|run| - 1], run[|run| - 1];
      var now := LinkRun(c, before, parse);
      if PassesGates(now, a) && !now.cancel && DeferredTold(c, before, parse)
      then ReqInfo(a.phy, a.txFlowSpec, a.rxFlowSpec)
      else RequestTold(c, before, parse)
  }

  lemma {:induction false} ToldStep(c: LinkCtl, a: LinkAction, parse: FlowSpecParser)
    requires c.table.Valid()
    ensures var d := LinkStep(c, a, parse);
            var defers := PassesGates(c, a) && !c.cancel && c.async;
            && d.state ==
                 (if PassesGates(c, a) then
                    if c.cancel then LogLinkClosed
                    else if c.async then if a.postOk then LogLinkInProgress else LogLinkClosed
                    else if parse(a.txFlowSpec).Some? then LogLinkOpen else LogLinkClosed
                  else if Establishes(c, a) then
                    if c.cancel || parse(c.req.txFlowSpec) == None then LogLinkClosed else LogLinkOpen
                  else if NamesOccupied(c, a) then LogLinkClosed
                  else c.state)
            && (d.async <==> a.ArmDeferred? || (c.async && !(PassesGates(c, a) && !c.cancel)))
            && d.posted == (if defers && a.postOk then c.posted + 1
                            else if Establishes(c, a) then c.posted - 1
                            else c.posted)
            && d.req == (if defers then ReqInfo(a.phy, a.txFlowSpec, a.rxFlowSpec) else c.req)
  {
    hide Allocate, Release, ReleaseAll;
  }

  /** Over every run of any commands: the link state is what the last deciding event made of
      it (a request past its gates, an establishment, a disconnect of an occupied handle); the
      deferred path is armed, messages are posted and the request is kept as the run tells. */
  lemma {:induction false} ControlIsTold(c: LinkCtl, run: seq<LinkAction>, parse: FlowSpecParser)
    requires c.table.Valid()
    ensures var now := LinkRun(c, run, parse);
            && now.state == StateTold(c, run, parse)
            && (now.async <==> DeferredTold(c, run, parse))
            && now.posted == PostedTold(c, run, parse)
            && now.req == RequestTold(c, run, parse)
  {
    hide LinkStep, PassesGates, Establishes, NamesOccupied;
    if run != [] {
      ControlIsTold(c, run[..|run| - 1], parse);
      ToldStep(LinkRun(c, run[..|run| - 1], parse), run[|run| - 1], parse);
    }
  }

  // ----- links without a physical link

  /** A slot is occupied only while the physical link is connected. */
  predicate LinksConnected(c: LinkCtl) {
    forall l <- c.table.links :: l.present ==> c.phys == Connected
  }

  /** The step leaves an occupied slot without a physical link: the link state machine leaves
      the connected state before the slots are freed, or a posted request is established
      after it has left. */
  predicate Strands(c: LinkCtl, a: LinkAction, parse: FlowSpecParser) {
    || (a.PhysMoves? && a.to != Connected && exists l <- c.table.links :: l.present)
    || (a.DoEstablish? && c.posted > 0 && !c.cancel && parse(c.req.txFlowSpec).Some? && c.phys != Connected)
  }

  lemma {:induction false} LinksConnectedStep(c: LinkCtl, a: LinkAction, parse: FlowSpecParser)
    requires c.table.Valid() && LinksConnected(c)
    ensures LinksConnected(LinkStep(c, a, parse)) <==> !Strands(c, a, parse)
  {
    var d := LinkStep(c, a, parse);
    StepOnTable(c, a, parse);
    if c.phys != Connected {
      assert forall i :: 0 <= i < MAX_LOG_LINKS ==> c.table.links[i] in c.table.links;
    }
    assert forall i :: 0 <= i < MAX_LOG_LINKS ==> d.table.links[i] in d.table.links;
    if a.DoEstablish? && Strands(c, a, parse) {
      assert d.table.links[NextIndex(c.table)].present;
    }
  }

  predicate StrandsNothing(c: LinkCtl, run: seq<LinkAction>, parse: FlowSpecParser)
    requires c.table.Valid()
  {
    run == [] ||
    (StrandsNothing(c, run[..|run| - 1], parse) &&
     !Strands(LinkRun(c, run[..|run| - 1], parse), run[|run| - 1], parse))
  }

  predicate ConnectedThroughout(c: LinkCtl, run: seq<LinkAction>, parse: FlowSpecParser)
    requires c.table.Valid()
  {
    LinksConnected(LinkRun(c, run, parse)) &&
    (run == [] || ConnectedThroughout(c, run[..|run| - 1], parse))
  }

  /** Over every run: slots are occupied only while the physical link is connected, at every
      step, if and only if the link state machine never leaves the connected state over an
      occupied slot and no request is established while it is out of that state. */
  lemma {:induction false} LinksConnectedExactly(c: LinkCtl, run: seq<LinkAction>, parse: FlowSpecParser)
    requires c.table.Valid() && LinksConnected(c)
    ensures ConnectedThroughout(c, run, parse) <==> StrandsNothing(c, run, parse)
  {
    hide LinkStep, Strands, LinksConnected;
    if run != [] {
      var before := run[..|run| - 1];
      LinksConnectedExactly(c, before, parse);
      if ConnectedThroughout(c, before, parse) {
        ConnectedNow(c, before, parse);
        LinksConnectedStep(LinkRun(c, before, parse), run[|run| - 1], parse);
      }
    }
  }

  lemma ConnectedNow(c: LinkCtl, run: seq<LinkAction>, parse: FlowSpecParser)
    requires c.table.Valid() && ConnectedThroughout(c, run, parse)
    ensures LinksConnected(LinkRun(c, run, parse))
  {
  }

  // ----- cancel and the deferred path

  /** Over all runs: an establishment in progress, or a pending cancel, has a posted message
      that will end it. */
  predicate Awaited(c: LinkCtl) {
    (c.state == LogLinkInProgress ==> c.posted > 0) && (c.cancel ==> c.posted > 0)
  }

  lemma {:induction false} AwaitedStep(c: LinkCtl, a: LinkAction, parse: FlowSpecParser)
    requires c.table.Valid() && Awaited(c)
    ensures Awaited(LinkStep(c, a, parse))
  {
    hide Allocate, Release, ReleaseAll, ResetCounters;
  }

  lemma {:induction false} AlwaysAwaited(c: LinkCtl, run: seq<LinkAction>, parse: FlowSpecParser)
    requires c.table.Valid() && Awaited(c)
    ensures Awaited(LinkRun(c, run, parse))
  {
    hide LinkStep, Awaited;
    if run != [] {
      AlwaysAwaited(c, run[..|run| - 1], parse);
      AwaitedStep(LinkRun(c, run[..|run| - 1], parse), run[|run| - 1], parse);
    }
  }

  /** While an establishment is outstanding, no other create, accept or disconnect. */
  predicate OneAtATime(c: LinkCtl, run: seq<LinkAction>, parse: FlowSpecParser)
    requires c.table.Valid()
  {
    run == [] ||
    (var before, a := run[..|run| - 1], run[|run| - 1];
     OneAtATime(c, before, parse) &&
     (a.DoRequest? || a.DoDisconnect? ==> LinkRun(c, before, parse).posted == 0))
  }

  predicate SingleRequest(c: LinkCtl) {
    && c.posted <= 1
    && (c.state == LogLinkInProgress <==> c.posted == 1)
    && (c.cancel ==> c.state == LogLinkInProgress)
  }

  /** One command at a time: in progress means exactly one posted establishment, and the
      cancel flag is only up while one is in progress. */
  lemma {:induction false} OneCommandAtATime(c: LinkCtl, run: seq<LinkAction>, parse: FlowSpecParser)
    requires c.table.Valid() && SingleRequest(c) && OneAtATime(c, run, parse)
    ensures SingleRequest(LinkRun(c, run, parse))
  {
    if run != [] {
      OneCommandAtATime(c, run[..|run| - 1], parse);
    }
  }

  predicate CancelSucceeds(c: LinkCtl, a: LinkAction) {
    a.DoCancel? && Cancel(c, a.phy).1 == STATUS_SUCCESS
  }

  /** Of the cancels answered with success, the creates and accepts past the gates, and the
      establishments, the last one in the run is a cancel. */
  predicate CancelStands(c: LinkCtl, run: seq<LinkAction>, parse: FlowSpecParser)
    requires c.table.Valid()
  {
    run != [] &&
    (var before, a := run[..|run| - 1], run[|run| - 1];
     var now := LinkRun(c, before, parse);
     CancelSucceeds(now, a) ||
     (!PassesGates(now, a) && !Establishes(now, a) && CancelStands(c, before, parse)))
  }

  lemma {:induction false} CancelStep(c: LinkCtl, a: LinkAction, parse: FlowSpecParser)
    requires c.table.Valid()
    ensures LinkStep(c, a, parse).cancel <==>
            CancelSucceeds(c, a) || (!PassesGates(c, a) && !Establishes(c, a) && c.cancel)
    ensures !PassesGates(c, a) && !Establishes(c, a) ==>
            LinkStep(c, a, parse).posted == c.posted && LinkStep(c, a, parse).req == c.req
  {
    hide Allocate, Release, ReleaseAll;
  }

  /** Over every run of any commands the cancel flag is up exactly when a cancel stands. */
  lemma {:induction false} CancelFlagIsCancelStands(c: LinkCtl, run: seq<LinkAction>, parse: FlowSpecParser)
    requires c.table.Valid() && !c.cancel
    ensures LinkRun(c, run, parse).cancel <==> CancelStands(c, run, parse)
  {
    hide LinkStep, CancelSucceeds, PassesGates, Establishes;
    if run != [] {
      CancelFlagIsCancelStands(c, run[..|run| - 1], parse);
      CancelStep(LinkRun(c, run[..|run| - 1], parse), run[|run| - 1], parse);
    }
  }

  lemma EstablishOutcome(c: LinkCtl, parse: FlowSpecParser)
    requires c.table.Valid() && c.posted > 0
    ensures var (done, complete) := Establish(c, parse);
            && done.posted == c.posted - 1 && !done.cancel && done.state != LogLinkInProgress
            && (complete.status == Some(ERROR_NO_CNCT) <==> c.cancel)
            && (done.table == c.table <==> c.cancel)
            && (c.cancel ==> done.state == LogLinkClosed && complete.handle == 0)
            && (!c.cancel ==>
                  done.table == Allocate(c.table, c.req.phy, c.req.txFlowSpec, parse) &&
                  (done.state == LogLinkOpen <==> parse(c.req.txFlowSpec).Some?) &&
                  (complete.status == Some(STATUS_SUCCESS) <==> parse(c.req.txFlowSpec).Some?))
  {
    assert Allocate(c.table, c.req.phy, c.req.txFlowSpec, parse).current != c.table.current;
  }

  /** When a cancel stands: after every run of any commands, the next establishment completes
      with no-connection, and fills no slot, exactly when a cancel stands; otherwise it
      allocates once and completes with the parser's verdict. */
  lemma {:induction false} EstablishmentOutcome(c: LinkCtl, run: seq<LinkAction>, parse: FlowSpecParser)
    requires c.table.Valid() && !c.cancel && LinkRun(c, run, parse).posted > 0
    ensures var now := LinkRun(c, run, parse);
            var (done, complete) := Establish(now, parse);
            && (complete.status == Some(ERROR_NO_CNCT) <==> CancelStands(c, run, parse))
            && (done.table == now.table <==> CancelStands(c, run, parse))
            && (CancelStands(c, run, parse) ==> done.state == LogLinkClosed && complete.handle == 0)
            && (!CancelStands(c, run, parse) ==>
                  done.table == Allocate(now.table, now.req.phy, now.req.txFlowSpec, parse) &&
                  (done.state == LogLinkOpen <==> parse(now.req.txFlowSpec).Some?) &&
                  (complete.status == Some(STATUS_SUCCESS) <==> parse(now.req.txFlowSpec).Some?))
  {
    CancelFlagIsCancelStands(c, run, parse);
    EstablishOutcome(LinkRun(c, run, parse), parse);
  }

  /** Did some Cancel in this run return success? */
  predicate CancelSucceeded(c: LinkCtl, run: seq<LinkAction>, parse: FlowSpecParser)
    requires c.table.Valid()
  {
    run != [] &&
    (CancelSucceeded(c, run[..|run| - 1], parse) ||
     CancelSucceeds(LinkRun(c, run[..|run| - 1], parse), run[|run| - 1]))
  }

  /** No create or accept gets past the gates, and nothing is established; anything else may
      happen, refused requests and disconnects included. */
  predicate Unrivalled(c: LinkCtl, run: seq<LinkAction>, parse: FlowSpecParser)
    requires c.table.Valid()
  {
    run == [] ||
    (var now := LinkRun(c, run[..|run| - 1], parse);
     Unrivalled(c, run[..|run| - 1], parse) &&
     !PassesGates(now, run[|run| - 1]) && !Establishes(now, run[|run| - 1]))
  }

  lemma {:induction false} UnrivalledRun(c: LinkCtl, run: seq<LinkAction>, parse: FlowSpecParser)
    requires c.table.Valid() && Unrivalled(c, run, parse)
    ensures LinkRun(c, run, parse).posted == c.posted && LinkRun(c, run, parse).req == c.req
    ensures CancelStands(c, run, parse) <==> CancelSucceeded(c, run, parse)
  {
    hide LinkStep, CancelSucceeds, PassesGates, Establishes;
    if run != [] {
      UnrivalledRun(c, run[..|run| - 1], parse);
      CancelStep(LinkRun(c, run[..|run| - 1], parse), run[|run| - 1], parse);
    }
  }

  /** A deferred request ends in exactly one outcome. With no rival request meanwhile: if a
      Cancel returned success, establishment leaves the table alone and completes with
      no-connection; otherwise it allocates once, with the request's own arguments, and
      completes with the parser's verdict. */
  lemma {:induction false} DeferredOutcome(c: LinkCtl, run: seq<LinkAction>, parse: FlowSpecParser)
    requires c.table.Valid() && c.posted > 0 && !c.cancel && Unrivalled(c, run, parse)
    ensures var now := LinkRun(c, run, parse);
            now.posted > 0 &&
            var (done, complete) := Establish(now, parse);
            && done.posted == c.posted - 1 && !done.cancel && done.state != LogLinkInProgress
            && (CancelSucceeded(c, run, parse) ==>
                  done.table == now.table && done.state == LogLinkClosed &&
                  complete.status == Some(ERROR_NO_CNCT) && complete.handle == 0)
            && (!CancelSucceeded(c, run, parse) ==>
                  done.table == Allocate(now.table, c.req.phy, c.req.txFlowSpec, parse) &&
                  (done.state == LogLinkOpen <==> parse(c.req.txFlowSpec).Some?) &&
                  (complete.status == Some(STATUS_SUCCESS) <==> parse(c.req.txFlowSpec).Some?) &&
                  complete.status != Some(ERROR_NO_CNCT))
  {
    UnrivalledRun(c, run, parse);
    EstablishmentOutcome(c, run, parse);
    EstablishOutcome(LinkRun(c, run, parse), parse);
  }

  /** The shared flag at work: a second create consumes the pending cancel, and the first
      request then opens a link although its cancel had succeeded. */
  lemma SecondCreateDefeatsCancel(c: LinkCtl, spec: seq<u8>, parse: FlowSpecParser)
    requires c.table.Valid() && c.phys == Connected && c.async && !c.cancel && c.posted == 0
    requires parse(spec).Some?
    ensures var waiting := Request(c, c.phy, spec, spec, parse, true).ctl;
            var (cancelled, status) := Cancel(waiting, c.phy);
            var second := Request(cancelled, c.phy, spec, spec, parse, true);
            && status == STATUS_SUCCESS
            && second.commandStatus == Some(ERROR_NO_CNCT)
            && second.ctl.posted > 0
            && Establish(second.ctl, parse).0.state == LogLinkOpen
            && Establish(second.ctl, parse).0.table == Allocate(c.table, c.phy, spec, parse)
  {
  }

  /** Deferred equals synchronous: same arguments, no cancel; the deferred request followed
      by its establishment ends with the table, the link state and the Logical Link Complete
      event of the synchronous one. */
  lemma {:induction false} DeferredEqualsSynchronous(c: LinkCtl, phy: u8, txFlowSpec: seq<u8>, rxFlowSpec: seq<u8>,
                                  parse: FlowSpecParser, run: seq<LinkAction>)
    requires c.table.Valid() && c.phys == Connected && phy == c.phy && !c.cancel
    requires forall a <- run :: a.ArmDeferred? || a.PhysMoves?
    ensures var sync := Request(c.(async := false), phy, txFlowSpec, rxFlowSpec, parse, true);
            var deferred := Request(c.(async := true), phy, txFlowSpec, rxFlowSpec, parse, true);
            var later := LinkRun(deferred.ctl, run, parse);
            later.posted > 0 &&
            var (done, complete) := Establish(later, parse);
            && done.table == sync.ctl.table && done.state == sync.ctl.state
            && done.cancel == sync.ctl.cancel && done.posted == sync.ctl.posted
            && complete == sync.complete
            && deferred.status == EBusy && sync.status != EBusy
  {
    var deferred := Request(c.(async := true), phy, txFlowSpec, rxFlowSpec, parse, true);
    UntouchedWhileWaiting(deferred.ctl, run, parse);
  }

  lemma {:induction false} UntouchedWhileWaiting(c: LinkCtl, run: seq<LinkAction>, parse: FlowSpecParser)
    requires c.table.Valid()
    requires forall a <- run :: a.ArmDeferred? || a.PhysMoves?
    ensures var now := LinkRun(c, run, parse);
            now == c.(phys := now.phys, phy := now.phy, async := now.async)
  {
    if run != [] {
      var before := run[..|run| - 1];
      assert forall a <- before :: a in run;
      UntouchedWhileWaiting(c, before, parse);
      assert run[|run| - 1] in run;
    }
  }
}
