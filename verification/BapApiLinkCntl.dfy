/** bapApiLinkCntl.c: the logical-link commands of the host, and the two places outside it
    that touch the slot table (bapModule.c, btampFsm.c). */
module BapApiLinkCntl {
  import opened Words
  import opened Vos
  import opened BapContext
  import opened LinkTables
  import opened LinkLifecycle

  ghost function CtlOf(ctx: BapContext, plat: Platform): (c: LinkCtl)
    reads ctx, ctx.logLinks, plat
    requires ctx.Valid()
    ensures c.table.Valid()
  {
    LinkCtl(ctx.physState, ctx.phyLinkHandle, ctx.Table(), ctx.logLinkState,
            ctx.cancelPending, ctx.asyncCreate, ctx.reqInfo, plat.smeQueue)
  }

  /** WLANBAP_CreateNewLogLinkCtx. */
  method CreateNewLogLinkCtx(ctx: BapContext, phy: u8, txFlowSpec: seq<u8>, parse: FlowSpecParser)
    returns (status: VosStatus, logLinkHandle: u16)
    requires ctx.Valid()
    modifies ctx`currentLogLinkIndex, ctx`totalLogLinkIndex, ctx.logLinks
    ensures ctx.Valid()
    ensures ctx.Table() == Allocate(old(ctx.Table()), phy, txFlowSpec, parse)
    ensures logLinkHandle == HandleOf(NextIndex(old(ctx.Table())), phy)
    ensures status == if parse(txFlowSpec).Some? then Success else EBadMsg
  {
    var i := (ctx.currentLogLinkIndex + 1) % 16;
    ctx.currentLogLinkIndex := i;
    ctx.totalLogLinkIndex := (ctx.totalLogLinkIndex + 1) % 256;
    logLinkHandle := HandleOf(i, phy);
    var flowSpecId := parse(txFlowSpec);
    if flowSpecId == None {
      return EBadMsg, logLinkHandle;
    }
    ctx.logLinks[i] := LogLink(true, logLinkHandle, flowSpecId.value, 1, 0, 0, 0);
    status := Success;
  }

  /** WLANBAP_CreateNewPhyLinkCtx, as far as the link state goes. */
  method CreateNewPhyLinkCtx(ctx: BapContext, phy: u8)
    requires ctx.Valid()
    modifies ctx`currentLogLinkIndex, ctx`totalLogLinkIndex, ctx`phyLinkHandle
    ensures ctx.Valid()
    ensures ctx.Table() == ResetCounters(old(ctx.Table())) && ctx.phyLinkHandle == phy
  {
    ctx.currentLogLinkIndex := 0;
    ctx.totalLogLinkIndex := 0;
    ctx.phyLinkHandle := phy;
  }

  /** WLAN_BAPPhysicalLinkCreate and WLAN_BAPPhysicalLinkAccept; `next` and fsmStatus are the
      state the link state machine goes to and the status it gives. */
  method PhysicalLinkCreate(ctx: BapContext, plat: Platform, phy: u8, next: PhysState, fsmStatus: u8)
    returns (status: u8)
    requires ctx.Valid()
    modifies ctx`physState, ctx`currentLogLinkIndex, ctx`totalLogLinkIndex, ctx`phyLinkHandle
    ensures ctx.Valid()
    ensures old(ctx.physState) == Disconnected ==>
            status == fsmStatus && forall parse ::
              CtlOf(ctx, plat) ==
              LinkStep(LinkStep(old(CtlOf(ctx, plat)), PhysCreate(phy), parse), PhysMoves(next, phy), parse)
    ensures old(ctx.physState) != Disconnected ==>
            status == ERROR_MAX_NUM_CNCTS && CtlOf(ctx, plat) == old(CtlOf(ctx, plat))
  {
    if ctx.physState != Disconnected {
      return ERROR_MAX_NUM_CNCTS;
    }
    CreateNewPhyLinkCtx(ctx, phy);
    ctx.physState := next;
    status := fsmStatus;
  }

  /** btampEstablishLogLink: post the request to the SME, unless memory or the queue fails. */
  method PostEstablishment(plat: Platform, postOk: bool) returns (status: VosStatus)
    modifies plat`smeQueue
    ensures status == Success <==> postOk
    ensures plat.smeQueue == old(plat.smeQueue) + if postOk then 1 else 0
  {
    if !postOk {
      return ENoMem;
    }
    plat.smeQueue := plat.smeQueue + 1;
    status := Success;
  }

  /** WLAN_BAPLogicalLinkCreate. */
  method LogicalLinkCreate(ctx: BapContext, plat: Platform, phy: u8,
                           txFlowSpec: seq<u8>, rxFlowSpec: seq<u8>,
                           parse: FlowSpecParser, postOk: bool)
    returns (retval: VosStatus, complete: LogicalLinkComplete)
    requires ctx.Valid()
    modifies ctx`logLinkState, ctx`cancelPending, ctx`asyncCreate, ctx`reqInfo,
             ctx`currentLogLinkIndex, ctx`totalLogLinkIndex, ctx.logLinks,
             plat`smeQueue, plat`hciEvents
    ensures ctx.Valid()
    ensures var reply := Request(old(CtlOf(ctx, plat)), phy, txFlowSpec, rxFlowSpec, parse, postOk);
            && CtlOf(ctx, plat) == reply.ctl
            && retval == reply.status && complete == reply.complete
            && plat.hciEvents ==
                 old(plat.hciEvents) + [CommandStatus(CreateLogicalLinkCmd, reply.commandStatus)]
    ensures retval == Success ==>
            complete.status == Some(STATUS_SUCCESS) && ctx.logLinkState == LogLinkOpen &&
            NamesOpenedSlot(old(ctx.Table()), ctx.Table(), complete, phy, txFlowSpec, parse)
  {
    hide NamesOpenedSlot;
    RequestNamesOpenedSlot(CtlOf(ctx, plat), phy, txFlowSpec, rxFlowSpec, parse, postOk);
    var logLinkHandle: u16, status: Option<u8>, commandStatus: Option<u8> := 0, None, None;
    var vosStatus;
    retval := EFailure;
    if ctx.physState == Disconnected {
      status, commandStatus := Some(ERROR_CMND_DISALLOWED), Some(ERROR_NO_CNCT);
    } else if ctx.physState != Connected {
      status, commandStatus := Some(ERROR_CMND_DISALLOWED), Some(ERROR_CMND_DISALLOWED);
    } else if phy != ctx.phyLinkHandle {
      status, commandStatus := Some(ERROR_INVALID_HCI_CMND_PARAM), Some(ERROR_INVALID_HCI_CMND_PARAM);
    } else {
      ctx.logLinkState := LogLinkInProgress;
      if ctx.cancelPending {
        status, commandStatus := Some(ERROR_NO_CNCT), Some(ERROR_NO_CNCT);
        ctx.logLinkState := LogLinkClosed;
        ctx.cancelPending := false;
      } else if !ctx.asyncCreate {
        vosStatus, logLinkHandle := CreateNewLogLinkCtx(ctx, phy, txFlowSpec, parse);
        if vosStatus != Success {
          status, commandStatus := Some(ERROR_INVALID_HCI_CMND_PARAM), Some(ERROR_INVALID_HCI_CMND_PARAM);
          ctx.logLinkState := LogLinkClosed;
        } else {
          retval := Success;
          status, commandStatus := Some(STATUS_SUCCESS), Some(STATUS_SUCCESS);
          ctx.logLinkState := LogLinkOpen;
        }
      } else {
        ctx.reqInfo := ReqInfo(phy, txFlowSpec, rxFlowSpec);
        ctx.asyncCreate := false;
        vosStatus := PostEstablishment(plat, postOk);
        if vosStatus == Success {
          retval := EBusy;
        } else {
          status, commandStatus := Some(ERROR_INVALID_HCI_CMND_PARAM), Some(ERROR_INVALID_HCI_CMND_PARAM);
          ctx.logLinkState := LogLinkClosed;
        }
      }
    }
    plat.hciEvents := plat.hciEvents + [CommandStatus(CreateLogicalLinkCmd, commandStatus)];
    complete := LogicalLinkComplete(status, logLinkHandle, phy, ctx.logLinks[logLinkHandle / 256].flowSpecId);
  }

  /** WLAN_BAPLogicalLinkAccept: the transitions of create under its own opcode. */
  method LogicalLinkAccept(ctx: BapContext, plat: Platform, phy: u8,
                           txFlowSpec: seq<u8>, rxFlowSpec: seq<u8>,
                           parse: FlowSpecParser, postOk: bool)
    returns (retval: VosStatus, complete: LogicalLinkComplete)
    requires ctx.Valid()
    modifies ctx`logLinkState, ctx`cancelPending, ctx`asyncCreate, ctx`reqInfo,
             ctx`currentLogLinkIndex, ctx`totalLogLinkIndex, ctx.logLinks,
             plat`smeQueue, plat`hciEvents
    ensures ctx.Valid()
    ensures var reply := Request(old(CtlOf(ctx, plat)), phy, txFlowSpec, rxFlowSpec, parse, postOk);
            && CtlOf(ctx, plat) == reply.ctl
            && retval == reply.status && complete == reply.complete
            && plat.hciEvents ==
                 old(plat.hciEvents) + [CommandStatus(AcceptLogicalLinkCmd, reply.commandStatus)]
    ensures retval == Success ==>
            complete.status == Some(STATUS_SUCCESS) && ctx.logLinkState == LogLinkOpen &&
            NamesOpenedSlot(old(ctx.Table()), ctx.Table(), complete, phy, txFlowSpec, parse)
  {
    hide NamesOpenedSlot;
    RequestNamesOpenedSlot(CtlOf(ctx, plat), phy, txFlowSpec, rxFlowSpec, parse, postOk);
    var logLinkHandle: u16, status: Option<u8>, commandStatus: Option<u8> := 0, None, None;
    var vosStatus;
    retval := EFailure;
    if ctx.physState == Disconnected {
      status, commandStatus := Some(ERROR_CMND_DISALLOWED), Some(ERROR_NO_CNCT);
    } else if ctx.physState != Connected {
      status, commandStatus := Some(ERROR_CMND_DISALLOWED), Some(ERROR_CMND_DISALLOWED);
    } else if phy != ctx.phyLinkHandle {
      status, commandStatus := Some(ERROR_INVALID_HCI_CMND_PARAM), Some(ERROR_INVALID_HCI_CMND_PARAM);
    } else {
      ctx.logLinkState := LogLinkInProgress;
      if ctx.cancelPending {
        status, commandStatus := Some(ERROR_NO_CNCT), Some(ERROR_NO_CNCT);
        ctx.logLinkState := LogLinkClosed;
        ctx.cancelPending := false;
      } else if !ctx.asyncCreate {
        vosStatus, logLinkHandle := CreateNewLogLinkCtx(ctx, phy, txFlowSpec, parse);
        if vosStatus != Success {
          status, commandStatus := Some(ERROR_INVALID_HCI_CMND_PARAM), Some(ERROR_INVALID_HCI_CMND_PARAM);
          ctx.logLinkState := LogLinkClosed;
        } else {
          retval := Success;
          status, commandStatus := Some(STATUS_SUCCESS), Some(STATUS_SUCCESS);
          ctx.logLinkState := LogLinkOpen;
        }
      } else {
        ctx.reqInfo := ReqInfo(phy, txFlowSpec, rxFlowSpec);
        ctx.asyncCreate := false;
        vosStatus := PostEstablishment(plat, postOk);
        if vosStatus == Success {
          retval := EBusy;
        } else {
          status, commandStatus := Some(ERROR_INVALID_HCI_CMND_PARAM), Some(ERROR_INVALID_HCI_CMND_PARAM);
          ctx.logLinkState := LogLinkClosed;
        }
      }
    }
    plat.hciEvents := plat.hciEvents + [CommandStatus(AcceptLogicalLinkCmd, commandStatus)];
    complete := LogicalLinkComplete(status, logLinkHandle, phy, ctx.logLinks[logLinkHandle / 256].flowSpecId);
  }

  /** WLAN_BAPEstablishLogicalLink, run by the SME for one posted request. */
  method EstablishLogicalLink(ctx: BapContext, plat: Platform, parse: FlowSpecParser)
    requires ctx.Valid() && plat.smeQueue > 0
    modifies ctx`logLinkState, ctx`cancelPending, ctx`currentLogLinkIndex, ctx`totalLogLinkIndex,
             ctx.logLinks, plat`smeQueue, plat`hciEvents
    ensures ctx.Valid()
    ensures var (done, complete) := Establish(old(CtlOf(ctx, plat)), parse);
            && CtlOf(ctx, plat) == done
            && plat.hciEvents == old(plat.hciEvents) + [LogicalLinkCompleted(complete)]
            && (ctx.logLinkState == LogLinkOpen ==>
                  complete.status == Some(STATUS_SUCCESS) &&
                  NamesOpenedSlot(old(ctx.Table()), ctx.Table(), complete, old(ctx.reqInfo.phy),
                                  old(ctx.reqInfo.txFlowSpec), parse))
  {
    hide NamesOpenedSlot;
    EstablishNamesOpenedSlot(CtlOf(ctx, plat), parse);
    plat.smeQueue := plat.smeQueue - 1;
    var logLinkHandle: u16, status := 0, STATUS_SUCCESS;
    if ctx.cancelPending {
      status := ERROR_NO_CNCT;
      ctx.logLinkState := LogLinkClosed;
      ctx.cancelPending := false;
    } else {
      var vosStatus;
      vosStatus, logLinkHandle :=
        CreateNewLogLinkCtx(ctx, ctx.reqInfo.phy, ctx.reqInfo.txFlowSpec, parse);
      if vosStatus != Success {
        status := ERROR_INVALID_HCI_CMND_PARAM;
        ctx.logLinkState := LogLinkClosed;
      } else {
        ctx.logLinkState := LogLinkOpen;
      }
    }
    plat.hciEvents := plat.hciEvents +
      [LogicalLinkCompleted(LogicalLinkComplete(
         Some(status), logLinkHandle, ctx.reqInfo.phy, ctx.logLinks[logLinkHandle / 256].flowSpecId))];
  }

  /** WLAN_BAPLogicalLinkCancel. */
  method LogicalLinkCancel(ctx: BapContext, plat: Platform, phy: u8) returns (status: u8)
    requires ctx.Valid()
    modifies ctx`cancelPending
    ensures (CtlOf(ctx, plat), status) == Cancel(old(CtlOf(ctx, plat)), phy)
  {
    if phy != ctx.phyLinkHandle {
      return ERROR_NO_CNCT;
    }
    if ctx.logLinkState == LogLinkClosed {
      status := ERROR_NO_CNCT;
    } else if ctx.logLinkState == LogLinkOpen {
      status := ERROR_MAX_NUM_ACL_CNCTS;
    } else {
      ctx.cancelPending := true;
      status := STATUS_SUCCESS;
    }
  }

  /** WLAN_BAPLogicalLinkDisconnect. The check lets index 16 through, which names the memory
      behind the slot array: `beyond` is what that reads as, `memory` what is left there.
      Released is the status of the event handed back. */
  method LogicalLinkDisconnect(ctx: BapContext, plat: Platform, logLinkHandle: u16, beyond: LogLink)
    returns (retval: VosStatus, released: u8, memory: LogLink)
    requires ctx.Valid()
    modifies ctx`logLinkState, ctx`totalLogLinkIndex, ctx.logLinks, plat`hciEvents
    ensures ctx.Valid()
    ensures (CtlOf(ctx, plat), memory) == DisconnectAny(old(CtlOf(ctx, plat)), logLinkHandle, beyond)
    ensures retval == Success <==>
            Releasable(old(ctx.Table()), logLinkHandle) || Overruns(logLinkHandle, beyond)
    ensures released == if retval == Success then STATUS_SUCCESS else ERROR_INVALID_HCI_CMND_PARAM
    ensures retval == EInval <==> !PassesBoundCheck(logLinkHandle)
    ensures retval == Success ==> ctx.logLinkState == LogLinkClosed
    ensures retval == Success && logLinkHandle / 256 < MAX_LOG_LINKS ==>
            !ctx.logLinks[logLinkHandle / 256].present
    ensures retval != Success ==> CtlOf(ctx, plat) == old(CtlOf(ctx, plat)) && memory == beyond
    ensures plat.hciEvents == old(plat.hciEvents) +
              if retval == EInval then []
              else [CommandStatus(DisconnectLogicalLinkCmd,
                                  Some(if retval == Success then STATUS_SUCCESS else ERROR_NO_CNCT))]
  {
    memory := beyond;
    var i := logLinkHandle / 256;
    if i > MAX_LOG_LINKS {
      return EInval, ERROR_INVALID_HCI_CMND_PARAM, memory;
    }
    var l := if i == MAX_LOG_LINKS then beyond else ctx.logLinks[i];
    var commandStatus;
    if !l.present || logLinkHandle != l.handle {
      retval, released, commandStatus := EFailure, ERROR_INVALID_HCI_CMND_PARAM, ERROR_NO_CNCT;
    } else {
      retval, released, commandStatus := Success, STATUS_SUCCESS, STATUS_SUCCESS;
      var freed := l.(present := false, txCompleted := 0, handle := 0);
      if i == MAX_LOG_LINKS {
        memory := freed;
      } else {
        ctx.logLinks[i] := freed;
      }
      ctx.totalLogLinkIndex := (ctx.totalLogLinkIndex - 1) % 256;
      ctx.logLinkState := LogLinkClosed;
    }
    plat.hciEvents := plat.hciEvents + [CommandStatus(DisconnectLogicalLinkCmd, Some(commandStatus))];
  }

  /** The events of a physical disconnection: one for each occupied slot below n, in order. */
  function DisconnectEvents(links: seq<LogLink>, n: nat, phy: u8): seq<HciEvent>
    requires n <= |links| <= MAX_LOG_LINKS
  {
    if n == 0 then []
    else if !links[n - 1].present then DisconnectEvents(links, n - 1, phy)
    else DisconnectEvents(links, n - 1, phy) +
         [LogicalLinkDisconnected(STATUS_SUCCESS, HandleOf(n - 1, phy), ERROR_TERM_BY_LOCAL_HOST)]
  }

  /** What the host is told of the links lost, slot by slot: one event for each occupied slot,
      behind those of the occupied slots below, with success, the slot's handle on this
      physical link, and termination by the local host as the reason. */
  lemma {:induction false} LostLinksTold(links: seq<LogLink>, n: nat, phy: u8)
    requires n <= |links| <= MAX_LOG_LINKS
    ensures |DisconnectEvents(links, n, phy)| == Occupied(links[..n])
    ensures forall i :: 0 <= i < n && links[i].present ==>
              var j := Occupied(links[..i]);
              j < |DisconnectEvents(links, n, phy)| &&
              DisconnectEvents(links, n, phy)[j] == LogicalLinkDisconnected(0x00, 256 * i + phy, 0x16)
  {
    if n > 0 {
      LostLinksTold(links, n - 1, phy);
      OccupiedAppend(links[..n - 1], links[n - 1]);
      assert links[..n - 1] + [links[n - 1]] == links[..n];
    }
  }

  /** signalHCIPhysLinkDiscEvent. */
  method SignalPhysLinkDisc(ctx: BapContext, plat: Platform, status: u8, reason: u8)
    requires ctx.Valid()
    modifies ctx`currentLogLinkIndex, ctx`totalLogLinkIndex, ctx`phyLinkHandle, ctx`monitorTimer,
             ctx.logLinks, plat`hciEvents
    ensures ctx.Valid() && !ctx.monitorTimer
    ensures CtlOf(ctx, plat) ==
            old(CtlOf(ctx, plat)).(table := ReleaseAll(old(ctx.Table())), phy := 0)
    ensures plat.hciEvents == old(plat.hciEvents) +
            DisconnectEvents(old(ctx.logLinks[..]), MAX_LOG_LINKS, old(ctx.phyLinkHandle)) +
            [PhysicalLinkDisconnected(status, reason, old(ctx.phyLinkHandle))]
  {
    ghost var links, events, phy := ctx.logLinks[..], plat.hciEvents, ctx.phyLinkHandle;
    for i := 0 to MAX_LOG_LINKS
      invariant forall k :: 0 <= k < i ==> ctx.logLinks[k] == links[k].(present := false)
      invariant forall k :: i <= k < MAX_LOG_LINKS ==> ctx.logLinks[k] == links[k]
      invariant ctx.phyLinkHandle == phy
      invariant plat.hciEvents == events + DisconnectEvents(links, i, phy)
    {
      if ctx.logLinks[i].present {
        ctx.logLinks[i] := ctx.logLinks[i].(present := false);
        plat.hciEvents := plat.hciEvents +
          [LogicalLinkDisconnected(STATUS_SUCCESS, HandleOf(i, ctx.phyLinkHandle), ERROR_TERM_BY_LOCAL_HOST)];
      }
    }
    ctx.currentLogLinkIndex := 0;
    ctx.totalLogLinkIndex := 0;
    ctx.monitorTimer := false;
    plat.hciEvents := plat.hciEvents + [PhysicalLinkDisconnected(status, reason, ctx.phyLinkHandle)];
    ctx.phyLinkHandle := 0;
    assert ctx.logLinks[..] == ReleaseAll(old(ctx.Table())).links;
  }
}
