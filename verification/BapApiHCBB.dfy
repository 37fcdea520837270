/** bapApiHCBB.c: the host controller and baseband commands that keep state. */
module BapApiHCBB {
  import opened Words
  import opened Vos
  import opened BapContext
  import LinkLifecycle
  import opened BapApiLinkCntl
  import T = TimeoutRegisters

  ghost function RegistersOf(ctx: BapContext): T.Registers
    reads ctx
  {
    T.Registers(ctx.connectionAcceptInterval, ctx.linkSupervisionInterval,
                ctx.logicalLinkAcceptInterval, ctx.phyLinkHandle)
  }

  /** WLAN_BAPReset; callbackStatus is what the event callback of the host returns. */
  method Reset(ctx: BapContext, plat: Platform, halPresent: bool, callbackStatus: VosStatus)
    returns (vosStatus: VosStatus, reply: Option<T.Reply>)
    modifies ctx`connectionAcceptInterval, ctx`linkSupervisionInterval, ctx`logicalLinkAcceptInterval,
             ctx`beFlushInterval, plat`roamDisconnects
    ensures (RegistersOf(ctx), reply) == T.Execute(old(RegistersOf(ctx)), T.Reset(halPresent))
    ensures ctx.beFlushInterval == if halPresent then BE_FLUSH_TIMEOUT else old(ctx.beFlushInterval)
    ensures plat.roamDisconnects ==
            old(plat.roamDisconnects) + (if halPresent && ctx.sessionOpen then 1 else 0)
    ensures vosStatus == if halPresent then callbackStatus else EFault
  {
    if !halPresent {
      return EFault, None;
    }
    if ctx.sessionOpen {
      plat.roamDisconnects := plat.roamDisconnects + 1;
    }
    ctx.connectionAcceptInterval := CONNECTION_ACCEPT_TIMEOUT;
    ctx.linkSupervisionInterval := LINK_SUPERVISION_TIMEOUT;
    ctx.logicalLinkAcceptInterval := LOGICAL_LINK_ACCEPT_TIMEOUT;
    ctx.beFlushInterval := BE_FLUSH_TIMEOUT;
    return callbackStatus, Some(T.Reply(STATUS_SUCCESS, None));
  }

  /** WLAN_BAPReadConnectionAcceptTimeout. */
  method ReadConnectionAcceptTimeout(ctx: BapContext) returns (reply: T.Reply)
    ensures (RegistersOf(ctx), Some(reply)) == T.Execute(RegistersOf(ctx), T.Read(T.ConnectionAccept, 0))
  {
    reply := T.Reply(STATUS_SUCCESS, Some(ctx.connectionAcceptInterval));
  }

  /** WLAN_BAPWriteConnectionAcceptTimeout. */
  method WriteConnectionAcceptTimeout(ctx: BapContext, timeout: u16) returns (reply: T.Reply)
    modifies ctx`connectionAcceptInterval
    ensures (RegistersOf(ctx), Some(reply)) ==
            T.Execute(old(RegistersOf(ctx)), T.Write(T.ConnectionAccept, 0, timeout))
  {
    var status: u8;
    if timeout > T.ACCEPT_TIMEOUT_MAX || timeout < T.ACCEPT_TIMEOUT_MIN {
      status := ERROR_INVALID_HCI_CMND_PARAM;
    } else {
      ctx.connectionAcceptInterval := timeout;
      status := STATUS_SUCCESS;
    }
    reply := T.Reply(status, None);
  }

  /** WLAN_BAPReadLinkSupervisionTimeout: only the low byte of the handle counts. */
  method ReadLinkSupervisionTimeout(ctx: BapContext, logLinkHandle: u16) returns (reply: T.Reply)
    ensures (RegistersOf(ctx), Some(reply)) ==
            T.Execute(RegistersOf(ctx), T.Read(T.LinkSupervision, logLinkHandle))
  {
    var phyLinkHandle := logLinkHandle % 256;
    if phyLinkHandle != ctx.phyLinkHandle {
      reply := T.Reply(ERROR_INVALID_HCI_CMND_PARAM, Some(0));
    } else {
      reply := T.Reply(STATUS_SUCCESS, Some(ctx.linkSupervisionInterval));
    }
  }

  /** WLAN_BAPWriteLinkSupervisionTimeout: any value is taken. */
  method WriteLinkSupervisionTimeout(ctx: BapContext, logLinkHandle: u16, timeout: u16)
    returns (reply: T.Reply)
    modifies ctx`linkSupervisionInterval
    ensures (RegistersOf(ctx), Some(reply)) ==
            T.Execute(old(RegistersOf(ctx)), T.Write(T.LinkSupervision, logLinkHandle, timeout))
  {
    var phyLinkHandle := logLinkHandle % 256;
    if phyLinkHandle != ctx.phyLinkHandle {
      return T.Reply(ERROR_INVALID_HCI_CMND_PARAM, None);
    }
    ctx.linkSupervisionInterval := timeout;
    reply := T.Reply(STATUS_SUCCESS, None);
  }

  /** WLAN_BAPReadLogicalLinkAcceptTimeout. */
  method ReadLogicalLinkAcceptTimeout(ctx: BapContext) returns (reply: T.Reply)
    ensures (RegistersOf(ctx), Some(reply)) == T.Execute(RegistersOf(ctx), T.Read(T.LogicalLinkAccept, 0))
  {
    reply := T.Reply(STATUS_SUCCESS, Some(ctx.logicalLinkAcceptInterval));
  }

  /** WLAN_BAPWriteLogicalLinkAcceptTimeout. */
  method WriteLogicalLinkAcceptTimeout(ctx: BapContext, timeout: u16) returns (reply: T.Reply)
    modifies ctx`logicalLinkAcceptInterval
    ensures (RegistersOf(ctx), Some(reply)) ==
            T.Execute(old(RegistersOf(ctx)), T.Write(T.LogicalLinkAccept, 0, timeout))
  {
    var status: u8;
    if timeout > T.ACCEPT_TIMEOUT_MAX || timeout < T.ACCEPT_TIMEOUT_MIN {
      status := ERROR_INVALID_HCI_CMND_PARAM;
    } else {
      ctx.logicalLinkAcceptInterval := timeout;
      status := STATUS_SUCCESS;
    }
    reply := T.Reply(status, None);
  }

  /** WLAN_BAPVendorSpecificCmd1: the next create or accept takes the deferred path. */
  method VendorSpecificCmd1(ctx: BapContext, plat: Platform) returns (status: u8)
    requires ctx.Valid()
    modifies ctx`asyncCreate
    ensures status == STATUS_SUCCESS
    ensures forall parse ::
              CtlOf(ctx, plat) == LinkLifecycle.LinkStep(old(CtlOf(ctx, plat)), LinkLifecycle.ArmDeferred, parse)
  {
    ctx.asyncCreate := true;
    status := STATUS_SUCCESS;
  }
}
