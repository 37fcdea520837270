/** Start and stop of the link supervision timer. */
module SupervisionTimer {
  import opened Words
  import opened Vos
  import opened BapContext

  /** WLANBAP_BREDR_BASEBAND_SLOT_TIME, in the timer's milliseconds. */
  const BASEBAND_SLOT_TIME: nat := 1

  /** The status is Success whatever the timer said. */
  method StartLinkSupervisionTimer(ctx: BapContext, interval: nat) returns (status: VosStatus)
    modifies ctx`supervisionTimer
    ensures status == Success
    ensures ctx.supervisionTimer == TimerAfterStart(old(ctx.supervisionTimer), interval)
  {
    if interval < MIN_TIMER_MS {
      // refused
    } else if ctx.supervisionTimer {
      // already running
    } else {
      ctx.supervisionTimer := true;
    }
    status := Success;
  }

  method StopLinkSupervisionTimer(ctx: BapContext) returns (status: VosStatus)
    modifies ctx`supervisionTimer
    ensures status == Success && !ctx.supervisionTimer
  {
    ctx.supervisionTimer := false;
    status := Success;
  }

  /** Stop and start, unless the interval is 0: supervision is switched off then. */
  method RestartUnlessInfinite(ctx: BapContext) returns (status: VosStatus)
    modifies ctx`supervisionTimer
    ensures status == Success
    ensures ctx.supervisionTimer ==
            if ctx.linkSupervisionInterval != 0
            then TimerAfterStart(false, ctx.linkSupervisionInterval)
            else old(ctx.supervisionTimer)
  {
    status := Success;
    if ctx.linkSupervisionInterval != 0 {
      status := StopLinkSupervisionTimer(ctx);
      status := StartLinkSupervisionTimer(ctx, ctx.linkSupervisionInterval * BASEBAND_SLOT_TIME);
    }
  }
}

/** bapApiLinkSupervision.c: the frames of the heartbeat. */
module BapApiLinkSupervision {
  import opened Words
  import opened Vos
  import opened BapContext
  import opened FrameFormat
  import opened SupervisionTimer
  import Heartbeat

  /** The state of link supervision as a value of the Heartbeat machine. */
  ghost function LsView(ctx: BapContext, plat: Platform): Heartbeat.Ls
    reads ctx, plat
  {
    Heartbeat.Ls(
      Heartbeat.Beat(ctx.lsReqPktPending, ctx.dataPktPending, ctx.retries,
                     ctx.linkSupervisionInterval, ctx.supervisionTimer, |plat.fsmEvents|),
      PoolView(ctx, plat))
  }

  ghost function PoolView(ctx: BapContext, plat: Platform): Heartbeat.Pool
    reads ctx, plat
  {
    Heartbeat.Pool(ctx.lsReqPacket, ctx.lsRepPacket,
                   plat.pkts.Keys, plat.nextPkt, plat.returned, plat.inTl, ctx.lsTaken)
  }

  /** The packet is live and holds this supervision frame to the peer. */
  ghost predicate HoldsFrame(ctx: BapContext, plat: Platform, packet: Option<PktId>, protoType: u16)
    reads ctx, plat
  {
    packet.Some? && packet.value in plat.pkts && packet.value < plat.nextPkt &&
    plat.pkts[packet.value].data == LsFrame(ctx.selfMac, ctx.peerMac, protoType)
  }

  /** Both packets stand ready: a request and a reply. */
  ghost predicate LsReady(ctx: BapContext, plat: Platform)
    reads ctx, plat
  {
    && HoldsFrame(ctx, plat, ctx.lsReqPacket, TYPE_LS_REQ)
    && HoldsFrame(ctx, plat, ctx.lsRepPacket, TYPE_LS_REP)
    && ctx.lsReqPacket != ctx.lsRepPacket
  }

  /** WLANBAP_AcquireLSPacket: a packet around a zeroed body, addressed to the peer. */
  method AcquireLSPacket(ctx: BapContext, plat: Platform, size: nat, isLsReq: bool,
                         outcome: Allocation)
    returns (status: VosStatus, packet: Option<PktId>)
    requires size == LS_BODY_LEN
    modifies ctx`lsTaken, plat`pkts, plat`nextPkt, plat`returned
    ensures PoolView(ctx, plat) == Heartbeat.Take(old(PoolView(ctx, plat)), outcome).0
    ensures packet == Heartbeat.Take(old(PoolView(ctx, plat)), outcome).1
    ensures packet.Some? <==> status == Success
    ensures packet.Some? ==>
      plat.pkts[packet.value].data ==
        LsFrame(ctx.selfMac, ctx.peerMac, if isLsReq then TYPE_LS_REQ else TYPE_LS_REP)
    ensures forall p <- plat.pkts :: Some(p) != packet ==>
      p in old(plat.pkts) && plat.pkts[p] == old(plat.pkts)[p]
    ensures forall p <- old(plat.pkts) :: p < old(plat.nextPkt) ==> p in plat.pkts
  {
    var protoType := if isLsReq then TYPE_LS_REQ else TYPE_LS_REP;
    packet := plat.GetPacket(size, outcome);
    ctx.lsTaken := ctx.lsTaken + if outcome == NoPacket then {} else {old(plat.nextPkt)};
    if packet == None {
      status := if outcome == NoPacket then ENoMem else EInval;
      return;
    }
    var id := packet.value;
    var lenType := Be16(ctx.host, LLC_HEADER_LEN);
    var w8023Header := Header8023(ctx.host, ctx.peerMac, ctx.selfMac, lenType);
    var aucLLCHeader := LlcHeader(ctx.host, Be16(ctx.host, protoType));
    HeadersAreHostIndependent(ctx.host, ctx.peerMac, ctx.selfMac, LLC_HEADER_LEN, protoType,
                              seq(LS_BODY_LEN, _ => 0));
    plat.pkts := plat.pkts[id := PushHead(plat.pkts[id], aucLLCHeader)];
    plat.pkts := plat.pkts[id := PushHead(plat.pkts[id], w8023Header)];
    status := Success;
    assert plat.pkts.Keys == old(plat.pkts.Keys) + {id};
  }

  /** Acquire a packet and keep it as the request or the reply packet; on failure that
      packet becomes NULL. */
  method RefillLsPacket(ctx: BapContext, plat: Platform, isLsReq: bool, outcome: Allocation)
    returns (status: VosStatus)
    modifies ctx`lsReqPacket, ctx`lsRepPacket, ctx`lsTaken, plat`pkts, plat`nextPkt, plat`returned
    ensures PoolView(ctx, plat) == Heartbeat.Refill(old(PoolView(ctx, plat)), isLsReq, outcome)
    ensures status == Success <==> outcome == Granted
    ensures outcome == Granted ==>
      HoldsFrame(ctx, plat, if isLsReq then ctx.lsReqPacket else ctx.lsRepPacket,
                 if isLsReq then TYPE_LS_REQ else TYPE_LS_REP)
    ensures outcome == Granted ==>
      (if isLsReq then ctx.lsReqPacket else ctx.lsRepPacket) == Some(old(plat.nextPkt))
    ensures outcome != Granted ==> (if isLsReq then ctx.lsReqPacket else ctx.lsRepPacket) == None
    ensures plat.nextPkt >= old(plat.nextPkt)
    ensures if isLsReq then ctx.lsRepPacket == old(ctx.lsRepPacket) else ctx.lsReqPacket == old(ctx.lsReqPacket)
    ensures forall p <- old(plat.pkts) :: p < old(plat.nextPkt) ==>
      p in plat.pkts && plat.pkts[p] == old(plat.pkts)[p]
  {
    var packet;
    status, packet := AcquireLSPacket(ctx, plat, 32, isLsReq, outcome);
    if isLsReq {
      ctx.lsReqPacket := packet;
    } else {
      ctx.lsRepPacket := packet;
    }
  }

  /** WLANBAP_InitLinkSupervision. */
  method InitLinkSupervision(ctx: BapContext, plat: Platform,
                             reqOutcome: Allocation, repOutcome: Allocation)
    returns (status: VosStatus)
    modifies ctx`lsReqPktPending, ctx`retries, ctx`lsReqPacket, ctx`lsRepPacket,
             ctx`supervisionTimer, ctx`lsTaken, plat`pkts, plat`nextPkt, plat`returned
    ensures LsView(ctx, plat) == Heartbeat.Init(old(LsView(ctx, plat)), reqOutcome, repOutcome)
    ensures status == Success <==> reqOutcome == repOutcome == Granted
    ensures status == Success ==> LsReady(ctx, plat)
  {
    hide Heartbeat.Refill, Heartbeat.Take, LsFrame;
    ctx.lsReqPktPending := false;
    ctx.retries := 0;
    status := RefillLsPacket(ctx, plat, true, reqOutcome);
    if status != Success { return; }
    status := RefillLsPacket(ctx, plat, false, repOutcome);
    if status != Success { return; }
    if ctx.linkSupervisionInterval != 0 {
      status := StartLinkSupervisionTimer(ctx, ctx.linkSupervisionInterval * BASEBAND_SLOT_TIME);
    }
  }

  /** WLANBAP_DeInitLinkSupervision. */
  method DeInitLinkSupervision(ctx: BapContext, plat: Platform) returns (status: VosStatus)
    modifies ctx`lsReqPacket, ctx`lsRepPacket, ctx`supervisionTimer, plat`pkts, plat`returned
    ensures LsView(ctx, plat) == Heartbeat.DeInit(old(LsView(ctx, plat)))
    ensures status == Success && !ctx.supervisionTimer
    ensures ctx.lsReqPacket == None && ctx.lsRepPacket == None
  {
    status := StopLinkSupervisionTimer(ctx);
    if ctx.lsRepPacket.Some? {
      plat.ReturnPacket(ctx.lsRepPacket.value);
      ctx.lsRepPacket := None;
    }
    if ctx.lsReqPacket.Some? {
      plat.ReturnPacket(ctx.lsReqPacket.value);
      ctx.lsReqPacket := None;
    }
  }

  /** WLANBAP_TxLinkSupervision: hand a frame to TL and restart the timer; a frame TL rejects
      leaves counter and timer alone. */
  method TxLinkSupervision(ctx: BapContext, plat: Platform, packet: Option<PktId>,
                           protoType: u16, tlAccepts: bool)
    returns (status: VosStatus)
    modifies ctx`lsReqPktPending, ctx`retries, ctx`supervisionTimer, plat`inTl
    ensures LsView(ctx, plat) ==
            Heartbeat.Transmit(old(LsView(ctx, plat)), packet, protoType, tlAccepts)
    ensures status == if Heartbeat.Accepted(packet, tlAccepts) then Success else EFailure
  {
    if packet == None || !tlAccepts {
      return EFailure;
    }
    plat.inTl := plat.inTl + multiset{packet.value};
    if protoType == TYPE_LS_REQ {
      ctx.lsReqPktPending := true;
      ctx.retries := (ctx.retries + 1) % 256;
    }
    status := RestartUnlessInfinite(ctx);
  }

  /** WLANBAP_RxProcLsPkt: a received frame that passes the MAC check is given back to the
      pool and processed by its type; one that does not is left with the caller. */
  method RxProcLsPkt(ctx: BapContext, plat: Platform, rxProtoType: u16, rx: PktId,
                     tlAccepts: bool)
    returns (status: VosStatus)
    requires rx in plat.pkts && |plat.pkts[rx].data| >= HEADER_802_3_LEN
    modifies ctx`lsReqPktPending, ctx`retries, ctx`supervisionTimer,
             plat`pkts, plat`returned, plat`inTl
    ensures var fromPeer := old(FromPeer(plat.pkts[rx].data, ctx.selfMac, ctx.peerMac));
            && LsView(ctx, plat) ==
                 Heartbeat.Step(old(LsView(ctx, plat)), Heartbeat.Arrive(
                   rx, if fromPeer then RxLs(rxProtoType) else RxMacMismatch, tlAccepts))
            && status ==
                 if !fromPeer then EFault
                 else if rxProtoType == TYPE_LS_REQ && !Heartbeat.Accepted(ctx.lsRepPacket, tlAccepts)
                 then EFailure
                 else Success
  {
    var w8023Header := plat.pkts[rx].data[..HEADER_802_3_LEN];
    if !(w8023Header[..6] == ctx.selfMac && w8023Header[6..12] == ctx.peerMac) {
      return EFault;
    }
    plat.ReturnPacket(rx);
    assert LsView(ctx, plat) == Heartbeat.Dropped(old(LsView(ctx, plat)), rx);
    status := Success;
    if rxProtoType == TYPE_LS_REP {
      ctx.lsReqPktPending := false;
      ctx.retries := 0;
      status := RestartUnlessInfinite(ctx);
    } else if rxProtoType == TYPE_LS_REQ {
      status := RestartUnlessInfinite(ctx);
      status := TxLinkSupervision(ctx, plat, ctx.lsRepPacket, TYPE_LS_REP, tlAccepts);
    }
  }

  /** WLANBAP_TxLinkSupervisionCB: TL has completed a frame. When no replacement can be had
      the completed packet is not returned. */
  method TxLinkSupervisionCB(ctx: BapContext, plat: Platform, packet: PktId,
                             outcome: Allocation)
    returns (status: VosStatus)
    modifies ctx`lsReqPacket, ctx`lsRepPacket, ctx`lsTaken, plat`pkts, plat`nextPkt, plat`returned
    ensures PoolView(ctx, plat) == Heartbeat.Complete(old(PoolView(ctx, plat)), packet, outcome)
    ensures status == Success <==> outcome == Granted
    ensures old(LsReady(ctx, plat)) && outcome == Granted && packet < old(plat.nextPkt) ==>
            LsReady(ctx, plat)
  {
    status := RefillLsPacket(ctx, plat, Some(packet) == ctx.lsReqPacket, outcome);
    if status != Success { return; }
    plat.ReturnPacket(packet);
  }
}
