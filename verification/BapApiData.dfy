/** bapApiData.c: the data path between the host, TL and the peer. */
module BapApiData {
  import opened Words
  import opened Vos
  import opened BapContext
  import opened LinkTables
  import opened FrameFormat
  import opened Translation
  import opened BapApiLinkSupervision
  import opened TxMonitor
  import Heartbeat

  ghost function EndpointOf(ctx: BapContext): (e: Endpoint)
    reads ctx, ctx.logLinks
    requires ctx.Valid()
    ensures e.Valid() && e.host == ctx.host && e.links == ctx.logLinks[..]
    ensures e.self == ctx.selfMac && e.peer == ctx.peerMac
  {
    Endpoint(ctx.host, ctx.selfMac, ctx.peerMac, ctx.logLinks[..])
  }

  /** WLANBAP_XlateTxDataPkt: the packet is rewritten in place. */
  method XlateTxDataPkt(ctx: BapContext, plat: Platform, phy: u8, pkt: PktId)
    returns (status: VosStatus, tag: Option<Tag>)
    requires ctx.Valid() && pkt in plat.pkts
    modifies plat`pkts
    ensures var out := XlateTx(EndpointOf(ctx), phy, old(plat.pkts)[pkt]);
            plat.pkts == old(plat.pkts)[pkt := out.pkt] && status == out.status && tag == out.tag
  {
    tag := None;
    var p := plat.pkts[pkt];
    if |p.data| < HCI_ACL_HEADER_LEN {
      assert plat.pkts == plat.pkts[pkt := p];
      return EInval, None;
    }
    var hciACLHeader := ParseAcl(ctx.host, p.data[..HCI_ACL_HEADER_LEN]);
    plat.pkts := plat.pkts[pkt := PopHead(p, HCI_ACL_HEADER_LEN)];
    if phy != hciACLHeader.phy {
      return EInval, None;
    }
    if !ValidLogLink(hciACLHeader.logLink) {
      hciACLHeader := hciACLHeader.(logLink := 1);
    }
    var logLinkContext := ctx.logLinks[hciACLHeader.logLink];
    if !logLinkContext.present {
      return EInval, None;
    }
    tag := Some(Tag(logLinkContext.ac, logLinkContext.tid, logLinkContext.up));
    var headerLength := (Le16(ctx.host, hciACLHeader.dataLength) + LLC_HEADER_LEN) % 0x1_0000;
    var w8023Header := Header8023(ctx.host, ctx.peerMac, ctx.selfMac, Be16(ctx.host, headerLength));
    var aucLLCHeader := LlcHeader(ctx.host, Be16(ctx.host, TYPE_DATA));
    plat.pkts := plat.pkts[pkt := PushHead(plat.pkts[pkt], aucLLCHeader)];
    plat.pkts := plat.pkts[pkt := PushHead(plat.pkts[pkt], w8023Header)];
    plat.pkts := plat.pkts[pkt := plat.pkts[pkt].(userData := hciACLHeader.logLink)];
    status := Success;
  }

  /** WLANBAP_XlateRxDataPkt. */
  method XlateRxDataPkt(ctx: BapContext, plat: Platform, phy: u8, pkt: PktId)
    returns (status: VosStatus)
    requires pkt in plat.pkts
    modifies plat`pkts
    ensures var (result, out) := XlateRx(ctx.host, phy, old(plat.pkts)[pkt]);
            plat.pkts == old(plat.pkts)[pkt := out] && status == result
  {
    var p := plat.pkts[pkt];
    if |p.data| < HEADER_802_3_LEN {
      assert plat.pkts == plat.pkts[pkt := p];
      return EInval;
    }
    var w8023Header := p.data[..HEADER_802_3_LEN];
    assert w8023Header[12..14] == p.data[12..14];
    plat.pkts := plat.pkts[pkt := PopHead(p, HEADER_802_3_LEN)];
    p := plat.pkts[pkt];
    if |p.data| < LLC_HEADER_LEN {
      return EInval;
    }
    var aucLLCHeader := p.data[..LLC_HEADER_LEN];
    assert aucLLCHeader[6..8] == p.data[6..8];
    plat.pkts := plat.pkts[pkt := PopHead(p, LLC_HEADER_LEN)];
    if aucLLCHeader[LLC_PROTO_TYPE_OFFSET..LLC_PROTO_TYPE_OFFSET + 2]
       != Store16(ctx.host, Be16(ctx.host, TYPE_DATA)) {
      return EFault;
    }
    var hciDataLength := (Be16(ctx.host, Load16(ctx.host, w8023Header[12..14])) - LLC_HEADER_LEN) % 0x1_0000;
    var hciACLHeader := AclHeader(phy, 0, HCI_PKT_AMP, 0, Le16(ctx.host, hciDataLength));
    plat.pkts := plat.pkts[pkt := PushHead(plat.pkts[pkt], FormatAcl(ctx.host, hciACLHeader))];
    status := Success;
  }

  /** WLANBAP_GetAcFromTxDataPkt. */
  method GetAcFromTxDataPkt(ctx: BapContext, hciData: seq<u8>)
    returns (status: VosStatus, ac: Option<u8>)
    requires ctx.Valid() && |hciData| >= HCI_ACL_HEADER_LEN
    ensures (status, ac) == AcOf(EndpointOf(ctx), hciData)
  {
    var hciACLHeader := ParseAcl(ctx.host, hciData[..HCI_ACL_HEADER_LEN]);
    if !ValidLogLink(hciACLHeader.logLink) {
      return EInval, None;
    }
    var logLinkContext := ctx.logLinks[hciACLHeader.logLink];
    if !logLinkContext.present {
      return EInval, None;
    }
    return Success, Some(logLinkContext.ac);
  }

  /** WLANBAP_STARxCB. Data marks the link alive and goes up to the host, or is dropped when
      supervision is switched off; everything else is a link-supervision frame. `stale` is
      what a frame too short for an LLC header leaves in the buffer the type is read from,
      hostStatus what the host's callback returns. */
  method STARxCB(ctx: BapContext, plat: Platform, rx: PktId, stale: seq<u8>, tlAccepts: bool,
                 hostStatus: VosStatus)
    returns (toHost: Option<PktId>, status: VosStatus)
    requires rx in plat.pkts && |plat.pkts[rx].data| >= HEADER_802_3_LEN
    requires |stale| == LLC_HEADER_LEN
    modifies ctx`dataPktPending, ctx`lsReqPktPending, ctx`retries, ctx`supervisionTimer,
             plat`pkts, plat`returned, plat`inTl
    ensures LsView(ctx, plat) ==
            Heartbeat.Step(old(LsView(ctx, plat)), Heartbeat.Arrive(
              rx, Classify(ctx.host, ctx.selfMac, ctx.peerMac, old(plat.pkts[rx].data), stale), tlAccepts))
    ensures toHost == Some(rx) <==>
            ctx.linkSupervisionInterval != 0 &&
            Classify(ctx.host, ctx.selfMac, ctx.peerMac, old(plat.pkts[rx].data), stale) == RxData
    ensures toHost == Some(rx) ==>
            ctx.dataPktPending && status == hostStatus && plat.pkts == old(plat.pkts) &&
            plat.returned == old(plat.returned)
    ensures toHost == None || toHost == Some(rx)
  {
    toHost, status := None, Success;
    var aucLLCHeader := LlcBytes(plat.pkts[rx].data, stale);
    var protoType := ProtoTypeOf(ctx.host, aucLLCHeader);
    if protoType == TYPE_DATA {
      if ctx.linkSupervisionInterval != 0 {
        ctx.dataPktPending := true;
        toHost := Some(rx);
        status := hostStatus;
      } else {
        plat.ReturnPacket(rx);
      }
    } else {
      status := RxProcLsPkt(ctx, plat, protoType, rx, tlAccepts);
    }
  }

  /** WLANBAP_STAPktPending: only a packet TL takes counts as data. */
  method STAPktPending(ctx: BapContext, tlStatus: VosStatus) returns (status: VosStatus)
    modifies ctx`dataPktPending
    ensures status == tlStatus
    ensures ctx.dataPktPending == (old(ctx.dataPktPending) || tlStatus == Success)
  {
    if tlStatus != Success {
      return tlStatus;
    }
    ctx.dataPktPending := true;
    status := Success;
  }

  /** The counting half of WLANBAP_TxCompCB, for a packet whose user data is `tag`: the handle
      is a four-bit field; the slot is credited whether or not it is still occupied. */
  method CountCompletion(ctx: BapContext, tag: u32)
    requires ctx.Valid()
    modifies ctx.logLinks
    ensures ctx.logLinks[..] == Credit(old(ctx.logLinks[..]), tag)
  {
    var logLinkHandle := tag % 16;
    if ValidLogLink(logLinkHandle) {
      var l := ctx.logLinks[logLinkHandle];
      ctx.logLinks[logLinkHandle] := l.(txCompleted := (l.txCompleted + 1) % U32_MODULUS);
    }
  }

  /** WLANBAP_TxCompCB: the completion is counted, then the packet goes to the host's callback
      with its status; hostStatus is what that returns. */
  method TxCompCB(ctx: BapContext, plat: Platform, pkt: PktId, txStatus: VosStatus, hostStatus: VosStatus)
    returns (status: VosStatus)
    requires ctx.Valid() && pkt in plat.pkts
    modifies ctx.logLinks, plat`hostCompletions
    ensures ctx.logLinks[..] == Credit(old(ctx.logLinks[..]), plat.pkts[pkt].userData)
    ensures plat.hostCompletions == old(plat.hostCompletions) + [(pkt, txStatus)]
    ensures status == hostStatus
  {
    CountCompletion(ctx, plat.pkts[pkt].userData);
    plat.hostCompletions := plat.hostCompletions + [(pkt, txStatus)];
    status := hostStatus;
  }

  /** Every translated packet's completion credits the link whose tag it carries, and no
      other, also when handle 0 was corrected to link 1. */
  lemma {:induction false} CompletionCreditsTaggedLink(e: Endpoint, phy: u8, p: VosPkt, later: seq<LogLink>, l: nat)
    requires e.Valid() && XlateTx(e, phy, p).status == Success
    requires |later| == MAX_LOG_LINKS && l < MAX_LOG_LINKS
    ensures var out := XlateTx(e, phy, p);
            && out.tag == Some(TagOf(e.links[out.pkt.userData]))
            && Credit(later, out.pkt.userData)[l] ==
                 if l == out.pkt.userData
                 then later[l].(txCompleted := (later[l].txCompleted + 1) % U32_MODULUS)
                 else later[l]
  {
    assert |p.data| >= HCI_ACL_HEADER_LEN;
    hide XlateTx, AcOf;
    TagAgreement(e, phy, p);
    CreditOnly(later, XlateTx(e, phy, p).pkt.userData, l);
  }

  /** When a created link is usable: a link that create has just opened can be looked up, be
      transmitted on under its own number and be credited with completions if and only if the
      serial index was not 15. After 15 the turn is slot 0's, which no packet can name. */
  lemma CreatedLinkUsableExactly(e: Endpoint, t: LinkTable, phy: u8, flowSpec: seq<u8>,
                                 parse: FlowSpecParser, p: VosPkt)
    requires t.Valid() && parse(flowSpec).Some?
    requires e.links == Allocate(t, phy, flowSpec, parse).links
    requires |p.data| >= HCI_ACL_HEADER_LEN && p.data[0] == phy && p.data[1] % 16 == NextIndex(t)
    ensures e.links[NextIndex(t)].present
    ensures AcOf(e, p.data).0 == Success <==> t.current != 15
    ensures XlateTx(e, phy, p).status == Success && XlateTx(e, phy, p).pkt.userData == NextIndex(t)
            <==> t.current != 15
    ensures Credit(e.links, NextIndex(t)) != e.links <==> t.current != 15
  {
    hide PushHead, FormatAcl, Le16, Be16, Load16, Header8023, LlcHeader;
    var i := NextIndex(t);
    assert i == 0 <==> t.current == 15;
    if i != 0 {
      CreditOnly(e.links, i, i);
    }
  }
}
