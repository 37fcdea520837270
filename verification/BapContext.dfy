/** The BT-AMP context: one association, its 16 logical-link slots, its link supervision
    state and the registers the host writes. */
module BapContext {
  import opened Words
  import opened Vos

  /** BTAMPFSM_STATES_T, the state of the physical link. */
  datatype PhysState =
    | Authenticating | Disconnected | Connecting | Disconnecting | Scanning
    | Connected | S1 | Keying | Validated | Starting

  /** tWLAN_BAPLogLinkState. */
  datatype LogLinkState = LogLinkClosed | LogLinkOpen | LogLinkInProgress

  const MAX_LOG_LINKS: nat := 16

  // default time-outs, in baseband slots
  const CONNECTION_ACCEPT_TIMEOUT: u16 := 0x1F40
  const LINK_SUPERVISION_TIMEOUT: u16 := 0x3E80
  const LOGICAL_LINK_ACCEPT_TIMEOUT: u16 := 0x1F40
  const BE_FLUSH_TIMEOUT: u32 := 10

  const FLOW_SPEC_LEN: nat := 18

  /** tBtampLogLinkCtx. */
  datatype LogLink = LogLink(
    present: bool, handle: u16, flowSpecId: u8, ac: u8, tid: u8, up: u8, txCompleted: u32)

  const EMPTY_LINK := LogLink(false, 0, 0, 0, 0, 0, 0)

  /** BTAMP_VALID_LOG_LINK: slot 0 is never valid. */
  predicate ValidLogLink(a: nat) {
    0 < a < MAX_LOG_LINKS
  }

  /** tBtampLogLinkReqInfo: the arguments of a deferred create or accept. */
  datatype ReqInfo = ReqInfo(phy: u8, txFlowSpec: seq<u8>, rxFlowSpec: seq<u8>)

  type Mac = m: seq<u8> | |m| == 6 witness [0, 0, 0, 0, 0, 0]

  /** The slot array and its two counters, as a value. */
  datatype LinkTable = LinkTable(links: seq<LogLink>, current: u8, total: u8) {
    predicate Valid() {
      |links| == MAX_LOG_LINKS && current < MAX_LOG_LINKS
    }
  }

  datatype TrafficMode = PacketBased | BlockBased

  class BapContext {
    const host: Host
    // the association
    var physState: PhysState
    var phyLinkHandle: u8
    var selfMac: Mac
    var peerMac: Mac
    var sessionOpen: bool            // the SME has a session for this association
    // time-out registers, in baseband slots
    var connectionAcceptInterval: u16
    var linkSupervisionInterval: u16
    var logicalLinkAcceptInterval: u16
    var beFlushInterval: u32
    // logical links
    var currentLogLinkIndex: u8
    var totalLogLinkIndex: u8
    const logLinks: array<LogLink>
    var logLinkState: LogLinkState
    var asyncCreate: bool
    var cancelPending: bool
    var reqInfo: ReqInfo
    // link supervision
    var lsReqPktPending: bool
    var dataPktPending: bool
    var retries: u8
    var lsReqPacket: Option<PktId>
    var lsRepPacket: Option<PktId>
    var supervisionTimer: bool
    ghost var lsTaken: set<PktId>    // every packet AcquireLSPacket ever got
    // transmit accounting
    var monitorTimer: bool
    var trafficMode: TrafficMode

    ghost predicate Valid()
      reads this
    {
      logLinks.Length == MAX_LOG_LINKS && currentLogLinkIndex < MAX_LOG_LINKS
    }

    ghost function Table(): (t: LinkTable)
      reads this, logLinks
      requires Valid()
      ensures t.Valid()
    {
      LinkTable(logLinks[..], currentLogLinkIndex, totalLogLinkIndex)
    }

    /** WLANBAP_CleanCB: no association, every slot free, default registers. */
    constructor (host: Host, own: Mac)
      ensures Valid() && fresh(logLinks) && this.host == host && selfMac == own
      ensures Table() == LinkTable(seq(MAX_LOG_LINKS, _ => EMPTY_LINK), 0, 0)
      ensures physState == Disconnected && phyLinkHandle == 0 && peerMac == [0, 0, 0, 0, 0, 0]
      ensures logLinkState == LogLinkClosed && !asyncCreate && !cancelPending
      ensures reqInfo == ReqInfo(0, seq(FLOW_SPEC_LEN, _ => 0), seq(FLOW_SPEC_LEN, _ => 0))
      ensures !lsReqPktPending && !dataPktPending && retries == 0
      ensures lsReqPacket == None && lsRepPacket == None && lsTaken == {}
      ensures !supervisionTimer && !monitorTimer && trafficMode == BlockBased
      ensures !sessionOpen && beFlushInterval == BE_FLUSH_TIMEOUT
      ensures connectionAcceptInterval == CONNECTION_ACCEPT_TIMEOUT
      ensures linkSupervisionInterval == LINK_SUPERVISION_TIMEOUT
      ensures logicalLinkAcceptInterval == LOGICAL_LINK_ACCEPT_TIMEOUT
    {
      this.host := host;
      physState, phyLinkHandle := Disconnected, 0;
      selfMac, peerMac := own, [0, 0, 0, 0, 0, 0];
      connectionAcceptInterval, linkSupervisionInterval, logicalLinkAcceptInterval :=
        CONNECTION_ACCEPT_TIMEOUT, LINK_SUPERVISION_TIMEOUT, LOGICAL_LINK_ACCEPT_TIMEOUT;
      currentLogLinkIndex, totalLogLinkIndex := 0, 0;
      logLinks := new LogLink[MAX_LOG_LINKS](_ => EMPTY_LINK);
      logLinkState, asyncCreate, cancelPending := LogLinkClosed, false, false;
      reqInfo := ReqInfo(0, seq(FLOW_SPEC_LEN, _ => 0), seq(FLOW_SPEC_LEN, _ => 0));
      lsReqPktPending, dataPktPending, retries := false, false, 0;
      lsReqPacket, lsRepPacket, supervisionTimer, lsTaken := None, None, false, {};
      sessionOpen, beFlushInterval := false, BE_FLUSH_TIMEOUT;
      monitorTimer, trafficMode := false, BlockBased;
    }
  }
}
