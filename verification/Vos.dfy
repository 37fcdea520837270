/** What surrounds the adaptation layer: the packet pool, the transport layer TL, the
    message queue of the SME, and the callbacks into the host and the link state machine. */
module Vos {
  import opened Words

  // HCI status and reason codes
  const STATUS_SUCCESS: u8 := 0x00
  const ERROR_NO_CNCT: u8 := 0x02
  const ERROR_MAX_NUM_CNCTS: u8 := 0x09
  const ERROR_MAX_NUM_ACL_CNCTS: u8 := 0x0b
  const ERROR_CMND_DISALLOWED: u8 := 0x0c
  const ERROR_INVALID_HCI_CMND_PARAM: u8 := 0x12
  const ERROR_TERM_BY_LOCAL_HOST: u8 := 0x16

  type PktId = nat

  /** A vos packet: its bytes, the room in front of them, and the BAP user-data word. */
  datatype VosPkt = VosPkt(data: seq<u8>, headroom: nat, userData: u32)

  /** Room in front of the data of a packet taken from the pool (VPKT_SIZE_BUFFER). */
  const VPKT_SIZE_BUFFER: nat := 3872

  /** vos_pkt_push_head: without enough room the packet is left as it was. */
  function PushHead(p: VosPkt, bytes: seq<u8>): VosPkt {
    if p.headroom < |bytes| then p
    else p.(data := bytes + p.data, headroom := p.headroom - |bytes|)
  }

  /** vos_pkt_pop_head of n bytes. */
  function PopHead(p: VosPkt, n: nat): VosPkt
    requires n <= |p.data|
  {
    p.(data := p.data[n..], headroom := p.headroom + n)
  }

  /** The timer is refused below this many milliseconds. */
  const MIN_TIMER_MS: nat := 10

  /** vos_timer_start on a stopped or running timer: is it running afterwards? */
  function TimerAfterStart(running: bool, ms: nat): bool {
    running || ms >= MIN_TIMER_MS
  }

  /** vos_pkt_reserve_head takes the room from the front; where there is too little, the packet
      gets a new buffer with just enough. */
  function HeadroomAfterReserve(size: nat): nat {
    if size <= VPKT_SIZE_BUFFER then VPKT_SIZE_BUFFER - size else 0
  }

  /** A packet's bytes and its room make up the buffer, as long as it is large enough. */
  lemma ReservedRoom(size: nat)
    requires size <= 3872
    ensures size + HeadroomAfterReserve(size) == 3872
  {
  }

  /** Outcome of a request to the packet pool. */
  datatype Allocation = Granted | NoPacket | NoHeadroom

  datatype HciEvent =
    | CommandStatus(opcode: Opcode, status: Option<u8>)
    | LogicalLinkCompleted(complete: LogicalLinkComplete)
    | LogicalLinkDisconnected(outcome: u8, handle: u16, reason: u8)
    | PhysicalLinkDisconnected(outcome: u8, reason: u8, phy: u8)
    | CompletedPackets(handles: seq<u16>, packets: seq<u16>)
    | CompletedBlocks(handles: seq<u16>, packets: seq<u16>, blocks: seq<u16>, totalBlocks: u16)

  datatype Opcode = CreateLogicalLinkCmd | AcceptLogicalLinkCmd | DisconnectLogicalLinkCmd

  /** The fields of a Logical Link Complete event; a status of None was not written. */
  datatype LogicalLinkComplete =
    LogicalLinkComplete(status: Option<u8>, handle: u16, phy: u8, flowSpecId: u8)

  datatype FsmEvent = MacIndicatesMediaDisconnection

  class Platform {
    var pkts: map<PktId, VosPkt>     // live packets
    var nextPkt: PktId               // ids below this one have been handed out
    var returned: multiset<PktId>    // packets given back, once per return
    var inTl: multiset<PktId>        // frames TL accepted and has not completed
    var smeQueue: nat                // posted logical-link establishments
    var hciEvents: seq<HciEvent>
    var fsmEvents: seq<FsmEvent>
    var hostCompletions: seq<(PktId, VosStatus)>   // completions passed up to the host
    var roamDisconnects: nat         // sessions the SME was told to leave

    constructor ()
      ensures pkts == map[] && nextPkt == 0 && returned == multiset{} && inTl == multiset{}
      ensures smeQueue == 0 && hciEvents == [] && fsmEvents == []
      ensures hostCompletions == [] && roamDisconnects == 0
    {
      pkts, nextPkt, returned, inTl := map[], 0, multiset{}, multiset{};
      smeQueue, hciEvents, fsmEvents := 0, [], [];
      hostCompletions, roamDisconnects := [], 0;
    }

    /** vos_pkt_get_packet followed by vos_pkt_reserve_head, as one request of size bytes;
        the reserved bytes are zeroed. */
    method GetPacket(size: nat, outcome: Allocation) returns (id: Option<PktId>)
      modifies `pkts, `nextPkt, `returned
      ensures outcome == Granted ==>
        id == Some(old(nextPkt)) && nextPkt == old(nextPkt) + 1 && returned == old(returned) &&
        pkts == old(pkts)[old(nextPkt) := VosPkt(seq(size, _ => 0), HeadroomAfterReserve(size), 0)]
      ensures outcome == NoPacket ==>
        id == None && nextPkt == old(nextPkt) && returned == old(returned) && pkts == old(pkts)
      ensures outcome == NoHeadroom ==>
        id == None && nextPkt == old(nextPkt) + 1 && pkts == old(pkts) - {old(nextPkt)} &&
        returned == old(returned) + multiset{old(nextPkt)}
    {
      id := None;
      if outcome != NoPacket {
        var made := nextPkt;
        nextPkt := nextPkt + 1;
        pkts := pkts[made := VosPkt(seq(size, _ => 0), HeadroomAfterReserve(size), 0)];
        if outcome == NoHeadroom {
          ReturnPacket(made);
        } else {
          id := Some(made);
        }
      }
    }

    /** vos_pkt_return_packet. */
    method ReturnPacket(id: PktId)
      modifies `pkts, `returned
      ensures pkts == old(pkts) - {id} && returned == old(returned) + multiset{id}
    {
      pkts := pkts - {id};
      returned := returned + multiset{id};
    }
  }
}
