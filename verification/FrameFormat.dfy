/** Headers of the data path: the HCI ACL header, the 802.3 header and the LLC/SNAP header. */
module FrameFormat {
  import opened Words
  import opened Vos
  import opened BapContext

  const HCI_ACL_HEADER_LEN: nat := 4
  const HEADER_802_3_LEN: nat := 14
  const LLC_HEADER_LEN: nat := 8
  const LLC_OUI_OFFSET: nat := 3
  const LLC_PROTO_TYPE_OFFSET: nat := 6

  const LLC_HEADER: seq<u8> := [0xAA, 0xAA, 0x03, 0x00, 0x00, 0x00]
  const BT_AMP_OUI: seq<u8> := [0x00, 0x19, 0x58]

  // protocol types carried in the LLC header
  const TYPE_DATA: u16 := 0x0001
  const TYPE_AR: u16 := 0x0002
  const TYPE_SEC: u16 := 0x0003
  const TYPE_LS_REQ: u16 := 0x0004
  const TYPE_LS_REP: u16 := 0x0005

  /** Packet-boundary flag of every AMP data packet. */
  const HCI_PKT_AMP: nat := 3

  /** WLANBAP_HCIACLHeaderType: byte 0 is the physical handle, byte 1 packs the logical
      handle and the two flags from its low bits up; dataLength is the field as the host
      reads it, before any conversion. */
  datatype AclHeader = AclHeader(phy: u8, logLink: nat, pb: nat, bc: nat, dataLength: u16) {
    predicate Valid() {
      logLink < 16 && pb < 4 && bc < 4
    }
  }

  function ParseAcl(host: Host, b: seq<u8>): (h: AclHeader)
    requires |b| == HCI_ACL_HEADER_LEN
    ensures h.Valid()
  {
    AclHeader(b[0], b[1] % 16, (b[1] / 16) % 4, b[1] / 64, Load16(host, b[2..4]))
  }

  function FormatAcl(host: Host, h: AclHeader): (b: seq<u8>)
    requires h.Valid()
    ensures |b| == HCI_ACL_HEADER_LEN
  {
    [h.phy, h.logLink + 16 * h.pb + 64 * h.bc] + Store16(host, h.dataLength)
  }

  lemma AclRoundTrip(host: Host, h: AclHeader)
    requires h.Valid()
    ensures ParseAcl(host, FormatAcl(host, h)) == h
  {
    var b := FormatAcl(host, h);
    assert b[2..4] == Store16(host, h.dataLength);
  }

  /** The 802.3 header a station builds: to, from, length; lenType is as the host stores it. */
  function Header8023(host: Host, da: Mac, sa: Mac, lenType: u16): (b: seq<u8>)
    ensures |b| == HEADER_802_3_LEN
  {
    da + sa + Store16(host, lenType)
  }

  /** The constant header with the OUI copied over its last bytes, then the type. */
  function LlcHeader(host: Host, protoType: u16): (b: seq<u8>)
    ensures |b| == LLC_HEADER_LEN
  {
    LLC_HEADER[..LLC_OUI_OFFSET] + BT_AMP_OUI + Store16(host, protoType)
  }

  /** A whole frame on the air, written without reference to any host. */
  function AirFrame(da: Mac, sa: Mac, len: u16, protoType: u16, body: seq<u8>): seq<u8> {
    da + sa + [len / 256, len % 256] +
    [0xAA, 0xAA, 0x03, 0x00, 0x19, 0x58, protoType / 256, protoType % 256] + body
  }

  /** Both headers pushed by any host make the same frame. */
  lemma HeadersAreHostIndependent(host: Host, da: Mac, sa: Mac, len: u16, protoType: u16, body: seq<u8>)
    ensures Header8023(host, da, sa, Be16(host, len)) +
            (LlcHeader(host, Be16(host, protoType)) + body)
            == AirFrame(da, sa, len, protoType, body)
  {
    WireOrder(host, len);
    WireOrder(host, protoType);
  }

  /** The LLC bytes WLANBAP_STARxCB looks at; a short frame leaves `stale` in its buffer. */
  function LlcBytes(frame: seq<u8>, stale: seq<u8>): (b: seq<u8>)
    requires |stale| == LLC_HEADER_LEN
    ensures |b| == LLC_HEADER_LEN
  {
    if |frame| >= HEADER_802_3_LEN + LLC_HEADER_LEN
    then frame[HEADER_802_3_LEN..HEADER_802_3_LEN + LLC_HEADER_LEN]
    else stale
  }

  function ProtoTypeOf(host: Host, llc: seq<u8>): u16
    requires |llc| == LLC_HEADER_LEN
  {
    Be16(host, Load16(host, llc[LLC_PROTO_TYPE_OFFSET..LLC_PROTO_TYPE_OFFSET + 2]))
  }

  /** The MAC check of link supervision: addressed to us, by our peer. */
  predicate FromPeer(frame: seq<u8>, self: Mac, peer: Mac)
    requires |frame| >= HEADER_802_3_LEN
  {
    frame[..6] == self && frame[6..12] == peer
  }

  /** The frame WLANBAP_AcquireLSPacket builds around a zeroed body of 32 bytes. */
  const LS_BODY_LEN: nat := 32

  function LsFrame(self: Mac, peer: Mac, protoType: u16): seq<u8> {
    AirFrame(peer, self, LLC_HEADER_LEN, protoType, seq(LS_BODY_LEN, _ => 0))
  }

  /** What the receive callback makes of a frame. */
  datatype RxKind = RxData | RxLs(protoType: u16) | RxMacMismatch

  function Classify(host: Host, self: Mac, peer: Mac, frame: seq<u8>, stale: seq<u8>): RxKind
    requires |stale| == LLC_HEADER_LEN
    requires |frame| >= HEADER_802_3_LEN
  {
    var protoType := ProtoTypeOf(host, LlcBytes(frame, stale));
    if protoType == TYPE_DATA then RxData
    else if FromPeer(frame, self, peer) then RxLs(protoType)
    else RxMacMismatch
  }

  /** Every frame with a built header is classified by its own type, on any receiving host;
      the MAC check passes exactly when the two stations mirror each other. */
  lemma ClassifyAirFrame(host: Host, self: Mac, peer: Mac, da: Mac, sa: Mac, len: u16,
                         protoType: u16, body: seq<u8>, stale: seq<u8>)
    requires |stale| == LLC_HEADER_LEN
    ensures Classify(host, self, peer, AirFrame(da, sa, len, protoType, body), stale) ==
            if protoType == TYPE_DATA then RxData
            else if da == self && sa == peer then RxLs(protoType)
            else RxMacMismatch
  {
    var f := AirFrame(da, sa, len, protoType, body);
    var llc := LlcBytes(f, stale);
    assert llc[6] == protoType / 256 && llc[7] == protoType % 256;
    assert llc[LLC_PROTO_TYPE_OFFSET..LLC_PROTO_TYPE_OFFSET + 2]
        == [protoType / 256, protoType % 256];
    WireOrder(host, protoType);
    assert f[..6] == da && f[6..12] == sa;
  }

  /** The supervision frames, byte by byte: to the peer, from us, length 8, the BT-AMP header
      with type 4 for a request and 5 for a reply, and 32 zeros. */
  lemma LsFrameBytes(self: Mac, peer: Mac)
    ensures LsFrame(self, peer, TYPE_LS_REQ) ==
            peer + self + [0, 8] + [0xAA, 0xAA, 0x03, 0x00, 0x19, 0x58, 0, 4] + seq(32, _ => 0)
    ensures LsFrame(self, peer, TYPE_LS_REP) ==
            peer + self + [0, 8] + [0xAA, 0xAA, 0x03, 0x00, 0x19, 0x58, 0, 5] + seq(32, _ => 0)
  {
    assert seq(LS_BODY_LEN, _ => 0) == seq(32, _ => 0);
  }

  /** Classification of any frame long enough, told from its bytes: the type at bytes 20 and
      21, our address first and the peer's second. A shorter frame is read as what the buffer
      held before. */
  lemma ClassifyBytes(host: Host, self: Mac, peer: Mac, frame: seq<u8>, stale: seq<u8>)
    requires |stale| == LLC_HEADER_LEN && |frame| >= HEADER_802_3_LEN
    ensures var high := if |frame| >= 22 then frame[20] else stale[6];
            var low := if |frame| >= 22 then frame[21] else stale[7];
            Classify(host, self, peer, frame, stale) ==
              if high == 0 && low == 1 then RxData
              else if frame[..6] == self && frame[6..12] == peer then RxLs(TypeWord(high, low))
              else RxMacMismatch
  {
    var llc := LlcBytes(frame, stale);
    var word := TypeWord(llc[6], llc[7]);
    assert llc[6..8] == [word / 256, word % 256];
    WireOrder(host, word);
  }

  function TypeWord(high: u8, low: u8): u16 {
    var h: int, l: int := high, low;
    256 * h + l
  }
}
