/** HCI ACL packets to 802.3/LLC frames and back, as functions on packets, and what holds
    of the two directions together. */
module Translation {
  import opened Words
  import opened Vos
  import opened BapContext
  import opened FrameFormat

  /** The part of the context the data path reads. */
  datatype Endpoint = Endpoint(host: Host, self: Mac, peer: Mac, links: seq<LogLink>) {
    predicate Valid() {
      |links| == MAX_LOG_LINKS
    }
  }

  /** The scheduling tag a transmitted packet gets. */
  datatype Tag = Tag(ac: u8, tid: u8, up: u8)

  function TagOf(l: LogLink): Tag {
    Tag(l.ac, l.tid, l.up)
  }

  /** An invalid logical handle is replaced by 1. */
  function CorrectedLink(logLink: nat): (l: nat)
    requires logLink < 16
    ensures ValidLogLink(l)
    ensures ValidLogLink(logLink) ==> l == logLink
  {
    if ValidLogLink(logLink) then logLink else 1
  }

  datatype TxOutcome = TxOutcome(status: VosStatus, pkt: VosPkt, tag: Option<Tag>)

  /** WLANBAP_XlateTxDataPkt. A rejected packet has already lost its ACL header. */
  function XlateTx(e: Endpoint, phy: u8, p: VosPkt): TxOutcome
    requires e.Valid()
  {
    if |p.data| < HCI_ACL_HEADER_LEN then TxOutcome(EInval, p, None)
    else
      var h := ParseAcl(e.host, p.data[..HCI_ACL_HEADER_LEN]);
      var body := PopHead(p, HCI_ACL_HEADER_LEN);
      if phy != h.phy then TxOutcome(EInval, body, None)
      else
        var link := CorrectedLink(h.logLink);
        if !e.links[link].present then TxOutcome(EInval, body, None)
        else
          var headerLength := (Le16(e.host, h.dataLength) + LLC_HEADER_LEN) % 0x1_0000;
          var withLlc := PushHead(body, LlcHeader(e.host, Be16(e.host, TYPE_DATA)));
          var frame := PushHead(withLlc, Header8023(e.host, e.peer, e.self, Be16(e.host, headerLength)));
          TxOutcome(Success, frame.(userData := link), Some(TagOf(e.links[link])))
  }

  /** WLANBAP_XlateRxDataPkt. */
  function XlateRx(host: Host, phy: u8, p: VosPkt): (VosStatus, VosPkt) {
    if |p.data| < HEADER_802_3_LEN then (EInval, p)
    else
      var lenType := Load16(host, p.data[12..14]);
      var llc := PopHead(p, HEADER_802_3_LEN);
      if |llc.data| < LLC_HEADER_LEN then (EInval, llc)
      else
        var protoType := llc.data[LLC_PROTO_TYPE_OFFSET..LLC_PROTO_TYPE_OFFSET + 2];
        var body := PopHead(llc, LLC_HEADER_LEN);
        if protoType != Store16(host, Be16(host, TYPE_DATA)) then (EFault, body)
        else
          var hciDataLength := (Be16(host, lenType) - LLC_HEADER_LEN) % 0x1_0000;
          var h := AclHeader(phy, 0, HCI_PKT_AMP, 0, Le16(host, hciDataLength));
          (Success, PushHead(body, FormatAcl(host, h)))
  }

  /** The access category the host is told for a raw HCI packet. */
  function AcOf(e: Endpoint, data: seq<u8>): (VosStatus, Option<u8>)
    requires e.Valid() && |data| >= HCI_ACL_HEADER_LEN
  {
    var h := ParseAcl(e.host, data[..HCI_ACL_HEADER_LEN]);
    if !ValidLogLink(h.logLink) || !e.links[h.logLink].present then (EInval, None)
    else (Success, Some(e.links[h.logLink].ac))
  }

  // ----- independent descriptions

  /** An HCI ACL packet, byte by byte: little-endian length, flags above the handle. */
  function AclPacket(phy: u8, logLink: nat, pb: nat, bc: nat, len: u16, payload: seq<u8>): seq<u8>
    requires logLink < 16 && pb < 4 && bc < 4
  {
    [phy, logLink + 16 * pb + 64 * bc, len % 256, len / 256] + payload
  }

  function Word(low: u8, high: u8): u16 {
    var l: int, h: int := low, high;
    l + 256 * h
  }

  /** Every packet of at least four bytes is an ACL packet in exactly these fields, and every
      host parses them. */
  lemma ParseAclPacket(host: Host, phy: u8, logLink: nat, pb: nat, bc: nat, len: u16, payload: seq<u8>)
    requires logLink < 16 && pb < 4 && bc < 4
    ensures var data := AclPacket(phy, logLink, pb, bc, len, payload);
            && ParseAcl(host, data[..4]).(dataLength := 0) == AclHeader(phy, logLink, pb, bc, 0)
            && Le16(host, ParseAcl(host, data[..4]).dataLength) == len
            && data[4..] == payload
  {
    var data := AclPacket(phy, logLink, pb, bc, len, payload);
    assert data[..4][2..4] == [len % 256, len / 256];
    WireOrder(host, len);
  }

  /** The 802.3 length of a data length: eight more, in sixteen bits. */
  function AirLength(len: u16): u16 {
    var l: int := len;
    (l + 8) % 0x1_0000
  }

  /** The room a packet needs in front of its ACL header for the two new headers. */
  const TX_HEADROOM: nat := 18

  /** What Tx translation makes of a packet, on either kind of host: it succeeds exactly for
      this association's handle and an occupied slot, and then the packet is the data frame
      to the peer with the length field eight larger, modulo 2^16, exactly when it had the
      headroom. The two pushes are not checked, so success is reported without it, too. */
  lemma {:induction false} TxMakesFrame(e: Endpoint, phy: u8, p: VosPkt, to: u8, logLink: nat, pb: nat, bc: nat,
                     len: u16, payload: seq<u8>)
    requires e.Valid() && logLink < 16 && pb < 4 && bc < 4
    requires p.data == AclPacket(to, logLink, pb, bc, len, payload)
    ensures var out := XlateTx(e, phy, p);
            && (out.status == Success <==> to == phy && e.links[CorrectedLink(logLink)].present)
            && (out.status != Success ==> out.pkt.data == payload && out.tag == None)
            && (out.status == Success ==>
                  out.tag == Some(TagOf(e.links[CorrectedLink(logLink)])) &&
                  out.pkt.userData == CorrectedLink(logLink) &&
                  (p.headroom >= TX_HEADROOM <==>
                   out.pkt.data == AirFrame(e.peer, e.self, AirLength(len), TYPE_DATA, payload)))
  {
    hide PushHead, AirFrame, LlcHeader, Header8023, ParseAcl, Load16, Le16, Be16;
    ParseAclPacket(e.host, to, logLink, pb, bc, len, payload);
    if to == phy && e.links[CorrectedLink(logLink)].present {
      TwoPushes(e.host, e.peer, e.self, AirLength(len), PopHead(p, HCI_ACL_HEADER_LEN));
    }
  }

  /** The two pushes make the frame exactly when there is room for both headers. */
  lemma TwoPushes(host: Host, da: Mac, sa: Mac, len: u16, body: VosPkt)
    ensures var withLlc := PushHead(body, LlcHeader(host, Be16(host, TYPE_DATA)));
            var frame := PushHead(withLlc, Header8023(host, da, sa, Be16(host, len)));
            frame.data == AirFrame(da, sa, len, TYPE_DATA, body.data) <==>
            body.headroom >= HEADER_802_3_LEN + LLC_HEADER_LEN
  {
    hide Be16, Store16;
    HeadersAreHostIndependent(host, da, sa, len, TYPE_DATA, body.data);
    assert |AirFrame(da, sa, len, TYPE_DATA, body.data)| == 22 + |body.data|;
  }

  /** What Rx translation makes of a frame any station built. */
  lemma {:induction false} RxMakesPacket(host: Host, phy: u8, q: VosPkt, da: Mac, sa: Mac, lenField: u16,
                      protoType: u16, payload: seq<u8>)
    requires q.data == AirFrame(da, sa, lenField, protoType, payload)
    ensures var (status, out) := XlateRx(host, phy, q);
            && (status == Success <==> protoType == TYPE_DATA)
            && (status == Success ==>
                  out.data == AclPacket(phy, 0, 3, 0, (lenField - 8) % 0x1_0000, payload))
  {
    hide Be16, Le16, Load16, Store16, FormatAcl, AclPacket;
    var f := q.data;
    assert f[12..14] == [lenField / 256, lenField % 256];
    assert f[20] == protoType / 256 && f[21] == protoType % 256;
    assert f[14..][6..8] == [protoType / 256, protoType % 256];
    assert f[14..][8..] == payload;
    WireOrder(host, lenField);
    WireOrder(host, TYPE_DATA);
    FormatsAclPacket(host, phy, (lenField - 8) % 0x1_0000, payload);
  }

  lemma FormatsAclPacket(host: Host, phy: u8, len: u16, payload: seq<u8>)
    ensures FormatAcl(host, AclHeader(phy, 0, HCI_PKT_AMP, 0, Le16(host, len))) + payload ==
            AclPacket(phy, 0, 3, 0, len, payload)
  {
    WireOrder(host, len);
  }

  /** Any packet with an ACL header is an AclPacket. */
  lemma AnyAclPacket(data: seq<u8>) returns (logLink: nat, pb: nat, bc: nat, len: u16)
    requires |data| >= HCI_ACL_HEADER_LEN
    ensures logLink == data[1] % 16 && pb < 4 && bc < 4
    ensures data == AclPacket(data[0], logLink, pb, bc, len, data[4..])
  {
    logLink, pb, bc, len := data[1] % 16, data[1] / 16 % 4, data[1] / 64, Word(data[2], data[3]);
  }

  /** The receiver undoes the sender's eight, wrap-around included. */
  lemma LengthRestored(len: u16)
    ensures (AirLength(len) - 8) % 0x1_0000 == len
  {
  }

  /** Round trip, for every payload, every 16-bit length and hosts of either byte order: the
      payload and the length arrive; the header is normalised to the receiver's handle,
      logical handle 0, packet-boundary flag 3 and broadcast flag 0. */
  lemma {:induction false} RoundTrip(sender: Endpoint, phy: u8, p: VosPkt, pb: nat, bc: nat, logLink: nat,
                  len: u16, payload: seq<u8>,
                  receiver: Host, rxPhy: u8, onAir: VosPkt)
    requires sender.Valid() && logLink < 16 && pb < 4 && bc < 4
    requires p.data == AclPacket(phy, logLink, pb, bc, len, payload)
    requires p.headroom >= TX_HEADROOM && sender.links[CorrectedLink(logLink)].present
    requires onAir.data == XlateTx(sender, phy, p).pkt.data
    ensures XlateTx(sender, phy, p).status == Success
    ensures var (status, out) := XlateRx(receiver, rxPhy, onAir);
            status == Success && out.data == AclPacket(rxPhy, 0, 3, 0, len, payload)
  {
    TxMakesFrame(sender, phy, p, phy, logLink, pb, bc, len, payload);
    AirRoundTrip(receiver, rxPhy, onAir, sender.peer, sender.self, len, payload);
  }

  lemma {:induction false} AirRoundTrip(host: Host, phy: u8, q: VosPkt, da: Mac, sa: Mac, len: u16, payload: seq<u8>)
    requires q.data == AirFrame(da, sa, AirLength(len), TYPE_DATA, payload)
    ensures var (status, out) := XlateRx(host, phy, q);
            status == Success && out.data == AclPacket(phy, 0, 3, 0, len, payload)
  {
    RxMakesPacket(host, phy, q, da, sa, AirLength(len), TYPE_DATA, payload);
    LengthRestored(len);
  }

  /** Demultiplexing at the mirrored peer: a translated packet takes the data path, and a
      frame of the link-supervision builder reaches link supervision under its own type,
      past the MAC check. */
  lemma Demultiplexing(e: Endpoint, phy: u8, p: VosPkt, host: Host, self: Mac, peer: Mac,
                       stale: seq<u8>, lsType: u16)
    requires e.Valid() && p.headroom >= TX_HEADROOM
    requires XlateTx(e, phy, p).status == Success
    requires |stale| == LLC_HEADER_LEN && lsType in {TYPE_LS_REQ, TYPE_LS_REP}
    ensures |XlateTx(e, phy, p).pkt.data| >= HEADER_802_3_LEN
    ensures Classify(host, self, peer, XlateTx(e, phy, p).pkt.data, stale) == RxData
    ensures Classify(host, self, peer, LsFrame(e.self, e.peer, lsType), stale) ==
            if e.peer == self && e.self == peer then RxLs(lsType) else RxMacMismatch
  {
    assert |p.data| >= HCI_ACL_HEADER_LEN;
    var payload := p.data[4..];
    var logLink, pb, bc, len := AnyAclPacket(p.data);
    TxMakesFrame(e, phy, p, p.data[0], logLink, pb, bc, len, payload);
    ClassifyAirFrame(host, self, peer, e.peer, e.self, AirLength(len), TYPE_DATA, payload, stale);
    ClassifyAirFrame(host, self, peer, e.peer, e.self, LLC_HEADER_LEN, lsType,
                     seq(LS_BODY_LEN, _ => 0), stale);
  }

  /** The two lookups agree wherever both succeed, and they part exactly on handle 0: Tx
      corrects it to link 1, the lookup refuses it. So no packet is ever tagged with slot 0. */
  lemma TagAgreement(e: Endpoint, phy: u8, p: VosPkt)
    requires e.Valid() && |p.data| >= HCI_ACL_HEADER_LEN
    requires XlateTx(e, phy, p).status == Success
    ensures var out, (status, ac) := XlateTx(e, phy, p), AcOf(e, p.data);
            && ValidLogLink(out.pkt.userData)
            && e.links[out.pkt.userData].present
            && out.tag == Some(TagOf(e.links[out.pkt.userData]))
            && out.tag.value.ac == e.links[out.pkt.userData].ac
            && out.tag.value.tid == e.links[out.pkt.userData].tid
            && out.tag.value.up == e.links[out.pkt.userData].up
            && (status == Success ==> ac == Some(out.tag.value.ac))
            && (status == Success <==> p.data[1] % 16 != 0)
            && (status != Success ==> out.pkt.userData == 1)
  {
  }

  /** The frame any accepted packet becomes, given the room. */
  lemma TxFrameOf(e: Endpoint, phy: u8, p: VosPkt)
    requires e.Valid() && |p.data| >= 4 && p.headroom >= TX_HEADROOM
    ensures var out := XlateTx(e, phy, p);
            && (out.status == Success <==> p.data[0] == phy && e.links[CorrectedLink(p.data[1] % 16)].present)
            && (out.status == Success ==>
                  out.pkt.data == AirFrame(e.peer, e.self, AirLength(Word(p.data[2], p.data[3])), TYPE_DATA,
                                           p.data[4..]))
  {
    hide XlateTx, AirFrame, AirLength;
    var logLink, pb, bc, len := AnyAclPacket(p.data);
    assert len == Word(p.data[2], p.data[3]) by {
      assert AclPacket(p.data[0], logLink, pb, bc, len, p.data[4..])[2] == len % 256;
      assert AclPacket(p.data[0], logLink, pb, bc, len, p.data[4..])[3] == len / 256;
    }
    TxMakesFrame(e, phy, p, p.data[0], logLink, pb, bc, len, p.data[4..]);
  }

  /** The lookup answers exactly for a valid handle of an occupied slot, with its category. */
  lemma AcExactly(e: Endpoint, data: seq<u8>)
    requires e.Valid() && |data| >= HCI_ACL_HEADER_LEN
    ensures var (status, ac) := AcOf(e, data);
            var link := data[1] % 16;
            if 0 < link && e.links[link].present
            then status == Success && ac == Some(e.links[link].ac)
            else status == EInval && ac == None
  {
  }

  /** What a refused packet has lost on the way to the air: nothing when it is too short for an
      ACL header, that header otherwise; its user data is untouched. */
  lemma TxRefuses(e: Endpoint, phy: u8, p: VosPkt)
    requires e.Valid() && XlateTx(e, phy, p).status != Success
    ensures var out := XlateTx(e, phy, p);
            && out.status == EInval && out.tag == None && out.pkt.userData == p.userData
            && (|p.data| < 4 ==> out.pkt == p)
            && (|p.data| >= 4 ==> out.pkt.data == p.data[4..] && out.pkt.headroom == p.headroom + 4)
  {
  }

  /** What an accepted packet is for want of room: below 4 bytes of headroom it goes out bare,
      below 18 with the LLC header only; with both headers it has lost 18 bytes of room. */
  lemma TxWithoutRoom(e: Endpoint, phy: u8, p: VosPkt)
    requires e.Valid() && XlateTx(e, phy, p).status == Success
    ensures var out := XlateTx(e, phy, p);
            && |p.data| >= 4
            && (p.headroom < 4 ==> out.pkt.data == p.data[4..])
            && (p.headroom >= TX_HEADROOM ==>
                  |out.pkt.data| == |p.data| + 18 && out.pkt.headroom == p.headroom - 18 &&
                  out.pkt.data[22..] == p.data[4..])
            && (4 <= p.headroom < TX_HEADROOM ==>
                  |out.pkt.data| == |p.data| + 4 && out.pkt.data[8..] == p.data[4..] &&
                  out.pkt.data[..6] == [0xAA, 0xAA, 0x03, 0x00, 0x19, 0x58])
  {
  }

  /** What Rx translation does to any frame: one too short for its 802.3 header is left alone;
      one too short for the LLC header has lost the first; one that is not data has lost both;
      data has its two headers replaced by the ACL header, which always finds room. */
  lemma RxAnyFrame(host: Host, phy: u8, p: VosPkt)
    ensures var (status, out) := XlateRx(host, phy, p);
            && out.userData == p.userData
            && (|p.data| < 14 ==> status == EInval && out == p)
            && (14 <= |p.data| < 22 ==>
                  status == EInval && out.data == p.data[14..] && out.headroom == p.headroom + 14)
            && (|p.data| >= 22 && p.data[20..22] != [0, 1] ==>
                  status == EFault && out.data == p.data[22..] && out.headroom == p.headroom + 22)
            && (|p.data| >= 22 && p.data[20..22] == [0, 1] ==>
                  status == Success && |out.data| == |p.data| - 18 &&
                  out.data[4..] == p.data[22..] && out.headroom == p.headroom + 18)
  {
    WireOrder(host, TYPE_DATA);
    hide Be16, Le16, Load16, Store16, FormatAcl;
    if |p.data| >= 22 {
      assert p.data[14..][6..8] == p.data[20..22];
      assert p.data[14..][8..] == p.data[22..];
    }
  }
}
