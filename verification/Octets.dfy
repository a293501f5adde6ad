/** Packets octet by octet: what stands where on the wire, by number, and which octets are accepted. */
module Octets {
  import opened Wire
  import opened Types
  import opened Tlvs
  import opened Packets

  // -------------------------------------------------------------- numbers

  lemma Signed16Octets(v: i16)
    ensures BE(2, Unsigned16(v)) == [(v / 0x100 % 256) as byte, (v % 256) as byte]
  {
    var u := Unsigned16(v);
    var q := if v < 0 then -1 else 0;
    BE2(u);
    LowDigit(v, u, q, 0x100, 1);
    LowDigit(v, u, q, 1, 0x100);
  }

  lemma Signed32Octets(v: i32)
    ensures BE(4, Unsigned32(v)) ==
            [(v / 0x100_0000 % 256) as byte, (v / 0x1_0000 % 256) as byte, (v / 0x100 % 256) as byte, (v % 256) as byte]
  {
    var u := Unsigned32(v);
    var q := if v < 0 then -1 else 0;
    BE4(u);
    LowDigit(v, u, q, 0x100_0000, 1);
    LowDigit(v, u, q, 0x1_0000, 0x100);
    LowDigit(v, u, q, 0x100, 0x1_0000);
    LowDigit(v, u, q, 1, 0x100_0000);
  }

  lemma Signed64Octets(v: i64)
    ensures BE(8, Unsigned64(v)) ==
            [(v / 0x100_0000_0000_0000 % 256) as byte, (v / 0x1_0000_0000_0000 % 256) as byte,
             (v / 0x100_0000_0000 % 256) as byte, (v / 0x1_0000_0000 % 256) as byte,
             (v / 0x100_0000 % 256) as byte, (v / 0x1_0000 % 256) as byte, (v / 0x100 % 256) as byte, (v % 256) as byte]
  {
    var u := Unsigned64(v);
    var q := if v < 0 then -1 else 0;
    BE8(u);
    LowDigit(v, u, q, 0x100_0000_0000_0000, 1);
    LowDigit(v, u, q, 0x1_0000_0000_0000, 0x100);
    LowDigit(v, u, q, 0x100_0000_0000, 0x1_0000);
    LowDigit(v, u, q, 0x1_0000_0000, 0x100_0000);
    LowDigit(v, u, q, 0x100_0000, 0x1_0000_0000);
    LowDigit(v, u, q, 0x1_0000, 0x100_0000_0000);
    LowDigit(v, u, q, 0x100, 0x1_0000_0000_0000);
    LowDigit(v, u, q, 1, 0x100_0000_0000_0000);
  }

  lemma Signed8Octet(v: i8)
    ensures Unsigned8(v) == (v % 256) as byte
  {
  }

  // -------------------------------------------------------------- packets

  /** The 34 octets of a header (section 13.3), every number big-endian, signed ones in two's complement. */
  lemma HeaderOctets(h: Header)
    ensures var c, id, n := h.correctionField, h.sourcePortIdentity.clockIdentity, h.messageTypeSpecific;
            EncodeHeader(h) ==
            [h.sdoIdAndMsgType, h.version, (h.messageLength / 0x100 % 256) as byte, (h.messageLength % 256) as byte,
             h.domainNumber, h.minorSdoId, (h.flagField / 0x100 % 256) as byte, (h.flagField % 256) as byte] +
            [(c / 0x100_0000_0000_0000 % 256) as byte, (c / 0x1_0000_0000_0000 % 256) as byte,
             (c / 0x100_0000_0000 % 256) as byte, (c / 0x1_0000_0000 % 256) as byte,
             (c / 0x100_0000 % 256) as byte, (c / 0x1_0000 % 256) as byte, (c / 0x100 % 256) as byte, (c % 256) as byte] +
            [(n / 0x100_0000 % 256) as byte, (n / 0x1_0000 % 256) as byte, (n / 0x100 % 256) as byte, (n % 256) as byte] +
            [(id / 0x100_0000_0000_0000 % 256) as byte, (id / 0x1_0000_0000_0000 % 256) as byte,
             (id / 0x100_0000_0000 % 256) as byte, (id / 0x1_0000_0000 % 256) as byte,
             (id / 0x100_0000 % 256) as byte, (id / 0x1_0000 % 256) as byte, (id / 0x100 % 256) as byte, (id % 256) as byte] +
            [(h.sourcePortIdentity.portNumber / 0x100 % 256) as byte, (h.sourcePortIdentity.portNumber % 256) as byte,
             (h.sequenceId / 0x100 % 256) as byte, (h.sequenceId % 256) as byte,
             h.controlField, (h.logMessageInterval % 256) as byte]
  {
    hide BE;
    BE2(h.messageLength);
    BE2(h.flagField);
    Signed64Octets(h.correctionField);
    BE4(h.messageTypeSpecific);
    BE8(h.sourcePortIdentity.clockIdentity);
    BE2(h.sourcePortIdentity.portNumber);
    BE2(h.sequenceId);
    Signed8Octet(h.logMessageInterval);
  }

  /** A packet is its header, its body and its TLVs: this many octets, in this order. */
  lemma PacketParts(p: Packet)
    requires AllEncodable(TlvsOf(p))
    ensures var n := match p
                     case Announce(_, _, _) => 64
                     case SyncDelayReq(_, _, _) => 44
                     case FollowUp(_, _) => 44
                     case DelayResp(_, _, _) => 54
                     case Signaling(_, _, _) => 44;
            && |Encode(p)| == n + |EncodeTlvs(TlvsOf(p))| && Encode(p)[..34] == EncodeHeader(p.header)
            && Encode(p)[34..n] == EncodeBody(p) && Encode(p)[n..] == EncodeTlvs(TlvsOf(p))
  {
    hide EncodeHeader, EncodeBody, EncodeTlvs;
    Layout(EncodeHeader(p.header), EncodeBody(p), EncodeTlvs(TlvsOf(p)), []);
    assert EncodeHeader(p.header) + EncodeBody(p) + EncodeTlvs(TlvsOf(p)) + [] == Encode(p);
    assert EncodeTlvs(TlvsOf(p)) + [] == EncodeTlvs(TlvsOf(p));
  }

  lemma TimestampOctets(t: Timestamp)
    ensures EncodeTimestamp(t) == t.seconds +
            [(t.nanoseconds / 0x100_0000 % 256) as byte, (t.nanoseconds / 0x1_0000 % 256) as byte,
             (t.nanoseconds / 0x100 % 256) as byte, (t.nanoseconds % 256) as byte]
  {
    hide BE;
    BE4(t.nanoseconds);
  }

  lemma PortOctets(i: PortIdentity)
    ensures var id := i.clockIdentity;
            EncodePort(i) ==
            [(id / 0x100_0000_0000_0000 % 256) as byte, (id / 0x1_0000_0000_0000 % 256) as byte,
             (id / 0x100_0000_0000 % 256) as byte, (id / 0x1_0000_0000 % 256) as byte,
             (id / 0x100_0000 % 256) as byte, (id / 0x1_0000 % 256) as byte, (id / 0x100 % 256) as byte, (id % 256) as byte,
             (i.portNumber / 0x100 % 256) as byte, (i.portNumber % 256) as byte]
  {
    hide BE;
    BE8(i.clockIdentity);
    BE2(i.portNumber);
  }

  /** Octets 34 to 44 of a Sync, a Delay_Req or a Follow_Up: six of seconds, four of nanoseconds. */
  lemma SyncOctets(p: Packet)
    requires (p.SyncDelayReq? && AllEncodable(p.tlvs)) || p.FollowUp?
    ensures var t := if p.FollowUp? then p.preciseOriginTimestamp else p.originTimestamp;
            && 44 <= |Encode(p)|
            && Encode(p)[34..44] == t.seconds +
               [(t.nanoseconds / 0x100_0000 % 256) as byte, (t.nanoseconds / 0x1_0000 % 256) as byte,
                (t.nanoseconds / 0x100 % 256) as byte, (t.nanoseconds % 256) as byte]
  {
    hide Encode, EncodeTimestamp;
    PacketParts(p);
    TimestampOctets(if p.FollowUp? then p.preciseOriginTimestamp else p.originTimestamp);
  }

  /** Octets 34 to 54 of a Delay_Resp: the time of receipt, then identity and port of the one who asked. */
  lemma DelayRespOctets(p: Packet)
    requires p.DelayResp?
    ensures var t, id, port := p.receiveTimestamp, p.requestingPortIdentity.clockIdentity, p.requestingPortIdentity.portNumber;
            && |Encode(p)| == 54
            && Encode(p)[34..54] == t.seconds +
               [(t.nanoseconds / 0x100_0000 % 256) as byte, (t.nanoseconds / 0x1_0000 % 256) as byte,
                (t.nanoseconds / 0x100 % 256) as byte, (t.nanoseconds % 256) as byte] +
               [(id / 0x100_0000_0000_0000 % 256) as byte, (id / 0x1_0000_0000_0000 % 256) as byte,
                (id / 0x100_0000_0000 % 256) as byte, (id / 0x1_0000_0000 % 256) as byte,
                (id / 0x100_0000 % 256) as byte, (id / 0x1_0000 % 256) as byte, (id / 0x100 % 256) as byte, (id % 256) as byte,
                (port / 0x100 % 256) as byte, (port % 256) as byte]
  {
    hide Encode, EncodeTimestamp, EncodePort;
    PacketParts(p);
    EncodeTlvsNil();
    TimestampOctets(p.receiveTimestamp);
    PortOctets(p.requestingPortIdentity);
  }

  /** Octets 34 to 44 of a Signaling packet: identity and port of the target. */
  lemma SignalingOctets(p: Packet)
    requires p.Signaling? && AllEncodable(p.tlvs)
    ensures var id, port := p.targetPortIdentity.clockIdentity, p.targetPortIdentity.portNumber;
            && 44 <= |Encode(p)|
            && Encode(p)[34..44] ==
               [(id / 0x100_0000_0000_0000 % 256) as byte, (id / 0x1_0000_0000_0000 % 256) as byte,
                (id / 0x100_0000_0000 % 256) as byte, (id / 0x1_0000_0000 % 256) as byte,
                (id / 0x100_0000 % 256) as byte, (id / 0x1_0000 % 256) as byte, (id / 0x100 % 256) as byte, (id % 256) as byte,
                (port / 0x100 % 256) as byte, (port % 256) as byte]
  {
    hide Encode, EncodePort;
    PacketParts(p);
    PortOctets(p.targetPortIdentity);
  }

  lemma AnnounceBodyOctets(a: AnnounceBody)
    ensures var t, id := a.originTimestamp, a.grandmasterIdentity;
            EncodeAnnounceBody(a) == EncodeTimestamp(t) +
            [(a.currentUtcOffset / 0x100 % 256) as byte, (a.currentUtcOffset % 256) as byte,
             a.reserved, a.grandmasterPriority1, a.clockClass, a.clockAccuracy,
             (a.offsetScaledLogVariance / 0x100 % 256) as byte, (a.offsetScaledLogVariance % 256) as byte,
             a.grandmasterPriority2] +
            [(id / 0x100_0000_0000_0000 % 256) as byte, (id / 0x1_0000_0000_0000 % 256) as byte,
             (id / 0x100_0000_0000 % 256) as byte, (id / 0x1_0000_0000 % 256) as byte,
             (id / 0x100_0000 % 256) as byte, (id / 0x1_0000 % 256) as byte, (id / 0x100 % 256) as byte, (id % 256) as byte] +
            [(a.stepsRemoved / 0x100 % 256) as byte, (a.stepsRemoved % 256) as byte, a.timeSource]
  {
    hide EncodeTimestamp, BE;
    Signed16Octets(a.currentUtcOffset);
    BE2(a.offsetScaledLogVariance);
    BE8(a.grandmasterIdentity);
    BE2(a.stepsRemoved);
  }

  /** Octets 34 to 64 of an Announce (section 13.5). */
  lemma AnnounceOctets(p: Packet)
    requires p.Announce? && AllEncodable(p.tlvs)
    ensures var a, t, id := p.body, p.body.originTimestamp, p.body.grandmasterIdentity;
            && 64 <= |Encode(p)|
            && Encode(p)[34..64] == t.seconds +
               [(t.nanoseconds / 0x100_0000 % 256) as byte, (t.nanoseconds / 0x1_0000 % 256) as byte,
                (t.nanoseconds / 0x100 % 256) as byte, (t.nanoseconds % 256) as byte] +
               [(a.currentUtcOffset / 0x100 % 256) as byte, (a.currentUtcOffset % 256) as byte,
                a.reserved, a.grandmasterPriority1, a.clockClass, a.clockAccuracy,
                (a.offsetScaledLogVariance / 0x100 % 256) as byte, (a.offsetScaledLogVariance % 256) as byte,
                a.grandmasterPriority2] +
               [(id / 0x100_0000_0000_0000 % 256) as byte, (id / 0x1_0000_0000_0000 % 256) as byte,
                (id / 0x100_0000_0000 % 256) as byte, (id / 0x1_0000_0000 % 256) as byte,
                (id / 0x100_0000 % 256) as byte, (id / 0x1_0000 % 256) as byte, (id / 0x100 % 256) as byte, (id % 256) as byte] +
               [(a.stepsRemoved / 0x100 % 256) as byte, (a.stepsRemoved % 256) as byte, a.timeSource]
  {
    hide Encode, EncodeTimestamp, EncodeAnnounceBody, BE;
    PacketParts(p);
    TimestampOctets(p.body.originTimestamp);
    AnnounceBodyOctets(p.body);
  }

  // ----------------------------------------------------------------- TLVs

  lemma HeadOctets(h: TlvHead)
    ensures EncodeHead(h) == [(h.tlvType / 0x100 % 256) as byte, (h.tlvType % 256) as byte,
                              (h.lengthField / 0x100 % 256) as byte, (h.lengthField % 256) as byte]
  {
    hide BE;
    BE2(h.tlvType);
    BE2(h.lengthField);
  }

  /** The fixed-size TLVs of unicast negotiation (section 16.1), octet by octet. */
  lemma FixedSizeOctets(t: Tlv)
    requires FixedSize(t)
    ensures var head := [(t.head.tlvType / 0x100 % 256) as byte, (t.head.tlvType % 256) as byte,
                         (t.head.lengthField / 0x100 % 256) as byte, (t.head.lengthField % 256) as byte];
            EncodeTlv(t) ==
            match t
            case RequestUnicast(_, m, l, d) =>
              head + [m, (l % 256) as byte, (d / 0x100_0000 % 256) as byte, (d / 0x1_0000 % 256) as byte,
                      (d / 0x100 % 256) as byte, (d % 256) as byte]
            case GrantUnicast(_, m, l, d, res, ren) =>
              head + [m, (l % 256) as byte, (d / 0x100_0000 % 256) as byte, (d / 0x1_0000 % 256) as byte,
                      (d / 0x100 % 256) as byte, (d % 256) as byte, res, ren]
            case CancelUnicast(_, m, res) => head + [m, res]
            case AcknowledgeCancel(_, m, res) => head + [m, res]
            case AlternateResponsePort(_, o) => head + [(o / 0x100 % 256) as byte, (o % 256) as byte]
            case _ => head
  {
    hide BE, EncodeHead;
    HeadOctets(t.head);
    match t {
      case RequestUnicast(_, _, l, d) => Signed8Octet(l); BE4(d);
      case GrantUnicast(_, _, l, d, _, _) => Signed8Octet(l); BE4(d);
      case AlternateResponsePort(_, o) => BE2(o);
      case _ =>
    }
  }

  /** Identity i of a PATH_TRACE stands at octet 4 + 8 i (section 16.2). */
  lemma PathTraceOctets(t: Tlv, i: nat)
    requires t.PathTrace? && i < |t.pathSequence|
    ensures |EncodeTlv(t)| == 4 + 8 * |t.pathSequence|
    ensures EncodeTlv(t)[..4] == [(t.head.tlvType / 0x100 % 256) as byte, (t.head.tlvType % 256) as byte,
                                  (t.head.lengthField / 0x100 % 256) as byte, (t.head.lengthField % 256) as byte]
    ensures var id := t.pathSequence[i];
            EncodeTlv(t)[4 + 8 * i..12 + 8 * i] ==
            [(id / 0x100_0000_0000_0000 % 256) as byte, (id / 0x1_0000_0000_0000 % 256) as byte,
             (id / 0x100_0000_0000 % 256) as byte, (id / 0x1_0000_0000 % 256) as byte,
             (id / 0x100_0000 % 256) as byte, (id / 0x1_0000 % 256) as byte, (id / 0x100 % 256) as byte, (id % 256) as byte]
  {
    hide BE, EncodeHead;
    HeadOctets(t.head);
    IdAt(t.pathSequence, i);
    BE8(t.pathSequence[i]);
    Inner(EncodeHead(t.head), EncodeIds(t.pathSequence), [], 8 * i, 8 * i + 8);
    assert EncodeHead(t.head) + EncodeIds(t.pathSequence) + [] == EncodeTlv(t);
  }

  /** An ALTERNATE_TIME_OFFSET_INDICATOR (section 16.3); a name stands behind its length, with a zero octet if that is odd. */
  lemma TimeOffsetOctets(t: Tlv)
    requires t.AlternateTimeOffset? && |t.displayName| <= 255
    ensures var o, j, n := t.currentOffset, t.jumpSeconds, |t.displayName|;
            EncodeTlv(t) ==
            [(t.head.tlvType / 0x100 % 256) as byte, (t.head.tlvType % 256) as byte,
             (t.head.lengthField / 0x100 % 256) as byte, (t.head.lengthField % 256) as byte, t.keyField] +
            [(o / 0x100_0000 % 256) as byte, (o / 0x1_0000 % 256) as byte, (o / 0x100 % 256) as byte, (o % 256) as byte] +
            [(j / 0x100_0000 % 256) as byte, (j / 0x1_0000 % 256) as byte, (j / 0x100 % 256) as byte, (j % 256) as byte] +
            t.timeOfNextJump +
            (if n == 0 then [] else if n % 2 == 0 then [n as byte] + t.displayName else [n as byte] + t.displayName + [0])
  {
    hide BE, EncodeHead;
    HeadOctets(t.head);
    Signed32Octets(t.currentOffset);
    Signed32Octets(t.jumpSeconds);
  }

  /** The TLVs of a chain stand one behind the other. */
  lemma {:induction false} ChainOctets(a: seq<Tlv>, b: seq<Tlv>)
    requires AllEncodable(a) && AllEncodable(b)
    ensures AllEncodable(a + b) && EncodeTlvs(a + b) == EncodeTlvs(a) + EncodeTlvs(b)
    ensures EncodeTlvs([]) == []
    ensures |a| == 1 ==> EncodeTlvs(a) == EncodeTlv(a[0])
  {
    hide EncodeTlv;
    if a == [] {
      assert a + b == b;
    } else {
      ChainOctets(a[1..], b);
      assert (a + b)[1..] == a[1..] + b;
      if |a| == 1 {
        assert a[1..] == [];
      }
    }
  }

  // ------------------------------------------------------- what is accepted

  /** Which octets are read as a TLV: those with one of seven types, a length that fits it, and that many octets. */
  lemma TlvAccepted(b: seq<byte>)
    requires 4 <= |b|
    ensures var typ, length := 0x100 * b[0] as int + b[1] as int, 0x100 * b[2] as int + b[3] as int;
            DecodeTlv(b).Success? <==>
            && 4 + length <= |b|
            && ((typ == 0x0004 && length == 6) || (typ == 0x0005 && length == 8) || (typ == 0x0006 && length == 2)
                || (typ == 0x0007 && length == 2) || (typ == 0x0008 && 8 <= length) || (typ == 0x2007 && length == 2)
                || (typ == 0x0009 && 20 <= length && (b[19] == 0 || 20 + b[19] as int <= |b|)))
    ensures DecodeTlv(b).Success? ==>
              match DecodeTlv(b).value
              case RequestUnicast(_, _, _, _) => b[0] == 0 && b[1] == 4
              case GrantUnicast(_, _, _, _, _, _) => b[0] == 0 && b[1] == 5
              case CancelUnicast(_, _, _) => b[0] == 0 && b[1] == 6
              case AcknowledgeCancel(_, _, _) => b[0] == 0 && b[1] == 7
              case PathTrace(_, ids) => b[0] == 0 && b[1] == 8
              case AlternateTimeOffset(_, _, _, _, _, _) => b[0] == 0 && b[1] == 9
              case AlternateResponsePort(_, _) => b[0] == 0x20 && b[1] == 7
  {
    hide Value, U32, U64, ReadIds, DecodeText;
    U16Octets(b, 0);
    U16Octets(b, 2);
    if 20 <= |b| {
      TextAccepted(b[19..]);
    }
  }

  /** A text is read exactly if its length octet counts no more than is there; it is those octets. */
  lemma TextAccepted(raw: seq<byte>)
    ensures DecodeText(raw).Success? <==> raw != [] && (raw[0] == 0 || 1 + raw[0] as int <= |raw|)
    ensures DecodeText(raw).Success? ==> DecodeText(raw).value == raw[1..1 + raw[0] as int]
  {
  }

  /** Of a PATH_TRACE with length L in n octets, min(L / 8 + 1, (n - 5) / 8) identities are read, from octet 4 on. */
  lemma PathTraceRead(b: seq<byte>, i: nat)
    requires 4 <= |b| && b[0] == 0 && b[1] == 8 && DecodeTlv(b).Success?
    ensures DecodeTlv(b).value.PathTrace?
    ensures var ids, length := DecodeTlv(b).value.pathSequence, 0x100 * b[2] as int + b[3] as int;
            && |ids| == (if length / 8 + 1 <= (|b| - 5) / 8 then length / 8 + 1 else (|b| - 5) / 8)
            && (i < |ids| ==>
                  12 + 8 * i <= |b| &&
                  ids[i] == 0x100_0000_0000_0000 * b[4 + 8 * i] as int + 0x1_0000_0000_0000 * b[5 + 8 * i] as int +
                            0x100_0000_0000 * b[6 + 8 * i] as int + 0x1_0000_0000 * b[7 + 8 * i] as int +
                            0x100_0000 * b[8 + 8 * i] as int + 0x1_0000 * b[9 + 8 * i] as int +
                            0x100 * b[10 + 8 * i] as int + b[11 + 8 * i] as int)
  {
    hide Value, U32, DecodeText;
    U16Octets(b, 0);
    U16Octets(b, 2);
    if i < |DecodeTlv(b).value.pathSequence| {
      U64Octets(b, 4 + 8 * i);
    }
  }

  /** The type nibble picks the packet: Sync and Delay_Req, Follow_Up, Delay_Resp, Announce, Signaling, and no other. */
  lemma TypesDecoded(m: byte)
    ensures KindForType(m) ==
            match m
            case 0x0 => Some(SyncDelayReqKind)
            case 0x1 => Some(SyncDelayReqKind)
            case 0x8 => Some(FollowUpKind)
            case 0x9 => Some(DelayRespKind)
            case 0xB => Some(AnnounceKind)
            case 0xC => Some(SignalingKind)
            case _ => None
  {
  }

  /** Which octets decode to a packet, and to which: by type nibble, length field and the TLVs behind the body. */
  lemma PacketAccepted(b: seq<byte>)
    ensures Decode(b).Success? <==>
            && 34 <= |b|
            && (var m, length := b[0] as int % 16, 0x100 * b[2] as int + b[3] as int;
                match m
                case 0x0 => 44 <= |b| && length <= |b| && ScanTlvs(length - 44, b[44..]).err.None?
                case 0x1 => 44 <= |b| && length <= |b| && ScanTlvs(length - 44, b[44..]).err.None?
                case 0x8 => 44 <= |b| && length <= |b|
                case 0x9 => 54 <= |b| && length <= |b|
                case 0xB => 64 <= |b| && length <= |b| && ScanTlvs(length - 64, b[64..]).err.None?
                case 0xC => 48 <= |b| && length <= |b| && ScanTlvs(length - 44, b[44..]).err.None?
                            && ScanTlvs(length - 44, b[44..]).tlvs != []
                case _ => false)
    ensures Decode(b).Success? ==>
              match b[0] as int % 16
              case 0x0 => Decode(b).value.SyncDelayReq?
              case 0x1 => Decode(b).value.SyncDelayReq?
              case 0x8 => Decode(b).value.FollowUp?
              case 0x9 => Decode(b).value.DelayResp?
              case 0xB => Decode(b).value.Announce?
              case _ => Decode(b).value.Signaling?
  {
    hide Value, U32, U64, ScanTlvs, DecodeFields;
    if 34 <= |b| {
      U16Octets(b, 2);
      TypesDecoded(MsgType(b[0]));
    }
  }

  /** The reasons for refusing octets as a TLV: a type that is not read, a length that does not fit it, or octets missing. */
  lemma TlvErrors(b: seq<byte>)
    requires 4 <= |b|
    ensures DecodeTlv(b).Failure? ==>
              var typ, length := 0x100 * b[0] as int + b[1] as int, 0x100 * b[2] as int + b[3] as int;
              DecodeTlv(b).error ==
              if typ != 0x2007 && (typ < 0x0004 || 0x0009 < typ) then UnknownTlv(typ)
              else if (typ == 0x0004 && length != 6) || (typ == 0x0005 && length != 8)
                      || ((typ == 0x0006 || typ == 0x0007 || typ == 0x2007) && length != 2)
                      || (typ == 0x0008 && length < 8) || (typ == 0x0009 && length < 20) then BadTlvLength(typ)
              else if |b| < 4 + length then TlvTooLong(typ)
              else TextTooShort
  {
    hide Value, U32, U64, ReadIds;
    U16Octets(b, 0);
    U16Octets(b, 2);
  }

  /**
   * Where the reading of a chain stops: with fewer than four octets left of its length, or at octets that are refused
   * as a TLV, and then with that error.
   */
  lemma {:induction false} ScanStops(maxLength: int, b: seq<byte>)
    requires maxLength <= |b|
    ensures var s := ScanTlvs(maxLength, b);
            && s.pos <= |b|
            && (s.err.None? <==> maxLength < s.pos + 4)
            && (s.err.Some? ==> 4 <= |b[s.pos..]| && DecodeTlv(b[s.pos..]) == Failure(s.err.value))
    decreases |b|
  {
    hide DecodeTlv, ScanTlvs;
    ScanStep(maxLength, b);
    if 4 <= maxLength && DecodeTlv(b).Success? {
      var n := 4 + DecodeTlv(b).value.head.lengthField;
      ScanStops(maxLength - n, b[n..]);
      assert b[n..][ScanTlvs(maxLength - n, b[n..]).pos..] == b[ScanTlvs(maxLength, b).pos..];
    } else {
      assert b[0..] == b;
    }
  }

  /** The reasons for refusing octets as a packet, in the order in which they are looked for. */
  lemma PacketErrors(b: seq<byte>)
    ensures Decode(b).Failure? ==>
              Decode(b).error ==
              if |b| < 34 then NotEnoughData
              else
                var m, length := b[0] as int % 16, 0x100 * b[2] as int + b[3] as int;
                var bodyEnd := if m == 0x9 then 54 else if m == 0xB then 64 else 44;
                if m != 0x0 && m != 0x1 && m != 0x8 && m != 0x9 && m != 0xB && m != 0xC then UnsupportedType(m as byte)
                else if |b| < (if m == 0xC then 48 else bodyEnd) then NotEnoughData
                else if |b| < length then MessageTooLong
                else if ScanTlvs(length - bodyEnd, b[bodyEnd..]).err.Some? then ScanTlvs(length - bodyEnd, b[bodyEnd..]).err.value
                else NoTlvs
  {
    hide Value, U32, U64, ScanTlvs, DecodeFields;
    if 34 <= |b| {
      U16Octets(b, 2);
      TypesDecoded(MsgType(b[0]));
    }
  }

  /** When a packet cannot be written: a Signaling one without TLVs, a short buffer, a name too long to count. */
  lemma PacketRefused(p: Packet, length: nat)
    ensures MarshalResult(p, length).Failure? <==>
            match p
            case Announce(_, _, ts) => length < 64 || !AllEncodable(ts)
            case SyncDelayReq(_, _, ts) => length < 44 || !AllEncodable(ts)
            case FollowUp(_, _) => length < 44
            case DelayResp(_, _, _) => length < 54
            case Signaling(_, _, ts) => ts == [] || !AllEncodable(ts)
    ensures MarshalResult(p, length).Failure? ==>
              MarshalResult(p, length).error ==
              if p.Signaling? && p.tlvs == [] then NoTlvs
              else if !p.Signaling? && length < (if p.Announce? then 64 else if p.DelayResp? then 54 else 44) then NotEnoughBuffer
              else TextTooLong
    ensures MarshalResult(p, length).Success? ==> MarshalResult(p, length).value == |Encode(p)|
    ensures AllEncodable(TlvsOf(p)) <==>
            forall i | 0 <= i < |TlvsOf(p)| && TlvsOf(p)[i].AlternateTimeOffset? :: |TlvsOf(p)[i].displayName| <= 255
  {
    hide Encode;
  }
}
