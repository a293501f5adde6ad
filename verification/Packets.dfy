/** Whole packets: protocol/protocol.go and protocol/unicast.go. */
module Packets {
  import opened Wire
  import opened Types
  import opened Tlvs

  /** Table 43 without the TLVs. */
  datatype AnnounceBody = AnnounceBody(
    originTimestamp: Timestamp,
    currentUtcOffset: i16,
    reserved: byte,
    grandmasterPriority1: byte,
    clockClass: byte,
    clockAccuracy: byte,
    offsetScaledLogVariance: u16,
    grandmasterPriority2: byte,
    grandmasterIdentity: u64,
    stepsRemoved: u16,
    timeSource: byte)

  datatype Packet =
    | Announce(header: Header, body: AnnounceBody, tlvs: seq<Tlv>)
    | SyncDelayReq(header: Header, originTimestamp: Timestamp, tlvs: seq<Tlv>)
    | FollowUp(header: Header, preciseOriginTimestamp: Timestamp)
    | DelayResp(header: Header, receiveTimestamp: Timestamp, requestingPortIdentity: PortIdentity)
    | Signaling(header: Header, targetPortIdentity: PortIdentity, tlvs: seq<Tlv>)

  /** The Go types a packet can be unmarshalled into. */
  datatype Kind = AnnounceKind | SyncDelayReqKind | FollowUpKind | DelayRespKind | SignalingKind

  function KindOfPacket(p: Packet): Kind {
    match p
    case Announce(_, _, _) => AnnounceKind
    case SyncDelayReq(_, _, _) => SyncDelayReqKind
    case FollowUp(_, _) => FollowUpKind
    case DelayResp(_, _, _) => DelayRespKind
    case Signaling(_, _, _) => SignalingKind
  }

  /** Where the fixed part of a packet ends and its TLVs begin. */
  function BodyEnd(k: Kind): nat {
    match k
    case AnnounceKind => HEADER_SIZE + 30
    case DelayRespKind => HEADER_SIZE + 20
    case _ => HEADER_SIZE + 10
  }

  function BodyLength(p: Packet): nat {
    BodyEnd(KindOfPacket(p)) - HEADER_SIZE
  }

  function TlvsOf(p: Packet): seq<Tlv> {
    if p.FollowUp? || p.DelayResp? then [] else p.tlvs
  }

  // ---------------------------------------------------------------- encoding

  function EncodeHeader(h: Header): (b: seq<byte>)
    ensures |b| == HEADER_SIZE
  {
    [h.sdoIdAndMsgType, h.version] + BE(2, h.messageLength) + [h.domainNumber, h.minorSdoId] + BE(2, h.flagField) +
    BE(8, Unsigned64(h.correctionField)) + BE(4, h.messageTypeSpecific) +
    BE(8, h.sourcePortIdentity.clockIdentity) + BE(2, h.sourcePortIdentity.portNumber) +
    BE(2, h.sequenceId) + [h.controlField, Unsigned8(h.logMessageInterval)]
  }

  function EncodeTimestamp(t: Timestamp): (b: seq<byte>)
    ensures |b| == 10
  {
    t.seconds + BE(4, t.nanoseconds)
  }

  function EncodePort(i: PortIdentity): (b: seq<byte>)
    ensures |b| == 10
  {
    BE(8, i.clockIdentity) + BE(2, i.portNumber)
  }

  function EncodeAnnounceBody(a: AnnounceBody): (b: seq<byte>)
    ensures |b| == 30
  {
    EncodeTimestamp(a.originTimestamp) + BE(2, Unsigned16(a.currentUtcOffset)) +
    [a.reserved, a.grandmasterPriority1, a.clockClass, a.clockAccuracy] + BE(2, a.offsetScaledLogVariance) +
    [a.grandmasterPriority2] + BE(8, a.grandmasterIdentity) + BE(2, a.stepsRemoved) + [a.timeSource]
  }

  function EncodeBody(p: Packet): (b: seq<byte>)
    ensures |b| == BodyLength(p)
  {
    match p
    case Announce(_, a, _) => EncodeAnnounceBody(a)
    case SyncDelayReq(_, t, _) => EncodeTimestamp(t)
    case FollowUp(_, t) => EncodeTimestamp(t)
    case DelayResp(_, t, i) => EncodeTimestamp(t) + EncodePort(i)
    case Signaling(_, i, _) => EncodePort(i)
  }

  /** The packet as it is sent, before the two trailing octets. */
  function Encode(p: Packet): (b: seq<byte>)
    requires AllEncodable(TlvsOf(p))
  {
    EncodeHeader(p.header) + EncodeBody(p) + EncodeTlvs(TlvsOf(p))
  }

  // ---------------------------------------------------------------- decoding

  function DecodeHeader(b: seq<byte>): Header
    requires HEADER_SIZE <= |b|
  {
    Header(b[0], b[1], U16(b, 2), b[4], b[5], U16(b, 6), Signed64(U64(b, 8)), U32(b, 16),
           PortIdentity(U64(b, 20), U16(b, 28)), U16(b, 30), b[32], Signed8(b[33]))
  }

  function DecodeTimestamp(b: seq<byte>, off: nat): Timestamp
    requires off + 10 <= |b|
  {
    Timestamp(b[off..off + 6], U32(b, off + 6))
  }

  function DecodePort(b: seq<byte>, off: nat): PortIdentity
    requires off + 10 <= |b|
  {
    PortIdentity(U64(b, off), U16(b, off + 8))
  }

  function DecodeAnnounceBody(b: seq<byte>, n: nat): AnnounceBody
    requires n + 30 <= |b|
  {
    AnnounceBody(DecodeTimestamp(b, n), Signed16(U16(b, n + 10)), b[n + 12], b[n + 13], b[n + 14], b[n + 15],
                 U16(b, n + 16), b[n + 18], U64(b, n + 19), U16(b, n + 27), b[n + 29])
  }

  /** Header and body fields; the TLVs are still to be read. */
  function DecodeFields(k: Kind, b: seq<byte>): (p: Packet)
    requires BodyEnd(k) <= |b|
    ensures KindOfPacket(p) == k && p.header == DecodeHeader(b) && TlvsOf(p) == []
  {
    var h := DecodeHeader(b);
    match k
    case AnnounceKind => Announce(h, DecodeAnnounceBody(b, HEADER_SIZE), [])
    case SyncDelayReqKind => SyncDelayReq(h, DecodeTimestamp(b, HEADER_SIZE), [])
    case FollowUpKind => FollowUp(h, DecodeTimestamp(b, HEADER_SIZE))
    case DelayRespKind => DelayResp(h, DecodeTimestamp(b, HEADER_SIZE), DecodePort(b, HEADER_SIZE + 10))
    case SignalingKind => Signaling(h, DecodePort(b, HEADER_SIZE), [])
  }

  function WithTlvs(p: Packet, ts: seq<Tlv>): (q: Packet)
    ensures !p.FollowUp? && !p.DelayResp? ==> TlvsOf(q) == ts
  {
    if p.FollowUp? || p.DelayResp? then p else p.(tlvs := ts)
  }

  function MinLength(k: Kind): nat {
    if k == SignalingKind then BodyEnd(k) + TLV_HEAD_SIZE else BodyEnd(k)
  }

  /** UnmarshalBinary of the type k. */
  function Unmarshal(k: Kind, b: seq<byte>): (r: Result<Packet, Error>)
    ensures r.Success? ==> KindOfPacket(r.value) == k
  {
    if |b| < MinLength(k) then Failure(NotEnoughData)
    else if DecodeHeader(b).messageLength > |b| then Failure(MessageTooLong)
    else if k == SignalingKind && MsgType(DecodeHeader(b).sdoIdAndMsgType) != MESSAGE_SIGNALING then Failure(NotSignaling)
    else if k == FollowUpKind || k == DelayRespKind then Success(DecodeFields(k, b))
    else
      var s := ScanTlvs(DecodeHeader(b).messageLength - BodyEnd(k), b[BodyEnd(k)..]);
      if s.err.Some? then Failure(s.err.value)
      else if k == SignalingKind && s.tlvs == [] then Failure(NoTlvs)
      else Success(WithTlvs(DecodeFields(k, b), s.tlvs))
  }

  /** Which type DecodePacket picks for a message type. */
  function KindForType(m: byte): Option<Kind> {
    if m == MESSAGE_SYNC || m == MESSAGE_DELAY_REQ then Some(SyncDelayReqKind)
    else if m == MESSAGE_FOLLOW_UP then Some(FollowUpKind)
    else if m == MESSAGE_DELAY_RESP then Some(DelayRespKind)
    else if m == MESSAGE_ANNOUNCE then Some(AnnounceKind)
    else if m == MESSAGE_SIGNALING then Some(SignalingKind)
    else None
  }

  function Decode(b: seq<byte>): (r: Result<Packet, Error>)
  {
    if |b| < HEADER_SIZE then Failure(NotEnoughData)
    else
      var m := MsgType(DecodeHeader(b).sdoIdAndMsgType);
      var k := KindForType(m);
      if k.None? then Failure(UnsupportedType(m)) else Unmarshal(k.value, b)
  }

  // ------------------------------------------------------------ round trips

  lemma HeaderLayout(a: seq<byte>, len: seq<byte>, c: seq<byte>, flags: seq<byte>, corr: seq<byte>, spec: seq<byte>,
                     id: seq<byte>, port: seq<byte>, sq: seq<byte>, e: seq<byte>, rest: seq<byte>)
    requires |a| == |len| == |c| == |flags| == |port| == |sq| == |e| == 2
    requires |corr| == |id| == 8 && |spec| == 4
    ensures var b := a + len + c + flags + corr + spec + id + port + sq + e + rest;
            && b[0] == a[0] && b[1] == a[1] && b[2..4] == len && b[4] == c[0] && b[5] == c[1] && b[6..8] == flags
            && b[8..16] == corr && b[16..20] == spec && b[20..28] == id && b[28..30] == port && b[30..32] == sq
            && b[32] == e[0] && b[33] == e[1]
  {
  }

  lemma HeaderRoundTrip(h: Header, rest: seq<byte>)
    ensures DecodeHeader(EncodeHeader(h) + rest) == h
  {
    hide BE;
    var len, flags, corr, spec := BE(2, h.messageLength), BE(2, h.flagField), BE(8, Unsigned64(h.correctionField)),
      BE(4, h.messageTypeSpecific);
    var id, port, sq := BE(8, h.sourcePortIdentity.clockIdentity), BE(2, h.sourcePortIdentity.portNumber), BE(2, h.sequenceId);
    var a, c, e := [h.sdoIdAndMsgType, h.version], [h.domainNumber, h.minorSdoId], [h.controlField, Unsigned8(h.logMessageInterval)];
    var b := a + len + c + flags + corr + spec + id + port + sq + e + rest;
    assert EncodeHeader(h) + rest == b;
    HeaderLayout(a, len, c, flags, corr, spec, id, port, sq, e, rest);
    HeaderOf(h, b);
  }

  lemma HeaderOf(h: Header, b: seq<byte>)
    requires HEADER_SIZE <= |b|
    requires b[0] == h.sdoIdAndMsgType && b[1] == h.version && b[4] == h.domainNumber && b[5] == h.minorSdoId
    requires b[32] == h.controlField && b[33] == Unsigned8(h.logMessageInterval)
    requires b[2..4] == BE(2, h.messageLength) && b[6..8] == BE(2, h.flagField)
    requires b[8..16] == BE(8, Unsigned64(h.correctionField)) && b[16..20] == BE(4, h.messageTypeSpecific)
    requires b[20..28] == BE(8, h.sourcePortIdentity.clockIdentity)
    requires b[28..30] == BE(2, h.sourcePortIdentity.portNumber) && b[30..32] == BE(2, h.sequenceId)
    ensures DecodeHeader(b) == h
  {
    U16Reads(b, 2, h.messageLength);
    U16Reads(b, 6, h.flagField);
    U64Reads(b, 8, Unsigned64(h.correctionField));
    U32Reads(b, 16, h.messageTypeSpecific);
    U64Reads(b, 20, h.sourcePortIdentity.clockIdentity);
    U16Reads(b, 28, h.sourcePortIdentity.portNumber);
    U16Reads(b, 30, h.sequenceId);
  }

  lemma HeaderReencodes(b: seq<byte>)
    requires HEADER_SIZE <= |b|
    ensures EncodeHeader(DecodeHeader(b)) == b[..HEADER_SIZE]
  {
    hide BE;
    U16Reads(b, 2, U16(b, 2));
    U16Reads(b, 6, U16(b, 6));
    U64Reads(b, 8, U64(b, 8));
    U32Reads(b, 16, U32(b, 16));
    U64Reads(b, 20, U64(b, 20));
    U16Reads(b, 28, U16(b, 28));
    U16Reads(b, 30, U16(b, 30));
    assert b[..34] == [b[0], b[1]] + b[2..4] + [b[4], b[5]] + b[6..8] + b[8..16] + b[16..20] +
                      b[20..28] + b[28..30] + b[30..32] + [b[32], b[33]];
  }

  lemma TimestampAt(b: seq<byte>, off: nat, t: Timestamp)
    requires off + 10 <= |b|
    ensures DecodeTimestamp(b, off) == t <==> b[off..off + 10] == EncodeTimestamp(t)
  {
    U32Reads(b, off + 6, t.nanoseconds);
    assert b[off..off + 10] == b[off..off + 6] + b[off + 6..off + 10];
    assert EncodeTimestamp(t)[..6] == t.seconds && EncodeTimestamp(t)[6..] == BE(4, t.nanoseconds);
  }

  lemma PortAt(b: seq<byte>, off: nat, i: PortIdentity)
    requires off + 10 <= |b|
    ensures DecodePort(b, off) == i <==> b[off..off + 10] == EncodePort(i)
  {
    U64Reads(b, off, i.clockIdentity);
    U16Reads(b, off + 8, i.portNumber);
    assert b[off..off + 10] == b[off..off + 8] + b[off + 8..off + 10];
    assert EncodePort(i)[..8] == BE(8, i.clockIdentity) && EncodePort(i)[8..] == BE(2, i.portNumber);
  }

  lemma AnnounceBodyAt(b: seq<byte>, n: nat, a: AnnounceBody)
    requires n + 30 <= |b|
    ensures DecodeAnnounceBody(b, n) == a <==> b[n..n + 30] == EncodeAnnounceBody(a)
  {
    hide BE;
    var d, e := b[n..n + 30], EncodeAnnounceBody(a);
    SubSlice(b, n, 30, 0, 10);
    SubSlice(b, n, 30, 10, 12);
    SubSlice(b, n, 30, 16, 18);
    SubSlice(b, n, 30, 19, 27);
    SubSlice(b, n, 30, 27, 29);
    TimestampAt(b, n, a.originTimestamp);
    U16Reads(b, n + 10, Unsigned16(a.currentUtcOffset));
    U16Reads(b, n + 16, a.offsetScaledLogVariance);
    U64Reads(b, n + 19, a.grandmasterIdentity);
    U16Reads(b, n + 27, a.stepsRemoved);
    AnnounceLayout(EncodeTimestamp(a.originTimestamp), BE(2, Unsigned16(a.currentUtcOffset)),
                   [a.reserved, a.grandmasterPriority1, a.clockClass, a.clockAccuracy], BE(2, a.offsetScaledLogVariance),
                   [a.grandmasterPriority2], BE(8, a.grandmasterIdentity), BE(2, a.stepsRemoved), [a.timeSource]);
    AnnounceSplit(d);
  }

  lemma SubSlice(b: seq<byte>, n: nat, m: nat, lo: nat, hi: nat)
    requires n + m <= |b| && lo <= hi <= m
    ensures b[n..n + m][lo..hi] == b[n + lo..n + hi]
  {
    var d := b[n..n + m];
    assert forall i | lo <= i < hi :: d[i] == b[n + i];
  }

  lemma AnnounceLayout(ts: seq<byte>, utc: seq<byte>, q: seq<byte>, v: seq<byte>, p2: seq<byte>, id: seq<byte>,
                       steps: seq<byte>, src: seq<byte>)
    requires |ts| == 10 && |utc| == |v| == |steps| == 2 && |q| == 4 && |p2| == |src| == 1 && |id| == 8
    ensures var e := ts + utc + q + v + p2 + id + steps + src;
            && e[..10] == ts && e[10..12] == utc && e[12..16] == q && e[16..18] == v && e[18..19] == p2
            && e[19..27] == id && e[27..29] == steps && e[29..30] == src
  {
  }

  lemma AnnounceSplit(d: seq<byte>)
    requires |d| == 30
    ensures d == d[..10] + d[10..12] + d[12..16] + d[16..18] + d[18..19] + d[19..27] + d[27..29] + d[29..30]
    ensures d[12..16] == [d[12], d[13], d[14], d[15]] && d[18..19] == [d[18]] && d[29..30] == [d[29]]
  {
  }

  /** A body reads back as the fields of p exactly when it is the body that p is written as. */
  lemma FieldsAt(p: Packet, b: seq<byte>)
    requires var n := HEADER_SIZE + BodyLength(p); n <= |b| && DecodeHeader(b) == p.header
    ensures DecodeFields(KindOfPacket(p), b) == WithTlvs(p, []) <==> b[HEADER_SIZE..HEADER_SIZE + BodyLength(p)] == EncodeBody(p)
  {
    match p {
      case Announce(_, a, _) => AnnounceBodyAt(b, HEADER_SIZE, a);
      case SyncDelayReq(_, t, _) => TimestampAt(b, HEADER_SIZE, t);
      case FollowUp(_, t) => TimestampAt(b, HEADER_SIZE, t);
      case DelayResp(_, t, i) =>
        TimestampAt(b, HEADER_SIZE, t);
        PortAt(b, HEADER_SIZE + 10, i);
        assert b[34..54] == b[34..44] + b[44..54];
        assert EncodeBody(p)[..10] == EncodeTimestamp(t) && EncodeBody(p)[10..] == EncodePort(i);
      case Signaling(_, i, _) => PortAt(b, HEADER_SIZE, i);
    }
  }

  /** The type nibble names the kind of the packet. */
  predicate TypeMatches(p: Packet) {
    KindForType(MsgType(p.header.sdoIdAndMsgType)) == Some(KindOfPacket(p))
  }

  /** A packet whose type nibble, length and TLV heads describe what it holds. */
  predicate WellFormed(p: Packet) {
    && TypeMatches(p)
    && HeadsMatch(TlvsOf(p))
    && (p.Signaling? ==> p.tlvs != [])
    && p.header.messageLength == |Encode(p)|
  }

  lemma UnmarshalOf(p: Packet, b: seq<byte>, rest: seq<byte>)
    requires HeadsMatch(TlvsOf(p)) && (p.Signaling? ==> p.tlvs != [] && MsgType(p.header.sdoIdAndMsgType) == MESSAGE_SIGNALING)
    requires p.header.messageLength == BodyEnd(KindOfPacket(p)) + |EncodeTlvs(TlvsOf(p))|
    requires MinLength(KindOfPacket(p)) <= |b| && p.header.messageLength <= |b|
    requires DecodeHeader(b) == p.header && DecodeFields(KindOfPacket(p), b) == WithTlvs(p, [])
    requires b[BodyEnd(KindOfPacket(p))..] == EncodeTlvs(TlvsOf(p)) + rest
    ensures Unmarshal(KindOfPacket(p), b) == Success(p) <==> ChainSurvives(TlvsOf(p), |rest|)
  {
    hide HeadsMatch, DecodeHeader, EncodeTlvs, DecodeFields, ScanTlvs, ChainSurvives, BodyEnd;
    if p.FollowUp? || p.DelayResp? {
      NothingSurvives(|rest|);
    } else {
      ChainRoundTrip(p.tlvs, rest);
    }
  }

  lemma DispatchOf(p: Packet, b: seq<byte>)
    requires TypeMatches(p) && HEADER_SIZE <= |b| && DecodeHeader(b) == p.header
    ensures Decode(b) == Unmarshal(KindOfPacket(p), b)
  {
    hide DecodeHeader, Unmarshal;
  }

  /** Header and body of an encoded packet read back, and what is left is the chain. */
  lemma EncodedParts(p: Packet, rest: seq<byte>)
    requires AllEncodable(TlvsOf(p))
    ensures var b, n := Encode(p) + rest, BodyEnd(KindOfPacket(p));
            && |Encode(p)| == n + |EncodeTlvs(TlvsOf(p))|
            && DecodeHeader(b) == p.header
            && DecodeFields(KindOfPacket(p), b) == WithTlvs(p, [])
            && b[n..] == EncodeTlvs(TlvsOf(p)) + rest
  {
    hide BE, DecodeHeader, EncodeHeader, EncodeBody, EncodeTlvs, DecodeFields;
    var chain := EncodeTlvs(TlvsOf(p));
    Layout(EncodeHeader(p.header), EncodeBody(p), chain, rest);
    HeaderRoundTrip(p.header, EncodeBody(p) + chain + rest);
    FieldsAt(p, Encode(p) + rest);
  }

  /**
   * The packet round trip, as an equivalence: a well-formed packet of any kind, with `rest` behind it in the
   * buffer, decodes to itself exactly when its TLV chain survives that many octets.
   */
  lemma PacketRoundTrip(p: Packet, rest: seq<byte>)
    requires WellFormed(p)
    ensures Decode(Encode(p) + rest) == Success(p) <==> ChainSurvives(TlvsOf(p), |rest|)
  {
    hide Encode, Decode, EncodeTlvs, DecodeHeader, DecodeFields, ChainSurvives, Unmarshal, HeadsMatch;
    var b := Encode(p) + rest;
    EncodedParts(p, rest);
    DispatchOf(p, b);
    if TlvsOf(p) != [] {
      ChainIsLong(TlvsOf(p));
    }
    UnmarshalOf(p, b, rest);
  }

  lemma NothingSurvives(after: nat)
    ensures ChainSurvives([], after)
  {
  }

  lemma ChainIsLong(ts: seq<Tlv>)
    requires AllEncodable(ts) && ts != []
    ensures 4 <= |EncodeTlvs(ts)|
  {
  }

  lemma Layout(h: seq<byte>, d: seq<byte>, chain: seq<byte>, rest: seq<byte>)
    requires |h| == HEADER_SIZE
    ensures var b := h + d + chain + rest;
            && b == h + (d + chain + rest)
            && b[HEADER_SIZE..HEADER_SIZE + |d|] == d
            && b[HEADER_SIZE + |d|..] == chain + rest
  {
  }

  // ------------------------------------------------- what decoding promises

  lemma UnmarshalReencodes(k: Kind, b: seq<byte>)
    requires Unmarshal(k, b).Success? && AllFixedSize(TlvsOf(Unmarshal(k, b).value))
    ensures var p := Unmarshal(k, b).value;
            |Encode(p)| <= |b| && Encode(p) == b[..|Encode(p)|] &&
            (k != FollowUpKind && k != DelayRespKind ==> p.header.messageLength < |Encode(p)| + 4)
  {
    hide BE, DecodeHeader, EncodeHeader, EncodeBody, EncodeTlvs, DecodeFields, ScanTlvs;
    var p, n := Unmarshal(k, b).value, BodyEnd(k);
    HeaderReencodes(b);
    FieldsAt(p, b);
    var body := b[HEADER_SIZE..n];
    assert b[..n] == b[..HEADER_SIZE] + body;
    SameHeaderAndBody(p, DecodeFields(k, b));
    if k == FollowUpKind || k == DelayRespKind {
      EncodeTlvsNil();
      assert Encode(p) == b[..n];
    } else {
      var maxLength := p.header.messageLength - n;
      var s := ScanTlvs(maxLength, b[n..]);
      ChainReencodes(maxLength, b[n..]);
      ScanBounds(maxLength, b[n..]);
      PrefixJoin(b, n, s.pos);
    }
  }

  lemma SameHeaderAndBody(p: Packet, q: Packet)
    requires q == WithTlvs(p, TlvsOf(q))
    ensures p.header == q.header && EncodeBody(p) == EncodeBody(q)
  {
  }

  /**
   * Bytes that decode to a packet with fixed-size TLVs only are reproduced by encoding it, reserved fields and
   * all: header, body and every TLV whose head lies inside the message length.
   */
  lemma DecodeThenEncode(b: seq<byte>)
    requires Decode(b).Success? && AllFixedSize(TlvsOf(Decode(b).value))
    ensures var p := Decode(b).value;
            |Encode(p)| <= |b| && Encode(p) == b[..|Encode(p)|] &&
            (!p.FollowUp? && !p.DelayResp? ==> p.header.messageLength < |Encode(p)| + 4)
  {
    hide Unmarshal, DecodeHeader, Encode;
    UnmarshalReencodes(KindOfPacket(Decode(b).value), b);
  }

  lemma HeaderIgnoresTail(b: seq<byte>, extra: seq<byte>)
    requires HEADER_SIZE <= |b|
    ensures DecodeHeader(b + extra) == DecodeHeader(b)
  {
    ReadsIgnoreTail(b, extra, 2);
    ReadsIgnoreTail(b, extra, 6);
    ReadsIgnoreTail(b, extra, 8);
    ReadsIgnoreTail(b, extra, 16);
    ReadsIgnoreTail(b, extra, 20);
    ReadsIgnoreTail(b, extra, 28);
    ReadsIgnoreTail(b, extra, 30);
  }

  lemma FieldsIgnoreTail(k: Kind, b: seq<byte>, extra: seq<byte>)
    requires BodyEnd(k) <= |b|
    ensures DecodeFields(k, b + extra) == DecodeFields(k, b)
  {
    var p := DecodeFields(k, b);
    HeaderIgnoresTail(b, extra);
    FieldsAt(p, b);
    FieldsAt(p, b + extra);
    assert (b + extra)[HEADER_SIZE..BodyEnd(k)] == b[HEADER_SIZE..BodyEnd(k)];
  }

  /** A packet that decodes, and holds no PATH_TRACE, decodes to the same value with any octets added behind it. */
  lemma DecodeIgnoresTail(b: seq<byte>, extra: seq<byte>)
    requires Decode(b).Success? && NoPathTrace(TlvsOf(Decode(b).value))
    ensures Decode(b + extra) == Decode(b)
  {
    hide DecodeHeader, DecodeFields, ScanTlvs;
    var p := Decode(b).value;
    var k := KindOfPacket(p);
    HeaderIgnoresTail(b, extra);
    FieldsIgnoreTail(k, b, extra);
    if k != FollowUpKind && k != DelayRespKind {
      var n := BodyEnd(k);
      ScanExtends(p.header.messageLength - n, b[n..], extra);
      assert (b + extra)[n..] == b[n..] + extra;
    }
  }

  /** However it ends, decoding reads at most one TLV per six octets of the message length. */
  lemma DecodeReadsFewTlvs(b: seq<byte>)
    requires Decode(b).Success?
    ensures var p := Decode(b).value; TlvsOf(p) != [] ==> 6 * |TlvsOf(p)| + HEADER_SIZE + BodyLength(p) <= p.header.messageLength + 2
  {
    hide DecodeHeader, DecodeFields, ScanTlvs;
    var p := Decode(b).value;
    var n := BodyEnd(KindOfPacket(p));
    if !p.FollowUp? && !p.DelayResp? {
      ScanBounds(p.header.messageLength - n, b[n..]);
    }
  }

  // --------------------------------------------------------- the real buffers

  /** headerMarshalBinaryTo. */
  method MarshalHeader(h: Header, b: array<byte>)
    requires HEADER_SIZE <= b.Length
    modifies b
    ensures b[..] == Splice(old(b[..]), 0, EncodeHeader(h))
  {
    hide Splice, BE;
    ghost var before := b[..];
    SpliceNothing(before, 0);
    ghost var done := EmitBytes(b, 0, [h.sdoIdAndMsgType, h.version], before, []);
    done := Emit(b, 2, 2, h.messageLength, before, done);
    done := EmitBytes(b, 4, [h.domainNumber, h.minorSdoId], before, done);
    done := Emit(b, 6, 2, h.flagField, before, done);
    done := Emit(b, 8, 8, Unsigned64(h.correctionField), before, done);
    done := Emit(b, 16, 4, h.messageTypeSpecific, before, done);
    done := Emit(b, 20, 8, h.sourcePortIdentity.clockIdentity, before, done);
    done := Emit(b, 28, 2, h.sourcePortIdentity.portNumber, before, done);
    done := Emit(b, 30, 2, h.sequenceId, before, done);
    done := EmitBytes(b, 32, [h.controlField, Unsigned8(h.logMessageInterval)], before, done);
    assert done == EncodeHeader(h);
  }

  method MarshalAnnounceBody(a: AnnounceBody, b: array<byte>, n: nat)
    requires n + 30 <= b.Length
    modifies b
    ensures b[..] == Splice(old(b[..]), n, EncodeAnnounceBody(a))
  {
    hide Splice, BE;
    ghost var before := b[..];
    SpliceNothing(before, n);
    ghost var done := EmitBytes(b, n, a.originTimestamp.seconds, before, []);
    done := Emit(b, n + 6, 4, a.originTimestamp.nanoseconds, before, done);
    done := Emit(b, n + 10, 2, Unsigned16(a.currentUtcOffset), before, done);
    done := EmitBytes(b, n + 12, [a.reserved, a.grandmasterPriority1, a.clockClass, a.clockAccuracy], before, done);
    done := Emit(b, n + 16, 2, a.offsetScaledLogVariance, before, done);
    done := EmitBytes(b, n + 18, [a.grandmasterPriority2], before, done);
    done := Emit(b, n + 19, 8, a.grandmasterIdentity, before, done);
    done := Emit(b, n + 27, 2, a.stepsRemoved, before, done);
    done := EmitBytes(b, n + 29, [a.timeSource], before, done);
    assert done == EncodeAnnounceBody(a);
  }

  method MarshalTimestamp(t: Timestamp, b: array<byte>, n: nat)
    requires n + 10 <= b.Length
    modifies b
    ensures b[..] == Splice(old(b[..]), n, EncodeTimestamp(t))
  {
    hide Splice, BE;
    ghost var before := b[..];
    SpliceNothing(before, n);
    ghost var done := EmitBytes(b, n, t.seconds, before, []);
    done := Emit(b, n + 6, 4, t.nanoseconds, before, done);
    assert done == EncodeTimestamp(t);
  }

  method MarshalPort(i: PortIdentity, b: array<byte>, n: nat)
    requires n + 10 <= b.Length
    modifies b
    ensures b[..] == Splice(old(b[..]), n, EncodePort(i))
  {
    hide Splice, BE;
    ghost var before := b[..];
    SpliceNothing(before, n);
    ghost var done := Emit(b, n, 8, i.clockIdentity, before, []);
    done := Emit(b, n + 8, 2, i.portNumber, before, done);
    assert done == EncodePort(i);
  }

  method MarshalBody(p: Packet, b: array<byte>, n: nat)
    requires n + BodyLength(p) <= b.Length
    modifies b
    ensures b[..] == Splice(old(b[..]), n, EncodeBody(p))
  {
    hide Splice, EncodeTimestamp, EncodePort, EncodeAnnounceBody;
    match p {
      case Announce(_, a, _) => MarshalAnnounceBody(a, b, n);
      case SyncDelayReq(_, t, _) => MarshalTimestamp(t, b, n);
      case FollowUp(_, t) => MarshalTimestamp(t, b, n);
      case DelayResp(_, t, i) =>
        ghost var before := b[..];
        MarshalTimestamp(t, b, n);
        MarshalPort(i, b, n + 10);
        SpliceTwice(before, n, EncodeTimestamp(t), EncodePort(i));
      case Signaling(_, i, _) => MarshalPort(i, b, n);
    }
  }

  /** What MarshalBinaryTo makes of p in a buffer of `length` octets. */
  function MarshalResult(p: Packet, length: nat): Result<nat, Error> {
    if p.Signaling? && p.tlvs == [] then Failure(NoTlvs)
    else if !p.Signaling? && length < HEADER_SIZE + BodyLength(p) then Failure(NotEnoughBuffer)
    else if !AllEncodable(TlvsOf(p)) then Failure(TextTooLong)
    else Success(|Encode(p)|)
  }

  /** Whether MarshalBinaryTo is refused before anything is written. */
  predicate Refused(p: Packet, length: nat) {
    if p.Signaling? then p.tlvs == [] else length < HEADER_SIZE + BodyLength(p)
  }

  /** What MarshalBinaryTo writes, if the buffer does not end before that. */
  function WrittenPacket(p: Packet, length: nat): seq<byte> {
    if Refused(p, length) then [] else EncodeHeader(p.header) + EncodeBody(p) + Written(TlvsOf(p))
  }

  /** Whether MarshalBinaryTo finds the room it must find; otherwise the program panics. */
  predicate BufferFits(p: Packet, length: nat) {
    Refused(p, length) || (HEADER_SIZE + BodyLength(p) <= length && Fits(TlvsOf(p), length - HEADER_SIZE - BodyLength(p)))
  }

  lemma EnoughBufferFits(p: Packet, length: nat)
    requires HEADER_SIZE + BodyLength(p) + |Written(TlvsOf(p))| <= length
    ensures BufferFits(p, length)
  {
    hide Fits, Written;
    EnoughRoomFits(TlvsOf(p), length - HEADER_SIZE - BodyLength(p));
  }

  /**
   * MarshalBinaryTo of every packet kind. The whole buffer is known after it, on an error too; a last copied field that
   * the buffer is too short for is cut off without an error.
   */
  method MarshalBinaryTo(p: Packet, b: array<byte>) returns (r: Result<nat, Error>)
    requires BufferFits(p, b.Length)
    modifies b
    ensures r == MarshalResult(p, b.Length)
    ensures b[..] == Splice(old(b[..]), 0, Truncated(WrittenPacket(p, b.Length), b.Length))
  {
    hide Splice, EncodeHeader, EncodeBody, EncodeTlvs, Written, Fits, Truncated;
    ghost var before := b[..];
    if (p.Signaling? && p.tlvs == []) || (!p.Signaling? && b.Length < HEADER_SIZE + BodyLength(p)) {
      SpliceNothing(before, 0);
      return Failure(if p.Signaling? then NoTlvs else NotEnoughBuffer);
    }
    MarshalHeader(p.header, b);
    MarshalBody(p, b, HEADER_SIZE);
    SpliceTwice(before, 0, EncodeHeader(p.header), EncodeBody(p));
    var pos := HEADER_SIZE + BodyLength(p);
    var n := WriteTlvs(TlvsOf(p), b, pos);
    OneMoreWritten(before, 0, EncodeHeader(p.header) + EncodeBody(p), Written(TlvsOf(p)));
    if n.Failure? {
      return Failure(n.error);
    }
    return Success(pos + n.value);
  }

  /** BytesTo: the marshalled packet and two zero octets, for which the buffer must have room. */
  method BytesTo(p: Packet, buf: array<byte>) returns (r: Result<nat, Error>)
    requires BufferFits(p, buf.Length)
    requires MarshalResult(p, buf.Length).Success? ==> |Encode(p)| + TRAILING_BYTES <= buf.Length
    modifies buf
    ensures MarshalResult(p, buf.Length).Failure? ==>
              && r == MarshalResult(p, buf.Length)
              && buf[..] == Splice(old(buf[..]), 0, Truncated(WrittenPacket(p, buf.Length), buf.Length))
    ensures MarshalResult(p, buf.Length).Success? ==>
              && r == Success(|Encode(p)| + TRAILING_BYTES)
              && buf[..r.value] == Encode(p) + [0, 0]
              && buf[r.value..] == old(buf[r.value..])
  {
    hide Encode, Splice, WrittenPacket;
    ghost var before := buf[..];
    var n := MarshalBinaryTo(p, buf);
    if n.Failure? {
      return Failure(n.error);
    }
    assert WrittenPacket(p, buf.Length) == Encode(p) by {
      EncodedIsWritten(p, buf.Length);
    }
    SplicePrefix(before, 0, Encode(p));
    assert buf[n.value..] == before[n.value..] by {
      SpliceSuffix(before, 0, Encode(p));
    }
    buf[n.value] := 0;
    buf[n.value + 1] := 0;
    assert buf[n.value + 2..] == before[n.value..][2..];
    return Success(n.value + 2);
  }

  /** UnmarshalBinary of a kind that carries TLVs, with the loop that reads them. */
  method FromBytes(k: Kind, b: seq<byte>) returns (r: Result<Packet, Error>)
    ensures r == Unmarshal(k, b)
  {
    hide DecodeHeader, DecodeFields, ScanTlvs;
    if |b| < MinLength(k) {
      return Failure(NotEnoughData);
    }
    var h := DecodeHeader(b);
    if h.messageLength > |b| {
      return Failure(MessageTooLong);
    }
    if k == SignalingKind && MsgType(h.sdoIdAndMsgType) != MESSAGE_SIGNALING {
      return Failure(NotSignaling);
    }
    if k == FollowUpKind || k == DelayRespKind {
      return Success(DecodeFields(k, b));
    }
    var pos := BodyEnd(k);
    var tlvs, err := ReadTlvs([], h.messageLength - pos, b[pos..]);
    assert [] + ScanTlvs(h.messageLength - pos, b[pos..]).tlvs == ScanTlvs(h.messageLength - pos, b[pos..]).tlvs;
    if err.Some? {
      return Failure(err.value);
    }
    if k == SignalingKind && tlvs == [] {
      return Failure(NoTlvs);
    }
    return Success(WithTlvs(DecodeFields(k, b), tlvs));
  }

  /** DecodePacket. */
  method DecodePacket(b: seq<byte>) returns (r: Result<Packet, Error>)
    ensures r == Decode(b)
  {
    hide DecodeHeader, Unmarshal;
    if |b| < HEADER_SIZE {
      return Failure(NotEnoughData);
    }
    var m := MsgType(DecodeHeader(b).sdoIdAndMsgType);
    var k := KindForType(m);
    if k.None? {
      return Failure(UnsupportedType(m));
    }
    r := FromBytes(k.value, b);
  }

  /** Sending a well-formed packet and decoding what was sent, through the real buffer. */
  method SendAndDecode(p: Packet, buf: array<byte>) returns (n: nat, r: Result<Packet, Error>)
    requires WellFormed(p) && p.header.messageLength + TRAILING_BYTES <= buf.Length
    modifies buf
    ensures n == p.header.messageLength + TRAILING_BYTES
    ensures r == Success(p) <==> ChainSurvives(TlvsOf(p), TRAILING_BYTES)
  {
    hide Encode, Decode, ChainSurvives;
    assert MarshalResult(p, buf.Length).Success? && BufferFits(p, buf.Length) by {
      EncodeLength(p);
      EnoughBufferFits(p, buf.Length);
    }
    var sent := BytesTo(p, buf);
    n := sent.value;
    PacketRoundTrip(p, [0, 0]);
    r := DecodePacket(buf[..n]);
  }

  lemma EncodeLength(p: Packet)
    requires AllEncodable(TlvsOf(p))
    ensures |Encode(p)| == HEADER_SIZE + BodyLength(p) + |Written(TlvsOf(p))|
  {
  }

  lemma EncodedIsWritten(p: Packet, length: nat)
    requires MarshalResult(p, length).Success?
    ensures WrittenPacket(p, length) == Encode(p)
  {
    hide EncodeHeader, EncodeBody;
  }
}
