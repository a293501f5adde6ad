/** The TLV suffix of a packet: protocol/tlvs.go and the PTPText of protocol/types.go. */
module Tlvs {
  import opened Wire
  import opened Types

  const TLV_REQUEST_UNICAST: u16 := 0x0004
  const TLV_GRANT_UNICAST: u16 := 0x0005
  const TLV_CANCEL_UNICAST: u16 := 0x0006
  const TLV_ACKNOWLEDGE_CANCEL: u16 := 0x0007
  const TLV_PATH_TRACE: u16 := 0x0008
  const TLV_ALTERNATE_TIME_OFFSET: u16 := 0x0009
  const TLV_ALTERNATE_RESPONSE_PORT: u16 := 0x2007

  datatype TlvHead = TlvHead(tlvType: u16, lengthField: u16)

  datatype Tlv =
    | RequestUnicast(head: TlvHead, msgTypeAndReserved: byte, logInterMessagePeriod: i8, durationField: u32)
    | GrantUnicast(head: TlvHead, msgTypeAndReserved: byte, logInterMessagePeriod: i8, durationField: u32,
                   reserved: byte, renewal: byte)
    | CancelUnicast(head: TlvHead, msgTypeAndFlags: byte, reserved: byte)
    | AcknowledgeCancel(head: TlvHead, msgTypeAndFlags: byte, reserved: byte)
    | PathTrace(head: TlvHead, pathSequence: seq<u64>)
    | AlternateTimeOffset(head: TlvHead, keyField: byte, currentOffset: i32, jumpSeconds: i32,
                          timeOfNextJump: Seconds48, displayName: seq<byte>)
    | AlternateResponsePort(head: TlvHead, offset: u16)

  datatype Error =
    | NotEnoughData
    | NotEnoughBuffer
    | BadTlvLength(tlvType: u16)
    | TlvTooLong(tlvType: u16)
    | TextTooShort
    | TextTooLong
    | UnknownTlv(tlvType: u16)
    | MessageTooLong
    | NotSignaling
    | NoTlvs
    | UnsupportedType(msgType: byte)

  // ---------------------------------------------------------------- encoding

  function EncodeHead(h: TlvHead): (b: seq<byte>)
    ensures |b| == 4
  {
    BE(2, h.tlvType) + BE(2, h.lengthField)
  }

  /** PTPText: a length octet, the text, and a zero octet when that makes the whole odd. */
  function EncodeText(text: seq<byte>): (b: seq<byte>)
    requires |text| <= 255
  {
    [|text| as byte] + text + (if |text| % 2 != 0 then [0] else [])
  }

  function EncodeIds(ids: seq<u64>): (b: seq<byte>)
    ensures |b| == 8 * |ids|
  {
    if ids == [] then [] else EncodeIds(ids[..|ids| - 1]) + BE(8, ids[|ids| - 1])
  }

  /** The one thing a marshaller refuses: a text that its length octet cannot count. */
  predicate Encodable(t: Tlv) {
    t.AlternateTimeOffset? ==> |t.displayName| <= 255
  }

  function EncodeTlv(t: Tlv): (b: seq<byte>)
    requires Encodable(t)
  {
    match t
    case RequestUnicast(h, m, l, d) => EncodeHead(h) + [m] + [Unsigned8(l)] + BE(4, d)
    case GrantUnicast(h, m, l, d, res, ren) => EncodeHead(h) + [m] + [Unsigned8(l)] + BE(4, d) + [res] + [ren]
    case CancelUnicast(h, m, res) => EncodeHead(h) + [m] + [res]
    case AcknowledgeCancel(h, m, res) => EncodeHead(h) + [m] + [res]
    case PathTrace(h, ids) => EncodeHead(h) + EncodeIds(ids)
    case AlternateTimeOffset(h, k, o, j, s, name) =>
      EncodeHead(h) + [k] + BE(4, Unsigned32(o)) + BE(4, Unsigned32(j)) + s +
      (if name == [] then [] else EncodeText(name))
    case AlternateResponsePort(h, o) => EncodeHead(h) + BE(2, o)
  }

  predicate AllEncodable(ts: seq<Tlv>) {
    forall i | 0 <= i < |ts| :: Encodable(ts[i])
  }

  function EncodeTlvs(ts: seq<Tlv>): (b: seq<byte>)
    requires AllEncodable(ts)
  {
    if ts == [] then [] else EncodeTlv(ts[0]) + EncodeTlvs(ts[1..])
  }

  // ---------------------------------------------------------------- decoding

  function DecodeHead(b: seq<byte>): TlvHead
    requires 4 <= |b|
  {
    TlvHead(U16(b, 0), U16(b, 2))
  }

  /** checkTLVLength: `l` bytes are in the buffer from the head of the TLV on. */
  function CheckTlvLength(h: TlvHead, l: nat, want: nat, strict: bool): (e: Option<Error>)
    ensures e.None? <==> want <= h.lengthField && (strict ==> h.lengthField == want) && 4 + h.lengthField <= l
  {
    if strict && h.lengthField != want then Some(BadTlvLength(h.tlvType))
    else if h.lengthField < want then Some(BadTlvLength(h.tlvType))
    else if 4 + h.lengthField > l then Some(TlvTooLong(h.tlvType))
    else None
  }

  /** PTPText.UnmarshalBinary. `length+1` is computed in eight bits, so 255 passes the first test on any input. */
  function DecodeText(raw: seq<byte>): (r: Result<seq<byte>, Error>)
  {
    if |raw| == 0 then Failure(TextTooShort)
    else if raw[0] == 0 then Success([])
    else if |raw| < (raw[0] as int + 1) % 256 then Failure(TextTooShort)
    else if |raw| - 1 < raw[0] as int then Failure(TextTooShort)
    else Success(raw[1..1 + raw[0] as int])
  }

  /** How many identities PathTraceTLV.UnmarshalBinary reads from a buffer of n bytes. */
  function IdCount(lengthField: nat, n: nat): (k: nat)
    requires 8 <= lengthField && 4 + lengthField <= n
  {
    if lengthField / 8 + 1 <= (n - 5) / 8 then lengthField / 8 + 1 else (n - 5) / 8
  }

  function ReadIds(b: seq<byte>, k: nat): (ids: seq<u64>)
    requires 4 + 8 * k <= |b|
    ensures |ids| == k
  {
    seq(k, i requires 0 <= i < k => U64(b, 4 + 8 * i))
  }

  // UnmarshalBinary of each kind, given the buffer from the head of the TLV to its end.

  function UnmarshalRequest(b: seq<byte>): Result<Tlv, Error> {
    if |b| < 4 then Failure(NotEnoughData)
    else
      var h := DecodeHead(b);
      var e := CheckTlvLength(h, |b|, 6, true);
      if e.Some? then Failure(e.value) else Success(RequestUnicast(h, b[4], Signed8(b[5]), U32(b, 6)))
  }

  function UnmarshalGrant(b: seq<byte>): Result<Tlv, Error> {
    if |b| < 4 then Failure(NotEnoughData)
    else
      var h := DecodeHead(b);
      var e := CheckTlvLength(h, |b|, 8, true);
      if e.Some? then Failure(e.value)
      else Success(GrantUnicast(h, b[4], Signed8(b[5]), U32(b, 6), b[10], b[11]))
  }

  function UnmarshalCancel(b: seq<byte>): Result<Tlv, Error> {
    if |b| < 4 then Failure(NotEnoughData)
    else
      var h := DecodeHead(b);
      var e := CheckTlvLength(h, |b|, 2, true);
      if e.Some? then Failure(e.value) else Success(CancelUnicast(h, b[4], b[5]))
  }

  function UnmarshalAcknowledgeCancel(b: seq<byte>): Result<Tlv, Error> {
    if |b| < 4 then Failure(NotEnoughData)
    else
      var h := DecodeHead(b);
      var e := CheckTlvLength(h, |b|, 2, true);
      if e.Some? then Failure(e.value) else Success(AcknowledgeCancel(h, b[4], b[5]))
  }

  function UnmarshalPathTrace(b: seq<byte>): Result<Tlv, Error> {
    if |b| < 4 then Failure(NotEnoughData)
    else
      var h := DecodeHead(b);
      var e := CheckTlvLength(h, |b|, 8, false);
      if e.Some? then Failure(e.value) else Success(PathTrace(h, ReadIds(b, IdCount(h.lengthField, |b|))))
  }

  function UnmarshalAlternateTimeOffset(b: seq<byte>): Result<Tlv, Error> {
    if |b| < 4 then Failure(NotEnoughData)
    else
      var h := DecodeHead(b);
      var e := CheckTlvLength(h, |b|, 20, false);
      if e.Some? then Failure(e.value)
      else
        var name := DecodeText(b[19..]);
        if name.Failure? then Failure(name.error)
        else Success(AlternateTimeOffset(h, b[4], Signed32(U32(b, 5)), Signed32(U32(b, 9)), b[13..19], name.value))
  }

  function UnmarshalAlternateResponsePort(b: seq<byte>): Result<Tlv, Error> {
    if |b| < 4 then Failure(NotEnoughData)
    else
      var h := DecodeHead(b);
      var e := CheckTlvLength(h, |b|, 2, true);
      if e.Some? then Failure(e.value) else Success(AlternateResponsePort(h, U16(b, 4)))
  }

  /** The switch of readTLVs on the type of the TLV that b starts with. */
  function DecodeTlv(b: seq<byte>): (r: Result<Tlv, Error>)
    requires 4 <= |b|
    ensures r.Success? ==> r.value.head == DecodeHead(b) && r.value.head.tlvType == KindOf(r.value)
    ensures r.Success? ==> 2 <= r.value.head.lengthField && 4 + r.value.head.lengthField <= |b|
  {
    var tlvType := DecodeHead(b).tlvType;
    if tlvType == TLV_ACKNOWLEDGE_CANCEL then UnmarshalAcknowledgeCancel(b)
    else if tlvType == TLV_GRANT_UNICAST then UnmarshalGrant(b)
    else if tlvType == TLV_REQUEST_UNICAST then UnmarshalRequest(b)
    else if tlvType == TLV_CANCEL_UNICAST then UnmarshalCancel(b)
    else if tlvType == TLV_PATH_TRACE then UnmarshalPathTrace(b)
    else if tlvType == TLV_ALTERNATE_TIME_OFFSET then UnmarshalAlternateTimeOffset(b)
    else if tlvType == TLV_ALTERNATE_RESPONSE_PORT then UnmarshalAlternateResponsePort(b)
    else Failure(UnknownTlv(tlvType))
  }

  /** What readTLVs hands back: the TLVs read, where it stopped, and the error if there was one. */
  datatype Scan = Scan(tlvs: seq<Tlv>, pos: nat, err: Option<Error>)

  function ScanTlvs(maxLength: int, b: seq<byte>): (s: Scan)
    requires maxLength <= |b|
    decreases |b|
  {
    if maxLength < 4 then Scan([], 0, None)
    else
      var r := DecodeTlv(b);
      if r.Failure? then Scan([], 0, Some(r.error))
      else
        var n := 4 + r.value.head.lengthField;
        var rest := ScanTlvs(maxLength - n, b[n..]);
        Scan([r.value] + rest.tlvs, n + rest.pos, rest.err)
  }

  // ------------------------------------------------------------ round trips

  /** The head names the kind of its TLV and counts the octets that follow it (section 14.1). */
  predicate HeadMatches(t: Tlv) {
    && Encodable(t)
    && t.head.tlvType == KindOf(t)
    && 4 + t.head.lengthField == |EncodeTlv(t)|
  }

  function KindOf(t: Tlv): u16 {
    match t
    case RequestUnicast(_, _, _, _) => TLV_REQUEST_UNICAST
    case GrantUnicast(_, _, _, _, _, _) => TLV_GRANT_UNICAST
    case CancelUnicast(_, _, _) => TLV_CANCEL_UNICAST
    case AcknowledgeCancel(_, _, _) => TLV_ACKNOWLEDGE_CANCEL
    case PathTrace(_, _) => TLV_PATH_TRACE
    case AlternateTimeOffset(_, _, _, _, _, _) => TLV_ALTERNATE_TIME_OFFSET
    case AlternateResponsePort(_, _) => TLV_ALTERNATE_RESPONSE_PORT
  }

  /** The exact condition for t to be read back when `after` octets of buffer follow it. */
  predicate Survives(t: Tlv, after: nat) {
    match t
    case PathTrace(_, ids) => ids != [] && 1 <= after <= 8
    case AlternateTimeOffset(_, _, _, _, _, name) => 3 <= |name|
    case _ => true
  }

  lemma {:induction false} IdAt(ids: seq<u64>, i: nat)
    requires i < |ids|
    ensures EncodeIds(ids)[8 * i..8 * i + 8] == BE(8, ids[i])
  {
    hide BE;
    var n := |ids| - 1;
    var most, last := EncodeIds(ids[..n]), BE(8, ids[n]);
    if i < n {
      IdAt(ids[..n], i);
      assert (most + last)[8 * i..8 * i + 8] == most[8 * i..8 * i + 8];
    } else {
      assert (most + last)[8 * n..8 * n + 8] == last;
    }
  }

  lemma Inner(a: seq<byte>, e: seq<byte>, c: seq<byte>, lo: nat, hi: nat)
    requires lo <= hi <= |e|
    ensures (a + e + c)[|a| + lo..|a| + hi] == e[lo..hi]
  {
  }

  lemma ReadInner(h: seq<byte>, e: seq<byte>, c: seq<byte>, i: nat, v: u64)
    requires |h| == 4 && 8 * i + 8 <= |e| && e[8 * i..8 * i + 8] == BE(8, v)
    ensures U64(h + e + c, 4 + 8 * i) == v
  {
    Inner(h, e, c, 8 * i, 8 * i + 8);
    U64Reads(h + e + c, 4 + 8 * i, v);
  }

  lemma ReadIdBack(h: seq<byte>, ids: seq<u64>, rest: seq<byte>, i: nat)
    requires |h| == 4 && i < |ids|
    ensures U64(h + EncodeIds(ids) + rest, 4 + 8 * i) == ids[i]
  {
    IdAt(ids, i);
    ReadInner(h, EncodeIds(ids), rest, i, ids[i]);
  }

  lemma ReadIdsAre(b: seq<byte>, ids: seq<u64>)
    requires 4 + 8 * |ids| <= |b|
    requires forall i | 0 <= i < |ids| :: ids[i] == U64(b, 4 + 8 * i)
    ensures ReadIds(b, |ids|) == ids
  {
  }

  lemma ReadIdsBack(h: seq<byte>, ids: seq<u64>, rest: seq<byte>)
    requires |h| == 4
    ensures ReadIds(h + EncodeIds(ids) + rest, |ids|) == ids
  {
    forall i | 0 <= i < |ids| ensures ids[i] == U64(h + EncodeIds(ids) + rest, 4 + 8 * i) {
      ReadIdBack(h, ids, rest, i);
    }
    ReadIdsAre(h + EncodeIds(ids) + rest, ids);
  }

  /** With N identities and r octets after them, the reader asks for N, unless r is 0 or above 8. */
  lemma IdCountIsExact(n: nat, r: nat)
    requires 0 < n
    ensures IdCount(8 * n, 4 + 8 * n + r) == n <==> 1 <= r <= 8
  {
  }

  lemma TextRoundTrip(text: seq<byte>, rest: seq<byte>)
    requires 0 < |text| <= 255
    ensures DecodeText(EncodeText(text) + rest) == Success(text)
  {
    var raw := EncodeText(text) + rest;
    assert raw[0] as int == |text|;
    assert raw[1..1 + |text|] == text;
  }

  lemma DecodeHeadOf(hb: seq<byte>, rest: seq<byte>, h: TlvHead)
    requires hb == EncodeHead(h)
    ensures DecodeHead(hb + rest) == h
  {
    var b := hb + rest;
    assert b[0..2] == hb[0..2] == BE(2, h.tlvType);
    assert b[2..4] == hb[2..4] == BE(2, h.lengthField);
    U16Reads(b, 0, h.tlvType);
    U16Reads(b, 2, h.lengthField);
  }

  /** PATH_TRACE (section 16.2): the N identities written come back exactly when 1 to 8 octets follow them. */
  lemma PathTraceRoundTrip(t: Tlv, rest: seq<byte>)
    requires HeadMatches(t) && t.PathTrace?
    ensures DecodeTlv(EncodeTlv(t) + rest) == Success(t) <==> Survives(t, |rest|)
  {
    hide BE, EncodeHead, DecodeHead, EncodeIds, ReadIds;
    var ids := t.pathSequence;
    DecodeHeadOf(EncodeHead(t.head), EncodeIds(ids) + rest, t.head);
    assert EncodeTlv(t) + rest == EncodeHead(t.head) + (EncodeIds(ids) + rest);
    if ids != [] {
      IdCountIsExact(|ids|, |rest|);
      ReadIdsBack(EncodeHead(t.head), ids, rest);
    }
  }

  lemma AlternateTimeOffsetLayout(h: seq<byte>, k: byte, o: seq<byte>, j: seq<byte>, s: seq<byte>, text: seq<byte>)
    requires |h| == |o| == |j| == 4 && |s| == 6
    ensures var b := h + ([k] + o + j + s + text);
            b[4] == k && b[5..9] == o && b[9..13] == j && b[13..19] == s && b[19..] == text
  {
  }

  lemma UnmarshalAlternateTimeOffsetOf(t: Tlv, b: seq<byte>)
    requires t.AlternateTimeOffset? && 20 <= t.head.lengthField && 4 + t.head.lengthField <= |b|
    requires DecodeHead(b) == t.head && b[4] == t.keyField && b[13..19] == t.timeOfNextJump
    requires b[5..9] == BE(4, Unsigned32(t.currentOffset)) && b[9..13] == BE(4, Unsigned32(t.jumpSeconds))
    requires DecodeText(b[19..]) == Success(t.displayName)
    ensures UnmarshalAlternateTimeOffset(b) == Success(t)
  {
    U32Reads(b, 5, Unsigned32(t.currentOffset));
    U32Reads(b, 9, Unsigned32(t.jumpSeconds));
  }

  /** A display name shorter than 3 octets gives a length field below the 20 the reader insists on. */
  lemma AlternateTimeOffsetRoundTrip(t: Tlv, rest: seq<byte>)
    requires HeadMatches(t) && t.AlternateTimeOffset?
    ensures DecodeTlv(EncodeTlv(t) + rest) == Success(t) <==> Survives(t, |rest|)
  {
    hide BE, EncodeHead, DecodeHead, DecodeText;
    var name, h := t.displayName, EncodeHead(t.head);
    var text := if name == [] then [] else EncodeText(name);
    var o, j := BE(4, Unsigned32(t.currentOffset)), BE(4, Unsigned32(t.jumpSeconds));
    var tail := [t.keyField] + o + j + t.timeOfNextJump + (text + rest);
    assert EncodeTlv(t) + rest == h + tail;
    DecodeHeadOf(h, tail, t.head);
    if 3 <= |name| {
      AlternateTimeOffsetLayout(h, t.keyField, o, j, t.timeOfNextJump, text + rest);
      TextRoundTrip(name, rest);
      UnmarshalAlternateTimeOffsetOf(t, h + tail);
    }
  }

  lemma RequestRoundTrip(t: Tlv, rest: seq<byte>)
    requires HeadMatches(t) && t.RequestUnicast?
    ensures UnmarshalRequest(EncodeTlv(t) + rest) == Success(t)
  {
    hide BE, EncodeHead, DecodeHead;
    var h, d := EncodeHead(t.head), BE(4, t.durationField);
    var tail := [t.msgTypeAndReserved] + [Unsigned8(t.logInterMessagePeriod)] + d + rest;
    assert EncodeTlv(t) + rest == h + tail;
    DecodeHeadOf(h, tail, t.head);
    RequestLayout(h, t.msgTypeAndReserved, Unsigned8(t.logInterMessagePeriod), d, rest);
    U32Reads(h + tail, 6, t.durationField);
  }

  lemma RequestLayout(h: seq<byte>, m: byte, l: byte, d: seq<byte>, tail: seq<byte>)
    requires |h| == |d| == 4
    ensures var b := h + ([m] + [l] + d + tail);
            b[4] == m && b[5] == l && b[6..10] == d && b[10..] == tail
  {
  }

  lemma GrantRoundTrip(t: Tlv, rest: seq<byte>)
    requires HeadMatches(t) && t.GrantUnicast?
    ensures UnmarshalGrant(EncodeTlv(t) + rest) == Success(t)
  {
    hide BE, EncodeHead, DecodeHead;
    var h, d, end := EncodeHead(t.head), BE(4, t.durationField), [t.reserved] + [t.renewal] + rest;
    var tail := [t.msgTypeAndReserved] + [Unsigned8(t.logInterMessagePeriod)] + d + end;
    assert EncodeTlv(t) + rest == h + tail;
    DecodeHeadOf(h, tail, t.head);
    RequestLayout(h, t.msgTypeAndReserved, Unsigned8(t.logInterMessagePeriod), d, end);
    assert (h + tail)[10] == (h + tail)[10..][0] && (h + tail)[11] == (h + tail)[10..][1];
    U32Reads(h + tail, 6, t.durationField);
  }

  lemma ShortRoundTrip(t: Tlv, rest: seq<byte>)
    requires HeadMatches(t) && (t.CancelUnicast? || t.AcknowledgeCancel? || t.AlternateResponsePort?)
    ensures DecodeTlv(EncodeTlv(t) + rest) == Success(t)
  {
    hide BE, EncodeHead, DecodeHead;
    var h := EncodeHead(t.head);
    var tail := if t.AlternateResponsePort? then BE(2, t.offset) + rest else [t.msgTypeAndFlags] + [t.reserved] + rest;
    assert EncodeTlv(t) + rest == h + tail;
    DecodeHeadOf(h, tail, t.head);
    if t.AlternateResponsePort? {
      assert (h + tail)[4..6] == BE(2, t.offset);
      U16Reads(h + tail, 4, t.offset);
    }
  }

  lemma DecodeIsUnmarshal(t: Tlv, rest: seq<byte>)
    requires HeadMatches(t) && (t.RequestUnicast? || t.GrantUnicast?)
    ensures DecodeTlv(EncodeTlv(t) + rest) ==
            if t.RequestUnicast? then UnmarshalRequest(EncodeTlv(t) + rest) else UnmarshalGrant(EncodeTlv(t) + rest)
  {
    hide BE, EncodeHead, DecodeHead, UnmarshalRequest, UnmarshalGrant;
    var tail := EncodeTlv(t)[4..] + rest;
    assert EncodeTlv(t) + rest == EncodeHead(t.head) + tail;
    DecodeHeadOf(EncodeHead(t.head), tail, t.head);
  }

  lemma TlvRoundTrip(t: Tlv, rest: seq<byte>)
    requires HeadMatches(t)
    ensures DecodeTlv(EncodeTlv(t) + rest) == Success(t) <==> Survives(t, |rest|)
  {
    hide DecodeTlv, EncodeTlv, UnmarshalRequest, UnmarshalGrant;
    match t {
      case PathTrace(_, _) => PathTraceRoundTrip(t, rest);
      case AlternateTimeOffset(_, _, _, _, _, _) => AlternateTimeOffsetRoundTrip(t, rest);
      case RequestUnicast(_, _, _, _) => DecodeIsUnmarshal(t, rest); RequestRoundTrip(t, rest);
      case GrantUnicast(_, _, _, _, _, _) => DecodeIsUnmarshal(t, rest); GrantRoundTrip(t, rest);
      case CancelUnicast(_, _, _) => ShortRoundTrip(t, rest);
      case AcknowledgeCancel(_, _, _) => ShortRoundTrip(t, rest);
      case AlternateResponsePort(_, _) => ShortRoundTrip(t, rest);
    }
  }

  predicate HeadsMatch(ts: seq<Tlv>): (r: bool)
    ensures r ==> AllEncodable(ts)
  {
    forall i | 0 <= i < |ts| :: HeadMatches(ts[i])
  }

  /** Each TLV of the chain survives, counting the rest of the chain and `after` octets as what follows it. */
  predicate ChainSurvives(ts: seq<Tlv>, after: nat)
    requires HeadsMatch(ts)
  {
    ts == [] ||
    (Survives(ts[0], |EncodeTlvs(ts[1..])| + after) && ChainSurvives(ts[1..], after))
  }

  /**
   * The chain round trip, as an equivalence: a list of TLVs with right heads is read back, and nothing
   * but that list, exactly when every PATH_TRACE in it has 1 to 8 octets of buffer behind it and every
   * ALTERNATE_TIME_OFFSET_INDICATOR a name of at least 3 octets.
   */
  lemma {:induction false} ChainRoundTrip(ts: seq<Tlv>, rest: seq<byte>)
    requires HeadsMatch(ts)
    ensures var s := ScanTlvs(|EncodeTlvs(ts)|, EncodeTlvs(ts) + rest);
            (s.tlvs == ts && s.err.None?) <==> ChainSurvives(ts, |rest|)
    ensures ChainSurvives(ts, |rest|) ==>
              ScanTlvs(|EncodeTlvs(ts)|, EncodeTlvs(ts) + rest).pos == |EncodeTlvs(ts)|
  {
    hide DecodeTlv, EncodeTlv;
    if ts != [] {
      var more := EncodeTlvs(ts[1..]);
      TlvRoundTrip(ts[0], more + rest);
      assert EncodeTlvs(ts) + rest == EncodeTlv(ts[0]) + (more + rest);
      if Survives(ts[0], |more + rest|) {
        ChainRoundTrip(ts[1..], rest);
        assert (EncodeTlv(ts[0]) + (more + rest))[|EncodeTlv(ts[0])|..] == more + rest;
      }
    }
  }

  /** The lists the protocol needs: fixed-size kinds and named offsets, then at most one PATH_TRACE, at the end. */
  predicate Regular(ts: seq<Tlv>) {
    forall i | 0 <= i < |ts| ::
      match ts[i]
      case PathTrace(_, ids) => i == |ts| - 1 && ids != []
      case AlternateTimeOffset(_, _, _, _, _, name) => 3 <= |name|
      case _ => true
  }

  lemma {:induction false} RegularSurvives(ts: seq<Tlv>, after: nat)
    requires HeadsMatch(ts) && Regular(ts) && 1 <= after <= 8
    ensures ChainSurvives(ts, after)
  {
    if ts != [] {
      RegularSurvives(ts[1..], after);
    }
  }

  /** The round trip does fail: a PATH_TRACE that ends the buffer comes back changed. */
  lemma PathTraceLostAtEnd()
    ensures var t := PathTrace(TlvHead(TLV_PATH_TRACE, 8), [7]);
            HeadsMatch([t]) && ScanTlvs(12, EncodeTlvs([t])) != Scan([t], 12, None)
  {
    var t := PathTrace(TlvHead(TLV_PATH_TRACE, 8), [7]);
    assert EncodeTlvs([t]) == EncodeTlv(t) + EncodeTlvs([]);
    ChainRoundTrip([t], []);
    assert EncodeTlvs([t]) + [] == EncodeTlvs([t]);
  }

  // ------------------------------------------------- what decoding promises

  /** Decoding stays inside the buffer; each TLV takes at least 6 octets, so a length allows few of them. */
  lemma {:induction false} ScanBounds(maxLength: int, b: seq<byte>)
    requires maxLength <= |b|
    ensures var s := ScanTlvs(maxLength, b);
            && 6 * |s.tlvs| <= s.pos <= |b|
            && 6 * |s.tlvs| <= (if maxLength < 4 then 0 else maxLength + 2)
            && (s.err.None? ==> maxLength < s.pos + 4)
    decreases |b|
  {
    if 4 <= maxLength && DecodeTlv(b).Success? {
      var n := 4 + DecodeTlv(b).value.head.lengthField;
      ScanBounds(maxLength - n, b[n..]);
    }
  }

  lemma ReadsIgnoreTail(b: seq<byte>, extra: seq<byte>, off: nat)
    ensures off + 2 <= |b| ==> U16(b + extra, off) == U16(b, off)
    ensures off + 4 <= |b| ==> U32(b + extra, off) == U32(b, off)
    ensures off + 8 <= |b| ==> U64(b + extra, off) == U64(b, off)
  {
    assert off + 2 <= |b| ==> (b + extra)[off..off + 2] == b[off..off + 2];
    assert off + 4 <= |b| ==> (b + extra)[off..off + 4] == b[off..off + 4];
    assert off + 8 <= |b| ==> (b + extra)[off..off + 8] == b[off..off + 8];
  }

  lemma DecodeTextExtends(raw: seq<byte>, extra: seq<byte>)
    requires DecodeText(raw).Success?
    ensures DecodeText(raw + extra) == DecodeText(raw)
  {
    if raw[0] != 0 {
      assert (raw + extra)[1..1 + raw[0] as int] == raw[1..1 + raw[0] as int];
    }
  }

  lemma DecodeTlvExtends(b: seq<byte>, extra: seq<byte>)
    requires 4 <= |b| && DecodeTlv(b).Success? && !DecodeTlv(b).value.PathTrace?
    ensures DecodeTlv(b + extra) == DecodeTlv(b)
  {
    ReadsIgnoreTail(b, extra, 0);
    ReadsIgnoreTail(b, extra, 2);
    ReadsIgnoreTail(b, extra, 4);
    ReadsIgnoreTail(b, extra, 5);
    ReadsIgnoreTail(b, extra, 6);
    ReadsIgnoreTail(b, extra, 9);
    if DecodeTlv(b).value.AlternateTimeOffset? {
      assert (b + extra)[19..] == b[19..] + extra;
      assert (b + extra)[13..19] == b[13..19];
      DecodeTextExtends(b[19..], extra);
    }
  }

  predicate NoPathTrace(ts: seq<Tlv>) {
    forall i | 0 <= i < |ts| :: !ts[i].PathTrace?
  }

  lemma ScanStep(maxLength: int, b: seq<byte>)
    requires maxLength <= |b|
    ensures ScanTlvs(maxLength, b) ==
            if maxLength < 4 then Scan([], 0, None)
            else
              var r := DecodeTlv(b);
              if r.Failure? then Scan([], 0, Some(r.error))
              else
                var n := 4 + r.value.head.lengthField;
                var rest := ScanTlvs(maxLength - n, b[n..]);
                Scan([r.value] + rest.tlvs, n + rest.pos, rest.err)
  {
    hide DecodeTlv;
  }

  /** What a scan that finds no error and no PATH_TRACE says of its first TLV and of the rest. */
  lemma ScanParts(maxLength: int, b: seq<byte>)
    requires 4 <= maxLength <= |b|
    requires ScanTlvs(maxLength, b).err.None? && NoPathTrace(ScanTlvs(maxLength, b).tlvs)
    ensures DecodeTlv(b).Success? && !DecodeTlv(b).value.PathTrace?
    ensures var n := 4 + DecodeTlv(b).value.head.lengthField;
            n <= |b| && ScanTlvs(maxLength - n, b[n..]).err.None? && NoPathTrace(ScanTlvs(maxLength - n, b[n..]).tlvs)
  {
    hide DecodeTlv, ScanTlvs;
    ScanStep(maxLength, b);
    var s, n := ScanTlvs(maxLength, b), 4 + DecodeTlv(b).value.head.lengthField;
    var rest := ScanTlvs(maxLength - n, b[n..]);
    assert s.tlvs[0] == DecodeTlv(b).value && forall i | 0 <= i < |rest.tlvs| :: rest.tlvs[i] == s.tlvs[i + 1];
  }

  /** Octets after the chain do not change what is read from it, unless it holds a PATH_TRACE. */
  lemma {:induction false} ScanExtends(maxLength: int, b: seq<byte>, extra: seq<byte>)
    requires maxLength <= |b|
    requires ScanTlvs(maxLength, b).err.None? && NoPathTrace(ScanTlvs(maxLength, b).tlvs)
    ensures ScanTlvs(maxLength, b + extra) == ScanTlvs(maxLength, b)
    decreases |b|
  {
    hide DecodeTlv, ScanTlvs, NoPathTrace;
    ScanStep(maxLength, b);
    ScanStep(maxLength, b + extra);
    if 4 <= maxLength {
      ScanParts(maxLength, b);
      var n := 4 + DecodeTlv(b).value.head.lengthField;
      DecodeTlvExtends(b, extra);
      ScanExtends(maxLength - n, b[n..], extra);
      assert (b + extra)[n..] == b[n..] + extra;
    }
  }

  predicate FixedSize(t: Tlv) {
    !t.PathTrace? && !t.AlternateTimeOffset?
  }

  predicate AllFixedSize(ts: seq<Tlv>): (r: bool)
    ensures r ==> AllEncodable(ts)
  {
    forall i | 0 <= i < |ts| :: FixedSize(ts[i])
  }

  lemma HeadOfDecode(b: seq<byte>)
    requires 4 <= |b|
    ensures EncodeHead(DecodeHead(b)) == b[..4]
  {
    U16Reads(b, 0, U16(b, 0));
    U16Reads(b, 2, U16(b, 2));
    assert b[..4] == b[0..2] + b[2..4];
  }

  /** A fixed-size TLV that was read is written back as the very octets it came from. */
  lemma FixedSizeReencodes(b: seq<byte>)
    requires 4 <= |b| && DecodeTlv(b).Success? && FixedSize(DecodeTlv(b).value)
    ensures var t := DecodeTlv(b).value; EncodeTlv(t) == b[..4 + t.head.lengthField]
  {
    var t := DecodeTlv(b).value;
    HeadOfDecode(b);
    match t {
      case RequestUnicast(_, _, _, d) =>
        U32Reads(b, 6, d);
        assert b[..10] == b[..4] + [b[4]] + [b[5]] + b[6..10];
      case GrantUnicast(_, _, _, d, _, _) =>
        U32Reads(b, 6, d);
        assert b[..12] == b[..4] + [b[4]] + [b[5]] + b[6..10] + [b[10]] + [b[11]];
      case CancelUnicast(_, _, _) =>
        assert b[..6] == b[..4] + [b[4]] + [b[5]];
      case AcknowledgeCancel(_, _, _) =>
        assert b[..6] == b[..4] + [b[4]] + [b[5]];
      case AlternateResponsePort(_, o) =>
        U16Reads(b, 4, o);
        assert b[..6] == b[..4] + b[4..6];
    }
  }

  lemma PrefixJoin(b: seq<byte>, n: nat, m: nat)
    requires n + m <= |b|
    ensures b[..n] + b[n..][..m] == b[..n + m]
  {
  }

  lemma EncodeTlvsCons(t: Tlv, ts: seq<Tlv>)
    requires Encodable(t) && AllEncodable(ts)
    ensures AllEncodable([t] + ts) && EncodeTlvs([t] + ts) == EncodeTlv(t) + EncodeTlvs(ts)
  {
    assert ([t] + ts)[1..] == ts;
  }

  lemma {:induction false} ChainReencodes(maxLength: int, b: seq<byte>)
    requires maxLength <= |b|
    requires AllFixedSize(ScanTlvs(maxLength, b).tlvs)
    ensures var s := ScanTlvs(maxLength, b); s.pos <= |b| && EncodeTlvs(s.tlvs) == b[..s.pos]
    decreases |b|
  {
    hide DecodeTlv, EncodeTlv, EncodeTlvs;
    var s := ScanTlvs(maxLength, b);
    if 4 <= maxLength && DecodeTlv(b).Success? {
      var t := DecodeTlv(b).value;
      var n := 4 + t.head.lengthField;
      var rest := ScanTlvs(maxLength - n, b[n..]);
      assert s.tlvs[0] == t && forall i | 0 <= i < |rest.tlvs| :: rest.tlvs[i] == s.tlvs[i + 1];
      FixedSizeReencodes(b);
      ChainReencodes(maxLength - n, b[n..]);
      EncodeTlvsCons(t, rest.tlvs);
      PrefixJoin(b, n, rest.pos);
    } else {
      EncodeTlvsNil();
    }
  }

  lemma EncodeTlvsNil()
    ensures EncodeTlvs([]) == []
  {
  }

  // ----------------------------------------------------------- the real loops

  /** The octets of one TLV that a writer gets to: an over-long text is found out when all else is written. */
  function Octets(t: Tlv): seq<byte> {
    if Encodable(t) then EncodeTlv(t) else EncodeTlv(t.(displayName := []))
  }

  /** The octets of a chain up to the point where its writer stops. */
  function Written(ts: seq<Tlv>): (w: seq<byte>)
    ensures AllEncodable(ts) ==> w == EncodeTlvs(ts)
  {
    if ts == [] then []
    else if Encodable(ts[0]) then EncodeTlv(ts[0]) + Written(ts[1..])
    else Octets(ts[0])
  }

  /** The room that a TLV must find: its copied fields, the time of the next jump and the name, are cut off instead. */
  function Room(t: Tlv): (n: nat)
    ensures n <= |Octets(t)|
  {
    if !t.AlternateTimeOffset? then |EncodeTlv(t)|
    else if t.displayName != [] && |t.displayName| <= 255 then 19
    else 13
  }

  /** Whether the TLVs find their room in what is left of a buffer; otherwise the program panics. */
  predicate Fits(ts: seq<Tlv>, room: int) {
    ts != [] ==> Room(ts[0]) <= room && (Encodable(ts[0]) ==> Fits(ts[1..], room - |EncodeTlv(ts[0])|))
  }

  lemma {:induction false} EnoughRoomFits(ts: seq<Tlv>, room: int)
    requires |Written(ts)| <= room
    ensures Fits(ts, room)
  {
    hide EncodeTlv;
    if ts != [] && Encodable(ts[0]) {
      EnoughRoomFits(ts[1..], room - |EncodeTlv(ts[0])|);
    }
  }

  method MarshalHead(h: TlvHead, b: array<byte>, off: nat)
    requires off + 4 <= b.Length
    modifies b
    ensures b[..] == Splice(old(b[..]), off, EncodeHead(h))
  {
    hide Splice, BE;
    ghost var before := b[..];
    SpliceNothing(before, off);
    ghost var done := Emit(b, off, 2, h.tlvType, before, []);
    done := Emit(b, off + 2, 2, h.lengthField, before, done);
    assert done == EncodeHead(h);
  }

  lemma EncodeIdsSnoc(h: seq<byte>, ids: seq<u64>, i: nat)
    requires i < |ids|
    ensures h + EncodeIds(ids[..i + 1]) == h + EncodeIds(ids[..i]) + BE(8, ids[i])
  {
    assert ids[..i + 1][..i] == ids[..i];
  }

  /** PathTraceTLV.MarshalBinaryTo. */
  method MarshalPathTrace(t: Tlv, b: array<byte>, off: nat) returns (n: nat)
    requires t.PathTrace? && off + |EncodeTlv(t)| <= b.Length
    modifies b
    ensures n == |EncodeTlv(t)|
    ensures b[..] == Splice(old(b[..]), off, EncodeTlv(t))
  {
    ghost var before := b[..];
    MarshalHead(t.head, b, off);
    n := 4;
    ghost var done := EncodeHead(t.head);
    for i := 0 to |t.pathSequence|
      invariant n == 4 + 8 * i
      invariant done == EncodeHead(t.head) + EncodeIds(t.pathSequence[..i])
      invariant b[..] == Splice(before, off, done)
    {
      done := Emit(b, off + n, 8, t.pathSequence[i], before, done);
      EncodeIdsSnoc(EncodeHead(t.head), t.pathSequence, i);
      n := n + 8;
    }
    assert t.pathSequence[..|t.pathSequence|] == t.pathSequence;
  }

  /** AlternateTimeOffsetIndicatorTLV.MarshalBinaryTo: what is copied is cut off at the end of the buffer. */
  method MarshalAlternateTimeOffset(t: Tlv, b: array<byte>, off: nat) returns (r: Result<nat, Error>)
    requires t.AlternateTimeOffset? && off + Room(t) <= b.Length
    modifies b
    ensures r == if Encodable(t) then Success(|EncodeTlv(t)|) else Failure(TextTooLong)
    ensures b[..] == Splice(old(b[..]), off, Truncated(Octets(t), b.Length - off))
  {
    hide EncodeText, EncodeHead, Splice, BE, Truncated;
    ghost var before := b[..];
    MarshalHead(t.head, b, off);
    ghost var done := EncodeHead(t.head);
    done := EmitBytes(b, off + 4, [t.keyField], before, done);
    done := Emit(b, off + 5, 4, Unsigned32(t.currentOffset), before, done);
    done := Emit(b, off + 9, 4, Unsigned32(t.jumpSeconds), before, done);
    done := EmitUpTo(b, off + 13, t.timeOfNextJump, before, done);
    var size := 19;
    assert done == EncodeTlv(t.(displayName := []));
    if t.displayName != [] {
      if |t.displayName| > 255 {
        return Failure(TextTooLong);
      }
      var text := EncodeText(t.displayName);
      done := EmitUpTo(b, off + 19, text, before, done);
      size := size + |text|;
    }
    assert done == EncodeTlv(t);
    return Success(size);
  }

  /** MarshalBinaryTo of the other five kinds. */
  method MarshalFixedSize(t: Tlv, b: array<byte>, off: nat) returns (n: nat)
    requires FixedSize(t) && off + |EncodeTlv(t)| <= b.Length
    modifies b
    ensures n == |EncodeTlv(t)|
    ensures b[..] == Splice(old(b[..]), off, EncodeTlv(t))
  {
    hide EncodeHead, Splice, BE;
    ghost var before := b[..];
    MarshalHead(t.head, b, off);
    ghost var done := EncodeHead(t.head);
    match t {
      case RequestUnicast(_, m, l, d) =>
        done := EmitBytes(b, off + 4, [m], before, done);
        done := EmitBytes(b, off + 5, [Unsigned8(l)], before, done);
        done := Emit(b, off + 6, 4, d, before, done);
        n := 10;
      case GrantUnicast(_, m, l, d, res, ren) =>
        done := EmitBytes(b, off + 4, [m], before, done);
        done := EmitBytes(b, off + 5, [Unsigned8(l)], before, done);
        done := Emit(b, off + 6, 4, d, before, done);
        done := EmitBytes(b, off + 10, [res], before, done);
        done := EmitBytes(b, off + 11, [ren], before, done);
        n := 12;
      case CancelUnicast(_, m, res) =>
        done := EmitBytes(b, off + 4, [m], before, done);
        done := EmitBytes(b, off + 5, [res], before, done);
        n := 6;
      case AcknowledgeCancel(_, m, res) =>
        done := EmitBytes(b, off + 4, [m], before, done);
        done := EmitBytes(b, off + 5, [res], before, done);
        n := 6;
      case AlternateResponsePort(_, o) =>
        done := Emit(b, off + 4, 2, o, before, done);
        n := 6;
    }
  }

  method MarshalTlv(t: Tlv, b: array<byte>, off: nat) returns (r: Result<nat, Error>)
    requires off + Room(t) <= b.Length
    modifies b
    ensures r == if Encodable(t) then Success(|EncodeTlv(t)|) else Failure(TextTooLong)
    ensures b[..] == Splice(old(b[..]), off, Truncated(Octets(t), b.Length - off))
  {
    hide Splice, EncodeTlv, Truncated;
    match t {
      case AlternateTimeOffset(_, _, _, _, _, _) =>
        r := MarshalAlternateTimeOffset(t, b, off);
      case PathTrace(_, _) =>
        var n := MarshalPathTrace(t, b, off);
        r := Success(n);
      case _ =>
        var n := MarshalFixedSize(t, b, off);
        r := Success(n);
    }
  }

  /**
   * writeTLVs into the buffer from `start` on. On an error, too, the buffer holds what was written up to there; in a
   * buffer that ends inside the last copied field, that field is cut off, and the length returned is the full one.
   */
  method WriteTlvs(ts: seq<Tlv>, b: array<byte>, start: nat) returns (r: Result<nat, Error>)
    requires start <= b.Length && Fits(ts, b.Length - start)
    modifies b
    ensures r == if AllEncodable(ts) then Success(|EncodeTlvs(ts)|) else Failure(TextTooLong)
    ensures b[..] == Splice(old(b[..]), start, Truncated(Written(ts), b.Length - start))
  {
    hide Splice, EncodeTlv, EncodeTlvs, Room, Octets, Truncated, Written, Fits;
    var pos := 0;
    ghost var before, done, room := b[..], [], b.Length - start;
    EncodeTlvsNil();
    assert ts[0..] == ts;
    assert [] + Written(ts) == Written(ts);
    SpliceNothing(before, start);
    for i := 0 to |ts|
      invariant AllEncodable(ts[..i]) && done == EncodeTlvs(ts[..i]) && |done| == pos
      invariant Written(ts) == done + Written(ts[i..]) && Fits(ts[i..], room - pos)
      invariant b[..] == Splice(before, start, Truncated(done, room))
    {
      OneMoreFits(ts, i, room - pos);
      var n := MarshalTlv(ts[i], b, start + pos);
      OneMoreWritten(before, start, done, Octets(ts[i]));
      if n.Failure? {
        return Failure(n.error);
      }
      EncodeTlvsSnoc(ts[..i], ts[i]);
      assert ts[..i + 1] == ts[..i] + [ts[i]];
      assert Written(ts) == done + EncodeTlv(ts[i]) + Written(ts[i + 1..]);
      done := done + EncodeTlv(ts[i]);
      pos := pos + n.value;
    }
    AllWritten(ts);
    assert ts[..|ts|] == ts;
    return Success(pos);
  }

  lemma AllWritten(ts: seq<Tlv>)
    ensures Written(ts[|ts|..]) == []
    ensures forall x: seq<byte> :: x + [] == x
  {
  }

  lemma OneMoreFits(ts: seq<Tlv>, i: nat, room: int)
    requires i < |ts| && Fits(ts[i..], room)
    ensures Room(ts[i]) <= room
    ensures Encodable(ts[i]) ==>
              && Octets(ts[i]) == EncodeTlv(ts[i]) && Fits(ts[i + 1..], room - |EncodeTlv(ts[i])|)
              && Written(ts[i..]) == EncodeTlv(ts[i]) + Written(ts[i + 1..])
    ensures !Encodable(ts[i]) ==> Written(ts[i..]) == Octets(ts[i])
  {
    hide EncodeTlv, Room;
    assert ts[i..][1..] == ts[i + 1..];
  }

  lemma OneMoreWritten(before: seq<byte>, start: nat, done: seq<byte>, x: seq<byte>)
    requires start + |done| <= |before|
    ensures var room := |before| - start;
            && Truncated(done, room) == done
            && Splice(Splice(before, start, done), start + |done|, Truncated(x, room - |done|))
               == Splice(before, start, Truncated(done + x, room))
  {
    hide Splice;
    var room := |before| - start;
    SpliceTwice(before, start, done, Truncated(x, room - |done|));
    assert done + Truncated(x, room - |done|) == Truncated(done + x, room);
  }

  lemma SpliceNothing(s: seq<byte>, off: nat)
    requires off <= |s|
    ensures Splice(s, off, []) == s
  {
  }

  lemma {:induction false} EncodeTlvsSnoc(ts: seq<Tlv>, t: Tlv)
    requires AllEncodable(ts) && Encodable(t)
    ensures AllEncodable(ts + [t])
    ensures EncodeTlvs(ts + [t]) == EncodeTlvs(ts) + EncodeTlv(t)
  {
    if ts == [] {
      assert ts + [t] == [t];
      assert EncodeTlvs([t]) == EncodeTlv(t) + EncodeTlvs([]);
    } else {
      EncodeTlvsSnoc(ts[1..], t);
      assert (ts + [t])[1..] == ts[1..] + [t];
    }
  }

  /** PathTraceTLV.UnmarshalBinary: the loop stops at the length field or one octet short of the buffer's end. */
  method UnmarshalPathTraceLoop(b: seq<byte>) returns (r: Result<Tlv, Error>)
    ensures r == UnmarshalPathTrace(b)
  {
    if |b| < 4 {
      return Failure(NotEnoughData);
    }
    var h := DecodeHead(b);
    var e := CheckTlvLength(h, |b|, 8, false);
    if e.Some? {
      return Failure(e.value);
    }
    var ids: seq<u64> := [];
    var i := 0;
    while i * 8 <= h.lengthField
      invariant |ids| == i <= IdCount(h.lengthField, |b|)
      invariant forall k | 0 <= k < i :: 4 + 8 * k + 8 <= |b| && ids[k] == U64(b, 4 + 8 * k)
    {
      var pos := TLV_HEAD_SIZE + i * 8;
      if pos + 8 >= |b| {
        break;
      }
      ids := ids + [U64(b, pos)];
      i := i + 1;
    }
    ReadIdsAre(b, ids);
    return Success(PathTrace(h, ids));
  }

  /** readTLVs: appends to `tlvs` what it reads from b, looking at heads that start below maxLength only. */
  method ReadTlvs(tlvs: seq<Tlv>, maxLength: int, b: seq<byte>) returns (out: seq<Tlv>, err: Option<Error>)
    requires maxLength <= |b|
    ensures out == tlvs + ScanTlvs(maxLength, b).tlvs
    ensures err == ScanTlvs(maxLength, b).err
  {
    hide ScanTlvs, UnmarshalPathTrace;
    out := tlvs;
    var pos := 0;
    assert b[0..] == b;
    while pos + TLV_HEAD_SIZE <= maxLength
      invariant pos <= |b|
      invariant tlvs + ScanTlvs(maxLength, b).tlvs == out + ScanTlvs(maxLength - pos, b[pos..]).tlvs
      invariant ScanTlvs(maxLength, b).err == ScanTlvs(maxLength - pos, b[pos..]).err
      decreases |b| - pos
    {
      ScanStep(maxLength - pos, b[pos..]);
      var r;
      if DecodeHead(b[pos..]).tlvType == TLV_PATH_TRACE {
        r := UnmarshalPathTraceLoop(b[pos..]);
      } else {
        r := DecodeTlv(b[pos..]);
      }
      if r.Failure? {
        return out, Some(r.error);
      }
      var n := TLV_HEAD_SIZE + r.value.head.lengthField;
      assert b[pos..][n..] == b[pos + n..];
      out := out + [r.value];
      pos := pos + n;
    }
    ScanStep(maxLength - pos, b[pos..]);
    return out, None;
  }
}
