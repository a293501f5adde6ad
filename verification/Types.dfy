/** The PTP data types of IEEE 1588-2019 that packets are made of. */
module Types {
  import opened Wire

  const HEADER_SIZE: nat := 34
  const TLV_HEAD_SIZE: nat := 4
  const TRAILING_BYTES: nat := 2

  const MESSAGE_SYNC: byte := 0x0
  const MESSAGE_DELAY_REQ: byte := 0x1
  const MESSAGE_FOLLOW_UP: byte := 0x8
  const MESSAGE_DELAY_RESP: byte := 0x9
  const MESSAGE_ANNOUNCE: byte := 0xB
  const MESSAGE_SIGNALING: byte := 0xC

  const VERSION: byte := 0x12
  const FLAG_TWO_STEP: u16 := 0x0200
  const FLAG_UNICAST: u16 := 0x0400
  const FLAG_PROFILE_SPECIFIC1: u16 := 0x2000
  const FLAG_PTP_TIMESCALE: u16 := 0x0008
  const TIME_SOURCE_GNSS: byte := 0x20

  /** Seconds are kept as the six bytes they are sent as. */
  type Seconds48 = s: seq<byte> | |s| == 6 witness [0, 0, 0, 0, 0, 0]

  datatype PortIdentity = PortIdentity(clockIdentity: u64, portNumber: u16)

  datatype Timestamp = Timestamp(seconds: Seconds48, nanoseconds: u32)

  const EMPTY_TIMESTAMP := Timestamp([0, 0, 0, 0, 0, 0], 0)

  /** Table 35, common message header. */
  datatype Header = Header(
    sdoIdAndMsgType: byte,
    version: byte,
    messageLength: u16,
    domainNumber: byte,
    minorSdoId: byte,
    flagField: u16,
    correctionField: i64,
    messageTypeSpecific: u32,
    sourcePortIdentity: PortIdentity,
    sequenceId: u16,
    controlField: byte,
    logMessageInterval: i8)

  /** The message type is the low nibble of the first octet. */
  function MsgType(sdoIdAndMsgType: byte): (m: byte)
    ensures m < 16
  {
    sdoIdAndMsgType % 16
  }

  /** In a unicast TLV the message type is the high nibble. */
  function UnicastMsgType(msgTypeAndFlags: byte): (m: byte)
    ensures m < 16
  {
    msgTypeAndFlags / 16
  }

  function NewUnicastMsgTypeAndFlags(msgType: byte, flags: byte): (m: byte)
    ensures flags < 16 && msgType < 16 ==> UnicastMsgType(m) == msgType && m % 16 == flags
  {
    ((msgType as int * 16) % 256) as byte + flags % 16
  }

  /** An octet of two nibbles, as headers and unicast TLVs have it: the low one, and the high one, is the type. */
  lemma NibblesOf(high: byte, low: byte)
    requires high < 16 && low < 16
    ensures MsgType(16 * high + low) == low && UnicastMsgType(16 * high + low) == high
    ensures NewUnicastMsgTypeAndFlags(high, low) == 16 * high + low
  {
  }

  const NANOS: int := 1_000_000_000

  /** time.Time{}, the start of year 1, in nanoseconds since 1970. */
  const ZERO_TIME: int := -62135596800 * NANOS

  /** NewTimestamp of a time given in nanoseconds since 1970; seconds keep their low 48 bits. */
  function NewTimestamp(t: int): (ts: Timestamp)
  {
    if t == ZERO_TIME then EMPTY_TIMESTAMP
    else Timestamp(BE(6, (t / NANOS) % 0x1_0000_0000_0000), t % NANOS)
  }

  /** The octets of a timestamp: seconds since 1970 by falling weight, and the nanoseconds in the last of them. */
  lemma NewTimestampOctets(t: int)
    requires t != -62_135_596_800_000_000_000
    ensures var ts, s := NewTimestamp(t), t / 1_000_000_000;
            && ts.seconds ==
               [(s / 0x100_0000_0000 % 256) as byte, (s / 0x1_0000_0000 % 256) as byte, (s / 0x100_0000 % 256) as byte,
                (s / 0x1_0000 % 256) as byte, (s / 0x100 % 256) as byte, (s % 256) as byte]
            && ts.nanoseconds == t % 1_000_000_000
    ensures NewTimestamp(-62_135_596_800_000_000_000) == Timestamp([0, 0, 0, 0, 0, 0], 0)
  {
    BE6(t / NANOS % 0x1_0000_0000_0000);
    LowBits(t / NANOS);
  }

  lemma LowBits(s: int)
    ensures var v := s % 0x1_0000_0000_0000;
            && v / 0x100_0000_0000 % 256 == s / 0x100_0000_0000 % 256 && v / 0x1_0000_0000 % 256 == s / 0x1_0000_0000 % 256
            && v / 0x100_0000 % 256 == s / 0x100_0000 % 256 && v / 0x1_0000 % 256 == s / 0x1_0000 % 256
            && v / 0x100 % 256 == s / 0x100 % 256 && v % 256 == s % 256
  {
    var v, q := s % 0x1_0000_0000_0000, s / 0x1_0000_0000_0000;
    LowDigit(s, v, q, 0x100_0000_0000, 0x1);
    LowDigit(s, v, q, 0x1_0000_0000, 0x100);
    LowDigit(s, v, q, 0x100_0000, 0x1_0000);
    LowDigit(s, v, q, 0x1_0000, 0x100_0000);
    LowDigit(s, v, q, 0x100, 0x1_0000_0000);
    LowDigit(s, v, q, 1, 0x100_0000_0000);
  }

  /** Adding a multiple of 256 times the weight of a digit leaves the digit. */
  lemma LowDigit(s: int, v: nat, q: int, w: nat, m: nat)
    requires 0 < w && s == v + q * (256 * m * w)
    ensures v / w % 256 == s / w % 256
  {
    var d, r, k := v / w, v % w, m * q;
    assert v == w * d + r;
    Regrouped(q, m, w);
    assert s == w * (d + 256 * k) + r;
    QuotientIs(s, w, d + 256 * k, r);
  }

  lemma Regrouped(q: int, m: nat, w: nat)
    ensures q * (256 * m * w) == w * (256 * (m * q))
  {
    assert 256 * m * w == w * (256 * m);
    assert q * (w * (256 * m)) == w * (q * (256 * m));
  }

  /** Inside the 48-bit era a timestamp names exactly the time it was made from. */
  lemma NewTimestampNamesTime(t: int)
    requires 0 <= t < 0x1_0000_0000_0000 * NANOS
    ensures var ts := NewTimestamp(t); Value(ts.seconds) * NANOS + ts.nanoseconds == t && ts.nanoseconds < NANOS
  {
    var s := t / NANOS;
    assert s * NANOS + t % NANOS == t;
    assert 0 <= s < 0x1_0000_0000_0000;
    assert s % 0x1_0000_0000_0000 == s;
    assert s < Pow256(6) by { Pow256Values(); }
    ValueOfBE(6, s);
  }
}
