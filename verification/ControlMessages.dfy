/**
 * Socket control messages and the two scans over them: timestamp/timestamp_linux.go.
 * A message is a 16-byte header (64-bit length, 32-bit level and type, little endian) and its data;
 * the next one starts at the following multiple of eight bytes.
 */
module ControlMessages {
  import opened Wire
  import opened Types

  const SIZEOF_CMSGHDR: int := 16
  const SOL_SOCKET: int := 1
  const SOL_IP: int := 0
  const SOL_IPV6: int := 41
  const SO_TIMESTAMPING: int := 37
  const SO_TIMESTAMPING_NEW: int := 65
  const IP_RECVERR: int := 11
  const IPV6_RECVERR: int := 25
  const ENOMSG: nat := 42

  function LittleEndian(b: seq<byte>): (v: nat)
    ensures v < Pow256(|b|)
  {
    if b == [] then 0 else b[0] as nat + 256 * LittleEndian(b[1..])
  }

  function Int64At(b: seq<byte>, off: nat): i64
    requires off + 8 <= |b|
  {
    Pow256Values();
    Signed64(LittleEndian(b[off..off + 8]))
  }

  function Int32At(b: seq<byte>, off: nat): i32
    requires off + 4 <= |b|
  {
    Pow256Values();
    Signed32(LittleEndian(b[off..off + 4]))
  }

  function Uint32At(b: seq<byte>, off: nat): u32
    requires off + 4 <= |b|
  {
    Pow256Values();
    LittleEndian(b[off..off + 4])
  }

  /** Rounding up to eight, as `(n + 7) &^ 7` does for negative n too. */
  function Align(n: int): (a: int)
    ensures a % 8 == 0 && n <= a < n + 8
  {
    (n + 7) / 8 * 8
  }

  function CmsgSpace(dataLen: int): (space: int)
    ensures space % 8 == 0 && 16 + dataLen <= space < 24 + dataLen
  {
    Align(SIZEOF_CMSGHDR) + Align(dataLen)
  }

  /** Both scans move forward at every non-zero length, even one too short for a header. */
  lemma ScanAdvances(mlen: int)
    requires 0 < mlen
    ensures 8 <= CmsgSpace(mlen - SIZEOF_CMSGHDR) && mlen <= CmsgSpace(mlen - SIZEOF_CMSGHDR)
    ensures SIZEOF_CMSGHDR <= mlen ==> CmsgSpace(mlen - SIZEOF_CMSGHDR) == Align(mlen)
  {
  }

  datatype Cmsg = Cmsg(level: int, typ: int, data: seq<byte>)

  /** What socketControlMessageTimestamp looks for; `&&` binds tighter than `||` there. */
  predicate IsTimestamp(level: int, typ: int) {
    (level == SOL_SOCKET && typ == SO_TIMESTAMPING_NEW) || typ == SO_TIMESTAMPING
  }

  predicate IsNewTimestamp(level: int, typ: int) {
    level == SOL_SOCKET && typ == SO_TIMESTAMPING_NEW
  }

  predicate IsRecvErr(level: int, typ: int) {
    (level == SOL_IPV6 && typ == IPV6_RECVERR) || (level == SOL_IP && typ == IP_RECVERR)
  }

  function LenAt(b: seq<byte>, i: nat): int
    requires i + 16 <= |b|
  {
    Int64At(b, i)
  }

  /** The two scans: for the first timestamp, and for the last timestamp and ID. */
  datatype Scanner = FirstTime | LastTagged

  /** The data a scan takes apart: three time values for a timestamp, a sock_extended_err for an ID. */
  function DataNeeded(k: Scanner, level: int, typ: int): nat {
    match k
    case FirstTime => if IsTimestamp(level, typ) then 48 else 0
    case LastTagged => if IsNewTimestamp(level, typ) then 48 else if IsRecvErr(level, typ) then 16 else 0
  }

  function LevelAt(b: seq<byte>, i: nat): int
    requires i + 16 <= |b|
  {
    Int32At(b, i + 8)
  }

  function TypeAt(b: seq<byte>, i: nat): int
    requires i + 16 <= |b|
  {
    Int32At(b, i + 12)
  }

  /** A message whose data a scan takes apart has it, inside the buffer. */
  predicate Opens(k: Scanner, b: seq<byte>, i: nat)
    requires i + 16 <= |b|
  {
    var n := DataNeeded(k, LevelAt(b, i), TypeAt(b, i));
    0 < LenAt(b, i) && (n == 0 || 16 + n <= LenAt(b, i) <= |b| - i)
  }

  /** A message as a scan sees it: the data only if it takes it apart. */
  function MessageAt(k: Scanner, b: seq<byte>, i: nat): Cmsg
    requires i + 16 <= |b| && Opens(k, b, i)
  {
    Cmsg(LevelAt(b, i), TypeAt(b, i), if DataNeeded(k, LevelAt(b, i), TypeAt(b, i)) == 0 then [] else b[i + 16..i + LenAt(b, i)])
  }

  /** After this message the scan returns: with the first timestamp, or for malformed data. */
  predicate Ends(k: Scanner, m: Cmsg)
    requires Complete(k, m)
  {
    match k
    case FirstTime => IsTimestamp(m.level, m.typ)
    case LastTagged => !Sound(m)
  }

  /** What a scan reads lies inside the buffer, from i on, up to boob, to a zero length or to where it returns. */
  predicate Walkable(k: Scanner, b: seq<byte>, boob: nat, i: nat)
    decreases boob - i
  {
    i >= boob ||
    (&& i + 16 <= |b|
     && (LenAt(b, i) == 0 ||
         (&& Opens(k, b, i)
          && (Ends(k, MessageAt(k, b, i)) || Walkable(k, b, boob, i + CmsgSpace(LenAt(b, i) - SIZEOF_CMSGHDR))))))
  }

  /** The simple view: the list of messages. */
  function Messages(k: Scanner, b: seq<byte>, boob: nat, i: nat): seq<Cmsg>
    requires Walkable(k, b, boob, i)
    decreases boob - i
  {
    if i >= boob || LenAt(b, i) == 0 then []
    else
      [MessageAt(k, b, i)] +
      (if Ends(k, MessageAt(k, b, i)) then [] else Messages(k, b, boob, i + CmsgSpace(LenAt(b, i) - SIZEOF_CMSGHDR)))
  }

  // -------------------------------------------------------------- payloads

  /** byteToTime: seconds and nanoseconds as nanoseconds since 1970. */
  function TimeAt(data: seq<byte>, off: nat): int
    requires off + 16 <= |data|
  {
    Int64At(data, off) * NANOS + Int64At(data, off + 8)
  }

  /** The hardware time if there is one, else the software time, else nothing. */
  function ScmDataToTime(data: seq<byte>): (t: Option<int>)
    requires 48 <= |data|
    ensures t.Some? <==> Wrap64(TimeAt(data, 32)) != 0 || Wrap64(TimeAt(data, 0)) != 0
    ensures t.Some? ==> Wrap64(t.value) != 0
    ensures t.Some? ==> t.value == if Wrap64(TimeAt(data, 32)) != 0 then TimeAt(data, 32) else TimeAt(data, 0)
  {
    if Wrap64(TimeAt(data, 32)) != 0 then Some(TimeAt(data, 32))
    else if Wrap64(TimeAt(data, 0)) != 0 then Some(TimeAt(data, 0))
    else None
  }

  /** The ID in a sock_extended_err, which must carry ENOMSG. */
  function ScmDataToSeqId(data: seq<byte>): Option<u32>
    requires 16 <= |data|
  {
    if Uint32At(data, 0) != ENOMSG then None else Some(Uint32At(data, 12))
  }

  predicate Complete(k: Scanner, m: Cmsg) {
    DataNeeded(k, m.level, m.typ) <= |m.data|
  }

  predicate AllComplete(ms: seq<Cmsg>) {
    forall i | 0 <= i < |ms| :: Complete(LastTagged, ms[i])
  }

  /** Complete up to where the scan returns. */
  predicate Seeable(k: Scanner, ms: seq<Cmsg>) {
    ms == [] || (Complete(k, ms[0]) && (Ends(k, ms[0]) || Seeable(k, ms[1..])))
  }

  lemma {:induction false} MessagesSeeable(k: Scanner, b: seq<byte>, boob: nat, i: nat)
    requires Walkable(k, b, boob, i)
    ensures Seeable(k, Messages(k, b, boob, i))
    ensures k.LastTagged? ==> AllComplete(Messages(k, b, boob, i))
    decreases boob - i
  {
    hide Messages, Walkable, LenAt, MessageAt, CmsgSpace, Complete, Ends, Opens;
    if boob <= i {
      WalkEnd(k, b, boob, i);
    } else {
      WalkStep(k, b, boob, i);
      var ms := Messages(k, b, boob, i);
      if LenAt(b, i) != 0 && !Ends(k, MessageAt(k, b, i)) {
        MessagesSeeable(k, b, boob, i + CmsgSpace(LenAt(b, i) - SIZEOF_CMSGHDR));
        assert ms[1..] == Messages(k, b, boob, i + CmsgSpace(LenAt(b, i) - SIZEOF_CMSGHDR));
      }
    }
  }

  // ----------------------------------------------- payloads, octet by octet

  /** The eight octets from off on are v: the least significant first, in two's complement. */
  predicate Holds64(d: seq<byte>, off: nat, v: int) {
    off + 8 <= |d| &&
    v == d[off] as int + 0x100 * d[off + 1] as int + 0x1_0000 * d[off + 2] as int + 0x100_0000 * d[off + 3] as int
         + 0x1_0000_0000 * d[off + 4] as int + 0x100_0000_0000 * d[off + 5] as int + 0x1_0000_0000_0000 * d[off + 6] as int
         + 0x100_0000_0000_0000 * (if d[off + 7] < 128 then d[off + 7] as int else d[off + 7] as int - 256)
  }

  /** The four octets from off on are v. */
  predicate Holds32(d: seq<byte>, off: nat, v: int) {
    off + 4 <= |d| &&
    v == d[off] as int + 0x100 * d[off + 1] as int + 0x1_0000 * d[off + 2] as int + 0x100_0000 * d[off + 3] as int
  }

  lemma LittleEndianCons(d: seq<byte>, off: nat, end: nat)
    requires off < end <= |d|
    ensures LittleEndian(d[off..end]) == d[off] as nat + 256 * LittleEndian(d[off + 1..end])
    ensures LittleEndian(d[end..end]) == 0
  {
    assert d[off..end][1..] == d[off + 1..end];
  }

  lemma FourOctets(d: seq<byte>, off: nat)
    requires off + 4 <= |d|
    ensures LittleEndian(d[off..off + 4]) ==
            d[off] as int + 0x100 * d[off + 1] as int + 0x1_0000 * d[off + 2] as int + 0x100_0000 * d[off + 3] as int
  {
    LittleEndianCons(d, off, off + 4);
    LittleEndianCons(d, off + 1, off + 4);
    LittleEndianCons(d, off + 2, off + 4);
    LittleEndianCons(d, off + 3, off + 4);
  }

  lemma EightOctets(d: seq<byte>, off: nat)
    requires off + 8 <= |d|
    ensures LittleEndian(d[off..off + 8]) ==
            d[off] as int + 0x100 * d[off + 1] as int + 0x1_0000 * d[off + 2] as int + 0x100_0000 * d[off + 3] as int
            + 0x1_0000_0000 * d[off + 4] as int + 0x100_0000_0000 * d[off + 5] as int + 0x1_0000_0000_0000 * d[off + 6] as int
            + 0x100_0000_0000_0000 * d[off + 7] as int
  {
    LittleEndianCons(d, off, off + 8);
    LittleEndianCons(d, off + 1, off + 8);
    LittleEndianCons(d, off + 2, off + 8);
    LittleEndianCons(d, off + 3, off + 8);
    LittleEndianCons(d, off + 4, off + 8);
    LittleEndianCons(d, off + 5, off + 8);
    LittleEndianCons(d, off + 6, off + 8);
    LittleEndianCons(d, off + 7, off + 8);
  }

  lemma Int64Octets(d: seq<byte>, off: nat, v: int)
    requires Holds64(d, off, v)
    ensures Int64At(d, off) == v
  {
    hide LittleEndian;
    EightOctets(d, off);
  }

  lemma Uint32Octets(d: seq<byte>, off: nat, v: int)
    requires Holds32(d, off, v)
    ensures Uint32At(d, off) == v
    ensures v < 0x8000_0000 ==> Int32At(d, off) == v
  {
    hide LittleEndian;
    FourOctets(d, off);
  }

  /**
   * The time in a payload of three times: seconds and nanoseconds since 1970 of the third, the hardware one, unless
   * that is zero as 64 bits count nanoseconds; then of the first, the software one; and none if both are zero.
   */
  lemma TimeFromOctets(d: seq<byte>, sec: int, nsec: int, softSec: int, softNsec: int)
    requires 48 <= |d| && Holds64(d, 32, sec) && Holds64(d, 40, nsec) && Holds64(d, 0, softSec) && Holds64(d, 8, softNsec)
    ensures ScmDataToTime(d) ==
            if (sec * 1_000_000_000 + nsec) % 0x1_0000_0000_0000_0000 != 0 then Some(sec * 1_000_000_000 + nsec)
            else if (softSec * 1_000_000_000 + softNsec) % 0x1_0000_0000_0000_0000 != 0 then
              Some(softSec * 1_000_000_000 + softNsec)
            else None
  {
    hide Int64At, Holds64, Wrap64;
    Int64Octets(d, 32, sec);
    Int64Octets(d, 40, nsec);
    Int64Octets(d, 0, softSec);
    Int64Octets(d, 8, softNsec);
    ZeroIn64Bits(sec * 1_000_000_000 + nsec);
    ZeroIn64Bits(softSec * 1_000_000_000 + softNsec);
  }

  lemma ZeroIn64Bits(x: int)
    ensures Wrap64(x) == 0 <==> x % 0x1_0000_0000_0000_0000 == 0
  {
  }

  /** The ID in an error message: octets 12 to 16, if octets 0 to 4 say ENOMSG. */
  lemma SeqIdFromOctets(d: seq<byte>, errno: int, id: int)
    requires 16 <= |d| && Holds32(d, 0, errno) && Holds32(d, 12, id)
    ensures ScmDataToSeqId(d) == if errno == 42 then Some(id) else None
  {
    Uint32Octets(d, 0, errno);
    Uint32Octets(d, 12, id);
  }

  // --------------------------------------------------------- what is wanted

  /** The time in the first timestamp message. */
  function FirstTimestamp(ms: seq<Cmsg>): Option<int>
    requires Seeable(FirstTime, ms)
  {
    if ms == [] then None
    else if IsTimestamp(ms[0].level, ms[0].typ) then ScmDataToTime(ms[0].data)
    else FirstTimestamp(ms[1..])
  }

  /** The time in the last timestamp message, the zero time if there is none. */
  function LastTimestamp(ms: seq<Cmsg>): int
    requires AllComplete(ms)
  {
    if ms == [] then ZERO_TIME
    else
      var m := ms[|ms| - 1];
      if IsNewTimestamp(m.level, m.typ) && ScmDataToTime(m.data).Some? then ScmDataToTime(m.data).value
      else LastTimestamp(ms[..|ms| - 1])
  }

  /** The ID in the last error message, 0 if there is none. */
  function LastSeqId(ms: seq<Cmsg>): u32
    requires AllComplete(ms)
  {
    if ms == [] then 0
    else
      var m := ms[|ms| - 1];
      if IsRecvErr(m.level, m.typ) && ScmDataToSeqId(m.data).Some? then ScmDataToSeqId(m.data).value
      else LastSeqId(ms[..|ms| - 1])
  }

  /** No message of a kind the scan reads is malformed. */
  predicate Sound(m: Cmsg)
    requires Complete(LastTagged, m)
  {
    && (IsNewTimestamp(m.level, m.typ) ==> ScmDataToTime(m.data).Some?)
    && (IsRecvErr(m.level, m.typ) ==> ScmDataToSeqId(m.data).Some?)
  }

  predicate AllSound(ms: seq<Cmsg>)
    requires AllComplete(ms)
  {
    forall i | 0 <= i < |ms| :: Sound(ms[i])
  }

  /** The last timestamp, exactly when every message is sound and the last ID is the one asked for. */
  function TaggedTimestamp(ms: seq<Cmsg>, seqId: u32): Option<int>
    requires AllComplete(ms)
  {
    if AllSound(ms) && LastTimestamp(ms) != ZERO_TIME && LastSeqId(ms) == seqId then Some(LastTimestamp(ms)) else None
  }

  /** A non-zero ID is only ever the ID of a message that is there. */
  lemma {:induction false} NonZeroIdIsPresent(ms: seq<Cmsg>)
    requires AllComplete(ms) && LastSeqId(ms) != 0
    ensures exists i :: 0 <= i < |ms| && IsRecvErr(ms[i].level, ms[i].typ) && ScmDataToSeqId(ms[i].data) == Some(LastSeqId(ms))
  {
    var n := |ms| - 1;
    if IsRecvErr(ms[n].level, ms[n].typ) && ScmDataToSeqId(ms[n].data).Some? {
    } else {
      NonZeroIdIsPresent(ms[..n]);
      var i :| 0 <= i < n && IsRecvErr(ms[i].level, ms[i].typ) && ScmDataToSeqId(ms[..n][i].data) == Some(LastSeqId(ms));
    }
  }

  /** The first timestamp is that of the first message of its kind, whatever else comes before or behind. */
  lemma {:induction false} FirstTimestampIs(ms: seq<Cmsg>, i: nat)
    requires Seeable(FirstTime, ms) && i < |ms|
    requires (ms[i].level == 1 && ms[i].typ == 65) || ms[i].typ == 37
    requires forall k | 0 <= k < i :: !(ms[k].level == 1 && ms[k].typ == 65) && ms[k].typ != 37
    ensures 48 <= |ms[i].data| && FirstTimestamp(ms) == ScmDataToTime(ms[i].data)
  {
    hide ScmDataToTime;
    if i > 0 {
      FirstTimestampIs(ms[1..], i - 1);
    }
  }

  /** The last timestamp is that of the last message of its kind. */
  lemma {:induction false} LastTimestampIs(ms: seq<Cmsg>, i: nat)
    requires AllComplete(ms) && i < |ms| && ms[i].level == 1 && ms[i].typ == 65
    requires forall k | i < k < |ms| :: !(ms[k].level == 1 && ms[k].typ == 65)
    ensures 48 <= |ms[i].data|
    ensures ScmDataToTime(ms[i].data).Some? ==> LastTimestamp(ms) == ScmDataToTime(ms[i].data).value
  {
    hide ScmDataToTime;
    assert Complete(LastTagged, ms[i]);
    if i < |ms| - 1 {
      var n := |ms| - 1;
      assert !(ms[n].level == 1 && ms[n].typ == 65);
      assert forall k | i < k < n :: ms[..n][k] == ms[k];
      LastTimestampIs(ms[..n], i);
    }
  }

  /** The last ID is that of the last error message, of either version of IP. */
  lemma {:induction false} LastSeqIdIs(ms: seq<Cmsg>, i: nat)
    requires AllComplete(ms) && i < |ms|
    requires (ms[i].level == 41 && ms[i].typ == 25) || (ms[i].level == 0 && ms[i].typ == 11)
    requires forall k | i < k < |ms| :: !(ms[k].level == 41 && ms[k].typ == 25) && !(ms[k].level == 0 && ms[k].typ == 11)
    ensures 16 <= |ms[i].data|
    ensures ScmDataToSeqId(ms[i].data).Some? ==> LastSeqId(ms) == ScmDataToSeqId(ms[i].data).value
  {
    hide ScmDataToSeqId;
    assert Complete(LastTagged, ms[i]);
    if i < |ms| - 1 {
      var n := |ms| - 1;
      assert !(ms[n].level == 41 && ms[n].typ == 25) && !(ms[n].level == 0 && ms[n].typ == 11);
      assert forall k | i < k < n :: ms[..n][k] == ms[k];
      LastSeqIdIs(ms[..n], i);
    }
  }

  // --------------------------------------------------------------- the scans

  /** One message of the walk. */
  lemma WalkStep(k: Scanner, b: seq<byte>, boob: nat, i: nat)
    requires Walkable(k, b, boob, i) && i < boob
    ensures i + 16 <= |b|
    ensures LenAt(b, i) == 0 ==> Messages(k, b, boob, i) == []
    ensures LenAt(b, i) != 0 ==>
              && Opens(k, b, i) && Complete(k, MessageAt(k, b, i)) && 8 <= CmsgSpace(LenAt(b, i) - SIZEOF_CMSGHDR)
              && (if Ends(k, MessageAt(k, b, i)) then Messages(k, b, boob, i) == [MessageAt(k, b, i)]
                  else
                    && Walkable(k, b, boob, i + CmsgSpace(LenAt(b, i) - SIZEOF_CMSGHDR))
                    && Messages(k, b, boob, i) ==
                       [MessageAt(k, b, i)] + Messages(k, b, boob, i + CmsgSpace(LenAt(b, i) - SIZEOF_CMSGHDR)))
  {
  }

  /** The data of a message that a scan takes apart. */
  lemma DataIsThere(k: Scanner, b: seq<byte>, i: nat)
    requires i + 16 <= |b| && Opens(k, b, i) && 0 < DataNeeded(k, LevelAt(b, i), TypeAt(b, i))
    ensures 16 <= LenAt(b, i) <= |b| - i && MessageAt(k, b, i).data == b[i + SIZEOF_CMSGHDR..i + LenAt(b, i)]
    ensures DataNeeded(k, LevelAt(b, i), TypeAt(b, i)) <= |MessageAt(k, b, i).data|
  {
  }

  lemma WalkEnd(k: Scanner, b: seq<byte>, boob: nat, i: nat)
    requires Walkable(k, b, boob, i) && boob <= i
    ensures Messages(k, b, boob, i) == []
  {
  }

  lemma FirstTimestampStep(m: Cmsg, rest: seq<Cmsg>)
    requires Complete(FirstTime, m) && (Ends(FirstTime, m) || Seeable(FirstTime, rest))
    ensures Seeable(FirstTime, [m] + rest)
    ensures FirstTimestamp([m] + rest) == if Ends(FirstTime, m) then ScmDataToTime(m.data) else FirstTimestamp(rest)
  {
    assert ([m] + rest)[1..] == rest;
  }

  lemma LastsStep(ms: seq<Cmsg>, m: Cmsg)
    requires AllComplete(ms) && Complete(LastTagged, m)
    ensures AllComplete(ms + [m])
    ensures AllSound(ms + [m]) <==> AllSound(ms) && Sound(m)
    ensures LastTimestamp(ms + [m]) ==
            if IsNewTimestamp(m.level, m.typ) && ScmDataToTime(m.data).Some? then ScmDataToTime(m.data).value else LastTimestamp(ms)
    ensures LastSeqId(ms + [m]) ==
            if IsRecvErr(m.level, m.typ) && ScmDataToSeqId(m.data).Some? then ScmDataToSeqId(m.data).value else LastSeqId(ms)
  {
    hide ScmDataToTime, ScmDataToSeqId;
    var all := ms + [m];
    assert all[..|ms|] == ms && all[|ms|] == m;
    assert forall k | 0 <= k < |ms| :: all[k] == ms[k];
  }

  lemma UnsoundAnywhere(done: seq<Cmsg>, m: Cmsg, rest: seq<Cmsg>)
    requires AllComplete(done + [m] + rest) && Complete(LastTagged, m) && !Sound(m)
    ensures !AllSound(done + [m] + rest)
  {
    assert (done + [m] + rest)[|done|] == m;
  }

  /** socketControlMessageTimestamp: stops at the first timestamp message. */
  method SocketControlMessageTimestamp(b: seq<byte>, boob: nat) returns (t: Option<int>)
    requires Walkable(FirstTime, b, boob, 0)
    ensures Seeable(FirstTime, Messages(FirstTime, b, boob, 0)) && t == FirstTimestamp(Messages(FirstTime, b, boob, 0))
  {
    hide Walkable, Messages, LenAt, LevelAt, TypeAt, ScmDataToTime, FirstTimestamp, CmsgSpace, MessageAt, Opens;
    MessagesSeeable(FirstTime, b, boob, 0);
    var mlen := 0;
    var i := 0;
    while i < boob
      invariant 0 <= i && Walkable(FirstTime, b, boob, i)
      invariant Seeable(FirstTime, Messages(FirstTime, b, boob, i))
      invariant FirstTimestamp(Messages(FirstTime, b, boob, 0)) == FirstTimestamp(Messages(FirstTime, b, boob, i))
    {
      WalkStep(FirstTime, b, boob, i);
      mlen := LenAt(b, i);
      if mlen == 0 {
        break;
      }
      KindsAt(FirstTime, b, i);
      if IsTimestamp(LevelAt(b, i), TypeAt(b, i)) {
        DataIsThere(FirstTime, b, i);
        FirstTimestampStep(MessageAt(FirstTime, b, i), []);
        assert [MessageAt(FirstTime, b, i)] + [] == [MessageAt(FirstTime, b, i)];
        return ScmDataToTime(b[i + SIZEOF_CMSGHDR..i + mlen]);
      }
      MessagesSeeable(FirstTime, b, boob, i + CmsgSpace(mlen - SIZEOF_CMSGHDR));
      FirstTimestampStep(MessageAt(FirstTime, b, i), Messages(FirstTime, b, boob, i + CmsgSpace(mlen - SIZEOF_CMSGHDR)));
      i := i + CmsgSpace(mlen - SIZEOF_CMSGHDR);
    }
    if boob <= i {
      WalkEnd(FirstTime, b, boob, i);
    }
    assert FirstTimestamp([]) == None by {
      NoTimestampInNothing();
    }
    return None;
  }

  lemma KindsAt(k: Scanner, b: seq<byte>, i: nat)
    requires i + 16 <= |b| && Opens(k, b, i)
    ensures var m := MessageAt(k, b, i); m.level == LevelAt(b, i) && m.typ == TypeAt(b, i) && Complete(k, m)
  {
  }

  lemma NoTimestampInNothing()
    ensures FirstTimestamp([]) == None
    ensures AllComplete([]) && LastTimestamp([]) == ZERO_TIME && LastSeqId([]) == 0
  {
  }

  /** socketControlMessageSeqIDTimestamp: reads on, keeping the latest time and ID, unless one is malformed. */
  method SocketControlMessageSeqIdTimestamp(b: seq<byte>, tboob: nat, seqId: u32) returns (t: Option<int>)
    requires Walkable(LastTagged, b, tboob, 0)
    ensures AllComplete(Messages(LastTagged, b, tboob, 0)) && t == TaggedTimestamp(Messages(LastTagged, b, tboob, 0), seqId)
  {
    hide Walkable, Messages, LenAt, LevelAt, TypeAt, ScmDataToTime, ScmDataToSeqId, LastTimestamp, LastSeqId, CmsgSpace, Sound, Complete,
      MessageAt, Opens, AllComplete;
    ghost var ms := Messages(LastTagged, b, tboob, 0);
    MessagesSeeable(LastTagged, b, tboob, 0);
    NoTimestampInNothing();
    ghost var done: seq<Cmsg> := [];
    var mlen := 0;
    var tstamp := ZERO_TIME;
    var cseq: u32 := 0;
    var i := 0;
    while i < tboob
      invariant 0 <= i && Walkable(LastTagged, b, tboob, i)
      invariant ms == done + Messages(LastTagged, b, tboob, i)
      invariant AllComplete(done) && AllSound(done)
      invariant tstamp == LastTimestamp(done) && cseq == LastSeqId(done)
    {
      WalkStep(LastTagged, b, tboob, i);
      mlen := LenAt(b, i);
      if mlen == 0 {
        break;
      }
      ghost var m := MessageAt(LastTagged, b, i);
      ghost var rest := if Ends(LastTagged, m) then [] else Messages(LastTagged, b, tboob, i + CmsgSpace(mlen - SIZEOF_CMSGHDR));
      assert ms == done + [m] + rest;
      KindsAt(LastTagged, b, i);
      LastsStep(done, m);
      if !Sound(m) {
        UnsoundAnywhere(done, m, rest);
      }
      SoundMeans(m);
      if IsNewTimestamp(LevelAt(b, i), TypeAt(b, i)) {
        DataIsThere(LastTagged, b, i);
        var parsed := ScmDataToTime(b[i + SIZEOF_CMSGHDR..i + mlen]);
        if parsed.None? {
          return None;
        }
        tstamp := parsed.value;
      }
      if IsRecvErr(LevelAt(b, i), TypeAt(b, i)) {
        DataIsThere(LastTagged, b, i);
        var parsed := ScmDataToSeqId(b[i + SIZEOF_CMSGHDR..i + mlen]);
        if parsed.None? {
          return None;
        }
        cseq := parsed.value;
      }
      done := done + [m];
      i := i + CmsgSpace(mlen - SIZEOF_CMSGHDR);
    }
    if tboob <= i {
      WalkEnd(LastTagged, b, tboob, i);
    }
    assert ms == done;
    if tstamp == ZERO_TIME {
      return None;
    }
    return if cseq == seqId then Some(tstamp) else None;
  }

  lemma SoundMeans(m: Cmsg)
    requires Complete(LastTagged, m)
    ensures IsNewTimestamp(m.level, m.typ) ==> 48 <= |m.data| && (Sound(m) <==> ScmDataToTime(m.data).Some?)
    ensures IsRecvErr(m.level, m.typ) ==> 16 <= |m.data| && (Sound(m) <==> ScmDataToSeqId(m.data).Some?)
    ensures !IsNewTimestamp(m.level, m.typ) && !IsRecvErr(m.level, m.typ) ==> Sound(m)
  {
    hide ScmDataToTime, ScmDataToSeqId;
  }

  // -------------------------------------------- the general parser it replaces

  /** What ParseSocketControlMessage returns for b[i..boob]: the messages and where it stopped. */
  datatype Parsed = Invalid | Parsed(messages: seq<Cmsg>, end: nat)

  /** A whole message of the buffer. */
  function WholeAt(b: seq<byte>, i: nat): Cmsg
    requires i + 16 <= |b| && 16 <= LenAt(b, i) <= |b| - i
  {
    Cmsg(LevelAt(b, i), TypeAt(b, i), b[i + 16..i + LenAt(b, i)])
  }

  function Parse(b: seq<byte>, boob: nat, i: nat): (p: Parsed)
    requires boob <= |b|
    decreases boob - i
  {
    if i + 16 > boob then Parsed([], i)
    else if LenAt(b, i) < 16 || LenAt(b, i) > boob - i then Invalid
    else
      var rest := Parse(b, boob, i + Align(LenAt(b, i)));
      if rest.Invalid? then Invalid else Parsed([WholeAt(b, i)] + rest.messages, rest.end)
  }

  /** A list of whole messages as a scan sees it. */
  function Seen(k: Scanner, ms: seq<Cmsg>): seq<Cmsg>
    requires Seeable(k, ms)
  {
    if ms == [] then []
    else [Narrowed(k, ms[0])] + (if Ends(k, ms[0]) then [] else Seen(k, ms[1..]))
  }

  function Narrowed(k: Scanner, m: Cmsg): Cmsg {
    if DataNeeded(k, m.level, m.typ) == 0 then m.(data := []) else m
  }

  lemma {:induction false} SeenHasSameFirst(ms: seq<Cmsg>)
    requires Seeable(FirstTime, ms)
    ensures Seeable(FirstTime, Seen(FirstTime, ms)) && FirstTimestamp(Seen(FirstTime, ms)) == FirstTimestamp(ms)
  {
    if ms != [] {
      var seen := Seen(FirstTime, ms);
      if !Ends(FirstTime, ms[0]) {
        SeenHasSameFirst(ms[1..]);
        assert seen[1..] == Seen(FirstTime, ms[1..]);
      }
    }
  }

  /**
   * The parser's messages, when they fill the buffer and have the data that a scan takes apart, are the ones the scan
   * walks over.
   */
  lemma {:induction false} ParsedAreMessages(k: Scanner, b: seq<byte>, boob: nat, i: nat)
    requires boob <= |b|
    requires var p := Parse(b, boob, i); p.Parsed? && boob <= p.end && Seeable(k, p.messages)
    ensures Walkable(k, b, boob, i) && Messages(k, b, boob, i) == Seen(k, Parse(b, boob, i).messages)
    decreases boob - i
  {
    hide Parse, Walkable, Messages, LenAt, LevelAt, TypeAt, Complete, MessageAt, WholeAt, Align, CmsgSpace, Ends, Opens, Narrowed;
    if i + 16 <= boob {
      ParseStep(b, boob, i);
      var next := i + Align(LenAt(b, i));
      ScanAdvances(LenAt(b, i));
      var p, rest := Parse(b, boob, i), Parse(b, boob, next);
      assert p.messages[0] == WholeAt(b, i) && p.messages[1..] == rest.messages;
      WholeIsSeen(k, b, i);
      if !Ends(k, WholeAt(b, i)) {
        ParsedAreMessages(k, b, boob, next);
      }
      WalkBuild(k, b, boob, i);
    } else {
      ParseEnds(k, b, boob, i);
    }
  }

  lemma ParseStep(b: seq<byte>, boob: nat, i: nat)
    requires boob <= |b| && Parse(b, boob, i).Parsed? && i + 16 <= boob
    ensures 16 <= LenAt(b, i) <= boob - i && 16 <= Align(LenAt(b, i))
    ensures var p, rest := Parse(b, boob, i), Parse(b, boob, i + Align(LenAt(b, i)));
            rest.Parsed? && p.messages == [WholeAt(b, i)] + rest.messages && p.end == rest.end
  {
    hide LenAt, WholeAt;
  }

  lemma ParseEnds(k: Scanner, b: seq<byte>, boob: nat, i: nat)
    requires boob <= |b| && boob < i + 16
    ensures Parse(b, boob, i) == Parsed([], i)
    ensures boob <= i ==> Walkable(k, b, boob, i) && Messages(k, b, boob, i) == Seen(k, [])
  {
  }

  lemma WholeIsSeen(k: Scanner, b: seq<byte>, i: nat)
    requires i + 16 <= |b| && 16 <= LenAt(b, i) <= |b| - i && Complete(k, WholeAt(b, i))
    ensures Opens(k, b, i) && MessageAt(k, b, i) == Narrowed(k, WholeAt(b, i)) && Complete(k, MessageAt(k, b, i))
    ensures Ends(k, MessageAt(k, b, i)) <==> Ends(k, WholeAt(b, i))
  {
    hide LenAt, LevelAt, TypeAt;
  }

  lemma WalkBuild(k: Scanner, b: seq<byte>, boob: nat, i: nat)
    requires i < boob && i + 16 <= |b| && 16 <= LenAt(b, i) && Opens(k, b, i)
    requires Ends(k, MessageAt(k, b, i)) || Walkable(k, b, boob, i + CmsgSpace(LenAt(b, i) - SIZEOF_CMSGHDR))
    ensures Walkable(k, b, boob, i)
    ensures Messages(k, b, boob, i) ==
            [MessageAt(k, b, i)] +
            (if Ends(k, MessageAt(k, b, i)) then [] else Messages(k, b, boob, i + CmsgSpace(LenAt(b, i) - SIZEOF_CMSGHDR)))
  {
    hide LenAt, LevelAt, TypeAt;
  }

  /** The optimised scan refines the general parser: same first timestamp, whatever else is in the buffer. */
  method FirstTimestampOfParse(b: seq<byte>, boob: nat) returns (t: Option<int>)
    requires boob <= |b|
    requires var p := Parse(b, boob, 0); p.Parsed? && boob <= p.end && Seeable(FirstTime, p.messages)
    ensures t == FirstTimestamp(Parse(b, boob, 0).messages)
  {
    ParsedAreMessages(FirstTime, b, boob, 0);
    SeenHasSameFirst(Parse(b, boob, 0).messages);
    t := SocketControlMessageTimestamp(b, boob);
  }

  // ------------------------------------------------ whole buffers, by octets

  lemma HoldsInside(b: seq<byte>, lo: nat, hi: nat, off: nat, v: int)
    requires lo <= hi <= |b|
    ensures lo + off + 8 <= hi && Holds64(b, lo + off, v) ==> Holds64(b[lo..hi], off, v)
    ensures lo + off + 4 <= hi && Holds32(b, lo + off, v) ==> Holds32(b[lo..hi], off, v)
  {
    var d := b[lo..hi];
    assert forall k | 0 <= k < hi - lo :: d[k] == b[lo + k];
  }

  /** The 16 octets of a header: length, level and type. */
  lemma HeaderAt(b: seq<byte>, i: nat, length: int, level: int, typ: int)
    requires Holds64(b, i, length) && Holds32(b, i + 8, level) && Holds32(b, i + 12, typ)
    requires 0 <= level < 0x8000_0000 && 0 <= typ < 0x8000_0000
    ensures LenAt(b, i) == length && LevelAt(b, i) == level && TypeAt(b, i) == typ
  {
    hide Int64At, Int32At, Uint32At, Holds64, Holds32;
    assert i + 16 <= |b| by {
      HoldsSize(b, i + 12, typ);
    }
    Int64Octets(b, i, length);
    Uint32Octets(b, i + 8, level);
    Uint32Octets(b, i + 12, typ);
  }

  lemma HoldsSize(b: seq<byte>, off: nat, v: int)
    requires Holds32(b, off, v)
    ensures off + 4 <= |b|
  {
  }

  /** A timestamp message of 64 octets at i, with hardware time sec and nsec. */
  predicate TimestampMessage(b: seq<byte>, i: nat, typ: int, sec: int, nsec: int) {
    && i + 64 <= |b| && Holds64(b, i, 64) && Holds32(b, i + 8, 1) && Holds32(b, i + 12, typ)
    && Holds64(b, i + 48, sec) && Holds64(b, i + 56, nsec)
    && (sec * 1_000_000_000 + nsec) % 0x1_0000_0000_0000_0000 != 0
  }

  lemma TimestampMessageAt(k: Scanner, b: seq<byte>, i: nat, typ: int, sec: int, nsec: int)
    requires TimestampMessage(b, i, typ, sec, nsec) && (typ == 65 || (k.FirstTime? && typ == 37))
    ensures i + 64 <= |b| && LenAt(b, i) == 64 && CmsgSpace(64 - SIZEOF_CMSGHDR) == 64
    ensures Opens(k, b, i) && MessageAt(k, b, i) == Cmsg(1, typ, b[i + 16..i + 64])
    ensures ScmDataToTime(b[i + 16..i + 64]) == Some(sec * 1_000_000_000 + nsec)
  {
    hide LenAt, LevelAt, TypeAt, Holds64, Holds32, ScmDataToTime;
    HeaderAt(b, i, 64, 1, typ);
    var d := b[i + 16..i + 64];
    HoldsInside(b, i + 16, i + 64, 32, sec);
    HoldsInside(b, i + 16, i + 64, 40, nsec);
    HardwareTime(d, sec, nsec);
  }

  lemma HardwareTime(d: seq<byte>, sec: int, nsec: int)
    requires 48 <= |d| && Holds64(d, 32, sec) && Holds64(d, 40, nsec)
    requires (sec * 1_000_000_000 + nsec) % 0x1_0000_0000_0000_0000 != 0
    ensures ScmDataToTime(d) == Some(sec * 1_000_000_000 + nsec)
  {
    hide Int64At, Holds64, Wrap64;
    Int64Octets(d, 32, sec);
    Int64Octets(d, 40, nsec);
    ZeroIn64Bits(sec * 1_000_000_000 + nsec);
  }

  /** The scan for a time, on a buffer that starts with a timestamp message of either kind: its hardware time. */
  method FirstTimeFromOctets(b: seq<byte>, boob: nat, typ: int, sec: int, nsec: int) returns (t: Option<int>)
    requires 0 < boob && TimestampMessage(b, 0, typ, sec, nsec) && (typ == 65 || typ == 37)
    ensures t == Some(sec * 1_000_000_000 + nsec)
  {
    hide TimestampMessage, ScmDataToTime, LenAt, LevelAt, TypeAt, MessageAt, Opens;
    TimestampMessageAt(FirstTime, b, 0, typ, sec, nsec);
    t := SocketControlMessageTimestamp(b, boob);
  }

  /**
   * The scan for an ID, on a buffer with a timestamp message and an IPv4 error message behind it: the hardware time,
   * exactly for the ID in the error message.
   */
  method TaggedTimeFromOctets(b: seq<byte>, sec: int, nsec: int, id: u32, seqId: u32) returns (t: Option<int>)
    requires 96 <= |b| && TimestampMessage(b, 0, 65, sec, nsec) && sec * 1_000_000_000 + nsec != -62_135_596_800_000_000_000
    requires Holds64(b, 64, 32) && Holds32(b, 72, 0) && Holds32(b, 76, 11) && Holds32(b, 80, 42) && Holds32(b, 92, id)
    ensures t == if seqId == id then Some(sec * 1_000_000_000 + nsec) else None
  {
    hide TimestampMessage, ScmDataToTime, ScmDataToSeqId, LenAt, LevelAt, TypeAt, MessageAt, Opens, Holds64, Holds32, AllComplete,
      AllSound, LastTimestamp, LastSeqId, Walkable, Messages, Complete;
    TwoMessages(b, sec, nsec, id);
    t := SocketControlMessageSeqIdTimestamp(b, 96, seqId);
  }

  lemma ErrorMessageAt(b: seq<byte>, id: u32)
    requires 96 <= |b|
    requires Holds64(b, 64, 32) && Holds32(b, 72, 0) && Holds32(b, 76, 11) && Holds32(b, 80, 42) && Holds32(b, 92, id)
    ensures LenAt(b, 64) == 32 && CmsgSpace(32 - SIZEOF_CMSGHDR) == 32
    ensures Opens(LastTagged, b, 64) && MessageAt(LastTagged, b, 64) == Cmsg(0, 11, b[80..96])
    ensures ScmDataToSeqId(b[80..96]) == Some(id)
  {
    hide LenAt, LevelAt, TypeAt, Holds64, Holds32, ScmDataToSeqId;
    HeaderAt(b, 64, 32, 0, 11);
    HoldsInside(b, 80, 96, 0, 42);
    HoldsInside(b, 80, 96, 12, id);
    SeqIdFromOctets(b[80..96], 42, id);
  }

  lemma TwoMessages(b: seq<byte>, sec: int, nsec: int, id: u32)
    requires 96 <= |b| && TimestampMessage(b, 0, 65, sec, nsec)
    requires Holds64(b, 64, 32) && Holds32(b, 72, 0) && Holds32(b, 76, 11) && Holds32(b, 80, 42) && Holds32(b, 92, id)
    ensures Walkable(LastTagged, b, 96, 0)
    ensures var ms := Messages(LastTagged, b, 96, 0);
            && AllComplete(ms) && AllSound(ms) && LastTimestamp(ms) == sec * 1_000_000_000 + nsec && LastSeqId(ms) == id
  {
    hide TimestampMessage, ScmDataToTime, ScmDataToSeqId, LenAt, LevelAt, TypeAt, MessageAt, Opens, Holds64, Holds32, Walkable,
      Messages, AllComplete, AllSound, Complete, Ends, CmsgSpace, LastTimestamp, LastSeqId;
    TimestampMessageAt(LastTagged, b, 0, 65, sec, nsec);
    ErrorMessageAt(b, id);
    var m, e := Cmsg(1, 65, b[0 + 16..0 + 64]), Cmsg(0, 11, b[80..96]);
    LastsOfTwo(m, e);
    WalkFrom(b, 96, 96);
    WalkOn(b, 96, 64);
    WalkOn(b, 96, 0);
    assert [m] + ([e] + []) == [m, e];
  }

  /** A timestamp message and an error message behind it, both sound. */
  lemma LastsOfTwo(m: Cmsg, e: Cmsg)
    requires m.level == 1 && m.typ == 65 && 48 <= |m.data| && ScmDataToTime(m.data).Some?
    requires e.level == 0 && e.typ == 11 && 16 <= |e.data| && ScmDataToSeqId(e.data).Some?
    ensures Complete(LastTagged, m) && !Ends(LastTagged, m) && Complete(LastTagged, e) && !Ends(LastTagged, e)
    ensures AllComplete([m, e]) && AllSound([m, e])
    ensures LastTimestamp([m, e]) == ScmDataToTime(m.data).value && LastSeqId([m, e]) == ScmDataToSeqId(e.data).value
  {
    hide ScmDataToTime, ScmDataToSeqId, LastTimestamp, LastSeqId;
    LastTimestampIs([m, e], 0);
    LastSeqIdIs([m, e], 1);
  }

  lemma WalkFrom(b: seq<byte>, boob: nat, i: nat)
    requires boob <= i
    ensures Walkable(LastTagged, b, boob, i) && Messages(LastTagged, b, boob, i) == []
  {
  }

  lemma WalkOn(b: seq<byte>, boob: nat, i: nat)
    requires i < boob && i + 16 <= |b| && LenAt(b, i) != 0 && Opens(LastTagged, b, i)
    requires Complete(LastTagged, MessageAt(LastTagged, b, i)) && !Ends(LastTagged, MessageAt(LastTagged, b, i))
    requires 0 <= i + CmsgSpace(LenAt(b, i) - SIZEOF_CMSGHDR) && Walkable(LastTagged, b, boob, i + CmsgSpace(LenAt(b, i) - SIZEOF_CMSGHDR))
    ensures Walkable(LastTagged, b, boob, i)
    ensures Messages(LastTagged, b, boob, i) ==
            [MessageAt(LastTagged, b, i)] + Messages(LastTagged, b, boob, i + CmsgSpace(LenAt(b, i) - SIZEOF_CMSGHDR))
  {
    hide LenAt, LevelAt, TypeAt, MessageAt, Opens;
  }
}
