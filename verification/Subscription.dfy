/** One subscription: server/subscription.go. */
module Subscription {
  import opened Wire
  import opened Types
  import opened Tlvs
  import opened Packets

  /** Times and durations are in nanoseconds. */
  type Time = int

  const PORT_EVENT: u16 := 319
  const PORT_GENERAL: u16 := 320

  /** The settings the server works by; durations of log intervals and the client hash are fixed unknown functions. */
  datatype Config = Config(
    domainNumber: byte,
    clockIdentity: u64,
    minSubInterval: Time,
    maxSubDuration: Time,
    utcOffset: Time,
    utcOffsetSeconds: i16,
    clockClass: byte,
    clockAccuracy: byte,
    hardwareTimestamps: bool)

  datatype Sockaddr = Sockaddr(ip: seq<byte>, port: u16)

  type SyncPacket = p: Packet | p.SyncDelayReq? witness SyncDelayReq(NO_HEADER, EMPTY_TIMESTAMP, [])
  type FollowUpPacket = p: Packet | p.FollowUp? witness FollowUp(NO_HEADER, EMPTY_TIMESTAMP)
  type AnnouncePacket = p: Packet | p.Announce? witness Announce(NO_HEADER, NO_ANNOUNCE, [])
  type DelayRespPacket = p: Packet | p.DelayResp? witness DelayResp(NO_HEADER, EMPTY_TIMESTAMP, PortIdentity(0, 0))
  type SignalingPacket = p: Packet | p.Signaling? witness Signaling(NO_HEADER, PortIdentity(0, 0), [])

  const NO_HEADER := Header(0, 0, 0, 0, 0, 0, 0, 0, PortIdentity(0, 0), 0, 0, 0)
  const NO_ANNOUNCE := AnnounceBody(EMPTY_TIMESTAMP, 0, 0, 0, 0, 0, 0, 0, 0, 0, 0)

  /**
   * The fields of a SubscriptionClient. `client` and `worker` are bookkeeping: the client it was made for and the
   * worker whose two queues it holds. `stop` says that the one-slot stop channel is full, `waiting` that a Stop is
   * blocked on it, which then holds the lock of the subscription.
   */
  datatype Sub = Sub(
    client: PortIdentity,
    worker: nat,
    typ: byte,
    interval: Time,
    expire: Time,
    sequenceId: u16,
    running: bool,
    stop: bool,
    waiting: bool,
    runningInterval: Time,
    eclisa: Sockaddr,
    gclisa: Sockaddr,
    syncP: SyncPacket,
    followupP: FollowUpPacket,
    announceP: AnnouncePacket,
    delayRespP: DelayRespPacket,
    signaling: SignalingPacket)

  // ------------------------------------------------------------ construction

  function NewHeader(cfg: Config, msgType: byte, length: u16, flags: u16, control: byte, logInterval: i8): Header {
    Header(msgType, VERSION, length, cfg.domainNumber, 0, flags, 0, 0, PortIdentity(cfg.clockIdentity, 1), 0, control, logInterval)
  }

  function InitSync(cfg: Config): SyncPacket {
    SyncDelayReq(NewHeader(cfg, MESSAGE_SYNC, 44, FLAG_UNICAST + FLAG_TWO_STEP, 0, 0x7f), EMPTY_TIMESTAMP, [])
  }

  function InitFollowup(cfg: Config, now: Time): FollowUpPacket {
    FollowUp(NewHeader(cfg, MESSAGE_FOLLOW_UP, 44, FLAG_UNICAST, 2, 0), NewTimestamp(now))
  }

  function InitAnnounce(cfg: Config): AnnouncePacket {
    Announce(NewHeader(cfg, MESSAGE_ANNOUNCE, 64, FLAG_UNICAST + FLAG_PTP_TIMESCALE, 5, 0),
             AnnounceBody(EMPTY_TIMESTAMP, 0, 0, 128, 0, 0, 23008, 128, cfg.clockIdentity, 0, TIME_SOURCE_GNSS), [])
  }

  function InitDelayResp(cfg: Config): DelayRespPacket {
    DelayResp(NewHeader(cfg, MESSAGE_DELAY_RESP, 54, FLAG_UNICAST, 3, 0x7f), EMPTY_TIMESTAMP, PortIdentity(0, 0))
  }

  /** The type nibble and the domain stay zero until a grant fills them in. */
  function InitSignaling(cfg: Config): SignalingPacket {
    Signaling(NewHeader(cfg, 0, 56, FLAG_UNICAST, 0, 0).(domainNumber := 0), PortIdentity(0, 0), [])
  }

  function NewSub(cfg: Config, client: PortIdentity, worker: nat, eclisa: Sockaddr, gclisa: Sockaddr, typ: byte,
                  interval: Time, expire: Time, now: Time): Sub
  {
    Sub(client, worker, typ, interval, expire, 0, false, false, false, 0, eclisa, gclisa,
        InitSync(cfg), InitFollowup(cfg, now), InitAnnounce(cfg), InitDelayResp(cfg), InitSignaling(cfg))
  }

  // ------------------------------------------------------------------ updates

  function UpdateSync(s: Sub): Sub {
    s.(syncP := SyncDelayReq(s.syncP.header.(sequenceId := s.sequenceId), s.syncP.originTimestamp, s.syncP.tlvs))
  }

  function UpdateSyncDelayReq(s: Sub, received: Time, seqId: u16): Sub {
    s.(syncP := SyncDelayReq(s.syncP.header.(sequenceId := seqId), NewTimestamp(received), s.syncP.tlvs))
  }

  /** logInterval stands for NewLogInterval(sc.interval). */
  function UpdateFollowup(s: Sub, hwts: Time, logInterval: i8): Sub {
    s.(followupP := FollowUp(
         s.followupP.header.(sequenceId := s.sequenceId, logMessageInterval := logInterval), NewTimestamp(hwts)))
  }

  function ClockFields(cfg: Config, a: AnnounceBody): AnnounceBody {
    a.(currentUtcOffset := cfg.utcOffsetSeconds, clockClass := cfg.clockClass, clockAccuracy := cfg.clockAccuracy)
  }

  function UpdateAnnounce(cfg: Config, s: Sub, logInterval: i8): Sub {
    s.(announceP := Announce(
         s.announceP.header.(sequenceId := s.sequenceId, logMessageInterval := logInterval),
         ClockFields(cfg, s.announceP.body), s.announceP.tlvs))
  }

  function UpdateAnnounceDelayReq(cfg: Config, s: Sub, correction: i64, seqId: u16): Sub {
    s.(announceP := Announce(
         s.announceP.header.(sequenceId := seqId, correctionField := correction),
         ClockFields(cfg, s.announceP.body), s.announceP.tlvs))
  }

  function UpdateAnnounceFollowUp(s: Sub, transmitted: Time): Sub {
    s.(announceP := Announce(
         s.announceP.header, s.announceP.body.(originTimestamp := NewTimestamp(transmitted)), s.announceP.tlvs))
  }

  function UpdateDelayResp(s: Sub, h: Header, received: Time): Sub {
    s.(delayRespP := DelayResp(
         s.delayRespP.header.(sequenceId := h.sequenceId, correctionField := h.correctionField),
         NewTimestamp(received), h.sourcePortIdentity))
  }

  function UpdateSignalingGrant(s: Sub, sg: SignalingPacket, mt: byte, interval: i8, duration: u32): Sub {
    var h := s.signaling.header;
    s.(signaling := Signaling(
         h.(messageLength := 56,
            sdoIdAndMsgType := sg.header.sdoIdAndMsgType,
            domainNumber := sg.header.domainNumber,
            minorSdoId := sg.header.minorSdoId,
            correctionField := sg.header.correctionField,
            messageTypeSpecific := sg.header.messageTypeSpecific,
            sequenceId := sg.header.sequenceId,
            controlField := sg.header.controlField,
            logMessageInterval := sg.header.logMessageInterval),
         sg.header.sourcePortIdentity,
         [GrantUnicast(TlvHead(TLV_GRANT_UNICAST, 8), mt, interval, duration, 0, 1)]))
  }

  function UpdateSignalingCancel(s: Sub): Sub {
    s.(signaling := Signaling(
         s.signaling.header.(messageLength := 50),
         s.signaling.targetPortIdentity,
         [CancelUnicast(TlvHead(TLV_CANCEL_UNICAST, 2), NewUnicastMsgTypeAndFlags(s.typ, 0), 0)]))
  }

  function IncSequenceId(s: Sub): Sub {
    s.(sequenceId := (s.sequenceId + 1) % 0x1_0000)
  }

  // ------------------------------------------------------- what is signaled

  /** A packet as BytesTo writes it. */
  function Datagram(p: Packet): seq<byte>
    requires AllEncodable(TlvsOf(p))
  {
    Encode(p) + [0, 0]
  }

  /** The signaling packet answers the client of this subscription, about its own type, with a right length. */
  predicate SignalingReady(s: Sub) {
    && MsgType(s.signaling.header.sdoIdAndMsgType) == MESSAGE_SIGNALING
    && s.signaling.targetPortIdentity == s.client
    && |s.signaling.tlvs| == 1
    && (var t := s.signaling.tlvs[0];
        && HeadMatches(t)
        && ((t.GrantUnicast? && UnicastMsgType(t.msgTypeAndReserved) == s.typ)
            || (t.CancelUnicast? && UnicastMsgType(t.msgTypeAndFlags) == s.typ))
        && s.signaling.header.messageLength == HEADER_SIZE + 10 + |EncodeTlv(t)|)
  }

  lemma GrantIsReady(s: Sub, sg: SignalingPacket, mt: byte, interval: i8, duration: u32)
    requires MsgType(sg.header.sdoIdAndMsgType) == MESSAGE_SIGNALING
    requires sg.header.sourcePortIdentity == s.client && UnicastMsgType(mt) == s.typ
    ensures SignalingReady(UpdateSignalingGrant(s, sg, mt, interval, duration))
  {
  }

  lemma CancelIsReady(s: Sub)
    requires SignalingReady(s) && s.typ < 16
    ensures SignalingReady(UpdateSignalingCancel(s))
  {
  }

  /** Whatever is signaled can be read by the client: the datagram decodes to the very packet. */
  lemma ReadySignalingDecodes(s: Sub)
    requires SignalingReady(s)
    ensures AllEncodable(s.signaling.tlvs) && Decode(Datagram(s.signaling)) == Success(s.signaling)
  {
    hide HeadMatches, EncodeTlv;
    var p, t := s.signaling, s.signaling.tlvs[0];
    assert p.tlvs == [t] && HeadsMatch([t]);
    assert EncodeTlvs([t]) == EncodeTlv(t) + EncodeTlvs([]);
    assert ChainSurvives([t], 2) by {
      NothingSurvives(2);
    }
    PacketRoundTrip(p, [0, 0]);
  }

  /** A packet that a client can read back from the datagram it comes in. */
  ghost predicate Decodable(p: Packet) {
    AllEncodable(TlvsOf(p)) && Decode(Datagram(p)) == Success(p)
  }

  predicate Framed(h: Header, msgType: byte, length: u16) {
    h.sdoIdAndMsgType == msgType && h.messageLength == length
  }

  /**
   * The packets of a subscription have the type and the length they are marshalled to, and go into the 128-octet
   * buffer of a worker.
   */
  predicate PacketsFit(s: Sub) {
    && s.syncP.tlvs == [] && s.announceP.tlvs == []
    && Framed(s.syncP.header, MESSAGE_SYNC, 44) && Framed(s.followupP.header, MESSAGE_FOLLOW_UP, 44)
    && Framed(s.announceP.header, MESSAGE_ANNOUNCE, 64) && Framed(s.delayRespP.header, MESSAGE_DELAY_RESP, 54)
    && (s.signaling.tlvs == [] || (|s.signaling.tlvs| == 1 && FixedSize(s.signaling.tlvs[0])))
  }

  /** What stays of the packets of a subscription and of where its Syncs go, whatever is updated in them. */
  datatype Stamps = Stamps(sync: Header, followup: Header, announce: Header, delayResp: Header, body: AnnounceBody,
                           signaling: (byte, u16, PortIdentity), eclisa: Option<Sockaddr>)

  /** Headers but for sequence IDs, corrections and the intervals of Follow_Up and Announce; an sptp client can move. */
  function StampsOf(s: Sub): Stamps {
    Stamps(s.syncP.header.(sequenceId := 0),
           s.followupP.header.(sequenceId := 0, logMessageInterval := 0),
           s.announceP.header.(sequenceId := 0, correctionField := 0, logMessageInterval := 0),
           s.delayRespP.header.(sequenceId := 0, correctionField := 0),
           s.announceP.body.(originTimestamp := EMPTY_TIMESTAMP, currentUtcOffset := 0, clockClass := 0, clockAccuracy := 0),
           (s.signaling.header.version, s.signaling.header.flagField, s.signaling.header.sourcePortIdentity),
           if s.typ == MESSAGE_DELAY_REQ then None else Some(s.eclisa))
  }

  /** The packets sent by jobs keep their stamps and TLVs. */
  predicate SameFrames(a: Sub, b: Sub) {
    b.syncP.tlvs == a.syncP.tlvs && b.announceP.tlvs == a.announceP.tlvs && StampsOf(b) == StampsOf(a)
  }

  lemma SameFramesFit(a: Sub, b: Sub)
    requires SameFrames(a, b) && b.signaling == a.signaling && PacketsFit(a)
    ensures PacketsFit(b)
  {
  }

  /** A packet without TLVs, of right type and length, is read back. */
  lemma PlainPacketDecodes(p: Packet)
    requires TlvsOf(p) == [] && !p.Signaling? && TypeMatches(p)
    requires p.header.messageLength == HEADER_SIZE + BodyLength(p)
    ensures Decodable(p)
  {
    hide Encode, Decode;
    EncodeLength(p);
    NothingSurvives(2);
    PacketRoundTrip(p, [0, 0]);
  }

  /** Whatever a job may send of a subscription is read back. */
  lemma FittingPacketsDecode(s: Sub)
    requires PacketsFit(s)
    ensures Decodable(s.syncP) && Decodable(s.followupP) && Decodable(s.announceP) && Decodable(s.delayRespP)
  {
    hide Decodable;
    PlainPacketDecodes(s.syncP);
    PlainPacketDecodes(s.followupP);
    PlainPacketDecodes(s.announceP);
    PlainPacketDecodes(s.delayRespP);
  }

  // -------------------------------------------------------- one timer's life

  /** Only these two types are sent by a timer; the others are sent when a delay request comes in. */
  predicate Periodic(typ: byte) {
    typ != MESSAGE_DELAY_RESP && typ != MESSAGE_DELAY_REQ
  }

  predicate Expired(s: Sub, now: Time) {
    now > s.expire
  }

  /** setRunning(true) and the interval of the new ticker. */
  function BeginRun(s: Sub): Sub {
    s.(running := true, runningInterval := s.interval)
  }

  /** A tick that finds the subscription alive takes over a changed interval. */
  function TickRun(s: Sub): Sub {
    s.(runningInterval := s.interval)
  }

  function ClearRunning(s: Sub): Sub {
    s.(running := false)
  }

  /** Stop: expired from now on, and a token for the run if there is one; with the slot full it has to wait. */
  function StopSub(s: Sub, now: Time): Sub {
    s.(expire := now, stop := s.stop || s.running, waiting := s.waiting || (s.running && s.stop))
  }

  /** Receiving the token: a Stop that waits puts its own into the slot at once and goes on. */
  function TakeToken(s: Sub): Sub {
    if s.waiting then s.(waiting := false) else s.(stop := false)
  }

  /** What the loop of Start selects on; Renewed is what a handler does to the subscription in between. */
  datatype LoopEvent =
    | CtxDone
    | StopToken
    | Ticked(now: Time)
    | Renewed(expire: Time, interval: Time)

  /** The loop of Start: the subscription, the messages its timer queued, and whether the run is over. */
  datatype Loop = Loop(sub: Sub, queued: nat, over: bool)

  function LoopStep(l: Loop, e: LoopEvent): Loop {
    if l.over then l
    else
      match e
      case CtxDone => Loop(ClearRunning(l.sub), l.queued, true)
      case StopToken => Loop(ClearRunning(TakeToken(l.sub)), l.queued, true)
      case Ticked(now) =>
        if Expired(l.sub, now) then Loop(ClearRunning(l.sub), l.queued, true)
        else Loop(TickRun(l.sub), if Periodic(l.sub.typ) then l.queued + 1 else l.queued, false)
      case Renewed(expire, interval) => l.(sub := l.sub.(expire := expire, interval := interval))
  }

  function RunLoop(s: Sub, events: seq<LoopEvent>): Loop {
    if events == [] then Loop(BeginRun(s), if Periodic(s.typ) then 1 else 0, false)
    else LoopStep(RunLoop(s, events[..|events| - 1]), events[|events| - 1])
  }

  /** The ticks of a script, counted. */
  function Ticks(events: seq<LoopEvent>): nat {
    if events == [] then 0 else Ticks(events[..|events| - 1]) + (if events[|events| - 1].Ticked? then 1 else 0)
  }

  /** The k-th tick, counting ticks from 1, comes no earlier than k intervals after the ticker was started. */
  predicate TicksOnTime(events: seq<LoopEvent>, started: Time, interval: Time) {
    forall k | 0 <= k < |events| && events[k].Ticked? :: started + (Ticks(events[..k]) + 1) * interval <= events[k].now
  }

  /** No renewal moves the expiry beyond a limit; those that move it back, as a cancel does, are free. */
  predicate NotExtended(events: seq<LoopEvent>, limit: Time) {
    forall k | 0 <= k < |events| && events[k].Renewed? :: events[k].expire <= limit
  }

  /** What a script promises of its last event and of the events before. */
  lemma ScriptBefore(events: seq<LoopEvent>, started: Time, interval: Time, limit: Time)
    requires TicksOnTime(events, started, interval) && NotExtended(events, limit) && events != []
    ensures var before, e := events[..|events| - 1], events[|events| - 1];
            && TicksOnTime(before, started, interval) && NotExtended(before, limit)
            && (e.Ticked? ==> started + (Ticks(before) + 1) * interval <= e.now)
            && (e.Renewed? ==> e.expire <= limit)
  {
    hide Ticks;
    var before := events[..|events| - 1];
    forall k | 0 <= k < |before| && before[k].Ticked?
      ensures started + (Ticks(before[..k]) + 1) * interval <= before[k].now
    {
      assert before[..k] == events[..k];
    }
    assert forall k | 0 <= k < |before| :: before[k] == events[k];
  }

  lemma {:induction false} LoopCounts(s: Sub, events: seq<LoopEvent>, started: Time, interval: Time, limit: Time)
    requires TicksOnTime(events, started, interval) && NotExtended(events, limit) && s.expire <= limit
    ensures var l := RunLoop(s, events);
            && l.sub.typ == s.typ && l.sub.expire <= limit
            && (!Periodic(s.typ) ==> l.queued == 0)
            && (Periodic(s.typ) ==> 1 <= l.queued <= 1 + Ticks(events))
            && (Periodic(s.typ) && !l.over ==> l.queued == 1 + Ticks(events))
            && (1 < l.queued ==> started + (l.queued - 1) * interval <= limit)
  {
    hide TicksOnTime, NotExtended;
    if events != [] {
      var before := events[..|events| - 1];
      ScriptBefore(events, started, interval, limit);
      LoopCounts(s, before, started, interval, limit);
    }
  }

  /**
   * While a run of a Sync or Announce subscription is going, each tick has queued one message and the start another, and
   * the last of them came no later than the limit; the timer of a Delay_Resp or sptp one queues nothing.
   */
  lemma LoopCountsTicks(s: Sub, events: seq<LoopEvent>, started: Time, interval: Time, limit: Time)
    requires TicksOnTime(events, started, interval) && NotExtended(events, limit) && s.expire <= limit
    ensures var queued, over := RunLoop(s, events).queued, RunLoop(s, events).over;
            && (s.typ == 0x9 || s.typ == 0x1 ==> queued == 0)
            && (s.typ == 0x0 || s.typ == 0xB ==> 1 <= queued <= 1 + Ticks(events) && (!over ==> queued == 1 + Ticks(events)))
            && (1 < queued ==> started + (queued - 1) * interval <= limit)
  {
    hide RunLoop, TicksOnTime, NotExtended;
    LoopCounts(s, events, started, interval, limit);
  }

  /** The ticks of a script that a going run finds no later than the expiry it has then. */
  function TicksInTime(s: Sub, events: seq<LoopEvent>): nat {
    if events == [] then 0
    else
      var before, e := events[..|events| - 1], events[|events| - 1];
      TicksInTime(s, before) +
      (if e.Ticked? && !RunLoop(s, before).over && e.now <= RunLoop(s, before).sub.expire then 1 else 0)
  }

  /**
   * Exactly: one message at the start and one at each tick in time for Sync and Announce, none for the others, whatever
   * else is in the script. After the start, and after each such tick, the ticker has the interval of the subscription.
   */
  lemma {:induction false} TimerIsExact(s: Sub, events: seq<LoopEvent>)
    ensures var l := RunLoop(s, events);
            && (s.typ == 0x0 || s.typ == 0xB ==> l.queued == 1 + TicksInTime(s, events))
            && (s.typ == 0x9 || s.typ == 0x1 ==> l.queued == 0)
            && l.sub.typ == s.typ
            && (events == [] ==> l.sub.runningInterval == l.sub.interval)
            && (events != [] && TicksInTime(s, events) > TicksInTime(s, events[..|events| - 1]) ==>
                  !l.over && l.sub.runningInterval == l.sub.interval)
  {
    if events != [] {
      TimerIsExact(s, events[..|events| - 1]);
    }
  }

  /**
   * A run granted `duration` at time `granted` and started no earlier queues at most 1 + duration / interval messages,
   * however it ends and however long it is left running, unless a renewal moves its expiry later; a type that no
   * timer sends queues none at all.
   */
  lemma TimerMessagesAreBounded(s: Sub, events: seq<LoopEvent>, granted: Time, duration: Time, started: Time)
    requires 0 < s.interval && 0 <= duration && s.expire == granted + duration && granted <= started
    requires TicksOnTime(events, started, s.interval) && NotExtended(events, s.expire)
    ensures RunLoop(s, events).queued <= 1 + duration / s.interval
    ensures s.typ == 0x9 || s.typ == 0x1 ==> RunLoop(s, events).queued == 0
  {
    LoopCounts(s, events, started, s.interval, s.expire);
    MessagesFit(RunLoop(s, events).queued, granted, duration, started, s.interval);
  }

  /** If the last of n messages came on time and no later than the expiry, there are no more than fit. */
  lemma MessagesFit(n: nat, granted: Time, duration: Time, started: Time, interval: Time)
    requires 0 < interval && 0 <= duration && granted <= started
    requires 1 < n ==> started + (n - 1) * interval <= granted + duration
    ensures n <= 1 + duration / interval
  {
    if 1 < n {
      QuotientAtLeast(n - 1, interval, duration);
    }
  }

  lemma MultiplyBothSides(a: int, b: int, d: int)
    requires a <= b && 0 < d
    ensures a * d <= b * d
  {
  }

  lemma QuotientAtLeast(n: nat, d: int, total: int)
    requires 0 < d && n * d <= total
    ensures n <= total / d
  {
    var q, r := total / d, total % d;
    assert total == q * d + r && r < d;
    if q < n {
      MultiplyBothSides(q + 1, n, d);
    }
  }

  /** No message is queued by a tick that comes after the expiry the subscription has at that moment. */
  lemma NothingAfterExpiry(s: Sub, events: seq<LoopEvent>, now: Time)
    requires Expired(RunLoop(s, events).sub, now)
    ensures RunLoop(s, events + [Ticked(now)]).queued == RunLoop(s, events).queued
    ensures RunLoop(s, events + [Ticked(now)]).over
  {
    assert (events + [Ticked(now)])[..|events|] == events;
  }

  /** A run that is over has cleared the running flag, and nothing later in its script sets it again. */
  lemma {:induction false} OverMeansCleared(s: Sub, events: seq<LoopEvent>)
    ensures RunLoop(s, events).over ==> !RunLoop(s, events).sub.running
    ensures !RunLoop(s, events).over ==> RunLoop(s, events).sub.running
  {
    if events != [] {
      OverMeansCleared(s, events[..|events| - 1]);
    }
  }
}
