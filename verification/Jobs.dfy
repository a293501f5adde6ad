/** What a send worker does with one job, and what its registry holds: server/worker.go on values. */
module Jobs {
  import opened Wire
  import opened Types
  import opened Tlvs
  import opened Packets
  import opened Subscription

  /** A datagram handed to the event or the general socket. */
  datatype Message = Message(event: bool, packet: Packet, to: Sockaddr)

  datatype SendResult = SendOk | SendInvalid | SendFailed

  /**
   * How the kernel treats one job: the first send, the transmit timestamp and the attempts it took, the second send.
   * logInterval stands for NewLogInterval of the subscription's interval.
   */
  datatype Outcome = Outcome(first: SendResult, txTs: Option<Time>, attempts: nat, second: bool, logInterval: i8)

  datatype JobResult = JobResult(sub: Sub, olderKernel: bool, sent: seq<Message>)

  /** Sending a Sync and waiting for its timestamp; EINVAL makes the worker fall back for good. */
  datatype SyncResult = SyncResult(olderKernel: bool, sent: seq<Message>, txTs: Option<Time>)

  function SendSync(cfg: Config, olderKernel: bool, s: Sub, o: Outcome): SyncResult {
    if !olderKernel && o.first == SendInvalid then SyncResult(true, [], None)
    else if o.first != SendOk then SyncResult(olderKernel, [], None)
    else
      var sync := [Message(true, s.syncP, s.eclisa)];
      if o.txTs.None? then SyncResult(olderKernel, sync, None)
      else SyncResult(olderKernel, sync,
                      Some(if olderKernel && !cfg.hardwareTimestamps then o.txTs.value + cfg.utcOffset else o.txTs.value))
  }

  function SyncStep(cfg: Config, olderKernel: bool, s: Sub, o: Outcome): JobResult {
    var s1 := UpdateSync(s);
    var sync := SendSync(cfg, olderKernel, s1, o);
    if sync.txTs.None? then JobResult(s1, sync.olderKernel, sync.sent)
    else
      var s2 := UpdateFollowup(s1, sync.txTs.value, o.logInterval);
      if !o.second then JobResult(s2, sync.olderKernel, sync.sent)
      else JobResult(IncSequenceId(s2), sync.olderKernel, sync.sent + [Message(false, s2.followupP, s2.gclisa)])
  }

  function AnnounceStep(cfg: Config, olderKernel: bool, s: Sub, o: Outcome): JobResult {
    var s1 := UpdateAnnounce(cfg, s, o.logInterval);
    if !o.second then JobResult(s1, olderKernel, [])
    else JobResult(IncSequenceId(s1), olderKernel, [Message(false, s1.announceP, s1.gclisa)])
  }

  function DelayRespStep(olderKernel: bool, s: Sub, o: Outcome): JobResult {
    if !o.second then JobResult(s, olderKernel, [])
    else JobResult(IncSequenceId(s), olderKernel, [Message(false, s.delayRespP, s.gclisa)])
  }

  function DelayReqStep(cfg: Config, olderKernel: bool, s: Sub, o: Outcome): JobResult {
    var sync := SendSync(cfg, olderKernel, s, o);
    if sync.txTs.None? then JobResult(s, sync.olderKernel, sync.sent)
    else
      var s2 := UpdateAnnounceFollowUp(s, sync.txTs.value);
      if !o.second then JobResult(s2, sync.olderKernel, sync.sent)
      else JobResult(IncSequenceId(s2), sync.olderKernel, sync.sent + [Message(false, s2.announceP, s2.gclisa)])
  }

  /** A job from the queue, by the type of its subscription. */
  function JobStep(cfg: Config, olderKernel: bool, s: Sub, o: Outcome): JobResult {
    if s.typ == MESSAGE_SYNC then SyncStep(cfg, olderKernel, s, o)
    else if s.typ == MESSAGE_ANNOUNCE then AnnounceStep(cfg, olderKernel, s, o)
    else if s.typ == MESSAGE_DELAY_RESP then DelayRespStep(olderKernel, s, o)
    else if s.typ == MESSAGE_DELAY_REQ then DelayReqStep(cfg, olderKernel, s, o)
    else JobResult(s, olderKernel, [])
  }

  /** A signaling job changes nothing; what it sends is read from the subscription now, not when it was queued. */
  function SignalingSent(s: Sub, ok: bool): seq<Message> {
    if s.signaling.tlvs == [] || !ok then [] else [Message(false, s.signaling, s.gclisa)]
  }

  // ----------------------------------------- two-step rounds of a Sync subscription

  function Completed(ms: seq<Message>): nat {
    if ms == [] then 0
    else Completed(ms[..|ms| - 1]) + (if ms[|ms| - 1].packet.FollowUp? then 1 else 0)
  }

  function Syncs(ms: seq<Message>): nat {
    if ms == [] then 0
    else Syncs(ms[..|ms| - 1]) + (if ms[|ms| - 1].packet.SyncDelayReq? then 1 else 0)
  }

  /**
   * Everything sent for a Sync subscription: Syncs and Follow_Ups, each carrying the number of rounds completed
   * before it, modulo 2^16, and each Follow_Up right behind the Sync it belongs to (section 7.3.7).
   */
  predicate TwoStep(ms: seq<Message>) {
    forall i | 0 <= i < |ms| :: TwoStepAt(ms, i)
  }

  predicate TwoStepAt(ms: seq<Message>, i: nat)
    requires i < |ms|
  {
    && (ms[i].packet.SyncDelayReq? || ms[i].packet.FollowUp?)
    && ms[i].packet.header.sequenceId == Completed(ms[..i]) % 0x1_0000
    && (ms[i].packet.FollowUp? ==>
          && 0 < i && ms[i - 1].packet.SyncDelayReq?
          && ms[i - 1].packet.header.sequenceId == ms[i].packet.header.sequenceId)
  }

  lemma TwoStepAtPrefix(ms: seq<Message>, more: seq<Message>, i: nat)
    requires i < |ms|
    ensures TwoStepAt(ms + more, i) <==> TwoStepAt(ms, i)
  {
    assert (ms + more)[..i] == ms[..i];
  }

  lemma TwoStepSnoc(ms: seq<Message>, m: Message)
    requires TwoStep(ms) && (m.packet.SyncDelayReq? || m.packet.FollowUp?)
    requires m.packet.header.sequenceId == Completed(ms) % 0x1_0000
    requires m.packet.FollowUp? ==>
               && ms != [] && ms[|ms| - 1].packet.SyncDelayReq?
               && ms[|ms| - 1].packet.header.sequenceId == m.packet.header.sequenceId
    ensures TwoStep(ms + [m])
    ensures Completed(ms + [m]) == Completed(ms) + (if m.packet.FollowUp? then 1 else 0)
  {
    var all := ms + [m];
    assert all[..|ms|] == ms;
    forall i | 0 <= i < |all| ensures TwoStepAt(all, i) {
      if i < |ms| {
        hide TwoStepAt;
        TwoStepAtPrefix(ms, [m], i);
      }
    }
  }

  /** The transmit time as it is announced: kernels without the ID option give software time in another scale. */
  function AnnouncedTime(cfg: Config, olderKernel: bool, txTs: Time): Time {
    if olderKernel && !cfg.hardwareTimestamps then txTs + cfg.utcOffset else txTs
  }

  /**
   * What one job of a Sync subscription sends, whatever the kernel does: a Sync to the event address if the first send
   * works, then a Follow_Up with the Sync's transmit time to the general one if there is such a time and the second
   * send works too. Both carry the current ID, which moves on only after both.
   */
  lemma SyncJob(cfg: Config, olderKernel: bool, s: Sub, o: Outcome)
    requires s.typ == MESSAGE_SYNC
    ensures var r := JobStep(cfg, olderKernel, s, o);
            && |r.sent| == (if o.first != SendOk then 0 else if o.txTs.None? || !o.second then 1 else 2)
            && (1 <= |r.sent| ==>
                  && r.sent[0].packet == SyncDelayReq(s.syncP.header.(sequenceId := s.sequenceId), s.syncP.originTimestamp, s.syncP.tlvs)
                  && r.sent[0].event && r.sent[0].to == s.eclisa)
            && (|r.sent| == 2 ==>
                  && r.sent[1].packet.FollowUp? && !r.sent[1].event && r.sent[1].to == s.gclisa
                  && r.sent[1].packet.header ==
                     s.followupP.header.(sequenceId := s.sequenceId, logMessageInterval := o.logInterval)
                  && r.sent[1].packet.preciseOriginTimestamp ==
                     NewTimestamp(if olderKernel && !cfg.hardwareTimestamps then o.txTs.value + cfg.utcOffset else o.txTs.value))
            && r.sub.sequenceId == (if |r.sent| == 2 then (s.sequenceId + 1) % 0x1_0000 else s.sequenceId)
            && (r.olderKernel <==> olderKernel || o.first == SendInvalid)
  {
    hide NewTimestamp;
  }

  /** An Announce carries the ID, the interval and the clock as configured now; the ID moves on only if it was sent. */
  lemma AnnounceJob(cfg: Config, olderKernel: bool, s: Sub, o: Outcome)
    requires s.typ == MESSAGE_ANNOUNCE
    ensures var r := JobStep(cfg, olderKernel, s, o);
            && |r.sent| == (if o.second then 1 else 0)
            && r.sub.sequenceId == (s.sequenceId + |r.sent|) % 0x1_0000
            && (|r.sent| == 1 ==>
                  && r.sent[0].packet.Announce? && !r.sent[0].event && r.sent[0].to == s.gclisa
                  && r.sent[0].packet.header ==
                     s.announceP.header.(sequenceId := s.sequenceId, logMessageInterval := o.logInterval)
                  && r.sent[0].packet.body.originTimestamp == s.announceP.body.originTimestamp
                  && AnnouncesClock(cfg, r.sent[0].packet))
  {
  }

  /** A Delay_Resp job sends the packet that the last request filled in, to the general address. */
  lemma DelayRespJob(cfg: Config, olderKernel: bool, s: Sub, o: Outcome)
    requires s.typ == MESSAGE_DELAY_RESP
    ensures var r := JobStep(cfg, olderKernel, s, o);
            && r.sent == (if o.second then [Message(false, s.delayRespP, s.gclisa)] else [])
            && r.sub == s.(sequenceId := (s.sequenceId + |r.sent|) % 0x1_0000) && r.olderKernel == olderKernel
  {
  }

  /**
   * An sptp job sends the Sync as the last exchange filled it in, to the event address, and then the Announce, with the
   * time at which the Sync went out, to the general one.
   */
  lemma DelayReqJob(cfg: Config, olderKernel: bool, s: Sub, o: Outcome)
    requires s.typ == MESSAGE_DELAY_REQ
    ensures var r := JobStep(cfg, olderKernel, s, o);
            && |r.sent| == (if o.first != SendOk then 0 else if o.txTs.None? || !o.second then 1 else 2)
            && (1 <= |r.sent| ==> r.sent[0] == Message(true, s.syncP, s.eclisa))
            && (|r.sent| == 2 ==>
                  && r.sent[1].packet.Announce? && !r.sent[1].event && r.sent[1].to == s.gclisa
                  && r.sent[1].packet.header == s.announceP.header
                  && r.sent[1].packet.body == s.announceP.body.(originTimestamp := r.sent[1].packet.body.originTimestamp)
                  && r.sent[1].packet.body.originTimestamp ==
                     NewTimestamp(if olderKernel && !cfg.hardwareTimestamps then o.txTs.value + cfg.utcOffset else o.txTs.value))
            && (r.olderKernel <==> olderKernel || o.first == SendInvalid)
  {
    hide NewTimestamp;
  }

  predicate AnnouncesClock(cfg: Config, p: Packet) {
    && p.Announce? && p.body.currentUtcOffset == cfg.utcOffsetSeconds
    && p.body.clockClass == cfg.clockClass && p.body.clockAccuracy == cfg.clockAccuracy
  }

  /** A failed round leaves the ID, a completed one moves it on by one, and the pattern of rounds goes on. */
  lemma JobKeepsTwoStep(cfg: Config, olderKernel: bool, s: Sub, o: Outcome, before: seq<Message>)
    requires s.typ == MESSAGE_SYNC && TwoStep(before) && s.sequenceId == Completed(before) % 0x1_0000
    ensures var r := JobStep(cfg, olderKernel, s, o);
            && TwoStep(before + r.sent)
            && r.sub.sequenceId == Completed(before + r.sent) % 0x1_0000
            && Completed(before + r.sent) == Completed(before) + (if |r.sent| == 2 then 1 else 0)
  {
    hide JobStep, TwoStep, Completed, NewTimestamp;
    SyncJob(cfg, olderKernel, s, o);
    var sent := JobStep(cfg, olderKernel, s, o).sent;
    if sent == [] {
      assert before + sent == before;
    } else {
      TwoStepSnoc(before, sent[0]);
      if |sent| == 1 {
        assert sent == [sent[0]];
      } else {
        TwoStepSnoc(before + [sent[0]], sent[1]);
        assert before + sent == before + [sent[0]] + [sent[1]];
      }
    }
  }

  /** Follow_Ups never outnumber Syncs. */
  lemma {:induction false} FollowUpsNeedSyncs(ms: seq<Message>)
    requires TwoStep(ms)
    ensures Completed(ms) <= Syncs(ms)
    ensures ms != [] && ms[|ms| - 1].packet.SyncDelayReq? ==> Completed(ms) < Syncs(ms)
  {
    if ms != [] {
      var before, m := ms[..|ms| - 1], ms[|ms| - 1];
      assert ms == before + [m];
      assert TwoStepAt(ms, |before|);
      forall i | 0 <= i < |before| ensures TwoStepAt(before, i) {
        hide TwoStepAt;
        TwoStepAtPrefix(before, [m], i);
      }
      FollowUpsNeedSyncs(before);
    }
  }

  /** The k-th Follow_Up sent, counting from 0, carries k modulo 2^16. */
  lemma FollowUpNumbers(ms: seq<Message>, i: nat)
    requires TwoStep(ms) && i < |ms| && ms[i].packet.FollowUp?
    ensures ms[i].packet.header.sequenceId == Completed(ms[..i]) % 0x1_0000
    ensures Completed(ms[..i + 1]) == Completed(ms[..i]) + 1
  {
    assert TwoStepAt(ms, i);
    assert ms[..i + 1][..i] == ms[..i];
  }

  // --------------------------------------------------------------- packets fit

  /** t is s but for what a worker writes: the sequence ID and the packets it sends. */
  predicate WorkerMayMake(s: Sub, t: Sub) {
    && t.client == s.client && t.worker == s.worker && t.typ == s.typ
    && t.interval == s.interval && t.expire == s.expire && t.running == s.running && t.stop == s.stop && t.waiting == s.waiting
    && t.runningInterval == s.runningInterval && t.signaling == s.signaling
    && SameFrames(s, t)
  }

  lemma SyncStepKeeps(cfg: Config, olderKernel: bool, s: Sub, o: Outcome)
    ensures WorkerMayMake(s, SyncStep(cfg, olderKernel, s, o).sub)
  {
    hide SendSync;
  }

  lemma DelayReqStepKeeps(cfg: Config, olderKernel: bool, s: Sub, o: Outcome)
    ensures WorkerMayMake(s, DelayReqStep(cfg, olderKernel, s, o).sub)
  {
    hide SendSync;
  }

  lemma AnnounceStepKeeps(cfg: Config, olderKernel: bool, s: Sub, o: Outcome)
    ensures WorkerMayMake(s, AnnounceStep(cfg, olderKernel, s, o).sub)
    ensures WorkerMayMake(s, DelayRespStep(olderKernel, s, o).sub)
  {
  }

  lemma JobKeeps(cfg: Config, olderKernel: bool, s: Sub, o: Outcome)
    ensures WorkerMayMake(s, JobStep(cfg, olderKernel, s, o).sub)
  {
    hide SyncStep, AnnounceStep, DelayRespStep, DelayReqStep;
    SyncStepKeeps(cfg, olderKernel, s, o);
    AnnounceStepKeeps(cfg, olderKernel, s, o);
    DelayReqStepKeeps(cfg, olderKernel, s, o);
  }

  predicate OwnPacket(s: Sub, p: Packet) {
    p == s.syncP || p == s.followupP || p == s.announceP || p == s.delayRespP
  }

  lemma SyncStepSendsOwn(cfg: Config, olderKernel: bool, s: Sub, o: Outcome)
    ensures var r := SyncStep(cfg, olderKernel, s, o); forall m | m in r.sent :: OwnPacket(r.sub, m.packet)
  {
    hide NewTimestamp;
  }

  lemma AnnounceStepSendsOwn(cfg: Config, olderKernel: bool, s: Sub, o: Outcome)
    ensures var r := AnnounceStep(cfg, olderKernel, s, o); forall m | m in r.sent :: OwnPacket(r.sub, m.packet)
    ensures var r := DelayRespStep(olderKernel, s, o); forall m | m in r.sent :: OwnPacket(r.sub, m.packet)
  {
    hide ClockFields;
  }

  lemma DelayReqStepSendsOwn(cfg: Config, olderKernel: bool, s: Sub, o: Outcome)
    ensures var r := DelayReqStep(cfg, olderKernel, s, o); forall m | m in r.sent :: OwnPacket(r.sub, m.packet)
  {
    hide NewTimestamp;
  }

  /** A job sends packets of its own subscription, as it leaves them. */
  lemma JobSendsOwn(cfg: Config, olderKernel: bool, s: Sub, o: Outcome)
    ensures var r := JobStep(cfg, olderKernel, s, o); forall m | m in r.sent :: OwnPacket(r.sub, m.packet)
  {
    hide SyncStep, AnnounceStep, DelayRespStep, DelayReqStep, OwnPacket;
    SyncStepSendsOwn(cfg, olderKernel, s, o);
    AnnounceStepSendsOwn(cfg, olderKernel, s, o);
    DelayReqStepSendsOwn(cfg, olderKernel, s, o);
  }

  /** Everything a job sends is read back by the client, whatever sends and timestamps fail. */
  lemma JobSendsDecodable(cfg: Config, olderKernel: bool, s: Sub, o: Outcome)
    requires PacketsFit(s)
    ensures forall m | m in JobStep(cfg, olderKernel, s, o).sent :: Decodable(m.packet)
  {
    hide Decodable, JobStep;
    JobKeeps(cfg, olderKernel, s, o);
    JobSendsOwn(cfg, olderKernel, s, o);
    FittingPacketsDecode(JobStep(cfg, olderKernel, s, o).sub);
  }

  /** Every packet of a subscription goes into a worker's buffer, with its two trailing octets. */
  lemma PacketsAreSmall(s: Sub)
    requires PacketsFit(s)
    ensures AllEncodable(s.syncP.tlvs) && |Encode(s.syncP)| == 44
    ensures AllEncodable(s.announceP.tlvs) && |Encode(s.announceP)| == 64
    ensures |Encode(s.followupP)| == 44 && |Encode(s.delayRespP)| == 54
    ensures AllEncodable(s.signaling.tlvs) && |Encode(s.signaling)| <= 56
    ensures Written(s.syncP.tlvs) == Written(s.announceP.tlvs) == [] && |Written(s.signaling.tlvs)| <= 12
  {
    hide EncodeHeader, EncodeBody;
    EncodeTlvsNil();
    if s.signaling.tlvs != [] {
      var t := s.signaling.tlvs[0];
      assert s.signaling.tlvs == [t];
      assert EncodeTlvs([t]) == EncodeTlv(t) + EncodeTlvs([]);
      assert |EncodeTlv(t)| <= 12;
    }
  }

  // ------------------------------------------------------------- the registry

  /** clients[type][identity] of a worker, for any kind of reference. */
  type Clients<S> = map<byte, map<PortIdentity, S>>

  function Find<S>(clients: Clients<S>, client: PortIdentity, st: byte): Option<S> {
    if st !in clients then None
    else if client !in clients[st] then None
    else Some(clients[st][client])
  }

  function Register<S>(clients: Clients<S>, client: PortIdentity, st: byte, sc: S): Clients<S> {
    var m := if st in clients then clients[st] else map[];
    clients[st := m[client := sc]]
  }

  /** Registering is one entry of a flat table: this key now finds sc, every other key what it found before. */
  lemma RegisterIsFlat<S>(clients: Clients<S>, client: PortIdentity, st: byte, sc: S, c: PortIdentity, t: byte)
    ensures Find(Register(clients, client, st, sc), c, t) ==
            if c == client && t == st then Some(sc) else Find(clients, c, t)
  {
  }

  /** The registry with everything dropped that is not in `running`. */
  function Pruned<S>(clients: Clients<S>, running: set<S>): Clients<S> {
    map st | st in clients :: PrunedType(clients[st], running)
  }

  function PrunedType<S>(subs: map<PortIdentity, S>, running: set<S>): map<PortIdentity, S> {
    map c | c in subs && subs[c] in running :: subs[c]
  }

  lemma PrunedIsFlat<S>(clients: Clients<S>, running: set<S>, c: PortIdentity, t: byte)
    ensures Find(Pruned(clients, running), c, t) ==
            var was := Find(clients, c, t);
            if was.Some? && was.value in running then was else None
  {
  }

  /** The entries of a registry, as pairs of type and client. */
  function Entries<S>(clients: Clients<S>): set<(byte, PortIdentity)> {
    set st, c | st in clients && c in clients[st] :: (st, c)
  }
}
