/** What a client observes of the handlers: how requests, cancels and delay requests are answered. */
module Handlers {
  import opened Wire
  import opened Types
  import opened Tlvs
  import opened Packets
  import opened Subscription
  import opened Jobs
  import opened Machine
  import opened Invariants

  /** Queues but for one entry added at the end of one of them. */
  predicate OneSignal(s: State, s': State, w: nat, sc: Ref) {
    && |s'.workers| == |s.workers| && w < |s.workers|
    && s'.workers[w].signalingQueue == s.workers[w].signalingQueue + [sc]
    && (forall x | 0 <= x < |s.workers| && x != w :: s'.workers[x].signalingQueue == s.workers[x].signalingQueue)
    && (forall x | 0 <= x < |s.workers| :: s'.workers[x].queue == s.workers[x].queue)
  }

  predicate OneJob(s: State, s': State, w: nat, sc: Ref) {
    && |s'.workers| == |s.workers| && w < |s.workers|
    && s'.workers[w].queue == s.workers[w].queue + [sc]
    && (forall x | 0 <= x < |s.workers| && x != w :: s'.workers[x].queue == s.workers[x].queue)
    && (forall x | 0 <= x < |s.workers| :: s'.workers[x].signalingQueue == s.workers[x].signalingQueue)
  }

  /** The grant that answers a request. */
  function GrantFor(v: Tlv, duration: u32): Tlv
    requires v.RequestUnicast?
  {
    GrantUnicast(TlvHead(TLV_GRANT_UNICAST, 8), v.msgTypeAndReserved, v.logInterMessagePeriod, duration, 0, 1)
  }

  lemma NonEmpty(s: State)
    requires Shaped(s)
    ensures 0 < |s.workers| && 0 < |s.done|
  {
  }

  lemma RequestEnabled(s: State, sg: SignalingPacket, v: Tlv, gclisa: Sockaddr, now: Time, made: Ref)
    requires Shaped(s) && Enabled(s, Request(sg, v, gclisa, now, made))
    ensures v.RequestUnicast? && made !in s.subs && MsgType(sg.header.sdoIdAndMsgType) == MESSAGE_SIGNALING
  {
  }

  lemma EnlistEffect(s: State, sg: SignalingPacket, v: Tlv, gclisa: Sockaddr, now: Time, made: Ref)
    requires Base(s) && Shaped(s) && v.RequestUnicast? && made !in s.subs
    ensures var id, t := sg.header.sourcePortIdentity, UnicastMsgType(v.msgTypeAndReserved);
            var w, was := FindWorker(s, id, 0), Lookup(s, id, t);
            var (s', sc) := Enlist(s, sg, v, gclisa, now, made);
            && |s'.workers| == |s.workers| && sc in s'.subs && s'.subs[sc].worker == w
            && Find(s'.workers[w].clients, id, t) == Some(sc)
            && (forall x | 0 <= x < |s.workers| ::
                  s'.workers[x].queue == s.workers[x].queue && s'.workers[x].signalingQueue == s.workers[x].signalingQueue)
            && s'.subs[sc].expire == now + DurationOf(v.durationField)
            && s'.subs[sc].interval == s.period(v.logInterMessagePeriod) && s'.subs[sc].gclisa == gclisa
            && (forall x | x in s.subs && x != sc :: x in s'.subs && s'.subs[x] == s.subs[x])
            && (if was.Some? && s.subs[was.value].running then sc == was.value && s'.workers == s.workers
                else sc == made && !s'.subs[sc].running)
            && s'.hash == s.hash && s'.done == s.done && s'.cfg == s.cfg && s'.period == s.period
  {
    hide Base, Shaped, Enroll;
    NonEmpty(s);
    var id, t, w := sg.header.sourcePortIdentity, UnicastMsgType(v.msgTypeAndReserved), FindWorker(s, sg.header.sourcePortIdentity, 0);
    var found := Find(s.workers[w].clients, id, t);
    if found.Some? {
      EntryFound(s, w, id, t);
    }
    if found.None? || !s.subs[found.value].running {
      var u := NewSub(s.cfg, id, w, Sockaddr(gclisa.ip, PORT_EVENT), gclisa, t, s.period(v.logInterMessagePeriod),
                      now + DurationOf(v.durationField), now);
      EnrollEffect(s, made, u);
      EnrollRegisters(s, made, u);
    }
  }

  lemma EnrollRegisters(s: State, sc: Ref, u: Sub)
    requires u.worker < |s.workers|
    ensures var s' := Enroll(s, sc, u);
            && |s'.workers| == |s.workers| && Find(s'.workers[u.worker].clients, u.client, u.typ) == Some(sc)
            && s'.subs == s.subs[sc := u] && s'.hash == s.hash
  {
    RegisterIsFlat(s.workers[u.worker].clients, u.client, u.typ, sc, u.client, u.typ);
  }

  /** The subscription that a request is for: the running one to be renewed, or else a new one. */
  function Requested(s: State, c: PortIdentity, t: byte, made: Ref): Ref
    requires Shaped(s)
  {
    var was := Lookup(s, c, t);
    if was.Some? && s.subs[was.value].running then was.value else made
  }

  /** The header of an answer repeats that of the request, but for version, length, flags and source. */
  predicate RepeatsHeader(h: Header, g: Header) {
    h == g.(version := h.version, messageLength := h.messageLength, flagField := h.flagField,
            sourcePortIdentity := h.sourcePortIdentity)
  }

  /** It holds a grant to the client that repeats its request, and has taken over expiry, interval and address. */
  predicate HoldsGrant(u: Sub, sg: SignalingPacket, v: Tlv, granted: u32, period: Time, gclisa: Sockaddr, now: Time)
    requires v.RequestUnicast?
  {
    && u.signaling.targetPortIdentity == sg.header.sourcePortIdentity
    && RepeatsHeader(u.signaling.header, sg.header)
    && u.signaling.tlvs == [GrantFor(v, granted)]
    && u.expire == now + DurationOf(v.durationField) && u.interval == period && u.gclisa == gclisa
  }

  /**
   * A request for a supported type queues exactly one grant, for the subscription that the registry now finds for this
   * client and type. The grant gives the time asked for within the limits and 0 beyond; expiry and interval are taken
   * over either way. No other subscription changes.
   */
  lemma RequestIsAnswered(s: State, sg: SignalingPacket, v: Tlv, gclisa: Sockaddr, now: Time, made: Ref)
    requires Base(s) && Shaped(s) && Enabled(s, Request(sg, v, gclisa, now, made))
    requires Signaled(UnicastMsgType(v.msgTypeAndReserved))
    ensures var id, t := sg.header.sourcePortIdentity, UnicastMsgType(v.msgTypeAndReserved);
            var s', sc := RequestStep(s, sg, v, gclisa, now, made), Requested(s, id, t, made);
            && 0 < |s'.workers| && Lookup(s', id, t) == Some(sc) && sc in s'.subs
            && OneSignal(s, s', FindWorker(s, id, 0), sc)
            && HoldsGrant(s'.subs[sc], sg, v, if WithinLimits(s, v) then v.durationField else 0,
                          s.period(v.logInterMessagePeriod), gclisa, now)
            && (forall x | x in s.subs && x != sc :: x in s'.subs && s'.subs[x] == s.subs[x])
  {
    hide Base, Shaped, Enlist, Grant, Grows, WithinLimits, Find, Enabled, Lookup, OneSignal;
    NonEmpty(s);
    RequestEnabled(s, sg, v, gclisa, now, made);
    var id, t := sg.header.sourcePortIdentity, UnicastMsgType(v.msgTypeAndReserved);
    EnlistKeeps(s, sg, v, gclisa, now, made);
    EnlistFinds(s, sg, v, gclisa, now, made);
    var (s1, sc) := Enlist(s, sg, v, gclisa, now, made);
    var duration := if WithinLimits(s, v) then v.durationField else 0;
    GrantIsQueued(s1, sc, sg, v, duration, id, t);
    OneSignalAfter(s, s1, Grant(s1, sc, sg, v, duration), FindWorker(s, id, 0), sc);
    var s' := RequestStep(s, sg, v, gclisa, now, made);
    assert s'.workers == Grant(s1, sc, sg, v, duration).workers && s'.hash == s.hash;
    OneSignalSame(s, Grant(s1, sc, sg, v, duration), s', FindWorker(s, id, 0), sc);
    LookupSame(Grant(s1, sc, sg, v, duration), s', id, t);
  }

  lemma EnlistFinds(s: State, sg: SignalingPacket, v: Tlv, gclisa: Sockaddr, now: Time, made: Ref)
    requires Base(s) && Shaped(s) && v.RequestUnicast? && made !in s.subs
    ensures var id, t := sg.header.sourcePortIdentity, UnicastMsgType(v.msgTypeAndReserved);
            var (s', sc) := Enlist(s, sg, v, gclisa, now, made);
            && 0 < |s'.workers| == |s.workers| && Lookup(s', id, t) == Some(sc) && sc == Requested(s, id, t, made)
            && sc in s'.subs && s'.subs[sc].worker == FindWorker(s, id, 0)
            && s'.subs[sc].expire == now + DurationOf(v.durationField)
            && s'.subs[sc].interval == s.period(v.logInterMessagePeriod) && s'.subs[sc].gclisa == gclisa
            && SameQueues(s, s') && s'.hash == s.hash && s'.done == s.done
            && (forall x | x in s.subs && x != sc :: x in s'.subs && s'.subs[x] == s.subs[x])
  {
    hide Enlist, Base, Shaped;
    EnlistEffect(s, sg, v, gclisa, now, made);
    NonEmpty(s);
  }

  predicate SameQueues(s: State, s': State) {
    && |s'.workers| == |s.workers|
    && (forall x | 0 <= x < |s.workers| ::
          s'.workers[x].queue == s.workers[x].queue && s'.workers[x].signalingQueue == s.workers[x].signalingQueue)
  }

  lemma OneSignalAfter(s: State, s1: State, s2: State, w: nat, sc: Ref)
    requires SameQueues(s, s1) && OneSignal(s1, s2, w, sc)
    ensures OneSignal(s, s2, w, sc)
  {
  }

  lemma OneSignalSame(s: State, s1: State, s2: State, w: nat, sc: Ref)
    requires OneSignal(s, s1, w, sc) && s2.workers == s1.workers
    ensures OneSignal(s, s2, w, sc)
  {
  }

  lemma LookupSame(s1: State, s2: State, c: PortIdentity, t: byte)
    requires 0 < |s1.workers| && s2.workers == s1.workers && s2.hash == s1.hash
    ensures Lookup(s2, c, t) == Lookup(s1, c, t)
  {
  }

  /** A run is spawned exactly if the request met the limits and its subscription is not running. */
  lemma RequestSpawns(s: State, sg: SignalingPacket, v: Tlv, gclisa: Sockaddr, now: Time, made: Ref)
    requires Base(s) && Shaped(s) && Enabled(s, Request(sg, v, gclisa, now, made))
    requires Signaled(UnicastMsgType(v.msgTypeAndReserved))
    ensures var s', sc := RequestStep(s, sg, v, gclisa, now, made),
                          Requested(s, sg.header.sourcePortIdentity, UnicastMsgType(v.msgTypeAndReserved), made);
            s'.runs == s.runs + (if WithinLimits(s, v) && sc == made then [Run(sc, |s.done| - 1, IsSpawned)] else [])
  {
    hide Base, Shaped, Enlist, Grant, Grows, WithinLimits, Find, Enabled, Requested;
    NonEmpty(s);
    RequestEnabled(s, sg, v, gclisa, now, made);
    EnlistKeeps(s, sg, v, gclisa, now, made);
    var (s1, sc) := Enlist(s, sg, v, gclisa, now, made);
    GrantEffect(s1, sc, sg, v, if WithinLimits(s, v) then v.durationField else 0);
    EnlistRuns(s, sg, v, gclisa, now, made);
  }

  lemma EnlistRuns(s: State, sg: SignalingPacket, v: Tlv, gclisa: Sockaddr, now: Time, made: Ref)
    requires Base(s) && Shaped(s) && v.RequestUnicast? && made !in s.subs
    ensures var sc := Requested(s, sg.header.sourcePortIdentity, UnicastMsgType(v.msgTypeAndReserved), made);
            var (s', sc') := Enlist(s, sg, v, gclisa, now, made);
            sc' == sc && sc in s'.subs && (s'.subs[sc].running <==> sc != made)
  {
    hide Base, Enroll, Find;
    var id, t := sg.header.sourcePortIdentity, UnicastMsgType(v.msgTypeAndReserved);
    if Lookup(s, id, t).Some? {
      RunningOneWasThere(s, id, t, made);
    }
    var u := NewSub(s.cfg, id, FindWorker(s, id, 0), Sockaddr(gclisa.ip, PORT_EVENT), gclisa, t, s.period(v.logInterMessagePeriod),
                    now + DurationOf(v.durationField), now);
    EnrollRegisters(s, made, u);
  }

  lemma RunningOneWasThere(s: State, c: PortIdentity, t: byte, made: Ref)
    requires Base(s) && 0 < |s.workers| && made !in s.subs && Lookup(s, c, t).Some?
    ensures Lookup(s, c, t).value != made && Lookup(s, c, t).value in s.subs
  {
    EntryFound(s, FindWorker(s, c, 0), c, t);
  }

  lemma GrantIsQueued(s: State, sc: Ref, sg: SignalingPacket, v: Tlv, duration: u32, c: PortIdentity, t: byte)
    requires v.RequestUnicast? && 0 < |s.done| && sc in s.subs && s.subs[sc].worker < |s.workers|
    ensures var s', w := Grant(s, sc, sg, v, duration), s.subs[sc].worker;
            && OneSignal(s, s', w, sc)
            && (forall x | 0 <= x < |s.workers| :: s'.workers[x].clients == s.workers[x].clients)
            && s'.subs == s.subs[sc := UpdateSignalingGrant(s.subs[sc], sg, v.msgTypeAndReserved, v.logInterMessagePeriod, duration)]
            && s'.hash == s.hash && |s'.workers| == |s.workers|
            && (0 < |s.workers| ==> Lookup(s', c, t) == Lookup(s, c, t))
  {
  }

  /** A request for any other type changes nothing. */
  lemma OtherRequestsAreIgnored(s: State, sg: SignalingPacket, v: Tlv, gclisa: Sockaddr, now: Time, made: Ref)
    requires Shaped(s) && v.RequestUnicast? && !Signaled(UnicastMsgType(v.msgTypeAndReserved))
    ensures RequestStep(s, sg, v, gclisa, now, made) == s
  {
  }

  /**
   * A cancel reaches the subscription of this client and type and no other: it is expired from now on, and if it was
   * running there is a token that lets any run of it stop.
   */
  lemma CancelReachesOne(s: State, sg: SignalingPacket, v: Tlv, now: Time)
    requires Base(s) && Shaped(s) && v.CancelUnicast? && CancelTarget(s, sg, v).Some?
    ensures var s', sc := CancelStep(s, sg, v, now), CancelTarget(s, sg, v).value;
            && sc in s.subs && sc in s'.subs && s' == s.(subs := s.subs[sc := s'.subs[sc]])
            && s'.subs[sc].client == sg.header.sourcePortIdentity && s'.subs[sc].typ == UnicastMsgType(v.msgTypeAndFlags)
            && (forall later | now < later :: Expired(s'.subs[sc], later))
            && (s.subs[sc].running ==> s'.subs[sc].stop) && s'.subs[sc].running == s.subs[sc].running
  {
    hide Base;
    EntryFound(s, FindWorker(s, sg.header.sourcePortIdentity, 0), sg.header.sourcePortIdentity, UnicastMsgType(v.msgTypeAndFlags));
  }

  /** A run that ticks after its subscription expired leaves its loop, and queues nothing more. */
  lemma ExpiredRunLeaves(s: State, r: nat, now: Time)
    requires Shaped(s) && r < |s.runs| && Expired(s.subs[s.runs[r].sc], now)
    ensures var s' := TickStep(s, r, now);
            && s'.runs == s.runs[r := Run(s.runs[r].sc, s.runs[r].ctx, IsLeft)]
            && s'.subs == s.subs && s'.workers == s.workers && s'.log == s.log
  {
  }

  /** A run that ticks in time goes on; it queues itself once, if its type is sent by a timer. */
  lemma LiveRunGoesOn(s: State, r: nat, now: Time)
    requires Shaped(s) && r < |s.runs| && !Expired(s.subs[s.runs[r].sc], now)
    ensures var s', sc := TickStep(s, r, now), s.runs[r].sc;
            && s'.runs == s.runs[r := Run(sc, s.runs[r].ctx, IsLooping)] && s'.log == s.log
            && s'.subs == s.subs[sc := TickRun(s.subs[sc])]
            && (if Periodic(s.subs[sc].typ) then OneJob(s, s', s.subs[sc].worker, sc) else s'.workers == s.workers)
  {
  }

  /** The receive time a handler works with. */
  function ReceiveTime(cfg: Config, rxTs: Time): Time {
    if cfg.hardwareTimestamps then rxTs else rxTs + cfg.utcOffset
  }

  predicate IsExchange(p: SyncPacket) {
    p.header.flagField == FLAG_PROFILE_SPECIFIC1 + FLAG_UNICAST
  }

  /**
   * A delay request of a subscriber queues one job, and that job, if it is taken before the next request, sends one
   * Delay_Resp to this client: its identity, sequence ID and correction, and the time of receipt.
   */
  lemma DelayRequestIsAnswered(s: State, p: SyncPacket, rxTs: Time, eclisa: Sockaddr, now: Time, made: Ref, o: Outcome)
    requires Base(s) && Shaped(s) && !Drained(s) && !IsExchange(p) && o.second
    requires var w := FindWorker(s, p.header.sourcePortIdentity, WorkerOffset(p.tlvs));
             Find(s.workers[w].clients, p.header.sourcePortIdentity, MESSAGE_DELAY_RESP).Some?
    ensures var id, w := p.header.sourcePortIdentity, FindWorker(s, p.header.sourcePortIdentity, WorkerOffset(p.tlvs));
            var s', sc := DelayRequestStep(s, p, rxTs, eclisa, now, made), Find(s.workers[w].clients, id, MESSAGE_DELAY_RESP).value;
            && OneJob(s, s', w, sc) && sc in s'.subs && s'.runs == s.runs && s'.log == s.log
            && (var sent := JobStep(s'.cfg, s'.workers[w].olderKernel, s'.subs[sc], o).sent;
                && |sent| == 1 && sent[0].packet.DelayResp? && sent[0].to == s.subs[sc].gclisa && !sent[0].event
                && sent[0].packet.requestingPortIdentity == id
                && sent[0].packet.header.sequenceId == p.header.sequenceId
                && sent[0].packet.header.correctionField == p.header.correctionField
                && sent[0].packet.receiveTimestamp == NewTimestamp(ReceiveTime(s.cfg, rxTs))
                && Decodable(sent[0].packet))
  {
    hide Base, Decodable, PacketsFit;
    var w := FindWorker(s, p.header.sourcePortIdentity, WorkerOffset(p.tlvs));
    var sc := Find(s.workers[w].clients, p.header.sourcePortIdentity, MESSAGE_DELAY_RESP).value;
    EntryFound(s, w, p.header.sourcePortIdentity, MESSAGE_DELAY_RESP);
    var u := UpdateDelayResp(s.subs[sc], p.header, ReceiveTime(s.cfg, rxTs));
    SubFits(s, sc);
    PlainUpdateEvolves(s.subs[sc], u);
    JobSendsDecodable(s.cfg, s.workers[w].olderKernel, u, o);
  }

  /**
   * An sptp exchange queues one job, for a subscription that lasts 300 s from now; a run is spawned for it only if
   * the worker knew none. The job, if it is taken before the next request and all goes well, sends a Sync with the
   * request's sequence ID and time of receipt, and an Announce with its sequence ID and correction and the time at
   * which the Sync went out.
   */
  lemma ExchangeIsAnswered(s: State, p: SyncPacket, rxTs: Time, eclisa: Sockaddr, now: Time, made: Ref, o: Outcome)
    requires Base(s) && Shaped(s) && made !in s.subs && !Drained(s) && IsExchange(p)
    requires o.first == SendOk && o.txTs.Some? && o.second
    ensures var id, w := p.header.sourcePortIdentity, FindWorker(s, p.header.sourcePortIdentity, WorkerOffset(p.tlvs));
            var s', was := DelayRequestStep(s, p, rxTs, eclisa, now, made), Find(s.workers[w].clients, id, MESSAGE_DELAY_REQ);
            var sc := if was.Some? then was.value else made;
            && OneJob(s, s', w, sc) && sc in s'.subs && s'.subs[sc].expire == now + SUBSCRIPTION_DURATION
            && s'.runs == s.runs + (if was.None? then [Run(made, |s.done| - 1, IsSpawned)] else [])
            && (var sent, older := JobStep(s'.cfg, s'.workers[w].olderKernel, s'.subs[sc], o).sent, s'.workers[w].olderKernel;
                && |sent| == 2 && sent[0].packet.SyncDelayReq? && sent[1].packet.Announce?
                && sent[0].event && sent[0].to == eclisa && !sent[1].event
                && sent[0].packet.header.sequenceId == sent[1].packet.header.sequenceId == p.header.sequenceId
                && sent[0].packet.originTimestamp == NewTimestamp(ReceiveTime(s.cfg, rxTs))
                && sent[1].packet.header.correctionField == p.header.correctionField
                && AnnouncesClock(s.cfg, sent[1].packet)
                && sent[1].packet.body.originTimestamp == NewTimestamp(AnnouncedTime(s.cfg, older, o.txTs.value)))
  {
    hide Base, Bumped, ExchangeStep, Grows, Shaped, JobStep, OneJob;
    NonEmpty(s);
    var w := FindWorker(s, p.header.sourcePortIdentity, WorkerOffset(p.tlvs));
    var rx := ReceiveTime(s.cfg, rxTs);
    BumpedKeeps(s, p, w, eclisa, now, made);
    BumpedEffect(s, p, w, eclisa, now, made);
    ExchangeIsBump(s, p, w, rx, eclisa, now, made);
    var (s1, sc) := Bumped(s, p, w, eclisa, now, made);
    var u := UpdateAnnounceDelayReq(s.cfg, UpdateSyncDelayReq(s1.subs[sc], rx, p.header.sequenceId),
                                    p.header.correctionField, p.header.sequenceId);
    QueueJobAppends(SetSub(s1, sc, u), sc);
    assert OneJob(s, ExchangeStep(s, p, w, rx, eclisa, now, made), w, sc) by {
      OneJobAfter(s, s1, QueueJob(SetSub(s1, sc, u), sc), w, sc);
    }
    ExchangeJob(s.cfg, s.workers[w].olderKernel, s1.subs[sc], p, rx, eclisa, o);
  }

  lemma BumpedEffect(s: State, p: SyncPacket, w: nat, eclisa: Sockaddr, now: Time, made: Ref)
    requires Base(s) && Shaped(s) && w < |s.workers|
    ensures var (s', sc) := Bumped(s, p, w, eclisa, now, made);
            var was := Find(s.workers[w].clients, p.header.sourcePortIdentity, MESSAGE_DELAY_REQ);
            && |s'.workers| == |s.workers| && sc == (if was.Some? then was.value else made) && sc in s'.subs
            && s'.subs[sc].worker == w && s'.subs[sc].typ == MESSAGE_DELAY_REQ
            && s'.subs[sc].expire == now + SUBSCRIPTION_DURATION && s'.subs[sc].eclisa == eclisa
            && s'.cfg == s.cfg
            && s'.runs == s.runs + (if was.None? then [Run(made, |s.done| - 1, IsSpawned)] else [])
            && (forall x | 0 <= x < |s.workers| ::
                  && s'.workers[x].queue == s.workers[x].queue && s'.workers[x].signalingQueue == s.workers[x].signalingQueue
                  && s'.workers[x].olderKernel == s.workers[x].olderKernel)
  {
    hide Base, Register;
    var found := Find(s.workers[w].clients, p.header.sourcePortIdentity, MESSAGE_DELAY_REQ);
    if found.Some? {
      EntryFound(s, w, p.header.sourcePortIdentity, MESSAGE_DELAY_REQ);
    }
  }

  lemma QueueJobAppends(s: State, sc: Ref)
    requires sc in s.subs && s.subs[sc].worker < |s.workers|
    ensures var s' := QueueJob(s, sc);
            && OneJob(s, s', s.subs[sc].worker, sc) && s' == s.(workers := s'.workers)
            && (forall x | 0 <= x < |s.workers| :: s'.workers[x].olderKernel == s.workers[x].olderKernel)
  {
  }

  lemma OneJobAfter(s: State, s1: State, s2: State, w: nat, sc: Ref)
    requires |s1.workers| == |s.workers| && OneJob(s1, s2, w, sc)
    requires forall x | 0 <= x < |s.workers| ::
               s1.workers[x].queue == s.workers[x].queue && s1.workers[x].signalingQueue == s.workers[x].signalingQueue
    ensures OneJob(s, s2, w, sc)
  {
  }

  lemma ExchangeJob(cfg: Config, older: bool, a: Sub, p: SyncPacket, rx: Time, eclisa: Sockaddr, o: Outcome)
    requires a.typ == MESSAGE_DELAY_REQ && a.eclisa == eclisa && o.first == SendOk && o.txTs.Some? && o.second
    ensures var u := UpdateAnnounceDelayReq(cfg, UpdateSyncDelayReq(a, rx, p.header.sequenceId),
                                            p.header.correctionField, p.header.sequenceId);
            var sent := JobStep(cfg, older, u, o).sent;
            && |sent| == 2 && sent[0].packet.SyncDelayReq? && sent[1].packet.Announce?
            && sent[0].event && sent[0].to == eclisa && !sent[1].event
            && sent[0].packet.header.sequenceId == sent[1].packet.header.sequenceId == p.header.sequenceId
            && sent[0].packet.originTimestamp == NewTimestamp(rx)
            && sent[1].packet.header.correctionField == p.header.correctionField
            && AnnouncesClock(cfg, sent[1].packet)
            && sent[1].packet.body.originTimestamp == NewTimestamp(AnnouncedTime(cfg, older, o.txTs.value))
  {
    hide NewTimestamp;
  }

  /** The subscription that a delay request queues a job for. */
  function Asked(s: State, p: SyncPacket, made: Ref): Option<Ref>
    requires Shaped(s)
  {
    if Drained(s) then None
    else
      var w := FindWorker(s, p.header.sourcePortIdentity, WorkerOffset(p.tlvs));
      var was := Find(s.workers[w].clients, p.header.sourcePortIdentity, if IsExchange(p) then MESSAGE_DELAY_REQ else MESSAGE_DELAY_RESP);
      if was.None? && IsExchange(p) then Some(made) else was
  }

  /** What a delay request leaves in the packets that answer it, and in no other subscription. */
  predicate Answers(u: Sub, p: SyncPacket, rx: Time) {
    if IsExchange(p) then u.typ == MESSAGE_DELAY_REQ && AnswersExchange(u, p, rx)
    else u.typ == MESSAGE_DELAY_RESP && AnswersRequest(u, p, rx)
  }

  /** The packet that answers a request: its identity, sequence ID and correction, and the time of receipt. */
  predicate AnswersRequest(u: Sub, p: SyncPacket, rx: Time) {
    && u.delayRespP.requestingPortIdentity == p.header.sourcePortIdentity
    && u.delayRespP.header.sequenceId == p.header.sequenceId
    && u.delayRespP.header.correctionField == p.header.correctionField
    && u.delayRespP.receiveTimestamp == NewTimestamp(rx)
  }

  /** The packets that answer an exchange: its sequence ID, its time of receipt and its correction. */
  predicate AnswersExchange(u: Sub, p: SyncPacket, rx: Time) {
    && u.syncP.header.sequenceId == u.announceP.header.sequenceId == p.header.sequenceId
    && u.syncP.originTimestamp == NewTimestamp(rx) && u.announceP.header.correctionField == p.header.correctionField
  }

  /**
   * A delay request queues one job for the subscription it is about, with the answer in its packets, or nothing; it
   * changes no other subscription.
   */
  lemma DelayRequestQueues(s: State, p: SyncPacket, rxTs: Time, eclisa: Sockaddr, now: Time, made: Ref)
    requires Base(s) && Shaped(s) && made !in s.subs
    ensures var s', asked := DelayRequestStep(s, p, rxTs, eclisa, now, made), Asked(s, p, made);
            && (asked.None? ==> s' == s)
            && (asked.Some? ==>
                  && asked.value in s'.subs && OneJob(s, s', s'.subs[asked.value].worker, asked.value)
                  && Answers(s'.subs[asked.value], p, ReceiveTime(s.cfg, rxTs)))
            && (forall x | x in s.subs && Some(x) != asked :: x in s'.subs && s'.subs[x] == s.subs[x])
            && (asked.Some? && asked.value in s.subs ==> s'.subs[asked.value].signaling == s.subs[asked.value].signaling)
  {
    hide Base, Bumped, ExchangeStep, ResponseStep, Grows, OneJob, Shaped, AnswersExchange, AnswersRequest;
    NonEmpty(s);
    var w := FindWorker(s, p.header.sourcePortIdentity, WorkerOffset(p.tlvs));
    var rx := ReceiveTime(s.cfg, rxTs);
    if !Drained(s) {
      if IsExchange(p) {
        ExchangeQueues(s, p, w, rx, eclisa, now, made);
      } else {
        ResponseQueues(s, p, w, rx);
      }
    }
  }

  lemma ResponseQueues(s: State, p: SyncPacket, w: nat, rx: Time)
    requires Base(s) && Shaped(s) && w < |s.workers|
    ensures var s', found := ResponseStep(s, p, w, rx), Find(s.workers[w].clients, p.header.sourcePortIdentity, MESSAGE_DELAY_RESP);
            && (found.None? ==> s' == s)
            && (found.Some? ==>
                  && found.value in s.subs && found.value in s'.subs && OneJob(s, s', s'.subs[found.value].worker, found.value)
                  && s'.subs == s.subs[found.value := s'.subs[found.value]]
                  && s'.subs[found.value].typ == MESSAGE_DELAY_RESP && AnswersRequest(s'.subs[found.value], p, rx)
                  && s'.subs[found.value].signaling == s.subs[found.value].signaling)
  {
    hide Base, NewTimestamp;
    var found := Find(s.workers[w].clients, p.header.sourcePortIdentity, MESSAGE_DELAY_RESP);
    if found.Some? {
      EntryFound(s, w, p.header.sourcePortIdentity, MESSAGE_DELAY_RESP);
    }
  }

  lemma ExchangeQueues(s: State, p: SyncPacket, w: nat, rx: Time, eclisa: Sockaddr, now: Time, made: Ref)
    requires Base(s) && Shaped(s) && w < |s.workers| && made !in s.subs
    ensures var s' := ExchangeStep(s, p, w, rx, eclisa, now, made);
            var was := Find(s.workers[w].clients, p.header.sourcePortIdentity, MESSAGE_DELAY_REQ);
            var sc := if was.Some? then was.value else made;
            && sc in s'.subs && OneJob(s, s', s'.subs[sc].worker, sc)
            && AnswersExchange(s'.subs[sc], p, rx) && s'.subs[sc].typ == MESSAGE_DELAY_REQ
            && (forall x | x in s.subs && x != sc :: x in s'.subs && s'.subs[x] == s.subs[x])
            && (sc in s.subs ==> s'.subs[sc].signaling == s.subs[sc].signaling)
  {
    hide Base, Bumped, ExchangeStep, Shaped, OneJob, AnswersExchange;
    BumpedEffect(s, p, w, eclisa, now, made);
    BumpedOthers(s, p, w, eclisa, now, made);
    ExchangeIsBump(s, p, w, rx, eclisa, now, made);
    var (s1, sc) := Bumped(s, p, w, eclisa, now, made);
    var u := UpdateAnnounceDelayReq(s.cfg, UpdateSyncDelayReq(s1.subs[sc], rx, p.header.sequenceId),
                                    p.header.correctionField, p.header.sequenceId);
    ExchangeWrites(s.cfg, s1.subs[sc], p, rx);
    QueueJobAppends(SetSub(s1, sc, u), sc);
    OneJobAfter(s, s1, QueueJob(SetSub(s1, sc, u), sc), w, sc);
  }

  lemma BumpedOthers(s: State, p: SyncPacket, w: nat, eclisa: Sockaddr, now: Time, made: Ref)
    requires Base(s) && Shaped(s) && w < |s.workers| && made !in s.subs
    ensures var (s', sc) := Bumped(s, p, w, eclisa, now, made);
            && (forall x | x in s.subs && x != sc :: x in s'.subs && s'.subs[x] == s.subs[x])
            && (sc in s.subs && sc in s'.subs ==> s'.subs[sc].signaling == s.subs[sc].signaling)
  {
    hide Base, Register, NewSub;
    var found := Find(s.workers[w].clients, p.header.sourcePortIdentity, MESSAGE_DELAY_REQ);
    if found.Some? {
      EntryFound(s, w, p.header.sourcePortIdentity, MESSAGE_DELAY_REQ);
    }
  }

  lemma ExchangeWrites(cfg: Config, u: Sub, p: SyncPacket, rx: Time)
    ensures var u1 := UpdateSyncDelayReq(u, rx, p.header.sequenceId);
            var u' := UpdateAnnounceDelayReq(cfg, u1, p.header.correctionField, p.header.sequenceId);
            AnswersExchange(u', p, rx) && u'.worker == u.worker && u'.typ == u.typ && u'.signaling == u.signaling
  {
    hide NewTimestamp;
  }
}
