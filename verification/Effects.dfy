/** What each step does, in numbers and by the names of message types: server/server.go and server/subscription.go. */
module Effects {
  import opened Wire
  import opened Types
  import opened Tlvs
  import opened Packets
  import opened Subscription
  import opened Jobs
  import opened Machine
  import opened Invariants
  import opened Handlers
  import Rounds

  // -------------------------------------------------------------- requests

  /** A new subscription, as a request for type t makes it: its Syncs go to port 319 of the address it came from. */
  predicate IsNew(u: Sub, c: PortIdentity, t: byte, w: nat, gclisa: Sockaddr, interval: Time, expire: Time) {
    && u.client == c && u.typ == t && u.worker == w
    && u.eclisa.port == 319 && u.eclisa.ip == gclisa.ip && u.gclisa == gclisa
    && u.interval == interval && u.expire == expire
    && u.sequenceId == 0 && !u.running && !u.stop && !u.waiting
    && u.syncP.originTimestamp == Timestamp([0, 0, 0, 0, 0, 0], 0)
  }

  /** Only Sync, Announce and Delay_Resp can be asked for. */
  lemma TypesGranted(t: byte)
    ensures Signaled(t) <==> t == 0x0 || t == 0xB || t == 0x9
  {
  }

  /** The two ways to find a subscription for a request: a new one if none is found running, else the one found. */
  lemma EnlistByNumbers(s: State, sg: SignalingPacket, v: Tlv, gclisa: Sockaddr, now: Time, made: Ref)
    requires Base(s) && Shaped(s) && v.RequestUnicast? && made !in s.subs
    ensures var c, t := sg.header.sourcePortIdentity, v.msgTypeAndReserved / 16;
            var w, interval, expire := FindWorker(s, c, 0), s.period(v.logInterMessagePeriod), now + v.durationField * 1_000_000_000;
            var found, (s', sc) := Find(s.workers[w].clients, c, t), Enlist(s, sg, v, gclisa, now, made);
            && sc in s'.subs && s'.runs == s.runs && s'.done == s.done && s'.cfg == s.cfg && s'.period == s.period
            && (forall x | x in s.subs && x != sc :: x in s'.subs && s'.subs[x] == s.subs[x])
            && (found.Some? ==> found.value in s.subs && found.value != made)
            && (if found.Some? && s.subs[found.value].running then
                  && sc == found.value
                  && s'.subs[sc] == s.subs[sc].(expire := expire, interval := interval, gclisa := gclisa)
                else sc == made && IsNew(s'.subs[sc], c, t, w, gclisa, interval, expire))
  {
    hide Base, Shaped, Register, InitFollowup, InitAnnounce, InitDelayResp, InitSignaling;
    NonEmpty(s);
    var c, t := sg.header.sourcePortIdentity, UnicastMsgType(v.msgTypeAndReserved);
    if Find(s.workers[FindWorker(s, c, 0)].clients, c, t).Some? {
      EntryFound(s, FindWorker(s, c, 0), c, t);
    }
  }

  /** The grant as it is put into the packet of a subscription: 56 octets, to the one who asked, repeating the request. */
  predicate IsGranted(u: Sub, sg: SignalingPacket, v: Tlv, granted: u32)
    requires v.RequestUnicast?
  {
    var h, g := u.signaling.header, sg.header;
    && u.signaling.targetPortIdentity == g.sourcePortIdentity
    && u.signaling.tlvs == [GrantUnicast(TlvHead(0x0005, 8), v.msgTypeAndReserved, v.logInterMessagePeriod, granted, 0, 1)]
    && h.messageLength == 56 && h.sdoIdAndMsgType == g.sdoIdAndMsgType && h.domainNumber == g.domainNumber
    && h.minorSdoId == g.minorSdoId && h.correctionField == g.correctionField && h.messageTypeSpecific == g.messageTypeSpecific
    && h.sequenceId == g.sequenceId && h.controlField == g.controlField && h.logMessageInterval == g.logMessageInterval
  }

  lemma GrantByNumbers(s: State, sc: Ref, sg: SignalingPacket, v: Tlv, duration: u32)
    requires v.RequestUnicast? && 0 < |s.done| && sc in s.subs && s.subs[sc].worker < |s.workers|
    ensures var s' := Grant(s, sc, sg, v, duration);
            && sc in s'.subs && IsGranted(s'.subs[sc], sg, v, duration)
            && s'.subs == s.subs[sc := s.subs[sc].(signaling := s'.subs[sc].signaling)]
            && s'.runs == s.runs && s'.done == s.done
  {
  }

  /** The limits: no shorter interval, no longer duration, and no drain. */
  lemma LimitsByNumbers(s: State, v: Tlv)
    requires v.RequestUnicast? && 0 < |s.done|
    ensures WithinLimits(s, v) <==>
            && s.cfg.minSubInterval <= s.period(v.logInterMessagePeriod)
            && v.durationField * 1_000_000_000 <= s.cfg.maxSubDuration
            && !s.done[|s.done| - 1]
  {
  }

  /**
   * A request, by numbers. For a type other than Sync, Announce and Delay_Resp nothing happens. Otherwise the
   * subscription found running is renewed, or a new one made, and the grant is put into its packet: the time asked for
   * within the limits, and 0 beyond. Within the limits a run of the current context is spawned for a new one.
   */
  lemma RequestByNumbers(s: State, sg: SignalingPacket, v: Tlv, gclisa: Sockaddr, now: Time, made: Ref)
    requires Base(s) && Shaped(s) && Enabled(s, Request(sg, v, gclisa, now, made))
    ensures v.RequestUnicast? && 0 < |s.done| && 0 < |s.workers|
    ensures var c, t := sg.header.sourcePortIdentity, v.msgTypeAndReserved / 16;
            var w, interval, expire := FindWorker(s, c, 0), s.period(v.logInterMessagePeriod), now + v.durationField * 1_000_000_000;
            var s', found := RequestStep(s, sg, v, gclisa, now, made), Find(s.workers[w].clients, c, t);
            var passes := s.cfg.minSubInterval <= interval && v.durationField * 1_000_000_000 <= s.cfg.maxSubDuration
                          && !s.done[|s.done| - 1];
            if t != 0x0 && t != 0xB && t != 0x9 then s' == s
            else
              && (found.Some? ==> found.value in s.subs)
              && (if found.Some? && s.subs[found.value].running then
                    var sc := found.value;
                    && sc in s'.subs && IsGranted(s'.subs[sc], sg, v, if passes then v.durationField else 0)
                    && s'.subs[sc] == s.subs[sc].(expire := expire, interval := interval, gclisa := gclisa,
                                                  signaling := s'.subs[sc].signaling)
                    && s'.runs == s.runs
                  else
                    && made in s'.subs && IsGranted(s'.subs[made], sg, v, if passes then v.durationField else 0)
                    && IsNew(s'.subs[made], c, t, w, gclisa, interval, expire)
                    && s'.runs == s.runs + (if passes then [Run(made, |s.done| - 1, IsSpawned)] else []))
  {
    hide Base, Grows, Enlist, Grant, WithinLimits, Find, IsGranted;
    assert v.RequestUnicast? && made !in s.subs;
    NonEmpty(s);
    TypesGranted(UnicastMsgType(v.msgTypeAndReserved));
    if Signaled(UnicastMsgType(v.msgTypeAndReserved)) {
      LimitsByNumbers(s, v);
      EnlistByNumbers(s, sg, v, gclisa, now, made);
      EnlistKeeps(s, sg, v, gclisa, now, made);
      var (s1, sc) := Enlist(s, sg, v, gclisa, now, made);
      GrantByNumbers(s1, sc, sg, v, if WithinLimits(s, v) then v.durationField else 0);
    }
  }

  // --------------------------------------------------------------- cancels

  /**
   * A cancel, by its three cases: one that is not running only expires; a running one also gets a token; with a token
   * there already, the Stop waits.
   */
  lemma CancelByNumbers(s: State, sg: SignalingPacket, v: Tlv, now: Time)
    requires Base(s) && Shaped(s) && v.CancelUnicast?
    ensures 0 < |s.workers|
    ensures var c, t := sg.header.sourcePortIdentity, v.msgTypeAndFlags / 16;
            var s', found := CancelStep(s, sg, v, now), Find(s.workers[FindWorker(s, c, 0)].clients, c, t);
            if found.None? then s' == s
            else
              && found.value in s.subs
              && (var u := s.subs[found.value];
                  s' == s.(subs := s.subs[found.value :=
                                            if !u.running then u.(expire := now)
                                            else if !u.stop then u.(expire := now, stop := true)
                                            else u.(expire := now, waiting := true)]))
  {
    hide Base;
    var c, t := sg.header.sourcePortIdentity, UnicastMsgType(v.msgTypeAndFlags);
    if Find(s.workers[FindWorker(s, c, 0)].clients, c, t).Some? {
      EntryFound(s, FindWorker(s, c, 0), c, t);
    }
  }

  // -------------------------------------------------------- delay requests

  /** The worker offset is that of the last ALTERNATE_RESPONSE_PORT, and 0 if there is none. */
  lemma {:induction false} OffsetIs(ts: seq<Tlv>, i: nat)
    ensures (forall k | 0 <= k < |ts| :: !ts[k].AlternateResponsePort?) ==> WorkerOffset(ts) == 0
    ensures i < |ts| && ts[i].AlternateResponsePort? && (forall k | i < k < |ts| :: !ts[k].AlternateResponsePort?) ==>
              WorkerOffset(ts) == ts[i].offset
  {
    if ts != [] && !ts[|ts| - 1].AlternateResponsePort? {
      OffsetIs(ts[..|ts| - 1], i);
    }
  }

  /** While drained a delay request does nothing. */
  lemma DrainedByNumbers(s: State, p: SyncPacket, rxTs: Time, eclisa: Sockaddr, now: Time, made: Ref)
    requires Shaped(s) && s.done[|s.done| - 1]
    ensures DelayRequestStep(s, p, rxTs, eclisa, now, made) == s
  {
    hide Shaped, ExchangeStep, ResponseStep;
  }

  /**
   * A plain delay request, by numbers: the Delay_Resp subscription of this client with its worker, if there is one, gets
   * the answer and one job, and nothing else changes.
   */
  lemma ResponseByNumbers(s: State, p: SyncPacket, rxTs: Time, eclisa: Sockaddr, now: Time, made: Ref)
    requires Base(s) && Shaped(s) && !s.done[|s.done| - 1] && p.header.flagField != 0x2400
    ensures 0 < |s.workers|
    ensures var c, s' := p.header.sourcePortIdentity, DelayRequestStep(s, p, rxTs, eclisa, now, made);
            var w := FindWorker(s, c, WorkerOffset(p.tlvs));
            var found, rx := Find(s.workers[w].clients, c, 0x9), if s.cfg.hardwareTimestamps then rxTs else rxTs + s.cfg.utcOffset;
            if found.None? then s' == s
            else
              && found.value in s.subs && found.value in s'.subs
              && (var u, u' := s.subs[found.value], s'.subs[found.value];
                  && u' == u.(delayRespP := u'.delayRespP)
                  && u'.delayRespP == DelayResp(u.delayRespP.header.(sequenceId := p.header.sequenceId,
                                                                     correctionField := p.header.correctionField),
                                                NewTimestamp(rx), c)
                  && s' == s.(subs := s.subs[found.value := u'],
                              workers := s.workers[w := s.workers[w].(queue := s.workers[w].queue + [found.value])]))
  {
    hide Base, NewTimestamp;
    var c := p.header.sourcePortIdentity;
    var w := FindWorker(s, c, WorkerOffset(p.tlvs));
    if Find(s.workers[w].clients, c, MESSAGE_DELAY_RESP).Some? {
      EntryFound(s, w, c, MESSAGE_DELAY_RESP);
    }
  }

  /** What an exchange writes: the Sync gets its ID and time of receipt, the Announce its ID, correction and the clock. */
  predicate Exchanged(cfg: Config, u: Sub, u': Sub, p: SyncPacket, rx: Time) {
    && u'.syncP == SyncDelayReq(u.syncP.header.(sequenceId := p.header.sequenceId), NewTimestamp(rx), u.syncP.tlvs)
    && u'.announceP == Announce(u.announceP.header.(sequenceId := p.header.sequenceId, correctionField := p.header.correctionField),
                                u.announceP.body.(currentUtcOffset := cfg.utcOffsetSeconds, clockClass := cfg.clockClass,
                                                  clockAccuracy := cfg.clockAccuracy), u.announceP.tlvs)
    && u' == u.(syncP := u'.syncP, announceP := u'.announceP)
  }

  /**
   * An sptp exchange, by numbers: a subscription of type DELAY_REQ, 300 s from now, made and spawned if there is none. Its
   * Syncs go to where the request came from; its Announces there too if the port number of the client is above 10, and to
   * port 320 otherwise.
   */
  lemma BumpByNumbers(s: State, p: SyncPacket, w: nat, eclisa: Sockaddr, now: Time, made: Ref)
    requires Base(s) && Shaped(s) && w < |s.workers|
    ensures var c, found, (s', sc) := p.header.sourcePortIdentity, Find(s.workers[w].clients, p.header.sourcePortIdentity, 0x1),
                                      Bumped(s, p, w, eclisa, now, made);
            && sc in s'.subs && s'.cfg == s.cfg && |s'.workers| == |s.workers| && s'.subs[sc].worker == w
            && s'.workers[w].queue == s.workers[w].queue
            && s'.subs[sc].expire == now + 300_000_000_000 && s'.subs[sc].eclisa == eclisa
            && (if found.Some? then
                  && sc == found.value && sc in s.subs && s'.runs == s.runs
                  && s'.subs[sc] == s.subs[sc].(expire := now + 300_000_000_000, eclisa := eclisa, gclisa := s'.subs[sc].gclisa)
                  && s'.subs[sc].gclisa == (if c.portNumber > 10 then eclisa else Sockaddr(s.subs[sc].gclisa.ip, 320))
                else
                  && sc == made && s'.runs == s.runs + [Run(made, |s.done| - 1, IsSpawned)]
                  && s'.subs[sc].client == c && s'.subs[sc].typ == 0x1 && s'.subs[sc].interval == 300_000_000_000
                  && s'.subs[sc].gclisa == (if c.portNumber > 10 then eclisa else Sockaddr(eclisa.ip, 320)))
  {
    hide Base, Register, InitSync, InitFollowup, InitAnnounce, InitDelayResp, InitSignaling;
    if Find(s.workers[w].clients, p.header.sourcePortIdentity, MESSAGE_DELAY_REQ).Some? {
      EntryFound(s, w, p.header.sourcePortIdentity, MESSAGE_DELAY_REQ);
    }
  }

  lemma ExchangeByNumbers(s: State, p: SyncPacket, rxTs: Time, eclisa: Sockaddr, now: Time, made: Ref)
    requires Base(s) && Shaped(s) && made !in s.subs && !s.done[|s.done| - 1] && p.header.flagField == 0x2400
    ensures 0 < |s.workers|
    ensures var c, s' := p.header.sourcePortIdentity, DelayRequestStep(s, p, rxTs, eclisa, now, made);
            var w := FindWorker(s, c, WorkerOffset(p.tlvs));
            var (s1, sc) := Bumped(s, p, w, eclisa, now, made);
            && sc in s1.subs && sc in s'.subs && w < |s1.workers|
            && Exchanged(s.cfg, s1.subs[sc], s'.subs[sc], p, if s.cfg.hardwareTimestamps then rxTs else rxTs + s.cfg.utcOffset)
            && s' == s1.(subs := s1.subs[sc := s'.subs[sc]],
                         workers := s1.workers[w := s1.workers[w].(queue := s1.workers[w].queue + [sc])])
  {
    hide Base, Bumped, NewTimestamp, Shaped, ExchangeStep;
    NonEmpty(s);
    var c := p.header.sourcePortIdentity;
    var w := FindWorker(s, c, WorkerOffset(p.tlvs));
    BumpByNumbers(s, p, w, eclisa, now, made);
    ExchangeIsBump(s, p, w, if s.cfg.hardwareTimestamps then rxTs else rxTs + s.cfg.utcOffset, eclisa, now, made);
  }

  // ------------------------------------------------------------------- runs

  /** The job of a timer: for Sync and Announce one, for Delay_Resp and sptp none. */
  lemma TypesTimed(t: byte)
    ensures t == 0x0 || t == 0xB ==> Periodic(t)
    ensures t == 0x9 || t == 0x1 ==> !Periodic(t)
  {
  }

  /**
   * The start of a run, by numbers: the flag is set, the ticker gets the interval of the subscription, and a Sync or
   * Announce subscription queues its first message at once.
   */
  lemma BeginByNumbers(s: State, r: nat)
    requires Base(s) && Shaped(s) && r < |s.runs|
    ensures var s', sc := BeginStep(s, r), s.runs[r].sc;
            && sc in s.subs && s.subs[sc].worker < |s.workers|
            && (var u, w := s.subs[sc], s.subs[sc].worker;
                && (u.typ == 0x0 || u.typ == 0xB || u.typ == 0x9 || u.typ == 0x1)
                && s' == s.(subs := s.subs[sc := u.(running := true, runningInterval := u.interval)],
                            runs := s.runs[r := Run(sc, s.runs[r].ctx, IsLooping)],
                            workers := if u.typ == 0x0 || u.typ == 0xB
                                       then s.workers[w := s.workers[w].(queue := s.workers[w].queue + [sc])] else s.workers))
  {
    TypesOfSubs(s, s.runs[r].sc);
    hide Base;
  }

  lemma TypesOfSubs(s: State, sc: Ref)
    requires Base(s) && Shaped(s)
    ensures sc in s.subs ==> s.subs[sc].typ == 0x0 || s.subs[sc].typ == 0xB || s.subs[sc].typ == 0x9 || s.subs[sc].typ == 0x1
  {
    hide RegistryOk, ContextsOk, PacketsFit;
    if sc in s.subs {
      assert SubOk(s, sc);
    }
  }

  /**
   * A tick, by numbers. Up to the expiry, and at that very moment too, the ticker takes over the interval of the
   * subscription and a Sync or Announce subscription queues one message; after it the run leaves its loop.
   */
  lemma TickByNumbers(s: State, r: nat, now: Time)
    requires Base(s) && Shaped(s) && r < |s.runs|
    ensures var s', sc := TickStep(s, r, now), s.runs[r].sc;
            && sc in s.subs && s.subs[sc].worker < |s.workers|
            && (var u, w := s.subs[sc], s.subs[sc].worker;
                && (u.typ == 0x0 || u.typ == 0xB || u.typ == 0x9 || u.typ == 0x1)
                && s' == if now <= u.expire then
                           s.(subs := s.subs[sc := u.(runningInterval := u.interval)],
                              runs := s.runs[r := Run(sc, s.runs[r].ctx, IsLooping)],
                              workers := if u.typ == 0x0 || u.typ == 0xB
                                         then s.workers[w := s.workers[w].(queue := s.workers[w].queue + [sc])] else s.workers)
                         else s.(runs := s.runs[r := Run(sc, s.runs[r].ctx, IsLeft)]))
  {
    TypesOfSubs(s, s.runs[r].sc);
    assert s.subs[s.runs[r].sc := s.subs[s.runs[r].sc]] == s.subs;
    hide Base;
  }

  /** The other ways out of the select, the clearing of the flag, and the Cancel at the end. */
  lemma LeaveByNumbers(s: State, r: nat)
    requires Shaped(s) && r < |s.runs|
    ensures var sc := s.runs[r].sc;
            && sc in s.subs
            && (var u, runs := s.subs[sc], s.runs[r := Run(sc, s.runs[r].ctx, IsLeft)];
                && (Enabled(s, TakeStop(r)) ==>
                      Next(s, TakeStop(r)) ==
                      s.(runs := runs, subs := s.subs[sc := if u.waiting then u.(waiting := false) else u.(stop := false)]))
                && (Enabled(s, CtxIsDone(r)) ==> Next(s, CtxIsDone(r)) == s.(runs := runs))
                && (Enabled(s, SelectTick(r)) ==>
                      Next(s, SelectTick(r)) == s.(runs := s.runs[r := Run(sc, s.runs[r].ctx, IsTicking)])))
  {
    hide Find, RequestStep, CancelStep, DelayRequestStep, BeginStep, TickStep, ClearStep, FinishStep, TakeJob, InventoryStep;
    assert s.subs[s.runs[r].sc := s.subs[s.runs[r].sc]] == s.subs;
  }

  lemma ClearByNumbers(s: State, r: nat)
    requires Shaped(s) && r < |s.runs|
    ensures var s', sc := ClearStep(s, r), s.runs[r].sc;
            && sc in s.subs
            && s' == s.(subs := s.subs[sc := s.subs[sc].(running := false)], log := s'.log,
                        runs := s.runs[r := Run(sc, s.runs[r].ctx, IsCleared)])
  {
  }

  /** A Cancel of 50 octets, to the target of the grants before it, for the type of the subscription and with no flags. */
  lemma CancelIs(u: Sub)
    requires u.typ < 16
    ensures UpdateSignalingCancel(u) ==
            u.(signaling := Signaling(u.signaling.header.(messageLength := 50), u.signaling.targetPortIdentity,
                                      [CancelUnicast(TlvHead(0x0006, 2), 16 * u.typ, 0)]))
  {
    NibblesOf(u.typ, 0);
  }

  /** The end of a run: one Cancel, and none for sptp. */
  lemma FinishByNumbers(s: State, r: nat)
    requires Base(s) && Shaped(s) && r < |s.runs|
    ensures var s', sc := FinishStep(s, r), s.runs[r].sc;
            && sc in s.subs && s.subs[sc].worker < |s.workers|
            && (var u, w, runs := s.subs[sc], s.subs[sc].worker, s.runs[r := Run(sc, s.runs[r].ctx, IsDone)];
                && u.typ < 16
                && (if u.typ == 0x1 then s' == s.(runs := runs)
                    else
                      s' == s.(runs := runs, log := s'.log,
                               subs := s.subs[sc := u.(signaling := Signaling(u.signaling.header.(messageLength := 50),
                                 u.signaling.targetPortIdentity, [CancelUnicast(TlvHead(0x0006, 2), 16 * u.typ, 0)]))],
                               workers := s.workers[w := s.workers[w].(signalingQueue := s.workers[w].signalingQueue + [sc])])))
  {
    hide Base, UpdateSignalingCancel;
    TypesOfSubs(s, s.runs[r].sc);
    Rounds.RunTouches(s, r);
    CancelIs(s.subs[s.runs[r].sc]);
  }

  // ---------------------------------------------------------------- workers

  /** Jobs that send a Sync: their sends can show that the kernel is an older one. */
  predicate SendsSync(t: byte) {
    t == 0x0 || t == 0x1
  }

  lemma KernelIsLearned(cfg: Config, olderKernel: bool, u: Sub, o: Outcome)
    ensures JobStep(cfg, olderKernel, u, o).olderKernel <==> olderKernel || (SendsSync(u.typ) && o.first == SendInvalid)
  {
    hide NewTimestamp, ClockFields;
  }

  /**
   * A job, by numbers: the first entry leaves the queue, its subscription becomes what the job makes of it, what was
   * sent is added to its record, and a worker that learned that its kernel is an older one never forgets it.
   */
  lemma JobByNumbers(s: State, w: nat, o: Outcome)
    requires Shaped(s) && w < |s.workers| && s.workers[w].queue != []
    ensures var ws, s' := s.workers[w], TakeJob(s, w, o);
            && ws.queue[0] in s.subs && ws.queue[0] in s.sent
            && (var sc, u := ws.queue[0], s.subs[ws.queue[0]];
                && s'.workers == s.workers[w := WorkerState(ws.clients, ws.queue[1..], ws.signalingQueue,
                                                            ws.olderKernel || ((u.typ == 0x0 || u.typ == 0x1) && o.first == SendInvalid))]
                && s' == s.(workers := s'.workers, subs := s.subs[sc := JobStep(s.cfg, ws.olderKernel, u, o).sub],
                            sent := s.sent[sc := s.sent[sc] + JobStep(s.cfg, ws.olderKernel, u, o).sent]))
  {
    hide JobStep;
    KernelIsLearned(s.cfg, s.workers[w].olderKernel, s.subs[s.workers[w].queue[0]], o);
  }

  /** An inventory of one worker drops what is not running and keeps what is, and leaves everything else alone. */
  lemma InventoryByNumbers(s: State, w: nat, c: PortIdentity, t: byte)
    requires Shaped(s) && w < |s.workers|
    ensures var s', found := InventoryStep(s, w), Find(s.workers[w].clients, c, t);
            && |s'.workers| == |s.workers|
            && (found.Some? ==> found.value in s.subs)
            && Find(s'.workers[w].clients, c, t) == (if found.Some? && s.subs[found.value].running then found else None)
            && s'.workers == s.workers[w := s.workers[w].(clients := s'.workers[w].clients)]
            && s' == s.(workers := s'.workers, flat := s'.flat)
  {
    hide Pruned, Find;
    PrunedIsFlat(s.workers[w].clients, RunningOnes(s), c, t);
  }

  // ---------------------------------------------------- draining and reloading

  /** A drain cancels the current context, and makes none. */
  lemma DrainByNumbers(s: State)
    requires Base(s)
    ensures 0 < |s.done|
    ensures var s' := DrainStep(s);
            && s' == s.(done := s'.done) && |s'.done| == |s.done| && forall k | 0 <= k < |s.done| :: s'.done[k]
  {
  }

  /** An undrain makes exactly one context, which is live, if the current one is cancelled, and does nothing otherwise. */
  lemma UndrainByNumbers(s: State)
    requires 0 < |s.done|
    ensures var s' := UndrainStep(s);
            && s' == s.(done := s'.done)
            && (s.done[|s.done| - 1] ==>
                  && |s'.done| == |s.done| + 1 && !s'.done[|s.done|]
                  && forall k | 0 <= k < |s.done| :: s'.done[k] == s.done[k])
            && (!s.done[|s.done| - 1] ==> s'.done == s.done)
  {
  }

  /** A reload takes over six settings and leaves three. */
  lemma ReloadByNumbers(s: State, cfg: Config)
    requires Shaped(s)
    ensures var s' := Next(s, Reload(cfg));
            && s' == s.(cfg := s'.cfg)
            && s'.cfg.minSubInterval == cfg.minSubInterval && s'.cfg.maxSubDuration == cfg.maxSubDuration
            && s'.cfg.utcOffset == cfg.utcOffset && s'.cfg.utcOffsetSeconds == cfg.utcOffsetSeconds
            && s'.cfg.clockClass == cfg.clockClass && s'.cfg.clockAccuracy == cfg.clockAccuracy
            && s'.cfg.domainNumber == s.cfg.domainNumber && s'.cfg.clockIdentity == s.cfg.clockIdentity
            && s'.cfg.hardwareTimestamps == s.cfg.hardwareTimestamps
  {
    hide Shaped;
  }
}
