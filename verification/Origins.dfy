/** Over every run of the server: whose messages are sent, as which octets and where to, and what an undrain brings back. */
module Origins {
  import opened Wire
  import opened Types
  import opened Tlvs
  import opened Packets
  import opened Subscription
  import opened Jobs
  import opened Machine
  import opened Invariants
  import opened Handlers
  import opened Rounds
  import opened Locks
  import opened Runs
  import opened Effects
  import Octets

  // ----------------------------------------------------------- one message

  /** A header of this server: type, version 2.1, length, domain, flags, its port 1, control field. */
  predicate OwnHeader(h: Header, typ: byte, length: u16, domain: byte, identity: u64, flags: u16, control: byte) {
    && h.sdoIdAndMsgType == typ && h.version == 0x12 && h.messageLength == length && h.domainNumber == domain
    && h.minorSdoId == 0 && h.flagField == flags && h.messageTypeSpecific == 0
    && h.sourcePortIdentity == PortIdentity(identity, 1) && h.controlField == control
  }

  /** An Announce body of this server: priorities 128, the variance of table 37, itself as grandmaster, time from GNSS. */
  predicate OwnBody(a: AnnounceBody, identity: u64) {
    && a.reserved == 0 && a.grandmasterPriority1 == 128 && a.offsetScaledLogVariance == 23008 && a.grandmasterPriority2 == 128
    && a.grandmasterIdentity == identity && a.stepsRemoved == 0 && a.timeSource == 0x20
  }

  /** A message of this server, by kind; Syncs go through the event socket. */
  predicate Own(m: Message, domain: byte, identity: u64) {
    match m.packet
    case SyncDelayReq(h, _, ts) =>
      OwnHeader(h, 0x00, 44, domain, identity, 0x0600, 0) && h.logMessageInterval == 0x7f && h.correctionField == 0 && ts == [] && m.event
    case FollowUp(h, _) => OwnHeader(h, 0x08, 44, domain, identity, 0x0400, 2) && h.correctionField == 0 && !m.event
    case Announce(h, a, ts) => OwnHeader(h, 0x0B, 64, domain, identity, 0x0408, 5) && OwnBody(a, identity) && ts == [] && !m.event
    case DelayResp(h, _, _) => OwnHeader(h, 0x09, 54, domain, identity, 0x0400, 3) && h.logMessageInterval == 0x7f && !m.event
    case Signaling(_, _, _) => false
  }

  /** The packets of a subscription are messages of this server, and its signaling packet has its version, flag and port. */
  predicate Stamped(u: Sub, domain: byte, identity: u64) {
    && Own(Message(true, u.syncP, u.eclisa), domain, identity) && Own(Message(false, u.followupP, u.gclisa), domain, identity)
    && Own(Message(false, u.announceP, u.gclisa), domain, identity) && Own(Message(false, u.delayRespP, u.gclisa), domain, identity)
    && u.signaling.header.version == 0x12 && u.signaling.header.flagField == 0x0400
    && u.signaling.header.sourcePortIdentity == PortIdentity(identity, 1)
  }

  lemma NewIsStamped(cfg: Config, client: PortIdentity, w: nat, e: Sockaddr, g: Sockaddr, typ: byte, i: Time, exp: Time, now: Time)
    ensures Stamped(NewSub(cfg, client, w, e, g, typ, i, exp, now), cfg.domainNumber, cfg.clockIdentity)
  {
    hide NewTimestamp;
  }

  lemma StampsStay(a: Sub, b: Sub, domain: byte, identity: u64)
    requires Stamped(a, domain, identity) && StampsOf(b) == StampsOf(a)
    requires b.syncP.tlvs == [] && b.announceP.tlvs == []
    ensures Stamped(b, domain, identity)
  {
  }

  lemma FitHasNoTlvs(u: Sub)
    requires PacketsFit(u)
    ensures u.syncP.tlvs == [] && u.announceP.tlvs == []
  {
  }

  /** What a job sends: messages of this server, Syncs to the event address and all others to the general one. */
  lemma JobSendsStamped(cfg: Config, olderKernel: bool, s: Sub, o: Outcome, domain: byte, identity: u64)
    requires Stamped(s, domain, identity) && PacketsFit(s)
    ensures forall m | m in JobStep(cfg, olderKernel, s, o).sent ::
              Own(m, domain, identity) && m.to == if m.event then s.eclisa else s.gclisa
  {
    hide JobStep, Stamped, PacketsFit, StampsOf;
    var r := JobStep(cfg, olderKernel, s, o);
    JobKeeps(cfg, olderKernel, s, o);
    JobSendsOwn(cfg, olderKernel, s, o);
    JobSendsTo(cfg, olderKernel, s, o);
    FitHasNoTlvs(s);
    StampsStay(s, r.sub, domain, identity);
    forall m | m in r.sent ensures Own(m, domain, identity) {
      OwnPacketIsOwn(r.sub, m, domain, identity);
    }
  }

  lemma OwnPacketIsOwn(u: Sub, m: Message, domain: byte, identity: u64)
    requires Stamped(u, domain, identity) && OwnPacket(u, m.packet) && (m.event <==> m.packet.SyncDelayReq?)
    ensures Own(m, domain, identity)
  {
  }

  /** Syncs go to the event address, and everything else to the general one. */
  predicate SentTo(ms: seq<Message>, s: Sub) {
    forall m | m in ms :: (m.event <==> m.packet.SyncDelayReq?) && m.to == if m.event then s.eclisa else s.gclisa
  }

  lemma SyncSendsTo(cfg: Config, olderKernel: bool, s: Sub, o: Outcome)
    ensures SentTo(SyncStep(cfg, olderKernel, s, o).sent, s)
  {
    hide NewTimestamp;
  }

  lemma DelayReqSendsTo(cfg: Config, olderKernel: bool, s: Sub, o: Outcome)
    ensures SentTo(DelayReqStep(cfg, olderKernel, s, o).sent, s)
  {
    hide NewTimestamp;
  }

  lemma JobSendsTo(cfg: Config, olderKernel: bool, s: Sub, o: Outcome)
    ensures SentTo(JobStep(cfg, olderKernel, s, o).sent, s)
  {
    hide SyncStep, DelayReqStep, ClockFields;
    SyncSendsTo(cfg, olderKernel, s, o);
    DelayReqSendsTo(cfg, olderKernel, s, o);
  }

  // ------------------------------------------------------ where subscriptions come from

  /** Where a subscription comes from that was not there before a step. */
  ghost predicate Arrived(s: State, step: Step, u: Sub, sc: Ref) {
    && Stamped(u, s.cfg.domainNumber, s.cfg.clockIdentity)
    && (if step.Request? then
          sc == step.made && u.typ != 0x1 && u.eclisa.port == 319 && u.eclisa.ip == step.gclisa.ip
        else step.DelayRequest? && sc == step.made && u.typ == 0x1)
  }

  lemma RequestArrives(s: State, sg: SignalingPacket, v: Tlv, gclisa: Sockaddr, now: Time, made: Ref, sc: Ref)
    requires Base(s) && Shaped(s) && Enabled(s, Request(sg, v, gclisa, now, made))
    ensures var s' := RequestStep(s, sg, v, gclisa, now, made);
            && s'.cfg == s.cfg
            && (sc in s'.subs && sc !in s.subs ==> Arrived(s, Request(sg, v, gclisa, now, made), s'.subs[sc], sc))
  {
    hide Base, Enlist, Grant, WithinLimits, Evolves, Stamped, StampsOf, Shaped, PacketsFit;
    RequestEnabled(s, sg, v, gclisa, now, made);
    NonEmpty(s);
    if Signaled(UnicastMsgType(v.msgTypeAndReserved)) {
      EnlistKeeps(s, sg, v, gclisa, now, made);
      var (s1, sc1) := Enlist(s, sg, v, gclisa, now, made);
      var duration := if WithinLimits(s, v) then v.durationField else 0;
      GrantKeeps(s1, sc1, sg, v, duration);
      GrantEffect(s1, sc1, sg, v, duration);
      EnlistArrives(s, sg, v, gclisa, now, made);
      if sc1 == made && made in s1.subs {
        GrantStamps(s1, sc1, sg, v, duration, s.cfg.domainNumber, s.cfg.clockIdentity);
      }
    }
  }

  lemma EnlistArrives(s: State, sg: SignalingPacket, v: Tlv, gclisa: Sockaddr, now: Time, made: Ref)
    requires Base(s) && Shaped(s) && v.RequestUnicast? && made !in s.subs && Signaled(UnicastMsgType(v.msgTypeAndReserved))
    ensures var (s1, sc) := Enlist(s, sg, v, gclisa, now, made);
            && (sc in s.subs ==> s1.subs.Keys == s.subs.Keys)
            && (sc !in s.subs ==>
                  && sc == made && s1.subs.Keys == s.subs.Keys + {made} && s1.subs[made].typ != 0x1
                  && s1.subs[made].eclisa.port == 319 && s1.subs[made].eclisa.ip == gclisa.ip
                  && Stamped(s1.subs[made], s.cfg.domainNumber, s.cfg.clockIdentity))
  {
    hide Base, Shaped, Register, Stamped, NewSub;
    NonEmpty(s);
    var id, t := sg.header.sourcePortIdentity, UnicastMsgType(v.msgTypeAndReserved);
    var w, expire, interval := FindWorker(s, id, 0), now + DurationOf(v.durationField), s.period(v.logInterMessagePeriod);
    if Find(s.workers[w].clients, id, t).Some? {
      EntryFound(s, w, id, t);
    }
    NewIsStamped(s.cfg, id, w, Sockaddr(gclisa.ip, PORT_EVENT), gclisa, t, interval, expire, now);
    NewGoesTo(s.cfg, id, w, Sockaddr(gclisa.ip, PORT_EVENT), gclisa, t, interval, expire, now);
  }

  lemma NewGoesTo(cfg: Config, client: PortIdentity, w: nat, e: Sockaddr, g: Sockaddr, typ: byte, i: Time, exp: Time, now: Time)
    ensures var u := NewSub(cfg, client, w, e, g, typ, i, exp, now); u.eclisa == e && u.typ == typ
  {
  }

  lemma GrantStamps(s: State, sc: Ref, sg: SignalingPacket, v: Tlv, duration: u32, domain: byte, identity: u64)
    requires v.RequestUnicast? && 0 < |s.done| && sc in s.subs && s.subs[sc].worker < |s.workers|
    requires Stamped(s.subs[sc], domain, identity)
    ensures var s' := Grant(s, sc, sg, v, duration);
            && sc in s'.subs && Stamped(s'.subs[sc], domain, identity)
            && s'.subs[sc].eclisa == s.subs[sc].eclisa && s'.subs[sc].typ == s.subs[sc].typ
  {
  }

  lemma DelayRequestArrives(s: State, p: SyncPacket, rxTs: Time, eclisa: Sockaddr, now: Time, made: Ref, sc: Ref)
    requires Base(s) && Shaped(s) && made !in s.subs
    ensures var s' := DelayRequestStep(s, p, rxTs, eclisa, now, made);
            && s'.cfg == s.cfg
            && (sc in s'.subs && sc !in s.subs ==> Arrived(s, DelayRequest(p, rxTs, eclisa, now, made), s'.subs[sc], sc))
  {
    hide Base, Bumped, NewTimestamp, Stamped, Shaped, Exchanged;
    NonEmpty(s);
    if s.done[|s.done| - 1] {
      DrainedByNumbers(s, p, rxTs, eclisa, now, made);
    } else if p.header.flagField != 0x2400 {
      ResponseByNumbers(s, p, rxTs, eclisa, now, made);
    } else {
      var w := FindWorker(s, p.header.sourcePortIdentity, WorkerOffset(p.tlvs));
      var rx := if s.cfg.hardwareTimestamps then rxTs else rxTs + s.cfg.utcOffset;
      ExchangeByNumbers(s, p, rxTs, eclisa, now, made);
      BumpByNumbers(s, p, w, eclisa, now, made);
      BumpArrives(s, p, w, eclisa, now, made);
      var (s1, sc1) := Bumped(s, p, w, eclisa, now, made);
      if sc1 !in s.subs {
        ExchangedStamps(s.cfg, s1.subs[sc1], DelayRequestStep(s, p, rxTs, eclisa, now, made).subs[sc1], p, rx,
                        s.cfg.domainNumber, s.cfg.clockIdentity);
      }
    }
  }

  lemma BumpArrives(s: State, p: SyncPacket, w: nat, eclisa: Sockaddr, now: Time, made: Ref)
    requires Base(s) && Shaped(s) && w < |s.workers| && made !in s.subs
    ensures var (s1, sc) := Bumped(s, p, w, eclisa, now, made);
            && s1.cfg == s.cfg
            && (sc in s.subs ==> s1.subs.Keys == s.subs.Keys)
            && (sc !in s.subs ==>
                  && sc == made && s1.subs.Keys == s.subs.Keys + {made}
                  && Stamped(s1.subs[made], s.cfg.domainNumber, s.cfg.clockIdentity))
  {
    hide Base, Shaped, Register, Stamped, NewSub;
    NonEmpty(s);
    var id := p.header.sourcePortIdentity;
    if Find(s.workers[w].clients, id, MESSAGE_DELAY_REQ).Some? {
      EntryFound(s, w, id, MESSAGE_DELAY_REQ);
    }
    NewIsStamped(s.cfg, id, w, eclisa, GeneralAddress(id, eclisa, eclisa), MESSAGE_DELAY_REQ, SUBSCRIPTION_DURATION,
                 now + SUBSCRIPTION_DURATION, now);
  }

  lemma ExchangedStamps(cfg: Config, a: Sub, b: Sub, p: SyncPacket, rx: Time, domain: byte, identity: u64)
    requires Exchanged(cfg, a, b, p, rx) && Stamped(a, domain, identity)
    ensures Stamped(b, domain, identity) && b.typ == a.typ
  {
    hide NewTimestamp;
  }

  /** Steps that make nothing and configure nothing but what a reload may. */
  lemma QuietArrives(s: State, step: Step)
    requires Shaped(s) && Enabled(s, step) && !step.Request? && !step.DelayRequest?
    ensures Next(s, step).subs.Keys == s.subs.Keys
    ensures Next(s, step).cfg.domainNumber == s.cfg.domainNumber && Next(s, step).cfg.clockIdentity == s.cfg.clockIdentity
  {
    hide Shaped, RequestStep, DelayRequestStep, JobStep, Pruned, Find, StopSub;
    SentKeys(s);
    if RunOf(step).Some? {
      RunTouches(s, RunOf(step).value);
    } else if step.Job? {
      TakenIsKnown(s, step.w);
    } else if step.CancelRequest? {
      TargetIsKnown(s, step.sg, step.v);
    }
  }

  lemma TakenIsKnown(s: State, w: nat)
    requires Shaped(s) && w < |s.workers| && s.workers[w].queue != []
    ensures s.workers[w].queue[0] in s.subs
  {
  }

  lemma TargetIsKnown(s: State, sg: SignalingPacket, v: Tlv)
    requires Shaped(s) && v.CancelUnicast?
    ensures CancelTarget(s, sg, v).Some? ==> CancelTarget(s, sg, v).value in s.subs
  {
  }

  /** Domain and identity of the server never change. */
  lemma IdentityStays(s: State, step: Step)
    requires Base(s) && Shaped(s) && Enabled(s, step)
    ensures Next(s, step).cfg.domainNumber == s.cfg.domainNumber && Next(s, step).cfg.clockIdentity == s.cfg.clockIdentity
  {
    hide Base, Shaped, RequestStep, DelayRequestStep, Stamped, Arrived;
    if step.Request? {
      RequestArrives(s, step.sg, step.v, step.gclisa, step.now, step.made, step.made);
    } else if step.DelayRequest? {
      DelayRequestArrives(s, step.p, step.rxTs, step.eclisa, step.now, step.made, step.made);
    } else {
      QuietArrives(s, step);
    }
  }

  lemma StepArrives(s: State, step: Step, sc: Ref)
    requires Base(s) && Shaped(s) && Enabled(s, step)
    ensures sc in Next(s, step).subs && sc !in s.subs ==> Arrived(s, step, Next(s, step).subs[sc], sc)
  {
    hide Base, Shaped, RequestStep, DelayRequestStep, Stamped, Arrived;
    if step.Request? {
      RequestArrives(s, step.sg, step.v, step.gclisa, step.now, step.made, sc);
    } else if step.DelayRequest? {
      DelayRequestArrives(s, step.p, step.rxTs, step.eclisa, step.now, step.made, sc);
    } else {
      QuietArrives(s, step);
    }
  }

  // -------------------------------------------------------- over whole runs

  /** A message that was sent for a subscription as it is now. */
  predicate SentFor(m: Message, u: Sub, domain: byte, identity: u64) {
    Own(m, domain, identity) && (m.event && u.typ != MESSAGE_DELAY_REQ ==> m.to == u.eclisa)
  }

  ghost predicate OriginOk(s: State, sc: Ref)
    requires sc in s.subs
  {
    && sc in s.sent && Stamped(s.subs[sc], s.cfg.domainNumber, s.cfg.clockIdentity)
    && forall m | m in s.sent[sc] :: SentFor(m, s.subs[sc], s.cfg.domainNumber, s.cfg.clockIdentity)
  }

  ghost predicate OriginsOk(s: State) {
    forall sc | sc in s.subs :: OriginOk(s, sc)
  }

  lemma SameEventAddress(a: Sub, b: Sub)
    requires StampsOf(b) == StampsOf(a) && b.typ == a.typ && b.typ != MESSAGE_DELAY_REQ
    ensures b.eclisa == a.eclisa
  {
  }

  /** One subscription along a step that sends nothing for it. */
  lemma OriginStays(s: State, s': State, sc: Ref)
    requires sc in s.subs && sc in s'.subs && OriginOk(s, sc) && Evolves(s.subs[sc], s'.subs[sc]) && PacketsFit(s'.subs[sc])
    requires sc in s'.sent && s'.sent[sc] == s.sent[sc]
    requires s'.cfg.domainNumber == s.cfg.domainNumber && s'.cfg.clockIdentity == s.cfg.clockIdentity
    ensures OriginOk(s', sc)
  {
    hide Own, Stamped, StampsOf, PacketsFit, SignalingReady;
    FitHasNoTlvs(s'.subs[sc]);
    StampsStay(s.subs[sc], s'.subs[sc], s.cfg.domainNumber, s.cfg.clockIdentity);
    if s.subs[sc].typ != MESSAGE_DELAY_REQ {
      SameEventAddress(s.subs[sc], s'.subs[sc]);
    }
  }

  lemma OriginArrives(s: State, step: Step, s': State, sc: Ref)
    requires sc in s'.subs && Arrived(s, step, s'.subs[sc], sc) && sc in s'.sent && s'.sent[sc] == []
    requires s'.cfg.domainNumber == s.cfg.domainNumber && s'.cfg.clockIdentity == s.cfg.clockIdentity
    ensures OriginOk(s', sc)
  {
    hide Stamped;
  }

  lemma OtherKeepsOrigins(s: State, step: Step)
    requires Good(s) && Shaped(s) && Enabled(s, step) && !step.Job? && OriginsOk(s)
    ensures OriginsOk(Next(s, step))
  {
    hide Good, Base, Shaped, Enabled, Next, OriginOk, Arrived, Evolves, PacketsFit, SameRound, Touches;
    GoodIsShaped(s);
    StepKeepsBase(s, step);
    OtherStepSame(s, step);
    IdentityStays(s, step);
    forall sc | sc in Next(s, step).subs ensures OriginOk(Next(s, step), sc) {
      StepArrives(s, step, sc);
      SubFits(Next(s, step), sc);
      if sc in s.subs {
        OriginStays(s, Next(s, step), sc);
      } else {
        OriginArrives(s, step, Next(s, step), sc);
      }
    }
  }

  lemma JobKeepsOrigins(s: State, w: nat, o: Outcome)
    requires Good(s) && Shaped(s) && Enabled(s, Job(w, o)) && OriginsOk(s)
    ensures OriginsOk(TakeJob(s, w, o))
  {
    hide Good, Base, RegistryOk, WorkOk, OriginOk, JobStep, PacketsFit, Evolves, StampsOf;
    GoodIsShaped(s);
    var sc, older := s.workers[w].queue[0], s.workers[w].olderKernel;
    assert sc in s.subs && OriginOk(s, sc);
    SubFits(s, sc);
    TakeJobKeeps(s, w, o);
    var s', r := TakeJob(s, w, o), JobStep(s.cfg, older, s.subs[sc], o);
    forall x | x in s'.subs ensures OriginOk(s', x) {
      assert OriginOk(s, x);
      SubFits(s', x);
      if x != sc {
        OriginStays(s, s', x);
      } else {
        OriginSends(s, s', sc, older, o);
      }
    }
  }

  /** The subscription that a job was for: its messages are added to what was sent. */
  lemma OriginSends(s: State, s': State, sc: Ref, older: bool, o: Outcome)
    requires sc in s.subs && sc in s'.subs && OriginOk(s, sc) && PacketsFit(s.subs[sc]) && s'.cfg == s.cfg
    requires var r := JobStep(s.cfg, older, s.subs[sc], o);
             s'.subs[sc] == r.sub && sc in s.sent && sc in s'.sent && s'.sent[sc] == s.sent[sc] + r.sent
    ensures OriginOk(s', sc)
  {
    hide JobStep, PacketsFit, StampsOf, Stamped, Own;
    JobKeeps(s.cfg, older, s.subs[sc], o);
    JobSendsStamped(s.cfg, older, s.subs[sc], o, s.cfg.domainNumber, s.cfg.clockIdentity);
    FitHasNoTlvs(s.subs[sc]);
    StampsStay(s.subs[sc], s'.subs[sc], s.cfg.domainNumber, s.cfg.clockIdentity);
    if s.subs[sc].typ != MESSAGE_DELAY_REQ {
      SameEventAddress(s.subs[sc], s'.subs[sc]);
    }
  }

  lemma JobIsNext(s: State, w: nat, o: Outcome)
    requires Shaped(s) && Enabled(s, Job(w, o))
    ensures w < |s.workers| && s.workers[w].queue != [] && Next(s, Job(w, o)) == TakeJob(s, w, o)
  {
    hide Shaped, TakeJob;
  }

  lemma NothingAtFirst(s: State)
    requires Init(s)
    ensures OriginsOk(s)
  {
  }

  lemma {:induction false} OriginsHold(states: seq<State>, steps: seq<Step>, i: nat)
    requires Execution(states, steps) && i <= |steps|
    ensures OriginsOk(states[i])
    ensures states[i].cfg.domainNumber == states[0].cfg.domainNumber && states[i].cfg.clockIdentity == states[0].cfg.clockIdentity
  {
    hide Good, Base, Shaped, Enabled, Next, OriginOk, Arrived;
    ExecutionLength(states, steps);
    if i == 0 {
      NothingAtFirst(states[0]);
    } else {
      OriginsHold(states, steps, i - 1);
      Reachable(states, steps, i);
      GoodIsShaped(states[i - 1]);
      var s, step := states[i - 1], steps[i - 1];
      IdentityStays(s, step);
      if step.Job? {
        JobKeepsOrigins(s, step.w, step.o);
        JobIsNext(s, step.w, step.o);
      } else {
        OtherKeepsOrigins(s, step);
      }
    }
  }

  /**
   * Every message ever sent is one of this server: its version, domain, flags, length and port, whatever was reloaded,
   * renewed or answered since; an Announce names it as the grandmaster.
   */
  lemma SentIsOwn(states: seq<State>, steps: seq<Step>, i: nat, sc: Ref, k: nat)
    requires Execution(states, steps) && i <= |steps| && sc in states[i].subs && sc in states[i].sent && k < |states[i].sent[sc]|
    ensures Own(states[i].sent[sc][k], states[0].cfg.domainNumber, states[0].cfg.clockIdentity)
  {
    hide Execution, Own, OriginsOk;
    ExecutionLength(states, steps);
    OriginsHold(states, steps, i);
    SentIsFor(states[i], sc, k);
  }

  lemma SentIsFor(s: State, sc: Ref, k: nat)
    requires OriginsOk(s) && sc in s.subs && sc in s.sent && k < |s.sent[sc]|
    ensures SentFor(s.sent[sc][k], s.subs[sc], s.cfg.domainNumber, s.cfg.clockIdentity)
  {
    hide SentFor, Stamped;
    assert OriginOk(s, sc);
    assert s.sent[sc][k] in s.sent[sc];
  }

  /** The octets that are the same in every packet of a kind. */
  predicate Signed(e: seq<byte>, typ: byte, length: byte, domain: byte, flags: byte, moreFlags: byte, id: u64, control: byte) {
    && 34 <= |e|
    && e[..8] == [typ, 0x12, 0, length, domain, 0, flags, moreFlags]
    && e[20..30] == [(id / 0x100_0000_0000_0000 % 256) as byte, (id / 0x1_0000_0000_0000 % 256) as byte,
                     (id / 0x100_0000_0000 % 256) as byte, (id / 0x1_0000_0000 % 256) as byte,
                     (id / 0x100_0000 % 256) as byte, (id / 0x1_0000 % 256) as byte,
                     (id / 0x100 % 256) as byte, (id % 256) as byte, 0, 1]
    && e[32] == control
  }

  lemma HeaderIsSigned(h: Header, typ: byte, length: byte, domain: byte, flags: byte, moreFlags: byte, id: u64, control: byte)
    requires OwnHeader(h, typ, length as int, domain, id, 0x100 * flags as int + moreFlags as int, control)
    ensures Signed(EncodeHeader(h), typ, length, domain, flags, moreFlags, id, control)
  {
    hide EncodeHeader;
    Octets.HeaderOctets(h);
  }

  lemma PacketIsSigned(p: Packet, typ: byte, length: byte, domain: byte, flags: byte, moreFlags: byte, id: u64, control: byte)
    requires AllEncodable(TlvsOf(p)) && Signed(EncodeHeader(p.header), typ, length, domain, flags, moreFlags, id, control)
    ensures Signed(Encode(p), typ, length, domain, flags, moreFlags, id, control)
  {
    hide Encode, EncodeHeader, EncodeBody, EncodeTlvs, AllEncodable;
    Octets.PacketParts(p);
    var e := Encode(p)[..34];
    assert e[..8] == Encode(p)[..8] && e[20..30] == Encode(p)[20..30] && e[32] == Encode(p)[32];
  }

  /**
   * The octets of every message ever sent: type, version 2.1, a length of 44, 54 or 64, the domain and the flags of its
   * kind in octets 0 to 8, the clock identity from 20 on, port 1 behind it, and the control octet.
   */
  lemma SentOctets(states: seq<State>, steps: seq<Step>, i: nat, sc: Ref, k: nat)
    requires Execution(states, steps) && i <= |steps| && sc in states[i].subs && sc in states[i].sent && k < |states[i].sent[sc]|
    ensures var p, d, id := states[i].sent[sc][k].packet, states[0].cfg.domainNumber, states[0].cfg.clockIdentity;
            && AllEncodable(TlvsOf(p)) && !p.Signaling?
            && (p.SyncDelayReq? ==> Signed(Encode(p), 0x00, 44, d, 0x06, 0x00, id, 0))
            && (p.FollowUp? ==> Signed(Encode(p), 0x08, 44, d, 0x04, 0x00, id, 2))
            && (p.DelayResp? ==> Signed(Encode(p), 0x09, 54, d, 0x04, 0x00, id, 3))
            && (p.Announce? ==> Signed(Encode(p), 0x0B, 64, d, 0x04, 0x08, id, 5))
  {
    hide Execution, Own, Signed, Datagram, Decode, Encode, AllEncodable;
    ExecutionLength(states, steps);
    SentIsOwn(states, steps, i, sc, k);
    SentMessagesDecode(states, steps, i, sc, k);
    OwnOctets(states[i].sent[sc][k], states[0].cfg.domainNumber, states[0].cfg.clockIdentity);
  }

  lemma OwnOctets(m: Message, d: byte, id: u64)
    requires Own(m, d, id) && AllEncodable(TlvsOf(m.packet))
    ensures var p := m.packet;
            && !p.Signaling?
            && (p.SyncDelayReq? ==> Signed(Encode(p), 0x00, 44, d, 0x06, 0x00, id, 0))
            && (p.FollowUp? ==> Signed(Encode(p), 0x08, 44, d, 0x04, 0x00, id, 2))
            && (p.DelayResp? ==> Signed(Encode(p), 0x09, 54, d, 0x04, 0x00, id, 3))
            && (p.Announce? ==> Signed(Encode(p), 0x0B, 64, d, 0x04, 0x08, id, 5))
  {
    hide Encode, EncodeHeader, Signed, OwnBody, AllEncodable;
    var p := m.packet;
    match p {
      case SyncDelayReq(h, _, _) =>
        HeaderIsSigned(h, 0x00, 44, d, 0x06, 0x00, id, 0);
        PacketIsSigned(p, 0x00, 44, d, 0x06, 0x00, id, 0);
      case FollowUp(h, _) =>
        HeaderIsSigned(h, 0x08, 44, d, 0x04, 0x00, id, 2);
        PacketIsSigned(p, 0x08, 44, d, 0x04, 0x00, id, 2);
      case DelayResp(h, _, _) =>
        HeaderIsSigned(h, 0x09, 54, d, 0x04, 0x00, id, 3);
        PacketIsSigned(p, 0x09, 54, d, 0x04, 0x00, id, 3);
      case Announce(h, _, _) =>
        HeaderIsSigned(h, 0x0B, 64, d, 0x04, 0x08, id, 5);
        PacketIsSigned(p, 0x0B, 64, d, 0x04, 0x08, id, 5);
      case Signaling(_, _, _) => assert false;
    }
  }

  /** A Grant or Cancel that waits to be sent is signed by this server, too. */
  lemma SignalsAreOwn(states: seq<State>, steps: seq<Step>, i: nat, w: nat, sc: Ref)
    requires Execution(states, steps) && i <= |steps| && w < |states[i].workers| && sc in states[i].workers[w].signalingQueue
    ensures sc in states[i].subs
    ensures var h := states[i].subs[sc].signaling.header;
            h.version == 0x12 && h.flagField == 0x0400 && h.sourcePortIdentity == PortIdentity(states[0].cfg.clockIdentity, 1)
  {
    hide Execution, Own, SentFor, SignalingReady;
    ExecutionLength(states, steps);
    SignalsDecode(states, steps, i, w, sc);
    OriginsHold(states, steps, i);
    assert OriginOk(states[i], sc);
  }

  lemma ArrivedByRequest(states: seq<State>, steps: seq<Step>, b: nat, sc: Ref)
    requires Execution(states, steps) && b < |steps|
    requires sc !in states[b].subs && sc in states[b + 1].subs && states[b + 1].subs[sc].typ != 0x1
    ensures steps[b].Request? && states[b + 1].subs[sc].eclisa == Sockaddr(steps[b].gclisa.ip, 319)
  {
    hide Execution, Stamped, Shaped, Base, Enabled, Next, Good;
    ExecutionLength(states, steps);
    Reachable(states, steps, b + 1);
    GoodIsShaped(states[b]);
    StepArrives(states[b], steps[b], sc);
  }

  /**
   * Every Sync ever sent for a subscription that a client asked for goes to port 319 of the address from which the
   * request came that made this subscription, whatever address and port later requests come from.
   */
  lemma SyncsGoToPort319(states: seq<State>, steps: seq<Step>, b: nat, i: nat, sc: Ref, k: nat)
    requires Execution(states, steps) && b < i <= |steps| && sc !in states[b].subs && sc in states[b + 1].subs
    requires states[b + 1].subs[sc].typ != 0x1 && sc in states[i].sent && k < |states[i].sent[sc]|
    ensures steps[b].Request?
    ensures var m := states[i].sent[sc][k];
            && (m.packet.SyncDelayReq? <==> m.event)
            && (m.packet.SyncDelayReq? ==> m.to == Sockaddr(steps[b].gclisa.ip, 319))
  {
    hide Execution, Evolves, OriginsOk, OwnBody, OwnHeader;
    ExecutionLength(states, steps);
    ArrivedByRequest(states, steps, b, sc);
    GrowsAlong(states, steps, b + 1, i);
    AddressStays(states[b + 1].subs[sc], states[i].subs[sc]);
    OriginsHold(states, steps, i);
    SentIsFor(states[i], sc, k);
  }

  lemma AddressStays(a: Sub, b: Sub)
    requires Evolves(a, b) && a.typ != MESSAGE_DELAY_REQ
    ensures b.eclisa == a.eclisa && b.typ == a.typ
  {
    hide PacketsFit, SignalingReady;
  }
}
