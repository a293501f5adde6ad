/** The Sync rounds of each subscription and its stop token, along the steps of the server. */
module Rounds {
  import opened Wire
  import opened Types
  import opened Tlvs
  import opened Packets
  import opened Subscription
  import opened Jobs
  import opened Machine
  import opened Invariants

  /** Messages that the client can read back from their datagrams. */
  ghost predicate Readable(ms: seq<Message>) {
    forall m | m in ms :: Decodable(m.packet)
  }

  /**
   * What a subscription sent so far can be read back; for a Sync one it is a row of two-step rounds, and the sequence
   * ID counts them.
   */
  ghost predicate RoundOk(s: State, sc: Ref)
    requires sc in s.subs
  {
    && sc in s.sent && Readable(s.sent[sc])
    && (s.subs[sc].typ == MESSAGE_SYNC ==>
          TwoStep(s.sent[sc]) && s.subs[sc].sequenceId == Completed(s.sent[sc]) % 0x1_0000)
  }

  ghost predicate RoundsOk(s: State) {
    forall sc | sc in s.subs :: RoundOk(s, sc)
  }

  /** Nothing was sent, no sequence ID moved, and flag, stop token and lock are as they were, but perhaps for `touched`. */
  ghost predicate SameRounds(s: State, s': State, touched: set<Ref>) {
    && (forall sc | sc in s.subs :: sc in s'.subs && SameRound(s.subs[sc], s'.subs[sc], sc in touched))
    && (forall sc | sc in s'.subs && sc !in s.subs :: Unused(s'.subs[sc]))
    && SameSent(s, s')
  }

  ghost predicate SameSent(s: State, s': State) {
    && s.sent.Keys == s.subs.Keys && s'.sent.Keys == s'.subs.Keys && s.subs.Keys <= s'.subs.Keys
    && (forall sc | sc in s'.sent :: s'.sent[sc] == if sc in s.sent then s.sent[sc] else [])
  }

  predicate SameRound(a: Sub, b: Sub, touched: bool) {
    b.sequenceId == a.sequenceId && b.typ == a.typ && (touched || SameLock(a, b))
  }

  predicate SameLock(a: Sub, b: Sub) {
    b.running == a.running && b.stop == a.stop && b.waiting == a.waiting
  }

  predicate Untouched(u: Sub) {
    !u.running && !u.stop && !u.waiting
  }

  predicate Unused(u: Sub) {
    u.sequenceId == 0 && Untouched(u)
  }

  lemma SameRoundLinks(a: Sub, b: Sub, c: Sub)
    requires SameRound(b, c, false)
    ensures SameRound(a, b, false) ==> SameRound(a, c, false)
    ensures Unused(b) ==> Unused(c)
  {
  }

  lemma SameSentLinks(a: State, b: State, c: State)
    requires SameSent(a, b) && SameSent(b, c)
    ensures SameSent(a, c)
  {
  }

  lemma SameRoundsKeeps(s: State, s': State, touched: set<Ref>)
    requires RoundsOk(s) && SameRounds(s, s', touched)
    ensures RoundsOk(s')
  {
    forall sc | sc in s'.subs ensures RoundOk(s', sc) {
      hide TwoStepAt, Decodable;
      assert sc in s.subs ==> RoundOk(s, sc);
    }
  }

  lemma SetSubSame(s: State, sc: Ref, u: Sub, touched: set<Ref>)
    requires sc in s.subs && SameRound(s.subs[sc], u, sc in touched) && s.sent.Keys == s.subs.Keys
    ensures SameRounds(s, SetSub(s, sc, u), touched)
  {
  }

  lemma SameRoundsTransitive(a: State, b: State, c: State)
    requires SameRounds(a, b, {}) && SameRounds(b, c, {})
    ensures SameRounds(a, c, {})
  {
    hide SameRound, Unused, SameSent;
    SameSentLinks(a, b, c);
    forall sc | sc in a.subs ensures sc in c.subs && SameRound(a.subs[sc], c.subs[sc], false) {
      SameRoundLinks(a.subs[sc], b.subs[sc], c.subs[sc]);
    }
    forall sc | sc in c.subs && sc !in a.subs ensures Unused(c.subs[sc]) {
      if sc in b.subs {
        SameRoundLinks(b.subs[sc], b.subs[sc], c.subs[sc]);
      }
    }
  }

  /** Steps that leave subscriptions and what they sent alone. */
  lemma SameRoundsFrame(s: State, s': State)
    requires s.sent.Keys == s.subs.Keys && s'.subs == s.subs && s'.sent == s.sent
    ensures SameRounds(s, s', {})
  {
  }

  lemma SentKeys(s: State)
    requires Shaped(s)
    ensures s.sent.Keys == s.subs.Keys && 0 < |s.done| && 0 < |s.workers|
  {
  }

  lemma RequestSame(s: State, sg: SignalingPacket, v: Tlv, gclisa: Sockaddr, now: Time, made: Ref)
    requires Shaped(s) && v.RequestUnicast? && made !in s.subs
    ensures SameRounds(s, RequestStep(s, sg, v, gclisa, now, made), {})
  {
    hide Enlist, Grant, WithinLimits;
    if Signaled(UnicastMsgType(v.msgTypeAndReserved)) {
      EnlistSame(s, sg, v, gclisa, now, made);
      var (s1, sc) := Enlist(s, sg, v, gclisa, now, made);
      var s2 := Grant(s1, sc, sg, v, if WithinLimits(s, v) then v.durationField else 0);
      GrantSame(s1, sc, sg, v, if WithinLimits(s, v) then v.durationField else 0);
      SameRoundsTransitive(s, s1, s2);
      SpawnSame(s2, sc);
      SameRoundsTransitive(s, s2, Spawn(s2, sc));
    } else {
      SameRoundsFrame(s, s);
    }
  }

  lemma NewSubIsFresh(cfg: Config, client: PortIdentity, worker: nat, e: Sockaddr, g: Sockaddr, typ: byte, i: Time, exp: Time, now: Time)
    ensures var u := NewSub(cfg, client, worker, e, g, typ, i, exp, now);
            u.sequenceId == 0 && Untouched(u) && u.worker == worker && u.client == client && u.typ == typ
  {
  }

  lemma EnrollSame(s: State, sc: Ref, u: Sub)
    requires s.sent.Keys == s.subs.Keys && sc !in s.subs && u.worker < |s.workers| && u.sequenceId == 0 && Untouched(u)
    ensures SameRounds(s, Enroll(s, sc, u), {})
    ensures var s' := Enroll(s, sc, u);
            s'.sent.Keys == s'.subs.Keys && s'.done == s.done && |s'.workers| == |s.workers| && sc in s'.subs && s'.subs[sc] == u
  {
    hide Register;
  }

  lemma FoundIsKnown(s: State, w: nat, c: PortIdentity, t: byte)
    requires Shaped(s) && w < |s.workers| && Find(s.workers[w].clients, c, t).Some?
    ensures var sc := Find(s.workers[w].clients, c, t).value; sc in s.subs && s.subs[sc].worker < |s.workers|
  {
  }

  lemma EnlistSame(s: State, sg: SignalingPacket, v: Tlv, gclisa: Sockaddr, now: Time, made: Ref)
    requires Shaped(s) && v.RequestUnicast? && made !in s.subs
    ensures var (s1, sc) := Enlist(s, sg, v, gclisa, now, made);
            && SameRounds(s, s1, {}) && 0 < |s1.done| && sc in s1.subs && s1.subs[sc].worker < |s1.workers|
            && s1.sent.Keys == s1.subs.Keys
  {
    hide NewSub, SameRounds, Shaped, Find, Register;
    SentKeys(s);
    var id, t, w := sg.header.sourcePortIdentity, UnicastMsgType(v.msgTypeAndReserved), FindWorker(s, sg.header.sourcePortIdentity, 0);
    var expire, interval := now + DurationOf(v.durationField), s.period(v.logInterMessagePeriod);
    var found := Find(s.workers[w].clients, id, t);
    if found.Some? {
      FoundIsKnown(s, w, id, t);
    }
    if found.None? || !s.subs[found.value].running {
      var u := NewSub(s.cfg, id, w, Sockaddr(gclisa.ip, PORT_EVENT), gclisa, t, interval, expire, now);
      NewSubIsFresh(s.cfg, id, w, Sockaddr(gclisa.ip, PORT_EVENT), gclisa, t, interval, expire, now);
      EnrollSame(s, made, u);
    } else {
      SetSubSame(s, found.value, s.subs[found.value].(expire := expire, interval := interval, gclisa := gclisa), {});
    }
  }

  lemma GrantSame(s: State, sc: Ref, sg: SignalingPacket, v: Tlv, duration: u32)
    requires v.RequestUnicast? && 0 < |s.done| && sc in s.subs && s.subs[sc].worker < |s.workers| && s.sent.Keys == s.subs.Keys
    ensures SameRounds(s, Grant(s, sc, sg, v, duration), {})
    ensures var s' := Grant(s, sc, sg, v, duration); s'.sent.Keys == s'.subs.Keys && s'.done == s.done
  {
  }

  lemma SpawnSame(s: State, sc: Ref)
    requires 0 < |s.done| && s.sent.Keys == s.subs.Keys
    ensures SameRounds(s, Spawn(s, sc), {})
    ensures Spawn(s, sc).sent.Keys == Spawn(s, sc).subs.Keys
  {
  }

  lemma DelayRequestSame(s: State, p: SyncPacket, rxTs: Time, eclisa: Sockaddr, now: Time, made: Ref)
    requires Shaped(s) && made !in s.subs
    ensures SameRounds(s, DelayRequestStep(s, p, rxTs, eclisa, now, made), {})
  {
    hide Bumped, ExchangeStep, QueueJob, SameRounds, Shaped;
    SentKeys(s);
    var rx := if s.cfg.hardwareTimestamps then rxTs else rxTs + s.cfg.utcOffset;
    var w := FindWorker(s, p.header.sourcePortIdentity, WorkerOffset(p.tlvs));
    if Drained(s) {
      SameRoundsFrame(s, s);
    } else if p.header.flagField == FLAG_PROFILE_SPECIFIC1 + FLAG_UNICAST {
      BumpedSame(s, p, w, eclisa, now, made);
      ExchangeIsBump(s, p, w, rx, eclisa, now, made);
      var (s1, sc) := Bumped(s, p, w, eclisa, now, made);
      var u := UpdateAnnounceDelayReq(s.cfg, UpdateSyncDelayReq(s1.subs[sc], rx, p.header.sequenceId),
                                      p.header.correctionField, p.header.sequenceId);
      UpdateAndQueueSame(s1, sc, u);
      SameRoundsTransitive(s, s1, QueueJob(SetSub(s1, sc, u), sc));
    } else {
      var found := Find(s.workers[w].clients, p.header.sourcePortIdentity, MESSAGE_DELAY_RESP);
      if found.Some? {
        FoundIsKnown(s, w, p.header.sourcePortIdentity, MESSAGE_DELAY_RESP);
        UpdateAndQueueSame(s, found.value, UpdateDelayResp(s.subs[found.value], p.header, rx));
      } else {
        SameRoundsFrame(s, s);
      }
    }
  }

  lemma BumpedSame(s: State, p: SyncPacket, w: nat, eclisa: Sockaddr, now: Time, made: Ref)
    requires Shaped(s) && w < |s.workers| && made !in s.subs
    ensures var (s1, sc) := Bumped(s, p, w, eclisa, now, made);
            SameRounds(s, s1, {}) && s1.sent.Keys == s1.subs.Keys
  {
    hide Register, NewSub, SameRounds, Shaped, Find, Spawn;
    SentKeys(s);
    var id, expire := p.header.sourcePortIdentity, now + SUBSCRIPTION_DURATION;
    var found := Find(s.workers[w].clients, id, MESSAGE_DELAY_REQ);
    if found.None? {
      var g := GeneralAddress(id, eclisa, eclisa);
      var u := NewSub(s.cfg, id, w, eclisa, g, MESSAGE_DELAY_REQ, SUBSCRIPTION_DURATION, expire, now);
      NewSubIsFresh(s.cfg, id, w, eclisa, g, MESSAGE_DELAY_REQ, SUBSCRIPTION_DURATION, expire, now);
      EnrollSame(s, made, u);
      SpawnSame(Enroll(s, made, u), made);
      SameRoundsTransitive(s, Enroll(s, made, u), Spawn(Enroll(s, made, u), made));
    } else {
      var sc := found.value;
      assert sc in s.subs by {
        FoundIsKnown(s, w, id, MESSAGE_DELAY_REQ);
      }
      SetSubSame(s, sc, s.subs[sc].(expire := expire, eclisa := eclisa, gclisa := GeneralAddress(id, eclisa, s.subs[sc].gclisa)), {});
    }
  }

  lemma UpdateAndQueueSame(s: State, sc: Ref, u: Sub)
    requires sc in s.subs && SameRound(s.subs[sc], u, false) && s.sent.Keys == s.subs.Keys && u.worker < |s.workers|
    ensures SameRounds(s, QueueJob(SetSub(s, sc, u), sc), {})
  {
  }

  /** One subscription changes, and then only what no round knows. */
  lemma OneSubSame(s: State, s': State, sc: Ref, touched: set<Ref>)
    requires s.sent.Keys == s.subs.Keys && sc in s.subs && sc in s'.subs && s'.sent == s.sent
    requires s'.subs == s.subs[sc := s'.subs[sc]] && SameRound(s.subs[sc], s'.subs[sc], sc in touched)
    ensures SameRounds(s, s', touched)
  {
  }

  lemma CancelRequestSame(s: State, sg: SignalingPacket, v: Tlv, now: Time)
    requires Shaped(s) && v.CancelUnicast?
    ensures var found := CancelTarget(s, sg, v);
            SameRounds(s, CancelStep(s, sg, v, now), if found.Some? then {found.value} else {})
  {
    hide SameRounds;
    var found := CancelTarget(s, sg, v);
    if found.Some? {
      OneSubSame(s, CancelStep(s, sg, v, now), found.value, {found.value});
    } else {
      SameRoundsFrame(s, s);
    }
  }

  lemma BeginSame(s: State, r: nat)
    requires Shaped(s) && r < |s.runs|
    ensures SameRounds(s, BeginStep(s, r), {s.runs[r].sc})
  {
    hide SameRounds;
    OneSubSame(s, BeginStep(s, r), s.runs[r].sc, {s.runs[r].sc});
  }

  lemma LeaveSame(s: State, r: nat, u: Sub, touched: set<Ref>)
    requires Shaped(s) && r < |s.runs| && SameRound(s.subs[s.runs[r].sc], u, s.runs[r].sc in touched)
    ensures SameRounds(s, LeaveStep(s, r, u), touched)
  {
    hide SameRounds;
    OneSubSame(s, LeaveStep(s, r, u), s.runs[r].sc, touched);
  }

  lemma ClearSame(s: State, r: nat)
    requires Shaped(s) && r < |s.runs|
    ensures SameRounds(s, ClearStep(s, r), {s.runs[r].sc})
  {
    hide SameRounds;
    OneSubSame(s, ClearStep(s, r), s.runs[r].sc, {s.runs[r].sc});
  }

  lemma TickSame(s: State, r: nat, now: Time)
    requires Shaped(s) && r < |s.runs|
    ensures SameRounds(s, TickStep(s, r, now), {})
  {
    hide SameRounds, LeaveStep;
    if Expired(s.subs[s.runs[r].sc], now) {
      LeaveSame(s, r, s.subs[s.runs[r].sc], {});
    } else {
      OneSubSame(s, TickStep(s, r, now), s.runs[r].sc, {});
    }
  }

  lemma FinishSame(s: State, r: nat)
    requires Shaped(s) && r < |s.runs|
    ensures SameRounds(s, FinishStep(s, r), {})
  {
    hide SameRounds;
    if s.subs[s.runs[r].sc].typ == MESSAGE_DELAY_REQ {
      SameRoundsFrame(s, FinishStep(s, r));
    } else {
      OneSubSame(s, FinishStep(s, r), s.runs[r].sc, {});
    }
  }

  /** The one step that sends: the round of this subscription moves on, all others stay. */
  lemma TakeJobRounds(s: State, w: nat, o: Outcome)
    requires Shaped(s) && w < |s.workers| && s.workers[w].queue != [] && RoundsOk(s) && PacketsFit(s.subs[s.workers[w].queue[0]])
    ensures RoundsOk(TakeJob(s, w, o))
    ensures forall sc | sc in s.subs :: sc in TakeJob(s, w, o).subs && SameLock(s.subs[sc], TakeJob(s, w, o).subs[sc])
    ensures forall sc | sc in s.subs :: sc in s.sent && sc in TakeJob(s, w, o).sent && s.sent[sc] <= TakeJob(s, w, o).sent[sc]
  {
    hide JobStep, TwoStep, Completed, Decodable;
    var sc := s.workers[w].queue[0];
    var r := JobStep(s.cfg, s.workers[w].olderKernel, s.subs[sc], o);
    JobKeeps(s.cfg, s.workers[w].olderKernel, s.subs[sc], o);
    JobSendsDecodable(s.cfg, s.workers[w].olderKernel, s.subs[sc], o);
    assert RoundOk(s, sc);
    if s.subs[sc].typ == MESSAGE_SYNC {
      JobKeepsTwoStep(s.cfg, s.workers[w].olderKernel, s.subs[sc], o, s.sent[sc]);
    }
    var s' := TakeJob(s, w, o);
    forall x | x in s'.subs ensures RoundOk(s', x) {
      assert RoundOk(s, x);
    }
  }

  /** Whose flag, token or lock a step may change. */
  function Touches(s: State, step: Step): set<Ref>
    requires Shaped(s)
  {
    match step
    case CancelRequest(sg, v, _) =>
      if v.CancelUnicast? && CancelTarget(s, sg, v).Some? then {CancelTarget(s, sg, v).value} else {}
    case Begin(r) => if r < |s.runs| then {s.runs[r].sc} else {}
    case TakeStop(r) => if r < |s.runs| then {s.runs[r].sc} else {}
    case Clear(r) => if r < |s.runs| then {s.runs[r].sc} else {}
    case _ => {}
  }

  lemma QuietSame(s: State, step: Step)
    requires Shaped(s) && Enabled(s, step)
    requires step.SelectTick? || step.SignalingJob? || step.Inventory? || step.Drain? || step.Undrain? || step.Reload?
    ensures SameRounds(s, Next(s, step), {})
  {
    hide SameRounds, Pruned;
    SentKeys(s);
    SameRoundsFrame(s, Next(s, step));
  }

  lemma OtherStepSame(s: State, step: Step)
    requires Shaped(s) && Enabled(s, step) && !step.Job?
    ensures SameRounds(s, Next(s, step), Touches(s, step))
  {
    hide SameRounds, RequestStep, DelayRequestStep, BeginStep, TickStep, LeaveStep, ClearStep, FinishStep, CancelStep;
    SentKeys(s);
    match step {
      case Request(sg, v, gclisa, now, made) => RequestSame(s, sg, v, gclisa, now, made);
      case CancelRequest(sg, v, now) => CancelRequestSame(s, sg, v, now);
      case DelayRequest(p, rxTs, eclisa, now, made) => DelayRequestSame(s, p, rxTs, eclisa, now, made);
      case Begin(r) => BeginSame(s, r);
      case Tick(r, now) => TickSame(s, r, now);
      case TakeStop(r) => LeaveSame(s, r, TakeToken(s.subs[s.runs[r].sc]), {s.runs[r].sc});
      case CtxIsDone(r) => LeaveSame(s, r, s.subs[s.runs[r].sc], {});
      case Clear(r) => ClearSame(s, r);
      case Finish(r) => FinishSame(s, r);
      case Job(_, _) =>
      case _ => QuietSame(s, step);
    }
  }

  /** What a step makes of flag, token and lock of one subscription. */
  predicate LockMoves(step: Step, touched: bool, a: Sub, b: Sub) {
    if !touched then SameLock(a, b)
    else
      match step
      case CancelRequest(_, _, now) => SameLock(StopSub(a, now), b)
      case Begin(_) => SameLock(BeginRun(a), b)
      case TakeStop(_) => SameLock(TakeToken(a), b)
      case Clear(_) => SameLock(ClearRunning(a), b)
      case _ => false
  }

  lemma TouchedLock(s: State, step: Step, sc: Ref)
    requires Shaped(s) && Enabled(s, step) && sc in s.subs && sc in Touches(s, step)
    ensures sc in Next(s, step).subs && LockMoves(step, true, s.subs[sc], Next(s, step).subs[sc])
  {
    hide Find, JobStep, Shaped, RequestStep, DelayRequestStep, TickStep, FinishStep, StopSub, TakeToken;
    if step.CancelRequest? {
      hide LeaveStep, ClearStep, BeginStep;
    } else {
      RunTouches(s, step.r);
    }
  }

  lemma RunTouches(s: State, r: nat)
    requires Shaped(s) && r < |s.runs|
    ensures s.runs[r].sc in s.subs && s.subs[s.runs[r].sc].worker < |s.workers|
  {
  }

  lemma StepKeepsRounds(s: State, step: Step)
    requires WorkOk(s) && Shaped(s) && Enabled(s, step) && RoundsOk(s)
    ensures RoundsOk(Next(s, step))
    ensures forall sc | sc in s.subs ::
              sc in Next(s, step).subs && LockMoves(step, sc in Touches(s, step), s.subs[sc], Next(s, step).subs[sc])
    ensures forall sc | sc in Next(s, step).subs && sc !in s.subs :: Untouched(Next(s, step).subs[sc])
    ensures forall sc | sc in s.subs ::
              sc in s.sent && sc in Next(s, step).sent && s.sent[sc] <= Next(s, step).sent[sc]
  {
    hide RoundsOk, RequestStep, DelayRequestStep, BeginStep, TickStep, LeaveStep, ClearStep, FinishStep, TakeJob, CancelStep;
    if step.Job? {
      assert SubOk(s, s.workers[step.w].queue[0]);
      TakeJobRounds(s, step.w, step.o);
      TakeJobSubs(s, step.w, step.o);
    } else {
      hide Shaped, Enabled, Next, LockMoves, Touches;
      assert s.sent.Keys == s.subs.Keys by {
        SentKeys(s);
      }
      OtherStepSame(s, step);
      SameRoundsKeeps(s, Next(s, step), Touches(s, step));
      forall sc | sc in s.subs
        ensures sc in Next(s, step).subs && LockMoves(step, sc in Touches(s, step), s.subs[sc], Next(s, step).subs[sc])
      {
        if sc in Touches(s, step) {
          TouchedLock(s, step, sc);
        } else {
          UntouchedMoves(step, s.subs[sc], Next(s, step).subs[sc]);
        }
      }
    }
  }

  lemma UntouchedMoves(step: Step, a: Sub, b: Sub)
    ensures LockMoves(step, false, a, b) <==> SameLock(a, b)
  {
  }

  lemma TakeJobSubs(s: State, w: nat, o: Outcome)
    requires Shaped(s) && w < |s.workers| && s.workers[w].queue != []
    ensures TakeJob(s, w, o).subs.Keys == s.subs.Keys
  {
    hide JobStep;
  }
}
