/** What the record of a run of the server says: grants, spawned runs, how runs end, and rounds of Sync and Follow_Up. */
module History {
  import opened Wire
  import opened Types
  import opened Tlvs
  import opened Packets
  import opened Subscription
  import opened Jobs
  import opened Machine
  import opened Invariants

  // ------------------------------------------------------- the event record

  /** A request within the limits of its moment: slow enough, short enough, and not while drained. */
  predicate MeetsLimits(e: Event)
    requires e.GrantQueued?
  {
    e.period >= e.min && e.asked * NANOS <= e.max && !e.drained
  }

  predicate PassingGrant(e: Event, sc: Ref) {
    e.GrantQueued? && e.sc == sc && MeetsLimits(e) && e.granted == e.asked
  }

  ghost predicate EventOk(s: State, i: nat)
    requires i < |s.log|
  {
    match s.log[i]
    case GrantQueued(sc, _, asked, granted, _, _, _) =>
      sc in s.subs && Signaled(s.subs[sc].typ) && granted == (if MeetsLimits(s.log[i]) then asked else 0)
    case Spawned(r) =>
      && r < |s.runs| && s.runs[r].sc in s.subs
      && (s.subs[s.runs[r].sc].typ != MESSAGE_DELAY_REQ ==> 0 < i && PassingGrant(s.log[i - 1], s.runs[r].sc))
    case Cleared(r) =>
      r < |s.runs|
    case CancelQueued(r) =>
      && r < |s.runs| && s.runs[r].sc in s.subs && s.subs[s.runs[r].sc].typ != MESSAGE_DELAY_REQ
      && Cleared(r) in s.log[..i]
  }

  /** How often an event is on record. */
  function Times(log: seq<Event>, e: Event): nat {
    multiset(log)[e]
  }

  /** A run is spawned once, clears the flag once on its way out, and then queues one Cancel, none for DELAY_REQ. */
  ghost predicate LifeOk(s: State, r: nat)
    requires r < |s.runs|
  {
    var phase := s.runs[r].phase;
    && s.runs[r].sc in s.subs
    && Times(s.log, Spawned(r)) == 1
    && Times(s.log, Cleared(r)) == (if phase.IsCleared? || phase.IsDone? then 1 else 0)
    && Times(s.log, CancelQueued(r)) ==
       (if phase.IsDone? && s.subs[s.runs[r].sc].typ != MESSAGE_DELAY_REQ then 1 else 0)
  }

  ghost predicate HistoryOk(s: State) {
    && (forall i | 0 <= i < |s.log| :: EventOk(s, i))
    && (forall r | 0 <= r < |s.runs| :: LifeOk(s, r))
  }

  /** Nothing is on record about a run that was not spawned yet. */
  lemma NoEventsYet(s: State, r: nat)
    requires HistoryOk(s) && |s.runs| <= r
    ensures Times(s.log, Spawned(r)) == Times(s.log, Cleared(r)) == Times(s.log, CancelQueued(r)) == 0
  {
    forall i | 0 <= i < |s.log| ensures s.log[i] != Spawned(r) && s.log[i] != Cleared(r) && s.log[i] != CancelQueued(r) {
      assert EventOk(s, i);
    }
  }

  /** Old entries stay right while runs keep their subscriptions and subscriptions their types. */
  lemma EventStays(s: State, s': State, i: nat)
    requires i < |s.log| && EventOk(s, i) && Grows(s, s') && s.log <= s'.log
    ensures EventOk(s', i)
  {
    EvolvesKeepsNames(s, s');
    assert s'.log[..i] == s.log[..i];
    hide Evolves, Signaled;
  }

  /** The run has not cleared its flag yet. */
  predicate Early(phase: Phase) {
    !phase.IsCleared? && !phase.IsDone?
  }

  lemma HistoryFrame(s: State, s': State)
    requires HistoryOk(s) && Grows(s, s') && s'.log == s.log && |s'.runs| == |s.runs|
    requires forall r | 0 <= r < |s.runs| :: s'.runs[r].phase == s.runs[r].phase || (Early(s.runs[r].phase) && Early(s'.runs[r].phase))
    ensures HistoryOk(s')
  {
    hide EventOk, Evolves, Times;
    EvolvesKeepsNames(s, s');
    forall i | 0 <= i < |s'.log| ensures EventOk(s', i) {
      EventStays(s, s', i);
    }
    forall r | 0 <= r < |s'.runs| ensures LifeOk(s', r) {
      assert LifeOk(s, r);
    }
  }

  lemma TimesSnoc(log: seq<Event>, e: Event, x: Event)
    ensures Times(log + [e], x) == Times(log, x) + (if x == e then 1 else 0)
  {
    assert multiset(log + [e]) == multiset(log) + multiset{e};
  }

  /** A grant on record, given that it was answered by the limits of its moment. */
  lemma GrantHistory(s: State, s': State, e: Event)
    requires HistoryOk(s) && Grows(s, s') && s'.log == s.log + [e] && s'.runs == s.runs
    requires e.GrantQueued? && e.sc in s'.subs && Signaled(s'.subs[e.sc].typ)
    requires e.granted == if MeetsLimits(e) then e.asked else 0
    ensures HistoryOk(s')
  {
    hide Evolves, Times, Signaled, MeetsLimits;
    EvolvesKeepsNames(s, s');
    forall i | 0 <= i < |s'.log| ensures EventOk(s', i) {
      if i < |s.log| {
        EventStays(s, s', i);
      }
    }
    forall r | 0 <= r < |s'.runs| ensures LifeOk(s', r) {
      assert LifeOk(s, r);
      TimesSnoc(s.log, e, Spawned(r));
      TimesSnoc(s.log, e, Cleared(r));
      TimesSnoc(s.log, e, CancelQueued(r));
    }
  }

  lemma SpawnHistory(s: State, sc: Ref)
    requires HistoryOk(s) && 0 < |s.done| && sc in s.subs && Grows(s, Spawn(s, sc))
    requires s.subs[sc].typ != MESSAGE_DELAY_REQ ==> s.log != [] && PassingGrant(s.log[|s.log| - 1], sc)
    ensures HistoryOk(Spawn(s, sc))
  {
    hide Evolves, Times, Signaled, PassingGrant;
    var s', n := Spawn(s, sc), |s.runs|;
    forall i | 0 <= i < |s'.log| ensures EventOk(s', i) {
      if i < |s.log| {
        EventStays(s, s', i);
      }
    }
    NoEventsYet(s, n);
    forall r | 0 <= r < |s'.runs| ensures LifeOk(s', r) {
      assert r < n ==> LifeOk(s, r);
      TimesSnoc(s.log, Spawned(n), Spawned(r));
      TimesSnoc(s.log, Spawned(n), Cleared(r));
      TimesSnoc(s.log, Spawned(n), CancelQueued(r));
    }
  }

  /** A run clears its flag. */
  lemma ClearHistory(s: State, s': State, r: nat)
    requires HistoryOk(s) && Grows(s, s') && r < |s.runs| && Early(s.runs[r].phase)
    requires s'.log == s.log + [Cleared(r)] && s'.runs == s.runs[r := s.runs[r].(phase := IsCleared)]
    ensures HistoryOk(s')
  {
    hide Evolves, Times, Signaled;
    EvolvesKeepsNames(s, s');
    forall i | 0 <= i < |s'.log| ensures EventOk(s', i) {
      if i < |s.log| {
        EventStays(s, s', i);
      }
    }
    forall k | 0 <= k < |s'.runs| ensures LifeOk(s', k) {
      assert LifeOk(s, k);
      TimesSnoc(s.log, Cleared(r), Spawned(k));
      TimesSnoc(s.log, Cleared(r), Cleared(k));
      TimesSnoc(s.log, Cleared(r), CancelQueued(k));
    }
  }

  /** A run out of its loop finishes, with a Cancel on record unless it is a DELAY_REQ one. */
  lemma FinishHistory(s: State, s': State, r: nat)
    requires HistoryOk(s) && Grows(s, s') && r < |s.runs| && s.runs[r].phase.IsCleared? && s.runs[r].sc in s.subs
    requires s'.log == s.log + (if s.subs[s.runs[r].sc].typ == MESSAGE_DELAY_REQ then [] else [CancelQueued(r)])
    requires s'.runs == s.runs[r := s.runs[r].(phase := IsDone)]
    ensures HistoryOk(s')
  {
    hide Evolves, Times, Signaled;
    EvolvesKeepsNames(s, s');
    assert Cleared(r) in s.log by {
      assert LifeOk(s, r);
      TimesAppears(s.log, Cleared(r));
    }
    assert s'.log[..|s.log|] == s.log;
    forall i | 0 <= i < |s'.log| ensures EventOk(s', i) {
      if i < |s.log| {
        EventStays(s, s', i);
      }
    }
    forall k | 0 <= k < |s'.runs| ensures LifeOk(s', k) {
      assert LifeOk(s, k);
      TimesSnoc(s.log, CancelQueued(r), Spawned(k));
      TimesSnoc(s.log, CancelQueued(r), Cleared(k));
      TimesSnoc(s.log, CancelQueued(r), CancelQueued(k));
      assert s.log + [] == s.log;
    }
  }

  lemma TimesAppears(log: seq<Event>, e: Event)
    ensures 0 < Times(log, e) <==> e in log
  {
  }

  // --------------------------------------------- what each step does to it

  /** A request changes runs and record in one of three ways. */
  lemma RequestRecord(s: State, sg: SignalingPacket, v: Tlv, gclisa: Sockaddr, now: Time, made: Ref)
    requires Base(s) && Shaped(s) && Enabled(s, Request(sg, v, gclisa, now, made))
    requires Signaled(UnicastMsgType(v.msgTypeAndReserved))
    ensures var s', sc := RequestStep(s, sg, v, gclisa, now, made), Enlist(s, sg, v, gclisa, now, made).1;
            var ok, granted := WithinLimits(s, v), if WithinLimits(s, v) then v.durationField else 0;
            var e := GrantQueued(sc, s.period(v.logInterMessagePeriod), v.durationField, granted, s.cfg.minSubInterval,
              s.cfg.maxSubDuration, Drained(s));
            && sc in s'.subs && s'.subs[sc].typ == UnicastMsgType(v.msgTypeAndReserved)
            && s'.subs[sc].client == sg.header.sourcePortIdentity
            && (ok <==> MeetsLimits(e))
            && (ok && !s'.subs[sc].running ==>
                  s'.log == s.log + [e] + [Spawned(|s.runs|)] && s'.runs == s.runs + [Run(sc, |s.done| - 1, IsSpawned)])
            && (!ok || s'.subs[sc].running ==> s'.log == s.log + [e] && s'.runs == s.runs)
  {
    hide Base, Grows, Enlist, Grant;
    EnlistKeeps(s, sg, v, gclisa, now, made);
    var (s1, sc) := Enlist(s, sg, v, gclisa, now, made);
    var duration := if WithinLimits(s, v) then v.durationField else 0;
    GrantKeeps(s1, sc, sg, v, duration);
    GrantEffect(s1, sc, sg, v, duration);
    GrantRecord(s1, sc, sg, v, duration);
  }

  lemma GrantRecord(s: State, sc: Ref, sg: SignalingPacket, v: Tlv, duration: u32)
    requires v.RequestUnicast? && 0 < |s.done| && sc in s.subs && s.subs[sc].worker < |s.workers|
    ensures var s' := Grant(s, sc, sg, v, duration);
            && s'.log == s.log + [GrantQueued(sc, s.period(v.logInterMessagePeriod), v.durationField, duration,
                                              s.cfg.minSubInterval, s.cfg.maxSubDuration, Drained(s))]
            && sc in s'.subs && s'.subs[sc].client == s.subs[sc].client
  {
  }

  lemma RequestKeepsHistory(s: State, sg: SignalingPacket, v: Tlv, gclisa: Sockaddr, now: Time, made: Ref)
    requires Base(s) && Shaped(s) && Enabled(s, Request(sg, v, gclisa, now, made)) && HistoryOk(s)
    ensures HistoryOk(RequestStep(s, sg, v, gclisa, now, made))
  {
    hide Base, Grows, Enlist, Grant, HistoryOk, WithinLimits, MeetsLimits;
    if Signaled(UnicastMsgType(v.msgTypeAndReserved)) {
      EnlistKeeps(s, sg, v, gclisa, now, made);
      var (s1, sc) := Enlist(s, sg, v, gclisa, now, made);
      EnlistHistory(s, sg, v, gclisa, now, made);
      var duration := if WithinLimits(s, v) then v.durationField else 0;
      GrantKeeps(s1, sc, sg, v, duration);
      GrantEffect(s1, sc, sg, v, duration);
      GrantRecord(s1, sc, sg, v, duration);
      var s2 := Grant(s1, sc, sg, v, duration);
      var e := s2.log[|s1.log|];
      assert WithinLimits(s, v) <==> MeetsLimits(e) by {
        WithinLimitsMeets(s, sc, v, duration);
      }
      GrantHistory(s1, s2, e);
      if WithinLimits(s, v) && !s2.subs[sc].running {
        SpawnKeeps(s2, sc);
        SpawnHistory(s2, sc);
      }
    }
  }

  lemma WithinLimitsMeets(s: State, sc: Ref, v: Tlv, granted: u32)
    requires v.RequestUnicast? && 0 < |s.done|
    ensures WithinLimits(s, v) <==>
            MeetsLimits(GrantQueued(sc, s.period(v.logInterMessagePeriod), v.durationField, granted,
                                    s.cfg.minSubInterval, s.cfg.maxSubDuration, Drained(s)))
  {
  }

  lemma EnlistHistory(s: State, sg: SignalingPacket, v: Tlv, gclisa: Sockaddr, now: Time, made: Ref)
    requires Base(s) && Shaped(s) && v.RequestUnicast? && made !in s.subs && Signaled(UnicastMsgType(v.msgTypeAndReserved))
    requires HistoryOk(s)
    ensures HistoryOk(Enlist(s, sg, v, gclisa, now, made).0)
  {
    hide Base, Grows, HistoryOk, Enlist;
    EnlistKeeps(s, sg, v, gclisa, now, made);
    HistoryFrame(s, Enlist(s, sg, v, gclisa, now, made).0);
  }

  lemma DelayRequestKeepsHistory(s: State, p: SyncPacket, rxTs: Time, eclisa: Sockaddr, now: Time, made: Ref)
    requires Base(s) && Shaped(s) && made !in s.subs && HistoryOk(s)
    ensures HistoryOk(DelayRequestStep(s, p, rxTs, eclisa, now, made))
  {
    hide Base, Grows, HistoryOk, Bumped, ExchangeStep;
    var rx := if s.cfg.hardwareTimestamps then rxTs else rxTs + s.cfg.utcOffset;
    var w := FindWorker(s, p.header.sourcePortIdentity, WorkerOffset(p.tlvs));
    DelayRequestKeeps(s, p, rxTs, eclisa, now, made);
    if !Drained(s) {
      if p.header.flagField == FLAG_PROFILE_SPECIFIC1 + FLAG_UNICAST {
        var (s1, sc) := Bumped(s, p, w, eclisa, now, made);
        BumpedKeeps(s, p, w, eclisa, now, made);
        BumpedHistory(s, p, w, eclisa, now, made);
        ExchangeIsBump(s, p, w, rx, eclisa, now, made);
        var u := UpdateAnnounceDelayReq(s.cfg, UpdateSyncDelayReq(s1.subs[sc], rx, p.header.sequenceId),
                                        p.header.correctionField, p.header.sequenceId);
        ExchangeUpdateEvolves(s.cfg, s1.subs[sc], rx, p.header.sequenceId, p.header.correctionField);
        UpdateAndQueueKeeps(s1, sc, u);
        QueueSignalingEffect(SetSub(s1, sc, u), sc);
        HistoryFrame(s1, QueueJob(SetSub(s1, sc, u), sc));
      } else {
        HistoryFrame(s, ResponseStep(s, p, w, rx));
      }
    }
  }

  lemma BumpedHistory(s: State, p: SyncPacket, w: nat, eclisa: Sockaddr, now: Time, made: Ref)
    requires Base(s) && Shaped(s) && w < |s.workers| && made !in s.subs && HistoryOk(s)
    ensures HistoryOk(Bumped(s, p, w, eclisa, now, made).0)
  {
    hide Base, Grows, HistoryOk, Enroll, Spawn, PacketsFit;
    BumpedKeeps(s, p, w, eclisa, now, made);
    var id, expire := p.header.sourcePortIdentity, now + SUBSCRIPTION_DURATION;
    var found := Find(s.workers[w].clients, id, MESSAGE_DELAY_REQ);
    if found.None? {
      var g := GeneralAddress(id, eclisa, eclisa);
      var u := NewSub(s.cfg, id, w, eclisa, g, MESSAGE_DELAY_REQ, SUBSCRIPTION_DURATION, expire, now);
      NewSubFits(s.cfg, id, w, eclisa, g, MESSAGE_DELAY_REQ, SUBSCRIPTION_DURATION, expire, now);
      EnrollKeeps(s, made, u);
      EnrollEffect(s, made, u);
      HistoryFrame(s, Enroll(s, made, u));
      SpawnKeeps(Enroll(s, made, u), made);
      SpawnHistory(Enroll(s, made, u), made);
    } else {
      HistoryFrame(s, Bumped(s, p, w, eclisa, now, made).0);
    }
  }

  lemma BeginKeepsHistory(s: State, r: nat)
    requires Base(s) && Shaped(s) && r < |s.runs| && s.runs[r].phase.IsSpawned? && HistoryOk(s)
    ensures HistoryOk(BeginStep(s, r))
  {
    hide Base, Grows, HistoryOk, BeginRun;
    BeginKeeps(s, r);
    HistoryFrame(s, BeginStep(s, r));
  }

  lemma LeaveKeepsHistory(s: State, r: nat, u: Sub)
    requires Base(s) && r < |s.runs| && s.runs[r].sc in s.subs && Early(s.runs[r].phase) && HistoryOk(s)
    requires u == s.subs[s.runs[r].sc] || u == TakeToken(s.subs[s.runs[r].sc])
    ensures HistoryOk(LeaveStep(s, r, u))
  {
    hide Base, Grows, HistoryOk;
    LeaveKeeps(s, r, u);
    HistoryFrame(s, LeaveStep(s, r, u));
  }

  lemma ClearKeepsHistory(s: State, r: nat)
    requires Base(s) && Shaped(s) && r < |s.runs| && s.runs[r].phase.IsLeft? && HistoryOk(s)
    ensures HistoryOk(ClearStep(s, r))
  {
    hide Base, Grows, HistoryOk;
    ClearKeeps(s, r);
    ClearHistory(s, ClearStep(s, r), r);
  }

  lemma SelectKeepsHistory(s: State, r: nat)
    requires Base(s) && Shaped(s) && r < |s.runs| && s.runs[r].phase.IsLooping? && HistoryOk(s)
    ensures HistoryOk(SelectTickStep(s, r))
  {
    hide Base, Grows, HistoryOk;
    SetPhaseKeeps(s, r, IsTicking);
    HistoryFrame(s, SelectTickStep(s, r));
  }

  lemma TickKeepsHistory(s: State, r: nat, now: Time)
    requires Base(s) && Shaped(s) && r < |s.runs| && s.runs[r].phase.IsTicking? && HistoryOk(s)
    ensures HistoryOk(TickStep(s, r, now))
  {
    hide Base, Grows, HistoryOk, TickRun, LeaveStep;
    TickKeeps(s, r, now);
    if Expired(s.subs[s.runs[r].sc], now) {
      LeaveKeepsHistory(s, r, s.subs[s.runs[r].sc]);
    } else {
      HistoryFrame(s, TickStep(s, r, now));
    }
  }

  lemma FinishKeepsHistory(s: State, r: nat)
    requires Base(s) && Shaped(s) && r < |s.runs| && s.runs[r].phase.IsCleared? && HistoryOk(s)
    ensures HistoryOk(FinishStep(s, r))
  {
    hide Base, Grows, HistoryOk, UpdateSignalingCancel;
    FinishKeeps(s, r);
    CancelKeepsNames(s.subs[s.runs[r].sc]);
    FinishHistory(s, FinishStep(s, r), r);
  }

  /** The steps that spawn, end and grant nothing. */
  predicate Quiet(step: Step) {
    step.CancelRequest? || step.Job? || step.SignalingJob? || step.Inventory? || step.Drain? || step.Undrain? || step.Reload?
  }

  lemma QuietStepKeepsHistory(s: State, step: Step)
    requires Base(s) && Shaped(s) && Enabled(s, step) && HistoryOk(s) && Quiet(step)
    ensures HistoryOk(Next(s, step))
  {
    hide Base, Grows, HistoryOk, JobStep, StopSub, Shaped;
    StepKeepsBase(s, step);
    HistoryFrame(s, Next(s, step));
  }

  lemma RunsAreKnown(s: State)
    requires Shaped(s)
    ensures forall r | 0 <= r < |s.runs| :: s.runs[r].sc in s.subs
  {
  }

  lemma RunStepKeepsHistory(s: State, step: Step)
    requires Base(s) && Shaped(s) && Enabled(s, step) && HistoryOk(s)
    requires step.Begin? || step.SelectTick? || step.Tick? || step.TakeStop? || step.CtxIsDone? || step.Clear? || step.Finish?
    ensures HistoryOk(Next(s, step))
  {
    hide Base, Shaped, Grows, HistoryOk, BeginStep, SelectTickStep, TickStep, LeaveStep, ClearStep, FinishStep, TakeToken, Free;
    RunsAreKnown(s);
    match step {
      case Begin(r) => BeginKeepsHistory(s, r);
      case Tick(r, now) => TickKeepsHistory(s, r, now);
      case SelectTick(r) => SelectKeepsHistory(s, r);
      case TakeStop(r) => LeaveKeepsHistory(s, r, TakeToken(s.subs[s.runs[r].sc]));
      case CtxIsDone(r) => LeaveKeepsHistory(s, r, s.subs[s.runs[r].sc]);
      case Clear(r) => ClearKeepsHistory(s, r);
      case Finish(r) => FinishKeepsHistory(s, r);
    }
  }

    lemma StepKeepsHistory(s: State, step: Step)
    requires Base(s) && Shaped(s) && Enabled(s, step) && HistoryOk(s)
    ensures HistoryOk(Next(s, step))
  {
    hide Base, Shaped, Grows, HistoryOk, RequestStep, DelayRequestStep, Free;
    if step.Request? {
      RequestKeepsHistory(s, step.sg, step.v, step.gclisa, step.now, step.made);
    } else if step.DelayRequest? {
      DelayRequestKeepsHistory(s, step.p, step.rxTs, step.eclisa, step.now, step.made);
    } else if Quiet(step) {
      QuietStepKeepsHistory(s, step);
    } else {
      RunStepKeepsHistory(s, step);
    }
  }
}
