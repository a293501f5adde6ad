/** Running flags and locks: which runs stand behind a flag, and when a Stop that waits can ever go on. */
module Locks {
  import opened Wire
  import opened Types
  import opened Tlvs
  import opened Packets
  import opened Subscription
  import opened Jobs
  import opened Machine
  import opened Invariants
  import opened Rounds

  /** Between setRunning(true) and setRunning(false). */
  predicate Active(phase: Phase) {
    phase.IsLooping? || phase.IsTicking? || phase.IsLeft?
  }

  /** Run r has set the flag of sc and not cleared it yet. */
  predicate StandsFor(s: State, r: nat, sc: Ref) {
    r < |s.runs| && s.runs[r].sc == sc && Active(s.runs[r].phase)
  }

  /** A flag has a run behind it; a Stop waits for a full slot of a running subscription only. */
  ghost predicate LiveOk(s: State, sc: Ref)
    requires sc in s.subs
  {
    && (s.subs[sc].running ==> exists r: nat :: StandsFor(s, r, sc))
    && (s.subs[sc].waiting ==> s.subs[sc].stop && s.subs[sc].running)
  }

  ghost predicate AllLive(s: State) {
    forall sc | sc in s.subs :: LiveOk(s, sc)
  }

  // ------------------------------------------------------- phases of runs

  /** Which run a step belongs to. */
  function RunOf(step: Step): Option<nat> {
    match step
    case Begin(r) => Some(r)
    case SelectTick(r) => Some(r)
    case Tick(r, _) => Some(r)
    case TakeStop(r) => Some(r)
    case CtxIsDone(r) => Some(r)
    case Clear(r) => Some(r)
    case Finish(r) => Some(r)
    case _ => None
  }

  /** Where a step takes its run. */
  predicate PhaseMoves(step: Step, a: Phase, b: Phase) {
    match step
    case Begin(_) => a.IsSpawned? && b.IsLooping?
    case SelectTick(_) => a.IsLooping? && b.IsTicking?
    case Tick(_, _) => a.IsTicking? && (b.IsLooping? || b.IsLeft?)
    case TakeStop(_) => a.IsLooping? && b.IsLeft?
    case CtxIsDone(_) => a.IsLooping? && b.IsLeft?
    case Clear(_) => a.IsLeft? && b.IsCleared?
    case Finish(_) => a.IsCleared? && b.IsDone?
    case _ => false
  }

  /** Runs are only added, spawned, and only the run of a step changes its phase. */
  ghost predicate RunsFollow(s: State, step: Step, s': State) {
    && |s.runs| <= |s'.runs|
    && (forall r | 0 <= r < |s.runs| ::
          s'.runs[r].sc == s.runs[r].sc &&
          if RunOf(step) == Some(r) then PhaseMoves(step, s.runs[r].phase, s'.runs[r].phase) else s'.runs[r].phase == s.runs[r].phase)
    && (forall r | |s.runs| <= r < |s'.runs| :: s'.runs[r].phase.IsSpawned?)
  }

  lemma SpawnedAtMostOne(s: State, s': State, step: Step)
    requires s'.runs == s.runs || (exists sc, c :: s'.runs == s.runs + [Run(sc, c, IsSpawned)])
    requires RunOf(step).None?
    ensures RunsFollow(s, step, s')
  {
  }

  lemma RequestRuns(s: State, sg: SignalingPacket, v: Tlv, gclisa: Sockaddr, now: Time, made: Ref)
    requires Base(s) && Shaped(s) && Enabled(s, Request(sg, v, gclisa, now, made))
    ensures RunsFollow(s, Request(sg, v, gclisa, now, made), RequestStep(s, sg, v, gclisa, now, made))
  {
    hide Base, Grows, Enlist, Grant, WithinLimits;
    var s' := RequestStep(s, sg, v, gclisa, now, made);
    if Signaled(UnicastMsgType(v.msgTypeAndReserved)) {
      EnlistKeeps(s, sg, v, gclisa, now, made);
      var (s1, sc) := Enlist(s, sg, v, gclisa, now, made);
      GrantEffect(s1, sc, sg, v, if WithinLimits(s, v) then v.durationField else 0);
      assert s'.runs == s.runs || s'.runs == s.runs + [Run(sc, |s.done| - 1, IsSpawned)];
    }
    SpawnedAtMostOne(s, s', Request(sg, v, gclisa, now, made));
  }

  lemma DelayRequestRuns(s: State, p: SyncPacket, rxTs: Time, eclisa: Sockaddr, now: Time, made: Ref)
    requires Shaped(s)
    ensures RunsFollow(s, DelayRequest(p, rxTs, eclisa, now, made), DelayRequestStep(s, p, rxTs, eclisa, now, made))
  {
    hide Find, Register, UpdateAnnounceDelayReq, UpdateSyncDelayReq, UpdateDelayResp, NewSub, Shaped;
    var s' := DelayRequestStep(s, p, rxTs, eclisa, now, made);
    SentKeys(s);
    DelayRequestSpawns(s, p, rxTs, eclisa, now, made);
    SpawnedAtMostOne(s, s', DelayRequest(p, rxTs, eclisa, now, made));
  }

  lemma DelayRequestSpawns(s: State, p: SyncPacket, rxTs: Time, eclisa: Sockaddr, now: Time, made: Ref)
    requires Shaped(s)
    ensures var s' := DelayRequestStep(s, p, rxTs, eclisa, now, made);
            s'.runs == s.runs || s'.runs == s.runs + [Run(made, |s.done| - 1, IsSpawned)]
  {
    hide Find, Register, UpdateAnnounceDelayReq, UpdateSyncDelayReq, UpdateDelayResp, NewSub;
  }

  /** The steps of one run. */
  lemma RunStepRuns(s: State, step: Step)
    requires Shaped(s) && Enabled(s, step) && RunOf(step).Some?
    ensures RunsFollow(s, step, Next(s, step))
  {
    hide Shaped, RequestStep, DelayRequestStep, CancelStep, JobStep, Pruned, Find;
    RunTouches(s, RunOf(step).value);
  }

  lemma QuietRuns(s: State, step: Step)
    requires Shaped(s) && Enabled(s, step) && RunOf(step).None? && !step.Request? && !step.DelayRequest?
    ensures RunsFollow(s, step, Next(s, step))
  {
    hide Shaped, JobStep, Pruned, StopSub;
    assert Next(s, step).runs == s.runs;
  }

  lemma StepKeepsRuns(s: State, step: Step)
    requires Base(s) && Shaped(s) && Enabled(s, step)
    ensures RunsFollow(s, step, Next(s, step))
  {
    hide Base, RunsFollow, RequestStep, DelayRequestStep;
    if step.Request? {
      RequestRuns(s, step.sg, step.v, step.gclisa, step.now, step.made);
    } else if step.DelayRequest? {
      DelayRequestRuns(s, step.p, step.rxTs, step.eclisa, step.now, step.made);
    } else if RunOf(step).Some? {
      RunStepRuns(s, step);
    } else {
      QuietRuns(s, step);
    }
  }

  // ------------------------------------------------------ flags and locks

  /** What it means that a step touches a subscription, and that the lock was free when it took it. */
  predicate TouchOk(s: State, step: Step, sc: Ref, touched: bool)
    requires sc in s.subs
  {
    && (RunOf(step).Some? ==> RunOf(step).value < |s.runs|)
    && (RunOf(step).Some? && s.runs[RunOf(step).value].sc == sc ==>
          && (touched <==> step.Begin? || step.TakeStop? || step.Clear?)
          && (step.Begin? || step.Tick? || step.Clear? ==> !s.subs[sc].waiting))
    && (RunOf(step).Some? && s.runs[RunOf(step).value].sc != sc ==> !touched)
    && (touched && RunOf(step).None? ==> step.CancelRequest? && !s.subs[sc].waiting)
  }

  lemma TouchesRight(s: State, step: Step, sc: Ref)
    requires Shaped(s) && Enabled(s, step) && sc in s.subs
    ensures TouchOk(s, step, sc, sc in Touches(s, step))
  {
    hide Shaped, Find, Bumps, Renews, CancelTarget;
  }

  /** One subscription: the flag goes up with a run that begins, and down with the one that clears it. */
  lemma LiveFollows(s: State, step: Step, s': State, sc: Ref, touched: bool)
    requires sc in s.subs && sc in s'.subs && LiveOk(s, sc) && TouchOk(s, step, sc, touched)
    requires RunsFollow(s, step, s') && LockMoves(step, touched, s.subs[sc], s'.subs[sc])
    ensures LiveOk(s', sc)
  {
    if s'.subs[sc].running {
      if step.Begin? && s.runs[step.r].sc == sc {
        assert StandsFor(s', step.r, sc);
      } else {
        var r: nat :| StandsFor(s, r, sc);
        assert StandsFor(s', r, sc);
      }
    }
  }

  lemma StepKeepsLive(s: State, step: Step)
    requires Base(s) && Shaped(s) && Enabled(s, step) && RoundsOk(s) && AllLive(s)
    ensures AllLive(Next(s, step))
  {
    hide RoundsOk, LiveOk, RunsFollow, LockMoves, Enabled, Next, Shaped, TouchOk, Touches;
    BaseParts(s);
    StepKeepsRounds(s, step);
    StepKeepsRuns(s, step);
    forall sc | sc in Next(s, step).subs ensures LiveOk(Next(s, step), sc) {
      if sc in s.subs {
        TouchesRight(s, step, sc);
        LiveFollows(s, step, Next(s, step), sc, sc in Touches(s, step));
      } else {
        UntouchedIsLive(Next(s, step), sc);
      }
    }
  }

  lemma BaseParts(s: State)
    requires Base(s)
    ensures WorkOk(s)
  {
  }

  lemma UntouchedIsLive(s: State, sc: Ref)
    requires sc in s.subs && Untouched(s.subs[sc])
    ensures LiveOk(s, sc)
  {
  }

  // ------------------------------------------------------------ stuck or not

  /** A Stop waits with the lock of sc, and no run of sc is where it could take the token. */
  ghost predicate Stuck(s: State, sc: Ref) {
    sc in s.subs && s.subs[sc].waiting && forall r | 0 <= r < |s.runs| && s.runs[r].sc == sc :: !s.runs[r].phase.IsLooping?
  }

  /** No step ever leads out of that. */
  lemma StuckStays(s: State, step: Step, sc: Ref)
    requires Base(s) && Shaped(s) && Enabled(s, step) && RoundsOk(s) && Stuck(s, sc)
    ensures Stuck(Next(s, step), sc)
  {
    hide RoundsOk, Next, Stuck, RunsFollow, LockMoves, Enabled, Shaped, TouchOk, Touches;
    BaseParts(s);
    assert sc in s.subs by {
      StuckIsKnown(s, sc);
    }
    StepKeepsRounds(s, step);
    StepKeepsRuns(s, step);
    TouchesRight(s, step, sc);
    if step.TakeStop? {
      TakesFromLoop(s, step.r);
    }
    StuckFollows(s, step, Next(s, step), sc, sc in Touches(s, step));
  }

  lemma TakesFromLoop(s: State, r: nat)
    requires Shaped(s) && Enabled(s, TakeStop(r))
    ensures r < |s.runs| && s.runs[r].phase.IsLooping?
  {
  }

  lemma StuckIsKnown(s: State, sc: Ref)
    requires Stuck(s, sc)
    ensures sc in s.subs
  {
  }

  lemma StuckFollows(s: State, step: Step, s': State, sc: Ref, touched: bool)
    requires Stuck(s, sc) && sc in s'.subs && TouchOk(s, step, sc, touched)
    requires step.TakeStop? ==> step.r < |s.runs| && s.runs[step.r].phase.IsLooping?
    requires RunsFollow(s, step, s') && LockMoves(step, touched, s.subs[sc], s'.subs[sc])
    ensures Stuck(s', sc)
  {
  }

  /** And while some run is in its select, it can take the token, which lets the Stop go on and frees the lock. */
  lemma LoopingFrees(s: State, r: nat)
    requires Shaped(s) && r < |s.runs| && s.runs[r].phase.IsLooping? && LiveOk(s, s.runs[r].sc) && s.subs[s.runs[r].sc].waiting
    ensures Enabled(s, TakeStop(r))
    ensures var s', sc := Next(s, TakeStop(r)), s.runs[r].sc;
            sc in s'.subs && !s'.subs[sc].waiting && s'.subs[sc].stop && s'.runs[r].phase.IsLeft?
  {
  }

  /** What waits for the lock: every run but one in its select, and each handler and inventory that gets to sc. */
  lemma LockedOut(s: State, sc: Ref, r: nat, w: nat, c: PortIdentity, t: byte, now: Time)
    requires Shaped(s) && sc in s.subs && s.subs[sc].waiting
    ensures r < |s.runs| && s.runs[r].sc == sc ==>
              !Enabled(s, Begin(r)) && !Enabled(s, Tick(r, now)) && !Enabled(s, Clear(r))
    ensures w < |s.workers| && Find(s.workers[w].clients, c, t) == Some(sc) ==> !Enabled(s, Inventory(w))
  {
    hide Bumps, Renews, CancelTarget;
    if w < |s.workers| && Find(s.workers[w].clients, c, t) == Some(sc) {
      assert !Free(s, Find(s.workers[w].clients, c, t));
    }
  }

  /** A cancel has to wait exactly if its subscription is running with a token in the slot. */
  lemma CancelWaits(s: State, sg: SignalingPacket, v: Tlv, now: Time)
    requires Shaped(s) && Enabled(s, CancelRequest(sg, v, now)) && CancelTarget(s, sg, v).Some?
    ensures var sc := CancelTarget(s, sg, v).value;
            sc in s.subs && (CancelStep(s, sg, v, now).subs[sc].waiting <==> s.subs[sc].running && s.subs[sc].stop)
  {
  }

  /** Run r can leave its select so that sc is stuck: for a tick, and for its context once that is cancelled. */
  ghost predicate CanStick(s: State, r: nat, sc: Ref) {
    && Shaped(s) && Enabled(s, SelectTick(r)) && Stuck(SelectTickStep(s, r), sc)
    && (s.done[s.runs[r].ctx] ==> Enabled(s, CtxIsDone(r)) && Stuck(Next(s, CtxIsDone(r)), sc))
  }

  /**
   * It does happen: two cancels of a running subscription, and a run that takes the ticker's case, or its cancelled
   * context, before the token. The run then waits for the lock that the second cancel keeps.
   */
  lemma TwoCancelsCanStick(s: State, sg: SignalingPacket, v: Tlv, now: Time, r: nat)
    requires Base(s) && Shaped(s) && Enabled(s, CancelRequest(sg, v, now)) && CancelTarget(s, sg, v).Some?
    requires r < |s.runs| && s.runs[r].phase.IsLooping? && s.runs[r].sc == CancelTarget(s, sg, v).value
    requires s.subs[s.runs[r].sc].running && !s.subs[s.runs[r].sc].stop
    requires forall k | 0 <= k < |s.runs| && k != r && s.runs[k].sc == s.runs[r].sc :: !s.runs[k].phase.IsLooping?
    ensures var s1 := CancelStep(s, sg, v, now);
            && Shaped(s1) && Enabled(s1, CancelRequest(sg, v, now))
            && CanStick(CancelStep(s1, sg, v, now), r, s.runs[r].sc)
  {
    hide Base, Grows, Find, Shaped, StopSub, SetSub;
    var sc := s.runs[r].sc;
    CancelKeeps(s, sg, v, now);
    var s1 := CancelStep(s, sg, v, now);
    BaseIsShaped(s1);
    CancelKeeps(s1, sg, v, now);
    BaseIsShaped(CancelStep(s1, sg, v, now));
    RunTouches(s, r);
    SetSubEffect(s, sc, StopSub(s.subs[sc], now));
    SetSubEffect(s1, sc, StopSub(s1.subs[sc], now));
    StopTwice(s.subs[sc], now);
    StuckAfter(CancelStep(s1, sg, v, now), r);
  }

  lemma StopTwice(u: Sub, now: Time)
    requires u.running && !u.stop && !u.waiting
    ensures var u1 := StopSub(u, now); !u1.waiting && StopSub(u1, now).waiting
  {
  }

  lemma StuckAfter(s: State, r: nat)
    requires Shaped(s) && r < |s.runs| && s.runs[r].phase.IsLooping? && s.subs[s.runs[r].sc].waiting
    requires forall k | 0 <= k < |s.runs| && k != r && s.runs[k].sc == s.runs[r].sc :: !s.runs[k].phase.IsLooping?
    ensures CanStick(s, r, s.runs[r].sc)
  {
  }

  // -------------------------------------------------- what a grant leaves behind

  /** Runs that will queue messages or see the renewed expiry: spawned, in the select, or in the ticker's branch. */
  ghost predicate Served(s: State, sc: Ref) {
    exists r: nat :: Serves(s, r, sc)
  }

  predicate Serves(s: State, r: nat, sc: Ref) {
    r < |s.runs| && s.runs[r].sc == sc && (s.runs[r].phase.IsSpawned? || s.runs[r].phase.IsLooping? || s.runs[r].phase.IsTicking?)
  }

  /** A running subscription is served, unless all the runs behind its flag are between leaving the loop and clearing it. */
  lemma RunningIsServed(s: State, sc: Ref)
    requires sc in s.subs && LiveOk(s, sc) && s.subs[sc].running
    ensures Served(s, sc) || exists r: nat :: StandsFor(s, r, sc) && s.runs[r].phase.IsLeft?
  {
    var r: nat :| StandsFor(s, r, sc);
    if !s.runs[r].phase.IsLeft? {
      assert Serves(s, r, sc);
    }
  }

  // -------------------------------------------------------------- after a drain

  /** Once no run stands behind any flag, one inventory of a worker leaves it without entries. */
  lemma QuietInventoryEmpties(s: State, w: nat, c: PortIdentity, t: byte)
    requires Shaped(s) && w < |s.workers| && AllLive(s)
    requires forall r | 0 <= r < |s.runs| :: !Active(s.runs[r].phase)
    ensures Find(InventoryStep(s, w).workers[w].clients, c, t).None?
  {
    PrunedIsFlat(s.workers[w].clients, RunningOnes(s), c, t);
    var found := Find(s.workers[w].clients, c, t);
    if found.Some? {
      assert LiveOk(s, found.value);
    }
  }
}
