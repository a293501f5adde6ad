/** Over every run of the server: how many messages the timer of one run queues. */
module Timers {
  import opened Wire
  import opened Types
  import opened Tlvs
  import opened Packets
  import opened Subscription
  import opened Jobs
  import opened Machine
  import opened Invariants
  import opened Handlers
  import opened Queues
  import opened Locks
  import opened Runs
  import opened Effects
  import Deliveries
  import Rounds

  /** A step of the timer of run r: its first message, or a tick. */
  predicate OfTimer(step: Step, r: nat) {
    (step.Begin? || step.Tick?) && step.r == r
  }

  /** The jobs that the steps from b on, and before j, queued for the timer of run r. */
  ghost function TimerJobs(states: seq<State>, steps: seq<Step>, r: nat, b: nat, j: nat): nat
    requires |states| == |steps| + 1 && b <= j <= |steps|
  {
    if j == b then 0
    else
      var s, step := states[j - 1], steps[j - 1];
      TimerJobs(states, steps, r, b, j - 1) + Timed(s, step, r)
  }

  /** A job that this step queues for that timer. */
  ghost function Timed(s: State, step: Step, r: nat): nat {
    if Shaped(s) && OfTimer(step, r) && Adds(s, TimedJobs, step).Some? then 1 else 0
  }

  /** The ticks of run r among these steps. */
  function TickSteps(steps: seq<Step>, r: nat, b: nat, j: nat): nat
    requires b <= j <= |steps|
  {
    if j == b then 0 else TickSteps(steps, r, b, j - 1) + (if steps[j - 1].Tick? && steps[j - 1].r == r then 1 else 0)
  }

  /** The k-th tick of run r, counting from 1, comes no earlier than k intervals after its ticker was started. */
  predicate TicksKeepTime(steps: seq<Step>, r: nat, b: nat, j: nat, started: Time, interval: Time)
    requires b <= j <= |steps|
  {
    forall k | b <= k < j && steps[k].Tick? && steps[k].r == r ::
      started + (TickSteps(steps, r, b, k) + 1) * interval <= steps[k].now
  }

  /** From step b up to j the expiry of sc never lies beyond the limit. */
  ghost predicate NeverBeyond(states: seq<State>, sc: Ref, b: nat, j: nat, limit: Time) {
    forall k | b <= k <= j && k < |states| && sc in states[k].subs :: states[k].subs[sc].expire <= limit
  }

  /** What is known of run r once n messages were queued in t ticks. */
  ghost predicate OnCount(s: State, r: nat, sc: Ref, n: nat, t: nat, started: Time, interval: Time, limit: Time) {
    && r < |s.runs| && s.runs[r].sc == sc && sc in s.subs && !s.runs[r].phase.IsSpawned?
    && (!Periodic(s.subs[sc].typ) ==> n == 0)
    && (Periodic(s.subs[sc].typ) ==> 1 <= n <= 1 + t)
    && (Periodic(s.subs[sc].typ) && (s.runs[r].phase.IsLooping? || s.runs[r].phase.IsTicking?) ==> n == 1 + t)
    && (1 < n ==> started + (n - 1) * interval <= limit)
  }

  /** Where a step leaves run r and its subscription. */
  lemma StepMovesRun(s: State, step: Step, r: nat)
    requires Good(s) && Enabled(s, step) && r < |s.runs|
    ensures var s', sc := Next(s, step), s.runs[r].sc;
            && r < |s'.runs| && s'.runs[r].sc == sc && sc in s.subs && sc in s'.subs && s'.subs[sc].typ == s.subs[sc].typ
            && (if RunOf(step) == Some(r) then PhaseMoves(step, s.runs[r].phase, s'.runs[r].phase)
                else s'.runs[r].phase == s.runs[r].phase)
  {
    hide Good, Base, Shaped, Next, Enabled, Evolves, PhaseMoves;
    GoodIsShaped(s);
    StepKeepsRuns(s, step);
    StepKeepsBase(s, step);
    Rounds.RunTouches(s, r);
    EvolvesKeepsNames(s, Next(s, step));
  }

  lemma TickAdds(s: State, r: nat, now: Time)
    requires Shaped(s) && Enabled(s, Tick(r, now))
    ensures r < |s.runs| && s.runs[r].phase.IsTicking? && s.runs[r].sc in s.subs
    ensures var sc := s.runs[r].sc;
            && (Adds(s, TimedJobs, Tick(r, now)).Some? <==> Periodic(s.subs[sc].typ) && now <= s.subs[sc].expire)
            && (now > s.subs[sc].expire ==> Next(s, Tick(r, now)).runs[r].phase.IsLeft?)
  {
    if now > s.subs[s.runs[r].sc].expire {
      ExpiredRunLeaves(s, r, now);
    }
  }

  /** One step goes on with the count. */
  lemma StepCounts(states: seq<State>, steps: seq<Step>, j: nat, r: nat, sc: Ref, n: nat, t: nat, started: Time, interval: Time,
                   limit: Time)
    requires Execution(states, steps) && j < |steps| && OnCount(states[j], r, sc, n, t, started, interval, limit)
    requires sc in states[j].subs && states[j].subs[sc].expire <= limit
    requires steps[j].Tick? && steps[j].r == r ==> started + (t + 1) * interval <= steps[j].now
    ensures OnCount(states[j + 1], r, sc, n + Timed(states[j], steps[j], r),
                    t + (if steps[j].Tick? && steps[j].r == r then 1 else 0), started, interval, limit)
  {
    hide Execution, Good, Shaped, Next, Enabled, Adds, Periodic;
    ExecutionLength(states, steps);
    Reachable(states, steps, j + 1);
    GoodIsShaped(states[j]);
    var s, step := states[j], steps[j];
    StepMovesRun(s, step, r);
    if step.Tick? && step.r == r {
      TickAdds(s, r, step.now);
    }
  }

  lemma {:induction false} TimerCounts(states: seq<State>, steps: seq<Step>, r: nat, b: nat, j: nat, sc: Ref, started: Time,
                                       interval: Time, limit: Time)
    requires Execution(states, steps) && b < j <= |steps| && steps[b] == Begin(r)
    requires r < |states[b].runs| && states[b].runs[r].sc == sc
    requires NeverBeyond(states, sc, b + 1, j, limit) && TicksKeepTime(steps, r, b, j, started, interval)
    ensures OnCount(states[j], r, sc, TimerJobs(states, steps, r, b, j), TickSteps(steps, r, b, j), started, interval, limit)
    decreases j
  {
    hide Good, Execution, OnCount, Next, Enabled, Adds, NeverBeyond, TicksKeepTime, Shaped, Timed;
    ExecutionLength(states, steps);
    HypothesesBefore(states, steps, r, b, j, sc, started, interval, limit);
    if j == b + 1 {
      Reachable(states, steps, j);
      GoodIsShaped(states[b]);
      BeginCounts(states[b], r, started, interval, limit);
      assert TimerJobs(states, steps, r, b, b) == 0 && TickSteps(steps, r, b, b) == 0;
    } else {
      TimerCounts(states, steps, r, b, j - 1, sc, started, interval, limit);
      OnCountIsThere(states[j - 1], r, sc, TimerJobs(states, steps, r, b, j - 1), TickSteps(steps, r, b, j - 1), started, interval, limit);
      StepCounts(states, steps, j - 1, r, sc, TimerJobs(states, steps, r, b, j - 1), TickSteps(steps, r, b, j - 1),
                 started, interval, limit);
    }
  }

  lemma HypothesesBefore(states: seq<State>, steps: seq<Step>, r: nat, b: nat, j: nat, sc: Ref, started: Time, interval: Time,
                         limit: Time)
    requires |states| == |steps| + 1 && b < j <= |steps|
    requires NeverBeyond(states, sc, b + 1, j, limit) && TicksKeepTime(steps, r, b, j, started, interval)
    ensures NeverBeyond(states, sc, b + 1, j - 1, limit) && TicksKeepTime(steps, r, b, j - 1, started, interval)
    ensures b + 1 < j && sc in states[j - 1].subs ==> states[j - 1].subs[sc].expire <= limit
    ensures steps[j - 1].Tick? && steps[j - 1].r == r ==>
              started + (TickSteps(steps, r, b, j - 1) + 1) * interval <= steps[j - 1].now
  {
  }

  lemma OnCountIsThere(s: State, r: nat, sc: Ref, n: nat, t: nat, started: Time, interval: Time, limit: Time)
    requires OnCount(s, r, sc, n, t, started, interval, limit)
    ensures sc in s.subs && r < |s.runs|
  {
  }

  lemma BeginCounts(s: State, r: nat, started: Time, interval: Time, limit: Time)
    requires Good(s) && Shaped(s) && Enabled(s, Begin(r))
    ensures r < |s.runs|
    ensures OnCount(Next(s, Begin(r)), r, s.runs[r].sc, Timed(s, Begin(r), r), 0, started, interval, limit)
  {
    hide Good, Next, RequestStep, DelayRequestStep;
    StepMovesRun(s, Begin(r), r);
  }

  /**
   * The timer of one run, over any run of the server: it was granted `duration` at time `granted` and begun no earlier,
   * and up to step j the expiry of its subscription never lay beyond that. However renewals, cancels, drains, workers
   * and other runs come in between, and however it ends, it queued at most 1 + duration / interval messages; none for
   * a type that no timer sends.
   */
  lemma TimerJobsAreBounded(states: seq<State>, steps: seq<Step>, r: nat, b: nat, j: nat, sc: Ref, granted: Time, duration: Time,
                            started: Time)
    requires Execution(states, steps) && b < j <= |steps| && steps[b] == Begin(r)
    requires r < |states[b].runs| && states[b].runs[r].sc == sc && sc in states[b].subs
    requires 0 < states[b].subs[sc].interval && 0 <= duration && granted <= started
    requires NeverBeyond(states, sc, b + 1, j, granted + duration)
    requires TicksKeepTime(steps, r, b, j, started, states[b].subs[sc].interval)
    ensures TimerJobs(states, steps, r, b, j) <= 1 + duration / states[b].subs[sc].interval
    ensures states[b].subs[sc].typ == 0x9 || states[b].subs[sc].typ == 0x1 ==> TimerJobs(states, steps, r, b, j) == 0
  {
    hide Execution, OnCount, Periodic, NeverBeyond, TicksKeepTime;
    ExecutionLength(states, steps);
    var interval := states[b].subs[sc].interval;
    TimerCounts(states, steps, r, b, j, sc, started, interval, granted + duration);
    CountMeans(states[j], r, sc, TimerJobs(states, steps, r, b, j), TickSteps(steps, r, b, j), started, interval, granted + duration);
    MessagesFit(TimerJobs(states, steps, r, b, j), granted, duration, started, interval);
    Deliveries.TypeStays(states, steps, b, j, sc);
    TypesTimed(states[b].subs[sc].typ);
  }

  lemma CountMeans(s: State, r: nat, sc: Ref, n: nat, t: nat, started: Time, interval: Time, limit: Time)
    requires OnCount(s, r, sc, n, t, started, interval, limit)
    ensures sc in s.subs && (!Periodic(s.subs[sc].typ) ==> n == 0)
    ensures 1 < n ==> started + (n - 1) * interval <= limit
  {
  }

  // ------------------------------------------------------ the entries, exactly

  /** This step is one of the timer of run r, and put its subscription at the end of the job queue of its worker. */
  ghost predicate Entered(s: State, step: Step, s': State, r: nat) {
    OfTimer(step, r) && r < |s.runs| && s.runs[r].sc in s.subs && |s'.workers| == |s.workers| &&
    (var sc := s.runs[r].sc;
     var w := s.subs[sc].worker;
     w < |s.workers| && s'.workers[w].queue == s.workers[w].queue + [sc])
  }

  /** How many steps from b on, and before j, did that. */
  ghost function TimerEntries(states: seq<State>, steps: seq<Step>, r: nat, b: nat, j: nat): nat
    requires |states| == |steps| + 1 && b <= j <= |steps|
  {
    if j == b then 0
    else TimerEntries(states, steps, r, b, j - 1) + (if Entered(states[j - 1], steps[j - 1], states[j], r) then 1 else 0)
  }

  /** A tick of run r, no later than the expiry of its subscription. */
  ghost predicate TicksInTime(s: State, step: Step, r: nat) {
    step.Tick? && step.r == r && r < |s.runs| && s.runs[r].sc in s.subs && step.now <= s.subs[s.runs[r].sc].expire
  }

  ghost function TimelyTicks(states: seq<State>, steps: seq<Step>, r: nat, b: nat, j: nat): nat
    requires |states| == |steps| + 1 && b <= j <= |steps|
  {
    if j == b then 0
    else TimelyTicks(states, steps, r, b, j - 1) + (if TicksInTime(states[j - 1], steps[j - 1], r) then 1 else 0)
  }

  lemma StepEnters(s: State, step: Step, r: nat)
    requires Good(s) && Shaped(s) && Enabled(s, step) && OfTimer(step, r)
    ensures r < |s.runs| && s.runs[r].sc in s.subs
    ensures var t, entered := s.subs[s.runs[r].sc].typ, Entered(s, step, Next(s, step), r);
            && (t == 0x0 || t == 0xB || t == 0x9 || t == 0x1)
            && (entered <==> (t == 0x0 || t == 0xB) && (step.Begin? || TicksInTime(s, step, r)))
            && (entered <==> Timed(s, step, r) == 1)
            && (step.Begin? || TicksInTime(s, step, r) ==>
                  s.runs[r].sc in Next(s, step).subs &&
                  Next(s, step).subs[s.runs[r].sc].runningInterval == Next(s, step).subs[s.runs[r].sc].interval)
  {
    hide Good, Base, Shaped, BeginStep, TickStep, Find;
    GoodIsShaped(s);
    if step.Begin? {
      BeginByNumbers(s, r);
    } else {
      TickByNumbers(s, r, step.now);
    }
    TypesTimed(s.subs[s.runs[r].sc].typ);
    NotLonger(s.workers[s.subs[s.runs[r].sc].worker].queue, s.runs[r].sc);
  }

  lemma NotLonger<T>(q: seq<T>, x: T)
    ensures q != q + [x]
  {
    assert |q| != |q + [x]|;
  }

  /**
   * The timer of one run, exactly, over any run of the server and whatever comes in between: a Sync or Announce
   * subscription enters the queue once at the start and once at each tick in time, a Delay_Resp or sptp one never.
   */
  lemma {:induction false} TimerEntriesAreExact(states: seq<State>, steps: seq<Step>, r: nat, b: nat, j: nat, sc: Ref)
    requires Execution(states, steps) && b < j <= |steps| && steps[b] == Begin(r)
    requires r < |states[b].runs| && states[b].runs[r].sc == sc
    ensures sc in states[b].subs && r < |states[j].runs| && states[j].runs[r].sc == sc && !states[j].runs[r].phase.IsSpawned?
    ensures var t, n := states[b].subs[sc].typ, TimerEntries(states, steps, r, b, j);
            && (t == 0x0 || t == 0xB ==> n == 1 + TimelyTicks(states, steps, r, b, j))
            && (t == 0x9 || t == 0x1 ==> n == 0)
            && n == TimerJobs(states, steps, r, b, j)
    decreases j
  {
    hide Good, Execution, Next, Enabled, Shaped, Entered, TicksInTime, Timed;
    ExecutionLength(states, steps);
    Reachable(states, steps, j);
    GoodIsShaped(states[j - 1]);
    var s, step := states[j - 1], steps[j - 1];
    if b < j - 1 {
      TimerEntriesAreExact(states, steps, r, b, j - 1, sc);
      StepMovesRun(s, step, r);
      Deliveries.TypeStays(states, steps, b, j - 1, sc);
    } else {
      StepMovesRun(s, step, r);
    }
    if OfTimer(step, r) {
      StepEnters(s, step, r);
      BeginIsNoTick(s, step, r);
    } else {
      NotOfTimer(s, step, states[j], r);
    }
  }

  lemma BeginIsNoTick(s: State, step: Step, r: nat)
    ensures step.Begin? ==> !TicksInTime(s, step, r)
    ensures Timed(s, step, r) <= 1
  {
    hide Shaped, Adds;
  }

  lemma NotOfTimer(s: State, step: Step, s': State, r: nat)
    requires !OfTimer(step, r)
    ensures !Entered(s, step, s', r) && !TicksInTime(s, step, r) && Timed(s, step, r) == 0
  {
    hide Shaped, Adds;
  }

  // ------------------------------------------------------- who moves an expiry

  /** The subscription that a handler's step is about. */
  function Addresses(s: State, step: Step): Option<Ref>
    requires Shaped(s)
  {
    match step
    case Request(sg, v, _, _, made) =>
      if v.RequestUnicast? && Signaled(UnicastMsgType(v.msgTypeAndReserved)) then
        Some(Requested(s, sg.header.sourcePortIdentity, UnicastMsgType(v.msgTypeAndReserved), made))
      else None
    case CancelRequest(sg, v, _) => if v.CancelUnicast? then CancelTarget(s, sg, v) else None
    case DelayRequest(p, _, _, _, made) => Asked(s, p, made)
    case _ => None
  }

  ghost predicate SameExpiry(s: State, s': State, sc: Ref) {
    sc in s.subs && sc in s'.subs && s'.subs[sc].expire == s.subs[sc].expire
  }

  lemma HandlerKeepsExpiry(s: State, step: Step, sc: Ref)
    requires Base(s) && Shaped(s) && Enabled(s, step) && Handles(step) && sc in s.subs && Addresses(s, step) != Some(sc)
    ensures SameExpiry(s, Next(s, step), sc)
  {
    hide Base, Shaped, RequestStep, DelayRequestStep, OneSignal, OneJob, HoldsGrant, Answers, Requested, Asked, Grows, Find, CancelTarget;
    if step.Request? {
      if Signaled(UnicastMsgType(step.v.msgTypeAndReserved)) {
        RequestIsAnswered(s, step.sg, step.v, step.gclisa, step.now, step.made);
      } else {
        OtherRequestsAreIgnored(s, step.sg, step.v, step.gclisa, step.now, step.made);
      }
    } else if step.DelayRequest? {
      DelayRequestKeepsExpiry(s, step.p, step.rxTs, step.eclisa, step.now, step.made, sc);
    }
  }

  lemma DelayRequestKeepsExpiry(s: State, p: SyncPacket, rxTs: Time, eclisa: Sockaddr, now: Time, made: Ref, sc: Ref)
    requires Base(s) && Shaped(s) && made !in s.subs && sc in s.subs && Asked(s, p, made) != Some(sc)
    ensures SameExpiry(s, DelayRequestStep(s, p, rxTs, eclisa, now, made), sc)
  {
    hide Base, Shaped, DelayRequestStep, OneJob, Answers, Asked;
    DelayRequestQueues(s, p, rxTs, eclisa, now, made);
  }

  lemma WorkKeepsExpiry(s: State, step: Step, sc: Ref)
    requires Base(s) && Shaped(s) && Enabled(s, step) && step.Job? && sc in s.subs
    ensures SameExpiry(s, Next(s, step), sc)
  {
    hide Base, JobStep;
    var w := step.w;
    JobTakes(s, w);
    JobKeeps(s.cfg, s.workers[w].olderKernel, s.subs[s.workers[w].queue[0]], step.o);
  }

  lemma OtherKeepsExpiry(s: State, step: Step, sc: Ref)
    requires Base(s) && Shaped(s) && Enabled(s, step) && !Handles(step) && sc in s.subs
    ensures SameExpiry(s, Next(s, step), sc)
  {
    if RunOf(step).Some? {
      hide Next, Enabled, Shaped, Base;
      RunSubs(s, step);
      EffectKeepsExpiry(s, step, s.subs[s.runs[RunOf(step).value].sc]);
    } else if step.Job? {
      hide *;
      WorkKeepsExpiry(s, step, sc);
    } else {
      hide Base, Shaped, RequestStep, DelayRequestStep, Pruned, Find, BeginStep, TickStep, FinishStep, TakeJob;
    }
  }

  lemma EffectKeepsExpiry(s: State, step: Step, u: Sub)
    requires !step.CancelRequest?
    ensures RunEffect(s, step, u).expire == u.expire
  {
  }

  /** No handler from step i on, and before j, is about this subscription. */
  ghost predicate LeftAlone(states: seq<State>, steps: seq<Step>, i: nat, j: nat, sc: Ref) {
    forall k | i <= k < j && k < |steps| && k < |states| && Shaped(states[k]) :: Addresses(states[k], steps[k]) != Some(sc)
  }

  lemma LeftAloneBefore(states: seq<State>, steps: seq<Step>, i: nat, j: nat, k: nat, sc: Ref)
    requires LeftAlone(states, steps, i, j, sc) && i <= k <= j <= |steps| && |states| == |steps| + 1
    ensures LeftAlone(states, steps, i, k, sc)
    ensures i < j && Shaped(states[j - 1]) ==> Addresses(states[j - 1], steps[j - 1]) != Some(sc)
  {
    hide Addresses, Shaped;
  }

  /** While no handler is about a subscription its expiry stays. */
  lemma {:induction false} ExpiryStays(states: seq<State>, steps: seq<Step>, i: nat, j: nat, sc: Ref)
    requires Execution(states, steps) && i <= j <= |steps| && sc in states[i].subs
    requires LeftAlone(states, steps, i, j, sc)
    ensures sc in states[j].subs && states[j].subs[sc].expire == states[i].subs[sc].expire
    decreases j - i
  {
    hide Good, Execution, Next, Enabled, Addresses, Base, Shaped, LeftAlone;
    if i < j {
      ExecutionLength(states, steps);
      LeftAloneBefore(states, steps, i, j, j - 1, sc);
      ExpiryStays(states, steps, i, j - 1, sc);
      Reachable(states, steps, j);
      GoodIsShaped(states[j - 1]);
      StepKeepsExpiry(states[j - 1], steps[j - 1], sc);
    }
  }

  lemma StepKeepsExpiry(s: State, step: Step, sc: Ref)
    requires Good(s) && Shaped(s) && Enabled(s, step) && sc in s.subs && Addresses(s, step) != Some(sc)
    ensures SameExpiry(s, Next(s, step), sc)
  {
    hide Good, Next, Enabled, Addresses, Base, Shaped, SameExpiry;
    GoodIsShaped(s);
    if Handles(step) {
      HandlerKeepsExpiry(s, step, sc);
    } else {
      OtherKeepsExpiry(s, step, sc);
    }
  }

  /** So a run that no handler is about any more keeps within the bound of its grant. */
  lemma NeverRenewedIsBounded(states: seq<State>, steps: seq<Step>, r: nat, b: nat, j: nat, sc: Ref, granted: Time, duration: Time,
                              started: Time)
    requires Execution(states, steps) && b < j <= |steps| && steps[b] == Begin(r)
    requires r < |states[b].runs| && states[b].runs[r].sc == sc && sc in states[b].subs
    requires 0 < states[b].subs[sc].interval && 0 <= duration && granted <= started
    requires states[b].subs[sc].expire == granted + duration
    requires LeftAlone(states, steps, b, j, sc)
    requires TicksKeepTime(steps, r, b, j, started, states[b].subs[sc].interval)
    ensures TimerJobs(states, steps, r, b, j) <= 1 + duration / states[b].subs[sc].interval
  {
    hide Execution, Addresses, TicksKeepTime, LeftAlone;
    ExecutionLength(states, steps);
    forall k | b + 1 <= k <= j && k < |states| && sc in states[k].subs
      ensures states[k].subs[sc].expire <= granted + duration
    {
      LeftAloneBefore(states, steps, b, j, k, sc);
      ExpiryStays(states, steps, b, k, sc);
    }
    TimerJobsAreBounded(states, steps, r, b, j, sc, granted, duration, started);
  }
}
