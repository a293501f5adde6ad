/**
 * The queues of the workers: entries are references, taken in the order they were put in, and a packet is read when
 * its entry is taken. What is sent is therefore what was built last, not what was built when the entry was put in.
 */
module Queues {
  import opened Wire
  import opened Types
  import opened Tlvs
  import opened Packets
  import opened Subscription
  import opened Jobs
  import opened Machine
  import opened Invariants
  import opened Handlers
  import Locks
  import Rounds

  /** The two queues of a worker. */
  datatype Lane = Signals | TimedJobs

  function QueueOf(s: State, l: Lane, w: nat): seq<Ref>
    requires w < |s.workers|
  {
    if l.Signals? then s.workers[w].signalingQueue else s.workers[w].queue
  }

  /** The subscription that a step puts into a queue, at the worker it belongs to. */
  function Adds(s: State, l: Lane, step: Step): Option<Ref>
    requires Shaped(s)
  {
    match step
    case Request(sg, v, _, _, made) =>
      if l.Signals? && v.RequestUnicast? && Signaled(UnicastMsgType(v.msgTypeAndReserved)) then
        Some(Requested(s, sg.header.sourcePortIdentity, UnicastMsgType(v.msgTypeAndReserved), made))
      else None
    case DelayRequest(p, _, _, _, made) => if l.TimedJobs? then Asked(s, p, made) else None
    case Begin(r) => if l.TimedJobs? && r < |s.runs| && Periodic(s.subs[s.runs[r].sc].typ) then Some(s.runs[r].sc) else None
    case Tick(r, now) =>
      if l.TimedJobs? && r < |s.runs| && Periodic(s.subs[s.runs[r].sc].typ) && !Expired(s.subs[s.runs[r].sc], now) then Some(s.runs[r].sc)
      else None
    case Finish(r) =>
      if l.Signals? && r < |s.runs| && s.subs[s.runs[r].sc].typ != MESSAGE_DELAY_REQ then Some(s.runs[r].sc) else None
    case _ => None
  }

  /** The worker that a step lets take the entry at the front. */
  function TakesAt(l: Lane, step: Step): Option<nat> {
    match step
    case Job(w, _) => if l.TimedJobs? then Some(w) else None
    case SignalingJob(w, _) => if l.Signals? then Some(w) else None
    case _ => None
  }

  function AddedAt(s: State, l: Lane, step: Step, s': State, w: nat): seq<Ref>
    requires Shaped(s)
  {
    var sc := Adds(s, l, step);
    if sc.Some? && sc.value in s'.subs && s'.subs[sc.value].worker == w then [sc.value] else []
  }

  /** One queue over one step: the front may be taken, at most one entry is put in at the end, and no other moves. */
  ghost predicate QueueFollows(s: State, l: Lane, step: Step, s': State, w: nat)
    requires Shaped(s)
  {
    && w < |s.workers| == |s'.workers|
    && (TakesAt(l, step) == Some(w) ==> QueueOf(s, l, w) != [])
    && QueueOf(s', l, w) ==
       (if TakesAt(l, step) == Some(w) then QueueOf(s, l, w)[1..] else QueueOf(s, l, w)) + AddedAt(s, l, step, s', w)
  }

  lemma Unmoved(s: State, l: Lane, step: Step, s': State, w: nat)
    requires Shaped(s) && w < |s.workers| == |s'.workers| && QueueOf(s', l, w) == QueueOf(s, l, w)
    requires TakesAt(l, step) != Some(w) && Adds(s, l, step).None?
    ensures QueueFollows(s, l, step, s', w)
  {
    assert QueueOf(s, l, w) + [] == QueueOf(s, l, w);
  }

  lemma PutIn(s: State, l: Lane, step: Step, s': State, w: nat, sc: Ref)
    requires Shaped(s) && w < |s.workers| && TakesAt(l, step) != Some(w) && sc in s'.subs
    requires if l.Signals? then OneSignal(s, s', s'.subs[sc].worker, sc) else OneJob(s, s', s'.subs[sc].worker, sc)
    requires Adds(s, l, step) == Some(sc)
    ensures QueueFollows(s, l, step, s', w)
  {
    assert QueueOf(s, l, w) + [] == QueueOf(s, l, w);
  }

  /** Nothing happens to the queues of the other lane. */
  lemma OtherLane(s: State, l: Lane, step: Step, s': State, w: nat, home: nat, sc: Ref)
    requires Shaped(s) && w < |s.workers| && TakesAt(l, step) != Some(w) && Adds(s, l, step).None?
    requires if l.Signals? then OneJob(s, s', home, sc) else OneSignal(s, s', home, sc)
    ensures QueueFollows(s, l, step, s', w)
  {
    assert QueueOf(s, l, w) + [] == QueueOf(s, l, w);
  }

  lemma RequestFollows(s: State, l: Lane, step: Step, w: nat)
    requires Base(s) && Shaped(s) && Enabled(s, step) && step.Request? && w < |s.workers|
    ensures QueueFollows(s, l, step, Next(s, step), w)
  {
    hide Base, RequestStep, QueueFollows, OneSignal, HoldsGrant, Requested, Grows, Enlist, Grant;
    var id, t := step.sg.header.sourcePortIdentity, UnicastMsgType(step.v.msgTypeAndReserved);
    if Signaled(t) {
      RequestIsAnswered(s, step.sg, step.v, step.gclisa, step.now, step.made);
      RequestHome(s, step.sg, step.v, step.gclisa, step.now, step.made);
      var sc := Requested(s, id, t, step.made);
      if l.Signals? {
        PutIn(s, l, step, Next(s, step), w, sc);
      } else {
        OtherLane(s, l, step, Next(s, step), w, FindWorker(s, id, 0), sc);
      }
    } else {
      OtherRequestsAreIgnored(s, step.sg, step.v, step.gclisa, step.now, step.made);
      Unmoved(s, l, step, Next(s, step), w);
    }
  }

  lemma RequestHome(s: State, sg: SignalingPacket, v: Tlv, gclisa: Sockaddr, now: Time, made: Ref)
    requires Base(s) && Shaped(s) && Enabled(s, Request(sg, v, gclisa, now, made))
    requires Signaled(UnicastMsgType(v.msgTypeAndReserved))
    ensures var s', sc := RequestStep(s, sg, v, gclisa, now, made),
                          Requested(s, sg.header.sourcePortIdentity, UnicastMsgType(v.msgTypeAndReserved), made);
            sc in s'.subs && s'.subs[sc].worker == FindWorker(s, sg.header.sourcePortIdentity, 0)
  {
    hide Base, Shaped, Grows, Enlist, Grant, WithinLimits, Find, Enabled, Requested;
    NonEmpty(s);
    RequestEnabled(s, sg, v, gclisa, now, made);
    EnlistKeeps(s, sg, v, gclisa, now, made);
    EnlistFinds(s, sg, v, gclisa, now, made);
    var (s1, sc) := Enlist(s, sg, v, gclisa, now, made);
    GrantIsQueued(s1, sc, sg, v, if WithinLimits(s, v) then v.durationField else 0,
                  sg.header.sourcePortIdentity, UnicastMsgType(v.msgTypeAndReserved));
  }

  lemma DelayRequestFollows(s: State, l: Lane, step: Step, w: nat)
    requires Base(s) && Shaped(s) && Enabled(s, step) && step.DelayRequest? && w < |s.workers|
    ensures QueueFollows(s, l, step, Next(s, step), w)
  {
    hide Base, DelayRequestStep, QueueFollows, OneJob, Asked, Answers, Grows;
    DelayRequestQueues(s, step.p, step.rxTs, step.eclisa, step.now, step.made);
    var asked := Asked(s, step.p, step.made);
    if asked.None? {
      Unmoved(s, l, step, Next(s, step), w);
    } else if l.TimedJobs? {
      PutIn(s, l, step, Next(s, step), w, asked.value);
    } else {
      OtherLane(s, l, step, Next(s, step), w, Next(s, step).subs[asked.value].worker, asked.value);
    }
  }

  /** A run that queues itself, or not. */
  lemma SelfFollows(s: State, l: Lane, step: Step, s': State, w: nat, sc: Ref, queues: bool)
    requires Shaped(s) && w < |s.workers| && TakesAt(l, step).None? && sc in s.subs && sc in s'.subs
    requires s'.subs[sc].worker == s.subs[sc].worker
    requires if queues then OneJob(s, s', s.subs[sc].worker, sc) else s'.workers == s.workers
    requires Adds(s, l, step) == if queues && l.TimedJobs? then Some(sc) else None
    ensures QueueFollows(s, l, step, s', w)
  {
    hide QueueFollows, OneJob, OneSignal, Adds, Shaped;
    if !queues {
      Unmoved(s, l, step, s', w);
    } else if l.TimedJobs? {
      PutIn(s, l, step, s', w, sc);
    } else {
      OtherLane(s, l, step, s', w, s.subs[sc].worker, sc);
    }
  }

  lemma BeginFollows(s: State, l: Lane, r: nat, w: nat)
    requires Shaped(s) && r < |s.runs| && w < |s.workers|
    ensures QueueFollows(s, l, Begin(r), BeginStep(s, r), w)
  {
    hide QueueFollows, OneJob, BeginStep;
    BeginQueues(s, r);
    SelfFollows(s, l, Begin(r), BeginStep(s, r), w, s.runs[r].sc, Periodic(s.subs[s.runs[r].sc].typ));
  }

  lemma TickFollows(s: State, l: Lane, r: nat, now: Time, w: nat)
    requires Shaped(s) && r < |s.runs| && w < |s.workers|
    ensures QueueFollows(s, l, Tick(r, now), TickStep(s, r, now), w)
  {
    hide QueueFollows, OneJob, TickStep;
    var sc := s.runs[r].sc;
    var queues := Periodic(s.subs[sc].typ) && !Expired(s.subs[sc], now);
    if Expired(s.subs[sc], now) {
      ExpiredRunLeaves(s, r, now);
    } else {
      LiveRunGoesOn(s, r, now);
    }
    SelfFollows(s, l, Tick(r, now), TickStep(s, r, now), w, sc, queues);
  }

  lemma FinishFollows(s: State, l: Lane, r: nat, w: nat)
    requires Shaped(s) && r < |s.runs| && w < |s.workers|
    ensures QueueFollows(s, l, Finish(r), FinishStep(s, r), w)
  {
    hide QueueFollows, OneSignal, FinishStep;
    var sc, s' := s.runs[r].sc, FinishStep(s, r);
    FinishQueues(s, r);
    if s.subs[sc].typ == MESSAGE_DELAY_REQ {
      Unmoved(s, l, Finish(r), s', w);
    } else if l.Signals? {
      PutIn(s, l, Finish(r), s', w, sc);
    } else {
      OtherLane(s, l, Finish(r), s', w, s.subs[sc].worker, sc);
    }
  }

  /** The steps of one run. */
  lemma RunFollows(s: State, l: Lane, step: Step, w: nat)
    requires Shaped(s) && Enabled(s, step) && w < |s.workers|
    requires step.Begin? || step.Tick? || step.Finish?
    ensures QueueFollows(s, l, step, Next(s, step), w)
  {
    hide QueueFollows, RequestStep, DelayRequestStep, BeginStep, TickStep, FinishStep;
    match step {
      case Begin(r) => BeginFollows(s, l, r, w);
      case Tick(r, now) => TickFollows(s, l, r, now, w);
      case Finish(r) => FinishFollows(s, l, r, w);
      case _ =>
    }
  }

  lemma BeginQueues(s: State, r: nat)
    requires Shaped(s) && r < |s.runs|
    ensures var s', sc := BeginStep(s, r), s.runs[r].sc;
            && sc in s.subs && sc in s'.subs && s'.subs[sc].worker == s.subs[sc].worker
            && (if Periodic(s.subs[sc].typ) then OneJob(s, s', s.subs[sc].worker, sc) else s'.workers == s.workers)
  {
  }

  lemma FinishQueues(s: State, r: nat)
    requires Shaped(s) && r < |s.runs|
    ensures var s', sc := FinishStep(s, r), s.runs[r].sc;
            && sc in s.subs && sc in s'.subs && s'.subs[sc].worker == s.subs[sc].worker
            && (if s.subs[sc].typ == MESSAGE_DELAY_REQ then s'.workers == s.workers else OneSignal(s, s', s.subs[sc].worker, sc))
  {
  }

  /** The steps that put nothing in. */
  lemma OtherFollows(s: State, l: Lane, step: Step, w: nat)
    requires Shaped(s) && Enabled(s, step) && w < |s.workers|
    requires !step.Request? && !step.DelayRequest? && !step.Begin? && !step.Tick? && !step.Finish?
    ensures QueueFollows(s, l, step, Next(s, step), w)
  {
    hide Find, JobStep, Pruned, StopSub, Shaped, Bumps, Renews, RequestStep, DelayRequestStep, BeginStep, TickStep, FinishStep;
    var s' := Next(s, step);
    if TakesAt(l, step) == Some(w) {
      assert QueueOf(s, l, w)[1..] + [] == QueueOf(s, l, w)[1..];
    } else {
      Unmoved(s, l, step, s', w);
    }
  }

  lemma StepFollows(s: State, l: Lane, step: Step, w: nat)
    requires Base(s) && Shaped(s) && Enabled(s, step) && w < |s.workers|
    ensures QueueFollows(s, l, step, Next(s, step), w)
  {
    hide Base, Shaped, Enabled, Next, QueueFollows;
    if step.Request? {
      RequestFollows(s, l, step, w);
    } else if step.DelayRequest? {
      DelayRequestFollows(s, l, step, w);
    } else if step.Begin? || step.Tick? || step.Finish? {
      RunFollows(s, l, step, w);
    } else {
      OtherFollows(s, l, step, w);
    }
  }

  // --------------------------------------------------- who writes what is sent

  /** What a taken entry sends of its subscription: the signaling packet, or the answer to a delay request. */
  datatype Content =
    | Signal(p: Packet)
    | Answer(resp: Packet, syncId: u16, syncTime: Timestamp, announceId: u16, correction: i64)

  function ContentOf(l: Lane, u: Sub): Content {
    if l.Signals? then Signal(u.signaling)
    else Answer(u.delayRespP, u.syncP.header.sequenceId, u.syncP.originTimestamp, u.announceP.header.sequenceId,
                u.announceP.header.correctionField)
  }

  /** The subscription whose content a step builds anew. */
  function Writes(s: State, l: Lane, step: Step): Option<Ref>
    requires Shaped(s)
  {
    if l.Signals? || step.DelayRequest? then Adds(s, l, step) else None
  }

  /** Types whose jobs answer delay requests, and nothing else. */
  predicate Answering(l: Lane, u: Sub) {
    l.TimedJobs? ==> u.typ == MESSAGE_DELAY_RESP || u.typ == MESSAGE_DELAY_REQ
  }

  ghost predicate ContentStays(s: State, l: Lane, s': State, sc: Ref) {
    sc in s.subs && sc in s'.subs && ContentOf(l, s'.subs[sc]) == ContentOf(l, s.subs[sc])
  }

  lemma RequestStays(s: State, l: Lane, step: Step, sc: Ref)
    requires Base(s) && Shaped(s) && Enabled(s, step) && step.Request? && sc in s.subs && Writes(s, l, step) != Some(sc)
    ensures ContentStays(s, l, Next(s, step), sc)
  {
    hide Base, RequestStep, OneSignal, HoldsGrant, Grows, Enlist, Grant, Requested;
    var id, t := step.sg.header.sourcePortIdentity, UnicastMsgType(step.v.msgTypeAndReserved);
    if Signaled(t) {
      RequestIsAnswered(s, step.sg, step.v, step.gclisa, step.now, step.made);
      if sc == Requested(s, id, t, step.made) {
        RequestLeavesAnswers(s, step.sg, step.v, step.gclisa, step.now, step.made);
      }
    } else {
      OtherRequestsAreIgnored(s, step.sg, step.v, step.gclisa, step.now, step.made);
    }
  }

  lemma RequestLeavesAnswers(s: State, sg: SignalingPacket, v: Tlv, gclisa: Sockaddr, now: Time, made: Ref)
    requires Base(s) && Shaped(s) && Enabled(s, Request(sg, v, gclisa, now, made))
    requires Signaled(UnicastMsgType(v.msgTypeAndReserved))
    ensures var s', sc := RequestStep(s, sg, v, gclisa, now, made),
                          Requested(s, sg.header.sourcePortIdentity, UnicastMsgType(v.msgTypeAndReserved), made);
            sc in s.subs ==> sc in s'.subs && ContentOf(TimedJobs, s'.subs[sc]) == ContentOf(TimedJobs, s.subs[sc])
  {
    hide Base, Shaped, Grows, Enlist, Grant, WithinLimits, Find, Enabled, Requested;
    NonEmpty(s);
    RequestEnabled(s, sg, v, gclisa, now, made);
    EnlistKeeps(s, sg, v, gclisa, now, made);
    EnlistFinds(s, sg, v, gclisa, now, made);
    EnlistLeavesAnswers(s, sg, v, gclisa, now, made);
    var (s1, sc) := Enlist(s, sg, v, gclisa, now, made);
    GrantIsQueued(s1, sc, sg, v, if WithinLimits(s, v) then v.durationField else 0,
                  sg.header.sourcePortIdentity, UnicastMsgType(v.msgTypeAndReserved));
  }

  lemma EnlistLeavesAnswers(s: State, sg: SignalingPacket, v: Tlv, gclisa: Sockaddr, now: Time, made: Ref)
    requires Base(s) && Shaped(s) && v.RequestUnicast? && made !in s.subs
    ensures var (s', sc) := Enlist(s, sg, v, gclisa, now, made);
            sc in s.subs ==> sc in s'.subs && ContentOf(TimedJobs, s'.subs[sc]) == ContentOf(TimedJobs, s.subs[sc])
  {
    hide Base, Enroll, Find;
  }

  lemma DelayRequestStays(s: State, l: Lane, step: Step, sc: Ref)
    requires Base(s) && Shaped(s) && Enabled(s, step) && step.DelayRequest? && sc in s.subs && Writes(s, l, step) != Some(sc)
    ensures ContentStays(s, l, Next(s, step), sc)
  {
    hide Base, DelayRequestStep, OneJob, Asked, Answers, Grows;
    DelayRequestQueues(s, step.p, step.rxTs, step.eclisa, step.now, step.made);
  }

  /** What a step of a run or a cancel makes of its subscription. */
  function RunEffect(s: State, step: Step, u: Sub): Sub {
    match step
    case CancelRequest(_, _, now) => StopSub(u, now)
    case Begin(_) => BeginRun(u)
    case Tick(_, now) => if Expired(u, now) then u else TickRun(u)
    case TakeStop(_) => TakeToken(u)
    case Clear(_) => ClearRunning(u)
    case Finish(_) => if u.typ == MESSAGE_DELAY_REQ then u else UpdateSignalingCancel(u)
    case _ => u
  }

  lemma RunSubs(s: State, step: Step)
    requires Shaped(s) && Enabled(s, step) && Locks.RunOf(step).Some?
    ensures var r := Locks.RunOf(step).value;
            && r < |s.runs| && s.runs[r].sc in s.subs
            && Next(s, step).subs == s.subs[s.runs[r].sc := RunEffect(s, step, s.subs[s.runs[r].sc])]
  {
    hide Find, Pruned, Shaped, Bumps, Renews, RequestStep, DelayRequestStep, JobStep, BeginRun, TickRun, TakeToken, ClearRunning,
      UpdateSignalingCancel;
    var r := Locks.RunOf(step).value;
    Rounds.RunTouches(s, r);
    assert s.subs[s.runs[r].sc := s.subs[s.runs[r].sc]] == s.subs;
  }

  /** Flags and times are not content; only the end of a run builds its Cancel. */
  lemma EffectStays(s: State, l: Lane, step: Step, u: Sub)
    requires step.Finish? && l.Signals? ==> u.typ == MESSAGE_DELAY_REQ
    ensures ContentOf(l, RunEffect(s, step, u)) == ContentOf(l, u)
  {
  }

  /** Steps of runs and cancels change flags and times of a subscription, and at the end its signaling packet. */
  lemma RunStays(s: State, l: Lane, step: Step, sc: Ref)
    requires Shaped(s) && Enabled(s, step) && sc in s.subs && Writes(s, l, step) != Some(sc) && Locks.RunOf(step).Some?
    ensures ContentStays(s, l, Next(s, step), sc)
  {
    hide Next, Shaped, Enabled, RunEffect, ContentOf;
    RunSubs(s, step);
    if sc == s.runs[Locks.RunOf(step).value].sc {
      EffectStays(s, l, step, s.subs[sc]);
    }
  }

  lemma QuietStays(s: State, l: Lane, step: Step, sc: Ref)
    requires Shaped(s) && Enabled(s, step) && sc in s.subs && Locks.RunOf(step).None?
    requires !step.Request? && !step.DelayRequest? && !step.Job?
    ensures ContentStays(s, l, Next(s, step), sc)
  {
    hide Find, Pruned, Shaped, Bumps, Renews, RequestStep, DelayRequestStep, StopSub, BeginStep, TickStep, FinishStep, LeaveStep,
      ClearStep;
    if step.CancelRequest? && CancelTarget(s, step.sg, step.v) == Some(sc) {
      EffectStays(s, l, step, s.subs[sc]);
    }
  }

  /** A job of an answering type writes only its own ID and the time its Sync went out. */
  lemma JobStays(s: State, l: Lane, step: Step, sc: Ref)
    requires Shaped(s) && Enabled(s, step) && step.Job? && sc in s.subs && Answering(l, s.subs[sc])
    ensures ContentStays(s, l, Next(s, step), sc)
  {
    hide JobStep, Find, Shaped, RequestStep, DelayRequestStep;
    var ws := s.workers[step.w];
    JobTakes(s, step.w);
    if sc == ws.queue[0] {
      JobLeavesContent(s.cfg, ws.olderKernel, s.subs[sc], step.o, l);
    }
  }

  lemma JobTakes(s: State, w: nat)
    requires Shaped(s) && w < |s.workers| && s.workers[w].queue != []
    ensures s.workers[w].queue[0] in s.subs && s.workers[w].queue[0] in s.sent
  {
  }

  lemma JobLeavesContent(cfg: Config, olderKernel: bool, u: Sub, o: Outcome, l: Lane)
    requires Answering(l, u)
    ensures ContentOf(l, JobStep(cfg, olderKernel, u, o).sub) == ContentOf(l, u)
  {
    hide NewTimestamp, SendSync;
    JobKeeps(cfg, olderKernel, u, o);
  }

  lemma StepStays(s: State, l: Lane, step: Step, sc: Ref)
    requires Base(s) && Shaped(s) && Enabled(s, step) && sc in s.subs && Answering(l, s.subs[sc]) && Writes(s, l, step) != Some(sc)
    ensures ContentStays(s, l, Next(s, step), sc)
  {
    hide Base, Shaped, Enabled, Next, ContentStays, Writes;
    if step.Request? {
      RequestStays(s, l, step, sc);
    } else if step.DelayRequest? {
      DelayRequestStays(s, l, step, sc);
    } else if step.Job? {
      JobStays(s, l, step, sc);
    } else if Locks.RunOf(step).Some? {
      RunStays(s, l, step, sc);
    } else {
      QuietStays(s, l, step, sc);
    }
  }
}
