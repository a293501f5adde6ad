/** The server's guarantees, over every run of it: any number of clients, workers and steps, in any order. */
module Runs {
  import opened Wire
  import opened Types
  import opened Tlvs
  import opened Packets
  import opened Subscription
  import opened Jobs
  import opened Machine
  import opened Invariants
  import opened History
  import opened Rounds
  import opened Locks
  import Handlers

  /** A shaped state takes an enabled step; that every reachable state is shaped is proved, not asked for. */
  ghost predicate Takes(s: State, step: Step, s': State) {
    Shaped(s) ==> Enabled(s, step) && s' == Next(s, step)
  }

  ghost predicate Execution(states: seq<State>, steps: seq<Step>) {
    && |states| == |steps| + 1 && Init(states[0])
    && forall i | 0 <= i < |steps| :: Takes(states[i], steps[i], states[i + 1])
  }

  ghost predicate Good(s: State) {
    Base(s) && Shaped(s) && HistoryOk(s) && RoundsOk(s) && AllLive(s)
  }

  lemma InitIsGood(s: State)
    requires Init(s)
    ensures Good(s)
  {
    InitIsBase(s);
    BaseIsShaped(s);
  }

  lemma StepKeepsGood(s: State, step: Step)
    requires Good(s) && Enabled(s, step)
    ensures Good(Next(s, step))
  {
    hide RegistryOk, WorkOk, ContextsOk, Shaped, HistoryOk, RoundsOk, AllLive;
    StepKeepsLive(s, step);
    StepKeepsBase(s, step);
    BaseIsShaped(Next(s, step));
    StepKeepsHistory(s, step);
    StepKeepsRounds(s, step);
  }

  lemma {:induction false} Reachable(states: seq<State>, steps: seq<Step>, i: nat)
    requires Execution(states, steps) && i <= |steps|
    ensures Good(states[i])
    ensures 0 < i ==> Good(states[i - 1]) && Enabled(states[i - 1], steps[i - 1]) && states[i] == Next(states[i - 1], steps[i - 1])
  {
    hide Good, Init, Enabled, Next, Shaped;
    if i == 0 {
      InitIsGood(states[0]);
    } else {
      Reachable(states, steps, i - 1);
      GoodIsShaped(states[i - 1]);
      assert Takes(states[i - 1], steps[i - 1], states[i]);
      StepKeepsGood(states[i - 1], steps[i - 1]);
    }
  }

  lemma GoodIsShaped(s: State)
    requires Good(s)
    ensures Shaped(s) && Base(s)
  {
  }

  lemma {:induction false} GrowsAlong(states: seq<State>, steps: seq<Step>, i: nat, j: nat)
    requires Execution(states, steps) && i <= j <= |steps|
    ensures Grows(states[i], states[j])
  {
    hide Execution, Good, Grows;
    assert |states| == |steps| + 1 by {
      ExecutionLength(states, steps);
    }
    if i == j {
      GrowsReflexive(states[i]);
    } else {
      GrowsAlong(states, steps, i, j - 1);
      Reachable(states, steps, j);
      GoodIsShaped(states[j - 1]);
      StepKeepsBase(states[j - 1], steps[j - 1]);
      GrowsTransitive(states[i], states[j - 1], states[j]);
    }
  }

  lemma ExecutionLength(states: seq<State>, steps: seq<Step>)
    requires Execution(states, steps)
    ensures |states| == |steps| + 1
  {
  }

  // ------------------------------------------------------------- the registry

  /**
   * For the three types asked for by signaling, the sharded registry is one flat table: a lookup as the handlers make
   * it finds the last registration that no inventory has collected since.
   */
  lemma RegistryIsFlat(states: seq<State>, steps: seq<Step>, i: nat, c: PortIdentity, t: byte)
    requires Execution(states, steps) && i <= |steps| && Signaled(t)
    ensures var s := states[i];
            && 0 < |s.workers|
            && Lookup(s, c, t) == (if (c, t) in s.flat then Some(s.flat[(c, t)]) else None)
  {
    Reachable(states, steps, i);
  }

  /** Wherever an entry is found, it has the type and client it is filed under and holds the queues of that worker. */
  lemma EntriesAreFiledRight(states: seq<State>, steps: seq<Step>, i: nat, w: nat, c: PortIdentity, t: byte)
    requires Execution(states, steps) && i <= |steps| && w < |states[i].workers|
    requires Find(states[i].workers[w].clients, c, t).Some?
    ensures var s, sc := states[i], Find(states[i].workers[w].clients, c, t).value;
            && sc in s.subs && s.subs[sc].typ == t && s.subs[sc].client == c && s.subs[sc].worker == w
            && (Signaled(t) ==> w == FindWorker(s, c, 0))
  {
    Reachable(states, steps, i);
    assert EntryOk(states[i], w, c, t);
  }

  // ------------------------------------------------------ what is signaled

  /**
   * Any subscription waiting to be signaled holds a packet for its own client, about its own type, with the length it
   * is marshalled to; so whatever a worker sends from its signaling queue decodes to the packet itself.
   */
  lemma SignalsDecode(states: seq<State>, steps: seq<Step>, i: nat, w: nat, sc: Ref)
    requires Execution(states, steps) && i <= |steps| && w < |states[i].workers| && sc in states[i].workers[w].signalingQueue
    ensures sc in states[i].subs
    ensures var u := states[i].subs[sc];
            && SignalingReady(u) && u.typ != MESSAGE_DELAY_REQ && u.worker == w
            && AllEncodable(u.signaling.tlvs) && u.signaling.header.messageLength == |Encode(u.signaling)|
            && Decode(Datagram(u.signaling)) == Success(u.signaling)
            && SignalingSent(u, true) == [Message(false, u.signaling, u.gclisa)]
  {
    hide Encode, Decode, Datagram, Execution, Shaped, HistoryOk, RoundsOk;
    ExecutionLength(states, steps);
    Reachable(states, steps, i);
    assert Signalable(states[i], w, sc);
    ReadySignalingDecodes(states[i].subs[sc]);
    ReadySignalingLength(states[i].subs[sc]);
  }

  lemma ReadySignalingLength(u: Sub)
    requires SignalingReady(u)
    ensures AllEncodable(u.signaling.tlvs) && u.signaling.header.messageLength == |Encode(u.signaling)|
  {
    var t := u.signaling.tlvs[0];
    assert u.signaling.tlvs == [t];
    assert EncodeTlvs([t]) == EncodeTlv(t) + EncodeTlvs([]);
  }

  // ----------------------------------------------------------------- limits

  /** Every grant ever queued gives what was asked if the request met the limits of its moment, and 0 if not. */
  lemma GrantsMeetLimits(states: seq<State>, steps: seq<Step>, i: nat, k: nat)
    requires Execution(states, steps) && i <= |steps| && k < |states[i].log| && states[i].log[k].GrantQueued?
    ensures var e := states[i].log[k];
            && e.granted == (if e.period >= e.min && DurationOf(e.asked) <= e.max && !e.drained then e.asked else 0)
            && (e.granted != 0 ==> e.period >= e.min && DurationOf(e.granted) <= e.max && !e.drained)
  {
    hide Execution, Base, Shaped, RoundsOk, AllLive;
    ExecutionLength(states, steps);
    Reachable(states, steps, i);
    assert EventOk(states[i], k);
  }

  /** Every run but an sptp one was spawned right behind a grant to the same subscription that met the limits. */
  lemma RunsFollowGrants(states: seq<State>, steps: seq<Step>, i: nat, r: nat)
    requires Execution(states, steps) && i <= |steps| && r < |states[i].runs|
    ensures states[i].runs[r].sc in states[i].subs
    ensures states[i].subs[states[i].runs[r].sc].typ != MESSAGE_DELAY_REQ ==>
              exists k | 0 < k < |states[i].log| ::
                states[i].log[k] == Spawned(r) && PassingGrant(states[i].log[k - 1], states[i].runs[r].sc)
  {
    hide Execution, Base, Shaped, RoundsOk;
    ExecutionLength(states, steps);
    var s := states[i];
    Reachable(states, steps, i);
    assert LifeOk(s, r);
    TimesAppears(s.log, Spawned(r));
    var k :| 0 <= k < |s.log| && s.log[k] == Spawned(r);
    assert EventOk(s, k);
  }

  // ------------------------------------------------------------ how runs end

  /**
   * A run clears the running flag exactly once, on leaving its loop by whatever branch, and queues exactly one Cancel
   * after that, none for DELAY_REQ.
   */
  lemma RunsEndOnce(states: seq<State>, steps: seq<Step>, i: nat, r: nat)
    requires Execution(states, steps) && i <= |steps| && r < |states[i].runs|
    ensures var s := states[i];
            var ended, phase := s.runs[r].sc in s.subs && s.subs[s.runs[r].sc].typ != MESSAGE_DELAY_REQ, s.runs[r].phase;
            && multiset(s.log)[Cleared(r)] == (if phase.IsCleared? || phase.IsDone? then 1 else 0)
            && multiset(s.log)[CancelQueued(r)] == (if phase.IsDone? && ended then 1 else 0)
            && (forall k | 0 <= k < |s.log| && s.log[k] == CancelQueued(r) :: Cleared(r) in s.log[..k])
  {
    Reachable(states, steps, i);
    var s := states[i];
    assert LifeOk(s, r);
    forall k | 0 <= k < |s.log| && s.log[k] == CancelQueued(r) ensures Cleared(r) in s.log[..k] {
      assert EventOk(s, k);
    }
  }

  /** The finished runs that are not sptp ones. */
  ghost function Finished(s: State): set<nat> {
    set r: nat | r < |s.runs| && s.runs[r].phase.IsDone? && s.runs[r].sc in s.subs && s.subs[s.runs[r].sc].typ != MESSAGE_DELAY_REQ
  }

  function Cancels(log: seq<Event>): multiset<nat> {
    if log == [] then multiset{}
    else Cancels(log[..|log| - 1]) + (if log[|log| - 1].CancelQueued? then multiset{log[|log| - 1].r} else multiset{})
  }

  lemma {:induction false} CancelsCount(log: seq<Event>, r: nat)
    ensures Cancels(log)[r] == Times(log, CancelQueued(r))
  {
    if log != [] {
      CancelsCount(log[..|log| - 1], r);
      TimesSnoc(log[..|log| - 1], log[|log| - 1], CancelQueued(r));
      assert log == log[..|log| - 1] + [log[|log| - 1]];
    }
  }

  /** Cancels queued are exactly the runs ended, so there are as many of them. */
  lemma CancelsAreEndedRuns(states: seq<State>, steps: seq<Step>, i: nat)
    requires Execution(states, steps) && i <= |steps|
    ensures Cancels(states[i].log) == multiset(Finished(states[i]))
    ensures |Cancels(states[i].log)| == |Finished(states[i])|
  {
    hide Cancels, Times, Execution, Base, Shaped, RoundsOk;
    ExecutionLength(states, steps);
    Reachable(states, steps, i);
    var s := states[i];
    forall r: nat ensures Cancels(s.log)[r] == multiset(Finished(s))[r] {
      CancelsCount(s.log, r);
      if r < |s.runs| {
        assert LifeOk(s, r);
      } else {
        NoEventsYet(s, r);
      }
    }
  }

  // ------------------------------------------------------------- stop tokens

  /** A stop token, once there, stays through renewals and everything else until a run of its subscription takes it. */
  lemma {:induction false} TokenStays(states: seq<State>, steps: seq<Step>, i: nat, j: nat, sc: Ref)
    requires Execution(states, steps) && i <= j <= |steps| && sc in states[i].subs && states[i].subs[sc].stop
    requires forall k | i <= k < j && steps[k].TakeStop? ::
               steps[k].r < |states[k].runs| && states[k].runs[steps[k].r].sc != sc
    ensures sc in states[j].subs && states[j].subs[sc].stop
    decreases j - i
  {
    hide Good, Execution, Next, RoundsOk, Enabled;
    if i < j {
      ExecutionLength(states, steps);
      TokenStays(states, steps, i, j - 1, sc);
      Reachable(states, steps, j);
      StepKeepsToken(states[j - 1], steps[j - 1], sc);
    }
  }

  lemma TokenMoves(s: State, step: Step, a: Sub, b: Sub, sc: Ref, touched: bool)
    requires LockMoves(step, touched, a, b) && a.stop && (step.TakeStop? ==> !touched)
    ensures b.stop
  {
  }

  lemma StepKeepsToken(s: State, step: Step, sc: Ref)
    requires Good(s) && Enabled(s, step) && sc in s.subs && s.subs[sc].stop
    requires step.TakeStop? ==> step.r < |s.runs| && s.runs[step.r].sc != sc
    ensures sc in Next(s, step).subs && Next(s, step).subs[sc].stop
  {
    hide Good, Next, Enabled, LockMoves, RoundsOk;
    GoodIsRound(s);
    StepKeepsRounds(s, step);
    TokenMoves(s, step, s.subs[sc], Next(s, step).subs[sc], sc, sc in Touches(s, step));
  }

  lemma GoodIsRound(s: State)
    requires Good(s)
    ensures Shaped(s) && RoundsOk(s) && WorkOk(s)
  {
  }

  // ------------------------------------------------------------------ rounds

  /**
   * What a Sync subscription sent, whatever sends and timestamps failed: rounds of a Sync and its Follow_Up with the
   * Sync's sequence ID, numbered from 0 modulo 2^16 by the rounds completed before; never more Follow_Ups than Syncs.
   */
  lemma SyncRounds(states: seq<State>, steps: seq<Step>, i: nat, sc: Ref)
    requires Execution(states, steps) && i <= |steps| && sc in states[i].subs && states[i].subs[sc].typ == MESSAGE_SYNC
    ensures sc in states[i].sent
    ensures var ms := states[i].sent[sc];
            && TwoStep(ms) && Completed(ms) <= Syncs(ms)
            && states[i].subs[sc].sequenceId == Completed(ms) % 0x1_0000
            && (forall k | 0 <= k < |ms| && ms[k].packet.FollowUp? ::
                  && 0 < k && ms[k - 1].packet.SyncDelayReq?
                  && ms[k].packet.header.sequenceId == ms[k - 1].packet.header.sequenceId == Completed(ms[..k]) % 0x1_0000)
  {
    Reachable(states, steps, i);
    assert RoundOk(states[i], sc);
    var ms := states[i].sent[sc];
    FollowUpsNeedSyncs(ms);
    forall k | 0 <= k < |ms| && ms[k].packet.FollowUp?
      ensures 0 < k && ms[k - 1].packet.SyncDelayReq?
      ensures ms[k].packet.header.sequenceId == ms[k - 1].packet.header.sequenceId == Completed(ms[..k]) % 0x1_0000
    {
      assert TwoStepAt(ms, k);
    }
  }

  /** Every Sync, Follow_Up, Announce and Delay_Resp ever sent is read back from its datagram by the client. */
  lemma SentMessagesDecode(states: seq<State>, steps: seq<Step>, i: nat, sc: Ref, k: nat)
    requires Execution(states, steps) && i <= |steps| && sc in states[i].subs && sc in states[i].sent && k < |states[i].sent[sc]|
    ensures var p := states[i].sent[sc][k].packet; AllEncodable(TlvsOf(p)) && Decode(Datagram(p)) == Success(p)
  {
    hide Decode, Datagram, Execution, Base, Shaped, HistoryOk;
    ExecutionLength(states, steps);
    Reachable(states, steps, i);
    assert RoundOk(states[i], sc);
    assert Decodable(states[i].sent[sc][k].packet);
  }

  // ---------------------------------------------------------------- draining

  /** There is at most one live context, and if there is one it is the current. */
  lemma OneLiveContext(states: seq<State>, steps: seq<Step>, i: nat, k: nat)
    requires Execution(states, steps) && i <= |steps| && k < |states[i].done| && !states[i].done[k]
    ensures k == |states[i].done| - 1 && !Drained(states[i])
  {
    Reachable(states, steps, i);
  }

  /**
   * A run whose context was cancelled stays with it: draining, undraining and renewing never revive it, and whenever
   * it is in its select it can leave its loop. Clearing its flag then takes the lock.
   */
  lemma OldRunsStayCancelled(states: seq<State>, steps: seq<Step>, i: nat, j: nat, r: nat)
    requires Execution(states, steps) && i <= j <= |steps| && r < |states[i].runs|
    requires states[i].runs[r].ctx < |states[i].done| && states[i].done[states[i].runs[r].ctx]
    ensures r < |states[j].runs| && states[j].runs[r].ctx < |states[j].done| && states[j].done[states[j].runs[r].ctx]
    ensures Shaped(states[j]) && (states[j].runs[r].phase.IsLooping? ==> Enabled(states[j], CtxIsDone(r)))
  {
    hide Execution, Shaped, Good, Next;
    ExecutionLength(states, steps);
    GrowsAlong(states, steps, i, j);
    Reachable(states, steps, j);
    GoodIsShaped(states[j]);
  }

  /** The steps a handler makes. */
  predicate Handles(step: Step) {
    step.Request? || step.CancelRequest? || step.DelayRequest?
  }

  /** While drained a handler starts no run, grants nothing, and does nothing at all about a delay request. */
  lemma DrainedHandlersAreIdle(s: State, step: Step)
    requires Base(s) && Shaped(s) && Enabled(s, step) && Handles(step) && Drained(s)
    ensures Next(s, step).runs == s.runs
    ensures step.DelayRequest? ==> Next(s, step) == s
    ensures s.log <= Next(s, step).log && |Next(s, step).log| <= |s.log| + 1
    ensures |s.log| < |Next(s, step).log| ==>
              Next(s, step).log[|s.log|].GrantQueued? && Next(s, step).log[|s.log|].granted == 0
  {
    hide Base, RequestStep;
    if step.Request? && Signaled(UnicastMsgType(step.v.msgTypeAndReserved)) {
      RequestRecord(s, step.sg, step.v, step.gclisa, step.now, step.made);
    } else if step.Request? {
      Handlers.OtherRequestsAreIgnored(s, step.sg, step.v, step.gclisa, step.now, step.made);
    }
  }

  lemma DrainedStep(s: State, step: Step)
    requires Base(s) && Shaped(s) && Enabled(s, step) && Drained(s) && !step.Undrain?
    ensures Next(s, step).done == s.done && |Next(s, step).runs| == |s.runs|
  {
    hide Base, RequestStep, JobStep, Pruned, DelayRequestStep;
    if Handles(step) {
      DrainedHandlersAreIdle(s, step);
      StepKeepsDone(s, step);
    }
  }

  lemma StepKeepsDone(s: State, step: Step)
    requires Base(s) && Shaped(s) && Enabled(s, step) && Drained(s) && Handles(step)
    ensures Next(s, step).done == s.done
  {
    hide Base, Enlist, Grant, Grows;
    if step.Request? && Signaled(UnicastMsgType(step.v.msgTypeAndReserved)) {
      EnlistKeeps(s, step.sg, step.v, step.gclisa, step.now, step.made);
      var (s1, sc) := Enlist(s, step.sg, step.v, step.gclisa, step.now, step.made);
      GrantEffect(s1, sc, step.sg, step.v, 0);
    }
  }

  /** From a drain to the next undrain no run is spawned, by any step; one spawned before can still begin. */
  lemma {:induction false} NothingIsSpawnedWhileDrained(states: seq<State>, steps: seq<Step>, i: nat, j: nat)
    requires Execution(states, steps) && i <= j <= |steps| && 0 < |states[i].done| && Drained(states[i])
    requires forall k | i <= k < j :: !steps[k].Undrain?
    ensures 0 < |states[j].done| && Drained(states[j]) && |states[j].runs| == |states[i].runs|
    decreases j - i
  {
    hide Good, Execution, Next, Enabled, Drained;
    if i < j {
      ExecutionLength(states, steps);
      NothingIsSpawnedWhileDrained(states, steps, i, j - 1);
      Reachable(states, steps, j);
      DrainedGoes(states[j - 1], steps[j - 1]);
    }
  }

  lemma DrainedGoes(s: State, step: Step)
    requires Good(s) && Enabled(s, step) && 0 < |s.done| && Drained(s) && !step.Undrain?
    ensures var s' := Next(s, step); 0 < |s'.done| && Drained(s') && |s'.runs| == |s.runs|
  {
    hide Good, Next, Enabled, Base, Shaped;
    GoodIsShaped(s);
    DrainedStep(s, step);
  }

  // ------------------------------------------------------------ locks and flags

  /**
   * A Stop that waits, with the lock: either some run of its subscription is in its select, and then that run can take
   * the token, which lets the Stop go on; or none is, and then neither this lock nor what needs it ever gets free.
   */
  lemma WaitingStopsAreFreedOrStuck(states: seq<State>, steps: seq<Step>, i: nat, sc: Ref)
    requires Execution(states, steps) && i <= |steps| && sc in states[i].subs && states[i].subs[sc].waiting
    ensures Shaped(states[i])
    ensures (exists r: nat | r < |states[i].runs| && states[i].runs[r].sc == sc && states[i].runs[r].phase.IsLooping? ::
               Enabled(states[i], TakeStop(r)) && !WaitingAfter(states[i], r, sc)) <==> !Stuck(states[i], sc)
  {
    hide Execution, Base, HistoryOk, RoundsOk, Next, Shaped, Enabled, WaitingAfter;
    ExecutionLength(states, steps);
    Reachable(states, steps, i);
    assert LiveOk(states[i], sc);
    forall r: nat | r < |states[i].runs| && states[i].runs[r].sc == sc && states[i].runs[r].phase.IsLooping?
      ensures Enabled(states[i], TakeStop(r)) && !WaitingAfter(states[i], r, sc)
    {
      FreedAfter(states[i], r);
    }
  }

  /** Whether a Stop still waits at sc once run r took its token. */
  ghost predicate WaitingAfter(s: State, r: nat, sc: Ref)
    requires Shaped(s)
  {
    Enabled(s, TakeStop(r)) && sc in Next(s, TakeStop(r)).subs && Next(s, TakeStop(r)).subs[sc].waiting
  }

  lemma FreedAfter(s: State, r: nat)
    requires Shaped(s) && r < |s.runs| && s.runs[r].phase.IsLooping? && LiveOk(s, s.runs[r].sc) && s.subs[s.runs[r].sc].waiting
    ensures Enabled(s, TakeStop(r)) && !WaitingAfter(s, r, s.runs[r].sc)
  {
    hide Next;
    LoopingFrees(s, r);
  }

  lemma {:induction false} StuckForEver(states: seq<State>, steps: seq<Step>, i: nat, j: nat, sc: Ref)
    requires Execution(states, steps) && i <= j <= |steps| && Stuck(states[i], sc)
    ensures Stuck(states[j], sc)
    decreases j - i
  {
    hide Good, Execution, Next, Enabled, Stuck;
    if i < j {
      ExecutionLength(states, steps);
      StuckForEver(states, steps, i, j - 1, sc);
      Reachable(states, steps, j);
      StuckGoesOn(states[j - 1], steps[j - 1], sc);
    }
  }

  lemma StuckGoesOn(s: State, step: Step, sc: Ref)
    requires Good(s) && Enabled(s, step) && Stuck(s, sc)
    ensures Stuck(Next(s, step), sc)
  {
    hide Next, Enabled, Stuck, Base, Shaped, RoundsOk, HistoryOk, AllLive;
    StuckStays(s, step, sc);
  }

  /** In every reachable state a running flag has a run behind it that set it and has not cleared it. */
  lemma RunningHasARun(states: seq<State>, steps: seq<Step>, i: nat, sc: Ref)
    requires Execution(states, steps) && i <= |steps| && sc in states[i].subs && states[i].subs[sc].running
    ensures exists r: nat :: StandsFor(states[i], r, sc)
  {
    hide Execution, Base, Shaped, HistoryOk, RoundsOk;
    ExecutionLength(states, steps);
    Reachable(states, steps, i);
    assert LiveOk(states[i], sc);
  }

  /**
   * A grant leaves a run that is spawned or in its loop, except exactly when the flag was up at the request with every
   * run behind it already out of its loop.
   */
  lemma GrantsAreServed(s: State, sg: SignalingPacket, v: Tlv, gclisa: Sockaddr, now: Time, made: Ref)
    requires Good(s) && Enabled(s, Request(sg, v, gclisa, now, made))
    requires Signaled(UnicastMsgType(v.msgTypeAndReserved)) && WithinLimits(s, v)
    ensures var s' := RequestStep(s, sg, v, gclisa, now, made);
            var sc := Handlers.Requested(s, sg.header.sourcePortIdentity, UnicastMsgType(v.msgTypeAndReserved), made);
            && (Served(s', sc) <==> sc == made || Served(s, sc))
            && (sc != made && !Served(s, sc) ==> exists r: nat :: StandsFor(s, r, sc) && s.runs[r].phase.IsLeft?)
  {
    hide RequestStep, HistoryOk, RoundsOk, WithinLimits, Base;
    GoodIsShaped(s);
    Handlers.RequestSpawns(s, sg, v, gclisa, now, made);
    var s' := RequestStep(s, sg, v, gclisa, now, made);
    var id, t := sg.header.sourcePortIdentity, UnicastMsgType(v.msgTypeAndReserved);
    var sc := Handlers.Requested(s, id, t, made);
    if Lookup(s, id, t).Some? {
      Handlers.RunningOneWasThere(s, id, t, made);
    }
    if sc == made {
      assert Serves(s', |s.runs|, sc);
    } else {
      assert LiveOk(s, sc);
      assert forall r: nat :: Serves(s', r, sc) <==> Serves(s, r, sc);
      RunningIsServed(s, sc);
    }
  }

  /** Once every run has cleared its flag, or not begun, one inventory of each worker empties the registry. */
  lemma InventoryEmpties(states: seq<State>, steps: seq<Step>, i: nat, w: nat, c: PortIdentity, t: byte)
    requires Execution(states, steps) && i <= |steps| && w < |states[i].workers|
    requires forall r | 0 <= r < |states[i].runs| :: !Active(states[i].runs[r].phase)
    ensures Shaped(states[i]) && w < |InventoryStep(states[i], w).workers|
    ensures Find(InventoryStep(states[i], w).workers[w].clients, c, t).None?
  {
    hide Execution, Base, HistoryOk, RoundsOk, Find, Pruned;
    ExecutionLength(states, steps);
    Reachable(states, steps, i);
    QuietInventoryEmpties(states[i], w, c, t);
  }
}
