/** Over every run of the server: contexts, and what an undrain brings back. */
module Contexts {
  import opened Wire
  import opened Types
  import opened Tlvs
  import opened Packets
  import opened Subscription
  import opened Jobs
  import opened Machine
  import opened Invariants
  import opened Handlers
  import opened Rounds
  import opened Runs
  import opened Effects

  lemma RequestKeepsDone(s: State, sg: SignalingPacket, v: Tlv, gclisa: Sockaddr, now: Time, made: Ref)
    requires Base(s) && Shaped(s) && Enabled(s, Request(sg, v, gclisa, now, made))
    ensures RequestStep(s, sg, v, gclisa, now, made).done == s.done
  {
    hide Base, Enlist, Grant, WithinLimits, Find, IsGranted;
    assert v.RequestUnicast? && made !in s.subs;
    if Signaled(UnicastMsgType(v.msgTypeAndReserved)) {
      NonEmpty(s);
      EnlistKeeps(s, sg, v, gclisa, now, made);
      var (s1, sc) := Enlist(s, sg, v, gclisa, now, made);
      GrantByNumbers(s1, sc, sg, v, if WithinLimits(s, v) then v.durationField else 0);
    }
  }

  lemma DelayRequestKeepsDone(s: State, p: SyncPacket, rxTs: Time, eclisa: Sockaddr, now: Time, made: Ref)
    requires Shaped(s)
    ensures DelayRequestStep(s, p, rxTs, eclisa, now, made).done == s.done
  {
    hide Shaped, NewSub, NewTimestamp, Find, Register, WorkerOffset;
    SentKeys(s);
  }

  /** Only a drain and an undrain change the contexts. */
  lemma OthersKeepContexts(s: State, step: Step)
    requires Base(s) && Shaped(s) && Enabled(s, step) && !step.Drain? && !step.Undrain?
    ensures Next(s, step).done == s.done
  {
    hide Base, RequestStep, DelayRequestStep, JobStep, Pruned, Find;
    if step.Request? {
      RequestKeepsDone(s, step.sg, step.v, step.gclisa, step.now, step.made);
    } else if step.DelayRequest? {
      DelayRequestKeepsDone(s, step.p, step.rxTs, step.eclisa, step.now, step.made);
    }
  }

  lemma UndrainedGoes(s: State, step: Step)
    requires Good(s) && Enabled(s, step) && !step.Drain? && 0 < |s.done| && !s.done[|s.done| - 1]
    ensures Next(s, step).done == s.done
  {
    hide Good, Base, Shaped;
    GoodIsShaped(s);
    if step.Undrain? {
      UndrainByNumbers(s);
    } else {
      OthersKeepContexts(s, step);
    }
  }

  /** From an undrain to the next drain the contexts stay as the undrain left them, with the last one live. */
  lemma {:induction false} UndrainLasts(states: seq<State>, steps: seq<Step>, u: nat, i: nat)
    requires Execution(states, steps) && u < i <= |steps| && steps[u].Undrain? && forall k | u < k < i :: !steps[k].Drain?
    ensures 0 < |states[u].done|
    ensures var d, was := states[i].done, states[u].done;
            && d == (if was[|was| - 1] then was + [false] else was) && !d[|d| - 1]
            && forall k | 0 <= k < |d| - 1 :: d[k]
    decreases i
  {
    hide Execution, Good, Shaped, Base, Enabled;
    ExecutionLength(states, steps);
    Reachable(states, steps, i);
    GoodIsShaped(states[i - 1]);
    if i == u + 1 {
      UndrainNext(states[u], steps[u]);
    } else {
      UndrainLasts(states, steps, u, i - 1);
      UndrainedGoes(states[i - 1], steps[i - 1]);
    }
  }

  lemma UndrainNext(s: State, step: Step)
    requires Base(s) && Shaped(s) && Enabled(s, step) && step.Undrain?
    ensures 0 < |s.done| && Next(s, step).done == (if s.done[|s.done| - 1] then s.done + [false] else s.done)
    ensures forall k | 0 <= k < |s.done| - 1 :: s.done[k]
  {
    hide RegistryOk, WorkOk;
  }

  /** The subscription a request is about, by numbers. */
  function AskedFor(s: State, sg: SignalingPacket, v: Tlv, made: Ref): Ref
    requires Shaped(s) && v.RequestUnicast?
  {
    var c := sg.header.sourcePortIdentity;
    var found := Find(s.workers[FindWorker(s, c, 0)].clients, c, v.msgTypeAndReserved / 16);
    if found.Some? && s.subs[found.value].running then found.value else made
  }

  /**
   * After an undrain, and up to the next drain, a request for Sync, Announce or Delay_Resp within the limits gets what
   * it asks for, and a run that it spawns has the live context: the one that the undrain made, if the server was drained.
   */
  lemma UndrainedIsServed(states: seq<State>, steps: seq<Step>, u: nat, i: nat)
    requires Execution(states, steps) && u < i < |steps| && steps[u].Undrain? && (forall k | u < k < i :: !steps[k].Drain?)
    requires steps[i].Request? && steps[i].v.RequestUnicast?
    requires var v, cfg := steps[i].v, states[i].cfg;
             && (v.msgTypeAndReserved / 16 == 0x0 || v.msgTypeAndReserved / 16 == 0xB || v.msgTypeAndReserved / 16 == 0x9)
             && cfg.minSubInterval <= states[i].period(v.logInterMessagePeriod)
             && v.durationField * 1_000_000_000 <= cfg.maxSubDuration
    ensures Shaped(states[i]) && 0 < |states[u].done|
    ensures var s, s', v, sc := states[i], states[i + 1], steps[i].v, AskedFor(states[i], steps[i].sg, steps[i].v, steps[i].made);
            && sc in s'.subs
            && s'.subs[sc].signaling.tlvs ==
               [GrantUnicast(TlvHead(0x0005, 8), v.msgTypeAndReserved, v.logInterMessagePeriod, v.durationField, 0, 1)]
            && (if sc in s.subs then s'.runs == s.runs
                else
                  && |s'.runs| == |s.runs| + 1 && s'.runs[|s.runs|].sc == sc
                  && s'.runs[|s.runs|].phase.IsSpawned? && s'.runs[|s.runs|].ctx < |s'.done|
                  && !s'.done[s'.runs[|s.runs|].ctx]
                  && (states[u].done[|states[u].done| - 1] ==> s'.runs[|s.runs|].ctx == |states[u].done|))
  {
    hide Execution, Good, Base, Shaped, Enabled, Next, Find, RequestStep, IsNew;
    ExecutionLength(states, steps);
    Reachable(states, steps, i + 1);
    GoodIsShaped(states[i]);
    UndrainLasts(states, steps, u, i);
    ServedNow(states[i], steps[i]);
  }

  lemma ServedNow(s: State, step: Step)
    requires Base(s) && Shaped(s) && Enabled(s, step) && step.Request? && step.v.RequestUnicast?
    requires 0 < |s.done| && !s.done[|s.done| - 1]
    requires var v, t := step.v, step.v.msgTypeAndReserved / 16;
             && (t == 0x0 || t == 0xB || t == 0x9)
             && s.cfg.minSubInterval <= s.period(v.logInterMessagePeriod) && v.durationField * 1_000_000_000 <= s.cfg.maxSubDuration
    ensures var s', v, sc := Next(s, step), step.v, AskedFor(s, step.sg, step.v, step.made);
            && sc in s'.subs && s'.done == s.done
            && s'.subs[sc].signaling.tlvs ==
               [GrantUnicast(TlvHead(0x0005, 8), v.msgTypeAndReserved, v.logInterMessagePeriod, v.durationField, 0, 1)]
            && s'.runs == s.runs + (if sc in s.subs then [] else [Run(sc, |s.done| - 1, IsSpawned)])
  {
    hide Base, Shaped, RequestStep, IsNew, Find;
    NonEmpty(s);
    RequestByNumbers(s, step.sg, step.v, step.gclisa, step.now, step.made);
    RequestKeepsDone(s, step.sg, step.v, step.gclisa, step.now, step.made);
  }
}
