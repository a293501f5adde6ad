/** What the server's methods need to know of the machine's steps, one step at a time and in a row. */
module ServerSteps {
  import opened Wire
  import opened Types
  import opened Tlvs
  import opened Packets
  import opened Subscription
  import opened SubscriptionClients
  import opened Jobs
  import opened Machine
  import opened Invariants
  import opened Locks
  import opened Rounds
  import opened Worker
  import Runs
  import Stats

  // --------------------------------------------------------------- paths

  /** A step that is allowed, and what it makes. */
  ghost predicate Took(s: State, step: Step, s': State) {
    Shaped(s) && Enabled(s, step) && s' == Next(s, step)
  }

  /** Trying a step: it is taken exactly if it is allowed, and nothing happens otherwise. */
  ghost predicate Performed(s: State, step: Step, taken: bool, s': State) {
    Shaped(s) && (taken <==> Enabled(s, step)) && s' == if taken then Next(s, step) else s
  }

  lemma PerformedIs(s: State, step: Step, taken: bool, s': State)
    requires Performed(s, step, taken, s')
    ensures if taken then Took(s, step, s') else s' == s
  {
    hide Shaped, Enabled, Next;
  }

  /** Steps that lead from s to s', and the states between. */
  ghost predicate Path(s: State, trace: seq<State>, steps: seq<Step>, s': State) {
    && |trace| == |steps| + 1 && trace[0] == s && trace[|steps|] == s'
    && forall i | 0 <= i < |steps| :: Took(trace[i], steps[i], trace[i + 1])
  }

  lemma NoPath(s: State)
    ensures Path(s, [s], [], s)
  {
  }

  lemma DrainIsStep(s: State)
    requires Shaped(s)
    ensures Took(s, Step.Drain, DrainStep(s))
  {
    hide DrainStep;
  }

  lemma PathEnds(s: State, trace: seq<State>, steps: seq<Step>, s': State)
    requires Path(s, trace, steps, s')
    ensures |trace| == |steps| + 1 && trace[0] == s && trace[|steps|] == s'
  {
    hide Took;
  }

  lemma PathStep(s: State, trace: seq<State>, steps: seq<Step>, s': State, step: Step, s'': State)
    requires Path(s, trace, steps, s') && Took(s', step, s'')
    ensures Path(s, trace + [s''], steps + [step], s'')
  {
    hide Took;
  }

  lemma PathJoin(s: State, a: seq<State>, sa: seq<Step>, s': State, b: seq<State>, sb: seq<Step>, s'': State)
    requires Path(s, a, sa, s') && Path(s', b, sb, s'')
    ensures 0 < |b| && Path(s, a + b[1..], sa + sb, s'')
  {
    hide Took;
    var t, st := a + b[1..], sa + sb;
    forall i | 0 <= i < |st| ensures Took(t[i], st[i], t[i + 1]) {
      if |sa| <= i {
        assert st[i] == sb[i - |sa|] && t[i + 1] == b[i - |sa| + 1];
      }
    }
  }

  /** What this object does after an execution of the machine goes on as one: all that is proved of those holds for it. */
  lemma ExecutionGoesOn(states: seq<State>, done: seq<Step>, trace: seq<State>, steps: seq<Step>, s: State)
    requires Runs.Execution(states, done) && Path(states[|done|], trace, steps, s)
    ensures Runs.Execution(states + trace[1..], done + steps)
  {
    hide Init, Enabled, Next, Shaped;
    var all, st := states + trace[1..], done + steps;
    forall i | 0 <= i < |st| ensures Runs.Takes(all[i], st[i], all[i + 1]) {
      if |done| <= i {
        assert Took(trace[i - |done|], steps[i - |done|], trace[i - |done| + 1]);
      }
    }
  }

  /** The step with the object that was made for it. */
  function WithMade(step: Step, made: Ref): Step {
    match step
    case Request(sg, v, gclisa, now, _) => Request(sg, v, gclisa, now, made)
    case DelayRequest(p, rxTs, eclisa, now, _) => DelayRequest(p, rxTs, eclisa, now, made)
    case _ => step
  }

  /** Step i of a path is the inventory of worker w, and `waited` is whether one of its entries was running then. */
  ghost predicate LooksAt(trace: seq<State>, steps: seq<Step>, i: nat, w: nat, waited: bool) {
    i < |steps| && i < |trace| && steps[i] == Inventory(w) && (waited <==> AnEntryRuns(trace[i], w))
  }

  ghost predicate AnEntryRuns(s: State, w: nat) {
    w < |s.workers| && exists c, t :: EntryRuns(s, w, c, t)
  }

  predicate EntryRuns(s: State, w: nat, c: PortIdentity, t: byte)
    requires w < |s.workers|
  {
    var found := Find(s.workers[w].clients, c, t);
    found.Some? && found.value in s.subs && s.subs[found.value].running
  }

  /** The looks of one round, at the workers in order. */
  ghost predicate Looked(trace: seq<State>, steps: seq<Step>, looks: seq<nat>, round: seq<bool>) {
    && |looks| == |round|
    && (forall w | 0 <= w < |round| :: LooksAt(trace, steps, looks[w], w, round[w]))
    && (forall w, v | 0 <= w < v < |round| :: looks[w] < looks[v])
  }

  /** The looks of all rounds: each at an inventory, and one after the other. */
  ghost predicate AllLooked(trace: seq<State>, steps: seq<Step>, at: seq<seq<nat>>, rounds: seq<seq<bool>>) {
    && |at| == |rounds| && (forall k | 0 <= k < |rounds| :: |at[k]| == |rounds[k]|)
    && (forall k, w | 0 <= k < |rounds| && 0 <= w < |rounds[k]| :: LooksAt(trace, steps, at[k][w], w, rounds[k][w]))
    && (forall k, w, l, v | 0 <= k < |rounds| && 0 <= w < |rounds[k]| && 0 <= l < |rounds| && 0 <= v < |rounds[l]| ::
          k < l || (k == l && w < v) ==> at[k][w] < at[l][v])
  }

  lemma NoLooks(trace: seq<State>, steps: seq<Step>)
    ensures Looked(trace, steps, [], []) && AllLooked(trace, steps, [], [])
  {
  }

  lemma LooksStay(trace: seq<State>, steps: seq<Step>, more: seq<State>, taken: seq<Step>, looks: seq<nat>, round: seq<bool>)
    requires Looked(trace, steps, looks, round) && 0 < |more|
    ensures Looked(trace + more[1..], steps + taken, looks, round)
  {
    hide AnEntryRuns;
  }

  lemma OneMoreLook(trace: seq<State>, steps: seq<Step>, s: State, looks: seq<nat>, round: seq<bool>, any: bool)
    requires Looked(trace, steps, looks, round) && |trace| == |steps| + 1 && (any <==> AnEntryRuns(trace[|steps|], |round|))
    ensures Looked(trace + [s], steps + [Inventory(|round|)], looks + [|steps|], round + [any])
  {
    hide AnEntryRuns;
  }

  function Shifted(looks: seq<nat>, n: nat): (r: seq<nat>)
    ensures |r| == |looks|
  {
    seq(|looks|, w requires 0 <= w < |looks| => n + looks[w])
  }

  /** The looks of earlier rounds stay where they were; those of a new one come behind them. */
  lemma OneMoreRound(trace: seq<State>, steps: seq<Step>, more: seq<State>, taken: seq<Step>, at: seq<seq<nat>>, rounds: seq<seq<bool>>,
                     looks: seq<nat>, round: seq<bool>)
    requires AllLooked(trace, steps, at, rounds) && Looked(more, taken, looks, round)
    requires |trace| == |steps| + 1 && 0 < |more| && more[0] == trace[|steps|]
    ensures AllLooked(trace + more[1..], steps + taken, at + [Shifted(looks, |steps|)], rounds + [round])
  {
    hide AnEntryRuns, LooksAt;
    var trace', steps', at', rounds' := trace + more[1..], steps + taken, at + [Shifted(looks, |steps|)], rounds + [round];
    forall k, w | 0 <= k < |rounds'| && 0 <= w < |rounds'[k]| ensures LooksAt(trace', steps', at'[k][w], w, rounds'[k][w]) {
      if k < |rounds| {
        LookStays(trace, steps, more, taken, at[k][w], w, rounds[k][w]);
      } else {
        LookMoves(trace, steps, more, taken, looks[w], w, round[w]);
      }
    }
    forall k, w | 0 <= k < |rounds| && 0 <= w < |rounds[k]| ensures at[k][w] < |steps| {
      LookStays(trace, steps, more, taken, at[k][w], w, rounds[k][w]);
    }
  }

  lemma LookStays(trace: seq<State>, steps: seq<Step>, more: seq<State>, taken: seq<Step>, i: nat, w: nat, waited: bool)
    requires LooksAt(trace, steps, i, w, waited) && 0 < |more|
    ensures LooksAt(trace + more[1..], steps + taken, i, w, waited) && i < |steps|
  {
    hide AnEntryRuns;
  }

  lemma LookMoves(trace: seq<State>, steps: seq<Step>, more: seq<State>, taken: seq<Step>, i: nat, w: nat, waited: bool)
    requires LooksAt(more, taken, i, w, waited) && |trace| == |steps| + 1 && 0 < |more| && more[0] == trace[|steps|]
    ensures LooksAt(trace + more[1..], steps + taken, |steps| + i, w, waited)
  {
    hide AnEntryRuns;
    assert (trace + more[1..])[|steps| + i] == more[i];
  }

  /** A drain waits for a worker once in a round at most, so ten times at most. */
  function Waits(rounds: seq<seq<bool>>, w: nat): (n: nat)
    ensures n <= |rounds|
  {
    if rounds == [] then 0
    else Waits(rounds[..|rounds| - 1], w) + (if w < |rounds[|rounds| - 1]| && rounds[|rounds| - 1][w] then 1 else 0)
  }

  /** What one TLV of a signaling message does: a step of the machine, or nothing. */
  ghost predicate TlvStep(s: State, sg: SignalingPacket, v: Tlv, gclisa: Sockaddr, now: Time, made: Ref, s': State) {
    if v.RequestUnicast? then Took(s, Request(sg, v, gclisa, now, made), s')
    else if v.CancelUnicast? then Took(s, CancelRequest(sg, v, now), s')
    else s' == s
  }

  /** The lock that a TLV takes is free. */
  ghost predicate TlvFree(s: State, sg: SignalingPacket, v: Tlv) {
    && Shaped(s)
    && (v.RequestUnicast? ==> Free(s, Renews(s, sg, v)))
    && (v.CancelUnicast? ==> Free(s, CancelTarget(s, sg, v)))
  }

  lemma TlvFreeIs(s: State, sg: SignalingPacket, v: Tlv, w: nat)
    requires Shaped(s) && w == Machine.FindWorker(s, sg.header.sourcePortIdentity, 0)
    ensures w < |s.workers|
    ensures v.RequestUnicast? ==>
              (TlvFree(s, sg, v) <==>
               var t := UnicastMsgType(v.msgTypeAndReserved);
               Signaled(t) ==> Free(s, Find(s.workers[w].clients, sg.header.sourcePortIdentity, t)))
    ensures v.CancelUnicast? ==>
              (TlvFree(s, sg, v) <==>
               Free(s, Find(s.workers[w].clients, sg.header.sourcePortIdentity, UnicastMsgType(v.msgTypeAndFlags))))
    ensures !v.RequestUnicast? && !v.CancelUnicast? ==> TlvFree(s, sg, v)
  {
  }

  lemma BumpFreeIs(s: State, p: SyncPacket, w: nat)
    requires Shaped(s) && w == Machine.FindWorker(s, p.header.sourcePortIdentity, WorkerOffset(p.tlvs))
    ensures w < |s.workers|
    ensures Free(s, Bumps(s, p)) <==>
            (!Drained(s) && p.header.flagField == FLAG_PROFILE_SPECIFIC1 + FLAG_UNICAST ==>
               Free(s, Find(s.workers[w].clients, p.header.sourcePortIdentity, MESSAGE_DELAY_REQ)))
  {
  }

  lemma EntriesFreeIs(s: State, w: nat)
    requires Shaped(s) && w < |s.workers|
    ensures InventoryIsFree(s, w) <==>
            var m := s.workers[w].clients; forall st, c | st in m && c in m[st] :: Free(s, Some(m[st][c]))
  {
    hide Free;
    var m := s.workers[w].clients;
    forall st, c | st in m && c in m[st] ensures Find(m, c, st) == Some(m[st][c]) {
    }
  }

  lemma TlvStepIs(s: State, sg: SignalingPacket, v: Tlv, gclisa: Sockaddr, now: Time, made: Ref, s': State)
    requires Shaped(s) && made !in s.subs && MsgType(sg.header.sdoIdAndMsgType) == MESSAGE_SIGNALING && TlvFree(s, sg, v)
    requires v.RequestUnicast? ==> s' == RequestStep(s, sg, v, gclisa, now, made)
    requires v.CancelUnicast? ==> s' == CancelStep(s, sg, v, now)
    requires !v.RequestUnicast? && !v.CancelUnicast? ==> s' == s
    ensures TlvStep(s, sg, v, gclisa, now, made, s')
  {
    hide Shaped, Renews, CancelTarget, RequestStep, CancelStep, Free;
  }

  lemma OnlyCancelsWait(s: State, sg: SignalingPacket, v: Tlv)
    ensures !v.CancelUnicast? ==> !StopWaits(s, sg, v)
  {
  }

  lemma RequestIsStep(s: State, sg: SignalingPacket, v: Tlv, gclisa: Sockaddr, now: Time, made: Ref, taken: bool, s': State)
    requires Shaped(s) && made !in s.subs
    requires taken <==> v.RequestUnicast? && MsgType(sg.header.sdoIdAndMsgType) == MESSAGE_SIGNALING && TlvFree(s, sg, v)
    requires s' == if taken then RequestStep(s, sg, v, gclisa, now, made) else s
    ensures Performed(s, Request(sg, v, gclisa, now, made), taken, s')
  {
    hide Shaped, Renews, RequestStep, Free, CancelTarget;
  }

  lemma CancelIsStep(s: State, sg: SignalingPacket, v: Tlv, now: Time, taken: bool, s': State)
    requires Shaped(s) && (taken <==> v.CancelUnicast? && TlvFree(s, sg, v))
    requires s' == if taken then CancelStep(s, sg, v, now) else s
    ensures Performed(s, CancelRequest(sg, v, now), taken, s')
  {
    hide Shaped, Renews, CancelStep, Free, CancelTarget;
  }

  lemma DelayRequestIsStep(s: State, p: SyncPacket, rxTs: Time, eclisa: Sockaddr, now: Time, made: Ref, taken: bool, s': State)
    requires Shaped(s) && made !in s.subs && (taken <==> Free(s, Bumps(s, p)))
    requires s' == if taken then DelayRequestStep(s, p, rxTs, eclisa, now, made) else s
    ensures Performed(s, DelayRequest(p, rxTs, eclisa, now, made), taken, s')
  {
    hide Shaped, Bumps, DelayRequestStep, Free;
  }

  lemma FreeIs(s: State, sc: Ref)
    requires sc in s.subs
    ensures Free(s, Some(sc)) <==> !s.subs[sc].waiting
  {
  }

  lemma InventoryIsStep(s: State, w: nat)
    requires Shaped(s) && w < |s.workers|
    ensures Enabled(s, Inventory(w)) <==> InventoryIsFree(s, w)
    ensures InventoryIsFree(s, w) ==> Next(s, Inventory(w)) == InventoryStep(s, w)
  {
    hide Shaped, Free, Find, InventoryStep;
  }

  lemma RunStepKeys(s: State, step: Step)
    requires Shaped(s) && Enabled(s, step) && RunOf(step).Some?
    ensures Next(s, step).subs.Keys == s.subs.Keys
  {
    hide Shaped, RequestStep, DelayRequestStep, CancelStep, JobStep, Pruned, Find;
    RunTouches(s, RunOf(step).value);
  }

  lemma PerformedKeys(s: State, step: Step, taken: bool, s': State)
    requires Performed(s, step, taken, s') && RunOf(step).Some?
    ensures s'.subs.Keys == s.subs.Keys
  {
    hide Shaped, Enabled, Next;
    if taken {
      RunStepKeys(s, step);
    }
  }

  lemma JobKeepsKeys(s: State, w: nat, o: Outcome)
    requires Shaped(s) && w < |s.workers| && s.workers[w].queue != []
    ensures Machine.TakeJob(s, w, o).subs.Keys == s.subs.Keys
  {
    hide JobStep;
  }

  lemma SignalKeepsKeys(s: State, w: nat, ok: bool)
    requires Shaped(s) && w < |s.workers| && s.workers[w].signalingQueue != []
    ensures TakeSignaling(s, w, ok).subs.Keys == s.subs.Keys
  {
  }

  lemma InventoryKeepsKeys(s: State, w: nat)
    requires Shaped(s) && w < |s.workers|
    ensures InventoryStep(s, w).subs.Keys == s.subs.Keys
  {
  }

  /** An entry that an inventory leaves is one that was running. */
  lemma LeftIsRunning(s: State, w: nat)
    requires Shaped(s) && w < |s.workers|
    ensures w < |InventoryStep(s, w).workers|
    ensures HasEntries(InventoryStep(s, w).workers[w].clients) <==> AnEntryRuns(s, w)
  {
    var was := s.workers[w].clients;
    var m := Pruned(was, RunningOnes(s));
    assert InventoryStep(s, w).workers[w].clients == m;
    if HasEntries(m) {
      var st :| st in m && m[st] != map[];
      var c :| c in m[st];
      assert EntryRuns(s, w, c, st);
    }
    if AnEntryRuns(s, w) {
      var c, st :| EntryRuns(s, w, c, st);
      PrunedIsFlat(was, RunningOnes(s), c, st);
      assert c in m[st];
    }
  }

  predicate HasEntries(clients: Clients<Ref>) {
    exists st | st in clients :: clients[st] != map[]
  }

  /** No lock of an entry of worker w is held by a Stop that waits. */
  ghost predicate InventoryIsFree(s: State, w: nat) {
    w < |s.workers| && forall c, t | Find(s.workers[w].clients, c, t).Some? :: Free(s, Find(s.workers[w].clients, c, t))
  }

  /** What an inventory does to the counters, with these entries left. */
  ghost predicate InventoryCounts(before: Stats.State, after: Stats.State, clients: Clients<Ref>, id: int) {
    && after.report == before.report
    && (forall key: int ::
          Stats.Load(after.live.Get(Stats.Subscriptions), key) ==
          Stats.Load(CountedUp(before.live.Get(Stats.Subscriptions), key, LeftUnder(clients, key)), key))
    && after.live.Get(Stats.WorkerSubs) == CountedUp(before.live.Get(Stats.WorkerSubs), id, |Entries(clients)|)
    && (forall n: Stats.Counter | n != Stats.Subscriptions && n != Stats.WorkerSubs :: after.live.Get(n) == before.live.Get(n))
  }

  lemma DrainKeepsBase(s: State)
    requires Base(s) && Shaped(s)
    ensures Base(DrainStep(s)) && Shaped(DrainStep(s)) && Base(UndrainStep(s)) && Shaped(UndrainStep(s))
  {
    hide Base, Grows, DrainStep, UndrainStep;
    DrainKeeps(s);
    BaseIsShaped(DrainStep(s));
    BaseIsShaped(UndrainStep(s));
  }

  lemma ReloadKeepsBase(s: State, cfg: Config)
    requires Base(s)
    ensures Base(s.(cfg := cfg)) && Shaped(s.(cfg := cfg))
  {
    hide Base, Grows;
    ReloadKeeps(s, cfg);
    BaseIsShaped(s.(cfg := cfg));
  }

  lemma RunHolds(s: State, r: nat)
    requires Shaped(s) && r < |s.runs|
    ensures s.runs[r].sc in s.subs && s.subs[s.runs[r].sc].worker < |s.workers| && s.runs[r].ctx < |s.done|
  {
  }

  lemma RunningOnesAre(s: State, sc: Ref)
    requires sc in s.subs
    ensures sc in RunningOnes(s) <==> s.subs[sc].running
  {
  }

  lemma PrunedAgree<S>(cs: Clients<S>, a: set<S>, b: set<S>)
    requires forall st, c | st in cs && c in cs[st] :: cs[st][c] in a <==> cs[st][c] in b
    ensures Pruned(cs, a) == Pruned(cs, b)
  {
    forall st | st in cs ensures PrunedType(cs[st], a) == PrunedType(cs[st], b) {
      assert forall c | c in cs[st] :: cs[st][c] in a <==> cs[st][c] in b;
    }
  }

  /** Adding nothing to the queues of a worker changes nothing. */
  lemma NothingQueued(ws: seq<WorkerState>, w: nat)
    requires w < |ws|
    ensures ws[w := ws[w].(queue := ws[w].queue + [])] == ws
    ensures ws[w := ws[w].(signalingQueue := ws[w].signalingQueue + [])] == ws
  {
    assert ws[w].queue + [] == ws[w].queue && ws[w].signalingQueue + [] == ws[w].signalingQueue;
  }

  lemma BegunKeepsWorker(u: Sub)
    ensures Subscription.BeginRun(u).worker == Subscription.TickRun(u).worker == u.worker
  {
  }

  lemma BeginParts(s: State, r: nat)
    requires Base(s) && Shaped(s) && r < |s.runs| && s.runs[r].phase.IsSpawned?
    ensures var s', sc := BeginStep(s, r), s.runs[r].sc; var w := s.subs[sc].worker;
            && Base(s') && Shaped(s') && w < |s.workers|
            && s'.subs == s.subs[sc := Subscription.BeginRun(s.subs[sc])]
            && s'.workers == s.workers[w := s.workers[w].(queue := s.workers[w].queue + (if Periodic(s.subs[sc].typ) then [sc] else []))]
            && s'.cfg == s.cfg && s'.hash == s.hash && s'.period == s.period && s'.done == s.done
            && s'.runs == s.runs[r := s.runs[r].(phase := IsLooping)]
  {
    hide Base, Grows, Shaped, Subscription.BeginRun;
    BeginKeeps(s, r);
    BaseIsShaped(BeginStep(s, r));
    RunHolds(s, r);
    NothingQueued(s.workers, s.subs[s.runs[r].sc].worker);
    BegunKeepsWorker(s.subs[s.runs[r].sc]);
  }

  lemma TickParts(s: State, r: nat, now: Time)
    requires Base(s) && Shaped(s) && r < |s.runs|
    ensures var s', sc := TickStep(s, r, now), s.runs[r].sc; var w := s.subs[sc].worker;
            && Base(s') && Shaped(s') && w < |s.workers|
            && (Expired(s.subs[sc], now) ==> s' == LeaveStep(s, r, s.subs[sc]))
            && (!Expired(s.subs[sc], now) ==>
                  && s'.subs == s.subs[sc := Subscription.TickRun(s.subs[sc])]
                  && s'.workers == s.workers[w := s.workers[w].(queue := s.workers[w].queue
                    + (if Periodic(s.subs[sc].typ) then [sc] else []))]
                  && s'.cfg == s.cfg && s'.hash == s.hash && s'.period == s.period && s'.done == s.done
                  && s'.runs == s.runs[r := s.runs[r].(phase := IsLooping)])
  {
    hide Base, Grows, LeaveStep, Shaped, Subscription.TickRun;
    TickKeeps(s, r, now);
    BaseIsShaped(TickStep(s, r, now));
    RunHolds(s, r);
    NothingQueued(s.workers, s.subs[s.runs[r].sc].worker);
    BegunKeepsWorker(s.subs[s.runs[r].sc]);
  }

  lemma TokenKeepsWorker(u: Sub)
    ensures TakeToken(u).worker == u.worker
  {
  }

  lemma SelectKeepsBase(s: State, r: nat)
    requires Base(s) && r < |s.runs|
    ensures Base(SelectTickStep(s, r)) && Shaped(SelectTickStep(s, r))
  {
    hide Base, Grows;
    SetPhaseKeeps(s, r, IsTicking);
    BaseIsShaped(SelectTickStep(s, r));
  }

  lemma LeaveKeepsBase(s: State, r: nat)
    requires Base(s) && r < |s.runs| && s.runs[r].sc in s.subs
    ensures var u := s.subs[s.runs[r].sc];
            && Base(LeaveStep(s, r, u)) && Shaped(LeaveStep(s, r, u))
            && Base(LeaveStep(s, r, TakeToken(u))) && Shaped(LeaveStep(s, r, TakeToken(u)))
  {
    hide Base, Grows, LeaveStep, TakeToken;
    var u := s.subs[s.runs[r].sc];
    LeaveKeeps(s, r, u);
    LeaveKeeps(s, r, TakeToken(u));
    BaseIsShaped(LeaveStep(s, r, u));
    BaseIsShaped(LeaveStep(s, r, TakeToken(u)));
  }

  lemma ClearKeepsBase(s: State, r: nat)
    requires Base(s) && Shaped(s) && r < |s.runs|
    ensures Base(ClearStep(s, r)) && Shaped(ClearStep(s, r))
  {
    hide Base, Grows, ClearStep;
    ClearKeeps(s, r);
    BaseIsShaped(ClearStep(s, r));
  }

  lemma FinishParts(s: State, r: nat)
    requires Base(s) && Shaped(s) && r < |s.runs|
    ensures var s', sc := FinishStep(s, r), s.runs[r].sc; var u, w := s.subs[sc], s.subs[sc].worker;
            && Base(s') && Shaped(s') && w < |s.workers|
            && s'.subs == s.subs[sc := if u.typ == MESSAGE_DELAY_REQ then u else UpdateSignalingCancel(u)]
            && s'.workers == s.workers[w := s.workers[w].(
                               signalingQueue := s.workers[w].signalingQueue + (if u.typ == MESSAGE_DELAY_REQ then [] else [sc]))]
            && s'.cfg == s.cfg && s'.hash == s.hash && s'.period == s.period && s'.done == s.done
            && s'.runs == s.runs[r := s.runs[r].(phase := IsDone)]
  {
    hide Base, Grows, Shaped, UpdateSignalingCancel;
    FinishKeeps(s, r);
    BaseIsShaped(FinishStep(s, r));
    RunHolds(s, r);
    CancelKeepsNames(s.subs[s.runs[r].sc]);
    NothingQueued(s.workers, s.subs[s.runs[r].sc].worker);
    assert s.subs[s.runs[r].sc := s.subs[s.runs[r].sc]] == s.subs;
  }

  lemma JobHolds(s: State, w: nat, o: Outcome)
    requires Base(s) && Shaped(s) && w < |s.workers| && s.workers[w].queue != []
    ensures var s', ws := Machine.TakeJob(s, w, o), s.workers[w]; var sc := ws.queue[0];
            && sc in s.subs && sc in s.sent && PacketsFit(s.subs[sc]) && Base(s') && Shaped(s')
            && (var r := JobStep(s.cfg, ws.olderKernel, s.subs[sc], o);
                && s'.subs == s.subs[sc := r.sub] && s'.sent == s.sent[sc := s.sent[sc] + r.sent]
                && s'.workers == s.workers[w := ws.(queue := ws.queue[1..], olderKernel := r.olderKernel)])
            && s'.cfg == s.cfg && s'.hash == s.hash && s'.period == s.period && s'.done == s.done && s'.runs == s.runs
  {
    hide Base, Grows, JobStep;
    TakeJobKeeps(s, w, o);
    BaseIsShaped(Machine.TakeJob(s, w, o));
    SubFits(s, s.workers[w].queue[0]);
  }

  lemma SignalHolds(s: State, w: nat, ok: bool)
    requires Base(s) && Shaped(s) && w < |s.workers| && s.workers[w].signalingQueue != []
    ensures var s', sc := TakeSignaling(s, w, ok), s.workers[w].signalingQueue[0];
            sc in s.subs && PacketsFit(s.subs[sc]) && Base(s') && Shaped(s')
  {
    hide Base, Grows;
    TakeSignalingKeeps(s, w, ok);
    BaseIsShaped(TakeSignaling(s, w, ok));
    SubFits(s, s.workers[w].signalingQueue[0]);
  }

  lemma InventoryKeepsBase(s: State, w: nat)
    requires Base(s) && Shaped(s) && w < |s.workers|
    ensures Base(InventoryStep(s, w)) && Shaped(InventoryStep(s, w))
  {
    hide Base, Grows, InventoryStep;
    InventoryKeeps(s, w);
    BaseIsShaped(InventoryStep(s, w));
  }

  lemma ContextsHold(s: State)
    requires Shaped(s)
    ensures 0 < |s.done|
  {
  }

  lemma KnownSub(s: State, sc: Ref)
    requires Shaped(s) && sc in s.subs
    ensures s.subs[sc].worker < |s.workers|
  {
  }

  lemma BumpedCfg(s: State, p: SyncPacket, w: nat, eclisa: Sockaddr, now: Time, made: Ref)
    requires Shaped(s) && w < |s.workers|
    ensures Bumped(s, p, w, eclisa, now, made).0.cfg == s.cfg
  {
  }

  lemma DelayRequestKeys(s: State, p: SyncPacket, rxTs: Time, eclisa: Sockaddr, now: Time, made: Ref)
    requires Shaped(s)
    ensures DelayRequestStep(s, p, rxTs, eclisa, now, made).subs.Keys <= s.subs.Keys + {made}
  {
    hide Register, UpdateAnnounceDelayReq, UpdateSyncDelayReq, UpdateDelayResp, NewSub;
  }

  lemma DelayRequestKeepsBase(s: State, p: SyncPacket, rxTs: Time, eclisa: Sockaddr, now: Time, made: Ref)
    requires Base(s) && Shaped(s) && made !in s.subs
    ensures var s' := DelayRequestStep(s, p, rxTs, eclisa, now, made); Base(s') && Shaped(s')
  {
    hide Base, Grows, DelayRequestStep;
    DelayRequestKeeps(s, p, rxTs, eclisa, now, made);
    BaseIsShaped(DelayRequestStep(s, p, rxTs, eclisa, now, made));
  }

  /** Whether the Stop of a cancel has to wait: a token is in the slot already. */
  ghost predicate StopWaits(s: State, sg: SignalingPacket, v: Tlv) {
    Shaped(s) && v.CancelUnicast? && CancelTarget(s, sg, v).Some? &&
    (var sc := CancelTarget(s, sg, v).value; s.subs[sc].running && s.subs[sc].stop)
  }

  lemma CancelIs(s: State, sg: SignalingPacket, v: Tlv, now: Time)
    requires Base(s) && Shaped(s) && v.CancelUnicast? && Free(s, CancelTarget(s, sg, v))
    ensures var s' := CancelStep(s, sg, v, now); Base(s') && Shaped(s')
    ensures var found := CancelTarget(s, sg, v);
            && found == Find(s.workers[Machine.FindWorker(s, sg.header.sourcePortIdentity, 0)].clients, sg.header.sourcePortIdentity,
                             UnicastMsgType(v.msgTypeAndFlags))
            && (found.None? ==> !StopWaits(s, sg, v))
            && (found.Some? ==>
                  var sc := found.value;
                  sc in s.subs && (StopWaits(s, sg, v) <==> StopSub(s.subs[sc], now).waiting))
  {
    hide Base, Grows, CancelStep;
    CancelKeeps(s, sg, v, now);
    BaseIsShaped(CancelStep(s, sg, v, now));
  }

  /** What a request makes of a state in which its subscription is enlisted. */
  ghost function Answered(s: State, sc: Ref, sg: SignalingPacket, v: Tlv): State
    requires v.RequestUnicast? && 0 < |s.done| && sc in s.subs && s.subs[sc].worker < |s.workers|
  {
    if !WithinLimits(s, v) then Grant(s, sc, sg, v, 0)
    else
      var s' := Grant(s, sc, sg, v, v.durationField);
      if s'.subs[sc].running then s' else Spawn(s', sc)
  }

  lemma RequestStepIs(s: State, sg: SignalingPacket, v: Tlv, gclisa: Sockaddr, now: Time, made: Ref)
    requires Base(s) && Shaped(s) && v.RequestUnicast? && made !in s.subs && MsgType(sg.header.sdoIdAndMsgType) == MESSAGE_SIGNALING
    requires Free(s, Renews(s, sg, v))
    ensures var s' := RequestStep(s, sg, v, gclisa, now, made); Base(s') && Shaped(s')
    ensures Signaled(UnicastMsgType(v.msgTypeAndReserved)) ==>
              var (s1, sc) := Enlist(s, sg, v, gclisa, now, made);
              && 0 < |s1.done| && sc in s1.subs && s1.subs[sc].worker < |s1.workers|
              && RequestStep(s, sg, v, gclisa, now, made) == Answered(s1, sc, sg, v)
    ensures !Signaled(UnicastMsgType(v.msgTypeAndReserved)) ==> RequestStep(s, sg, v, gclisa, now, made) == s
  {
    hide Base, Grows, Enlist, Grant, Spawn;
    RequestKeepsBase(s, sg, v, gclisa, now, made);
    if Signaled(UnicastMsgType(v.msgTypeAndReserved)) {
      EnlistKeepsBase(s, sg, v, gclisa, now, made);
    }
  }

  lemma NewSubNames(cfg: Config, client: PortIdentity, worker: nat, e: Sockaddr, g: Sockaddr, typ: byte, i: Time, exp: Time, now: Time)
    ensures var u := NewSub(cfg, client, worker, e, g, typ, i, exp, now); u.client == client && u.worker == worker && u.typ == typ
  {
  }

  lemma EnrollParts(s: State, sc: Ref, u: Sub)
    requires u.worker < |s.workers|
    ensures var s' := Enroll(s, sc, u);
            && s'.subs == s.subs[sc := u]
            && s'.workers == s.workers[u.worker := s.workers[u.worker].(
                               clients := Register(s.workers[u.worker].clients, u.client, u.typ, sc))]
            && s'.cfg == s.cfg && s'.hash == s.hash && s'.period == s.period && s'.done == s.done && s'.runs == s.runs
  {
  }

  lemma RequestKeepsBase(s: State, sg: SignalingPacket, v: Tlv, gclisa: Sockaddr, now: Time, made: Ref)
    requires Base(s) && Shaped(s) && v.RequestUnicast? && made !in s.subs && MsgType(sg.header.sdoIdAndMsgType) == MESSAGE_SIGNALING
    requires Free(s, Renews(s, sg, v))
    ensures var s' := RequestStep(s, sg, v, gclisa, now, made); Base(s') && Shaped(s')
  {
    hide Base, Grows, RequestStep;
    RequestKeeps(s, sg, v, gclisa, now, made);
    BaseIsShaped(RequestStep(s, sg, v, gclisa, now, made));
  }

  lemma EnlistKeepsBase(s: State, sg: SignalingPacket, v: Tlv, gclisa: Sockaddr, now: Time, made: Ref)
    requires Base(s) && Shaped(s) && v.RequestUnicast? && made !in s.subs && Signaled(UnicastMsgType(v.msgTypeAndReserved))
    ensures var r := Enlist(s, sg, v, gclisa, now, made);
            && r.1 in r.0.subs && r.0.subs[r.1].worker < |r.0.workers| && 0 < |r.0.done|
            && r.0.cfg == s.cfg && r.0.done == s.done && r.0.period == s.period
  {
    hide Base, Grows, Enlist;
    EnlistKeeps(s, sg, v, gclisa, now, made);
  }

  lemma GrantParts(s: State, sc: Ref, sg: SignalingPacket, v: Tlv, duration: u32)
    requires v.RequestUnicast? && 0 < |s.done| && sc in s.subs && s.subs[sc].worker < |s.workers|
    ensures var s', w := Grant(s, sc, sg, v, duration), s.subs[sc].worker;
            && s'.subs == s.subs[sc := UpdateSignalingGrant(s.subs[sc], sg, v.msgTypeAndReserved, v.logInterMessagePeriod, duration)]
            && s'.subs[sc].worker == w
            && s'.workers == s.workers[w := s.workers[w].(signalingQueue := s.workers[w].signalingQueue + [sc])]
            && s'.cfg == s.cfg && s'.hash == s.hash && s'.period == s.period && s'.done == s.done && s'.runs == s.runs
  {
  }
}
