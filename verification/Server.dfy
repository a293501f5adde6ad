/** The server object and its handlers, proved against the steps of the machine. */
module Servers {
  import opened Wire
  import opened Types
  import opened Tlvs
  import opened Packets
  import opened Subscription
  import opened SubscriptionClients
  import opened Jobs
  import opened Machine
  import opened Invariants
  import opened Worker
  import opened Locks
  import opened ServerSteps
  import Stats

  class Server {
    const config: ServerConfig
    const sw: seq<SendWorker>
    const hash: (PortIdentity, u16) -> nat
    const period: i8 -> Time
    var done: seq<bool>
    var runs: seq<Run>
    /** The state of the machine that this object is in. */
    ghost var model: State

    ghost function JobQueues(): set<JobQueue> {
      set w | w in sw :: w.queue
    }

    ghost function SignalQueues(): set<JobQueue> {
      set w | w in sw :: w.signalingQueue
    }

    ghost function OtherSignalQueues(w: nat): set<JobQueue> {
      set i | 0 <= i < |sw| && i != w :: sw[i].signalingQueue
    }

    ghost function OtherJobQueues(w: nat): set<JobQueue> {
      set i | 0 <= i < |sw| && i != w :: sw[i].queue
    }

    ghost function OtherWorkers(w: nat): set<SendWorker> {
      set i | 0 <= i < |sw| && i != w :: sw[i]
    }

    /** Each worker has its own two queues. */
    ghost predicate Separate() {
      && 0 < |sw|
      && (forall i | 0 <= i < |sw| :: sw[i].Valid() && sw[i].config == config)
      && (forall i, j | 0 <= i < |sw| && 0 <= j < |sw| && i != j ::
            sw[i] != sw[j] && sw[i].queue != sw[j].queue && sw[i].signalingQueue != sw[j].signalingQueue)
      && (forall i, j | 0 <= i < |sw| && 0 <= j < |sw| :: sw[i].queue != sw[j].signalingQueue)
    }

    /** A subscription is as the machine has it, and holds the queues of its worker. */
    ghost predicate SubMatches(sc: SubscriptionClient, u: Sub)
      reads sc
    {
      sc.View() == u && Belongs(sc)
    }

    ghost predicate Belongs(sc: SubscriptionClient) {
      && sc.worker < |sw| && sc.queue == sw[sc.worker].queue && sc.signalingQueue == sw[sc.worker].signalingQueue
      && sc.serverConfig == config
    }

    ghost predicate SubsMatch(subs: map<Ref, Sub>)
      reads subs.Keys
    {
      forall sc | sc in subs :: SubMatches(sc, subs[sc])
    }

    ghost predicate ClientsMatch(ws: seq<WorkerState>)
      reads sw
    {
      |ws| == |sw| && forall i | 0 <= i < |sw| :: ws[i].clients == sw[i].clients && ws[i].olderKernel == sw[i].olderKernel
    }

    ghost predicate JobsMatch(ws: seq<WorkerState>)
      reads JobQueues()
    {
      |ws| == |sw| && forall i | 0 <= i < |sw| :: ws[i].queue == sw[i].queue.items
    }

    ghost predicate SignalsMatch(ws: seq<WorkerState>)
      reads SignalQueues()
    {
      |ws| == |sw| && forall i | 0 <= i < |sw| :: ws[i].signalingQueue == sw[i].signalingQueue.items
    }

    ghost predicate WorkersMatch(ws: seq<WorkerState>)
      reads sw, JobQueues(), SignalQueues()
    {
      ClientsMatch(ws) && JobsMatch(ws) && SignalsMatch(ws)
    }

    ghost predicate FieldsMatch(s: State)
      reads `done, `runs, config
    {
      config.current == s.cfg && hash == s.hash && period == s.period && done == s.done && runs == s.runs
    }

    ghost predicate Matches()
      reads this, config, sw, JobQueues(), SignalQueues(), model.subs.Keys
    {
      Separate() && FieldsMatch(model) && WorkersMatch(model.workers) && SubsMatch(model.subs)
    }

    ghost predicate Valid()
      reads this, config, sw, JobQueues(), SignalQueues(), model.subs.Keys
    {
      Matches() && Base(model) && Shaped(model)
    }

    // ------------------------------------------ one thing at a time

    /** Taking one subscription out of the picture, and putting it back as u. */
    lemma SplitSub(subs: map<Ref, Sub>, sc: SubscriptionClient)
      requires SubsMatch(subs) && sc in subs
      ensures SubMatches(sc, subs[sc]) && SubsMatch(subs - {sc}) && subs[sc].worker == sc.worker < |sw|
      ensures subs[sc].typ == sc.subscriptionType && sc.queue in JobQueues() && sc.signalingQueue in SignalQueues()
    {
    }

    lemma JoinSub(subs: map<Ref, Sub>, sc: SubscriptionClient, u: Sub)
      requires SubsMatch(subs - {sc}) && SubMatches(sc, u)
      ensures SubsMatch(subs[sc := u])
    {
      var rest, all := subs - {sc}, subs[sc := u];
      assert forall x | x in all && x != sc :: x in rest && rest[x] == all[x];
    }

    /** All signaling queues but one; what it then takes for that one to match too. */
    ghost predicate SignalsMatchBut(ws: seq<WorkerState>, w: nat)
      reads OtherSignalQueues(w)
    {
      && |ws| == |sw|
      && forall i | 0 <= i < |sw| && i != w :: ws[i].signalingQueue == sw[i].signalingQueue.items
    }

    lemma SplitSignals(ws: seq<WorkerState>, w: nat)
      requires Separate() && WorkersMatch(ws) && w < |sw|
      ensures |ws| == |sw| && SignalsMatchBut(ws, w) && ws[w].signalingQueue == sw[w].signalingQueue.items
      ensures ClientsMatch(ws) && JobsMatch(ws) && sw[w].signalingQueue !in JobQueues() + OtherSignalQueues(w)
      ensures sw[w].Valid() && sw[w].config == config
    {
    }

    lemma JoinSignals(ws: seq<WorkerState>, w: nat, x: WorkerState)
      requires w < |sw| && SignalsMatchBut(ws, w) && ClientsMatch(ws) && JobsMatch(ws)
      requires x == ws[w].(signalingQueue := sw[w].signalingQueue.items)
      ensures WorkersMatch(ws[w := x])
    {
    }

    ghost predicate JobsMatchBut(ws: seq<WorkerState>, w: nat)
      reads OtherJobQueues(w)
    {
      && |ws| == |sw|
      && forall i | 0 <= i < |sw| && i != w :: ws[i].queue == sw[i].queue.items
    }

    lemma SplitJobs(ws: seq<WorkerState>, w: nat)
      requires Separate() && WorkersMatch(ws) && w < |sw|
      ensures |ws| == |sw| && JobsMatchBut(ws, w) && ws[w].queue == sw[w].queue.items
      ensures ClientsMatch(ws) && SignalsMatch(ws) && sw[w].queue !in SignalQueues() + OtherJobQueues(w)
      ensures sw[w].Valid() && sw[w].config == config
    {
    }

    lemma JoinJobs(ws: seq<WorkerState>, w: nat, x: WorkerState)
      requires w < |sw| && JobsMatchBut(ws, w) && ClientsMatch(ws) && SignalsMatch(ws)
      requires x == ws[w].(queue := sw[w].queue.items)
      ensures WorkersMatch(ws[w := x])
    {
    }

    ghost predicate ClientsMatchBut(ws: seq<WorkerState>, w: nat)
      reads OtherWorkers(w)
    {
      && |ws| == |sw|
      && forall i | 0 <= i < |sw| && i != w :: ws[i].clients == sw[i].clients && ws[i].olderKernel == sw[i].olderKernel
    }

    lemma SplitClients(ws: seq<WorkerState>, w: nat)
      requires Separate() && WorkersMatch(ws) && w < |sw|
      ensures |ws| == |sw| && ClientsMatchBut(ws, w) && ws[w].clients == sw[w].clients && ws[w].olderKernel == sw[w].olderKernel
      ensures JobsMatch(ws) && SignalsMatch(ws) && sw[w] !in OtherWorkers(w)
      ensures sw[w].Valid() && sw[w].config == config
    {
    }

    lemma JoinClients(ws: seq<WorkerState>, w: nat, x: WorkerState)
      requires w < |sw| && ClientsMatchBut(ws, w) && JobsMatch(ws) && SignalsMatch(ws)
      requires x == ws[w].(clients := sw[w].clients, olderKernel := sw[w].olderKernel)
      ensures WorkersMatch(ws[w := x])
    {
    }

    lemma JoinJobsAndClients(ws: seq<WorkerState>, w: nat, x: WorkerState)
      requires w < |sw| && JobsMatchBut(ws, w) && ClientsMatchBut(ws, w) && SignalsMatch(ws)
      requires x == WorkerState(sw[w].clients, sw[w].queue.items, ws[w].signalingQueue, sw[w].olderKernel)
      ensures WorkersMatch(ws[w := x])
    {
    }

    /** Start, up to the point where the handlers run: n workers, and a context that is not cancelled. */
    constructor (c: ServerConfig, st: Stats.JsonStats, n: nat, h: (PortIdentity, u16) -> nat, p: i8 -> Time)
      requires 0 < n
      ensures Valid() && Init(model) && |sw| == n && config == c
    {
      config, hash, period := c, h, p;
      done, runs := [false], [];
      var ws: seq<SendWorker> := [];
      for i := 0 to n
        invariant |ws| == i
        invariant forall k | 0 <= k < i :: allocated(ws[k]) && ws[k].Valid() && ws[k].config == c && ws[k].id == k
        invariant forall k | 0 <= k < i ::
                    ws[k].clients == map[] && ws[k].queue.items == [] && ws[k].signalingQueue.items == [] && !ws[k].olderKernel
        invariant forall k, l | 0 <= k < i && 0 <= l < i && k != l ::
                    ws[k] != ws[l] && ws[k].queue != ws[l].queue && ws[k].signalingQueue != ws[l].signalingQueue
        invariant forall k, l | 0 <= k < i && 0 <= l < i :: ws[k].queue != ws[l].signalingQueue
      {
        var w := new SendWorker(i, c, st);
        ws := ws + [w];
      }
      sw := ws;
      model := State(c.current, h, p, [false], seq(n, i => WorkerState(map[], [], [], false)), map[], [], map[], map[], []);
      new;
      InitIsBase(model);
      BaseIsShaped(model);
    }

    function FindWorker(client: PortIdentity, offset: u16): (w: nat)
      requires 0 < |sw|
      ensures w < |sw|
    {
      hash(client, offset) % |sw|
    }

    /** The name of an object that a request would use if it needed one. */
    ghost method Unneeded() returns (made: SubscriptionClient)
      requires Matches()
      ensures Matches() && fresh(made) && made !in model.subs
    {
      made := new SubscriptionClient.Unused(sw[0].queue, config);
    }

    /** FindSubscription with a worker: what it finds is known, and found as the machine finds it. */
    method FindAt(w: nat, client: PortIdentity, st: byte) returns (found: Option<SubscriptionClient>)
      requires Valid() && w < |sw|
      ensures Valid() && w < |model.workers| && found == Find(model.workers[w].clients, client, st)
      ensures found.Some? ==> found.value in model.subs && SubMatches(found.value, model.subs[found.value])
      ensures found.Some? ==>
                found.value.running == model.subs[found.value].running && found.value.waiting == model.subs[found.value].waiting
    {
      hide Base, Shaped;
      found := sw[w].FindSubscription(client, st);
      if found.Some? {
        FoundIsKnown(w, client, st);
      }
    }

    // -------------------------------------------------- pieces of the handlers

    /** sendSignalingGrant, put on record. */
    method SendGrant(sc: SubscriptionClient, sg: SignalingPacket, v: Tlv, duration: u32)
      requires Matches() && sc in model.subs && model.subs[sc].worker < |model.workers| && 0 < |model.done| && v.RequestUnicast?
      modifies `model, sc, sc.signalingQueue
      ensures Matches() && model == Grant(old(model), sc, sg, v, duration)
      ensures model.subs.Keys == old(model).subs.Keys && model.done == old(model).done
    {
      hide Grant, UpdateSignalingGrant, Separate, SubsMatch, WorkersMatch, SignalsMatchBut, ClientsMatch, JobsMatch,
        SubscriptionClient.View;
      ghost var s := model;
      SplitSub(s.subs, sc);
      SplitSignals(s.workers, sc.worker);
      GrantParts(s, sc, sg, v, duration);
      sc.SendSignalingGrant(sg, v.msgTypeAndReserved, v.logInterMessagePeriod, duration);
      model := Grant(s, sc, sg, v, duration);
      JoinSub(s.subs, sc, sc.View());
      JoinSignals(s.workers, sc.worker, model.workers[sc.worker]);
    }

    /** NewSubscriptionClient and RegisterSubscription with a worker. */
    method NewSubscription(client: PortIdentity, w: nat, eclisa: Sockaddr, gclisa: Sockaddr, st: byte, interval: Time, expire: Time,
                           now: Time)
      returns (sc: SubscriptionClient)
      requires Matches() && w < |sw| == |model.workers|
      modifies `model, sw[w]
      ensures fresh(sc) && Matches() && sc !in old(model).subs && model.subs.Keys == old(model).subs.Keys + {sc}
      ensures model == Enroll(old(model), sc, NewSub(config.current, client, w, eclisa, gclisa, st, interval, expire, now))
    {
      hide NewSub, Register, Separate, SubsMatch, WorkersMatch, ClientsMatchBut, JobsMatch, SignalsMatch, Enroll, SubscriptionClient.View;
      ghost var s := model;
      SplitClients(s.workers, w);
      var worker := sw[w];
      sc := new SubscriptionClient(worker.queue, worker.signalingQueue, eclisa, gclisa, st, config, interval, expire, now, client, w);
      ghost var u := sc.View();
      NewSubNames(config.current, client, w, eclisa, gclisa, st, interval, expire, now);
      ViewNames(sc);
      worker.RegisterSubscription(client, st, sc);
      model := Enroll(s, sc, u);
      EnrollParts(s, sc, u);
      WithoutNew(s.subs, sc);
      JoinSub(s.subs, sc, u);
      JoinClients(s.workers, w, model.workers[w]);
    }

    lemma WithoutNew(subs: map<Ref, Sub>, sc: SubscriptionClient)
      requires sc !in subs
      ensures subs - {sc} == subs
    {
    }

    lemma OnlyQueues()
      ensures forall o: object | o in JobQueues() + SignalQueues() :: o is JobQueue
    {
    }

    lemma OthersAreQueues(w: nat)
      ensures forall o: object | o in OtherSignalQueues(w) :: o is JobQueue
    {
    }

    lemma OnlySubs(subs: map<Ref, Sub>)
      ensures forall o: object | o in subs.Keys :: o is SubscriptionClient
    {
    }

    lemma ViewNames(sc: SubscriptionClient)
      ensures sc.View().worker == sc.worker && sc.View().typ == sc.subscriptionType && sc.View().running == sc.running
      ensures sc.View().stop == sc.stop && sc.View().waiting == sc.waiting
    {
    }

    /** A renewal takes over expiry, interval and address. */
    method Renew(sc: SubscriptionClient, expire: Time, interval: Time, gclisa: Sockaddr)
      requires Matches() && sc in model.subs
      modifies `model, sc
      ensures Matches()
      ensures model == SetSub(old(model), sc, old(model).subs[sc].(expire := expire, interval := interval, gclisa := gclisa))
    {
      hide Separate, SubsMatch, ClientsMatch, JobsMatch, SignalsMatch, SubscriptionClient.View;
      ghost var s := model;
      SplitSub(s.subs, sc);
      OnlyQueues();
      sc.SetExpire(expire);
      sc.SetInterval(interval);
      sc.SetGclisa(gclisa);
      model := SetSub(s, sc, sc.View());
      JoinSub(s.subs, sc, sc.View());
    }

    /** `go sc.Start(s.ctx)`. */
    method SpawnRun(sc: SubscriptionClient)
      requires Matches() && 0 < |done|
      modifies `model, `runs
      ensures Matches() && model == Spawn(old(model), sc)
    {
      hide Separate, SubsMatch, ClientsMatch, JobsMatch, SignalsMatch;
      OnlyQueues();
      runs := runs + [Run(sc, |done| - 1, IsSpawned)];
      model := Spawn(model, sc);
    }

    /** sc.Once(). */
    method QueueOne(sc: SubscriptionClient)
      requires Matches() && sc in model.subs && model.subs[sc].worker < |model.workers|
      modifies `model, sc.queue
      ensures Matches() && model == QueueJob(old(model), sc)
    {
      hide Separate, SubsMatch, WorkersMatch, JobsMatchBut, ClientsMatch, SignalsMatch;
      ghost var s := model;
      SplitSub(s.subs, sc);
      SplitJobs(s.workers, sc.worker);
      sc.Once();
      model := QueueJob(s, sc);
      JoinJobs(s.workers, sc.worker, model.workers[sc.worker]);
    }

    /** sc.Stop(), up to the point where it is done or waits for room in the slot. */
    method StopSubscription(sc: SubscriptionClient, now: Time)
      requires Matches() && sc in model.subs
      modifies `model, sc
      ensures Matches() && model == SetSub(old(model), sc, StopSub(old(model).subs[sc], now))
    {
      hide Separate, SubsMatch, ClientsMatch, JobsMatch, SignalsMatch, SubscriptionClient.View, StopSub;
      ghost var s := model;
      SplitSub(s.subs, sc);
      ViewNames(sc);
      OnlyQueues();
      sc.Stop(now);
      model := SetSub(s, sc, sc.View());
      JoinSub(s.subs, sc, sc.View());
    }

    // ------------------------------------------------- general messages

    /** The first half of a request: find the subscription or make one. */
    method EnlistSubscription(sg: SignalingPacket, v: Tlv, gclisa: Sockaddr, now: Time)
      returns (sc: SubscriptionClient, ghost made: SubscriptionClient)
      requires Valid() && v.RequestUnicast?
      modifies `model, sw, model.subs.Keys
      ensures Matches() && fresh(made) && made !in old(model).subs && sc in model.subs
      ensures model.subs.Keys <= old(model).subs.Keys + {made}
      ensures (model, sc) == Enlist(old(model), sg, v, gclisa, now, made)
    {
      hide Enroll, NewSub, Base, Shaped, Separate, SubsMatch, WorkersMatch;
      var id, signalingType := sg.header.sourcePortIdentity, UnicastMsgType(v.msgTypeAndReserved);
      var expire, interval := now + v.durationField * NANOS, period(v.logInterMessagePeriod);
      NonEmpty();
      var w := FindWorker(id, 0);
      var found := FindAt(w, id, signalingType);
      if found.None? || !found.value.running {
        var eclisa := Sockaddr(gclisa.ip, PORT_EVENT);
        sc := NewSubscription(id, w, eclisa, gclisa, signalingType, interval, expire, now);
        made := sc;
      } else {
        made := Unneeded();
        sc := found.value;
        Renew(sc, expire, interval, gclisa);
      }
    }

    lemma NonEmpty()
      requires Matches()
      ensures 0 < |sw| == |model.workers| && model.hash == hash
    {
    }

    lemma SubHolds(sc: SubscriptionClient)
      requires Matches() && sc in model.subs
      ensures SubMatches(sc, model.subs[sc])
      ensures sc.running == model.subs[sc].running && sc.waiting == model.subs[sc].waiting && sc.stop == model.subs[sc].stop
      ensures sc.signalingQueue in SignalQueues() && sc.queue in JobQueues()
    {
    }

    lemma FoundIsKnown(w: nat, c: PortIdentity, t: byte)
      requires Valid() && w < |sw| && Find(sw[w].clients, c, t).Some?
      ensures var sc := Find(sw[w].clients, c, t).value;
              && sc in model.subs && SubMatches(sc, model.subs[sc]) && sc.running == model.subs[sc].running
              && sc.waiting == model.subs[sc].waiting
    {
      EntryFound(model, w, c, t);
    }

    /** The second half of a request: the grant, and a run if it is due. */
    method AnswerRequest(sc: SubscriptionClient, sg: SignalingPacket, v: Tlv)
      requires Matches() && sc in model.subs && model.subs[sc].worker < |model.workers| && 0 < |model.done| && v.RequestUnicast?
      modifies `model, `runs, sc, sc.signalingQueue
      ensures Matches() && model == Answered(old(model), sc, sg, v) && model.subs.Keys == old(model).subs.Keys
    {
      hide Grant, Separate, SubsMatch, WorkersMatch;
      var interval, duration := period(v.logInterMessagePeriod), v.durationField * NANOS;
      if interval < config.current.minSubInterval || duration > config.current.maxSubDuration || done[|done| - 1] {
        SendGrant(sc, sg, v, 0);
      } else {
        SendGrant(sc, sg, v, v.durationField);
        SubHolds(sc);
        if !sc.running {
          SpawnRun(sc);
        }
      }
    }

    /** The REQUEST_UNICAST_TRANSMISSION case of handleGeneralMessages. */
    method HandleRequest(sg: SignalingPacket, v: Tlv, gclisa: Sockaddr, now: Time) returns (ghost made: SubscriptionClient)
      requires Valid() && v.RequestUnicast? && MsgType(sg.header.sdoIdAndMsgType) == MESSAGE_SIGNALING
      requires Free(model, Renews(model, sg, v))
      modifies this, sw, SignalQueues(), model.subs.Keys
      ensures Valid() && fresh(made) && model == RequestStep(old(model), sg, v, gclisa, now, made)
      ensures made !in old(model).subs && model.subs.Keys <= old(model).subs.Keys + {made}
    {
      hide Base, Shaped, Enlist, Answered, RequestStep, Separate, SubsMatch, WorkersMatch;
      ghost var s := model;
      var signalingType := UnicastMsgType(v.msgTypeAndReserved);
      if signalingType == MESSAGE_ANNOUNCE || signalingType == MESSAGE_SYNC || signalingType == MESSAGE_DELAY_RESP {
        var sc;
        sc, made := EnlistSubscription(sg, v, gclisa, now);
        EnlistKeepsBase(s, sg, v, gclisa, now, made);
        SubHolds(sc);
        AnswerRequest(sc, sg, v);
      } else {
        made := Unneeded();
      }
      RequestStepIs(s, sg, v, gclisa, now, made);
    }

    /**
     * The CANCEL_UNICAST_TRANSMISSION case. `waits` says that its Stop is blocked on the full slot, with the lock of the
     * subscription, and so is the handler that called it.
     */
    method HandleCancel(sg: SignalingPacket, v: Tlv, now: Time) returns (waits: bool)
      requires Valid() && v.CancelUnicast? && Free(model, CancelTarget(model, sg, v))
      modifies `model, model.subs.Keys
      ensures Valid() && model == CancelStep(old(model), sg, v, now) && model.subs.Keys == old(model).subs.Keys
      ensures waits <==> StopWaits(old(model), sg, v)
    {
      hide Base, Shaped, Separate, SubsMatch, WorkersMatch, StopWaits;
      ghost var s := model;
      NonEmpty();
      var w := FindWorker(sg.header.sourcePortIdentity, 0);
      CancelIs(s, sg, v, now);
      var found := FindAt(w, sg.header.sourcePortIdentity, UnicastMsgType(v.msgTypeAndFlags));
      waits := false;
      if found.Some? {
        StopSubscription(found.value, now);
        SubHolds(found.value);
        waits := found.value.waiting;
      }
    }

    // --------------------------------------------------- event messages

    /** The offset of the last ALTERNATE_RESPONSE_PORT TLV. */
    method ReadOffset(ts: seq<Tlv>) returns (offset: u16)
      requires Matches()
      ensures Matches() && offset == WorkerOffset(ts)
    {
      hide Matches;
      offset := 0;
      for i := 0 to |ts|
        invariant offset == WorkerOffset(ts[..i])
      {
        assert ts[..i + 1][..i] == ts[..i];
        match ts[i] {
          case AlternateResponsePort(_, o) => offset := o;
          case _ =>
        }
      }
      assert ts[..|ts|] == ts;
    }

    /** The bump of an sptp subscription that is there already; its ports can change. */
    method Bump(sc: SubscriptionClient, expire: Time, eclisa: Sockaddr, portNumber: u16)
      requires Matches() && sc in model.subs
      modifies `model, sc
      ensures Matches()
      ensures var u := old(model).subs[sc];
              model == SetSub(old(model), sc, u.(expire := expire, eclisa := eclisa,
                                                 gclisa := if portNumber > 10 then eclisa else u.gclisa.(port := PORT_GENERAL)))
    {
      hide Separate, SubsMatch, ClientsMatch, JobsMatch, SignalsMatch, SubscriptionClient.View;
      ghost var s := model;
      SplitSub(s.subs, sc);
      OnlyQueues();
      sc.SetExpire(expire);
      sc.SetAddresses(eclisa, portNumber);
      model := SetSub(s, sc, sc.View());
      JoinSub(s.subs, sc, sc.View());
    }

    /** The first half of an sptp exchange. */
    method BumpOrMake(p: SyncPacket, w: nat, eclisa: Sockaddr, now: Time)
      returns (sc: SubscriptionClient, ghost made: SubscriptionClient)
      requires Valid() && w < |sw|
      modifies `model, `runs, sw, model.subs.Keys
      ensures Matches() && fresh(made) && made !in old(model).subs && sc in model.subs
      ensures model.subs.Keys <= old(model).subs.Keys + {made} && w < |old(model).workers|
      ensures (model, sc) == Bumped(old(model), p, w, eclisa, now, made)
    {
      hide Enroll, NewSub, Base, Shaped, Separate, SubsMatch, WorkersMatch;
      ghost var s := model;
      var id, expire := p.header.sourcePortIdentity, now + SUBSCRIPTION_DURATION;
      NonEmpty();
      ContextsHold(s);
      var found := FindAt(w, id, MESSAGE_DELAY_REQ);
      if found.None? {
        var gclisa := if id.portNumber > 10 then eclisa else eclisa.(port := PORT_GENERAL);
        sc := NewSubscription(id, w, eclisa, gclisa, MESSAGE_DELAY_REQ, SUBSCRIPTION_DURATION, expire, now);
        made := sc;
        SpawnRun(sc);
      } else {
        made := Unneeded();
        sc := found.value;
        Bump(sc, expire, eclisa, id.portNumber);
      }
    }

    /** What the request brings is written into the two packets that answer it. */
    method WriteExchange(sc: SubscriptionClient, p: SyncPacket, rx: Time)
      requires Matches() && sc in model.subs
      modifies `model, sc
      ensures Matches()
      ensures model == SetSub(old(model), sc,
                              UpdateAnnounceDelayReq(old(model).cfg, UpdateSyncDelayReq(old(model).subs[sc], rx, p.header.sequenceId),
                                                     p.header.correctionField, p.header.sequenceId))
      ensures model.subs[sc].worker == old(model).subs[sc].worker
    {
      hide Separate, SubsMatch, ClientsMatch, JobsMatch, SignalsMatch, SubscriptionClient.View, UpdateSyncDelayReq, UpdateAnnounceDelayReq;
      ghost var s := model;
      SplitSub(s.subs, sc);
      OnlyQueues();
      sc.SetSyncDelayReq(rx, p.header.sequenceId);
      sc.SetAnnounceDelayReq(p.header.correctionField, p.header.sequenceId);
      ViewNames(sc);
      model := SetSub(s, sc, sc.View());
      JoinSub(s.subs, sc, sc.View());
    }

    /** An sptp request: a subscription for it, and a Sync and an Announce to be sent. */
    method HandleExchange(p: SyncPacket, w: nat, rx: Time, eclisa: Sockaddr, now: Time) returns (ghost made: SubscriptionClient)
      requires Valid() && w < |sw|
      modifies this, sw, JobQueues(), model.subs.Keys
      ensures Matches() && fresh(made) && made !in old(model).subs && w < |old(model).workers|
      ensures model == ExchangeStep(old(model), p, w, rx, eclisa, now, made)
    {
      hide Base, Shaped, Bumped, ExchangeStep, Separate, SubsMatch, WorkersMatch, UpdateSyncDelayReq, UpdateAnnounceDelayReq, QueueJob;
      ghost var s := model;
      var sc;
      sc, made := BumpOrMake(p, w, eclisa, now);
      ExchangeIsBump(s, p, w, rx, eclisa, now, made);
      BumpedCfg(s, p, w, eclisa, now, made);
      SubHolds(sc);
      WriteExchange(sc, p, rx);
      QueueOne(sc);
    }

    /** A delay request of a subscriber, or of anybody else. */
    method HandleResponse(p: SyncPacket, w: nat, rx: Time)
      requires Valid() && w < |sw|
      modifies `model, JobQueues(), model.subs.Keys
      ensures Matches() && w < |old(model).workers|
      ensures model == ResponseStep(old(model), p, w, rx)
    {
      hide Base, Shaped, Separate, SubsMatch, WorkersMatch, QueueJob, UpdateDelayResp;
      ghost var s := model;
      var found := FindAt(w, p.header.sourcePortIdentity, MESSAGE_DELAY_RESP);
      if found.None? {
        return;
      }
      var sc := found.value;
      SubHolds(sc);
      KnownSub(s, sc);
      WriteResponse(sc, p.header, rx);
      QueueOne(sc);
    }

    method WriteResponse(sc: SubscriptionClient, h: Header, rx: Time)
      requires Matches() && sc in model.subs
      modifies `model, sc
      ensures Matches() && model == SetSub(old(model), sc, UpdateDelayResp(old(model).subs[sc], h, rx))
      ensures model.subs[sc].worker == old(model).subs[sc].worker
    {
      hide Separate, SubsMatch, ClientsMatch, JobsMatch, SignalsMatch, SubscriptionClient.View, UpdateDelayResp;
      ghost var s := model;
      SplitSub(s.subs, sc);
      OnlyQueues();
      sc.SetDelayResp(h, rx);
      ViewNames(sc);
      model := SetSub(s, sc, sc.View());
      JoinSub(s.subs, sc, sc.View());
    }

    /** The DELAY_REQ case of handleEventMessages. */
    method HandleDelayRequest(p: SyncPacket, rxTs: Time, eclisa: Sockaddr, now: Time) returns (ghost made: SubscriptionClient)
      requires Valid() && Free(model, Bumps(model, p))
      modifies this, sw, JobQueues(), model.subs.Keys
      ensures Valid() && fresh(made) && model == DelayRequestStep(old(model), p, rxTs, eclisa, now, made)
      ensures made !in old(model).subs && model.subs.Keys <= old(model).subs.Keys + {made}
    {
      hide Base, Shaped, ExchangeStep, ResponseStep, Separate, SubsMatch, WorkersMatch, WorkerOffset;
      ghost var s := model;
      NonEmpty();
      ContextsHold(s);
      made := Unneeded();
      DelayRequestKeepsBase(s, p, rxTs, eclisa, now, made);
      DelayRequestKeys(s, p, rxTs, eclisa, now, made);
      if done[|done| - 1] {
        return;
      }
      var rx := rxTs;
      if !config.current.hardwareTimestamps {
        rx := rxTs + config.current.utcOffset;
      }
      var offset := ReadOffset(p.tlvs);
      var w := FindWorker(p.header.sourcePortIdentity, offset);
      if p.header.flagField == FLAG_PROFILE_SPECIFIC1 + FLAG_UNICAST {
        made := HandleExchange(p, w, rx, eclisa, now);
        DelayRequestKeepsBase(s, p, rxTs, eclisa, now, made);
        DelayRequestKeys(s, p, rxTs, eclisa, now, made);
      } else {
        HandleResponse(p, w, rx);
      }
    }

    // -------------------------------------------------- running subscriptions

    /** The start of a spawned run: the flag, the first message, the ticker. */
    method BeginRun(r: nat)
      requires Valid() && r < |runs| && runs[r].phase.IsSpawned? && Free(model, Some(runs[r].sc))
      modifies this, JobQueues(), model.subs.Keys
      ensures Valid() && model == BeginStep(old(model), r)
    {
      hide Base, Shaped, Separate, SubsMatch, WorkersMatch, JobsMatchBut, ClientsMatch, SignalsMatch, BeginStep, SubscriptionClient.View;
      ghost var s := model;
      RunHolds(s, r);
      var sc := runs[r].sc;
      BeginParts(s, r);
      SplitSub(s.subs, sc);
      SplitJobs(s.workers, sc.worker);
      sc.Begin();
      runs := runs[r := runs[r].(phase := IsLooping)];
      model := BeginStep(s, r);
      JoinSub(s.subs, sc, sc.View());
      JoinJobs(s.workers, sc.worker, model.workers[sc.worker]);
    }

    /** The select took the ticker's case. */
    method SelectTick(r: nat)
      requires Valid() && r < |runs| && runs[r].phase.IsLooping?
      modifies `model, `runs
      ensures Valid() && model == SelectTickStep(old(model), r)
    {
      hide Base, Shaped, Separate, SubsMatch, ClientsMatch, JobsMatch, SignalsMatch;
      SelectKeepsBase(model, r);
      OnlyQueues();
      runs := runs[r := runs[r].(phase := IsTicking)];
      model := SelectTickStep(model, r);
    }

    /** Leaving the loop, with or without a token; `running` is cleared later. */
    method LeaveLoop(r: nat, token: bool)
      requires Matches() && r < |runs| && runs[r].sc in model.subs
      modifies this, model.subs.Keys
      ensures Matches()
      ensures var u := old(model).subs[old(model).runs[r].sc];
              model == LeaveStep(old(model), r, if token then TakeToken(u) else u)
    {
      hide Separate, SubsMatch, ClientsMatch, JobsMatch, SignalsMatch, SubscriptionClient.View, TakeToken;
      ghost var s := model;
      var sc := runs[r].sc;
      SplitSub(s.subs, sc);
      OnlyQueues();
      if token {
        sc.ReceiveToken();
      }
      TokenKeepsWorker(s.subs[sc]);
      runs := runs[r := runs[r].(phase := IsLeft)];
      model := LeaveStep(s, r, if token then TakeToken(s.subs[sc]) else s.subs[sc]);
      JoinSub(s.subs, sc, sc.View());
    }

    method TakeStopToken(r: nat)
      requires Valid() && r < |runs| && runs[r].phase.IsLooping? && runs[r].sc in model.subs && model.subs[runs[r].sc].stop
      modifies this, model.subs.Keys
      ensures Valid() && model == LeaveStep(old(model), r, TakeToken(old(model).subs[old(model).runs[r].sc]))
    {
      hide Base, Shaped, Separate, SubsMatch, WorkersMatch, LeaveStep, TakeToken;
      LeaveKeepsBase(model, r);
      LeaveLoop(r, true);
    }

    method SeeCancelledContext(r: nat)
      requires Valid() && r < |runs| && runs[r].phase.IsLooping? && runs[r].sc in model.subs
      requires runs[r].ctx < |done| && done[runs[r].ctx]
      modifies this, model.subs.Keys
      ensures Valid() && model == LeaveStep(old(model), r, old(model).subs[old(model).runs[r].sc])
    {
      hide Base, Shaped, Separate, SubsMatch, WorkersMatch, LeaveStep, TakeToken;
      LeaveKeepsBase(model, r);
      LeaveLoop(r, false);
    }

    /** The ticker's case: Expired, and then the next message or the way out. */
    method TickRun(r: nat, now: Time)
      requires Valid() && r < |runs| && runs[r].phase.IsTicking? && Free(model, Some(runs[r].sc))
      modifies this, JobQueues(), model.subs.Keys
      ensures Valid() && model == TickStep(old(model), r, now)
    {
      hide Base, Shaped, Separate, SubsMatch, WorkersMatch, JobsMatchBut, ClientsMatch, SignalsMatch, TickStep,
        LeaveStep, Subscription.TickRun, SubscriptionClient.View;
      ghost var s := model;
      RunHolds(s, r);
      var sc := runs[r].sc;
      TickParts(s, r, now);
      SplitSub(s.subs, sc);
      SplitJobs(s.workers, sc.worker);
      var over := sc.OnTick(now);
      if over {
        UnchangedParts(s, sc);
        JoinSub(s.subs, sc, sc.View());
        JoinJobs(s.workers, sc.worker, s.workers[sc.worker]);
        LeaveLoop(r, false);
      } else {
        runs := runs[r := runs[r].(phase := IsLooping)];
        model := TickStep(s, r, now);
        JoinSub(s.subs, sc, sc.View());
        JoinJobs(s.workers, sc.worker, model.workers[sc.worker]);
      }
    }

    /** The deferred setRunning(false). */
    method ClearRun(r: nat)
      requires Valid() && r < |runs| && runs[r].phase.IsLeft? && Free(model, Some(runs[r].sc))
      modifies this, model.subs.Keys
      ensures Valid() && model == ClearStep(old(model), r)
    {
      hide Base, Shaped, Separate, SubsMatch, ClientsMatch, JobsMatch, SignalsMatch, SubscriptionClient.View;
      ghost var s := model;
      RunHolds(s, r);
      ClearKeepsBase(s, r);
      var sc := runs[r].sc;
      SplitSub(s.subs, sc);
      OnlyQueues();
      sc.SetRunning(false);
      runs := runs[r := runs[r].(phase := IsCleared)];
      model := ClearStep(s, r);
      JoinSub(s.subs, sc, sc.View());
    }

    lemma UnchangedParts(s: State, sc: SubscriptionClient)
      requires sc in s.subs && sc.worker < |s.workers|
      ensures s.subs[sc := s.subs[sc]] == s.subs && s.workers[sc.worker := s.workers[sc.worker]] == s.workers
    {
    }

    /** The last thing a run does: its Cancel, unless it is a DELAY_REQ one. */
    method FinishRun(r: nat)
      requires Valid() && r < |runs| && runs[r].phase.IsCleared?
      modifies this, SignalQueues(), model.subs.Keys
      ensures Valid() && model == FinishStep(old(model), r)
    {
      hide Base, Shaped, Separate, SubsMatch, WorkersMatch, SignalsMatchBut, ClientsMatch, JobsMatch, FinishStep,
        UpdateSignalingCancel, SubscriptionClient.View;
      ghost var s := model;
      RunHolds(s, r);
      var sc := runs[r].sc;
      FinishParts(s, r);
      SplitSub(s.subs, sc);
      SplitSignals(s.workers, sc.worker);
      sc.Finish();
      runs := runs[r := runs[r].(phase := IsDone)];
      model := FinishStep(s, r);
      JoinSub(s.subs, sc, sc.View());
      JoinSignals(s.workers, sc.worker, model.workers[sc.worker]);
    }

    // ---------------------------------------------------------------- workers

    /** A worker takes a job; what it puts on the wire is what the machine says is sent. */
    method WorkerTakesJob(w: nat, o: Outcome) returns (wire: seq<Wired>, ghost ms: seq<Message>)
      requires Valid() && w < |sw| && sw[w].queue.items != []
      modifies `model, sw[w], sw[w].queue, sw[w].buf, sw[w].stats, model.subs.Keys
      ensures Valid() && w < |old(model).workers| && old(model).workers[w].queue != []
      ensures var sc := old(model).workers[w].queue[0];
              sw[w].stats.View() == Stats.ApplyAll(JobOps(sw[w].id, sc.subscriptionType, |sw[w].queue.items|, o),
                                                   old(sw[w].stats.View()))
      ensures model == Machine.TakeJob(old(model), w, o)
      ensures var sc := old(model).workers[w].queue[0];
              && sc in old(model).sent && sc in model.sent && model.sent[sc] == old(model).sent[sc] + ms
              && AllFit(ms) && wire == OnWire(ms)
    {
      hide Base, Shaped, Separate, SubsMatch, WorkersMatch, PacketsFit, JobStep, OnWire, AllFit, SetSub;
      JobWaits(w);
      ghost var s, ws := model, model.workers[w];
      JobHolds(s, w, o);
      ms := JobStep(s.cfg, ws.olderKernel, s.subs[ws.queue[0]], o).sent;
      wire := SendJob(w, o, ws.queue[0], ws, JobStep(s.cfg, ws.olderKernel, s.subs[ws.queue[0]], o));
    }

    lemma JobWaits(w: nat)
      requires Matches() && w < |sw| && sw[w].queue.items != []
      ensures w < |model.workers| && model.workers[w].queue == sw[w].queue.items
    {
    }

    /** The job at the front, of subscription sc; r is what becomes of it. */
    method SendJob(w: nat, o: Outcome, ghost sc: SubscriptionClient, ghost ws: WorkerState, ghost r: JobResult) returns (wire: seq<Wired>)
      requires Matches() && w < |sw| && w < |model.workers| && ws == model.workers[w] && ws.queue == sw[w].queue.items
      requires ws.queue != [] && sc == ws.queue[0] && sc in model.subs && sc in model.sent && PacketsFit(model.subs[sc])
      requires r == JobStep(model.cfg, ws.olderKernel, model.subs[sc], o)
      modifies `model, sw[w], sw[w].queue, sw[w].buf, sw[w].stats, sc
      ensures sw[w].stats.View() == Stats.ApplyAll(JobOps(sw[w].id, sc.subscriptionType, |sw[w].queue.items|, o),
                                                   old(sw[w].stats.View()))
      ensures Matches() && model == PopJob(SetSub(old(model), sc, r.sub), w, r.olderKernel, sc, r.sent)
      ensures AllFit(r.sent) && wire == OnWire(r.sent)
    {
      hide Matches, FixedSize, Framed, Separate, FieldsMatch, WorkersMatch, JobsMatchBut, ClientsMatchBut,
        SignalsMatch, SubsMatch, PacketsFit, JobStep, PopJob, SubscriptionClient.View, OnWire, AllFit, JobOps,
        Stats.ApplyAll, Stats.JsonStats.View;
      ghost var s := model;
      ghost var t := PopJob(SetSub(s, sc, r.sub), w, r.olderKernel, sc, r.sent);
      MatchesParts();
      NonEmpty();
      wire := SendApart(s, w, o, sc, r);
      RejoinJob(s, w, sc, r);
      OnlyQueues();
      OnlySubs(t.subs);
      model := t;
      MatchesParts();
    }

    /** The job itself, with all that it does not touch set apart. */
    method SendApart(ghost s: State, w: nat, o: Outcome, ghost sc: SubscriptionClient, ghost r: JobResult) returns (wire: seq<Wired>)
      requires Separate() && w < |sw| && WorkersMatch(s.workers) && SubsMatch(s.subs) && FieldsMatch(s)
      requires sc in s.subs && PacketsFit(s.subs[sc]) && sw[w].queue.items != [] && sw[w].queue.items[0] == sc
      requires |s.workers| == |sw| && r == JobStep(s.cfg, s.workers[w].olderKernel, s.subs[sc], o)
      modifies sw[w], sw[w].queue, sw[w].buf, sw[w].stats, sc
      ensures FieldsMatch(s) && JobsMatchBut(s.workers, w) && ClientsMatchBut(s.workers, w) && SignalsMatch(s.workers)
      ensures SubsMatch(s.subs - {sc}) && SubMatches(sc, r.sub)
      ensures sw[w].clients == s.workers[w].clients && sw[w].olderKernel == r.olderKernel
      ensures sw[w].queue.items == old(sw[w].queue.items[1..])
      ensures sw[w].stats.View() == Stats.ApplyAll(JobOps(sw[w].id, sc.subscriptionType, |sw[w].queue.items|, o),
                                                   old(sw[w].stats.View()))
      ensures AllFit(r.sent) && wire == OnWire(r.sent)
    {
      hide FixedSize, Framed, Separate, FieldsMatch, WorkersMatch, JobsMatchBut, ClientsMatchBut, SignalsMatch, SubsMatch,
        PacketsFit, JobStep, SubscriptionClient.View, OnWire, AllFit, JobOps, Stats.ApplyAll, Stats.JsonStats.View;
      CfgHolds(s);
      SplitJobs(s.workers, w);
      SplitClients(s.workers, w);
      SplitSub(s.subs, sc);
      wire := sw[w].TakeJob(o);
    }

    lemma MatchesParts()
      ensures Matches() <==> Separate() && FieldsMatch(model) && WorkersMatch(model.workers) && SubsMatch(model.subs)
    {
    }

    lemma CfgHolds(s: State)
      requires FieldsMatch(s)
      ensures config.current == s.cfg
    {
    }

    /** Everything matches the state after a job again. */
    lemma RejoinJob(s: State, w: nat, sc: SubscriptionClient, r: JobResult)
      requires Separate() && w < |s.workers| == |sw| && s.workers[w].queue != [] && sc in s.sent && FieldsMatch(s)
      requires JobsMatchBut(s.workers, w) && ClientsMatchBut(s.workers, w) && SignalsMatch(s.workers)
      requires SubsMatch(s.subs - {sc}) && SubMatches(sc, r.sub)
      requires sw[w].clients == s.workers[w].clients && sw[w].olderKernel == r.olderKernel && sw[w].queue.items == s.workers[w].queue[1..]
      ensures var t := PopJob(SetSub(s, sc, r.sub), w, r.olderKernel, sc, r.sent);
              FieldsMatch(t) && WorkersMatch(t.workers) && SubsMatch(t.subs)
    {
      hide Separate, WorkersMatch, JobsMatchBut, ClientsMatchBut, SignalsMatch, SubsMatch, SubMatches;
      var ws := s.workers[w];
      JoinSub(s.subs, sc, r.sub);
      JoinJobsAndClients(s.workers, w, ws.(queue := ws.queue[1..], olderKernel := r.olderKernel));
    }

    /** A worker takes a signaling message, reading the packet now. */
    method WorkerTakesSignaling(w: nat, ok: bool) returns (wire: seq<Wired>)
      requires Valid() && w < |sw| && sw[w].signalingQueue.items != []
      modifies `model, sw[w].signalingQueue, sw[w].buf, sw[w].stats
      ensures Valid() && w < |old(model).workers| && old(model).workers[w].signalingQueue != []
      ensures model == TakeSignaling(old(model), w, ok)
      ensures var s := old(model); var sc := s.workers[w].signalingQueue[0];
              sc in s.subs && AllFit(SignalingSent(s.subs[sc], ok)) && wire == OnWire(SignalingSent(s.subs[sc], ok))
      ensures var s := old(model); var u := s.subs[s.workers[w].signalingQueue[0]];
              sw[w].stats.View() == Stats.ApplyAll(if SignalingSent(u, ok) == [] then [] else SignalingOps(u.signaling.tlvs, u.typ),
                                                   old(sw[w].stats.View()))
    {
      hide Base, Shaped, Separate, SubsMatch, WorkersMatch, PacketsFit, SignalingSent, OnWire, AllFit;
      SignalWaits(w);
      SignalHolds(model, w, ok);
      wire := SendFront(w, ok, model.workers[w].signalingQueue[0], model.workers[w]);
    }

    lemma SignalWaits(w: nat)
      requires Matches() && w < |sw| && sw[w].signalingQueue.items != []
      ensures w < |model.workers| && model.workers[w].signalingQueue == sw[w].signalingQueue.items
    {
    }

    /** The signaling message at the front, of subscription sc. */
    method SendFront(w: nat, ok: bool, ghost sc: SubscriptionClient, ghost ws: WorkerState) returns (wire: seq<Wired>)
      requires Matches() && w < |sw| && w < |model.workers| && ws == model.workers[w] && ws.signalingQueue == sw[w].signalingQueue.items
      requires ws.signalingQueue != [] && sc == ws.signalingQueue[0] && sc in model.subs && PacketsFit(model.subs[sc])
      modifies `model, sw[w].signalingQueue, sw[w].buf, sw[w].stats
      ensures var u := old(model).subs[sc];
              sw[w].stats.View() == Stats.ApplyAll(if SignalingSent(u, ok) == [] then [] else SignalingOps(u.signaling.tlvs, u.typ),
                                                   old(sw[w].stats.View()))
      ensures Matches() && model == SetWorker(old(model), w, ws.(signalingQueue := ws.signalingQueue[1..]))
      ensures var ms := SignalingSent(old(model).subs[sc], ok); AllFit(ms) && wire == OnWire(ms)
    {
      hide Separate, WorkersMatch, SignalsMatchBut, ClientsMatch, JobsMatch, SubsMatch, PacketsFit, SignalingSent,
        SubscriptionClient.View, OnWire, AllFit, SignalingOps, Stats.ApplyAll, Stats.JsonStats.View;
      ghost var s := model;
      OnlyQueues();
      OthersAreQueues(w);
      OnlySubs(s.subs);
      wire := SendFrontApart(s, w, ok, sc);
      model := SetWorker(s, w, ws.(signalingQueue := ws.signalingQueue[1..]));
      JoinSignals(s.workers, w, ws.(signalingQueue := ws.signalingQueue[1..]));
    }

    /** The message itself, with all that it does not touch set apart. */
    method SendFrontApart(ghost s: State, w: nat, ok: bool, ghost sc: SubscriptionClient) returns (wire: seq<Wired>)
      requires Separate() && w < |sw| && WorkersMatch(s.workers) && SubsMatch(s.subs) && FieldsMatch(s)
      requires sc in s.subs && PacketsFit(s.subs[sc]) && sw[w].signalingQueue.items != [] && sw[w].signalingQueue.items[0] == sc
      modifies sw[w].signalingQueue, sw[w].buf, sw[w].stats
      ensures FieldsMatch(s) && SignalsMatchBut(s.workers, w) && ClientsMatch(s.workers) && JobsMatch(s.workers) && SubsMatch(s.subs)
      ensures sw[w].signalingQueue.items == old(sw[w].signalingQueue.items[1..])
      ensures var u := s.subs[sc];
              sw[w].stats.View() == Stats.ApplyAll(if SignalingSent(u, ok) == [] then [] else SignalingOps(u.signaling.tlvs, u.typ),
                                                   old(sw[w].stats.View()))
      ensures var ms := SignalingSent(s.subs[sc], ok); AllFit(ms) && wire == OnWire(ms)
    {
      hide Separate, FieldsMatch, WorkersMatch, SignalsMatchBut, ClientsMatch, JobsMatch, SubsMatch, PacketsFit, SignalingSent,
        SubscriptionClient.View, OnWire, AllFit, SignalingOps, Stats.ApplyAll, Stats.JsonStats.View;
      SplitSignals(s.workers, w);
      SplitSub(s.subs, sc);
      OnlySubs(s.subs);
      wire := sw[w].TakeSignaling(ok);
    }

    lemma RunningAgree(w: nat)
      requires Valid() && w < |sw| == |model.workers|
      ensures Pruned(sw[w].clients, RunningIn(sw[w].clients)) == Pruned(model.workers[w].clients, RunningOnes(model))
    {
      hide Base, Shaped, Separate, Pruned, RunningIn, RunningOnes, WorkersMatch;
      WorkerHolds(w);
      var cs := sw[w].clients;
      forall st, c | st in cs && c in cs[st] ensures cs[st][c] in RunningIn(cs) <==> cs[st][c] in RunningOnes(model) {
        FoundIsKnown(w, c, st);
        FlagsOf(cs);
        RunningOnesAre(model, cs[st][c]);
      }
      PrunedAgree(cs, RunningIn(cs), RunningOnes(model));
    }

    lemma WorkerHolds(w: nat)
      requires Matches() && w < |sw|
      ensures w < |model.workers| && sw[w].clients == model.workers[w].clients
    {
    }

    /** The inventory of one worker. */
    method InventoryWorker(w: nat)
      requires Valid() && w < |sw| && InventoryIsFree(model, w)
      modifies `model, sw[w], sw[w].stats
      ensures Valid() && w < |old(model).workers| && model == InventoryStep(old(model), w)
      ensures sw[w].clients == model.workers[w].clients
      ensures InventoryCounts(old(sw[w].stats.View()), sw[w].stats.View(), sw[w].clients, sw[w].id)
    {
      hide Base, Shaped, Separate, SubsMatch, WorkersMatch, ClientsMatchBut, JobsMatch, SignalsMatch, Pruned, RunningIn, RunningOnes;
      ghost var s := model;
      SplitClients(s.workers, w);
      RunningAgree(w);
      InventoryKeepsBase(s, w);
      ghost var before := sw[w].stats.View();
      sw[w].InventoryClients();
      assert InventoryCounts(before, sw[w].stats.View(), sw[w].clients, sw[w].id);
      model := InventoryStep(s, w);
      JoinClients(s.workers, w, model.workers[w]);
    }

    // --------------------------------------------------------------- draining

    /** The cancel of the current context. */
    method CancelContext()
      requires Valid()
      modifies `model, `done
      ensures Valid() && model == DrainStep(old(model)) && |done| == |old(done)| && done[|done| - 1]
      ensures model.subs.Keys == old(model).subs.Keys
    {
      hide Base, Shaped, Separate, SubsMatch, ClientsMatch, JobsMatch, SignalsMatch;
      ContextsHold(model);
      DrainKeepsBase(model);
      OnlyQueues();
      done := done[|done| - 1 := true];
      model := DrainStep(model);
    }

    /** Undrain: a new context, if the current one is cancelled. */
    method Undrain()
      requires Valid()
      modifies `model, `done
      ensures Valid() && model == UndrainStep(old(model))
      ensures model.subs.Keys == old(model).subs.Keys
    {
      hide Base, Shaped, Separate, SubsMatch, ClientsMatch, JobsMatch, SignalsMatch;
      ContextsHold(model);
      DrainKeepsBase(model);
      OnlyQueues();
      if done[|done| - 1] {
        done := done + [false];
      }
      model := UndrainStep(model);
    }

    /** A reload of the dynamic configuration. */
    method Reload(cfg: Config)
      requires Valid()
      modifies `model, config
      ensures Valid() && model == old(model).(cfg := Reloaded(old(model).cfg, cfg))
    {
      hide Base, Shaped, Separate, SubsMatch, ClientsMatch, JobsMatch, SignalsMatch;
      ghost var now := Reloaded(model.cfg, cfg);
      ReloadKeepsBase(model, now);
      OnlyQueues();
      config.current := config.current.(minSubInterval := cfg.minSubInterval, maxSubDuration := cfg.maxSubDuration);
      config.current := config.current.(utcOffset := cfg.utcOffset, utcOffsetSeconds := cfg.utcOffsetSeconds);
      config.current := config.current.(clockClass := cfg.clockClass, clockAccuracy := cfg.clockAccuracy);
      model := model.(cfg := now);
    }

    // ------------------------------------------------------ locks that are held

    /** Whether the lock of a registry entry is free. */
    method EntryIsFree(w: nat, client: PortIdentity, st: byte) returns (free: bool)
      requires Valid() && w < |sw|
      ensures Valid() && w < |model.workers| && (free <==> Free(model, Find(model.workers[w].clients, client, st)))
    {
      hide Base, Shaped, Separate, SubsMatch, WorkersMatch;
      var found := FindAt(w, client, st);
      free := found.None? || !found.value.waiting;
    }

    /** Whether the lock that a TLV of a signaling message takes is free. */
    method TlvIsFree(sg: SignalingPacket, v: Tlv) returns (free: bool)
      requires Valid()
      ensures Valid() && (free <==> TlvFree(model, sg, v))
    {
      hide Base, Shaped, Separate, SubsMatch, WorkersMatch, Free;
      NonEmpty();
      var w := FindWorker(sg.header.sourcePortIdentity, 0);
      TlvFreeIs(model, sg, v, w);
      match v {
        case RequestUnicast(_, m, _, _) =>
          free := true;
          if Signaled(UnicastMsgType(m)) {
            free := EntryIsFree(w, sg.header.sourcePortIdentity, UnicastMsgType(m));
          }
        case CancelUnicast(_, m, _) =>
          free := EntryIsFree(w, sg.header.sourcePortIdentity, UnicastMsgType(m));
        case _ =>
          free := true;
      }
    }

    /** Whether the lock that a delay request takes is free. */
    method BumpIsFree(p: SyncPacket) returns (free: bool)
      requires Valid()
      ensures Valid() && (free <==> Free(model, Bumps(model, p)))
    {
      hide Base, Shaped, Separate, SubsMatch, WorkersMatch, WorkerOffset, Free;
      NonEmpty();
      ContextsHold(model);
      var offset := ReadOffset(p.tlvs);
      var w := FindWorker(p.header.sourcePortIdentity, offset);
      BumpFreeIs(model, p, w);
      free := EntryIsFree(w, p.header.sourcePortIdentity, MESSAGE_DELAY_REQ);
      if done[|done| - 1] || p.header.flagField != FLAG_PROFILE_SPECIFIC1 + FLAG_UNICAST {
        free := true;
      }
    }

    /** Whether an inventory gets all the locks it takes. */
    method EntriesAreFree(w: nat) returns (free: bool)
      requires Valid() && w < |sw|
      ensures Valid() && (free <==> InventoryIsFree(model, w))
    {
      hide Base, Shaped, Separate, SubsMatch, WorkersMatch;
      WorkerHolds(w);
      var m: Clients<Ref> := sw[w].clients;
      free := forall st: byte, c: PortIdentity | st in m && c in m[st] :: !m[st][c].waiting;
      forall st: byte, c: PortIdentity | st in m && c in m[st] ensures Free(model, Some(m[st][c])) <==> !m[st][c].waiting {
        FoundIsKnown(w, c, st);
      }
      EntriesFreeIs(model, w);
    }

    // -------------------------------------------- a whole signaling message

    /**
     * The TLVs of a signaling message in order, from one of them on. It is handled up to the end, or up to a TLV whose
     * lock is held, or up to and with a cancel whose Stop has to wait; it goes on from there once the lock is free.
     * Every TLV handled is one step of the machine, and TLVs of other kinds change nothing.
     */
    method HandleSignaling(sg: SignalingPacket, gclisa: Sockaddr, nows: seq<Time>, from: nat)
      returns (handled: nat, waits: bool, ghost trace: seq<State>, ghost mades: seq<Ref>)
      requires Valid() && MsgType(sg.header.sdoIdAndMsgType) == MESSAGE_SIGNALING && from <= |sg.tlvs| == |nows|
      modifies this, sw, SignalQueues(), model.subs.Keys
      ensures Valid() && from <= handled <= |sg.tlvs| && |trace| == handled - from + 1 && |mades| == handled - from
      ensures trace[0] == old(model) && trace[handled - from] == model
      ensures forall i | 0 <= i < handled - from ::
                TlvStep(trace[i], sg, sg.tlvs[from + i], gclisa, nows[from + i], mades[i], trace[i + 1])
      ensures forall i | 0 <= i < handled - from :: StopWaits(trace[i], sg, sg.tlvs[from + i]) <==> waits && i == handled - from - 1
      ensures waits ==> from < handled
      ensures !waits && handled < |sg.tlvs| ==> !TlvFree(model, sg, sg.tlvs[handled])
    {
      hide Base, Shaped, Separate, SubsMatch, WorkersMatch, TlvStep, TlvFree, StopWaits;
      handled, waits, trace, mades := from, false, [model], [];
      while handled < |sg.tlvs|
        invariant Valid() && from <= handled <= |sg.tlvs| && |trace| == handled - from + 1 && |mades| == handled - from
        invariant trace[0] == old(model) && trace[handled - from] == model && !waits
        invariant forall i | 0 <= i < handled - from ::
                    TlvStep(trace[i], sg, sg.tlvs[from + i], gclisa, nows[from + i], mades[i], trace[i + 1])
        invariant forall i | 0 <= i < handled - from :: !StopWaits(trace[i], sg, sg.tlvs[from + i])
        invariant forall o: object | o in model.subs.Keys :: o in old(model.subs.Keys) || fresh(o)
      {
        var free := TlvIsFree(sg, sg.tlvs[handled]);
        if !free {
          return;
        }
        ghost var made;
        waits, made := HandleTlv(sg, sg.tlvs[handled], gclisa, nows[handled]);
        trace, mades, handled := trace + [model], mades + [made], handled + 1;
        if waits {
          return;
        }
      }
    }

    /** One TLV of a signaling message. */
    method HandleTlv(sg: SignalingPacket, v: Tlv, gclisa: Sockaddr, now: Time) returns (waits: bool, ghost made: SubscriptionClient)
      requires Valid() && MsgType(sg.header.sdoIdAndMsgType) == MESSAGE_SIGNALING && TlvFree(model, sg, v)
      modifies this, sw, SignalQueues(), model.subs.Keys
      ensures Valid() && fresh(made) && TlvStep(old(model), sg, v, gclisa, now, made, model)
      ensures model.subs.Keys <= old(model).subs.Keys + {made}
      ensures waits <==> StopWaits(old(model), sg, v)
    {
      hide Base, Shaped, Separate, SubsMatch, WorkersMatch, TlvStep, RequestStep, CancelStep, Renews, CancelTarget, StopWaits;
      ghost var s := model;
      waits := false;
      OnlyCancelsWait(s, sg, v);
      match v {
        case RequestUnicast(_, _, _, _) =>
          made := HandleRequest(sg, v, gclisa, now);
        case CancelUnicast(_, _, _) =>
          waits := HandleCancel(sg, v, now);
          made := Unneeded();
        case _ =>
          made := Unneeded();
      }
      TlvStepIs(s, sg, v, gclisa, now, made, model);
    }

    // ------------------------------------------------- every step of the machine

    /** A step of the goroutine that reads messages, if its lock is free. */
    method PerformHandler(step: Step) returns (taken: bool, ghost made: SubscriptionClient)
      requires Valid() && (step.Request? || step.CancelRequest? || step.DelayRequest?)
      modifies this, sw, JobQueues(), SignalQueues(), model.subs.Keys
      ensures Valid() && fresh(made) && Performed(old(model), WithMade(step, made), taken, model)
      ensures made !in old(model).subs && model.subs.Keys <= old(model).subs.Keys + {made}
    {
      hide Base, Shaped, Separate, SubsMatch, WorkersMatch, RequestStep, CancelStep, DelayRequestStep, Renews, CancelTarget,
        Bumps, Performed;
      ghost var s := model;
      taken := false;
      match step {
        case Request(sg, v, gclisa, now, _) =>
          if v.RequestUnicast? && MsgType(sg.header.sdoIdAndMsgType) == MESSAGE_SIGNALING {
            taken := TlvIsFree(sg, v);
          }
          if taken {
            made := HandleRequest(sg, v, gclisa, now);
          } else {
            made := Unneeded();
          }
          RequestIsStep(s, sg, v, gclisa, now, made, taken, model);
        case CancelRequest(sg, v, now) =>
          if v.CancelUnicast? {
            taken := TlvIsFree(sg, v);
          }
          if taken {
            var waits := HandleCancel(sg, v, now);
          }
          made := Unneeded();
          CancelIsStep(s, sg, v, now, taken, model);
        case DelayRequest(p, rxTs, eclisa, now, _) =>
          taken := BumpIsFree(p);
          if taken {
            made := HandleDelayRequest(p, rxTs, eclisa, now);
          } else {
            made := Unneeded();
          }
          DelayRequestIsStep(s, p, rxTs, eclisa, now, made, taken, model);
      }
    }

    /** A step of the goroutine of a run out of its select, if it is there. */
    method PerformSelect(step: Step) returns (taken: bool)
      requires Valid() && (step.SelectTick? || step.TakeStop? || step.CtxIsDone?)
      modifies this, model.subs.Keys
      ensures Valid() && Performed(old(model), step, taken, model)
    {
      hide Base, Shaped, Separate, SubsMatch, WorkersMatch, SelectTickStep, LeaveStep, TakeToken;
      ghost var s := model;
      var r := RunOf(step).value;
      if r >= |runs| {
        return false;
      }
      RunHolds(s, r);
      SubHolds(runs[r].sc);
      taken := false;
      if runs[r].phase.IsLooping? {
        match step {
          case SelectTick(_) =>
            SelectTick(r);
            taken := true;
          case TakeStop(_) =>
            if runs[r].sc.stop {
              TakeStopToken(r);
              taken := true;
            }
          case CtxIsDone(_) =>
            if done[runs[r].ctx] {
              SeeCancelledContext(r);
              taken := true;
            }
        }
      }
    }

    /** Another step of the goroutine of a run, if it is there and the lock that the step takes is free. */
    method PerformRun(step: Step) returns (taken: bool)
      requires Valid() && (step.Begin? || step.Tick? || step.Clear? || step.Finish?)
      modifies this, JobQueues(), SignalQueues(), model.subs.Keys
      ensures Valid() && Performed(old(model), step, taken, model)
    {
      hide Base, Shaped, Separate, SubsMatch, WorkersMatch, BeginStep, TickStep, ClearStep, FinishStep, Free;
      ghost var s := model;
      var r := RunOf(step).value;
      if r >= |runs| {
        return false;
      }
      RunHolds(s, r);
      SubHolds(runs[r].sc);
      FreeIs(s, runs[r].sc);
      var free, phase := !runs[r].sc.waiting, runs[r].phase;
      taken := false;
      match step {
        case Begin(_) =>
          if phase.IsSpawned? && free {
            BeginRun(r);
            taken := true;
          }
        case Tick(_, now) =>
          if phase.IsTicking? && free {
            TickRun(r, now);
            taken := true;
          }
        case Clear(_) =>
          if phase.IsLeft? && free {
            ClearRun(r);
            taken := true;
          }
        case Finish(_) =>
          if phase.IsCleared? {
            FinishRun(r);
            taken := true;
          }
      }
    }

    /** A step of a worker, or its inventory, if there is something to take and no lock of an entry is held. */
    method PerformWorker(step: Step) returns (taken: bool)
      requires Valid() && (step.Job? || step.SignalingJob? || step.Inventory?)
      modifies `model, sw, JobQueues(), SignalQueues(), Buffers(), Statistics(), model.subs.Keys
      ensures Valid() && Performed(old(model), step, taken, model) && model.subs.Keys == old(model).subs.Keys
    {
      hide Base, Shaped, Separate, SubsMatch, WorkersMatch, Machine.TakeJob, TakeSignaling, InventoryStep, InventoryIsFree,
        OnWire, AllFit, JobOps, Stats.ApplyAll, SignalingOps, SignalingSent, InventoryCounts;
      ghost var s := model;
      NonEmpty();
      taken := false;
      match step {
        case Job(w, o) =>
          if w < |sw| {
            WorkersHold(w);
            if sw[w].queue.items != [] {
              var wire, ms := WorkerTakesJob(w, o);
              taken := true;
              JobKeepsKeys(s, w, o);
            }
          }
        case SignalingJob(w, ok) =>
          if w < |sw| {
            WorkersHold(w);
            if sw[w].signalingQueue.items != [] {
              var wire := WorkerTakesSignaling(w, ok);
              taken := true;
              SignalKeepsKeys(s, w, ok);
            }
          }
        case Inventory(w) =>
          if w < |sw| {
            taken := EntriesAreFree(w);
            InventoryIsStep(s, w);
            if taken {
              InventoryWorker(w);
              InventoryKeepsKeys(s, w);
            }
          }
      }
    }

    ghost function Buffers(): set<array<byte>> {
      set w | w in sw :: w.buf
    }

    ghost function Statistics(): set<Stats.JsonStats> {
      set w | w in sw :: w.stats
    }

    lemma WorkersHold(w: nat)
      requires Matches() && w < |sw|
      ensures w < |model.workers| && model.workers[w].queue == sw[w].queue.items
      ensures model.workers[w].signalingQueue == sw[w].signalingQueue.items
      ensures sw[w] in sw && sw[w].queue in JobQueues() && sw[w].signalingQueue in SignalQueues()
      ensures sw[w].buf in Buffers() && sw[w].stats in Statistics()
    {
    }

    /**
     * Any step of the machine, done by the methods of this object: it is taken exactly if the machine allows it now,
     * and then has exactly the machine's effect. The object made by a request stands in for the one the step names.
     */
    method Perform(step: Step) returns (taken: bool, ghost made: SubscriptionClient)
      requires Valid()
      modifies this, config, sw, JobQueues(), SignalQueues(), Buffers(), Statistics(), model.subs.Keys
      ensures Valid() && fresh(made) && Performed(old(model), WithMade(step, made), taken, model)
      ensures made !in old(model).subs && model.subs.Keys <= old(model).subs.Keys + {made}
    {
      hide Base, Shaped, Separate, SubsMatch, WorkersMatch, DrainStep, UndrainStep;
      ghost var s := model;
      if step.Request? || step.CancelRequest? || step.DelayRequest? {
        taken, made := PerformHandler(step);
        return;
      }
      made := Unneeded();
      if RunOf(step).Some? {
        if step.SelectTick? || step.TakeStop? || step.CtxIsDone? {
          taken := PerformSelect(step);
        } else {
          taken := PerformRun(step);
        }
        PerformedKeys(s, step, taken, model);
      } else if step.Job? || step.SignalingJob? || step.Inventory? {
        taken := PerformWorker(step);
      } else {
        taken := true;
        match step {
          case Drain => CancelContext();
          case Undrain => Undrain();
          case Reload(cfg) => Reload(cfg);
        }
      }
    }

    /** A script of steps, of which those that the machine does not allow at their turn are passed over. */
    method PerformAll(script: seq<Step>) returns (ghost trace: seq<State>, ghost steps: seq<Step>)
      requires Valid()
      modifies this, config, sw, JobQueues(), SignalQueues(), Buffers(), Statistics(), model.subs.Keys
      ensures Valid() && Path(old(model), trace, steps, model)
      ensures forall o: object | o in model.subs.Keys :: o in old(model.subs.Keys) || fresh(o)
    {
      hide Base, Shaped, Separate, SubsMatch, WorkersMatch, Performed, Path;
      trace, steps := [model], [];
      NoPath(model);
      for i := 0 to |script|
        invariant Valid() && Path(old(model), trace, steps, model)
        invariant forall o: object | o in model.subs.Keys :: o in old(model.subs.Keys) || fresh(o)
      {
        ghost var s := model;
        ghost var made;
        var taken;
        taken, made := Perform(script[i]);
        PerformedIs(s, WithMade(script[i], made), taken, model);
        if taken {
          PathStep(old(model), trace, steps, s, WithMade(script[i], made), model);
          trace, steps := trace + [model], steps + [WithMade(script[i], made)];
        }
      }
    }

    // ------------------------------------------------------------ a whole drain

    method AnyLeft(w: nat) returns (any: bool)
      requires Valid() && w < |sw|
      ensures Valid() && w < |model.workers| && (any <==> HasEntries(model.workers[w].clients))
    {
      hide Base, Shaped, Separate, SubsMatch;
      any := sw[w].HasClients();
    }

    /** An inventory and the look at what it left. */
    method InventoryAndLook(w: nat) returns (any: bool)
      requires Valid() && w < |sw| && InventoryIsFree(model, w)
      modifies `model, sw, Statistics()
      ensures Valid() && Took(old(model), Inventory(w), model) && model.subs.Keys == old(model).subs.Keys
      ensures any <==> AnEntryRuns(old(model), w)
    {
      hide Base, Shaped, Separate, SubsMatch, WorkersMatch, InventoryStep, HasEntries, AnEntryRuns, InventoryCounts;
      ghost var s := model;
      WorkersHold(w);
      InventoryWorker(w);
      InventoryKeepsKeys(s, w);
      any := AnyLeft(w);
      LeftIsRunning(s, w);
      InventoryIsStep(s, w);
    }

    /**
     * Drain: cancels the context if it is live, then ten times asks each worker in turn for an inventory and waits, once
     * for each worker that has entries left. All other goroutines go on meanwhile: `others` says what they do before each
     * inventory, and while that waits for a lock. So the drain is a path of the machine, in which `at` names the
     * inventories; a worker is waited for in a round exactly if one of its entries was running at its inventory there.
     */
    method Drain(others: seq<seq<Step>>)
      returns (finished: bool, rounds: seq<seq<bool>>, ghost trace: seq<State>, ghost steps: seq<Step>, ghost at: seq<seq<nat>>)
      requires Valid()
      modifies this, config, sw, JobQueues(), SignalQueues(), Buffers(), Statistics(), model.subs.Keys
      ensures Valid() && Path(old(model), trace, steps, model)
      ensures 0 < |old(model).done| && (!Drained(old(model)) ==> steps != [] && steps[0] == Step.Drain)
      ensures |rounds| <= 10 && (finished ==> |rounds| == 10)
      ensures forall k | 0 <= k < |rounds| :: |rounds[k]| <= |sw| && (finished || k < |rounds| - 1 ==> |rounds[k]| == |sw|)
      ensures AllLooked(trace, steps, at, rounds)
    {
      hide Base, Shaped, Separate, SubsMatch, WorkersMatch, AllLooked, Looked, Path, DrainStep;
      ContextsHold(model);
      trace, steps, rounds, at := [model], [], [], [];
      NoPath(model);
      if !done[|done| - 1] {
        CancelContext();
        DrainIsStep(old(model));
        PathStep(old(model), trace, steps, old(model), Step.Drain, model);
        trace, steps := trace + [model], steps + [Step.Drain];
      }
      NoLooks(trace, steps);
      var j := 0;
      for k := 0 to 10
        invariant Valid() && Path(old(model), trace, steps, model) && j <= |others|
        invariant !Drained(old(model)) ==> steps != [] && steps[0] == Step.Drain
        invariant forall o: object | o in model.subs.Keys :: o in old(model.subs.Keys) || fresh(o)
        invariant |rounds| == k && (forall l | 0 <= l < k :: |rounds[l]| == |sw|) && AllLooked(trace, steps, at, rounds)
      {
        var round;
        ghost var s := model;
        ghost var more, taken, looks;
        j, round, more, taken, looks := DrainRound(others, j);
        PathEnds(old(model), trace, steps, s);
        PathEnds(s, more, taken, model);
        OneMoreRound(trace, steps, more, taken, at, rounds, looks, round);
        PathJoin(old(model), trace, steps, s, more, taken, model);
        at := at + [Shifted(looks, |steps|)];
        trace, steps, rounds := trace + more[1..], steps + taken, rounds + [round];
        if |round| < |sw| {
          return false, rounds, trace, steps, at;
        }
      }
      finished := true;
    }

    /** One round over all workers, or as much of it as there is something from others to wait for. */
    method DrainRound(others: seq<seq<Step>>, first: nat)
      returns (j: nat, round: seq<bool>, ghost trace: seq<State>, ghost steps: seq<Step>, ghost looks: seq<nat>)
      requires Valid() && first <= |others|
      modifies this, config, sw, JobQueues(), SignalQueues(), Buffers(), Statistics(), model.subs.Keys
      ensures Valid() && Path(old(model), trace, steps, model) && first <= j <= |others|
      ensures forall o: object | o in model.subs.Keys :: o in old(model.subs.Keys) || fresh(o)
      ensures Looked(trace, steps, looks, round) && |round| <= |sw| && (|round| < |sw| ==> j == |others|)
    {
      hide Base, Shaped, Separate, SubsMatch, WorkersMatch, Looked, AnEntryRuns, Path;
      j, round, trace, steps, looks := first, [], [model], [], [];
      NoPath(model);
      NoLooks(trace, steps);
      while |round| < |sw|
        invariant Valid() && Path(old(model), trace, steps, model) && first <= j <= |others|
        invariant forall o: object | o in model.subs.Keys :: o in old(model.subs.Keys) || fresh(o)
        invariant |round| <= |sw| && Looked(trace, steps, looks, round)
        decreases |others| - j
      {
        if j == |others| {
          return;
        }
        ghost var s := model;
        ghost var more, taken := PerformAll(others[j]);
        j := j + 1;
        PathJoin(old(model), trace, steps, s, more, taken, model);
        LooksStay(trace, steps, more, taken, looks, round);
        trace, steps := trace + more[1..], steps + taken;
        var w := |round|;
        var free := EntriesAreFree(w);
        if free {
          s := model;
          var any := InventoryAndLook(w);
          PathEnds(old(model), trace, steps, s);
          PathStep(old(model), trace, steps, s, Inventory(w), model);
          OneMoreLook(trace, steps, model, looks, round, any);
          trace, looks, steps, round := trace + [model], looks + [|steps|], steps + [Inventory(w)], round + [any];
        }
      }
    }
  }
}
