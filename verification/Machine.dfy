/**
 * The server as a state machine: server/server.go, subscription.go and worker.go between the points where one
 * goroutine can overtake another. Subscriptions are identified by the references that registry and queues hold.
 */
module Machine {
  import opened Wire
  import opened Types
  import opened Tlvs
  import opened Packets
  import opened Subscription
  import opened SubscriptionClients
  import opened Jobs

  type Ref = SubscriptionClient

  const SUBSCRIPTION_DURATION: Time := 300 * NANOS

  datatype WorkerState = WorkerState(clients: Clients<Ref>, queue: seq<Ref>, signalingQueue: seq<Ref>, olderKernel: bool)

  /**
   * A goroutine running Start: spawned, in its select, in the ticker's branch, out of the loop, with `running`
   * cleared, and finished.
   */
  datatype Phase = IsSpawned | IsLooping | IsTicking | IsLeft | IsCleared | IsDone

  datatype Run = Run(sc: Ref, ctx: nat, phase: Phase)

  /** What happened, for statements over whole runs. */
  datatype Event =
    | GrantQueued(sc: Ref, period: Time, asked: u32, granted: u32, min: Time, max: Time, drained: bool)
    | Spawned(r: nat)
    | Cleared(r: nat)
    | CancelQueued(r: nat)

  /**
   * `done` has a flag for each context ever made, the last one being the current. `hash` and `period` are the
   * unknown functions behind findWorker and LogInterval.Duration. `sent`, `flat` and `log` are history.
   */
  datatype State = State(
    cfg: Config,
    hash: (PortIdentity, u16) -> nat,
    period: i8 -> Time,
    done: seq<bool>,
    workers: seq<WorkerState>,
    subs: map<Ref, Sub>,
    runs: seq<Run>,
    sent: map<Ref, seq<Message>>,
    flat: map<(PortIdentity, byte), Ref>,
    log: seq<Event>)

  /** What every state has: workers, a context, and only references that are known. */
  ghost predicate Shaped(s: State) {
    && 0 < |s.workers| && 0 < |s.done|
    && s.sent.Keys == s.subs.Keys
    && (forall sc | sc in s.subs :: s.subs[sc].worker < |s.workers|)
    && (forall r | 0 <= r < |s.runs| :: s.runs[r].sc in s.subs && s.runs[r].ctx < |s.done|)
    && (forall w, i | 0 <= w < |s.workers| && 0 <= i < |s.workers[w].queue| :: s.workers[w].queue[i] in s.subs)
    && (forall w, i | 0 <= w < |s.workers| && 0 <= i < |s.workers[w].signalingQueue| :: s.workers[w].signalingQueue[i] in s.subs)
    && (forall w, c, t | 0 <= w < |s.workers| && Find(s.workers[w].clients, c, t).Some? ::
          Find(s.workers[w].clients, c, t).value in s.subs)
  }

  ghost predicate Init(s: State) {
    && 0 < |s.workers| && s.done == [false]
    && (forall w | 0 <= w < |s.workers| :: s.workers[w] == WorkerState(map[], [], [], false))
    && s.subs == map[] && s.runs == [] && s.sent == map[] && s.flat == map[] && s.log == []
  }

  /** findWorker. */
  function FindWorker(s: State, client: PortIdentity, offset: u16): (w: nat)
    requires 0 < |s.workers|
    ensures w < |s.workers|
  {
    s.hash(client, offset) % |s.workers|
  }

  predicate Drained(s: State)
    requires 0 < |s.done|
  {
    s.done[|s.done| - 1]
  }

  /** The types a client can ask for by a signaling message. */
  predicate Signaled(t: byte) {
    t == MESSAGE_ANNOUNCE || t == MESSAGE_SYNC || t == MESSAGE_DELAY_RESP
  }

  /** time.Duration(DurationField) * time.Second never overflows. */
  function DurationOf(d: u32): i64 {
    d * NANOS
  }

  // ------------------------------------------------------- pieces of a step

  function SetSub(s: State, sc: Ref, u: Sub): State {
    s.(subs := s.subs[sc := u])
  }

  function SetWorker(s: State, w: nat, ws: WorkerState): State
    requires w < |s.workers|
  {
    s.(workers := s.workers[w := ws])
  }

  /** NewSubscriptionClient and RegisterSubscription. */
  function Enroll(s: State, sc: Ref, u: Sub): State
    requires u.worker < |s.workers|
  {
    var ws := s.workers[u.worker];
    var s1 := SetWorker(s, u.worker, ws.(clients := Register(ws.clients, u.client, u.typ, sc)));
    s1.(subs := s.subs[sc := u], sent := s.sent[sc := []],
        flat := if Signaled(u.typ) then s.flat[(u.client, u.typ) := sc] else s.flat)
  }

  /** Once. */
  function QueueJob(s: State, sc: Ref): State
    requires sc in s.subs && s.subs[sc].worker < |s.workers|
  {
    var w := s.subs[sc].worker;
    SetWorker(s, w, s.workers[w].(queue := s.workers[w].queue + [sc]))
  }

  /** OnceSignaling. */
  function QueueSignaling(s: State, sc: Ref): State
    requires sc in s.subs && s.subs[sc].worker < |s.workers|
  {
    var w := s.subs[sc].worker;
    SetWorker(s, w, s.workers[w].(signalingQueue := s.workers[w].signalingQueue + [sc]))
  }

  /** `go sc.Start(s.ctx)`. */
  function Spawn(s: State, sc: Ref): State
    requires 0 < |s.done|
  {
    s.(runs := s.runs + [Run(sc, |s.done| - 1, IsSpawned)], log := s.log + [Spawned(|s.runs|)])
  }

  function SetPhase(s: State, r: nat, phase: Phase): State
    requires r < |s.runs|
  {
    s.(runs := s.runs[r := s.runs[r].(phase := phase)])
  }

  // ----------------------------------------------------------- signaling TLVs

  /** The subscription a request is about: the one found running, renewed, or else a new one. */
  function Enlist(s: State, sg: SignalingPacket, v: Tlv, gclisa: Sockaddr, now: Time, made: Ref): (r: (State, Ref))
    requires Shaped(s) && v.RequestUnicast?
  {
    var id, t, w := sg.header.sourcePortIdentity, UnicastMsgType(v.msgTypeAndReserved), FindWorker(s, sg.header.sourcePortIdentity, 0);
    var expire, interval := now + DurationOf(v.durationField), s.period(v.logInterMessagePeriod);
    var found := Find(s.workers[w].clients, id, t);
    if found.None? || !s.subs[found.value].running then
      (Enroll(s, made, NewSub(s.cfg, id, w, Sockaddr(gclisa.ip, PORT_EVENT), gclisa, t, interval, expire, now)), made)
    else
      (SetSub(s, found.value, s.subs[found.value].(expire := expire, interval := interval, gclisa := gclisa)), found.value)
  }

  /** The limits, asked again at every request. */
  predicate WithinLimits(s: State, v: Tlv)
    requires v.RequestUnicast? && 0 < |s.done|
  {
    !(s.period(v.logInterMessagePeriod) < s.cfg.minSubInterval || DurationOf(v.durationField) > s.cfg.maxSubDuration || Drained(s))
  }

  /** sendSignalingGrant. */
  function Grant(s: State, sc: Ref, sg: SignalingPacket, v: Tlv, duration: u32): State
    requires v.RequestUnicast? && 0 < |s.done| && sc in s.subs && s.subs[sc].worker < |s.workers|
  {
    var u := UpdateSignalingGrant(s.subs[sc], sg, v.msgTypeAndReserved, v.logInterMessagePeriod, duration);
    var s1 := QueueSignaling(SetSub(s, sc, u), sc);
    s1.(log := s.log + [GrantQueued(sc, s.period(v.logInterMessagePeriod), v.durationField, duration,
                                    s.cfg.minSubInterval, s.cfg.maxSubDuration, Drained(s))])
  }

  /** The REQUEST_UNICAST_TRANSMISSION case of handleGeneralMessages. */
  function RequestStep(s: State, sg: SignalingPacket, v: Tlv, gclisa: Sockaddr, now: Time, made: Ref): State
    requires Shaped(s) && v.RequestUnicast?
  {
    if !Signaled(UnicastMsgType(v.msgTypeAndReserved)) then s
    else
      var (s1, sc) := Enlist(s, sg, v, gclisa, now, made);
      if !WithinLimits(s, v) then Grant(s1, sc, sg, v, 0)
      else
        var s2 := Grant(s1, sc, sg, v, v.durationField);
        if s2.subs[sc].running then s2 else Spawn(s2, sc)
  }

  /** The subscription a CANCEL_UNICAST_TRANSMISSION is about. */
  function CancelTarget(s: State, sg: SignalingPacket, v: Tlv): Option<Ref>
    requires Shaped(s) && v.CancelUnicast?
  {
    var id := sg.header.sourcePortIdentity;
    Find(s.workers[FindWorker(s, id, 0)].clients, id, UnicastMsgType(v.msgTypeAndFlags))
  }

  function CancelStep(s: State, sg: SignalingPacket, v: Tlv, now: Time): State
    requires Shaped(s) && v.CancelUnicast?
  {
    var found := CancelTarget(s, sg, v);
    if found.None? then s else SetSub(s, found.value, StopSub(s.subs[found.value], now))
  }

  // ------------------------------------------------------------ event messages

  /** The offset in the last ALTERNATE_RESPONSE_PORT TLV, 0 without one. */
  function WorkerOffset(ts: seq<Tlv>): u16 {
    if ts == [] then 0
    else if ts[|ts| - 1].AlternateResponsePort? then ts[|ts| - 1].offset
    else WorkerOffset(ts[..|ts| - 1])
  }

  function GeneralAddress(id: PortIdentity, eclisa: Sockaddr, was: Sockaddr): Sockaddr {
    if id.portNumber > 10 then eclisa else was.(port := PORT_GENERAL)
  }

  /** The first half of an sptp exchange: the subscription is there, made and spawned if need be. */
  function Bumped(s: State, p: SyncPacket, w: nat, eclisa: Sockaddr, now: Time, made: Ref): (r: (State, Ref))
    requires Shaped(s) && w < |s.workers|
  {
    var id, expire := p.header.sourcePortIdentity, now + SUBSCRIPTION_DURATION;
    var found := Find(s.workers[w].clients, id, MESSAGE_DELAY_REQ);
    if found.None? then
      (Spawn(Enroll(s, made, NewSub(s.cfg, id, w, eclisa, GeneralAddress(id, eclisa, eclisa), MESSAGE_DELAY_REQ,
                                    SUBSCRIPTION_DURATION, expire, now)), made), made)
    else
      (SetSub(s, found.value,
              s.subs[found.value].(expire := expire, eclisa := eclisa, gclisa := GeneralAddress(id, eclisa, s.subs[found.value].gclisa))),
       found.value)
  }

  /** An sptp exchange: the subscription is made or bumped, and a Sync and an Announce are to follow. */
  function ExchangeStep(s: State, p: SyncPacket, w: nat, rx: Time, eclisa: Sockaddr, now: Time, made: Ref): State
    requires Shaped(s) && w < |s.workers|
  {
    var (s1, sc) := Bumped(s, p, w, eclisa, now, made);
    var u := UpdateAnnounceDelayReq(s.cfg, UpdateSyncDelayReq(s1.subs[sc], rx, p.header.sequenceId),
                                    p.header.correctionField, p.header.sequenceId);
    QueueJob(SetSub(s1, sc, u), sc)
  }

  /** A delay request of a subscribed client; from anybody else it is ignored. */
  function ResponseStep(s: State, p: SyncPacket, w: nat, rx: Time): State
    requires Shaped(s) && w < |s.workers|
  {
    var found := Find(s.workers[w].clients, p.header.sourcePortIdentity, MESSAGE_DELAY_RESP);
    if found.None? then s
    else QueueJob(SetSub(s, found.value, UpdateDelayResp(s.subs[found.value], p.header, rx)), found.value)
  }

  /** The DELAY_REQ case of handleEventMessages, after the packet was decoded. */
  function DelayRequestStep(s: State, p: SyncPacket, rxTs: Time, eclisa: Sockaddr, now: Time, made: Ref): State
    requires Shaped(s)
  {
    if Drained(s) then s
    else
      var rx := if s.cfg.hardwareTimestamps then rxTs else rxTs + s.cfg.utcOffset;
      var w := FindWorker(s, p.header.sourcePortIdentity, WorkerOffset(p.tlvs));
      if p.header.flagField == FLAG_PROFILE_SPECIFIC1 + FLAG_UNICAST then ExchangeStep(s, p, w, rx, eclisa, now, made)
      else ResponseStep(s, p, w, rx)
  }

  // ------------------------------------------------------------------- runs

  function BeginStep(s: State, r: nat): State
    requires Shaped(s) && r < |s.runs|
  {
    var sc := s.runs[r].sc;
    var s1 := SetPhase(SetSub(s, sc, BeginRun(s.subs[sc])), r, IsLooping);
    if Periodic(s.subs[sc].typ) then QueueJob(s1, sc) else s1
  }

  /** The select took the ticker's case. */
  function SelectTickStep(s: State, r: nat): State
    requires r < |s.runs|
  {
    SetPhase(s, r, IsTicking)
  }

  /** Leaving the loop, with the subscription as u. */
  function LeaveStep(s: State, r: nat, u: Sub): State
    requires r < |s.runs|
  {
    SetPhase(SetSub(s, s.runs[r].sc, u), r, IsLeft)
  }

  /** Expired(), and then a job or the way out. */
  function TickStep(s: State, r: nat, now: Time): State
    requires Shaped(s) && r < |s.runs|
  {
    var sc := s.runs[r].sc;
    if Expired(s.subs[sc], now) then LeaveStep(s, r, s.subs[sc])
    else
      var s1 := SetPhase(SetSub(s, sc, TickRun(s.subs[sc])), r, IsLooping);
      if Periodic(s.subs[sc].typ) then QueueJob(s1, sc) else s1
  }

  /** The deferred setRunning(false). */
  function ClearStep(s: State, r: nat): State
    requires Shaped(s) && r < |s.runs|
  {
    var s1 := SetPhase(SetSub(s, s.runs[r].sc, ClearRunning(s.subs[s.runs[r].sc])), r, IsCleared);
    s1.(log := s.log + [Cleared(r)])
  }

  function FinishStep(s: State, r: nat): State
    requires Shaped(s) && r < |s.runs|
  {
    var sc := s.runs[r].sc;
    var s1 := SetPhase(s, r, IsDone);
    if s.subs[sc].typ == MESSAGE_DELAY_REQ then s1
    else
      var s2 := QueueSignaling(SetSub(s1, sc, UpdateSignalingCancel(s.subs[sc])), sc);
      s2.(log := s.log + [CancelQueued(r)])
  }

  // ---------------------------------------------------------------- workers

  /** The queue without its first job, and what that job sent put on record. */
  function PopJob(s: State, w: nat, olderKernel: bool, sc: Ref, ms: seq<Message>): State
    requires w < |s.workers| && s.workers[w].queue != [] && sc in s.sent
  {
    var s1 := SetWorker(s, w, s.workers[w].(queue := s.workers[w].queue[1..], olderKernel := olderKernel));
    s1.(sent := s.sent[sc := s.sent[sc] + ms])
  }

  function TakeJob(s: State, w: nat, o: Outcome): State
    requires Shaped(s) && w < |s.workers| && s.workers[w].queue != []
  {
    var ws := s.workers[w];
    var sc := ws.queue[0];
    var r := JobStep(s.cfg, ws.olderKernel, s.subs[sc], o);
    PopJob(SetSub(s, sc, r.sub), w, r.olderKernel, sc, r.sent)
  }

  function TakeSignaling(s: State, w: nat, ok: bool): State
    requires Shaped(s) && w < |s.workers| && s.workers[w].signalingQueue != []
  {
    var ws := s.workers[w];
    var sc := ws.signalingQueue[0];
    SetWorker(s, w, ws.(signalingQueue := ws.signalingQueue[1..]))
  }

  function RunningOnes(s: State): set<Ref> {
    set sc | sc in s.subs && s.subs[sc].running
  }

  function InventoryStep(s: State, w: nat): State
    requires Shaped(s) && w < |s.workers|
  {
    var ws := s.workers[w];
    var s1 := SetWorker(s, w, ws.(clients := Pruned(ws.clients, RunningOnes(s))));
    s1.(flat := map k | k in s.flat && (FindWorker(s, k.0, 0) == w ==> s.flat[k] in RunningOnes(s)) :: s.flat[k])
  }

  // ----------------------------------------------------------------- draining

  /** cancel() of the current context. */
  function DrainStep(s: State): State
    requires 0 < |s.done|
  {
    s.(done := s.done[|s.done| - 1 := true])
  }

  /** A new context, if the current one is cancelled. */
  function UndrainStep(s: State): State
    requires 0 < |s.done|
  {
    if Drained(s) then s.(done := s.done + [false]) else s
  }

  /** A reload takes over the dynamic settings; domain, clock identity and kind of timestamps need a restart. */
  function Reloaded(cfg: Config, read: Config): Config {
    read.(domainNumber := cfg.domainNumber, clockIdentity := cfg.clockIdentity, hardwareTimestamps := cfg.hardwareTimestamps)
  }

  // ------------------------------------------------------------------- steps

  datatype Step =
    | Request(sg: SignalingPacket, v: Tlv, gclisa: Sockaddr, now: Time, made: Ref)
    | CancelRequest(sg: SignalingPacket, v: Tlv, now: Time)
    | DelayRequest(p: SyncPacket, rxTs: Time, eclisa: Sockaddr, now: Time, made: Ref)
    | Begin(r: nat)
    | SelectTick(r: nat)
    | Tick(r: nat, now: Time)
    | TakeStop(r: nat)
    | CtxIsDone(r: nat)
    | Clear(r: nat)
    | Finish(r: nat)
    | Job(w: nat, o: Outcome)
    | SignalingJob(w: nat, ok: bool)
    | Inventory(w: nat)
    | Drain
    | Undrain
    | Reload(cfg: Config)

  /** Nobody waits with the lock of this subscription. */
  predicate Free(s: State, found: Option<Ref>) {
    found.Some? && found.value in s.subs ==> !s.subs[found.value].waiting
  }

  /** What a delay request takes the lock of: the subscription it bumps. */
  function Bumps(s: State, p: SyncPacket): Option<Ref>
    requires Shaped(s)
  {
    if Drained(s) || p.header.flagField != FLAG_PROFILE_SPECIFIC1 + FLAG_UNICAST then None
    else Find(s.workers[FindWorker(s, p.header.sourcePortIdentity, WorkerOffset(p.tlvs))].clients,
              p.header.sourcePortIdentity, MESSAGE_DELAY_REQ)
  }

  /** What a request takes the lock of: the subscription it asks whether it is running. */
  function Renews(s: State, sg: SignalingPacket, v: Tlv): Option<Ref>
    requires Shaped(s) && v.RequestUnicast?
  {
    var id := sg.header.sourcePortIdentity;
    if !Signaled(UnicastMsgType(v.msgTypeAndReserved)) then None
    else Find(s.workers[FindWorker(s, id, 0)].clients, id, UnicastMsgType(v.msgTypeAndReserved))
  }

  /**
   * When a step can happen: what a handler gets has been decoded, and the lock that a step takes is free. That lock
   * is held between steps only by a Stop that waits.
   */
  ghost predicate Enabled(s: State, step: Step)
    requires Shaped(s)
  {
    match step
    case Request(sg, v, _, _, made) =>
      v.RequestUnicast? && made !in s.subs && MsgType(sg.header.sdoIdAndMsgType) == MESSAGE_SIGNALING &&
      Free(s, Renews(s, sg, v))
    case CancelRequest(sg, v, _) => v.CancelUnicast? && Free(s, CancelTarget(s, sg, v))
    case DelayRequest(p, _, _, _, made) => made !in s.subs && Free(s, Bumps(s, p))
    case Begin(r) => r < |s.runs| && s.runs[r].phase == IsSpawned && Free(s, Some(s.runs[r].sc))
    case SelectTick(r) => r < |s.runs| && s.runs[r].phase == IsLooping
    case Tick(r, _) => r < |s.runs| && s.runs[r].phase == IsTicking && Free(s, Some(s.runs[r].sc))
    case TakeStop(r) => r < |s.runs| && s.runs[r].phase == IsLooping && s.subs[s.runs[r].sc].stop
    case CtxIsDone(r) => r < |s.runs| && s.runs[r].phase == IsLooping && s.done[s.runs[r].ctx]
    case Clear(r) => r < |s.runs| && s.runs[r].phase == IsLeft && Free(s, Some(s.runs[r].sc))
    case Finish(r) => r < |s.runs| && s.runs[r].phase == IsCleared
    case Job(w, _) => w < |s.workers| && s.workers[w].queue != []
    case SignalingJob(w, _) => w < |s.workers| && s.workers[w].signalingQueue != []
    case Inventory(w) =>
      w < |s.workers| && forall c, t | Find(s.workers[w].clients, c, t).Some? :: Free(s, Find(s.workers[w].clients, c, t))
    case Drain => true
    case Undrain => true
    case Reload(_) => true
  }

  ghost function Next(s: State, step: Step): State
    requires Shaped(s) && Enabled(s, step)
  {
    match step
    case Request(sg, v, gclisa, now, made) => RequestStep(s, sg, v, gclisa, now, made)
    case CancelRequest(sg, v, now) => CancelStep(s, sg, v, now)
    case DelayRequest(p, rxTs, eclisa, now, made) => DelayRequestStep(s, p, rxTs, eclisa, now, made)
    case Begin(r) => BeginStep(s, r)
    case SelectTick(r) => SelectTickStep(s, r)
    case Tick(r, now) => TickStep(s, r, now)
    case TakeStop(r) => LeaveStep(s, r, TakeToken(s.subs[s.runs[r].sc]))
    case CtxIsDone(r) => LeaveStep(s, r, s.subs[s.runs[r].sc])
    case Clear(r) => ClearStep(s, r)
    case Finish(r) => FinishStep(s, r)
    case Job(w, o) => TakeJob(s, w, o)
    case SignalingJob(w, ok) => TakeSignaling(s, w, ok)
    case Inventory(w) => InventoryStep(s, w)
    case Drain => DrainStep(s)
    case Undrain => UndrainStep(s)
    case Reload(cfg) => s.(cfg := Reloaded(s.cfg, cfg))
  }
}
