/** What every step of the server keeps, and what therefore holds in every reachable state. */
module Invariants {
  import opened Wire
  import opened Types
  import opened Tlvs
  import opened Packets
  import opened Subscription
  import opened Jobs
  import opened Machine

  // ------------------------------------------------------------- registry

  predicate KnownType(t: byte) {
    Signaled(t) || t == MESSAGE_DELAY_REQ
  }

  /** An entry sits with the worker its client hashes to, under its own type and client, using that worker's queues. */
  ghost predicate EntryOk(s: State, w: nat, c: PortIdentity, t: byte)
    requires 0 < |s.workers| && w < |s.workers|
  {
    var found := Find(s.workers[w].clients, c, t);
    found.Some? ==>
      && found.value in s.subs
      && s.subs[found.value].typ == t && s.subs[found.value].client == c && s.subs[found.value].worker == w
      && (Signaled(t) ==> w == FindWorker(s, c, 0))
  }

  function FlatGet(s: State, c: PortIdentity, t: byte): Option<Ref> {
    if (c, t) in s.flat then Some(s.flat[(c, t)]) else None
  }

  /** The sharded registry, looked up as the handlers do. */
  function Lookup(s: State, c: PortIdentity, t: byte): Option<Ref>
    requires 0 < |s.workers|
  {
    Find(s.workers[FindWorker(s, c, 0)].clients, c, t)
  }

  ghost predicate RegistryOk(s: State) {
    && 0 < |s.workers|
    && (forall w, c, t | 0 <= w < |s.workers| :: EntryOk(s, w, c, t))
    && (forall c, t | Signaled(t) :: Lookup(s, c, t) == FlatGet(s, c, t))
  }

  // ---------------------------------------------------- what only ever grows

  /** A subscription keeps its client, type, worker and stamps; once ready to signal it stays so. */
  ghost predicate Evolves(a: Sub, b: Sub) {
    && b.client == a.client && b.typ == a.typ && b.worker == a.worker && StampsOf(b) == StampsOf(a)
    && (PacketsFit(a) ==> PacketsFit(b))
    && (SignalingReady(a) ==> SignalingReady(b))
  }

  ghost predicate Grows(s: State, s': State) {
    && s'.hash == s.hash && s'.period == s.period && |s'.workers| == |s.workers|
    && |s.done| <= |s'.done| && (forall k | 0 <= k < |s.done| && s.done[k] :: s'.done[k])
    && |s.runs| <= |s'.runs| && (forall r | 0 <= r < |s.runs| :: s'.runs[r].sc == s.runs[r].sc && s'.runs[r].ctx == s.runs[r].ctx)
    && (forall sc | sc in s.subs :: sc in s'.subs && Evolves(s.subs[sc], s'.subs[sc]))
  }

  // ------------------------------------------------- what is queued and spawned

  ghost predicate SubOk(s: State, sc: Ref)
    requires sc in s.subs
  {
    KnownType(s.subs[sc].typ) && PacketsFit(s.subs[sc]) && s.subs[sc].worker < |s.workers|
  }

  /** Ready to be signaled by worker w. */
  ghost predicate Signalable(s: State, w: nat, sc: Ref) {
    sc in s.subs && s.subs[sc].worker == w && s.subs[sc].typ != MESSAGE_DELAY_REQ && SignalingReady(s.subs[sc])
  }

  ghost predicate Queueable(s: State, w: nat, sc: Ref) {
    sc in s.subs && s.subs[sc].worker == w
  }

  /** A run belongs to a known context, and unless it is an sptp one its subscription has been granted before. */
  ghost predicate RunOk(s: State, r: nat)
    requires r < |s.runs|
  {
    && s.runs[r].sc in s.subs && s.runs[r].ctx < |s.done|
    && (s.subs[s.runs[r].sc].typ != MESSAGE_DELAY_REQ ==> SignalingReady(s.subs[s.runs[r].sc]))
  }

  ghost predicate WorkOk(s: State) {
    && s.sent.Keys == s.subs.Keys
    && (forall sc | sc in s.subs :: SubOk(s, sc))
    && (forall r | 0 <= r < |s.runs| :: RunOk(s, r))
    && (forall w, sc | 0 <= w < |s.workers| && sc in s.workers[w].queue :: Queueable(s, w, sc))
    && (forall w, sc | 0 <= w < |s.workers| && sc in s.workers[w].signalingQueue :: Signalable(s, w, sc))
  }

  // -------------------------------------------------------------- contexts

  /** Every context but the current one is cancelled. */
  ghost predicate ContextsOk(s: State) {
    && 0 < |s.done|
    && (forall k | 0 <= k < |s.done| - 1 :: s.done[k])
  }

  ghost predicate Base(s: State) {
    RegistryOk(s) && WorkOk(s) && ContextsOk(s)
  }

  lemma BaseIsShaped(s: State)
    requires Base(s)
    ensures Shaped(s)
  {
    forall w, c, t | 0 <= w < |s.workers| && Find(s.workers[w].clients, c, t).Some?
      ensures Find(s.workers[w].clients, c, t).value in s.subs
    {
      assert EntryOk(s, w, c, t);
    }
    forall sc | sc in s.subs ensures s.subs[sc].worker < |s.workers| {
      assert SubOk(s, sc);
    }
    forall r | 0 <= r < |s.runs| ensures s.runs[r].sc in s.subs && s.runs[r].ctx < |s.done| {
      assert RunOk(s, r);
    }
    forall w, i | 0 <= w < |s.workers| && 0 <= i < |s.workers[w].queue| ensures s.workers[w].queue[i] in s.subs {
      assert Queueable(s, w, s.workers[w].queue[i]);
    }
    forall w, i | 0 <= w < |s.workers| && 0 <= i < |s.workers[w].signalingQueue| ensures s.workers[w].signalingQueue[i] in s.subs {
      assert Signalable(s, w, s.workers[w].signalingQueue[i]);
    }
  }

  lemma InitIsBase(s: State)
    requires Init(s)
    ensures Base(s)
  {
  }

  // ------------------------------------------------------------ frame lemmas

  /** Registry and flat table survive anything that keeps both and only lets subscriptions grow. */
  lemma RegistryFrame(s: State, s': State)
    requires RegistryOk(s) && Grows(s, s') && s'.flat == s.flat
    requires forall w | 0 <= w < |s.workers| :: s'.workers[w].clients == s.workers[w].clients
    ensures RegistryOk(s')
  {
    hide Evolves, PacketsFit, SignalingReady, StampsOf;
    forall w, c, t | 0 <= w < |s'.workers| ensures EntryOk(s', w, c, t) {
      assert EntryOk(s, w, c, t);
      EvolvesKeepsNames(s, s');
    }
    forall c, t | Signaled(t) ensures Lookup(s', c, t) == FlatGet(s', c, t) {
      assert Lookup(s, c, t) == FlatGet(s, c, t);
    }
  }

  lemma EvolvesKeepsNames(s: State, s': State)
    requires Grows(s, s')
    ensures forall sc | sc in s.subs ::
              sc in s'.subs && s'.subs[sc].client == s.subs[sc].client && s'.subs[sc].typ == s.subs[sc].typ &&
              s'.subs[sc].worker == s.subs[sc].worker
  {
    hide PacketsFit, SignalingReady, StampsOf;
  }

  /** What a step may add to queues, runs and subscriptions. */
  lemma WorkFrame(s: State, s': State)
    requires WorkOk(s) && Grows(s, s') && s'.sent.Keys == s'.subs.Keys
    requires forall sc | sc in s'.subs && sc !in s.subs :: SubOk(s', sc)
    requires forall r | |s.runs| <= r < |s'.runs| :: RunOk(s', r)
    requires forall w, sc | 0 <= w < |s.workers| && sc in s'.workers[w].queue :: sc in s.workers[w].queue || Queueable(s', w, sc)
    requires forall w, sc | 0 <= w < |s.workers| && sc in s'.workers[w].signalingQueue ::
               sc in s.workers[w].signalingQueue || Signalable(s', w, sc)
    ensures WorkOk(s')
  {
    hide PacketsFit, SignalingReady, StampsOf;
    forall sc | sc in s'.subs ensures SubOk(s', sc) {
      if sc in s.subs {
        assert SubOk(s, sc);
        assert Evolves(s.subs[sc], s'.subs[sc]);
      }
    }
    forall r | 0 <= r < |s'.runs| ensures RunOk(s', r) {
      if r < |s.runs| {
        assert RunOk(s, r);
        assert Evolves(s.subs[s.runs[r].sc], s'.subs[s.runs[r].sc]);
      }
    }
    forall w, sc | 0 <= w < |s'.workers| && sc in s'.workers[w].queue ensures Queueable(s', w, sc) {
      if sc in s.workers[w].queue {
        assert Queueable(s, w, sc);
        assert Evolves(s.subs[sc], s'.subs[sc]);
      }
    }
    forall w, sc | 0 <= w < |s'.workers| && sc in s'.workers[w].signalingQueue ensures Signalable(s', w, sc) {
      if sc in s.workers[w].signalingQueue {
        assert Signalable(s, w, sc);
        assert Evolves(s.subs[sc], s'.subs[sc]);
      }
    }
  }

  lemma GrowsTransitive(a: State, b: State, c: State)
    requires Grows(a, b) && Grows(b, c)
    ensures Grows(a, c)
  {
    hide PacketsFit, SignalingReady, StampsOf;
    forall sc | sc in a.subs ensures sc in c.subs && Evolves(a.subs[sc], c.subs[sc]) {
      assert Evolves(a.subs[sc], b.subs[sc]) && Evolves(b.subs[sc], c.subs[sc]);
    }
  }

  // --------------------------------------------------------- pieces of a step

  lemma SetSubKeeps(s: State, sc: Ref, u: Sub)
    requires Base(s) && sc in s.subs && Evolves(s.subs[sc], u)
    ensures Base(SetSub(s, sc, u)) && Grows(s, SetSub(s, sc, u))
  {
    hide PacketsFit, SignalingReady, StampsOf, EntryOk, SubOk, RunOk, Queueable, Signalable, Lookup, FlatGet;
    var s' := SetSub(s, sc, u);
    assert Grows(s, s');
    RegistryFrame(s, s');
    WorkFrame(s, s');
  }

  lemma QueueJobKeeps(s: State, sc: Ref)
    requires Base(s) && sc in s.subs && s.subs[sc].worker < |s.workers|
    ensures Base(QueueJob(s, sc)) && Grows(s, QueueJob(s, sc))
  {
    hide PacketsFit, SignalingReady, StampsOf, EntryOk, SubOk, RunOk, Signalable, Lookup, FlatGet;
    var s' := QueueJob(s, sc);
    assert Grows(s, s');
    RegistryFrame(s, s');
    WorkFrame(s, s');
  }

  lemma QueueSignalingKeeps(s: State, sc: Ref)
    requires Base(s) && sc in s.subs && s.subs[sc].worker < |s.workers|
    requires s.subs[sc].typ != MESSAGE_DELAY_REQ && SignalingReady(s.subs[sc])
    ensures Base(QueueSignaling(s, sc)) && Grows(s, QueueSignaling(s, sc))
  {
    hide PacketsFit, SignalingReady, StampsOf, EntryOk, SubOk, RunOk, Queueable, Lookup, FlatGet;
    var s' := QueueSignaling(s, sc);
    assert Grows(s, s');
    RegistryFrame(s, s');
    WorkFrame(s, s');
  }

  lemma SpawnKeeps(s: State, sc: Ref)
    requires Base(s) && sc in s.subs && (s.subs[sc].typ != MESSAGE_DELAY_REQ ==> SignalingReady(s.subs[sc]))
    ensures Base(Spawn(s, sc)) && Grows(s, Spawn(s, sc))
  {
    hide PacketsFit, SignalingReady, StampsOf, EntryOk, SubOk, Queueable, Signalable, Lookup, FlatGet;
    var s' := Spawn(s, sc);
    assert Grows(s, s');
    RegistryFrame(s, s');
    WorkFrame(s, s');
  }

  lemma SetPhaseKeeps(s: State, r: nat, phase: Phase)
    requires Base(s) && r < |s.runs|
    ensures Base(SetPhase(s, r, phase)) && Grows(s, SetPhase(s, r, phase))
  {
    hide PacketsFit, SignalingReady, StampsOf, EntryOk, SubOk, Queueable, Signalable, Lookup, FlatGet;
    var s' := SetPhase(s, r, phase);
    assert Grows(s, s');
    RegistryFrame(s, s');
    WorkFrame(s, s');
  }

  /** History does not matter to what is kept here. */
  lemma LogKeeps(s: State, log: seq<Event>)
    requires Base(s)
    ensures Base(s.(log := log)) && Grows(s, s.(log := log))
  {
    hide PacketsFit, SignalingReady, StampsOf, EntryOk, SubOk, RunOk, Queueable, Signalable, Lookup, FlatGet;
    var s' := s.(log := log);
    assert Grows(s, s');
    RegistryFrame(s, s');
    WorkFrame(s, s');
  }

  lemma EnrollKeepsRegistry(s: State, sc: Ref, u: Sub)
    requires RegistryOk(s) && sc !in s.subs && u.worker < |s.workers|
    requires Signaled(u.typ) ==> u.worker == FindWorker(s, u.client, 0)
    ensures RegistryOk(Enroll(s, sc, u))
  {
    hide Signaled, Register, Find;
    var s' := Enroll(s, sc, u);
    forall w, c, t | 0 <= w < |s'.workers| ensures EntryOk(s', w, c, t) {
      assert EntryOk(s, w, c, t);
      RegisterIsFlat(s.workers[u.worker].clients, u.client, u.typ, sc, c, t);
    }
    forall c, t | Signaled(t) ensures Lookup(s', c, t) == FlatGet(s', c, t) {
      assert Lookup(s, c, t) == FlatGet(s, c, t);
      RegisterIsFlat(s.workers[u.worker].clients, u.client, u.typ, sc, c, t);
    }
  }

  lemma EnrollKeeps(s: State, sc: Ref, u: Sub)
    requires Base(s) && sc !in s.subs && u.worker < |s.workers| && KnownType(u.typ) && PacketsFit(u)
    requires Signaled(u.typ) ==> u.worker == FindWorker(s, u.client, 0)
    ensures Base(Enroll(s, sc, u)) && Grows(s, Enroll(s, sc, u))
  {
    hide PacketsFit, SignalingReady, RegistryOk, Register;
    var s' := Enroll(s, sc, u);
    assert Grows(s, s');
    EnrollKeepsRegistry(s, sc, u);
    WorkFrame(s, s');
  }

  // ------------------------------------------------------------- the steps

  lemma SubFits(s: State, sc: Ref)
    requires Base(s) && sc in s.subs
    ensures PacketsFit(s.subs[sc])
  {
    assert SubOk(s, sc);
  }

  lemma NewSubFits(cfg: Config, client: PortIdentity, worker: nat, e: Sockaddr, g: Sockaddr, typ: byte, i: Time, exp: Time, now: Time)
    ensures PacketsFit(NewSub(cfg, client, worker, e, g, typ, i, exp, now))
  {
  }

  /** Changes to a subscription that touch neither its names nor its signaling packet. */
  lemma PlainUpdateEvolves(a: Sub, b: Sub)
    requires b.client == a.client && b.typ == a.typ && b.worker == a.worker && b.signaling == a.signaling
    requires SameFrames(a, b)
    ensures Evolves(a, b)
  {
    if PacketsFit(a) {
      SameFramesFit(a, b);
    }
    hide PacketsFit, StampsOf;
  }

  /** A renewal, and the bump of an sptp subscription, change no packet; only the latter moves where Syncs go. */
  lemma RenewalEvolves(a: Sub, expire: Time, interval: Time, gclisa: Sockaddr)
    ensures Evolves(a, a.(expire := expire, interval := interval, gclisa := gclisa))
  {
    PlainUpdateEvolves(a, a.(expire := expire, interval := interval, gclisa := gclisa));
  }

  lemma BumpEvolves(a: Sub, expire: Time, eclisa: Sockaddr, gclisa: Sockaddr)
    requires a.typ == MESSAGE_DELAY_REQ
    ensures Evolves(a, a.(expire := expire, eclisa := eclisa, gclisa := gclisa))
  {
    PlainUpdateEvolves(a, a.(expire := expire, eclisa := eclisa, gclisa := gclisa));
  }

  /** The subscription a request ends up with belongs to the client and type it was asked for. */
  lemma EnlistKeeps(s: State, sg: SignalingPacket, v: Tlv, gclisa: Sockaddr, now: Time, made: Ref)
    requires Base(s) && Shaped(s) && v.RequestUnicast? && made !in s.subs && Signaled(UnicastMsgType(v.msgTypeAndReserved))
    ensures var r := Enlist(s, sg, v, gclisa, now, made);
            && Base(r.0) && Grows(s, r.0) && r.1 in r.0.subs
            && r.0.subs[r.1].client == sg.header.sourcePortIdentity
            && r.0.subs[r.1].typ == UnicastMsgType(v.msgTypeAndReserved)
            && r.0.subs[r.1].worker < |r.0.workers|
            && r.0.cfg == s.cfg && r.0.done == s.done && r.0.runs == s.runs && r.0.log == s.log && r.0.period == s.period
  {
    hide PacketsFit, SignalingReady, StampsOf, Evolves, Base, SetSub, Enroll;
    var id, t, w := sg.header.sourcePortIdentity, UnicastMsgType(v.msgTypeAndReserved), FindWorker(s, sg.header.sourcePortIdentity, 0);
    var found := Find(s.workers[w].clients, id, t);
    if found.None? || !s.subs[found.value].running {
      var expire, interval := now + DurationOf(v.durationField), s.period(v.logInterMessagePeriod);
      var u := NewSub(s.cfg, id, w, Sockaddr(gclisa.ip, PORT_EVENT), gclisa, t, interval, expire, now);
      NewSubFits(s.cfg, id, w, Sockaddr(gclisa.ip, PORT_EVENT), gclisa, t, interval, expire, now);
      EnrollKeeps(s, made, u);
      EnrollEffect(s, made, u);
    } else {
      var sc := found.value;
      var u := s.subs[sc].(expire := now + DurationOf(v.durationField), interval := s.period(v.logInterMessagePeriod), gclisa := gclisa);
      EntryFound(s, w, id, t);
      RenewalEvolves(s.subs[sc], now + DurationOf(v.durationField), s.period(v.logInterMessagePeriod), gclisa);
      SetSubKeeps(s, sc, u);
      SetSubEffect(s, sc, u);
    }
  }

  lemma EntryFound(s: State, w: nat, c: PortIdentity, t: byte)
    requires Base(s) && w < |s.workers| && Find(s.workers[w].clients, c, t).Some?
    ensures var sc := Find(s.workers[w].clients, c, t).value;
            && sc in s.subs && s.subs[sc].typ == t && s.subs[sc].client == c && s.subs[sc].worker == w
  {
    assert EntryOk(s, w, c, t);
  }

  lemma SetSubEffect(s: State, sc: Ref, u: Sub)
    ensures SetSub(s, sc, u) == s.(subs := s.subs[sc := u])
  {
  }

  lemma EnrollEffect(s: State, sc: Ref, u: Sub)
    requires u.worker < |s.workers|
    ensures var s' := Enroll(s, sc, u);
            && sc in s'.subs && s'.subs[sc] == u && |s'.workers| == |s.workers|
            && s'.cfg == s.cfg && s'.done == s.done && s'.runs == s.runs && s'.log == s.log && s'.period == s.period
            && (forall w | 0 <= w < |s.workers| ::
                  s'.workers[w].queue == s.workers[w].queue && s'.workers[w].signalingQueue == s.workers[w].signalingQueue)
  {
  }

  lemma GrantKeeps(s: State, sc: Ref, sg: SignalingPacket, v: Tlv, duration: u32)
    requires Base(s) && 0 < |s.done| && v.RequestUnicast? && sc in s.subs && s.subs[sc].worker < |s.workers|
    requires MsgType(sg.header.sdoIdAndMsgType) == MESSAGE_SIGNALING && sg.header.sourcePortIdentity == s.subs[sc].client
    requires UnicastMsgType(v.msgTypeAndReserved) == s.subs[sc].typ && Signaled(s.subs[sc].typ)
    ensures var s' := Grant(s, sc, sg, v, duration);
            && Base(s') && Grows(s, s') && sc in s'.subs && SignalingReady(s'.subs[sc])
  {
    hide SignalingReady, Base, QueueSignaling, SetSub, Grows;
    var u := UpdateSignalingGrant(s.subs[sc], sg, v.msgTypeAndReserved, v.logInterMessagePeriod, duration);
    GrantIsReady(s.subs[sc], sg, v.msgTypeAndReserved, v.logInterMessagePeriod, duration);
    assert Evolves(s.subs[sc], u);
    SetSubKeeps(s, sc, u);
    SetSubEffect(s, sc, u);
    var s1 := SetSub(s, sc, u);
    QueueSignalingKeeps(s1, sc);
    var s2 := QueueSignaling(s1, sc);
    LogKeeps(s2, Grant(s, sc, sg, v, duration).log);
    GrowsTransitive(s, s1, s2);
    GrowsTransitive(s, s2, Grant(s, sc, sg, v, duration));
    QueueSignalingEffect(s1, sc);
  }

  lemma QueueSignalingEffect(s: State, sc: Ref)
    requires sc in s.subs && s.subs[sc].worker < |s.workers|
    ensures QueueSignaling(s, sc) == s.(workers := QueueSignaling(s, sc).workers)
    ensures QueueJob(s, sc) == s.(workers := QueueJob(s, sc).workers)
  {
  }

  lemma GrantEffect(s: State, sc: Ref, sg: SignalingPacket, v: Tlv, duration: u32)
    requires v.RequestUnicast? && 0 < |s.done| && sc in s.subs && s.subs[sc].worker < |s.workers|
    ensures var s' := Grant(s, sc, sg, v, duration);
            && s' == s.(workers := s'.workers, subs := s'.subs, log := s'.log)
            && s'.subs.Keys == s.subs.Keys
            && s'.subs[sc].running == s.subs[sc].running && s'.subs[sc].typ == s.subs[sc].typ
  {
  }

  lemma RequestKeeps(s: State, sg: SignalingPacket, v: Tlv, gclisa: Sockaddr, now: Time, made: Ref)
    requires Base(s) && Shaped(s) && Enabled(s, Request(sg, v, gclisa, now, made))
    ensures var s' := RequestStep(s, sg, v, gclisa, now, made); Base(s') && Grows(s, s')
  {
    hide Base, Grows, Enlist, Grant, Spawn, WithinLimits;
    if Signaled(UnicastMsgType(v.msgTypeAndReserved)) {
      EnlistKeeps(s, sg, v, gclisa, now, made);
      var (s1, sc) := Enlist(s, sg, v, gclisa, now, made);
      var duration := if WithinLimits(s, v) then v.durationField else 0;
      GrantKeeps(s1, sc, sg, v, duration);
      GrantEffect(s1, sc, sg, v, duration);
      var s2 := Grant(s1, sc, sg, v, duration);
      GrowsTransitive(s, s1, s2);
      if WithinLimits(s, v) && !s2.subs[sc].running {
        SpawnKeeps(s2, sc);
        GrowsTransitive(s, s2, Spawn(s2, sc));
      }
    } else {
      GrowsReflexive(s);
    }
  }

  lemma GrowsReflexive(s: State)
    ensures Grows(s, s)
  {
  }

  lemma CancelKeeps(s: State, sg: SignalingPacket, v: Tlv, now: Time)
    requires Base(s) && Shaped(s) && v.CancelUnicast?
    ensures var s' := CancelStep(s, sg, v, now); Base(s') && Grows(s, s')
  {
    hide Base, Grows;
    var found := CancelTarget(s, sg, v);
    if found.Some? {
      PlainUpdateEvolves(s.subs[found.value], StopSub(s.subs[found.value], now));
      SetSubKeeps(s, found.value, StopSub(s.subs[found.value], now));
    } else {
      GrowsReflexive(s);
    }
  }

  /** A change of one subscription and a job for it. */
  lemma UpdateAndQueueKeeps(s: State, sc: Ref, u: Sub)
    requires Base(s) && sc in s.subs && Evolves(s.subs[sc], u)
    ensures u.worker < |s.workers|
    ensures var s' := QueueJob(SetSub(s, sc, u), sc); Base(s') && Grows(s, s')
  {
    hide Grows, PacketsFit, SignalingReady, QueueJob, SetSub;
    assert SubOk(s, sc);
    SetSubKeeps(s, sc, u);
    SetSubEffect(s, sc, u);
    QueueJobKeeps(SetSub(s, sc, u), sc);
    GrowsTransitive(s, SetSub(s, sc, u), QueueJob(SetSub(s, sc, u), sc));
  }

  lemma ExchangeUpdateEvolves(cfg: Config, a: Sub, rx: Time, seqId: u16, correction: i64)
    ensures Evolves(a, UpdateAnnounceDelayReq(cfg, UpdateSyncDelayReq(a, rx, seqId), correction, seqId))
  {
    PlainUpdateEvolves(a, UpdateAnnounceDelayReq(cfg, UpdateSyncDelayReq(a, rx, seqId), correction, seqId));
  }

  lemma BumpedKeeps(s: State, p: SyncPacket, w: nat, eclisa: Sockaddr, now: Time, made: Ref)
    requires Base(s) && Shaped(s) && w < |s.workers| && made !in s.subs
    ensures var r := Bumped(s, p, w, eclisa, now, made); Base(r.0) && Grows(s, r.0) && r.1 in r.0.subs && r.0.cfg == s.cfg
  {
    hide Base, Grows, SetSub, Enroll, PacketsFit, StampsOf, Evolves;
    var id, expire := p.header.sourcePortIdentity, now + SUBSCRIPTION_DURATION;
    var found := Find(s.workers[w].clients, id, MESSAGE_DELAY_REQ);
    if found.None? {
      var u := NewSub(s.cfg, id, w, eclisa, GeneralAddress(id, eclisa, eclisa), MESSAGE_DELAY_REQ, SUBSCRIPTION_DURATION, expire, now);
      NewSubFits(s.cfg, id, w, eclisa, GeneralAddress(id, eclisa, eclisa), MESSAGE_DELAY_REQ, SUBSCRIPTION_DURATION, expire, now);
      EnrollKeeps(s, made, u);
      EnrollEffect(s, made, u);
      SpawnKeeps(Enroll(s, made, u), made);
      GrowsTransitive(s, Enroll(s, made, u), Spawn(Enroll(s, made, u), made));
    } else {
      var sc := found.value;
      var u := s.subs[sc].(expire := expire, eclisa := eclisa, gclisa := GeneralAddress(id, eclisa, s.subs[sc].gclisa));
      EntryFound(s, w, id, MESSAGE_DELAY_REQ);
      BumpEvolves(s.subs[sc], expire, eclisa, GeneralAddress(id, eclisa, s.subs[sc].gclisa));
      SetSubKeeps(s, sc, u);
      SetSubEffect(s, sc, u);
    }
  }

  lemma ExchangeIsBump(s: State, p: SyncPacket, w: nat, rx: Time, eclisa: Sockaddr, now: Time, made: Ref)
    requires Shaped(s) && w < |s.workers|
    ensures var (s1, sc) := Bumped(s, p, w, eclisa, now, made);
            && sc in s1.subs && s1.subs[sc].worker < |s1.workers|
            && ExchangeStep(s, p, w, rx, eclisa, now, made) ==
               QueueJob(SetSub(s1, sc, UpdateAnnounceDelayReq(s.cfg, UpdateSyncDelayReq(s1.subs[sc], rx, p.header.sequenceId),
                                                              p.header.correctionField, p.header.sequenceId)), sc)
  {
  }

  lemma DelayRequestKeeps(s: State, p: SyncPacket, rxTs: Time, eclisa: Sockaddr, now: Time, made: Ref)
    requires Base(s) && Shaped(s) && made !in s.subs
    ensures var s' := DelayRequestStep(s, p, rxTs, eclisa, now, made); Base(s') && Grows(s, s')
  {
    hide Base, Grows, Bumped, ExchangeStep, Evolves;
    var rx := if s.cfg.hardwareTimestamps then rxTs else rxTs + s.cfg.utcOffset;
    var w := FindWorker(s, p.header.sourcePortIdentity, WorkerOffset(p.tlvs));
    if Drained(s) {
      GrowsReflexive(s);
    } else if p.header.flagField == FLAG_PROFILE_SPECIFIC1 + FLAG_UNICAST {
      var (s1, sc) := Bumped(s, p, w, eclisa, now, made);
      BumpedKeeps(s, p, w, eclisa, now, made);
      ExchangeIsBump(s, p, w, rx, eclisa, now, made);
      ExchangeUpdateEvolves(s.cfg, s1.subs[sc], rx, p.header.sequenceId, p.header.correctionField);
      var u := UpdateAnnounceDelayReq(s.cfg, UpdateSyncDelayReq(s1.subs[sc], rx, p.header.sequenceId),
                                      p.header.correctionField, p.header.sequenceId);
      UpdateAndQueueKeeps(s1, sc, u);
      GrowsTransitive(s, s1, QueueJob(SetSub(s1, sc, u), sc));
    } else {
      var found := Find(s.workers[w].clients, p.header.sourcePortIdentity, MESSAGE_DELAY_RESP);
      if found.Some? {
        PlainUpdateEvolves(s.subs[found.value], UpdateDelayResp(s.subs[found.value], p.header, rx));
        UpdateAndQueueKeeps(s, found.value, UpdateDelayResp(s.subs[found.value], p.header, rx));
      } else {
        GrowsReflexive(s);
      }
    }
  }

  lemma BeginKeeps(s: State, r: nat)
    requires Base(s) && Shaped(s) && r < |s.runs|
    ensures var s' := BeginStep(s, r); Base(s') && Grows(s, s')
  {
    hide Base, Grows, SetSub, SetPhase, QueueJob;
    var sc := s.runs[r].sc;
    var u := BeginRun(s.subs[sc]);
    PlainUpdateEvolves(s.subs[sc], u);
    SetSubKeeps(s, sc, u);
    SetSubEffect(s, sc, u);
    var s1 := SetSub(s, sc, u);
    SetPhaseKeeps(s1, r, IsLooping);
    SetPhaseEffect(s1, r, IsLooping);
    var s2 := SetPhase(s1, r, IsLooping);
    GrowsTransitive(s, s1, s2);
    if Periodic(s.subs[sc].typ) {
      QueueJobKeeps(s2, sc);
      GrowsTransitive(s, s2, QueueJob(s2, sc));
    }
  }

  lemma SetPhaseEffect(s: State, r: nat, phase: Phase)
    requires r < |s.runs|
    ensures SetPhase(s, r, phase) == s.(runs := s.runs[r := s.runs[r].(phase := phase)])
  {
  }

  lemma LeaveKeeps(s: State, r: nat, u: Sub)
    requires Base(s) && r < |s.runs| && s.runs[r].sc in s.subs
    requires u == s.subs[s.runs[r].sc] || u == TakeToken(s.subs[s.runs[r].sc])
    ensures var s' := LeaveStep(s, r, u); Base(s') && Grows(s, s')
  {
    hide Base, Grows, SetSub, SetPhase;
    var sc := s.runs[r].sc;
    PlainUpdateEvolves(s.subs[sc], u);
    SetSubKeeps(s, sc, u);
    SetSubEffect(s, sc, u);
    SetPhaseKeeps(SetSub(s, sc, u), r, IsLeft);
    GrowsTransitive(s, SetSub(s, sc, u), LeaveStep(s, r, u));
  }

  lemma ClearKeeps(s: State, r: nat)
    requires Base(s) && Shaped(s) && r < |s.runs|
    ensures var s' := ClearStep(s, r); Base(s') && Grows(s, s')
  {
    hide Base, Grows, SetSub, SetPhase;
    var sc := s.runs[r].sc;
    var u := ClearRunning(s.subs[sc]);
    PlainUpdateEvolves(s.subs[sc], u);
    SetSubKeeps(s, sc, u);
    SetSubEffect(s, sc, u);
    var s1 := SetSub(s, sc, u);
    SetPhaseKeeps(s1, r, IsCleared);
    SetPhaseEffect(s1, r, IsCleared);
    var s2 := SetPhase(s1, r, IsCleared);
    LogKeeps(s2, s.log + [Cleared(r)]);
    GrowsTransitive(s, s1, s2);
    GrowsTransitive(s, s2, ClearStep(s, r));
  }

  lemma TickKeeps(s: State, r: nat, now: Time)
    requires Base(s) && Shaped(s) && r < |s.runs|
    ensures var s' := TickStep(s, r, now); Base(s') && Grows(s, s')
  {
    hide Base, Grows, SetSub, SetPhase, QueueJob, LeaveStep;
    var sc := s.runs[r].sc;
    if Expired(s.subs[sc], now) {
      LeaveKeeps(s, r, s.subs[sc]);
    } else {
      var u := TickRun(s.subs[sc]);
      PlainUpdateEvolves(s.subs[sc], u);
      SetSubKeeps(s, sc, u);
      SetSubEffect(s, sc, u);
      var s1 := SetSub(s, sc, u);
      SetPhaseKeeps(s1, r, IsLooping);
      SetPhaseEffect(s1, r, IsLooping);
      var s2 := SetPhase(s1, r, IsLooping);
      GrowsTransitive(s, s1, s2);
      if Periodic(s.subs[sc].typ) {
        QueueJobKeeps(s2, sc);
        GrowsTransitive(s, s2, QueueJob(s2, sc));
      }
    }
  }

  lemma FinishKeeps(s: State, r: nat)
    requires Base(s) && Shaped(s) && r < |s.runs|
    ensures var s' := FinishStep(s, r); Base(s') && Grows(s, s')
  {
    hide Grows, SetSub, SetPhase, QueueSignaling, SignalingReady, UpdateSignalingCancel, PacketsFit, StampsOf;
    var sc := s.runs[r].sc;
    assert RunOk(s, r) && SubOk(s, sc);
    SetPhaseKeeps(s, r, IsDone);
    SetPhaseEffect(s, r, IsDone);
    var s1 := SetPhase(s, r, IsDone);
    if s.subs[sc].typ != MESSAGE_DELAY_REQ {
      var u := UpdateSignalingCancel(s.subs[sc]);
      CancelIsReady(s.subs[sc]);
      CancelKeepsNames(s.subs[sc]);
      SetSubKeeps(s1, sc, u);
      SetSubEffect(s1, sc, u);
      var s2 := SetSub(s1, sc, u);
      QueueSignalingKeeps(s2, sc);
      QueueSignalingEffect(s2, sc);
      var s3 := QueueSignaling(s2, sc);
      LogKeeps(s3, s.log + [CancelQueued(r)]);
      GrowsTransitive(s, s1, s2);
      GrowsTransitive(s, s2, s3);
      GrowsTransitive(s, s3, FinishStep(s, r));
    }
  }

  lemma CancelKeepsNames(a: Sub)
    ensures var b := UpdateSignalingCancel(a);
            && b.client == a.client && b.typ == a.typ && b.worker == a.worker && (PacketsFit(a) ==> PacketsFit(b))
            && StampsOf(b) == StampsOf(a)
  {
  }

  /** A job taken off the queue, with what it sent put on record. */
  lemma PopJobKeeps(s: State, w: nat, olderKernel: bool, sc: Ref, ms: seq<Message>)
    requires Base(s) && w < |s.workers| && s.workers[w].queue != [] && sc in s.sent
    ensures var s' := PopJob(s, w, olderKernel, sc, ms); Base(s') && Grows(s, s')
  {
    hide PacketsFit, SignalingReady, StampsOf, EntryOk, SubOk, RunOk, Queueable, Signalable, Lookup, FlatGet;
    var s' := PopJob(s, w, olderKernel, sc, ms);
    assert Grows(s, s');
    RegistryFrame(s, s');
    WorkFrame(s, s');
  }

  lemma TakeJobKeeps(s: State, w: nat, o: Outcome)
    requires Base(s) && Shaped(s) && w < |s.workers| && s.workers[w].queue != []
    ensures var s' := TakeJob(s, w, o); Base(s') && Grows(s, s')
  {
    hide Base, Grows, Evolves, JobStep, PopJob;
    var ws := s.workers[w];
    var sc := ws.queue[0];
    var r := JobStep(s.cfg, ws.olderKernel, s.subs[sc], o);
    JobKeeps(s.cfg, ws.olderKernel, s.subs[sc], o);
    PlainUpdateEvolves(s.subs[sc], r.sub);
    SetSubKeeps(s, sc, r.sub);
    PopJobKeeps(SetSub(s, sc, r.sub), w, r.olderKernel, sc, r.sent);
    GrowsTransitive(s, SetSub(s, sc, r.sub), TakeJob(s, w, o));
  }

  lemma TakeSignalingKeeps(s: State, w: nat, ok: bool)
    requires Base(s) && Shaped(s) && w < |s.workers| && s.workers[w].signalingQueue != []
    ensures var s' := TakeSignaling(s, w, ok); Base(s') && Grows(s, s')
  {
    hide PacketsFit, SignalingReady, StampsOf, EntryOk, SubOk, RunOk, Queueable, Signalable, Lookup, FlatGet;
    var s' := TakeSignaling(s, w, ok);
    assert Grows(s, s');
    RegistryFrame(s, s');
    WorkFrame(s, s');
  }

  lemma InventoryKeeps(s: State, w: nat)
    requires Base(s) && Shaped(s) && w < |s.workers|
    ensures var s' := InventoryStep(s, w); Base(s') && Grows(s, s')
  {
    hide PacketsFit, SignalingReady, Pruned;
    var s' := InventoryStep(s, w);
    assert Grows(s, s');
    forall x, c, t | 0 <= x < |s'.workers| ensures EntryOk(s', x, c, t) {
      assert EntryOk(s, x, c, t);
      PrunedIsFlat(s.workers[w].clients, RunningOnes(s), c, t);
    }
    forall c, t | Signaled(t) ensures Lookup(s', c, t) == FlatGet(s', c, t) {
      assert Lookup(s, c, t) == FlatGet(s, c, t);
      assert EntryOk(s, FindWorker(s, c, 0), c, t);
      PrunedIsFlat(s.workers[w].clients, RunningOnes(s), c, t);
    }
    WorkFrame(s, s');
  }

  /** Drain sets the last flag, Undrain adds a context behind a cancelled one. */
  lemma DoneKeeps(s: State, done: seq<bool>)
    requires Base(s) && |s.done| <= |done| && (forall k | 0 <= k < |s.done| && s.done[k] :: done[k])
    requires forall k | 0 <= k < |done| - 1 :: done[k]
    ensures Base(s.(done := done)) && Grows(s, s.(done := done))
  {
    hide PacketsFit, SignalingReady, StampsOf, EntryOk, SubOk, Queueable, Signalable, Lookup, FlatGet;
    var s' := s.(done := done);
    assert Grows(s, s');
    RegistryFrame(s, s');
    WorkFrame(s, s');
  }

  lemma ReloadKeeps(s: State, cfg: Config)
    requires Base(s)
    ensures Base(s.(cfg := cfg)) && Grows(s, s.(cfg := cfg))
  {
    hide PacketsFit, SignalingReady, StampsOf, EntryOk, SubOk, RunOk, Queueable, Signalable, Lookup, FlatGet;
    var s' := s.(cfg := cfg);
    assert Grows(s, s');
    RegistryFrame(s, s');
    WorkFrame(s, s');
  }

  lemma DrainKeeps(s: State)
    requires Base(s) && Shaped(s)
    ensures Base(DrainStep(s)) && Grows(s, DrainStep(s))
    ensures Base(UndrainStep(s)) && Grows(s, UndrainStep(s))
  {
    hide Grows, RegistryOk, WorkOk;
    DoneKeeps(s, s.done[|s.done| - 1 := true]);
    if Drained(s) {
      DoneKeeps(s, s.done + [false]);
    } else {
      GrowsReflexive(s);
    }
  }

  /** Every step keeps the base invariant, and only lets things grow. */
  lemma StepKeepsBase(s: State, step: Step)
    requires Base(s) && Shaped(s) && Enabled(s, step)
    ensures Base(Next(s, step)) && Grows(s, Next(s, step))
  {
    hide Base, Grows, Shaped;
    BaseIsShaped(s);
    match step {
      case Request(sg, v, gclisa, now, made) => RequestKeeps(s, sg, v, gclisa, now, made);
      case CancelRequest(sg, v, now) => CancelKeeps(s, sg, v, now);
      case DelayRequest(p, rxTs, eclisa, now, made) => DelayRequestKeeps(s, p, rxTs, eclisa, now, made);
      case Begin(r) => BeginKeeps(s, r);
      case Tick(r, now) => TickKeeps(s, r, now);
      case SelectTick(r) => SetPhaseKeeps(s, r, IsTicking);
      case TakeStop(r) => LeaveKeeps(s, r, TakeToken(s.subs[s.runs[r].sc]));
      case CtxIsDone(r) => LeaveKeeps(s, r, s.subs[s.runs[r].sc]);
      case Clear(r) => ClearKeeps(s, r);
      case Finish(r) => FinishKeeps(s, r);
      case Job(w, o) => TakeJobKeeps(s, w, o);
      case SignalingJob(w, ok) => TakeSignalingKeeps(s, w, ok);
      case Inventory(w) => InventoryKeeps(s, w);
      case Drain => DrainKeeps(s);
      case Undrain => DrainKeeps(s);
      case Reload(cfg) => ReloadKeeps(s, Reloaded(s.cfg, cfg));
    }
  }
}
