/** The send worker of server/worker.go: its registry, its inventory, and what it puts on the wire for a job. */
module Worker {
  import opened Wire
  import opened Types
  import opened Tlvs
  import opened Packets
  import opened Subscription
  import opened SubscriptionClients
  import opened Jobs
  import Stats

  const PAYLOAD_SIZE: nat := 128

  /** A datagram as it goes to a socket. */
  datatype Wired = Wired(event: bool, bytes: seq<byte>, to: Sockaddr)

  predicate AllFit(ms: seq<Message>) {
    forall m | m in ms :: AllEncodable(TlvsOf(m.packet))
  }

  function OnWire(ms: seq<Message>): (ws: seq<Wired>)
    requires AllFit(ms)
    ensures |ws| == |ms|
  {
    if ms == [] then []
    else OnWire(ms[..|ms| - 1]) +
         [Wired(ms[|ms| - 1].event, Datagram(ms[|ms| - 1].packet), ms[|ms| - 1].to)]
  }

  /** Each message goes to its socket and address, in order, as the octets of its packet and two zero octets. */
  lemma {:induction false} OnWireAt(ms: seq<Message>, i: nat)
    requires AllFit(ms) && i < |ms|
    ensures AllEncodable(TlvsOf(ms[i].packet))
    ensures OnWire(ms)[i] == Wired(ms[i].event, Encode(ms[i].packet) + [0, 0], ms[i].to)
  {
    hide Encode;
    assert ms[i] in ms;
    if i < |ms| - 1 {
      OnWireAt(ms[..|ms| - 1], i);
    }
  }

  /** The references of a registry whose subscription is running. */
  ghost function RunningIn(clients: Clients<SubscriptionClient>): set<SubscriptionClient>
    reads Held(clients)
  {
    set sc | sc in Held(clients) && sc.running
  }

  ghost function Held(clients: Clients<SubscriptionClient>): set<SubscriptionClient> {
    set st, c | st in clients && c in clients[st] :: clients[st][c]
  }

  lemma FlagsOf(clients: Clients<SubscriptionClient>)
    ensures forall st, c | st in clients && c in clients[st] :: clients[st][c].running <==> clients[st][c] in RunningIn(clients)
  {
  }

  /** The entries of one type in the middle of the inventory, with these still to be looked at and those kept so far. */
  ghost predicate HalfPrunedType<S>(was: map<PortIdentity, S>, running: set<S>, keys: set<PortIdentity>,
                                    now: map<PortIdentity, S>, kept: set<PortIdentity>)
  {
    && keys <= was.Keys && kept == (set c | c in was && c !in keys && was[c] in running)
    && now == map c | c in was && (c in keys || was[c] in running) :: was[c]
  }

  lemma HalfPrunedTypeStep<S>(was: map<PortIdentity, S>, running: set<S>, keys: set<PortIdentity>,
                              now: map<PortIdentity, S>, kept: set<PortIdentity>, k: PortIdentity)
    requires HalfPrunedType(was, running, keys, now, kept) && k in keys
    ensures k in was && k in now && now[k] == was[k]
    ensures was[k] in running ==> |kept + {k}| == |kept| + 1 && HalfPrunedType(was, running, keys - {k}, now, kept + {k})
    ensures was[k] !in running ==> HalfPrunedType(was, running, keys - {k}, now - {k}, kept)
  {
  }

  lemma Overwritten<K, V>(m: map<K, V>, k: K, a: V, b: V)
    ensures m[k := a][k := b] == m[k := b]
  {
  }

  lemma HalfPrunedTypeEnds<S>(was: map<PortIdentity, S>, running: set<S>, now: map<PortIdentity, S>, kept: set<PortIdentity>)
    ensures HalfPrunedType(was, running, was.Keys, was, {})
    ensures HalfPrunedType(was, running, {}, now, kept) ==> now == PrunedType(was, running) && |kept| == |now|
  {
    if HalfPrunedType(was, running, {}, now, kept) {
      assert kept == now.Keys;
    }
  }

  /** A registry in the middle of its inventory, with these types still to be looked at. */
  ghost predicate HalfPruned<S>(was: Clients<S>, running: set<S>, types: set<byte>, now: Clients<S>) {
    now.Keys == was.Keys && forall st | st in was :: now[st] == if st in types then was[st] else PrunedType(was[st], running)
  }

  lemma HalfPrunedStep<S>(was: Clients<S>, running: set<S>, types: set<byte>, now: Clients<S>, st: byte)
    requires HalfPruned(was, running, types, now) && st in types && types <= was.Keys
    ensures st in was && st in now && now[st] == was[st] && PrunedType(was[st], running) == Pruned(was, running)[st]
    ensures Pruned(was, running).Keys == was.Keys
    ensures HalfPruned(was, running, types - {st}, now[st := PrunedType(was[st], running)])
  {
  }

  lemma HalfPrunedEnds<S>(was: Clients<S>, running: set<S>, now: Clients<S>)
    ensures HalfPruned(was, running, was.Keys, was) && was.Keys - was.Keys == {}
    ensures HalfPruned(was, running, {}, now) ==> now == Pruned(was, running) && now.Keys == was.Keys
  {
  }

  // ------------------------------------------------- counting the entries left

  /** A counter raised n times. */
  function CountedUp(m: Stats.Counts, key: int, n: nat): Stats.Counts {
    if n == 0 then m else Stats.Add(CountedUp(m, key, n - 1), key, 1)
  }

  lemma {:induction false} CountedUpAdds(m: Stats.Counts, key: int, n: nat)
    ensures (Stats.Load(CountedUp(m, key, n), key) - Stats.Load(m, key) - n) % Stats.TWO64 == 0
    ensures forall k | k != key :: Stats.Load(CountedUp(m, key, n), k) == Stats.Load(m, k)
  {
    if n > 0 {
      CountedUpAdds(m, key, n - 1);
      var was := Stats.Load(CountedUp(m, key, n - 1), key);
      Stats.SumOfMultiples(was - Stats.Load(m, key) - (n - 1), Wrap64(was + 1) - (was + 1));
    }
  }

  lemma {:induction false} CountedUpTwice(m: Stats.Counts, key: int, a: nat, b: nat)
    ensures CountedUp(CountedUp(m, key, a), key, b) == CountedUp(m, key, a + b)
  {
    if b > 0 {
      CountedUpTwice(m, key, a, b - 1);
    }
  }

  /** The entries under some of the types. */
  function EntriesOf<S>(clients: Clients<S>, types: set<byte>): set<(byte, PortIdentity)> {
    set st, c | st in clients && st in types && c in clients[st] :: (st, c)
  }

  lemma {:induction false} PairsCount(st: byte, cs: set<PortIdentity>)
    ensures |set c | c in cs :: (st, c)| == |cs|
  {
    if cs != {} {
      ghost var c := SomeElement(cs);
      PairsCount(st, cs - {c});
      assert (set x | x in cs :: (st, x)) == (set x | x in cs - {c} :: (st, x)) + {(st, c)};
    }
  }

  lemma EntriesOfOneMore<S>(clients: Clients<S>, types: set<byte>, st: byte)
    requires st in clients && st !in types
    ensures |EntriesOf(clients, types + {st})| == |EntriesOf(clients, types)| + |clients[st]|
  {
    var here := set c | c in clients[st].Keys :: (st, c);
    assert EntriesOf(clients, types + {st}) == EntriesOf(clients, types) + here;
    assert EntriesOf(clients, types) !! here;
    PairsCount(st, clients[st].Keys);
    assert |clients[st].Keys| == |clients[st]|;
  }

  /** The entries left under a type, given as the key of a counter. */
  function LeftUnder<S>(clients: Clients<S>, key: int): nat {
    if 0 <= key < 0x100 && key as byte in clients then |clients[key as byte]| else 0
  }

  function Only<S>(clients: Clients<S>, types: set<byte>): Clients<S> {
    map st | st in clients && st in types :: clients[st]
  }

  /** One type more is counted, under its own key. */
  lemma CountedOneMore<S>(first: Stats.Counts, counts: Stats.Counts, clients: Clients<S>, seen: set<byte>, st: byte)
    requires st in clients && st !in seen
    requires forall key: int ::
               Stats.Load(counts, key) == Stats.Load(CountedUp(first, key, LeftUnder(Only(clients, seen), key)), key)
    ensures forall key: int ::
              Stats.Load(CountedUp(counts, st as int, |clients[st]|), key) ==
              Stats.Load(CountedUp(first, key, LeftUnder(Only(clients, seen + {st}), key)), key)
  {
    hide CountedUp;
    forall key: int
      ensures Stats.Load(CountedUp(counts, st as int, |clients[st]|), key) ==
              Stats.Load(CountedUp(first, key, LeftUnder(Only(clients, seen + {st}), key)), key)
    {
      CountedUpFrom(counts, first, st as int, |clients[st]|, key);
      CountedUpFrom(first, first, st as int, 0, key);
    }
  }

  lemma {:induction false} CountedUpFrom(a: Stats.Counts, b: Stats.Counts, key: int, n: nat, k: int)
    ensures k != key ==> Stats.Load(CountedUp(a, key, n), k) == Stats.Load(a, k)
    ensures Stats.Load(a, key) == Stats.Load(b, key) ==> Stats.Load(CountedUp(a, key, n), key) == Stats.Load(CountedUp(b, key, n), key)
    ensures CountedUp(a, key, 0) == a
  {
    if n > 0 {
      CountedUpFrom(a, b, key, n - 1, k);
    }
  }

  /** Between two states of the counters, n entries of type st were counted for worker id, and nothing else. */
  ghost predicate Counted(before: Stats.Counters, after: Stats.Counters, st: byte, id: int, n: nat) {
    && after.Get(Stats.Subscriptions) == CountedUp(before.Get(Stats.Subscriptions), st as int, n)
    && after.Get(Stats.WorkerSubs) == CountedUp(before.Get(Stats.WorkerSubs), id, n)
    && (forall k: Stats.Counter | k != Stats.Subscriptions && k != Stats.WorkerSubs :: after.Get(k) == before.Get(k))
  }

  lemma CountedNone(c: Stats.Counters, st: byte, id: int)
    ensures Counted(c, c, st, id, 0)
  {
  }

  /** What a whole inventory counts: the entries of `seen` types, each under its type and all for the worker. */
  ghost predicate AllCounted<S>(before: Stats.Counters, after: Stats.Counters, clients: Clients<S>, seen: set<byte>, id: int) {
    && (forall key: int ::
          Stats.Load(after.Get(Stats.Subscriptions), key) ==
          Stats.Load(CountedUp(before.Get(Stats.Subscriptions), key, LeftUnder(Only(clients, seen), key)), key))
    && after.Get(Stats.WorkerSubs) == CountedUp(before.Get(Stats.WorkerSubs), id, |EntriesOf(clients, seen)|)
    && (forall k: Stats.Counter | k != Stats.Subscriptions && k != Stats.WorkerSubs :: after.Get(k) == before.Get(k))
  }

  lemma NoneCounted<S>(c: Stats.Counters, clients: Clients<S>, id: int)
    ensures AllCounted(c, c, clients, {}, id)
  {
    assert EntriesOf(clients, {}) == {};
  }

  lemma OneMoreCounted<S>(first: Stats.Counters, before: Stats.Counters, after: Stats.Counters, clients: Clients<S>,
                          seen: set<byte>, st: byte, id: int)
    requires st in clients && st !in seen
    requires AllCounted(first, before, clients, seen, id) && Counted(before, after, st, id, |clients[st]|)
    ensures AllCounted(first, after, clients, seen + {st}, id)
  {
    hide Stats.Counters.Get, CountedUp, LeftUnder, Only, EntriesOf;
    CountedUpTwice(first.Get(Stats.WorkerSubs), id, |EntriesOf(clients, seen)|, |clients[st]|);
    EntriesOfOneMore(clients, seen, st);
    CountedOneMore(first.Get(Stats.Subscriptions), before.Get(Stats.Subscriptions), clients, seen, st);
  }

  lemma EverythingCounted<S>(before: Stats.Counters, after: Stats.Counters, clients: Clients<S>, id: int)
    requires AllCounted(before, after, clients, clients.Keys, id)
    ensures forall key: int ::
              Stats.Load(after.Get(Stats.Subscriptions), key) ==
              Stats.Load(CountedUp(before.Get(Stats.Subscriptions), key, LeftUnder(clients, key)), key)
    ensures after.Get(Stats.WorkerSubs) == CountedUp(before.Get(Stats.WorkerSubs), id, |Entries(clients)|)
    ensures forall k: Stats.Counter | k != Stats.Subscriptions && k != Stats.WorkerSubs :: after.Get(k) == before.Get(k)
  {
    hide Stats.Counters.Get, CountedUp;
    assert EntriesOf(clients, clients.Keys) == Entries(clients);
    assert Only(clients, clients.Keys) == clients;
  }

  // ------------------------------------------------------ counting messages

  /** The counters that the Sync of a job raises: the message, the attempts for its timestamp, and a missing one. */
  function SyncOps(id: int, o: Outcome): seq<Stats.Op> {
    if o.first != SendOk then []
    else
      var sent := [Stats.Inc(Stats.Tx, MESSAGE_SYNC as int), Stats.SetMax(Stats.TxtsAttempts, id, o.attempts)];
      if o.txTs.None? then sent + [Stats.MarkMissing] else sent
  }

  /** Those of its last message, of type k, with `left` jobs still in the queue. */
  function LastOps(id: int, k: byte, left: nat, o: Outcome): seq<Stats.Op> {
    if o.second then [Stats.Inc(Stats.Tx, k as int), Stats.SetMax(Stats.WorkerQueue, id, left)] else []
  }

  /** What a whole job of a subscription of this type does to the counters, in order. */
  function JobOps(id: int, typ: byte, left: nat, o: Outcome): seq<Stats.Op> {
    if typ == MESSAGE_SYNC || typ == MESSAGE_DELAY_REQ then
      SyncOps(id, o) +
      (if o.first != SendOk || o.txTs.None? then []
       else LastOps(id, if typ == MESSAGE_SYNC then MESSAGE_FOLLOW_UP else MESSAGE_ANNOUNCE, left, o))
    else if typ == MESSAGE_ANNOUNCE || typ == MESSAGE_DELAY_RESP then LastOps(id, typ, left, o)
    else []
  }

  /** What a sent signaling packet does to them: each of its TLVs counts for the type of the subscription. */
  function SignalingOps(ts: seq<Tlv>, typ: byte): seq<Stats.Op> {
    if ts == [] then []
    else
      var before, t := SignalingOps(ts[..|ts| - 1], typ), ts[|ts| - 1];
      if t.GrantUnicast? then before + [Stats.Inc(Stats.TxSignalingGrant, typ as int)]
      else if t.CancelUnicast? then before + [Stats.Inc(Stats.TxSignalingCancel, typ as int)]
      else before
  }

  function TypeOfMessage(m: Message): byte {
    MsgType(m.packet.header.sdoIdAndMsgType)
  }

  /** The types of the messages that a job sends, in order. */
  function JobTypes(typ: byte, o: Outcome): seq<byte> {
    if typ == MESSAGE_SYNC || typ == MESSAGE_DELAY_REQ then
      if o.first != SendOk then []
      else if o.txTs.None? || !o.second then [MESSAGE_SYNC]
      else [MESSAGE_SYNC, if typ == MESSAGE_SYNC then MESSAGE_FOLLOW_UP else MESSAGE_ANNOUNCE]
    else if (typ == MESSAGE_ANNOUNCE || typ == MESSAGE_DELAY_RESP) && o.second then [typ]
    else []
  }

  lemma JobSendsTypes(cfg: Config, olderKernel: bool, s: Sub, o: Outcome)
    requires PacketsFit(s)
    ensures var sent, ts := JobStep(cfg, olderKernel, s, o).sent, JobTypes(s.typ, o);
            |sent| == |ts| && forall i | 0 <= i < |ts| :: TypeOfMessage(sent[i]) == ts[i]
  {
    hide NewTimestamp, ClockFields, MsgType;
    FramedTypes();
  }

  lemma FramedTypes()
    ensures MsgType(MESSAGE_SYNC) == MESSAGE_SYNC && MsgType(MESSAGE_FOLLOW_UP) == MESSAGE_FOLLOW_UP
    ensures MsgType(MESSAGE_ANNOUNCE) == MESSAGE_ANNOUNCE && MsgType(MESSAGE_DELAY_RESP) == MESSAGE_DELAY_RESP
  {
  }

  /** The messages of one type. */
  function OfType(ms: seq<Message>, k: int): nat {
    if ms == [] then 0
    else OfType(ms[..|ms| - 1], k) + (if TypeOfMessage(ms[|ms| - 1]) as int == k then 1 else 0)
  }

  /**
   * Each message that a job puts on the wire is counted once, under its own message type, and nothing is counted that
   * was not sent: the transmit counter of any type moves on by the messages of that type, modulo its width.
   */
  lemma TxCountsWhatIsSent(cfg: Config, olderKernel: bool, s: Sub, o: Outcome, id: int, left: nat, st: Stats.State, k: int)
    requires PacketsFit(s)
    ensures var sent := JobStep(cfg, olderKernel, s, o).sent;
            var after := Stats.ApplyAll(JobOps(id, s.typ, left, o), st);
            (Stats.Load(after.live.Get(Stats.Tx), k) - Stats.Load(st.live.Get(Stats.Tx), k) - OfType(sent, k)) % Stats.TWO64 == 0
  {
    hide Stats.ApplyAll, Stats.Net, Stats.Counters.Get, JobStep, JobOps, OfType, PacketsFit;
    NetIsSent(cfg, olderKernel, s, o, id, left, k);
    Stats.CountsAddUp(JobOps(id, s.typ, left, o), st, Stats.Tx, k);
  }

  function Grants(ts: seq<Tlv>): nat {
    if ts == [] then 0 else Grants(ts[..|ts| - 1]) + (if ts[|ts| - 1].GrantUnicast? then 1 else 0)
  }

  function Cancels(ts: seq<Tlv>): nat {
    if ts == [] then 0 else Cancels(ts[..|ts| - 1]) + (if ts[|ts| - 1].CancelUnicast? then 1 else 0)
  }

  /** A signaling packet that was sent counts its grants and its cancels, each under the type of its subscription. */
  lemma SignalsAreCounted(ts: seq<Tlv>, typ: byte, st: Stats.State, k: int)
    ensures var after := Stats.ApplyAll(SignalingOps(ts, typ), st);
            && (Stats.Load(after.live.Get(Stats.TxSignalingGrant), k) - Stats.Load(st.live.Get(Stats.TxSignalingGrant), k)
                - (if k == typ as int then Grants(ts) else 0)) % Stats.TWO64 == 0
            && (Stats.Load(after.live.Get(Stats.TxSignalingCancel), k) - Stats.Load(st.live.Get(Stats.TxSignalingCancel), k)
                - (if k == typ as int then Cancels(ts) else 0)) % Stats.TWO64 == 0
  {
    hide Stats.ApplyAll, Stats.Net, Stats.Counters.Get, SignalingOps, Grants, Cancels;
    SignalNets(ts, typ, k);
    Stats.CountsAddUp(SignalingOps(ts, typ), st, Stats.TxSignalingGrant, k);
    Stats.CountsAddUp(SignalingOps(ts, typ), st, Stats.TxSignalingCancel, k);
  }

  lemma {:induction false} SignalNets(ts: seq<Tlv>, typ: byte, k: int)
    ensures var ops := SignalingOps(ts, typ);
            && Stats.Net(ops, Stats.TxSignalingGrant, k) == (if k == typ as int then Grants(ts) else 0)
            && Stats.Net(ops, Stats.TxSignalingCancel, k) == (if k == typ as int then Cancels(ts) else 0)
            && Stats.Reset !in ops && (forall i | 0 <= i < |ops| :: Stats.Allowed(ops[i]))
  {
    hide Stats.Net;
    NothingMore([]);
    if ts != [] {
      var before, t := ts[..|ts| - 1], ts[|ts| - 1];
      SignalNets(before, typ, k);
      var op := if t.GrantUnicast? then Stats.Inc(Stats.TxSignalingGrant, typ as int)
      else Stats.Inc(Stats.TxSignalingCancel, typ as int);
      NetOf(SignalingOps(before, typ), op, Stats.TxSignalingGrant, k);
      NetOf(SignalingOps(before, typ), op, Stats.TxSignalingCancel, k);
    }
  }

  /** Whether a job got to its end: its last message was sent. */
  predicate Ended(typ: byte, o: Outcome) {
    if typ == 0x0 || typ == 0x1 then o.first == SendOk && o.txTs.Some? && o.second
    else (typ == 0xB || typ == 0x9) && o.second
  }

  /**
   * The other counters of a job: the most attempts for a timestamp if a Sync was sent, a mark if none came, and the
   * longest queue if the job got to its end.
   */
  lemma JobMarks(id: int, typ: byte, left: nat, o: Outcome, st: Stats.State)
    requires 0 <= Stats.Load(st.live.Get(Stats.TxtsAttempts), id) && 0 <= Stats.Load(st.live.Get(Stats.WorkerQueue), id)
    ensures var after, synced := Stats.ApplyAll(JobOps(id, typ, left, o), st), (typ == 0x0 || typ == 0x1) && o.first == SendOk;
            var tries, queue := Stats.Load(st.live.Get(Stats.TxtsAttempts), id), Stats.Load(st.live.Get(Stats.WorkerQueue), id);
            && Stats.Load(after.live.Get(Stats.TxtsAttempts), id) == (if synced && o.attempts > tries then o.attempts else tries)
            && Stats.Load(after.live.Get(Stats.WorkerQueue), id) == (if Ended(typ, o) && left > queue then left else queue)
            && after.live.gauges == if synced && o.txTs.None? then st.live.gauges.(txtsMissing := 1) else st.live.gauges
  {
    hide Stats.ApplyAll, Stats.MaxSinceReset, Stats.Counters.Get;
    JobMax(id, typ, left, o);
    Stats.MaxFrom(JobOps(id, typ, left, o), st, Stats.TxtsAttempts, id);
    Stats.MaxFrom(JobOps(id, typ, left, o), st, Stats.WorkerQueue, id);
    Stats.MissingFrom(JobOps(id, typ, left, o), st);
  }

  lemma MaxOf(ops: seq<Stats.Op>, op: Stats.Op, n: Stats.Counter, k: int)
    requires op != Stats.Reset
    ensures var max := Stats.MaxSinceReset(ops, n, k);
            Stats.MaxSinceReset(ops + [op], n, k) == if op.SetMax? && op.n == n && op.key == k && op.value > max then op.value else max
    ensures Stats.MaxSinceReset([], n, k) == 0
  {
    assert (ops + [op])[..|ops|] == ops;
  }

  lemma SyncMax(id: int, o: Outcome, n: Stats.Counter)
    ensures Stats.MaxSinceReset(SyncOps(id, o), n, id) == if o.first == SendOk && n == Stats.TxtsAttempts then o.attempts else 0
    ensures Stats.MarkMissing in SyncOps(id, o) <==> o.first == SendOk && o.txTs.None?
  {
    hide Stats.MaxSinceReset;
    var a, b := Stats.Inc(Stats.Tx, MESSAGE_SYNC as int), Stats.SetMax(Stats.TxtsAttempts, id, o.attempts);
    MaxOf([], a, n, id);
    MaxOf([a], b, n, id);
    MaxOf([a, b], Stats.MarkMissing, n, id);
    assert [] + [a] == [a] && [a] + [b] == [a, b];
  }

  lemma LastMax(ops: seq<Stats.Op>, id: int, k: byte, left: nat, o: Outcome, n: Stats.Counter)
    ensures var max := Stats.MaxSinceReset(ops, n, id);
            Stats.MaxSinceReset(ops + LastOps(id, k, left, o), n, id) ==
            if o.second && n == Stats.WorkerQueue && left > max then left else max
  {
    hide Stats.MaxSinceReset;
    if o.second {
      var a, b := Stats.Inc(Stats.Tx, k as int), Stats.SetMax(Stats.WorkerQueue, id, left);
      MaxOf(ops, a, n, id);
      MaxOf(ops + [a], b, n, id);
      assert ops + LastOps(id, k, left, o) == ops + [a] + [b];
    } else {
      assert ops + [] == ops;
    }
  }

  lemma JobMax(id: int, typ: byte, left: nat, o: Outcome)
    ensures var ops := JobOps(id, typ, left, o);
            && Stats.MaxSinceReset(ops, Stats.TxtsAttempts, id)
               == (if (typ == 0x0 || typ == 0x1) && o.first == SendOk then o.attempts else 0)
            && Stats.MaxSinceReset(ops, Stats.WorkerQueue, id) == (if Ended(typ, o) then left else 0)
            && (Stats.MarkMissing in ops <==> (typ == 0x0 || typ == 0x1) && o.first == SendOk && o.txTs.None?)
            && Stats.Reset !in ops && (forall i | 0 <= i < |ops| :: Stats.Allowed(ops[i]))
  {
    hide Stats.MaxSinceReset;
    var k := if typ == MESSAGE_SYNC then MESSAGE_FOLLOW_UP else MESSAGE_ANNOUNCE;
    MaxOf([], Stats.MarkMissing, Stats.TxtsAttempts, id);
    MaxOf([], Stats.MarkMissing, Stats.WorkerQueue, id);
    SyncMax(id, o, Stats.TxtsAttempts);
    SyncMax(id, o, Stats.WorkerQueue);
    LastMax(SyncOps(id, o), id, k, left, o, Stats.TxtsAttempts);
    LastMax(SyncOps(id, o), id, k, left, o, Stats.WorkerQueue);
    LastMax([], id, typ, left, o, Stats.TxtsAttempts);
    LastMax([], id, typ, left, o, Stats.WorkerQueue);
    NothingMore(SyncOps(id, o));
    NothingMore(LastOps(id, typ, left, o));
  }

  lemma NetOf(ops: seq<Stats.Op>, op: Stats.Op, n: Stats.Counter, k: int)
    ensures Stats.Net(ops + [op], n, k) ==
            Stats.Net(ops, n, k) + (if op == Stats.Inc(n, k) then 1 else if op == Stats.Dec(n, k) then -1 else 0)
  {
    assert (ops + [op])[..|ops|] == ops;
  }

  lemma LastNet(ops: seq<Stats.Op>, id: int, typ: byte, left: nat, o: Outcome, k: int)
    ensures Stats.Net(ops + LastOps(id, typ, left, o), Stats.Tx, k) ==
            Stats.Net(ops, Stats.Tx, k) + (if o.second && typ as int == k then 1 else 0)
  {
    if o.second {
      var a, b := Stats.Inc(Stats.Tx, typ as int), Stats.SetMax(Stats.WorkerQueue, id, left);
      NetOf(ops, a, Stats.Tx, k);
      NetOf(ops + [a], b, Stats.Tx, k);
      assert ops + LastOps(id, typ, left, o) == ops + [a] + [b];
    } else {
      assert ops + [] == ops;
    }
  }

  lemma SyncNet(id: int, o: Outcome, k: int)
    ensures Stats.Net(SyncOps(id, o), Stats.Tx, k) == if o.first == SendOk && MESSAGE_SYNC as int == k then 1 else 0
  {
    if o.first == SendOk {
      var a, b := Stats.Inc(Stats.Tx, MESSAGE_SYNC as int), Stats.SetMax(Stats.TxtsAttempts, id, o.attempts);
      NetOf([], a, Stats.Tx, k);
      NetOf([a], b, Stats.Tx, k);
      NetOf([a, b], Stats.MarkMissing, Stats.Tx, k);
      assert [] + [a] == [a] && [a] + [b] == [a, b];
    }
  }

  lemma OfTypes(ms: seq<Message>, k: int)
    ensures ms == [] ==> OfType(ms, k) == 0
    ensures |ms| == 1 ==> OfType(ms, k) == if TypeOfMessage(ms[0]) as int == k then 1 else 0
    ensures |ms| == 2 ==> OfType(ms, k) == (if TypeOfMessage(ms[0]) as int == k then 1 else 0)
                                           + (if TypeOfMessage(ms[1]) as int == k then 1 else 0)
  {
    hide TypeOfMessage;
    if |ms| == 2 {
      assert ms[..1][..0] == [];
    }
  }

  lemma NetIsSent(cfg: Config, olderKernel: bool, s: Sub, o: Outcome, id: int, left: nat, k: int)
    requires PacketsFit(s)
    ensures Stats.Net(JobOps(id, s.typ, left, o), Stats.Tx, k) == OfType(JobStep(cfg, olderKernel, s, o).sent, k)
    ensures Stats.Reset !in JobOps(id, s.typ, left, o)
    ensures forall i | 0 <= i < |JobOps(id, s.typ, left, o)| :: Stats.Allowed(JobOps(id, s.typ, left, o)[i])
  {
    hide JobStep, PacketsFit, TypeOfMessage, OfType, Stats.Net;
    JobSendsTypes(cfg, olderKernel, s, o);
    OfTypes(JobStep(cfg, olderKernel, s, o).sent, k);
    SyncNet(id, o, k);
    LastNet([], id, s.typ, left, o, k);
    LastNet(SyncOps(id, o), id, if s.typ == MESSAGE_SYNC then MESSAGE_FOLLOW_UP else MESSAGE_ANNOUNCE, left, o, k);
    NothingMore(SyncOps(id, o));
    assert [] + LastOps(id, s.typ, left, o) == LastOps(id, s.typ, left, o);
  }

  lemma NothingMore(ops: seq<Stats.Op>)
    ensures ops + [] == [] + ops == ops
    ensures forall n, k :: Stats.Net([], n, k) == 0
  {
  }

  class SendWorker {
    const id: int
    const queue: JobQueue
    const signalingQueue: JobQueue
    const config: ServerConfig
    const stats: Stats.JsonStats
    const buf: array<byte>
    var clients: Clients<SubscriptionClient>
    var olderKernel: bool

    predicate Valid() {
      queue != signalingQueue && buf.Length == PAYLOAD_SIZE
    }

    constructor (i: int, c: ServerConfig, st: Stats.JsonStats)
      ensures Valid() && fresh(queue) && fresh(signalingQueue) && fresh(buf)
      ensures id == i && config == c && stats == st
      ensures clients == map[] && queue.items == [] && signalingQueue.items == [] && !olderKernel
    {
      id, config, stats := i, c, st;
      clients, olderKernel := map[], false;
      queue := new JobQueue();
      signalingQueue := new JobQueue();
      buf := new byte[PAYLOAD_SIZE];
      new;
      assert queue != signalingQueue;
    }

    method FindSubscription(client: PortIdentity, st: byte) returns (sub: Option<SubscriptionClient>)
      ensures sub == Find(clients, client, st)
      ensures sub.Some? <==> st in clients && client in clients[st]
      ensures sub.Some? ==> sub.value == clients[st][client]
    {
      if st !in clients {
        return None;
      }
      var m := clients[st];
      if client !in m {
        return None;
      }
      return Some(m[client]);
    }

    method RegisterSubscription(client: PortIdentity, st: byte, sc: SubscriptionClient)
      modifies `clients
      ensures clients == Register(old(clients), client, st, sc)
    {
      if st !in clients {
        clients := clients[st := map[]];
      }
      clients := clients[st := clients[st][client := sc]];
      assert clients == Register(old(clients), client, st, sc);
    }

    /** One entry that is left counts for its type and for the worker. */
    method CountEntry(st: byte, ghost before: Stats.Counters, ghost n: nat)
      requires Counted(before, stats.live, st, id, n)
      modifies stats
      ensures stats.report == old(stats.report) && Counted(before, stats.live, st, id, n + 1)
    {
      hide Stats.Add, Stats.Counters.Get, Stats.Counters.Set;
      Count(Stats.Subscriptions, st as int);
      Count(Stats.WorkerSubs, id);
    }

    /** One of the Inc methods of the statistics, seen from each counter. */
    method Count(n: Stats.Counter, key: int)
      modifies stats
      ensures stats.report == old(stats.report)
      ensures stats.live.Get(n) == Stats.Add(old(stats.live).Get(n), key, 1)
      ensures forall k: Stats.Counter | k != n :: stats.live.Get(k) == old(stats.live).Get(k)
    {
      hide Stats.Add, Stats.Counters.Get, Stats.Counters.Set;
      ghost var before := stats.live;
      stats.Increment(n, key);
      forall k: Stats.Counter ensures stats.live.Get(k) == if k == n then Stats.Add(before.Get(n), key, 1) else before.Get(k) {
        Stats.SetGet(before, n, Stats.Add(before.Get(n), key, 1), k);
      }
    }

    /** One type of the inventory: what does not run is deleted, what is left is counted twice. */
    method InventoryType(st: byte, ghost running: set<SubscriptionClient>)
      requires st in clients
      requires forall c | c in clients[st] :: clients[st][c].running <==> clients[st][c] in running
      modifies `clients, stats
      ensures clients == old(clients)[st := PrunedType(old(clients)[st], running)]
      ensures stats.report == old(stats.report) && Counted(old(stats.live), stats.live, st, id, |clients[st]|)
    {
      hide Counted, HalfPrunedType, PrunedType;
      ghost var was, before := clients[st], stats.live;
      var subs := clients[st];
      var keys: set<PortIdentity> := subs.Keys;
      ghost var kept: set<PortIdentity> := {};
      CountedNone(before, st, id);
      HalfPrunedTypeEnds(was, running, was, {});
      while keys != {}
        invariant HalfPrunedType(was, running, keys, subs, kept) && clients == old(clients)[st := subs]
        invariant stats.report == old(stats.report) && Counted(before, stats.live, st, id, |kept|)
        decreases |keys|
      {
        ghost var some := SomeElement(keys);
        var k :| k in keys;
        HalfPrunedTypeStep(was, running, keys, subs, kept, k);
        keys := keys - {k};
        if !subs[k].running {
          Overwritten(old(clients), st, subs, subs - {k});
          subs := subs - {k};
          clients := clients[st := subs];
        } else {
          CountEntry(st, before, |kept|);
          kept := kept + {k};
        }
      }
      HalfPrunedTypeEnds(was, running, subs, kept);
    }

    /** The loop of the inventory over all types. */
    method InventoryTypes(ghost running: set<SubscriptionClient>)
      requires forall st, c | st in clients && c in clients[st] :: clients[st][c].running <==> clients[st][c] in running
      modifies `clients, stats
      ensures clients == Pruned(old(clients), running)
      ensures stats.report == old(stats.report) && AllCounted(old(stats.live), stats.live, clients, clients.Keys, id)
    {
      hide AllCounted, Counted, PrunedType, Pruned, HalfPruned;
      ghost var was, before := clients, stats.live;
      var types: set<byte> := clients.Keys;
      NoneCounted(before, Pruned(was, running), id);
      HalfPrunedEnds(was, running, was);
      while types != {}
        invariant types <= was.Keys && HalfPruned(was, running, types, clients)
        invariant stats.report == old(stats.report)
        invariant AllCounted(before, stats.live, Pruned(was, running), was.Keys - types, id)
        decreases |types|
      {
        ghost var some := SomeElement(types);
        var st :| st in types;
        ghost var counts, now := stats.live, clients;
        HalfPrunedStep(was, running, types, now, st);
        InventoryType(st, running);
        OneMoreCounted(before, counts, stats.live, Pruned(was, running), was.Keys - types, st, id);
        assert was.Keys - (types - {st}) == was.Keys - types + {st};
        types := types - {st};
      }
      HalfPrunedEnds(was, running, clients);
      assert was.Keys - {} == clients.Keys;
    }

    /**
     * inventoryClients: with running flags fixed, exactly the entries that do not run are removed; each type's
     * subscription counter goes up by the entries left under it, the worker's by their total.
     */
    method InventoryClients()
      modifies `clients, stats
      ensures clients == Pruned(old(clients), old(RunningIn(clients)))
      ensures stats.report == old(stats.report)
      ensures forall key: int ::
                Stats.Load(stats.live.Get(Stats.Subscriptions), key) ==
                Stats.Load(CountedUp(old(stats.live).Get(Stats.Subscriptions), key, LeftUnder(clients, key)), key)
      ensures stats.live.Get(Stats.WorkerSubs) == CountedUp(old(stats.live).Get(Stats.WorkerSubs), id, |Entries(clients)|)
      ensures forall n: Stats.Counter | n != Stats.Subscriptions && n != Stats.WorkerSubs ::
                stats.live.Get(n) == old(stats.live).Get(n)
    {
      hide AllCounted, Pruned, RunningIn;
      FlagsOf(clients);
      InventoryTypes(RunningIn(clients));
      EverythingCounted(old(stats.live), stats.live, clients, id);
    }

    /** Whether any type has an entry left, as a drain asks. */
    method HasClients() returns (any: bool)
      ensures any <==> exists st | st in clients :: clients[st] != map[]
    {
      var types: set<byte> := clients.Keys;
      while types != {}
        invariant types <= clients.Keys && forall st | st in clients && st !in types :: clients[st] == map[]
        decreases |types|
      {
        ghost var some := SomeElement(types);
        var st :| st in types;
        if |clients[st]| != 0 {
          return true;
        }
        types := types - {st};
      }
      return false;
    }

    // ------------------------------------------------------------ sending

    /** BytesTo and the send: what reaches the socket is the packet's datagram. */
    method Send(p: Packet, event: bool, to: Sockaddr) returns (w: Wired)
      requires Valid() && Sendable(p)
      modifies buf
      ensures AllEncodable(TlvsOf(p)) && w == Wired(event, Datagram(p), to)
    {
      var n := BytesTo(p, buf);
      w := Wired(event, buf[..n.value], to);
    }

    /** The counters of a Sync that was sent, whatever became of its timestamp. */
    method CountSync(o: Outcome)
      requires o.first == SendOk
      modifies stats
      ensures stats.View() == Stats.ApplyAll(SyncOps(id, o), old(stats.View()))
    {
      hide Stats.Apply, Stats.ApplyAll, Stats.OnlyChanged, Stats.Counters.Get, Stats.Counters.Set;
      ghost var first := stats.View();
      stats.Increment(Stats.Tx, MESSAGE_SYNC as int);
      stats.RaiseMax(Stats.TxtsAttempts, id, o.attempts);
      var a, b := Stats.Inc(Stats.Tx, MESSAGE_SYNC as int), Stats.SetMax(Stats.TxtsAttempts, id, o.attempts);
      TwoOps(a, b, first);
      if o.txTs.None? {
        stats.SetMissing();
        Stats.ApplyOneMore([a, b], Stats.MarkMissing, first);
      }
    }

    /** The end of a job whose last message, of type k, was sent; `ops` is what it has counted before. */
    method CountLast(c: SubscriptionClient, k: byte, o: Outcome, ghost ops: seq<Stats.Op>, ghost first: Stats.State)
      requires o.second && stats.View() == Stats.ApplyAll(ops, first)
      modifies stats, c`sequenceId
      ensures c.View() == IncSequenceId(old(c.View()))
      ensures stats.View() == Stats.ApplyAll(ops + LastOps(id, k, |queue.items|, o), first)
    {
      hide Stats.Apply, Stats.ApplyAll, Stats.OnlyChanged, Stats.Counters.Get, Stats.Counters.Set;
      stats.Increment(Stats.Tx, k as int);
      c.sequenceId := (c.sequenceId + 1) % 0x1_0000;
      stats.RaiseMax(Stats.WorkerQueue, id, |queue.items|);
      TwoOps(Stats.Inc(Stats.Tx, k as int), Stats.SetMax(Stats.WorkerQueue, id, |queue.items|), Stats.ApplyAll(ops, first));
      Stats.ApplyAllTwice(ops, LastOps(id, k, |queue.items|, o), first);
    }

    /** Sends the Sync and waits for its timestamp, in one of the two ways that kernels know. */
    method SendSyncMessage(c: SubscriptionClient, o: Outcome) returns (txTs: Option<Time>, wire: seq<Wired>)
      requires Valid() && Sendable(c.syncP)
      modifies buf, this`olderKernel, stats
      ensures stats.View() == Stats.ApplyAll(SyncOps(id, o), old(stats.View()))
      ensures txTs.Some? <==> o.first == SendOk && o.txTs.Some?
      ensures var r := SendSync(config.current, old(olderKernel), c.View(), o);
              txTs == r.txTs && olderKernel == r.olderKernel && AllFit(r.sent) && wire == OnWire(r.sent)
    {
      hide Sendable, Datagram;
      SendableFits(c.syncP);
      txTs, wire := None, [];
      if olderKernel {
        if o.first != SendOk {
          return;
        }
        var w := Send(c.syncP, true, c.eclisa);
        wire := [w];
        CountSync(o);
        if o.txTs.None? {
          return;
        }
        txTs := o.txTs;
        if !config.current.hardwareTimestamps {
          txTs := Some(txTs.value + config.current.utcOffset);
        }
      } else {
        if o.first == SendInvalid {
          olderKernel := true;
          return;
        } else if o.first != SendOk {
          return;
        }
        var w := Send(c.syncP, true, c.eclisa);
        wire := [w];
        CountSync(o);
        if o.txTs.None? {
          return;
        }
        txTs := o.txTs;
      }
    }

    method SyncJob(c: SubscriptionClient, o: Outcome) returns (wire: seq<Wired>)
      requires Valid() && PacketsFit(c.View()) && c.subscriptionType == MESSAGE_SYNC
      modifies buf, this`olderKernel, c, stats
      ensures var r := SyncStep(config.current, old(olderKernel), old(c.View()), o);
              c.View() == r.sub && olderKernel == r.olderKernel && AllFit(r.sent) && wire == OnWire(r.sent)
      ensures stats.View() == Stats.ApplyAll(JobOps(id, MESSAGE_SYNC, |queue.items|, o), old(stats.View()))
    {
      hide PacketsFit, Sendable, SendSync, Datagram, SyncOps, Stats.ApplyAll;
      ghost var s := c.View();
      NothingMore(SyncOps(id, o));
      c.SetSyncSequence();
      JobStepsFit(s, c.View());
      var txTs;
      txTs, wire := SendSyncMessage(c, o);
      if txTs.None? {
        return;
      }
      ghost var first := SendSync(config.current, old(olderKernel), c.View(), o).sent;
      c.SetFollowup(txTs.value, o.logInterval);
      JobStepsFit(s, c.View());
      if !o.second {
        return;
      }
      var w := Send(c.followupP, false, c.gclisa);
      wire := wire + [w];
      OnWireSnoc(first, Message(false, c.followupP, c.gclisa));
      CountLast(c, MESSAGE_FOLLOW_UP, o, SyncOps(id, o), old(stats.View()));
    }

    method AnnounceJob(c: SubscriptionClient, o: Outcome) returns (wire: seq<Wired>)
      requires Valid() && PacketsFit(c.View()) && c.serverConfig == config
      modifies buf, c, stats
      ensures var r := AnnounceStep(config.current, olderKernel, old(c.View()), o);
              c.View() == r.sub && AllFit(r.sent) && wire == OnWire(r.sent)
      ensures stats.View() == Stats.ApplyAll(JobOps(id, MESSAGE_ANNOUNCE, |queue.items|, o), old(stats.View()))
    {
      hide PacketsFit, Sendable, Datagram, Stats.ApplyAll;
      NoOps(stats.View());
      ghost var s := c.View();
      wire := [];
      c.SetAnnounce(o.logInterval);
      JobStepsFit(s, c.View());
      if !o.second {
        return;
      }
      var w := Send(c.announceP, false, c.gclisa);
      wire := [w];
      OnWireSnoc([], Message(false, c.announceP, c.gclisa));
      NothingMore(LastOps(id, MESSAGE_ANNOUNCE, |queue.items|, o));
      CountLast(c, MESSAGE_ANNOUNCE, o, [], old(stats.View()));
    }

    method DelayRespJob(c: SubscriptionClient, o: Outcome) returns (wire: seq<Wired>)
      requires Valid() && PacketsFit(c.View())
      modifies buf, c, stats
      ensures var r := DelayRespStep(olderKernel, old(c.View()), o);
              c.View() == r.sub && AllFit(r.sent) && wire == OnWire(r.sent)
      ensures stats.View() == Stats.ApplyAll(JobOps(id, MESSAGE_DELAY_RESP, |queue.items|, o), old(stats.View()))
    {
      hide PacketsFit, Sendable, Datagram, Stats.ApplyAll;
      NoOps(stats.View());
      wire := [];
      JobStepsFit(c.View(), c.View());
      if !o.second {
        return;
      }
      var w := Send(c.delayRespP, false, c.gclisa);
      wire := [w];
      OnWireSnoc([], Message(false, c.delayRespP, c.gclisa));
      NothingMore(LastOps(id, MESSAGE_DELAY_RESP, |queue.items|, o));
      CountLast(c, MESSAGE_DELAY_RESP, o, [], old(stats.View()));
    }

    method DelayReqJob(c: SubscriptionClient, o: Outcome) returns (wire: seq<Wired>)
      requires Valid() && PacketsFit(c.View())
      modifies buf, this`olderKernel, c, stats
      ensures var r := DelayReqStep(config.current, old(olderKernel), old(c.View()), o);
              c.View() == r.sub && olderKernel == r.olderKernel && AllFit(r.sent) && wire == OnWire(r.sent)
      ensures stats.View() == Stats.ApplyAll(JobOps(id, MESSAGE_DELAY_REQ, |queue.items|, o), old(stats.View()))
    {
      hide PacketsFit, Sendable, SendSync, Datagram, SyncOps, Stats.ApplyAll;
      ghost var s := c.View();
      NothingMore(SyncOps(id, o));
      JobStepsFit(s, s);
      var txTs;
      txTs, wire := SendSyncMessage(c, o);
      if txTs.None? {
        return;
      }
      ghost var first := SendSync(config.current, old(olderKernel), s, o).sent;
      c.SetAnnounceFollowUp(txTs.value);
      JobStepsFit(s, c.View());
      if !o.second {
        return;
      }
      var w := Send(c.announceP, false, c.gclisa);
      wire := wire + [w];
      OnWireSnoc(first, Message(false, c.announceP, c.gclisa));
      CountLast(c, MESSAGE_ANNOUNCE, o, SyncOps(id, o), old(stats.View()));
    }

    /**
     * One job off the queue. What is sent and what becomes of the subscription is what JobStep says, whatever the
     * kernel answers.
     */
    method TakeJob(o: Outcome) returns (wire: seq<Wired>)
      requires Valid() && queue.items != [] && PacketsFit(queue.items[0].View()) && queue.items[0].serverConfig == config
      modifies queue, buf, this`olderKernel, queue.items[0], stats
      ensures queue.items == old(queue.items[1..])
      ensures var c := old(queue.items[0]);
              var r := JobStep(config.current, old(olderKernel), old(queue.items[0].View()), o);
              c.View() == r.sub && olderKernel == r.olderKernel && AllFit(r.sent) && wire == OnWire(r.sent)
      ensures stats.View() ==
              Stats.ApplyAll(JobOps(id, old(queue.items[0].subscriptionType), |queue.items|, o), old(stats.View()))
    {
      hide PacketsFit, SyncStep, AnnounceStep, DelayRespStep, DelayReqStep, SyncOps, LastOps;
      StepsKeepKernel(config.current, olderKernel, queue.items[0].View(), o);
      var c := queue.items[0];
      queue.items := queue.items[1..];
      wire := [];
      if c.subscriptionType == MESSAGE_SYNC {
        wire := SyncJob(c, o);
      } else if c.subscriptionType == MESSAGE_ANNOUNCE {
        wire := AnnounceJob(c, o);
      } else if c.subscriptionType == MESSAGE_DELAY_RESP {
        wire := DelayRespJob(c, o);
      } else if c.subscriptionType == MESSAGE_DELAY_REQ {
        wire := DelayReqJob(c, o);
      }
    }

    /** One entry off the signaling queue; without TLVs the packet cannot be made, and nothing is sent. */
    method TakeSignaling(ok: bool) returns (wire: seq<Wired>)
      requires Valid() && signalingQueue.items != [] && PacketsFit(signalingQueue.items[0].View())
      modifies signalingQueue, buf, stats
      ensures signalingQueue.items == old(signalingQueue.items[1..])
      ensures var s := old(signalingQueue.items[0].View());
              stats.View() == Stats.ApplyAll(if SignalingSent(s, ok) == [] then [] else SignalingOps(s.signaling.tlvs, s.typ),
                                             old(stats.View()))
      ensures var sent := SignalingSent(old(signalingQueue.items[0].View()), ok); AllFit(sent) && wire == OnWire(sent)
    {
      hide Encode, EncodeTlvs, PacketsFit, Datagram, MarshalResult, BufferFits;
      var c := signalingQueue.items[0];
      signalingQueue.items := signalingQueue.items[1..];
      wire := [];
      SignalingFits(c.View());
      var n := BytesTo(c.signaling, buf);
      if n.Failure? || !ok {
        return;
      }
      wire := [Wired(false, buf[..n.value], c.gclisa)];
      OnWireSnoc([], Message(false, c.signaling, c.gclisa));
      assert buf[..n.value] == Datagram(c.signaling) by {
        DatagramIs(c.signaling);
      }
      CountTlvs(c.signaling.tlvs, c.subscriptionType);
    }

    /** The loop over the TLVs of a signaling packet that was sent. */
    method CountTlvs(ts: seq<Tlv>, typ: byte)
      modifies stats
      ensures stats.View() == Stats.ApplyAll(SignalingOps(ts, typ), old(stats.View()))
    {
      hide Stats.Apply, Stats.ApplyAll, Stats.OnlyChanged, Stats.Counters.Get, Stats.Counters.Set;
      NoOps(stats.View());
      for i := 0 to |ts|
        invariant stats.View() == Stats.ApplyAll(SignalingOps(ts[..i], typ), old(stats.View()))
      {
        assert ts[..i + 1][..i] == ts[..i];
        ghost var before := SignalingOps(ts[..i], typ);
        match ts[i] {
          case GrantUnicast(_, _, _, _, _, _) =>
            Stats.ApplyOneMore(before, Stats.Inc(Stats.TxSignalingGrant, typ as int), old(stats.View()));
            stats.Increment(Stats.TxSignalingGrant, typ as int);
          case CancelUnicast(_, _, _) =>
            Stats.ApplyOneMore(before, Stats.Inc(Stats.TxSignalingCancel, typ as int), old(stats.View()));
            stats.Increment(Stats.TxSignalingCancel, typ as int);
          case _ =>
        }
      }
      assert ts[..|ts|] == ts;
    }
  }

  lemma NoOps(s: Stats.State)
    ensures Stats.ApplyAll([], s) == s
  {
  }

  lemma TwoOps(a: Stats.Op, b: Stats.Op, s: Stats.State)
    ensures Stats.ApplyAll([a, b], s) == Stats.Apply(b, Stats.Apply(a, s))
  {
    hide Stats.Apply;
    NoOps(s);
    Stats.ApplyOneMore([], a, s);
    Stats.ApplyOneMore([a], b, s);
    assert [] + [a] == [a];
    assert [a] + [b] == [a, b];
  }

  /** A packet that a worker's buffer takes, with its two trailing octets. */
  predicate Sendable(p: Packet) {
    && AllEncodable(TlvsOf(p)) && MarshalResult(p, PAYLOAD_SIZE).Success? && BufferFits(p, PAYLOAD_SIZE)
    && |Encode(p)| + 2 <= PAYLOAD_SIZE
  }

  lemma SendableFits(p: Packet)
    requires Sendable(p)
    ensures AllEncodable(TlvsOf(p))
  {
  }

  lemma OnWireSnoc(ms: seq<Message>, m: Message)
    requires AllFit(ms) && AllEncodable(TlvsOf(m.packet))
    ensures AllFit(ms + [m]) && OnWire(ms + [m]) == OnWire(ms) + [Wired(m.event, Datagram(m.packet), m.to)]
  {
    assert (ms + [m])[..|ms|] == ms;
  }

  lemma SubPacketsSend(s: Sub)
    requires PacketsFit(s)
    ensures Sendable(s.syncP) && Sendable(s.followupP) && Sendable(s.announceP) && Sendable(s.delayRespP)
  {
    hide Encode;
    PacketsAreSmall(s);
  }

  /** A subscription changed by the steps of a job still has packets that go into the buffer. */
  lemma JobStepsFit(s: Sub, t: Sub)
    requires PacketsFit(s) && SameFrames(s, t) && s.signaling == t.signaling
    ensures PacketsFit(t)
    ensures Sendable(t.syncP) && Sendable(t.followupP) && Sendable(t.announceP) && Sendable(t.delayRespP)
    ensures AllEncodable(TlvsOf(t.syncP)) && AllEncodable(TlvsOf(t.followupP))
    ensures AllEncodable(TlvsOf(t.announceP)) && AllEncodable(TlvsOf(t.delayRespP))
  {
    hide Encode;
    SubPacketsSend(t);
  }

  lemma SignalingFits(s: Sub)
    requires PacketsFit(s)
    ensures s.signaling.tlvs == [] <==> MarshalResult(s.signaling, PAYLOAD_SIZE).Failure?
    ensures BufferFits(s.signaling, PAYLOAD_SIZE) && AllEncodable(s.signaling.tlvs)
    ensures |Encode(s.signaling)| + 2 <= PAYLOAD_SIZE
  {
    hide Encode;
    PacketsAreSmall(s);
    EnoughBufferFits(s.signaling, PAYLOAD_SIZE);
  }

  lemma DatagramIs(p: Packet)
    requires AllEncodable(TlvsOf(p))
    ensures Datagram(p) == Encode(p) + [0, 0]
  {
  }

  lemma StepsKeepKernel(cfg: Config, olderKernel: bool, s: Sub, o: Outcome)
    ensures AnnounceStep(cfg, olderKernel, s, o).olderKernel == olderKernel
    ensures DelayRespStep(olderKernel, s, o).olderKernel == olderKernel
  {
  }
}
