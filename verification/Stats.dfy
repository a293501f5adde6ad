/** Live counters and the report copied from them: stats/stats.go and stats/json.go. */
module Stats {
  import opened Wire

  type Counts = map<int, int>

  /** The ten counter maps. */
  datatype Counter =
    | Rx | RxSignalingGrant | RxSignalingCancel | Subscriptions | Tx | TxSignalingGrant | TxSignalingCancel
    | TxtsAttempts | WorkerQueue | WorkerSubs

  /** The single values that are stored, not counted. */
  datatype Gauges = Gauges(utcOffsetSec: i64, clockAccuracy: i64, clockClass: i64, drain: i64, reload: i64, txtsMissing: i64)

  const NO_GAUGES := Gauges(0, 0, 0, 0, 0, 0)

  const TWO64: int := 0x1_0000_0000_0000_0000

  function Load(m: Counts, key: int): int {
    if key in m then m[key] else 0
  }

  function Add(m: Counts, key: int, delta: int): Counts {
    m[key := Wrap64(Load(m, key) + delta)]
  }

  function Zeroed(m: Counts): Counts {
    map key | key in m :: 0
  }

  /** store only what is larger than what is there; a missing key counts as 0 and stays missing. */
  function KeptMax(m: Counts, key: int, value: int): Counts {
    if value > Load(m, key) then m[key := value] else m
  }

  datatype Counters = Counters(
    rx: Counts,
    rxSignalingGrant: Counts,
    rxSignalingCancel: Counts,
    subscriptions: Counts,
    tx: Counts,
    txSignalingGrant: Counts,
    txSignalingCancel: Counts,
    txtsAttempts: Counts,
    workerQueue: Counts,
    workerSubs: Counts,
    gauges: Gauges)
  {
    function Get(n: Counter): Counts {
      match n
      case Rx => rx
      case RxSignalingGrant => rxSignalingGrant
      case RxSignalingCancel => rxSignalingCancel
      case Subscriptions => subscriptions
      case Tx => tx
      case TxSignalingGrant => txSignalingGrant
      case TxSignalingCancel => txSignalingCancel
      case TxtsAttempts => txtsAttempts
      case WorkerQueue => workerQueue
      case WorkerSubs => workerSubs
    }

    function Set(n: Counter, m: Counts): Counters {
      match n
      case Rx => this.(rx := m)
      case RxSignalingGrant => this.(rxSignalingGrant := m)
      case RxSignalingCancel => this.(rxSignalingCancel := m)
      case Subscriptions => this.(subscriptions := m)
      case Tx => this.(tx := m)
      case TxSignalingGrant => this.(txSignalingGrant := m)
      case TxSignalingCancel => this.(txSignalingCancel := m)
      case TxtsAttempts => this.(txtsAttempts := m)
      case WorkerQueue => this.(workerQueue := m)
      case WorkerSubs => this.(workerSubs := m)
    }
  }

  const EMPTY := Counters(map[], map[], map[], map[], map[], map[], map[], map[], map[], map[], NO_GAUGES)

  /** Every live counter stored over its report; keys that only the report has would stay. */
  function Copied(live: Counters, report: Counters): Counters {
    Counters(
      report.rx + live.rx,
      report.rxSignalingGrant + live.rxSignalingGrant,
      report.rxSignalingCancel + live.rxSignalingCancel,
      report.subscriptions + live.subscriptions,
      report.tx + live.tx,
      report.txSignalingGrant + live.txSignalingGrant,
      report.txSignalingCancel + live.txSignalingCancel,
      report.txtsAttempts + live.txtsAttempts,
      report.workerQueue + live.workerQueue,
      report.workerSubs + live.workerSubs,
      live.gauges)
  }

  function Cleared(live: Counters): Counters {
    Counters(
      Zeroed(live.rx),
      Zeroed(live.rxSignalingGrant),
      Zeroed(live.rxSignalingCancel),
      Zeroed(live.subscriptions),
      Zeroed(live.tx),
      Zeroed(live.txSignalingGrant),
      Zeroed(live.txSignalingCancel),
      Zeroed(live.txtsAttempts),
      Zeroed(live.workerQueue),
      Zeroed(live.workerSubs),
      NO_GAUGES)
  }

  lemma CopiedGet(live: Counters, report: Counters, n: Counter)
    ensures Copied(live, report).Get(n) == report.Get(n) + live.Get(n)
  {
  }

  lemma ClearedGet(live: Counters, n: Counter)
    ensures Cleared(live).Get(n) == Zeroed(live.Get(n))
  {
  }

  lemma SetGet(c: Counters, n: Counter, m: Counts, k: Counter)
    ensures c.Set(n, m).Get(k) == if k == n then m else c.Get(k)
  {
  }

  lemma GaugesGet(c: Counters, g: Gauges, n: Counter)
    ensures c.(gauges := g).Get(n) == c.Get(n)
  {
  }

  lemma EmptyGet(n: Counter)
    ensures EMPTY.Get(n) == map[]
  {
  }

  lemma SameCounters(a: Counters, b: Counters)
    requires a.gauges == b.gauges && forall n: Counter :: a.Get(n) == b.Get(n)
    ensures a == b
  {
    assert
      && a.Get(Rx) == b.Get(Rx)
      && a.Get(RxSignalingGrant) == b.Get(RxSignalingGrant)
      && a.Get(RxSignalingCancel) == b.Get(RxSignalingCancel)
      && a.Get(Subscriptions) == b.Get(Subscriptions)
      && a.Get(Tx) == b.Get(Tx)
      && a.Get(TxSignalingGrant) == b.Get(TxSignalingGrant)
      && a.Get(TxSignalingCancel) == b.Get(TxSignalingCancel)
      && a.Get(TxtsAttempts) == b.Get(TxtsAttempts)
      && a.Get(WorkerQueue) == b.Get(WorkerQueue)
      && a.Get(WorkerSubs) == b.Get(WorkerSubs);
  }

  datatype State = State(live: Counters, report: Counters)

  // -------------------------------------------------------- the operations

  datatype Op =
    | Inc(n: Counter, key: int)
    | Dec(n: Counter, key: int)
    | SetMax(n: Counter, key: int, value: int)
    | MarkMissing
    | Snapshot
    | Reset

  /** Which counters the interface lets an operation touch. */
  predicate Allowed(op: Op) {
    match op
    case SetMax(n, _, _) => n == WorkerQueue || n == TxtsAttempts
    case Inc(n, _) => n != WorkerQueue && n != TxtsAttempts
    case Dec(n, _) => n != WorkerQueue && n != TxtsAttempts
    case _ => true
  }

  function Apply(op: Op, s: State): State {
    match op
    case Inc(n, key) => s.(live := s.live.Set(n, Add(s.live.Get(n), key, 1)))
    case Dec(n, key) => s.(live := s.live.Set(n, Add(s.live.Get(n), key, -1)))
    case SetMax(n, key, value) => s.(live := s.live.Set(n, KeptMax(s.live.Get(n), key, value)))
    case MarkMissing => s.(live := s.live.(gauges := s.live.gauges.(txtsMissing := 1)))
    case Snapshot => s.(report := Copied(s.live, s.report))
    case Reset => s.(live := Cleared(s.live))
  }

  /** A row of operations, from any state. */
  function ApplyAll(ops: seq<Op>, s: State): State {
    if ops == [] then s else Apply(ops[|ops| - 1], ApplyAll(ops[..|ops| - 1], s))
  }

  lemma ApplyOneMore(ops: seq<Op>, op: Op, s: State)
    ensures ApplyAll(ops + [op], s) == Apply(op, ApplyAll(ops, s))
  {
    assert (ops + [op])[..|ops|] == ops;
  }

  lemma {:induction false} ApplyAllTwice(a: seq<Op>, b: seq<Op>, s: State)
    ensures ApplyAll(a + b, s) == ApplyAll(b, ApplyAll(a, s))
  {
    hide Apply;
    if b == [] {
      assert a + b == a;
    } else {
      assert (a + b)[..|a + b| - 1] == a + b[..|b| - 1];
      ApplyAllTwice(a, b[..|b| - 1], s);
    }
  }

  function Run(ops: seq<Op>): State {
    if ops == [] then State(EMPTY, EMPTY)
    else Apply(ops[|ops| - 1], Run(ops[..|ops| - 1]))
  }

  /** One operation, seen from one counter. */
  lemma ApplyGet(op: Op, s: State, n: Counter)
    ensures Apply(op, s).live.Get(n) ==
            match op
            case Inc(k, key) => if k == n then Add(s.live.Get(n), key, 1) else s.live.Get(n)
            case Dec(k, key) => if k == n then Add(s.live.Get(n), key, -1) else s.live.Get(n)
            case SetMax(k, key, value) => if k == n then KeptMax(s.live.Get(n), key, value) else s.live.Get(n)
            case MarkMissing => s.live.Get(n)
            case Snapshot => s.live.Get(n)
            case Reset => Zeroed(s.live.Get(n))
    ensures Apply(op, s).report.Get(n) == if op == Snapshot then s.report.Get(n) + s.live.Get(n) else s.report.Get(n)
  {
    hide Copied, Cleared, Counters.Get, Counters.Set, Add, KeptMax, Zeroed;
    match op {
      case Inc(k, key) => SetGet(s.live, k, Add(s.live.Get(k), key, 1), n);
      case Dec(k, key) => SetGet(s.live, k, Add(s.live.Get(k), key, -1), n);
      case SetMax(k, key, value) => SetGet(s.live, k, KeptMax(s.live.Get(k), key, value), n);
      case MarkMissing => GaugesGet(s.live, s.live.gauges.(txtsMissing := 1), n);
      case Snapshot => CopiedGet(s.live, s.report, n);
      case Reset => ClearedGet(s.live, n);
    }
  }

  /** Between two states one key of one live counter may differ, and nothing else. */
  ghost predicate OnlyChanged(s: State, t: State, n: Counter, key: int) {
    && t.report == s.report && t.live.gauges == s.live.gauges
    && (forall k: Counter | k != n :: t.live.Get(k) == s.live.Get(k))
    && (forall k | k != key :: k in t.live.Get(n) <==> k in s.live.Get(n))
    && (forall k | k != key && k in s.live.Get(n) :: t.live.Get(n)[k] == s.live.Get(n)[k])
  }

  lemma ApplyGetAll(op: Op, s: State)
    requires op.Inc? || op.Dec? || op.SetMax?
    ensures OnlyChanged(s, Apply(op, s), op.n, op.key)
    ensures var m, m' := s.live.Get(op.n), Apply(op, s).live.Get(op.n);
            match op
            case Inc(_, key) => m' == Add(m, key, 1)
            case Dec(_, key) => m' == Add(m, key, -1)
            case SetMax(_, key, value) => m' == KeptMax(m, key, value)
            case _ => true
  {
    hide Counters.Get;
    forall k: Counter ensures k != op.n ==> Apply(op, s).live.Get(k) == s.live.Get(k) {
      ApplyGet(op, s, k);
    }
    ApplyGet(op, s, op.n);
    SetGauges(s.live, op.n, Apply(op, s).live.Get(op.n));
  }

  lemma SetGauges(c: Counters, n: Counter, m: Counts)
    ensures c.Set(n, m).gauges == c.gauges
  {
  }

  // ------------------------------------------------------ over whole runs

  /** A report never knows a key that the live counters lack. */
  lemma {:induction false} ReportKeysAreLive(ops: seq<Op>, n: Counter)
    ensures Run(ops).report.Get(n).Keys <= Run(ops).live.Get(n).Keys
  {
    hide Apply, Counters.Get;
    EmptyGet(n);
    if ops != [] {
      ReportKeysAreLive(ops[..|ops| - 1], n);
      ApplyGet(ops[|ops| - 1], Run(ops[..|ops| - 1]), n);
    }
  }

  /** So after a snapshot each report map is the live map, with nothing left over from earlier reports. */
  lemma SnapshotIsExact(ops: seq<Op>)
    requires ops != [] && ops[|ops| - 1] == Snapshot
    ensures Run(ops).report == Run(ops).live
  {
    var before := Run(ops[..|ops| - 1]);
    forall n: Counter ensures Run(ops).report.Get(n) == Run(ops).live.Get(n) {
      hide Apply, Counters.Get;
      ReportKeysAreLive(ops[..|ops| - 1], n);
      ApplyGet(ops[|ops| - 1], before, n);
      assert before.report.Get(n) + before.live.Get(n) == before.live.Get(n);
    }
    SameCounters(Run(ops).report, Run(ops).live);
  }

  /** Increments minus decrements of one counter. */
  function Net(ops: seq<Op>, n: Counter, key: int): int {
    if ops == [] then 0
    else
      var op := ops[|ops| - 1];
      Net(ops[..|ops| - 1], n, key) + (if op == Inc(n, key) then 1 else if op == Dec(n, key) then -1 else 0)
  }

  /** A row of increments and decrements from any state adds up, modulo the width of a counter. */
  lemma {:induction false} CountsAddUp(ops: seq<Op>, s: State, n: Counter, key: int)
    requires Reset !in ops && (forall i | 0 <= i < |ops| :: Allowed(ops[i]))
    requires n != WorkerQueue && n != TxtsAttempts
    ensures (Load(ApplyAll(ops, s).live.Get(n), key) - Load(s.live.Get(n), key) - Net(ops, n, key)) % TWO64 == 0
  {
    hide Apply, Counters.Get;
    if ops != [] {
      var before, op := ops[..|ops| - 1], ops[|ops| - 1];
      CountsAddUp(before, s, n, key);
      ApplyGet(op, ApplyAll(before, s), n);
      if op == Inc(n, key) || op == Dec(n, key) {
        var delta := if op == Inc(n, key) then 1 else -1;
        var was := Load(ApplyAll(before, s).live.Get(n), key);
        SumOfMultiples(was - Load(s.live.Get(n), key) - Net(before, n, key), Wrap64(was + delta) - (was + delta));
      }
    }
  }

  /** The sum of what the report showed each time the live counters were reset. */
  function Reported(ops: seq<Op>, n: Counter, key: int): int {
    if ops == [] then 0
    else
      var before := ops[..|ops| - 1];
      Reported(before, n, key) + (if ops[|ops| - 1] == Reset then Load(Run(before).report.Get(n), key) else 0)
  }

  /** The metric loop resets right after it took a snapshot. */
  predicate ResetsFollowSnapshots(ops: seq<Op>) {
    forall i | 0 <= i < |ops| && ops[i] == Reset :: 0 < i && ops[i - 1] == Snapshot
  }

  /** No count is lost: what was reported plus what is live is what was counted, modulo the width of a counter. */
  lemma {:induction false} Conservation(ops: seq<Op>, n: Counter, key: int)
    requires ResetsFollowSnapshots(ops) && (forall i | 0 <= i < |ops| :: Allowed(ops[i]))
    requires n != WorkerQueue && n != TxtsAttempts
    ensures (Reported(ops, n, key) + Load(Run(ops).live.Get(n), key) - Net(ops, n, key)) % TWO64 == 0
  {
    hide Apply, Counters.Get;
    EmptyGet(n);
    if ops != [] {
      var before, op := ops[..|ops| - 1], ops[|ops| - 1];
      Conservation(before, n, key);
      ApplyGet(op, Run(before), n);
      if op == Reset {
        assert before[|before| - 1] == Snapshot;
        SnapshotIsExact(before);
      } else if op == Inc(n, key) || op == Dec(n, key) {
        var delta := if op == Inc(n, key) then 1 else -1;
        var was := Load(Run(before).live.Get(n), key);
        SumOfMultiples(Reported(before, n, key) + was - Net(before, n, key), Wrap64(was + delta) - (was + delta));
      }
    }
  }

  lemma SumOfMultiples(a: int, b: int)
    requires a % TWO64 == 0 && b % TWO64 == 0
    ensures (a + b) % TWO64 == 0
  {
  }

  /** The largest value set since the last reset, at least 0. */
  function MaxSinceReset(ops: seq<Op>, n: Counter, key: int): int {
    if ops == [] then 0
    else
      var op, max := ops[|ops| - 1], MaxSinceReset(ops[..|ops| - 1], n, key);
      if op == Reset then 0
      else if op.SetMax? && op.n == n && op.key == key && op.value > max then op.value
      else max
  }

  lemma {:induction false} MaxIsTheMax(ops: seq<Op>, n: Counter, key: int)
    requires n == WorkerQueue || n == TxtsAttempts
    requires forall i | 0 <= i < |ops| :: Allowed(ops[i])
    ensures Load(Run(ops).live.Get(n), key) == MaxSinceReset(ops, n, key)
    ensures 0 <= MaxSinceReset(ops, n, key)
    ensures forall i | 0 <= i < |ops| && ops[i].SetMax? && ops[i].n == n && ops[i].key == key && Reset !in ops[i..] ::
              ops[i].value <= MaxSinceReset(ops, n, key)
  {
    hide Apply, Counters.Get;
    EmptyGet(n);
    if ops != [] {
      var before := ops[..|ops| - 1];
      MaxIsTheMax(before, n, key);
      ApplyGet(ops[|ops| - 1], Run(before), n);
      assert Allowed(ops[|ops| - 1]);
      forall i | 0 <= i < |ops| && ops[i].SetMax? && ops[i].n == n && ops[i].key == key && Reset !in ops[i..]
        ensures ops[i].value <= MaxSinceReset(ops, n, key)
      {
        assert ops[|ops| - 1] == ops[i..][|ops| - 1 - i];
        if i < |before| {
          assert before[i..] == ops[i..][..|before| - i];
        }
      }
    }
  }

  /** A row of operations without reset takes a SetMax counter to the largest value set, or leaves it. */
  lemma {:induction false} MaxFrom(ops: seq<Op>, s: State, n: Counter, key: int)
    requires Reset !in ops && (forall i | 0 <= i < |ops| :: Allowed(ops[i]))
    requires (n == WorkerQueue || n == TxtsAttempts) && 0 <= Load(s.live.Get(n), key)
    ensures var was, max := Load(s.live.Get(n), key), MaxSinceReset(ops, n, key);
            Load(ApplyAll(ops, s).live.Get(n), key) == if max > was then max else was
  {
    hide Apply, Counters.Get;
    if ops != [] {
      MaxFrom(ops[..|ops| - 1], s, n, key);
      ApplyGet(ops[|ops| - 1], ApplyAll(ops[..|ops| - 1], s), n);
    }
  }

  /** And it marks a missing timestamp exactly if one of them does; no other gauge changes. */
  lemma {:induction false} MissingFrom(ops: seq<Op>, s: State)
    requires Reset !in ops
    ensures ApplyAll(ops, s).live.gauges == if MarkMissing in ops then s.live.gauges.(txtsMissing := 1) else s.live.gauges
  {
    hide Counters.Get;
    if ops != [] {
      var before, op := ops[..|ops| - 1], ops[|ops| - 1];
      assert ops == before + [op];
      MissingFrom(before, s);
      if op.Inc? || op.Dec? || op.SetMax? {
        GaugesStay(op, ApplyAll(before, s));
      }
    }
  }

  lemma GaugesStay(op: Op, s: State)
    requires op.Inc? || op.Dec? || op.SetMax?
    ensures Apply(op, s).live.gauges == s.live.gauges
  {
    hide Apply, Counters.Get;
    ApplyGetAll(op, s);
  }

  /** A reset leaves every key, with nothing counted, and no gauge. */
  lemma ResetClears(s: State, n: Counter, key: int)
    ensures var s' := Apply(Reset, s);
            && Load(s'.live.Get(n), key) == 0 && s'.live.Get(n).Keys == s.live.Get(n).Keys
            && s'.live.gauges == Gauges(0, 0, 0, 0, 0, 0) && s'.report == s.report
  {
    ClearedGet(s.live, n);
  }

  /** A snapshot puts every live count into the report, and the gauges, and leaves the live side alone. */
  lemma SnapshotCopies(s: State, n: Counter, key: int)
    ensures var s' := Apply(Snapshot, s);
            && s'.live == s.live && s'.report.gauges == s.live.gauges
            && (key in s.live.Get(n) ==> key in s'.report.Get(n) && s'.report.Get(n)[key] == s.live.Get(n)[key])
            && (key !in s.live.Get(n) ==> (key in s'.report.Get(n) <==> key in s.report.Get(n)))
  {
    CopiedGet(s.live, s.report, n);
  }

  // --------------------------------------------------------- the real loops

  /** syncMapInt64.copy: stores every entry of src into dst. */
  method CopyCounts(src: Counts, dst: Counts) returns (r: Counts)
    ensures r == dst + src
  {
    r := dst;
    var keys: set<int> := src.Keys;
    while keys != {}
      invariant keys <= src.Keys
      invariant r == dst + (map k | k in src && k !in keys :: src[k])
      decreases |keys|
    {
      ghost var some := SomeElement(keys);
      var t :| t in keys;
      r := r[t := Load(src, t)];
      keys := keys - {t};
    }
    assert (map k | k in src && k !in keys :: src[k]) == src;
  }

  /** syncMapInt64.reset: the keys stay. */
  method ClearCounts(m: Counts) returns (r: Counts)
    ensures r == Zeroed(m)
  {
    r := m;
    var keys: set<int> := m.Keys;
    while keys != {}
      invariant keys <= m.Keys && r.Keys == m.Keys
      invariant forall k | k in m :: r[k] == if k in keys then m[k] else 0
      decreases |keys|
    {
      ghost var some := SomeElement(keys);
      var t :| t in keys;
      r := r[t := 0];
      keys := keys - {t};
    }
    assert r == Zeroed(m) by {
      assert forall k | k in m :: r[k] == Zeroed(m)[k];
    }
  }

  class JsonStats {
    var live: Counters
    var report: Counters

    ghost function View(): State
      reads this
    {
      State(live, report)
    }

    constructor ()
      ensures View() == Run([])
    {
      live, report := EMPTY, EMPTY;
    }

    /** The eight Inc methods: one key of one counter goes up by one, and nothing else changes. */
    method Increment(n: Counter, key: int)
      modifies this
      ensures View() == Apply(Inc(n, key), old(View()))
      ensures OnlyChanged(old(View()), View(), n, key)
      ensures key in live.Get(n) && live.Get(n)[key] == Wrap64(old(Load(live.Get(n), key)) + 1)
    {
      ApplyGetAll(Inc(n, key), View());
      live := live.Set(n, Add(live.Get(n), key, 1));
    }

    /** The seven Dec methods: one key of one counter goes down by one. */
    method Decrement(n: Counter, key: int)
      modifies this
      ensures View() == Apply(Dec(n, key), old(View()))
      ensures OnlyChanged(old(View()), View(), n, key)
      ensures key in live.Get(n) && live.Get(n)[key] == Wrap64(old(Load(live.Get(n), key)) - 1)
    {
      ApplyGetAll(Dec(n, key), View());
      live := live.Set(n, Add(live.Get(n), key, -1));
    }

    /** SetMaxWorkerQueue and SetMaxTXTSAttempts: the key holds the larger of the two, a missing one counting as 0. */
    method RaiseMax(n: Counter, key: int, value: int)
      modifies this
      ensures View() == Apply(SetMax(n, key, value), old(View()))
      ensures OnlyChanged(old(View()), View(), n, key)
      ensures old(Load(live.Get(n), key)) <= Load(live.Get(n), key) && value <= Load(live.Get(n), key)
      ensures Load(live.Get(n), key) == value || Load(live.Get(n), key) == old(Load(live.Get(n), key))
    {
      ApplyGetAll(SetMax(n, key, value), View());
      if value > Load(live.Get(n), key) {
        live := live.Set(n, live.Get(n)[key := value]);
      } else {
        SameCounters(live.Set(n, live.Get(n)), live);
      }
    }

    /** IncTXTSMissing stores a 1. */
    method SetMissing()
      modifies this
      ensures View() == Apply(MarkMissing, old(View()))
    {
      live := live.(gauges := live.gauges.(txtsMissing := 1));
    }

    /** Snapshot: every live counter is copied over its report, then the gauges. */
    method TakeSnapshot()
      modifies this
      ensures View() == Apply(Snapshot, old(View()))
    {
      var subscriptions := CopyCounts(live.subscriptions, report.subscriptions);
      var rx := CopyCounts(live.rx, report.rx);
      var tx := CopyCounts(live.tx, report.tx);
      var rxSignalingGrant := CopyCounts(live.rxSignalingGrant, report.rxSignalingGrant);
      var rxSignalingCancel := CopyCounts(live.rxSignalingCancel, report.rxSignalingCancel);
      var txSignalingGrant := CopyCounts(live.txSignalingGrant, report.txSignalingGrant);
      var txSignalingCancel := CopyCounts(live.txSignalingCancel, report.txSignalingCancel);
      var workerQueue := CopyCounts(live.workerQueue, report.workerQueue);
      var workerSubs := CopyCounts(live.workerSubs, report.workerSubs);
      var txtsAttempts := CopyCounts(live.txtsAttempts, report.txtsAttempts);
      report := Counters(rx, rxSignalingGrant, rxSignalingCancel, subscriptions, tx, txSignalingGrant,
        txSignalingCancel, txtsAttempts, workerQueue, workerSubs, live.gauges);
    }

    /** Reset: every live counter goes to 0, and the gauges with them. */
    method ResetAll()
      modifies this
      ensures View() == Apply(Reset, old(View()))
    {
      var subscriptions := ClearCounts(live.subscriptions);
      var rx := ClearCounts(live.rx);
      var tx := ClearCounts(live.tx);
      var rxSignalingGrant := ClearCounts(live.rxSignalingGrant);
      var rxSignalingCancel := ClearCounts(live.rxSignalingCancel);
      var txSignalingGrant := ClearCounts(live.txSignalingGrant);
      var txSignalingCancel := ClearCounts(live.txSignalingCancel);
      var workerQueue := ClearCounts(live.workerQueue);
      var workerSubs := ClearCounts(live.workerSubs);
      var txtsAttempts := ClearCounts(live.txtsAttempts);
      live := Counters(rx, rxSignalingGrant, rxSignalingCancel, subscriptions, tx, txSignalingGrant, txSignalingCancel,
        txtsAttempts, workerQueue, workerSubs, NO_GAUGES);
    }
  }
}
