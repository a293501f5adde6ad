/** Over every run of the server: which entry of a queue is taken when, and what it sends. */
module Deliveries {
  import opened Wire
  import opened Types
  import opened Tlvs
  import opened Packets
  import opened Subscription
  import opened Jobs
  import opened Machine
  import opened Invariants
  import opened Handlers
  import opened Queues
  import opened Runs

  // -------------------------------------------------------- entries, in order

  /** Everything ever put into a queue before step i. */
  ghost function Ever(states: seq<State>, steps: seq<Step>, l: Lane, w: nat, i: nat): seq<Ref>
    requires |states| == |steps| + 1 && i <= |steps|
  {
    if i == 0 then [] else Ever(states, steps, l, w, i - 1) + PutAt(states, steps, l, w, i - 1)
  }

  ghost function PutAt(states: seq<State>, steps: seq<Step>, l: Lane, w: nat, i: nat): seq<Ref>
    requires |states| == |steps| + 1 && i < |steps|
  {
    if Shaped(states[i]) then AddedAt(states[i], l, steps[i], states[i + 1], w) else []
  }

  /** How many entries of a queue were taken before step i. */
  function Taken(steps: seq<Step>, l: Lane, w: nat, i: nat): nat
    requires i <= |steps|
  {
    if i == 0 then 0 else Taken(steps, l, w, i - 1) + (if TakesAt(l, steps[i - 1]) == Some(w) then 1 else 0)
  }

  /**
   * A queue holds what was put in and not taken yet, in this order: no entry of any subscription is lost, doubled or
   * overtaken.
   */
  lemma {:induction false} QueueIsTheRest(states: seq<State>, steps: seq<Step>, l: Lane, w: nat, i: nat)
    requires Execution(states, steps) && i <= |steps| && w < |states[i].workers|
    ensures Taken(steps, l, w, i) <= |Ever(states, steps, l, w, i)|
    ensures QueueOf(states[i], l, w) == Ever(states, steps, l, w, i)[Taken(steps, l, w, i)..]
  {
    hide Good, Execution, PutAt, QueueOf, Grows;
    if i > 0 {
      ExecutionLength(states, steps);
      SameWorkers(states, steps, i - 1, i);
      QueueIsTheRest(states, steps, l, w, i - 1);
      QueueMoves(states, steps, l, w, i - 1);
      var n := Taken(steps, l, w, i - 1);
      RestFollows(Ever(states, steps, l, w, i - 1), n, PutAt(states, steps, l, w, i - 1));
    } else {
      EmptyAtFirst(states, steps, l, w);
    }
  }

  lemma QueueMoves(states: seq<State>, steps: seq<Step>, l: Lane, w: nat, i: nat)
    requires Execution(states, steps) && i < |steps| && w < |states[i].workers| && w < |states[i + 1].workers|
    ensures TakesAt(l, steps[i]) == Some(w) ==> QueueOf(states[i], l, w) != []
    ensures QueueOf(states[i + 1], l, w) ==
            (if TakesAt(l, steps[i]) == Some(w) then QueueOf(states[i], l, w)[1..] else QueueOf(states[i], l, w))
            + PutAt(states, steps, l, w, i)
  {
    hide Good, Execution, AddedAt, QueueOf, Enabled, Next;
    ExecutionLength(states, steps);
    Reachable(states, steps, i + 1);
    GoodIsShaped(states[i]);
    StepFollows(states[i], l, steps[i], w);
  }

  lemma EmptyAtFirst(states: seq<State>, steps: seq<Step>, l: Lane, w: nat)
    requires Execution(states, steps) && w < |states[0].workers|
    ensures |states| == |steps| + 1 && QueueOf(states[0], l, w) == []
  {
  }

  lemma SameWorkers(states: seq<State>, steps: seq<Step>, i: nat, j: nat)
    requires Execution(states, steps) && i <= j <= |steps|
    ensures |states[i].workers| == |states[j].workers|
  {
    hide Execution;
    ExecutionLength(states, steps);
    GrowsAlong(states, steps, i, j);
  }

  lemma RestFollows(ever: seq<Ref>, n: nat, added: seq<Ref>)
    requires n <= |ever|
    ensures (ever + added)[n..] == ever[n..] + added
    ensures n < |ever| ==> (ever + added)[n + 1..] == ever[n..][1..] + added
  {
  }

  lemma {:induction false} EverGrows(states: seq<State>, steps: seq<Step>, l: Lane, w: nat, i: nat, j: nat)
    requires |states| == |steps| + 1 && i <= j <= |steps|
    ensures Ever(states, steps, l, w, i) <= Ever(states, steps, l, w, j)
    decreases j - i
  {
    hide PutAt;
    if i < j {
      EverGrows(states, steps, l, w, i, j - 1);
    }
  }

  /** Step i puts sc into a queue of worker w. */
  ghost predicate PutsIn(states: seq<State>, steps: seq<Step>, l: Lane, w: nat, i: nat, sc: Ref) {
    |states| == |steps| + 1 && i < |steps| && PutAt(states, steps, l, w, i) == [sc]
  }

  /** Step j takes the entry that step i put in: as many were taken before j as were put in before i. */
  ghost predicate TakesEntry(states: seq<State>, steps: seq<Step>, l: Lane, w: nat, i: nat, j: nat) {
    && |states| == |steps| + 1 && i < j < |steps| && TakesAt(l, steps[j]) == Some(w)
    && Taken(steps, l, w, j) == |Ever(states, steps, l, w, i)|
  }

  /** That entry is then at the front, and it is the subscription that was put in. */
  lemma TakenIsWhatWasPutIn(states: seq<State>, steps: seq<Step>, l: Lane, w: nat, i: nat, j: nat, sc: Ref)
    requires Execution(states, steps) && PutsIn(states, steps, l, w, i, sc) && TakesEntry(states, steps, l, w, i, j)
    ensures w < |states[j].workers| && QueueOf(states[j], l, w) != [] && QueueOf(states[j], l, w)[0] == sc
  {
    hide Good, Execution, AddedAt, Ever;
    Reachable(states, steps, j + 1);
    TakerIsThere(states[j], l, steps[j], w);
    QueueIsTheRest(states, steps, l, w, j);
    EverGrows(states, steps, l, w, i + 1, j);
    EverStep(states, steps, l, w, i);
  }

  lemma EverStep(states: seq<State>, steps: seq<Step>, l: Lane, w: nat, i: nat)
    requires |states| == |steps| + 1 && i < |steps|
    ensures Ever(states, steps, l, w, i + 1) == Ever(states, steps, l, w, i) + PutAt(states, steps, l, w, i)
  {
  }

  lemma TakerIsThere(s: State, l: Lane, step: Step, w: nat)
    requires Good(s) && Enabled(s, step) && TakesAt(l, step) == Some(w)
    ensures w < |s.workers|
  {
  }

  // ------------------------------------------------------------ last written

  /** Step k builds what an entry of sc sends. */
  ghost predicate WritesAt(states: seq<State>, steps: seq<Step>, l: Lane, k: nat, sc: Ref) {
    |states| == |steps| + 1 && k < |steps| && Shaped(states[k]) && Writes(states[k], l, steps[k]) == Some(sc)
  }

  /** The last step from i on, and before j, that did; i if none. */
  ghost function LastWrite(states: seq<State>, steps: seq<Step>, l: Lane, sc: Ref, i: nat, j: nat): (k: nat)
    requires i < j
    ensures i <= k < j
    decreases j
  {
    if j == i + 1 || WritesAt(states, steps, l, j - 1, sc) then j - 1 else LastWrite(states, steps, l, sc, i, j - 1)
  }

  lemma {:induction false} LastWriteIsLast(states: seq<State>, steps: seq<Step>, l: Lane, sc: Ref, i: nat, j: nat)
    requires i < j && WritesAt(states, steps, l, i, sc)
    ensures var k := LastWrite(states, steps, l, sc, i, j);
            && WritesAt(states, steps, l, k, sc)
            && forall m | k < m < j :: !WritesAt(states, steps, l, m, sc)
    decreases j
  {
    hide WritesAt;
    if j != i + 1 && !WritesAt(states, steps, l, j - 1, sc) {
      LastWriteIsLast(states, steps, l, sc, i, j - 1);
    }
  }

  /** Between two steps that build it the content of a subscription stays. */
  lemma {:induction false} ContentStaysLong(states: seq<State>, steps: seq<Step>, l: Lane, i: nat, j: nat, sc: Ref)
    requires Execution(states, steps) && i <= j <= |steps| && sc in states[i].subs && Answering(l, states[i].subs[sc])
    requires forall m | i <= m < j :: !WritesAt(states, steps, l, m, sc)
    ensures sc in states[j].subs && states[j].subs[sc].typ == states[i].subs[sc].typ
    ensures ContentOf(l, states[j].subs[sc]) == ContentOf(l, states[i].subs[sc])
    decreases j - i
  {
    hide Good, Execution, ContentOf, WritesAt, Answering;
    if i < j {
      ExecutionLength(states, steps);
      ContentStaysLong(states, steps, l, i, j - 1, sc);
      SameTypeAnswers(l, states[i].subs[sc], states[j - 1].subs[sc]);
      ContentStep(states, steps, l, j - 1, sc);
    }
  }

  lemma SameTypeAnswers(l: Lane, a: Sub, b: Sub)
    requires Answering(l, a) && b.typ == a.typ
    ensures Answering(l, b)
  {
  }

  lemma ContentStep(states: seq<State>, steps: seq<Step>, l: Lane, i: nat, sc: Ref)
    requires Execution(states, steps) && i < |steps| && sc in states[i].subs && Answering(l, states[i].subs[sc])
    requires !WritesAt(states, steps, l, i, sc)
    ensures sc in states[i + 1].subs && states[i + 1].subs[sc].typ == states[i].subs[sc].typ
    ensures ContentOf(l, states[i + 1].subs[sc]) == ContentOf(l, states[i].subs[sc])
  {
    hide Good, Execution, ContentOf, Writes, Answering, Next, Enabled;
    ExecutionLength(states, steps);
    Reachable(states, steps, i + 1);
    GoodIsShaped(states[i]);
    StepStays(states[i], l, steps[i], sc);
    TypeStays(states, steps, i, i + 1, sc);
  }

  lemma TypeStays(states: seq<State>, steps: seq<Step>, i: nat, j: nat, sc: Ref)
    requires Execution(states, steps) && i <= j <= |steps| && sc in states[i].subs
    ensures sc in states[j].subs && states[j].subs[sc].typ == states[i].subs[sc].typ
  {
    hide Execution, Evolves;
    ExecutionLength(states, steps);
    GrowsAlong(states, steps, i, j);
    EvolvesKeepsNames(states[i], states[j]);
  }

  /** A step that builds what a subscription sends also puts it into the queue. */
  lemma WrittenIsKnown(states: seq<State>, steps: seq<Step>, l: Lane, k: nat, sc: Ref)
    requires Execution(states, steps) && WritesAt(states, steps, l, k, sc)
    ensures sc in states[k + 1].subs && Answering(l, states[k + 1].subs[sc])
  {
    hide Good, Execution, Asked, Requested;
    ExecutionLength(states, steps);
    Reachable(states, steps, k + 1);
    GoodIsShaped(states[k]);
    var s, step := states[k], steps[k];
    match step {
      case Request(sg, v, gclisa, now, made) => RequestHome(s, sg, v, gclisa, now, made);
      case DelayRequest(p, rxTs, eclisa, now, made) => DelayRequestQueues(s, p, rxTs, eclisa, now, made);
      case Finish(r) => FinishQueues(s, r);
      case _ =>
    }
  }

  /** The entry of sc that step i put in sends, when step j takes it, what step k built. */
  ghost predicate SendsWhatWasBuiltAt(states: seq<State>, steps: seq<Step>, l: Lane, w: nat, k: nat, j: nat, sc: Ref) {
    && |states| == |steps| + 1 && k < j < |steps|
    && w < |states[j].workers| && QueueOf(states[j], l, w) != [] && QueueOf(states[j], l, w)[0] == sc
    && sc in states[k + 1].subs && sc in states[j].subs && states[j].subs[sc].typ == states[k + 1].subs[sc].typ
    && ContentOf(l, states[j].subs[sc]) == ContentOf(l, states[k + 1].subs[sc])
  }

  /** Steps i and k built the same for sc. */
  ghost predicate BuiltTheSame(states: seq<State>, l: Lane, i: nat, k: nat, sc: Ref) {
    && i + 1 < |states| && k + 1 < |states| && sc in states[i + 1].subs && sc in states[k + 1].subs
    && ContentOf(l, states[k + 1].subs[sc]) == ContentOf(l, states[i + 1].subs[sc])
  }

  /**
   * What an entry sends. The entry that step i put in, and for which it built the content, is taken by step j: then it
   * sends what the last step k up to there built for this subscription. So it sends what step i built if and only if
   * step k built the same, and in any case if no later step built anything for it.
   */
  lemma EntrySendsLastWritten(states: seq<State>, steps: seq<Step>, l: Lane, w: nat, i: nat, j: nat, sc: Ref)
    requires Execution(states, steps) && PutsIn(states, steps, l, w, i, sc) && TakesEntry(states, steps, l, w, i, j)
    requires WritesAt(states, steps, l, i, sc)
    ensures i < j
    ensures SendsWhatWasBuiltAt(states, steps, l, w, LastWrite(states, steps, l, sc, i, j), j, sc)
    ensures SendsWhatWasBuiltAt(states, steps, l, w, i, j, sc) <==>
            BuiltTheSame(states, l, i, LastWrite(states, steps, l, sc, i, j), sc)
    ensures (forall m | i < m < j :: !WritesAt(states, steps, l, m, sc)) ==> LastWrite(states, steps, l, sc, i, j) == i
  {
    hide Execution, PutsIn, TakesEntry, WritesAt, ContentOf, Answering, QueueOf;
    TakenIsWhatWasPutIn(states, steps, l, w, i, j, sc);
    EntryTimes(states, steps, l, w, i, j);
    LastWriteIsLast(states, steps, l, sc, i, j);
    var k := LastWrite(states, steps, l, sc, i, j);
    WrittenIsKnown(states, steps, l, i, sc);
    WrittenIsKnown(states, steps, l, k, sc);
    ContentStaysLong(states, steps, l, k + 1, j, sc);
    TypeStays(states, steps, i + 1, j, sc);
    WritesAreSteps(states, steps, l, k, sc);
  }

  lemma WritesAreSteps(states: seq<State>, steps: seq<Step>, l: Lane, k: nat, sc: Ref)
    requires WritesAt(states, steps, l, k, sc)
    ensures |states| == |steps| + 1 && k < |steps|
  {
  }

  lemma EntryTimes(states: seq<State>, steps: seq<Step>, l: Lane, w: nat, i: nat, j: nat)
    requires TakesEntry(states, steps, l, w, i, j)
    ensures |states| == |steps| + 1 && i < j < |steps| && TakesAt(l, steps[j]) == Some(w)
  {
  }

  // --------------------------------------------------------- what clients get

  /** Every signaling entry was put in by the step that built its packet, so the above says what it sends. */
  lemma SignalEntriesAreWritten(states: seq<State>, steps: seq<Step>, w: nat, i: nat, sc: Ref)
    requires PutsIn(states, steps, Signals, w, i, sc)
    ensures WritesAt(states, steps, Signals, i, sc)
  {
  }

  /** In state s a signaling entry of sc sends the packet that was in state t, and the client can read it. */
  ghost predicate SignalsAs(s: State, t: State, sc: Ref) {
    && sc in s.subs && sc in t.subs
    && SignalingSent(s.subs[sc], true) == [Message(false, t.subs[sc].signaling, s.subs[sc].gclisa)]
    && Decodable(t.subs[sc].signaling)
  }

  /** A Grant or Cancel as it goes out: the packet that was built last, read back by the client. */
  lemma SignalSentIsLastBuilt(states: seq<State>, steps: seq<Step>, w: nat, i: nat, j: nat, sc: Ref)
    requires Execution(states, steps) && PutsIn(states, steps, Signals, w, i, sc) && TakesEntry(states, steps, Signals, w, i, j)
    ensures i < j < |states| && SignalsAs(states[j], states[LastWrite(states, steps, Signals, sc, i, j) + 1], sc)
  {
    hide Execution, PutsIn, TakesEntry, Datagram, Decode, Encode, Good, WritesAt, SignalingReady, BuiltTheSame;
    EntryTimes(states, steps, Signals, w, i, j);
    SignalEntriesAreWritten(states, steps, w, i, sc);
    EntrySendsLastWritten(states, steps, Signals, w, i, j, sc);
    SignalsDecode(states, steps, j, w, sc);
  }

  /** A job of an answering type is queued by nothing but the delay request it answers. */
  lemma AnswerEntriesAreWritten(states: seq<State>, steps: seq<Step>, w: nat, i: nat, sc: Ref)
    requires Execution(states, steps) && PutsIn(states, steps, TimedJobs, w, i, sc)
    requires sc in states[i + 1].subs && Answering(TimedJobs, states[i + 1].subs[sc])
    ensures WritesAt(states, steps, TimedJobs, i, sc) && steps[i].DelayRequest?
  {
    hide Execution, Good, Asked;
    if steps[i].Begin? || steps[i].Tick? {
      TypeStays(states, steps, i, i + 1, sc);
    }
  }

  lemma AnswerWritten(states: seq<State>, steps: seq<Step>, k: nat, sc: Ref)
    requires Execution(states, steps) && WritesAt(states, steps, TimedJobs, k, sc)
    ensures steps[k].DelayRequest? && sc in states[k + 1].subs
    ensures Answers(states[k + 1].subs[sc], steps[k].p, ReceiveTime(states[k].cfg, steps[k].rxTs))
  {
    hide Execution, Good, Asked, Answers;
    ExecutionLength(states, steps);
    Reachable(states, steps, k + 1);
    GoodIsShaped(states[k]);
    DelayRequestQueues(states[k], steps[k].p, steps[k].rxTs, steps[k].eclisa, steps[k].now, steps[k].made);
  }

  /** A job of sc, taken in state s, sends one readable Delay_Resp that answers p, received at rx. */
  ghost predicate RespondsTo(s: State, w: nat, sc: Ref, o: Outcome, p: SyncPacket, rx: Time) {
    w < |s.workers| && sc in s.subs &&
    var sent := JobStep(s.cfg, s.workers[w].olderKernel, s.subs[sc], o).sent;
    && |sent| == 1 && sent[0].packet.DelayResp? && !sent[0].event && sent[0].to == s.subs[sc].gclisa
    && sent[0].packet.requestingPortIdentity == p.header.sourcePortIdentity
    && sent[0].packet.header.sequenceId == p.header.sequenceId
    && sent[0].packet.header.correctionField == p.header.correctionField
    && sent[0].packet.receiveTimestamp == NewTimestamp(rx)
    && Decodable(sent[0].packet)
  }

  lemma RespSends(s: State, w: nat, sc: Ref, o: Outcome, u: Sub, p: SyncPacket, rx: Time)
    requires w < |s.workers| && sc in s.subs && s.subs[sc].typ == MESSAGE_DELAY_RESP == u.typ && o.second && PacketsFit(s.subs[sc])
    requires ContentOf(TimedJobs, s.subs[sc]) == ContentOf(TimedJobs, u) && Answers(u, p, rx)
    ensures RespondsTo(s, w, sc, o, p, rx)
  {
    hide NewTimestamp, Decodable, PacketsFit, AnswersExchange;
    FittingPacketsDecode(s.subs[sc]);
  }

  /**
   * A Delay_Resp as it goes out, whenever its job is taken: it answers the last delay request of this subscription up
   * to there, by identity, sequence ID, correction and time of receipt, and the client can read it.
   */
  lemma DelayRespAnswersLast(states: seq<State>, steps: seq<Step>, w: nat, i: nat, j: nat, sc: Ref, o: Outcome)
    requires Execution(states, steps) && PutsIn(states, steps, TimedJobs, w, i, sc) && TakesEntry(states, steps, TimedJobs, w, i, j)
    requires steps[j] == Job(w, o) && o.second && sc in states[i + 1].subs && states[i + 1].subs[sc].typ == MESSAGE_DELAY_RESP
    ensures i < j < |states|
    ensures var k := LastWrite(states, steps, TimedJobs, sc, i, j);
            && k < |steps| && steps[k].DelayRequest?
            && RespondsTo(states[j], w, sc, o, steps[k].p, ReceiveTime(states[k].cfg, steps[k].rxTs))
  {
    hide Execution, PutsIn, TakesEntry, Good, WritesAt, Answers, PacketsFit, ContentOf, RespondsTo, QueueOf;
    EntryTimes(states, steps, TimedJobs, w, i, j);
    AnswerEntriesAreWritten(states, steps, w, i, sc);
    EntrySendsLastWritten(states, steps, TimedJobs, w, i, j, sc);
    LastWriteIsLast(states, steps, TimedJobs, sc, i, j);
    var k := LastWrite(states, steps, TimedJobs, sc, i, j);
    AnswerWritten(states, steps, k, sc);
    TypeStays(states, steps, i + 1, j, sc);
    FitsAt(states, steps, j, sc);
    RespSends(states[j], w, sc, o, states[k + 1].subs[sc], steps[k].p, ReceiveTime(states[k].cfg, steps[k].rxTs));
  }

  lemma FitsAt(states: seq<State>, steps: seq<Step>, j: nat, sc: Ref)
    requires Execution(states, steps) && j <= |steps| && sc in states[j].subs
    ensures PacketsFit(states[j].subs[sc])
  {
    hide Execution, Shaped, PacketsFit;
    ExecutionLength(states, steps);
    Reachable(states, steps, j);
    SubFits(states[j], sc);
  }

  /** A job of sc, taken in state s, sends a Sync and an Announce that answer the exchange p, received at rx. */
  ghost predicate ExchangesWith(s: State, w: nat, sc: Ref, o: Outcome, p: SyncPacket, rx: Time) {
    w < |s.workers| && sc in s.subs && o.txTs.Some? &&
    var older := s.workers[w].olderKernel;
    var sent := JobStep(s.cfg, older, s.subs[sc], o).sent;
    && |sent| == 2 && sent[0].packet.SyncDelayReq? && sent[1].packet.Announce?
    && sent[0].event && sent[0].to == s.subs[sc].eclisa && !sent[1].event && sent[1].to == s.subs[sc].gclisa
    && sent[0].packet.header.sequenceId == sent[1].packet.header.sequenceId == p.header.sequenceId
    && sent[0].packet.originTimestamp == NewTimestamp(rx)
    && sent[1].packet.header.correctionField == p.header.correctionField
    && sent[1].packet.body.originTimestamp == NewTimestamp(AnnouncedTime(s.cfg, older, o.txTs.value))
  }

  lemma ExchangeSends(s: State, w: nat, sc: Ref, o: Outcome, u: Sub, p: SyncPacket, rx: Time)
    requires w < |s.workers| && sc in s.subs && s.subs[sc].typ == MESSAGE_DELAY_REQ == u.typ
    requires o.first == SendOk && o.txTs.Some? && o.second
    requires ContentOf(TimedJobs, s.subs[sc]) == ContentOf(TimedJobs, u) && Answers(u, p, rx)
    ensures ExchangesWith(s, w, sc, o, p, rx)
  {
    hide NewTimestamp, AnswersRequest;
  }

  /**
   * The answer to an sptp exchange, whenever its job is taken: a Sync and an Announce with the sequence ID of the last
   * exchange up to there, its time of receipt and its correction, and with the time of this Sync.
   */
  lemma ExchangeAnswersLast(states: seq<State>, steps: seq<Step>, w: nat, i: nat, j: nat, sc: Ref, o: Outcome)
    requires Execution(states, steps) && PutsIn(states, steps, TimedJobs, w, i, sc) && TakesEntry(states, steps, TimedJobs, w, i, j)
    requires steps[j] == Job(w, o) && sc in states[i + 1].subs && states[i + 1].subs[sc].typ == MESSAGE_DELAY_REQ
    requires o.first == SendOk && o.txTs.Some? && o.second
    ensures i < j < |states|
    ensures var k := LastWrite(states, steps, TimedJobs, sc, i, j);
            && k < |steps| && steps[k].DelayRequest?
            && ExchangesWith(states[j], w, sc, o, steps[k].p, ReceiveTime(states[k].cfg, steps[k].rxTs))
  {
    hide Execution, PutsIn, TakesEntry, Good, WritesAt, Answers, ContentOf, ExchangesWith, QueueOf;
    EntryTimes(states, steps, TimedJobs, w, i, j);
    AnswerEntriesAreWritten(states, steps, w, i, sc);
    EntrySendsLastWritten(states, steps, TimedJobs, w, i, j, sc);
    LastWriteIsLast(states, steps, TimedJobs, sc, i, j);
    var k := LastWrite(states, steps, TimedJobs, sc, i, j);
    AnswerWritten(states, steps, k, sc);
    TypeStays(states, steps, i + 1, j, sc);
    ExchangeSends(states[j], w, sc, o, states[k + 1].subs[sc], steps[k].p, ReceiveTime(states[k].cfg, steps[k].rxTs));
  }

  // ---------------------------------------------------- a grant that is never sent

  /**
   * Two requests for one running subscription, before the worker takes anything: its queue then holds two entries, and
   * both send the second grant. If that one differs, for instance because it refuses what the first allowed, the first
   * is not sent at all.
   */
  lemma LaterGrantReplacesEarlier(s: State, sg1: SignalingPacket, v1: Tlv, sg2: SignalingPacket, v2: Tlv, gclisa: Sockaddr,
                                  now: Time, made: Ref, sc: Ref)
    requires Base(s) && Shaped(s) && Enabled(s, Request(sg1, v1, gclisa, now, made))
    requires var id, t := sg1.header.sourcePortIdentity, UnicastMsgType(v1.msgTypeAndReserved);
             && Signaled(t) && Lookup(s, id, t) == Some(sc) && s.subs[sc].running
             && sg2.header.sourcePortIdentity == id && v2.RequestUnicast? && UnicastMsgType(v2.msgTypeAndReserved) == t
             && MsgType(sg2.header.sdoIdAndMsgType) == MESSAGE_SIGNALING
    requires !s.subs[sc].waiting
    ensures var w, s1 := FindWorker(s, sg1.header.sourcePortIdentity, 0), RequestStep(s, sg1, v1, gclisa, now, made);
            && Shaped(s1) && made !in s1.subs && sc in s1.subs
            && s1.subs[sc].signaling.tlvs == [GrantFor(v1, if WithinLimits(s, v1) then v1.durationField else 0)]
            && (var s2 := RequestStep(s1, sg2, v2, gclisa, now, made);
                && w < |s2.workers| && w < |s.workers| && sc in s2.subs
                && s2.workers[w].signalingQueue == s.workers[w].signalingQueue + [sc, sc]
                && s2.subs[sc].signaling.tlvs == [GrantFor(v2, if WithinLimits(s, v2) then v2.durationField else 0)])
  {
    hide Base, Grows, RequestStep, WithinLimits, Find, Shaped, Lookup, GrantFor, Enabled;
    NonEmpty(s);
    RequestEnabled(s, sg1, v1, gclisa, now, made);
    RenewalQueues(s, sg1, v1, gclisa, now, made, sc);
    var s1 := RequestStep(s, sg1, v1, gclisa, now, made);
    RequestKeeps(s, sg1, v1, gclisa, now, made);
    BaseIsShaped(s1);
    RenewalKeeps(s, sg1, v1, gclisa, now, made, sc, v2);
    SecondIsEnabled(s1, sg2, v2, gclisa, now, made, sc);
    RenewalQueues(s1, sg2, v2, gclisa, now, made, sc);
    var w := FindWorker(s, sg1.header.sourcePortIdentity, 0);
    assert s.workers[w].signalingQueue + [sc] + [sc] == s.workers[w].signalingQueue + [sc, sc];
  }

  /** One request for a running subscription: one entry more, and its grant in the packet. */
  lemma RenewalQueues(s: State, sg: SignalingPacket, v: Tlv, gclisa: Sockaddr, now: Time, made: Ref, sc: Ref)
    requires Base(s) && Shaped(s) && Enabled(s, Request(sg, v, gclisa, now, made))
    requires var id, t := sg.header.sourcePortIdentity, UnicastMsgType(v.msgTypeAndReserved);
             Signaled(t) && Lookup(s, id, t) == Some(sc) && s.subs[sc].running
    ensures var id, t := sg.header.sourcePortIdentity, UnicastMsgType(v.msgTypeAndReserved);
            var s', w := RequestStep(s, sg, v, gclisa, now, made), FindWorker(s, id, 0);
            && sc in s.subs && sc in s'.subs && w < |s'.workers| == |s.workers| && Lookup(s', id, t) == Some(sc)
            && s'.workers[w].signalingQueue == s.workers[w].signalingQueue + [sc]
            && s'.subs[sc].signaling.tlvs == [GrantFor(v, if WithinLimits(s, v) then v.durationField else 0)]
  {
    hide Base, Grows, RequestStep, WithinLimits, Find, Requested, GrantFor, Shaped;
    NonEmpty(s);
    var id, t := sg.header.sourcePortIdentity, UnicastMsgType(v.msgTypeAndReserved);
    EntryFound(s, FindWorker(s, id, 0), id, t);
    SameRequested(s, id, t, made, sc);
    RequestIsAnswered(s, sg, v, gclisa, now, made);
  }

  lemma SecondIsEnabled(s: State, sg: SignalingPacket, v: Tlv, gclisa: Sockaddr, now: Time, made: Ref, sc: Ref)
    requires Shaped(s) && v.RequestUnicast? && MsgType(sg.header.sdoIdAndMsgType) == MESSAGE_SIGNALING && made !in s.subs
    requires Lookup(s, sg.header.sourcePortIdentity, UnicastMsgType(v.msgTypeAndReserved)) == Some(sc)
    requires sc in s.subs && !s.subs[sc].waiting
    ensures Enabled(s, Request(sg, v, gclisa, now, made))
  {
    hide Find;
  }

  lemma SameRequested(s: State, c: PortIdentity, t: byte, made: Ref, sc: Ref)
    requires Shaped(s) && Lookup(s, c, t) == Some(sc) && sc in s.subs && s.subs[sc].running
    ensures Requested(s, c, t, made) == sc
  {
    hide Find;
  }

  /** A renewal changes neither flag nor lock, nor what the limits are. */
  lemma RenewalKeeps(s: State, sg: SignalingPacket, v: Tlv, gclisa: Sockaddr, now: Time, made: Ref, sc: Ref, v2: Tlv)
    requires Base(s) && Shaped(s) && Enabled(s, Request(sg, v, gclisa, now, made)) && v2.RequestUnicast?
    requires var id, t := sg.header.sourcePortIdentity, UnicastMsgType(v.msgTypeAndReserved);
             Signaled(t) && Lookup(s, id, t) == Some(sc) && s.subs[sc].running && !s.subs[sc].waiting
    ensures var s1 := RequestStep(s, sg, v, gclisa, now, made);
            && made !in s1.subs && sc in s1.subs && s1.subs[sc].running && !s1.subs[sc].waiting
            && 0 < |s1.done| && (WithinLimits(s1, v2) <==> WithinLimits(s, v2)) && s1.hash == s.hash
            && |s1.workers| == |s.workers|
  {
    hide Base, Grows, Shaped, Enlist, Grant, Spawn, Find, Enabled, UpdateSignalingGrant;
    NonEmpty(s);
    RequestEnabled(s, sg, v, gclisa, now, made);
    var id, t := sg.header.sourcePortIdentity, UnicastMsgType(v.msgTypeAndReserved);
    var d: u32 := if WithinLimits(s, v) then v.durationField else 0;
    EntryFound(s, FindWorker(s, id, 0), id, t);
    RunningOneWasThere(s, id, t, made);
    EnlistRenews(s, sg, v, gclisa, now, made, sc);
    var (s1, _) := Enlist(s, sg, v, gclisa, now, made);
    EnlistFinds(s, sg, v, gclisa, now, made);
    GrantIsQueued(s1, sc, sg, v, d, id, t);
    GrantEffect(s1, sc, sg, v, d);
    KeepsLocks(s1.subs[sc], sg, v);
  }

  lemma EnlistRenews(s: State, sg: SignalingPacket, v: Tlv, gclisa: Sockaddr, now: Time, made: Ref, sc: Ref)
    requires Shaped(s) && v.RequestUnicast? && Lookup(s, sg.header.sourcePortIdentity, UnicastMsgType(v.msgTypeAndReserved)) == Some(sc)
    requires sc in s.subs && s.subs[sc].running
    ensures var (s1, sc1) := Enlist(s, sg, v, gclisa, now, made);
            && sc1 == sc && s1 == s.(subs := s.subs[sc := s1.subs[sc]]) && sc in s1.subs
            && s1.subs[sc].running && s1.subs[sc].waiting == s.subs[sc].waiting && s1.subs[sc].worker == s.subs[sc].worker
  {
    hide Shaped, Find;
    NonEmpty(s);
  }

  lemma KeepsLocks(u: Sub, sg: SignalingPacket, v: Tlv)
    requires v.RequestUnicast?
    ensures forall d: u32 ::
              var u' := UpdateSignalingGrant(u, sg, v.msgTypeAndReserved, v.logInterMessagePeriod, d);
              u'.running == u.running && u'.waiting == u.waiting && u'.worker == u.worker
  {
  }
}
