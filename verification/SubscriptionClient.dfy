/** The object that server/subscription.go keeps for a subscription, proved against the functions on Sub. */
module SubscriptionClients {
  import opened Wire
  import opened Types
  import opened Tlvs
  import opened Packets
  import opened Subscription

  /** A channel of jobs; it holds references, so a packet is read when its job is taken. */
  class JobQueue {
    var items: seq<SubscriptionClient>

    constructor ()
      ensures items == []
    {
      items := [];
    }
  }

  /** The configuration all parts of the server point to; a reload replaces what is in it. */
  class ServerConfig {
    var current: Config

    constructor (c: Config)
      ensures current == c
    {
      current := c;
    }
  }

  function Repeat<T>(x: T, n: nat): (r: seq<T>)
    ensures |r| == n
  {
    if n == 0 then [] else Repeat(x, n - 1) + [x]
  }

  class SubscriptionClient {
    ghost const client: PortIdentity
    ghost const worker: nat
    const queue: JobQueue
    const signalingQueue: JobQueue
    const subscriptionType: byte
    const serverConfig: ServerConfig

    var interval: Time
    var expire: Time
    var sequenceId: u16
    var running: bool
    var stop: bool
    /** A Stop is blocked on the full slot, with the lock of this object. */
    var waiting: bool

    var runningInterval: Time

    var eclisa: Sockaddr
    var gclisa: Sockaddr

    var syncP: SyncPacket
    var followupP: FollowUpPacket
    var announceP: AnnouncePacket
    var delayRespP: DelayRespPacket
    var signaling: SignalingPacket

    ghost function View(): Sub
      reads this
    {
      Sub(client, worker, subscriptionType, interval, expire, sequenceId, running, stop, waiting, runningInterval, eclisa,
          gclisa, syncP, followupP, announceP, delayRespP, signaling)
    }

    /** NewSubscriptionClient; the client and the worker's number are known to the proof only. */
    constructor (q: JobQueue, gq: JobQueue, e: Sockaddr, g: Sockaddr, st: byte, sc: ServerConfig, i: Time, exp: Time,
                 now: Time, ghost forClient: PortIdentity, ghost ofWorker: nat)
      ensures View() == NewSub(sc.current, forClient, ofWorker, e, g, st, i, exp, now)
      ensures queue == q && signalingQueue == gq && serverConfig == sc
    {
      client, worker := forClient, ofWorker;
      queue, signalingQueue, subscriptionType, serverConfig := q, gq, st, sc;
      interval, expire, sequenceId, running, stop, waiting, runningInterval := i, exp, 0, false, false, false, 0;
      eclisa, gclisa := e, g;
      syncP := InitSync(sc.current);
      followupP := InitFollowup(sc.current, now);
      announceP := InitAnnounce(sc.current);
      delayRespP := InitDelayResp(sc.current);
      signaling := InitSignaling(sc.current);
    }

    /** An object that no handler makes, for statements about requests that need none. */
    ghost constructor Unused(q: JobQueue, sc: ServerConfig) {
      queue, signalingQueue, serverConfig := q, q, sc;
    }

    /** The stop case of the select; a Stop that waits fills the slot again and lets go of the lock. */
    method ReceiveToken()
      modifies `stop, `waiting
      ensures View() == TakeToken(old(View()))
    {
      if waiting {
        waiting := false;
      } else {
        stop := false;
      }
    }

    method SetExpire(e: Time)
      modifies `expire
      ensures View() == old(View()).(expire := e)
    {
      expire := e;
    }

    method SetInterval(i: Time)
      modifies `interval
      ensures View() == old(View()).(interval := i)
    {
      interval := i;
    }

    method SetGclisa(g: Sockaddr)
      modifies `gclisa
      ensures View() == old(View()).(gclisa := g)
    {
      gclisa := g;
    }

    /** The two addresses, which the handler of delay requests writes itself. */
    method SetAddresses(e: Sockaddr, portNumber: u16)
      modifies `eclisa, `gclisa
      ensures var u := old(View());
              View() == u.(eclisa := e, gclisa := if portNumber > 10 then e else u.gclisa.(port := PORT_GENERAL))
    {
      eclisa := e;
      if portNumber > 10 {
        gclisa := eclisa;
      } else {
        gclisa := gclisa.(port := PORT_GENERAL);
      }
    }

    method SetRunning(r: bool)
      modifies `running
      ensures View() == old(View()).(running := r)
    {
      running := r;
    }

    /** Stop. With a run going and a token already in the slot the send blocks, and keeps the lock. */
    method Stop(now: Time)
      modifies `expire, `stop, `waiting
      ensures View() == StopSub(old(View()), now)
      ensures waiting <==> old(waiting) || (running && old(stop))
    {
      expire := now;
      if running {
        if stop {
          waiting := true;
        } else {
          stop := true;
        }
      }
    }

    method Once()
      modifies queue
      ensures queue.items == old(queue.items) + [this]
    {
      queue.items := queue.items + [this];
    }

    method OnceSignaling()
      modifies signalingQueue
      ensures signalingQueue.items == old(signalingQueue.items) + [this]
    {
      signalingQueue.items := signalingQueue.items + [this];
    }

    // The Update methods change header and body fields of a packet in place.

    method SetSyncSequence()
      modifies `syncP
      ensures View() == UpdateSync(old(View()))
    {
      syncP := SyncDelayReq(syncP.header.(sequenceId := sequenceId), syncP.originTimestamp, syncP.tlvs);
    }

    method SetSyncDelayReq(received: Time, seqId: u16)
      modifies `syncP
      ensures View() == UpdateSyncDelayReq(old(View()), received, seqId)
    {
      syncP := SyncDelayReq(syncP.header.(sequenceId := seqId), syncP.originTimestamp, syncP.tlvs);
      syncP := SyncDelayReq(syncP.header, NewTimestamp(received), syncP.tlvs);
    }

    method SetFollowup(hwts: Time, logInterval: i8)
      modifies `followupP
      ensures View() == UpdateFollowup(old(View()), hwts, logInterval)
    {
      followupP := FollowUp(followupP.header.(sequenceId := sequenceId), followupP.preciseOriginTimestamp);
      followupP := FollowUp(followupP.header.(logMessageInterval := logInterval), followupP.preciseOriginTimestamp);
      followupP := FollowUp(followupP.header, NewTimestamp(hwts));
    }

    method SetAnnounceClock()
      modifies `announceP
      ensures View() == old(View()).(announceP := Announce(announceP.header, ClockFields(serverConfig.current,
        old(announceP).body), announceP.tlvs))
      ensures announceP.header == old(announceP).header && announceP.tlvs == old(announceP).tlvs
    {
      var body := announceP.body.(currentUtcOffset := serverConfig.current.utcOffsetSeconds);
      body := body.(clockClass := serverConfig.current.clockClass);
      body := body.(clockAccuracy := serverConfig.current.clockAccuracy);
      announceP := Announce(announceP.header, body, announceP.tlvs);
    }

    method SetAnnounce(logInterval: i8)
      modifies `announceP
      ensures View() == UpdateAnnounce(serverConfig.current, old(View()), logInterval)
    {
      announceP := Announce(announceP.header.(sequenceId := sequenceId, logMessageInterval := logInterval), announceP.body, announceP.tlvs);
      SetAnnounceClock();
    }

    method SetAnnounceDelayReq(correction: i64, seqId: u16)
      modifies `announceP
      ensures View() == UpdateAnnounceDelayReq(serverConfig.current, old(View()), correction, seqId)
    {
      announceP := Announce(announceP.header.(sequenceId := seqId), announceP.body, announceP.tlvs);
      SetAnnounceClock();
      announceP := Announce(announceP.header.(correctionField := correction), announceP.body, announceP.tlvs);
    }

    method SetAnnounceFollowUp(transmitted: Time)
      modifies `announceP
      ensures View() == UpdateAnnounceFollowUp(old(View()), transmitted)
    {
      announceP := Announce(announceP.header, announceP.body.(originTimestamp := NewTimestamp(transmitted)), announceP.tlvs);
    }

    method SetDelayResp(h: Header, received: Time)
      modifies `delayRespP
      ensures View() == UpdateDelayResp(old(View()), h, received)
    {
      var header := delayRespP.header.(sequenceId := h.sequenceId);
      header := header.(correctionField := h.correctionField);
      delayRespP := DelayResp(header, NewTimestamp(received), h.sourcePortIdentity);
    }

    method SendSignalingGrant(sg: SignalingPacket, mt: byte, logInterval: i8, duration: u32)
      modifies `signaling, signalingQueue
      ensures View() == UpdateSignalingGrant(old(View()), sg, mt, logInterval, duration)
      ensures signalingQueue.items == old(signalingQueue.items) + [this]
    {
      var h := signaling.header.(messageLength := 56, sdoIdAndMsgType := sg.header.sdoIdAndMsgType);
      h := h.(domainNumber := sg.header.domainNumber, minorSdoId := sg.header.minorSdoId);
      h := h.(correctionField := sg.header.correctionField, messageTypeSpecific := sg.header.messageTypeSpecific);
      h := h.(sequenceId := sg.header.sequenceId, controlField := sg.header.controlField);
      h := h.(logMessageInterval := sg.header.logMessageInterval);
      signaling := Signaling(h, sg.header.sourcePortIdentity,
                             [GrantUnicast(TlvHead(TLV_GRANT_UNICAST, 8), mt, logInterval, duration, 0, 1)]);
      OnceSignaling();
    }

    method SendSignalingCancel()
      modifies `signaling, signalingQueue
      ensures View() == UpdateSignalingCancel(old(View()))
      ensures signalingQueue.items == old(signalingQueue.items) + [this]
    {
      signaling := Signaling(signaling.header.(messageLength := 50), signaling.targetPortIdentity,
                             [CancelUnicast(TlvHead(TLV_CANCEL_UNICAST, 2), NewUnicastMsgTypeAndFlags(subscriptionType, 0), 0)]);
      OnceSignaling();
    }

    // The pieces of Start between two points where other goroutines can run.

    /** From the spawn to the first select. */
    method Begin()
      modifies this, queue
      ensures View() == BeginRun(old(View()))
      ensures queue.items == old(queue.items) + (if Periodic(subscriptionType) then [this] else [])
      ensures subscriptionType == 0x0 || subscriptionType == 0xB ==> queue.items == old(queue.items) + [this]
      ensures subscriptionType == 0x9 || subscriptionType == 0x1 ==> queue.items == old(queue.items)
      ensures running && runningInterval == interval == old(interval)
    {
      SetRunning(true);
      if subscriptionType != MESSAGE_DELAY_RESP && subscriptionType != MESSAGE_DELAY_REQ {
        Once();
      }
      runningInterval := interval;
    }

    /** The ticker case of the select; `over` says that the run returns. */
    method OnTick(now: Time) returns (over: bool)
      modifies this, queue
      ensures over == Expired(old(View()), now) && (over <==> now > expire)
      ensures !over && (subscriptionType == 0x0 || subscriptionType == 0xB) ==> queue.items == old(queue.items) + [this]
      ensures over || subscriptionType == 0x9 || subscriptionType == 0x1 ==> queue.items == old(queue.items)
      ensures !over ==> runningInterval == interval == old(interval)
      ensures View() == if over then old(View()) else TickRun(old(View()))
      ensures queue.items == old(queue.items) + (if !over && Periodic(subscriptionType) then [this] else [])
    {
      if now > expire {
        return true;
      }
      if runningInterval != interval {
        runningInterval := interval;
      }
      if subscriptionType != MESSAGE_DELAY_RESP && subscriptionType != MESSAGE_DELAY_REQ {
        Once();
      }
      return false;
    }

    /** The last deferred call. */
    method Finish()
      modifies this, signalingQueue
      ensures View() == if subscriptionType == MESSAGE_DELAY_REQ then old(View()) else UpdateSignalingCancel(old(View()))
      ensures signalingQueue.items == old(signalingQueue.items) + (if subscriptionType == MESSAGE_DELAY_REQ then [] else [this])
    {
      if subscriptionType != MESSAGE_DELAY_REQ {
        SendSignalingCancel();
      }
    }

    /** One turn of the select, or one renewal. */
    method OneEvent(e: LoopEvent, ghost l: Loop) returns (over: bool)
      requires l.sub == View() && !l.over
      modifies this, queue
      ensures LoopStep(l, e) == Loop(View(), LoopStep(l, e).queued, over) && l.queued <= LoopStep(l, e).queued
      ensures queue.items == old(queue.items) + Repeat(this, LoopStep(l, e).queued - l.queued)
    {
      over := false;
      match e {
        case CtxDone => over := true;
        case StopToken => ReceiveToken(); over := true;
        case Ticked(now) => over := OnTick(now);
        case Renewed(e, r) => SetExpire(e); SetInterval(r);
      }
      if over {
        SetRunning(false);
      }
    }

    /**
     * Start, run on a script of what the select finds and of renewals in between. Its timer queues exactly the
     * messages that RunLoop counts, and a run that is over has queued exactly one Cancel, none for DELAY_REQ.
     */
    method Start(events: seq<LoopEvent>) returns (over: bool)
      requires queue != signalingQueue
      modifies this, queue, signalingQueue
      ensures over == RunLoop(old(View()), events).over
      ensures queue.items == old(queue.items) + Repeat(this, RunLoop(old(View()), events).queued)
      ensures var s := RunLoop(old(View()), events).sub;
              View() == if over && subscriptionType != MESSAGE_DELAY_REQ then UpdateSignalingCancel(s) else s
      ensures signalingQueue.items ==
              old(signalingQueue.items) + (if over && subscriptionType != MESSAGE_DELAY_REQ then [this] else [])
    {
      hide LoopStep, UpdateSignalingCancel, Repeat;
      ghost var s, before := View(), queue.items;
      Begin();
      RepeatUpTo(this);
      over := false;
      ghost var l := RunLoop(s, []);
      assert events[..0] == [];
      for i := 0 to |events|
        invariant !over && !l.over && l == RunLoop(s, events[..i]) && l.sub == View()
        invariant queue.items == before + Repeat(this, l.queued)
        invariant signalingQueue.items == old(signalingQueue.items)
      {
        LoopSnoc(s, events, i);
        over := OneEvent(events[i], l);
        ghost var next := LoopStep(l, events[i]);
        RepeatSum(this, l.queued, next.queued - l.queued);
        l := next;
        if over {
          LoopStaysOver(s, events, i + 1);
          break;
        }
      }
      assert events[..|events|] == events;
      assert l == RunLoop(s, events);
      if over {
        Finish();
      }
    }
  }

  lemma RepeatUpTo<T>(x: T)
    ensures Repeat(x, 0) == [] && Repeat(x, 1) == [x]
  {
  }

  lemma {:induction false} RepeatSum<T>(x: T, m: nat, n: nat)
    ensures Repeat(x, m) + Repeat(x, n) == Repeat(x, m + n)
  {
    if n > 0 {
      RepeatSum(x, m, n - 1);
      assert Repeat(x, m) + Repeat(x, n) == Repeat(x, m) + Repeat(x, n - 1) + [x];
    }
  }

  lemma LoopSnoc(s: Sub, events: seq<LoopEvent>, i: nat)
    requires i < |events|
    ensures RunLoop(s, events[..i + 1]) == LoopStep(RunLoop(s, events[..i]), events[i])
  {
    assert events[..i + 1][..i] == events[..i];
  }

  lemma {:induction false} LoopStaysOver(s: Sub, events: seq<LoopEvent>, i: nat)
    requires i <= |events| && RunLoop(s, events[..i]).over
    ensures RunLoop(s, events) == RunLoop(s, events[..i])
    decreases |events| - i
  {
    if i < |events| {
      assert events[..i + 1][..i] == events[..i];
      LoopStaysOver(s, events, i + 1);
    } else {
      assert events[..i] == events;
    }
  }
}
