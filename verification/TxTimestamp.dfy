/** The two loops that recover a transmit timestamp from the error queue: timestamp/timestamp_linux.go. */
module TxTimestamp {
  import opened Wire
  import opened Types
  import opened ControlMessages

  /** What one read of the error queue gives. */
  datatype Recv = RecvFailed | Received(buf: seq<byte>, boob: nat)

  predicate Readable(k: Scanner, r: Recv) {
    r.Received? ==> Walkable(k, r.buf, r.boob, 0)
  }

  predicate AllReadable(rs: seq<Recv>) {
    forall i | 0 <= i < |rs| :: Readable(FirstTime, rs[i])
  }

  function MessagesOf(k: Scanner, r: Recv): (ms: seq<Cmsg>)
    requires r.Received? && Readable(k, r)
    ensures Seeable(k, ms) && (k.LastTagged? ==> AllComplete(ms))
  {
    MessagesSeeable(k, r.buf, r.boob, 0);
    Messages(k, r.buf, r.boob, 0)
  }

  function Max(a: int, b: int): int {
    if a < b then b else a
  }

  /**
   * ReadTXtimestampBuf, where the k-th read gives results[k]. Reading goes on until a message was seen and the
   * queue is empty again, so the time returned is that of the newest message read; leaving before the limit means
   * the queue was seen empty right after that message.
   */
  method ReadTxTimestampBuf(attemptsTxts: int, results: seq<Recv>) returns (t: Option<int>, attempts: int)
    requires attemptsTxts <= |results| && AllReadable(results)
    ensures 0 <= attempts <= Max(attemptsTxts, 0)
    ensures forall k, l | 0 <= k < l < attempts :: results[k].Received? ==> results[l].Received?
    ensures (forall k | 0 <= k < attempts :: results[k].RecvFailed?) ==> t == None && attempts == Max(attemptsTxts, 0)
    ensures (exists k | 0 <= k < attempts :: results[k].Received?) ==>
              && results[attempts - 1].Received?
              && t == FirstTimestamp(MessagesOf(FirstTime, results[attempts - 1]))
              && (attempts < attemptsTxts ==> results[attempts].RecvFailed?)
  {
    hide Walkable, FirstTimestamp, Messages, Seeable;
    var oob, boob := [], 0;
    var txFound := false;
    attempts := 0;
    while attempts < attemptsTxts
      invariant 0 <= attempts <= Max(attemptsTxts, 0)
      invariant !txFound ==> forall k | 0 <= k < attempts :: results[k].RecvFailed?
      invariant txFound ==> 0 < attempts && results[attempts - 1] == Received(oob, boob)
      invariant forall k, l | 0 <= k < l < attempts :: results[k].Received? ==> results[l].Received?
    {
      var r := results[attempts];
      if r.RecvFailed? {
        if txFound {
          break;
        }
        attempts := attempts + 1;
        continue;
      }
      txFound := true;
      oob, boob := r.buf, r.boob;
      attempts := attempts + 1;
    }
    if !txFound {
      return None, attempts;
    }
    t := SocketControlMessageTimestamp(oob, boob);
  }

  /** One turn of the other loop: the wait may report EINVAL, and then nothing is read. */
  datatype Attempt = Attempt(waitInvalid: bool, recv: Recv)

  predicate AllAttemptsReadable(rs: seq<Attempt>) {
    forall i | 0 <= i < |rs| :: Readable(LastTagged, rs[i].recv)
  }

  /** The time that attempt a gives for the asked ID. */
  function AttemptTimestamp(a: Attempt, seqId: u32): Option<int>
    requires Readable(LastTagged, a.recv)
  {
    if a.waitInvalid || a.recv.RecvFailed? then None else TaggedTimestamp(MessagesOf(LastTagged, a.recv), seqId)
  }

  /**
   * ReadTimeStampSeqIDBuf: the first attempt that gives a time tagged with seqId ends it; failing means that none
   * of the allowed attempts did.
   */
  method ReadTimestampSeqIdBuf(attemptsTxts: int, results: seq<Attempt>, seqId: u32) returns (t: Option<int>, attempts: int)
    requires attemptsTxts <= |results| && AllAttemptsReadable(results)
    ensures 0 <= attempts <= Max(attemptsTxts, 0)
    ensures forall k | 0 <= k < attempts :: AttemptTimestamp(results[k], seqId) == None
    ensures t.Some? ==> attempts < attemptsTxts && t == AttemptTimestamp(results[attempts], seqId)
    ensures t.None? ==> attempts == Max(attemptsTxts, 0)
  {
    hide Walkable, Messages, Seeable, TaggedTimestamp;
    attempts := 0;
    while attempts < attemptsTxts
      invariant 0 <= attempts <= Max(attemptsTxts, 0)
      invariant forall k | 0 <= k < attempts :: AttemptTimestamp(results[k], seqId) == None
    {
      var a := results[attempts];
      if a.waitInvalid || a.recv.RecvFailed? {
        attempts := attempts + 1;
        continue;
      }
      var found := SocketControlMessageSeqIdTimestamp(a.recv.buf, a.recv.boob, seqId);
      if found.Some? {
        return found, attempts;
      }
      attempts := attempts + 1;
    }
    return None, attempts;
  }

  /** For a non-zero ID the message that gave the time carries that very ID. */
  lemma TaggedMeansPresent(a: Attempt, seqId: u32)
    requires Readable(LastTagged, a.recv) && seqId != 0 && AttemptTimestamp(a, seqId).Some?
    ensures var ms := MessagesOf(LastTagged, a.recv);
            exists i :: 0 <= i < |ms| && IsRecvErr(ms[i].level, ms[i].typ) && ScmDataToSeqId(ms[i].data) == Some(seqId)
  {
    NonZeroIdIsPresent(MessagesOf(LastTagged, a.recv));
  }

  /** For ID zero a message without any tag is good enough. */
  lemma ZeroIdAcceptsUntagged(a: Attempt)
    requires Readable(LastTagged, a.recv) && !a.waitInvalid && a.recv.Received?
    requires var ms := MessagesOf(LastTagged, a.recv); AllSound(ms) && LastTimestamp(ms) != ZERO_TIME
    requires var ms := MessagesOf(LastTagged, a.recv); forall i | 0 <= i < |ms| :: !IsRecvErr(ms[i].level, ms[i].typ)
    ensures AttemptTimestamp(a, 0) == Some(LastTimestamp(MessagesOf(LastTagged, a.recv)))
  {
    NoErrorsNoId(MessagesOf(LastTagged, a.recv));
  }

  lemma {:induction false} NoErrorsNoId(ms: seq<Cmsg>)
    requires AllComplete(ms)
    requires forall i | 0 <= i < |ms| :: !IsRecvErr(ms[i].level, ms[i].typ)
    ensures LastSeqId(ms) == 0
  {
    if ms != [] {
      NoErrorsNoId(ms[..|ms| - 1]);
    }
  }
}
