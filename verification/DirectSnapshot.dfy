/** What a session's snapshot should be, computed directly from that session's own events. This module
    knows nothing of the collector's running sums, flags and remembered times. */
module DirectSnapshot {
  import opened Seqs
  import opened Telemetry

  function OfSession(sid: nat): NetworkEvent -> bool { (e: NetworkEvent) => e.sessionId == sid }

  function OfKind(kind: EventKind): NetworkEvent -> bool { (e: NetworkEvent) => e.kind == kind }

  function SetsPacketId(): NetworkEvent -> bool {
    (e: NetworkEvent) => e.kind.PacketParsed? || (e.kind.ProtocolError? && e.packetId >= 0)
  }

  function SetsPacketSize(): NetworkEvent -> bool {
    (e: NetworkEvent) => e.kind.PacketParsed? || (e.kind.ProtocolError? && e.packetSize > 0)
  }

  function SetsPayloadSize(): NetworkEvent -> bool {
    (e: NetworkEvent) => e.kind.PacketParsed? || (e.kind.ProtocolError? && e.payloadSize > 0)
  }

  /** The events up to and including the first close. */
  function UpToFirstClose(es: seq<NetworkEvent>): seq<NetworkEvent>
  {
    if es == [] then []
    else if es[0].kind.SessionClosed? then [es[0]]
    else [es[0]] + UpToFirstClose(es[1..])
  }

  predicate EndsClosed(es: seq<NetworkEvent>)
  {
    es != [] && Last(es).kind.SessionClosed?
  }

  function SumBytes(es: seq<NetworkEvent>, kind: EventKind): nat
  {
    if es == [] then 0
    else SumBytes(Init(es), kind) + if Last(es).kind == kind then Last(es).bytesTransferred else 0
  }

  function LastMatch(es: seq<NetworkEvent>, p: NetworkEvent -> bool): Option<NetworkEvent>
  {
    if es == [] then None else if p(Last(es)) then Some(Last(es)) else LastMatch(Init(es), p)
  }

  /** The event that fixes the connection start: the latest start, or else the first event seen. */
  function StartEvent(es: seq<NetworkEvent>): NetworkEvent
    requires es != []
  {
    match LastMatch(es, OfKind(SessionStarted))
    case Some(e) => e
    case None => es[0]
  }

  function Messages(es: seq<NetworkEvent>): seq<NetworkEvent>
  {
    Filter(es, OfKind(PacketParsed))
  }

  function LastInterval(ms: seq<NetworkEvent>): real
  {
    if |ms| < 2 then 0.0 else Milliseconds(ms[|ms| - 1].monotonicTime - ms[|ms| - 2].monotonicTime)
  }

  /** The mean of the gaps between n messages telescopes to (t_n - t_1) / (n - 1). */
  function MeanInterval(ms: seq<NetworkEvent>): real
  {
    if |ms| < 2 then 0.0
    else Milliseconds(ms[|ms| - 1].monotonicTime - ms[0].monotonicTime) / (|ms| - 1) as real
  }

  function Session(es: seq<NetworkEvent>): SessionSnapshot
    requires es != []
  {
    var last := Last(es);
    var start := StartEvent(es);
    var ms := Messages(es);
    var error := LastMatch(es, OfKind(ProtocolError));
    var id := LastMatch(es, SetsPacketId());
    var size := LastMatch(es, SetsPacketSize());
    var payload := LastMatch(es, SetsPayloadSize());
    SessionSnapshot(
      es[0].sessionId,
      last.socketHandle,
      last.logicWorkerId,
      LastMatch(es, OfKind(SessionStarted)).Some?,
      last.kind.SessionClosed?,
      start.wallTime,
      last.wallTime,
      if last.kind.SessionClosed? then last.wallTime else 0,
      Milliseconds(last.monotonicTime - start.monotonicTime),
      SumBytes(es, RecvCompleted),
      SumBytes(es, SendCompleted),
      Count(es, OfKind(RecvCompleted)),
      Count(es, OfKind(SendCompleted)),
      |ms|,
      Count(es, OfKind(ProtocolError)),
      LastInterval(ms),
      MeanInterval(ms),
      if id.Some? then id.value.packetId else -1,
      if size.Some? then size.value.packetSize else 0,
      if payload.Some? then payload.value.payloadSize else 0,
      if error.Some? then error.value.errorCode else 0,
      if error.Some? then error.value.errorMessage else "")
  }

  /** The snapshot of the message with which a session's events end. */
  function MessageAt(es: seq<NetworkEvent>): MessageSnapshot
    requires es != []
  {
    var s := Session(es);
    var last := Last(es);
    MessageSnapshot(es[0].sessionId, last.socketHandle, last.logicWorkerId, last.wallTime, s.requestCount,
                    last.packetId, last.packetSize, last.payloadSize, s.connectionDurationMs,
                    s.lastMessageIntervalMs, s.bytesReceivedTotal, s.bytesSentTotal, s.errorCount)
  }

  function Emission(es: seq<NetworkEvent>): seq<FeatureItem>
    requires es != []
  {
    match Last(es).kind
    case PacketParsed => [Message(MessageAt(es))]
    case SessionClosed => [Summary(Session(es))]
    case _ => []
  }

  /** Everything a session emits: one message snapshot per parsed packet and a summary at its close. */
  function Stream(es: seq<NetworkEvent>): seq<FeatureItem>
  {
    if es == [] then [] else Stream(Init(es)) + Emission(es)
  }

  /** The part of a log that counts for one session. */
  function Active(log: seq<NetworkEvent>, sid: nat): seq<NetworkEvent>
  {
    UpToFirstClose(Filter(log, OfSession(sid)))
  }

  lemma {:induction false} UpToFirstCloseAppend(es: seq<NetworkEvent>, e: NetworkEvent)
    ensures UpToFirstClose(es + [e]) ==
            if EndsClosed(UpToFirstClose(es)) then UpToFirstClose(es) else UpToFirstClose(es) + [e]
  {
    if es == [] {
    } else if es[0].kind.SessionClosed? {
    } else {
      UpToFirstCloseAppend(es[1..], e);
      assert (es + [e])[1..] == es[1..] + [e];
      var rest := UpToFirstClose(es[1..]);
      assert UpToFirstClose(es) == [es[0]] + rest;
      if rest == [] {
        assert es[1..] == [];
      } else {
        assert Last([es[0]] + rest) == Last(rest);
      }
    }
  }

  /** The active events change only with a further event of an open session. */
  lemma ActiveAppend(log: seq<NetworkEvent>, e: NetworkEvent, sid: nat)
    ensures Active(log + [e], sid) ==
            if e.sessionId != sid || EndsClosed(Active(log, sid)) then Active(log, sid)
            else Active(log, sid) + [e]
  {
    FilterAppend(log, e, OfSession(sid));
    UpToFirstCloseAppend(Filter(log, OfSession(sid)), e);
  }

  lemma {:induction false} ActiveIsOfSession(log: seq<NetworkEvent>, sid: nat)
    ensures forall i :: 0 <= i < |Active(log, sid)| ==> Active(log, sid)[i].sessionId == sid
    ensures forall i :: 0 <= i < |Active(log, sid)| - 1 ==> !Active(log, sid)[i].kind.SessionClosed?
  {
    if log != [] {
      assert log == Init(log) + [Last(log)];
      ActiveAppend(Init(log), Last(log), sid);
      ActiveIsOfSession(Init(log), sid);
    }
  }

  lemma MessageAtCounts(es: seq<NetworkEvent>)
    requires es != []
    ensures MessageAt(es).requestIndex == |Messages(es)|
    ensures Messages(es) == if Last(es).kind.PacketParsed? then Messages(Init(es)) + [Last(es)] else Messages(Init(es))
  {
    assert es == Init(es) + [Last(es)];
    FilterAppend(Init(es), Last(es), OfKind(PacketParsed));
  }

  /** The message snapshots of a session carry the indices 1, 2, 3, ... */
  lemma {:induction false} StreamIndices(es: seq<NetworkEvent>)
    ensures var ms := Filter(Stream(es), IsMessage());
      |ms| == |Messages(es)| && forall i :: 0 <= i < |ms| ==> ms[i].Message? && ms[i].message.requestIndex == i + 1
  {
    hide Session, MessageAt, Messages;
    if es != [] {
      var before := Stream(Init(es));
      StreamIndices(Init(es));
      MessageAtCounts(es);
      if Last(es).kind.PacketParsed? {
        FilterAppend(before, Message(MessageAt(es)), IsMessage());
      } else if Last(es).kind.SessionClosed? {
        FilterAppend(before, Summary(Session(es)), IsMessage());
      } else {
        assert Stream(es) == before;
      }
    } else {
      NoMessages();
    }
  }

  lemma NoMessages()
    ensures Messages([]) == []
  {}

  function IsMessage(): FeatureItem -> bool { (i: FeatureItem) => i.Message? }

  /** Exactly one summary, at the very end, when the session closed, and none before. */
  lemma {:induction false} StreamSummary(es: seq<NetworkEvent>)
    requires forall i :: 0 <= i < |es| - 1 ==> !es[i].kind.SessionClosed?
    ensures Count(Stream(es), IsSummary()) == if EndsClosed(es) then 1 else 0
    ensures EndsClosed(es) ==> Stream(es) != [] && Last(Stream(es)) == Summary(Session(es))
  {
    hide Session, MessageAt;
    if es != [] {
      var before := Stream(Init(es));
      StreamSummary(Init(es));
      if Last(es).kind.PacketParsed? {
        CountAppend(before, Message(MessageAt(es)), IsSummary());
      } else if Last(es).kind.SessionClosed? {
        CountAppend(before, Summary(Session(es)), IsSummary());
      } else {
        assert Stream(es) == before;
      }
    }
  }

  function IsSummary(): FeatureItem -> bool { (i: FeatureItem) => i.Summary? }
}
