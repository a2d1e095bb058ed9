/** The per-session event state machine that folds network events into snapshots. */
module CollectorLogic {
  import opened Seqs
  import opened Telemetry
  import opened DirectSnapshot

  datatype SessionState = SessionState(
    session: SessionSnapshot,
    latestMessage: MessageSnapshot,
    hasStartTime: bool,
    hasLastMessageTime: bool,
    hasLatestMessage: bool,
    connectionStartTime: int,
    lastMessageTime: int,
    messageIntervalSumMs: real)

  datatype CollectorState = CollectorState(sessions: map<nat, SessionState>, ignoredAfterClose: nat)

  function NewSession(): SessionState {
    SessionState(NoSession(), NoMessage(), false, false, false, 0, 0, 0.0)
  }

  function GetOrCreate(sessions: map<nat, SessionState>, e: NetworkEvent): SessionState
  {
    var state := if e.sessionId in sessions then sessions[e.sessionId] else NewSession();
    if state.session.sessionId == 0 then
      state.(session := state.session.(sessionId := e.sessionId, socketHandle := e.socketHandle,
                                       logicWorkerId := e.logicWorkerId, connectionStartWallTime := e.wallTime),
             connectionStartTime := e.monotonicTime, hasStartTime := true)
    else state
  }

  function UpdateCommon(state: SessionState, e: NetworkEvent): SessionState
  {
    state.(session := state.session.(socketHandle := e.socketHandle, logicWorkerId := e.logicWorkerId,
                                     lastEventWallTime := e.wallTime))
  }

  function UpdateDuration(state: SessionState, e: NetworkEvent): SessionState
  {
    if !state.hasStartTime then state
    else state.(session := state.session.(connectionDurationMs :=
                                            Milliseconds(e.monotonicTime - state.connectionStartTime)))
  }

  function HandleStarted(state: SessionState, e: NetworkEvent): SessionState
  {
    state.(session := state.session.(isStarted := true, isClosed := false, connectionStartWallTime := e.wallTime),
           connectionStartTime := e.monotonicTime, hasStartTime := true)
  }

  function HandleClosed(state: SessionState, e: NetworkEvent): SessionState
  {
    UpdateDuration(state.(session := state.session.(isClosed := true, connectionCloseWallTime := e.wallTime)), e)
  }

  function HandleRecv(state: SessionState, e: NetworkEvent): SessionState
  {
    state.(session := state.session.(recvEventCount := state.session.recvEventCount + 1,
                                     bytesReceivedTotal := state.session.bytesReceivedTotal + e.bytesTransferred))
  }

  function HandleSend(state: SessionState, e: NetworkEvent): SessionState
  {
    state.(session := state.session.(sendEventCount := state.session.sendEventCount + 1,
                                     bytesSentTotal := state.session.bytesSentTotal + e.bytesTransferred))
  }

  function HandleParsed(state: SessionState, e: NetworkEvent): SessionState
  {
    var count := state.session.requestCount + 1;
    var interval := if state.hasLastMessageTime then Milliseconds(e.monotonicTime - state.lastMessageTime) else 0.0;
    var sum := state.messageIntervalSumMs + interval;
    var session := state.session.(
      requestCount := count, lastPacketId := e.packetId, lastPacketSize := e.packetSize,
      lastPayloadSize := e.payloadSize, lastMessageIntervalMs := interval,
      avgMessageIntervalMs := if count > 1 then sum / (count - 1) as real else state.session.avgMessageIntervalMs);
    var message := MessageSnapshot(
      session.sessionId, session.socketHandle, e.logicWorkerId, e.wallTime, count, e.packetId, e.packetSize,
      e.payloadSize, session.connectionDurationMs, interval, session.bytesReceivedTotal, session.bytesSentTotal,
      session.errorCount);
    state.(session := session, messageIntervalSumMs := sum, lastMessageTime := e.monotonicTime,
           hasLastMessageTime := true, latestMessage := message, hasLatestMessage := true)
  }

  function HandleError(state: SessionState, e: NetworkEvent): SessionState
  {
    var s := state.session;
    state.(session := s.(errorCount := s.errorCount + 1, lastErrorCode := e.errorCode,
                         lastErrorMessage := e.errorMessage,
                         lastPacketId := if e.packetId >= 0 then e.packetId else s.lastPacketId,
                         lastPacketSize := if e.packetSize > 0 then e.packetSize else s.lastPacketSize,
                         lastPayloadSize := if e.payloadSize > 0 then e.payloadSize else s.lastPayloadSize))
  }

  /** One event on an open session, in the order of the locked block: common fields, then the start
      handler before the duration, every other handler after it. */
  function Advance(state: SessionState, e: NetworkEvent): SessionState
  {
    var common := UpdateCommon(state, e);
    match e.kind
    case SessionStarted => UpdateDuration(HandleStarted(common, e), e)
    case SessionClosed => HandleClosed(UpdateDuration(common, e), e)
    case RecvCompleted => HandleRecv(UpdateDuration(common, e), e)
    case SendCompleted => HandleSend(UpdateDuration(common, e), e)
    case PacketParsed => HandleParsed(UpdateDuration(common, e), e)
    case ProtocolError => HandleError(UpdateDuration(common, e), e)
  }

  function Emitted(state: SessionState, e: NetworkEvent): Option<FeatureItem>
  {
    match e.kind
    case PacketParsed => Some(Message(state.latestMessage))
    case SessionClosed => Some(Summary(state.session))
    case _ => None
  }

  /** The whole locked block: the next collector state and the item to enqueue after unlocking. */
  function OnEvent(c: CollectorState, e: NetworkEvent): (CollectorState, Option<FeatureItem>)
  {
    var state := GetOrCreate(c.sessions, e);
    if state.session.isClosed then
      (CollectorState(c.sessions[e.sessionId := state], c.ignoredAfterClose + 1), None)
    else
      var next := Advance(state, e);
      (c.(sessions := c.sessions[e.sessionId := next]), Emitted(next, e))
  }

  function Replay(log: seq<NetworkEvent>): CollectorState
  {
    if log == [] then CollectorState(map[], 0) else OnEvent(Replay(Init(log)), Last(log)).0
  }

  /** The items of a replay, in emission order. */
  function Emissions(log: seq<NetworkEvent>): seq<FeatureItem>
  {
    if log == [] then []
    else
      Emissions(Init(log)) + ToSeq(OnEvent(Replay(Init(log)), Last(log)).1)
  }

  function ToSeq<T>(o: Option<T>): seq<T> {
    if o.Some? then [o.value] else []
  }

  /** The collector's private state for one session, stated through the session's own events. */
  ghost predicate Tracks(state: SessionState, es: seq<NetworkEvent>)
    requires es != []
  {
    && TracksConnection(state, Session(es), StartEvent(es))
    && TracksTraffic(state.session, Session(es))
    && TracksIntervals(state, Session(es), Messages(es))
    && TracksPackets(state.session, Session(es))
    && (Last(es).kind.PacketParsed? ==> state.latestMessage == MessageAt(es))
  }

  ghost predicate TracksConnection(state: SessionState, direct: SessionSnapshot, start: NetworkEvent)
  {
    var s := state.session;
    && s.sessionId == direct.sessionId
    && s.socketHandle == direct.socketHandle
    && s.logicWorkerId == direct.logicWorkerId
    && s.isStarted == direct.isStarted
    && s.isClosed == direct.isClosed
    && s.connectionStartWallTime == direct.connectionStartWallTime
    && s.lastEventWallTime == direct.lastEventWallTime
    && s.connectionCloseWallTime == direct.connectionCloseWallTime
    && s.connectionDurationMs == direct.connectionDurationMs
    && state.hasStartTime
    && state.connectionStartTime == start.monotonicTime
  }

  ghost predicate TracksTraffic(s: SessionSnapshot, direct: SessionSnapshot)
  {
    && s.bytesReceivedTotal == direct.bytesReceivedTotal
    && s.bytesSentTotal == direct.bytesSentTotal
    && s.recvEventCount == direct.recvEventCount
    && s.sendEventCount == direct.sendEventCount
    && s.errorCount == direct.errorCount
  }

  ghost predicate TracksIntervals(state: SessionState, direct: SessionSnapshot, ms: seq<NetworkEvent>)
  {
    && state.session.requestCount == direct.requestCount == |ms|
    && state.session.lastMessageIntervalMs == direct.lastMessageIntervalMs
    && state.session.avgMessageIntervalMs == direct.avgMessageIntervalMs
    && state.hasLastMessageTime == state.hasLatestMessage == (ms != [])
    && (ms != [] ==> state.lastMessageTime == Last(ms).monotonicTime)
    && state.messageIntervalSumMs ==
       if ms == [] then 0.0 else Milliseconds(Last(ms).monotonicTime - ms[0].monotonicTime)
  }

  ghost predicate TracksPackets(s: SessionSnapshot, direct: SessionSnapshot)
  {
    && s.lastPacketId == direct.lastPacketId
    && s.lastPacketSize == direct.lastPacketSize
    && s.lastPayloadSize == direct.lastPayloadSize
    && s.lastErrorCode == direct.lastErrorCode
    && s.lastErrorMessage == direct.lastErrorMessage
  }

  lemma CountsAppend(es: seq<NetworkEvent>, e: NetworkEvent)
    ensures SumBytes(es + [e], RecvCompleted) ==
            SumBytes(es, RecvCompleted) + if e.kind.RecvCompleted? then e.bytesTransferred else 0
    ensures SumBytes(es + [e], SendCompleted) ==
            SumBytes(es, SendCompleted) + if e.kind.SendCompleted? then e.bytesTransferred else 0
    ensures Count(es + [e], OfKind(RecvCompleted)) ==
            Count(es, OfKind(RecvCompleted)) + if e.kind.RecvCompleted? then 1 else 0
    ensures Count(es + [e], OfKind(SendCompleted)) ==
            Count(es, OfKind(SendCompleted)) + if e.kind.SendCompleted? then 1 else 0
    ensures Count(es + [e], OfKind(ProtocolError)) ==
            Count(es, OfKind(ProtocolError)) + if e.kind.ProtocolError? then 1 else 0
  {
    assert Init(es + [e]) == es;
  }

  lemma LastMatchAppend(es: seq<NetworkEvent>, e: NetworkEvent, p: NetworkEvent -> bool)
    ensures LastMatch(es + [e], p) == if p(e) then Some(e) else LastMatch(es, p)
  {
    assert Init(es + [e]) == es;
  }

  /** The running sum of the gaps telescopes. */
  lemma GapsTelescope(a: int, b: int, c: int)
    ensures Milliseconds(b - a) + Milliseconds(c - b) == Milliseconds(c - a)
  {}

  lemma MessagesAppend(es: seq<NetworkEvent>, e: NetworkEvent)
    ensures Messages(es + [e]) == if e.kind.PacketParsed? then Messages(es) + [e] else Messages(es)
  {
    FilterAppend(es, e, OfKind(PacketParsed));
  }

  /** The state to which an event is applied: a new session's, or one that tracks its events so far. */
  ghost predicate Ready(state: SessionState, es: seq<NetworkEvent>, e: NetworkEvent)
  {
    if es == [] then e.sessionId != 0 && state == GetOrCreate(map[], e)
    else !EndsClosed(es) && Tracks(state, es)
  }

  lemma ConnectionStep(state: SessionState, e: NetworkEvent)
    requires state.hasStartTime && !state.session.isClosed
    ensures var next := Advance(state, e);
      var start := if e.kind.SessionStarted? then e.monotonicTime else state.connectionStartTime;
      var s := next.session;
      && s.sessionId == state.session.sessionId
      && s.socketHandle == e.socketHandle && s.logicWorkerId == e.logicWorkerId
      && s.isStarted == (state.session.isStarted || e.kind.SessionStarted?)
      && s.isClosed == e.kind.SessionClosed?
      && s.connectionStartWallTime ==
         (if e.kind.SessionStarted? then e.wallTime else state.session.connectionStartWallTime)
      && s.lastEventWallTime == e.wallTime
      && s.connectionCloseWallTime ==
         (if e.kind.SessionClosed? then e.wallTime else state.session.connectionCloseWallTime)
      && s.connectionDurationMs == Milliseconds(e.monotonicTime - start)
      && next.hasStartTime && next.connectionStartTime == start
  {
    match e.kind {
      case SessionStarted =>
      case SessionClosed =>
      case RecvCompleted =>
      case SendCompleted =>
      case PacketParsed =>
      case ProtocolError =>
    }
  }

  lemma ConnectionAdvances(state: SessionState, es: seq<NetworkEvent>, e: NetworkEvent)
    requires Ready(state, es, e)
    ensures TracksConnection(Advance(state, e), Session(es + [e]), StartEvent(es + [e]))
  {
    hide Advance;
    ConnectionStep(state, e);
    LastMatchAppend(es, e, OfKind(SessionStarted));
  }

  lemma TrafficStep(state: SessionState, e: NetworkEvent)
    ensures var s, next := state.session, Advance(state, e).session;
      var received := if e.kind.RecvCompleted? then 1 else 0;
      var sent := if e.kind.SendCompleted? then 1 else 0;
      && next.recvEventCount == s.recvEventCount + received
      && next.sendEventCount == s.sendEventCount + sent
      && next.bytesReceivedTotal == s.bytesReceivedTotal + (if received == 1 then e.bytesTransferred else 0)
      && next.bytesSentTotal == s.bytesSentTotal + (if sent == 1 then e.bytesTransferred else 0)
      && next.errorCount == s.errorCount + (if e.kind.ProtocolError? then 1 else 0)
  {
    match e.kind {
      case SessionStarted =>
      case SessionClosed =>
      case RecvCompleted =>
      case SendCompleted =>
      case PacketParsed =>
      case ProtocolError =>
    }
  }

  lemma TrafficAdvances(state: SessionState, es: seq<NetworkEvent>, e: NetworkEvent)
    requires Ready(state, es, e)
    ensures TracksTraffic(Advance(state, e).session, Session(es + [e]))
  {
    hide Advance;
    TrafficStep(state, e);
    CountsAppend(es, e);
  }

  lemma IntervalsStep(state: SessionState, e: NetworkEvent)
    ensures var next := Advance(state, e);
      var gap := if state.hasLastMessageTime then Milliseconds(e.monotonicTime - state.lastMessageTime) else 0.0;
      if e.kind.PacketParsed? then
        && next.session.requestCount == state.session.requestCount + 1
        && next.session.lastMessageIntervalMs == gap
        && next.messageIntervalSumMs == state.messageIntervalSumMs + gap
        && next.session.avgMessageIntervalMs ==
           (if state.session.requestCount == 0 then state.session.avgMessageIntervalMs
            else next.messageIntervalSumMs / state.session.requestCount as real)
        && next.hasLastMessageTime && next.hasLatestMessage && next.lastMessageTime == e.monotonicTime
      else
        && next.session.requestCount == state.session.requestCount
        && next.session.lastMessageIntervalMs == state.session.lastMessageIntervalMs
        && next.session.avgMessageIntervalMs == state.session.avgMessageIntervalMs
        && next.messageIntervalSumMs == state.messageIntervalSumMs
        && next.hasLastMessageTime == state.hasLastMessageTime
        && next.hasLatestMessage == state.hasLatestMessage
        && next.lastMessageTime == state.lastMessageTime
  {
    match e.kind {
      case SessionStarted =>
      case SessionClosed =>
      case RecvCompleted =>
      case SendCompleted =>
      case PacketParsed =>
      case ProtocolError =>
    }
  }

  lemma IntervalsAdvance(state: SessionState, es: seq<NetworkEvent>, e: NetworkEvent)
    requires Ready(state, es, e)
    ensures TracksIntervals(Advance(state, e), Session(es + [e]), Messages(es + [e]))
  {
    hide Advance;
    IntervalsStep(state, e);
    MessagesAppend(es, e);
    var ms := Messages(es);
    if e.kind.PacketParsed? && ms != [] {
      GapsTelescope(ms[0].monotonicTime, Last(ms).monotonicTime, e.monotonicTime);
    }
  }

  lemma PacketsStep(state: SessionState, e: NetworkEvent)
    ensures var s := state.session;
      var next := Advance(state, e).session;
      && next.lastPacketId == (if SetsPacketId()(e) then e.packetId else s.lastPacketId)
      && next.lastPacketSize == (if SetsPacketSize()(e) then e.packetSize else s.lastPacketSize)
      && next.lastPayloadSize == (if SetsPayloadSize()(e) then e.payloadSize else s.lastPayloadSize)
      && next.lastErrorCode == (if e.kind.ProtocolError? then e.errorCode else s.lastErrorCode)
      && next.lastErrorMessage == (if e.kind.ProtocolError? then e.errorMessage else s.lastErrorMessage)
  {
    match e.kind {
      case SessionStarted =>
      case SessionClosed =>
      case RecvCompleted =>
      case SendCompleted =>
      case PacketParsed =>
      case ProtocolError =>
    }
  }

  lemma PacketsAdvance(state: SessionState, es: seq<NetworkEvent>, e: NetworkEvent)
    requires Ready(state, es, e)
    ensures TracksPackets(Advance(state, e).session, Session(es + [e]))
  {
    hide Advance;
    PacketsStep(state, e);
    LastMatchAppend(es, e, OfKind(ProtocolError));
    LastMatchAppend(es, e, SetsPacketId());
    LastMatchAppend(es, e, SetsPacketSize());
    LastMatchAppend(es, e, SetsPayloadSize());
  }

  lemma EventTracks(state: SessionState, es: seq<NetworkEvent>, e: NetworkEvent)
    requires Ready(state, es, e)
    ensures Tracks(Advance(state, e), es + [e])
  {
    ConnectionAdvances(state, es, e);
    TrafficAdvances(state, es, e);
    IntervalsAdvance(state, es, e);
    PacketsAdvance(state, es, e);
  }

  /** The collector agrees, session by session, with the direct computation over the log. */
  ghost predicate Agrees(c: CollectorState, log: seq<NetworkEvent>, sid: nat)
  {
    && (sid in c.sessions <==> Active(log, sid) != [])
    && (sid in c.sessions ==> Tracks(c.sessions[sid], Active(log, sid)))
  }

  ghost predicate AllIdsPositive(log: seq<NetworkEvent>)
  {
    forall i :: 0 <= i < |log| ==> log[i].sessionId > 0
  }

  lemma TracksTellsClosed(state: SessionState, es: seq<NetworkEvent>)
    requires es != [] && Tracks(state, es)
    ensures state.session.isClosed == EndsClosed(es)
    ensures state.session.sessionId == es[0].sessionId
  {}

  /** One event: its own session advances or stays frozen, every other session is untouched. */
  lemma EventAgrees(c: CollectorState, log: seq<NetworkEvent>, e: NetworkEvent, sid: nat)
    requires e.sessionId > 0 && Agrees(c, log, sid) && Agrees(c, log, e.sessionId)
    ensures Agrees(OnEvent(c, e).0, log + [e], sid)
    ensures sid == e.sessionId ==>
      var es := Active(log, sid);
      ToSeq(OnEvent(c, e).1) == if EndsClosed(es) then [] else Emission(es + [e])
    ensures OnEvent(c, e).0.ignoredAfterClose ==
            c.ignoredAfterClose + if EndsClosed(Active(log, e.sessionId)) then 1 else 0
  {
    hide Advance, Tracks;
    ActiveAppend(log, e, sid);
    var es := Active(log, e.sessionId);
    var state := GetOrCreate(c.sessions, e);
    if es != [] {
      ActiveIsOfSession(log, e.sessionId);
      TracksTellsClosed(c.sessions[e.sessionId], es);
      assert state == c.sessions[e.sessionId];
    } else {
      assert state == GetOrCreate(map[], e);
    }
    if !EndsClosed(es) {
      ReadyForNext(state, es, e);
      EventTracks(state, es, e);
      EmitsDirect(Advance(state, e), es, e);
    }
  }

  lemma ReadyForNext(state: SessionState, es: seq<NetworkEvent>, e: NetworkEvent)
    requires !EndsClosed(es) && e.sessionId > 0
    requires if es == [] then state == GetOrCreate(map[], e) else Tracks(state, es)
    ensures Ready(state, es, e)
  {}

  lemma EmitsDirect(next: SessionState, es: seq<NetworkEvent>, e: NetworkEvent)
    requires Tracks(next, es + [e])
    ensures ToSeq(Emitted(next, e)) == Emission(es + [e])
  {
    if e.kind.SessionClosed? {
      SessionEquality(next, es + [e]);
    }
  }

  lemma SessionEquality(state: SessionState, es: seq<NetworkEvent>)
    requires es != [] && Tracks(state, es)
    ensures state.session == Session(es)
  {}

  lemma {:induction false} ReplayAgrees(log: seq<NetworkEvent>, sid: nat)
    requires AllIdsPositive(log)
    ensures Agrees(Replay(log), log, sid)
  {
    hide OnEvent, Tracks;
    if log != [] {
      ReplayAgrees(Init(log), sid);
      ReplayAgrees(Init(log), Last(log).sessionId);
      EventAgrees(Replay(Init(log)), Init(log), Last(log), sid);
      assert Init(log) + [Last(log)] == log;
    }
  }

  /** Incremental equals recomputed: after any interleaving of any sessions' events, each session's
      snapshot is the direct computation over that session's own events up to its first close. */
  lemma IncrementalEqualsRecomputed(log: seq<NetworkEvent>, sid: nat)
    requires AllIdsPositive(log)
    ensures sid in Replay(log).sessions <==> Active(log, sid) != []
    ensures sid in Replay(log).sessions ==> Replay(log).sessions[sid].session == Session(Active(log, sid))
  {
    ReplayAgrees(log, sid);
    if Active(log, sid) != [] {
      SessionEquality(Replay(log).sessions[sid], Active(log, sid));
    }
  }

  /** How many events of a log came after their session's close. */
  ghost function LateEvents(log: seq<NetworkEvent>): nat
  {
    if log == [] then 0
    else LateEvents(Init(log)) + if EndsClosed(Active(Init(log), Last(log).sessionId)) then 1 else 0
  }

  lemma {:induction false} IgnoredCountsLateEvents(log: seq<NetworkEvent>)
    requires AllIdsPositive(log)
    ensures Replay(log).ignoredAfterClose == LateEvents(log)
  {
    if log != [] {
      IgnoredCountsLateEvents(Init(log));
      ReplayAgrees(Init(log), Last(log).sessionId);
      EventAgrees(Replay(Init(log)), Init(log), Last(log), Last(log).sessionId);
    }
  }

  /** A closed session is frozen: whatever follows changes none of its snapshots. */
  lemma {:induction false} ClosedSessionIsFrozen(log: seq<NetworkEvent>, later: seq<NetworkEvent>, sid: nat)
    requires AllIdsPositive(log) && AllIdsPositive(later)
    requires EndsClosed(Active(log, sid))
    ensures Active(log + later, sid) == Active(log, sid)
    ensures sid in Replay(log).sessions && sid in Replay(log + later).sessions
    ensures Replay(log + later).sessions[sid] == Replay(log).sessions[sid]
    ensures StreamOf(Emissions(log + later), sid) == StreamOf(Emissions(log), sid)
  {
    hide OnEvent, Emissions;
    ReplayAgrees(log, sid);
    if later == [] {
      assert log + later == log;
    } else {
      ClosedSessionIsFrozen(log, Init(later), sid);
      var before := log + Init(later);
      var e := Last(later);
      assert log + later == before + [e] && Init(before + [e]) == before;
      ActiveAppend(before, e, sid);
      ReplayAgrees(before, sid);
      ReplayAgrees(before, e.sessionId);
      EventAgrees(Replay(before), before, e, e.sessionId);
      FrozenStep(before, e, sid);
    }
  }

  lemma FrozenStep(before: seq<NetworkEvent>, e: NetworkEvent, sid: nat)
    requires AllIdsPositive(before) && e.sessionId > 0 && EndsClosed(Active(before, sid))
    ensures sid in Replay(before).sessions && sid in Replay(before + [e]).sessions
    ensures Replay(before + [e]).sessions[sid] == Replay(before).sessions[sid]
    ensures StreamOf(Emissions(before + [e]), sid) == StreamOf(Emissions(before), sid)
  {
    hide Advance, Emissions, Tracks, Active, Session, Emission;
    ReplayAgrees(before, sid);
    ReplayAgrees(before, e.sessionId);
    StepEmission(before, e, sid);
    assert Init(before + [e]) == before;
    if e.sessionId == sid {
      ActiveIsOfSession(before, sid);
      TracksTellsClosed(Replay(before).sessions[sid], Active(before, sid));
    }
  }

  function ItemOfSession(sid: nat): FeatureItem -> bool { (i: FeatureItem) => i.SessionId() == sid }

  function StreamOf(items: seq<FeatureItem>, sid: nat): seq<FeatureItem>
  {
    Filter(items, ItemOfSession(sid))
  }

  lemma StepEmission(log: seq<NetworkEvent>, e: NetworkEvent, sid: nat)
    requires AllIdsPositive(log) && e.sessionId > 0
    ensures StreamOf(Emissions(log + [e]), sid) ==
            StreamOf(Emissions(log), sid) +
            if e.sessionId != sid || EndsClosed(Active(log, sid)) then [] else Emission(Active(log, sid) + [e])
  {
    hide OnEvent, Active, Emission, Agrees;
    ReplayAgrees(log, e.sessionId);
    EventAgrees(Replay(log), log, e, e.sessionId);
    assert Init(log + [e]) == log;
    var es := Active(log, e.sessionId);
    var out := OnEvent(Replay(log), e).1;
    if out.Some? {
      assert Emission(es + [e]) == [out.value];
      EmissionIsOfSession(log, e);
      FilterAppend(Emissions(log), out.value, ItemOfSession(sid));
    } else {
      assert Emissions(log) + [] == Emissions(log);
    }
  }

  lemma EmissionIsOfSession(log: seq<NetworkEvent>, e: NetworkEvent)
    ensures forall item :: item in Emission(Active(log, e.sessionId) + [e]) ==> item.SessionId() == e.sessionId
  {
    ActiveIsOfSession(log, e.sessionId);
  }

  lemma NothingFromNothing(sid: nat)
    ensures StreamOf(Emissions([]), sid) == [] && Active([], sid) == []
  {}

  /** The items emitted for a session are exactly its direct stream: one snapshot per parsed packet,
      each computed from the events up to that packet, then one summary at the close. */
  lemma {:induction false} EmissionsAreDirectStreams(log: seq<NetworkEvent>, sid: nat)
    requires AllIdsPositive(log)
    ensures StreamOf(Emissions(log), sid) == Stream(Active(log, sid))
  {
    hide Emissions, Emission, Active, StreamOf;
    if log == [] {
      NothingFromNothing(sid);
    } else {
      EmissionsAreDirectStreams(Init(log), sid);
      StepEmission(Init(log), Last(log), sid);
      assert Init(log) + [Last(log)] == log;
      ActiveAppend(Init(log), Last(log), sid);
      assert Init(Active(Init(log), sid) + [Last(log)]) == Active(Init(log), sid);
    }
  }

  /** Session ids start at 1 because id 0 marks an uninitialised entry: with id 0 a late event would
      still rewrite the start of a closed session. */
  lemma SessionZeroIsNotFrozen(close: NetworkEvent, late: NetworkEvent)
    requires close.kind.SessionClosed? && close.sessionId == late.sessionId == 0
    requires close.monotonicTime != late.monotonicTime
    ensures EndsClosed(Active([close], 0))
    ensures 0 in Replay([close]).sessions && 0 in Replay([close, late]).sessions
    ensures Replay([close, late]).sessions[0] != Replay([close]).sessions[0]
  {
    assert Init([close]) == [] && Init([close, late]) == [close];
    assert Filter([close], OfSession(0)) == [close];
    assert Replay([close]).sessions[0].connectionStartTime == close.monotonicTime;
    assert Replay([close, late]).sessions[0].connectionStartTime == late.monotonicTime;
  }
}

/** The collector object. A session's state is a value in the map, updated in place under the lock. */
module FeatureCollector {
  import opened Seqs
  import opened Telemetry
  import opened DirectSnapshot
  import opened FeatureQueue
  import opened CollectorLogic

  class FeatureCollector {
    var sessions: map<nat, SessionState>
    var ignoredAfterCloseEventCount: nat
    var featureQueue: AsyncFeatureQueue?<FeatureItem>
    ghost var log: seq<NetworkEvent>

    ghost predicate Valid()
      reads this
    {
      AllIdsPositive(log) && CollectorState(sessions, ignoredAfterCloseEventCount) == Replay(log)
    }

    constructor ()
      ensures Valid() && log == [] && featureQueue == null
    {
      sessions, ignoredAfterCloseEventCount, featureQueue, log := map[], 0, null, [];
    }

    method SetFeatureQueue(queue: AsyncFeatureQueue?<FeatureItem>)
      requires Valid()
      modifies this`featureQueue
      ensures Valid() && featureQueue == queue
    {
      featureQueue := queue;
    }

    method GetOrCreateSession(e: NetworkEvent)
      modifies this`sessions
      ensures sessions == old(sessions)[e.sessionId := GetOrCreate(old(sessions), e)]
    {
      if e.sessionId !in sessions {
        sessions := sessions[e.sessionId := NewSession()];
      }
      var state := sessions[e.sessionId];
      if state.session.sessionId == 0 {
        sessions := sessions[e.sessionId := state.(
          session := state.session.(sessionId := e.sessionId, socketHandle := e.socketHandle,
                                    logicWorkerId := e.logicWorkerId, connectionStartWallTime := e.wallTime),
          connectionStartTime := e.monotonicTime, hasStartTime := true)];
      }
    }

    /** The critical section of OnNetworkEvent. */
    method HandleEvent(e: NetworkEvent) returns (item: Option<FeatureItem>)
      requires Valid() && e.sessionId > 0
      modifies this`sessions, this`ignoredAfterCloseEventCount, this`log
      ensures Valid() && log == old(log) + [e]
      ensures (CollectorState(sessions, ignoredAfterCloseEventCount), item) ==
              OnEvent(CollectorState(old(sessions), old(ignoredAfterCloseEventCount)), e)
    {
      log := log + [e];
      assert Init(log) == old(log);
      GetOrCreateSession(e);
      var state := sessions[e.sessionId];
      if state.session.isClosed {
        ignoredAfterCloseEventCount := ignoredAfterCloseEventCount + 1;
        return None;
      }
      state := UpdateCommon(state, e);
      item := None;
      if e.kind.SessionStarted? {
        state := UpdateDuration(HandleStarted(state, e), e);
      } else {
        state := UpdateDuration(state, e);
        match e.kind {
          case SessionClosed =>
            state := HandleClosed(state, e);
            item := Some(Summary(state.session));
          case RecvCompleted => state := HandleRecv(state, e);
          case SendCompleted => state := HandleSend(state, e);
          case PacketParsed =>
            state := HandleParsed(state, e);
            item := Some(Message(state.latestMessage));
          case ProtocolError => state := HandleError(state, e);
          case _ =>
        }
      }
      sessions := sessions[e.sessionId := state];
      assert sessions == OnEvent(CollectorState(old(sessions), old(ignoredAfterCloseEventCount)), e).0.sessions;
    }

    /** One event, then the push outside the lock. The stored snapshot is the direct computation over the
        session's own events; the queue gets at most one item, the next of the session's direct stream. */
    method OnNetworkEvent(e: NetworkEvent)
      requires Valid() && e.sessionId > 0
      requires featureQueue != null ==> featureQueue.Valid()
      modifies this`sessions, this`ignoredAfterCloseEventCount, this`log
      modifies if featureQueue != null then {featureQueue} else {}
      ensures Valid() && log == old(log) + [e]
      ensures e.sessionId in sessions && sessions[e.sessionId].session == Session(Active(log, e.sessionId))
      ensures forall sid :: sid != e.sessionId ==>
        (sid in sessions <==> sid in old(sessions)) && (sid in sessions ==> sessions[sid] == old(sessions)[sid])
      ensures featureQueue != null ==> featureQueue.Valid()
      ensures featureQueue != null ==>
        (var frozen := EndsClosed(Active(old(log), e.sessionId));
         var emission := if frozen then [] else Emission(Active(log, e.sessionId));
         featureQueue.View() ==
           if emission == [] then old(featureQueue.View()) else TryPushStep(old(featureQueue.View()), emission[0]))
    {
      hide OnEvent, Emission, Session, TryPushStep;
      var item := HandleEvent(e);
      assert Init(log) == old(log);
      EventIsDirect(old(log), e);
      if featureQueue != null && item.Some? {
        var _ := featureQueue.TryPush(item.value);
      }
    }

    method GetSessionSnapshot(sessionId: nat) returns (r: Option<SessionSnapshot>)
      requires Valid()
      ensures r == if Active(log, sessionId) == [] then None else Some(Session(Active(log, sessionId)))
    {
      IncrementalEqualsRecomputed(log, sessionId);
      if sessionId !in sessions {
        return None;
      }
      return Some(sessions[sessionId].session);
    }
  }

  /** What one event does to a replayed collector, in direct terms. */
  lemma EventIsDirect(log: seq<NetworkEvent>, e: NetworkEvent)
    requires AllIdsPositive(log) && e.sessionId > 0
    ensures var (next, item) := OnEvent(Replay(log), e);
      && e.sessionId in next.sessions
      && next.sessions[e.sessionId].session == Session(Active(log + [e], e.sessionId))
      && (forall sid :: sid != e.sessionId ==>
            (sid in next.sessions <==> sid in Replay(log).sessions) &&
            (sid in next.sessions ==> next.sessions[sid] == Replay(log).sessions[sid]))
      && ToSeq(item) == if EndsClosed(Active(log, e.sessionId)) then [] else Emission(Active(log + [e], e.sessionId))
  {
    hide Advance, Session, Tracks, Active, Emission;
    ReplayAgrees(log, e.sessionId);
    EventAgrees(Replay(log), log, e, e.sessionId);
    ActiveAppend(log, e, e.sessionId);
    assert Init(log + [e]) == log;
    IncrementalEqualsRecomputed(log + [e], e.sessionId);
  }
}
