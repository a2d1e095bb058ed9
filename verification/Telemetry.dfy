/** The records that travel from the network core to the inference worker. Times are nanosecond counts;
    durations and intervals are exact milliseconds. */
module Telemetry {

  datatype EventKind = SessionStarted | SessionClosed | RecvCompleted | SendCompleted | PacketParsed | ProtocolError

  datatype NetworkEvent = NetworkEvent(
    kind: EventKind,
    sessionId: nat,
    socketHandle: nat,
    logicWorkerId: int,
    wallTime: int,
    monotonicTime: int,
    bytesTransferred: nat,
    packetId: int,
    packetSize: int,
    payloadSize: int,
    errorCode: nat,
    errorMessage: string)

  datatype SessionSnapshot = SessionSnapshot(
    sessionId: nat,
    socketHandle: nat,
    logicWorkerId: int,
    isStarted: bool,
    isClosed: bool,
    connectionStartWallTime: int,
    lastEventWallTime: int,
    connectionCloseWallTime: int,
    connectionDurationMs: real,
    bytesReceivedTotal: nat,
    bytesSentTotal: nat,
    recvEventCount: nat,
    sendEventCount: nat,
    requestCount: nat,
    errorCount: nat,
    lastMessageIntervalMs: real,
    avgMessageIntervalMs: real,
    lastPacketId: int,
    lastPacketSize: int,
    lastPayloadSize: int,
    lastErrorCode: nat,
    lastErrorMessage: string)

  datatype MessageSnapshot = MessageSnapshot(
    sessionId: nat,
    socketHandle: nat,
    logicWorkerId: int,
    messageWallTime: int,
    requestIndex: nat,
    packetId: int,
    packetSize: int,
    payloadSize: int,
    connectionDurationMs: real,
    messageIntervalMs: real,
    bytesReceivedTotal: nat,
    bytesSentTotal: nat,
    errorCountTotal: nat)

  datatype FeatureItem = Message(message: MessageSnapshot) | Summary(session: SessionSnapshot) {
    function SessionId(): nat {
      if Message? then message.sessionId else session.sessionId
    }

    /** A summary carries a default message part, whose index is 0. */
    function RequestIndex(): nat {
      if Message? then message.requestIndex else 0
    }
  }

  function NoSession(): SessionSnapshot {
    SessionSnapshot(0, 0, -1, false, false, 0, 0, 0, 0.0, 0, 0, 0, 0, 0, 0, 0.0, 0.0, -1, 0, 0, 0, "")
  }

  function NoMessage(): MessageSnapshot {
    MessageSnapshot(0, 0, -1, 0, 0, -1, 0, 0, 0.0, 0.0, 0, 0, 0)
  }

  function Milliseconds(nanoseconds: int): real {
    nanoseconds as real / 1000000.0
  }
}
