/** The stream that the collector emits for a session, printed with three decimals, against the checks of the
    payload validator and of the run audit. */
module ProducerAuditor {
  import A = AuditLogic
  import opened Seqs
  import opened Sorting
  import opened Telemetry
  import D = DirectSnapshot
  import opened PrefixMeetsCollector
  import Wire

  const HALF_UNIT := 0.0005

  /** Printing to three decimals: off by at most half a unit, monotone, exact at zero. */
  ghost predicate Rounds(round: real -> real)
  {
    && (forall x :: x - HALF_UNIT <= round(x) <= x + HALF_UNIT)
    && (forall x, y :: x <= y ==> round(x) <= round(y))
    && round(0.0) == 0.0
  }

  /** To the nearest thousandth, halves upward. */
  function ToThousandth(x: real): real { (x * 1000.0 + 0.5).Floor as real / 1000.0 }

  lemma ThousandthIsNear(x: real)
    ensures x - HALF_UNIT <= ToThousandth(x) <= x + HALF_UNIT
  {
    var y := x * 1000.0 + 0.5;
    assert y - 1.0 < y.Floor as real <= y;
  }

  lemma ThousandthsAreOrdered(x: real, y: real)
    requires x <= y
    ensures ToThousandth(x) <= ToThousandth(y)
  {
    var a, b := x * 1000.0 + 0.5, y * 1000.0 + 0.5;
    assert a <= b;
    FloorsAreOrdered(a, b);
  }

  lemma FloorsAreOrdered(a: real, b: real)
    requires a <= b
    ensures a.Floor <= b.Floor
  {
    assert a.Floor as real <= a && b < b.Floor as real + 1.0;
  }

  /** Printing with three decimals rounds so. */
  lemma ThousandthsRound()
    ensures Rounds(ToThousandth)
  {
    assert ToThousandth(0.0) == 0.0 by { assert 0.5.Floor == 0; }
    hide ToThousandth;
    forall x ensures x - HALF_UNIT <= ToThousandth(x) <= x + HALF_UNIT { ThousandthIsNear(x); }
    forall x, y | x <= y ensures ToThousandth(x) <= ToThousandth(y) { ThousandthsAreOrdered(x, y); }
  }

  ghost predicate HasStart(es: seq<NetworkEvent>)
  {
    exists i :: 0 <= i < |es| && es[i].kind.SessionStarted?
  }

  /** A session's events: a start, clocks that do not go back, frames of payload and header, a close at the end. */
  ghost predicate WellFormed(es: seq<NetworkEvent>)
  {
    && es != [] && es[0].sessionId > 0 && HasStart(es)
    && (forall i, j :: 0 <= i < j < |es| ==> es[i].monotonicTime <= es[j].monotonicTime)
    && (forall i :: 0 <= i < |es| && es[i].kind.PacketParsed? ==> es[i].packetSize == es[i].payloadSize + Wire.HEADER_SIZE)
    && (forall i :: 0 <= i < |es| - 1 ==> !es[i].kind.SessionClosed?)
    && Last(es).kind.SessionClosed?
  }

  /** The time from the connection start, as it stands then, to event n. */
  function Elapsed(es: seq<NetworkEvent>, n: nat): int
    requires 0 < n <= |es|
  {
    es[n - 1].monotonicTime - D.StartEvent(es[..n]).monotonicTime
  }

  /** Event a is a packet, and event b a later packet or the last event. */
  predicate IsLater(es: seq<NetworkEvent>, a: nat, b: nat)
  {
    0 < a < b <= |es| && es[a - 1].kind.PacketParsed? && (es[b - 1].kind.PacketParsed? || b == |es|)
  }

  /** The elapsed time never falls from a packet to a later packet or to the end. */
  ghost predicate ElapsedGrows(es: seq<NetworkEvent>)
  {
    forall a, b :: IsLater(es, a, b) ==> Elapsed(es, a) <= Elapsed(es, b)
  }

  /** The same of the elapsed times as they are printed. */
  ghost predicate PrintedElapsedGrows(es: seq<NetworkEvent>, round: real -> real)
  {
    forall a, b :: IsLater(es, a, b) ==> Printed(es, a, round) <= Printed(es, b, round)
  }

  function Printed(es: seq<NetworkEvent>, n: nat, round: real -> real): real
    requires 0 < n <= |es|
  {
    round(Milliseconds(Elapsed(es, n)))
  }

  /** The relations that the validator demands of a message payload; sizes and counts are natural numbers anyway. */
  ghost predicate ValidMessage(m: MessageSnapshot, round: real -> real)
  {
    && m.sessionId > 0
    && m.packetSize == m.payloadSize + Wire.HEADER_SIZE
    && m.requestIndex >= 1
    && round(m.connectionDurationMs) >= 0.0 && round(m.messageIntervalMs) >= 0.0
    && (m.requestIndex == 1 ==> round(m.messageIntervalMs) == 0.0)
  }

  ghost predicate ValidSummary(s: SessionSnapshot, round: real -> real)
  {
    && s.sessionId > 0 && s.isStarted && s.isClosed
    && round(s.connectionDurationMs) >= 0.0 && round(s.avgMessageIntervalMs) >= 0.0
    && (s.requestCount <= 1 ==> round(s.avgMessageIntervalMs) == 0.0)
  }

  /** The payload that is printed, sent, collected and audited for a message. */
  function MessagePayload(m: MessageSnapshot, round: real -> real): A.Payload
  {
    A.Message(m.requestIndex, A.FrameId(m.packetId, m.packetSize), round(m.connectionDurationMs), m.bytesReceivedTotal,
              m.bytesSentTotal, m.errorCountTotal, round(m.messageIntervalMs))
  }

  function SummaryPayload(s: SessionSnapshot, round: real -> real): A.Payload
  {
    A.Summary(s.requestCount, s.errorCount, s.lastErrorMessage, round(s.connectionDurationMs), s.bytesReceivedTotal,
              s.bytesSentTotal, round(s.avgMessageIntervalMs))
  }

  /** `ms` are records of the messages that a session emits, in message order. */
  ghost predicate RecordsOf(ms: seq<A.Record>, sid: int, es: seq<NetworkEvent>, round: real -> real)
  {
    && |ms| == |Snapshots(es)|
    && forall i :: 0 <= i < |ms| ==> ms[i].sessionId == sid && ms[i].payload == MessagePayload(Snapshots(es)[i], round)
  }

  /** Among the records of a run, those of one session are the session's emitted stream, in any order. */
  ghost predicate CarriesStream(rs: seq<A.Record>, sid: int, ms: seq<A.Record>, es: seq<NetworkEvent>,
      round: real -> real)
  {
    && es != [] && RecordsOf(ms, sid, es, round)
    && multiset(Filter(rs, A.InSession(sid))) == multiset(ms)
    && |A.Summaries(rs, sid)| == 1 && A.Summaries(rs, sid)[0].payload == SummaryPayload(D.Session(es), round)
  }

  ghost predicate IsPrefixMessage(es: seq<NetworkEvent>, i: nat, seen: nat)
  {
    && 0 < seen <= |es| && es[seen - 1].kind.PacketParsed?
    && i < |MessagesOf(es)| && MessagesOf(es)[i] == Message(D.MessageAt(es[..seen]))
    && |D.Messages(es[..seen])| == i + 1
  }

  /** Every message snapshot was taken of a prefix that ends with its packet. */
  lemma {:induction false} MessageOrigin(es: seq<NetworkEvent>, i: nat) returns (seen: nat)
    requires i < |MessagesOf(es)|
    ensures IsPrefixMessage(es, i, seen)
  {
    hide D.MessageAt, D.Messages, MessagesOf;
    if es == [] {
      NothingYet();
      assert false;
    } else {
      var before := Init(es);
      StreamCarriesGaps(before);
      StreamCarriesGaps(es);
      assert es[..|es|] == es;
      if Last(es).kind.PacketParsed? {
        LastMessageValues(es);
        if i == |MessagesOf(before)| { return |es|; }
      } else {
        OtherEventsAddNoMessage(es);
      }
      seen := MessageOrigin(before, i);
      assert before[..seen] == es[..seen];
    }
  }

  lemma {:induction false} SumBytesOfPrefix(es: seq<NetworkEvent>, a: nat, kind: EventKind)
    requires a <= |es|
    ensures D.SumBytes(es[..a], kind) <= D.SumBytes(es, kind)
  {
    if a == |es| { assert es[..a] == es; }
    else { SumBytesOfPrefix(Init(es), a, kind); assert Init(es)[..a] == es[..a]; }
  }

  lemma {:induction false} CountOfPrefix(es: seq<NetworkEvent>, a: nat, keep: NetworkEvent -> bool)
    requires a <= |es|
    ensures Count(es[..a], keep) <= Count(es, keep)
  {
    if a == |es| { assert es[..a] == es; }
    else { CountOfPrefix(Init(es), a, keep); assert Init(es)[..a] == es[..a]; }
  }

  lemma {:induction false} StartIsSeen(es: seq<NetworkEvent>)
    requires HasStart(es)
    ensures D.LastMatch(es, D.OfKind(SessionStarted)).Some?
  {
    if !Last(es).kind.SessionStarted? {
      var i :| 0 <= i < |es| && es[i].kind.SessionStarted?;
      assert Init(es)[i].kind.SessionStarted?;
      StartIsSeen(Init(es));
    }
  }

  /** Events that are no starts leave the connection start where it was. */
  lemma {:induction false} StartStays(es: seq<NetworkEvent>, a: nat, b: nat)
    requires 0 < a <= b <= |es| && forall i :: a <= i < b ==> !es[i].kind.SessionStarted?
    ensures D.LastMatch(es[..b], D.OfKind(SessionStarted)) == D.LastMatch(es[..a], D.OfKind(SessionStarted))
    ensures D.StartEvent(es[..b]) == D.StartEvent(es[..a])
    decreases b
  {
    if a < b {
      assert Init(es[..b]) == es[..b - 1] && Last(es[..b]) == es[b - 1];
      StartStays(es, a, b - 1);
    }
  }

  /** Totals grow with the prefix. */
  lemma TotalsGrow(es: seq<NetworkEvent>, a: nat, b: nat)
    requires 0 < a <= b <= |es|
    ensures
      var s, t := D.Session(es[..a]), D.Session(es[..b]);
      s.bytesReceivedTotal <= t.bytesReceivedTotal && s.bytesSentTotal <= t.bytesSentTotal && s.errorCount <= t.errorCount
  {
    assert es[..b][..a] == es[..a];
    SumBytesOfPrefix(es[..b], a, RecvCompleted);
    SumBytesOfPrefix(es[..b], a, SendCompleted);
    CountOfPrefix(es[..b], a, D.OfKind(ProtocolError));
    hide D.SumBytes, D.LastMatch, D.Messages, D.MeanInterval, D.LastInterval, Count, D.StartEvent;
  }

  lemma DurationIsElapsed(es: seq<NetworkEvent>, n: nat)
    requires 0 < n <= |es|
    ensures D.Session(es[..n]).connectionDurationMs == Milliseconds(Elapsed(es, n))
  {
    hide D.SumBytes, D.LastMatch, D.Messages, D.MeanInterval, D.LastInterval, Count, D.StartEvent;
  }

  /** A session that starts before its packets and keeps its clock has growing elapsed times. */
  lemma EarlyStartsGrow(es: seq<NetworkEvent>)
    requires forall i, j :: 0 <= i < j < |es| ==> es[i].monotonicTime <= es[j].monotonicTime
    requires forall i, j :: 0 <= i < j < |es| && es[i].kind.PacketParsed? ==> !es[j].kind.SessionStarted?
    ensures ElapsedGrows(es)
  {
    hide D.StartEvent;
    forall a, b | IsLater(es, a, b) ensures Elapsed(es, a) <= Elapsed(es, b) {
      StartStays(es, a, b);
    }
  }

  lemma GrowingIsPrinted(es: seq<NetworkEvent>, round: real -> real)
    requires ElapsedGrows(es) && Rounds(round)
    ensures PrintedElapsedGrows(es, round)
  {
    hide Elapsed;
    forall a, b | IsLater(es, a, b) ensures Printed(es, a, round) <= Printed(es, b, round) {
      assert Milliseconds(Elapsed(es, a)) <= Milliseconds(Elapsed(es, b));
    }
  }

  lemma LongerMoreMessages(es: seq<NetworkEvent>, a: nat, b: nat)
    requires b <= a <= |es|
    ensures |D.Messages(es[..b])| <= |D.Messages(es[..a])|
  {
    MessagesOfPrefix(es[..a], b);
    assert es[..a][..b] == es[..b];
  }

  function MessageAtIndex(es: seq<NetworkEvent>, i: nat): MessageSnapshot
  {
    if i < |MessagesOf(es)| && MessagesOf(es)[i].Message? then MessagesOf(es)[i].message else NoMessage()
  }

  /** The message snapshots that a session emits, in order. */
  function Snapshots(es: seq<NetworkEvent>): seq<MessageSnapshot>
  {
    seq(|MessagesOf(es)|, i requires 0 <= i < |MessagesOf(es)| => MessageAtIndex(es, i))
  }

  /** Message i, taken at packet `seen`, shows the totals and the elapsed time of then. */
  ghost predicate TakenAt(es: seq<NetworkEvent>, i: nat, seen: nat)
  {
    && i < |Snapshots(es)| && 0 < seen <= |es| && es[seen - 1].kind.PacketParsed? && |D.Messages(es[..seen])| == i + 1
    && var m, s := Snapshots(es)[i], D.Session(es[..seen]);
       && m.connectionDurationMs == Milliseconds(Elapsed(es, seen)) && m.bytesReceivedTotal == s.bytesReceivedTotal
       && m.bytesSentTotal == s.bytesSentTotal && m.errorCountTotal == s.errorCount
       && m.sessionId == es[0].sessionId
       && m.packetSize == es[seen - 1].packetSize && m.payloadSize == es[seen - 1].payloadSize
  }

  lemma SnapshotTotals(es: seq<NetworkEvent>, i: nat) returns (seen: nat)
    requires i < |Snapshots(es)|
    ensures TakenAt(es, i, seen)
  {
    seen := MessageOrigin(es, i);
    assert Snapshots(es)[i] == D.MessageAt(es[..seen]);
    assert Last(es[..seen]) == es[seen - 1];
    DurationIsElapsed(es, seen);
    hide D.Session, D.Messages, Elapsed;
  }

  /** Packets count: a later packet has more messages behind it. */
  lemma PacketsCount(es: seq<NetworkEvent>, a: nat, b: nat)
    requires 0 < a < b <= |es| && es[b - 1].kind.PacketParsed?
    ensures |D.Messages(es[..a])| < |D.Messages(es[..b])|
  {
    LongerMoreMessages(es, b - 1, a);
    assert Init(es[..b]) == es[..b - 1] && Last(es[..b]) == es[b - 1];
  }

  /** Every packet gave a message. */
  lemma PacketIsTaken(es: seq<NetworkEvent>, a: nat) returns (i: nat)
    requires 0 < a <= |es| && es[a - 1].kind.PacketParsed?
    ensures TakenAt(es, i, a)
  {
    SnapshotNumbers(es);
    LongerMoreMessages(es, |es|, a);
    assert es[..|es|] == es;
    assert Last(es[..a]) == es[a - 1];
    i := |D.Messages(es[..a])| - 1;
    var seen := SnapshotTotals(es, i);
    hide D.Session, D.Messages, Snapshots, Elapsed;
    if seen < a { PacketsCount(es, seen, a); }
    if a < seen { PacketsCount(es, a, seen); }
  }

  lemma SnapshotNumbers(es: seq<NetworkEvent>)
    ensures |Snapshots(es)| == |D.Messages(es)|
    ensures forall i :: 0 <= i < |Snapshots(es)| ==>
      Snapshots(es)[i].requestIndex == i + 1 && Snapshots(es)[i].messageIntervalMs == D.LastInterval(D.Messages(es)[..i + 1])
  {
    hide MessagesOf, D.Messages, D.LastInterval;
    StreamCarriesGaps(es);
    forall i | 0 <= i < |Snapshots(es)|
      ensures Snapshots(es)[i].requestIndex == i + 1
      ensures Snapshots(es)[i].messageIntervalMs == D.LastInterval(D.Messages(es)[..i + 1])
    {
      assert CarriesGap(MessagesOf(es)[i], D.Messages(es), i);
    }
  }

  /** Rounding each gap moves a sum of n messages by at most half a unit per gap; the first message has none. */
  lemma {:induction false} SumRoundedIsClose(rs: seq<A.Record>, ms: seq<NetworkEvent>, round: real -> real)
    requires Rounds(round) && |rs| == |ms| && ms != []
    requires forall i :: 0 <= i < |rs| ==>
      rs[i].payload.Message? && rs[i].payload.interval == round(D.LastInterval(ms[..i + 1]))
    ensures
      var exact := Milliseconds(Last(ms).monotonicTime - ms[0].monotonicTime);
      var slack := (|ms| - 1) as real * HALF_UNIT;
      exact - slack <= A.SumIntervals(rs) <= exact + slack
  {
    assert ms[..|ms|] == ms;
    if |ms| == 1 {
      assert Init(rs) == [];
      assert Last(rs).payload.interval == 0.0;
    } else {
      var before := Init(ms);
      forall i | 0 <= i < |before|
        ensures Init(rs)[i].payload.Message? && Init(rs)[i].payload.interval == round(D.LastInterval(before[..i + 1]))
      {
        assert before[..i + 1] == ms[..i + 1];
      }
      SumRoundedIsClose(Init(rs), before, round);
      var gap := Milliseconds(ms[|ms| - 1].monotonicTime - ms[|ms| - 2].monotonicTime);
      assert Last(rs).payload.interval == round(gap);
      assert gap - HALF_UNIT <= round(gap) <= gap + HALF_UNIT;
    }
  }

  lemma DivideBounds(sum: real, exact: real, n: nat)
    requires n >= 1 && exact - n as real * HALF_UNIT <= sum <= exact + n as real * HALF_UNIT
    ensures exact / n as real - HALF_UNIT <= sum / n as real <= exact / n as real + HALF_UNIT
  {
    var d := n as real;
    assert (sum - exact) / d <= HALF_UNIT && -HALF_UNIT <= (sum - exact) / d;
    assert sum / d == exact / d + (sum - exact) / d;
  }

  function MeanOfRecords(rs: seq<A.Record>): real
  {
    if |rs| > 1 then A.SumIntervals(rs) / (|rs| - 1) as real else 0.0
  }

  lemma RecordsCarryGaps(ms: seq<A.Record>, sid: int, es: seq<NetworkEvent>, round: real -> real)
    requires RecordsOf(ms, sid, es, round)
    ensures |ms| == |D.Messages(es)|
    ensures forall i :: 0 <= i < |ms| ==> ms[i].payload.Message? && ms[i].payload.index == i + 1
    ensures forall i :: 0 <= i < |ms| ==> ms[i].payload.interval == round(D.LastInterval(D.Messages(es)[..i + 1]))
  {
    SnapshotNumbers(es);
    hide Snapshots, D.Messages, D.LastInterval;
  }

  lemma MeansAreClose(ms: seq<A.Record>, events: seq<NetworkEvent>, round: real -> real)
    requires Rounds(round) && |ms| == |events|
    requires forall i :: 0 <= i < |ms| ==> ms[i].payload.Message?
    requires forall i :: 0 <= i < |ms| ==> ms[i].payload.interval == round(D.LastInterval(events[..i + 1]))
    ensures A.Abs(round(D.MeanInterval(events)) - MeanOfRecords(ms)) <= 0.001
  {
    if |events| > 1 {
      SumRoundedIsClose(ms, events, round);
      DivideBounds(A.SumIntervals(ms), Milliseconds(Last(events).monotonicTime - events[0].monotonicTime), |events| - 1);
    }
  }

  /** For every number of messages, the printed mean and the mean of the printed gaps differ by at most 0.001,
      which the audit's tolerance of 0.0015 covers. */
  lemma RoundedMeanIsClose(ms: seq<A.Record>, sid: int, es: seq<NetworkEvent>, round: real -> real)
    requires es != [] && Rounds(round) && RecordsOf(ms, sid, es, round)
    ensures A.Abs(round(D.Session(es).avgMessageIntervalMs) - MeanOfRecords(ms)) <= 0.001
    ensures A.Close(round(D.Session(es).avgMessageIntervalMs), MeanOfRecords(ms))
  {
    RecordsCarryGaps(ms, sid, es, round);
    assert D.Session(es).avgMessageIntervalMs == D.MeanInterval(D.Messages(es));
    hide D.Session, D.Messages, D.MeanInterval, Snapshots, MessagesOf, RecordsOf, Rounds, MeanOfRecords;
    MeansAreClose(ms, D.Messages(es), round);
  }

  lemma {:induction false} StartIsAmongTheEvents(es: seq<NetworkEvent>, kind: EventKind)
    ensures var found := D.LastMatch(es, D.OfKind(kind)); found.Some? ==> found.value in es
  {
    if es != [] {
      assert es == Init(es) + [Last(es)];
      StartIsAmongTheEvents(Init(es), kind);
    }
  }

  ghost predicate ClockKept(es: seq<NetworkEvent>)
  {
    forall i, j :: 0 <= i < j < |es| ==> es[i].monotonicTime <= es[j].monotonicTime
  }

  lemma ElapsedIsNotNegative(es: seq<NetworkEvent>, n: nat)
    requires ClockKept(es) && 0 < n <= |es|
    ensures Elapsed(es, n) >= 0
  {
    StartIsAmongTheEvents(es[..n], SessionStarted);
    var start := D.StartEvent(es[..n]);
    assert start in es[..n];
    var i :| 0 <= i < n && es[..n][i] == start;
    assert es[i] == start;
  }

  lemma {:induction false} KeptInOrder(es: seq<NetworkEvent>, keep: NetworkEvent -> bool)
    requires ClockKept(es)
    ensures ClockKept(Filter(es, keep))
    ensures forall e :: e in Filter(es, keep) ==> e in es
  {
    if es != [] {
      assert es == Init(es) + [Last(es)];
      KeptInOrder(Init(es), keep);
      forall e | e in Filter(Init(es), keep) ensures e.monotonicTime <= Last(es).monotonicTime {
        var i :| 0 <= i < |Init(es)| && Init(es)[i] == e;
        assert es[i] == e;
      }
    }
  }

  lemma GapsAreNotNegative(ms: seq<NetworkEvent>, n: nat)
    requires ClockKept(ms) && n <= |ms|
    ensures D.LastInterval(ms[..n]) >= 0.0 && D.MeanInterval(ms) >= 0.0
  {
    if |ms| > 1 { assert ms[0].monotonicTime <= ms[|ms| - 1].monotonicTime; }
  }

  lemma MessageIsValid(es: seq<NetworkEvent>, round: real -> real, i: nat)
    requires WellFormed(es) && Rounds(round) && i < |Snapshots(es)|
    ensures ValidMessage(Snapshots(es)[i], round)
  {
    SnapshotNumbers(es);
    var seen := SnapshotTotals(es, i);
    ElapsedIsNotNegative(es, seen);
    KeptInOrder(es, D.OfKind(PacketParsed));
    GapsAreNotNegative(D.Messages(es), i + 1);
    assert i == 0 ==> D.LastInterval(D.Messages(es)[..1]) == 0.0;
    hide D.Session, D.Messages, Snapshots, Elapsed, D.LastInterval, D.MeanInterval;
  }

  /** Producer meets validator: every payload of the stream is accepted. */
  lemma StreamIsValid(es: seq<NetworkEvent>, round: real -> real)
    requires WellFormed(es) && Rounds(round)
    ensures forall i :: 0 <= i < |Snapshots(es)| ==> ValidMessage(Snapshots(es)[i], round)
    ensures ValidSummary(D.Session(es), round)
  {
    forall i | 0 <= i < |Snapshots(es)| ensures ValidMessage(Snapshots(es)[i], round) {
      MessageIsValid(es, round, i);
    }
    StartIsSeen(es);
    assert es[..|es|] == es;
    ElapsedIsNotNegative(es, |es|);
    DurationIsElapsed(es, |es|);
    KeptInOrder(es, D.OfKind(PacketParsed));
    GapsAreNotNegative(D.Messages(es), 0);
    assert D.Session(es).requestCount <= 1 ==> D.Session(es).avgMessageIntervalMs == 0.0;
  }

  lemma ByIndexIsOrder()
    ensures TotalPreorder(A.ByIndex())
  {}

  lemma NumberedIsSorted(ms: seq<A.Record>)
    requires forall i :: 0 <= i < |ms| ==> A.IndexOf(ms[i]) == i + 1
    ensures Sorted(ms, A.ByIndex()) && NoTies(ms, A.ByIndex())
  {}

  /** Sorting by number restores the message order from any order of the records. */
  lemma SortingRestoresOrder(rs: seq<A.Record>, sid: int, ms: seq<A.Record>, es: seq<NetworkEvent>, round: real -> real)
    requires CarriesStream(rs, sid, ms, es, round)
    ensures A.Messages(rs, sid) == ms
  {
    RecordsCarryGaps(ms, sid, es, round);
    var own := Filter(rs, A.InSession(sid));
    assert A.Messages(rs, sid) == SortBy(own, A.ByIndex());
    hide *;
    ByIndexIsOrder();
    SortSorts(own, A.ByIndex());
    RecordsAreNumbered(ms, sid, es, round);
    NumberedMeans(ms);
    NumberedIsSorted(ms);
    SortedIsUnique(SortBy(own, A.ByIndex()), ms, A.ByIndex());
  }

  lemma NumberedMeans(ms: seq<A.Record>)
    requires A.Numbered(ms)
    ensures forall i :: 0 <= i < |ms| ==> A.IndexOf(ms[i]) == i + 1
  {}

  lemma {:induction false} AllKept(s: seq<A.Record>, keep: A.Record -> bool, drop: A.Record -> bool)
    requires forall r :: r in s ==> keep(r) && !drop(r)
    ensures Filter(s, keep) == s && Filter(s, drop) == []
  {
    if s != [] {
      assert s == Init(s) + [Last(s)];
      AllKept(Init(s), keep, drop);
    }
  }

  lemma SummaryAtTheEnd(ms: seq<A.Record>, summary: A.Record, sid: int)
    requires summary.sessionId == sid && summary.payload.Summary?
    requires forall i :: 0 <= i < |ms| ==> ms[i].sessionId == sid && ms[i].payload.Message?
    ensures Filter(ms + [summary], A.InSession(sid)) == ms
    ensures A.Summaries(ms + [summary], sid) == [summary]
  {
    AllKept(ms, A.InSession(sid), A.Summarises(sid));
    FilterAppend(ms, summary, A.InSession(sid));
    FilterAppend(ms, summary, A.Summarises(sid));
  }

  /** The records of a session's stream, collected as they are emitted, carry the stream. */
  lemma EmittedOrderCarriesTheStream(es: seq<NetworkEvent>, sid: int, round: real -> real)
      returns (rs: seq<A.Record>, ms: seq<A.Record>)
    requires es != []
    ensures CarriesStream(rs, sid, ms, es, round) && |rs| == |Snapshots(es)| + 1
  {
    hide D.Session, Snapshots, Filter, A.Summaries, A.InSession;
    var shots := Snapshots(es);
    ms := seq(|shots|, i requires 0 <= i < |shots| => A.Record(i + 1, i + 1, sid, true, MessagePayload(shots[i], round)));
    var summary := A.Record(|shots| + 1, |shots| + 1, sid, true, SummaryPayload(D.Session(es), round));
    rs := ms + [summary];
    SummaryAtTheEnd(ms, summary, sid);
  }

  lemma RecordsGrow(ms: seq<A.Record>, sid: int, es: seq<NetworkEvent>, round: real -> real)
    requires PrintedElapsedGrows(es, round) && RecordsOf(ms, sid, es, round)
    ensures A.Grows(ms)
  {
    hide D.Session, D.Messages, Snapshots, Elapsed;
    forall i | 0 < i < |ms|
      ensures var a, b := ms[i - 1].payload, ms[i].payload;
        a.Message? && b.Message? && a.duration <= b.duration && a.received <= b.received && a.sent <= b.sent
        && a.errors <= b.errors
    {
      var a := SnapshotTotals(es, i - 1);
      var b := SnapshotTotals(es, i);
      if b <= a { LongerMoreMessages(es, a, b); }
      TotalsGrow(es, a, b);
      assert IsLater(es, a, b);
    }
  }

  lemma SummaryFollows(ms: seq<A.Record>, summary: A.Record, sid: int, es: seq<NetworkEvent>, round: real -> real)
    requires es != [] && PrintedElapsedGrows(es, round) && Rounds(round) && RecordsOf(ms, sid, es, round)
    requires summary.payload == SummaryPayload(D.Session(es), round)
    ensures A.SummaryAgrees(ms, summary)
  {
    SummaryCounts(es);
    RecordsCarryGaps(ms, sid, es, round);
    RoundedMeanIsClose(ms, sid, es, round);
    if ms != [] { LastStaysBelow(ms, sid, es, round); }
    hide D.Session, D.Messages, Snapshots, MessagesOf, Elapsed, A.Close, A.SumIntervals, RecordsOf, PrintedElapsedGrows;
  }

  lemma LastStaysBelow(ms: seq<A.Record>, sid: int, es: seq<NetworkEvent>, round: real -> real)
    requires es != [] && ms != [] && PrintedElapsedGrows(es, round) && RecordsOf(ms, sid, es, round)
    ensures var a, s := Last(ms).payload, SummaryPayload(D.Session(es), round);
      a.duration <= s.duration && a.received <= s.received && a.sent <= s.sent
  {
    hide D.Session, D.Messages, Snapshots, Elapsed;
    var a := SnapshotTotals(es, |ms| - 1);
    assert es[..|es|] == es;
    DurationIsElapsed(es, |es|);
    TotalsGrow(es, a, |es|);
    assert a < |es| ==> IsLater(es, a, |es|);
  }

  lemma {:induction false} GrowsFar(ms: seq<A.Record>, i: nat, j: nat)
    requires A.Grows(ms) && i <= j < |ms| && forall k :: 0 <= k < |ms| ==> ms[k].payload.Message?
    ensures ms[i].payload.duration <= ms[j].payload.duration
  {
    if i < j { GrowsFar(ms, i, j - 1); }
  }

  /** Every packet has its record, with the printed elapsed time of then. */
  lemma RecordOfPacket(ms: seq<A.Record>, sid: int, es: seq<NetworkEvent>, round: real -> real, a: nat) returns (i: nat)
    requires RecordsOf(ms, sid, es, round) && 0 < a <= |es| && es[a - 1].kind.PacketParsed?
    ensures i < |ms| && |D.Messages(es[..a])| == i + 1
    ensures ms[i].payload.Message? && ms[i].payload.duration == Printed(es, a, round)
  {
    i := PacketIsTaken(es, a);
    hide D.Session, D.Messages, Snapshots, Elapsed;
  }

  lemma SummaryTime(es: seq<NetworkEvent>, round: real -> real)
    requires es != []
    ensures SummaryPayload(D.Session(es), round).duration == Printed(es, |es|, round)
  {
    assert es[..|es|] == es;
    DurationIsElapsed(es, |es|);
    hide Elapsed, D.Session;
  }

  predicate NoShorter(r: A.Record, later: A.Record) { r.payload.duration <= later.payload.duration }

  lemma GrowsToTheSummary(ms: seq<A.Record>, summary: A.Record)
    requires A.Grows(ms) && A.SummaryAgrees(ms, summary) && forall k :: 0 <= k < |ms| ==> ms[k].payload.Message?
    ensures forall i, j :: 0 <= i <= j < |ms| ==> NoShorter(ms[i], ms[j])
    ensures forall i :: 0 <= i < |ms| ==> NoShorter(ms[i], summary)
  {
    hide A.Close, A.SumIntervals, A.Grows;
    forall i, j | 0 <= i <= j < |ms| ensures NoShorter(ms[i], ms[j]) { GrowsFar(ms, i, j); }
    if ms != [] { assert NoShorter(Last(ms), summary); }
    forall i | 0 <= i < |ms| ensures NoShorter(ms[i], summary) { assert NoShorter(ms[i], ms[|ms| - 1]); }
  }

  lemma PairGrows(ms: seq<A.Record>, summary: A.Record, sid: int, es: seq<NetworkEvent>, round: real -> real, a: nat,
      b: nat)
    requires RecordsOf(ms, sid, es, round) && IsLater(es, a, b)
    requires forall i, j :: 0 <= i <= j < |ms| ==> NoShorter(ms[i], ms[j])
    requires forall i :: 0 <= i < |ms| ==> NoShorter(ms[i], summary)
    requires summary.payload.duration == Printed(es, |es|, round)
    ensures Printed(es, a, round) <= Printed(es, b, round)
  {
    hide D.Session, D.Messages, Snapshots, Printed, RecordsOf;
    var i := RecordOfPacket(ms, sid, es, round, a);
    if es[b - 1].kind.PacketParsed? {
      var j := RecordOfPacket(ms, sid, es, round, b);
      PacketsCount(es, a, b);
      assert NoShorter(ms[i], ms[j]);
    } else {
      assert NoShorter(ms[i], summary);
    }
  }

  /** The converse: records that grow, up to their summary, come from elapsed times that grow in print. */
  lemma PassingStreamGrows(ms: seq<A.Record>, summary: A.Record, sid: int, es: seq<NetworkEvent>, round: real -> real)
    requires es != [] && RecordsOf(ms, sid, es, round) && A.Grows(ms) && A.SummaryAgrees(ms, summary)
    requires summary.payload == SummaryPayload(D.Session(es), round)
    ensures PrintedElapsedGrows(es, round)
  {
    SummaryTime(es, round);
    RecordsCarryGaps(ms, sid, es, round);
    hide D.Session, Snapshots, Printed, RecordsOf, SummaryPayload, NoShorter, A.Grows, A.SummaryAgrees;
    GrowsToTheSummary(ms, summary);
    forall a, b | IsLater(es, a, b) ensures Printed(es, a, round) <= Printed(es, b, round) {
      PairGrows(ms, summary, sid, es, round, a, b);
    }
  }

  lemma SummaryCounts(es: seq<NetworkEvent>)
    requires es != []
    ensures D.Session(es).requestCount == |D.Messages(es)|
  {}

  lemma RecordsAreNumbered(ms: seq<A.Record>, sid: int, es: seq<NetworkEvent>, round: real -> real)
    requires RecordsOf(ms, sid, es, round)
    ensures A.Numbered(ms)
  {
    RecordsCarryGaps(ms, sid, es, round);
    hide Snapshots, D.Messages, D.LastInterval, RecordsOf;
  }

  /** Producer meets auditor, exactly: the stream of a session passes the audit's checks of that session, in whatever
      order its records were collected and among any others, if and only if its elapsed time, as printed, never falls
      from a packet to a later one or to the end. */
  lemma StreamPassesAudit(rs: seq<A.Record>, sid: int, ms: seq<A.Record>, es: seq<NetworkEvent>, round: real -> real)
    requires Rounds(round) && CarriesStream(rs, sid, ms, es, round)
    ensures A.SessionPasses(rs, sid) <==> PrintedElapsedGrows(es, round)
  {
    SortingRestoresOrder(rs, sid, ms, es, round);
    hide A.Messages, A.Summaries, Snapshots, D.Session, D.Messages, Rounds, RecordsOf, A.Grows, A.Numbered,
         A.SummaryAgrees, Filter, PrintedElapsedGrows;
    var summary := A.Summaries(rs, sid)[0];
    if PrintedElapsedGrows(es, round) {
      RecordsAreNumbered(ms, sid, es, round);
      RecordsGrow(ms, sid, es, round);
      SummaryFollows(ms, summary, sid, es, round);
    }
    if A.SessionPasses(rs, sid) {
      PassingStreamGrows(ms, summary, sid, es, round);
    }
  }

  /** Snapshot i is of packet i. */
  lemma SnapshotIsOfItsPacket(es: seq<NetworkEvent>, i: nat)
    requires i < |Snapshots(es)| && |Snapshots(es)| == |D.Messages(es)|
    ensures Snapshots(es)[i].packetId == D.Messages(es)[i].packetId
    ensures Snapshots(es)[i].packetSize == D.Messages(es)[i].packetSize
  {
    var seen := MessageOrigin(es, i);
    assert Snapshots(es)[i] == D.MessageAt(es[..seen]);
    assert Last(es[..seen]) == es[seen - 1];
    assert D.Messages(es[..seen])[i] == es[seen - 1];
    MessagesOfPrefix(es, seen);
    hide D.Session, D.Messages;
  }

  /** The frames that the server reported in a session. */
  function ReportedFrames(es: seq<NetworkEvent>): (fs: seq<A.FrameId>)
    ensures |fs| == |D.Messages(es)|
  {
    seq(|D.Messages(es)|, i requires 0 <= i < |D.Messages(es)| =>
      A.FrameId(D.Messages(es)[i].packetId, D.Messages(es)[i].packetSize))
  }

  lemma RecordsNameTheFrames(ms: seq<A.Record>, sid: int, es: seq<NetworkEvent>, round: real -> real)
    requires RecordsOf(ms, sid, es, round)
    ensures A.Frames(ms) == ReportedFrames(es)
  {
    SnapshotNumbers(es);
    hide D.Messages, Snapshots;
    forall i | 0 <= i < |ms| ensures A.FrameOf(ms[i]) == ReportedFrames(es)[i] { SnapshotIsOfItsPacket(es, i); }
  }

  /** The message of the last protocol error, or nothing. */
  function LastError(es: seq<NetworkEvent>): string
  {
    var e := D.LastMatch(es, D.OfKind(ProtocolError));
    if e.Some? then e.value.errorMessage else ""
  }

  lemma SummarySigns(ms: seq<A.Record>, summary: A.Record, es: seq<NetworkEvent>, round: real -> real)
    requires es != [] && summary.payload == SummaryPayload(D.Session(es), round)
    ensures A.SignatureOf(ms, summary) ==
      A.Signature(A.Frames(ms), |D.Messages(es)|, Count(es, D.OfKind(ProtocolError)), LastError(es),
                  D.SumBytes(es, RecvCompleted))
  {
    hide D.SumBytes, D.LastMatch, D.Messages, D.MeanInterval, D.LastInterval, Count, D.StartEvent, A.Frames;
  }

  /** Producer meets plan, exactly: the audit's signature of a session's records equals that of a planned client if and
      only if the server reported the planned frames in order, received the planned bytes and met the planned errors. */
  lemma StreamMatchesPlanIff(rs: seq<A.Record>, sid: int, ms: seq<A.Record>, es: seq<NetworkEvent>, round: real -> real,
      p: A.Planned)
    requires Rounds(round) && CarriesStream(rs, sid, ms, es, round)
    ensures A.SignatureOf(A.Messages(rs, sid), A.Summaries(rs, sid)[0]) == A.ExpectedSignature(p) <==>
      && ReportedFrames(es) == p.messages && D.SumBytes(es, RecvCompleted) == A.T.WireSize(p.frames)
      && Count(es, D.OfKind(ProtocolError)) == p.errorCount && LastError(es) == p.lastError
  {
    SortingRestoresOrder(rs, sid, ms, es, round);
    RecordsNameTheFrames(ms, sid, es, round);
    SummarySigns(ms, A.Summaries(rs, sid)[0], es, round);
    hide A.Messages, A.Summaries, D.SumBytes, D.Messages, Count, LastError, RecordsOf, Rounds, Filter, A.Frames, A.SignatureOf,
         SummaryPayload, A.T.WireSize, D.Session;
  }

  function Exactly(): real -> real { (x: real) => x }

  /** The stream passes under every rounding, in every order and company, if and only if the elapsed time itself
      never falls. */
  ghost predicate AlwaysPasses(es: seq<NetworkEvent>)
  {
    forall rs, sid, ms, round :: Rounds(round) && CarriesStream(rs, sid, ms, es, round) ==> A.SessionPasses(rs, sid)
  }

  lemma AlwaysPassesIffElapsedGrows(es: seq<NetworkEvent>)
    requires es != []
    ensures AlwaysPasses(es) <==> ElapsedGrows(es)
  {
    hide CarriesStream, A.SessionPasses, Elapsed;
    if ElapsedGrows(es) {
      forall rs, sid, ms, round | Rounds(round) && CarriesStream(rs, sid, ms, es, round) ensures A.SessionPasses(rs, sid) {
        GrowingIsPrinted(es, round);
        StreamPassesAudit(rs, sid, ms, es, round);
      }
    }
    if AlwaysPasses(es) {
      var rs, ms := EmittedOrderCarriesTheStream(es, 1, Exactly());
      assert Rounds(Exactly());
      StreamPassesAudit(rs, 1, ms, es, Exactly());
      forall a, b | IsLater(es, a, b) ensures Elapsed(es, a) <= Elapsed(es, b) {
        assert Printed(es, a, Exactly()) <= Printed(es, b, Exactly());
      }
    }
  }

  /** A second start after the one packet: the records pass exactly if the time from that start to the close is, in
      print, no shorter than the time from the first start to the packet. */
  lemma LateStartPassesIff(rs: seq<A.Record>, sid: int, ms: seq<A.Record>, round: real -> real,
      start: NetworkEvent, packet: NetworkEvent, again: NetworkEvent, close: NetworkEvent)
    requires start.kind.SessionStarted? && packet.kind.PacketParsed? && again.kind.SessionStarted? && close.kind.SessionClosed?
    requires Rounds(round) && CarriesStream(rs, sid, ms, [start, packet, again, close], round)
    ensures A.SessionPasses(rs, sid) <==>
      round(Milliseconds(packet.monotonicTime - start.monotonicTime))
      <= round(Milliseconds(close.monotonicTime - again.monotonicTime))
  {
    var es := [start, packet, again, close];
    StreamPassesAudit(rs, sid, ms, es, round);
    hide CarriesStream, A.SessionPasses, Rounds;
    LateStartTimes(start, packet, again, close);
    hide Elapsed;
    assert IsLater(es, 2, 4);
    assert forall a, b :: IsLater(es, a, b) ==> a == 2 && b == 4;
  }

  lemma LateStartTimes(start: NetworkEvent, packet: NetworkEvent, again: NetworkEvent, close: NetworkEvent)
    requires start.kind.SessionStarted? && packet.kind.PacketParsed? && again.kind.SessionStarted? && close.kind.SessionClosed?
    ensures Elapsed([start, packet, again, close], 2) == packet.monotonicTime - start.monotonicTime
    ensures Elapsed([start, packet, again, close], 4) == close.monotonicTime - again.monotonicTime
  {
    var es := [start, packet, again, close];
    assert es[..2] == [start, packet] && Init([start, packet]) == [start];
    assert es[..4] == es && Init(es) == [start, packet, again];
    assert D.LastMatch([start], D.OfKind(SessionStarted)) == Some(start);
    assert D.LastMatch([start, packet, again], D.OfKind(SessionStarted)) == Some(again);
  }
}
