/** Diagnostic values of a message computed from its own session up to that message: the mean interval, the
    bytes parsed so far, and how far the receive counter runs ahead of them. */
module PrefixLogic {
  import opened SessionRows
  import opened WindowLogic
  import Wire

  datatype Column = Interval | PacketSize

  function Value(row: Row, col: Column): real
  {
    match col
    case Interval => row.features.interval
    case PacketSize => row.features.packetSize
  }

  /** The sum over a session's messages 1..k among the first n rows, whatever their order. */
  ghost function TotalUpTo(rows: seq<Row>, key: Key, k: int, col: Column, n: nat): real
    requires n <= |rows|
  {
    if n == 0 then 0.0
    else TotalUpTo(rows, key, k, col, n - 1)
         + if rows[n - 1].key == key && 1 <= rows[n - 1].index <= k then Value(rows[n - 1], col) else 0.0
  }

  ghost function Total(rows: seq<Row>, key: Key, k: int, col: Column): real
  {
    TotalUpTo(rows, key, k, col, |rows|)
  }

  lemma {:induction false} TotalUpToStep(rows: seq<Row>, key: Key, k: int, col: Column, p: nat, n: nat)
    requires SessionGapFree(rows, key) && IsMessage(rows, key, k, p) && n <= |rows|
    ensures TotalUpTo(rows, key, k, col, n) == TotalUpTo(rows, key, k - 1, col, n) + if p < n then Value(rows[p], col) else 0.0
  {
    if n > 0 {
      TotalUpToStep(rows, key, k, col, p, n - 1);
      if rows[n - 1].key == key && rows[n - 1].index == k {
        assert IsMessage(rows, key, k, n - 1);
      }
    }
  }

  /** Message k adds its own value. */
  lemma TotalStep(rows: seq<Row>, key: Key, k: int, col: Column, p: nat)
    requires SessionGapFree(rows, key) && IsMessage(rows, key, k, p)
    ensures Total(rows, key, k, col) == Total(rows, key, k - 1, col) + Value(rows[p], col)
  {
    TotalUpToStep(rows, key, k, col, p, |rows|);
  }

  lemma {:induction false} TotalOfNothing(rows: seq<Row>, key: Key, col: Column, n: nat)
    requires n <= |rows|
    ensures TotalUpTo(rows, key, 0, col, n) == 0.0
  {
    if n > 0 { TotalOfNothing(rows, key, col, n - 1); }
  }

  datatype Observation = Observation(mean: real, parsed: real, ahead: real, sameAsPrevious: bool, first: bool)

  ghost predicate SameReceivedAsPrevious(rows: seq<Row>, p: nat)
    requires p < |rows|
  {
    exists q :: IsMessage(rows, rows[p].key, rows[p].index - 1, q) && rows[q].features.received == rows[p].features.received
  }

  /** The values of row p, told over all rows of its session without grouping, sorting or running sums. */
  ghost predicate IsObservation(rows: seq<Row>, p: nat, obs: Observation)
    requires p < |rows|
  {
    var row, k := rows[p], rows[p].index;
    && obs.mean == (if k > 1 then Total(rows, row.key, k, Interval) / (k - 1) as real else 0.0)
    && obs.parsed == Total(rows, row.key, k, PacketSize)
    && obs.ahead == row.features.received - obs.parsed
    && obs.sameAsPrevious == SameReceivedAsPrevious(rows, p)
    && obs.first == (k == 1)
  }

  /** The frame of a message is its payload and the header, a whole number of bytes. */
  predicate FrameOk(f: Features)
  {
    f.packetSize.Floor as real == f.packetSize && f.packetSize == f.payloadSize + Wire.HEADER_SIZE as real
  }

  ghost predicate SessionObservable(rows: seq<Row>, key: Key)
  {
    && SessionOk(rows, key)
    && forall k, p :: IsMessage(rows, key, k, p) ==>
         && FrameOk(rows[p].features)
         && (k == 1 ==> rows[p].features.interval == 0.0)
         && rows[p].features.received >= Total(rows, key, k, PacketSize)
  }

  predicate PrefixMetadataOk(rows: seq<Row>)
  {
    && rows != []
    && (forall p :: 0 <= p < |rows| ==> NonNegative(rows[p].features))
    && (forall p :: 0 <= p < |rows| ==> rows[p].split == rows[0].split)
    && rows[0].split in {Train, Validation}
    && (forall p, q :: 0 <= p < q < |rows| ==> rows[p].rowId != rows[q].rowId)
  }

  ghost predicate AcceptsPrefix(rows: seq<Row>)
  {
    PrefixMetadataOk(rows) && forall key :: key in Keys(rows) ==> SessionObservable(rows, key)
  }

  /** Two sources agree on messages 1..k of a session. */
  ghost predicate SameHistory(rows: seq<Row>, moved: seq<Row>, key: Key, k: int)
  {
    forall i, p, q :: i <= k && IsMessage(rows, key, i, p) && IsMessage(moved, key, i, q) ==> rows[p] == moved[q]
  }

  lemma {:induction false} SameHistorySameTotal(rows: seq<Row>, moved: seq<Row>, key: Key, k: int, col: Column)
    requires SessionGapFree(rows, key) && SessionGapFree(moved, key)
    requires SameHistory(rows, moved, key, k)
    requires k == 0 || (k > 0 && HasMessage(rows, key, k) && HasMessage(moved, key, k))
    ensures Total(rows, key, k, col) == Total(moved, key, k, col)
    decreases k
  {
    if k == 0 {
      TotalOfNothing(rows, key, col, |rows|);
      TotalOfNothing(moved, key, col, |moved|);
    } else {
      var p :| IsMessage(rows, key, k, p);
      var q :| IsMessage(moved, key, k, q);
      TotalStep(rows, key, k, col, p);
      TotalStep(moved, key, k, col, q);
      SameHistorySameTotal(rows, moved, key, k - 1, col);
    }
  }

  /** A message's values depend only on its session's history up to it. */
  lemma ObservationDependsOnHistory(rows: seq<Row>, moved: seq<Row>, p: nat, q: nat, a: Observation, b: Observation)
    requires p < |rows| && q < |moved| && rows[p] == moved[q]
    requires SessionGapFree(rows, rows[p].key) && SessionGapFree(moved, rows[p].key)
    requires SameHistory(rows, moved, rows[p].key, rows[p].index)
    requires IsObservation(rows, p, a) && IsObservation(moved, q, b)
    ensures a == b
  {
    var key, k := rows[p].key, rows[p].index;
    assert IsMessage(rows, key, k, p) && IsMessage(moved, key, k, q);
    SameHistorySameTotal(rows, moved, key, k, Interval);
    SameHistorySameTotal(rows, moved, key, k, PacketSize);
    if k > 1 {
      var r :| IsMessage(rows, key, k - 1, r);
      var s :| IsMessage(moved, key, k - 1, s);
      assert rows[r] == moved[s];
      assert SameReceivedAsPrevious(rows, p) <==> rows[r].features.received == rows[p].features.received;
      assert SameReceivedAsPrevious(moved, q) <==> moved[s].features.received == moved[q].features.received;
    }
  }

  lemma LaterRowsAreNotUsed(rows: seq<Row>, later: seq<Row>, p: nat, before: Observation, after: Observation)
    requires p < |rows| && SessionGapFree(rows, rows[p].key) && SessionGapFree(rows + later, rows[p].key)
    requires IsObservation(rows, p, before) && IsObservation(rows + later, p, after)
    ensures before == after
  {
    var all, key := rows + later, rows[p].key;
    forall i, r, s | i <= rows[p].index && IsMessage(rows, key, i, r) && IsMessage(all, key, i, s) ensures rows[r] == all[s] {
      assert IsMessage(all, key, i, r);
    }
    ObservationDependsOnHistory(rows, all, p, p, before, after);
  }

  lemma RowOrderDoesNotMatter(rows: seq<Row>, moved: seq<Row>, to: seq<nat>, from: seq<nat>, p: nat, a: Observation,
      b: Observation)
    requires Permutes(rows, moved, to, from) && p < |rows|
    requires SessionGapFree(rows, rows[p].key) && SessionGapFree(moved, rows[p].key)
    requires IsObservation(rows, p, a) && IsObservation(moved, to[p], b)
    ensures a == b
  {
    var key := rows[p].key;
    forall i, r, s | i <= rows[p].index && IsMessage(rows, key, i, r) && IsMessage(moved, key, i, s) ensures rows[r] == moved[s] {
      assert IsMessage(moved, key, i, to[r]);
    }
    ObservationDependsOnHistory(rows, moved, p, to[p], a, b);
  }
}

/** `prefix_observations`: one pass of running sums per session, checked as it goes. */
module PrefixFeatures {
  import opened Sorting
  import opened SessionRows
  import opened WindowLogic
  import opened PrefixLogic

  /** The checks on a sorted group that need no running sum. */
  predicate GroupFramesOk(rows: seq<Row>, g: seq<nat>)
    requires forall o :: 0 <= o < |g| ==> g[o] < |rows|
  {
    && GroupOk(rows, g)
    && (forall o :: 0 <= o < |g| ==> FrameOk(rows[g[o]].features))
    && (|g| > 0 ==> rows[g[0]].features.interval == 0.0)
  }

  ghost predicate ReceivedCovers(rows: seq<Row>, key: Key, p: nat, k: int)
    requires p < |rows|
  {
    rows[p].features.received >= Total(rows, key, k, PacketSize)
  }

  lemma GroupChecksAreSessionChecks(rows: seq<Row>, key: Key, g: seq<nat>)
    requires IsGroup(rows, key, g)
    ensures SessionObservable(rows, key) <==>
            GroupFramesOk(rows, g) && forall o :: 0 <= o < |g| ==> ReceivedCovers(rows, key, g[o], o + 1)
  {
    hide GroupOk, SessionOk, FrameOk, Total;
    GroupOkIffSessionOk(rows, key, g);
    if GroupFramesOk(rows, g) && forall o :: 0 <= o < |g| ==> ReceivedCovers(rows, key, g[o], o + 1) {
      forall k, p | IsMessage(rows, key, k, p)
        ensures FrameOk(rows[p].features) && (k == 1 ==> rows[p].features.interval == 0.0)
        ensures rows[p].features.received >= Total(rows, key, k, PacketSize)
      {
        var o := MessageIsInGroup(rows, key, g, k, p);
      }
    }
    if SessionObservable(rows, key) {
      forall o | 0 <= o < |g|
        ensures FrameOk(rows[g[o]].features) && ReceivedCovers(rows, key, g[o], o + 1)
        ensures o == 0 ==> rows[g[o]].features.interval == 0.0
      {
        GroupMemberIsMessage(rows, key, g, o);
      }
    }
  }

  function Observed(rows: seq<Row>, g: seq<nat>, o: nat, intervals: real, parsed: real): Observation
    requires o < |g| && forall i :: 0 <= i < |g| ==> g[i] < |rows|
  {
    var f := rows[g[o]].features;
    Observation(if o > 0 then intervals / o as real else 0.0, parsed, f.received - parsed,
                o > 0 && rows[g[o - 1]].features.received == f.received, o == 0)
  }

  lemma ObservedIsObservation(rows: seq<Row>, key: Key, g: seq<nat>, o: nat)
    requires IsGroup(rows, key, g) && CountsUp(rows, g) && o < |g|
    ensures IsObservation(rows, g[o],
      Observed(rows, g, o, Total(rows, key, o + 1, Interval), Total(rows, key, o + 1, PacketSize)))
  {
    hide Total;
    GroupMemberIsMessage(rows, key, g, o);
    if o > 0 {
      GroupMemberIsMessage(rows, key, g, o - 1);
    }
    if SameReceivedAsPrevious(rows, g[o]) {
      var q :| IsMessage(rows, key, rows[g[o]].index - 1, q) && rows[q].features.received == rows[g[o]].features.received;
      var a := MessageIsInGroup(rows, key, g, rows[g[o]].index - 1, q);
    }
  }

  lemma GroupFacts(rows: seq<Row>, key: Key, g: seq<nat>)
    requires IsGroup(rows, key, g) && GroupFramesOk(rows, g)
    ensures InRange(rows, g) && NoRepeat(g)
    ensures forall p :: 0 <= p < |rows| && rows[p].key == key ==> p in g
    ensures forall o :: 0 <= o < |g| ==> rows[g[o]].key == key
  {
    forall o | 0 <= o < |g| ensures rows[g[o]].key == key { GroupMemberIsMessage(rows, key, g, o); }
  }

  /** One step of the two running sums. */
  lemma SumsStep(rows: seq<Row>, key: Key, g: seq<nat>, o: nat)
    requires IsGroup(rows, key, g) && GroupFramesOk(rows, g) && o < |g|
    ensures
      var f, i, p := rows[g[o]].features, Total(rows, key, o + 1, Interval), Total(rows, key, o + 1, PacketSize);
      && i == Total(rows, key, o, Interval) + f.interval && p == Total(rows, key, o, PacketSize) + f.packetSize
      && IsObservation(rows, g[o], Observed(rows, g, o, i, p))
      && (ReceivedCovers(rows, key, g[o], o + 1) <==> f.received >= p)
  {
    CountsUpIffGapFree(rows, key, g);
    hide Total, IsObservation, SessionGapFree;
    GroupMemberIsMessage(rows, key, g, o);
    TotalStep(rows, key, o + 1, Interval, g[o]);
    TotalStep(rows, key, o + 1, PacketSize, g[o]);
    ObservedIsObservation(rows, key, g, o);
  }

  /** One session: cumulative sums in message order, scattered back to the rows' own places. */
  method ObserveGroup(rows: seq<Row>, key: Key, g: seq<nat>, result: array<Observation>) returns (ok: bool)
    requires IsGroup(rows, key, g) && result.Length == |rows| && GroupFramesOk(rows, g)
    modifies result
    ensures ok <==> forall o :: 0 <= o < |g| ==> ReceivedCovers(rows, key, g[o], o + 1)
    ensures ok ==> forall p :: 0 <= p < |rows| && rows[p].key == key ==> IsObservation(rows, p, result[p])
    ensures forall p :: 0 <= p < |rows| && rows[p].key != key ==> result[p] == old(result[p])
  {
    GroupFacts(rows, key, g);
    TotalOfNothing(rows, key, Interval, |rows|);
    TotalOfNothing(rows, key, PacketSize, |rows|);
    var intervals, parsed := 0.0, 0.0;
    assert intervals == Total(rows, key, 0, Interval) && parsed == Total(rows, key, 0, PacketSize);
    hide *;
    for o := 0 to |g|
      invariant intervals == Total(rows, key, o, Interval) && parsed == Total(rows, key, o, PacketSize)
      invariant forall i :: 0 <= i < o ==> ReceivedCovers(rows, key, g[i], i + 1)
      invariant forall i :: 0 <= i < o ==> IsObservation(rows, g[i], result[g[i]])
      invariant forall p :: 0 <= p < |rows| && rows[p].key != key ==> result[p] == old(result[p])
    {
      SumsStep(rows, key, g, o);
      intervals := intervals + rows[g[o]].features.interval;
      parsed := parsed + rows[g[o]].features.packetSize;
      if rows[g[o]].features.received < parsed { return false; }
      result[g[o]] := Observed(rows, g, o, intervals, parsed);
    }
    return true;
  }

  /** Accepts exactly the described sources, and gives every row its described values in place. */
  method PrefixObservations(rows: seq<Row>) returns (result: array<Observation>, ok: bool)
    ensures ok <==> AcceptsPrefix(rows)
    ensures ok ==> result.Length == |rows| && forall p :: 0 <= p < |rows| ==> IsObservation(rows, p, result[p])
  {
    hide IsGroup, IsObservation, PrefixMetadataOk, SessionObservable, GroupFramesOk, ReceivedCovers, GroupOf, Keys;
    result := new Observation[|rows|](i => Observation(0.0, 0.0, 0.0, false, false));
    if !PrefixMetadataOk(rows) { return result, false; }
    var keys := Keys(rows);
    for i := 0 to |keys|
      invariant forall j :: 0 <= j < i ==> SessionObservable(rows, keys[j])
      invariant forall p :: 0 <= p < |rows| && rows[p].key in keys[..i] ==> IsObservation(rows, p, result[p])
    {
      assert keys[..i + 1] == keys[..i] + [keys[i]];
      var g := GroupOf(rows, keys[i]);
      SessionRowsInRange(rows, keys[i], g);
      GroupChecksAreSessionChecks(rows, keys[i], g);
      if !GroupFramesOk(rows, g) { return result, false; }
      var covered := ObserveGroup(rows, keys[i], g, result);
      if !covered { return result, false; }
    }
    assert keys[..|keys|] == keys;
    forall p | 0 <= p < |rows| ensures IsObservation(rows, p, result[p]) { assert rows[p] in rows; }
    return result, true;
  }

  lemma SessionRowsInRange(rows: seq<Row>, key: Key, g: seq<nat>)
    requires IsGroup(rows, key, g)
    ensures InRange(rows, g)
  {}
}

/** The diagnostic mean and the collector's running average are the same number. */
module PrefixMeetsCollector {
  import opened Seqs
  import opened Telemetry
  import D = DirectSnapshot
  import opened SessionRows
  import opened PrefixLogic

  function MessagesOf(es: seq<NetworkEvent>): seq<FeatureItem> { Filter(D.Stream(es), D.IsMessage()) }

  lemma LastMessageValues(es: seq<NetworkEvent>)
    requires es != [] && Last(es).kind.PacketParsed?
    ensures D.Messages(es) == D.Messages(Init(es)) + [Last(es)]
    ensures MessagesOf(es) == MessagesOf(Init(es)) + [Message(D.MessageAt(es))]
    ensures D.MessageAt(es).messageIntervalMs == D.LastInterval(D.Messages(es))
    ensures D.MessageAt(es).packetSize == Last(es).packetSize && D.MessageAt(es).requestIndex == |D.Messages(es)|
  {
    D.MessageAtCounts(es);
    FilterAppend(D.Stream(Init(es)), Message(D.MessageAt(es)), D.IsMessage());
  }

  lemma OtherEventsAddNoMessage(es: seq<NetworkEvent>)
    requires es != [] && !Last(es).kind.PacketParsed?
    ensures D.Messages(es) == D.Messages(Init(es)) && MessagesOf(es) == MessagesOf(Init(es))
  {
    D.MessageAtCounts(es);
    if Last(es).kind.SessionClosed? {
      FilterAppend(D.Stream(Init(es)), Summary(D.Session(es)), D.IsMessage());
    } else {
      assert D.Stream(es) == D.Stream(Init(es));
    }
  }

  /** Message i of a session's stream carries the gap to its predecessor and its own frame size. */
  lemma {:induction false} StreamCarriesGaps(es: seq<NetworkEvent>)
    ensures |MessagesOf(es)| == |D.Messages(es)|
    ensures forall i :: 0 <= i < |MessagesOf(es)| ==> CarriesGap(MessagesOf(es)[i], D.Messages(es), i)
  {
    hide D.Session, D.MessageAt, D.Messages, MessagesOf, D.LastInterval;
    if es == [] {
      NothingYet();
    } else {
      var before := Init(es);
      StreamCarriesGaps(before);
      if Last(es).kind.PacketParsed? {
        LastMessageValues(es);
        forall i | 0 <= i < |MessagesOf(es)| ensures CarriesGap(MessagesOf(es)[i], D.Messages(es), i) {
          assert D.Messages(es)[..i + 1] == if i < |D.Messages(before)| then D.Messages(before)[..i + 1] else D.Messages(es);
          if i < |D.Messages(before)| { assert CarriesGap(MessagesOf(before)[i], D.Messages(before), i); }
        }
      } else {
        OtherEventsAddNoMessage(es);
      }
    }
  }

  lemma NothingYet()
    ensures MessagesOf([]) == [] && D.Messages([]) == []
  {}

  ghost predicate CarriesGap(item: FeatureItem, ms: seq<NetworkEvent>, i: nat)
    requires i < |ms|
  {
    && item.Message?
    && item.message.messageIntervalMs == D.LastInterval(ms[..i + 1])
    && item.message.packetSize == ms[i].packetSize
    && item.message.requestIndex == i + 1
  }

  /** The rows of a session are the messages that the collector emitted for it, in any order and among any
      other rows. */
  ghost predicate RowsComeFrom(rows: seq<Row>, key: Key, es: seq<NetworkEvent>)
  {
    forall k, p :: IsMessage(rows, key, k, p) ==>
      1 <= k <= |MessagesOf(es)| && FromItem(rows[p].features, MessagesOf(es)[k - 1])
  }

  ghost predicate FromItem(f: Features, item: FeatureItem)
  {
    item.Message? && f.interval == item.message.messageIntervalMs && f.packetSize == item.message.packetSize as real
  }

  function SumSizes(ms: seq<NetworkEvent>): int
  {
    if ms == [] then 0 else SumSizes(Init(ms)) + Last(ms).packetSize
  }

  /** The interval total telescopes, and the packet total is the exact sum of the parsed sizes. */
  lemma {:induction false} TotalsTelescope(rows: seq<Row>, key: Key, es: seq<NetworkEvent>, k: nat)
    requires SessionGapFree(rows, key) && RowsComeFrom(rows, key, es)
    requires k > 0 ==> HasMessage(rows, key, k)
    ensures k <= |D.Messages(es)|
    ensures Total(rows, key, k, Interval) ==
            if k == 0 then 0.0 else Milliseconds(D.Messages(es)[k - 1].monotonicTime - D.Messages(es)[0].monotonicTime)
    ensures Total(rows, key, k, PacketSize) == SumSizes(D.Messages(es)[..k]) as real
  {
    hide MessagesOf, D.Messages;
    StreamCarriesGaps(es);
    var ms := D.Messages(es);
    if k == 0 {
      TotalOfNothing(rows, key, Interval, |rows|);
      TotalOfNothing(rows, key, PacketSize, |rows|);
    } else {
      var p :| IsMessage(rows, key, k, p);
      TotalsTelescope(rows, key, es, k - 1);
      TotalStep(rows, key, k, Interval, p);
      TotalStep(rows, key, k, PacketSize, p);
      assert CarriesGap(MessagesOf(es)[k - 1], ms, k - 1);
      assert Init(ms[..k]) == ms[..k - 1] && Last(ms[..k]) == ms[k - 1];
      hide Total;
    }
  }

  lemma {:induction false} MessagesOfPrefix(es: seq<NetworkEvent>, seen: nat)
    requires seen <= |es|
    ensures D.Messages(es[..seen]) <= D.Messages(es)
  {
    if seen == |es| {
      assert es[..seen] == es;
    } else {
      MessagesOfPrefix(Init(es), seen);
      assert Init(es)[..seen] == es[..seen];
      D.MessageAtCounts(es);
    }
  }

  /** After message k the diagnostic mean is the average in the collector's snapshot, and the parsed bytes are
      the exact sum of the frame sizes. */
  lemma MeanIsCollectorAverage(rows: seq<Row>, p: nat, obs: Observation, es: seq<NetworkEvent>, seen: nat)
    requires p < |rows| && SessionGapFree(rows, rows[p].key) && RowsComeFrom(rows, rows[p].key, es)
    requires IsObservation(rows, p, obs)
    requires 0 < seen <= |es| && |D.Messages(es[..seen])| == rows[p].index
    ensures obs.mean == D.Session(es[..seen]).avgMessageIntervalMs
    ensures obs.parsed == SumSizes(D.Messages(es[..seen])) as real
  {
    var k := rows[p].index;
    assert IsMessage(rows, rows[p].key, k, p);
    TotalsTelescope(rows, rows[p].key, es, k);
    MessagesOfPrefix(es, seen);
    var ms := D.Messages(es[..seen]);
    assert ms == D.Messages(es)[..k];
    assert D.Session(es[..seen]).avgMessageIntervalMs == D.MeanInterval(ms);
    hide D.Session, D.Messages, Total;
  }
}
