/** Freshness of the runtime report: `covers_latest_message` is claimed for a session exactly when the
    session's latest message was processed and its result stored. */
module Freshness {
  import opened Seqs
  import opened Telemetry
  import opened CollectorLogic
  import opened FeatureQueue
  import opened InferenceStore
  import opened InferencePipeline
  import opened PipelineConservation

  /** The number of messages the collector has counted for a session. */
  function RequestCount(c: CollectorState, sid: nat): nat
  {
    if sid in c.sessions then c.sessions[sid].session.requestCount else 0
  }

  /** The sessions that the report lists: those whose start was observed. */
  predicate Reported(s: Pipeline, sid: nat)
  {
    sid in s.ingest.collector.sessions && s.ingest.collector.sessions[sid].session.isStarted
  }

  /** The report's expression for one listed session. */
  predicate CoversLatestMessage(s: Pipeline, sid: nat)
  {
    sid in s.worker.store && s.worker.store[sid].latest.requestIndex == RequestCount(s.ingest.collector, sid)
  }

  /** A session's packets are handled one at a time: none is observed while the message snapshot of an earlier one
      still waits to be pushed. Binding each session to one worker thread provides this; starts, closes and all
      other events may come from any thread at any moment. */
  ghost predicate InOrder(config: Config, steps: seq<Step>)
    requires IsRun(config, steps)
    decreases |steps|
  {
    steps != [] ==>
      && InOrder(config, Init(steps))
      && PacketInOrder(Execute(config, Init(steps)), Last(steps))
  }

  ghost predicate PacketInOrder(s: Pipeline, step: Step)
  {
    step.Observe? && step.event.kind.PacketParsed? ==> NoMessagePending(s.ingest.pending, step.event.sessionId)
  }

  ghost predicate NoMessagePending(pending: multiset<FeatureItem>, sid: nat)
  {
    forall p :: p in pending && p.Message? ==> p.SessionId() != sid
  }

  ghost predicate WellKeyed(c: CollectorState)
  {
    forall sid :: sid in c.sessions ==> c.sessions[sid].session.sessionId == sid > 0
  }

  /** Same session, both messages, and the first comes before the second. */
  ghost predicate Precedes(a: FeatureItem, b: FeatureItem)
  {
    a.Message? && b.Message? && a.SessionId() == b.SessionId() ==> a.RequestIndex() < b.RequestIndex()
  }

  ghost predicate Numbered(c: CollectorState, item: FeatureItem)
  {
    item.Message? ==> 1 <= item.RequestIndex() <= RequestCount(c, item.SessionId())
  }

  ghost predicate MessagesInOrder(s: Ingest, accepted: seq<Item>)
  {
    && WellKeyed(s.collector)
    && (forall p :: p in s.pending ==> Numbered(s.collector, p))
    && (forall p :: p in s.pending && p.Message? ==> s.pending[p] == 1)
    && (forall p, q :: p in s.pending && q in s.pending && p.Message? && q.Message? && p != q ==>
          p.SessionId() != q.SessionId())
    && (forall i :: 0 <= i < |accepted| ==> Numbered(s.collector, accepted[i].item))
    && (forall i, j :: 0 <= i < j < |accepted| ==> Precedes(accepted[i].item, accepted[j].item))
    && (forall i, p :: 0 <= i < |accepted| && p in s.pending ==> Precedes(accepted[i].item, p))
  }

  /** One event: its message, if any, gets the next index of its session. */
  lemma EventNumbersMessage(c: CollectorState, e: NetworkEvent)
    requires WellKeyed(c) && e.sessionId > 0
    ensures var (next, out) := OnEvent(c, e);
      && WellKeyed(next)
      && (forall sid :: sid != e.sessionId ==> RequestCount(next, sid) == RequestCount(c, sid))
      && RequestCount(c, e.sessionId) <= RequestCount(next, e.sessionId)
      && (out.Some? ==> out.value.SessionId() == e.sessionId)
      && (out.Some? && out.value.Message? ==>
            && e.kind.PacketParsed?
            && out.value.RequestIndex() == RequestCount(c, e.sessionId) + 1 == RequestCount(next, e.sessionId))
  {
    var state := GetOrCreate(c.sessions, e);
    IntervalsStep(state, e);
    if !state.session.isClosed {
      AdvanceKeepsId(state, e);
    }
  }

  lemma AdvanceKeepsId(state: SessionState, e: NetworkEvent)
    ensures var next := Advance(state, e);
      && next.session.sessionId == state.session.sessionId
      && (e.kind.PacketParsed? ==>
            next.latestMessage.sessionId == state.session.sessionId &&
            next.latestMessage.requestIndex == next.session.requestCount)
  {}

  lemma ObserveKeepsOrder(s: Ingest, accepted: seq<Item>, e: NetworkEvent)
    requires MessagesInOrder(s, accepted) && e.sessionId > 0
    requires e.kind.PacketParsed? ==> NoMessagePending(s.pending, e.sessionId)
    ensures MessagesInOrder(ObserveStep(s, e), accepted)
  {
    hide OnEvent;
    EventNumbersMessage(s.collector, e);
    var s' := ObserveStep(s, e);
    forall i | 0 <= i < |accepted|
      ensures Numbered(s'.collector, accepted[i].item)
    {
      assert Numbered(s.collector, accepted[i].item);
    }
  }

  /** An item that leaves the pending ones comes before or beside whatever stays. */
  lemma LeavingComesFirst(s: Ingest, item: FeatureItem)
    requires forall p :: p in s.pending && p.Message? ==> s.pending[p] == 1
    requires forall p, q :: p in s.pending && q in s.pending && p.Message? && q.Message? && p != q ==>
      p.SessionId() != q.SessionId()
    requires item in s.pending
    ensures forall p :: p in s.pending - multiset{item} ==> p in s.pending && Precedes(item, p)
  {}

  lemma PushKeepsOrder(s: Ingest, q: QueueState<FeatureItem>, item: FeatureItem)
    requires MessagesInOrder(s, q.accepted) && item in s.pending
    ensures MessagesInOrder(PushStep(s, item, Refuses(q)), TryPushStep(q, item).accepted)
  {
    hide Numbered, WellKeyed;
    LeavingComesFirst(s, item);
    hide Precedes;
    var s', accepted := PushStep(s, item, Refuses(q)), TryPushStep(q, item).accepted;
    assert forall p :: p in s'.pending ==> p in s.pending && s'.pending[p] <= s.pending[p];
    forall i, j | 0 <= i < j < |accepted| ensures Precedes(accepted[i].item, accepted[j].item) {
      assert accepted[i] == q.accepted[i];
    }
  }

  function ResultsOf(os: seq<Outcome>): seq<InferenceResult>
  {
    if os == [] then []
    else if Last(os).Stored? then ResultsOf(Init(os)) + [Last(os).result]
    else ResultsOf(Init(os))
  }

  /** Every stored result belongs to the item popped at its place, and the store is exactly what those
      results leave behind. */
  ghost predicate ResultsMatch(config: Config, w: Worker, removed: seq<Item>)
  {
    && Ordered(w, removed)
    && w.store == ReplayResults(ResultsOf(w.outcomes))
    && (forall i :: 0 <= i < |w.outcomes| && w.outcomes[i].Stored? ==>
          && w.outcomes[i].result.sessionId == removed[i].item.SessionId()
          && w.outcomes[i].result.requestIndex == removed[i].item.RequestIndex()
          && !IsSkippable(config, removed[i]))
    && (w.at.Sent? ==> !IsSkippable(config, w.at.item))
  }

  lemma ResultsAppend(os: seq<Outcome>, o: Outcome)
    ensures ResultsOf(os + [o]) == if o.Stored? then ResultsOf(os) + [o.result] else ResultsOf(os)
    ensures o.Stored? ==> ReplayResults(ResultsOf(os + [o])) == UpdateStep(ReplayResults(ResultsOf(os)), o.result)
  {
    assert Init(os + [o]) == os;
    if o.Stored? {
      assert Init(ResultsOf(os) + [o.result]) == ResultsOf(os);
    }
  }

  lemma NewOutcomeKeepsResults(config: Config, w: Worker, w': Worker, removed: seq<Item>, o: Outcome)
    requires ResultsMatch(config, w, removed) && Ordered(w', removed)
    requires InProcess(w.at) != [] && !w'.at.Sent? && w'.outcomes == w.outcomes + [o]
    requires w'.store == if o.Stored? then UpdateStep(w.store, o.result) else w.store
    requires o.Stored? ==> w.at.Sent? && o.result.sessionId == w.at.item.item.SessionId() &&
                           o.result.requestIndex == w.at.item.item.RequestIndex()
    ensures ResultsMatch(config, w', removed)
  {
    hide UpdateStep, ReplayResults, ResultsOf, IsSkippable;
    ResultsAppend(w.outcomes, o);
    assert removed[|w.outcomes|] == InProcess(w.at)[0];
  }

  lemma HandleKeepsResults(config: Config, w: Worker, life: Life, removed: seq<Item>, step: ItemStep)
    requires CanHandle(config, w, step) && ResultsMatch(config, w, removed)
    requires Counted(w) && DiscardsLast(w, life)
    ensures ResultsMatch(config, HandleStep(config, w, life.Overdue(), step), removed)
  {
    hide UpdateStep, ReplayResults, ResultsOf, Counted, DiscardsLast, IsSkippable, Life.Overdue;
    HandleKeepsInv(config, w, life, removed, step);
    var w' := HandleStep(config, w, life.Overdue(), step);
    if w'.outcomes != w.outcomes {
      NewOutcomeKeepsResults(config, w, w', removed, Last(w'.outcomes));
    }
  }

  ghost predicate FreshInv(config: Config, s: Pipeline)
  {
    && Inv(s)
    && MessagesInOrder(s.ingest, s.queue.accepted)
    && ResultsMatch(config, s.worker, s.queue.removed)
  }

  lemma StepKeepsFreshInv(config: Config, s: Pipeline, step: Step)
    requires FreshInv(config, s) && Enabled(config, s, step)
    requires PacketInOrder(s, step)
    ensures FreshInv(config, Apply(config, s, step))
  {
    hide OnEvent, HandleStep, CanHandle, MessagesInOrder, Inv, Counted;
    StepKeepsInv(config, s, step);
    match step
    case Observe(e) => ObserveKeepsOrder(s.ingest, s.queue.accepted, e);
    case Push(item) =>
      PushKeepsOrder(s.ingest, s.queue, item);
    case Handle(step) =>
      InvParts(s);
      HandleKeepsResults(config, s.worker, s.life, s.queue.removed, step);
    case Attach(_) => OrderIgnoresAttachment(s.ingest, s.queue.accepted);
    case Pop =>
      InvParts(s);
      InvParts(Apply(config, s, step));
    case _ =>
  }

  lemma InvParts(s: Pipeline)
    requires Inv(s)
    ensures Counted(s.worker) && DiscardsLast(s.worker, s.life) && Ordered(s.worker, s.queue.removed)
  {}

  lemma OrderIgnoresAttachment(s: Ingest, accepted: seq<Item>)
    requires MessagesInOrder(s, accepted)
    ensures forall on :: MessagesInOrder(s.(attached := on), accepted)
  {}

  lemma {:induction false} RunsKeepFreshInv(config: Config, steps: seq<Step>)
    requires 0 < config.capacity && IsRun(config, steps) && InOrder(config, steps)
    ensures FreshInv(config, Execute(config, steps))
    decreases |steps|
  {
    hide Apply, Enabled, FreshInv;
    if steps == [] {
      StartIsFresh(config);
    } else {
      RunsKeepFreshInv(config, Init(steps));
      StepKeepsFreshInv(config, Execute(config, Init(steps)), Last(steps));
    }
  }

  lemma StartIsFresh(config: Config)
    requires 0 < config.capacity
    ensures FreshInv(config, Start(config))
  {
    hide Counted, Conserved;
    PipelineConservation.StartInv(config);
  }

  /** In message-only mode the stored message index of a session only ever grows. */
  lemma StoredIndicesIncrease(config: Config, steps: seq<Step>, i: nat, j: nat)
    requires 0 < config.capacity && config.messageOnly && IsRun(config, steps) && InOrder(config, steps)
    requires var os := Execute(config, steps).worker.outcomes;
      i < j < |os| && os[i].Stored? && os[j].Stored? && os[i].result.sessionId == os[j].result.sessionId
    ensures var os := Execute(config, steps).worker.outcomes;
      os[i].result.requestIndex < os[j].result.requestIndex
  {
    RunsKeepFreshInv(config, steps);
    hide Execute, FreshInv;
    var s := Execute(config, steps);
    StoredAreMessagesInOrder(config, s);
    assert Precedes(s.queue.accepted[i].item, s.queue.accepted[j].item);
  }

  /** The position of a session's last stored result. */
  ghost predicate IsLastStored(os: seq<Outcome>, sid: nat, i: int)
  {
    && 0 <= i < |os| && os[i].Stored? && os[i].result.sessionId == sid
    && forall j :: i < j < |os| && os[j].Stored? ==> os[j].result.sessionId != sid
  }

  lemma {:induction false} LatestIsLastStored(os: seq<Outcome>, sid: nat)
    ensures var store := ReplayResults(ResultsOf(os));
      if sid in store then exists i :: IsLastStored(os, sid, i) && store[sid].latest == os[i].result
      else forall i :: 0 <= i < |os| && os[i].Stored? ==> os[i].result.sessionId != sid
  {
    if os != [] {
      LatestIsLastStored(Init(os), sid);
      assert os == Init(os) + [Last(os)];
      ResultsAppend(Init(os), Last(os));
      var before := ReplayResults(ResultsOf(Init(os)));
      if Last(os).Stored? && Last(os).result.sessionId == sid {
        assert IsLastStored(os, sid, |os| - 1);
      } else if sid in before {
        var i :| IsLastStored(Init(os), sid, i) && before[sid].latest == Init(os)[i].result;
        assert IsLastStored(os, sid, i);
      }
    }
  }

  /** The message with a session's final index was popped and its result stored. */
  ghost predicate LatestMessageStored(s: Pipeline, sid: nat)
  {
    exists i :: 0 <= i < |s.worker.outcomes| && i < |s.queue.accepted| && s.worker.outcomes[i].Stored? &&
      s.queue.accepted[i].item.Message? && s.queue.accepted[i].item.SessionId() == sid &&
      s.queue.accepted[i].item.RequestIndex() == RequestCount(s.ingest.collector, sid)
  }

  /** What a run leaves behind, without the run. */
  lemma StoredAreMessagesInOrder(config: Config, s: Pipeline)
    requires FreshInv(config, s) && config.messageOnly
    ensures |s.worker.outcomes| <= |s.queue.accepted|
    ensures forall i :: 0 <= i < |s.worker.outcomes| && s.worker.outcomes[i].Stored? ==>
      var item := s.queue.accepted[i].item;
      && item.Message? && Numbered(s.ingest.collector, item)
      && s.worker.outcomes[i].result.sessionId == item.SessionId()
      && s.worker.outcomes[i].result.requestIndex == item.RequestIndex()
    ensures forall i, j :: 0 <= i < j < |s.worker.outcomes| ==>
      Precedes(s.queue.accepted[i].item, s.queue.accepted[j].item)
  {
    assert forall k :: 0 <= k < |s.worker.outcomes| ==> s.queue.accepted[k] == s.queue.removed[k];
  }

  /** Freshness is exact: in message-only mode the report claims to cover a session's latest message if
      and only if that very message was accepted, processed and stored. */
  lemma CoverageIsExact(config: Config, steps: seq<Step>, sid: nat)
    requires 0 < config.capacity && config.messageOnly && IsRun(config, steps) && InOrder(config, steps)
    ensures CoversLatestMessage(Execute(config, steps), sid) <==> LatestMessageStored(Execute(config, steps), sid)
  {
    RunsKeepFreshInv(config, steps);
    hide Execute, FreshInv, RequestCount;
    var s := Execute(config, steps);
    var os, accepted, count := s.worker.outcomes, s.queue.accepted, RequestCount(s.ingest.collector, sid);
    StoredAreMessagesInOrder(config, s);
    LatestIsLastStored(os, sid);
    StoreIsReplayed(config, s);
    if i :| 0 <= i < |os| && os[i].Stored? && accepted[i].item.SessionId() == sid &&
            accepted[i].item.RequestIndex() == count
    {
      assert sid in s.worker.store;
      var last :| IsLastStored(os, sid, last) && s.worker.store[sid].latest == os[last].result;
      assert i <= last && accepted[last].item.RequestIndex() <= count by {
        assert Numbered(s.ingest.collector, accepted[last].item);
      }
      assert i == last;
    }
  }

  lemma StoreIsReplayed(config: Config, s: Pipeline)
    requires FreshInv(config, s)
    ensures s.worker.store == ReplayResults(ResultsOf(s.worker.outcomes))
  {}

  /** In any mode the claim speaks of the session's last stored result, and a summary's result carries
      index 0: after one, the report claims coverage exactly when the session had no message at all. */
  lemma CoverageSpeaksOfLastStored(config: Config, steps: seq<Step>, sid: nat, i: nat)
    requires 0 < config.capacity && IsRun(config, steps) && InOrder(config, steps)
    requires IsLastStored(Execute(config, steps).worker.outcomes, sid, i)
    ensures var s := Execute(config, steps);
      && i < |s.queue.accepted|
      && (CoversLatestMessage(s, sid) <==>
            s.queue.accepted[i].item.RequestIndex() == RequestCount(s.ingest.collector, sid))
      && (s.queue.accepted[i].item.Summary? ==>
            (CoversLatestMessage(s, sid) <==> RequestCount(s.ingest.collector, sid) == 0))
  {
    RunsKeepFreshInv(config, steps);
    hide Apply, Execute;
    var s := Execute(config, steps);
    LatestIsLastStored(s.worker.outcomes, sid);
    assert s.queue.accepted[i] == s.queue.removed[i];
    var last :| IsLastStored(s.worker.outcomes, sid, last) &&
      s.worker.store[sid].latest == s.worker.outcomes[last].result;
    assert last == i;
  }

  /** What the report claims of a listed session is what happened. */
  ghost predicate ReportIsExact(config: Config, steps: seq<Step>, sid: nat)
  {
    IsRun(config, steps) && InOrder(config, steps) && Reported(Execute(config, steps), sid) ==>
      (CoversLatestMessage(Execute(config, steps), sid) <==> LatestMessageStored(Execute(config, steps), sid))
  }

  /** A session starts and closes, and the pipeline takes its summary. */
  lemma SummaryIsQueued(config: Config, start: NetworkEvent, close: NetworkEvent)
      returns (steps: seq<Step>, first: Item)
    requires 0 < config.capacity
    requires start.kind.SessionStarted? && close.kind.SessionClosed? && close.sessionId == start.sessionId > 0
    ensures IsRun(config, steps) && InOrder(config, steps)
    ensures var s := Execute(config, steps);
      && s.worker == Start(config).worker && s.life == Start(config).life
      && s.queue.queue == s.queue.accepted == [first] && !s.queue.closed
      && Reported(s, start.sessionId) && RequestCount(s.ingest.collector, start.sessionId) == 0
      && first.item.SessionId() == start.sessionId && first.item.Summary?
  {
    var started := OnEvent(CollectorState(map[], 0), start).0;
    var (closed, out) := OnEvent(started, close);
    SummaryOfEmptySession(start, close);
    var item := out.value;
    first := Queued(1, item);
    hide OnEvent;
    steps := [];
    assert IsRun(config, steps) && InOrder(config, steps);
    steps := ExtendInOrder(config, steps, Attach(true));
    steps := ExtendInOrder(config, steps, Observe(start));
    assert Execute(config, steps).ingest.pending == multiset{};
    steps := ExtendInOrder(config, steps, Observe(close));
    assert Execute(config, steps).ingest.pending == multiset{item};
    steps := ExtendInOrder(config, steps, Push(item));
  }

  lemma SummaryOfEmptySession(start: NetworkEvent, close: NetworkEvent)
    requires start.kind.SessionStarted? && close.kind.SessionClosed? && close.sessionId == start.sessionId > 0
    ensures var (started, none) := OnEvent(CollectorState(map[], 0), start);
      var (closed, out) := OnEvent(started, close);
      && none.None? && out.Some? && out.value.Summary? && out.value.SessionId() == start.sessionId
      && start.sessionId in closed.sessions && closed.sessions[start.sessionId].session.isStarted
      && RequestCount(closed, start.sessionId) == 0
  {}

  /** Outside message-only mode the claim is wrong for a listed session that starts and closes without a
      message and whose summary is answered: it is said to cover a latest message that does not exist. */
  lemma SummaryModeCoversNothing(config: Config, start: NetworkEvent, close: NetworkEvent, attack: bool)
      returns (steps: seq<Step>)
    requires 0 < config.capacity && !config.messageOnly
    requires start.kind.SessionStarted? && close.kind.SessionClosed? && close.sessionId == start.sessionId > 0
    ensures !ReportIsExact(config, steps, start.sessionId)
    ensures IsRun(config, steps) && InOrder(config, steps) && Reported(Execute(config, steps), start.sessionId)
    ensures CoversLatestMessage(Execute(config, steps), start.sessionId)
  {
    var sid := start.sessionId;
    var queued, first := SummaryIsQueued(config, start, close);
    var result := InferenceResult(sid, first.sequenceId, 0, attack, 0);
    steps := ServeFirst(config, queued, first, result);
    hide Execute, IsRun, InOrder;
    assert !LatestMessageStored(Execute(config, steps), sid);
  }

  /** The report is exact, in all runs and for all listed sessions, if and only if the mode is message-only. */
  lemma ReportIsExactIffMessageOnly(config: Config)
    requires 0 < config.capacity
    ensures config.messageOnly <==> forall steps, sid :: ReportIsExact(config, steps, sid)
  {
    if config.messageOnly {
      forall steps, sid ensures ReportIsExact(config, steps, sid) {
        if IsRun(config, steps) && InOrder(config, steps) {
          CoverageIsExact(config, steps, sid);
        }
      }
    } else {
      var start := NetworkEvent(SessionStarted, 1, 0, 0, 0, 0, 0, -1, 0, 0, 0, "");
      var steps := SummaryModeCoversNothing(config, start, start.(kind := SessionClosed), false);
    }
  }

  /** The worker starts, pops the first item, and stores its answer. */
  lemma ServeFirst(config: Config, steps: seq<Step>, first: Item, result: InferenceResult) returns (longer: seq<Step>)
    requires IsRun(config, steps) && InOrder(config, steps) && !config.messageOnly
    requires var s := Execute(config, steps);
      s.worker == Start(config).worker && s.life == Start(config).life && s.queue.queue == [first] && !s.queue.closed
    requires result.sessionId == first.item.SessionId() && result.queueSequenceId == first.sequenceId
    requires result.requestIndex == first.item.RequestIndex()
    ensures IsRun(config, longer) && InOrder(config, longer)
    ensures var s := Execute(config, longer);
      && s.worker.store == UpdateStep(map[], result)
      && s.worker.outcomes == [Stored(result)]
      && s.ingest == Execute(config, steps).ingest
      && s.queue.accepted == Execute(config, steps).queue.accepted
  {
    longer := ExtendInOrder(config, steps, StartWorker);
    longer := ExtendInOrder(config, longer, InitSucceeds);
    longer := ExtendInOrder(config, longer, Pop);
    longer := ExtendInOrder(config, longer, Handle(Judge));
    longer := ExtendInOrder(config, longer, Handle(PostSucceeds));
    longer := ExtendInOrder(config, longer, Handle(ParseSucceeds(result)));
  }

  lemma ExtendInOrder(config: Config, steps: seq<Step>, step: Step) returns (longer: seq<Step>)
    requires IsRun(config, steps) && InOrder(config, steps) && Enabled(config, Execute(config, steps), step)
    requires PacketInOrder(Execute(config, steps), step)
    ensures IsRun(config, longer) && InOrder(config, longer)
    ensures Execute(config, longer) == Apply(config, Execute(config, steps), step)
  {
    longer := steps + [step];
    assert Init(longer) == steps;
  }
}
