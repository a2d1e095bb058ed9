/** The worker object: how one popped item is processed, and the loop that drains a closed queue. */
module InferenceWorker {
  import opened Seqs
  import opened Telemetry
  import opened FeatureQueue
  import opened InferenceStore
  import opened InferencePipeline
  import opened PipelineConservation
  import opened Freshness

  /** What the HTTP exchange does for one item. `Answered` carries what the parser accepts of the body. */
  datatype Reply =
    | Throws
    | LateReply
    | Answered(parsed: Option<Verdict>)
    | NotSent(unsupportedEventType: bool)

  datatype Verdict = Verdict(isAttack: bool, receivedWallTime: int)

  function ResultFor(item: Item, v: Verdict): InferenceResult {
    InferenceResult(item.item.SessionId(), item.sequenceId, item.item.RequestIndex(), v.isAttack, v.receivedWallTime)
  }

  function One(b: bool): nat { if b then 1 else 0 }

  /** The fate of an item, given the drain check and the exchange. */
  function OutcomeOf(config: Config, item: Item, overdue: bool, reply: Reply): Outcome
  {
    if overdue then Discarded
    else if IsSkippable(config, item) then Skipped
    else
      match reply
      case Throws => Failed
      case LateReply => LateFailed
      case Answered(Some(v)) => Stored(ResultFor(item, v))
      case Answered(None) => ParseFailed
      case NotSent(unsupported) => if unsupported && item.item.Summary? then Skipped else Failed
  }

  function OutcomesOf(config: Config, items: seq<Item>, overdue: seq<bool>, replies: seq<Reply>): seq<Outcome>
    requires |items| <= |overdue| && |items| <= |replies|
  {
    seq(|items|, i requires 0 <= i < |items| => OutcomeOf(config, items[i], overdue[i], replies[i]))
  }

  class AiInferenceWorker {
    const config: Config
    const featureQueue: AsyncFeatureQueue<FeatureItem>
    const resultStore: InferenceResultStore
    var sentCount: nat
    var failedCount: nat
    var storedResultCount: nat
    var parseFailedCount: nat
    var lateResponseCount: nat
    var skippedSummaryCount: nat
    var shutdownDiscardedCount: nat
    ghost var outcomes: seq<Outcome>

    ghost function Tally(): Counters
      reads this
    {
      Counters(sentCount, failedCount, storedResultCount, parseFailedCount, lateResponseCount, skippedSummaryCount,
               shutdownDiscardedCount)
    }

    /** The counters classify the outcomes so far, and the store holds exactly the stored results. */
    ghost predicate Valid()
      reads this, featureQueue, resultStore
    {
      && featureQueue.Valid() && resultStore.Valid()
      && resultStore.results == ResultsOf(outcomes)
      && Counted(Worker(AtPop, Tally(), resultStore.sessions, outcomes))
    }

    constructor (config: Config, queue: AsyncFeatureQueue<FeatureItem>, store: InferenceResultStore)
      requires queue.Valid() && store.Valid() && store.results == []
      ensures Valid() && featureQueue == queue && resultStore == store && this.config == config && outcomes == []
    {
      this.config, featureQueue, resultStore := config, queue, store;
      sentCount, failedCount, storedResultCount, parseFailedCount := 0, 0, 0, 0;
      lateResponseCount, skippedSummaryCount, shutdownDiscardedCount := 0, 0, 0;
      outcomes := [];
    }

    /** One popped item. A summary in message-only mode is skipped and never sent. Any other item is sent: an exchange
        that throws or fails is a failure, except the explicit refusal of a summary, which is skipped; a late answer is
        a failure and counted as late; an answer in time is counted as sent, and then stored or counted as not parsed.
        What is stored names the item's session, queue id and message index and carries the verdict and its time. */
    method ProcessItem(item: Item, reply: Reply)
      requires Valid()
      modifies this, resultStore
      ensures Valid() && outcomes == old(outcomes) + [OutcomeOf(config, item, false, reply)]
      ensures
        var posted, summary := !(config.messageOnly && item.item.Summary?), item.item.Summary?;
        var refused := reply.NotSent? && reply.unsupportedEventType && summary;
        && sentCount == old(sentCount) + One(posted && reply.Answered?)
        && storedResultCount == old(storedResultCount) + One(posted && reply.Answered? && reply.parsed.Some?)
        && parseFailedCount == old(parseFailedCount) + One(posted && reply.Answered? && reply.parsed.None?)
        && lateResponseCount == old(lateResponseCount) + One(posted && reply.LateReply?)
        && failedCount == old(failedCount) + One(posted && (reply.Throws? || reply.LateReply? || (reply.NotSent? && !refused)))
        && skippedSummaryCount == old(skippedSummaryCount) + One(!posted || refused)
        && shutdownDiscardedCount == old(shutdownDiscardedCount)
      ensures
        var stored := !(config.messageOnly && item.item.Summary?) && reply.Answered? && reply.parsed.Some?;
        && |resultStore.results| == |old(resultStore.results)| + One(stored)
        && old(resultStore.results) <= resultStore.results
        && (stored ==>
              var r := Last(resultStore.results);
              && r.sessionId == item.item.SessionId() && r.queueSequenceId == item.sequenceId
              && r.requestIndex == item.item.RequestIndex()
              && r.isAttack == reply.parsed.value.isAttack && r.receivedWallTime == reply.parsed.value.receivedWallTime)
    {
      hide Count, ResultsOf, QueueState.Valid, ReplayResults, FeatureItem.SessionId, FeatureItem.RequestIndex;
      CountAll(outcomes, OutcomeOf(config, item, false, reply));
      ResultsAppend(outcomes, OutcomeOf(config, item, false, reply));
      outcomes := outcomes + [OutcomeOf(config, item, false, reply)];
      if config.messageOnly && item.item.Summary? {
        skippedSummaryCount := skippedSummaryCount + 1;
        return;
      }
      match reply {
        case Throws =>
          failedCount := failedCount + 1;
        case LateReply =>
          lateResponseCount := lateResponseCount + 1;
          failedCount := failedCount + 1;
        case Answered(parsed) =>
          sentCount := sentCount + 1;
          if parsed.Some? {
            resultStore.Update(ResultFor(item, parsed.value));
            storedResultCount := storedResultCount + 1;
          } else {
            parseFailedCount := parseFailedCount + 1;
          }
        case NotSent(unsupported) =>
          if unsupported && item.item.Summary? {
            skippedSummaryCount := skippedSummaryCount + 1;
          } else {
            failedCount := failedCount + 1;
          }
      }
    }

    method Discard(item: Item)
      requires Valid()
      modifies this
      ensures Valid() && outcomes == old(outcomes) + [Discarded]
    {
      hide Count;
      CountAll(outcomes, Discarded);
      ResultsAppend(outcomes, Discarded);
      outcomes := outcomes + [Discarded];
      shutdownDiscardedCount := shutdownDiscardedCount + 1;
    }

    /** One turn of the loop: past the drain deadline the item is discarded, otherwise processed. */
    method HandleItem(item: Item, overdue: bool, reply: Reply)
      requires Valid()
      modifies this, resultStore
      ensures Valid() && outcomes == old(outcomes) + [OutcomeOf(config, item, overdue, reply)]
    {
      hide Counted, ResultsOf, QueueState.Valid, IsSkippable, ReplayResults;
      if overdue {
        Discard(item);
      } else {
        ProcessItem(item, reply);
      }
    }

    /** The loop after the queue was closed: it ends with the queue empty and gives every waiting item,
        in order, the outcome that the drain check and its exchange call for. */
    method WorkerLoop(overdue: seq<bool>, replies: seq<Reply>)
      requires Valid() && featureQueue.closed
      requires |overdue| == |replies| == |featureQueue.queue|
      modifies this, resultStore, featureQueue
      ensures Valid() && featureQueue.closed && featureQueue.queue == []
      ensures outcomes == old(outcomes) + OutcomesOf(config, old(featureQueue.queue), overdue, replies)
    {
      hide Counted, ResultsOf, QueueState.Valid, IsSkippable, ReplayResults, OutcomeOf;
      ghost var waiting := featureQueue.queue;
      var i := 0;
      var next := featureQueue.WaitPop();
      while next.Some?
        invariant Valid() && featureQueue.closed
        invariant 0 <= i <= |waiting|
        invariant next.Some? ==> i < |waiting| && next.value == waiting[i] && featureQueue.queue == waiting[i + 1..]
        invariant next.None? ==> i == |waiting| && featureQueue.queue == []
        invariant outcomes == old(outcomes) + OutcomesOf(config, waiting[..i], overdue, replies)
        decreases |waiting| - i
      {
        ghost var done := OutcomesOf(config, waiting[..i], overdue, replies);
        assert waiting[..i + 1] == waiting[..i] + [waiting[i]];
        HandleItem(next.value, overdue[i], replies[i]);
        assert OutcomesOf(config, waiting[..i + 1], overdue, replies) ==
               done + [OutcomeOf(config, waiting[i], overdue[i], replies[i])];
        i := i + 1;
        next := featureQueue.WaitPop();
      }
      assert waiting[..i] == waiting;
    }
  }

  /** The atomic steps that the worker thread takes for one popped item. */
  function StepsFor(config: Config, item: Item, overdue: bool, reply: Reply): seq<ItemStep>
  {
    if overdue then [Judge]
    else if IsSkippable(config, item) then [Judge, SkipSummary]
    else
      match reply
      case Throws => [Judge, PostThrows]
      case LateReply => [Judge, PostIsLate, CountLateFailure]
      case Answered(Some(v)) => [Judge, PostSucceeds, ParseSucceeds(ResultFor(item, v)), CountStored]
      case Answered(None) => [Judge, PostSucceeds, ParseFails]
      case NotSent(unsupported) =>
        if unsupported && item.item.Summary? then [Judge, SummaryUnsupported] else [Judge, PostFails]
  }

  ghost predicate CanRun(config: Config, w: InferencePipeline.Worker, overdue: bool, steps: seq<ItemStep>)
    decreases |steps|
  {
    steps != [] ==>
      CanHandle(config, w, steps[0]) && CanRun(config, HandleStep(config, w, overdue, steps[0]), overdue, steps[1..])
  }

  ghost function RunItem(config: Config, w: InferencePipeline.Worker, overdue: bool, steps: seq<ItemStep>)
    : InferencePipeline.Worker
    requires CanRun(config, w, overdue, steps)
    decreases |steps|
  {
    if steps == [] then w else RunItem(config, HandleStep(config, w, overdue, steps[0]), overdue, steps[1..])
  }

  /** The interleaved steps of the pipeline and the sequential ProcessItem give an item the same outcome. */
  lemma StepsGiveTheOutcome(config: Config, w: InferencePipeline.Worker, overdue: bool, reply: Reply)
    requires w.at.Popped?
    ensures var steps := StepsFor(config, w.at.item, overdue, reply);
      && CanRun(config, w, overdue, steps)
      && RunItem(config, w, overdue, steps).at == AtPop
      && RunItem(config, w, overdue, steps).outcomes == w.outcomes + [OutcomeOf(config, w.at.item, overdue, reply)]
  {
    var steps := StepsFor(config, w.at.item, overdue, reply);
    var w1 := HandleStep(config, w, overdue, Judge);
    RunTail(config, w, overdue, steps);
    if |steps| > 1 {
      RunTail(config, w1, overdue, steps[1..]);
      if |steps| > 2 {
        var w2 := HandleStep(config, w1, overdue, steps[1]);
        RunTail(config, w2, overdue, steps[1..][1..]);
        if |steps| > 3 {
          RunTail(config, HandleStep(config, w2, overdue, steps[2]), overdue, steps[1..][1..][1..]);
        }
      }
    }
  }

  lemma RunTail(config: Config, w: InferencePipeline.Worker, overdue: bool, steps: seq<ItemStep>)
    requires steps != [] && CanHandle(config, w, steps[0])
    ensures var next := HandleStep(config, w, overdue, steps[0]);
      && (steps[1..] == [] ==> CanRun(config, w, overdue, steps) && RunItem(config, w, overdue, steps) == next)
      && (CanRun(config, next, overdue, steps[1..]) ==>
            CanRun(config, w, overdue, steps) &&
            RunItem(config, w, overdue, steps) == RunItem(config, next, overdue, steps[1..]))
  {}
}
