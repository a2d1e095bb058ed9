/** The pipeline told by the steps of a run: what was emitted, accepted, refused and closed, and what became of every
    item, by the events, the pushes and the handling steps that were taken. */
module PipelineHistory {
  import opened Seqs
  import opened Telemetry
  import opened CollectorLogic
  import opened FeatureQueue
  import opened InferenceStore
  import opened InferencePipeline
  import opened PipelineConservation
  import DrainBudget

  /** The events observed so far. */
  function Observed(steps: seq<Step>): seq<NetworkEvent>
  {
    if steps == [] then []
    else if Last(steps).Observe? then Observed(Init(steps)) + [Last(steps).event]
    else Observed(Init(steps))
  }

  /** The last SetFeatureQueue gave a queue. */
  predicate AttachedLast(steps: seq<Step>)
  {
    steps != [] && if Last(steps).Attach? then Last(steps).on else AttachedLast(Init(steps))
  }

  function BagOf(o: Option<FeatureItem>): multiset<FeatureItem> { if o.Some? then multiset{o.value} else multiset{} }

  /** What the collector makes of the events that came while a queue was attached. */
  function EmittedBy(steps: seq<Step>): multiset<FeatureItem>
  {
    if steps == [] then multiset{}
    else
      EmittedBy(Init(steps))
      + if Last(steps).Observe? && AttachedLast(Init(steps))
        then BagOf(OnEvent(Replay(Observed(Init(steps))), Last(steps).event).1) else multiset{}
  }

  predicate HasRoom(q: QueueState<FeatureItem>) { !q.closed && |q.queue| < q.capacity }

  /** The snapshots whose push met an open queue with room, in order. */
  ghost function AcceptedBy(config: Config, steps: seq<Step>): seq<FeatureItem>
    requires IsRun(config, steps)
  {
    if steps == [] then []
    else
      AcceptedBy(config, Init(steps))
      + if Last(steps).Push? && HasRoom(Execute(config, Init(steps)).queue) then [Last(steps).item] else []
  }

  /** The snapshots whose push met a closed or full queue. */
  ghost function RefusedBy(config: Config, steps: seq<Step>): multiset<FeatureItem>
    requires IsRun(config, steps)
  {
    if steps == [] then multiset{}
    else
      RefusedBy(config, Init(steps))
      + if Last(steps).Push? && !HasRoom(Execute(config, Init(steps)).queue) then multiset{Last(steps).item} else multiset{}
  }

  predicate Launched(steps: seq<Step>) { steps != [] && (Launched(Init(steps)) || Last(steps).StartWorker?) }

  /** The queue is closed by a failing initialisation, and by a Stop that finds the worker launched. */
  predicate ClosedBy(steps: seq<Step>)
  {
    steps != [] &&
    (ClosedBy(Init(steps)) || Last(steps).InitCloses? || (Last(steps).StopCloses? && Launched(Init(steps))))
  }

  /** Launched, and neither stopped nor ended since. */
  predicate RunningBy(steps: seq<Step>)
  {
    steps != [] &&
    if Last(steps).StartWorker? then true
    else if Last(steps).StopExchanges? || Last(steps).InitEnds? || Last(steps).WorkerExits? then false
    else RunningBy(Init(steps))
  }

  /** The outcome that a handling step decides; `spent` says whether the drain budget was used up. */
  function Decides(step: Step, spent: bool): seq<Outcome>
  {
    if !step.Handle? then []
    else
      match step.step
      case Judge => if spent then [Discarded] else []
      case SkipSummary => [Skipped]
      case PostThrows => [Failed]
      case PostIsLate => []
      case CountLateFailure => [LateFailed]
      case PostSucceeds => []
      case PostFails => [Failed]
      case SummaryUnsupported => [Skipped]
      case ParseFails => [ParseFailed]
      case ParseSucceeds(r) => [Stored(r)]
      case CountStored => []
  }

  ghost function DecidedBy(config: Config, steps: seq<Step>): seq<Outcome>
  {
    if steps == [] then []
    else DecidedBy(config, Init(steps)) + Decides(Last(steps), DrainBudget.Spent(config, Init(steps)))
  }

  ghost predicate IntakeTold(config: Config, steps: seq<Step>)
    requires IsRun(config, steps)
  {
    var s := Execute(config, steps);
    && s.ingest.collector == Replay(Observed(steps)) && s.ingest.attached == AttachedLast(steps)
    && s.ingest.emitted == EmittedBy(steps) && s.ingest.dropped == RefusedBy(config, steps)
    && Items(s.queue.accepted) == AcceptedBy(config, steps)
  }

  ghost predicate LifeTold(config: Config, steps: seq<Step>)
    requires IsRun(config, steps)
  {
    var s := Execute(config, steps);
    && s.worker.at.NotStarted? == !Launched(steps) && s.life.running == RunningBy(steps) && (s.life.running ==> Launched(steps))
    && (s.life.phase.Exchanged? && s.life.phase.wasRunning ==> Launched(steps))
    && s.queue.closed == ClosedBy(steps)
    && s.worker.outcomes == DecidedBy(config, steps)
  }

  /** One step of the intake, by what it is and what it meets. */
  ghost predicate IntakeStep(s: Pipeline, step: Step, s': Pipeline)
  {
    var i, j := s.ingest, s'.ingest;
    && j.collector == (if step.Observe? then OnEvent(i.collector, step.event).0 else i.collector)
    && j.attached == (if step.Attach? then step.on else i.attached)
    && j.emitted == i.emitted + (if step.Observe? && i.attached then BagOf(OnEvent(i.collector, step.event).1) else multiset{})
    && j.dropped == i.dropped + (if step.Push? && !HasRoom(s.queue) then multiset{step.item} else multiset{})
    && Items(s'.queue.accepted) ==
       Items(s.queue.accepted) + (if step.Push? && HasRoom(s.queue) then [step.item] else [])
  }

  lemma OneItemMore(q: QueueState<FeatureItem>, item: FeatureItem)
    ensures Items(Enqueue(q, item).accepted) == Items(q.accepted) + [item]
  {}

  lemma IntakeMoves(config: Config, s: Pipeline, step: Step)
    requires Enabled(config, s, step)
    ensures IntakeStep(s, step, Apply(config, s, step))
  {
    hide OnEvent, HandleStep, Items, Life.Overdue;
    if step.Push? { OneItemMore(s.queue, step.item); }
  }

  lemma WorkerMoves(config: Config, s: Pipeline, step: Step)
    requires Enabled(config, s, step)
    ensures Apply(config, s, step).worker.outcomes == s.worker.outcomes + Decides(step, s.life.Overdue())
    ensures Apply(config, s, step).worker.at.NotStarted? == (s.worker.at.NotStarted? && !step.StartWorker?)
  {
    hide ObserveStep, PushStep, Life.Overdue, UpdateStep;
  }

  lemma LifeFlags(config: Config, s: Pipeline, step: Step)
    requires Enabled(config, s, step)
    ensures
      var a, b := s.life, Apply(config, s, step).life;
      && b.running == (step.StartWorker? || (a.running && !(step.StopExchanges? || step.InitEnds? || step.WorkerExits?)))
      && (b.phase.Exchanged? && b.phase.wasRunning ==> a.running || (a.phase.Exchanged? && a.phase.wasRunning))
      && Apply(config, s, step).queue.closed ==
         (s.queue.closed || step.InitCloses? ||
          (step.StopCloses? && (s.life.phase.wasRunning || !s.worker.at.NotStarted?)))
  {
    hide ObserveStep, PushStep, HandleStep;
  }

  lemma {:induction false} IntakeIsTold(config: Config, steps: seq<Step>)
    requires IsRun(config, steps)
    ensures IntakeTold(config, steps)
    decreases |steps|
  {
    if steps != [] {
      var before, step := Init(steps), Last(steps);
      IntakeIsTold(config, before);
      hide Apply, Enabled, OnEvent, Items, HasRoom;
      IntakeMoves(config, Execute(config, before), step);
      if step.Observe? { assert Init(Observed(steps)) == Observed(before); }
    } else {
      assert Items([]) == [];
    }
  }

  lemma {:induction false} LifeIsTold(config: Config, steps: seq<Step>)
    requires IsRun(config, steps)
    ensures LifeTold(config, steps)
    decreases |steps|
  {
    if steps != [] {
      var before, step := Init(steps), Last(steps);
      LifeIsTold(config, before);
      DrainBudget.DeadlineIsTold(config, before);
      assert Enabled(config, Execute(config, before), step);
      hide Apply, Enabled, Decides;
      assert Execute(config, before).life.Overdue() == DrainBudget.Spent(config, before);
      WorkerMoves(config, Execute(config, before), step);
      LifeFlags(config, Execute(config, before), step);
    }
  }

  /** What may become of an item: only summaries are skipped, in message-only mode all of them are, and a stored
      result carries the ids of its item. */
  predicate Fits(config: Config, item: Item, o: Outcome)
  {
    match o
    case Discarded => true
    case Skipped => item.item.Summary?
    case Stored(r) =>
      && !(config.messageOnly && item.item.Summary?) && r.sessionId == item.item.SessionId()
      && r.queueSequenceId == item.sequenceId && r.requestIndex == item.item.RequestIndex()
    case _ => !(config.messageOnly && item.item.Summary?)
  }

  ghost predicate AllFit(config: Config, w: Worker, removed: seq<Item>)
  {
    && |w.outcomes| <= |removed| && (forall i :: 0 <= i < |w.outcomes| ==> Fits(config, removed[i], w.outcomes[i]))
    && (match w.at
        case Sent(item) => !IsSkippable(config, item)
        case Late(item) => !IsSkippable(config, item)
        case _ => true)
  }

  lemma HandlingFits(config: Config, w: Worker, removed: seq<Item>, overdue: bool, step: ItemStep)
    requires Ordered(w, removed) && AllFit(config, w, removed) && CanHandle(config, w, step)
    ensures AllFit(config, HandleStep(config, w, overdue, step), removed)
  {
    hide UpdateStep;
    if InProcess(w.at) != [] {
      assert removed[|w.outcomes|] == removed[|w.outcomes|..][0];
    }
    match step
    case Judge =>
    case SkipSummary =>
    case PostThrows =>
    case CountLateFailure =>
    case PostFails =>
    case SummaryUnsupported =>
    case ParseFails =>
    case ParseSucceeds(_) =>
    case _ =>
  }

  lemma StepFits(config: Config, s: Pipeline, step: Step)
    requires Ordered(s.worker, s.queue.removed) && AllFit(config, s.worker, s.queue.removed) && Enabled(config, s, step)
    ensures AllFit(config, Apply(config, s, step).worker, Apply(config, s, step).queue.removed)
  {
    if step.Handle? { HandlingFits(config, s.worker, s.queue.removed, s.life.Overdue(), step.step); }
    hide HandleStep, ObserveStep, Fits, Ordered;
  }

  /** Outcome i is one that item i of those taken from the queue may have. */
  lemma {:induction false} OutcomesFitTheirItems(config: Config, steps: seq<Step>)
    requires config.capacity > 0 && IsRun(config, steps)
    ensures AllFit(config, Execute(config, steps).worker, Execute(config, steps).queue.removed)
    decreases |steps|
  {
    if steps != [] {
      OutcomesFitTheirItems(config, Init(steps));
      RunsKeepInv(config, Init(steps));
      hide Apply, Enabled, AllFit, Ordered;
      StepFits(config, Execute(config, Init(steps)), Last(steps));
    }
  }
}

/** A closed queue ends the inference worker. */
module PipelineProgress {
  import opened Seqs
  import opened Telemetry
  import opened FeatureQueue
  import opened InferenceStore
  import opened InferencePipeline

  function One(b: bool): nat { if b then 1 else 0 }

  predicate IsWorkerStep(step: Step)
  {
    step.InitSucceeds? || step.InitFails? || step.InitCloses? || step.InitEnds? || step.Pop? || step.Handle? || step.WorkerExits?
  }

  function WorkerSteps(steps: seq<Step>): nat
  {
    if steps == [] then 0 else WorkerSteps(Init(steps)) + One(IsWorkerStep(Last(steps)))
  }

  /** At most so many of the worker's steps to the end, besides those for the items still queued. */
  function Rank(at: Position): nat
  {
    match at
    case NotStarted => 4
    case Starting => 3
    case InitFailing(closed) => if closed then 1 else 2
    case AtPop => 1
    case Popped(_) => 6
    case Processing(_) => 5
    case Sent(_) => 4
    case Updated => 3
    case Late(_) => 4
    case Exited(_) => 0
  }

  function StepsLeft(s: Pipeline): nat { 6 * |s.queue.queue| + Rank(s.worker.at) }

  lemma HandlingComesCloser(config: Config, w: Worker, overdue: bool, step: ItemStep)
    requires CanHandle(config, w, step)
    ensures Rank(HandleStep(config, w, overdue, step).at) < Rank(w.at)
  {
    hide UpdateStep, IsSkippable;
  }

  lemma StepComesCloser(config: Config, s: Pipeline, step: Step)
    requires Enabled(config, s, step) && s.queue.closed
    ensures Apply(config, s, step).queue.closed
    ensures StepsLeft(Apply(config, s, step)) + One(IsWorkerStep(step)) <= StepsLeft(s)
  {
    if step.Handle? { HandlingComesCloser(config, s.worker, s.life.Overdue(), step.step); }
    hide HandleStep, ObserveStep, PushStep, CanHandle, Life.Overdue;
  }

  lemma {:induction false} ClosedWorkerCounts(config: Config, before: seq<Step>, after: seq<Step>)
    requires IsRun(config, before) && IsRun(config, before + after) && Execute(config, before).queue.closed
    ensures Execute(config, before + after).queue.closed
    ensures WorkerSteps(after) + StepsLeft(Execute(config, before + after)) <= StepsLeft(Execute(config, before))
    decreases |after|
  {
    if after == [] {
      assert before + after == before;
    } else {
      var steps := before + after;
      assert Init(steps) == before + Init(after) && Last(steps) == Last(after);
      ClosedWorkerCounts(config, before, Init(after));
      hide Apply, Enabled, StepsLeft, IsWorkerStep;
      StepComesCloser(config, Execute(config, Init(steps)), Last(steps));
    }
  }

  lemma LeftAtMost(s: Pipeline)
    ensures StepsLeft(s) <= 6 * |s.queue.queue| + 6
  {}

  /** Some step of the worker that is possible now. */
  function NextStep(config: Config, s: Pipeline): Step
  {
    match s.worker.at
    case Starting => InitSucceeds
    case InitFailing(closed) => if closed then InitEnds else InitCloses
    case AtPop => if s.queue.queue != [] then Pop else WorkerExits
    case Popped(_) => Handle(Judge)
    case Processing(item) => Handle(if IsSkippable(config, item) then SkipSummary else PostFails)
    case Sent(_) => Handle(ParseFails)
    case Updated => Handle(CountStored)
    case Late(_) => Handle(CountLateFailure)
    case _ => Tick(0)
  }

  lemma WorkerCanGoOn(config: Config, s: Pipeline)
    requires s.queue.closed && !s.worker.at.NotStarted? && !s.worker.at.Exited?
    ensures Enabled(config, s, NextStep(config, s)) && IsWorkerStep(NextStep(config, s))
  {}

  /** Once the queue is closed the worker ends after at most six steps for every queued item and six more, whatever
      fails and whatever the other threads do; until then a step of it is possible. So Stop, which waits for it
      after closing the queue, returns. */
  lemma ClosingEndsTheWorker(config: Config, before: seq<Step>, after: seq<Step>)
    requires IsRun(config, before) && IsRun(config, before + after) && Execute(config, before).queue.closed
    ensures WorkerSteps(after) <= 6 * |Execute(config, before).queue.queue| + 6
    ensures
      var s := Execute(config, before + after);
      s.worker.at.NotStarted? || s.worker.at.Exited? || exists step :: IsWorkerStep(step) && Enabled(config, s, step)
  {
    hide *;
    ClosedWorkerCounts(config, before, after);
    LeftAtMost(Execute(config, before));
    var s := Execute(config, before + after);
    if !s.worker.at.NotStarted? && !s.worker.at.Exited? { WorkerCanGoOn(config, s); }
  }
}

/** The runtime report told by the steps of a run. */
module ReportHistory {
  import opened Seqs
  import opened Telemetry
  import D = DirectSnapshot
  import C = CollectorLogic
  import R = InferenceStore
  import opened InferencePipeline
  import opened PipelineHistory
  import F = Freshness

  /** The results that were parsed, in order. */
  function StoredBy(steps: seq<Step>): seq<R.InferenceResult>
  {
    if steps == [] then []
    else if Last(steps).Handle? && Last(steps).step.ParseSucceeds? then StoredBy(Init(steps)) + [Last(steps).step.result]
    else StoredBy(Init(steps))
  }

  lemma StepStores(config: Config, s: Pipeline, step: Step)
    requires Enabled(config, s, step)
    ensures Apply(config, s, step).worker.store ==
      if step.Handle? && step.step.ParseSucceeds? then R.UpdateStep(s.worker.store, step.step.result) else s.worker.store
  {
    hide ObserveStep, PushStep, R.UpdateStep;
  }

  lemma {:induction false} StoreIsTold(config: Config, steps: seq<Step>)
    requires IsRun(config, steps)
    ensures Execute(config, steps).worker.store == R.ReplayResults(StoredBy(steps))
    decreases |steps|
  {
    if steps != [] {
      StoreIsTold(config, Init(steps));
      hide Apply, Enabled, R.UpdateStep;
      StepStores(config, Execute(config, Init(steps)), Last(steps));
      if Last(steps).Handle? && Last(steps).step.ParseSucceeds? { assert Init(StoredBy(steps)) == StoredBy(Init(steps)); }
    }
  }

  lemma {:induction false} ObservedIdsArePositive(config: Config, steps: seq<Step>)
    requires IsRun(config, steps)
    ensures C.AllIdsPositive(Observed(steps))
    decreases |steps|
  {
    if steps != [] { ObservedIdsArePositive(config, Init(steps)); }
  }

  predicate Starts(es: seq<NetworkEvent>) { exists i :: 0 <= i < |es| && es[i].kind.SessionStarted? }

  lemma {:induction false} StartIsMatched(es: seq<NetworkEvent>)
    ensures D.LastMatch(es, D.OfKind(SessionStarted)).Some? <==> Starts(es)
  {
    if es != [] {
      StartIsMatched(Init(es));
      if i :| 0 <= i < |es| && es[i].kind.SessionStarted? && i < |es| - 1 { assert Init(es)[i].kind.SessionStarted?; }
      if Starts(Init(es)) {
        var i :| 0 <= i < |Init(es)| && Init(es)[i].kind.SessionStarted?;
        assert es[i].kind.SessionStarted?;
      }
    }
  }

  /** What the collector knows of a session: whether it started, and how many messages it had. */
  lemma SessionIsTold(log: seq<NetworkEvent>, sid: nat)
    requires C.AllIdsPositive(log)
    ensures
      var c, es := C.Replay(log), D.Active(log, sid);
      && F.RequestCount(c, sid) == |D.Messages(es)|
      && (sid in c.sessions && c.sessions[sid].session.isStarted <==> Starts(es))
  {
    var es := D.Active(log, sid);
    C.IncrementalEqualsRecomputed(log, sid);
    StartIsMatched(es);
    hide C.Replay, D.Active, D.SumBytes, D.MeanInterval, D.LastInterval, Count, D.StartEvent, Starts, C.AllIdsPositive;
  }

  /** The report lists exactly the sessions whose start was observed before their first close, and claims coverage
      exactly if the session's last stored result carries the number of its messages. */
  lemma ReportIsTold(config: Config, steps: seq<Step>, sid: nat)
    requires IsRun(config, steps)
    ensures
      var s, es, mine := Execute(config, steps), D.Active(Observed(steps), sid), Filter(StoredBy(steps), R.OfSession(sid));
      && (F.Reported(s, sid) <==> Starts(es))
      && (F.CoversLatestMessage(s, sid) <==> mine != [] && Last(mine).requestIndex == |D.Messages(es)|)
  {
    IntakeIsTold(config, steps);
    StoreIsTold(config, steps);
    ObservedIdsArePositive(config, steps);
    SessionIsTold(Observed(steps), sid);
    R.StoreSummarisesResults(StoredBy(steps), sid);
    hide Execute, IsRun, C.Replay, D.Active, D.Messages, Starts, Filter, R.ReplayResults, StoredBy, Observed, F.RequestCount;
  }
}
