/** The whole telemetry pipeline: any number of network threads feeding the collector and the queue, one
    inference worker, and the thread that starts and stops it. Every interleaving is a sequence of
    `Step`s; a step is one critical section or one atomic update of one thread. */
module InferencePipeline {
  import opened Seqs
  import opened Telemetry
  import opened CollectorLogic
  import opened FeatureQueue
  import opened InferenceStore

  type Item = Queued<FeatureItem>

  datatype Config = Config(capacity: nat, messageOnly: bool, drain: nat)

  /** `pending` are the snapshots taken under the collector's lock and not yet offered to the queue.
      `emitted` are all snapshots taken while a queue was attached, `dropped` those the queue refused. */
  datatype Ingest = Ingest(
    collector: CollectorState,
    attached: bool,
    pending: multiset<FeatureItem>,
    emitted: multiset<FeatureItem>,
    dropped: multiset<FeatureItem>)

  /** Where one popped item ended up. */
  datatype Outcome = Stored(result: InferenceResult) | ParseFailed | Failed | LateFailed | Skipped | Discarded

  datatype Counters = Counters(sent: nat, failed: nat, stored: nat, parseFailed: nat, late: nat, skipped: nat,
                               discarded: nat)

  /** The worker thread's position. `InitFailing` has counted the failed start and, if `closed`, closed the queue,
      but not yet cleared the running flag. `Sent` has counted the post; `Updated` has written the store and not
      yet counted the stored result; `Late` has counted the late response and not yet the failure. */
  datatype Position =
    | NotStarted
    | Starting
    | InitFailing(closed: bool)
    | AtPop
    | Popped(item: Item)
    | Processing(item: Item)
    | Sent(item: Item)
    | Updated
    | Late(item: Item)
    | Exited(initFailed: bool)

  /** `outcomes` is the fate of the popped items, in pop order. */
  datatype Worker = Worker(at: Position, counters: Counters, store: Store, outcomes: seq<Outcome>)

  /** Stop's progress; `Exchanged` has cleared the running flag and remembers what it was. */
  datatype Phase = Free | Closing | Exchanged(wasRunning: bool) | Joining

  /** The lifecycle flags and the steady clock. */
  datatype Life = Life(phase: Phase, stopRequested: bool, running: bool, deadline: int, now: int) {
    predicate Overdue() { stopRequested && now >= deadline }
  }

  datatype Pipeline = Pipeline(ingest: Ingest, queue: QueueState<FeatureItem>, worker: Worker, life: Life)

  /** The steps of one item through the worker, from the drain check to its outcome. */
  datatype ItemStep =
    | Judge
    | SkipSummary
    | PostThrows
    | PostIsLate
    | CountLateFailure
    | PostSucceeds
    | PostFails
    | SummaryUnsupported
    | ParseFails
    | ParseSucceeds(result: InferenceResult)
    | CountStored

  datatype Step =
    | Observe(event: NetworkEvent)
    | Push(item: FeatureItem)
    | Attach(on: bool)
    | StartWorker
    | InitSucceeds
    | InitFails
    | InitCloses
    | InitEnds
    | Pop
    | Handle(step: ItemStep)
    | WorkerExits
    | StopBegins
    | StopExchanges
    | StopCloses
    | StopReturns
    | Tick(duration: nat)

  function Start(config: Config): Pipeline
  {
    Pipeline(Ingest(CollectorState(map[], 0), false, multiset{}, multiset{}, multiset{}),
             Fresh(config.capacity),
             Worker(NotStarted, Counters(0, 0, 0, 0, 0, 0, 0), map[], []),
             Life(Free, false, false, 0, 0))
  }

  predicate IsSkippable(config: Config, item: Item) { config.messageOnly && item.item.Summary? }

  /** A response is parsed into a result of the item's own session and sequence id, with the item's own
      message index. */
  predicate CanHandle(config: Config, w: Worker, step: ItemStep)
  {
    match step
    case Judge => w.at.Popped?
    case SkipSummary => w.at.Processing? && IsSkippable(config, w.at.item)
    case PostThrows => w.at.Processing? && !IsSkippable(config, w.at.item)
    case PostIsLate => w.at.Processing? && !IsSkippable(config, w.at.item)
    case CountLateFailure => w.at.Late?
    case PostSucceeds => w.at.Processing? && !IsSkippable(config, w.at.item)
    case PostFails => w.at.Processing? && !IsSkippable(config, w.at.item)
    case SummaryUnsupported => w.at.Processing? && !config.messageOnly && w.at.item.item.Summary?
    case ParseFails => w.at.Sent?
    case ParseSucceeds(r) =>
      && w.at.Sent?
      && r.sessionId == w.at.item.item.SessionId()
      && r.queueSequenceId == w.at.item.sequenceId
      && r.requestIndex == w.at.item.item.RequestIndex()
    case CountStored => w.at.Updated?
  }

  predicate Enabled(config: Config, s: Pipeline, step: Step)
  {
    match step
    case Observe(event) => event.sessionId > 0
    case Push(item) => item in s.ingest.pending
    case Attach(_) => true
    case StartWorker => s.worker.at.NotStarted? && s.life.phase.Free? && !s.queue.closed
    case InitSucceeds => s.worker.at.Starting?
    case InitFails => s.worker.at.Starting?
    case InitCloses => s.worker.at == InitFailing(false)
    case InitEnds => s.worker.at == InitFailing(true)
    case Pop => s.worker.at.AtPop? && s.queue.queue != []
    case Handle(step) => CanHandle(config, s.worker, step)
    case WorkerExits => s.worker.at.AtPop? && s.queue.closed && s.queue.queue == []
    case StopBegins => s.life.phase.Free?
    case StopExchanges => s.life.phase.Closing?
    case StopCloses => s.life.phase.Exchanged?
    case StopReturns => s.life.phase.Joining? && (s.worker.at.NotStarted? || s.worker.at.Exited?)
    case Tick(_) => true
  }

  function ObserveStep(s: Ingest, event: NetworkEvent): Ingest
  {
    var (collector, out) := OnEvent(s.collector, event);
    if out.Some? && s.attached then
      s.(collector := collector, pending := s.pending + multiset{out.value}, emitted := s.emitted + multiset{out.value})
    else s.(collector := collector)
  }

  function PushStep(s: Ingest, item: FeatureItem, refused: bool): Ingest
  {
    s.(pending := s.pending - multiset{item},
       dropped := if refused then s.dropped + multiset{item} else s.dropped)
  }

  function Finish(w: Worker, outcome: Outcome, counters: Counters): Worker
  {
    w.(at := AtPop, outcomes := w.outcomes + [outcome], counters := counters)
  }

  function HandleStep(config: Config, w: Worker, overdue: bool, step: ItemStep): Worker
    requires CanHandle(config, w, step)
  {
    var c := w.counters;
    match step
    case Judge =>
      if overdue then Finish(w, Discarded, c.(discarded := c.discarded + 1))
      else w.(at := Processing(w.at.item))
    case SkipSummary => Finish(w, Skipped, c.(skipped := c.skipped + 1))
    case PostThrows => Finish(w, Failed, c.(failed := c.failed + 1))
    case PostIsLate => w.(at := Late(w.at.item), counters := c.(late := c.late + 1))
    case CountLateFailure => Finish(w, LateFailed, c.(failed := c.failed + 1))
    case PostSucceeds => w.(at := Sent(w.at.item), counters := c.(sent := c.sent + 1))
    case PostFails => Finish(w, Failed, c.(failed := c.failed + 1))
    case SummaryUnsupported => Finish(w, Skipped, c.(skipped := c.skipped + 1))
    case ParseFails => Finish(w, ParseFailed, c.(parseFailed := c.parseFailed + 1))
    case ParseSucceeds(r) =>
      w.(at := Updated, store := UpdateStep(w.store, r), outcomes := w.outcomes + [Stored(r)])
    case CountStored => w.(at := AtPop, counters := c.(stored := c.stored + 1))
  }

  function Apply(config: Config, s: Pipeline, step: Step): Pipeline
    requires Enabled(config, s, step)
  {
    var w := s.worker;
    match step
    case Observe(event) => s.(ingest := ObserveStep(s.ingest, event))
    case Push(item) => s.(ingest := PushStep(s.ingest, item, Refuses(s.queue)), queue := TryPushStep(s.queue, item))
    case Attach(on) => s.(ingest := s.ingest.(attached := on))
    case StartWorker => s.(worker := w.(at := Starting), life := s.life.(running := true))
    case InitSucceeds => s.(worker := w.(at := AtPop))
    case InitFails => s.(worker := w.(at := InitFailing(false), counters := w.counters.(failed := w.counters.failed + 1)))
    case InitCloses => s.(worker := w.(at := InitFailing(true)), queue := s.queue.(closed := true))
    case InitEnds => s.(worker := w.(at := Exited(true)), life := s.life.(running := false))
    case Pop => s.(worker := w.(at := Popped(s.queue.queue[0])), queue := Dequeue(s.queue))
    case Handle(step) => s.(worker := HandleStep(config, w, s.life.Overdue(), step))
    case WorkerExits => s.(worker := w.(at := Exited(false)), life := s.life.(running := false))
    case StopBegins =>
      s.(life := if s.life.stopRequested then s.life.(phase := Closing)
                 else s.life.(phase := Closing, stopRequested := true, deadline := s.life.now + config.drain))
    case StopExchanges => s.(life := s.life.(phase := Exchanged(s.life.running), running := false))
    case StopCloses =>
      s.(life := s.life.(phase := Joining),
         queue := if s.life.phase.wasRunning || !w.at.NotStarted? then s.queue.(closed := true) else s.queue)
    case StopReturns => s.(life := s.life.(phase := Free))
    case Tick(d) => s.(life := s.life.(now := s.life.now + d))
  }

  /** A run is a sequence of steps, each enabled when it is taken. */
  ghost predicate IsRun(config: Config, steps: seq<Step>)
    decreases |steps|, 0
  {
    steps != [] ==>
      IsRun(config, Init(steps)) && Enabled(config, Execute(config, Init(steps)), Last(steps))
  }

  ghost function Execute(config: Config, steps: seq<Step>): Pipeline
    requires IsRun(config, steps)
    decreases |steps|, 1
  {
    if steps == [] then Start(config) else Apply(config, Execute(config, Init(steps)), Last(steps))
  }
}

/** Conservation: every snapshot is in exactly one place, and the counters say which. */
module PipelineConservation {
  import opened Seqs
  import opened Telemetry
  import opened CollectorLogic
  import opened FeatureQueue
  import opened InferencePipeline

  function Items(queued: seq<Item>): seq<FeatureItem>
  {
    seq(|queued|, i requires 0 <= i < |queued| => queued[i].item)
  }

  /** The item taken out of the queue by the worker and not yet given an outcome, if any. */
  function InProcess(at: Position): seq<Item>
  {
    match at
    case Popped(i) => [i]
    case Processing(i) => [i]
    case Sent(i) => [i]
    case Late(i) => [i]
    case _ => []
  }

  ghost predicate Conserved(s: Ingest, queue: QueueState<FeatureItem>)
  {
    && s.emitted == s.pending + s.dropped + multiset(Items(queue.accepted))
    && |s.dropped| == queue.droppedCount
    && queue.Valid()
  }

  /** The removed items are those with an outcome followed by the one in process. */
  ghost predicate Ordered(w: Worker, removed: seq<Item>)
  {
    |w.outcomes| <= |removed| && removed[|w.outcomes|..] == InProcess(w.at)
  }

  function IsStored(): Outcome -> bool { (o: Outcome) => o.Stored? }
  function IsParseFailed(): Outcome -> bool { (o: Outcome) => o.ParseFailed? }
  function IsFailed(): Outcome -> bool { (o: Outcome) => o.Failed? || o.LateFailed? }
  function IsLateFailed(): Outcome -> bool { (o: Outcome) => o.LateFailed? }
  function IsSkipped(): Outcome -> bool { (o: Outcome) => o.Skipped? }
  function IsDiscarded(): Outcome -> bool { (o: Outcome) => o.Discarded? }

  /** The failure that a failed start counts, which belongs to no snapshot. */
  function InitFailures(at: Position): nat { if at.InitFailing? || at == Exited(true) then 1 else 0 }

  ghost predicate Counted(w: Worker)
  {
    var c, os := w.counters, w.outcomes;
    && c.stored + (if w.at.Updated? then 1 else 0) == Count(os, IsStored())
    && c.parseFailed == Count(os, IsParseFailed())
    && c.failed == Count(os, IsFailed()) + InitFailures(w.at)
    && c.late == Count(os, IsLateFailed()) + (if w.at.Late? then 1 else 0)
    && c.skipped == Count(os, IsSkipped())
    && c.discarded == Count(os, IsDiscarded())
    && c.sent == Count(os, IsStored()) + c.parseFailed + (if w.at.Sent? then 1 else 0)
  }

  /** Discarding starts only once the drain deadline has passed, and then never stops. */
  ghost predicate DiscardsLast(w: Worker, life: Life)
  {
    && (forall i, j :: 0 <= i <= j < |w.outcomes| && w.outcomes[i].Discarded? ==> w.outcomes[j].Discarded?)
    && (forall i :: 0 <= i < |w.outcomes| && w.outcomes[i].Discarded? ==>
          life.Overdue() && (w.at.AtPop? || w.at.Popped? || w.at == Exited(false)))
  }

  ghost predicate Shutdown(s: Pipeline)
  {
    && (s.worker.at == Exited(false) ==> s.queue.closed && s.queue.queue == [])
    && (s.worker.at == InitFailing(true) || s.worker.at == Exited(true) ==> s.queue.closed)
    && (s.worker.at.NotStarted? || s.worker.at.Starting? || InitFailures(s.worker.at) == 1 ==> s.worker.outcomes == [])
    && (s.life.phase.Joining? && !s.worker.at.NotStarted? ==> s.queue.closed)
  }

  ghost predicate Inv(s: Pipeline)
  {
    && Conserved(s.ingest, s.queue)
    && Ordered(s.worker, s.queue.removed)
    && Counted(s.worker)
    && DiscardsLast(s.worker, s.life)
    && Shutdown(s)
  }

  lemma PushConserves(s: Ingest, queue: QueueState<FeatureItem>, item: FeatureItem)
    requires Conserved(s, queue) && item in s.pending
    ensures Conserved(PushStep(s, item, Refuses(queue)), TryPushStep(queue, item))
    ensures TryPushStep(queue, item).removed == queue.removed
  {
    if !Refuses(queue) {
      EnqueueKeepsValid(queue, item);
      var queued := Queued(queue.nextSequenceId + 1, item);
      assert Items(queue.accepted + [queued]) == Items(queue.accepted) + [item];
    }
  }

  lemma CountAll(os: seq<Outcome>, o: Outcome)
    ensures Count(os + [o], IsStored()) == Count(os, IsStored()) + if o.Stored? then 1 else 0
    ensures Count(os + [o], IsParseFailed()) == Count(os, IsParseFailed()) + if o.ParseFailed? then 1 else 0
    ensures Count(os + [o], IsFailed()) == Count(os, IsFailed()) + if o.Failed? || o.LateFailed? then 1 else 0
    ensures Count(os + [o], IsLateFailed()) == Count(os, IsLateFailed()) + if o.LateFailed? then 1 else 0
    ensures Count(os + [o], IsSkipped()) == Count(os, IsSkipped()) + if o.Skipped? then 1 else 0
    ensures Count(os + [o], IsDiscarded()) == Count(os, IsDiscarded()) + if o.Discarded? then 1 else 0
  {
    assert Init(os + [o]) == os;
  }

  /** One step of the worker on its item. */
  lemma HandleKeepsInv(config: Config, w: Worker, life: Life, removed: seq<Item>, step: ItemStep)
    requires CanHandle(config, w, step)
    requires Ordered(w, removed) && Counted(w) && DiscardsLast(w, life)
    ensures var w' := HandleStep(config, w, life.Overdue(), step);
      && Ordered(w', removed) && Counted(w') && DiscardsLast(w', life)
      && !(w.at.NotStarted? || w.at.Starting? || w.at.InitFailing? || w.at.Exited?)
      && !(w'.at.NotStarted? || w'.at.Starting? || w'.at.InitFailing? || w'.at.Exited?)
  {
    hide Count;
    var w' := HandleStep(config, w, life.Overdue(), step);
    if w'.outcomes != w.outcomes {
      CountAll(w.outcomes, Last(w'.outcomes));
    }
  }

  lemma PopKeepsInv(config: Config, s: Pipeline)
    requires Inv(s) && Enabled(config, s, Pop)
    ensures Inv(Apply(config, s, Pop))
  {
    hide Count, QueueState.Valid, OnEvent;
    DequeueKeepsValid(s.queue);
    var outcomes := s.worker.outcomes;
    assert Dequeue(s.queue).removed[|outcomes|..] == s.queue.removed[|outcomes|..] + [s.queue.queue[0]];
  }

  lemma CountedMoves(w: Worker, at: Position)
    requires Counted(w) && (w.at.NotStarted? || w.at.Starting? || w.at.AtPop?)
    requires at.Starting? || at.AtPop? || at == Exited(false)
    ensures Counted(w.(at := at))
  {
    hide Count;
  }

  lemma InitFailureIsCounted(w: Worker)
    requires Counted(w) && w.at.Starting?
    ensures Counted(w.(at := InitFailing(false), counters := w.counters.(failed := w.counters.failed + 1)))
  {
    hide Count;
  }

  lemma InitFailureStaysCounted(w: Worker, at: Position)
    requires Counted(w) && w.at.InitFailing? && (at.InitFailing? || at == Exited(true))
    ensures Counted(w.(at := at))
  {
    hide Count;
  }

  lemma IngestStepKeepsInv(config: Config, s: Pipeline, step: Step)
    requires Inv(s) && Enabled(config, s, step) && (step.Observe? || step.Push? || step.Attach?)
    ensures Inv(Apply(config, s, step))
  {
    hide OnEvent, Counted, Ordered, DiscardsLast;
    if step.Push? { PushConserves(s.ingest, s.queue, step.item); }
  }

  lemma WorkerMoveKeepsInv(config: Config, s: Pipeline, step: Step)
    requires Inv(s) && Enabled(config, s, step)
    requires step.StartWorker? || step.InitSucceeds? || step.InitFails? || step.InitCloses? || step.InitEnds? || step.WorkerExits?
    ensures Inv(Apply(config, s, step))
  {
    hide Counted;
    match step
    case StartWorker => CountedMoves(s.worker, Starting);
    case InitSucceeds => CountedMoves(s.worker, AtPop);
    case InitFails => InitFailureIsCounted(s.worker);
    case InitCloses => InitFailureStaysCounted(s.worker, InitFailing(true));
    case InitEnds => InitFailureStaysCounted(s.worker, Exited(true));
    case WorkerExits => CountedMoves(s.worker, Exited(false));
    case _ =>
  }

  lemma ClosingConserves(s: Ingest, queue: QueueState<FeatureItem>)
    requires Conserved(s, queue)
    ensures Conserved(s, queue.(closed := true))
  {}

  lemma OverdueLasts(w: Worker, life: Life, later: Life)
    requires DiscardsLast(w, life) && (life.Overdue() ==> later.Overdue())
    ensures DiscardsLast(w, later)
  {}

  lemma LifeStepKeepsInv(config: Config, s: Pipeline, step: Step)
    requires Inv(s) && Enabled(config, s, step)
    requires step.StopBegins? || step.StopExchanges? || step.StopCloses? || step.StopReturns? || step.Tick?
    ensures Inv(Apply(config, s, step))
  {
    hide Counted, Ordered, Conserved, DiscardsLast;
    ClosingConserves(s.ingest, s.queue);
    OverdueLasts(s.worker, s.life, Apply(config, s, step).life);
  }

  lemma HandleStepKeepsInv(config: Config, s: Pipeline, step: ItemStep)
    requires Inv(s) && Enabled(config, s, Handle(step))
    ensures Inv(Apply(config, s, Handle(step)))
  {
    hide HandleStep, CanHandle, Counted;
    HandleKeepsInv(config, s.worker, s.life, s.queue.removed, step);
  }

  /** Every step of every thread keeps the invariant. */
  lemma StepKeepsInv(config: Config, s: Pipeline, step: Step)
    requires Inv(s) && Enabled(config, s, step)
    ensures Inv(Apply(config, s, step))
  {
    hide Inv, Apply, Enabled;
    if step.Observe? || step.Push? || step.Attach? {
      IngestStepKeepsInv(config, s, step);
    } else if step.Pop? {
      PopKeepsInv(config, s);
    } else if step.Handle? {
      HandleStepKeepsInv(config, s, step.step);
    } else if step.StopBegins? || step.StopExchanges? || step.StopCloses? || step.StopReturns? || step.Tick? {
      LifeStepKeepsInv(config, s, step);
    } else {
      WorkerMoveKeepsInv(config, s, step);
    }
  }

  lemma {:induction false} RunsKeepInv(config: Config, steps: seq<Step>)
    requires 0 < config.capacity && IsRun(config, steps)
    ensures Inv(Execute(config, steps))
  {
    hide Apply, Enabled, Inv;
    if steps == [] {
      StartInv(config);
    } else {
      RunsKeepInv(config, Init(steps));
      StepKeepsInv(config, Execute(config, Init(steps)), Last(steps));
    }
  }

  lemma StartInv(config: Config)
    requires 0 < config.capacity
    ensures Inv(Start(config))
  {}

  lemma {:induction false} OutcomesPartition(os: seq<Outcome>)
    ensures |os| == Count(os, IsStored()) + Count(os, IsParseFailed()) + Count(os, IsFailed()) +
                    Count(os, IsSkipped()) + Count(os, IsDiscarded())
    ensures Count(os, IsLateFailed()) <= Count(os, IsFailed())
  {
    if os != [] {
      OutcomesPartition(Init(os));
      CountAll(Init(os), Last(os));
      assert Init(os) + [Last(os)] == os;
    }
  }

  /** Conservation at every moment of every run: the snapshots taken are those not yet offered, dropped,
      waiting, in process, and those with an outcome; the counters add up to the same number, where a
      failed start of the worker thread counts one failure that belongs to no snapshot. */
  lemma EverySnapshotIsAccountedFor(config: Config, steps: seq<Step>)
    requires 0 < config.capacity && IsRun(config, steps)
    ensures |Execute(config, steps).worker.outcomes| <= |Execute(config, steps).queue.accepted|
    ensures var s := Execute(config, steps);
      var inProcess := InProcess(s.worker.at);
      var done := s.queue.accepted[..|s.worker.outcomes|];
      && s.queue.accepted == done + inProcess + s.queue.queue
      && s.ingest.emitted == s.ingest.pending + s.ingest.dropped + multiset(Items(done)) +
                             multiset(Items(inProcess)) + multiset(Items(s.queue.queue))
      && |s.ingest.emitted| == |s.ingest.pending| + s.queue.droppedCount + |s.queue.queue| + |inProcess| +
                               |s.worker.outcomes|
      && |s.worker.outcomes| ==
         s.worker.counters.stored + (if s.worker.at.Updated? then 1 else 0) + s.worker.counters.parseFailed +
         s.worker.counters.failed - InitFailures(s.worker.at) +
         s.worker.counters.skipped + s.worker.counters.discarded
  {
    RunsKeepInv(config, steps);
    hide Apply, Execute;
    var s := Execute(config, steps);
    OutcomesPartition(s.worker.outcomes);
    SplitAccepted(s.queue, |s.worker.outcomes|, InProcess(s.worker.at));
  }

  lemma SplitAccepted(q: QueueState<FeatureItem>, n: nat, rest: seq<Item>)
    requires q.Valid() && n <= |q.removed| && q.removed[n..] == rest
    ensures q.accepted == q.accepted[..n] + rest + q.queue
    ensures multiset(Items(q.accepted)) ==
            multiset(Items(q.accepted[..n])) + multiset(Items(rest)) + multiset(Items(q.queue))
  {
    assert Items(q.accepted) == Items(q.accepted[..n]) + Items(rest) + Items(q.queue);
  }

  /** After the producers are done and a started worker has ended, nothing is left in flight: the queue
      is empty, every response was parsed or rejected, late responses are failures, the discarded items
      are the last ones popped, and every snapshot taken has its own outcome or was dropped. */
  lemma ShutdownAccountsForEverySnapshot(config: Config, steps: seq<Step>)
    requires 0 < config.capacity && IsRun(config, steps)
    requires Execute(config, steps).worker.at == Exited(false)
    ensures var s := Execute(config, steps);
      var c := s.worker.counters;
      && s.queue.queue == []
      && c.sent == c.stored + c.parseFailed
      && c.late <= c.failed
      && |s.worker.outcomes| == |s.queue.accepted|
      && (exists k :: 0 <= k <= |s.worker.outcomes| && DiscardedFrom(s.worker.outcomes, k))
      && (s.ingest.pending == multiset{} ==>
            && s.ingest.emitted == s.ingest.dropped + multiset(Items(s.queue.accepted))
            && |s.ingest.emitted| ==
               s.queue.droppedCount + c.stored + c.parseFailed + c.failed + c.skipped + c.discarded)
  {
    EverySnapshotIsAccountedFor(config, steps);
    RunsKeepInv(config, steps);
    hide Apply, Execute, Items, Count, Conserved;
    var s := Execute(config, steps);
    OutcomesPartition(s.worker.outcomes);
    assert s.queue.accepted[..|s.worker.outcomes|] == s.queue.accepted;
    SuffixStart(s.worker.outcomes);
  }

  ghost predicate DiscardedFrom(os: seq<Outcome>, k: int)
  {
    forall i :: 0 <= i < |os| ==> (os[i].Discarded? <==> k <= i)
  }

  lemma {:induction false} SuffixStart(os: seq<Outcome>)
    requires forall i, j :: 0 <= i <= j < |os| && os[i].Discarded? ==> os[j].Discarded?
    ensures exists k :: 0 <= k <= |os| && DiscardedFrom(os, k)
  {
    if os == [] || !Last(os).Discarded? {
      assert DiscardedFrom(os, |os|);
    } else {
      SuffixStart(Init(os));
      var k :| 0 <= k <= |Init(os)| && DiscardedFrom(Init(os), k);
      assert DiscardedFrom(os, k);
    }
  }

  /** When Stop returns for a worker that was started, the worker thread has ended. */
  lemma StopWaitsForTheWorker(config: Config, steps: seq<Step>)
    requires 0 < config.capacity && steps != [] && IsRun(config, steps) && Last(steps).StopReturns?
    requires !Execute(config, steps).worker.at.NotStarted?
    ensures Execute(config, steps).worker.at.Exited? && Execute(config, steps).queue.closed
  {
    hide Conserved, Ordered, Counted, DiscardsLast, OnEvent, HandleStep, ObserveStep, PushStep;
    RunsKeepInv(config, Init(steps));
  }

  /** Nothing waits, and the snapshots are those not yet offered, dropped, and counted by an outcome. */
  ghost predicate AllAccountedFor(s: Pipeline)
  {
    var c := s.worker.counters;
    && s.queue.queue == []
    && |s.ingest.emitted| == |s.ingest.pending| + s.queue.droppedCount + c.stored + c.parseFailed + c.failed +
                             c.skipped + c.discarded
  }

  /** Once the worker thread has ended, in any run, shutdown accounts for every snapshot if and only if the
      thread's initialisation succeeded. */
  lemma AccountedIffInitialised(config: Config, steps: seq<Step>)
    requires 0 < config.capacity && IsRun(config, steps) && Execute(config, steps).worker.at.Exited?
    ensures AllAccountedFor(Execute(config, steps)) <==> !Execute(config, steps).worker.at.initFailed
  {
    EverySnapshotIsAccountedFor(config, steps);
    RunsKeepInv(config, steps);
    hide Apply, Execute, IsRun, Items, Count, Conserved, Ordered, Counted, DiscardsLast;
  }

  lemma ParsedEmits(parsed: NetworkEvent)
    requires parsed.kind.PacketParsed?
    ensures OnEvent(CollectorState(map[], 0), parsed).1.Some?
  {}

  /** A snapshot waits in the queue while the worker thread starts. */
  lemma SnapshotMeetsStartingWorker(config: Config, parsed: NetworkEvent) returns (steps: seq<Step>)
    requires 0 < config.capacity && parsed.kind.PacketParsed? && parsed.sessionId > 0
    ensures IsRun(config, steps)
    ensures var s := Execute(config, steps);
      && |s.queue.queue| == 1 && s.worker == Start(config).worker.(at := Starting)
      && s.life == Start(config).life.(running := true)
  {
    ParsedEmits(parsed);
    var item := OnEvent(CollectorState(map[], 0), parsed).1.value;
    steps := [];
    assert IsRun(config, steps) && Execute(config, steps) == Start(config);
    hide OnEvent, Execute, IsRun;
    steps := ExtendRun(config, steps, Attach(true));
    steps := ExtendRun(config, steps, Observe(parsed));
    steps := ExtendRun(config, steps, StartWorker);
    steps := ExtendRun(config, steps, Push(item));
  }

  lemma FailAndStop(config: Config, before: seq<Step>) returns (steps: seq<Step>)
    requires IsRun(config, before) && Execute(config, before).worker.at.Starting?
    requires Execute(config, before).life.phase.Free?
    ensures IsRun(config, steps)
    ensures var s, t := Execute(config, before), Execute(config, steps);
      && t.worker.at == Exited(true) && t.life.phase.Free? && t.life.stopRequested && t.queue.queue == s.queue.queue
      && t.worker.counters.failed == s.worker.counters.failed + 1 && t.worker.outcomes == s.worker.outcomes
  {
    hide Execute, IsRun;
    steps := ExtendRun(config, before, InitFails);
    steps := ExtendRun(config, steps, InitCloses);
    steps := ExtendRun(config, steps, InitEnds);
    steps := ExtendRun(config, steps, StopBegins);
    steps := ExtendRun(config, steps, StopExchanges);
    steps := ExtendRun(config, steps, StopCloses);
    steps := ExtendRun(config, steps, StopReturns);
  }

  /** The exception is real: a worker whose thread cannot initialise ends with accepted snapshots still
      queued, and counts a failure that no snapshot explains. */
  lemma FailedInitStrandsSnapshots(config: Config, parsed: NetworkEvent) returns (steps: seq<Step>)
    requires 0 < config.capacity && parsed.kind.PacketParsed? && parsed.sessionId > 0
    ensures IsRun(config, steps)
    ensures var s := Execute(config, steps);
      && s.worker.at.Exited? && s.life.phase.Free? && s.life.stopRequested
      && |s.queue.queue| == 1 && s.worker.counters.failed == 1 && s.worker.outcomes == []
  {
    hide Execute, IsRun;
    var before := SnapshotMeetsStartingWorker(config, parsed);
    steps := FailAndStop(config, before);
  }

  lemma ExtendRun(config: Config, steps: seq<Step>, step: Step) returns (longer: seq<Step>)
    requires IsRun(config, steps) && Enabled(config, Execute(config, steps), step)
    ensures IsRun(config, longer) && Execute(config, longer) == Apply(config, Execute(config, steps), step)
  {
    longer := steps + [step];
    assert Init(longer) == steps;
  }
}

/** The drain budget, told by the steps of a run: when Stop first began and how much time has passed since. */
module DrainBudget {
  import opened Seqs
  import opened InferencePipeline
  import opened PipelineConservation

  predicate StopBegun(steps: seq<Step>)
  {
    steps != [] && (StopBegun(Init(steps)) || Last(steps).StopBegins?)
  }

  /** The time that passed after the first Stop began; a later Stop does not start it again. */
  function SinceStop(steps: seq<Step>): nat
  {
    if !StopBegun(steps) || !StopBegun(Init(steps)) then 0
    else SinceStop(Init(steps)) + if Last(steps).Tick? then Last(steps).duration else 0
  }

  /** The budget is used up: a Stop has begun, and at least `drain` has passed since the first one did. */
  predicate Spent(config: Config, steps: seq<Step>)
  {
    StopBegun(steps) && SinceStop(steps) >= config.drain
  }

  lemma {:induction false} DeadlineIsTold(config: Config, steps: seq<Step>)
    requires IsRun(config, steps)
    ensures var life := Execute(config, steps).life;
      && life.stopRequested == StopBegun(steps)
      && (life.stopRequested ==> life.now - life.deadline == SinceStop(steps) - config.drain)
    decreases |steps|
  {
    if steps != [] {
      var before := Init(steps);
      DeadlineIsTold(config, before);
      LifeMoves(config, Execute(config, before), Last(steps));
      hide Apply, Enabled;
      if StopBegun(steps) && !StopBegun(before) { assert SinceStop(steps) == 0; }
    }
  }

  lemma LifeMoves(config: Config, s: Pipeline, step: Step)
    requires Enabled(config, s, step)
    ensures var a, b := s.life, Apply(config, s, step).life;
      && b.stopRequested == (a.stopRequested || step.StopBegins?)
      && b.now == a.now + (if step.Tick? then step.duration else 0)
      && (a.stopRequested ==> b.deadline == a.deadline)
      && (!a.stopRequested && b.stopRequested ==> b.deadline == a.now + config.drain)
  {
    hide HandleStep, ObserveStep, PushStep;
  }

  /** An item that the worker judges is discarded if and only if the budget of the first Stop is used up; otherwise
      it is processed. */
  lemma DiscardedIffSpent(config: Config, before: seq<Step>)
    requires IsRun(config, before) && Enabled(config, Execute(config, before), Handle(Judge))
    ensures var w, w' := Execute(config, before).worker, Apply(config, Execute(config, before), Handle(Judge)).worker;
      if Spent(config, before)
      then w'.outcomes == w.outcomes + [Discarded] && w'.at.AtPop?
      else w'.outcomes == w.outcomes && w'.at == Processing(w.at.item)
  {
    DeadlineIsTold(config, before);
    hide Execute, IsRun, StopBegun, SinceStop;
  }

  /** No item is discarded in a run that has not used up its budget. */
  lemma {:induction false} NothingDiscardedInTime(config: Config, steps: seq<Step>)
    requires IsRun(config, steps) && !Spent(config, steps)
    ensures forall i :: 0 <= i < |Execute(config, steps).worker.outcomes| ==> !Execute(config, steps).worker.outcomes[i].Discarded?
    decreases |steps|
  {
    if steps != [] {
      var before := Init(steps);
      assert !Spent(config, before);
      NothingDiscardedInTime(config, before);
      if Last(steps) == Handle(Judge) { DiscardedIffSpent(config, before); }
      else { OnlyJudgingDiscards(config, Execute(config, before), Last(steps)); }
      hide Apply, Enabled, Spent;
    }
  }

  lemma OnlyJudgingDiscards(config: Config, s: Pipeline, step: Step)
    requires Enabled(config, s, step) && step != Handle(Judge)
    requires forall i :: 0 <= i < |s.worker.outcomes| ==> !s.worker.outcomes[i].Discarded?
    ensures var os := Apply(config, s, step).worker.outcomes;
      forall i :: 0 <= i < |os| ==> !os[i].Discarded?
  {
    hide ObserveStep, PushStep;
  }
}
