/** The JSONL collector: request threads offer records without waiting, one worker thread writes them.
    A step is one critical section under the lock, or one operation on the queue, the stop event or the
    stream. */
module JsonlProtocol {
  import opened Seqs

  datatype Record = Record(sequenceId: nat, payload: string)

  datatype Drop = NoDrop | Full | Closed | Failed

  /** The counters of `try_collect`. */
  datatype Tally = Tally(
    attempted: nat,
    enqueued: nat,
    droppedFull: nat,
    droppedClosed: nat,
    droppedFailed: nat,
    highWatermark: nat)

  /** `storing` holds while a request thread, inside the lock, has put its record and not yet counted it;
      `accepted` are all the records ever put. */
  datatype Intake = Intake(
    capacity: nat,
    queue: seq<Record>,
    accepting: bool,
    storing: bool,
    tally: Tally,
    accepted: seq<Record>)

  /** Whether the failure handler was entered from the main loop or from closing the stream. */
  datatype Origin = FromLoop | FromClose

  datatype Position =
    | AtLoop
    | SawFirst
    | AtGet
    | Got(r: Record)
    | Writing(r: Record)
    | Wrote
    | WriteFailed(r: Record)
    | Releasing(ok: bool)
    | AtTimer
    | Flushing(final: bool)
    | Flushed(final: bool)
    | Failing(origin: Origin)
    | Draining(origin: Origin)
    | Drained(origin: Origin, r: Record)
    | Closing
    | Finishing
    | Summarising
    | Done(complete: bool)

  /** The worker's side. `file` are the completely written lines, `durable` those of them that a flush has
      pushed out, `lost` the records counted as failed. */
  datatype Writer = Writer(
    at: Position,
    file: seq<Record>,
    durable: seq<Record>,
    lost: seq<Record>,
    written: nat,
    flushed: nat,
    failedRecords: nat,
    inFlight: nat,
    writeError: bool)

  datatype RunState = Running | Stopping | Broken | Ended

  /** A stop caller may time out at any moment after the event is set, also while the worker writes its summary.
      `callers` have closed the intake and not yet set the stop event. */
  datatype Shutdown = Shutdown(
    requested: bool,
    callers: nat,
    state: RunState,
    timedOut: bool,
    complete: bool)

  datatype Collector = Collector(intake: Intake, writer: Writer, shutdown: Shutdown)

  datatype Step =
    | Offer(payload: string)
    | CountOffer
    | StopLocked
    | StopSet
    | StopTimesOut
    | Work(fortunate: bool)

  function Start(capacity: nat): Collector
  {
    Collector(
      Intake(capacity, [], true, false, Tally(0, 0, 0, 0, 0, 0), []),
      Writer(AtLoop, [], [], [], 0, 0, 0, 0, false),
      Shutdown(false, 0, Running, false, false))
  }

  /** The worker positions whose next step needs the lock. */
  predicate NeedsLock(at: Position)
  {
    match at
    case Got(_) => true
    case Wrote => true
    case WriteFailed(_) => true
    case Releasing(_) => true
    case Flushed(_) => true
    case Failing(_) => true
    case Drained(_, _) => true
    case Finishing => true
    case Summarising => true
    case _ => false
  }

  predicate Enabled(c: Collector, step: Step)
  {
    match step
    case Offer(_) => !c.intake.storing
    case CountOffer => c.intake.storing
    case StopLocked => !c.intake.storing
    case StopSet => c.shutdown.callers > 0
    case StopTimesOut => !c.intake.storing && c.shutdown.requested
    case Work(_) => !c.writer.at.Done? && (NeedsLock(c.writer.at) ==> !c.intake.storing)
  }

  /** Why an offered record is refused; the order of the tests decides which counter moves. */
  function Refusal(i: Intake, writeError: bool): Drop
  {
    if writeError then Failed else if !i.accepting then Closed else if |i.queue| >= i.capacity then Full else NoDrop
  }

  function CountDrop(t: Tally, d: Drop): Tally
  {
    var u := t.(attempted := t.attempted + 1);
    match d
    case NoDrop => u
    case Full => u.(droppedFull := t.droppedFull + 1)
    case Closed => u.(droppedClosed := t.droppedClosed + 1)
    case Failed => u.(droppedFailed := t.droppedFailed + 1)
  }

  /** try_collect up to the put: a counted drop, or a record numbered by the attempt. */
  function OfferStep(i: Intake, writeError: bool, payload: string): Intake
  {
    var d := Refusal(i, writeError);
    var t := CountDrop(i.tally, d);
    if d != NoDrop then i.(tally := t)
    else
      var r := Record(t.attempted, payload);
      i.(tally := t, queue := i.queue + [r], accepted := i.accepted + [r], storing := true)
  }

  function CountOfferStep(i: Intake): Intake
  {
    i.(storing := false,
       tally := i.tally.(enqueued := i.tally.enqueued + 1, highWatermark := Max(i.tally.highWatermark, |i.queue|)))
  }

  /** What the worker does to the queue and the accepting flag. */
  function WorkOnIntake(i: Intake, at: Position): Intake
  {
    match at
    case AtGet => if i.queue == [] then i else i.(queue := i.queue[1..])
    case Draining(_) => if i.queue == [] then i else i.(queue := i.queue[1..])
    case Failing(_) => i.(accepting := false)
    case Finishing => i.(accepting := false)
    case _ => i
  }

  /** The loop test `stop requested and queue empty`, split into its two reads. The order of the reads is a
      parameter: the source reads the stop event first. */
  function LoopTest(at: Position, stopFirst: bool, requested: bool, empty: bool): Position
  {
    if (if stopFirst == at.AtLoop? then requested else empty)
    then (if at.AtLoop? then SawFirst else Flushing(true))
    else AtGet
  }

  /** Where the worker goes. `head` is the first waiting record, `complete` the summary's verdict; `fortunate`
      decides a write, a flush, a close, and whether a flush is due. */
  function Next(at: Position, head: Option<Record>, stopFirst: bool, requested: bool, complete: bool,
      fortunate: bool): Position
  {
    match at
    case AtLoop => LoopTest(at, stopFirst, requested, head.None?)
    case SawFirst => LoopTest(at, stopFirst, requested, head.None?)
    case AtGet => if head.None? then AtTimer else Got(head.value)
    case Got(r) => Writing(r)
    case Writing(r) => if fortunate then Wrote else WriteFailed(r)
    case Wrote => Releasing(true)
    case WriteFailed(_) => Releasing(false)
    case Releasing(ok) => if ok then AtTimer else Failing(FromLoop)
    case AtTimer => if fortunate then Flushing(false) else AtLoop
    case Flushing(final) => if fortunate then Flushed(final) else Failing(FromLoop)
    case Flushed(final) => if final then Closing else AtLoop
    case Failing(origin) => Draining(origin)
    case Draining(origin) =>
      if head.Some? then Drained(origin, head.value) else if origin.FromLoop? then Closing else Finishing
    case Drained(origin, _) => Draining(origin)
    case Closing => if fortunate then Finishing else Failing(FromClose)
    case Finishing => Summarising
    case Summarising => Done(complete)
    case Done(_) => at
  }

  /** What the worker does to the stream and to its own counters. */
  function Effect(w: Writer, fortunate: bool): Writer
  {
    match w.at
    case Got(_) => w.(inFlight := 1)
    case Writing(r) => if fortunate then w.(file := w.file + [r]) else w
    case Wrote => w.(written := w.written + 1)
    case WriteFailed(r) => w.(failedRecords := w.failedRecords + 1, lost := w.lost + [r])
    case Releasing(_) => w.(inFlight := 0)
    case Flushing(_) => if fortunate then w.(durable := w.file) else w
    case Flushed(_) => w.(flushed := w.written)
    case Failing(_) => w.(writeError := true)
    case Drained(_, r) => w.(failedRecords := w.failedRecords + 1, lost := w.lost + [r])
    case _ => w
  }

  function WorkOnWriter(w: Writer, head: Option<Record>, stopFirst: bool, requested: bool, complete: bool,
      fortunate: bool): Writer
  {
    Effect(w, fortunate).(at := Next(w.at, head, stopFirst, requested, complete, fortunate))
  }

  function WorkOnShutdown(s: Shutdown, at: Position, writeError: bool): Shutdown
  {
    match at
    case Failing(_) => s.(state := Broken)
    case Finishing => if writeError then s else s.(state := Ended, complete := true)
    case _ => s
  }

  /** The `complete` flag of the shutdown summary. */
  predicate IsComplete(c: Collector)
  {
    && c.shutdown.complete && !c.shutdown.timedOut
    && c.writer.flushed == c.intake.tally.enqueued
    && c.intake.tally.droppedFull == c.intake.tally.droppedClosed == c.intake.tally.droppedFailed == 0
    && c.writer.failedRecords == 0
  }

  function Front(queue: seq<Record>): Option<Record> { if queue == [] then None else Some(queue[0]) }

  function WorkStep(c: Collector, stopFirst: bool, fortunate: bool): Collector
  {
    Collector(
      WorkOnIntake(c.intake, c.writer.at),
      WorkOnWriter(c.writer, Front(c.intake.queue), stopFirst, c.shutdown.requested, IsComplete(c), fortunate),
      WorkOnShutdown(c.shutdown, c.writer.at, c.writer.writeError))
  }

  function CloseIntake(c: Collector): Collector
  {
    c.(intake := c.intake.(accepting := false),
       shutdown := c.shutdown.(callers := c.shutdown.callers + 1,
                               state := if c.shutdown.state.Running? then Stopping else c.shutdown.state))
  }

  function SetStop(s: Shutdown): Shutdown
    requires s.callers > 0
  {
    s.(requested := true, callers := s.callers - 1)
  }

  function Apply(c: Collector, stopFirst: bool, step: Step): Collector
    requires Enabled(c, step)
  {
    match step
    case Offer(payload) => c.(intake := OfferStep(c.intake, c.writer.writeError, payload))
    case CountOffer => c.(intake := CountOfferStep(c.intake))
    case StopLocked => CloseIntake(c)
    case StopSet => c.(shutdown := SetStop(c.shutdown))
    case StopTimesOut => c.(shutdown := c.shutdown.(timedOut := true))
    case Work(fortunate) => WorkStep(c, stopFirst, fortunate)
  }

  ghost predicate IsRun(capacity: nat, stopFirst: bool, steps: seq<Step>)
    decreases |steps|, 0
  {
    steps != [] ==>
      IsRun(capacity, stopFirst, Init(steps)) && Enabled(Execute(capacity, stopFirst, Init(steps)), Last(steps))
  }

  ghost function Execute(capacity: nat, stopFirst: bool, steps: seq<Step>): Collector
    requires IsRun(capacity, stopFirst, steps)
    decreases |steps|, 1
  {
    if steps == [] then Start(capacity) else Apply(Execute(capacity, stopFirst, Init(steps)), stopFirst, Last(steps))
  }
}

/** What every interleaving of request threads, stop callers and the worker keeps. */
module JsonlAccounting {
  import opened Seqs
  import opened JsonlProtocol

  function Drops(t: Tally): nat { t.droppedFull + t.droppedClosed + t.droppedFailed }

  /** A record that the worker took out of the queue and neither wrote nor counted as failed. */
  function Held(at: Position): seq<Record>
  {
    match at
    case Got(r) => [r]
    case Writing(r) => [r]
    case WriteFailed(r) => [r]
    case Drained(_, r) => [r]
    case _ => []
  }

  function Pending(storing: bool): nat { if storing then 1 else 0 }

  ghost predicate Increasing(records: seq<Record>)
  {
    forall i, j :: 0 <= i < j < |records| ==> records[i].sequenceId < records[j].sequenceId
  }

  ghost predicate NumberedFromOne(records: seq<Record>)
  {
    forall i :: 0 <= i < |records| ==> records[i].sequenceId == i + 1
  }

  ghost predicate NumberedUpTo(records: seq<Record>, n: nat)
  {
    forall i :: 0 <= i < |records| ==> 1 <= records[i].sequenceId <= n
  }

  ghost predicate IntakeOk(i: Intake)
  {
    && i.tally.attempted == |i.accepted| + Drops(i.tally)
    && |i.accepted| == i.tally.enqueued + Pending(i.storing)
    && |i.queue| <= i.capacity
    && (i.storing ==> i.accepting)
    && Increasing(i.accepted)
    && NumberedUpTo(i.accepted, i.tally.attempted)
    && (Drops(i.tally) == 0 ==> NumberedFromOne(i.accepted))
  }

  function Unwritten(at: Position): nat { match at case Wrote => 1 case _ => 0 }

  /** What a flush has pushed out is a prefix of the written lines, and `flushed` counts lines it pushed. */
  ghost predicate LinesOk(file: seq<Record>, durable: seq<Record>, written: nat, flushed: nat, at: Position)
  {
    && |file| == written + Unwritten(at)
    && durable <= file
    && flushed <= |durable|
    && flushed <= written
    && (match at case Flushed(_) => durable == file case _ => true)
  }

  ghost predicate LossOk(lost: seq<Record>, failedRecords: nat, writeError: bool, at: Position)
  {
    && |lost| == failedRecords
    && (lost != [] ==> MayHaveLost(at, writeError))
    && (writeError ==> AfterLoop(at))
    && (InDrain(at) ==> writeError)
  }

  ghost predicate WriterOk(w: Writer)
  {
    && LinesOk(w.file, w.durable, w.written, w.flushed, w.at)
    && LossOk(w.lost, w.failedRecords, w.writeError, w.at)
  }

  predicate AfterLoop(at: Position)
  {
    match at
    case Failing(_) => true
    case Draining(_) => true
    case Drained(_, _) => true
    case Closing => true
    case Finishing => true
    case Summarising => true
    case Done(_) => true
    case _ => false
  }

  predicate InDrain(at: Position)
  {
    match at
    case Draining(_) => true
    case Drained(_, _) => true
    case _ => false
  }

  /** The positions in which a record may already have been counted as lost. */
  predicate MayHaveLost(at: Position, writeError: bool)
  {
    match at
    case Releasing(ok) => !ok
    case Failing(_) => true
    case _ => writeError && AfterLoop(at)
  }

  /** Accepted records are, in order: written, failed, in the worker's hand, waiting. */
  ghost predicate InOrder(accepted: seq<Record>, file: seq<Record>, lost: seq<Record>, at: Position, queue: seq<Record>)
  {
    accepted == file + lost + Held(at) + queue
  }

  /** Past the last look at the queue, nothing may be accepted any more. */
  predicate PastQueue(at: Position)
  {
    match at
    case Flushing(final) => final
    case Flushed(final) => final
    case Failing(origin) => origin.FromClose?
    case Closing => true
    case Finishing => true
    case Summarising => true
    case Done(_) => true
    case _ => false
  }

  /** The queue is closed for good before the worker's final look finds it empty. */
  ghost predicate ClosedOk(i: Intake, at: Position, s: Shutdown)
  {
    && (s.requested || s.callers > 0 ==> !i.accepting)
    && (at.SawFirst? ==> s.requested)
    && (PastQueue(at) ==> !i.accepting && i.queue == [])
    && (InDrain(at) ==> !i.accepting)
  }

  /** From the last critical section on nothing is accepted, and a clean shutdown saw no error. */
  ghost predicate ShutdownOk(s: Shutdown, accepting: bool, writeError: bool, at: Position)
  {
    && (s.complete ==> !writeError && AtEnd(at))
    && (AtEnd(at) ==> !accepting)
  }

  predicate AtEnd(at: Position)
  {
    match at
    case Summarising => true
    case Done(_) => true
    case _ => false
  }

  /** Everything ever offered, up to refusals after closing, is in the file, flushed, under the ids 1..n. */
  ghost predicate Delivered(c: Collector)
  {
    && c.writer.durable == c.writer.file == c.intake.accepted
    && NumberedFromOne(c.writer.file)
    && c.intake.tally.attempted == |c.writer.file| + c.intake.tally.droppedClosed
    && c.writer.lost == [] && c.intake.queue == []
  }

  ghost predicate CompleteOk(c: Collector)
  {
    c.writer.at == Done(true) ==> !c.writer.writeError && !c.intake.storing && Delivered(c)
  }

  ghost predicate Ordered(c: Collector)
  {
    InOrder(c.intake.accepted, c.writer.file, c.writer.lost, c.writer.at, c.intake.queue)
  }

  ghost predicate Inv(c: Collector)
  {
    && IntakeOk(c.intake)
    && WriterOk(c.writer)
    && Ordered(c)
    && ShutdownOk(c.shutdown, c.intake.accepting, c.writer.writeError, c.writer.at)
    && CompleteOk(c)
  }

  lemma OfferKeepsIntake(i: Intake, writeError: bool, payload: string)
    requires IntakeOk(i) && !i.storing
    ensures IntakeOk(OfferStep(i, writeError, payload))
  {}

  lemma CountOfferKeepsIntake(i: Intake)
    requires IntakeOk(i) && i.storing
    ensures IntakeOk(CountOfferStep(i))
  {}

  lemma WorkKeepsIntake(i: Intake, at: Position)
    requires IntakeOk(i) && (NeedsLock(at) ==> !i.storing)
    ensures IntakeOk(WorkOnIntake(i, at))
  {
    hide Increasing, NumberedUpTo, NumberedFromOne;
  }

  lemma WorkKeepsLines(w: Writer, head: Option<Record>, stopFirst: bool, requested: bool, complete: bool,
      fortunate: bool)
    requires LinesOk(w.file, w.durable, w.written, w.flushed, w.at)
    ensures
      var w' := Effect(w, fortunate);
      LinesOk(w'.file, w'.durable, w'.written, w'.flushed, Next(w.at, head, stopFirst, requested, complete, fortunate))
  {
    match w.at
    case AtLoop =>
    case SawFirst =>
    case AtGet =>
    case Got(_) =>
    case Writing(_) =>
    case Wrote =>
    case WriteFailed(_) =>
    case Releasing(_) =>
    case AtTimer =>
    case Flushing(_) =>
    case Flushed(_) =>
    case Failing(_) =>
    case Draining(_) =>
    case Drained(_, _) =>
    case Closing =>
    case Finishing =>
    case Summarising =>
    case Done(_) =>
  }

  lemma WorkKeepsLoss(w: Writer, head: Option<Record>, stopFirst: bool, requested: bool, complete: bool,
      fortunate: bool)
    requires LossOk(w.lost, w.failedRecords, w.writeError, w.at)
    ensures
      var w' := Effect(w, fortunate);
      LossOk(w'.lost, w'.failedRecords, w'.writeError, Next(w.at, head, stopFirst, requested, complete, fortunate))
  {
    match w.at
    case AtLoop =>
    case SawFirst =>
    case AtGet =>
    case Got(_) =>
    case Writing(_) =>
    case Wrote =>
    case WriteFailed(_) =>
    case Releasing(_) =>
    case AtTimer =>
    case Flushing(_) =>
    case Flushed(_) =>
    case Failing(_) =>
    case Draining(_) =>
    case Drained(_, _) =>
    case Closing =>
    case Finishing =>
    case Summarising =>
    case Done(_) =>
  }

  lemma PopKeepsOrder(accepted: seq<Record>, before: seq<Record>, queue: seq<Record>)
    requires accepted == before + [] + queue && queue != []
    ensures accepted == before + [queue[0]] + queue[1..]
  {
    assert queue == [queue[0]] + queue[1..];
  }

  lemma WriteKeepsOrder(file: seq<Record>, r: Record)
    ensures file + [] + [r] == file + [r] + [] + []
  {}

  lemma LoseKeepsOrder(file: seq<Record>, lost: seq<Record>, r: Record)
    ensures file + lost + [r] == file + (lost + [r]) + []
  {}

  lemma WorkKeepsOrder(i: Intake, w: Writer, stopFirst: bool, requested: bool, complete: bool, fortunate: bool)
    requires InOrder(i.accepted, w.file, w.lost, w.at, i.queue)
    requires w.lost != [] ==> MayHaveLost(w.at, w.writeError)
    ensures
      var w' := Effect(w, fortunate);
      InOrder(i.accepted, w'.file, w'.lost, Next(w.at, Front(i.queue), stopFirst, requested, complete, fortunate),
              WorkOnIntake(i, w.at).queue)
  {
    match w.at
    case AtLoop =>
    case SawFirst =>
    case AtGet => if i.queue != [] { PopKeepsOrder(i.accepted, w.file + w.lost, i.queue); }
    case Got(_) =>
    case Writing(r) => assert w.lost == []; WriteKeepsOrder(w.file, r);
    case Wrote =>
    case WriteFailed(r) => LoseKeepsOrder(w.file, w.lost, r);
    case Releasing(_) =>
    case AtTimer =>
    case Flushing(_) =>
    case Flushed(_) =>
    case Failing(_) =>
    case Draining(_) => if i.queue != [] { PopKeepsOrder(i.accepted, w.file + w.lost, i.queue); }
    case Drained(_, r) => LoseKeepsOrder(w.file, w.lost, r);
    case Closing =>
    case Finishing =>
    case Summarising =>
    case Done(_) =>
  }

  /** The only way past the queue is to find it empty after a stop request, or in the drain. */
  lemma WorkKeepsClosed(i: Intake, at: Position, s: Shutdown, writeError: bool, complete: bool, fortunate: bool)
    requires ClosedOk(i, at, s)
    ensures ClosedOk(WorkOnIntake(i, at), Next(at, Front(i.queue), true, s.requested, complete, fortunate),
                     WorkOnShutdown(s, at, writeError))
  {
    match at
    case AtLoop =>
    case SawFirst =>
    case AtGet =>
    case Got(_) =>
    case Writing(_) =>
    case Wrote =>
    case WriteFailed(_) =>
    case Releasing(_) =>
    case AtTimer =>
    case Flushing(_) =>
    case Flushed(_) =>
    case Failing(_) =>
    case Draining(_) =>
    case Drained(_, _) =>
    case Closing =>
    case Finishing =>
    case Summarising =>
    case Done(_) =>
  }

  lemma WorkKeepsShutdown(i: Intake, w: Writer, s: Shutdown, stopFirst: bool, complete: bool, fortunate: bool)
    requires ShutdownOk(s, i.accepting, w.writeError, w.at)
    ensures ShutdownOk(WorkOnShutdown(s, w.at, w.writeError), WorkOnIntake(i, w.at).accepting,
                       Effect(w, fortunate).writeError,
                       Next(w.at, Front(i.queue), stopFirst, s.requested, complete, fortunate))
  {
    match w.at
    case AtLoop =>
    case SawFirst =>
    case AtGet =>
    case Got(_) =>
    case Writing(_) =>
    case Wrote =>
    case WriteFailed(_) =>
    case Releasing(_) =>
    case AtTimer =>
    case Flushing(_) =>
    case Flushed(_) =>
    case Failing(_) =>
    case Draining(_) =>
    case Drained(_, _) =>
    case Closing =>
    case Finishing =>
    case Summarising =>
    case Done(_) =>
  }

  /** The counters that the summary compares leave no room for a record that is not flushed. */
  lemma CompleteCountersMeanDelivered(c: Collector)
    requires Inv(c) && c.writer.at.Summarising? && !c.intake.storing && IsComplete(c)
    ensures Delivered(c) && c.intake.tally.droppedClosed == 0
  {
    var i, w := c.intake, c.writer;
    assert w.lost == [];
    assert w.file + w.lost + Held(w.at) + i.queue == w.file + i.queue;
    assert |w.file| == |i.accepted|;
    assert w.durable == w.file == i.accepted;
  }

  lemma WorkKeepsInv(c: Collector, stopFirst: bool, fortunate: bool)
    requires Inv(c) && Enabled(c, Work(fortunate))
    ensures Inv(WorkStep(c, stopFirst, fortunate))
  {
    var i, w, s := c.intake, c.writer, c.shutdown;
    var head, complete := Front(i.queue), IsComplete(c);
    WorkKeepsIntake(i, w.at);
    WorkKeepsLines(w, head, stopFirst, s.requested, complete, fortunate);
    WorkKeepsLoss(w, head, stopFirst, s.requested, complete, fortunate);
    WorkKeepsOrder(i, w, stopFirst, s.requested, complete, fortunate);
    WorkKeepsShutdown(i, w, s, stopFirst, complete, fortunate);
    WorkKeepsComplete(c, stopFirst, fortunate);
    hide Effect, Next, WorkOnIntake, WorkOnShutdown, IntakeOk, LinesOk, LossOk, InOrder, ShutdownOk, CompleteOk, IsComplete;
  }

  lemma WorkKeepsComplete(c: Collector, stopFirst: bool, fortunate: bool)
    requires Inv(c) && Enabled(c, Work(fortunate))
    ensures CompleteOk(WorkStep(c, stopFirst, fortunate))
  {
    if c.writer.at.Summarising? {
      if IsComplete(c) { CompleteCountersMeanDelivered(c); }
    } else {
      NotDoneYet(c.writer.at, Front(c.intake.queue), stopFirst, c.shutdown.requested, IsComplete(c), fortunate);
    }
  }

  lemma NotDoneYet(at: Position, head: Option<Record>, stopFirst: bool, requested: bool, complete: bool,
      fortunate: bool)
    requires !at.Summarising? && !at.Done?
    ensures !Next(at, head, stopFirst, requested, complete, fortunate).Done?
  {}

  lemma OfferKeepsInv(c: Collector, payload: string)
    requires Inv(c) && !c.intake.storing
    ensures Inv(c.(intake := OfferStep(c.intake, c.writer.writeError, payload)))
  {
    hide Increasing, NumberedUpTo, NumberedFromOne;
    OfferKeepsIntake(c.intake, c.writer.writeError, payload);
    var i' := OfferStep(c.intake, c.writer.writeError, payload);
    if i'.storing {
      var before := c.writer.file + c.writer.lost + Held(c.writer.at);
      var r := Record(i'.tally.attempted, payload);
      assert before + c.intake.queue + [r] == before + (c.intake.queue + [r]);
    }
  }

  lemma OtherStepsKeepInv(c: Collector, stopFirst: bool, step: Step)
    requires Inv(c) && Enabled(c, step) && !step.Work? && !step.Offer?
    ensures Inv(Apply(c, stopFirst, step))
  {
    hide Increasing, NumberedUpTo, NumberedFromOne, LinesOk, LossOk, InOrder;
    if step.CountOffer? { CountOfferKeepsIntake(c.intake); }
  }

  lemma StepKeepsInv(c: Collector, stopFirst: bool, step: Step)
    requires Inv(c) && Enabled(c, step)
    ensures Inv(Apply(c, stopFirst, step))
  {
    hide Inv;
    match step
    case Offer(payload) => OfferKeepsInv(c, payload);
    case CountOffer => OtherStepsKeepInv(c, stopFirst, step);
    case StopLocked => OtherStepsKeepInv(c, stopFirst, step);
    case StopSet => OtherStepsKeepInv(c, stopFirst, step);
    case StopTimesOut => OtherStepsKeepInv(c, stopFirst, step);
    case Work(fortunate) => WorkKeepsInv(c, stopFirst, fortunate);
  }

  ghost predicate Drains(c: Collector)
  {
    ClosedOk(c.intake, c.writer.at, c.shutdown)
  }

  lemma StepKeepsClosed(c: Collector, step: Step)
    requires Drains(c) && IntakeOk(c.intake) && Enabled(c, step)
    ensures Drains(Apply(c, true, step))
  {
    hide Increasing, NumberedUpTo, NumberedFromOne;
    match step
    case Offer(_) =>
    case CountOffer =>
    case StopLocked =>
    case StopSet =>
    case StopTimesOut =>
    case Work(fortunate) =>
      hide IntakeOk, ClosedOk, WorkOnIntake, Next, WorkOnShutdown, IsComplete, Effect;
      WorkKeepsClosed(c.intake, c.writer.at, c.shutdown, c.writer.writeError, IsComplete(c), fortunate);
  }

  lemma StartIsSound(c: Collector, capacity: nat)
    requires c == Start(capacity)
    ensures Inv(c)
  {
    hide IntakeOk, WriterOk, Ordered, ShutdownOk, CompleteOk, Start;
    StartBooks(c, capacity);
    StartOrder(c, capacity);
  }

  lemma StartBooks(c: Collector, capacity: nat)
    requires c == Start(capacity)
    ensures IntakeOk(c.intake) && WriterOk(c.writer)
  {}

  lemma StartOrder(c: Collector, capacity: nat)
    requires c == Start(capacity)
    ensures Ordered(c) && CompleteOk(c)
    ensures ShutdownOk(c.shutdown, c.intake.accepting, c.writer.writeError, c.writer.at)
  {}

  lemma StartIsOpen(c: Collector, capacity: nat)
    requires c == Start(capacity)
    ensures Drains(c)
  {}

  lemma {:induction false} RunsKeepInv(capacity: nat, stopFirst: bool, steps: seq<Step>)
    requires IsRun(capacity, stopFirst, steps)
    ensures Inv(Execute(capacity, stopFirst, steps))
    decreases |steps|
  {
    hide Inv, Apply, Enabled, Start;
    if steps == [] {
      StartIsSound(Execute(capacity, stopFirst, steps), capacity);
    } else {
      RunsKeepInv(capacity, stopFirst, Init(steps));
      StepKeepsInv(Execute(capacity, stopFirst, Init(steps)), stopFirst, Last(steps));
    }
  }

  lemma {:induction false} RunsKeepClosed(capacity: nat, steps: seq<Step>)
    requires IsRun(capacity, true, steps)
    ensures Drains(Execute(capacity, true, steps))
    decreases |steps|
  {
    hide Apply, Enabled, Drains, IntakeOk, Start;
    if steps == [] {
      StartIsOpen(Execute(capacity, true, steps), capacity);
    } else {
      RunsKeepClosed(capacity, Init(steps));
      RunsKeepInv(capacity, true, Init(steps));
      StepKeepsClosed(Execute(capacity, true, Init(steps)), Last(steps));
    }
  }

  /** The records that the worker has taken and not yet accounted for: what `status` calls unfinished, less
      the waiting ones. */
  function InHand(at: Position): nat { |Held(at)| + Unwritten(at) }

  lemma InvMeansAccounted(c: Collector)
    requires IntakeOk(c.intake) && WriterOk(c.writer) && Ordered(c) && !c.intake.storing
    ensures Accounted(c)
  {
    hide Increasing, NumberedUpTo, NumberedFromOne;
    var w := c.writer;
    assert c.intake.accepted == w.file + (w.lost + Held(w.at) + c.intake.queue);
  }

  /** Attempts are enqueued or dropped for one of three reasons; enqueued records are written, failed,
      waiting or in the worker's hand; and the fully written lines are the first accepted records, in the
      order of their strictly increasing ids. */
  ghost predicate Accounted(c: Collector)
  {
    var t, w := c.intake.tally, c.writer;
    && t.attempted == t.enqueued + t.droppedFull + t.droppedClosed + t.droppedFailed
    && t.enqueued == w.written + w.failedRecords + |c.intake.queue| + InHand(w.at)
    && |c.intake.accepted| == t.enqueued
    && w.file <= c.intake.accepted && |w.file| == w.written + Unwritten(w.at)
    && Increasing(c.intake.accepted)
    && |c.intake.queue| <= c.intake.capacity
  }

  /** The books balance at every release of the lock. */
  lemma AccountedAtEveryRelease(capacity: nat, stopFirst: bool, steps: seq<Step>)
    requires IsRun(capacity, stopFirst, steps)
    requires !Execute(capacity, stopFirst, steps).intake.storing
    ensures Accounted(Execute(capacity, stopFirst, steps))
  {
    RunsKeepInv(capacity, stopFirst, steps);
    var c := Execute(capacity, stopFirst, steps);
    hide Execute, IsRun, Accounted, IntakeOk, WriterOk, Ordered;
    InvMeansAccounted(c);
  }

  /** When the worker has ended nothing is waiting and nothing is unfinished. */
  lemma EndedWorkerLeavesNothing(capacity: nat, steps: seq<Step>)
    requires IsRun(capacity, true, steps) && Execute(capacity, true, steps).writer.at.Done?
    ensures
      var c := Execute(capacity, true, steps);
      && c.intake.queue == [] && !c.intake.storing
      && c.intake.tally.enqueued == c.writer.written + c.writer.failedRecords
  {
    RunsKeepClosed(capacity, steps);
    RunsKeepInv(capacity, true, steps);
    AccountedAtEveryRelease(capacity, true, steps);
  }

  /** A summary that says complete is right, then and ever after: every attempt made before closing is in the
      file and flushed, in order, under exactly the ids 1..n. */
  lemma CompleteMeansDelivered(capacity: nat, stopFirst: bool, steps: seq<Step>)
    requires IsRun(capacity, stopFirst, steps)
    requires Execute(capacity, stopFirst, steps).writer.at == Done(true)
    ensures Delivered(Execute(capacity, stopFirst, steps))
  {
    RunsKeepInv(capacity, stopFirst, steps);
    hide Execute, IsRun, Delivered;
  }

  /** Past the last flush without an error: everything written is flushed, and the shutdown is marked clean. */
  ghost predicate FlushedAtEnd(w: Writer, s: Shutdown)
  {
    match w.at
    case Closing => w.writeError || w.flushed == w.written
    case Finishing => w.writeError || w.flushed == w.written
    case Summarising => w.writeError || (w.flushed == w.written && s.complete)
    case _ => true
  }

  lemma WorkKeepsFlushed(w: Writer, s: Shutdown, head: Option<Record>, stopFirst: bool, complete: bool, fortunate: bool)
    requires FlushedAtEnd(w, s) && LossOk(w.lost, w.failedRecords, w.writeError, w.at)
    ensures FlushedAtEnd(WorkOnWriter(w, head, stopFirst, s.requested, complete, fortunate), WorkOnShutdown(s, w.at, w.writeError))
  {
    var next := Next(w.at, head, stopFirst, s.requested, complete, fortunate);
    assert InDrain(w.at) ==> w.writeError;
    hide LossOk;
    match w.at
    case Flushed(_) =>
    case Draining(_) =>
    case Closing =>
    case Finishing =>
    case _ => assert !next.Closing? && !next.Finishing? && !next.Summarising?;
  }

  lemma {:induction false} RunsKeepFlushed(capacity: nat, stopFirst: bool, steps: seq<Step>)
    requires IsRun(capacity, stopFirst, steps)
    ensures var c := Execute(capacity, stopFirst, steps); FlushedAtEnd(c.writer, c.shutdown)
    decreases |steps|
  {
    if steps != [] {
      RunsKeepFlushed(capacity, stopFirst, Init(steps));
      RunsKeepInv(capacity, stopFirst, Init(steps));
      StepKeepsFlushed(Execute(capacity, stopFirst, Init(steps)), stopFirst, Last(steps));
    }
  }

  lemma StepKeepsFlushed(c: Collector, stopFirst: bool, step: Step)
    requires Inv(c) && Enabled(c, step) && FlushedAtEnd(c.writer, c.shutdown)
    ensures var d := Apply(c, stopFirst, step); FlushedAtEnd(d.writer, d.shutdown)
  {
    hide IntakeOk, Ordered, CompleteOk, LinesOk;
    match step
    case Offer(_) =>
    case CountOffer =>
    case StopLocked =>
    case StopSet =>
    case StopTimesOut =>
    case Work(fortunate) =>
      hide WorkOnWriter, WorkOnShutdown, WorkOnIntake, IsComplete;
      WorkKeepsFlushed(c.writer, c.shutdown, Front(c.intake.queue), stopFirst, IsComplete(c), fortunate);
  }

  /** The summary's verdict, over every interleaving: complete if and only if no write, flush or close went
      wrong, no stop caller has timed out, and no attempt was refused. */
  lemma CompleteIffNothingWentWrong(capacity: nat, steps: seq<Step>)
    requires IsRun(capacity, true, steps) && Execute(capacity, true, steps).writer.at.Summarising?
    ensures
      var c := Execute(capacity, true, steps);
      IsComplete(c) <==> !c.writer.writeError && !c.shutdown.timedOut && c.intake.tally.attempted == c.intake.tally.enqueued
  {
    RunsKeepFlushed(capacity, true, steps);
    RunsKeepClosed(capacity, steps);
    RunsKeepInv(capacity, true, steps);
    hide Execute, IsRun, Increasing, NumberedUpTo, NumberedFromOne;
    SummaryVerdict(Execute(capacity, true, steps));
  }

  lemma SummaryVerdict(c: Collector)
    requires Inv(c) && Drains(c) && FlushedAtEnd(c.writer, c.shutdown) && c.writer.at.Summarising?
    ensures IsComplete(c) <==>
            !c.writer.writeError && !c.shutdown.timedOut && c.intake.tally.attempted == c.intake.tally.enqueued
  {
    hide Increasing, NumberedUpTo, NumberedFromOne;
    var i, w := c.intake, c.writer;
    assert !i.storing && i.queue == [];
    assert |i.accepted| == |w.file| + |w.lost|;
  }

  lemma Extend(capacity: nat, stopFirst: bool, steps: seq<Step>, step: Step) returns (longer: seq<Step>)
    requires IsRun(capacity, stopFirst, steps) && Enabled(Execute(capacity, stopFirst, steps), step)
    ensures IsRun(capacity, stopFirst, longer)
    ensures Execute(capacity, stopFirst, longer) == Apply(Execute(capacity, stopFirst, steps), stopFirst, step)
  {
    longer := steps + [step];
    assert Init(longer) == steps && Last(longer) == step;
  }

  lemma SlippedIn() returns (steps: seq<Step>)
    ensures IsRun(1, false, steps)
    ensures
      var c := Execute(1, false, steps);
      c.writer.at == SawFirst && c.shutdown.callers == 0 && c.intake.queue != [] && !c.intake.storing
  {
    steps := Extend(1, false, [], Work(true));
    var c := Execute(1, false, steps);
    assert c.writer.at == SawFirst && !c.writer.writeError && c.shutdown.callers == 0;
    assert c.intake == Start(1).intake;
    hide Execute, IsRun;
    steps := Extend(1, false, steps, Offer("r"));
    steps := Extend(1, false, steps, CountOffer);
  }

  lemma StrandedPrefix() returns (steps: seq<Step>)
    ensures IsRun(1, false, steps)
    ensures
      var c := Execute(1, false, steps);
      c.writer.at == SawFirst && c.shutdown.requested && c.intake.queue != [] && !c.intake.storing
  {
    steps := SlippedIn();
    hide Execute, IsRun;
    steps := Extend(1, false, steps, StopLocked);
    steps := Extend(1, false, steps, StopSet);
  }

  /** One fortunate step of the worker, as far as the counterexample needs it. */
  lemma Advance(capacity: nat, steps: seq<Step>, from: Position, to: Position) returns (longer: seq<Step>)
    requires IsRun(capacity, false, steps) && !from.Done?
    requires
      var c := Execute(capacity, false, steps);
      c.writer.at == from && !c.intake.storing && c.shutdown.requested && c.intake.queue != []
    requires forall head: Record, complete ::
      Next(from, Some(head), false, true, complete, true) == to || (to.Done? && Next(from, Some(head), false, true, complete, true).Done?)
    requires from != AtGet && !from.Draining?
    ensures IsRun(capacity, false, longer)
    ensures
      var c := Execute(capacity, false, longer);
      && (c.writer.at == to || (c.writer.at.Done? && to.Done?))
      && !c.intake.storing && c.shutdown.requested && c.intake.queue != []
  {
    longer := Extend(capacity, false, steps, Work(true));
  }

  lemma StrandedClosing() returns (steps: seq<Step>)
    ensures IsRun(1, false, steps)
    ensures
      var c := Execute(1, false, steps);
      c.writer.at == Closing && c.shutdown.requested && c.intake.queue != [] && !c.intake.storing
  {
    steps := StrandedPrefix();
    hide Execute, IsRun;
    steps := Advance(1, steps, SawFirst, Flushing(true));
    steps := Advance(1, steps, Flushing(true), Flushed(true));
    steps := Advance(1, steps, Flushed(true), Closing);
  }

  /** Testing the queue first lets a record slip in between the two tests: the worker ends and leaves it. */
  lemma QueueFirstStrandsARecord() returns (steps: seq<Step>)
    ensures IsRun(1, false, steps)
    ensures Execute(1, false, steps).writer.at.Done? && Execute(1, false, steps).intake.queue != []
  {
    steps := StrandedClosing();
    hide Execute, IsRun;
    steps := Advance(1, steps, Closing, Finishing);
    steps := Advance(1, steps, Finishing, Summarising);
    steps := Advance(1, steps, Summarising, Done(true));
  }

  ghost predicate EndsEmpty(capacity: nat, stopFirst: bool, steps: seq<Step>)
  {
    IsRun(capacity, stopFirst, steps) && Execute(capacity, stopFirst, steps).writer.at.Done? ==>
      Execute(capacity, stopFirst, steps).intake.queue == []
  }

  /** The order of the two loop tests is what makes the drain complete. */
  lemma DrainsIffStopIsReadFirst(stopFirst: bool)
    ensures stopFirst <==> forall capacity, steps :: EndsEmpty(capacity, stopFirst, steps)
  {
    if stopFirst {
      forall capacity, steps ensures EndsEmpty(capacity, true, steps) {
        if IsRun(capacity, true, steps) && Execute(capacity, true, steps).writer.at.Done? {
          EndedWorkerLeavesNothing(capacity, steps);
        }
      }
    } else {
      var steps := QueueFirstStrandsARecord();
      assert !EndsEmpty(1, false, steps);
    }
  }
}

/** The collector's fields told by the steps of a run alone: what was offered, what each offer met, when the worker
    failed and when stop was called. */
module JsonlHistory {
  import opened Seqs
  import opened JsonlProtocol
  import opened JsonlAccounting

  /** What an offer meets: an earlier error hides a closed intake, which hides a full queue. */
  datatype Met = Error | Shut | NoRoom | Room

  function MetBy(c: Collector): Met
  {
    if c.writer.writeError then Error
    else if !c.intake.accepting then Shut
    else if |c.intake.queue| < c.intake.capacity then Room
    else NoRoom
  }

  function Offers(steps: seq<Step>): nat
  {
    if steps == [] then 0 else Offers(Init(steps)) + if Last(steps).Offer? then 1 else 0
  }

  /** The offers of a run that met one condition. */
  ghost function OffersThatMet(capacity: nat, stopFirst: bool, steps: seq<Step>, met: Met): nat
    requires IsRun(capacity, stopFirst, steps)
  {
    if steps == [] then 0
    else
      OffersThatMet(capacity, stopFirst, Init(steps), met)
      + if Last(steps).Offer? && MetBy(Execute(capacity, stopFirst, Init(steps))) == met then 1 else 0
  }

  /** The offers that met room, in order: each payload under the number of its offer. */
  ghost function Taken(capacity: nat, stopFirst: bool, steps: seq<Step>): seq<Record>
    requires IsRun(capacity, stopFirst, steps)
  {
    if steps == [] then []
    else
      Taken(capacity, stopFirst, Init(steps))
      + if Last(steps).Offer? && MetBy(Execute(capacity, stopFirst, Init(steps))) == Room
        then [Record(Offers(steps), Last(steps).payload)] else []
  }

  /** The longest queue at the moment at which a request thread counted its record. */
  ghost function Highest(capacity: nat, stopFirst: bool, steps: seq<Step>): nat
    requires IsRun(capacity, stopFirst, steps)
  {
    if steps == [] then 0
    else if Last(steps).CountOffer?
    then Max(Highest(capacity, stopFirst, Init(steps)), |Execute(capacity, stopFirst, Init(steps)).intake.queue|)
    else Highest(capacity, stopFirst, Init(steps))
  }

  predicate Stops(steps: seq<Step>) { exists i :: 0 <= i < |steps| && steps[i].StopLocked? }

  /** The worker has taken a step from a failing or from the finishing position. */
  ghost predicate WorkedAt(capacity: nat, stopFirst: bool, steps: seq<Step>, failing: bool)
    requires IsRun(capacity, stopFirst, steps)
  {
    steps != [] && (
      WorkedAt(capacity, stopFirst, Init(steps), failing) ||
      (Last(steps).Work? && IsAt(Execute(capacity, stopFirst, Init(steps)).writer.at, failing)))
  }

  predicate IsAt(at: Position, failing: bool) { if failing then at.Failing? else at.Finishing? }

  ghost predicate CountersTold(capacity: nat, stopFirst: bool, steps: seq<Step>)
    requires IsRun(capacity, stopFirst, steps)
  {
    var i, t := Execute(capacity, stopFirst, steps).intake, Execute(capacity, stopFirst, steps).intake.tally;
    && i.capacity == capacity
    && t.attempted == Offers(steps)
    && t.droppedFailed == OffersThatMet(capacity, stopFirst, steps, Error)
    && t.droppedClosed == OffersThatMet(capacity, stopFirst, steps, Shut)
    && t.droppedFull == OffersThatMet(capacity, stopFirst, steps, NoRoom)
    && t.enqueued + Pending(i.storing) == OffersThatMet(capacity, stopFirst, steps, Room)
    && t.highWatermark == Highest(capacity, stopFirst, steps)
    && i.accepted == Taken(capacity, stopFirst, steps)
  }

  function StateOf(failed: bool, finished: bool, stopped: bool): RunState
  {
    if failed then Broken else if finished then Ended else if stopped then Stopping else Running
  }

  predicate InWrite(at: Position) { at.Writing? || at.Wrote? || at.WriteFailed? || at.Releasing? }

  function One(b: bool): nat { if b then 1 else 0 }

  /** One step, told by what it is and by what an offer met. */
  ghost predicate StepTells(c: Collector, step: Step, d: Collector)
  {
    var i, t, j, u := c.intake, c.intake.tally, d.intake, d.intake.tally;
    && j.capacity == i.capacity
    && u.attempted == t.attempted + One(step.Offer?)
    && u.droppedFailed == t.droppedFailed + One(step.Offer? && MetBy(c) == Error)
    && u.droppedClosed == t.droppedClosed + One(step.Offer? && MetBy(c) == Shut)
    && u.droppedFull == t.droppedFull + One(step.Offer? && MetBy(c) == NoRoom)
    && u.enqueued + Pending(j.storing) == t.enqueued + Pending(i.storing) + One(step.Offer? && MetBy(c) == Room)
    && u.highWatermark == (if step.CountOffer? then Max(t.highWatermark, |i.queue|) else t.highWatermark)
    && j.accepted == i.accepted + (if step.Offer? && MetBy(c) == Room then [Record(t.attempted + 1, step.payload)] else [])
  }

  lemma WorkLeavesTheBooks(c: Collector, stopFirst: bool, fortunate: bool)
    ensures
      var i, j := c.intake, WorkStep(c, stopFirst, fortunate).intake;
      j.capacity == i.capacity && j.tally == i.tally && j.storing == i.storing && j.accepted == i.accepted
  {
    hide Effect, Next, IsComplete, WorkOnShutdown;
  }

  lemma StepIsTold(c: Collector, stopFirst: bool, step: Step)
    requires Enabled(c, step)
    ensures StepTells(c, step, Apply(c, stopFirst, step))
  {
    if step.Work? { WorkLeavesTheBooks(c, stopFirst, step.fortunate); }
    hide WorkStep, IsComplete;
  }

  /** The books by the steps: every counter is the number of offers that met its reason, and the accepted records
      are, in order, the payloads of the offers that met an open intake with room, numbered by their offers. */
  lemma {:induction false} CountersAreTold(capacity: nat, stopFirst: bool, steps: seq<Step>)
    requires IsRun(capacity, stopFirst, steps)
    ensures CountersTold(capacity, stopFirst, steps)
    decreases |steps|
  {
    if steps != [] {
      hide Apply, Enabled, MetBy;
      CountersAreTold(capacity, stopFirst, Init(steps));
      StepIsTold(Execute(capacity, stopFirst, Init(steps)), stopFirst, Last(steps));
    }
  }

  ghost predicate StatusIs(c: Collector, failed: bool, finished: bool, stopped: bool)
  {
    && c.writer.writeError == failed
    && c.intake.accepting == !(stopped || failed || finished)
    && c.shutdown.state == StateOf(failed, finished, stopped)
    && c.writer.inFlight == One(InWrite(c.writer.at))
    && finished == AtEnd(c.writer.at)
  }

  lemma WorkKeepsInFlight(w: Writer, head: Option<Record>, stopFirst: bool, requested: bool, complete: bool,
      fortunate: bool)
    requires w.inFlight == One(InWrite(w.at))
    ensures
      var w', to := Effect(w, fortunate), Next(w.at, head, stopFirst, requested, complete, fortunate);
      w'.inFlight == One(InWrite(to)) && w'.writeError == (w.writeError || w.at.Failing?)
  {
    match w.at
    case AtLoop =>
    case SawFirst =>
    case AtGet =>
    case Got(_) =>
    case Writing(_) =>
    case Wrote =>
    case WriteFailed(_) =>
    case Releasing(_) =>
    case AtTimer =>
    case Flushing(_) =>
    case Flushed(_) =>
    case Failing(_) =>
    case Draining(_) =>
    case Drained(_, _) =>
    case Closing =>
    case Finishing =>
    case Summarising =>
    case Done(_) =>
  }

  lemma WorkReachesTheEnd(w: Writer, head: Option<Record>, stopFirst: bool, requested: bool, complete: bool,
      fortunate: bool)
    ensures
      var to := Next(w.at, head, stopFirst, requested, complete, fortunate);
      AtEnd(to) <==> AtEnd(w.at) || w.at.Finishing?
  {
    match w.at
    case AtLoop =>
    case SawFirst =>
    case AtGet =>
    case Got(_) =>
    case Writing(_) =>
    case Wrote =>
    case WriteFailed(_) =>
    case Releasing(_) =>
    case AtTimer =>
    case Flushing(_) =>
    case Flushed(_) =>
    case Failing(_) =>
    case Draining(_) =>
    case Drained(_, _) =>
    case Closing =>
    case Finishing =>
    case Summarising =>
    case Done(_) =>
  }

  lemma WorkKeepsState(i: Intake, s: Shutdown, at: Position, failed: bool, finished: bool, stopped: bool)
    requires i.accepting == !(stopped || failed || finished) && s.state == StateOf(failed, finished, stopped)
    ensures
      var f, e := failed || at.Failing?, finished || at.Finishing?;
      && WorkOnIntake(i, at).accepting == !(stopped || f || e)
      && WorkOnShutdown(s, at, failed).state == StateOf(f, e, stopped)
  {}

  lemma WorkKeepsStatus(c: Collector, stopFirst: bool, fortunate: bool, failed: bool, finished: bool, stopped: bool)
    requires Enabled(c, Work(fortunate)) && StatusIs(c, failed, finished, stopped)
    ensures StatusIs(WorkStep(c, stopFirst, fortunate), failed || c.writer.at.Failing?, finished || c.writer.at.Finishing?, stopped)
  {
    var head, complete := Front(c.intake.queue), IsComplete(c);
    WorkKeepsInFlight(c.writer, head, stopFirst, c.shutdown.requested, complete, fortunate);
    WorkReachesTheEnd(c.writer, head, stopFirst, c.shutdown.requested, complete, fortunate);
    WorkKeepsState(c.intake, c.shutdown, c.writer.at, failed, finished, stopped);
    hide Effect, Next, WorkOnIntake, WorkOnShutdown, IsComplete, StateOf, InWrite, AtEnd;
  }

  lemma StepKeepsStatus(c: Collector, stopFirst: bool, step: Step, failed: bool, finished: bool, stopped: bool)
    requires Enabled(c, step) && StatusIs(c, failed, finished, stopped)
    ensures StatusIs(Apply(c, stopFirst, step), failed || (step.Work? && c.writer.at.Failing?),
                     finished || (step.Work? && c.writer.at.Finishing?), stopped || step.StopLocked?)
  {
    if step.Work? { WorkKeepsStatus(c, stopFirst, step.fortunate, failed, finished, stopped); }
    hide WorkStep, IsComplete;
  }

  /** The state fields by the steps: the error flag, the open intake, the state and the in-flight count say what has
      happened and where the worker is. */
  lemma {:induction false} StatusIsTold(capacity: nat, stopFirst: bool, steps: seq<Step>)
    requires IsRun(capacity, stopFirst, steps)
    ensures StatusIs(Execute(capacity, stopFirst, steps), WorkedAt(capacity, stopFirst, steps, true),
                     WorkedAt(capacity, stopFirst, steps, false), Stops(steps))
    decreases |steps|
  {
    if steps == [] {
      assert StatusIs(Start(capacity), false, false, false);
    } else {
      hide Apply, Enabled, StatusIs;
      var before, step := Init(steps), Last(steps);
      StatusIsTold(capacity, stopFirst, before);
      StopsMore(before, step);
      assert steps == before + [step];
      StepKeepsStatus(Execute(capacity, stopFirst, before), stopFirst, step, WorkedAt(capacity, stopFirst, before, true),
                      WorkedAt(capacity, stopFirst, before, false), Stops(before));
    }
  }

  lemma StopsMore(before: seq<Step>, step: Step)
    ensures Stops(before + [step]) <==> Stops(before) || step.StopLocked?
  {
    var steps := before + [step];
    if Stops(before) {
      var i :| 0 <= i < |before| && before[i].StopLocked?;
      assert steps[i].StopLocked?;
    }
    if step.StopLocked? { assert steps[|before|].StopLocked?; }
  }

  function IsStopLocked(): Step -> bool { (s: Step) => s.StopLocked? }

  function IsStopSet(): Step -> bool { (s: Step) => s.StopSet? }

  function IsTimeout(): Step -> bool { (s: Step) => s.StopTimesOut? }

  /** The stop flag is set, the time has run out, and so many callers are between the lock and the flag. */
  ghost predicate FlagsAre(s: Shutdown, locked: nat, set_: nat, timeouts: nat)
  {
    s.requested == (set_ > 0) && s.timedOut == (timeouts > 0) && s.callers + set_ == locked
  }

  lemma StepKeepsFlags(c: Collector, stopFirst: bool, step: Step, locked: nat, set_: nat, timeouts: nat)
    requires Enabled(c, step) && FlagsAre(c.shutdown, locked, set_, timeouts)
    ensures FlagsAre(Apply(c, stopFirst, step).shutdown, locked + One(step.StopLocked?), set_ + One(step.StopSet?),
                     timeouts + One(step.StopTimesOut?))
  {
    hide WorkOnIntake, WorkOnWriter, OfferStep, CountOfferStep, IsComplete;
  }

  /** The stop flags by the steps. */
  lemma {:induction false} FlagsAreTold(capacity: nat, stopFirst: bool, steps: seq<Step>)
    requires IsRun(capacity, stopFirst, steps)
    ensures FlagsAre(Execute(capacity, stopFirst, steps).shutdown, Count(steps, IsStopLocked()), Count(steps, IsStopSet()),
                     Count(steps, IsTimeout()))
    decreases |steps|
  {
    if steps != [] {
      hide Apply, Enabled, FlagsAre;
      var before, step := Init(steps), Last(steps);
      FlagsAreTold(capacity, stopFirst, before);
      StepKeepsFlags(Execute(capacity, stopFirst, before), stopFirst, step, Count(before, IsStopLocked()),
                     Count(before, IsStopSet()), Count(before, IsTimeout()));
    }
  }

  predicate IsFallible(at: Position) { at.Writing? || at.Flushing? || at.Closing? }

  /** A write, a flush or the close of the file has failed. */
  ghost predicate Misfortune(capacity: nat, stopFirst: bool, steps: seq<Step>)
    requires IsRun(capacity, stopFirst, steps)
  {
    steps != [] && (
      Misfortune(capacity, stopFirst, Init(steps)) ||
      (Last(steps) == Work(false) && IsFallible(Execute(capacity, stopFirst, Init(steps)).writer.at)))
  }

  predicate IsFailure(at: Position) { at.WriteFailed? || at == Releasing(false) || at.Failing? }

  /** The error is recorded or on its way to being recorded. */
  predicate InError(w: Writer) { w.writeError || IsFailure(w.at) }

  lemma WorkLeadsToFailure(at: Position, head: Option<Record>, stopFirst: bool, requested: bool, complete: bool,
      fortunate: bool)
    requires !at.Done?
    ensures IsFailure(Next(at, head, stopFirst, requested, complete, fortunate)) || at.Failing? <==>
      IsFailure(at) || (!fortunate && IsFallible(at))
  {
    match at
    case AtLoop =>
    case SawFirst =>
    case AtGet =>
    case Got(_) =>
    case Writing(_) =>
    case Wrote =>
    case WriteFailed(_) =>
    case Releasing(_) =>
    case AtTimer =>
    case Flushing(_) =>
    case Flushed(_) =>
    case Failing(_) =>
    case Draining(_) =>
    case Drained(_, _) =>
    case Closing =>
    case Finishing =>
    case Summarising =>
  }

  lemma WorkRecordsError(w: Writer, fortunate: bool)
    ensures Effect(w, fortunate).writeError == (w.writeError || w.at.Failing?)
  {}

  lemma WorkKeepsError(w: Writer, head: Option<Record>, stopFirst: bool, requested: bool, complete: bool,
      fortunate: bool)
    requires !w.at.Done?
    ensures
      InError(WorkOnWriter(w, head, stopFirst, requested, complete, fortunate)) <==>
      InError(w) || (!fortunate && IsFallible(w.at))
  {
    hide Next, Effect, IsFallible;
    WorkLeadsToFailure(w.at, head, stopFirst, requested, complete, fortunate);
    WorkRecordsError(w, fortunate);
  }

  lemma StepKeepsError(c: Collector, stopFirst: bool, step: Step)
    requires Enabled(c, step)
    ensures InError(Apply(c, stopFirst, step).writer) <==>
      InError(c.writer) || (step == Work(false) && IsFallible(c.writer.at))
  {
    if step.Work? {
      WorkKeepsError(c.writer, Front(c.intake.queue), stopFirst, c.shutdown.requested, IsComplete(c), step.fortunate);
    }
    hide WorkOnWriter, WorkOnIntake, WorkOnShutdown, IsComplete, OfferStep;
  }

  /** The collector breaks exactly on a failed write, flush or close. */
  lemma {:induction false} BreaksExactlyOnMisfortune(capacity: nat, stopFirst: bool, steps: seq<Step>)
    requires IsRun(capacity, stopFirst, steps)
    ensures Misfortune(capacity, stopFirst, steps) <==> InError(Execute(capacity, stopFirst, steps).writer)
    decreases |steps|
  {
    if steps != [] {
      hide Apply, Enabled, InError, IsFallible;
      BreaksExactlyOnMisfortune(capacity, stopFirst, Init(steps));
      StepKeepsError(Execute(capacity, stopFirst, Init(steps)), stopFirst, Last(steps));
    } else {
      assert !InError(Start(capacity).writer);
    }
  }

  /** A flush that is due makes everything written so far durable. */
  lemma DueFlushIsDurable(c: Collector, stopFirst: bool)
    requires c.writer.at.AtTimer?
    ensures
      var d := WorkStep(WorkStep(c, stopFirst, true), stopFirst, true);
      d.writer.durable == d.writer.file == c.writer.file && d.writer.at == Flushed(false)
  {
    hide WorkOnIntake, WorkOnShutdown, IsComplete;
  }

  /** What a summary that says complete means for the callers: the flushed file holds exactly the payloads that
      were offered while the intake was open, each under the number of its offer. */
  lemma CompleteFileHoldsTheOffers(capacity: nat, stopFirst: bool, steps: seq<Step>)
    requires IsRun(capacity, stopFirst, steps)
    requires Execute(capacity, stopFirst, steps).writer.at == Done(true)
    ensures Execute(capacity, stopFirst, steps).writer.durable == Taken(capacity, stopFirst, steps)
    ensures OffersThatMet(capacity, stopFirst, steps, Error) == OffersThatMet(capacity, stopFirst, steps, NoRoom) == 0
  {
    CountersAreTold(capacity, stopFirst, steps);
    CompleteMeansDelivered(capacity, stopFirst, steps);
    RunsKeepInv(capacity, stopFirst, steps);
    hide Execute, IsRun, Taken, OffersThatMet, Highest, Increasing, NumberedUpTo, NumberedFromOne;
  }
}

/** The stop ends the worker. */
module JsonlProgress {
  import opened Seqs
  import opened JsonlProtocol
  import opened JsonlHistory

  function Works(steps: seq<Step>): nat
  {
    if steps == [] then 0 else Works(Init(steps)) + One(Last(steps).Work?)
  }

  /** At most so many steps to the end from a position, besides those for the records still queued. */
  function Rank(at: Position, empty: bool): nat
  {
    match at
    case AtLoop => 11
    case SawFirst => 10
    case AtGet => if empty then 15 else 9
    case Got(_) => 18
    case Writing(_) => 17
    case Wrote => 16
    case WriteFailed(_) => 9
    case Releasing(ok) => if ok then 15 else 8
    case AtTimer => 14
    case Flushing(final) => if final then 8 else 13
    case Flushed(final) => if final then 6 else 12
    case Failing(origin) => if origin.FromLoop? then 7 else 4
    case Draining(origin) => if origin.FromLoop? then 6 else 3
    case Drained(origin, _) => if origin.FromLoop? then 7 else 4
    case Closing => 5
    case Finishing => 2
    case Summarising => 1
    case Done(_) => 0
  }

  function StepsLeft(queued: nat, at: Position): nat { 20 * queued + Rank(at, queued == 0) }

  ghost predicate IsStopped(c: Collector) { c.shutdown.requested && !c.intake.accepting }

  /** How many records a step takes from the queue. */
  function TakenFrom(at: Position, queued: nat): nat { One((at.AtGet? || at.Draining?) && queued > 0) }

  lemma WorkComesCloser(at: Position, queue: seq<Record>, stopFirst: bool, complete: bool, fortunate: bool)
    requires !at.Done?
    ensures
      var to := Next(at, Front(queue), stopFirst, true, complete, fortunate);
      StepsLeft(|queue| - TakenFrom(at, |queue|), to) < StepsLeft(|queue|, at)
  {
    match at
    case AtLoop =>
    case SawFirst =>
    case AtGet =>
    case Got(_) =>
    case Writing(_) =>
    case Wrote =>
    case WriteFailed(_) =>
    case Releasing(_) =>
    case AtTimer =>
    case Flushing(_) =>
    case Flushed(_) =>
    case Failing(_) =>
    case Draining(_) =>
    case Drained(_, _) =>
    case Closing =>
    case Finishing =>
    case Summarising =>
  }

  lemma WorkTakes(i: Intake, at: Position)
    ensures |WorkOnIntake(i, at).queue| == |i.queue| - TakenFrom(at, |i.queue|)
    ensures WorkOnIntake(i, at).accepting ==> i.accepting
  {}

  lemma WorkKeepsRequest(s: Shutdown, at: Position, writeError: bool)
    ensures WorkOnShutdown(s, at, writeError).requested == s.requested
  {}

  lemma StepComesCloser(c: Collector, stopFirst: bool, step: Step)
    requires Enabled(c, step) && IsStopped(c)
    ensures
      var d := Apply(c, stopFirst, step);
      IsStopped(d) && StepsLeft(|d.intake.queue|, d.writer.at) + One(step.Work?) <= StepsLeft(|c.intake.queue|, c.writer.at)
  {
    hide StepsLeft, Rank, Next, Effect, WorkOnIntake, WorkOnShutdown, IsComplete;
    if step.Work? {
      WorkComesCloser(c.writer.at, c.intake.queue, stopFirst, IsComplete(c), step.fortunate);
      WorkTakes(c.intake, c.writer.at);
      WorkKeepsRequest(c.shutdown, c.writer.at, c.writer.writeError);
    }
  }

  lemma RequestClosesIntake(capacity: nat, stopFirst: bool, steps: seq<Step>)
    requires IsRun(capacity, stopFirst, steps) && Execute(capacity, stopFirst, steps).shutdown.requested
    ensures IsStopped(Execute(capacity, stopFirst, steps))
  {
    FlagsAreTold(capacity, stopFirst, steps);
    StatusIsTold(capacity, stopFirst, steps);
    hide Execute, IsRun;
    if Count(steps, IsStopLocked()) > 0 { CountedMeansStops(steps); }
  }

  lemma {:induction false} CountedMeansStops(steps: seq<Step>)
    requires Count(steps, IsStopLocked()) > 0
    ensures Stops(steps)
  {
    if !Last(steps).StopLocked? {
      CountedMeansStops(Init(steps));
      var i :| 0 <= i < |Init(steps)| && Init(steps)[i].StopLocked?;
      assert steps[i].StopLocked?;
    }
  }

  lemma {:induction false} StoppedWorkerCounts(capacity: nat, stopFirst: bool, before: seq<Step>, after: seq<Step>)
    requires IsRun(capacity, stopFirst, before) && IsStopped(Execute(capacity, stopFirst, before))
    requires IsRun(capacity, stopFirst, before + after)
    ensures
      var c, d := Execute(capacity, stopFirst, before), Execute(capacity, stopFirst, before + after);
      && IsStopped(d)
      && StepsLeft(|d.intake.queue|, d.writer.at) + Works(after) <= StepsLeft(|c.intake.queue|, c.writer.at)
    decreases |after|
  {
    if after == [] {
      assert before + after == before;
    } else {
      hide Apply, Enabled, StepsLeft, IsStopped;
      var steps := before + after;
      assert Init(steps) == before + Init(after) && Last(steps) == Last(after);
      StoppedWorkerCounts(capacity, stopFirst, before, Init(after));
      StepComesCloser(Execute(capacity, stopFirst, Init(steps)), stopFirst, Last(steps));
    }
  }

  /** From the stop request on the worker takes a bounded number of steps, whatever fails and whatever the other
      threads do; and as long as it has not ended, only a request thread inside the lock can hold it up. */
  lemma StopEndsTheWorker(capacity: nat, stopFirst: bool, before: seq<Step>, after: seq<Step>)
    requires IsRun(capacity, stopFirst, before) && Execute(capacity, stopFirst, before).shutdown.requested
    requires IsRun(capacity, stopFirst, before + after)
    ensures
      var c, d := Execute(capacity, stopFirst, before), Execute(capacity, stopFirst, before + after);
      && Works(after) <= 20 * |c.intake.queue| + 18
      && (d.writer.at.Done? || d.intake.storing || Enabled(d, Work(true)))
  {
    RequestClosesIntake(capacity, stopFirst, before);
    StoppedWorkerCounts(capacity, stopFirst, before, after);
    hide Execute, IsRun, Works, IsStopped;
  }
}
