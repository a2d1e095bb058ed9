/** A condition variable as its users see it: the threads blocked in wait, and the threads released by
    a notification or a spurious wakeup that have not yet re-read their predicate under the lock. */
module ConditionVariable {
  type Thread = nat

  datatype CondVar = CondVar(sleeping: set<Thread>, woken: set<Thread>) {
    ghost predicate Valid() { sleeping !! woken }
  }

  ghost predicate CanNotify(c: CondVar, wake: Thread)
  {
    c.sleeping != {} ==> wake in c.sleeping
  }

  /** `wake` is the scheduler's choice among the sleepers. */
  function NotifyOne(c: CondVar, wake: Thread): (r: CondVar)
    ensures c.Valid() ==> r.Valid() && r.sleeping + r.woken == c.sleeping + c.woken
    ensures c.sleeping == {} ==> r == c
    ensures c.Valid() && wake in c.sleeping ==> |r.woken| == |c.woken| + 1
  {
    if wake in c.sleeping then CondVar(c.sleeping - {wake}, c.woken + {wake}) else c
  }

  function NotifyAll(c: CondVar): (r: CondVar)
    ensures r.Valid() && r.sleeping == {} && r.woken == c.sleeping + c.woken
  {
    CondVar({}, c.woken + c.sleeping)
  }

  function Sleep(c: CondVar, t: Thread): (r: CondVar)
    ensures c.Valid() && t !in c.woken ==> r.Valid()
    ensures r.woken == c.woken && r.sleeping == c.sleeping + {t}
  {
    c.(sleeping := c.sleeping + {t})
  }

  /** A woken thread reacquires the lock. */
  function Resume(c: CondVar, t: Thread): (r: CondVar)
    ensures c.Valid() ==> r.Valid()
    ensures r.sleeping == c.sleeping && t !in r.woken
    ensures t in c.woken ==> |r.woken| == |c.woken| - 1
  {
    c.(woken := c.woken - {t})
  }
}

/** Any number of threads using one queue through its mutex and its two condition variables. */
module QueueMonitor {
  import opened FeatureQueue
  import opened ConditionVariable

  /** Finished calls: accepted-or-dropped TryPush calls, accepted WaitPush calls, popped items, and the
      number of items thrown away by Clear. */
  datatype Log<T> = Log(tryPushes: nat, waitPushes: nat, popped: seq<Queued<T>>, cleared: nat)

  /** `closers` have set the closed flag and still have to notify both condition variables,
      `halfClosers` still have to notify `notFull`, `clearers` emptied the queue and still have to
      notify `notFull`: Close and Clear notify after they release the lock. `itemOf` is the argument of
      every WaitPush in progress. */
  datatype Monitor<T> = Monitor(
    q: QueueState<T>,
    notEmpty: CondVar,
    notFull: CondVar,
    itemOf: map<Thread, T>,
    closers: set<Thread>,
    halfClosers: set<Thread>,
    clearers: set<Thread>,
    log: Log<T>)
  {
    ghost function Busy(): set<Thread> {
      notEmpty.sleeping + notEmpty.woken + notFull.sleeping + notFull.woken + closers + halfClosers + clearers
    }
  }

  datatype Step<T> =
    | TryPush(item: T, wake: Thread)
    | EnterWaitPush(t: Thread, item: T, wake: Thread)
    | ResumeWaitPush(t: Thread, wake: Thread)
    | TryPop(wake: Thread)
    | EnterWaitPop(t: Thread, wake: Thread)
    | ResumeWaitPop(t: Thread, wake: Thread)
    | SpuriousConsumer(t: Thread)
    | SpuriousProducer(t: Thread)
    | CloseFlag(t: Thread)
    | CloseNotifyNotEmpty(t: Thread)
    | CloseNotifyNotFull(t: Thread)
    | ClearLocked(t: Thread)
    | ClearNotify(t: Thread)

  function Start<T>(capacity: nat): Monitor<T>
  {
    Monitor(Fresh(capacity), CondVar({}, {}), CondVar({}, {}), map[], {}, {}, {}, Log(0, 0, [], 0))
  }

  ghost predicate Enabled<T>(m: Monitor<T>, step: Step<T>)
  {
    match step
    case TryPush(_, wake) => CanNotify(m.notEmpty, wake)
    case EnterWaitPush(t, _, wake) => t !in m.Busy() && CanNotify(m.notEmpty, wake)
    case ResumeWaitPush(t, wake) => t in m.notFull.woken && CanNotify(m.notEmpty, wake)
    case TryPop(wake) => CanNotify(m.notFull, wake)
    case EnterWaitPop(t, wake) => t !in m.Busy() && CanNotify(m.notFull, wake)
    case ResumeWaitPop(t, wake) => t in m.notEmpty.woken && CanNotify(m.notFull, wake)
    case SpuriousConsumer(t) => t in m.notEmpty.sleeping
    case SpuriousProducer(t) => t in m.notFull.sleeping
    case CloseFlag(t) => t !in m.Busy()
    case CloseNotifyNotEmpty(t) => t in m.closers
    case CloseNotifyNotFull(t) => t in m.halfClosers
    case ClearLocked(t) => t !in m.Busy()
    case ClearNotify(t) => t in m.clearers
  }

  /** A push that the queue accepts: append, then notify one consumer. */
  function PushOne<T>(m: Monitor<T>, item: T, wake: Thread): Monitor<T>
  {
    m.(q := Enqueue(m.q, item), notEmpty := NotifyOne(m.notEmpty, wake))
  }

  /** A pop from a non-empty queue: remove the front, then notify one producer. */
  function PopOne<T>(m: Monitor<T>, wake: Thread): Monitor<T>
    requires m.q.queue != []
  {
    m.(q := Dequeue(m.q), notFull := NotifyOne(m.notFull, wake),
       log := m.log.(popped := m.log.popped + [m.q.queue[0]]))
  }

  function AfterTryPush<T>(m: Monitor<T>, item: T, wake: Thread): Monitor<T>
  {
    var counted := m.(log := m.log.(tryPushes := m.log.tryPushes + 1));
    if Refuses(m.q) then counted.(q := TryPushStep(m.q, item)) else PushOne(counted, item, wake)
  }

  /** The locked body of WaitPush, for a thread that is neither asleep nor woken. */
  function AttemptWaitPush<T>(m: Monitor<T>, t: Thread, item: T, wake: Thread): Monitor<T>
  {
    if m.q.closed then m
    else if m.q.IsFull() then m.(notFull := Sleep(m.notFull, t), itemOf := m.itemOf[t := item])
    else PushOne(m.(log := m.log.(waitPushes := m.log.waitPushes + 1)), item, wake)
  }

  /** The locked body of WaitPop, for a thread that is neither asleep nor woken. */
  function AttemptWaitPop<T>(m: Monitor<T>, t: Thread, wake: Thread): Monitor<T>
  {
    if m.q.queue != [] then PopOne(m, wake)
    else if m.q.closed then m
    else m.(notEmpty := Sleep(m.notEmpty, t))
  }

  /** While a consumer sleeps on an open queue, every waiting item has a woken consumer of its own.
      Once Close has notified, no consumer sleeps on the closed queue. */
  ghost predicate ConsumersServed<T>(m: Monitor<T>)
  {
    && m.notEmpty.Valid()
    && (m.notEmpty.sleeping != {} && !m.q.closed ==> |m.q.queue| <= |m.notEmpty.woken|)
    && (m.q.closed && m.closers == {} ==> m.notEmpty.sleeping == {})
  }

  /** While a producer sleeps on an open queue, every free slot has a woken producer of its own, except
      in the window in which a Clear has emptied the queue and not yet notified. */
  ghost predicate ProducersServed<T>(m: Monitor<T>)
  {
    && m.notFull.Valid()
    && m.notFull.sleeping + m.notFull.woken <= m.itemOf.Keys
    && (m.notFull.sleeping != {} && !m.q.closed && m.clearers == {} ==>
          m.q.capacity - |m.q.queue| <= |m.notFull.woken|)
    && (m.q.closed && m.closers == {} && m.halfClosers == {} ==> m.notFull.sleeping == {})
  }

  ghost predicate Accounted<T>(m: Monitor<T>)
  {
    && m.log.tryPushes + m.log.waitPushes == |m.q.accepted| + m.q.droppedCount
    && |m.q.removed| == |m.log.popped| + m.log.cleared
    && (m.log.cleared == 0 ==> m.log.popped == m.q.removed)
  }

  ghost predicate Inv<T>(m: Monitor<T>)
  {
    && m.q.Valid() && ConsumersServed(m) && ProducersServed(m) && Accounted(m)
    && (m.closers != {} || m.halfClosers != {} ==> m.q.closed)
  }

  function Apply<T>(m: Monitor<T>, step: Step<T>): Monitor<T>
  {
    match step
    case TryPush(item, wake) => AfterTryPush(m, item, wake)
    case EnterWaitPush(t, item, wake) => AttemptWaitPush(m, t, item, wake)
    case ResumeWaitPush(t, wake) =>
      if t in m.itemOf then AttemptWaitPush(m.(notFull := Resume(m.notFull, t)), t, m.itemOf[t], wake) else m
    case TryPop(wake) => if m.q.queue == [] then m else PopOne(m, wake)
    case EnterWaitPop(t, wake) => AttemptWaitPop(m, t, wake)
    case ResumeWaitPop(t, wake) => AttemptWaitPop(m.(notEmpty := Resume(m.notEmpty, t)), t, wake)
    case SpuriousConsumer(t) => m.(notEmpty := NotifyOne(m.notEmpty, t))
    case SpuriousProducer(t) => m.(notFull := NotifyOne(m.notFull, t))
    case CloseFlag(t) => m.(q := m.q.(closed := true), closers := m.closers + {t})
    case CloseNotifyNotEmpty(t) =>
      m.(closers := m.closers - {t}, halfClosers := m.halfClosers + {t}, notEmpty := NotifyAll(m.notEmpty))
    case CloseNotifyNotFull(t) => m.(halfClosers := m.halfClosers - {t}, notFull := NotifyAll(m.notFull))
    case ClearLocked(t) =>
      m.(q := ClearStep(m.q), clearers := m.clearers + {t},
         log := m.log.(cleared := m.log.cleared + |m.q.queue|))
    case ClearNotify(t) => m.(clearers := m.clearers - {t}, notFull := NotifyAll(m.notFull))
  }

  lemma PushServesConsumers<T>(m: Monitor<T>, item: T, wake: Thread)
    requires m.q.Valid() && ConsumersServed(m) && CanNotify(m.notEmpty, wake)
    requires !Refuses(m.q)
    ensures PushOne(m, item, wake).q.Valid() && ConsumersServed(PushOne(m, item, wake))
  {
    EnqueueKeepsValid(m.q, item);
  }

  /** `m` is the state in which the popping thread holds the lock and is in no wait set. */
  lemma PopKeepsInv<T>(m: Monitor<T>, wake: Thread)
    requires m.q.Valid() && m.q.queue != [] && m.notEmpty.Valid()
    requires m.notEmpty.sleeping != {} && !m.q.closed ==> |m.q.queue| <= |m.notEmpty.woken| + 1
    requires m.q.closed && m.closers == {} ==> m.notEmpty.sleeping == {}
    requires ProducersServed(m) && Accounted(m) && CanNotify(m.notFull, wake)
    requires m.closers != {} || m.halfClosers != {} ==> m.q.closed
    ensures Inv(PopOne(m, wake))
  {
    DequeueKeepsValid(m.q);
  }

  lemma WaitPushKeepsInv<T>(m: Monitor<T>, t: Thread, item: T, wake: Thread)
    requires m.q.Valid() && ConsumersServed(m) && Accounted(m) && CanNotify(m.notEmpty, wake)
    requires m.closers != {} || m.halfClosers != {} ==> m.q.closed
    requires m.notFull.Valid() && t !in m.notFull.sleeping + m.notFull.woken
    requires m.notFull.sleeping + m.notFull.woken <= m.itemOf.Keys
    requires m.notFull.sleeping != {} && !m.q.closed && m.clearers == {} ==>
               m.q.capacity - |m.q.queue| <= |m.notFull.woken| + 1
    requires m.q.closed && m.closers == {} && m.halfClosers == {} ==> m.notFull.sleeping == {}
    ensures Inv(AttemptWaitPush(m, t, item, wake))
  {
    if !Refuses(m.q) {
      PushServesConsumers(m.(log := m.log.(waitPushes := m.log.waitPushes + 1)), item, wake);
    }
  }

  lemma TryPushKeepsInv<T>(m: Monitor<T>, item: T, wake: Thread)
    requires Inv(m) && CanNotify(m.notEmpty, wake)
    ensures Inv(AfterTryPush(m, item, wake)) && AfterTryPush(m, item, wake).q.capacity == m.q.capacity
  {
    if !Refuses(m.q) {
      PushServesConsumers(m.(log := m.log.(tryPushes := m.log.tryPushes + 1)), item, wake);
    }
  }

  lemma PushStepKeepsInv<T>(m: Monitor<T>, step: Step<T>)
    requires Inv(m) && Enabled(m, step) && (step.TryPush? || step.EnterWaitPush? || step.ResumeWaitPush?)
    ensures Inv(Apply(m, step)) && Apply(m, step).q.capacity == m.q.capacity
  {
    match step
    case TryPush(item, wake) => TryPushKeepsInv(m, item, wake);
    case EnterWaitPush(t, item, wake) => WaitPushKeepsInv(m, t, item, wake);
    case ResumeWaitPush(t, wake) =>
      WaitPushKeepsInv(m.(notFull := Resume(m.notFull, t)), t, m.itemOf[t], wake);
    case _ =>
  }

  lemma PopStepKeepsInv<T>(m: Monitor<T>, step: Step<T>)
    requires Inv(m) && Enabled(m, step) && (step.TryPop? || step.EnterWaitPop? || step.ResumeWaitPop?)
    ensures Inv(Apply(m, step)) && Apply(m, step).q.capacity == m.q.capacity
  {
    if m.q.queue != [] {
      PopKeepsInv(if step.ResumeWaitPop? then m.(notEmpty := Resume(m.notEmpty, step.t)) else m, step.wake);
    }
  }

  /** Every step of every thread keeps the invariant. */
  lemma StepKeepsInv<T>(m: Monitor<T>, step: Step<T>)
    requires Inv(m) && Enabled(m, step)
    ensures Inv(Apply(m, step)) && Apply(m, step).q.capacity == m.q.capacity
  {
    if step.TryPush? || step.EnterWaitPush? || step.ResumeWaitPush? {
      PushStepKeepsInv(m, step);
    } else if step.TryPop? || step.EnterWaitPop? || step.ResumeWaitPop? {
      PopStepKeepsInv(m, step);
    } else if step.ClearLocked? {
      ClearKeepsValid(m.q);
    }
  }

  /** The state after a sequence of steps from a fresh queue. */
  function Execute<T>(capacity: nat, steps: seq<Step<T>>): Monitor<T>
  {
    if steps == [] then Start(capacity)
    else Apply(Execute(capacity, steps[..|steps| - 1]), steps[|steps| - 1])
  }

  /** Every step is one its thread can take when it is taken. */
  ghost predicate IsRun<T>(capacity: nat, steps: seq<Step<T>>)
  {
    steps != [] ==>
      && IsRun(capacity, steps[..|steps| - 1])
      && Enabled(Execute(capacity, steps[..|steps| - 1]), steps[|steps| - 1])
  }

  lemma {:induction false} RunsKeepInv<T>(capacity: nat, steps: seq<Step<T>>)
    requires 0 < capacity && IsRun(capacity, steps)
    ensures Inv(Execute(capacity, steps)) && Execute(capacity, steps).q.capacity == capacity
  {
    hide Apply;
    if steps != [] {
      RunsKeepInv(capacity, steps[..|steps| - 1]);
      StepKeepsInv(Execute(capacity, steps[..|steps| - 1]), steps[|steps| - 1]);
    }
  }

  /** Every free slot of an open queue on which a producer sleeps has a woken producer of its own. */
  ghost predicate SlotsServed<T>(m: Monitor<T>)
  {
    m.notFull.sleeping != {} && !m.q.closed ==> m.q.capacity - |m.q.queue| <= |m.notFull.woken|
  }

  /** A Clear of an open queue frees more slots than producers are woken, while another producer sleeps. */
  ghost predicate ClearsUnderSleepers<T>(m: Monitor<T>, step: Step<T>)
  {
    step.ClearLocked? && m.notFull.sleeping != {} && !m.q.closed && |m.notFull.woken| < m.q.capacity
  }

  lemma PushesServeSlots<T>(m: Monitor<T>, step: Step<T>)
    requires Inv(m) && Enabled(m, step) && SlotsServed(m)
    requires step.TryPush? || step.EnterWaitPush? || step.ResumeWaitPush?
    ensures SlotsServed(Apply(m, step))
  {}

  lemma PopsServeSlots<T>(m: Monitor<T>, step: Step<T>)
    requires Inv(m) && Enabled(m, step) && SlotsServed(m)
    requires step.TryPop? || step.EnterWaitPop? || step.ResumeWaitPop?
    ensures SlotsServed(Apply(m, step))
  {}

  /** The one way to lose the producers' half: from a state that has it, exactly such a Clear leads out. */
  lemma ServedUnlessCleared<T>(m: Monitor<T>, step: Step<T>)
    requires Inv(m) && Enabled(m, step) && SlotsServed(m)
    ensures SlotsServed(Apply(m, step)) <==> !ClearsUnderSleepers(m, step)
  {
    match step
    case TryPush(_, _) => PushesServeSlots(m, step);
    case EnterWaitPush(_, _, _) => PushesServeSlots(m, step);
    case ResumeWaitPush(_, _) => PushesServeSlots(m, step);
    case TryPop(_) => PopsServeSlots(m, step);
    case EnterWaitPop(_, _) => PopsServeSlots(m, step);
    case ResumeWaitPop(_, _) => PopsServeSlots(m, step);
    case _ =>
      hide Accounted, ConsumersServed;
  }

  lemma NotifyingRestoresService<T>(m: Monitor<T>, step: Step<T>)
    requires step.ClearNotify?
    ensures SlotsServed(Apply(m, step))
  {}

  lemma OnlyNotifyingLeavesClear<T>(m: Monitor<T>, step: Step<T>, t: Thread)
    requires t in m.clearers && !step.ClearNotify?
    ensures t in Apply(m, step).clearers
  {
    hide NotifyOne, NotifyAll, Sleep, Resume, Enqueue, Dequeue, TryPushStep, ClearStep;
  }

  /** Step i of a run was a Clear under sleepers, and neither its thread nor another has notified for a Clear since. */
  ghost predicate IsOpenWindow<T>(capacity: nat, steps: seq<Step<T>>, i: int)
  {
    && 0 <= i < |steps| && steps[i].ClearLocked? && ClearsUnderSleepers(Execute(capacity, steps[..i]), steps[i])
    && steps[i].t in Execute(capacity, steps).clearers
    && forall j :: i < j < |steps| ==> !steps[j].ClearNotify?
  }

  lemma WindowStaysOpen<T>(capacity: nat, steps: seq<Step<T>>, step: Step<T>, i: int)
    requires IsOpenWindow(capacity, steps, i) && !step.ClearNotify?
    ensures IsOpenWindow(capacity, steps + [step], i)
  {
    hide Apply, Enabled, ClearsUnderSleepers;
    var longer := steps + [step];
    assert longer[..|steps|] == steps && longer[..i] == steps[..i];
    OnlyNotifyingLeavesClear(Execute(capacity, steps), step, steps[i].t);
  }

  lemma WindowOpens<T>(capacity: nat, steps: seq<Step<T>>, step: Step<T>)
    requires ClearsUnderSleepers(Execute(capacity, steps), step)
    ensures IsOpenWindow(capacity, steps + [step], |steps|)
  {
    var longer := steps + [step];
    assert longer[..|steps|] == steps && longer[|steps|] == step;
  }

  /** A state that is not served lies in the window of a Clear under sleepers. */
  lemma {:induction false} UnservedLiesInAWindow<T>(capacity: nat, steps: seq<Step<T>>) returns (i: int)
    requires 0 < capacity && IsRun(capacity, steps) && !SlotsServed(Execute(capacity, steps))
    ensures IsOpenWindow(capacity, steps, i)
  {
    hide Apply, Enabled, SlotsServed, ClearsUnderSleepers, IsOpenWindow;
    if steps == [] {
      FreshIsServed<T>(capacity);
    } else {
      var before, step := steps[..|steps| - 1], steps[|steps| - 1];
      assert steps == before + [step];
      RunsKeepInv(capacity, before);
      if SlotsServed(Execute(capacity, before)) {
        ServedUnlessCleared(Execute(capacity, before), step);
        WindowOpens(capacity, before, step);
        i := |before|;
      } else {
        i := UnservedLiesInAWindow(capacity, before);
        if step.ClearNotify? { NotifyingRestoresService(Execute(capacity, before), step); }
        WindowStaysOpen(capacity, before, step, i);
      }
    }
  }

  lemma FreshIsServed<T>(capacity: nat)
    ensures SlotsServed(Execute<T>(capacity, []))
  {}

  /** No lost wakeup, over every run; the producers' half in every state that lies in no window of a Clear under
      sleepers, so in particular whenever no Clear has yet to notify. */
  lemma NoLostWakeup<T>(capacity: nat, steps: seq<Step<T>>)
    requires 0 < capacity && IsRun(capacity, steps)
    ensures var m := Execute(capacity, steps);
      && (m.notEmpty.sleeping != {} && !m.q.closed ==> |m.q.queue| <= |m.notEmpty.woken|)
      && ((forall i :: !IsOpenWindow(capacity, steps, i)) ==> SlotsServed(m))
      && (m.clearers == {} ==> SlotsServed(m))
      && (m.q.closed && m.closers == {} ==> m.notEmpty.sleeping == {})
      && (m.q.closed && m.closers == {} && m.halfClosers == {} ==> m.notFull.sleeping == {})
  {
    RunsKeepInv(capacity, steps);
    if !SlotsServed(Execute(capacity, steps)) {
      var i := UnservedLiesInAWindow(capacity, steps);
    }
  }

  ghost predicate AlwaysServed<T>(capacity: nat, steps: seq<Step<T>>)
  {
    forall n :: 0 <= n <= |steps| ==> SlotsServed(Execute(capacity, steps[..n]))
  }

  ghost predicate NeverClearsUnderSleepers<T>(capacity: nat, steps: seq<Step<T>>)
  {
    forall i :: 0 <= i < |steps| ==> !ClearsUnderSleepers(Execute(capacity, steps[..i]), steps[i])
  }

  lemma OneStepMore<T>(capacity: nat, before: seq<Step<T>>, step: Step<T>)
    ensures var steps := before + [step];
      && (AlwaysServed(capacity, steps) <==> AlwaysServed(capacity, before) && SlotsServed(Execute(capacity, steps)))
      && (NeverClearsUnderSleepers(capacity, steps) <==>
            NeverClearsUnderSleepers(capacity, before) && !ClearsUnderSleepers(Execute(capacity, before), step))
      && (AlwaysServed(capacity, before) ==> SlotsServed(Execute(capacity, before)))
  {
    hide Execute, SlotsServed, ClearsUnderSleepers;
    var steps := before + [step];
    assert steps[..|steps|] == steps && steps[..|before|] == before == before[..|before|];
    assert forall n :: 0 <= n <= |before| ==> before[..n] == steps[..n];
  }

  /** The exact condition: all states of a run are served if and only if none of its steps is a Clear under
      sleepers. */
  lemma {:induction false} ServedIffNeverClearedUnderSleepers<T>(capacity: nat, steps: seq<Step<T>>)
    requires 0 < capacity && IsRun(capacity, steps)
    ensures AlwaysServed(capacity, steps) <==> NeverClearsUnderSleepers(capacity, steps)
  {
    if steps == [] {
      FreshIsServed<T>(capacity);
    } else {
      hide Apply, Enabled, SlotsServed, ClearsUnderSleepers, AlwaysServed, NeverClearsUnderSleepers;
      var before, step := steps[..|steps| - 1], steps[|steps| - 1];
      assert steps == before + [step];
      ServedIffNeverClearedUnderSleepers(capacity, before);
      RunsKeepInv(capacity, before);
      OneStepMore(capacity, before, step);
      if SlotsServed(Execute(capacity, before)) {
        ServedUnlessCleared(Execute(capacity, before), step);
      }
    }
  }

  /** When no woken or notifying thread is left to run, whoever still sleeps has a reason: consumers
      sleep only on an open empty queue, producers only on an open full one, and never both. */
  lemma QuiescentSleepersHaveAReason<T>(capacity: nat, steps: seq<Step<T>>)
    requires 0 < capacity && IsRun(capacity, steps)
    requires var m := Execute(capacity, steps);
      m.notEmpty.woken + m.notFull.woken + m.closers + m.halfClosers + m.clearers == {}
    ensures var m := Execute(capacity, steps);
      && (m.notEmpty.sleeping != {} ==> !m.q.closed && m.q.queue == [])
      && (m.notFull.sleeping != {} ==> !m.q.closed && |m.q.queue| == capacity)
      && (m.notEmpty.sleeping == {} || m.notFull.sleeping == {})
  {
    RunsKeepInv(capacity, steps);
    var m := Execute(capacity, steps);
    assert m.notEmpty.woken == {} && m.notFull.woken == {} && m.closers == {} && m.halfClosers == {} && m.clearers == {};
  }

  lemma OnlyClearClears<T>(m: Monitor<T>, step: Step<T>)
    requires !step.ClearLocked?
    ensures Apply(m, step).log.cleared == m.log.cleared
  {
    hide NotifyOne, NotifyAll, Sleep, Resume, Enqueue, Dequeue;
  }

  lemma {:induction false} NothingCleared<T>(capacity: nat, steps: seq<Step<T>>)
    requires forall i :: 0 <= i < |steps| ==> !steps[i].ClearLocked?
    ensures Execute(capacity, steps).log.cleared == 0
  {
    hide Apply;
    if steps != [] {
      NothingCleared(capacity, steps[..|steps| - 1]);
      OnlyClearClears(Execute(capacity, steps[..|steps| - 1]), steps[|steps| - 1]);
    }
  }

  /** Without Clear, what was popped followed by what still waits is exactly the accepted items, with
      ids 1..n; every push call that ended without a refusal by a closed WaitPush is either one of them
      or a counted drop. */
  lemma PoppedThenQueuedIsEverythingAccepted<T>(capacity: nat, steps: seq<Step<T>>)
    requires 0 < capacity && IsRun(capacity, steps)
    requires forall i :: 0 <= i < |steps| ==> !steps[i].ClearLocked?
    ensures var m := Execute(capacity, steps);
      && m.log.popped + m.q.queue == m.q.accepted
      && |m.q.queue| <= capacity
      && (forall i :: 0 <= i < |m.q.accepted| ==> m.q.accepted[i].sequenceId == i + 1)
      && m.log.tryPushes + m.log.waitPushes == |m.log.popped| + |m.q.queue| + m.q.droppedCount
  {
    RunsKeepInv(capacity, steps);
    NothingCleared(capacity, steps);
  }

  lemma ExtendRun<T>(capacity: nat, steps: seq<Step<T>>, step: Step<T>) returns (longer: seq<Step<T>>)
    requires IsRun(capacity, steps) && Enabled(Execute(capacity, steps), step)
    ensures longer == steps + [step] && IsRun(capacity, longer)
    ensures Execute(capacity, longer) == Apply(Execute(capacity, steps), step)
  {
    hide Apply, Enabled;
    longer := steps + [step];
    assert longer[..|steps|] == steps;
  }

  /** An open queue that nobody waits on. */
  ghost predicate Quiet<T>(m: Monitor<T>)
  {
    && m.notEmpty == CondVar({}, {}) && m.notFull == CondVar({}, {}) && !m.q.closed
    && m.closers == m.halfClosers == m.clearers == {}
  }

  lemma PushingIsQuiet<T>(m: Monitor<T>, item: T)
    requires Quiet(m) && !m.q.IsFull()
    ensures Enabled(m, TryPush(item, 0)) && Quiet(Apply(m, TryPush(item, 0)))
    ensures |Apply(m, TryPush(item, 0)).q.queue| == |m.q.queue| + 1
    ensures Apply(m, TryPush(item, 0)).q.capacity == m.q.capacity
  {}

  lemma {:induction false} FillUp<T>(capacity: nat, item: T, n: nat) returns (steps: seq<Step<T>>)
    requires n <= capacity
    ensures IsRun(capacity, steps) && Quiet(Execute(capacity, steps))
    ensures |Execute(capacity, steps).q.queue| == n && Execute(capacity, steps).q.capacity == capacity
  {
    if n == 0 {
      steps := [];
    } else {
      steps := FillUp(capacity, item, n - 1);
      hide Apply, Enabled, Quiet;
      PushingIsQuiet(Execute(capacity, steps), item);
      steps := ExtendRun(capacity, steps, TryPush(item, 0));
    }
  }

  lemma ClearingAFullQueue<T>(m: Monitor<T>, item: T, t: Thread, c: Thread)
    requires Quiet(m) && m.q.IsFull() && t != c
    ensures Enabled(m, EnterWaitPush(t, item, 0))
    ensures var asleep := Apply(m, EnterWaitPush(t, item, 0));
      && Enabled(asleep, ClearLocked(c))
      && var cleared := Apply(asleep, ClearLocked(c));
         && cleared.notFull == CondVar({t}, {}) && !cleared.q.closed && cleared.q.queue == []
         && cleared.q.capacity == m.q.capacity && cleared.clearers == {c}
  {}

  /** The condition is met for every capacity: a full queue, a producer asleep, a Clear. Between its unlock and
      its notification the producer sleeps beside free slots with nobody woken to take them. */
  lemma ClearLeavesAWindow<T>(capacity: nat, item: T, t: Thread, c: Thread) returns (steps: seq<Step<T>>)
    requires 0 < capacity && t != c
    ensures IsRun(capacity, steps) && !SlotsServed(Execute(capacity, steps))
    ensures var m := Execute(capacity, steps);
      m.notFull.sleeping == {t} && m.notFull.woken == {} && m.q.queue == [] && m.clearers == {c}
  {
    steps := FillUp(capacity, item, capacity);
    ClearingAFullQueue(Execute(capacity, steps), item, t, c);
    hide Apply, Enabled, Quiet;
    steps := ExtendRun(capacity, steps, EnterWaitPush(t, item, 0));
    steps := ExtendRun(capacity, steps, ClearLocked(c));
  }
}

/** The monitor told by the steps of a run: what entered and who left, by what each attempt met. */
module QueueHistory {
  import opened Seqs
  import opened FeatureQueue
  import opened ConditionVariable
  import opened QueueMonitor

  predicate Closes<T>(steps: seq<Step<T>>) { exists i :: 0 <= i < |steps| && steps[i].CloseFlag? }

  predicate Pushes<T>(step: Step<T>) { step.TryPush? || step.EnterWaitPush? || step.ResumeWaitPush? }

  predicate Pops<T>(step: Step<T>) { step.TryPop? || step.EnterWaitPop? || step.ResumeWaitPop? }

  /** The item with which a thread last called WaitPush. */
  function LastItem<T>(steps: seq<Step<T>>, t: Thread): Option<T>
  {
    if steps == [] then None
    else if Last(steps).EnterWaitPush? && Last(steps).t == t then Some(Last(steps).item)
    else LastItem(Init(steps), t)
  }

  /** The item an attempt brings; a resumed thread brings the one it went to sleep with. */
  function Brings<T>(before: seq<Step<T>>, step: Step<T>): Option<T>
  {
    match step
    case TryPush(item, _) => Some(item)
    case EnterWaitPush(_, item, _) => Some(item)
    case ResumeWaitPush(t, _) => LastItem(before, t)
    case _ => None
  }

  ghost predicate HasRoom<T>(m: Monitor<T>) { !m.q.closed && |m.q.queue| < m.q.capacity }

  function ToSeq<T>(o: Option<T>): seq<T> { if o.Some? then [o.value] else [] }

  /** The items of the pushes that met an open queue with room, in order. */
  ghost function Entered<T>(capacity: nat, steps: seq<Step<T>>): seq<T>
  {
    if steps == [] then []
    else
      Entered(capacity, Init(steps))
      + if Pushes(Last(steps)) && HasRoom(Execute(capacity, Init(steps))) then ToSeq(Brings(Init(steps), Last(steps))) else []
  }

  /** The non-waiting pushes that met a closed or full queue. */
  ghost function Refused<T>(capacity: nat, steps: seq<Step<T>>): nat
  {
    if steps == [] then 0
    else
      Refused(capacity, Init(steps)) + if Last(steps).TryPush? && !HasRoom(Execute(capacity, Init(steps))) then 1 else 0
  }

  /** The fronts that the pops met, in order. */
  ghost function Handed<T>(capacity: nat, steps: seq<Step<T>>): seq<Queued<T>>
  {
    if steps == [] then []
    else Handed(capacity, Init(steps)) + if Pops(Last(steps)) then Front(Execute(capacity, Init(steps)).q.queue) else []
  }

  function Front<T>(queue: seq<T>): seq<T> { if queue == [] then [] else [queue[0]] }

  /** The items that the Clears found waiting. */
  ghost function Swept<T>(capacity: nat, steps: seq<Step<T>>): nat
  {
    if steps == [] then 0
    else Swept(capacity, Init(steps)) + if Last(steps).ClearLocked? then |Execute(capacity, Init(steps)).q.queue| else 0
  }

  function ItemsOf<T>(queued: seq<Queued<T>>): (items: seq<T>)
    ensures |items| == |queued| && forall i :: 0 <= i < |items| ==> items[i] == queued[i].item
  {
    seq(|queued|, i requires 0 <= i < |queued| => queued[i].item)
  }

  /** Every waiting producer has kept its item. */
  ghost predicate ItemsKept<T>(m: Monitor<T>, steps: seq<Step<T>>)
  {
    forall t :: t in m.notFull.sleeping + m.notFull.woken ==> t in m.itemOf && LastItem(steps, t) == Some(m.itemOf[t])
  }

  ghost predicate Told<T>(capacity: nat, steps: seq<Step<T>>)
  {
    var m := Execute(capacity, steps);
    && m.q.closed == Closes(steps) && m.q.capacity == capacity
    && ItemsOf(m.q.accepted) == Entered(capacity, steps)
    && m.q.droppedCount == Refused(capacity, steps)
    && m.log.popped == Handed(capacity, steps)
    && m.log.cleared == Swept(capacity, steps)
    && ItemsKept(m, steps)
  }

  /** One step, by what it is and by what it meets; `item` is the item it brings. */
  ghost predicate StepTells<T>(m: Monitor<T>, step: Step<T>, item: Option<T>, m': Monitor<T>)
  {
    && m'.q.closed == (m.q.closed || step.CloseFlag?) && m'.q.capacity == m.q.capacity
    && ItemsOf(m'.q.accepted) == ItemsOf(m.q.accepted) + (if Pushes(step) && HasRoom(m) then ToSeq(item) else [])
    && m'.q.droppedCount == m.q.droppedCount + (if step.TryPush? && !HasRoom(m) then 1 else 0)
    && m'.log.popped == m.log.popped + (if Pops(step) then Front(m.q.queue) else [])
    && m'.log.cleared == m.log.cleared + (if step.ClearLocked? then |m.q.queue| else 0)
  }

  ghost predicate BringsItem<T>(m: Monitor<T>, step: Step<T>, item: Option<T>)
  {
    match step
    case TryPush(i, _) => item == Some(i)
    case EnterWaitPush(_, i, _) => item == Some(i)
    case ResumeWaitPush(t, _) => t in m.itemOf && item == Some(m.itemOf[t])
    case _ => true
  }

  lemma OneItemMore<T>(s: QueueState<T>, item: T)
    ensures ItemsOf(Enqueue(s, item).accepted) == ItemsOf(s.accepted) + [item]
  {}

  lemma PushIsTold<T>(m: Monitor<T>, step: Step<T>, item: Option<T>)
    requires BringsItem(m, step, item) && Pushes(step)
    ensures StepTells(m, step, item, Apply(m, step))
  {
    hide ItemsOf, NotifyOne, Sleep, Resume;
    if item.Some? { OneItemMore(m.q, item.value); }
    match step
    case TryPush(_, _) =>
    case EnterWaitPush(_, _, _) =>
    case ResumeWaitPush(_, _) =>
    case _ =>
  }

  lemma StepIsTold<T>(m: Monitor<T>, step: Step<T>, item: Option<T>)
    requires BringsItem(m, step, item)
    ensures StepTells(m, step, item, Apply(m, step))
  {
    hide ItemsOf, NotifyOne, NotifyAll, Sleep, Resume, Enqueue;
    if Pushes(step) { PushIsTold(m, step, item); }
  }

  ghost predicate ItemKept<T>(m: Monitor<T>, steps: seq<Step<T>>, t: Thread)
  {
    t in m.notFull.sleeping + m.notFull.woken ==> t in m.itemOf && LastItem(steps, t) == Some(m.itemOf[t])
  }

  lemma LastItemStays<T>(before: seq<Step<T>>, step: Step<T>, t: Thread)
    ensures LastItem(before + [step], t) ==
      if step.EnterWaitPush? && step.t == t then Some(step.item) else LastItem(before, t)
  {
    assert Init(before + [step]) == before && Last(before + [step]) == step;
  }

  /** A thread waits to push only where it did before or where its own attempt met a full queue. */
  lemma WaitersKeepItems<T>(m: Monitor<T>, step: Step<T>, t: Thread)
    requires Enabled(m, step) && t in Apply(m, step).notFull.sleeping + Apply(m, step).notFull.woken
    ensures
      if step.EnterWaitPush? && step.t == t then t in Apply(m, step).itemOf && Apply(m, step).itemOf[t] == step.item
      else t in m.notFull.sleeping + m.notFull.woken && (t in m.itemOf ==> t in Apply(m, step).itemOf && Apply(m, step).itemOf[t] == m.itemOf[t])
  {
    hide Enqueue, Dequeue, TryPushStep, ClearStep, CanNotify;
    match step
    case TryPush(_, _) =>
    case EnterWaitPush(_, _, _) =>
    case ResumeWaitPush(_, _) =>
    case TryPop(_) =>
    case EnterWaitPop(_, _) =>
    case ResumeWaitPop(_, _) =>
    case _ =>
  }

  /** A waiting producer's item changes only with its own next call. */
  lemma StepKeepsItem<T>(m: Monitor<T>, before: seq<Step<T>>, step: Step<T>, t: Thread)
    requires Enabled(m, step) && ItemKept(m, before, t)
    ensures ItemKept(Apply(m, step), before + [step], t)
  {
    hide Apply, Enabled, LastItem;
    LastItemStays(before, step, t);
    if t in Apply(m, step).notFull.sleeping + Apply(m, step).notFull.woken { WaitersKeepItems(m, step, t); }
  }

  lemma StepKeepsItems<T>(m: Monitor<T>, before: seq<Step<T>>, step: Step<T>)
    requires Enabled(m, step) && ItemsKept(m, before)
    ensures ItemsKept(Apply(m, step), before + [step])
  {
    hide Apply, Enabled, LastItem;
    forall t ensures ItemKept(Apply(m, step), before + [step], t) {
      assert ItemKept(m, before, t);
      StepKeepsItem(m, before, step, t);
    }
    forall t | t in Apply(m, step).notFull.sleeping + Apply(m, step).notFull.woken
      ensures t in Apply(m, step).itemOf && LastItem(before + [step], t) == Some(Apply(m, step).itemOf[t])
    {
      assert ItemKept(Apply(m, step), before + [step], t);
    }
  }

  lemma KeptItemIsBrought<T>(m: Monitor<T>, before: seq<Step<T>>, step: Step<T>)
    requires Enabled(m, step) && ItemsKept(m, before)
    ensures BringsItem(m, step, Brings(before, step))
  {}

  lemma ClosesMore<T>(before: seq<Step<T>>, step: Step<T>)
    ensures Closes(before + [step]) <==> Closes(before) || step.CloseFlag?
  {
    var steps := before + [step];
    if Closes(before) {
      var i :| 0 <= i < |before| && before[i].CloseFlag?;
      assert steps[i].CloseFlag?;
    }
    if step.CloseFlag? { assert steps[|before|].CloseFlag?; }
  }

  lemma HistoryGrows<T>(capacity: nat, before: seq<Step<T>>, step: Step<T>)
    ensures
      var steps, m := before + [step], Execute(capacity, before);
      && Entered(capacity, steps) ==
         Entered(capacity, before) + (if Pushes(step) && HasRoom(m) then ToSeq(Brings(before, step)) else [])
      && Refused(capacity, steps) == Refused(capacity, before) + (if step.TryPush? && !HasRoom(m) then 1 else 0)
      && Handed(capacity, steps) == Handed(capacity, before) + (if Pops(step) then Front(m.q.queue) else [])
      && Swept(capacity, steps) == Swept(capacity, before) + (if step.ClearLocked? then |m.q.queue| else 0)
  {
    hide Execute, Brings, HasRoom, Pushes, Pops;
    assert Init(before + [step]) == before && Last(before + [step]) == step;
  }

  lemma OneStepTold<T>(capacity: nat, before: seq<Step<T>>, step: Step<T>)
    requires Told(capacity, before)
    requires StepTells(Execute(capacity, before), step, Brings(before, step), Execute(capacity, before + [step]))
    requires ItemsKept(Execute(capacity, before + [step]), before + [step])
    ensures Told(capacity, before + [step])
  {
    hide Execute, ItemsOf, ItemsKept, Closes, Brings, HasRoom, Pushes, Pops, Entered, Refused, Handed, Swept, Front, ToSeq;
    ClosesMore(before, step);
    HistoryGrows(capacity, before, step);
  }

  /** The queue by the steps: what was accepted are the items of the pushes that met room in an open queue, a resumed
      producer's being the item of its call; what was popped are the fronts that the pops met, and the drop counter
      is the number of non-waiting pushes that were refused. */
  lemma {:induction false} QueueIsTold<T>(capacity: nat, steps: seq<Step<T>>)
    requires IsRun(capacity, steps)
    ensures Told(capacity, steps)
  {
    if steps != [] {
      var before, step := Init(steps), Last(steps);
      assert steps == before + [step];
      QueueIsTold(capacity, before);
      assert Execute(capacity, steps) == Apply(Execute(capacity, before), step);
      assert ItemsKept(Execute(capacity, before), before);
      hide Apply, Enabled, Told, StepTells, ItemsKept;
      KeptItemIsBrought(Execute(capacity, before), before, step);
      StepIsTold(Execute(capacity, before), step, Brings(before, step));
      StepKeepsItems(Execute(capacity, before), before, step);
      OneStepTold(capacity, before, step);
    }
  }

  /** The step wakes consumer t. */
  ghost predicate WakesConsumer<T>(m: Monitor<T>, step: Step<T>, t: Thread)
  {
    (Pushes(step) && HasRoom(m) && step.wake == t) || step == SpuriousConsumer(t) || step.CloseNotifyNotEmpty?
  }

  ghost predicate WakesProducer<T>(m: Monitor<T>, step: Step<T>, t: Thread)
  {
    (Pops(step) && m.q.queue != [] && step.wake == t) || step == SpuriousProducer(t) || step.CloseNotifyNotFull? || step.ClearNotify?
  }

  /** Thread t attempts to pop, or to push, with the waiting call. */
  predicate WaitsToPop<T>(step: Step<T>, t: Thread) { (step.EnterWaitPop? || step.ResumeWaitPop?) && step.t == t }

  predicate WaitsToPush<T>(step: Step<T>, t: Thread) { (step.EnterWaitPush? || step.ResumeWaitPush?) && step.t == t }

  /** The wait set of the thread that attempts: a resumed thread leaves it and joins it again if it must sleep. */
  function AfterAttempt<T>(c: CondVar, step: Step<T>, sleeps: bool): CondVar
  {
    match step
    case EnterWaitPush(t, _, _) => if sleeps then Sleep(c, t) else c
    case EnterWaitPop(t, _) => if sleeps then Sleep(c, t) else c
    case ResumeWaitPush(t, _) => if sleeps then Sleep(Resume(c, t), t) else Resume(c, t)
    case ResumeWaitPop(t, _) => if sleeps then Sleep(Resume(c, t), t) else Resume(c, t)
    case _ => c
  }

  lemma PushesTouch<T>(m: Monitor<T>, step: Step<T>)
    requires Pushes(step) && (step.ResumeWaitPush? ==> step.t in m.itemOf)
    ensures Apply(m, step).notEmpty == if HasRoom(m) then NotifyOne(m.notEmpty, step.wake) else m.notEmpty
    ensures Apply(m, step).notFull == AfterAttempt(m.notFull, step, !m.q.closed && |m.q.queue| >= m.q.capacity)
  {
    hide Enqueue, NotifyOne, Sleep, Resume;
  }

  lemma PopsTouch<T>(m: Monitor<T>, step: Step<T>)
    requires Pops(step)
    ensures Apply(m, step).notFull == if m.q.queue != [] then NotifyOne(m.notFull, step.wake) else m.notFull
    ensures Apply(m, step).notEmpty == AfterAttempt(m.notEmpty, step, !m.q.closed && m.q.queue == [])
  {
    hide Dequeue, NotifyOne, Sleep, Resume;
  }

  lemma OthersTouch<T>(m: Monitor<T>, step: Step<T>)
    requires !Pushes(step) && !Pops(step)
    ensures Apply(m, step).notEmpty ==
      (match step
       case SpuriousConsumer(t) => NotifyOne(m.notEmpty, t)
       case CloseNotifyNotEmpty(_) => NotifyAll(m.notEmpty)
       case _ => m.notEmpty)
    ensures Apply(m, step).notFull ==
      (match step
       case SpuriousProducer(t) => NotifyOne(m.notFull, t)
       case CloseNotifyNotFull(_) => NotifyAll(m.notFull)
       case ClearNotify(_) => NotifyAll(m.notFull)
       case _ => m.notFull)
  {
    hide ClearStep, NotifyOne, NotifyAll;
  }

  lemma OneLessSleeps(c: CondVar, wake: Thread, t: Thread)
    ensures t in NotifyOne(c, wake).sleeping <==> t in c.sleeping && t != wake
  {}

  lemma AttemptSleeps<T>(c: CondVar, step: Step<T>, sleeps: bool, t: Thread)
    requires WaitsToPop(step, t) || WaitsToPush(step, t) ==> t !in c.sleeping
    ensures t in AfterAttempt(c, step, sleeps).sleeping <==>
      if WaitsToPop(step, t) || WaitsToPush(step, t) then sleeps else t in c.sleeping
  {}

  /** A thread that attempts is not asleep. */
  lemma AttemptsAwake<T>(m: Monitor<T>, step: Step<T>, t: Thread)
    requires Enabled(m, step) && m.notEmpty.Valid() && m.notFull.Valid()
    ensures WaitsToPop(step, t) ==> t !in m.notEmpty.sleeping
    ensures WaitsToPush(step, t) ==> t !in m.notFull.sleeping
  {
    hide CanNotify;
  }

  lemma ConsumersInPushes<T>(m: Monitor<T>, step: Step<T>, t: Thread)
    requires Pushes(step)
    requires step.ResumeWaitPush? ==> step.t in m.itemOf
    ensures t in Apply(m, step).notEmpty.sleeping <==>
      if WaitsToPop(step, t) then m.q.queue == [] && !m.q.closed
      else t in m.notEmpty.sleeping && !WakesConsumer(m, step, t)
  {
    hide Apply, NotifyOne, AfterAttempt;
    PushesTouch(m, step);
    OneLessSleeps(m.notEmpty, step.wake, t);
  }

  lemma ConsumersInPops<T>(m: Monitor<T>, step: Step<T>, t: Thread)
    requires Pops(step) && (WaitsToPop(step, t) ==> t !in m.notEmpty.sleeping)
    ensures t in Apply(m, step).notEmpty.sleeping <==>
      if WaitsToPop(step, t) then m.q.queue == [] && !m.q.closed
      else t in m.notEmpty.sleeping && !WakesConsumer(m, step, t)
  {
    hide Apply, NotifyOne, AfterAttempt;
    PopsTouch(m, step);
    AttemptSleeps(m.notEmpty, step, !m.q.closed && m.q.queue == [], t);
  }

  lemma ConsumersInOthers<T>(m: Monitor<T>, step: Step<T>, t: Thread)
    requires !Pushes(step) && !Pops(step)
    ensures t in Apply(m, step).notEmpty.sleeping <==>
      if WaitsToPop(step, t) then m.q.queue == [] && !m.q.closed
      else t in m.notEmpty.sleeping && !WakesConsumer(m, step, t)
  {
    hide Apply, NotifyOne;
    OthersTouch(m, step);
    match step
    case SpuriousConsumer(u) => OneLessSleeps(m.notEmpty, u, t);
    case _ =>
  }

  lemma ConsumersSleep<T>(m: Monitor<T>, step: Step<T>, t: Thread)
    requires Enabled(m, step) && m.notEmpty.Valid() && m.notFull.Valid()
    requires step.ResumeWaitPush? ==> step.t in m.itemOf
    ensures t in Apply(m, step).notEmpty.sleeping <==>
      if WaitsToPop(step, t) then m.q.queue == [] && !m.q.closed
      else t in m.notEmpty.sleeping && !WakesConsumer(m, step, t)
  {
    AttemptsAwake(m, step, t);
    hide Apply, Enabled, WaitsToPop, WakesConsumer;
    if Pushes(step) {
      ConsumersInPushes(m, step, t);
    } else if Pops(step) {
      ConsumersInPops(m, step, t);
    } else {
      ConsumersInOthers(m, step, t);
    }
  }

  lemma ProducersInPops<T>(m: Monitor<T>, step: Step<T>, t: Thread)
    requires Pops(step)
    ensures t in Apply(m, step).notFull.sleeping <==>
      if WaitsToPush(step, t) then |m.q.queue| == m.q.capacity && !m.q.closed
      else t in m.notFull.sleeping && !WakesProducer(m, step, t)
  {
    hide Apply, NotifyOne, AfterAttempt;
    PopsTouch(m, step);
    OneLessSleeps(m.notFull, step.wake, t);
  }

  lemma ProducersInPushes<T>(m: Monitor<T>, step: Step<T>, t: Thread)
    requires Pushes(step) && (WaitsToPush(step, t) ==> t !in m.notFull.sleeping) && |m.q.queue| <= m.q.capacity
    requires step.ResumeWaitPush? ==> step.t in m.itemOf
    ensures t in Apply(m, step).notFull.sleeping <==>
      if WaitsToPush(step, t) then |m.q.queue| == m.q.capacity && !m.q.closed
      else t in m.notFull.sleeping && !WakesProducer(m, step, t)
  {
    hide Apply, NotifyOne, AfterAttempt;
    PushesTouch(m, step);
    AttemptSleeps(m.notFull, step, !m.q.closed && |m.q.queue| >= m.q.capacity, t);
  }

  lemma ProducersInOthers<T>(m: Monitor<T>, step: Step<T>, t: Thread)
    requires !Pushes(step) && !Pops(step)
    ensures t in Apply(m, step).notFull.sleeping <==>
      if WaitsToPush(step, t) then |m.q.queue| == m.q.capacity && !m.q.closed
      else t in m.notFull.sleeping && !WakesProducer(m, step, t)
  {
    hide Apply, NotifyOne;
    OthersTouch(m, step);
    match step
    case SpuriousProducer(u) => OneLessSleeps(m.notFull, u, t);
    case _ =>
  }

  lemma ProducersSleep<T>(m: Monitor<T>, step: Step<T>, t: Thread)
    requires Enabled(m, step) && m.notEmpty.Valid() && m.notFull.Valid() && |m.q.queue| <= m.q.capacity
    requires step.ResumeWaitPush? ==> step.t in m.itemOf
    ensures t in Apply(m, step).notFull.sleeping <==>
      if WaitsToPush(step, t) then |m.q.queue| == m.q.capacity && !m.q.closed
      else t in m.notFull.sleeping && !WakesProducer(m, step, t)
  {
    AttemptsAwake(m, step, t);
    hide Apply, Enabled, WaitsToPush, WakesProducer;
    if Pushes(step) {
      ProducersInPushes(m, step, t);
    } else if Pops(step) {
      ProducersInPops(m, step, t);
    } else {
      ProducersInOthers(m, step, t);
    }
  }

  /** Who sleeps after a step of a run: a consumer whose attempt met an empty open queue, a producer whose attempt met
      a full open one, and whoever slept before and was not woken. */
  lemma SleepersAreTold<T>(capacity: nat, before: seq<Step<T>>, step: Step<T>, t: Thread)
    requires 0 < capacity && IsRun(capacity, before) && Enabled(Execute(capacity, before), step)
    ensures
      var m, m' := Execute(capacity, before), Execute(capacity, before + [step]);
      && (t in m'.notEmpty.sleeping <==>
            if WaitsToPop(step, t) then m.q.queue == [] && !Closes(before)
            else t in m.notEmpty.sleeping && !WakesConsumer(m, step, t))
      && (t in m'.notFull.sleeping <==>
            if WaitsToPush(step, t) then |m.q.queue| == capacity && !Closes(before)
            else t in m.notFull.sleeping && !WakesProducer(m, step, t))
  {
    RunsKeepInv(capacity, before);
    QueueIsTold(capacity, before);
    assert (before + [step])[..|before|] == before;
    var m := Execute(capacity, before);
    assert m.notEmpty.Valid() && m.notFull.Valid() && |m.q.queue| <= m.q.capacity;
    assert m.q.closed == Closes(before) && m.q.capacity == capacity && (step.ResumeWaitPush? ==> step.t in m.itemOf);
    hide Apply, Enabled, Inv, Told, WakesConsumer, WakesProducer, WaitsToPop, WaitsToPush, IsRun, Closes;
    ConsumersSleep(m, step, t);
    ProducersSleep(m, step, t);
  }
}
