/** The completion worker pool: IO threads take completions from the port and hand them to logic workers;
    each session is bound to one logic worker by a compare-and-set. A step is one atomic operation or one
    critical section of one thread. */
module WorkerPool {
  import opened Seqs

  type Thread = nat
  type SessionId = nat

  /** The listener's completions belong to no session. */
  datatype Completion = Completion(owner: Option<SessionId>, bytes: nat)

  datatype IoPosition =
    | Arrived(c: Completion)
    | Candidate(c: Completion, worker: nat)
    | LostRace(c: Completion, worker: nat)
    | Chosen(c: Completion, worker: nat)
    | Notifying(worker: nat)
    | Inline(c: Completion)

  datatype LogicPosition =
    | Head
    | AtWait
    | Asleep
    | Draining
    | Popped(c: Completion, draining: bool)
    | Unbound(c: Completion, draining: bool)
    | LostBinding(c: Completion, draining: bool)
    | Routed(c: Completion, target: nat, draining: bool)
    | Forwarding(target: nat, draining: bool)
    | Dispatching(c: Completion, draining: bool)
    | Exited(seen: nat)

  /** `enqueued` and `dispatched` are the worker's history; `Exited` remembers how many completions had
      been enqueued when the worker found its queue empty for the last time. */
  datatype Worker = Worker(
    pending: seq<Completion>,
    at: LogicPosition,
    enqueued: seq<Completion>,
    dispatched: seq<Completion>)

  datatype Pool = Pool(
    workers: seq<Worker>,
    io: map<Thread, IoPosition>,
    bound: map<SessionId, nat>,
    roundRobin: nat,
    running: bool,
    notified: nat,
    forwards: nat)

  /** A completion arrives at a free IO thread, also one that passed its loop test before Stop; an IO thread or a
      logic worker takes its next step (for a sleeping worker, a spurious wakeup); Stop clears the running flag and
      then notifies the workers one after the other. */
  datatype Step = Arrive(t: Thread, c: Completion) | Io(t: Thread) | Logic(w: nat) | StopFlag | StopNotify

  const UINT32_RANGE := 0x1_0000_0000

  function Start(logicThreads: nat): Pool
  {
    Pool(seq(logicThreads, _ => Worker([], Head, [], [])), map[], map[], 0, true, 0, 0)
  }

  predicate Enabled(s: Pool, step: Step)
  {
    match step
    case Arrive(t, _) => t !in s.io
    case Io(t) => t in s.io
    case Logic(w) => w < |s.workers| && !s.workers[w].at.Exited?
    case StopFlag => s.running
    case StopNotify => !s.running && s.notified < |s.workers|
  }

  function MoveIo(s: Pool, t: Thread, at: IoPosition): Pool { s.(io := s.io[t := at]) }

  function MoveWorker(s: Pool, w: nat, at: LogicPosition): Pool
    requires w < |s.workers|
  {
    s.(workers := s.workers[w := s.workers[w].(at := at)])
  }

  function Bind(s: Pool, c: Completion, w: nat): Pool
  {
    if c.owner.Some? then s.(bound := s.bound[c.owner.value := w]) else s
  }

  predicate IsBound(s: Pool, c: Completion) { c.owner.Some? && c.owner.value in s.bound }

  function Append(w: Worker, c: Completion): Worker
  {
    w.(pending := w.pending + [c], enqueued := w.enqueued + [c])
  }

  function PopFront(w: Worker, draining: bool): Worker
    requires w.pending != []
  {
    w.(pending := w.pending[1..], at := Popped(w.pending[0], draining))
  }

  function BeginDispatch(w: Worker, c: Completion, draining: bool): Worker
  {
    w.(at := Dispatching(c, draining), dispatched := w.dispatched + [c])
  }

  function Wake(w: Worker): Worker { if w.at.Asleep? then w.(at := AtWait) else w }

  function WakeWorker(s: Pool, w: nat): Pool
  {
    if w < |s.workers| then s.(workers := s.workers[w := Wake(s.workers[w])]) else s
  }

  /** SelectLogicWorker up to its compare-and-set. */
  function SelectStep(s: Pool, t: Thread, c: Completion): Pool
  {
    var n := |s.workers|;
    if n == 0 then MoveIo(s, t, Chosen(c, 0))
    else if IsBound(s, c) then MoveIo(s, t, Chosen(c, s.bound[c.owner.value]))
    else
      var candidate := s.roundRobin % n;
      var s' := s.(roundRobin := (s.roundRobin + 1) % UINT32_RANGE);
      MoveIo(s', t, if c.owner.Some? then Candidate(c, candidate) else Chosen(c, candidate))
  }

  /** EnqueueToWorker by an IO thread; an id outside the pool is dispatched inline. */
  function EnqueueStep(s: Pool, t: Thread, c: Completion, w: nat): Pool
  {
    if w >= |s.workers| then MoveIo(s, t, Inline(c))
    else MoveIo(s.(workers := s.workers[w := Append(s.workers[w], c)]), t, Notifying(w))
  }

  /** A completion that reached the wrong worker goes to the bound worker's queue. */
  function ForwardStep(s: Pool, w: nat, c: Completion, target: nat, draining: bool): Pool
    requires w < |s.workers| && target < |s.workers|
  {
    var moved := MoveWorker(s, w, Forwarding(target, draining));
    moved.(workers := moved.workers[target := Append(moved.workers[target], c)], forwards := s.forwards + 1)
  }

  function IoStep(s: Pool, t: Thread): Pool
    requires t in s.io
  {
    match s.io[t]
    case Arrived(c) => SelectStep(s, t, c)
    case Candidate(c, w) =>
      if IsBound(s, c) then MoveIo(s, t, LostRace(c, w)) else MoveIo(Bind(s, c, w), t, Chosen(c, w))
    case LostRace(c, w) => MoveIo(s, t, Chosen(c, if IsBound(s, c) then s.bound[c.owner.value] else w))
    case Chosen(c, w) => EnqueueStep(s, t, c, w)
    case Notifying(w) => WakeWorker(s.(io := s.io - {t}), w)
    case Inline(_) => s.(io := s.io - {t})
  }

  /** The steps in which a logic worker changes only itself; `target` is its session's binding, if any. */
  function OwnStep(worker: Worker, running: bool, target: Option<nat>): Worker
  {
    match worker.at
    case Head => worker.(at := if running then AtWait else Draining)
    case AtWait =>
      if worker.pending != [] then PopFront(worker, false)
      else worker.(at := if running then Asleep else Head)
    case Asleep => worker.(at := AtWait)
    case Draining =>
      if worker.pending != [] then PopFront(worker, true) else worker.(at := Exited(|worker.enqueued|))
    case Popped(c, draining) =>
      if c.owner.None? then BeginDispatch(worker, c, draining)
      else if target.Some? then worker.(at := Routed(c, target.value, draining))
      else worker.(at := Unbound(c, draining))
    case Routed(c, _, draining) => BeginDispatch(worker, c, draining)
    case Dispatching(_, draining) => worker.(at := if draining then Draining else Head)
    case _ => worker
  }

  function Binding(s: Pool, at: LogicPosition): Option<nat>
  {
    if at.Popped? && IsBound(s, at.c) then Some(s.bound[at.c.owner.value]) else None
  }

  function LogicStep(s: Pool, w: nat): Pool
    requires w < |s.workers|
  {
    var worker := s.workers[w];
    match worker.at
    case Unbound(c, draining) =>
      if IsBound(s, c) then MoveWorker(s, w, LostBinding(c, draining))
      else MoveWorker(Bind(s, c, w), w, Routed(c, w, draining))
    case LostBinding(c, draining) =>
      MoveWorker(s, w, Routed(c, if IsBound(s, c) then s.bound[c.owner.value] else w, draining))
    case Routed(c, target, draining) =>
      if target == w || target >= |s.workers| then OwnMove(s, w) else ForwardStep(s, w, c, target, draining)
    case Forwarding(target, draining) => MoveWorker(WakeWorker(s, target), w, if draining then Draining else Head)
    case _ => OwnMove(s, w)
  }

  function OwnMove(s: Pool, w: nat): Pool
    requires w < |s.workers|
  {
    s.(workers := s.workers[w := OwnStep(s.workers[w], s.running, Binding(s, s.workers[w].at))])
  }

  function Apply(s: Pool, step: Step): Pool
    requires Enabled(s, step)
  {
    match step
    case Arrive(t, c) => MoveIo(s, t, Arrived(c))
    case StopFlag => s.(running := false)
    case StopNotify => WakeWorker(s, s.notified).(notified := s.notified + 1)
    case Io(t) => IoStep(s, t)
    case Logic(w) => LogicStep(s, w)
  }

  ghost predicate IsRun(n: nat, steps: seq<Step>)
    decreases |steps|, 0
  {
    steps != [] ==> IsRun(n, Init(steps)) && Enabled(Execute(n, Init(steps)), Last(steps))
  }

  ghost function Execute(n: nat, steps: seq<Step>): Pool
    requires IsRun(n, steps)
    decreases |steps|, 1
  {
    if steps == [] then Start(n) else Apply(Execute(n, Init(steps)), Last(steps))
  }

  /** A session's completion belongs to the worker that the session is bound to. */
  ghost predicate BelongsTo(bound: map<SessionId, nat>, c: Completion, w: nat)
  {
    c.owner.Some? ==> c.owner.value in bound && bound[c.owner.value] == w
  }

  function InHand(at: LogicPosition): seq<Completion>
  {
    match at
    case Popped(c, _) => [c]
    case Unbound(c, _) => [c]
    case LostBinding(c, _) => [c]
    case Routed(c, _, _) => [c]
    case _ => []
  }

  predicate IsDraining(at: LogicPosition)
  {
    match at
    case Draining => true
    case Exited(_) => true
    case Popped(_, draining) => draining
    case Routed(_, _, draining) => draining
    case Dispatching(_, draining) => draining
    case _ => false
  }

  ghost predicate HistoryOk(worker: Worker)
  {
    worker.enqueued == worker.dispatched + InHand(worker.at) + worker.pending
  }

  ghost predicate WorkerOk(bound: map<SessionId, nat>, running: bool, worker: Worker, w: nat)
  {
    && HistoryOk(worker)
    && (forall c :: c in worker.enqueued ==> BelongsTo(bound, c, w))
    && !(worker.at.Unbound? || worker.at.LostBinding? || worker.at.Forwarding?)
    && (worker.at.Routed? ==> worker.at.target == w)
    && (worker.at.Dispatching? ==> worker.at.c in worker.dispatched)
    && (worker.at.Exited? ==> worker.at.seen == |worker.dispatched|)
    && (IsDraining(worker.at) ==> !running)
  }

  ghost predicate IoOk(bound: map<SessionId, nat>, n: nat, at: IoPosition)
  {
    match at
    case Arrived(_) => true
    case Candidate(c, w) => c.owner.Some? && w < n
    case LostRace(c, _) => c.owner.Some? && c.owner.value in bound
    case Chosen(c, w) => w < n && BelongsTo(bound, c, w)
    case Notifying(w) => w < n
    case Inline(_) => false
  }

  /** Every completion in the pool is where its session is bound; so nothing is ever forwarded. */
  ghost predicate Affine(s: Pool)
  {
    && (forall sid :: sid in s.bound ==> s.bound[sid] < |s.workers|)
    && (forall t :: t in s.io ==> IoOk(s.bound, |s.workers|, s.io[t]))
    && (forall w :: 0 <= w < |s.workers| ==> WorkerOk(s.bound, s.running, s.workers[w], w))
    && s.forwards == 0
  }

  ghost predicate SomeoneNotifies(io: map<Thread, IoPosition>, w: nat)
  {
    exists t :: t in io && io[t] == Notifying(w)
  }

  /** A sleeping worker has nothing to do, or an IO thread is about to notify it; and once Stop has
      passed it, it does not sleep. */
  ghost predicate WakeOk(s: Pool, w: nat)
    requires w < |s.workers|
  {
    s.workers[w].at.Asleep? ==>
      (s.workers[w].pending == [] || SomeoneNotifies(s.io, w)) && (s.running || s.notified <= w)
  }

  ghost predicate AllWakeOk(s: Pool)
  {
    && s.notified <= |s.workers|
    && (s.running ==> s.notified == 0)
    && forall w :: 0 <= w < |s.workers| ==> WakeOk(s, w)
  }

  lemma BindKeepsWorkers(s: Pool, c: Completion, w: nat)
    requires Affine(s) && c.owner.Some? && !IsBound(s, c) && w < |s.workers|
    ensures Affine(Bind(s, c, w)) && BelongsTo(Bind(s, c, w).bound, c, w)
  {}

  lemma AppendKeepsWorkers(s: Pool, c: Completion, w: nat)
    requires Affine(s) && w < |s.workers| && BelongsTo(s.bound, c, w)
    ensures Affine(s.(workers := s.workers[w := Append(s.workers[w], c)]))
  {
    var worker := s.workers[w];
    assert WorkerOk(s.bound, s.running, worker, w);
    assert Append(worker, c).enqueued == worker.dispatched + InHand(worker.at) + Append(worker, c).pending;
  }

  lemma MoveIoKeepsAffine(s: Pool, t: Thread, at: IoPosition)
    requires Affine(s) && IoOk(s.bound, |s.workers|, at)
    ensures Affine(MoveIo(s, t, at))
  {}

  lemma WakeKeepsAffine(s: Pool, w: nat)
    requires Affine(s)
    ensures Affine(WakeWorker(s, w))
  {}

  lemma IoStepKeepsAffine(s: Pool, t: Thread)
    requires 0 < |s.workers| && Affine(s) && t in s.io
    ensures Affine(IoStep(s, t))
  {
    hide Affine;
    AffineIo(s, t);
    match s.io[t]
    case Arrived(c) =>
      RoundRobinKeepsAffine(s, (s.roundRobin + 1) % UINT32_RANGE);
      if IsBound(s, c) {
        AffineBound(s, c);
        MoveIoKeepsAffine(s, t, Chosen(c, s.bound[c.owner.value]));
      } else {
        MoveIoKeepsAffine(s.(roundRobin := (s.roundRobin + 1) % UINT32_RANGE), t, IoStep(s, t).io[t]);
      }
    case Candidate(c, w) =>
      if IsBound(s, c) {
        MoveIoKeepsAffine(s, t, LostRace(c, w));
      } else {
        BindKeepsWorkers(s, c, w);
        MoveIoKeepsAffine(Bind(s, c, w), t, Chosen(c, w));
      }
    case LostRace(c, w) =>
      AffineBound(s, c);
      MoveIoKeepsAffine(s, t, Chosen(c, s.bound[c.owner.value]));
    case Chosen(c, w) =>
      AppendKeepsWorkers(s, c, w);
      MoveIoKeepsAffine(s.(workers := s.workers[w := Append(s.workers[w], c)]), t, Notifying(w));
    case Notifying(w) =>
      DropIoKeepsAffine(s, t);
      WakeKeepsAffine(s.(io := s.io - {t}), w);
    case Inline(_) =>
  }

  lemma AffineIo(s: Pool, t: Thread)
    requires Affine(s) && t in s.io
    ensures IoOk(s.bound, |s.workers|, s.io[t])
  {}

  lemma AffineBound(s: Pool, c: Completion)
    requires Affine(s) && IsBound(s, c)
    ensures s.bound[c.owner.value] < |s.workers|
  {}

  lemma RoundRobinKeepsAffine(s: Pool, n: nat)
    requires Affine(s)
    ensures Affine(s.(roundRobin := n))
  {}

  lemma DropIoKeepsAffine(s: Pool, t: Thread)
    requires Affine(s)
    ensures Affine(s.(io := s.io - {t}))
  {}

  lemma OwnStepKeepsHistory(worker: Worker, running: bool, target: Option<nat>)
    requires HistoryOk(worker)
    ensures HistoryOk(OwnStep(worker, running, target))
  {
    if worker.pending != [] {
      assert worker.pending == [worker.pending[0]] + worker.pending[1..];
    }
    if InHand(worker.at) != [] {
      assert worker.dispatched + InHand(worker.at) + worker.pending == worker.enqueued;
    }
  }

  lemma OwnStepKeepsOk(bound: map<SessionId, nat>, running: bool, worker: Worker, w: nat, target: Option<nat>)
    requires WorkerOk(bound, running, worker, w)
    requires worker.at.Popped? && worker.at.c.owner.Some? ==> target == Some(w)
    ensures WorkerOk(bound, running, OwnStep(worker, running, target), w)
  {
    OwnStepKeepsHistory(worker, running, target);
    if worker.at.Draining? && worker.pending == [] {
      assert worker.enqueued == worker.dispatched + [] + [];
    }
    hide BelongsTo, HistoryOk;
  }

  /** A logic worker only ever changes itself. */
  lemma LogicStepIsOwnMove(s: Pool, w: nat)
    requires Affine(s) && w < |s.workers|
    ensures LogicStep(s, w) == OwnMove(s, w)
    ensures Affine(OwnMove(s, w))
  {
    hide OwnStep;
    var worker := s.workers[w];
    assert WorkerOk(s.bound, s.running, worker, w);
    if worker.at.Popped? {
      assert worker.at.c in worker.enqueued;
    }
    OwnStepKeepsOk(s.bound, s.running, worker, w, Binding(s, worker.at));
  }

  lemma FlagsKeepAffine(s: Pool, notified: nat)
    requires Affine(s)
    ensures Affine(s.(running := false)) && Affine(s.(notified := notified))
  {
    forall w | 0 <= w < |s.workers|
      ensures WorkerOk(s.bound, false, s.workers[w], w)
    {
      assert WorkerOk(s.bound, s.running, s.workers[w], w);
    }
  }

  /** Every step of every thread keeps the affinity invariant, when there is a logic worker at all. */
  lemma StepKeepsAffine(s: Pool, step: Step)
    requires 0 < |s.workers| && Affine(s) && Enabled(s, step)
    ensures Affine(Apply(s, step)) && |Apply(s, step).workers| == |s.workers|
  {
    hide Affine;
    match step
    case Arrive(t, c) => MoveIoKeepsAffine(s, t, Arrived(c));
    case Io(t) => IoStepKeepsAffine(s, t);
    case Logic(w) => LogicStepIsOwnMove(s, w);
    case StopFlag => FlagsKeepAffine(s, 0);
    case StopNotify =>
      WakeKeepsAffine(s, s.notified);
      FlagsKeepAffine(WakeWorker(s, s.notified), s.notified + 1);
  }

  lemma StepKeepsWakeOk(s: Pool, step: Step)
    requires 0 < |s.workers| && Affine(s) && AllWakeOk(s) && Enabled(s, step)
    ensures AllWakeOk(Apply(s, step))
  {
    hide WorkerOk, SomeoneNotifies, IoOk;
    if step.Io? {
      IoStepKeepsWakeOk(s, step.t);
    } else {
      var s' := Apply(s, step);
      if step.Arrive? {
        NotificationsSurvive(s.io, step.t, Arrived(step.c));
      } else if step.Logic? {
        LogicStepIsOwnMove(s, step.w);
      }
      forall w | 0 <= w < |s.workers|
        ensures WakeOk(s', w)
      {
        assert WakeOk(s, w);
      }
    }
  }

  lemma NotificationsSurvive(io: map<Thread, IoPosition>, t: Thread, at: IoPosition)
    ensures forall w :: SomeoneNotifies(io, w) && (t in io ==> io[t] != Notifying(w)) ==>
      SomeoneNotifies(io[t := at], w) && SomeoneNotifies(io - {t}, w)
  {
    forall w | SomeoneNotifies(io, w) && (t in io ==> io[t] != Notifying(w))
      ensures SomeoneNotifies(io[t := at], w) && SomeoneNotifies(io - {t}, w)
    {
      var t' :| t' in io && io[t'] == Notifying(w);
      assert io[t := at][t'] == Notifying(w) && (io - {t})[t'] == Notifying(w);
    }
  }

  lemma IoStepKeepsWakeOk(s: Pool, t: Thread)
    requires 0 < |s.workers| && Affine(s) && AllWakeOk(s) && t in s.io
    ensures AllWakeOk(IoStep(s, t))
  {
    hide WorkerOk;
    var s' := IoStep(s, t);
    assert IoOk(s.bound, |s.workers|, s.io[t]);
    if t in s'.io {
      NotificationsSurvive(s.io, t, s'.io[t]);
      if s.io[t].Chosen? {
        assert s'.io[t] == Notifying(s.io[t].worker);
      }
    } else {
      NotificationsSurvive(s.io, t, s.io[t]);
    }
    forall w | 0 <= w < |s.workers|
      ensures WakeOk(s', w)
    {
      assert WakeOk(s, w);
    }
  }

  lemma {:induction false} RunsKeepInv(n: nat, steps: seq<Step>)
    requires 0 < n && IsRun(n, steps)
    ensures Affine(Execute(n, steps)) && AllWakeOk(Execute(n, steps)) && |Execute(n, steps).workers| == n
    decreases |steps|
  {
    hide Apply, Affine, AllWakeOk;
    if steps == [] {
      StartIsAffine(n);
    } else {
      RunsKeepInv(n, Init(steps));
      StepKeepsAffine(Execute(n, Init(steps)), Last(steps));
      StepKeepsWakeOk(Execute(n, Init(steps)), Last(steps));
    }
  }

  lemma StartIsAffine(n: nat)
    ensures Affine(Start(n)) && AllWakeOk(Start(n))
  {}

  /** Affinity, over every run with at least one logic worker: a session's completions are enqueued to and
      dispatched by its one bound worker only, no IO thread dispatches, and nothing is ever forwarded. */
  lemma CompletionsStayWithTheirWorker(n: nat, steps: seq<Step>)
    requires 0 < n && IsRun(n, steps)
    ensures var s := Execute(n, steps);
      && |s.workers| == n
      && (forall w, c :: 0 <= w < n && (c in s.workers[w].enqueued || c in s.workers[w].dispatched) ==>
            BelongsTo(s.bound, c, w))
      && (forall t :: t in s.io ==> !s.io[t].Inline?)
      && s.forwards == 0
  {
    RunsKeepInv(n, steps);
    hide Execute;
    var s := Execute(n, steps);
    forall w, c | 0 <= w < n && (c in s.workers[w].enqueued || c in s.workers[w].dispatched)
      ensures BelongsTo(s.bound, c, w)
    {
      assert WorkerOk(s.bound, s.running, s.workers[w], w);
    }
    forall t | t in s.io
      ensures !s.io[t].Inline?
    {
      assert IoOk(s.bound, n, s.io[t]);
    }
  }

  function OfOwner(sid: SessionId): Completion -> bool { (c: Completion) => c.owner == Some(sid) }

  lemma {:induction false} FilterOfPrefix(a: seq<Completion>, b: seq<Completion>, sid: SessionId)
    ensures Filter(a, OfOwner(sid)) <= Filter(a + b, OfOwner(sid))
  {
    if b == [] {
      assert a + b == a;
    } else {
      FilterOfPrefix(a, Init(b), sid);
      assert a + b == (a + Init(b)) + [Last(b)];
      FilterAppend(a + Init(b), Last(b), OfOwner(sid));
    }
  }

  /** Each session's completions are dispatched in the order in which they were enqueued: what its worker
      has dispatched of it is a prefix of all of it that was ever enqueued, and no other worker holds any. */
  lemma DispatchOrderIsEnqueueOrder(n: nat, steps: seq<Step>, sid: SessionId)
    requires 0 < n && IsRun(n, steps) && sid in Execute(n, steps).bound
    ensures var s := Execute(n, steps);
      && |s.workers| == n && s.bound[sid] < n
      && (var home := s.workers[s.bound[sid]];
          Filter(home.dispatched, OfOwner(sid)) <= Filter(home.enqueued, OfOwner(sid)))
      && (forall w, c :: 0 <= w < n && w != s.bound[sid] && c in s.workers[w].enqueued ==> c.owner != Some(sid))
  {
    RunsKeepInv(n, steps);
    hide Execute, Filter;
    HomeOrder(Execute(n, steps), sid);
  }

  lemma HomeOrder(s: Pool, sid: SessionId)
    requires Affine(s) && sid in s.bound
    ensures s.bound[sid] < |s.workers|
    ensures var home := s.workers[s.bound[sid]];
      Filter(home.dispatched, OfOwner(sid)) <= Filter(home.enqueued, OfOwner(sid))
    ensures forall w, c :: 0 <= w < |s.workers| && w != s.bound[sid] && c in s.workers[w].enqueued ==>
      c.owner != Some(sid)
  {
    hide Filter;
    var w := s.bound[sid];
    assert WorkerOk(s.bound, s.running, s.workers[w], w);
    var home := s.workers[w];
    assert home.enqueued == home.dispatched + (InHand(home.at) + home.pending);
    FilterOfPrefix(home.dispatched, InHand(home.at) + home.pending, sid);
    forall v, c | 0 <= v < |s.workers| && v != w && c in s.workers[v].enqueued
      ensures c.owner != Some(sid)
    {
      assert WorkerOk(s.bound, s.running, s.workers[v], v);
    }
  }

  /** A worker that has ended dispatched exactly what was enqueued to it before its last empty check: everything
      ever enqueued to it if and only if nothing came after that check, and then its queue is empty. */
  lemma EndedWorkerHasDispatchedWhatItSaw(n: nat, steps: seq<Step>, w: nat)
    requires 0 < n && IsRun(n, steps) && w < n
    requires w < |Execute(n, steps).workers| && Execute(n, steps).workers[w].at.Exited?
    ensures var worker := Execute(n, steps).workers[w];
      && worker.at.seen <= |worker.enqueued| && worker.dispatched == worker.enqueued[..worker.at.seen]
      && (worker.dispatched == worker.enqueued <==> worker.at.seen == |worker.enqueued|)
      && (worker.dispatched == worker.enqueued <==> worker.pending == [])
  {
    RunsKeepInv(n, steps);
    hide Execute;
    var s := Execute(n, steps);
    assert WorkerOk(s.bound, s.running, s.workers[w], w);
  }

  /** What one step of the pool may do to one worker: enqueueing only appends; an ended worker is left alone; and a
      worker ends only from its drain, with an empty queue. */
  ghost predicate Follows(was: Worker, now: Worker)
  {
    && was.enqueued <= now.enqueued
    && (was.at.Exited? ==> now.at == was.at && now.dispatched == was.dispatched)
    && (!was.at.Exited? && now.at.Exited? ==>
          was.at.Draining? && was.pending == [] && now.dispatched == was.dispatched)
  }

  ghost predicate AllFollow(was: seq<Worker>, now: seq<Worker>)
  {
    |was| == |now| && forall w :: 0 <= w < |was| ==> Follows(was[w], now[w])
  }

  lemma OneFollows(ws: seq<Worker>, w: nat, now: Worker)
    requires w < |ws| && Follows(ws[w], now)
    ensures AllFollow(ws, ws[w := now])
  {}

  lemma WakingFollows(s: Pool, w: nat)
    ensures AllFollow(s.workers, WakeWorker(s, w).workers)
  {
    if w < |s.workers| { OneFollows(s.workers, w, Wake(s.workers[w])); }
  }

  lemma AppendingFollows(w: Worker, c: Completion)
    ensures Follows(w, Append(w, c))
  {}

  lemma IoFollows(s: Pool, t: Thread)
    requires t in s.io
    ensures AllFollow(s.workers, IoStep(s, t).workers)
  {
    if s.io[t].Chosen? && s.io[t].worker < |s.workers| {
      AppendingFollows(s.workers[s.io[t].worker], s.io[t].c);
      OneFollows(s.workers, s.io[t].worker, Append(s.workers[s.io[t].worker], s.io[t].c));
    } else if s.io[t].Notifying? {
      WakingFollows(s.(io := s.io - {t}), s.io[t].worker);
    }
    hide Append, WakeWorker;
  }

  lemma OwnStepFollows(worker: Worker, running: bool, target: Option<nat>)
    requires !worker.at.Exited?
    ensures Follows(worker, OwnStep(worker, running, target))
  {}

  lemma MovingFollows(worker: Worker, at: LogicPosition)
    requires !worker.at.Exited? && !at.Exited?
    ensures Follows(worker, worker.(at := at))
  {}

  lemma ForwardingFollows(s: Pool, w: nat, c: Completion, target: nat, draining: bool)
    requires w < |s.workers| && target < |s.workers| && !s.workers[w].at.Exited?
    ensures AllFollow(s.workers, ForwardStep(s, w, c, target, draining).workers)
  {}

  lemma LogicFollows(s: Pool, w: nat)
    requires w < |s.workers| && !s.workers[w].at.Exited?
    ensures AllFollow(s.workers, LogicStep(s, w).workers)
  {
    var worker := s.workers[w];
    OwnStepFollows(worker, s.running, Binding(s, worker.at));
    OneFollows(s.workers, w, OwnStep(worker, s.running, Binding(s, worker.at)));
    match worker.at
    case Unbound(c, draining) => MovesFollow(s.workers, w);
    case LostBinding(c, draining) => MovesFollow(s.workers, w);
    case Routed(c, target, draining) =>
      if target != w && target < |s.workers| { ForwardingFollows(s, w, c, target, draining); }
      hide ForwardStep, OwnStep;
    case Forwarding(target, draining) =>
      WakeThenMove(s, w, target, if draining then Draining else Head);
    case _ =>
      hide OwnStep;
  }

  lemma MovesFollow(ws: seq<Worker>, w: nat)
    requires w < |ws| && !ws[w].at.Exited?
    ensures forall at: LogicPosition :: !at.Exited? ==> AllFollow(ws, ws[w := ws[w].(at := at)])
  {}

  lemma WakeThenMove(s: Pool, w: nat, target: nat, at: LogicPosition)
    requires w < |s.workers| && s.workers[w].at.Forwarding? && !at.Exited?
    ensures AllFollow(s.workers, MoveWorker(WakeWorker(s, target), w, at).workers)
  {}

  lemma StepFollows(s: Pool, step: Step)
    requires Enabled(s, step)
    ensures AllFollow(s.workers, Apply(s, step).workers)
  {
    match step
    case Arrive(_, _) =>
    case StopFlag =>
    case StopNotify => WakingFollows(s, s.notified);
    case Io(t) => IoFollows(s, t); hide IoStep;
    case Logic(w) => LogicFollows(s, w); hide LogicStep;
  }

  /** A logic worker ends only after Stop, with an empty queue and everything dispatched that was ever enqueued. */
  lemma WorkersEndEmpty(n: nat, before: seq<Step>, step: Step, w: nat)
    requires 0 < n && IsRun(n, before + [step]) && IsRun(n, before) && w < n
    requires w < |Execute(n, before).workers| && w < |Execute(n, before + [step]).workers|
    requires !Execute(n, before).workers[w].at.Exited? && Execute(n, before + [step]).workers[w].at.Exited?
    ensures var s := Execute(n, before);
      !s.running && s.workers[w].pending == [] && s.workers[w].dispatched == s.workers[w].enqueued
    ensures Execute(n, before + [step]).workers[w].dispatched == Execute(n, before).workers[w].enqueued
  {
    assert Init(before + [step]) == before;
    RunsKeepInv(n, before);
    var s := Execute(n, before);
    assert Enabled(s, step) && Execute(n, before + [step]) == Apply(s, step);
    hide Execute, IsRun, Apply;
    assert WorkerOk(s.bound, s.running, s.workers[w], w);
    StepFollows(s, step);
  }

  /** Whatever happens later, an ended worker has dispatched exactly what had been enqueued to it when it ended. */
  lemma {:induction false} EndedWorkersStayEnded(n: nat, before: seq<Step>, after: seq<Step>, w: nat)
    requires 0 < n && IsRun(n, before) && IsRun(n, before + after)
    requires w < |Execute(n, before).workers| && Execute(n, before).workers[w].at.Exited?
    ensures w < |Execute(n, before + after).workers|
    ensures var was, now := Execute(n, before).workers[w], Execute(n, before + after).workers[w];
      now.at == was.at && now.dispatched == was.dispatched && was.enqueued <= now.enqueued
    decreases |after|
  {
    if after == [] {
      assert before + after == before;
    } else {
      assert Init(before + after) == before + Init(after) && Last(before + after) == Last(after);
      EndedWorkersStayEnded(n, before, Init(after), w);
      hide Apply, Enabled;
      StepFollows(Execute(n, before + Init(after)), Last(after));
    }
  }

  /** The moment at which an ended worker ended: its queue was empty then, and what it has dispatched, now and at
      any time since, is everything enqueued to it up to that moment. */
  lemma {:induction false} EndedWorkerHadDrained(n: nat, steps: seq<Step>, w: nat) returns (i: nat)
    requires 0 < n && IsRun(n, steps) && w < n
    requires w < |Execute(n, steps).workers| && Execute(n, steps).workers[w].at.Exited?
    ensures i < |steps| && IsRun(n, steps[..i]) && |Execute(n, steps[..i]).workers| == n
    ensures var was, now := Execute(n, steps[..i]).workers[w], Execute(n, steps).workers[w];
      && !was.at.Exited? && was.pending == [] && !Execute(n, steps[..i]).running
      && now.dispatched == was.enqueued == was.dispatched && was.enqueued <= now.enqueued
    decreases |steps|
  {
    PoolSize(n, Init(steps));
    var before, step := Init(steps), Last(steps);
    assert steps == before + [step] && steps[..|before|] == before;
    StepFollows(Execute(n, before), step);
    hide Apply, Enabled;
    if Execute(n, before).workers[w].at.Exited? {
      i := EndedWorkerHadDrained(n, before, w);
      assert before[..i] == steps[..i];
    } else {
      i := |before|;
      WorkersEndEmpty(n, before, step, w);
    }
  }

  lemma {:induction false} PoolSize(n: nat, steps: seq<Step>)
    requires IsRun(n, steps)
    ensures |Execute(n, steps).workers| == n
    decreases |steps|
  {
    if steps != [] {
      hide Apply, Enabled;
      PoolSize(n, Init(steps));
      StepFollows(Execute(n, Init(steps)), Last(steps));
    }
  }

  lemma FirstWorkerIsChosen(n: nat, c: Completion) returns (steps: seq<Step>)
    requires 0 < n && c.owner.Some?
    ensures IsRun(n, steps)
    ensures var s := Execute(n, steps);
      s.workers == Start(n).workers && s.running && s.io == map[0 := Chosen(c, 0)]
  {
    steps := [];
    assert IsRun(n, steps) && Execute(n, steps) == Start(n);
    hide Execute, IsRun;
    steps := Extend(n, steps, Arrive(0, c));
    steps := Extend(n, steps, Io(0));
    steps := Extend(n, steps, Io(0));
  }

  lemma IdleWorkerEnds(n: nat, before: seq<Step>) returns (steps: seq<Step>)
    requires 0 < n && IsRun(n, before) && Execute(n, before).running
    requires var s := Execute(n, before); |s.workers| == n && s.workers[0] == Worker([], Head, [], [])
    ensures IsRun(n, steps)
    ensures var s := Execute(n, steps);
      s.io == Execute(n, before).io && |s.workers| == n && s.workers[0] == Worker([], Exited(0), [], [])
  {
    hide Execute, IsRun;
    steps := Extend(n, before, StopFlag);
    steps := Extend(n, steps, Logic(0));
    assert Execute(n, steps).workers[0] == Worker([], Draining, [], []);
    steps := Extend(n, steps, Logic(0));
  }

  /** Something can come after the check, in a pool of any size: an IO thread has chosen the worker, the worker
      finds its queue empty and ends, and the session's completion is enqueued to it for good. */
  lemma EnqueuedAfterTheEnd(n: nat, sid: SessionId, bytes: nat) returns (steps: seq<Step>)
    requires 0 < n
    ensures IsRun(n, steps)
    ensures var s := Execute(n, steps);
      && |s.workers| == n && s.workers[0].at == Exited(0) && s.workers[0].dispatched == []
      && s.workers[0].enqueued == s.workers[0].pending == [Completion(Some(sid), bytes)]
  {
    steps := FirstWorkerIsChosen(n, Completion(Some(sid), bytes));
    hide Execute, IsRun;
    steps := IdleWorkerEnds(n, steps);
    steps := Extend(n, steps, Io(0));
  }

  /** No lost wakeup: a sleeping worker has an empty queue or a notification on its way, and when Stop has
      notified every queue no worker sleeps. */
  lemma SleepingWorkersAreServed(n: nat, steps: seq<Step>, w: nat)
    requires 0 < n && IsRun(n, steps) && w < n
    requires w < |Execute(n, steps).workers| && Execute(n, steps).workers[w].at.Asleep?
    ensures var s := Execute(n, steps);
      && (s.workers[w].pending == [] || SomeoneNotifies(s.io, w))
      && (s.running || s.notified < n)
  {
    RunsKeepInv(n, steps);
    hide Execute;
    assert WakeOk(Execute(n, steps), w);
  }

  /** A binding, once made, never changes. */
  lemma {:induction false} BindingsAreForever(n: nat, steps: seq<Step>, more: seq<Step>, sid: SessionId)
    requires 0 < n && IsRun(n, steps) && IsRun(n, steps + more) && sid in Execute(n, steps).bound
    ensures sid in Execute(n, steps + more).bound
    ensures Execute(n, steps + more).bound[sid] == Execute(n, steps).bound[sid]
    decreases |more|
  {
    if more == [] {
      assert steps + more == steps;
    } else {
      assert Init(steps + more) == steps + Init(more);
      BindingsAreForever(n, steps, Init(more), sid);
      StepKeepsBinding(Execute(n, steps + Init(more)), Last(more), sid);
    }
  }

  lemma StepKeepsBinding(s: Pool, step: Step, sid: SessionId)
    requires Enabled(s, step) && sid in s.bound
    ensures sid in Apply(s, step).bound && Apply(s, step).bound[sid] == s.bound[sid]
  {}

  datatype Dispatcher = IoThread(t: Thread) | LogicWorker(w: nat)

  ghost predicate Dispatches(s: Pool, d: Dispatcher, sid: SessionId)
  {
    match d
    case IoThread(t) => t in s.io && s.io[t].Inline? && s.io[t].c.owner == Some(sid)
    case LogicWorker(w) =>
      w < |s.workers| && s.workers[w].at.Dispatching? && s.workers[w].at.c.owner == Some(sid)
  }

  /** No two threads dispatch completions of one session at the same time. */
  ghost predicate Exclusive(s: Pool)
  {
    forall d, e, sid :: Dispatches(s, d, sid) && Dispatches(s, e, sid) ==> d == e
  }

  lemma LogicWorkersAreExclusive(n: nat, steps: seq<Step>)
    requires 0 < n && IsRun(n, steps)
    ensures Exclusive(Execute(n, steps))
  {
    RunsKeepInv(n, steps);
    CompletionsStayWithTheirWorker(n, steps);
    hide Execute;
    var s := Execute(n, steps);
    forall w | 0 <= w < |s.workers| && s.workers[w].at.Dispatching?
      ensures BelongsTo(s.bound, s.workers[w].at.c, w)
    {
      assert WorkerOk(s.bound, s.running, s.workers[w], w);
    }
  }

  /** Without logic workers an arriving completion is soon inside its session on the IO thread. */
  lemma EnterInline(steps: seq<Step>, t: Thread, c: Completion) returns (longer: seq<Step>)
    requires IsRun(0, steps) && Execute(0, steps).workers == [] && t !in Execute(0, steps).io
    ensures IsRun(0, longer) && Execute(0, longer).workers == []
    ensures Execute(0, longer).io == Execute(0, steps).io[t := Inline(c)]
  {
    hide Execute, IsRun;
    longer := Extend(0, steps, Arrive(t, c));
    longer := Extend(0, longer, Io(t));
    longer := Extend(0, longer, Io(t));
  }

  /** Without logic workers every completion is dispatched inline, and two IO threads can be inside the
      same session at once. */
  lemma InlineDispatchIsNotExclusive()
    ensures exists steps :: IsRun(0, steps) && !Exclusive(Execute(0, steps))
  {
    var c := Completion(Some(1), 8);
    var steps := [];
    assert IsRun(0, steps) && Execute(0, steps) == Start(0);
    hide Execute, IsRun;
    steps := EnterInline(steps, 0, c);
    steps := EnterInline(steps, 1, c);
    var s := Execute(0, steps);
    assert Dispatches(s, IoThread(0), 1) && Dispatches(s, IoThread(1), 1);
    assert !Exclusive(s);
  }

  lemma Extend(n: nat, steps: seq<Step>, step: Step) returns (longer: seq<Step>)
    requires IsRun(n, steps) && Enabled(Execute(n, steps), step)
    ensures IsRun(n, longer) && Execute(n, longer) == Apply(Execute(n, steps), step)
  {
    longer := steps + [step];
    assert Init(longer) == steps;
  }

  /** Mutual exclusion per session holds in every run if and only if there is a logic worker. */
  lemma ExclusiveIffLogicWorkers(n: nat)
    ensures (forall steps :: IsRun(n, steps) ==> Exclusive(Execute(n, steps))) <==> 0 < n
  {
    if n == 0 {
      InlineDispatchIsNotExclusive();
    } else {
      forall steps | IsRun(n, steps)
        ensures Exclusive(Execute(n, steps))
      {
        LogicWorkersAreExclusive(n, steps);
      }
    }
  }
}

/** Where completions go over a run: each one is handed over exactly once, and selections go round the workers. */
module WorkerPoolHistory {
  import opened Division
  import opened Seqs
  import opened WorkerPool

  /** The completions that arrived at an IO thread. */
  function ArrivedAt(steps: seq<Step>, t: Thread): seq<Completion>
  {
    if steps == [] then []
    else
      ArrivedAt(Init(steps), t)
      + if Last(steps).Arrive? && Last(steps).t == t then [Last(steps).c] else []
  }

  /** The completion in an IO thread's hand that is not handed over yet. */
  function Carried(io: map<Thread, IoPosition>, t: Thread): seq<Completion>
  {
    if t !in io then []
    else
      match io[t]
      case Arrived(c) => [c]
      case Candidate(c, _) => [c]
      case LostRace(c, _) => [c]
      case Chosen(c, _) => [c]
      case _ => []
  }

  /** An IO thread hands its completion over with its step from `Chosen`, to the chosen worker. */
  predicate HandsOver(s: Pool, step: Step) { step.Io? && step.t in s.io && s.io[step.t].Chosen? }

  /** The completions that an IO thread has handed over. */
  ghost function HandedBy(n: nat, steps: seq<Step>, t: Thread): seq<Completion>
    requires IsRun(n, steps)
  {
    if steps == [] then []
    else
      var s := Execute(n, Init(steps));
      HandedBy(n, Init(steps), t)
      + if HandsOver(s, Last(steps)) && Last(steps).t == t then [s.io[t].c] else []
  }

  /** The completions that have been handed to a worker, by any IO thread. */
  ghost function HandedTo(n: nat, steps: seq<Step>, w: nat): seq<Completion>
    requires IsRun(n, steps)
  {
    if steps == [] then []
    else
      var s, step := Execute(n, Init(steps)), Last(steps);
      HandedTo(n, Init(steps), w)
      + if HandsOver(s, step) && s.io[step.t].worker == w then [s.io[step.t].c] else []
  }

  lemma LogicLeavesIo(s: Pool, w: nat)
    requires w < |s.workers|
    ensures LogicStep(s, w).io == s.io && LogicStep(s, w).roundRobin == s.roundRobin
  {
    hide OwnStep, Append;
  }

  lemma IoCarries(s: Pool, t: Thread)
    requires t in s.io
    ensures Carried(s.io, t) == (if s.io[t].Chosen? then [s.io[t].c] else []) + Carried(IoStep(s, t).io, t)
    ensures forall u :: u != t ==> Carried(IoStep(s, t).io, u) == Carried(s.io, u)
  {
    hide Append, Wake;
  }

  lemma StepCarries(s: Pool, step: Step, t: Thread)
    requires Enabled(s, step)
    ensures
      Carried(s.io, t) + (if step.Arrive? && step.t == t then [step.c] else [])
      == (if HandsOver(s, step) && step.t == t then [s.io[t].c] else []) + Carried(Apply(s, step).io, t)
  {
    match step
    case Arrive(_, _) =>
    case Io(u) => IoCarries(s, u); hide IoStep, Carried;
    case Logic(w) => LogicLeavesIo(s, w); hide LogicStep;
    case StopFlag =>
    case StopNotify =>
  }

  /** No completion is lost or doubled by an IO thread: what arrived at it is what it has handed over and what it
      still carries, in order. */
  lemma {:induction false} ArrivalsAreHandedOver(n: nat, steps: seq<Step>, t: Thread)
    requires IsRun(n, steps)
    ensures ArrivedAt(steps, t) == HandedBy(n, steps, t) + Carried(Execute(n, steps).io, t)
    decreases |steps|
  {
    if steps != [] {
      var s, step := Execute(n, Init(steps)), Last(steps);
      ArrivalsAreHandedOver(n, Init(steps), t);
      StepCarries(s, step, t);
      hide Apply, Enabled, Carried;
      Reassociate(HandedBy(n, Init(steps), t), Carried(s.io, t), if step.Arrive? && step.t == t then [step.c] else [],
                  if HandsOver(s, step) && step.t == t then [s.io[t].c] else [], Carried(Execute(n, steps).io, t));
    }
  }

  lemma Reassociate(a: seq<Completion>, b: seq<Completion>, c: seq<Completion>, d: seq<Completion>, e: seq<Completion>)
    requires b + c == d + e
    ensures (a + b) + c == (a + d) + e
  {
    assert (a + b) + c == a + (b + c) == a + (d + e);
  }

  lemma StepEnqueues(s: Pool, step: Step, w: nat)
    requires Enabled(s, step) && w < |s.workers| && w < |Apply(s, step).workers|
    requires step.Logic? ==> step.w < |s.workers| && Settled(s.workers[step.w].at, step.w)
    ensures Apply(s, step).workers[w].enqueued ==
      s.workers[w].enqueued + (if HandsOver(s, step) && s.io[step.t].worker == w then [s.io[step.t].c] else [])
  {}

  /** The worker is not about to send a completion on. */
  predicate Settled(at: LogicPosition, w: nat)
  {
    !at.Unbound? && !at.LostBinding? && !at.Forwarding? && (at.Routed? ==> at.target == w)
  }

  /** What a worker was ever given is what the IO threads handed to it, in that order, and nothing else. */
  lemma {:induction false} EnqueuedIsHandedTo(n: nat, steps: seq<Step>, w: nat)
    requires 0 < n && IsRun(n, steps) && w < n
    ensures |Execute(n, steps).workers| == n && Execute(n, steps).workers[w].enqueued == HandedTo(n, steps, w)
    decreases |steps|
  {
    PoolSize(n, steps);
    if steps != [] {
      EnqueuedIsHandedTo(n, Init(steps), w);
      RunsKeepInv(n, Init(steps));
      var s, step := Execute(n, Init(steps)), Last(steps);
      hide Apply, Enabled, IsRun, Execute;
      if step.Logic? && step.w < n {
        assert WorkerOk(s.bound, s.running, s.workers[step.w], step.w);
      }
      StepEnqueues(s, step, w);
    }
  }

  /** A step that takes a worker from the round-robin counter: no binding is known, and there are workers. */
  predicate Selects(s: Pool, step: Step)
  {
    step.Io? && step.t in s.io && s.io[step.t].Arrived? && !IsBound(s, s.io[step.t].c) && |s.workers| > 0
  }

  function TakenWorker(at: IoPosition): nat
  {
    match at
    case Candidate(_, w) => w
    case Chosen(_, w) => w
    case _ => 0
  }

  /** The workers that the unbound selections of a run took, in order. */
  ghost function Taken(n: nat, steps: seq<Step>): seq<nat>
    requires IsRun(n, steps)
  {
    if steps == [] then []
    else
      var s, step := Execute(n, Init(steps)), Last(steps);
      Taken(n, Init(steps))
      + if Selects(s, step) && step.t in Apply(s, step).io then [TakenWorker(Apply(s, step).io[step.t])] else []
  }

  /** The 32-bit counter after k increments. */
  function Wrapped(k: nat): nat { k % UINT32_RANGE }

  function RoundRobin(counter: nat, n: nat): nat
    requires n > 0
  {
    counter % n
  }

  lemma StepSelects(s: Pool, step: Step)
    requires Enabled(s, step) && s.roundRobin < UINT32_RANGE
    ensures
      var next := Apply(s, step);
      if Selects(s, step)
      then step.t in next.io && TakenWorker(next.io[step.t]) == RoundRobin(s.roundRobin, |s.workers|)
           && next.roundRobin == Wrapped(s.roundRobin + 1)
      else next.roundRobin == s.roundRobin
  {
    if step.Logic? {
      LogicLeavesIo(s, step.w);
      hide LogicStep;
    } else {
      hide Append, Wake;
    }
  }

  /** Over every interleaving the k-th unbound selection takes worker k mod n, as long as the 32-bit counter has not
      wrapped, and (k mod 2^32) mod n for ever. */
  lemma {:induction false} SelectionsGoRound(n: nat, steps: seq<Step>)
    requires 0 < n && IsRun(n, steps)
    ensures Execute(n, steps).roundRobin == Wrapped(|Taken(n, steps)|) < UINT32_RANGE
    ensures forall k :: 0 <= k < |Taken(n, steps)| ==> Taken(n, steps)[k] == RoundRobin(Wrapped(k), n)
    decreases |steps|
  {
    if steps != [] {
      SelectionsGoRound(n, Init(steps));
      PoolSize(n, Init(steps));
      StepSelects(Execute(n, Init(steps)), Last(steps));
      hide Apply, Enabled, Selects, TakenWorker, RoundRobin, Wrapped;
      NextCount(|Taken(n, Init(steps))|);
    }
  }

  lemma NextCount(k: nat)
    ensures Wrapped(Wrapped(k) + 1) == Wrapped(k + 1) < UINT32_RANGE
  {}

  lemma PlacesDiffer(i: nat, j: nat, n: nat)
    requires i < j < i + n && j < UINT32_RANGE
    ensures RoundRobin(Wrapped(i), n) != RoundRobin(Wrapped(j), n)
  {
    NotWrapped(i);
    NotWrapped(j);
    hide Wrapped;
    RemaindersDiffer(i, j, n);
  }

  lemma NotWrapped(k: nat)
    requires k < UINT32_RANGE
    ensures Wrapped(k) == k
  {}

  /** Any n successive unbound selections before the counter wraps take n different workers. */
  lemma SuccessiveSelectionsDiffer(n: nat, steps: seq<Step>, i: nat, j: nat)
    requires 0 < n && IsRun(n, steps) && i < j < |Taken(n, steps)| && j - i < n && j < UINT32_RANGE
    ensures Taken(n, steps)[i] != Taken(n, steps)[j]
  {
    hide *;
    SelectionsGoRound(n, steps);
    PlacesDiffer(i, j, n);
  }

  predicate HasStopped(steps: seq<Step>) { exists i :: 0 <= i < |steps| && steps[i].StopFlag? }

  lemma HasStoppedMore(before: seq<Step>, step: Step)
    ensures HasStopped(before + [step]) <==> HasStopped(before) || step.StopFlag?
  {
    var steps := before + [step];
    if HasStopped(before) {
      var i :| 0 <= i < |before| && before[i].StopFlag?;
      assert steps[i].StopFlag?;
    }
    if step.StopFlag? { assert steps[|before|].StopFlag?; }
  }

  lemma StepKeepsRunning(s: Pool, step: Step)
    requires Enabled(s, step)
    ensures Apply(s, step).running == (s.running && !step.StopFlag?)
  {}

  lemma {:induction false} RunningIsTold(n: nat, steps: seq<Step>)
    requires IsRun(n, steps)
    ensures Execute(n, steps).running == !HasStopped(steps)
    decreases |steps|
  {
    if steps != [] {
      assert steps == Init(steps) + [Last(steps)];
      RunningIsTold(n, Init(steps));
      HasStoppedMore(Init(steps), Last(steps));
      hide Apply, Enabled, HasStopped;
      StepKeepsRunning(Execute(n, Init(steps)), Last(steps));
    }
  }

  /** The step notifies the condition variable of worker w. */
  predicate Notifies(s: Pool, step: Step, w: nat)
  {
    (step.Io? && step.t in s.io && s.io[step.t] == Notifying(w)) || (step.StopNotify? && s.notified == w)
  }

  lemma WakingOnly(s: Pool, v: nat, w: nat)
    requires w < |s.workers|
    ensures |WakeWorker(s, v).workers| == |s.workers|
    ensures WakeWorker(s, v).workers[w].at.Asleep? <==> s.workers[w].at.Asleep? && v != w
  {}

  lemma IoSleeps(s: Pool, t: Thread, w: nat)
    requires t in s.io && w < |s.workers| == |IoStep(s, t).workers|
    ensures IoStep(s, t).workers[w].at.Asleep? <==> s.workers[w].at.Asleep? && s.io[t] != Notifying(w)
  {
    match s.io[t]
    case Notifying(v) => WakingOnly(s.(io := s.io - {t}), v, w);
    case _ => hide WakeWorker;
  }

  lemma LogicSleeps(s: Pool, v: nat, w: nat)
    requires v < |s.workers| && w < |s.workers| && Settled(s.workers[v].at, v)
    ensures |LogicStep(s, v).workers| == |s.workers|
    ensures LogicStep(s, v).workers[w].at.Asleep? <==>
      if v == w then s.workers[w].at.AtWait? && s.workers[w].pending == [] && s.running
      else s.workers[w].at.Asleep?
  {
    hide WakeWorker, Binding;
  }

  lemma StepSleeps(s: Pool, step: Step, w: nat)
    requires Enabled(s, step) && w < |s.workers| == |Apply(s, step).workers|
    requires step.Logic? ==> Settled(s.workers[step.w].at, step.w)
    ensures Apply(s, step).workers[w].at.Asleep? <==>
      if step == Logic(w) then s.workers[w].at.AtWait? && s.workers[w].pending == [] && s.running
      else s.workers[w].at.Asleep? && !Notifies(s, step, w)
  {
    hide IoStep, LogicStep, WakeWorker;
    match step
    case Io(t) => IoSleeps(s, t, w);
    case Logic(v) => LogicSleeps(s, v, w);
    case StopNotify => WakingOnly(s, s.notified, w);
    case _ =>
  }

  /** A worker goes to sleep exactly when it finds its queue empty before a Stop, and sleeps until it wakes by itself
      or is notified. */
  lemma WorkersSleepExactly(n: nat, before: seq<Step>, step: Step, w: nat)
    requires 0 < n && w < n && IsRun(n, before) && Enabled(Execute(n, before), step) && IsRun(n, before + [step])
    ensures |Execute(n, before).workers| == |Execute(n, before + [step]).workers| == n
    ensures
      var s := Execute(n, before);
      Execute(n, before + [step]).workers[w].at.Asleep? <==>
      if step == Logic(w) then s.workers[w].at.AtWait? && s.workers[w].pending == [] && !HasStopped(before)
      else s.workers[w].at.Asleep? && !Notifies(s, step, w)
  {
    assert Init(before + [step]) == before && Last(before + [step]) == step;
    assert Execute(n, before + [step]) == Apply(Execute(n, before), step);
    PoolSize(n, before);
    PoolSize(n, before + [step]);
    RunsKeepInv(n, before);
    RunningIsTold(n, before);
    var s := Execute(n, before);
    hide Apply, Execute, IsRun, HasStopped, Notifies;
    if step.Logic? {
      assert step.w < |s.workers| by { assert Enabled(s, step); }
      assert WorkerOk(s.bound, s.running, s.workers[step.w], step.w);
    }
    StepSleeps(s, step, w);
  }
}

/** Stop ends the logic workers. */
module WorkerPoolProgress {
  import opened Seqs
  import opened WorkerPool
  import opened WorkerPoolHistory

  function One(b: bool): nat { if b then 1 else 0 }

  function StepsOf(steps: seq<Step>, w: nat): nat
  {
    if steps == [] then 0 else StepsOf(Init(steps), w) + One(Last(steps) == Logic(w))
  }

  /** At most so many own steps to the end after a Stop, besides those for the completions still waiting. */
  function Rank(at: LogicPosition): nat
  {
    match at
    case Head => 2
    case AtWait => 3
    case Asleep => 4
    case Draining => 1
    case Popped(_, _) => 7
    case Unbound(_, _) => 6
    case LostBinding(_, _) => 5
    case Routed(_, _, _) => 4
    case Forwarding(_, _) => 3
    case Dispatching(_, _) => 3
    case Exited(_) => 0
  }

  function StepsLeft(worker: Worker): nat { 10 * |worker.pending| + Rank(worker.at) }

  lemma OwnStepComesCloser(worker: Worker, target: Option<nat>)
    requires !worker.at.Exited? && !worker.at.Unbound? && !worker.at.LostBinding? && !worker.at.Forwarding?
    ensures StepsLeft(OwnStep(worker, false, target)) < StepsLeft(worker)
  {
    match worker.at
    case Head =>
    case AtWait =>
    case Asleep =>
    case Draining =>
    case Popped(_, _) =>
    case Routed(_, _, _) =>
    case Dispatching(_, _) =>
  }

  lemma WakingComesCloser(s: Pool, v: nat, w: nat)
    requires w < |s.workers| == |WakeWorker(s, v).workers|
    ensures StepsLeft(WakeWorker(s, v).workers[w]) <= StepsLeft(s.workers[w])
  {}

  lemma IoAddsAtMostOne(s: Pool, t: Thread, w: nat)
    requires t in s.io && w < |s.workers| == |IoStep(s, t).workers|
    ensures StepsLeft(IoStep(s, t).workers[w]) <= StepsLeft(s.workers[w]) + 10 * One(s.io[t].Chosen? && s.io[t].worker == w)
  {
    match s.io[t]
    case Notifying(v) => WakingComesCloser(s.(io := s.io - {t}), v, w);
    case _ => hide WakeWorker, Rank;
  }

  lemma LogicComesCloser(s: Pool, v: nat, w: nat)
    requires !s.running && v < |s.workers| && w < |s.workers| && !s.workers[v].at.Exited? && Settled(s.workers[v].at, v)
    ensures |LogicStep(s, v).workers| == |s.workers|
    ensures StepsLeft(LogicStep(s, v).workers[w]) + One(v == w) <= StepsLeft(s.workers[w])
  {
    OwnStepComesCloser(s.workers[v], Binding(s, s.workers[v].at));
    hide WakeWorker, Binding, OwnStep, StepsLeft;
  }

  lemma StepComesCloser(s: Pool, step: Step, w: nat)
    requires !s.running && Enabled(s, step) && w < |s.workers| == |Apply(s, step).workers|
    requires step.Logic? ==> Settled(s.workers[step.w].at, step.w)
    ensures StepsLeft(Apply(s, step).workers[w]) + One(step == Logic(w)) <=
            StepsLeft(s.workers[w]) + 10 * One(HandsOver(s, step) && s.io[step.t].worker == w)
  {
    hide IoStep, LogicStep, WakeWorker, StepsLeft;
    match step
    case Io(t) => IoAddsAtMostOne(s, t, w);
    case Logic(v) => LogicComesCloser(s, v, w);
    case StopNotify => WakingComesCloser(s, s.notified, w);
    case _ =>
  }

  lemma {:induction false} StoppedWorkerCounts(n: nat, before: seq<Step>, after: seq<Step>, w: nat)
    requires 0 < n && w < n && IsRun(n, before) && IsRun(n, before + after) && HasStopped(before)
    ensures |Execute(n, before).workers| == |Execute(n, before + after).workers| == n
    ensures
      StepsOf(after, w) + StepsLeft(Execute(n, before + after).workers[w]) + 10 * |HandedTo(n, before, w)| <=
      StepsLeft(Execute(n, before).workers[w]) + 10 * |HandedTo(n, before + after, w)|
    decreases |after|
  {
    PoolSize(n, before);
    PoolSize(n, before + after);
    if after == [] {
      assert before + after == before;
    } else {
      var steps := before + after;
      assert Init(steps) == before + Init(after) && Last(steps) == Last(after);
      var s, step := Execute(n, Init(steps)), Last(steps);
      assert Enabled(s, step) && Execute(n, steps) == Apply(s, step);
      assert HandedTo(n, steps, w) == HandedTo(n, Init(steps), w)
        + (if HandsOver(s, step) && s.io[step.t].worker == w then [s.io[step.t].c] else []);
      StoppedWorkerCounts(n, before, Init(after), w);
      RunsKeepInv(n, Init(steps));
      StoppedEarlier(before, Init(after));
      RunningIsTold(n, Init(steps));
      hide Apply, Execute, IsRun, HasStopped, HandedTo, StepsLeft, HandsOver;
      if step.Logic? {
        assert step.w < |s.workers| by { assert Enabled(s, step); }
        assert WorkerOk(s.bound, s.running, s.workers[step.w], step.w);
      }
      StepComesCloser(s, step, w);
    }
  }

  lemma StoppedEarlier(before: seq<Step>, more: seq<Step>)
    requires HasStopped(before)
    ensures HasStopped(before + more)
  {
    var i :| 0 <= i < |before| && before[i].StopFlag?;
    assert (before + more)[i].StopFlag?;
  }

  lemma LeftAtMost(worker: Worker)
    ensures 10 * |worker.pending| <= StepsLeft(worker) <= 10 * |worker.pending| + 7
  {}

  lemma SleeperAwaitsTheStop(n: nat, steps: seq<Step>, w: nat)
    requires 0 < n && w < n && IsRun(n, steps) && HasStopped(steps) && |Execute(n, steps).workers| == n
    requires Execute(n, steps).workers[w].at.Asleep?
    ensures Execute(n, steps).notified <= w && Enabled(Execute(n, steps), StopNotify)
  {
    RunsKeepInv(n, steps);
    RunningIsTold(n, steps);
    hide Execute, IsRun, HasStopped, SomeoneNotifies, Affine;
    assert WakeOk(Execute(n, steps), w);
  }

  /** After a Stop a worker takes at most ten steps for every completion that waits or is still handed to it, and a
      few more, whatever the other threads do. Until it has ended it can take one, and if it sleeps the notification
      of that Stop is still to come. */
  lemma StopEndsTheWorker(n: nat, before: seq<Step>, after: seq<Step>, w: nat)
    requires 0 < n && w < n && IsRun(n, before) && IsRun(n, before + after) && HasStopped(before)
    ensures |Execute(n, before).workers| == |Execute(n, before + after).workers| == n
    ensures
      var handed := |HandedTo(n, before + after, w)| - |HandedTo(n, before, w)|;
      StepsOf(after, w) <= 10 * (|Execute(n, before).workers[w].pending| + handed) + 7
    ensures Execute(n, before + after).workers[w].at.Exited? || Enabled(Execute(n, before + after), Logic(w))
    ensures Execute(n, before + after).workers[w].at.Asleep? ==>
      Execute(n, before + after).notified <= w && Enabled(Execute(n, before + after), StopNotify)
  {
    StoppedWorkerCounts(n, before, after, w);
    StoppedEarlier(before, after);
    hide Execute, IsRun, StepsOf, HandedTo, HasStopped, StepsLeft;
    LeftAtMost(Execute(n, before).workers[w]);
    if Execute(n, before + after).workers[w].at.Asleep? { SleeperAwaitsTheStop(n, before + after, w); }
  }
}
