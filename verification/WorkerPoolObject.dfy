/** The pool object: its queue operations as single critical sections, and a logic worker's last loop. The
    interleavings are the subject of WorkerPool; here the operations are proved against its histories. */
module WorkerPoolObject {
  import opened Seqs
  import opened WorkerPool

  /** Where a completion goes, and what the selection leaves behind. */
  datatype Selection = Selection(worker: nat, bound: map<SessionId, nat>, roundRobin: nat)

  function Select(bound: map<SessionId, nat>, roundRobin: nat, n: nat, c: Completion): Selection
  {
    if n == 0 then Selection(0, bound, roundRobin)
    else if c.owner.Some? && c.owner.value in bound then Selection(bound[c.owner.value], bound, roundRobin)
    else
      var candidate := roundRobin % n;
      Selection(candidate, if c.owner.Some? then bound[c.owner.value := candidate] else bound, (roundRobin + 1) % UINT32_RANGE)
  }

  /** An undisturbed selection by an IO thread of the protocol ends in the same choice and the same bindings. */
  lemma SelectIsTheProtocolsChoice(s: Pool, t: Thread, c: Completion)
    requires t in s.io && s.io[t] == Arrived(c)
    ensures
      var one := IoStep(s, t);
      var choice := Select(s.bound, s.roundRobin, |s.workers|, c);
      var end := if one.io[t].Candidate? then IoStep(one, t) else one;
      && end.io[t] == Chosen(c, choice.worker)
      && end.bound == choice.bound && end.roundRobin == choice.roundRobin && end.workers == s.workers
  {}

  class IocpWorkerPool {
    var queues: seq<seq<Completion>>
    var bound: map<SessionId, nat>
    var roundRobin: nat
    var running: bool
    ghost var enqueued: seq<seq<Completion>>
    ghost var dispatched: seq<seq<Completion>>
    ghost var inline: seq<Completion>

    /** Each worker's history, and every session's completions at the worker that the session is bound to. */
    ghost predicate Valid()
      reads this
    {
      && |queues| == |enqueued| == |dispatched|
      && (forall w :: 0 <= w < |queues| ==> enqueued[w] == dispatched[w] + queues[w])
      && (forall sid :: sid in bound ==> |queues| > 0 ==> bound[sid] < |queues|)
      && (forall w, c :: 0 <= w < |queues| && c in enqueued[w] ==> BelongsTo(bound, c, w))
    }

    constructor (logicThreads: nat)
      ensures Valid() && |queues| == logicThreads && running && bound == map[] && roundRobin == 0 && inline == []
      ensures forall w :: 0 <= w < logicThreads ==> queues[w] == [] && dispatched[w] == []
    {
      queues := seq(logicThreads, _ => []);
      enqueued, dispatched, inline := seq(logicThreads, _ => []), seq(logicThreads, _ => []), [];
      bound, roundRobin, running := map[], 0, true;
    }

    method SelectLogicWorker(c: Completion) returns (w: nat)
      requires Valid()
      modifies this`bound, this`roundRobin
      ensures Valid()
      ensures Selection(w, bound, roundRobin) == Select(old(bound), old(roundRobin), |queues|, c)
      ensures |queues| > 0 ==> w < |queues| && BelongsTo(bound, c, w)
    {
      if |queues| == 0 { return 0; }
      if c.owner.Some? && c.owner.value in bound { return bound[c.owner.value]; }
      w := roundRobin % |queues|;
      roundRobin := (roundRobin + 1) % UINT32_RANGE;
      if c.owner.Some? { bound := bound[c.owner.value := w]; }
    }

    /** The completion goes behind all others of its worker; an id outside the pool is dispatched inline. */
    method EnqueueToWorker(w: nat, c: Completion)
      requires |queues| == |enqueued|
      modifies this`queues, this`enqueued, this`inline
      ensures old(Valid()) && (w < |old(queues)| ==> BelongsTo(bound, c, w)) ==> Valid()
      ensures w < |old(queues)| ==>
        queues == old(queues)[w := old(queues)[w] + [c]] && enqueued == old(enqueued)[w := old(enqueued)[w] + [c]] && inline == old(inline)
      ensures w >= |old(queues)| ==> queues == old(queues) && enqueued == old(enqueued) && inline == old(inline) + [c]
    {
      if w >= |queues| {
        inline := inline + [c];
        return;
      }
      enqueued := enqueued[w := enqueued[w] + [c]];
      queues := queues[w := queues[w] + [c]];
    }

    /** The body of the IO loop: with at least one logic worker nothing is ever dispatched by an IO thread. */
    method HandleCompletion(c: Completion) returns (w: nat)
      requires Valid()
      modifies this`queues, this`enqueued, this`inline, this`bound, this`roundRobin
      ensures Valid() && |queues| == |old(queues)|
      ensures |queues| > 0 ==>
        w < |queues| && BelongsTo(bound, c, w) && inline == old(inline) && enqueued == old(enqueued)[w := old(enqueued)[w] + [c]]
      ensures |queues| == 0 ==> inline == old(inline) + [c]
      ensures forall sid :: sid in old(bound) ==> sid in bound && bound[sid] == old(bound)[sid]
    {
      w := SelectLogicWorker(c);
      EnqueueToWorker(w, c);
    }

    /** The first waiting completion, if any. */
    method WaitPopLocal(w: nat) returns (item: Option<Completion>)
      requires w < |queues|
      modifies this`queues
      ensures item.None? <==> old(queues)[w] == []
      ensures item.None? ==> queues == old(queues)
      ensures item.Some? ==> queues == old(queues)[w := old(queues)[w][1..]] && item.value == old(queues)[w][0]
    {
      if queues[w] == [] { return None; }
      item := Some(queues[w][0]);
      queues := queues[w := queues[w][1..]];
    }

    /** A completion in a worker's hand: dispatched here if its session is bound here, or has no binding yet and
        gets one, or if there is no session; otherwise sent to the bound worker's queue. */
    method DispatchOrForward(w: nat, c: Completion) returns (here: bool)
      requires |queues| == |enqueued| == |dispatched| && w < |queues|
      modifies this`queues, this`enqueued, this`inline, this`dispatched, this`bound
      ensures here <==> c.owner.None? || c.owner.value !in old(bound) || old(bound)[c.owner.value] == w
      ensures bound == if c.owner.Some? && c.owner.value !in old(bound) then old(bound)[c.owner.value := w] else old(bound)
      ensures here ==> dispatched == old(dispatched)[w := old(dispatched)[w] + [c]]
      ensures here ==> queues == old(queues) && enqueued == old(enqueued) && inline == old(inline)
      ensures !here ==> dispatched == old(dispatched)
      ensures !here && bound[c.owner.value] < |old(queues)| ==>
        var v := bound[c.owner.value];
        queues == old(queues)[v := old(queues)[v] + [c]] && enqueued == old(enqueued)[v := old(enqueued)[v] + [c]] && inline == old(inline)
    {
      if c.owner.None? {
        dispatched := dispatched[w := dispatched[w] + [c]];
        return true;
      }
      if c.owner.value !in bound { bound := bound[c.owner.value := w]; }
      if bound[c.owner.value] != w {
        EnqueueToWorker(bound[c.owner.value], c);
        return false;
      }
      dispatched := dispatched[w := dispatched[w] + [c]];
      return true;
    }

    /** One turn of a worker: a completion of its own queue reaches its handler, and is never forwarded. */
    method DispatchNext(w: nat) returns (item: Option<Completion>)
      requires Valid() && w < |queues|
      modifies this`queues, this`enqueued, this`inline, this`dispatched, this`bound
      ensures Valid() && bound == old(bound) && enqueued == old(enqueued) && inline == old(inline)
      ensures item.None? <==> old(queues)[w] == []
      ensures item.None? ==> queues == old(queues) && dispatched == old(dispatched)
      ensures item.Some? ==>
        && item.value == old(queues)[w][0]
        && queues == old(queues)[w := old(queues)[w][1..]]
        && dispatched == old(dispatched)[w := old(dispatched)[w] + [item.value]]
    {
      item := WaitPopLocal(w);
      if item.Some? {
        assert item.value in enqueued[w];
        var here := DispatchOrForward(w, item.value);
      }
    }

    method Stop()
      modifies this`running
      ensures !running
    {
      running := false;
    }

    /** A logic worker after Stop: everything that was enqueued is dispatched, in the order it was enqueued. */
    method DrainWorker(w: nat)
      requires Valid() && w < |queues| && !running
      modifies this`queues, this`enqueued, this`inline, this`dispatched, this`bound
      ensures Valid() && |queues| == |old(queues)| && queues[w] == [] && dispatched[w] == enqueued[w] == old(enqueued)[w]
      ensures forall v :: 0 <= v < |queues| && v != w ==> queues[v] == old(queues)[v] && dispatched[v] == old(dispatched)[v]
      ensures bound == old(bound) && inline == old(inline)
    {
      var more := true;
      while more
        invariant Valid() && |queues| == |old(queues)| && bound == old(bound) && enqueued == old(enqueued) && inline == old(inline)
        invariant !more ==> queues[w] == []
        invariant forall v :: 0 <= v < |queues| && v != w ==> queues[v] == old(queues)[v] && dispatched[v] == old(dispatched)[v]
        decreases |queues[w]|, more
      {
        var item := DispatchNext(w);
        more := item.Some?;
      }
    }
  }
}
