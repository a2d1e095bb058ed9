/** The bounded queue between the collector and the inference worker, as its methods see it while
    they hold the lock. */
module FeatureQueue {
  import opened Seqs

  datatype Queued<+T> = Queued(sequenceId: nat, item: T)

  /** `accepted` and `removed` are the queue's history: everything that ever entered, and everything
      that ever left, in order. */
  datatype QueueState<T> = QueueState(
    capacity: nat,
    queue: seq<Queued<T>>,
    closed: bool,
    nextSequenceId: nat,
    droppedCount: nat,
    accepted: seq<Queued<T>>,
    removed: seq<Queued<T>>)
  {
    predicate IsFull() { |queue| >= capacity }

    /** Entered = left + waiting, and the ids are 1, 2, 3, ... in order of entry. */
    ghost predicate Valid() {
      && 0 < capacity
      && |queue| <= capacity
      && accepted == removed + queue
      && nextSequenceId == |accepted|
      && forall i :: 0 <= i < |accepted| ==> accepted[i].sequenceId == i + 1
    }
  }

  function Fresh<T>(capacity: nat): QueueState<T>
  {
    QueueState(capacity, [], false, 0, 0, [], [])
  }

  function Enqueue<T>(s: QueueState<T>, item: T): QueueState<T>
  {
    var queued := Queued(s.nextSequenceId + 1, item);
    s.(queue := s.queue + [queued], nextSequenceId := s.nextSequenceId + 1, accepted := s.accepted + [queued])
  }

  function Dequeue<T>(s: QueueState<T>): QueueState<T>
    requires s.queue != []
  {
    s.(queue := s.queue[1..], removed := s.removed + [s.queue[0]])
  }

  predicate Refuses<T>(s: QueueState<T>) { s.closed || s.IsFull() }

  function TryPushStep<T>(s: QueueState<T>, item: T): QueueState<T>
  {
    if Refuses(s) then s.(droppedCount := s.droppedCount + 1) else Enqueue(s, item)
  }

  function ClearStep<T>(s: QueueState<T>): QueueState<T>
  {
    s.(queue := [], removed := s.removed + s.queue)
  }

  lemma EnqueueKeepsValid<T>(s: QueueState<T>, item: T)
    requires s.Valid() && !s.IsFull()
    ensures Enqueue(s, item).Valid()
  {
    var s' := Enqueue(s, item);
    assert s'.accepted == s'.removed + s'.queue;
  }

  lemma DequeueKeepsValid<T>(s: QueueState<T>)
    requires s.Valid() && s.queue != []
    ensures Dequeue(s).Valid()
    ensures Dequeue(s).removed == s.accepted[..|s.removed| + 1]
    ensures s.queue[0].sequenceId == |s.removed| + 1
  {
    assert s.accepted[|s.removed|] == s.queue[0];
    assert s.queue == [s.queue[0]] + s.queue[1..];
  }

  lemma ClearKeepsValid<T>(s: QueueState<T>)
    requires s.Valid()
    ensures ClearStep(s).Valid()
  {}

  /** First in, first out, without loss or repetition: what left, followed by what waits, carries
      exactly the ids 1..n. */
  lemma RemovedThenQueuedIsContiguous<T>(s: QueueState<T>)
    requires s.Valid()
    ensures forall i :: 0 <= i < |s.removed| ==> s.removed[i].sequenceId == i + 1
    ensures forall i :: 0 <= i < |s.queue| ==> s.queue[i].sequenceId == |s.removed| + i + 1
  {
    forall i | 0 <= i < |s.removed|
      ensures s.removed[i].sequenceId == i + 1
    {
      assert s.accepted[i] == s.removed[i];
    }
    forall i | 0 <= i < |s.queue|
      ensures s.queue[i].sequenceId == |s.removed| + i + 1
    {
      assert s.accepted[|s.removed| + i] == s.queue[i];
    }
  }

  /** The queue object. Each method is one critical section; a method that waits is entered at the
      moment its wait predicate holds. */
  class AsyncFeatureQueue<T> {
    const capacity: nat
    var queue: seq<Queued<T>>
    var closed: bool
    var nextSequenceId: nat
    var droppedCount: nat
    ghost var accepted: seq<Queued<T>>
    ghost var removed: seq<Queued<T>>

    ghost function View(): QueueState<T>
      reads this
    {
      QueueState(capacity, queue, closed, nextSequenceId, droppedCount, accepted, removed)
    }

    ghost predicate Valid()
      reads this
    {
      View().Valid()
    }

    constructor (capacity: nat)
      requires 0 < capacity
      ensures Valid() && View() == Fresh(capacity)
    {
      this.capacity := capacity;
      queue, closed, nextSequenceId, droppedCount := [], false, 0, 0;
      accepted, removed := [], [];
    }

    /** A capacity of zero is refused. */
    static method Create(capacity: nat) returns (r: Option<AsyncFeatureQueue<T>>)
      ensures r.None? <==> capacity == 0
      ensures r.Some? ==> fresh(r.value) && r.value.Valid() && r.value.View() == Fresh(capacity)
    {
      if capacity == 0 {
        return None;
      }
      var q := new AsyncFeatureQueue<T>(capacity);
      return Some(q);
    }

    method MakeQueuedItem(item: T) returns (queued: Queued<T>)
      modifies this`nextSequenceId
      ensures nextSequenceId == old(nextSequenceId) + 1
      ensures queued == Queued(nextSequenceId, item)
    {
      nextSequenceId := nextSequenceId + 1;
      queued := Queued(nextSequenceId, item);
    }

    method TryPush(item: T) returns (ok: bool)
      requires Valid()
      modifies this
      ensures Valid() && View() == TryPushStep(old(View()), item)
      ensures ok <==> !old(closed) && |old(queue)| < capacity
      ensures queue == if ok then old(queue) + [Queued(old(nextSequenceId) + 1, item)] else old(queue)
      ensures droppedCount == if ok then old(droppedCount) else old(droppedCount) + 1
    {
      if closed || |queue| >= capacity {
        droppedCount := droppedCount + 1;
        return false;
      }
      EnqueueKeepsValid(View(), item);
      var queued := MakeQueuedItem(item);
      queue := queue + [queued];
      accepted := accepted + [queued];
      return true;
    }

    /** The part of WaitPush after its wait; a closed queue refuses without counting a drop. */
    method WaitPush(item: T) returns (ok: bool)
      requires Valid()
      requires closed || |queue| < capacity
      modifies this
      ensures Valid() && ok == !old(closed)
      ensures View() == if ok then Enqueue(old(View()), item) else old(View())
      ensures ok ==> queue == old(queue) + [Queued(old(nextSequenceId) + 1, item)] && droppedCount == old(droppedCount)
    {
      if closed {
        return false;
      }
      EnqueueKeepsValid(View(), item);
      var queued := MakeQueuedItem(item);
      queue := queue + [queued];
      accepted := accepted + [queued];
      return true;
    }

    method TryPop() returns (r: Option<Queued<T>>)
      requires Valid()
      modifies this
      ensures Valid()
      ensures old(queue) == [] ==> r == None && View() == old(View())
      ensures old(queue) != [] ==> r == Some(old(queue)[0]) && queue == old(queue)[1..] && View() == Dequeue(old(View()))
    {
      if queue == [] {
        return None;
      }
      DequeueKeepsValid(View());
      r := Some(queue[0]);
      removed := removed + [queue[0]];
      queue := queue[1..];
    }

    /** The part of WaitPop after its wait. It fails exactly when the queue is closed and drained. */
    method WaitPop() returns (r: Option<Queued<T>>)
      requires Valid()
      requires closed || queue != []
      modifies this
      ensures Valid()
      ensures old(queue) == [] ==> r == None && closed && View() == old(View())
      ensures old(queue) != [] ==> r == Some(old(queue)[0]) && queue == old(queue)[1..] && View() == Dequeue(old(View()))
    {
      r := TryPop();
    }

    method Close()
      requires Valid()
      modifies this
      ensures Valid() && View() == old(View()).(closed := true)
    {
      closed := true;
    }

    method Clear()
      requires Valid()
      modifies this
      ensures Valid() && View() == ClearStep(old(View()))
      ensures queue == [] && closed == old(closed) && droppedCount == old(droppedCount) && nextSequenceId == old(nextSequenceId)
    {
      ClearKeepsValid(View());
      removed := removed + queue;
      queue := [];
    }
  }
}
