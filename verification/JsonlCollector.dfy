/** The collector object: `try_collect` and `stop` as critical sections, and the worker's loop from the moment
    `stop` has closed the intake. Interleavings are the subject of JsonlProtocol; here the loops of `_run` and
    `_fail` are proved against what they leave behind. */
module JsonlCollector {
  import opened Seqs
  import opened JsonlProtocol
  import opened JsonlAccounting

  lemma ShiftToLost(file: seq<Record>, lost: seq<Record>, queue: seq<Record>)
    requires queue != []
    ensures lost + [queue[0]] + queue[1..] == lost + queue
    ensures file + (lost + [queue[0]]) + queue[1..] == file + lost + queue
  {
    assert queue == [queue[0]] + queue[1..];
  }

  class AsyncJsonlCollector {
    const capacity: nat
    var queue: seq<Record>
    var accepting: bool
    var stopRequested: bool
    var tally: Tally
    var inFlight: nat
    var written: nat
    var flushed: nat
    var failedRecords: nat
    var writeError: bool
    var state: RunState
    var shutdownComplete: bool
    var timedOut: bool
    /** The completely written lines of the stream, and how many of them a flush has pushed out. */
    var file: seq<Record>
    ghost var durable: nat
    ghost var accepted: seq<Record>
    ghost var lost: seq<Record>

    ghost function IntakeView(): Intake
      reads this
    {
      Intake(capacity, queue, accepting, false, tally, accepted)
    }

    /** Between two records the worker holds nothing, so the books close over file, losses and queue. */
    ghost predicate Valid()
      reads this
    {
      && IntakeOk(IntakeView())
      && accepted == file + lost + queue
      && |file| == written && |lost| == failedRecords
      && flushed <= durable <= |file|
    }

    constructor (capacity: nat)
      ensures Valid() && this.capacity == capacity
      ensures IntakeView() == Start(capacity).intake
      ensures file == lost == [] && !stopRequested && !writeError && !shutdownComplete && !timedOut
    {
      this.capacity := capacity;
      queue, accepting, stopRequested, tally, accepted := [], true, false, Tally(0, 0, 0, 0, 0, 0), [];
      inFlight, written, flushed, failedRecords, writeError := 0, 0, 0, 0, false;
      file, durable, lost := [], 0, [];
      state, shutdownComplete, timedOut := Running, false, false;
    }

    /** Never waits: the record is counted, and either refused for one reason or put behind all others. */
    method TryCollect(payload: string) returns (stored: bool)
      requires Valid()
      modifies this`queue, this`tally, this`accepted
      ensures Valid()
      ensures stored <==> !writeError && accepting && |old(queue)| < capacity
      ensures queue == old(queue) + (if stored then [Record(old(tally).attempted + 1, payload)] else [])
      ensures accepted == old(accepted) + (if stored then [Record(old(tally).attempted + 1, payload)] else [])
      ensures tally.attempted == old(tally).attempted + 1
      ensures tally.enqueued == old(tally).enqueued + (if stored then 1 else 0)
      ensures tally.droppedFailed == old(tally).droppedFailed + (if writeError then 1 else 0)
      ensures tally.droppedClosed == old(tally).droppedClosed + (if !writeError && !accepting then 1 else 0)
      ensures tally.droppedFull ==
        old(tally).droppedFull + (if !writeError && accepting && |old(queue)| >= capacity then 1 else 0)
      ensures tally.highWatermark == if stored then Max(old(tally).highWatermark, |queue|) else old(tally).highWatermark
      ensures stored ==> IntakeView() == CountOfferStep(OfferStep(old(IntakeView()), writeError, payload))
      ensures !stored ==> IntakeView() == OfferStep(old(IntakeView()), writeError, payload)
    {
      hide IntakeOk;
      OfferKeepsIntake(IntakeView(), writeError, payload);
      if Refusal(IntakeView(), writeError) == NoDrop {
        CountOfferKeepsIntake(OfferStep(IntakeView(), writeError, payload));
      }
      tally := tally.(attempted := tally.attempted + 1);
      if writeError {
        tally := tally.(droppedFailed := tally.droppedFailed + 1);
        return false;
      }
      if !accepting {
        tally := tally.(droppedClosed := tally.droppedClosed + 1);
        return false;
      }
      if |queue| >= capacity {
        tally := tally.(droppedFull := tally.droppedFull + 1);
        return false;
      }
      var record := Record(tally.attempted, payload);
      assert file + lost + queue + [record] == file + lost + (queue + [record]);
      queue, accepted := queue + [record], accepted + [record];
      tally := tally.(enqueued := tally.enqueued + 1, highWatermark := Max(tally.highWatermark, |queue|));
      return true;
    }

    method Stop()
      requires Valid()
      modifies this`accepting, this`state, this`stopRequested
      ensures Valid() && !accepting && stopRequested
      ensures state == (if old(state).Running? then Stopping else old(state))
    {
      accepting := false;
      if state.Running? { state := Stopping; }
      stopRequested := true;
    }

    method Flush() returns (ok: bool)
      requires Valid()
      modifies this`durable, this`flushed
      ensures Valid()
      ensures ok ==> durable == |file| && flushed == written
      ensures !ok ==> durable == old(durable) && flushed == old(flushed)
    {
      ok := *;
      if ok { durable, flushed := |file|, written; }
    }

    /** The failure handler: everything still waiting is counted as failed. */
    method Fail()
      requires Valid()
      modifies this`accepting, this`writeError, this`state, this`queue, this`lost, this`failedRecords
      ensures Valid() && !accepting && writeError && state == Broken
      ensures queue == [] && lost == old(lost + queue)
    {
      hide Increasing, NumberedUpTo, NumberedFromOne;
      accepting, writeError, state := false, true, Broken;
      while queue != []
        invariant Valid() && !accepting && writeError && state == Broken
        invariant lost + queue == old(lost + queue)
        decreases |queue|
      {
        ShiftToLost(file, lost, queue);
        queue, lost, failedRecords := queue[1..], lost + [queue[0]], failedRecords + 1;
      }
    }

    /** One record: written, or counted as failed. */
    method WriteNext() returns (ok: bool)
      requires Valid() && queue != [] && lost == []
      modifies this`queue, this`inFlight, this`file, this`written, this`lost, this`failedRecords
      ensures Valid() && inFlight == 0 && queue == old(queue)[1..]
      ensures ok ==> file == old(file) + [old(queue)[0]] && lost == []
      ensures !ok ==> file == old(file) && lost == [old(queue)[0]]
    {
      hide Increasing, NumberedUpTo, NumberedFromOne;
      var record := queue[0];
      assert queue == [record] + queue[1..];
      assert file + lost + queue == file + [record] + [] + queue[1..];
      queue, inFlight := queue[1..], 1;
      ok := *;
      if ok {
        file, written := file + [record], written + 1;
      } else {
        lost, failedRecords := [record], failedRecords + 1;
      }
      inFlight := 0;
    }

    /** The main loop after a stop request, up to the first write or flush that goes wrong. */
    method Drain() returns (ok: bool)
      requires Valid() && stopRequested && lost == []
      modifies this`queue, this`inFlight, this`file, this`written, this`lost, this`failedRecords, this`durable, this`flushed
      ensures Valid() && old(file) <= file && file + lost + queue == old(file + queue)
      ensures ok ==> queue == [] && lost == [] && durable == |file| && flushed == written
    {
      hide IntakeOk;
      ok := true;
      while ok && !(stopRequested && queue == [])
        invariant Valid() && (ok ==> lost == [])
        invariant old(file) <= file && accepted == old(accepted)
        decreases |queue|, ok
      {
        ok := WriteNext();
        if ok {
          var due: bool := *;
          if due { ok := Flush(); }
        }
      }
      if ok { ok := Flush(); }
    }

    /** Drain, then fail if anything went wrong, then close the stream. */
    method Finish()
      requires Valid() && stopRequested && !accepting && lost == [] && !writeError
      modifies this`queue, this`inFlight, this`file, this`written, this`lost, this`failedRecords, this`durable
      modifies this`flushed, this`accepting, this`writeError, this`state
      ensures Valid() && queue == [] && !accepting
      ensures old(file) <= file && file + lost == old(file + queue)
      ensures !writeError ==> lost == [] && durable == |file| && flushed == written
    {
      hide IntakeOk;
      var ok := Drain();
      if !ok { Fail(); }
      assert file + lost + queue == file + lost;
      ok := *;
      if !ok { Fail(); }
      assert lost + [] == lost;
    }

    /** The worker from the stop request to its summary. Nothing stays queued; every waiting record is written
        in order or counted as lost; and `complete` is claimed exactly when nothing went wrong and nothing
        was ever refused, of a file that holds, flushed and under the ids 1..n, everything attempted. */
    method Run() returns (complete: bool)
      requires Valid() && stopRequested && !accepting && lost == [] && !writeError && !shutdownComplete
      modifies this
      ensures Valid() && queue == [] && !accepting && tally == old(tally)
      ensures old(file) <= file && file + lost == old(file + queue)
      ensures shutdownComplete <==> !writeError
      ensures !writeError ==> lost == [] && durable == |file| && state == Ended
      ensures complete ==> durable == |file| == tally.attempted && NumberedFromOne(file)
      ensures complete <==> !writeError && !timedOut && tally.attempted == tally.enqueued
    {
      hide Increasing, NumberedUpTo, NumberedFromOne;
      Finish();
      accepting := false;
      if !writeError { state, shutdownComplete := Ended, true; }
      complete := shutdownComplete && !timedOut && flushed == tally.enqueued
        && tally.droppedFull == tally.droppedClosed == tally.droppedFailed == failedRecords == 0;
      assert accepted == file + lost + [];
      assert !writeError ==> accepted == file;
    }
  }
}
