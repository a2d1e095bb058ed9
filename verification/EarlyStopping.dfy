/** Early stopping: the stop state, and the epoch loop that trains one array of weights in place and keeps a copy
    of the best. */
module EarlyStopping {
  import opened Seqs

  /** `best` is absent before the first epoch, which stands for an infinite loss. */
  datatype Stop = Stop(best: Option<real>, bestEpoch: nat, stale: nat)

  function Advance(s: Stop, epoch: nat, loss: real): Stop
  {
    if s.best.None? || loss < s.best.value then Stop(Some(loss), epoch, 0) else s.(stale := s.stale + 1)
  }

  function After(losses: seq<real>): Stop
  {
    if losses == [] then Stop(None, 0, 0) else Advance(After(Init(losses)), |losses|, Last(losses))
  }

  /** What the three running values mean: the least loss so far, the first epoch that had it, and the epochs
      since. */
  lemma {:induction false} AfterMeans(losses: seq<real>)
    requires losses != []
    ensures
      var s := After(losses);
      && 1 <= s.bestEpoch <= |losses|
      && s.best == Some(losses[s.bestEpoch - 1])
      && (forall i :: 0 <= i < |losses| ==> losses[s.bestEpoch - 1] <= losses[i])
      && (forall i :: 0 <= i < s.bestEpoch - 1 ==> losses[s.bestEpoch - 1] < losses[i])
      && s.stale == |losses| - s.bestEpoch
  {
    if |losses| > 1 {
      AfterMeans(Init(losses));
    } else {
      assert Init(losses) == [];
    }
  }

  class StopState {
    const patience: nat
    var bestLoss: Option<real>
    var bestEpoch: nat
    var staleEpochs: nat

    ghost function View(): Stop
      reads this
    {
      Stop(bestLoss, bestEpoch, staleEpochs)
    }

    constructor (patience: nat)
      ensures this.patience == patience && View() == After([])
    {
      this.patience := patience;
      bestLoss, bestEpoch, staleEpochs := None, 0, 0;
    }

    /** A loss that is not finite is refused; otherwise says whether it improved and whether to stop. */
    method Update(epoch: nat, loss: Option<real>) returns (improved: bool, shouldStop: bool, ok: bool)
      modifies this
      ensures ok <==> loss.Some?
      ensures !ok ==> View() == old(View())
      ensures ok ==> View() == Advance(old(View()), epoch, loss.value)
      ensures ok ==> (improved <==> View().stale == 0) && (shouldStop <==> View().stale >= patience)
    {
      improved, shouldStop, ok := false, false, loss.Some?;
      if !ok { return; }
      improved := bestLoss.None? || loss.value < bestLoss.value;
      if improved {
        bestLoss, bestEpoch, staleEpochs := loss, epoch, 0;
      } else {
        staleEpochs := staleEpochs + 1;
      }
      shouldStop := staleEpochs >= patience;
    }
  }

  /** A weight that is not finite is absent. */
  type Weight = Option<real>
  type State = seq<Weight>

  /** The losses of given weights on the training and on the validation set; absent when not finite. */
  type Measure = State -> Option<real>

  predicate AllFinite(state: State) { forall i :: 0 <= i < |state| ==> state[i].Some? }

  /** The epochs of one fit: the weights after each epoch and their validation losses. */
  ghost predicate Trajectory(train: Measure, evaluate: Measure, states: seq<State>, losses: seq<real>)
  {
    && |states| == |losses|
    && forall i :: 0 <= i < |states| ==> train(states[i]).Some? && evaluate(states[i]) == Some(losses[i])
  }

  /** Training ended at the first epoch whose patience ran out, or at the limit. */
  ghost predicate EndsInTime(losses: seq<real>, patience: nat, maxEpochs: nat)
  {
    && 1 <= |losses| <= maxEpochs
    && (forall m :: 1 <= m < |losses| ==> After(losses[..m]).stale < patience)
    && (After(losses).stale >= patience || |losses| == maxEpochs)
  }

  /** One optimizer pass overwrites the weights; what it computes is not modelled. */
  method TrainEpoch(weights: array<Weight>) returns (finite: bool)
    modifies weights
  {
    finite := *;
    for i := 0 to weights.Length {
      weights[i] := *;
    }
  }

  method Clone(weights: array<Weight>) returns (copy: array<Weight>)
    ensures fresh(copy) && copy[..] == weights[..]
  {
    copy := new Weight[weights.Length];
    for i := 0 to weights.Length
      invariant copy[..i] == weights[..i]
    {
      copy[i] := weights[i];
    }
  }

  method Load(weights: array<Weight>, from: array<Weight>)
    requires weights.Length == from.Length && weights != from
    modifies weights
    ensures weights[..] == from[..]
  {
    for i := 0 to weights.Length
      invariant weights[..i] == from[..i]
    {
      weights[i] := from[i];
    }
  }

  /** No epoch so far, but perhaps the last, has run out of patience. */
  ghost predicate Patient(losses: seq<real>, patience: nat)
  {
    forall m :: 1 <= m < |losses| ==> After(losses[..m]).stale < patience
  }

  lemma OneMoreEpoch(train: Measure, evaluate: Measure, states: seq<State>, losses: seq<real>, patience: nat,
                     state: State, loss: real)
    requires Trajectory(train, evaluate, states, losses) && Patient(losses, patience)
    requires train(state).Some? && evaluate(state) == Some(loss)
    requires losses != [] ==> After(losses).stale < patience
    ensures Trajectory(train, evaluate, states + [state], losses + [loss]) && Patient(losses + [loss], patience)
    ensures After(losses + [loss]) == Advance(After(losses), |losses| + 1, loss)
  {
    var longer := losses + [loss];
    assert Init(longer) == losses;
    forall m | 1 <= m < |longer| ensures After(longer[..m]).stale < patience {
      assert longer[..m] == if m < |losses| then losses[..m] else losses;
    }
  }

  lemma ImprovedMeansLatest(losses: seq<real>)
    requires losses != []
    ensures 1 <= After(losses).bestEpoch <= |losses| && (After(losses).stale == 0 <==> After(losses).bestEpoch == |losses|)
    ensures After(losses).best == Some(losses[After(losses).bestEpoch - 1])
  {
    AfterMeans(losses);
  }

  lemma StaleKeepsBest(losses: seq<real>, loss: real)
    requires After(losses + [loss]) == Advance(After(losses), |losses| + 1, loss) && After(losses + [loss]).stale > 0
    ensures After(losses + [loss]).bestEpoch == After(losses).bestEpoch && losses != []
  {
  }

  /** How a model reads its inputs. */
  datatype Layout = Layout(format: string, features: seq<string>, padding: string, readout: string)

  const LAYOUT := Layout(
    "v1",
    ["packet_size", "payload_size", "connection_duration_ms", "message_interval_ms", "bytes_received_total",
     "bytes_sent_total", "error_count_total"],
    "right", "last_valid_timestep")

  /** A saved model: what it was trained as, and its weights with their digest. `floats`: all of them are 32-bit
      float tensors on the CPU. */
  datatype Checkpoint = Checkpoint(
    layout: Layout,
    candidate: string,
    windowSize: nat,
    epoch: nat,
    loss: real,
    floats: bool,
    weights: State,
    digest: int)

  function CheckpointOf(state: State, candidate: string, windowSize: nat, epoch: nat, loss: real,
                        digest: State -> int): Checkpoint
  {
    Checkpoint(LAYOUT, candidate, windowSize, epoch, loss, true, state, digest(state))
  }

  method SaveCheckpoint(weights: array<Weight>, candidate: string, windowSize: nat, epoch: nat, loss: real,
                        digest: State -> int)
      returns (c: Checkpoint)
    ensures c == CheckpointOf(weights[..], candidate, windowSize, epoch, loss, digest)
  {
    var state := Clone(weights);
    c := CheckpointOf(state[..], candidate, windowSize, epoch, loss, digest);
  }

  /** Refuses another layout, candidate or window size, no weights, weights of another type or not finite, weights
      that do not give the digest or do not fit the candidate's model; otherwise a new model with these weights. */
  method LoadCheckpoint(c: Checkpoint, candidate: string, windowSize: nat, size: nat, digest: State -> int)
      returns (model: Option<array<Weight>>)
    ensures model.Some? <==>
      && c.layout == LAYOUT && c.candidate == candidate && c.windowSize == windowSize
      && c.weights != [] && c.floats && AllFinite(c.weights) && digest(c.weights) == c.digest && |c.weights| == size
    ensures model.Some? ==> fresh(model.value) && model.value[..] == c.weights
  {
    if c.layout != LAYOUT || c.candidate != candidate || c.windowSize != windowSize { return None; }
    if c.weights == [] || !c.floats || !AllFinite(c.weights) || digest(c.weights) != c.digest { return None; }
    if |c.weights| != size { return None; }
    var weights := new Weight[|c.weights|](i requires 0 <= i < |c.weights| => c.weights[i]);
    return Some(weights);
  }

  /** One line of the training history. */
  datatype Entry = Entry(epoch: nat, trainLoss: real, loss: real, bestSoFar: nat, improved: bool, stale: nat)

  function EntryOf(trainLoss: real, losses: seq<real>): Entry
    requires losses != []
  {
    var s := After(losses);
    Entry(|losses|, trainLoss, Last(losses), s.bestEpoch, s.stale == 0, s.stale)
  }

  ghost predicate Records(history: seq<Entry>, train: Measure, states: seq<State>, losses: seq<real>)
  {
    && |history| == |losses| == |states|
    && (forall i :: 0 <= i < |losses| ==> train(states[i]) == Some(history[i].trainLoss))
    && forall i :: 0 <= i < |losses| ==> history[i] == EntryOf(history[i].trainLoss, losses[..i + 1])
  }

  lemma OneMoreEntry(history: seq<Entry>, train: Measure, states: seq<State>, losses: seq<real>, state: State,
                     trainLoss: real, loss: real)
    requires Records(history, train, states, losses) && train(state) == Some(trainLoss)
    ensures Records(history + [EntryOf(trainLoss, losses + [loss])], train, states + [state], losses + [loss])
  {
    var longer, entry := losses + [loss], EntryOf(trainLoss, losses + [loss]);
    var all := history + [entry];
    assert entry.trainLoss == trainLoss;
    hide EntryOf;
    forall i | 0 <= i < |longer| ensures all[i] == EntryOf(all[i].trainLoss, longer[..i + 1]) {
      assert longer[..i + 1] == if i < |losses| then losses[..i + 1] else longer;
    }
  }

  lemma NextStop(losses: seq<real>, loss: real)
    ensures After(losses + [loss]) == Advance(After(losses), |losses| + 1, loss)
  {
    assert Init(losses + [loss]) == losses;
  }

  datatype Fit = Fit(epochsUsed: nat, bestEpoch: nat, bestLoss: real, history: seq<Entry>, checkpoint: Checkpoint)

  /** What a completed fit reports: the weights in place and in the checkpoint are those of the best epoch,
      whatever later epochs did to them in place, and evaluating them gives the reported least loss. */
  ghost predicate IsBest(f: Fit, train: Measure, states: seq<State>, losses: seq<real>, weights: State)
  {
    var best := After(losses).bestEpoch;
    && 1 <= best <= |losses| == |states|
    && f.epochsUsed == |losses| && f.bestEpoch == best && f.bestLoss == losses[best - 1]
    && weights == states[best - 1] == f.checkpoint.weights
    && f.checkpoint.epoch == best && f.checkpoint.loss == f.bestLoss
    && Records(f.history, train, states, losses)
  }

  ghost predicate BestIsFinite(states: seq<State>, losses: seq<real>)
  {
    1 <= After(losses).bestEpoch <= |states| && AllFinite(states[After(losses).bestEpoch - 1])
  }

  /** One epoch: the weights change in place, and a best state is copied. */
  method RunEpoch(weights: array<Weight>, best: array<Weight>, train: Measure, evaluate: Measure, stop: StopState,
                  epoch: nat, history: seq<Entry>, ghost states: seq<State>, ghost losses: seq<real>)
      returns (newBest: array<Weight>, shouldStop: bool, newHistory: seq<Entry>, loss: Option<real>)
    requires epoch == |losses| + 1 && stop.View() == After(losses) && Records(history, train, states, losses)
    modifies weights, stop
    ensures loss.Some? ==> evaluate(weights[..]) == loss && train(weights[..]).Some?
    ensures loss.Some? ==> stop.View() == After(losses + [loss.value])
    ensures loss.Some? ==> Records(newHistory, train, states + [weights[..]], losses + [loss.value])
    ensures loss.Some? ==> shouldStop == (stop.View().stale >= stop.patience)
    ensures loss.Some? && After(losses + [loss.value]).stale == 0 ==> fresh(newBest) && newBest[..] == weights[..]
    ensures loss.Some? && After(losses + [loss.value]).stale > 0 ==> newBest == best
  {
    hide Records, After, Advance;
    newBest, shouldStop, newHistory, loss := best, false, history, None;
    var finite := TrainEpoch(weights);
    if !finite { return; }
    var trained := train(weights[..]);
    if trained.None? { return; }
    var measured := evaluate(weights[..]);
    var improved, stopNow, ok := stop.Update(epoch, measured);
    if !ok { return; }
    NextStop(losses, measured.value);
    OneMoreEntry(history, train, states, losses, weights[..], trained.value, measured.value);
    var entry := Entry(epoch, trained.value, measured.value, stop.bestEpoch, improved, stop.staleEpochs);
    if improved { newBest := Clone(weights); }
    newHistory, shouldStop, loss := history + [entry], stopNow, measured;
  }

  /** The best state evaluated again, saved, loaded and evaluated once more: the comparisons never fail, and the
      loader refuses exactly weights that are not all finite. */
  method CheckBest(weights: array<Weight>, candidate: string, windowSize: nat, train: Measure, evaluate: Measure,
                   digest: State -> int, bestEpoch: nat, bestLoss: real)
      returns (saved: Option<Checkpoint>)
    requires weights.Length > 0 && train(weights[..]).Some? && evaluate(weights[..]) == Some(bestLoss)
    ensures saved.Some? <==> AllFinite(weights[..])
    ensures saved.Some? ==> saved.value == CheckpointOf(weights[..], candidate, windowSize, bestEpoch, bestLoss, digest)
  {
    var trained, again := train(weights[..]), evaluate(weights[..]);
    if trained.None? || again != Some(bestLoss) {
      assert false;
      return None;
    }
    var c := SaveCheckpoint(weights, candidate, windowSize, bestEpoch, bestLoss, digest);
    var model := LoadCheckpoint(c, candidate, windowSize, weights.Length, digest);
    if model.None? { return None; }
    if evaluate(model.value[..]) != again {
      assert false;
      return None;
    }
    return Some(c);
  }

  /** A fit succeeds exactly if its epochs end in time, each with finite losses, and the weights of the best one are
      finite; it fails otherwise only in an epoch that was due or, at the end, on such weights. */
  method FitCandidate(weights: array<Weight>, candidate: string, windowSize: nat, train: Measure, evaluate: Measure,
                      digest: State -> int, patience: nat, maxEpochs: nat)
      returns (result: Option<Fit>, ghost states: seq<State>, ghost losses: seq<real>)
    requires maxEpochs >= 1 && weights.Length > 0
    modifies weights
    ensures Trajectory(train, evaluate, states, losses)
    ensures result.Some? <==> EndsInTime(losses, patience, maxEpochs) && BestIsFinite(states, losses)
    ensures !EndsInTime(losses, patience, maxEpochs) ==>
      |losses| < maxEpochs && Patient(losses, patience) && (losses != [] ==> After(losses).stale < patience)
    ensures result.Some? ==> IsBest(result.value, train, states, losses, weights[..])
    ensures result.Some? ==> evaluate(weights[..]) == Some(result.value.bestLoss)
    ensures result.Some? ==>
      var f := result.value;
      f.checkpoint == CheckpointOf(weights[..], candidate, windowSize, f.bestEpoch, f.bestLoss, digest)
  {
    hide After, Advance, Patient, Records, AllFinite, EndsInTime;
    states, losses, result := [], [], None;
    NoEpochYet(train, patience);
    var stop := new StopState(patience);
    var best := new Weight[0];
    var history: seq<Entry> := [];
    var epoch, shouldStop := 0, false;
    while epoch < maxEpochs && !shouldStop
      invariant epoch == |losses| == |states| <= maxEpochs && Trajectory(train, evaluate, states, losses)
      invariant stop.View() == After(losses) && fresh(stop) && stop.patience == patience
      invariant Patient(losses, patience) && Records(history, train, states, losses)
      invariant epoch > 0 ==> shouldStop == (After(losses).stale >= patience)
      invariant fresh(best)
      invariant epoch > 0 ==> 1 <= After(losses).bestEpoch <= epoch && best[..] == states[After(losses).bestEpoch - 1]
      invariant epoch > 0 ==> best.Length == weights.Length
      invariant epoch == 0 ==> !shouldStop
    {
      DueEpoch(losses, patience, maxEpochs);
      epoch := epoch + 1;
      var newBest, stopNow, newHistory, loss := RunEpoch(weights, best, train, evaluate, stop, epoch, history, states, losses);
      if loss.None? { return; }
      OneMoreEpoch(train, evaluate, states, losses, patience, weights[..], loss.value);
      ImprovedMeansLatest(losses + [loss.value]);
      if After(losses + [loss.value]).stale > 0 { StaleKeepsBest(losses, loss.value); }
      states, losses := states + [weights[..]], losses + [loss.value];
      best, shouldStop, history := newBest, stopNow, newHistory;
    }
    ImprovedMeansLatest(losses);
    Load(weights, best);
    EndsWhenStopped(losses, patience, maxEpochs);
    var saved := CheckBest(weights, candidate, windowSize, train, evaluate, digest, stop.bestEpoch, stop.bestLoss.value);
    if saved.Some? {
      result := Some(Fit(epoch, stop.bestEpoch, stop.bestLoss.value, history, saved.value));
    }
  }

  lemma DueEpoch(losses: seq<real>, patience: nat, maxEpochs: nat)
    requires |losses| < maxEpochs && (losses != [] ==> After(losses).stale < patience)
    ensures !EndsInTime(losses, patience, maxEpochs)
  {}

  lemma NoEpochYet(train: Measure, patience: nat)
    ensures Patient([], patience) && Records([], train, [], [])
  {}

  lemma EndsWhenStopped(losses: seq<real>, patience: nat, maxEpochs: nat)
    requires Patient(losses, patience) && 1 <= |losses| <= maxEpochs
    requires |losses| == maxEpochs || After(losses).stale >= patience
    ensures EndsInTime(losses, patience, maxEpochs)
  {}
}
