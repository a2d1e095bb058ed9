/** Confusion counts of one probability vector as the decision threshold moves. */
module Thresholds {
  import opened Seqs

  /** One scored row: the true class and the model's probability of class 1. */
  datatype Scored = Scored(anomaly: bool, probability: real)

  datatype Confusion = Confusion(tn: nat, fp: nat, fn: nat, tp: nat)

  function Flags(threshold: real, s: Scored): bool { s.probability >= threshold }

  function ConfusionOf(sample: seq<Scored>, threshold: real): Confusion
  {
    if sample == [] then Confusion(0, 0, 0, 0)
    else
      var c, s := ConfusionOf(Init(sample), threshold), Last(sample);
      if s.anomaly then (if Flags(threshold, s) then c.(tp := c.tp + 1) else c.(fn := c.fn + 1))
      else (if Flags(threshold, s) then c.(fp := c.fp + 1) else c.(tn := c.tn + 1))
  }

  function Ratio(part: nat, whole: nat): real { if whole == 0 then 0.0 else part as real / whole as real }

  function Recall(c: Confusion): real { Ratio(c.tp, c.tp + c.fn) }

  function F1(c: Confusion): real { Ratio(2 * c.tp, 2 * c.tp + c.fp + c.fn) }

  function FalsePositiveRate(c: Confusion): real { Ratio(c.fp, c.fp + c.tn) }

  /** Raising the threshold never raises the false alarms and never lowers the misses; the class sizes stay. */
  lemma {:induction false} RaisingTheThreshold(sample: seq<Scored>, low: real, high: real)
    requires low <= high
    ensures
      var a, b := ConfusionOf(sample, low), ConfusionOf(sample, high);
      b.fp <= a.fp && a.fn <= b.fn && b.tp <= a.tp && a.tn <= b.tn && a.fp + a.tn == b.fp + b.tn && a.fn + a.tp == b.fn + b.tp
  {
    if sample != [] {
      RaisingTheThreshold(Init(sample), low, high);
    }
  }

  lemma RatioMonotone(a: nat, b: nat, whole: nat)
    requires a <= b
    ensures 0.0 <= Ratio(a, whole) <= Ratio(b, whole)
    ensures b <= whole ==> Ratio(b, whole) <= 1.0
  {
    if whole != 0 {
      var w := whole as real;
      assert (b as real - a as real) / w >= 0.0;
      assert b as real / w == a as real / w + (b as real - a as real) / w;
      assert a as real / w >= 0.0;
      if b <= whole { assert b as real / w <= w / w; }
    }
  }

  lemma RatesMove(sample: seq<Scored>, low: real, high: real)
    requires low <= high
    ensures
      var a, b := ConfusionOf(sample, low), ConfusionOf(sample, high);
      Recall(b) <= Recall(a) && FalsePositiveRate(b) <= FalsePositiveRate(a)
  {
    RaisingTheThreshold(sample, low, high);
    var a, b := ConfusionOf(sample, low), ConfusionOf(sample, high);
    RatioMonotone(b.tp, a.tp, a.tp + a.fn);
    RatioMonotone(b.fp, a.fp, a.fp + a.tn);
  }
}

/** The order in which trials are preferred. */
module TrialOrder {
  import opened TextOrder

  datatype Trial = Trial(candidate: string, threshold: real, recall: real, f1: real, fpr: real, acceptable: bool)

  /** Higher recall, then higher F1, then fewer false alarms, then the earlier id, then the lower threshold. */
  predicate Preferred(a: Trial, b: Trial)
  {
    if a.recall != b.recall then a.recall > b.recall
    else if a.f1 != b.f1 then a.f1 > b.f1
    else if a.fpr != b.fpr then a.fpr < b.fpr
    else if a.candidate != b.candidate then TextLeq(a.candidate, b.candidate)
    else a.threshold <= b.threshold
  }

  lemma PreferredTotal(a: Trial, b: Trial)
    ensures Preferred(a, b) || Preferred(b, a)
    ensures Preferred(a, b) && Preferred(b, a) ==> a.candidate == b.candidate && a.threshold == b.threshold
  {
    TextLeqTotal(a.candidate, b.candidate);
  }

  lemma PreferredTransitive(a: Trial, b: Trial, c: Trial)
    requires Preferred(a, b) && Preferred(b, c)
    ensures Preferred(a, c)
  {
    if a.candidate != b.candidate && b.candidate != c.candidate && TextLeq(a.candidate, b.candidate) && TextLeq(b.candidate, c.candidate) {
      TextLeqTransitive(a.candidate, b.candidate, c.candidate);
      TextLeqTotal(a.candidate, b.candidate);
    }
  }
}

/** `choose_trial` and the experiment loop around it. */
module TrialSelection {
  import opened Seqs
  import opened Thresholds
  import opened TrialOrder

  datatype Rule = Rule(maxFalsePositiveRate: real, minRecall: real)

  predicate InUnit(x: real) { 0.0 <= x <= 1.0 }

  /** No reason against the trial. */
  predicate Eligible(t: Trial, rule: Rule)
  {
    && InUnit(t.fpr) && InUnit(t.recall) && InUnit(t.f1)
    && t.acceptable
    && t.fpr <= rule.maxFalsePositiveRate
    && t.recall >= rule.minRecall
  }

  /** The first of the preferred trials, as `min` picks it. */
  function Best(trials: seq<Trial>): (best: Trial)
    requires trials != []
    ensures best in trials
    ensures forall t :: t in trials ==> Preferred(best, t)
  {
    assert trials == Init(trials) + [Last(trials)];
    PreferredTotal(Last(trials), Last(trials));
    if |trials| == 1 then trials[0]
    else
      var before := Best(Init(trials));
      PreferredTotal(before, Last(trials));
      if Preferred(before, Last(trials)) then before
      else
        assert forall t :: t in Init(trials) ==> Preferred(Last(trials), t) by {
          forall t | t in Init(trials) ensures Preferred(Last(trials), t) { PreferredTransitive(Last(trials), before, t); }
        }
        Last(trials)
  }

  function Feasible(trials: seq<Trial>, rule: Rule): (f: seq<Trial>)
    ensures forall t :: t in f <==> t in trials && Eligible(t, rule)
  {
    if trials == [] then []
    else
      assert trials == Init(trials) + [Last(trials)];
      Feasible(Init(trials), rule) + if Eligible(Last(trials), rule) then [Last(trials)] else []
  }

  function ChooseTrial(trials: seq<Trial>, rule: Rule): (choice: Option<Trial>)
    ensures choice.None? <==> forall t :: t in trials ==> !Eligible(t, rule)
    ensures choice.Some? ==>
      && choice.value in trials && Eligible(choice.value, rule)
      && forall t :: t in trials && Eligible(t, rule) ==> Preferred(choice.value, t)
  {
    var f := Feasible(trials, rule);
    if f == [] then None else Some(Best(f))
  }

  /** A candidate is tried once at each threshold. */
  ghost predicate Keyed(trials: seq<Trial>)
  {
    forall a, b :: a in trials && b in trials && a.candidate == b.candidate && a.threshold == b.threshold ==> a == b
  }

  ghost predicate SameTrials(a: seq<Trial>, b: seq<Trial>)
  {
    forall t :: t in a <==> t in b
  }

  /** The choice does not depend on the order, or the repetition, of the trials. */
  lemma ChoiceIgnoresOrder(a: seq<Trial>, b: seq<Trial>, rule: Rule)
    requires Keyed(a) && SameTrials(a, b)
    ensures ChooseTrial(a, rule) == ChooseTrial(b, rule)
  {
    var x, y := ChooseTrial(a, rule), ChooseTrial(b, rule);
    if x.Some? && y.Some? {
      PreferredTotal(x.value, y.value);
    }
  }

  ghost predicate TrialsOf(part: seq<Trial>, all: seq<Trial>, candidate: string)
  {
    forall t :: t in part <==> t in all && t.candidate == candidate
  }

  /** The overall choice is the best feasible trial of its own candidate. */
  lemma ChoiceIsItsCandidatesBest(all: seq<Trial>, own: seq<Trial>, rule: Rule)
    requires Keyed(all) && ChooseTrial(all, rule).Some?
    requires TrialsOf(own, all, ChooseTrial(all, rule).value.candidate)
    ensures ChooseTrial(own, rule) == ChooseTrial(all, rule)
  {
    var x, y := ChooseTrial(all, rule), ChooseTrial(own, rule);
    assert x.value in own;
    PreferredTotal(x.value, y.value);
  }

  /** The trial of one probability vector at one threshold; undefined when a class is missing. */
  function TrialAt(candidate: string, sample: seq<Scored>, threshold: real, acceptable: bool): Option<Trial>
  {
    var c := ConfusionOf(sample, threshold);
    if c.fp + c.tn == 0 || c.fn + c.tp == 0 then None
    else Some(Trial(candidate, threshold, Recall(c), F1(c), FalsePositiveRate(c), acceptable))
  }

  /** The eligible thresholds of one vector form an interval. */
  lemma FeasibleThresholdsAreContiguous(candidate: string, sample: seq<Scored>, acceptable: bool, rule: Rule,
      low: real, mid: real, high: real)
    requires low <= mid <= high
    requires TrialAt(candidate, sample, low, acceptable).Some? && Eligible(TrialAt(candidate, sample, low, acceptable).value, rule)
    requires TrialAt(candidate, sample, high, acceptable).Some? && Eligible(TrialAt(candidate, sample, high, acceptable).value, rule)
    ensures TrialAt(candidate, sample, mid, acceptable).Some? && Eligible(TrialAt(candidate, sample, mid, acceptable).value, rule)
  {
    RaisingTheThreshold(sample, low, mid);
    RatesMove(sample, low, mid);
    RatesMove(sample, mid, high);
    var c := ConfusionOf(sample, mid);
    RatioMonotone(2 * c.tp, 2 * c.tp, 2 * c.tp + c.fp + c.fn);
    RatioMonotone(c.fp, c.fp, c.fp + c.tn);
  }

  ghost predicate AllAt(trials: seq<Trial>, candidate: string, sample: seq<Scored>, acceptable: bool)
  {
    forall t :: t in trials ==> TrialAt(candidate, sample, t.threshold, acceptable) == Some(t)
  }

  /** The best trial of one vector has the recall of its smallest feasible threshold. */
  lemma ChoiceHasTheLowestThresholdsRecall(trials: seq<Trial>, candidate: string, sample: seq<Scored>,
      acceptable: bool, rule: Rule, lowest: Trial)
    requires AllAt(trials, candidate, sample, acceptable)
    requires lowest in trials && Eligible(lowest, rule)
    requires forall t :: t in trials && Eligible(t, rule) ==> lowest.threshold <= t.threshold
    ensures ChooseTrial(trials, rule).Some? && ChooseTrial(trials, rule).value.recall == lowest.recall
  {
    var x := ChooseTrial(trials, rule).value;
    assert TrialAt(candidate, sample, x.threshold, acceptable) == Some(x);
    assert TrialAt(candidate, sample, lowest.threshold, acceptable) == Some(lowest);
    RatesMove(sample, lowest.threshold, x.threshold);
  }

  datatype Candidate = Candidate(id: string, sample: seq<Scored>, acceptable: bool)

  /** One candidate's trials over all thresholds; fails when the sample misses a class. */
  method TryThresholds(c: Candidate, thresholds: seq<real>) returns (result: Option<seq<Trial>>)
    ensures result.Some? <==> Measurable(c, thresholds)
    ensures result.Some? ==>
      && |result.value| == |thresholds|
      && forall k :: 0 <= k < |thresholds| ==> TrialAt(c.id, c.sample, thresholds[k], c.acceptable) == Some(result.value[k])
  {
    hide TrialAt;
    var trials: seq<Trial> := [];
    for k := 0 to |thresholds|
      invariant |trials| == k
      invariant forall i :: 0 <= i < k ==> TrialAt(c.id, c.sample, thresholds[i], c.acceptable) == Some(trials[i])
    {
      var t := TrialAt(c.id, c.sample, thresholds[k], c.acceptable);
      if t.None? { return None; }
      trials := trials + [t.value];
    }
    return Some(trials);
  }

  /** `t` is the trial of a candidate at one of the thresholds. */
  ghost predicate IsTrialOf(c: Candidate, thresholds: seq<real>, t: Trial)
  {
    t.threshold in thresholds && TrialAt(c.id, c.sample, t.threshold, c.acceptable) == Some(t)
  }

  lemma OwnTrials(c: Candidate, thresholds: seq<real>, own: seq<Trial>)
    requires |own| == |thresholds|
    requires forall k :: 0 <= k < |thresholds| ==> TrialAt(c.id, c.sample, thresholds[k], c.acceptable) == Some(own[k])
    ensures forall t :: t in own <==> IsTrialOf(c, thresholds, t)
    ensures forall t :: t in own ==> t.candidate == c.id
  {
    forall t | IsTrialOf(c, thresholds, t) ensures t in own {
      var k :| 0 <= k < |thresholds| && thresholds[k] == t.threshold;
      assert own[k] == t;
    }
    forall t | t in own ensures IsTrialOf(c, thresholds, t) && t.candidate == c.id {
      var k :| 0 <= k < |own| && own[k] == t;
      assert t.threshold == thresholds[k];
    }
  }

  ghost predicate FromCandidates(trials: seq<Trial>, candidates: seq<Candidate>, thresholds: seq<real>, n: nat)
    requires n <= |candidates|
  {
    && (forall t :: t in trials ==> exists i :: 0 <= i < n && IsTrialOf(candidates[i], thresholds, t))
    && (forall i, t :: 0 <= i < n && IsTrialOf(candidates[i], thresholds, t) ==> t in trials)
  }

  ghost predicate DistinctIds(candidates: seq<Candidate>)
  {
    forall i, j :: 0 <= i < j < |candidates| ==> candidates[i].id != candidates[j].id
  }

  lemma TrialNamesItsCandidate(c: Candidate, thresholds: seq<real>, t: Trial)
    requires IsTrialOf(c, thresholds, t)
    ensures t.candidate == c.id
  {}

  lemma TrialIsDetermined(c: Candidate, thresholds: seq<real>, a: Trial, b: Trial)
    requires IsTrialOf(c, thresholds, a) && IsTrialOf(c, thresholds, b) && a.threshold == b.threshold
    ensures a == b
  {}

  lemma AllTrialsAreKeyed(trials: seq<Trial>, candidates: seq<Candidate>, thresholds: seq<real>)
    requires DistinctIds(candidates) && FromCandidates(trials, candidates, thresholds, |candidates|)
    ensures Keyed(trials)
  {
    hide IsTrialOf;
    forall a, b | a in trials && b in trials && a.candidate == b.candidate && a.threshold == b.threshold ensures a == b {
      var i :| 0 <= i < |candidates| && IsTrialOf(candidates[i], thresholds, a);
      var j :| 0 <= j < |candidates| && IsTrialOf(candidates[j], thresholds, b);
      TrialNamesItsCandidate(candidates[i], thresholds, a);
      TrialNamesItsCandidate(candidates[j], thresholds, b);
      assert i == j;
      TrialIsDetermined(candidates[i], thresholds, a, b);
    }
  }

  lemma OwnAmongAll(all: seq<Trial>, own: seq<Trial>, candidates: seq<Candidate>, thresholds: seq<real>, i: nat)
    requires DistinctIds(candidates) && FromCandidates(all, candidates, thresholds, |candidates|) && i < |candidates|
    requires forall t :: t in own <==> IsTrialOf(candidates[i], thresholds, t)
    ensures TrialsOf(own, all, candidates[i].id)
  {
    forall t | t in all && t.candidate == candidates[i].id ensures t in own {
      var j :| 0 <= j < |candidates| && IsTrialOf(candidates[j], thresholds, t);
      assert candidates[j].id == candidates[i].id;
    }
    forall t | t in own ensures t in all && t.candidate == candidates[i].id { TrialNamesItsCandidate(candidates[i], thresholds, t); }
  }

  datatype Experiment = Experiment(trials: seq<Trial>, bests: seq<Option<Trial>>, selected: Option<Trial>)

  /** Both classes are present at every threshold. */
  ghost predicate Measurable(c: Candidate, thresholds: seq<real>)
  {
    forall k :: 0 <= k < |thresholds| ==> TrialAt(c.id, c.sample, thresholds[k], c.acceptable).Some?
  }

  /** `best` is the choice among exactly the candidate's own trials. */
  ghost predicate IsBestOf(c: Candidate, thresholds: seq<real>, rule: Rule, best: Option<Trial>)
  {
    exists own :: ListsTrials(own, c, thresholds) && best == ChooseTrial(own, rule)
  }

  ghost predicate ListsTrials(own: seq<Trial>, c: Candidate, thresholds: seq<real>)
  {
    forall t :: t in own <==> IsTrialOf(c, thresholds, t)
  }

  /** The trials of every candidate at every threshold, and each candidate's best. */
  method TryCandidates(candidates: seq<Candidate>, thresholds: seq<real>, rule: Rule)
      returns (trials: seq<Trial>, bests: seq<Option<Trial>>, ok: bool)
    ensures ok <==> forall i :: 0 <= i < |candidates| ==> Measurable(candidates[i], thresholds)
    ensures ok ==> FromCandidates(trials, candidates, thresholds, |candidates|)
    ensures ok ==> |bests| == |candidates|
    ensures ok ==> forall i :: 0 <= i < |candidates| ==> IsBestOf(candidates[i], thresholds, rule, bests[i])
  {
    trials, bests := [], [];
    hide *;
    NoCandidates(candidates, thresholds);
    for n := 0 to |candidates|
      invariant |bests| == n && FromCandidates(trials, candidates, thresholds, n)
      invariant forall i :: 0 <= i < n ==> IsBestOf(candidates[i], thresholds, rule, bests[i])
      invariant forall i :: 0 <= i < n ==> Measurable(candidates[i], thresholds)
    {
      var own := TryThresholds(candidates[n], thresholds);
      if own.None? { return trials, bests, false; }
      OwnTrials(candidates[n], thresholds, own.value);
      ExtendFromCandidates(trials, own.value, candidates, thresholds, n);
      BestOfOwn(candidates[n], thresholds, own.value, rule);
      trials := trials + own.value;
      bests := bests + [ChooseTrial(own.value, rule)];
    }
    return trials, bests, true;
  }

  lemma NoCandidates(candidates: seq<Candidate>, thresholds: seq<real>)
    ensures FromCandidates([], candidates, thresholds, 0)
  {}

  lemma BestOfOwn(c: Candidate, thresholds: seq<real>, own: seq<Trial>, rule: Rule)
    requires forall t :: t in own <==> IsTrialOf(c, thresholds, t)
    ensures IsBestOf(c, thresholds, rule, ChooseTrial(own, rule))
  {
    assert ListsTrials(own, c, thresholds);
  }

  /** The selected trial is the best of the candidate it names. */
  lemma SelectedIsABest(candidates: seq<Candidate>, thresholds: seq<real>, rule: Rule, trials: seq<Trial>,
      bests: seq<Option<Trial>>) returns (i: nat)
    requires DistinctIds(candidates) && FromCandidates(trials, candidates, thresholds, |candidates|)
    requires |bests| == |candidates|
    requires forall i :: 0 <= i < |candidates| ==> IsBestOf(candidates[i], thresholds, rule, bests[i])
    requires ChooseTrial(trials, rule).Some?
    ensures i < |candidates| && candidates[i].id == ChooseTrial(trials, rule).value.candidate
    ensures bests[i] == ChooseTrial(trials, rule)
  {
    hide IsTrialOf, TrialAt, ChooseTrial, Eligible, Keyed, TrialsOf;
    var selected := ChooseTrial(trials, rule);
    SelectedComesFrom(trials, rule);
    i :| 0 <= i < |candidates| && IsTrialOf(candidates[i], thresholds, selected.value);
    assert IsBestOf(candidates[i], thresholds, rule, bests[i]);
    var own :| ListsTrials(own, candidates[i], thresholds) && bests[i] == ChooseTrial(own, rule);
    TrialNamesItsCandidate(candidates[i], thresholds, selected.value);
    AllTrialsAreKeyed(trials, candidates, thresholds);
    OwnAmongAll(trials, own, candidates, thresholds, i);
    ChoiceIsItsCandidatesBest(trials, own, rule);
  }

  /** The experiment selects, among all candidates at all thresholds, one candidate's own best feasible trial. */
  method RunExperiment(candidates: seq<Candidate>, thresholds: seq<real>, rule: Rule)
      returns (result: Option<Experiment>)
    requires DistinctIds(candidates)
    ensures result.Some? <==> forall i :: 0 <= i < |candidates| ==> Measurable(candidates[i], thresholds)
    ensures result.Some? ==>
      && FromCandidates(result.value.trials, candidates, thresholds, |candidates|)
      && |result.value.bests| == |candidates|
      && (forall i :: 0 <= i < |candidates| ==> IsBestOf(candidates[i], thresholds, rule, result.value.bests[i]))
      && result.value.selected == ChooseTrial(result.value.trials, rule)
    ensures result.Some? && result.value.selected.Some? ==>
      exists i :: 0 <= i < |candidates| && candidates[i].id == result.value.selected.value.candidate
                  && result.value.bests[i] == result.value.selected
  {
    hide *;
    var trials, bests, ok := TryCandidates(candidates, thresholds, rule);
    if !ok { return None; }
    var selected := ChooseTrial(trials, rule);
    if selected.Some? {
      ghost var i := SelectedIsABest(candidates, thresholds, rule, trials, bests);
    }
    return Some(Experiment(trials, bests, selected));
  }

  lemma SelectedComesFrom(trials: seq<Trial>, rule: Rule)
    requires ChooseTrial(trials, rule).Some?
    ensures ChooseTrial(trials, rule).value in trials
  {}

  lemma ExtendFromCandidates(trials: seq<Trial>, own: seq<Trial>, candidates: seq<Candidate>, thresholds: seq<real>,
      n: nat)
    requires n < |candidates| && FromCandidates(trials, candidates, thresholds, n)
    requires forall t :: t in own <==> IsTrialOf(candidates[n], thresholds, t)
    ensures FromCandidates(trials + own, candidates, thresholds, n + 1)
  {
    hide IsTrialOf;
    forall t | t in trials + own ensures exists i :: 0 <= i < n + 1 && IsTrialOf(candidates[i], thresholds, t) {
      if t in trials {
        var i :| 0 <= i < n && IsTrialOf(candidates[i], thresholds, t);
      } else {
        assert IsTrialOf(candidates[n], thresholds, t);
      }
    }
  }

  datatype RecoveryRule = RecoveryRule(rule: Rule, maxBatchedFalsePositiveRate: real)

  /** A trial of the recovery comparison: the rates over all rows, and the false alarm rate on one normal
      scenario, absent when that scenario has no normal row. */
  datatype RecoveryTrial = RecoveryTrial(trial: Trial, batchedFalsePositiveRate: Option<real>)

  /** The recovery comparison also bounds the false alarms on the scenario, and refuses a trial whose scenario
      rate does not exist. */
  predicate RecoveryEligible(t: RecoveryTrial, r: RecoveryRule)
  {
    && t.trial.fpr <= r.rule.maxFalsePositiveRate
    && t.batchedFalsePositiveRate.Some? && t.batchedFalsePositiveRate.value <= r.maxBatchedFalsePositiveRate
    && t.trial.recall >= r.rule.minRecall
  }

  function RecoveryFeasible(trials: seq<RecoveryTrial>, r: RecoveryRule): (f: seq<Trial>)
    ensures forall t :: t in trials && RecoveryEligible(t, r) ==> t.trial in f
    ensures forall x :: x in f ==> exists t :: t in trials && RecoveryEligible(t, r) && t.trial == x
  {
    if trials == [] then []
    else
      assert trials == Init(trials) + [Last(trials)];
      RecoveryFeasible(Init(trials), r) + if RecoveryEligible(Last(trials), r) then [Last(trials).trial] else []
  }

  ghost predicate IsRecoveryChoice(trials: seq<RecoveryTrial>, r: RecoveryRule, choice: Trial)
  {
    && (exists t :: t in trials && RecoveryEligible(t, r) && t.trial == choice)
    && forall t :: t in trials && RecoveryEligible(t, r) ==> Preferred(choice, t.trial)
  }

  /** The recovery comparison's own choice: its refusals, the same order of preference. */
  function ChooseRecoveryTrial(trials: seq<RecoveryTrial>, r: RecoveryRule): (choice: Option<Trial>)
    ensures choice.None? <==> forall t :: t in trials ==> !RecoveryEligible(t, r)
    ensures choice.Some? ==> IsRecoveryChoice(trials, r, choice.value)
  {
    var f := RecoveryFeasible(trials, r);
    if f == [] then None else Some(Best(f))
  }

  function BatchedRate(batched: seq<Scored>, threshold: real): Option<real>
  {
    var c := ConfusionOf(batched, threshold);
    if c.fp + c.tn == 0 then None else Some(FalsePositiveRate(c))
  }

  /** A candidate's trial at one threshold, with the rate on its rows of the bounded scenario. */
  function RecoveryTrialAt(candidate: string, sample: seq<Scored>, batched: seq<Scored>,
      threshold: real): Option<RecoveryTrial>
  {
    var t := TrialAt(candidate, sample, threshold, true);
    if t.None? then None else Some(RecoveryTrial(t.value, BatchedRate(batched, threshold)))
  }

  ghost predicate RecoversAt(candidate: string, sample: seq<Scored>, batched: seq<Scored>, r: RecoveryRule,
      threshold: real)
  {
    var t := RecoveryTrialAt(candidate, sample, batched, threshold);
    t.Some? && RecoveryEligible(t.value, r)
  }

  /** The extra bound keeps the eligible thresholds an interval. */
  lemma RecoveryThresholdsAreContiguous(candidate: string, sample: seq<Scored>, batched: seq<Scored>, r: RecoveryRule,
      low: real, mid: real, high: real)
    requires low <= mid <= high
    requires RecoversAt(candidate, sample, batched, r, low) && RecoversAt(candidate, sample, batched, r, high)
    ensures RecoversAt(candidate, sample, batched, r, mid)
  {
    RaisingTheThreshold(sample, low, mid);
    RatesMove(sample, low, mid);
    RatesMove(sample, mid, high);
    RatesMove(batched, low, mid);
    RaisingTheThreshold(batched, low, mid);
  }

  ghost predicate AllRecoveryTrialsAt(trials: seq<RecoveryTrial>, candidate: string, sample: seq<Scored>,
      batched: seq<Scored>)
  {
    forall t :: t in trials ==> RecoveryTrialAt(candidate, sample, batched, t.trial.threshold) == Some(t)
  }

  /** The recovery choice for one vector, too, has the recall of the smallest eligible threshold. */
  lemma RecoveryChoiceHasTheLowestThresholdsRecall(trials: seq<RecoveryTrial>, candidate: string, sample: seq<Scored>,
      batched: seq<Scored>, r: RecoveryRule, lowest: RecoveryTrial)
    requires AllRecoveryTrialsAt(trials, candidate, sample, batched)
    requires lowest in trials && RecoveryEligible(lowest, r)
    requires forall t :: t in trials && RecoveryEligible(t, r) ==> lowest.trial.threshold <= t.trial.threshold
    ensures ChooseRecoveryTrial(trials, r).Some? && ChooseRecoveryTrial(trials, r).value.recall == lowest.trial.recall
  {
    var choice := ChooseRecoveryTrial(trials, r).value;
    hide ChooseRecoveryTrial, ConfusionOf;
    var x :| x in trials && RecoveryEligible(x, r) && x.trial == choice;
    assert RecoveryTrialAt(candidate, sample, batched, x.trial.threshold) == Some(x);
    assert RecoveryTrialAt(candidate, sample, batched, lowest.trial.threshold) == Some(lowest);
    RatesMove(sample, lowest.trial.threshold, choice.threshold);
  }

  predicate SameKey(s: RecoveryTrial, t: RecoveryTrial)
  {
    s.trial.candidate == t.trial.candidate && s.trial.threshold == t.trial.threshold
  }

  ghost predicate RecoveryKeyed(trials: seq<RecoveryTrial>)
  {
    forall s, t :: s in trials && t in trials && SameKey(s, t) ==> s == t
  }

  /** The recovery choice does not depend on the order or repetition of the trials. */
  lemma RecoveryChoiceIgnoresOrder(a: seq<RecoveryTrial>, b: seq<RecoveryTrial>, r: RecoveryRule)
    requires RecoveryKeyed(a) && forall t :: t in a <==> t in b
    ensures ChooseRecoveryTrial(a, r) == ChooseRecoveryTrial(b, r)
  {
    var x, y := ChooseRecoveryTrial(a, r), ChooseRecoveryTrial(b, r);
    hide ChooseRecoveryTrial, Preferred;
    if x.Some? && y.Some? {
      var s :| s in a && RecoveryEligible(s, r) && s.trial == x.value;
      var t :| t in b && RecoveryEligible(t, r) && t.trial == y.value;
      PreferredTotal(x.value, y.value);
    }
  }
}

/** Rates, bounds and the order of preference, told by counting the rows of the sample. */
module TrialMeaning {
  import opened Seqs
  import opened TextOrder
  import opened Thresholds
  import opened TrialOrder
  import opened TrialSelection

  function Anomalous(): Scored -> bool { (s: Scored) => s.anomaly }

  function Normal(): Scored -> bool { (s: Scored) => !s.anomaly }

  function Caught(t: real): Scored -> bool { (s: Scored) => s.anomaly && s.probability >= t }

  function Missed(t: real): Scored -> bool { (s: Scored) => s.anomaly && s.probability < t }

  function FalseAlarm(t: real): Scored -> bool { (s: Scored) => !s.anomaly && s.probability >= t }

  function Passed(t: real): Scored -> bool { (s: Scored) => !s.anomaly && s.probability < t }

  /** The four cells are counts of rows: anomaly or not, probability at or above the threshold or below. */
  lemma {:induction false} CellsCountRows(sample: seq<Scored>, t: real)
    ensures ConfusionOf(sample, t) ==
            Confusion(Count(sample, Passed(t)), Count(sample, FalseAlarm(t)), Count(sample, Missed(t)), Count(sample, Caught(t)))
    ensures Count(sample, Caught(t)) + Count(sample, Missed(t)) == Count(sample, Anomalous())
    ensures Count(sample, FalseAlarm(t)) + Count(sample, Passed(t)) == Count(sample, Normal())
  {
    if sample != [] { CellsCountRows(Init(sample), t); }
  }

  lemma RatioTimesWhole(part: nat, whole: nat)
    ensures whole > 0 ==> Ratio(part, whole) * whole as real == part as real
  {}

  lemma RatesOfCells(c: Confusion)
    ensures c.tp + c.fn > 0 ==> Recall(c) * (c.tp + c.fn) as real == c.tp as real
    ensures c.fp + c.tn > 0 ==> FalsePositiveRate(c) * (c.fp + c.tn) as real == c.fp as real
    ensures c.tp + c.fn > 0 ==> F1(c) * (2 * c.tp + c.fp + c.fn) as real == (2 * c.tp) as real
  {
    RatioTimesWhole(c.tp, c.tp + c.fn);
    RatioTimesWhole(c.fp, c.fp + c.tn);
    RatioTimesWhole(2 * c.tp, 2 * c.tp + c.fp + c.fn);
    hide Ratio;
  }

  /** Recall is the share of the anomalies that is flagged, the false positive rate the share of the normal rows that
      is flagged, and F1 twice the caught anomalies over the anomalies and the flagged rows together. */
  lemma RatesAreShares(sample: seq<Scored>, t: real)
    ensures
      var c := ConfusionOf(sample, t);
      var caught, alarms := Count(sample, Caught(t)), Count(sample, FalseAlarm(t));
      var anomalies, normals := Count(sample, Anomalous()), Count(sample, Normal());
      && (anomalies > 0 ==> Recall(c) * anomalies as real == caught as real)
      && (normals > 0 ==> FalsePositiveRate(c) * normals as real == alarms as real)
      && (anomalies > 0 ==> F1(c) * (anomalies + caught + alarms) as real == (2 * caught) as real)
  {
    CellsCountRows(sample, t);
    var c := ConfusionOf(sample, t);
    RatesOfCells(c);
    hide Count, ConfusionOf, Recall, F1, FalsePositiveRate, Ratio;
    var caught, alarms, anomalies := Count(sample, Caught(t)), Count(sample, FalseAlarm(t)), Count(sample, Anomalous());
    assert 2 * c.tp + c.fp + c.fn == anomalies + caught + alarms && c.tp + c.fn == anomalies;
  }

  lemma FactorSign(x: real, n: real)
    requires n > 0.0
    ensures x > 0.0 <==> x * n > 0.0
    ensures x == 0.0 <==> x * n == 0.0
  {
    assert x == (x * n) / n;
  }

  lemma ShareAtMost(share: real, whole: nat, part: nat, bound: real)
    requires whole > 0 && share * whole as real == part as real
    ensures share <= bound <==> part as real <= bound * whole as real
    ensures share >= bound <==> part as real >= bound * whole as real
  {
    var w := whole as real;
    assert (share - bound) * w == part as real - bound * w;
    FactorSign(share - bound, w);
  }

  lemma ShareInUnit(share: real, whole: nat, part: nat)
    requires whole > 0 && share * whole as real == part as real && part <= whole
    ensures InUnit(share)
  {
    ShareAtMost(share, whole, part, 0.0);
    ShareAtMost(share, whole, part, 1.0);
  }

  /** `part` of `whole` rows are at most, or at least, the share `bound`. */
  predicate AtMost(part: nat, whole: nat, bound: real) { part as real <= bound * whole as real }

  predicate AtLeast(part: nat, whole: nat, bound: real) { part as real >= bound * whole as real }

  lemma NormalBound(c: Confusion, normals: nat, bound: real)
    requires c.fp + c.tn == normals > 0
    ensures FalsePositiveRate(c) <= bound <==> AtMost(c.fp, normals, bound)
    ensures InUnit(FalsePositiveRate(c))
  {
    RatesOfCells(c);
    hide FalsePositiveRate, Recall, F1;
    ShareAtMost(FalsePositiveRate(c), normals, c.fp, bound);
    ShareInUnit(FalsePositiveRate(c), normals, c.fp);
  }

  lemma AnomalyBound(c: Confusion, anomalies: nat, bound: real)
    requires c.tp + c.fn == anomalies > 0
    ensures Recall(c) >= bound <==> AtLeast(c.tp, anomalies, bound)
    ensures InUnit(Recall(c)) && InUnit(F1(c))
  {
    RatesOfCells(c);
    hide FalsePositiveRate, Recall, F1;
    ShareAtMost(Recall(c), anomalies, c.tp, bound);
    ShareInUnit(Recall(c), anomalies, c.tp);
    ShareInUnit(F1(c), 2 * c.tp + c.fp + c.fn, 2 * c.tp);
  }

  /** What makes a trial eligible, in rows: both classes are there, at most the permitted share of the normal rows is
      flagged, at least the demanded share of the anomalies is, and the training was acceptable. */
  lemma EligibleMeans(candidate: string, sample: seq<Scored>, t: real, acceptable: bool, rule: Rule)
    ensures
      var trial := TrialAt(candidate, sample, t, acceptable);
      var caught, alarms := Count(sample, Caught(t)), Count(sample, FalseAlarm(t));
      var anomalies, normals := Count(sample, Anomalous()), Count(sample, Normal());
      && (trial.Some? <==> anomalies > 0 && normals > 0)
      && (trial.Some? ==>
            && trial.value.candidate == candidate && trial.value.threshold == t
            && (Eligible(trial.value, rule) <==>
                  && acceptable
                  && AtMost(alarms, normals, rule.maxFalsePositiveRate)
                  && AtLeast(caught, anomalies, rule.minRecall)))
  {
    CellsCountRows(sample, t);
    var c := ConfusionOf(sample, t);
    var anomalies, normals := Count(sample, Anomalous()), Count(sample, Normal());
    if normals > 0 { NormalBound(c, normals, rule.maxFalsePositiveRate); }
    if anomalies > 0 { AnomalyBound(c, anomalies, rule.minRecall); }
    hide Count, Recall, F1, FalsePositiveRate, ConfusionOf, InUnit, AtMost, AtLeast;
  }

  lemma SharesCompare(a: real, b: real, whole: nat, p: nat, q: nat)
    requires whole > 0 && a * whole as real == p as real && b * whole as real == q as real
    ensures a > b <==> p > q
    ensures a == b <==> p == q
  {
    var w := whole as real;
    assert (a - b) * w == p as real - q as real;
    FactorSign(a - b, w);
  }

  lemma SmallerWholeBiggerShare(f: real, g: real, m: real, n: real, c: real)
    requires 0.0 < m && 0.0 < n && 0.0 < c && f * m == c && g * n == c && m < n
    ensures f > g
  {
    FactorSign(f, m);
    FactorSign(n - m, f);
    assert (n - m) * f == f * n - c == f * n - g * n == (f - g) * n;
    FactorSign(f - g, n);
  }

  /** At equal catch, F1 is higher exactly with fewer false alarms, unless nothing is caught at all. */
  lemma F1Compares(f: real, g: real, anomalies: nat, caught: nat, x: nat, y: nat)
    requires anomalies > 0 && caught <= anomalies
    requires f * (anomalies + caught + x) as real == (2 * caught) as real
    requires g * (anomalies + caught + y) as real == (2 * caught) as real
    ensures caught == 0 ==> f == g == 0.0
    ensures caught > 0 ==> (f > g <==> x < y) && (f == g <==> x == y)
  {
    var m, n, c := (anomalies + caught + x) as real, (anomalies + caught + y) as real, (2 * caught) as real;
    if caught == 0 {
      assert f == 0.0 / m && g == 0.0 / n;
    } else {
      if x < y { SmallerWholeBiggerShare(f, g, m, n, c); }
      if y < x { SmallerWholeBiggerShare(g, f, n, m, c); }
      if x == y { assert f == c / m && g == c / n; }
    }
  }

  /** The order of preference in rows, between two trials on the same numbers of anomalies and normal rows: more caught
      anomalies, then fewer false alarms, then the earlier id, then the lower threshold. (F1 decides nothing: at equal
      catch it only repeats the comparison of the false alarms.) */
  lemma PreferredMeans(a: Trial, b: Trial, x: seq<Scored>, y: seq<Scored>)
    requires TrialAt(a.candidate, x, a.threshold, a.acceptable) == Some(a)
    requires TrialAt(b.candidate, y, b.threshold, b.acceptable) == Some(b)
    requires Count(x, Anomalous()) == Count(y, Anomalous()) && Count(x, Normal()) == Count(y, Normal())
    ensures
      var caught, otherCaught := Count(x, Caught(a.threshold)), Count(y, Caught(b.threshold));
      var alarms, otherAlarms := Count(x, FalseAlarm(a.threshold)), Count(y, FalseAlarm(b.threshold));
      Preferred(a, b) <==>
        if caught != otherCaught then caught > otherCaught
        else if alarms != otherAlarms then alarms < otherAlarms
        else if a.candidate != b.candidate then TextLeq(a.candidate, b.candidate)
        else a.threshold <= b.threshold
  {
    CellsCountRows(x, a.threshold);
    CellsCountRows(y, b.threshold);
    RatesAreShares(x, a.threshold);
    RatesAreShares(y, b.threshold);
    var caught, otherCaught := Count(x, Caught(a.threshold)), Count(y, Caught(b.threshold));
    var alarms, otherAlarms := Count(x, FalseAlarm(a.threshold)), Count(y, FalseAlarm(b.threshold));
    var anomalies, normals := Count(x, Anomalous()), Count(x, Normal());
    hide Count, Recall, F1, FalsePositiveRate, ConfusionOf;
    SharesCompare(a.recall, b.recall, anomalies, caught, otherCaught);
    SharesCompare(a.fpr, b.fpr, normals, alarms, otherAlarms);
    if caught == otherCaught { F1Compares(a.f1, b.f1, anomalies, caught, alarms, otherAlarms); }
  }

  /** The recovery comparison's bounds in rows: the third one counts the rows of the bounded scenario alone. */
  lemma RecoveryEligibleMeans(candidate: string, sample: seq<Scored>, batched: seq<Scored>, t: real, r: RecoveryRule)
    requires RecoveryTrialAt(candidate, sample, batched, t).Some?
    ensures
      var trial := RecoveryTrialAt(candidate, sample, batched, t).value;
      var caught, alarms := Count(sample, Caught(t)), Count(sample, FalseAlarm(t));
      var anomalies, normals := Count(sample, Anomalous()), Count(sample, Normal());
      RecoveryEligible(trial, r) <==>
        && AtMost(alarms, normals, r.rule.maxFalsePositiveRate)
        && AtLeast(caught, anomalies, r.rule.minRecall)
        && Count(batched, Normal()) > 0
        && AtMost(Count(batched, FalseAlarm(t)), Count(batched, Normal()), r.maxBatchedFalsePositiveRate)
  {
    CellsCountRows(sample, t);
    CellsCountRows(batched, t);
    var c, d := ConfusionOf(sample, t), ConfusionOf(batched, t);
    var own := Count(batched, Normal());
    NormalBound(c, Count(sample, Normal()), r.rule.maxFalsePositiveRate);
    AnomalyBound(c, Count(sample, Anomalous()), r.rule.minRecall);
    if own > 0 { NormalBound(d, own, r.maxBatchedFalsePositiveRate); }
    hide Count, Recall, F1, FalsePositiveRate, ConfusionOf, InUnit, AtMost, AtLeast;
  }
}
