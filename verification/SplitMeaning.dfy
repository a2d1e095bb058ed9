/** The split told over the runs alone: which runs belong together, which blocks come later, how many blocks each part
    gets, and what makes an input acceptable. Nothing here refers to places in a sorted list. */
module SplitMeaning {
  import opened Seqs
  import opened Sorting
  import opened TextOrder
  import opened SplitLogic
  import opened SplitRuns

  /** Runs of one campaign, and without a registry of one repeat, form a block. */
  predicate SameBlock(r: Run, s: Run, policy: Policy)
  {
    r.campaign == s.campaign && (policy.Preassigned? || r.repetition == s.repetition)
  }

  /** The block of r starts at t, with its earliest run. */
  ghost predicate BlockStarts(runs: seq<Run>, policy: Policy, r: Run, t: int)
  {
    && (exists a :: a in runs && SameBlock(a, r, policy) && a.start == t)
    && forall a :: a in runs && SameBlock(a, r, policy) ==> t <= a.start
  }

  /** By campaign, and within a campaign by repeat. */
  predicate NameBefore(r: Run, s: Run)
  {
    if r.campaign != s.campaign then TextLeq(r.campaign, s.campaign) else r.repetition < s.repetition
  }

  /** The block of r starts before that of s; blocks that start together are ordered by name. */
  ghost predicate Earlier(runs: seq<Run>, policy: Policy, r: Run, s: Run)
  {
    exists t, u :: BlockStarts(runs, policy, r, t) && BlockStarts(runs, policy, s, u) && (t < u || (t == u && NameBefore(r, s)))
  }

  /** The blocks later than that of r, by key. */
  ghost function LaterBlocks(runs: seq<Run>, policy: Policy, r: Run): set<BlockKey>
  {
    set s | s in runs && Earlier(runs, policy, r, s) :: KeyOf(s, policy)
  }

  /** Where a run belongs: its campaign's registered part, or by how many blocks are later than its own. */
  ghost function PartOf(runs: seq<Run>, policy: Policy, r: Run): Part
  {
    match policy
    case Preassigned(roles) => if r.campaign in roles then roles[r.campaign] else Train
    case Chronological(v, t) =>
      var later := |LaterBlocks(runs, policy, r)|;
      if later < t then Test else if later < t + v then Validation else Train
  }

  lemma KeysTellBlocks(r: Run, s: Run, policy: Policy)
    ensures KeyOf(r, policy) == KeyOf(s, policy) <==> SameBlock(r, s, policy)
  {}

  /** Run r stands in block i of the list. */
  ghost predicate IsAt(runs: seq<Run>, policy: Policy, bs: seq<Block>, i: int, r: Run)
  {
    0 <= i < |bs| && r in runs && bs[i].key == KeyOf(r, policy)
  }

  lemma EveryRunIsSomewhere(runs: seq<Run>, policy: Policy, bs: seq<Block>, r: Run) returns (i: nat)
    requires BlockListOk(runs, policy, bs) && r in runs
    ensures IsAt(runs, policy, bs, i, r)
  {
    BlockKeyIs(runs, policy, r);
    i :| 0 <= i < |bs| && bs[i] == BlockOf(runs, policy, KeyOf(r, policy));
  }

  lemma EveryBlockHasARun(runs: seq<Run>, policy: Policy, bs: seq<Block>, i: nat) returns (r: Run)
    requires BlockListOk(runs, policy, bs) && i < |bs|
    ensures IsAt(runs, policy, bs, i, r) && r in bs[i].runs
  {
    assert IsBlock(runs, policy, bs[i]);
    r := bs[i].runs[0];
    BlockSpansItsRuns(runs, policy, bs[i], r);
  }

  lemma BlockHasItsRuns(runs: seq<Run>, policy: Policy, bs: seq<Block>, i: nat)
    requires BlockListOk(runs, policy, bs) && i < |bs|
    ensures forall r :: r in bs[i].runs <==> r in runs && KeyOf(r, policy) == bs[i].key
    ensures bs[i].runs != [] && bs[i].start == Earliest(bs[i].runs) && bs[i].end == Latest(bs[i].runs)
  {
    assert IsBlock(runs, policy, bs[i]);
    hide Earliest, Latest, KeyOf;
  }

  lemma StartIs(runs: seq<Run>, policy: Policy, bs: seq<Block>, i: nat, r: Run, t: int)
    requires BlockListOk(runs, policy, bs) && IsAt(runs, policy, bs, i, r)
    ensures BlockStarts(runs, policy, r, t) <==> t == bs[i].start
  {
    hide BlockListOk, Earliest, Latest, KeyOf, SameBlock;
    BlockHasItsRuns(runs, policy, bs, i);
    forall a ensures a in runs && SameBlock(a, r, policy) <==> a in bs[i].runs {
      KeysTellBlocks(a, r, policy);
    }
  }

  lemma ListIsOrdered(runs: seq<Run>, policy: Policy, bs: seq<Block>, i: nat, j: nat)
    requires BlockListOk(runs, policy, bs) && i < j < |bs|
    ensures bs[i].key != bs[j].key && bs[i].start <= bs[j].start
    ensures bs[i].start == bs[j].start ==> KeyLeq(bs[i].key, bs[j].key)
  {
    assert KeysDiffer(bs) && Sorted(bs, BlockOrder());
    assert BlockOrder()(bs[i], bs[j]);
  }

  lemma NamesOrderKeys(r: Run, s: Run, policy: Policy)
    requires policy.Chronological?
    ensures KeyOf(r, policy) != KeyOf(s, policy) && KeyLeq(KeyOf(r, policy), KeyOf(s, policy)) ==> NameBefore(r, s)
    ensures NameBefore(r, s) ==> !NameBefore(s, r) && KeyOf(r, policy) != KeyOf(s, policy)
  {
    TextLeqTotal(r.campaign, s.campaign);
    hide TextLeq;
  }

  lemma EarlierMeans(runs: seq<Run>, policy: Policy, bs: seq<Block>, i: nat, j: nat, r: Run, s: Run)
    requires BlockListOk(runs, policy, bs) && IsAt(runs, policy, bs, i, r) && IsAt(runs, policy, bs, j, s)
    ensures Earlier(runs, policy, r, s) <==>
      bs[i].start < bs[j].start || (bs[i].start == bs[j].start && NameBefore(r, s))
  {
    hide BlockStarts, BlockListOk, NameBefore;
    StartIs(runs, policy, bs, i, r, bs[i].start);
    StartIs(runs, policy, bs, j, s, bs[j].start);
    if Earlier(runs, policy, r, s) {
      var t, u :| BlockStarts(runs, policy, r, t) && BlockStarts(runs, policy, s, u) && (t < u || (t == u && NameBefore(r, s)));
      StartIs(runs, policy, bs, i, r, t);
      StartIs(runs, policy, bs, j, s, u);
    }
  }

  /** Places decide starts and names. */
  lemma PlacesOrderNames(runs: seq<Run>, policy: Policy, bs: seq<Block>, i: nat, j: nat, r: Run, s: Run)
    requires policy.Chronological? && BlockListOk(runs, policy, bs) && i < j
    requires IsAt(runs, policy, bs, i, r) && IsAt(runs, policy, bs, j, s)
    ensures bs[i].start < bs[j].start || (bs[i].start == bs[j].start && NameBefore(r, s) && !NameBefore(s, r))
  {
    assert bs[i].key == KeyOf(r, policy) && bs[j].key == KeyOf(s, policy);
    hide *;
    ListIsOrdered(runs, policy, bs, i, j);
    NamesOrderKeys(r, s, policy);
  }

  lemma BeforeMeansEarlier(runs: seq<Run>, policy: Policy, bs: seq<Block>, i: nat, j: nat, r: Run, s: Run)
    requires policy.Chronological? && BlockListOk(runs, policy, bs) && i < j
    requires IsAt(runs, policy, bs, i, r) && IsAt(runs, policy, bs, j, s)
    ensures Earlier(runs, policy, r, s) && !Earlier(runs, policy, s, r)
  {
    assert i < |bs| && j < |bs|;
    hide *;
    PlacesOrderNames(runs, policy, bs, i, j, r, s);
    EarlierMeans(runs, policy, bs, i, j, r, s);
    EarlierMeans(runs, policy, bs, j, i, s, r);
  }

  lemma NotEarlierThanItself(runs: seq<Run>, policy: Policy, bs: seq<Block>, i: nat, r: Run, s: Run)
    requires policy.Chronological? && BlockListOk(runs, policy, bs)
    requires IsAt(runs, policy, bs, i, r) && IsAt(runs, policy, bs, i, s)
    ensures !Earlier(runs, policy, r, s)
  {
    assert KeyOf(r, policy) == KeyOf(s, policy) && i < |bs|;
    hide *;
    EarlierMeans(runs, policy, bs, i, i, r, s);
    NamesOrderKeys(r, s, policy);
  }

  /** Being earlier is standing before in the list. */
  lemma EarlierIsBefore(runs: seq<Run>, policy: Policy, bs: seq<Block>, i: nat, j: nat, r: Run, s: Run)
    requires policy.Chronological? && BlockListOk(runs, policy, bs)
    requires IsAt(runs, policy, bs, i, r) && IsAt(runs, policy, bs, j, s)
    ensures Earlier(runs, policy, r, s) <==> i < j
  {
    hide *;
    if i < j {
      BeforeMeansEarlier(runs, policy, bs, i, j, r, s);
    } else if j < i {
      BeforeMeansEarlier(runs, policy, bs, j, i, s, r);
    } else {
      NotEarlierThanItself(runs, policy, bs, i, r, s);
    }
  }

  ghost predicate KeyAt(bs: seq<Block>, j: int, key: BlockKey) { 0 <= j < |bs| && bs[j].key == key }

  /** The keys of a stretch of the list. */
  function KeysBetween(bs: seq<Block>, a: nat, b: nat): set<BlockKey>
    requires a <= b <= |bs|
    decreases b - a
  {
    if a == b then {} else {bs[a].key} + KeysBetween(bs, a + 1, b)
  }

  lemma {:induction false} KeysBetweenAre(bs: seq<Block>, a: nat, b: nat, key: BlockKey)
    requires a <= b <= |bs|
    ensures key in KeysBetween(bs, a, b) <==> exists j :: a <= j < b && KeyAt(bs, j, key)
    decreases b - a
  {
    if a < b {
      KeysBetweenAre(bs, a + 1, b, key);
      assert KeyAt(bs, a, bs[a].key);
    }
  }

  lemma {:induction false} KeysBetweenSize(bs: seq<Block>, a: nat, b: nat)
    requires KeysDiffer(bs) && a <= b <= |bs|
    ensures |KeysBetween(bs, a, b)| == b - a
    decreases b - a
  {
    if a < b {
      KeysBetweenSize(bs, a + 1, b);
      KeysBetweenAre(bs, a + 1, b, bs[a].key);
      assert bs[a].key !in KeysBetween(bs, a + 1, b);
    }
  }

  lemma LaterBlocksAre(runs: seq<Run>, policy: Policy, bs: seq<Block>, i: nat, r: Run)
    requires policy.Chronological? && BlockListOk(runs, policy, bs) && IsAt(runs, policy, bs, i, r)
    ensures LaterBlocks(runs, policy, r) == KeysBetween(bs, i + 1, |bs|)
  {
    hide BlockListOk, Earlier, KeysBetween;
    forall key ensures key in LaterBlocks(runs, policy, r) <==> key in KeysBetween(bs, i + 1, |bs|) {
      KeysBetweenAre(bs, i + 1, |bs|, key);
      if key in LaterBlocks(runs, policy, r) {
        var s :| s in runs && Earlier(runs, policy, r, s) && KeyOf(s, policy) == key;
        var j := EveryRunIsSomewhere(runs, policy, bs, s);
        EarlierIsBefore(runs, policy, bs, i, j, r, s);
        assert KeyAt(bs, j, key);
      }
      if key in KeysBetween(bs, i + 1, |bs|) {
        var j :| i + 1 <= j < |bs| && KeyAt(bs, j, key);
        var s := EveryBlockHasARun(runs, policy, bs, j);
        EarlierIsBefore(runs, policy, bs, i, j, r, s);
      }
    }
  }

  lemma LaterCount(runs: seq<Run>, policy: Policy, bs: seq<Block>, i: nat, r: Run)
    requires policy.Chronological? && BlockListOk(runs, policy, bs) && IsAt(runs, policy, bs, i, r)
    ensures |LaterBlocks(runs, policy, r)| == |bs| - 1 - i
  {
    assert KeysDiffer(bs) && i < |bs|;
    hide *;
    LaterBlocksAre(runs, policy, bs, i, r);
    KeysBetweenSize(bs, i + 1, |bs|);
  }

  lemma RolesAgree(runs: seq<Run>, policy: Policy, bs: seq<Block>, i: nat, r: Run)
    requires policy.Preassigned? && IsAt(runs, policy, bs, i, r)
    ensures i < |bs| && PartOf(runs, policy, r) == PartAt(bs, policy, i)
  {}

  lemma CountsAgree(runs: seq<Run>, policy: Policy, bs: seq<Block>, i: nat, r: Run)
    requires policy.Chronological? && i < |bs| && |LaterBlocks(runs, policy, r)| == |bs| - 1 - i
    ensures PartOf(runs, policy, r) == PartAt(bs, policy, i)
  {
    hide LaterBlocks;
  }

  /** The list's parts are the runs' parts. */
  lemma PartOfIsPartAt(runs: seq<Run>, policy: Policy, bs: seq<Block>, i: nat, r: Run)
    requires BlockListOk(runs, policy, bs) && IsAt(runs, policy, bs, i, r)
    ensures PartOf(runs, policy, r) == PartAt(bs, policy, i)
  {
    assert i < |bs|;
    hide *;
    match policy
    case Chronological(_, _) =>
      LaterCount(runs, policy, bs, i, r);
      CountsAgree(runs, policy, bs, i, r);
    case Preassigned(_) => RolesAgree(runs, policy, bs, i, r);
  }

  /** The blocks of a part, by key. */
  ghost function BlocksIn(runs: seq<Run>, policy: Policy, part: Part): set<BlockKey>
  {
    set r | r in runs && PartOf(runs, policy, r) == part :: KeyOf(r, policy)
  }

  ghost function BlockKeys(runs: seq<Run>, policy: Policy): set<BlockKey>
  {
    set r | r in runs :: KeyOf(r, policy)
  }

  lemma InPartIffPlace(runs: seq<Run>, policy: Policy, bs: seq<Block>, part: Part, key: BlockKey)
    requires BlockListOk(runs, policy, bs)
    ensures key in BlocksIn(runs, policy, part) <==> exists i :: KeyAt(bs, i, key) && PartAt(bs, policy, i) == part
  {
    hide BlockListOk, PartOf, PartAt;
    if key in BlocksIn(runs, policy, part) {
      var r :| r in runs && PartOf(runs, policy, r) == part && KeyOf(r, policy) == key;
      var i := EveryRunIsSomewhere(runs, policy, bs, r);
      PartOfIsPartAt(runs, policy, bs, i, r);
      assert KeyAt(bs, i, key);
    }
    if i :| KeyAt(bs, i, key) && PartAt(bs, policy, i) == part {
      var r := EveryBlockHasARun(runs, policy, bs, i);
      PartOfIsPartAt(runs, policy, bs, i, r);
    }
  }

  lemma KeyOfARunIsListed(runs: seq<Run>, policy: Policy, bs: seq<Block>, key: BlockKey)
    requires BlockListOk(runs, policy, bs)
    ensures key in BlockKeys(runs, policy) <==> key in KeysBetween(bs, 0, |bs|)
  {
    hide BlockListOk, KeysBetween, KeyOf;
    KeysBetweenAre(bs, 0, |bs|, key);
    if key in BlockKeys(runs, policy) {
      var r :| r in runs && KeyOf(r, policy) == key;
      var i := EveryRunIsSomewhere(runs, policy, bs, r);
      assert KeyAt(bs, i, key);
    }
    if j :| 0 <= j < |bs| && KeyAt(bs, j, key) {
      var r := EveryBlockHasARun(runs, policy, bs, j);
    }
  }

  lemma BlockKeysAre(runs: seq<Run>, policy: Policy, bs: seq<Block>)
    requires BlockListOk(runs, policy, bs)
    ensures BlockKeys(runs, policy) == KeysBetween(bs, 0, |bs|) && |BlockKeys(runs, policy)| == |bs|
  {
    assert KeysDiffer(bs);
    hide *;
    KeysBetweenSize(bs, 0, |bs|);
    forall key ensures key in BlockKeys(runs, policy) <==> key in KeysBetween(bs, 0, |bs|) {
      KeyOfARunIsListed(runs, policy, bs, key);
    }
    assert BlockKeys(runs, policy) == KeysBetween(bs, 0, |bs|);
  }

  ghost predicate IsStretch(bs: seq<Block>, policy: Policy, part: Part, a: nat, b: nat)
  {
    && a <= b <= |bs|
    && forall i :: 0 <= i < |bs| ==> (PartAt(bs, policy, i) == part <==> a <= i < b)
  }

  lemma InPartIffInStretch(runs: seq<Run>, policy: Policy, bs: seq<Block>, part: Part, a: nat, b: nat, key: BlockKey)
    requires BlockListOk(runs, policy, bs) && IsStretch(bs, policy, part, a, b)
    ensures key in BlocksIn(runs, policy, part) <==> key in KeysBetween(bs, a, b)
  {
    hide BlockListOk, KeysBetween, BlocksIn, PartAt;
    InPartIffPlace(runs, policy, bs, part, key);
    KeysBetweenAre(bs, a, b, key);
    if j :| a <= j < b && KeyAt(bs, j, key) { assert PartAt(bs, policy, j) == part; }
  }

  lemma PartIsStretch(runs: seq<Run>, policy: Policy, bs: seq<Block>, part: Part, a: nat, b: nat)
    requires BlockListOk(runs, policy, bs) && IsStretch(bs, policy, part, a, b)
    ensures |BlocksIn(runs, policy, part)| == b - a
  {
    assert KeysDiffer(bs) && a <= b <= |bs|;
    hide *;
    forall key ensures key in BlocksIn(runs, policy, part) <==> key in KeysBetween(bs, a, b) {
      InPartIffInStretch(runs, policy, bs, part, a, b, key);
    }
    assert BlocksIn(runs, policy, part) == KeysBetween(bs, a, b);
    KeysBetweenSize(bs, a, b);
  }

  /** An accepted chronological split gives exactly the demanded numbers of blocks: `testBlocks` to test,
      `validationBlocks` to validation, all the rest to train. */
  lemma PartSizes(runs: seq<Run>, policy: Policy, bs: seq<Block>)
    requires policy.Chronological? && BlockListOk(runs, policy, bs) && Separable(runs, policy, bs)
    ensures |BlocksIn(runs, policy, Test)| == policy.testBlocks
    ensures |BlocksIn(runs, policy, Validation)| == policy.validationBlocks
    ensures |BlocksIn(runs, policy, Train)| == |BlockKeys(runs, policy)| - policy.validationBlocks - policy.testBlocks > 0
  {
    var n, v, t := |bs|, policy.validationBlocks, policy.testBlocks;
    hide BlockListOk, BlocksIn, BlockKeys;
    PartIsStretch(runs, policy, bs, Test, n - t, n);
    PartIsStretch(runs, policy, bs, Validation, n - v - t, n - t);
    PartIsStretch(runs, policy, bs, Train, 0, n - v - t);
    BlockKeysAre(runs, policy, bs);
  }

  /** A placed row comes from a run that belongs to its part, and carries that run's block. */
  lemma RowsGoToTheirPart(runs: seq<Run>, policy: Policy, bs: seq<Block>, part: Part, x: Placed) returns (r: Run)
    requires BlockListOk(runs, policy, bs) && PlacedWell(bs, policy, part, x)
    ensures r in runs && x.row in r.rows && x.block == KeyOf(r, policy) && x.part == part == PartOf(runs, policy, r)
  {
    hide BlockListOk, PartAt, PartOf, KeyOf;
    var i;
    i, r := PlacedRun(runs, policy, bs, part, x);
    PartOfIsPartAt(runs, policy, bs, i, r);
  }

  /** A row of a run that belongs to the part. */
  ghost predicate RowOf(runs: seq<Run>, policy: Policy, part: Part, x: Row)
  {
    exists r :: r in runs && x in r.rows && PartOf(runs, policy, r) == part
  }

  lemma {:induction false} BagHoldsRows(runs: seq<Run>, x: Row)
    ensures x in Bag(runs) <==> exists r :: r in runs && x in r.rows
  {
    if runs != [] {
      assert runs == Init(runs) + [Last(runs)];
      BagHoldsRows(Init(runs), x);
    }
  }

  ghost predicate RowAt(bs: seq<Block>, policy: Policy, part: Part, i: int, x: Row)
  {
    0 <= i < |bs| && PartAt(bs, policy, i) == part && x in Bag(bs[i].runs)
  }

  lemma {:induction false} PartBagHoldsRows(bs: seq<Block>, policy: Policy, n: nat, part: Part, x: Row)
    requires n <= |bs|
    ensures x in PartBag(bs, policy, n, part) <==> exists i :: i < n && RowAt(bs, policy, part, i, x)
  {
    hide PartAt, Bag;
    if n > 0 {
      PartBagHoldsRows(bs, policy, n - 1, part, x);
      if x in PartBag(bs, policy, n, part) && x !in PartBag(bs, policy, n - 1, part) {
        assert RowAt(bs, policy, part, n - 1, x);
      }
    }
  }

  lemma PartHoldsRows(runs: seq<Run>, policy: Policy, bs: seq<Block>, part: Part, x: Row)
    requires BlockListOk(runs, policy, bs)
    ensures x in PartBag(bs, policy, |bs|, part) <==> RowOf(runs, policy, part, x)
  {
    hide BlockListOk, PartBag, PartAt, PartOf, Bag, KeyOf, Earliest, Latest;
    PartBagHoldsRows(bs, policy, |bs|, part, x);
    if x in PartBag(bs, policy, |bs|, part) {
      var i :| i < |bs| && RowAt(bs, policy, part, i, x);
      BagHoldsRows(bs[i].runs, x);
      var r :| r in bs[i].runs && x in r.rows;
      BlockHasItsRuns(runs, policy, bs, i);
      PartOfIsPartAt(runs, policy, bs, i, r);
    }
    if r :| r in runs && x in r.rows && PartOf(runs, policy, r) == part {
      var i := EveryRunIsSomewhere(runs, policy, bs, r);
      BlockHasItsRuns(runs, policy, bs, i);
      BagHoldsRows(bs[i].runs, x);
      PartOfIsPartAt(runs, policy, bs, i, r);
      assert RowAt(bs, policy, part, i, x);
    }
  }

  /** Rows of both targets, and of no other. */
  ghost predicate HasBothTargets(runs: seq<Run>, policy: Policy, part: Part)
  {
    && (exists x :: RowOf(runs, policy, part, x) && x.target == 0)
    && (exists x :: RowOf(runs, policy, part, x) && x.target == 1)
    && (forall x :: RowOf(runs, policy, part, x) ==> x.target == 0 || x.target == 1)
  }

  /** Rows of each run's scenario, and of no other. */
  ghost predicate HasEveryScenario(runs: seq<Run>, policy: Policy, part: Part)
  {
    && (forall r :: r in runs ==> exists x :: RowOf(runs, policy, part, x) && x.scenario == r.scenario)
    && (forall x :: RowOf(runs, policy, part, x) ==> exists r :: r in runs && r.scenario == x.scenario)
  }

  ghost predicate Complete(runs: seq<Run>, policy: Policy, part: Part, allScenarios: bool)
  {
    HasBothTargets(runs, policy, part) && (allScenarios ==> HasEveryScenario(runs, policy, part))
  }

  predicate BothTargets(rows: multiset<Row>) { (set row | row in rows :: row.target) == {0, 1} }

  predicate EveryScenario(rows: multiset<Row>, runs: seq<Run>)
  {
    (set row | row in rows :: row.scenario) == (set r | r in runs :: r.scenario)
  }

  lemma TargetsMean(rows: multiset<Row>)
    ensures BothTargets(rows) <==>
      && (exists x :: x in rows && x.target == 0) && (exists x :: x in rows && x.target == 1)
      && (forall x :: x in rows ==> x.target == 0 || x.target == 1)
  {
    var targets := set row | row in rows :: row.target;
    if targets == {0, 1} { assert 0 in targets && 1 in targets; }
    forall x | x in rows ensures x.target in targets {}
  }

  lemma ScenariosMean(rows: multiset<Row>, runs: seq<Run>)
    ensures EveryScenario(rows, runs) <==>
      && (forall r :: r in runs ==> exists x :: x in rows && x.scenario == r.scenario)
      && (forall x :: x in rows ==> exists r :: r in runs && r.scenario == x.scenario)
  {
    var have, want := set row | row in rows :: row.scenario, set r | r in runs :: r.scenario;
    if have == want {
      forall r | r in runs ensures exists x :: x in rows && x.scenario == r.scenario { assert r.scenario in have; }
      forall x | x in rows ensures exists r :: r in runs && r.scenario == x.scenario { assert x.scenario in want; }
    }
  }

  ghost predicate AreItsRows(runs: seq<Run>, policy: Policy, part: Part, rows: multiset<Row>)
  {
    forall x :: x in rows <==> RowOf(runs, policy, part, x)
  }

  lemma TargetsOfThePart(runs: seq<Run>, policy: Policy, part: Part, rows: multiset<Row>)
    requires AreItsRows(runs, policy, part, rows)
    ensures BothTargets(rows) <==> HasBothTargets(runs, policy, part)
  {
    TargetsMean(rows);
    hide RowOf, BothTargets;
  }

  lemma ScenariosOfThePart(runs: seq<Run>, policy: Policy, part: Part, rows: multiset<Row>)
    requires AreItsRows(runs, policy, part, rows)
    ensures EveryScenario(rows, runs) <==> HasEveryScenario(runs, policy, part)
  {
    ScenariosMean(rows, runs);
    hide RowOf, EveryScenario;
  }

  lemma RepresentedMeans(rows: multiset<Row>, runs: seq<Run>, allScenarios: bool)
    ensures Represented(rows, runs, allScenarios) <==> BothTargets(rows) && (allScenarios ==> EveryScenario(rows, runs))
  {}

  lemma PartIsItsRows(runs: seq<Run>, policy: Policy, bs: seq<Block>, part: Part)
    requires BlockListOk(runs, policy, bs)
    ensures AreItsRows(runs, policy, part, PartBag(bs, policy, |bs|, part))
  {
    hide BlockListOk, PartBag, RowOf;
    forall x ensures x in PartBag(bs, policy, |bs|, part) <==> RowOf(runs, policy, part, x) {
      PartHoldsRows(runs, policy, bs, part, x);
    }
  }

  lemma RepresentedMeansComplete(runs: seq<Run>, policy: Policy, bs: seq<Block>, part: Part, allScenarios: bool)
    requires BlockListOk(runs, policy, bs)
    ensures Represented(PartBag(bs, policy, |bs|, part), runs, allScenarios) <==> Complete(runs, policy, part, allScenarios)
  {
    var rows := PartBag(bs, policy, |bs|, part);
    hide BlockListOk, PartBag, AreItsRows, BothTargets, EveryScenario, Represented, HasBothTargets, HasEveryScenario;
    PartIsItsRows(runs, policy, bs, part);
    TargetsOfThePart(runs, policy, part, rows);
    ScenariosOfThePart(runs, policy, part, rows);
    RepresentedMeans(rows, runs, allScenarios);
  }

  /** No block lies between that of r and that of s. */
  ghost predicate NextBlock(runs: seq<Run>, policy: Policy, r: Run, s: Run)
  {
    Earlier(runs, policy, r, s) && !exists w :: w in runs && Earlier(runs, policy, r, w) && Earlier(runs, policy, w, s)
  }

  /** No run of a block ends after a run of the next block starts. */
  ghost predicate BlocksApart(runs: seq<Run>, policy: Policy)
  {
    forall r, s :: r in runs && s in runs && NextBlock(runs, policy, r, s) ==> r.end <= s.start
  }

  lemma RunAtIsARun(runs: seq<Run>, policy: Policy, bs: seq<Block>, i: nat, r: Run)
    requires IsAt(runs, policy, bs, i, r)
    ensures r in runs && i < |bs|
  {}

  /** A run of a block between r's and s's is a witness that s's is not the next. */
  lemma BlockBetween(runs: seq<Run>, policy: Policy, bs: seq<Block>, i: nat, j: nat, r: Run, s: Run) returns (w: Run)
    requires policy.Chronological? && BlockListOk(runs, policy, bs) && i + 1 < j
    requires IsAt(runs, policy, bs, i, r) && IsAt(runs, policy, bs, j, s)
    ensures w in runs && Earlier(runs, policy, r, w) && Earlier(runs, policy, w, s)
  {
    hide *;
    RunAtIsARun(runs, policy, bs, j, s);
    w := EveryBlockHasARun(runs, policy, bs, i + 1);
    RunAtIsARun(runs, policy, bs, i + 1, w);
    EarlierIsBefore(runs, policy, bs, i, i + 1, r, w);
    EarlierIsBefore(runs, policy, bs, i + 1, j, w, s);
  }

  lemma BetweenIsBetween(runs: seq<Run>, policy: Policy, bs: seq<Block>, i: nat, j: nat, r: Run, s: Run, w: Run)
    requires policy.Chronological? && BlockListOk(runs, policy, bs)
    requires IsAt(runs, policy, bs, i, r) && IsAt(runs, policy, bs, j, s)
    requires w in runs && Earlier(runs, policy, r, w) && Earlier(runs, policy, w, s)
    ensures i + 1 < j
  {
    hide *;
    var k := EveryRunIsSomewhere(runs, policy, bs, w);
    EarlierIsBefore(runs, policy, bs, i, k, r, w);
    EarlierIsBefore(runs, policy, bs, k, j, w, s);
  }

  lemma NextIsAfter(runs: seq<Run>, policy: Policy, bs: seq<Block>, i: nat, j: nat, r: Run, s: Run)
    requires policy.Chronological? && BlockListOk(runs, policy, bs)
    requires IsAt(runs, policy, bs, i, r) && IsAt(runs, policy, bs, j, s)
    ensures NextBlock(runs, policy, r, s) <==> j == i + 1
  {
    hide BlockListOk, Earlier, IsAt;
    EarlierIsBefore(runs, policy, bs, i, j, r, s);
    if i + 1 < j { var w := BlockBetween(runs, policy, bs, i, j, r, s); }
    forall w | w in runs && Earlier(runs, policy, r, w) && Earlier(runs, policy, w, s) ensures i + 1 < j {
      BetweenIsBetween(runs, policy, bs, i, j, r, s, w);
    }
  }

  lemma ApartMeans(runs: seq<Run>, policy: Policy, bs: seq<Block>)
    requires policy.Chronological? && BlockListOk(runs, policy, bs)
    ensures NeighboursApart(bs) <==> BlocksApart(runs, policy)
  {
    hide BlockListOk, NextBlock, Earliest, Latest, KeyOf;
    if NeighboursApart(bs) {
      forall r, s | r in runs && s in runs && NextBlock(runs, policy, r, s) ensures r.end <= s.start {
        var i := EveryRunIsSomewhere(runs, policy, bs, r);
        var j := EveryRunIsSomewhere(runs, policy, bs, s);
        NextIsAfter(runs, policy, bs, i, j, r, s);
        BlockHasItsRuns(runs, policy, bs, i);
        BlockHasItsRuns(runs, policy, bs, j);
      }
    }
    if BlocksApart(runs, policy) {
      forall j | 0 < j < |bs| ensures bs[j - 1].end <= bs[j].start {
        BlockHasItsRuns(runs, policy, bs, j - 1);
        BlockHasItsRuns(runs, policy, bs, j);
        var r :| r in bs[j - 1].runs && r.end == bs[j - 1].end;
        var s :| s in bs[j].runs && s.start == bs[j].start;
        NextIsAfter(runs, policy, bs, j - 1, j, r, s);
      }
    }
  }

  /** Enough blocks, each over before the next begins; or a registry of exactly the campaigns. */
  ghost predicate CanBeSplit(runs: seq<Run>, policy: Policy)
  {
    match policy
    case Chronological(v, t) => |BlockKeys(runs, policy)| > v + t && BlocksApart(runs, policy)
    case Preassigned(roles) => forall name :: name in roles <==> exists r :: r in runs && r.campaign == name
  }

  lemma RegistryCovers(runs: seq<Run>, roles: map<string, Part>)
    ensures RolesCover(runs, roles) <==> forall name :: name in roles <==> exists r :: r in runs && r.campaign == name
  {
    var named := set r | r in runs :: r.campaign;
    assert forall name :: name in named <==> exists r :: r in runs && r.campaign == name;
    assert RolesCover(runs, roles) <==> roles.Keys == named;
  }

  lemma SeparableMeans(runs: seq<Run>, policy: Policy, bs: seq<Block>)
    requires BlockListOk(runs, policy, bs)
    ensures Separable(runs, policy, bs) <==> CanBeSplit(runs, policy)
  {
    hide BlockListOk, BlocksApart, NeighboursApart, BlockKeys;
    match policy
    case Chronological(v, t) =>
      ApartMeans(runs, policy, bs);
      BlockKeysAre(runs, policy, bs);
    case Preassigned(roles) =>
      RegistryCovers(runs, roles);
      hide RolesCover;
  }

  /** The inputs that are accepted, told over the runs: they can be split and every part is complete. */
  lemma SplitAcceptsExactly(runs: seq<Run>, policy: Policy, bs: seq<Block>, allScenarios: bool)
    requires BlockListOk(runs, policy, bs)
    ensures Separable(runs, policy, bs) && AllRepresented(bs, policy, runs, allScenarios) <==>
      && CanBeSplit(runs, policy) && Complete(runs, policy, Train, allScenarios)
      && Complete(runs, policy, Validation, allScenarios) && Complete(runs, policy, Test, allScenarios)
  {
    hide BlockListOk, Represented, Complete, PartBag, CanBeSplit, Separable;
    SeparableMeans(runs, policy, bs);
    RepresentedMeansComplete(runs, policy, bs, Train, allScenarios);
    RepresentedMeansComplete(runs, policy, bs, Validation, allScenarios);
    RepresentedMeansComplete(runs, policy, bs, Test, allScenarios);
  }
}
