/** Runs, blocks of runs, and which split a block belongs to. */
module SplitLogic {
  import opened Seqs
  import opened Sorting
  import opened TextOrder

  datatype Row = Row(rowId: string, runId: string, campaign: string, session: int, index: int, scenario: string, target: int)

  datatype Run = Run(campaign: string, repetition: int, runId: string, scenario: string, start: int, end: int, rows: seq<Row>)

  datatype Part = Train | Validation | Test

  datatype Policy =
    | Chronological(validationBlocks: nat, testBlocks: nat)
    | Preassigned(roles: map<string, Part>)

  datatype BlockKey = Campaign(name: string) | Repeat(campaign: string, number: int)

  datatype Block = Block(key: BlockKey, runs: seq<Run>, start: int, end: int)

  function KeyOf(r: Run, policy: Policy): BlockKey
  {
    if policy.Preassigned? then Campaign(r.campaign) else Repeat(r.campaign, r.repetition)
  }

  function Keys(runs: seq<Run>, policy: Policy): (keys: seq<BlockKey>)
    ensures NoRepeat(keys)
    ensures forall r :: r in runs ==> KeyOf(r, policy) in keys
    ensures forall key :: key in keys ==> exists r :: r in runs && KeyOf(r, policy) == key
  {
    if runs == [] then []
    else
      assert runs == Init(runs) + [Last(runs)];
      var before, key := Keys(Init(runs), policy), KeyOf(Last(runs), policy);
      if key in before then before else before + [key]
  }

  function Members(runs: seq<Run>, policy: Policy, key: BlockKey): (m: seq<Run>)
    ensures forall r :: r in m <==> r in runs && KeyOf(r, policy) == key
  {
    if runs == [] then []
    else
      assert runs == Init(runs) + [Last(runs)];
      Members(Init(runs), policy, key) + if KeyOf(Last(runs), policy) == key then [Last(runs)] else []
  }

  function Earliest(runs: seq<Run>): (t: int)
    requires runs != []
    ensures forall r :: r in runs ==> t <= r.start
    ensures exists r :: r in runs && r.start == t
  {
    assert runs == Init(runs) + [Last(runs)];
    if |runs| == 1 then runs[0].start else Min(Earliest(Init(runs)), Last(runs).start)
  }

  function Latest(runs: seq<Run>): (t: int)
    requires runs != []
    ensures forall r :: r in runs ==> r.end <= t
    ensures exists r :: r in runs && r.end == t
  {
    assert runs == Init(runs) + [Last(runs)];
    if |runs| == 1 then runs[0].end else Max(Latest(Init(runs)), Last(runs).end)
  }

  function BlockOf(runs: seq<Run>, policy: Policy, key: BlockKey): Block
  {
    var m := Members(runs, policy, key);
    if m == [] then Block(key, [], 0, 0) else Block(key, m, Earliest(m), Latest(m))
  }

  predicate KeyLeq(a: BlockKey, b: BlockKey)
  {
    match (a, b)
    case (Campaign(x), Campaign(y)) => TextLeq(x, y)
    case (Repeat(x, i), Repeat(y, j)) => if x != y then TextLeq(x, y) else i <= j
    case (Campaign(_), Repeat(_, _)) => true
    case (Repeat(_, _), Campaign(_)) => false
  }

  function BlockOrder(): (Block, Block) -> bool
  {
    (a: Block, b: Block) => if a.start != b.start then a.start < b.start else KeyLeq(a.key, b.key)
  }

  lemma KeyLeqIsOrder(a: BlockKey, b: BlockKey, c: BlockKey)
    ensures KeyLeq(a, b) || KeyLeq(b, a)
    ensures KeyLeq(a, b) && KeyLeq(b, c) ==> KeyLeq(a, c)
  {
    var x := if a.Campaign? then a.name else a.campaign;
    var y := if b.Campaign? then b.name else b.campaign;
    var z := if c.Campaign? then c.name else c.campaign;
    TextLeqTotal(x, y);
    TextLeqTotal(y, z);
    TextLeqTotal(x, z);
    if TextLeq(x, y) && TextLeq(y, z) { TextLeqTransitive(x, y, z); }
  }

  lemma BlockOrderIsOrder()
    ensures TotalPreorder(BlockOrder())
  {
    forall a, b ensures BlockOrder()(a, b) || BlockOrder()(b, a) { KeyLeqIsOrder(a.key, b.key, b.key); }
    forall a, b, c | BlockOrder()(a, b) && BlockOrder()(b, c) ensures BlockOrder()(a, c) { KeyLeqIsOrder(a.key, b.key, c.key); }
  }

  function RawBlocks(runs: seq<Run>, policy: Policy): (raw: seq<Block>)
    ensures |raw| == |Keys(runs, policy)|
    ensures forall i :: 0 <= i < |raw| ==> raw[i] == BlockOf(runs, policy, Keys(runs, policy)[i])
  {
    var keys := Keys(runs, policy);
    seq(|keys|, i requires 0 <= i < |keys| => BlockOf(runs, policy, keys[i]))
  }

  /** All blocks, each once, by start time and then by key. */
  function Blocks(runs: seq<Run>, policy: Policy): (bs: seq<Block>)
  {
    SortBy(RawBlocks(runs, policy), BlockOrder())
  }

  ghost predicate IsBlock(runs: seq<Run>, policy: Policy, b: Block)
  {
    b.runs != [] && b == BlockOf(runs, policy, b.key)
  }

  ghost predicate KeysDiffer(bs: seq<Block>)
  {
    forall i, j :: 0 <= i < j < |bs| ==> bs[i].key != bs[j].key
  }

  ghost predicate BlockListOk(runs: seq<Run>, policy: Policy, bs: seq<Block>)
  {
    && (forall b :: b in bs ==> IsBlock(runs, policy, b))
    && (forall r :: r in runs ==> BlockOf(runs, policy, KeyOf(r, policy)) in bs)
    && KeysDiffer(bs)
    && Sorted(bs, BlockOrder())
  }

  lemma BlockHasRuns(runs: seq<Run>, policy: Policy, key: BlockKey)
    requires key in Keys(runs, policy)
    ensures IsBlock(runs, policy, BlockOf(runs, policy, key)) && BlockOf(runs, policy, key).key == key
  {
    var r :| r in runs && KeyOf(r, policy) == key;
    assert r in Members(runs, policy, key);
  }

  lemma RawBlocksAreBlocks(runs: seq<Run>, policy: Policy)
    ensures forall b :: b in RawBlocks(runs, policy) ==> IsBlock(runs, policy, b)
    ensures forall r :: r in runs ==> BlockOf(runs, policy, KeyOf(r, policy)) in RawBlocks(runs, policy)
    ensures NoRepeat(RawBlocks(runs, policy))
  {
    var keys, raw := Keys(runs, policy), RawBlocks(runs, policy);
    hide BlockOf, Keys, RawBlocks, IsBlock;
    forall i | 0 <= i < |raw| ensures IsBlock(runs, policy, raw[i]) && raw[i].key == keys[i] {
      assert keys[i] in keys;
      BlockHasRuns(runs, policy, keys[i]);
    }
    forall r | r in runs ensures BlockOf(runs, policy, KeyOf(r, policy)) in raw {
      var i :| 0 <= i < |keys| && keys[i] == KeyOf(r, policy);
      assert raw[i] in raw;
    }
  }

  lemma DistinctBlocksHaveDistinctKeys(runs: seq<Run>, policy: Policy, bs: seq<Block>)
    requires NoRepeat(bs) && forall b :: b in bs ==> IsBlock(runs, policy, b)
    ensures KeysDiffer(bs)
  {
    hide BlockOf;
    forall i, j | 0 <= i < j < |bs| ensures bs[i].key != bs[j].key {
      assert IsBlock(runs, policy, bs[i]) && IsBlock(runs, policy, bs[j]);
    }
  }

  lemma BlocksAreOk(runs: seq<Run>, policy: Policy)
    ensures BlockListOk(runs, policy, Blocks(runs, policy))
  {
    var raw := RawBlocks(runs, policy);
    BlockOrderIsOrder();
    SortSorts(raw, BlockOrder());
    SortMembers(raw, BlockOrder());
    RawBlocksAreBlocks(runs, policy);
    SortKeepsNoRepeat(raw, BlockOrder());
    hide BlockOf, BlockOrder, RawBlocks, KeysDiffer, Sorted, IsBlock, SortBy, TotalPreorder, NoRepeat;
    DistinctBlocksHaveDistinctKeys(runs, policy, Blocks(runs, policy));
  }

  /** The test of neighbours. */
  predicate NeighboursApart(bs: seq<Block>)
  {
    forall i :: 0 < i < |bs| ==> bs[i - 1].end <= bs[i].start
  }

  ghost predicate EndsAfterStart(runs: seq<Run>)
  {
    forall r :: r in runs ==> r.start <= r.end
  }

  /** Checking neighbours orders all pairs. */
  lemma {:induction false} NeighboursApartMeansAllApart(bs: seq<Block>, i: nat, j: nat)
    requires NeighboursApart(bs) && i < j < |bs|
    requires forall b :: b in bs ==> b.start <= b.end
    ensures bs[i].end <= bs[j].start
    decreases j
  {
    if i < j - 1 {
      NeighboursApartMeansAllApart(bs, i, j - 1);
      assert bs[j - 1] in bs;
    }
  }

  lemma BlockSpansItsRuns(runs: seq<Run>, policy: Policy, b: Block, r: Run)
    requires b == BlockOf(runs, policy, b.key) && r in b.runs
    ensures b.start <= r.start && r.end <= b.end && KeyOf(r, policy) == b.key && r in runs
    ensures EndsAfterStart(runs) ==> b.start <= b.end
  {}

  /** The split of the block at a place of the sorted list. */
  function PartAt(bs: seq<Block>, policy: Policy, i: nat): Part
    requires i < |bs|
  {
    match policy
    case Chronological(v, t) => if i < |bs| - v - t then Train else if i < |bs| - t then Validation else Test
    case Preassigned(roles) =>
      if bs[i].key.Campaign? && bs[i].key.name in roles then roles[bs[i].key.name] else Train
  }

  function Bag(runs: seq<Run>): multiset<Row>
  {
    if runs == [] then multiset{} else Bag(Init(runs)) + multiset(Last(runs).rows)
  }

  lemma PlusAssociates(a: multiset<Row>, b: multiset<Row>, c: multiset<Row>)
    ensures (a + b) + c == a + (b + c)
  {}

  lemma PlusSwaps(a: multiset<Row>, b: multiset<Row>, c: multiset<Row>)
    ensures (a + c) + b == (a + b) + c == a + (b + c)
    ensures a + multiset{} == a
  {}

  lemma AddToOnePart(a: multiset<Row>, b: multiset<Row>, c: multiset<Row>, x: multiset<Row>)
    ensures (a + x) + b + c == a + b + c + x
    ensures a + (b + x) + c == a + b + c + x
    ensures a + b + (c + x) == a + b + c + x
  {}

  lemma {:induction false} BagAppend(a: seq<Run>, b: seq<Run>)
    ensures Bag(a + b) == Bag(a) + Bag(b)
  {
    if b == [] {
      assert a + b == a;
    } else {
      assert Init(a + b) == a + Init(b) && Last(a + b) == Last(b);
      BagAppend(a, Init(b));
      PlusAssociates(Bag(a), Bag(Init(b)), multiset(Last(b).rows));
    }
  }

  lemma BagOfOne(r: Run)
    ensures Bag([r]) == multiset(r.rows)
  {
    assert Init([r]) == [];
  }

  lemma {:induction false} InsertKeepsBag(r: Run, runs: seq<Run>, leq: (Run, Run) -> bool)
    ensures Bag(Insert(r, runs, leq)) == Bag(runs) + multiset(r.rows)
  {
    BagOfOne(r);
    if runs != [] {
      assert runs == [runs[0]] + runs[1..];
      if leq(r, runs[0]) {
        BagAppend([r], runs);
      } else {
        InsertKeepsBag(r, runs[1..], leq);
        BagAppend([runs[0]], Insert(r, runs[1..], leq));
        BagAppend([runs[0]], runs[1..]);
      }
    }
  }

  lemma {:induction false} SortKeepsBag(runs: seq<Run>, leq: (Run, Run) -> bool)
    ensures Bag(SortBy(runs, leq)) == Bag(runs)
  {
    if runs != [] {
      assert runs == [runs[0]] + runs[1..];
      SortKeepsBag(runs[1..], leq);
      InsertKeepsBag(runs[0], SortBy(runs[1..], leq), leq);
      BagAppend([runs[0]], runs[1..]);
      BagOfOne(runs[0]);
    }
  }

  /** The rows of the runs with one of the given keys. */
  function BagOver(runs: seq<Run>, policy: Policy, keys: seq<BlockKey>): multiset<Row>
  {
    if keys == [] then multiset{}
    else BagOver(runs, policy, Init(keys)) + Bag(Members(runs, policy, Last(keys)))
  }

  lemma MembersOfAppend(runs: seq<Run>, r: Run, policy: Policy, key: BlockKey)
    ensures Bag(Members(runs + [r], policy, key)) ==
            Bag(Members(runs, policy, key)) + if KeyOf(r, policy) == key then multiset(r.rows) else multiset{}
  {
    assert Init(runs + [r]) == runs;
    BagAppend(Members(runs, policy, key), [r]);
    BagOfOne(r);
    assert Members(runs, policy, key) + [] == Members(runs, policy, key);
  }

  lemma {:induction false} BagOverAppend(runs: seq<Run>, r: Run, policy: Policy, keys: seq<BlockKey>)
    requires NoRepeat(keys)
    ensures BagOver(runs + [r], policy, keys) ==
            BagOver(runs, policy, keys) + if KeyOf(r, policy) in keys then multiset(r.rows) else multiset{}
  {
    if keys != [] {
      assert keys == Init(keys) + [Last(keys)];
      BagOverAppend(runs, r, policy, Init(keys));
      MembersOfAppend(runs, r, policy, Last(keys));
      hide Members, Bag, KeyOf;
      PlusSwaps(BagOver(runs, policy, Init(keys)), Bag(Members(runs, policy, Last(keys))), multiset(r.rows));
    }
  }

  lemma {:induction false} BagOverNothing(policy: Policy, keys: seq<BlockKey>)
    ensures BagOver([], policy, keys) == multiset{}
  {
    if keys != [] { BagOverNothing(policy, Init(keys)); }
  }

  /** Distinct keys that cover all runs cut the rows into disjoint bags. */
  lemma {:induction false} KeysPartitionTheRows(runs: seq<Run>, policy: Policy, keys: seq<BlockKey>)
    requires NoRepeat(keys) && forall r :: r in runs ==> KeyOf(r, policy) in keys
    ensures BagOver(runs, policy, keys) == Bag(runs)
  {
    if runs == [] {
      BagOverNothing(policy, keys);
    } else {
      assert runs == Init(runs) + [Last(runs)];
      KeysPartitionTheRows(Init(runs), policy, keys);
      BagOverAppend(Init(runs), Last(runs), policy, keys);
    }
  }

  /** The rows of the first n blocks that go to a part. */
  function PartBag(bs: seq<Block>, policy: Policy, n: nat, part: Part): multiset<Row>
    requires n <= |bs|
  {
    if n == 0 then multiset{}
    else PartBag(bs, policy, n - 1, part) + if PartAt(bs, policy, n - 1) == part then Bag(bs[n - 1].runs) else multiset{}
  }

  function FirstKeys(bs: seq<Block>, n: nat): (keys: seq<BlockKey>)
    requires n <= |bs|
    ensures |keys| == n && forall i :: 0 <= i < n ==> keys[i] == bs[i].key
  {
    seq(n, i requires 0 <= i < n => bs[i].key)
  }

  lemma ThreeParts(bs: seq<Block>, policy: Policy, n: nat)
    requires 0 < n <= |bs|
    ensures
      var p, x := PartAt(bs, policy, n - 1), Bag(bs[n - 1].runs);
      && PartBag(bs, policy, n, p) == PartBag(bs, policy, n - 1, p) + x
      && forall q :: q != p ==> PartBag(bs, policy, n, q) == PartBag(bs, policy, n - 1, q)
  {
    forall q | q != PartAt(bs, policy, n - 1) ensures PartBag(bs, policy, n, q) == PartBag(bs, policy, n - 1, q) {
      assert PartBag(bs, policy, n, q) == PartBag(bs, policy, n - 1, q) + multiset{};
    }
  }

  function AllParts(bs: seq<Block>, policy: Policy, n: nat): multiset<Row>
    requires n <= |bs|
  {
    PartBag(bs, policy, n, Train) + PartBag(bs, policy, n, Validation) + PartBag(bs, policy, n, Test)
  }

  lemma AllPartsStep(bs: seq<Block>, policy: Policy, n: nat)
    requires 0 < n <= |bs|
    ensures AllParts(bs, policy, n) == AllParts(bs, policy, n - 1) + Bag(bs[n - 1].runs)
  {
    ThreeParts(bs, policy, n);
    hide PartBag, PartAt, Bag;
    AddToOnePart(PartBag(bs, policy, n - 1, Train), PartBag(bs, policy, n - 1, Validation),
                 PartBag(bs, policy, n - 1, Test), Bag(bs[n - 1].runs));
    match PartAt(bs, policy, n - 1)
    case Train =>
    case Validation =>
    case Test =>
  }

  lemma BagOverStep(runs: seq<Run>, policy: Policy, bs: seq<Block>, n: nat)
    requires 0 < n <= |bs| && IsBlock(runs, policy, bs[n - 1])
    ensures BagOver(runs, policy, FirstKeys(bs, n)) == BagOver(runs, policy, FirstKeys(bs, n - 1)) + Bag(bs[n - 1].runs)
  {
    var keys := FirstKeys(bs, n);
    assert Init(keys) == FirstKeys(bs, n - 1) && Last(keys) == bs[n - 1].key;
    assert bs[n - 1].runs == Members(runs, policy, Last(keys));
    hide Members, Bag, IsBlock, BlockOf, FirstKeys;
  }

  lemma {:induction false} PartsTogether(runs: seq<Run>, policy: Policy, bs: seq<Block>, n: nat)
    requires n <= |bs| && forall b :: b in bs ==> IsBlock(runs, policy, b)
    ensures AllParts(bs, policy, n) == BagOver(runs, policy, FirstKeys(bs, n))
  {
    if n == 0 {
      assert FirstKeys(bs, 0) == [];
      assert AllParts(bs, policy, 0) == multiset{};
    } else {
      hide *;
      PartsTogether(runs, policy, bs, n - 1);
      AllPartsStep(bs, policy, n);
      assert bs[n - 1] in bs;
      BagOverStep(runs, policy, bs, n);
    }
  }

  /** Conservation: the three parts hold every row of every run exactly as often as it came. */
  lemma EveryRowIsPlacedOnce(runs: seq<Run>, policy: Policy, bs: seq<Block>)
    requires BlockListOk(runs, policy, bs)
    ensures AllParts(bs, policy, |bs|) == Bag(runs)
  {
    hide BlockOf, Sorted, IsBlock;
    PartsTogether(runs, policy, bs, |bs|);
    var keys := FirstKeys(bs, |bs|);
    assert KeysDiffer(bs);
    forall r | r in runs ensures KeyOf(r, policy) in keys {
      BlockKeyIs(runs, policy, r);
      var i :| 0 <= i < |bs| && bs[i] == BlockOf(runs, policy, KeyOf(r, policy));
      assert keys[i] == bs[i].key;
    }
    KeysPartitionTheRows(runs, policy, keys);
  }

  lemma BlockKeyIs(runs: seq<Run>, policy: Policy, r: Run)
    ensures BlockOf(runs, policy, KeyOf(r, policy)).key == KeyOf(r, policy)
  {}

  predicate Before(a: Part, b: Part) { (a.Train? && !b.Train?) || (a.Validation? && b.Test?) }

  /** No leakage in time: a run of an earlier part ends no later than any run of a later part starts. */
  lemma PartsAreChronological(runs: seq<Run>, policy: Policy, bs: seq<Block>, i: nat, j: nat, a: Run, b: Run)
    requires policy.Chronological? && BlockListOk(runs, policy, bs) && NeighboursApart(bs) && EndsAfterStart(runs)
    requires i < |bs| && j < |bs| && Before(PartAt(bs, policy, i), PartAt(bs, policy, j))
    requires a in bs[i].runs && b in bs[j].runs
    ensures a.end <= b.start
  {
    hide BlockOf, Sorted;
    forall c | c in bs ensures c.start <= c.end {
      assert IsBlock(runs, policy, c);
      BlockSpansItsRuns(runs, policy, c, c.runs[0]);
    }
    assert i < j;
    NeighboursApartMeansAllApart(bs, i, j);
    assert IsBlock(runs, policy, bs[i]) && IsBlock(runs, policy, bs[j]);
    BlockSpansItsRuns(runs, policy, bs[i], a);
    BlockSpansItsRuns(runs, policy, bs[j], b);
  }
}

/** `split_runs` and `validate_partitions`. */
module SplitRuns {
  import opened Seqs
  import opened Sorting
  import opened TextOrder
  import opened SplitLogic

  datatype Placed = Placed(row: Row, block: BlockKey, part: Part)

  datatype Assigned = Assigned(train: seq<Placed>, validation: seq<Placed>, test: seq<Placed>) {
    function Of(part: Part): seq<Placed>
    {
      match part
      case Train => train
      case Validation => validation
      case Test => test
    }

    function Add(part: Part, more: seq<Placed>): (a: Assigned)
      ensures a.Of(part) == Of(part) + more
      ensures forall q :: q != part ==> a.Of(q) == Of(q)
    {
      match part
      case Train => this.(train := train + more)
      case Validation => this.(validation := validation + more)
      case Test => this.(test := test + more)
    }
  }

  function RunOrder(): (Run, Run) -> bool
  {
    (a: Run, b: Run) => if a.start != b.start then a.start < b.start else TextLeq(a.runId, b.runId)
  }

  function RowOrder(): (Row, Row) -> bool
  {
    (a: Row, b: Row) => if a.session != b.session then a.session < b.session else a.index <= b.index
  }

  function RowsOf(placed: seq<Placed>): (rows: seq<Row>)
    ensures |rows| == |placed| && forall i :: 0 <= i < |placed| ==> rows[i] == placed[i].row
  {
    seq(|placed|, i requires 0 <= i < |placed| => placed[i].row)
  }

  function PlacedBag(placed: seq<Placed>): multiset<Row> { multiset(RowsOf(placed)) }

  lemma PlacedBagAppend(a: seq<Placed>, b: seq<Placed>)
    ensures PlacedBag(a + b) == PlacedBag(a) + PlacedBag(b)
  {
    assert RowsOf(a + b) == RowsOf(a) + RowsOf(b);
  }

  /** A placed row comes from a run of a block of its part, and carries that block and part. */
  ghost predicate FromBlock(b: Block, part: Part, x: Placed)
  {
    x.part == part && x.block == b.key && exists r :: r in b.runs && x.row in r.rows
  }

  /** By session, and within a session by message number. */
  predicate RowsInOrder(placed: seq<Placed>)
  {
    forall i, j :: 0 <= i < j < |placed| ==>
      var a, b := placed[i].row, placed[j].row;
      a.session < b.session || (a.session == b.session && a.index <= b.index)
  }

  /** By start, and at the same start by run id. */
  predicate RunsInOrder(runs: seq<Run>)
  {
    forall i, j :: 0 <= i < j < |runs| ==>
      runs[i].start < runs[j].start || (runs[i].start == runs[j].start && TextLeq(runs[i].runId, runs[j].runId))
  }

  ghost predicate IsRunPlaced(r: Run, key: BlockKey, part: Part, placed: seq<Placed>)
  {
    && PlacedBag(placed) == multiset(r.rows) && RowsInOrder(placed)
    && forall x :: x in placed ==> x.part == part && x.block == key && x.row in r.rows
  }

  lemma RowOrderIsOrder()
    ensures TotalPreorder(RowOrder())
  {}

  lemma RunOrderIsOrder()
    ensures TotalPreorder(RunOrder())
  {
    forall a, b ensures RunOrder()(a, b) || RunOrder()(b, a) { TextLeqTotal(a.runId, b.runId); }
    forall a, b, c | RunOrder()(a, b) && RunOrder()(b, c) ensures RunOrder()(a, c) {
      if a.start == b.start == c.start { TextLeqTransitive(a.runId, b.runId, c.runId); }
    }
  }

  lemma SortedRows(rows: seq<Row>)
    ensures Sorted(SortBy(rows, RowOrder()), RowOrder()) && multiset(SortBy(rows, RowOrder())) == multiset(rows)
    ensures forall x :: x in SortBy(rows, RowOrder()) <==> x in rows
  {
    RowOrderIsOrder();
    SortSorts(rows, RowOrder());
    SortMembers(rows, RowOrder());
  }

  lemma ListedInOrder(placed: seq<Placed>, rows: seq<Row>)
    requires RowsOf(placed) == rows && Sorted(rows, RowOrder())
    ensures RowsInOrder(placed)
  {
    assert forall i, j :: 0 <= i < j < |rows| ==> RowOrder()(rows[i], rows[j]);
    assert forall i :: 0 <= i < |placed| ==> placed[i].row == rows[i];
  }

  method PlaceRun(r: Run, key: BlockKey, part: Part) returns (placed: seq<Placed>)
    ensures IsRunPlaced(r, key, part, placed)
  {
    var rows := SortBy(r.rows, RowOrder());
    SortedRows(r.rows);
    placed := [];
    hide SortBy, Sorted, RowsInOrder, RowOrder;
    for k := 0 to |rows|
      invariant RowsOf(placed) == rows[..k]
      invariant forall x :: x in placed ==> x.part == part && x.block == key && x.row in r.rows
    {
      placed := placed + [Placed(rows[k], key, part)];
    }
    assert rows[..|rows|] == rows;
    ListedInOrder(placed, rows);
  }

  function Flatten(pieces: seq<seq<Placed>>): seq<Placed>
  {
    if pieces == [] then [] else Flatten(Init(pieces)) + Last(pieces)
  }

  /** A block's rows run by run in run order, and each run's rows in row order. */
  ghost predicate ListsBlock(b: Block, part: Part, placed: seq<Placed>, order: seq<Run>, pieces: seq<seq<Placed>>)
  {
    && multiset(order) == multiset(b.runs) && RunsInOrder(order) && |pieces| == |order| && placed == Flatten(pieces)
    && forall k :: 0 <= k < |order| ==> IsRunPlaced(order[k], b.key, part, pieces[k])
  }

  ghost predicate BlockListed(b: Block, part: Part, placed: seq<Placed>)
  {
    exists order, pieces :: ListsBlock(b, part, placed, order, pieces)
  }

  /** The rows of the first runs of a block have been placed. */
  ghost predicate RunsPlaced(b: Block, part: Part, runs: seq<Run>, placed: seq<Placed>)
  {
    PlacedBag(placed) == Bag(runs) && forall x :: x in placed ==> FromBlock(b, part, x)
  }

  lemma NoRunPlaced(b: Block, part: Part)
    ensures RunsPlaced(b, part, [], [])
  {}

  lemma RunIsPlaced(b: Block, part: Part, runs: seq<Run>, placed: seq<Placed>, r: Run, more: seq<Placed>)
    requires RunsPlaced(b, part, runs, placed) && r in b.runs && IsRunPlaced(r, b.key, part, more)
    ensures RunsPlaced(b, part, runs + [r], placed + more)
  {
    PlacedBagAppend(placed, more);
    BagAppend(runs, [r]);
    BagOfOne(r);
    hide Bag, PlacedBag;
  }

  lemma SortedRuns(runs: seq<Run>)
    ensures RunsInOrder(SortBy(runs, RunOrder())) && multiset(SortBy(runs, RunOrder())) == multiset(runs)
    ensures forall r :: r in SortBy(runs, RunOrder()) <==> r in runs
  {
    RunOrderIsOrder();
    SortSorts(runs, RunOrder());
    SortMembers(runs, RunOrder());
    var order := SortBy(runs, RunOrder());
    assert forall i, j :: 0 <= i < j < |order| ==> RunOrder()(order[i], order[j]);
  }

  /** The first runs of the order have been listed. */
  ghost predicate Listed(order: seq<Run>, key: BlockKey, part: Part, placed: seq<Placed>, pieces: seq<seq<Placed>>)
  {
    && |pieces| <= |order| && placed == Flatten(pieces)
    && forall k :: 0 <= k < |pieces| ==> IsRunPlaced(order[k], key, part, pieces[k])
  }

  lemma OneRunMore(order: seq<Run>, key: BlockKey, part: Part, placed: seq<Placed>, pieces: seq<seq<Placed>>,
      more: seq<Placed>)
    requires Listed(order, key, part, placed, pieces) && |pieces| < |order|
    requires IsRunPlaced(order[|pieces|], key, part, more)
    ensures Listed(order, key, part, placed + more, pieces + [more])
  {
    hide IsRunPlaced;
    assert Init(pieces + [more]) == pieces;
  }

  lemma NoRunListed(order: seq<Run>, key: BlockKey, part: Part)
    ensures Listed(order, key, part, [], [])
  {}

  lemma AllRunsListed(b: Block, part: Part, placed: seq<Placed>, order: seq<Run>, pieces: seq<seq<Placed>>)
    requires multiset(order) == multiset(b.runs) && RunsInOrder(order) && |pieces| == |order|
    requires Listed(order, b.key, part, placed, pieces)
    ensures BlockListed(b, part, placed)
  {
    assert ListsBlock(b, part, placed, order, pieces);
  }

  method PlaceBlock(b: Block, part: Part) returns (placed: seq<Placed>)
    ensures PlacedBag(placed) == Bag(b.runs) && BlockListed(b, part, placed)
    ensures forall x :: x in placed ==> FromBlock(b, part, x)
  {
    hide *;
    var runs := SortBy(b.runs, RunOrder());
    SortedRuns(b.runs);
    SortKeepsBag(b.runs, RunOrder());
    placed := [];
    ghost var pieces := [];
    NoRunPlaced(b, part);
    NoRunListed(runs, b.key, part);
    for k := 0 to |runs|
      invariant RunsPlaced(b, part, runs[..k], placed)
      invariant |pieces| == k && Listed(runs, b.key, part, placed, pieces)
    {
      var more := PlaceRun(runs[k], b.key, part);
      assert runs[k] in runs;
      RunIsPlaced(b, part, runs[..k], placed, runs[k], more);
      OneRunMore(runs, b.key, part, placed, pieces, more);
      assert runs[..k + 1] == runs[..k] + [runs[k]];
      placed, pieces := placed + more, pieces + [more];
    }
    assert runs[..|runs|] == runs;
    RunsPlacedMeans(b, part, runs, placed);
    AllRunsListed(b, part, placed, runs, pieces);
  }

  lemma RunsPlacedMeans(b: Block, part: Part, runs: seq<Run>, placed: seq<Placed>)
    requires RunsPlaced(b, part, runs, placed)
    ensures PlacedBag(placed) == Bag(runs) && forall x :: x in placed ==> FromBlock(b, part, x)
  {}

  predicate RolesCover(runs: seq<Run>, roles: map<string, Part>)
  {
    roles.Keys == set r | r in runs :: r.campaign
  }

  /** What the policy demands of the blocks before any row is placed. */
  predicate Separable(runs: seq<Run>, policy: Policy, bs: seq<Block>)
  {
    match policy
    case Chronological(v, t) => |bs| >= v + t + 1 && NeighboursApart(bs)
    case Preassigned(roles) => RolesCover(runs, roles)
  }

  /** Every part has both targets and, on demand, every scenario. */
  predicate Represented(rows: multiset<Row>, runs: seq<Run>, allScenarios: bool)
  {
    && (set row | row in rows :: row.target) == {0, 1}
    && (allScenarios ==> (set row | row in rows :: row.scenario) == (set r | r in runs :: r.scenario))
  }

  /** A row of a part comes from a block that the policy sends to that part. */
  ghost predicate PlacedWell(bs: seq<Block>, policy: Policy, part: Part, x: Placed)
  {
    exists i :: 0 <= i < |bs| && PartAt(bs, policy, i) == part && FromBlock(bs[i], part, x)
  }

  /** The parts hold exactly the rows of the blocks that belong there. */
  ghost predicate PartsHold(bs: seq<Block>, policy: Policy, n: nat, a: Assigned)
    requires n <= |bs|
  {
    && (forall part :: PlacedBag(a.Of(part)) == PartBag(bs, policy, n, part))
    && (forall part, x :: x in a.Of(part) ==> PlacedWell(bs, policy, part, x))
  }

  /** A part lists its blocks one after the other, in block order. */
  ghost predicate PartListed(bs: seq<Block>, policy: Policy, n: nat, part: Part, placed: seq<Placed>)
    requires n <= |bs|
    decreases n, 1
  {
    if n == 0 then placed == []
    else if PartAt(bs, policy, n - 1) != part then PartListed(bs, policy, n - 1, part, placed)
    else exists cut :: EndsWithBlock(bs, policy, n, part, placed, cut)
  }

  ghost predicate EndsWithBlock(bs: seq<Block>, policy: Policy, n: nat, part: Part, placed: seq<Placed>, cut: int)
    requires 0 < n <= |bs|
    decreases n, 0
  {
    && 0 <= cut <= |placed| && PartListed(bs, policy, n - 1, part, placed[..cut])
    && BlockListed(bs[n - 1], part, placed[cut..])
  }

  ghost predicate PartsListed(bs: seq<Block>, policy: Policy, n: nat, a: Assigned)
    requires n <= |bs|
  {
    forall part :: PartListed(bs, policy, n, part, a.Of(part))
  }

  lemma ListBlock(bs: seq<Block>, policy: Policy, i: nat, a: Assigned, more: seq<Placed>)
    requires i < |bs| && PartsListed(bs, policy, i, a) && BlockListed(bs[i], PartAt(bs, policy, i), more)
    ensures PartsListed(bs, policy, i + 1, a.Add(PartAt(bs, policy, i), more))
  {
    var part := PartAt(bs, policy, i);
    var now := a.Add(part, more);
    hide BlockListed;
    forall q ensures PartListed(bs, policy, i + 1, q, now.Of(q)) {
      if q == part {
        var placed, cut := now.Of(q), |a.Of(q)|;
        assert placed[..cut] == a.Of(q) && placed[cut..] == more;
        assert EndsWithBlock(bs, policy, i + 1, q, placed, cut);
      }
    }
  }

  lemma NothingListed(bs: seq<Block>, policy: Policy)
    ensures PartsListed(bs, policy, 0, Assigned([], [], []))
  {}

  lemma AllWell(bs: seq<Block>, policy: Policy, i: nat, more: seq<Placed>)
    requires i < |bs| && forall x :: x in more ==> FromBlock(bs[i], PartAt(bs, policy, i), x)
    ensures forall x :: x in more ==> PlacedWell(bs, policy, PartAt(bs, policy, i), x)
  {}

  lemma AddBlock(bs: seq<Block>, policy: Policy, i: nat, a: Assigned, more: seq<Placed>)
    requires i < |bs| && PartsHold(bs, policy, i, a)
    requires PlacedBag(more) == Bag(bs[i].runs) && forall x :: x in more ==> FromBlock(bs[i], PartAt(bs, policy, i), x)
    ensures PartsHold(bs, policy, i + 1, a.Add(PartAt(bs, policy, i), more))
  {
    var part := PartAt(bs, policy, i);
    PlacedBagAppend(a.Of(part), more);
    ThreeParts(bs, policy, i + 1);
    AllWell(bs, policy, i, more);
    hide Bag, PartAt, FromBlock, PlacedBag, PartBag, PlacedWell;
  }

  lemma NothingPlaced(bs: seq<Block>, policy: Policy)
    ensures PartsHold(bs, policy, 0, Assigned([], [], []))
  {}

  method PlaceAll(bs: seq<Block>, policy: Policy) returns (a: Assigned)
    ensures PartsHold(bs, policy, |bs|, a) && PartsListed(bs, policy, |bs|, a)
  {
    hide *;
    a := Assigned([], [], []);
    NothingPlaced(bs, policy);
    NothingListed(bs, policy);
    for i := 0 to |bs|
      invariant PartsHold(bs, policy, i, a) && PartsListed(bs, policy, i, a)
    {
      var part := PartAt(bs, policy, i);
      var more := PlaceBlock(bs[i], part);
      AddBlock(bs, policy, i, a, more);
      ListBlock(bs, policy, i, a, more);
      a := a.Add(part, more);
    }
  }

  predicate AllRepresented(bs: seq<Block>, policy: Policy, runs: seq<Run>, allScenarios: bool)
  {
    && Represented(PartBag(bs, policy, |bs|, Train), runs, allScenarios)
    && Represented(PartBag(bs, policy, |bs|, Validation), runs, allScenarios)
    && Represented(PartBag(bs, policy, |bs|, Test), runs, allScenarios)
  }

  /** The placed rows and the manifest of blocks. */
  datatype Outcome = Outcome(parts: Assigned, blocks: seq<Block>)

  /** The split succeeds exactly on separable, represented inputs, and then places every block's rows. */
  method SplitRuns(runs: seq<Run>, policy: Policy, allScenarios: bool) returns (result: Option<Outcome>)
    ensures
      var bs := Blocks(runs, policy);
      result.Some? <==> Separable(runs, policy, bs) && AllRepresented(bs, policy, runs, allScenarios)
    ensures result.Some? ==> result.value.blocks == Blocks(runs, policy)
    ensures result.Some? ==>
      var bs := result.value.blocks;
      && BlockListOk(runs, policy, bs) && Separable(runs, policy, bs)
      && PartsHold(bs, policy, |bs|, result.value.parts) && PartsListed(bs, policy, |bs|, result.value.parts)
  {
    hide Blocks, Separable, PlacedWell, Represented, PartBag, PlacedBag, BlockListOk, PartsListed;
    var bs := Blocks(runs, policy);
    BlocksAreOk(runs, policy);
    if !Separable(runs, policy, bs) { return None; }
    var a := PlaceAll(bs, policy);
    assert a.Of(Train) == a.train && a.Of(Validation) == a.validation && a.Of(Test) == a.test;
    if !Represented(PlacedBag(a.train), runs, allScenarios) { return None; }
    if !Represented(PlacedBag(a.validation), runs, allScenarios) { return None; }
    if !Represented(PlacedBag(a.test), runs, allScenarios) { return None; }
    return Some(Outcome(a, bs));
  }

  /** What the loader guarantees: run ids are distinct, rows name their own run, and no row id occurs twice. */
  ghost predicate WellIdentified(runs: seq<Run>)
  {
    && (forall r, s :: r in runs && s in runs && r.runId == s.runId ==> r == s)
    && (forall r, x :: r in runs && x in r.rows ==> x.runId == r.runId && x.campaign == r.campaign)
    && (forall x, y :: x in Bag(runs) && y in Bag(runs) && x.rowId == y.rowId ==> x == y)
    && (forall x :: x in Bag(runs) ==> Bag(runs)[x] == 1)
  }

  predicate NoneShared(a: seq<Placed>, b: seq<Placed>, campaigns: bool)
  {
    && (forall x, y :: x in a && y in b ==> x.row.runId != y.row.runId)
    && (forall x, y :: x in a && y in b ==> x.row.rowId != y.row.rowId)
    && (campaigns ==> forall x, y :: x in a && y in b ==> x.row.campaign != y.row.campaign)
  }

  predicate IdsDiffer(a: seq<Placed>)
  {
    forall i, j :: 0 <= i < j < |a| ==> a[i].row.rowId != a[j].row.rowId
  }

  /** validate_partitions: no run (hence no session of a run), row or, on demand, campaign in two parts, and no
      row id twice in one. */
  predicate PartitionsOk(a: Assigned, campaigns: bool)
  {
    && NoneShared(a.train, a.validation, campaigns) && NoneShared(a.train, a.test, campaigns)
    && NoneShared(a.validation, a.test, campaigns)
    && IdsDiffer(a.train) && IdsDiffer(a.validation) && IdsDiffer(a.test)
  }

  lemma PlacedRun(runs: seq<Run>, policy: Policy, bs: seq<Block>, part: Part, x: Placed) returns (i: nat, r: Run)
    requires BlockListOk(runs, policy, bs)
    requires PlacedWell(bs, policy, part, x)
    ensures
      i < |bs| && PartAt(bs, policy, i) == part && r in runs && r in bs[i].runs && x.row in r.rows
      && KeyOf(r, policy) == bs[i].key == x.block
  {
    hide PartAt, BlockOf, Sorted;
    i :| 0 <= i < |bs| && PartAt(bs, policy, i) == part && FromBlock(bs[i], part, x);
    r :| r in bs[i].runs && x.row in r.rows;
    assert IsBlock(runs, policy, bs[i]);
    BlockSpansItsRuns(runs, policy, bs[i], r);
  }

  /** One key, one place. */
  lemma SameKeySamePlace(runs: seq<Run>, policy: Policy, bs: seq<Block>, i: nat, j: nat)
    requires BlockListOk(runs, policy, bs)
    requires i < |bs| && j < |bs|
    requires bs[i].key == bs[j].key
    ensures i == j
  {
    assert KeysDiffer(bs);
  }

  /** A block is whole: rows that carry the same block were placed in the same part. */
  lemma BlocksStayWhole(runs: seq<Run>, policy: Policy, bs: seq<Block>, p: Part, q: Part, x: Placed, y: Placed)
    requires BlockListOk(runs, policy, bs)
    requires PlacedWell(bs, policy, p, x) && PlacedWell(bs, policy, q, y) && x.block == y.block
    ensures p == q
  {
    hide BlockListOk, PartAt, PlacedWell;
    var i, r := PlacedRun(runs, policy, bs, p, x);
    var j, s := PlacedRun(runs, policy, bs, q, y);
    SameKeySamePlace(runs, policy, bs, i, j);
  }

  /** Told over the input: runs of one campaign and repeat, or of one campaign with a registry, are never
      separated. Whatever parts two of their rows were placed in are the same part. */
  lemma RunsOfABlockStayTogether(runs: seq<Run>, policy: Policy, bs: seq<Block>, r: Run, s: Run, p: Part, q: Part,
      x: Placed, y: Placed)
    requires BlockListOk(runs, policy, bs) && WellIdentified(runs)
    requires r in runs && s in runs && KeyOf(r, policy) == KeyOf(s, policy)
    requires x.row in r.rows && y.row in s.rows
    requires PlacedWell(bs, policy, p, x) && PlacedWell(bs, policy, q, y)
    ensures p == q
  {
    hide BlockListOk, PartAt, PlacedWell, Bag;
    var i, r' := PlacedRun(runs, policy, bs, p, x);
    var j, s' := PlacedRun(runs, policy, bs, q, y);
    assert x.row.runId == r.runId == r'.runId && y.row.runId == s.runId == s'.runId;
    BlocksStayWhole(runs, policy, bs, p, q, x, y);
  }

  lemma SameRunSamePart(runs: seq<Run>, policy: Policy, bs: seq<Block>, p: Part, q: Part, x: Placed, y: Placed)
    requires BlockListOk(runs, policy, bs)
    requires WellIdentified(runs) && PlacedWell(bs, policy, p, x) && PlacedWell(bs, policy, q, y)
    requires x.row.runId == y.row.runId || (policy.Preassigned? && x.row.campaign == y.row.campaign)
    ensures p == q
  {
    hide BlockListOk, PartAt, PlacedWell;
    var i, r := PlacedRun(runs, policy, bs, p, x);
    var j, s := PlacedRun(runs, policy, bs, q, y);
    SameKeySamePlace(runs, policy, bs, i, j);
  }

  lemma {:induction false} RowInBag(runs: seq<Run>, r: Run, x: Row)
    requires r in runs && x in r.rows
    ensures x in Bag(runs)
  {
    assert runs == Init(runs) + [Last(runs)];
    if r != Last(runs) { RowInBag(Init(runs), r, x); }
  }

  lemma PartsShareNothing(runs: seq<Run>, policy: Policy, bs: seq<Block>, p: Part, q: Part, x: Placed, y: Placed)
    requires BlockListOk(runs, policy, bs)
    requires WellIdentified(runs) && p != q
    requires PlacedWell(bs, policy, p, x) && PlacedWell(bs, policy, q, y)
    ensures x.row.runId != y.row.runId && x.row.rowId != y.row.rowId
    ensures policy.Preassigned? ==> x.row.campaign != y.row.campaign
  {
    hide BlockListOk, PartAt, PlacedWell;
    var i, r := PlacedRun(runs, policy, bs, p, x);
    var j, s := PlacedRun(runs, policy, bs, q, y);
    RowInBag(runs, r, x.row);
    RowInBag(runs, s, y.row);
    if x.row.runId == y.row.runId || x.row.rowId == y.row.rowId || (policy.Preassigned? && x.row.campaign == y.row.campaign) {
      SameRunSamePart(runs, policy, bs, p, q, x, y);
    }
  }

  lemma PartsDisjoint(runs: seq<Run>, policy: Policy, bs: seq<Block>, a: Assigned, p: Part, q: Part)
    requires BlockListOk(runs, policy, bs)
    requires WellIdentified(runs) && p != q && PartsHold(bs, policy, |bs|, a)
    ensures NoneShared(a.Of(p), a.Of(q), policy.Preassigned?)
  {
    hide BlockListOk, PartAt, PlacedWell, WellIdentified;
    forall x, y | x in a.Of(p) && y in a.Of(q)
      ensures x.row.runId != y.row.runId && x.row.rowId != y.row.rowId
      ensures policy.Preassigned? ==> x.row.campaign != y.row.campaign
    {
      PartsShareNothing(runs, policy, bs, p, q, x, y);
    }
  }

  lemma RepeatedRowCountsTwice(a: seq<Placed>, i: nat, j: nat)
    requires i < j < |a| && a[i].row == a[j].row
    ensures PlacedBag(a)[a[i].row] >= 2
  {
    var rows := RowsOf(a);
    assert rows == rows[..j] + rows[j..];
    assert rows[i] in rows[..j] && rows[j] in rows[j..];
    assert multiset(rows) == multiset(rows[..j]) + multiset(rows[j..]);
  }

  lemma PartIsWithinAll(runs: seq<Run>, policy: Policy, bs: seq<Block>, part: Part, x: Row)
    requires BlockListOk(runs, policy, bs)
    ensures PartBag(bs, policy, |bs|, part)[x] <= Bag(runs)[x]
  {
    EveryRowIsPlacedOnce(runs, policy, bs);
    hide BlockListOk, PartAt, PartBag, Bag;
    match part
    case Train =>
    case Validation =>
    case Test =>
  }

  lemma PartIdsDiffer(runs: seq<Run>, policy: Policy, bs: seq<Block>, a: Assigned, p: Part)
    requires BlockListOk(runs, policy, bs)
    requires WellIdentified(runs) && PartsHold(bs, policy, |bs|, a)
    ensures IdsDiffer(a.Of(p))
  {
    hide BlockListOk, PartAt, PlacedWell, PlacedBag, PartBag, Bag;
    var own := a.Of(p);
    forall i, j | 0 <= i < j < |own| ensures own[i].row.rowId != own[j].row.rowId {
      assert own[i] in own && own[j] in own;
      var k, r := PlacedRun(runs, policy, bs, p, own[i]);
      var l, s := PlacedRun(runs, policy, bs, p, own[j]);
      RowInBag(runs, r, own[i].row);
      RowInBag(runs, s, own[j].row);
      if own[i].row.rowId == own[j].row.rowId {
        RepeatedRowCountsTwice(own, i, j);
        PartIsWithinAll(runs, policy, bs, p, own[i].row);
      }
    }
  }

  /** validate_partitions never fires on the output of split_runs. */
  lemma SplitPassesValidation(runs: seq<Run>, policy: Policy, bs: seq<Block>, a: Assigned)
    requires BlockListOk(runs, policy, bs)
    requires WellIdentified(runs) && PartsHold(bs, policy, |bs|, a)
    ensures PartitionsOk(a, policy.Preassigned?)
  {
    hide *;
    PartsDisjoint(runs, policy, bs, a, Train, Validation);
    PartsDisjoint(runs, policy, bs, a, Train, Test);
    PartsDisjoint(runs, policy, bs, a, Validation, Test);
    PartIdsDiffer(runs, policy, bs, a, Train);
    PartIdsDiffer(runs, policy, bs, a, Validation);
    PartIdsDiffer(runs, policy, bs, a, Test);
    PartitionsFromPairs(a, policy.Preassigned?);
  }

  lemma PartitionsFromPairs(a: Assigned, campaigns: bool)
    requires NoneShared(a.Of(Train), a.Of(Validation), campaigns) && NoneShared(a.Of(Train), a.Of(Test), campaigns)
    requires NoneShared(a.Of(Validation), a.Of(Test), campaigns)
    requires IdsDiffer(a.Of(Train)) && IdsDiffer(a.Of(Validation)) && IdsDiffer(a.Of(Test))
    ensures PartitionsOk(a, campaigns)
  {}

  /** Nothing is lost or doubled between the runs and the three parts. */
  lemma SplitKeepsEveryRow(runs: seq<Run>, policy: Policy, bs: seq<Block>, a: Assigned)
    requires BlockListOk(runs, policy, bs)
    requires PartsHold(bs, policy, |bs|, a)
    ensures PlacedBag(a.train) + PlacedBag(a.validation) + PlacedBag(a.test) == Bag(runs)
  {
    EveryRowIsPlacedOnce(runs, policy, bs);
    hide BlockListOk, PartAt, PartBag, Bag, PlacedBag, PlacedWell;
    assert a.Of(Train) == a.train && a.Of(Validation) == a.validation && a.Of(Test) == a.test;
  }

  /** A row's run in an earlier part has ended before a row's run in a later part starts. */
  lemma RowsAreChronological(runs: seq<Run>, policy: Policy, bs: seq<Block>, p: Part, q: Part, x: Placed, y: Placed)
      returns (r: Run, s: Run)
    requires BlockListOk(runs, policy, bs) && EndsAfterStart(runs)
    requires policy.Chronological? && Separable(runs, policy, bs) && Before(p, q)
    requires PlacedWell(bs, policy, p, x) && PlacedWell(bs, policy, q, y)
    ensures r in runs && s in runs && x.row in r.rows && y.row in s.rows && r.end <= s.start
  {
    hide BlockListOk, PartAt, PlacedWell, EndsAfterStart;
    var i, j;
    i, r := PlacedRun(runs, policy, bs, p, x);
    j, s := PlacedRun(runs, policy, bs, q, y);
    PartsAreChronological(runs, policy, bs, i, j, r, s);
  }

  /** With a registry each campaign's rows go to the part it was registered for. */
  lemma CampaignGoesToItsRole(runs: seq<Run>, policy: Policy, bs: seq<Block>, part: Part, x: Placed)
    requires BlockListOk(runs, policy, bs) && WellIdentified(runs)
    requires policy.Preassigned? && Separable(runs, policy, bs)
    requires PlacedWell(bs, policy, part, x)
    ensures x.row.campaign in policy.roles && policy.roles[x.row.campaign] == part
  {
    hide BlockListOk, PlacedWell, Bag;
    var i, r := PlacedRun(runs, policy, bs, part, x);
    assert r.campaign in policy.roles.Keys;
  }
}
