/** Rows of the operational data set and their grouping into sessions: the positions of each session's rows,
    in the order of first appearance of the sessions, sorted by message number. */
module SessionRows {
  import opened Seqs
  import opened Sorting

  datatype Key = Key(campaign: string, run: string, session: string)

  datatype Split = Train | Validation | Test

  /** The seven message features. */
  datatype Features = Features(
    packetSize: real,
    payloadSize: real,
    interval: real,
    duration: real,
    received: real,
    sent: real,
    errors: real)

  /** The metadata columns of a row; `rest` are the ones that are only carried along. */
  datatype Metadata = Metadata(rowId: string, key: Key, index: int, split: Split, rest: seq<string>)

  datatype Row = Row(rowId: string, key: Key, index: int, split: Split, rest: seq<string>, features: Features, target: int) {
    function Columns(): Metadata { Metadata(rowId, key, index, split, rest) }
  }

  ghost predicate IsMessage(rows: seq<Row>, key: Key, k: int, p: int)
  {
    0 <= p < |rows| && rows[p].key == key && rows[p].index == k
  }

  ghost predicate HasMessage(rows: seq<Row>, key: Key, k: int)
  {
    exists p :: IsMessage(rows, key, k, p)
  }

  /** No message number of a session occurs twice. */
  ghost predicate Distinct(rows: seq<Row>)
  {
    forall key, k, p, q :: IsMessage(rows, key, k, p) && IsMessage(rows, key, k, q) ==> p == q
  }

  /** Numbers start at 1 and every message has its predecessor. */
  ghost predicate Contiguous(rows: seq<Row>)
  {
    forall p :: 0 <= p < |rows| ==>
      rows[p].index >= 1 && (rows[p].index > 1 ==> HasMessage(rows, rows[p].key, rows[p].index - 1))
  }

  ghost predicate GapFree(rows: seq<Row>) { Distinct(rows) && Contiguous(rows) }

  /** The sessions in the order of their first rows. */
  function Keys(rows: seq<Row>): (keys: seq<Key>)
    ensures forall a, b :: 0 <= a < b < |keys| ==> keys[a] != keys[b]
    ensures forall row :: row in rows ==> row.key in keys
  {
    if rows == [] then []
    else
      var before := Keys(Init(rows));
      assert rows == Init(rows) + [Last(rows)];
      if Last(rows).key in before then before else before + [Last(rows).key]
  }

  /** The rows of one session, in row order. */
  function PositionsOf(rows: seq<Row>, key: Key, upTo: nat): (ps: seq<nat>)
    requires upTo <= |rows|
    ensures NoRepeat(ps)
    ensures forall p: nat :: p in ps <==> p < upTo && rows[p].key == key
  {
    if upTo == 0 then []
    else
      var before := PositionsOf(rows, key, upTo - 1);
      if rows[upTo - 1].key == key then before + [upTo - 1] else before
  }

  ghost predicate InRange(rows: seq<Row>, s: seq<nat>)
  {
    forall a :: 0 <= a < |s| ==> s[a] < |rows|
  }

  ghost predicate InIndexOrder(rows: seq<Row>, s: seq<nat>)
    requires InRange(rows, s)
  {
    forall a, b :: 0 <= a < b < |s| ==> rows[s[a]].index <= rows[s[b]].index
  }

  function IndexAt(rows: seq<Row>, p: nat): int { if p < |rows| then rows[p].index else 0 }

  function ByIndex(rows: seq<Row>): (nat, nat) -> bool
  {
    (p: nat, q: nat) => IndexAt(rows, p) <= IndexAt(rows, q)
  }

  /** The positions of one session's rows, each once, in the order of their numbers. */
  ghost predicate IsGroup(rows: seq<Row>, key: Key, g: seq<nat>)
  {
    && InRange(rows, g) && InIndexOrder(rows, g) && NoRepeat(g)
    && (forall p: nat :: p in g <==> p < |rows| && rows[p].key == key)
  }

  lemma SortedGroup(rows: seq<Row>, key: Key)
    ensures IsGroup(rows, key, SortBy(PositionsOf(rows, key, |rows|), ByIndex(rows)))
  {
    var ps := PositionsOf(rows, key, |rows|);
    var g := SortBy(ps, ByIndex(rows));
    SortSorts(ps, ByIndex(rows));
    SortMembers(ps, ByIndex(rows));
    SortKeepsNoRepeat(ps, ByIndex(rows));
    assert forall a :: 0 <= a < |g| ==> g[a] in g;
    forall a, b | 0 <= a < b < |g| ensures rows[g[a]].index <= rows[g[b]].index {
      assert ByIndex(rows)(g[a], g[b]);
    }
  }

  function GroupOf(rows: seq<Row>, key: Key): (g: seq<nat>)
    ensures IsGroup(rows, key, g)
  {
    var ps := PositionsOf(rows, key, |rows|);
    SortedGroup(rows, key);
    SortBy(ps, ByIndex(rows))
  }

  /** The loaders' test: the sorted numbers are 1, 2, ..., n. */
  ghost predicate CountsUp(rows: seq<Row>, g: seq<nat>)
    requires InRange(rows, g)
  {
    forall o :: 0 <= o < |g| ==> rows[g[o]].index == o + 1
  }

  ghost predicate SessionGapFree(rows: seq<Row>, key: Key)
  {
    && (forall k, p, q :: IsMessage(rows, key, k, p) && IsMessage(rows, key, k, q) ==> p == q)
    && (forall k, p :: IsMessage(rows, key, k, p) ==> k >= 1 && (k > 1 ==> HasMessage(rows, key, k - 1)))
  }

  lemma MessageIsInGroup(rows: seq<Row>, key: Key, g: seq<nat>, k: int, p: int) returns (o: nat)
    requires IsGroup(rows, key, g) && IsMessage(rows, key, k, p)
    ensures o < |g| && g[o] == p && rows[g[o]].index == k
  {
    assert p in g;
    o :| 0 <= o < |g| && g[o] == p;
  }

  lemma GroupMemberIsMessage(rows: seq<Row>, key: Key, g: seq<nat>, o: nat)
    requires IsGroup(rows, key, g) && o < |g|
    ensures IsMessage(rows, key, rows[g[o]].index, g[o])
  {
    assert g[o] in g;
  }

  lemma CountingUpIsGapFree(rows: seq<Row>, key: Key, g: seq<nat>)
    requires IsGroup(rows, key, g) && CountsUp(rows, g)
    ensures SessionGapFree(rows, key)
  {
    forall k, p | IsMessage(rows, key, k, p) ensures k >= 1 && (k > 1 ==> HasMessage(rows, key, k - 1)) {
      var o := MessageIsInGroup(rows, key, g, k, p);
      if o > 0 { GroupMemberIsMessage(rows, key, g, o - 1); }
    }
    forall k, p, q | IsMessage(rows, key, k, p) && IsMessage(rows, key, k, q) ensures p == q {
      var o := MessageIsInGroup(rows, key, g, k, p);
      var r := MessageIsInGroup(rows, key, g, k, q);
    }
  }

  lemma AtLeastItsPlace(rows: seq<Row>, key: Key, g: seq<nat>, o: nat)
    requires IsGroup(rows, key, g) && SessionGapFree(rows, key) && 0 < o < |g|
    requires rows[g[o - 1]].index == o
    ensures rows[g[o]].index >= o + 1
  {
    GroupMemberIsMessage(rows, key, g, o - 1);
    GroupMemberIsMessage(rows, key, g, o);
    assert g[o - 1] != g[o];
  }

  lemma PredecessorPlace(rows: seq<Row>, key: Key, g: seq<nat>, o: nat) returns (a: nat)
    requires IsGroup(rows, key, g) && SessionGapFree(rows, key) && o < |g|
    ensures rows[g[o]].index >= 1
    ensures rows[g[o]].index > 1 ==> a < o && rows[g[a]].index == rows[g[o]].index - 1
  {
    a := 0;
    var k := rows[g[o]].index;
    GroupMemberIsMessage(rows, key, g, o);
    if k > 1 {
      var q :| IsMessage(rows, key, k - 1, q);
      a := MessageIsInGroup(rows, key, g, k - 1, q);
    }
  }

  lemma {:induction false} GapFreeCountsUp(rows: seq<Row>, key: Key, g: seq<nat>, o: nat)
    requires IsGroup(rows, key, g) && SessionGapFree(rows, key) && o < |g|
    ensures rows[g[o]].index == o + 1
  {
    hide SessionGapFree;
    var a := PredecessorPlace(rows, key, g, o);
    if o > 0 {
      GapFreeCountsUp(rows, key, g, o - 1);
      AtLeastItsPlace(rows, key, g, o);
      if rows[g[o]].index > 1 { GapFreeCountsUp(rows, key, g, a); }
    }
  }

  /** The loaders' test on the sorted group is exactly gap-freedom of the session. */
  lemma CountsUpIffGapFree(rows: seq<Row>, key: Key, g: seq<nat>)
    requires IsGroup(rows, key, g)
    ensures CountsUp(rows, g) <==> SessionGapFree(rows, key)
  {
    hide SessionGapFree;
    if CountsUp(rows, g) {
      CountingUpIsGapFree(rows, key, g);
    }
    if SessionGapFree(rows, key) {
      forall o | 0 <= o < |g| ensures rows[g[o]].index == o + 1 { GapFreeCountsUp(rows, key, g, o); }
    }
  }

  lemma GapFreeBySession(rows: seq<Row>)
    ensures GapFree(rows) <==> forall key :: key in Keys(rows) ==> SessionGapFree(rows, key)
  {
    if forall key :: key in Keys(rows) ==> SessionGapFree(rows, key) {
      forall p | 0 <= p < |rows| ensures SessionGapFree(rows, rows[p].key) {
        assert rows[p] in rows;
      }
      forall key, k, p, q | IsMessage(rows, key, k, p) && IsMessage(rows, key, k, q) ensures p == q {
        assert SessionGapFree(rows, rows[p].key);
      }
      forall p | 0 <= p < |rows|
        ensures rows[p].index >= 1 && (rows[p].index > 1 ==> HasMessage(rows, rows[p].key, rows[p].index - 1))
      {
        assert SessionGapFree(rows, rows[p].key) && IsMessage(rows, rows[p].key, rows[p].index, p);
      }
    }
  }
}
