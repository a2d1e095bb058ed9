/** Per-message context windows over sessions: for each row, the current and at most w - 1 earlier messages of
    its own session, padded on the right. */
module WindowLogic {
  import opened Seqs
  import opened SessionRows

  const ZERO := Features(0.0, 0.0, 0.0, 0.0, 0.0, 0.0, 0.0)

  predicate NonNegative(f: Features)
  {
    f.packetSize >= 0.0 && f.payloadSize >= 0.0 && f.interval >= 0.0 && f.duration >= 0.0 && f.received >= 0.0
    && f.sent >= 0.0 && f.errors >= 0.0
  }

  predicate RowOk(row: Row)
  {
    NonNegative(row.features) && row.target in {0, 1} && row.rowId != "" && row.key.campaign != "" && row.key.run != ""
    && row.key.session != "" && "" !in row.rest
  }

  /** The column checks: one allowed split, distinct row ids, one campaign per run. */
  predicate MetadataOk(rows: seq<Row>, allowed: set<Split>)
  {
    && rows != []
    && (forall p :: 0 <= p < |rows| ==> RowOk(rows[p]))
    && (forall p :: 0 <= p < |rows| ==> rows[p].split == rows[0].split)
    && rows[0].split in allowed
    && (forall p, q :: 0 <= p < q < |rows| ==> rows[p].rowId != rows[q].rowId)
    && (forall p, q :: 0 <= p < q < |rows| && rows[p].key.run == rows[q].key.run ==>
          rows[p].key.campaign == rows[q].key.campaign)
  }

  /** The four running totals of a session never decrease. */
  predicate NotBelow(f: Features, g: Features)
  {
    f.duration <= g.duration && f.received <= g.received && f.sent <= g.sent && f.errors <= g.errors
  }

  ghost predicate SessionGrows(rows: seq<Row>, key: Key)
  {
    forall k, p, q :: IsMessage(rows, key, k, p) && IsMessage(rows, key, k + 1, q) ==>
      NotBelow(rows[p].features, rows[q].features)
  }

  ghost predicate Grows(rows: seq<Row>)
  {
    forall key :: SessionGrows(rows, key)
  }

  /** The sources that window construction accepts, told without grouping or sorting. */
  ghost predicate Accepts(rows: seq<Row>, allowed: set<Split>)
  {
    MetadataOk(rows, allowed) && GapFree(rows) && Grows(rows)
  }

  predicate GroupCountsUp(rows: seq<Row>, g: seq<nat>)
    requires forall o :: 0 <= o < |g| ==> g[o] < |rows|
  {
    forall o :: 0 <= o < |g| ==> rows[g[o]].index == o + 1
  }

  predicate GroupGrows(rows: seq<Row>, g: seq<nat>)
    requires forall o :: 0 <= o < |g| ==> g[o] < |rows|
  {
    forall o :: 0 < o < |g| ==> NotBelow(rows[g[o - 1]].features, rows[g[o]].features)
  }

  lemma GroupGrowsIffSessionGrows(rows: seq<Row>, key: Key, g: seq<nat>)
    requires IsGroup(rows, key, g) && CountsUp(rows, g)
    ensures GroupGrows(rows, g) <==> SessionGrows(rows, key)
  {
    if GroupGrows(rows, g) {
      forall k, p, q | IsMessage(rows, key, k, p) && IsMessage(rows, key, k + 1, q)
        ensures NotBelow(rows[p].features, rows[q].features)
      {
        var o := MessageIsInGroup(rows, key, g, k, p);
        var r := MessageIsInGroup(rows, key, g, k + 1, q);
        assert r == o + 1;
      }
    }
    if SessionGrows(rows, key) {
      forall o | 0 < o < |g| ensures NotBelow(rows[g[o - 1]].features, rows[g[o]].features) {
        GroupMemberIsMessage(rows, key, g, o - 1);
        GroupMemberIsMessage(rows, key, g, o);
      }
    }
  }

  predicate GroupOk(rows: seq<Row>, g: seq<nat>)
    requires forall o :: 0 <= o < |g| ==> g[o] < |rows|
  {
    GroupCountsUp(rows, g) && GroupGrows(rows, g)
  }

  ghost predicate SessionOk(rows: seq<Row>, key: Key)
  {
    SessionGapFree(rows, key) && SessionGrows(rows, key)
  }

  lemma GroupOkIffSessionOk(rows: seq<Row>, key: Key, g: seq<nat>)
    requires IsGroup(rows, key, g)
    ensures GroupOk(rows, g) <==> SessionOk(rows, key)
    ensures GroupOk(rows, g) ==> CountsUp(rows, g)
  {
    hide SessionGapFree, SessionGrows, GroupGrows;
    CountsUpIffGapFree(rows, key, g);
    assert CountsUp(rows, g) <==> GroupCountsUp(rows, g);
    if CountsUp(rows, g) { GroupGrowsIffSessionGrows(rows, key, g); }
  }

  lemma AcceptsBySession(rows: seq<Row>, allowed: set<Split>)
    ensures Accepts(rows, allowed) <==> MetadataOk(rows, allowed) && forall key :: key in Keys(rows) ==> SessionOk(rows, key)
  {
    GapFreeBySession(rows);
    if forall key :: key in Keys(rows) ==> SessionGrows(rows, key) {
      forall key, k, p, q | IsMessage(rows, key, k, p) && IsMessage(rows, key, k + 1, q)
        ensures NotBelow(rows[p].features, rows[q].features)
      {
        assert rows[p] in rows;
        assert SessionGrows(rows, rows[p].key);
      }
      forall key ensures SessionGrows(rows, key) {}
    }
  }

  ghost predicate Grouped(rows: seq<Row>, keys: seq<Key>, groups: seq<seq<nat>>)
  {
    && |groups| == |keys|
    && forall g :: 0 <= g < |groups| ==> IsGroup(rows, keys[g], groups[g]) && CountsUp(rows, groups[g])
  }

  datatype Window = Window(features: seq<Features>, positions: seq<int>, length: int, start: int, trace: seq<string>)

  function Blank(w: nat): Window
  {
    Window(seq(w, _ => ZERO), seq(w, _ => -1), 0, 0, [])
  }

  /** The window of row p: messages start..index of the row's own session, in order, then padding. */
  ghost predicate IsWindow(rows: seq<Row>, w: nat, p: nat, win: Window)
    requires p < |rows|
  {
    var row := rows[p];
    && win.length == Min(row.index, w) && win.start == row.index - win.length + 1
    && |win.features| == |win.positions| == w && |win.trace| == win.length
    && (forall j :: 0 <= j < win.length ==> IsMessage(rows, row.key, win.start + j, win.positions[j]))
    && (forall j :: 0 <= j < win.length ==>
          win.features[j] == rows[win.positions[j]].features && win.trace[j] == rows[win.positions[j]].rowId)
    && (forall j :: win.length <= j < w ==> win.features[j] == ZERO && win.positions[j] == -1)
  }

  /** The last w members of a session's group up to an offset. */
  function History(group: seq<nat>, offset: nat, w: nat): seq<nat>
    requires offset < |group|
  {
    group[Max(0, offset + 1 - w)..offset + 1]
  }

  function TraceOf(rows: seq<Row>, history: seq<nat>): (t: seq<string>)
    requires InRange(rows, history)
  {
    seq(|history|, j requires 0 <= j < |history| => rows[history[j]].rowId)
  }

  /** What the construction loop puts into the arrays for one anchor. */
  function HistoryWindow(rows: seq<Row>, history: seq<nat>, offset: nat, w: nat): Window
    requires InRange(rows, history)
  {
    Window(
      seq(w, j requires 0 <= j < w => if j < |history| then rows[history[j]].features else ZERO),
      seq(w, j requires 0 <= j < w => if j < |history| then history[j] as int else -1),
      |history|, offset + 2 - |history|, TraceOf(rows, history))
  }

  lemma HistoryWindowIsWindow(rows: seq<Row>, key: Key, group: seq<nat>, offset: nat, w: nat)
    requires IsGroup(rows, key, group) && CountsUp(rows, group) && offset < |group| && w >= 1
    ensures InRange(rows, History(group, offset, w)) && |History(group, offset, w)| <= w && group[offset] < |rows|
    ensures IsWindow(rows, w, group[offset], HistoryWindow(rows, History(group, offset, w), offset, w))
  {
    var history := History(group, offset, w);
    assert InRange(rows, history);
    var win := HistoryWindow(rows, history, offset, w);
    forall j | 0 <= j < win.length ensures IsMessage(rows, key, win.start + j, win.positions[j]) {
      GroupMemberIsMessage(rows, key, group, offset + 1 - win.length + j);
    }
    GroupMemberIsMessage(rows, key, group, offset);
  }

  /** The description determines the window. */
  lemma WindowIsUnique(rows: seq<Row>, w: nat, p: nat, a: Window, b: Window)
    requires Distinct(rows) && p < |rows| && w >= 1 && rows[p].index >= 1
    requires IsWindow(rows, w, p, a) && IsWindow(rows, w, p, b)
    ensures a == b
  {
    assert forall j :: 0 <= j < a.length ==> a.positions[j] == b.positions[j];
    assert a.positions == b.positions && a.features == b.features && a.trace == b.trace;
  }

  /** Causality: rows appended later, of any session, change no existing window. */
  lemma LaterRowsChangeNothing(rows: seq<Row>, later: seq<Row>, w: nat, p: nat, before: Window, after: Window)
    requires p < |rows| && w >= 1 && rows[p].index >= 1 && Distinct(rows + later)
    requires IsWindow(rows, w, p, before) && IsWindow(rows + later, w, p, after)
    ensures before == after
  {
    var all := rows + later;
    assert all[p] == rows[p];
    forall j | 0 <= j < before.length ensures IsMessage(all, rows[p].key, before.start + j, before.positions[j]) {
      assert IsMessage(rows, rows[p].key, before.start + j, before.positions[j]);
    }
    assert IsWindow(all, w, p, before);
    WindowIsUnique(all, w, p, before, after);
  }

  /** `to` sends every row of `rows` to its place in `moved`, and `from` sends it back. */
  ghost predicate Permutes(rows: seq<Row>, moved: seq<Row>, to: seq<nat>, from: seq<nat>)
  {
    && |rows| == |moved| == |to| == |from|
    && (forall p :: 0 <= p < |rows| ==> to[p] < |moved| && moved[to[p]] == rows[p] && from[to[p]] == p)
    && (forall q :: 0 <= q < |moved| ==> from[q] < |rows| && rows[from[q]] == moved[q] && to[from[q]] == q)
  }

  lemma MovedMessage(rows: seq<Row>, moved: seq<Row>, to: seq<nat>, from: seq<nat>, key: Key, k: int, q: int)
    requires Permutes(rows, moved, to, from) && IsMessage(moved, key, k, q)
    ensures IsMessage(rows, key, k, from[q])
  {}

  lemma ReorderingKeepsSessions(rows: seq<Row>, moved: seq<Row>, to: seq<nat>, from: seq<nat>)
    requires Permutes(rows, moved, to, from) && GapFree(rows) && Grows(rows)
    ensures GapFree(moved) && Grows(moved)
  {
    forall key, k, p, q | IsMessage(moved, key, k, p) && IsMessage(moved, key, k, q) ensures p == q {
      MovedMessage(rows, moved, to, from, key, k, p);
      MovedMessage(rows, moved, to, from, key, k, q);
      assert from[p] == from[q];
    }
    forall q | 0 <= q < |moved|
      ensures moved[q].index >= 1 && (moved[q].index > 1 ==> HasMessage(moved, moved[q].key, moved[q].index - 1))
    {
      var p := from[q];
      if rows[p].index > 1 {
        var r :| IsMessage(rows, rows[p].key, rows[p].index - 1, r);
        assert IsMessage(moved, moved[q].key, moved[q].index - 1, to[r]);
      }
    }
    forall key, k, p, q | IsMessage(moved, key, k, p) && IsMessage(moved, key, k + 1, q)
      ensures NotBelow(moved[p].features, moved[q].features)
    {
      MovedMessage(rows, moved, to, from, key, k, p);
      MovedMessage(rows, moved, to, from, key, k + 1, q);
      assert SessionGrows(rows, key);
    }
    forall key ensures SessionGrows(moved, key) {}
  }

  lemma ReorderingKeepsMetadata(rows: seq<Row>, moved: seq<Row>, to: seq<nat>, from: seq<nat>, allowed: set<Split>)
    requires Permutes(rows, moved, to, from) && MetadataOk(rows, allowed)
    ensures MetadataOk(moved, allowed)
  {
    hide RowOk;
    forall q | 0 <= q < |moved| ensures RowOk(moved[q]) && moved[q].split == rows[0].split {
      assert moved[q] == rows[from[q]];
    }
    forall p, q | 0 <= p < q < |moved|
      ensures moved[p].rowId != moved[q].rowId
      ensures moved[p].key.run == moved[q].key.run ==> moved[p].key.campaign == moved[q].key.campaign
    {
      assert from[p] < from[q] || from[q] < from[p];
    }
  }

  /** Acceptance does not depend on the order of the rows. */
  lemma ReorderingKeepsAcceptance(rows: seq<Row>, moved: seq<Row>, to: seq<nat>, from: seq<nat>, allowed: set<Split>)
    requires Permutes(rows, moved, to, from)
    ensures Accepts(rows, allowed) <==> Accepts(moved, allowed)
  {
    assert Permutes(moved, rows, from, to);
    if Accepts(rows, allowed) {
      ReorderingKeepsSessions(rows, moved, to, from);
      ReorderingKeepsMetadata(rows, moved, to, from, allowed);
    }
    if Accepts(moved, allowed) {
      ReorderingKeepsSessions(moved, rows, from, to);
      ReorderingKeepsMetadata(moved, rows, from, to, allowed);
    }
  }

  function Relocated(positions: seq<int>, to: seq<nat>): seq<int>
  {
    seq(|positions|, j requires 0 <= j < |positions| =>
      if 0 <= positions[j] < |to| then to[positions[j]] else positions[j])
  }

  /** Reordering the rows only renames positions. */
  lemma ReorderedRowsReorderWindows(rows: seq<Row>, moved: seq<Row>, to: seq<nat>, from: seq<nat>, w: nat, p: nat,
                                    a: Window, b: Window)
    requires Permutes(rows, moved, to, from) && p < |rows| && w >= 1 && rows[p].index >= 1 && Distinct(moved)
    requires IsWindow(rows, w, p, a) && IsWindow(moved, w, to[p], b)
    ensures b == a.(positions := Relocated(a.positions, to))
  {
    var c := a.(positions := Relocated(a.positions, to));
    forall j | 0 <= j < c.length ensures IsMessage(moved, rows[p].key, c.start + j, c.positions[j]) {
      assert IsMessage(rows, rows[p].key, a.start + j, a.positions[j]);
    }
    assert IsWindow(moved, w, to[p], c);
    WindowIsUnique(moved, w, to[p], b, c);
  }

  /** What a window says about its own row. */
  function Anchor(win: Window): (Features, string, int)
    requires 0 < win.length <= |win.features| && win.length == |win.trace|
  {
    (win.features[win.length - 1], win.trace[win.length - 1], win.start + win.length - 1)
  }

  /** Inputs, row id and message number of every row can be read back from the windows alone. */
  lemma SourceIsRecoverable(rows: seq<Row>, w: nat, p: nat, win: Window)
    requires GapFree(rows) && p < |rows| && w >= 1 && IsWindow(rows, w, p, win)
    ensures 0 < win.length <= |win.features| && win.length == |win.trace|
    ensures Anchor(win) == (rows[p].features, rows[p].rowId, rows[p].index)
  {
    assert IsMessage(rows, rows[p].key, rows[p].index, p);
    assert IsMessage(rows, rows[p].key, rows[p].index, win.positions[win.length - 1]);
  }
}

/** `ordered_groups`, `make_windows`, `validate_windows` and their evaluation twin, filling arrays in place. */
module SequenceWindows {
  import opened Seqs
  import opened SessionRows
  import opened WindowLogic

  /** What a source is besides its rows: whether its labels are 64-bit integers, and whether its metadata has exactly
      the declared columns in their order. Narrower integer labels and further columns also pass the grouping. */
  datatype Source = Source(rows: seq<Row>, wideLabels: bool, declaredColumns: bool)

  /** The element types and the column list of a set of arrays; `arrays` stands for all arrays but the labels. */
  datatype Form = Form(wideLabels: bool, arrays: bool, declaredColumns: bool)

  const DECLARED := Form(true, true, true)

  datatype SequenceSplit = SequenceSplit(
    form: Form,
    X: array2<Features>,
    y: array<int>,
    lengths: array<int>,
    mask: array2<bool>,
    positions: array2<int>,
    starts: array<int>,
    metadata: array<Metadata>,
    ids: array<string>,
    contexts: array<int>,
    traces: array<seq<string>>)

  predicate Shaped(s: SequenceSplit, n: nat, w: nat)
  {
    && s.X.Length0 == s.mask.Length0 == s.positions.Length0 == n
    && s.X.Length1 == s.mask.Length1 == s.positions.Length1 == w
    && s.y.Length == s.lengths.Length == s.starts.Length == s.traces.Length == s.ids.Length == n
    && s.metadata.Length == s.contexts.Length == n
  }

  /** The integer columns are different arrays; the others differ by type. */
  ghost predicate Apart(s: SequenceSplit)
  {
    && s.y != s.lengths && s.y != s.starts && s.lengths != s.starts
    && s.contexts != s.y && s.contexts != s.lengths && s.contexts != s.starts
  }

  ghost function WindowAt(s: SequenceSplit, p: nat): Window
    requires p < s.X.Length0 == s.positions.Length0 == s.lengths.Length == s.starts.Length == s.traces.Length
    reads s.X, s.positions, s.lengths, s.starts, s.traces
  {
    Window(seq(s.X.Length1, j requires 0 <= j < s.X.Length1 reads s.X => s.X[p, j]),
           seq(s.positions.Length1, j requires 0 <= j < s.positions.Length1 reads s.positions => s.positions[p, j]),
           s.lengths[p], s.starts[p], s.traces[p])
  }

  /** The two slice assignments of one anchor. */
  method CopyHistory(s: SequenceSplit, rows: seq<Row>, history: seq<nat>, anchor: nat, w: nat)
    requires Shaped(s, |rows|, w) && InRange(rows, history) && |history| <= w && anchor < |rows|
    modifies s.X, s.positions
    ensures forall i :: 0 <= i < |history| ==> s.X[anchor, i] == rows[history[i]].features && s.positions[anchor, i] == history[i]
    ensures forall p, i :: 0 <= p < |rows| && 0 <= i < w && (p != anchor || i >= |history|) ==>
      s.X[p, i] == old(s.X[p, i]) && s.positions[p, i] == old(s.positions[p, i])
  {
    for j := 0 to |history|
      invariant forall i :: 0 <= i < j ==> s.X[anchor, i] == rows[history[i]].features && s.positions[anchor, i] == history[i]
      invariant forall p, i :: 0 <= p < |rows| && 0 <= i < w && (p != anchor || i >= j) ==>
        s.X[p, i] == old(s.X[p, i]) && s.positions[p, i] == old(s.positions[p, i])
    {
      s.X[anchor, j] := rows[history[j]].features;
      s.positions[anchor, j] := history[j];
    }
  }

  /** One anchor: the history's rows go to the front of the anchor's row of the arrays. */
  method FillWindow(s: SequenceSplit, rows: seq<Row>, history: seq<nat>, anchor: nat, offset: nat, w: nat)
    requires Shaped(s, |rows|, w) && Apart(s) && InRange(rows, history) && |history| <= w && anchor < |rows|
    requires WindowAt(s, anchor) == Blank(w)
    modifies s.X, s.positions, s.lengths, s.starts, s.traces
    ensures WindowAt(s, anchor) == HistoryWindow(rows, history, offset, w)
    ensures forall p :: 0 <= p < |rows| && p != anchor ==> WindowAt(s, p) == old(WindowAt(s, p))
  {
    ghost var blank := WindowAt(s, anchor);
    assert forall i :: 0 <= i < w ==> s.X[anchor, i] == blank.features[i] && s.positions[anchor, i] == blank.positions[i];
    CopyHistory(s, rows, history, anchor, w);
    s.lengths[anchor] := |history|;
    s.starts[anchor] := offset + 2 - |history|;
    s.traces[anchor] := TraceOf(rows, history);
    ghost var now, want := WindowAt(s, anchor), HistoryWindow(rows, history, offset, w);
    assert now.features == want.features;
    assert now.positions == want.positions;
    forall p | 0 <= p < |rows| && p != anchor ensures WindowAt(s, p) == old(WindowAt(s, p)) {
      assert WindowAt(s, p).features == old(WindowAt(s, p)).features;
      assert WindowAt(s, p).positions == old(WindowAt(s, p)).positions;
    }
  }

  lemma GroupIsInRange(rows: seq<Row>, key: Key, g: seq<nat>)
    requires IsGroup(rows, key, g)
    ensures InRange(rows, g)
  {}

  lemma GroupedAppend(rows: seq<Row>, keys: seq<Key>, groups: seq<seq<nat>>, group: seq<nat>)
    requires |groups| < |keys| && Grouped(rows, keys[..|groups|], groups)
    requires IsGroup(rows, keys[|groups|], group) && GroupOk(rows, group)
    ensures Grouped(rows, keys[..|groups| + 1], groups + [group])
  {
    hide IsGroup, GroupGrows;
    GroupIsInRange(rows, keys[|groups|], group);
    assert CountsUp(rows, group);
    assert keys[..|groups| + 1] == keys[..|groups|] + [keys[|groups|]];
  }

  /** Grouping with its refusals: succeeds exactly on the sources that `Accepts` describes. */
  method OrderedGroups(rows: seq<Row>, allowed: set<Split>) returns (result: Option<seq<seq<nat>>>)
    ensures result.Some? <==> Accepts(rows, allowed)
    ensures result.Some? ==> Grouped(rows, Keys(rows), result.value)
  {
    AcceptsBySession(rows, allowed);
    hide Accepts, SessionOk, IsGroup, Grouped, GroupOk, Keys, MetadataOk;
    if !MetadataOk(rows, allowed) { return None; }
    var keys := Keys(rows);
    var groups: seq<seq<nat>> := [];
    GroupedNothing(rows, keys);
    for g := 0 to |keys|
      invariant |groups| == g && Grouped(rows, keys[..g], groups)
      invariant forall i :: 0 <= i < g ==> SessionOk(rows, keys[i])
    {
      var group := GroupOf(rows, keys[g]);
      GroupIsInRange(rows, keys[g], group);
      GroupOkIffSessionOk(rows, keys[g], group);
      if !GroupOk(rows, group) { return None; }
      GroupedAppend(rows, keys, groups, group);
      groups := groups + [group];
    }
    assert keys[..|keys|] == keys;
    return Some(groups);
  }

  lemma GroupedNothing(rows: seq<Row>, keys: seq<Key>)
    ensures Grouped(rows, keys[..0], [])
  {}

  /** Every row belongs to exactly one group, so each anchor is visited once. */
  ghost predicate Done(rows: seq<Row>, keys: seq<Key>, g: nat, offset: nat, p: nat)
    requires g <= |keys|
  {
    p < |rows| && (rows[p].key in keys[..g] || (g < |keys| && rows[p].key == keys[g] && 0 < rows[p].index <= offset))
  }

  ghost predicate Filled(s: SequenceSplit, rows: seq<Row>, w: nat, keys: seq<Key>, g: nat, offset: nat)
    requires Shaped(s, |rows|, w) && g <= |keys|
    reads s.X, s.positions, s.lengths, s.starts, s.traces
  {
    forall p :: 0 <= p < |rows| ==>
      if Done(rows, keys, g, offset, p) then IsWindow(rows, w, p, WindowAt(s, p)) else WindowAt(s, p) == Blank(w)
  }

  lemma VisitOnce(rows: seq<Row>, keys: seq<Key>, g: nat, group: seq<nat>, offset: nat)
    requires g < |keys| && IsGroup(rows, keys[g], group) && CountsUp(rows, group) && offset < |group|
    requires keys[g] !in keys[..g]
    ensures !Done(rows, keys, g, offset, group[offset])
    ensures forall p :: 0 <= p < |rows| ==> (Done(rows, keys, g, offset + 1, p) <==> p == group[offset] || Done(rows, keys, g, offset, p))
  {
    GroupMemberIsMessage(rows, keys[g], group, offset);
    forall p | 0 <= p < |rows|
      ensures Done(rows, keys, g, offset + 1, p) <==> p == group[offset] || Done(rows, keys, g, offset, p)
    {
      if rows[p].key == keys[g] && rows[p].index == offset + 1 {
        var o := MessageIsInGroup(rows, keys[g], group, offset + 1, p);
      }
    }
  }

  lemma NextGroup(rows: seq<Row>, keys: seq<Key>, g: nat, group: seq<nat>)
    requires g < |keys| && IsGroup(rows, keys[g], group) && CountsUp(rows, group)
    ensures forall p :: 0 <= p < |rows| ==> (Done(rows, keys, g + 1, 0, p) <==> Done(rows, keys, g, |group|, p))
  {
    assert keys[..g + 1] == keys[..g] + [keys[g]];
    forall p | 0 <= p < |rows| && rows[p].key == keys[g] ensures 0 < rows[p].index <= |group| {
      var o := MessageIsInGroup(rows, keys[g], group, rows[p].index, p);
    }
  }

  /** The per-row columns: target and metadata copied, window id, context length and mask. */
  ghost predicate Labelled(s: SequenceSplit, rows: seq<Row>, w: nat, name: string, p: nat)
    requires Shaped(s, |rows|, w) && p < |rows|
    reads s.y, s.mask, s.metadata, s.ids, s.contexts, s.lengths
  {
    && s.y[p] == rows[p].target && s.ids[p] == name + ":" + rows[p].rowId
    && s.metadata[p] == rows[p].Columns() && s.contexts[p] == s.lengths[p]
    && forall j :: 0 <= j < w ==> (s.mask[p, j] <==> j < s.lengths[p])
  }

  /** The arrays are the windows of the source. */
  ghost predicate Holds(s: SequenceSplit, rows: seq<Row>, w: nat, name: string)
    reads s.X, s.y, s.lengths, s.mask, s.positions, s.starts, s.metadata, s.ids, s.contexts, s.traces
  {
    && Shaped(s, |rows|, w)
    && forall p :: 0 <= p < |rows| ==> IsWindow(rows, w, p, WindowAt(s, p)) && Labelled(s, rows, w, name, p)
  }

  const NO_COLUMNS := Metadata("", Key("", "", ""), 0, Train, [])

  lemma UntouchedIsBlank(s: SequenceSplit, n: nat, w: nat, p: nat)
    requires Shaped(s, n, w) && p < n
    requires forall j :: 0 <= j < w ==> s.X[p, j] == ZERO && s.positions[p, j] == -1
    requires s.lengths[p] == s.starts[p] == 0 && s.traces[p] == []
    ensures WindowAt(s, p) == Blank(w)
  {
    assert WindowAt(s, p).features == Blank(w).features && WindowAt(s, p).positions == Blank(w).positions;
  }

  method Allocate(n: nat, w: nat, form: Form) returns (s: SequenceSplit)
    ensures Shaped(s, n, w) && Apart(s) && s.form == form
    ensures fresh(s.X) && fresh(s.y) && fresh(s.lengths) && fresh(s.mask) && fresh(s.positions)
    ensures fresh(s.starts) && fresh(s.metadata) && fresh(s.ids) && fresh(s.contexts) && fresh(s.traces)
    ensures forall p :: 0 <= p < n ==> WindowAt(s, p) == Blank(w)
  {
    hide WindowAt, Blank;
    var y := new int[n](i => 0);
    var mask := new bool[n, w]((i, j) => false);
    var metadata := new Metadata[n](i => NO_COLUMNS);
    var ids := new string[n](i => "");
    var contexts := new int[n](i => 0);
    var X, positions, lengths, starts, traces := AllocateWindows(n, w);
    s := SequenceSplit(form, X, y, lengths, mask, positions, starts, metadata, ids, contexts, traces);
    forall p | 0 <= p < n ensures WindowAt(s, p) == Blank(w) {
      UntouchedIsBlank(s, n, w, p);
    }
  }

  method AllocateWindows(n: nat, w: nat)
      returns (X: array2<Features>, positions: array2<int>, lengths: array<int>, starts: array<int>, traces: array<seq<string>>)
    ensures fresh(X) && fresh(positions) && fresh(lengths) && fresh(starts) && fresh(traces) && lengths != starts
    ensures X.Length0 == positions.Length0 == lengths.Length == starts.Length == traces.Length == n
    ensures X.Length1 == positions.Length1 == w
    ensures forall p, j :: 0 <= p < n && 0 <= j < w ==> X[p, j] == ZERO && positions[p, j] == -1
    ensures forall p :: 0 <= p < n ==> lengths[p] == starts[p] == 0 && traces[p] == []
  {
    X := new Features[n, w]((i, j) => ZERO);
    positions := new int[n, w]((i, j) => -1);
    lengths := new int[n](i => 0);
    starts := new int[n](i => 0);
    traces := new seq<string>[n](i => []);
  }

  /** One group: every anchor is filled once. */
  method FillGroup(s: SequenceSplit, rows: seq<Row>, keys: seq<Key>, g: nat, group: seq<nat>, w: nat)
    requires Shaped(s, |rows|, w) && Apart(s) && w >= 1 && keys == Keys(rows) && g < |keys|
    requires IsGroup(rows, keys[g], group) && CountsUp(rows, group)
    requires Filled(s, rows, w, keys, g, 0)
    modifies s.X, s.positions, s.lengths, s.starts, s.traces
    ensures Filled(s, rows, w, keys, g, |group|)
  {
    hide IsWindow, IsGroup, Blank, WindowAt, Keys;
    for offset := 0 to |group|
      invariant Filled(s, rows, w, keys, g, offset)
    {
      VisitOnce(rows, keys, g, group, offset);
      HistoryWindowIsWindow(rows, keys[g], group, offset, w);
      FillWindow(s, rows, History(group, offset, w), group[offset], offset, w);
    }
  }

  /** The nested construction loops. */
  method FillAll(s: SequenceSplit, rows: seq<Row>, keys: seq<Key>, groups: seq<seq<nat>>, w: nat)
    requires Shaped(s, |rows|, w) && Apart(s) && w >= 1 && GapFree(rows)
    requires keys == Keys(rows) && Grouped(rows, keys, groups)
    requires forall p :: 0 <= p < |rows| ==> WindowAt(s, p) == Blank(w)
    modifies s.X, s.positions, s.lengths, s.starts, s.traces
    ensures forall p :: 0 <= p < |rows| ==> IsWindow(rows, w, p, WindowAt(s, p))
  {
    hide IsWindow, IsGroup, Distinct, Contiguous, Blank, WindowAt, Keys;
    NothingDone(rows, keys);
    for g := 0 to |groups|
      invariant Filled(s, rows, w, keys, g, 0)
    {
      FillGroup(s, rows, keys, g, groups[g], w);
      NextGroup(rows, keys, g, groups[g]);
    }
    EverythingDone(rows, keys);
  }

  lemma NothingDone(rows: seq<Row>, keys: seq<Key>)
    ensures forall p :: 0 <= p < |rows| ==> !Done(rows, keys, 0, 0, p)
  {}

  lemma EverythingDone(rows: seq<Row>, keys: seq<Key>)
    requires keys == Keys(rows)
    ensures forall p :: 0 <= p < |rows| ==> Done(rows, keys, |keys|, 0, p)
  {
    forall p | 0 <= p < |rows| ensures Done(rows, keys, |keys|, 0, p) {
      assert rows[p] in rows;
      assert keys[..|keys|] == keys;
    }
  }

  /** Lengths in range and padding beyond them. */
  predicate PadOk(s: SequenceSplit, n: nat, w: nat)
    requires Shaped(s, n, w)
    reads s.X, s.positions, s.lengths
  {
    && (forall p :: 0 <= p < n ==> 1 <= s.lengths[p] <= w)
    && forall p, j :: 0 <= p < n && s.lengths[p] <= j < w && 0 <= j ==> s.X[p, j] == ZERO && s.positions[p, j] == -1
  }

  /** Targets, metadata, window ids, context lengths and mask. */
  predicate ColumnsOk(s: SequenceSplit, rows: seq<Row>, w: nat, name: string)
    requires Shaped(s, |rows|, w)
    reads s.y, s.mask, s.metadata, s.ids, s.contexts, s.lengths
  {
    && (forall p :: 0 <= p < |rows| ==> s.y[p] == rows[p].target)
    && (forall p :: 0 <= p < |rows| ==> s.metadata[p] == rows[p].Columns())
    && (forall p :: 0 <= p < |rows| ==> s.contexts[p] == s.lengths[p])
    && (forall p :: 0 <= p < |rows| ==> s.ids[p] == name + ":" + rows[p].rowId)
    && forall p, j :: 0 <= p < |rows| && 0 <= j < w ==> (s.mask[p, j] <==> j < s.lengths[p])
  }

  /** The comparison of one anchor with its expected history. */
  predicate MatchesHistory(s: SequenceSplit, rows: seq<Row>, w: nat, history: seq<nat>, anchor: nat, offset: nat)
    requires Shaped(s, |rows|, w) && anchor < |rows| && |history| <= w
    requires forall a :: 0 <= a < |history| ==> history[a] < |rows|
    reads s.X, s.positions, s.lengths, s.starts, s.traces
  {
    && s.lengths[anchor] == |history|
    && (forall j :: 0 <= j < |history| ==> s.positions[anchor, j] == history[j])
    && (forall j :: 0 <= j < |history| ==> s.X[anchor, j] == rows[history[j]].features)
    && s.starts[anchor] == offset + 2 - |history|
    && s.traces[anchor] == TraceOf(rows, history)
  }

  lemma MatchIffHistoryWindow(s: SequenceSplit, rows: seq<Row>, w: nat, history: seq<nat>, anchor: nat, offset: nat)
    requires Shaped(s, |rows|, w) && PadOk(s, |rows|, w) && anchor < |rows| && |history| <= w && InRange(rows, history)
    ensures MatchesHistory(s, rows, w, history, anchor, offset) <==>
            WindowAt(s, anchor) == HistoryWindow(rows, history, offset, w)
  {
    var now, want := WindowAt(s, anchor), HistoryWindow(rows, history, offset, w);
    if MatchesHistory(s, rows, w, history, anchor, offset) {
      assert now.features == want.features && now.positions == want.positions;
    }
    if now == want {
      assert forall j :: 0 <= j < w ==> now.features[j] == s.X[anchor, j] && now.positions[j] == s.positions[anchor, j];
    }
  }

  lemma MatchIffWindow(s: SequenceSplit, rows: seq<Row>, w: nat, key: Key, group: seq<nat>, offset: nat)
    requires Shaped(s, |rows|, w) && PadOk(s, |rows|, w) && w >= 1 && Distinct(rows)
    requires IsGroup(rows, key, group) && CountsUp(rows, group) && offset < |group|
    ensures group[offset] < |rows| && InRange(rows, History(group, offset, w)) && |History(group, offset, w)| <= w
    ensures MatchesHistory(s, rows, w, History(group, offset, w), group[offset], offset) <==>
            IsWindow(rows, w, group[offset], WindowAt(s, group[offset]))
  {
    var history := History(group, offset, w);
    HistoryWindowIsWindow(rows, key, group, offset, w);
    MatchIffHistoryWindow(s, rows, w, history, group[offset], offset);
    if IsWindow(rows, w, group[offset], WindowAt(s, group[offset])) {
      WindowIsUnique(rows, w, group[offset], WindowAt(s, group[offset]), HistoryWindow(rows, history, offset, w));
    }
  }

  lemma HoldsHasColumns(s: SequenceSplit, rows: seq<Row>, w: nat, name: string)
    requires Holds(s, rows, w, name) && w >= 1 && GapFree(rows)
    ensures PadOk(s, |rows|, w) && ColumnsOk(s, rows, w, name)
  {
    forall p | 0 <= p < |rows| ensures 1 <= s.lengths[p] <= w {
      assert IsWindow(rows, w, p, WindowAt(s, p));
    }
    forall p, j | 0 <= p < |rows| && s.lengths[p] <= j < w && 0 <= j ensures s.X[p, j] == ZERO && s.positions[p, j] == -1 {
      var win := WindowAt(s, p);
      assert IsWindow(rows, w, p, win) && win.features[j] == s.X[p, j] && win.positions[j] == s.positions[p, j];
    }
    forall p | 0 <= p < |rows|
      ensures s.y[p] == rows[p].target && s.ids[p] == name + ":" + rows[p].rowId
      ensures s.metadata[p] == rows[p].Columns() && s.contexts[p] == s.lengths[p]
      ensures forall j :: 0 <= j < w ==> (s.mask[p, j] <==> j < s.lengths[p])
    {
      assert Labelled(s, rows, w, name, p);
    }
  }

  ghost predicate Checked(s: SequenceSplit, rows: seq<Row>, w: nat, keys: seq<Key>, g: nat, offset: nat)
    requires Shaped(s, |rows|, w) && g <= |keys|
    reads s.X, s.positions, s.lengths, s.starts, s.traces
  {
    forall p :: 0 <= p < |rows| && Done(rows, keys, g, offset, p) ==> IsWindow(rows, w, p, WindowAt(s, p))
  }

  /** The validator's loops: every anchor is compared with its own history. */
  method CheckAll(s: SequenceSplit, rows: seq<Row>, keys: seq<Key>, groups: seq<seq<nat>>, w: nat) returns (ok: bool)
    requires Shaped(s, |rows|, w) && PadOk(s, |rows|, w) && w >= 1 && GapFree(rows)
    requires keys == Keys(rows) && Grouped(rows, keys, groups)
    ensures ok <==> forall p :: 0 <= p < |rows| ==> IsWindow(rows, w, p, WindowAt(s, p))
  {
    hide IsWindow, IsGroup, Distinct, Contiguous, WindowAt, Keys, PadOk, MatchesHistory;
    NothingDone(rows, keys);
    for g := 0 to |groups|
      invariant Checked(s, rows, w, keys, g, 0)
    {
      var group := groups[g];
      for offset := 0 to |group|
        invariant Checked(s, rows, w, keys, g, offset)
      {
        VisitOnce(rows, keys, g, group, offset);
        MatchIffWindow(s, rows, w, keys[g], group, offset);
        if !MatchesHistory(s, rows, w, History(group, offset, w), group[offset], offset) { return false; }
      }
      NextGroup(rows, keys, g, group);
    }
    EverythingDone(rows, keys);
    return true;
  }

  const LEARNING: set<Split> := {Train, Validation}
  const EVALUATION: set<Split> := {Train, Validation, Test}

  /** The validator characterises the windows: it accepts arrays exactly if they have the declared form, the source
      is acceptable and every row of the arrays is the described window. */
  method ValidateWindows(s: SequenceSplit, rows: seq<Row>, w: nat, name: string) returns (ok: bool)
    ensures ok <==> w >= 1 && s.form == DECLARED && Accepts(rows, LEARNING) && Holds(s, rows, w, name)
  {
    hide IsWindow, IsGroup, Distinct, Contiguous, WindowAt, Keys, Grows;
    if w >= 1 && GapFree(rows) && Holds(s, rows, w, name) { HoldsHasColumns(s, rows, w, name); }
    if !Shaped(s, |rows|, w) || !s.form.wideLabels || !s.form.arrays { return false; }
    if !PadOk(s, |rows|, w) || !s.form.declaredColumns || !ColumnsOk(s, rows, w, name) { return false; }
    var groups := OrderedGroups(rows, LEARNING);
    if groups.None? { return false; }
    assert rows != [] && 1 <= s.lengths[0] <= w;
    ok := CheckAll(s, rows, Keys(rows), groups.value, w);
  }

  method FillColumns(s: SequenceSplit, rows: seq<Row>, w: nat, name: string)
    requires Shaped(s, |rows|, w) && Apart(s)
    modifies s.y, s.mask, s.metadata, s.ids, s.contexts
    ensures forall p :: 0 <= p < |rows| ==> Labelled(s, rows, w, name, p)
  {
    forall p | 0 <= p < |rows| { s.y[p] := rows[p].target; }
    forall p | 0 <= p < |rows| { s.metadata[p] := rows[p].Columns(); }
    forall p | 0 <= p < |rows| { s.contexts[p] := s.lengths[p]; }
    forall p | 0 <= p < |rows| { s.ids[p] := name + ":" + rows[p].rowId; }
    forall p, j | 0 <= p < |rows| && 0 <= j < w { s.mask[p, j] := j < s.lengths[p]; }
  }

  /** `Refused`: no window size or no acceptable source; `Rejected`: built, but refused by the builder's own
      validation. */
  datatype Making = Refused | Rejected | Made(windows: SequenceSplit)

  /** The builder succeeds on exactly the acceptable sources of the declared form. On the other acceptable sources it
      fills the arrays all the same, and its own validation fires for their form alone. */
  method MakeWindows(source: Source, w: int, name: string) returns (result: Making)
    ensures result.Refused? <==> !(1 <= w <= 64 && Accepts(source.rows, LEARNING))
    ensures result.Made? ==> source.wideLabels && source.declaredColumns
    ensures result.Rejected? ==> !(source.wideLabels && source.declaredColumns)
    ensures result.Made? ==> Holds(result.windows, source.rows, w, name) && result.windows.form == DECLARED
  {
    hide IsWindow, IsGroup, Distinct, Contiguous, WindowAt, Keys, Grows, MetadataOk, Blank, Labelled;
    var rows := source.rows;
    if !(1 <= w <= 64) { return Refused; }
    var groups := OrderedGroups(rows, LEARNING);
    if groups.None? { return Refused; }
    var s := Allocate(|rows|, w, Form(source.wideLabels, true, source.declaredColumns));
    FillAll(s, rows, Keys(rows), groups.value, w);
    label Filled:
    FillColumns(s, rows, w, name);
    assert forall p :: 0 <= p < |rows| ==> WindowAt(s, p) == old@Filled(WindowAt(s, p));
    var ok := ValidateWindows(s, rows, w, name);
    result := if ok then Made(s) else Rejected;
  }

  /** The evaluation builder's loop: group, check and fill session by session. */
  method FillSessions(s: SequenceSplit, rows: seq<Row>, w: nat) returns (ok: bool)
    requires Shaped(s, |rows|, w) && Apart(s) && w >= 1
    requires forall p :: 0 <= p < |rows| ==> WindowAt(s, p) == Blank(w)
    modifies s.X, s.positions, s.lengths, s.starts, s.traces
    ensures ok <==> forall key :: key in Keys(rows) ==> SessionOk(rows, key)
    ensures ok ==> forall p :: 0 <= p < |rows| ==> IsWindow(rows, w, p, WindowAt(s, p))
  {
    NothingDone(rows, Keys(rows));
    hide IsWindow, IsGroup, WindowAt, Keys, Blank, SessionOk, GroupOk;
    var keys := Keys(rows);
    for g := 0 to |keys|
      invariant Filled(s, rows, w, keys, g, 0)
      invariant forall i :: 0 <= i < g ==> SessionOk(rows, keys[i])
    {
      var group := GroupOf(rows, keys[g]);
      GroupIsInRange(rows, keys[g], group);
      GroupOkIffSessionOk(rows, keys[g], group);
      if !GroupOk(rows, group) { return false; }
      FillGroup(s, rows, keys, g, group, w);
      NextGroup(rows, keys, g, group);
    }
    EverythingDone(rows, keys);
    return true;
  }

  /** The evaluation twin: its own loop, the Test split admitted, the same windows. */
  method MakeEvaluationWindows(source: Source, w: int, name: string) returns (result: Option<SequenceSplit>)
    ensures result.Some? <==> 1 <= w <= 64 && source.declaredColumns && Accepts(source.rows, EVALUATION)
    ensures result.Some? ==> Holds(result.value, source.rows, w, name)
    ensures result.Some? ==> result.value.form == Form(source.wideLabels, true, true)
  {
    var rows := source.rows;
    AcceptsBySession(rows, EVALUATION);
    hide IsWindow, IsGroup, WindowAt, Keys, MetadataOk, Blank, Labelled, SessionOk, Accepts, GroupOk;
    if !(1 <= w <= 64) || !source.declaredColumns || !MetadataOk(rows, EVALUATION) { return None; }
    var s := Allocate(|rows|, w, Form(source.wideLabels, true, true));
    var ok := FillSessions(s, rows, w);
    if !ok { return None; }
    label Filled:
    FillColumns(s, rows, w, name);
    assert forall p :: 0 <= p < |rows| ==> WindowAt(s, p) == old@Filled(WindowAt(s, p));
    return Some(s);
  }

  /** Two sets of arrays that hold for one source are equal entry by entry, whoever built them. */
  lemma HoldingArraysAreEqual(s: SequenceSplit, t: SequenceSplit, rows: seq<Row>, w: nat, name: string, p: nat)
    requires GapFree(rows) && w >= 1 && p < |rows|
    requires Holds(s, rows, w, name) && Holds(t, rows, w, name)
    ensures WindowAt(s, p) == WindowAt(t, p)
    ensures s.lengths[p] == t.lengths[p] && s.starts[p] == t.starts[p] && s.traces[p] == t.traces[p]
    ensures s.y[p] == t.y[p] && s.ids[p] == t.ids[p] && s.metadata[p] == t.metadata[p] && s.contexts[p] == t.contexts[p]
    ensures forall j :: 0 <= j < w ==> s.X[p, j] == t.X[p, j] && s.positions[p, j] == t.positions[p, j]
    ensures forall j :: 0 <= j < w ==> s.mask[p, j] == t.mask[p, j]
  {
    assert Labelled(s, rows, w, name, p) && Labelled(t, rows, w, name, p);
    assert IsWindow(rows, w, p, WindowAt(s, p)) && IsWindow(rows, w, p, WindowAt(t, p));
    WindowIsUnique(rows, w, p, WindowAt(s, p), WindowAt(t, p));
    assert s.lengths[p] == WindowAt(s, p).length == WindowAt(t, p).length == t.lengths[p];
    forall j | 0 <= j < w ensures s.X[p, j] == t.X[p, j] && s.positions[p, j] == t.positions[p, j] {
      assert WindowAt(s, p).features[j] == WindowAt(t, p).features[j];
      assert WindowAt(s, p).positions[j] == WindowAt(t, p).positions[j];
    }
  }

  predicate SameArrays(s: SequenceSplit, t: SequenceSplit, n: nat, w: nat)
    requires Shaped(s, n, w) && Shaped(t, n, w)
    reads s.X, s.y, s.lengths, s.mask, s.positions, s.starts, s.metadata, s.ids, s.contexts, s.traces
    reads t.X, t.y, t.lengths, t.mask, t.positions, t.starts, t.metadata, t.ids, t.contexts, t.traces
  {
    && (forall p :: 0 <= p < n ==> s.y[p] == t.y[p] && s.lengths[p] == t.lengths[p])
    && (forall p :: 0 <= p < n ==> s.starts[p] == t.starts[p] && s.traces[p] == t.traces[p] && s.ids[p] == t.ids[p])
    && (forall p :: 0 <= p < n ==> s.metadata[p] == t.metadata[p] && s.contexts[p] == t.contexts[p])
    && (forall p, j :: 0 <= p < n && 0 <= j < w ==> s.X[p, j] == t.X[p, j])
    && (forall p, j :: 0 <= p < n && 0 <= j < w ==> s.positions[p, j] == t.positions[p, j] && s.mask[p, j] == t.mask[p, j])
  }

  lemma SameArraysHold(s: SequenceSplit, t: SequenceSplit, rows: seq<Row>, w: nat, name: string)
    requires Shaped(s, |rows|, w) && Holds(t, rows, w, name) && SameArrays(s, t, |rows|, w)
    ensures Holds(s, rows, w, name)
  {
    forall p | 0 <= p < |rows| ensures IsWindow(rows, w, p, WindowAt(s, p)) && Labelled(s, rows, w, name, p) {
      assert WindowAt(s, p).features == WindowAt(t, p).features;
      assert WindowAt(s, p).positions == WindowAt(t, p).positions;
      assert WindowAt(s, p) == WindowAt(t, p);
      assert Labelled(t, rows, w, name, p);
    }
  }

  lemma HoldingArraysAreTheSame(s: SequenceSplit, t: SequenceSplit, rows: seq<Row>, w: nat, name: string)
    requires GapFree(rows) && w >= 1 && Holds(s, rows, w, name) && Holds(t, rows, w, name)
    ensures SameArrays(s, t, |rows|, w)
  {
    forall p | 0 <= p < |rows|
      ensures s.lengths[p] == t.lengths[p] && s.starts[p] == t.starts[p] && s.traces[p] == t.traces[p]
      ensures s.y[p] == t.y[p] && s.ids[p] == t.ids[p] && s.metadata[p] == t.metadata[p] && s.contexts[p] == t.contexts[p]
    {
      HoldingArraysAreEqual(s, t, rows, w, name, p);
    }
    forall p, j | 0 <= p < |rows| && 0 <= j < w
      ensures s.X[p, j] == t.X[p, j] && s.positions[p, j] == t.positions[p, j] && s.mask[p, j] == t.mask[p, j]
    {
      HoldingArraysAreEqual(s, t, rows, w, name, p);
    }
  }

  /** The evaluation validator rebuilds and compares; it asks for the source's own label
      type and draws the same line otherwise. */
  method ValidateEvaluationWindows(s: SequenceSplit, source: Source, w: int, name: string) returns (ok: bool)
    ensures ok <==>
      && 1 <= w <= 64 && source.declaredColumns && s.form == Form(source.wideLabels, true, true)
      && Accepts(source.rows, EVALUATION) && Holds(s, source.rows, w, name)
  {
    var rows := source.rows;
    hide IsWindow, Distinct, Contiguous, WindowAt, Grows, MetadataOk, Labelled, SameArrays;
    var expected := MakeEvaluationWindows(source, w, name);
    if expected.None? || s.form != expected.value.form { return false; }
    if !Shaped(s, |rows|, w) { return false; }
    ok := SameArrays(s, expected.value, |rows|, w);
    if ok { SameArraysHold(s, expected.value, rows, w, name); }
    if Holds(s, rows, w, name) { HoldingArraysAreTheSame(s, expected.value, rows, w, name); }
  }
}
