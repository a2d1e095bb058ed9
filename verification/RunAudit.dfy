/** The audit of one collected run: what its checks are, told over the records. */
module AuditLogic {
  import opened Seqs
  import opened Sorting
  import T = TrafficPlan

  /** A message frame as the telemetry and the plan both name it. */
  datatype FrameId = FrameId(packetId: int, packetSize: int)

  datatype Payload =
    | Message(index: int, frame: FrameId, duration: real, received: nat, sent: nat, errors: nat, interval: real)
    | Summary(requestCount: nat, errorCount: nat, lastError: string, duration: real, received: nat, sent: nat, mean: real)

  /** `own` says that run, scenario and server build are those of the audited run. */
  datatype Record = Record(collectionId: int, queueId: int, sessionId: int, own: bool, payload: Payload)

  /** One planned client: the frames to send and how, the replies to get, and what the server should report. */
  datatype Planned = Planned(
    frames: seq<T.Frame>,
    controls: T.Controls,
    responses: nat,
    messages: seq<FrameId>,
    errorCount: nat,
    lastError: string)

  datatype Signature = Signature(frames: seq<FrameId>, requestCount: nat, errorCount: nat, lastError: string, bytes: nat)

  datatype Key = Key(sessionId: int, index: Option<int>)

  function ExpectedSignature(p: Planned): Signature
  {
    Signature(p.messages, |p.messages|, p.errorCount, p.lastError, T.WireSize(p.frames))
  }

  function ExpectedSignatures(plan: seq<Planned>): (s: seq<Signature>)
    ensures |s| == |plan| && forall i :: 0 <= i < |plan| ==> s[i] == ExpectedSignature(plan[i])
  {
    seq(|plan|, i requires 0 <= i < |plan| => ExpectedSignature(plan[i]))
  }

  function ExpectedMessages(plan: seq<Planned>): nat
  {
    if plan == [] then 0 else ExpectedMessages(Init(plan)) + |Last(plan).messages|
  }

  /** The lines of the file that parse and validate. */
  function Valid(lines: seq<Option<Record>>): seq<Record>
  {
    if lines == [] then []
    else Valid(Init(lines)) + if Last(lines).Some? then [Last(lines).value] else []
  }

  function KeyOf(r: Record): Key
  {
    Key(r.sessionId, if r.payload.Message? then Some(r.payload.index) else None)
  }

  function Keys(rs: seq<Record>): (keys: seq<Key>)
    ensures |keys| == |rs| && forall i :: 0 <= i < |rs| ==> keys[i] == KeyOf(rs[i])
  {
    seq(|rs|, i requires 0 <= i < |rs| => KeyOf(rs[i]))
  }

  /** Distinct members. */
  function Unique<T(==)>(s: seq<T>): nat { |set x | x in s| }

  function MessageKey(): Key -> bool { (k: Key) => k.index.Some? }

  function SummaryKey(): Key -> bool { (k: Key) => k.index.None? }

  function InSession(sid: int): Record -> bool { (r: Record) => r.sessionId == sid && r.payload.Message? }

  function Summarises(sid: int): Record -> bool { (r: Record) => r.sessionId == sid && r.payload.Summary? }

  function ByIndex(): (Record, Record) -> bool { (a: Record, b: Record) => IndexOf(a) <= IndexOf(b) }

  function IndexOf(r: Record): int { if r.payload.Message? then r.payload.index else 0 }

  function Messages(rs: seq<Record>, sid: int): seq<Record> { SortBy(Filter(rs, InSession(sid)), ByIndex()) }

  function Summaries(rs: seq<Record>, sid: int): seq<Record> { Filter(rs, Summarises(sid)) }

  /** The sessions in the order of their first records. */
  function Sessions(rs: seq<Record>): (sids: seq<int>)
    ensures NoRepeat(sids)
    ensures forall r :: r in rs ==> r.sessionId in sids
    ensures forall sid :: sid in sids ==> exists r :: r in rs && r.sessionId == sid
  {
    if rs == [] then []
    else
      assert rs == Init(rs) + [Last(rs)];
      var before := Sessions(Init(rs));
      if Last(rs).sessionId in before then before else before + [Last(rs).sessionId]
  }

  function FrameOf(r: Record): FrameId { if r.payload.Message? then r.payload.frame else FrameId(-1, 0) }

  function Frames(ms: seq<Record>): (fs: seq<FrameId>)
    ensures |fs| == |ms|
  {
    seq(|ms|, i requires 0 <= i < |ms| => FrameOf(ms[i]))
  }

  function SignatureOf(ms: seq<Record>, s: Record): Signature
  {
    if s.payload.Summary? then
      Signature(Frames(ms), s.payload.requestCount, s.payload.errorCount, s.payload.lastError, s.payload.received)
    else Signature([], 0, 0, "", 0)
  }

  const TOLERANCE := 0.0015
  const RELATIVE_TOLERANCE := 0.000000001

  function SumIntervals(ms: seq<Record>): real
  {
    if ms == [] then 0.0
    else SumIntervals(Init(ms)) + if Last(ms).payload.Message? then Last(ms).payload.interval else 0.0
  }

  function Abs(x: real): real { if x < 0.0 then -x else x }

  /** Within the absolute or the relative tolerance, whichever is wider. */
  predicate Close(a: real, b: real)
  {
    || Abs(a - b) <= TOLERANCE
    || Abs(a - b) <= RELATIVE_TOLERANCE * Abs(a)
    || Abs(a - b) <= RELATIVE_TOLERANCE * Abs(b)
  }

  function Larger(x: real, y: real): real { if x >= y then x else y }

  /** Being close is a distance of at most 1.5 microseconds, or of at most a billionth of the larger of both. */
  lemma CloseMeans(a: real, b: real)
    ensures Close(a, b) <==>
      Larger(a, b) + Larger(-a, -b) <= Larger(0.0015, Larger(Larger(a, -a), Larger(b, -b)) / 1000000000.0)
  {}

  predicate Grows(ms: seq<Record>)
  {
    forall i :: 0 < i < |ms| && ms[i - 1].payload.Message? && ms[i].payload.Message? ==>
      var a, b := ms[i - 1].payload, ms[i].payload;
      a.duration <= b.duration && a.received <= b.received && a.sent <= b.sent && a.errors <= b.errors
  }

  predicate Numbered(ms: seq<Record>)
  {
    forall i :: 0 <= i < |ms| ==> IndexOf(ms[i]) == i + 1
  }

  predicate SummaryAgrees(ms: seq<Record>, s: Record)
  {
    && s.payload.Summary?
    && s.payload.requestCount == |ms|
    && Close(s.payload.mean, if |ms| > 1 then SumIntervals(ms) / (|ms| - 1) as real else 0.0)
    && (ms != [] && Last(ms).payload.Message? ==>
          && s.payload.duration >= Last(ms).payload.duration && s.payload.received >= Last(ms).payload.received
          && s.payload.sent >= Last(ms).payload.sent)
  }

  /** The checks of one session. */
  predicate SessionPasses(rs: seq<Record>, sid: int)
  {
    var ms, ss := Messages(rs, sid), Summaries(rs, sid);
    && |ss| == 1 && Numbered(ms) && Grows(ms) && SummaryAgrees(ms, ss[0])
  }

  /** The signatures of the sessions that have exactly one summary. */
  function Signatures(rs: seq<Record>, sids: seq<int>): seq<Signature>
  {
    if sids == [] then []
    else
      var sid := Last(sids);
      Signatures(rs, Init(sids))
      + if |Summaries(rs, sid)| == 1 then [SignatureOf(Messages(rs, sid), Summaries(rs, sid)[0])] else []
  }

  datatype Totals = Totals(attempted: int, enqueued: int, written: int, flushed: int)

  predicate TotalsAre(t: Totals, n: int) { t.attempted == t.enqueued == t.written == t.flushed == n }

  function QueueIds(rs: seq<Record>): (q: seq<int>)
    ensures |q| == |rs| && forall i :: 0 <= i < |rs| ==> q[i] == rs[i].queueId
  {
    seq(|rs|, i requires 0 <= i < |rs| => rs[i].queueId)
  }

  function Ascending(): (int, int) -> bool { (a: int, b: int) => a <= b }

  predicate CountsFromOne(s: seq<int>, n: nat) { |s| == n && forall i :: 0 <= i < n ==> s[i] == i + 1 }

  function CollectionIds(rs: seq<Record>): (c: seq<int>)
    ensures |c| == |rs| && forall i :: 0 <= i < |rs| ==> c[i] == rs[i].collectionId
  {
    seq(|rs|, i requires 0 <= i < |rs| => rs[i].collectionId)
  }

  /** What one client reports; `timed`: its measured times are finite and not negative. */
  datatype Client = Client(
    index: int,
    passed: bool,
    connected: bool,
    framesSent: int,
    bytesSent: int,
    responses: int,
    controls: T.Controls,
    sendCalls: int,
    groups: seq<T.Group>,
    timed: bool)

  datatype Names = Names(run: string, scenario: string)

  /** What a campaign fixes for all its runs, as texts and digests. */
  datatype Fixed = Fixed(
    manifestCopy: string,
    manifestDigest: string,
    serverBuild: string,
    contractDigest: string,
    contractCopy: string,
    purpose: string)

  datatype RunManifest = RunManifest(names: Names, scenario: string, labelSource: string, fixed: Fixed)

  datatype Runtime = Runtime(run: string, passed: bool, serverGraceful: bool, apiGraceful: bool)

  /** What the campaign demands of a run: its entry, its scenario's definition, label and label source, and the
      expectations made again from the plan. */
  datatype Demands = Demands(
    names: Names,
    entryLabel: int,
    expectationsDigest: string,
    scenario: string,
    scenarioLabel: int,
    labelSource: string,
    expectations: string,
    fixed: Fixed)

  /** What is found of it. */
  datatype Papers = Papers(
    expectations: string,
    expectationsDigest: string,
    manifest: RunManifest,
    outcomeNames: Names,
    summaryNames: Names,
    runtime: Runtime)

  predicate PapersOk(d: Demands, p: Papers)
  {
    && p.expectationsDigest == d.expectationsDigest && p.expectations == d.expectations && d.entryLabel == d.scenarioLabel
    && p.manifest == RunManifest(d.names, d.scenario, d.labelSource, d.fixed)
    && p.outcomeNames == p.summaryNames == d.names
    && p.runtime == Runtime(d.names.run, true, true, true)
  }

  /** The rest of a run's evidence. `explicit`: the plan sets batches and fragments; `traffic`: the client side says
      it passed; `complete`: the collector says it finished in time without an error; `lost`: its loss and remainder
      counters. */
  datatype Evidence = Evidence(
    explicit: bool,
    demands: Demands,
    papers: Papers,
    traffic: bool,
    complete: bool,
    lost: seq<int>,
    endsWithNewline: bool,
    clients: seq<Client>)

  /** A client did what was planned for it. */
  predicate Served(c: Client, p: Planned, explicit: bool)
  {
    && c.passed && c.connected && c.framesSent == |p.frames| && c.bytesSent == T.WireSize(p.frames)
    && c.responses == p.responses
    && (explicit ==>
          && c.controls == p.controls && c.sendCalls == T.ExpectedSendCalls(p.frames, p.controls)
          && c.groups == T.PlannedSendGroups(p.frames, p.controls) && c.timed)
  }

  function Indices(clients: seq<Client>): (ids: seq<int>)
    ensures |ids| == |clients| && forall k :: 0 <= k < |clients| ==> ids[k] == clients[k].index
  {
    seq(|clients|, k requires 0 <= k < |clients| => clients[k].index)
  }

  /** As many clients as planned, all different, each with a planned index and served. */
  ghost predicate ClientsPass(clients: seq<Client>, plan: seq<Planned>, explicit: bool)
  {
    && |clients| == |plan| && NoRepeat(Indices(clients))
    && forall k :: 0 <= k < |clients| ==>
         0 <= clients[k].index < |plan| && Served(clients[k], plan[clients[k].index], explicit)
  }

  predicate EvidenceOk(e: Evidence)
  {
    PapersOk(e.demands, e.papers) && e.traffic && e.complete && e.endsWithNewline && forall n :: n in e.lost ==> n == 0
  }

  /** Everything that must hold for a run to pass. */
  ghost predicate RunPasses(e: Evidence, lines: seq<Option<Record>>, totals: Totals, plan: seq<Planned>)
  {
    var rs := Valid(lines);
    var sids := Sessions(rs);
    && EvidenceOk(e) && ClientsPass(e.clients, plan, e.explicit)
    && |rs| == |lines|
    && TotalsAre(totals, |lines|)
    && totals.enqueued == ExpectedMessages(plan) + |plan|
    && CountsFromOne(CollectionIds(rs), |lines|)
    && CountsFromOne(SortBy(QueueIds(rs), Ascending()), |lines|)
    && (forall r :: r in rs ==> r.own)
    && |Keys(rs)| == Unique(Keys(rs))
    && |sids| == |plan|
    && (forall sid :: sid in sids ==> SessionPasses(rs, sid))
    && multiset(Signatures(rs, sids)) == multiset(ExpectedSignatures(plan))
  }

  /** The counters that the report shows; of these the audit requires only that the invalid and the duplicate ones are
      zero. */
  datatype Counters = Counters(invalid: nat, duplicates: nat, missingMessages: nat, missingSummaries: nat, unexpected: nat)

  function Excess(a: int, b: int): nat { if a > b then a - b else 0 }

  function CountersOf(lines: seq<Option<Record>>, plan: seq<Planned>): Counters
  {
    var rs := Valid(lines);
    var keys := Keys(rs);
    var messages, summaries := Unique(Filter(keys, MessageKey())), Unique(Filter(keys, SummaryKey()));
    Counters(
      Excess(|lines|, |rs|),
      Excess(|keys|, Unique(keys)),
      Excess(ExpectedMessages(plan), messages),
      Excess(|plan|, summaries),
      Excess(messages, ExpectedMessages(plan)) + Excess(summaries, |plan|))
  }

  lemma {:induction false} UniqueMeansNoRepeat<T>(s: seq<T>)
    ensures Unique(s) <= |s|
    ensures |s| == Unique(s) <==> NoRepeat(s)
  {
    if s != [] {
      var t, x := Init(s), Last(s);
      UniqueMeansNoRepeat(t);
      assert s == t + [x];
      assert (set y | y in s) == (set y | y in t) + {x};
      assert x in (set y | y in t) <==> x in t;
    } else {
      assert (set y | y in s) == {};
    }
  }

  function Below(n: nat): (s: set<int>)
    ensures |s| == n && forall i :: i in s <==> 0 <= i < n
  {
    if n == 0 then {} else Below(n - 1) + {n - 1}
  }

  lemma SubsetOfSameSize<T>(a: set<T>, b: set<T>)
    requires a <= b && |a| == |b|
    ensures a == b
  {
    assert b == a + (b - a);
    assert |b - a| == 0;
  }

  /** Different numbers below n, n of them, are all the numbers below n. */
  lemma IndicesFillTheRange(ids: seq<int>, n: nat)
    requires |ids| == n && NoRepeat(ids) && forall i :: i in ids ==> 0 <= i < n
    ensures (set i | i in ids) == Below(n)
    ensures forall i :: 0 <= i < n ==> i in ids
  {
    UniqueMeansNoRepeat(ids);
    SubsetOfSameSize((set i | i in ids), Below(n));
    forall i | 0 <= i < n ensures i in ids { assert i in Below(n); }
  }
}

/** What a passing audit means for counters that it never requires, and for the plan. */
module AuditSoundness {
  import opened Seqs
  import opened Sorting
  import opened AuditLogic
  import S = TrafficSession
  import T = TrafficPlan
  import Wire

  lemma {:induction false} FilterKeeps<T>(s: seq<T>, keep: T -> bool)
    ensures forall x :: x in Filter(s, keep) <==> x in s && keep(x)
    ensures NoRepeat(s) ==> NoRepeat(Filter(s, keep))
  {
    if s != [] {
      assert s == Init(s) + [Last(s)];
      FilterKeeps(Init(s), keep);
    }
  }

  function IsMessage(): Record -> bool { (r: Record) => r.payload.Message? }

  function IsSummary(): Record -> bool { (r: Record) => r.payload.Summary? }

  lemma {:induction false} KeysByKind(rs: seq<Record>)
    ensures |Filter(Keys(rs), MessageKey())| == Count(rs, IsMessage())
    ensures |Filter(Keys(rs), SummaryKey())| == Count(rs, IsSummary())
  {
    if rs != [] {
      KeysByKind(Init(rs));
      assert Init(Keys(rs)) == Keys(Init(rs)) && Last(Keys(rs)) == KeyOf(Last(rs));
    }
  }

  function SumMessages(rs: seq<Record>, sids: seq<int>): nat
  {
    if sids == [] then 0 else SumMessages(rs, Init(sids)) + |Filter(rs, InSession(Last(sids)))|
  }

  function SumSummaries(rs: seq<Record>, sids: seq<int>): nat
  {
    if sids == [] then 0 else SumSummaries(rs, Init(sids)) + |Filter(rs, Summarises(Last(sids)))|
  }

  lemma {:induction false} OneRecordMore(rs: seq<Record>, r: Record, sids: seq<int>)
    requires NoRepeat(sids)
    ensures SumMessages(rs + [r], sids) == SumMessages(rs, sids) + if r.payload.Message? && r.sessionId in sids then 1 else 0
    ensures SumSummaries(rs + [r], sids) == SumSummaries(rs, sids) + if r.payload.Summary? && r.sessionId in sids then 1 else 0
  {
    if sids != [] {
      assert sids == Init(sids) + [Last(sids)];
      OneRecordMore(rs, r, Init(sids));
      FilterAppend(rs, r, InSession(Last(sids)));
      FilterAppend(rs, r, Summarises(Last(sids)));
    }
  }

  lemma {:induction false} NoRecords(sids: seq<int>)
    ensures SumMessages([], sids) == 0 && SumSummaries([], sids) == 0
  {
    if sids != [] { NoRecords(Init(sids)); }
  }

  /** Sessions cut the records: sums over distinct covering sessions are counts over all records. */
  lemma {:induction false} SessionsPartitionRecords(rs: seq<Record>, sids: seq<int>)
    requires NoRepeat(sids) && forall r :: r in rs ==> r.sessionId in sids
    ensures SumMessages(rs, sids) == Count(rs, IsMessage())
    ensures SumSummaries(rs, sids) == Count(rs, IsSummary())
  {
    if rs == [] {
      NoRecords(sids);
    } else {
      assert rs == Init(rs) + [Last(rs)];
      SessionsPartitionRecords(Init(rs), sids);
      OneRecordMore(Init(rs), Last(rs), sids);
    }
  }

  function SumFrames(s: seq<Signature>): nat
  {
    if s == [] then 0 else SumFrames(Init(s)) + |Last(s).frames|
  }

  lemma {:induction false} SumFramesAppend(a: seq<Signature>, b: seq<Signature>)
    ensures SumFrames(a + b) == SumFrames(a) + SumFrames(b)
  {
    if b == [] {
      assert a + b == a;
    } else {
      assert Init(a + b) == a + Init(b) && Last(a + b) == Last(b);
      SumFramesAppend(a, Init(b));
    }
  }

  lemma Without<T>(s: seq<T>, i: nat)
    requires i < |s|
    ensures multiset(s[..i] + s[i + 1..]) == multiset(s) - multiset{s[i]}
  {
    assert s == s[..i] + [s[i]] + s[i + 1..];
  }

  lemma {:induction false} SameBagSameSum(a: seq<Signature>, b: seq<Signature>)
    requires multiset(a) == multiset(b)
    ensures SumFrames(a) == SumFrames(b)
    decreases |a|
  {
    if a == [] {
      assert |multiset(b)| == 0;
    } else {
      var i := FindLast(a, b);
      SameBagSameSum(Init(a), b[..i] + b[i + 1..]);
      SumWithout(b, i);
    }
  }

  /** Two equal bags stay equal when the last of one and its like in the other are taken out. */
  lemma FindLast<T>(a: seq<T>, b: seq<T>) returns (i: nat)
    requires a != [] && multiset(a) == multiset(b)
    ensures i < |b| && b[i] == Last(a)
    ensures multiset(Init(a)) == multiset(b[..i] + b[i + 1..])
  {
    var x := Last(a);
    assert a == Init(a) + [x];
    assert x in multiset(b);
    i :| 0 <= i < |b| && b[i] == x;
    Without(b, i);
  }

  lemma SumWithout(b: seq<Signature>, i: nat)
    requires i < |b|
    ensures SumFrames(b) == SumFrames(b[..i] + b[i + 1..]) + |b[i].frames|
  {
    SumFramesAppend(b[..i], b[i + 1..]);
    SumFramesAppend(b[..i] + [b[i]], b[i + 1..]);
    SumFramesAppend(b[..i], [b[i]]);
    assert b == b[..i] + [b[i]] + b[i + 1..];
    assert Init([b[i]]) == [];
  }

  /** A one-to-one matching: member i of `a` equals member p[i] of `b`. */
  ghost predicate Matching<T>(a: seq<T>, b: seq<T>, p: seq<nat>)
  {
    && |p| == |a| == |b|
    && (forall i :: 0 <= i < |p| ==> p[i] < |b| && b[p[i]] == a[i])
    && NoRepeat(p)
  }

  function Skip(i: nat, k: nat): nat { if k < i then k else k + 1 }

  lemma {:induction false} SameBagMatches<T>(a: seq<T>, b: seq<T>) returns (p: seq<nat>)
    requires multiset(a) == multiset(b)
    ensures Matching(a, b, p)
    decreases |a|
  {
    if a == [] {
      assert |multiset(b)| == 0;
      p := [];
    } else {
      var i := FindLast(a, b);
      var q := SameBagMatches(Init(a), b[..i] + b[i + 1..]);
      p := ExtendMatching(a, b, i, q);
    }
  }

  lemma ExtendMatching<T>(a: seq<T>, b: seq<T>, i: nat, q: seq<nat>) returns (p: seq<nat>)
    requires a != [] && i < |b| && b[i] == Last(a) && Matching(Init(a), b[..i] + b[i + 1..], q)
    ensures Matching(a, b, p)
  {
    p := seq(|q|, k requires 0 <= k < |q| => Skip(i, q[k])) + [i];
    forall k | 0 <= k < |q| ensures p[k] < |b| && b[p[k]] == a[k] {
      assert (b[..i] + b[i + 1..])[q[k]] == Init(a)[k];
    }
  }

  ghost predicate Signs(rs: seq<Record>, sid: int, signature: Signature)
  {
    |Summaries(rs, sid)| == 1 && signature == SignatureOf(Messages(rs, sid), Summaries(rs, sid)[0])
  }

  /** In a passing run every session contributes one signature, with its own messages' frames. */
  lemma {:induction false} EverySessionSigns(rs: seq<Record>, sids: seq<int>)
    requires forall sid :: sid in sids ==> SessionPasses(rs, sid)
    ensures |Signatures(rs, sids)| == |sids|
    ensures SumFrames(Signatures(rs, sids)) == SumMessages(rs, sids)
    ensures SumSummaries(rs, sids) == |sids|
    ensures forall i :: 0 <= i < |sids| ==> Signs(rs, sids[i], Signatures(rs, sids)[i])
  {
    hide Messages, SignatureOf, Numbered, Grows, SummaryAgrees;
    if sids != [] {
      var before, sid := Init(sids), Last(sids);
      assert sids == before + [sid];
      EverySessionSigns(rs, before);
      OneSignature(rs, sid);
      var signature := SignatureOf(Messages(rs, sid), Summaries(rs, sid)[0]);
      assert Signatures(rs, sids) == Signatures(rs, before) + [signature];
      SumFramesAppend(Signatures(rs, before), [signature]);
      assert Init([signature]) == [];
    }
  }

  lemma OneSignature(rs: seq<Record>, sid: int)
    requires SessionPasses(rs, sid)
    ensures |Summaries(rs, sid)| == 1
    ensures |SignatureOf(Messages(rs, sid), Summaries(rs, sid)[0]).frames| == |Filter(rs, InSession(sid))|
  {}

  lemma {:induction false} PlanFrames(plan: seq<Planned>)
    ensures SumFrames(ExpectedSignatures(plan)) == ExpectedMessages(plan)
  {
    if plan != [] {
      PlanFrames(Init(plan));
      assert Init(ExpectedSignatures(plan)) == ExpectedSignatures(Init(plan));
    }
  }

  lemma UniqueOfKind(rs: seq<Record>)
    requires |Keys(rs)| == Unique(Keys(rs))
    ensures Unique(Filter(Keys(rs), MessageKey())) == Count(rs, IsMessage())
    ensures Unique(Filter(Keys(rs), SummaryKey())) == Count(rs, IsSummary())
  {
    UniqueMeansNoRepeat(Keys(rs));
    FilterKeeps(Keys(rs), MessageKey());
    FilterKeeps(Keys(rs), SummaryKey());
    UniqueMeansNoRepeat(Filter(Keys(rs), MessageKey()));
    UniqueMeansNoRepeat(Filter(Keys(rs), SummaryKey()));
    KeysByKind(rs);
  }

  function One(b: bool): nat { if b then 1 else 0 }

  /** One line more: invalid, or a record that was seen before, or a new message, or a new summary. */
  ghost predicate CountersMove(before: Counters, after: Counters, valid: bool, seen: bool, message: bool)
  {
    && after.invalid == before.invalid + One(!valid)
    && after.duplicates == before.duplicates + One(valid && seen)
    && after.missingMessages == before.missingMessages - One(valid && !seen && message && before.missingMessages > 0)
    && after.missingSummaries == before.missingSummaries - One(valid && !seen && !message && before.missingSummaries > 0)
    && after.unexpected == before.unexpected
       + One(valid && !seen && message && before.missingMessages == 0)
       + One(valid && !seen && !message && before.missingSummaries == 0)
  }

  /** A line more, told by what it is: one that does not validate is counted as invalid and as nothing else; a record
      whose session, kind and number came before is counted as a duplicate and as nothing else; a new message or summary
      makes up for one that is missing, and is unexpected once none is. */
  ghost predicate CountedOnce(before: Counters, after: Counters, lines: seq<Option<Record>>, line: Option<Record>)
  {
    if line.None? then CountersMove(before, after, false, false, false)
    else
      CountersMove(before, after, true, SeenBefore(Valid(lines), line.value), line.value.payload.Message?)
  }

  predicate Repeats(q: Record, r: Record)
  {
    && q.sessionId == r.sessionId && q.payload.Message? == r.payload.Message?
    && (q.payload.Message? && r.payload.Message? ==> q.payload.index == r.payload.index)
  }

  ghost predicate SeenBefore(rs: seq<Record>, r: Record)
  {
    exists q :: q in rs && Repeats(q, r)
  }

  lemma FromInvalid(l: nat, v: nat, u: nat, m: nat, s: nat, e: nat, p: nat)
    requires u <= v <= l
    ensures CountersMove(CountersFrom(l, v, u, m, s, e, p), CountersFrom(l + 1, v, u, m, s, e, p), false, false, false)
  {}

  lemma FromRecord(l: nat, v: nat, u: nat, m: nat, s: nat, e: nat, p: nat, seen: bool, message: bool, u': nat, m': nat,
      s': nat)
    requires u <= v <= l && u' == u + (if seen then 0 else 1)
    requires m' == m + (if !seen && message then 1 else 0) && s' == s + (if !seen && !message then 1 else 0)
    ensures CountersMove(CountersFrom(l, v, u, m, s, e, p), CountersFrom(l + 1, v + 1, u', m', s', e, p), true, seen, message)
  {}

  lemma UniqueMore<T>(s: seq<T>, x: T)
    ensures Unique(s + [x]) == Unique(s) + if x in s then 0 else 1
    ensures Unique(s) <= |s|
  {
    UniqueMeansNoRepeat(s);
    var before, after := set y | y in s, set y | y in s + [x];
    if x in s {
      assert after == before;
    } else {
      assert x !in before && after == before + {x};
    }
  }

  lemma UniqueOfKindMore(keys: seq<Key>, key: Key, kind: Key -> bool)
    ensures Unique(Filter(keys + [key], kind)) == Unique(Filter(keys, kind)) + if kind(key) && key !in keys then 1 else 0
  {
    FilterAppend(keys, key, kind);
    FilterKeeps(keys, kind);
    if kind(key) {
      UniqueMore(Filter(keys, kind), key);
    } else {
      assert Filter(keys + [key], kind) == Filter(keys, kind);
    }
  }

  lemma ValidMore(lines: seq<Option<Record>>, line: Option<Record>)
    ensures Valid(lines + [line]) == Valid(lines) + if line.Some? then [line.value] else []
    ensures |Valid(lines)| <= |lines|
  {
    assert Init(lines + [line]) == lines;
    AtMostAllValid(lines);
  }

  lemma {:induction false} AtMostAllValid(lines: seq<Option<Record>>)
    ensures |Valid(lines)| <= |lines|
  {
    if lines != [] { AtMostAllValid(Init(lines)); }
  }

  lemma SeenMeans(rs: seq<Record>, r: Record)
    ensures KeyOf(r) in Keys(rs) <==> SeenBefore(rs, r)
    ensures Keys(rs + [r]) == Keys(rs) + [KeyOf(r)]
  {
    if KeyOf(r) in Keys(rs) {
      var i :| 0 <= i < |rs| && Keys(rs)[i] == KeyOf(r);
      assert rs[i] in rs && Repeats(rs[i], r);
    }
    if SeenBefore(rs, r) {
      var q :| q in rs && Repeats(q, r);
      var i :| 0 <= i < |rs| && rs[i] == q;
      assert Keys(rs)[i] == KeyOf(r);
    }
  }

  function CountersFrom(lines: nat, valid: nat, unique: nat, messages: nat, summaries: nat, expected: nat, planned: nat)
    : Counters
  {
    Counters(Excess(lines, valid), Excess(valid, unique), Excess(expected, messages), Excess(planned, summaries),
             Excess(messages, expected) + Excess(summaries, planned))
  }

  lemma CountersAre(lines: seq<Option<Record>>, plan: seq<Planned>)
    ensures
      var keys := Keys(Valid(lines));
      && CountersOf(lines, plan) ==
         CountersFrom(|lines|, |Valid(lines)|, Unique(keys), Unique(Filter(keys, MessageKey())),
                      Unique(Filter(keys, SummaryKey())), ExpectedMessages(plan), |plan|)
      && Unique(keys) <= |Valid(lines)| <= |lines|
  {
    AtMostAllValid(lines);
    UniqueMeansNoRepeat(Keys(Valid(lines)));
    hide Valid, Unique, Filter, ExpectedMessages;
  }

  lemma InvalidLineCounts(lines: seq<Option<Record>>, plan: seq<Planned>)
    ensures CountersMove(CountersOf(lines, plan), CountersOf(lines + [None], plan), false, false, false)
  {
    hide *;
    ValidMore(lines, None);
    var rs := Valid(lines);
    assert Valid(lines + [None]) == rs;
    CountersAre(lines, plan);
    CountersAre(lines + [None], plan);
    FromInvalid(|lines|, |rs|, Unique(Keys(rs)), Unique(Filter(Keys(rs), MessageKey())),
                Unique(Filter(Keys(rs), SummaryKey())), ExpectedMessages(plan), |plan|);
  }

  lemma RecordLineCounts(lines: seq<Option<Record>>, r: Record, plan: seq<Planned>)
    ensures CountersMove(CountersOf(lines, plan), CountersOf(lines + [Some(r)], plan), true, SeenBefore(Valid(lines), r),
                         r.payload.Message?)
  {
    hide *;
    ValidMore(lines, Some(r));
    var rs, now := Valid(lines), Valid(lines) + [r];
    CountersAre(lines, plan);
    CountersAre(lines + [Some(r)], plan);
    RecordCounts(rs, r);
    FromRecord(|lines|, |rs|, Unique(Keys(rs)), Unique(Filter(Keys(rs), MessageKey())),
               Unique(Filter(Keys(rs), SummaryKey())), ExpectedMessages(plan), |plan|, SeenBefore(rs, r),
               r.payload.Message?, Unique(Keys(now)), Unique(Filter(Keys(now), MessageKey())),
               Unique(Filter(Keys(now), SummaryKey())));
  }

  /** The five counters of any run, passing or not, line by line from an empty file, of which every planned message and
      summary is missing. */
  lemma CountersCountLines(lines: seq<Option<Record>>, line: Option<Record>, plan: seq<Planned>)
    ensures CountersOf([], plan) == Counters(0, 0, ExpectedMessages(plan), |plan|, 0)
    ensures CountedOnce(CountersOf(lines, plan), CountersOf(lines + [line], plan), lines, line)
  {
    NoCounters(plan);
    if line.Some? { RecordLineCounts(lines, line.value, plan); } else { InvalidLineCounts(lines, plan); }
    hide CountersOf, CountersMove;
  }

  lemma RecordCounts(rs: seq<Record>, r: Record)
    ensures
      var before, after := Keys(rs), Keys(rs + [r]);
      var seen := SeenBefore(rs, r);
      && Unique(after) == Unique(before) + (if seen then 0 else 1)
      && Unique(Filter(after, MessageKey())) == Unique(Filter(before, MessageKey())) + (if !seen && r.payload.Message? then 1 else 0)
      && Unique(Filter(after, SummaryKey())) == Unique(Filter(before, SummaryKey())) + (if !seen && r.payload.Summary? then 1 else 0)
  {
    SeenMeans(rs, r);
    UniqueMore(Keys(rs), KeyOf(r));
    UniqueOfKindMore(Keys(rs), KeyOf(r), MessageKey());
    UniqueOfKindMore(Keys(rs), KeyOf(r), SummaryKey());
    hide Unique, Filter, Keys, SeenBefore;
  }

  lemma NoCounters(plan: seq<Planned>)
    ensures CountersOf([], plan) == Counters(0, 0, ExpectedMessages(plan), |plan|, 0)
  {
    assert Keys([]) == [];
    var none: set<Key> := set k | k in Keys([]);
    assert none == {};
  }

  /** A passing run has nothing invalid, doubled, missing or unexpected, although only the first two are required to
      be none: the rest follows from the numbering and the signatures. */
  lemma PassingRunsHaveCleanCounters(e: Evidence, lines: seq<Option<Record>>, totals: Totals, plan: seq<Planned>)
    requires RunPasses(e, lines, totals, plan)
    ensures CountersOf(lines, plan) == Counters(0, 0, 0, 0, 0)
  {
    var rs := Valid(lines);
    var sids := Sessions(rs);
    hide Valid, Sessions, Signatures, SessionPasses, Keys, Unique, ExpectedSignatures, ExpectedMessages, SumFrames;
    UniqueOfKind(rs);
    SessionsPartitionRecords(rs, sids);
    EverySessionSigns(rs, sids);
    SameBagSameSum(Signatures(rs, sids), ExpectedSignatures(plan));
    PlanFrames(plan);
    hide SumMessages, SumSummaries, Filter, Count, SortBy, QueueIds;
    assert |rs| == |lines|;
  }

  predicate IsMessageOf(rs: seq<Record>, sid: int, r: Record) { r in rs && r.sessionId == sid && r.payload.Message? }

  /** None of the four running values falls. */
  predicate NoLess(q: Record, r: Record)
    requires q.payload.Message? && r.payload.Message?
  {
    && q.payload.duration <= r.payload.duration && q.payload.received <= r.payload.received
    && q.payload.sent <= r.payload.sent && q.payload.errors <= r.payload.errors
  }

  lemma {:induction false} GrowsThroughout(ms: seq<Record>, i: nat, j: nat)
    requires Grows(ms) && i <= j < |ms| && forall r :: r in ms ==> r.payload.Message?
    ensures ms[i].payload.Message? && ms[j].payload.Message? && NoLess(ms[i], ms[j])
    decreases j
  {
    assert ms[i] in ms && ms[j] in ms;
    if i < j {
      GrowsThroughout(ms, i, j - 1);
      assert ms[j - 1] in ms;
    }
  }

  /** A message of the session stands in the sorted list at its own number. */
  lemma MessageStandsAtItsNumber(rs: seq<Record>, sid: int, r: Record)
    requires Numbered(Messages(rs, sid)) && IsMessageOf(rs, sid, r)
    ensures 1 <= r.payload.index <= |Messages(rs, sid)| && Messages(rs, sid)[r.payload.index - 1] == r
  {
    FilterKeeps(rs, InSession(sid));
    SortMembers(Filter(rs, InSession(sid)), ByIndex());
    var ms := Messages(rs, sid);
    assert r in ms;
    var i :| 0 <= i < |ms| && ms[i] == r;
    hide Filter, SortBy;
  }

  lemma MessagesAreTheSessions(rs: seq<Record>, sid: int)
    ensures forall r :: r in Messages(rs, sid) <==> IsMessageOf(rs, sid, r)
  {
    FilterKeeps(rs, InSession(sid));
    SortMembers(Filter(rs, InSession(sid)), ByIndex());
    hide Filter, SortBy;
  }

  ghost predicate HasNumber(rs: seq<Record>, sid: int, k: int)
  {
    exists m :: IsMessageOf(rs, sid, m) && m.payload.index == k
  }

  predicate IsAbove(s: Record, r: Record)
  {
    s.payload.Summary? && r.payload.Message? && r.payload.duration <= s.payload.duration
    && r.payload.received <= s.payload.received && r.payload.sent <= s.payload.sent
  }

  lemma SummaryIsAbove(ms: seq<Record>, s: Record, i: nat)
    requires SummaryAgrees(ms, s) && Grows(ms) && i < |ms| && forall r :: r in ms ==> r.payload.Message?
    ensures s.payload.requestCount == |ms| && IsAbove(s, ms[i])
  {
    hide Close, SumIntervals, Grows;
    GrowsThroughout(ms, i, |ms| - 1);
  }

  lemma EveryNumberOccurs(rs: seq<Record>, sid: int, k: int)
    requires Numbered(Messages(rs, sid)) && 1 <= k <= |Messages(rs, sid)|
    ensures HasNumber(rs, sid, k)
  {
    MessagesAreTheSessions(rs, sid);
    hide Messages;
    assert Messages(rs, sid)[k - 1] in Messages(rs, sid);
  }

  /** What a session that passes is like, told over its records in whatever order they were collected: for every number
      from 1 to the summary's count there is one message, no value of a message is below that of an earlier one, and
      none is above the summary's. */
  lemma PassingSessionMeans(rs: seq<Record>, sid: int, s: Record, q: Record, r: Record)
    requires SessionPasses(rs, sid) && Summaries(rs, sid) == [s] && IsMessageOf(rs, sid, q) && IsMessageOf(rs, sid, r)
    ensures IsAbove(s, r) && 1 <= r.payload.index <= s.payload.requestCount
    ensures q.payload.index == r.payload.index ==> q == r
    ensures q.payload.index < r.payload.index ==> NoLess(q, r)
    ensures forall k :: 1 <= k <= s.payload.requestCount ==> HasNumber(rs, sid, k)
  {
    hide Messages, Summaries, SummaryAgrees, Grows, Numbered, HasNumber, NoLess;
    var ms := Messages(rs, sid);
    assert Numbered(ms) && Grows(ms) && SummaryAgrees(ms, s);
    MessageStandsAtItsNumber(rs, sid, q);
    MessageStandsAtItsNumber(rs, sid, r);
    MessagesAreTheSessions(rs, sid);
    SummaryIsAbove(ms, s, r.payload.index - 1);
    if q.payload.index < r.payload.index { GrowsThroughout(ms, q.payload.index - 1, r.payload.index - 1); }
    forall k | 1 <= k <= |ms| ensures HasNumber(rs, sid, k) { EveryNumberOccurs(rs, sid, k); }
  }

  /** A passing run matches planned clients and server sessions one to one: frames in order, counts, errors,
      last error and bytes agree. */
  lemma PassingRunsMatchThePlan(e: Evidence, lines: seq<Option<Record>>, totals: Totals, plan: seq<Planned>)
      returns (p: seq<nat>)
    requires RunPasses(e, lines, totals, plan)
    ensures
      var rs := Valid(lines);
      var sids := Sessions(rs);
      && |p| == |plan| == |sids| && NoRepeat(p) && NoRepeat(sids)
      && forall i :: 0 <= i < |plan| ==>
           && p[i] < |sids|
           && Signs(rs, sids[p[i]], ExpectedSignature(plan[i]))
  {
    var rs := Valid(lines);
    var sids := Sessions(rs);
    hide Valid, Sessions, SessionPasses, Keys, Unique, Signatures, SignatureOf, ExpectedSignature, Messages, Summaries;
    EverySessionSigns(rs, sids);
    p := SameBagMatches(ExpectedSignatures(plan), Signatures(rs, sids));
  }

  lemma {:induction false} PlacesOf(ids: seq<int>, n: nat) returns (q: seq<nat>)
    requires forall i :: 0 <= i < n ==> i in ids
    ensures |q| == n && forall i :: 0 <= i < n ==> q[i] < |ids| && ids[q[i]] == i
  {
    if n == 0 {
      q := [];
    } else {
      var before := PlacesOf(ids, n - 1);
      assert n - 1 in ids;
      var k :| 0 <= k < |ids| && ids[k] == n - 1;
      q := before + [k];
    }
  }

  /** Every planned index has its client. */
  lemma EveryPlannedClientReported(clients: seq<Client>, plan: seq<Planned>, explicit: bool) returns (q: seq<nat>)
    requires ClientsPass(clients, plan, explicit)
    ensures |q| == |plan| && NoRepeat(q)
    ensures forall i :: 0 <= i < |plan| ==> q[i] < |clients| && clients[q[i]].index == i
  {
    hide Served;
    IndicesFillTheRange(Indices(clients), |plan|);
    q := PlacesOf(Indices(clients), |plan|);
  }

  /** End to end: in a passing run every client has its own server session, and that session received exactly the
      bytes the client reports as sent and reported exactly the messages planned for it. */
  lemma ClientsMeetTheirSessions(e: Evidence, lines: seq<Option<Record>>, totals: Totals, plan: seq<Planned>)
      returns (p: seq<nat>, q: seq<nat>)
    requires RunPasses(e, lines, totals, plan)
    ensures |p| == |q| == |plan| == |e.clients| && NoRepeat(p) && NoRepeat(q)
    ensures
      var rs := Valid(lines);
      forall i :: 0 <= i < |plan| ==>
        && p[i] < |Sessions(rs)| && q[i] < |e.clients| && e.clients[q[i]].index == i
        && ReceivedFrom(rs, Sessions(rs)[p[i]], e.clients[q[i]], plan[i])
  {
    p := PassingRunsMatchThePlan(e, lines, totals, plan);
    q := EveryPlannedClientReported(e.clients, plan, e.explicit);
    var rs, sids := Valid(lines), Sessions(Valid(lines));
    hide Valid, Sessions, SessionPasses, Keys, Unique, Signatures, Signs, SortBy, QueueIds, T.WireSize, EvidenceOk;
    forall i | 0 <= i < |plan| ensures ReceivedFrom(rs, sids[p[i]], e.clients[q[i]], plan[i]) {
      assert Served(e.clients[q[i]], plan[i], e.explicit);
    }
  }

  /** The session has one summary; frames, count, errors and bytes are those of the client and its plan. */
  ghost predicate ReceivedFrom(rs: seq<Record>, sid: int, c: Client, p: Planned)
  {
    c.bytesSent >= 0 && Signs(rs, sid, Signature(p.messages, |p.messages|, p.errorCount, p.lastError, c.bytesSent))
  }

  /** What a passing session of the generator reports. */
  function ClientOf(index: int, log: S.Log, p: T.Profile): Client
  {
    Client(index, true, true, log.framesSent, |Wire.Concat(log.sends)|, log.responses, T.TransportControls(p), |log.sends|,
           log.groups, true)
  }

  /** Generator meets auditor: a session that the send loop passes is served in the sense of the audit. */
  lemma PassingSessionIsServed(index: int, log: S.Log, profile: T.Profile, p: Planned, explicit: bool)
    requires p.controls == T.TransportControls(profile) && p.responses in {0, |p.frames|}
    requires S.Delivered(log, p.frames, profile, p.responses != 0)
    ensures Served(ClientOf(index, log, profile), p, explicit)
  {
    hide T.ExpectedSendCalls, T.PlannedSendGroups, T.TransportControls;
    assert |T.WireOf(p.frames)| == T.WireSize(p.frames);
  }

  /** The queue ids of a passing run are exactly 1..n, each once, and so are the collection ids in file order. */
  lemma PassingRunsAreNumbered(e: Evidence, lines: seq<Option<Record>>, totals: Totals, plan: seq<Planned>)
    requires RunPasses(e, lines, totals, plan)
    ensures var rs := Valid(lines); |rs| == |lines| == totals.enqueued
    ensures forall i :: 0 <= i < |Valid(lines)| ==> Valid(lines)[i].collectionId == i + 1
    ensures NoRepeat(QueueIds(Valid(lines)))
    ensures forall k :: k in QueueIds(Valid(lines)) <==> 1 <= k <= |lines|
  {
    NumbersFillTheRange(QueueIds(Valid(lines)), |lines|);
    hide Valid, Sessions, SessionPasses, Keys, Unique, Signatures, QueueIds, ClientsPass, EvidenceOk;
  }

  lemma NumbersFillTheRange(ids: seq<int>, n: nat)
    ensures CountsFromOne(SortBy(ids, Ascending()), n) ==> NoRepeat(ids) && forall k :: k in ids <==> 1 <= k <= n
  {
    var sorted := SortBy(ids, Ascending());
    SortMembers(ids, Ascending());
    NoRepeatIsMultiplicity(sorted);
    NoRepeatIsMultiplicity(ids);
    hide SortBy, Ascending;
    if CountsFromOne(sorted, n) {
      forall k | 1 <= k <= n ensures k in ids { assert sorted[k - 1] == k; }
    }
  }
}

/** `audit_run`: parse the lines, group the records by session, check and count. */
module RunAudit {
  import opened Seqs
  import opened Sorting
  import opened AuditLogic
  import T = TrafficPlan

  datatype Group = Group(messages: seq<Record>, summaries: seq<Record>)

  /** `require`: a failed condition adds an issue. */
  function Noted(issues: nat, condition: bool): nat { if condition then issues else issues + 1 }

  /** The dictionary of client results: a later result replaces an earlier one with its index. */
  function ClientsByIndex(clients: seq<Client>): map<int, Client>
  {
    if clients == [] then map[] else ClientsByIndex(Init(clients))[Last(clients).index := Last(clients)]
  }

  lemma {:induction false} IndexedClients(clients: seq<Client>)
    ensures ClientsByIndex(clients).Keys == set i | i in Indices(clients)
    ensures NoRepeat(Indices(clients)) ==>
      var m := ClientsByIndex(clients);
      forall k :: 0 <= k < |clients| ==> clients[k].index in m && m[clients[k].index] == clients[k]
  {
    if clients != [] {
      var before, c := Init(clients), Last(clients);
      IndexedClients(before);
      assert Indices(clients) == Indices(before) + [c.index];
    }
  }

  method IndexClients(clients: seq<Client>) returns (byIndex: map<int, Client>)
    ensures byIndex == ClientsByIndex(clients)
  {
    byIndex := map[];
    for k := 0 to |clients|
      invariant byIndex == ClientsByIndex(clients[..k])
    {
      assert Init(clients[..k + 1]) == clients[..k];
      byIndex := byIndex[clients[k].index := clients[k]];
    }
    assert clients[..|clients|] == clients;
  }

  method CheckClient(c: Client, p: Planned, explicit: bool) returns (issues: nat)
    ensures issues == 0 <==> Served(c, p, explicit)
  {
    issues := Noted(0, c.passed && c.connected);
    issues := Noted(issues, c.framesSent == |p.frames|);
    issues := Noted(issues, c.bytesSent == T.WireSize(p.frames));
    issues := Noted(issues, c.responses == p.responses);
    if explicit {
      issues := Noted(issues, c.controls == p.controls);
      issues := Noted(issues, c.sendCalls == T.ExpectedSendCalls(p.frames, p.controls));
      issues := Noted(issues, c.groups == T.PlannedSendGroups(p.frames, p.controls));
      issues := Noted(issues, c.timed);
    }
  }

  lemma DictionarySize(clients: seq<Client>)
    ensures |ClientsByIndex(clients)| == |clients| <==> NoRepeat(Indices(clients))
  {
    IndexedClients(clients);
    UniqueMeansNoRepeat(Indices(clients));
  }

  /** What the checks of the dictionary and of its clients come to. */
  ghost predicate DictionaryPasses(clients: seq<Client>, plan: seq<Planned>, explicit: bool)
  {
    var m := ClientsByIndex(clients);
    && |clients| == |plan| && |m| == |clients| && m.Keys == Below(|plan|)
    && forall i :: 0 <= i < |plan| ==> i in m && Served(m[i], plan[i], explicit)
  }

  lemma PassingClientsFillTheDictionary(clients: seq<Client>, plan: seq<Planned>, explicit: bool)
    requires ClientsPass(clients, plan, explicit)
    ensures DictionaryPasses(clients, plan, explicit)
  {
    var ids, m := Indices(clients), ClientsByIndex(clients);
    IndexedClients(clients);
    DictionarySize(clients);
    IndicesFillTheRange(ids, |plan|);
    hide Served, ClientsByIndex;
    forall i | 0 <= i < |plan| ensures i in m && Served(m[i], plan[i], explicit) {
      assert i in ids;
      var k :| 0 <= k < |ids| && ids[k] == i;
      assert m[clients[k].index] == clients[k];
    }
  }

  lemma FullDictionaryPasses(clients: seq<Client>, plan: seq<Planned>, explicit: bool)
    requires DictionaryPasses(clients, plan, explicit)
    ensures ClientsPass(clients, plan, explicit)
  {
    var m := ClientsByIndex(clients);
    IndexedClients(clients);
    DictionarySize(clients);
    hide Served, ClientsByIndex, NoRepeat;
    forall k | 0 <= k < |clients|
      ensures 0 <= clients[k].index < |plan| && Served(clients[k], plan[clients[k].index], explicit)
    {
      assert clients[k].index in m.Keys;
      assert m[clients[k].index] == clients[k];
    }
  }

  method CheckClients(clients: seq<Client>, plan: seq<Planned>, explicit: bool) returns (issues: nat)
    ensures issues == 0 <==> ClientsPass(clients, plan, explicit)
  {
    if ClientsPass(clients, plan, explicit) { PassingClientsFillTheDictionary(clients, plan, explicit); }
    if DictionaryPasses(clients, plan, explicit) { FullDictionaryPasses(clients, plan, explicit); }
    hide Served, ClientsPass, ClientsByIndex;
    var byIndex := IndexClients(clients);
    issues := Noted(0, |clients| == |plan|);
    issues := Noted(issues, |byIndex| == |clients|);
    issues := Noted(issues, byIndex.Keys == Below(|plan|));
    var before := issues;
    for i := 0 to |plan|
      invariant issues >= before
      invariant issues == before <==> forall j :: 0 <= j < i ==> j in byIndex && Served(byIndex[j], plan[j], explicit)
    {
      if i in byIndex {
        var found := CheckClient(byIndex[i], plan[i], explicit);
        issues := issues + found;
      } else {
        issues := issues + 1;
      }
    }
  }

  method ParseLines(lines: seq<Option<Record>>) returns (records: seq<Record>, invalid: nat)
    ensures records == Valid(lines) && invalid == |lines| - |records|
  {
    records, invalid := [], 0;
    for i := 0 to |lines|
      invariant records == Valid(lines[..i]) && invalid == i - |records|
    {
      assert Init(lines[..i + 1]) == lines[..i];
      if lines[i].Some? {
        records := records + [lines[i].value];
      } else {
        invalid := invalid + 1;
      }
    }
    assert lines[..|lines|] == lines;
  }

  /** The groups of a prefix of the records, in insertion order. */
  ghost predicate GroupsHold(rs: seq<Record>, sids: seq<int>, groups: map<int, Group>)
  {
    && sids == Sessions(rs)
    && (forall sid :: sid in groups <==> sid in sids)
    && (forall sid :: sid in groups ==>
          groups[sid] == Group(Filter(rs, InSession(sid)), Filter(rs, Summarises(sid))))
  }

  function Put(groups: map<int, Group>, r: Record): map<int, Group>
  {
    var g := if r.sessionId in groups then groups[r.sessionId] else Group([], []);
    groups[r.sessionId := if r.payload.Message? then g.(messages := g.messages + [r]) else g.(summaries := g.summaries + [r])]
  }

  lemma {:induction false} NoneOfSession(rs: seq<Record>, sid: int)
    requires forall r :: r in rs ==> r.sessionId != sid
    ensures Filter(rs, InSession(sid)) == [] && Filter(rs, Summarises(sid)) == []
  {
    if rs != [] {
      assert rs == Init(rs) + [Last(rs)];
      NoneOfSession(Init(rs), sid);
    }
  }

  lemma PutKeepsGroups(rs: seq<Record>, sids: seq<int>, groups: map<int, Group>, r: Record)
    requires GroupsHold(rs, sids, groups)
    ensures GroupsHold(rs + [r], if r.sessionId in sids then sids else sids + [r.sessionId], Put(groups, r))
  {
    assert Init(rs + [r]) == rs;
    var after := Put(groups, r);
    if r.sessionId !in sids { NoneOfSession(rs, r.sessionId); }
    forall sid | sid in after
      ensures after[sid] == Group(Filter(rs + [r], InSession(sid)), Filter(rs + [r], Summarises(sid)))
    {
      FilterAppend(rs, r, InSession(sid));
      FilterAppend(rs, r, Summarises(sid));
    }
  }

  lemma NothingGrouped()
    ensures GroupsHold([], [], map[]) && Keys([]) == []
  {}

  lemma KeysAppend(rs: seq<Record>, r: Record)
    ensures Keys(rs + [r]) == Keys(rs) + [KeyOf(r)]
  {}

  method GroupRecords(rs: seq<Record>) returns (sids: seq<int>, groups: map<int, Group>, keys: seq<Key>, issues: nat)
    ensures GroupsHold(rs, sids, groups) && keys == Keys(rs)
    ensures issues == 0 <==> forall r :: r in rs ==> r.own
  {
    sids, groups, keys, issues := [], map[], [], 0;
    NothingGrouped();
    hide *;
    for i := 0 to |rs|
      invariant GroupsHold(rs[..i], sids, groups) && keys == Keys(rs[..i])
      invariant issues == 0 <==> forall r :: r in rs[..i] ==> r.own
    {
      assert rs[..i + 1] == rs[..i] + [rs[i]];
      PutKeepsGroups(rs[..i], sids, groups, rs[i]);
      KeysAppend(rs[..i], rs[i]);
      if !rs[i].own { issues := issues + 1; }
      if rs[i].sessionId !in sids { sids := sids + [rs[i].sessionId]; }
      groups := Put(groups, rs[i]);
      keys := keys + [KeyOf(rs[i])];
    }
    assert rs[..|rs|] == rs;
  }

  method CheckSession(ms: seq<Record>, summaries: seq<Record>) returns (signature: seq<Signature>, issues: nat)
    ensures signature == if |summaries| == 1 then [SignatureOf(ms, summaries[0])] else []
    ensures issues == 0 <==> |summaries| == 1 && Numbered(ms) && Grows(ms) && SummaryAgrees(ms, summaries[0])
  {
    hide Numbered, Grows, SummaryAgrees, SignatureOf;
    signature := [];
    issues := Noted(0, |summaries| == 1);
    issues := Noted(issues, Numbered(ms));
    issues := Noted(issues, Grows(ms));
    if |summaries| == 1 {
      issues := Noted(issues, SummaryAgrees(ms, summaries[0]));
      signature := [SignatureOf(ms, summaries[0])];
    }
  }

  lemma GroupOfSession(rs: seq<Record>, sids: seq<int>, groups: map<int, Group>, sid: int)
    requires GroupsHold(rs, sids, groups) && sid in sids
    ensures sid in groups
    ensures SortBy(groups[sid].messages, ByIndex()) == Messages(rs, sid) && groups[sid].summaries == Summaries(rs, sid)
  {}

  lemma OneSessionMore(rs: seq<Record>, sids: seq<int>, i: nat)
    requires i < |sids|
    ensures Signatures(rs, sids[..i + 1]) == Signatures(rs, sids[..i])
      + if |Summaries(rs, sids[i])| == 1 then [SignatureOf(Messages(rs, sids[i]), Summaries(rs, sids[i])[0])] else []
    ensures forall sid :: sid in sids[..i + 1] <==> sid in sids[..i] || sid == sids[i]
  {
    assert sids[..i + 1] == sids[..i] + [sids[i]];
    assert Init(sids[..i + 1]) == sids[..i];
  }

  method CheckSessions(rs: seq<Record>, sids: seq<int>, groups: map<int, Group>)
      returns (signatures: seq<Signature>, issues: nat)
    requires GroupsHold(rs, sids, groups)
    ensures signatures == Signatures(rs, sids)
    ensures issues == 0 <==> forall sid :: sid in sids ==> SessionPasses(rs, sid)
  {
    hide GroupsHold, Messages, Summaries, Numbered, Grows, SummaryAgrees, SignatureOf, SortBy;
    signatures, issues := [], 0;
    for i := 0 to |sids|
      invariant signatures == Signatures(rs, sids[..i])
      invariant issues == 0 <==> forall sid :: sid in sids[..i] ==> SessionPasses(rs, sid)
    {
      GroupOfSession(rs, sids, groups, sids[i]);
      OneSessionMore(rs, sids, i);
      var g := groups[sids[i]];
      var signature, found := CheckSession(SortBy(g.messages, ByIndex()), g.summaries);
      signatures, issues := signatures + signature, issues + found;
      assert found == 0 <==> SessionPasses(rs, sids[i]);
    }
    assert sids[..|sids|] == sids;
  }

  method CheckNames(found: Names, demanded: Names) returns (issues: nat)
    ensures issues == 0 <==> found == demanded
  {
    issues := Noted(0, found.run == demanded.run);
    issues := Noted(issues, found.scenario == demanded.scenario);
  }

  method CheckFixed(found: Fixed, demanded: Fixed) returns (issues: nat)
    ensures issues == 0 <==> found == demanded
  {
    issues := Noted(0, found.manifestCopy == demanded.manifestCopy);
    issues := Noted(issues, found.manifestDigest == demanded.manifestDigest);
    issues := Noted(issues, found.serverBuild == demanded.serverBuild);
    issues := Noted(issues, found.contractDigest == demanded.contractDigest);
    issues := Noted(issues, found.contractCopy == demanded.contractCopy);
    issues := Noted(issues, found.purpose == demanded.purpose);
  }

  method CheckPapers(d: Demands, p: Papers) returns (issues: nat)
    ensures issues == 0 <==> PapersOk(d, p)
  {
    issues := Noted(0, p.expectationsDigest == d.expectationsDigest);
    issues := Noted(issues, d.entryLabel == d.scenarioLabel);
    issues := Noted(issues, p.expectations == d.expectations);
    var manifest := CheckNames(p.manifest.names, d.names);
    var outcome := CheckNames(p.outcomeNames, d.names);
    var summary := CheckNames(p.summaryNames, d.names);
    var fixed := CheckFixed(p.manifest.fixed, d.fixed);
    issues := issues + manifest + outcome + summary + fixed;
    issues := Noted(issues, p.runtime.run == d.names.run);
    issues := Noted(issues, p.manifest.scenario == d.scenario);
    issues := Noted(issues, p.manifest.labelSource == d.labelSource);
    issues := Noted(issues, p.runtime.passed && p.runtime.serverGraceful && p.runtime.apiGraceful);
  }

  /** No more invalid lines than this become issues; all are counted. */
  const REPORTED_INVALID := 5

  method CheckEvidence(e: Evidence) returns (issues: nat)
    ensures issues == 0 <==> EvidenceOk(e)
  {
    issues := CheckPapers(e.demands, e.papers);
    issues := Noted(issues, e.traffic);
    issues := Noted(issues, e.complete);
    issues := Noted(issues, forall n :: n in e.lost ==> n == 0);
    issues := Noted(issues, e.endsWithNewline);
  }

  /** The audit passes exactly on `RunPasses`, and reports the counters of `CountersOf`. */
  method AuditRun(e: Evidence, lines: seq<Option<Record>>, totals: Totals, plan: seq<Planned>)
      returns (passed: bool, counters: Counters)
    ensures passed <==> RunPasses(e, lines, totals, plan)
    ensures counters == CountersOf(lines, plan)
  {
    var rs, invalid := ParseLines(lines);
    var n := |lines|;
    hide Valid, Sessions, Signatures, SessionPasses, Keys, GroupsHold, CountsFromOne, Unique, ExpectedMessages, Filter, ClientsPass,
         EvidenceOk;
    var issues := CheckEvidence(e);
    var unserved := CheckClients(e.clients, plan, e.explicit);
    issues := issues + unserved;
    issues := issues + Min(invalid, REPORTED_INVALID);
    issues := Noted(issues, TotalsAre(totals, n));
    issues := Noted(issues, totals.enqueued == ExpectedMessages(plan) + |plan|);
    issues := Noted(issues, CountsFromOne(CollectionIds(rs), n));
    issues := Noted(issues, CountsFromOne(SortBy(QueueIds(rs), Ascending()), n));
    var sids, groups, keys, foreign := GroupRecords(rs);
    SidsAreSessions(rs, sids, groups);
    issues := issues + foreign;
    var duplicates := Excess(|keys|, Unique(keys));
    issues := Noted(issues, |keys| == Unique(keys));
    var messages, summaries := Unique(Filter(keys, MessageKey())), Unique(Filter(keys, SummaryKey()));
    counters := Counters(invalid, duplicates, Excess(ExpectedMessages(plan), messages), Excess(|plan|, summaries),
                         Excess(messages, ExpectedMessages(plan)) + Excess(summaries, |plan|));
    issues := Noted(issues, |sids| == |plan|);
    var signatures, failed := CheckSessions(rs, sids, groups);
    issues := issues + failed;
    issues := Noted(issues, multiset(signatures) == multiset(ExpectedSignatures(plan)));
    passed := issues == 0;
  }

  lemma SidsAreSessions(rs: seq<Record>, sids: seq<int>, groups: map<int, Group>)
    requires GroupsHold(rs, sids, groups)
    ensures sids == Sessions(rs)
  {}
}
