/** The traffic generator: what a session plans to send, and the loop that sends it. */
module TrafficPlan {
  import opened Seqs
  import opened Wire

  datatype Scenario =
    | NormalChat
    | NormalFragmentedChat
    | NormalBatchedChat
    | ControlledBurstChat
    | MalformedChatPayload
    | MalformedLengthChat
    | InvalidFrameSize

  type Positive = x: int | x >= 1 witness 1

  /** The explicit batch and fragment sizes of a profile, where given. */
  datatype Profile = Profile(scenario: Scenario, batchSize: Option<Positive>, fragmentSize: Option<Positive>)

  datatype Controls = Controls(batchSize: Positive, fragmentSize: Option<Positive>)

  datatype Frame = Frame(wire: Bytes, intervalAfter: nat)

  datatype Group = Group(firstFrame: nat, frameCount: nat, wireSize: nat, waitAfter: nat)

  function TransportControls(p: Profile): Controls
  {
    Controls(
      if p.batchSize.Some? then p.batchSize.value
      else if p.scenario.NormalBatchedChat? || p.scenario.ControlledBurstChat? then 4 else 1,
      if !p.scenario.NormalFragmentedChat? then None
      else if p.fragmentSize.Some? then p.fragmentSize else Some(31))
  }

  function CeilDiv(a: nat, b: Positive): nat { (a + b - 1) / b }

  function WireSize(frames: seq<Frame>): nat
  {
    if frames == [] then 0 else WireSize(Init(frames)) + |Last(frames).wire|
  }

  function WireOf(frames: seq<Frame>): (b: Bytes)
    ensures |b| == WireSize(frames)
  {
    if frames == [] then [] else WireOf(Init(frames)) + Last(frames).wire
  }

  function GroupEnd(frames: seq<Frame>, start: nat, batch: Positive): nat
  {
    Min(start + batch, |frames|)
  }

  function SendsOf(size: nat, fragment: Option<Positive>): nat
  {
    if fragment.Some? then CeilDiv(size, fragment.value) else 1
  }

  /** The comprehension over range(start, len, batch): one term per group. */
  function SendCallsFrom(frames: seq<Frame>, c: Controls, start: nat): nat
    decreases |frames| - start
  {
    if start >= |frames| then 0
    else
      SendsOf(WireSize(frames[start..GroupEnd(frames, start, c.batchSize)]), c.fragmentSize)
      + SendCallsFrom(frames, c, start + c.batchSize)
  }

  function ExpectedSendCalls(frames: seq<Frame>, c: Controls): nat { SendCallsFrom(frames, c, 0) }

  function GroupAt(frames: seq<Frame>, batch: Positive, start: nat): Group
    requires start < |frames|
  {
    var end := GroupEnd(frames, start, batch);
    Group(start + 1, end - start, WireSize(frames[start..end]),
          if start + batch < |frames| then frames[end - 1].intervalAfter else 0)
  }

  function GroupsFrom(frames: seq<Frame>, batch: Positive, start: nat): seq<Group>
    decreases |frames| - start
  {
    if start >= |frames| then [] else [GroupAt(frames, batch, start)] + GroupsFrom(frames, batch, start + batch)
  }

  function PlannedSendGroups(frames: seq<Frame>, c: Controls): seq<Group> { GroupsFrom(frames, c.batchSize, 0) }

  function SumFrames(groups: seq<Group>): nat
  {
    if groups == [] then 0 else groups[0].frameCount + SumFrames(groups[1..])
  }

  function SumSizes(groups: seq<Group>): nat
  {
    if groups == [] then 0 else groups[0].wireSize + SumSizes(groups[1..])
  }

  lemma {:induction false} WireAppend(a: seq<Frame>, b: seq<Frame>)
    ensures WireOf(a + b) == WireOf(a) + WireOf(b)
    ensures WireSize(a + b) == WireSize(a) + WireSize(b)
  {
    if b == [] {
      assert a + b == a;
    } else {
      assert Init(a + b) == a + Init(b) && Last(a + b) == Last(b);
      WireAppend(a, Init(b));
      JoinAssociates(WireOf(a), WireOf(Init(b)), Last(b).wire);
    }
  }

  lemma SplitAtGroup(frames: seq<Frame>, batch: Positive, start: nat)
    requires start < |frames|
    ensures
      var end := GroupEnd(frames, start, batch);
      start < end <= |frames| && frames[start..] == frames[start..end] + frames[end..]
      && (start + batch >= |frames| ==> frames[end..] == [])
  {}

  lemma SumsOfCons(g: Group, rest: seq<Group>)
    ensures SumFrames([g] + rest) == g.frameCount + SumFrames(rest) && SumSizes([g] + rest) == g.wireSize + SumSizes(rest)
  {
    assert ([g] + rest)[1..] == rest;
  }

  lemma NoMoreGroups(frames: seq<Frame>, batch: Positive, start: nat)
    requires start >= |frames|
    ensures SumFrames(GroupsFrom(frames, batch, start)) == 0 && SumSizes(GroupsFrom(frames, batch, start)) == 0
    ensures WireSize([]) == 0
  {}

  /** The planned groups cut the frames: every frame and every byte is in exactly one group. */
  lemma {:induction false} GroupsCoverTheFrames(frames: seq<Frame>, batch: Positive, start: nat)
    requires start <= |frames|
    ensures SumFrames(GroupsFrom(frames, batch, start)) == |frames| - start
    ensures SumSizes(GroupsFrom(frames, batch, start)) == WireSize(frames[start..])
    decreases |frames| - start
  {
    if start < |frames| {
      var end := GroupEnd(frames, start, batch);
      SplitAtGroup(frames, batch, start);
      WireAppend(frames[start..end], frames[end..]);
      var g, rest := GroupAt(frames, batch, start), GroupsFrom(frames, batch, start + batch);
      assert GroupsFrom(frames, batch, start) == [g] + rest;
      SumsOfCons(g, rest);
      hide GroupsFrom, SumFrames, SumSizes, WireSize, WireOf;
      if start + batch < |frames| {
        GroupsCoverTheFrames(frames, batch, start + batch);
      } else {
        NoMoreGroups(frames, batch, start + batch);
      }
    }
  }

  lemma PlanCoversTheSession(frames: seq<Frame>, c: Controls)
    ensures SumFrames(PlannedSendGroups(frames, c)) == |frames|
    ensures SumSizes(PlannedSendGroups(frames, c)) == WireSize(frames)
  {
    GroupsCoverTheFrames(frames, c.batchSize, 0);
    assert frames[0..] == frames;
  }

  /** A group of the plan: a full batch of frames from its first one on, or all the rest for the last group; their
      bytes; and the wait after it, which is the interval of its last frame and nothing after the last group. */
  ghost predicate IsPlannedGroup(frames: seq<Frame>, batch: Positive, last: bool, g: Group)
  {
    var start := g.firstFrame - 1;
    var end := if last then |frames| else start + batch;
    && 0 <= start < end <= |frames| && end <= start + batch
    && g.frameCount == end - start && g.wireSize == WireSize(frames[start..end])
    && g.waitAfter == if last then 0 else frames[end - 1].intervalAfter
  }

  /** Groups that follow one another from a place on, batch by batch. */
  ghost predicate ArePlanned(frames: seq<Frame>, batch: Positive, start: nat, gs: seq<Group>)
  {
    && (gs == [] <==> start >= |frames|)
    && (gs != [] ==> gs[0].firstFrame == start + 1)
    && (forall i :: 0 < i < |gs| ==> gs[i].firstFrame == gs[i - 1].firstFrame + batch)
    && forall i :: 0 <= i < |gs| ==> IsPlannedGroup(frames, batch, i == |gs| - 1, gs[i])
  }

  lemma OneGroupMore(frames: seq<Frame>, batch: Positive, start: nat, rest: seq<Group>)
    requires start < |frames| && ArePlanned(frames, batch, start + batch, rest)
    ensures ArePlanned(frames, batch, start, [GroupAt(frames, batch, start)] + rest)
  {
    var g := GroupAt(frames, batch, start);
    var gs := [g] + rest;
    assert IsPlannedGroup(frames, batch, rest == [], g);
    hide IsPlannedGroup, WireSize;
    forall i | 0 <= i < |gs| ensures IsPlannedGroup(frames, batch, i == |gs| - 1, gs[i]) {
      if i > 0 { assert gs[i] == rest[i - 1]; }
    }
  }

  lemma {:induction false} GroupsFromArePlanned(frames: seq<Frame>, batch: Positive, start: nat)
    ensures ArePlanned(frames, batch, start, GroupsFrom(frames, batch, start))
    decreases |frames| - start
  {
    if start < |frames| {
      GroupsFromArePlanned(frames, batch, start + batch);
      OneGroupMore(frames, batch, start, GroupsFrom(frames, batch, start + batch));
    }
  }

  /** The whole plan in direct terms: the groups follow one another from the first frame to the last. */
  lemma PlannedGroupsAre(frames: seq<Frame>, c: Controls)
    ensures ArePlanned(frames, c.batchSize, 0, PlannedSendGroups(frames, c))
  {
    GroupsFromArePlanned(frames, c.batchSize, 0);
  }
}

/** `run_session`: the send loop with its records, against a peer that may fail at any point. */
module TrafficSession {
  import opened Seqs
  import opened Wire
  import opened TrafficPlan
  import opened Division

  datatype Log = Log(passed: bool, sends: seq<Bytes>, groups: seq<Group>, framesSent: nat, responses: nat)

  lemma CeilDivStep(offset: nat, fragment: Positive, size: nat)
    requires offset < size
    ensures CeilDiv(size - offset, fragment) == 1 + (if offset + fragment <= size then CeilDiv(size - offset - fragment, fragment) else 0)
  {
    var a := size - offset;
    assert (a + fragment - 1) / fragment == 1 + (a - 1) / fragment by { DivideStep(a - 1, fragment); }
    if a < fragment {
      SmallDivide(a - 1, fragment);
    } else if a == fragment {
      SmallDivide(a - 1, fragment);
      SmallDivide(fragment - 1, fragment);
    } else {
      assert (a - fragment) + fragment - 1 == a - 1;
    }
  }

  lemma DivideStep(a: nat, b: Positive)
    ensures (a + b) / b == 1 + a / b
  {
    var q, r := a / b, a % b;
    assert a + b == (q + 1) * b + r;
    QuotientIsUnique(a + b, b, q + 1, r);
  }

  lemma QuotientIsUnique(x: nat, b: Positive, q: nat, r: nat)
    requires x == q * b + r && r < b
    ensures x / b == q
  {
    OneQuotient(b, x / b, x % b, q, r);
  }

  lemma SmallDivide(a: nat, b: Positive)
    requires a < b
    ensures a / b == 0
  {
    QuotientIsUnique(a, b, 0, a);
  }

  /** One group on the wire: in one call, or in fragments of the given size, the last one shorter. */
  method SendGroup(wire: Bytes, fragment: Option<Positive>) returns (sends: seq<Bytes>, ok: bool)
    ensures Concat(sends) <= wire
    ensures ok ==> Concat(sends) == wire && |sends| == SendsOf(|wire|, fragment)
    ensures fragment.Some? ==> forall i :: 0 <= i < |sends| ==> 0 < |sends[i]| <= fragment.value
  {
    sends := [];
    if fragment.None? {
      ok := *;
      if ok {
        ConcatOne(wire);
        sends := [wire];
      }
      return;
    }
    var size: int := fragment.value;
    ok := true;
    var offset: nat := 0;
    SmallDivide(size - 1, size);
    while offset < |wire|
      invariant 0 <= offset && Concat(sends) == wire[..Min(offset, |wire|)]
      invariant |sends| + (if offset < |wire| then CeilDiv(|wire| - offset, size) else 0) == CeilDiv(|wire|, size)
      invariant forall i :: 0 <= i < |sends| ==> 0 < |sends[i]| <= size
    {
      ok := *;
      if !ok { return; }
      var end := Min(offset + size, |wire|);
      var piece := wire[offset..end];
      ConcatOne(piece);
      ConcatAppend(sends, [piece]);
      assert wire[..offset] + piece == wire[..end];
      CeilDivStep(offset, size, |wire|);
      sends, offset := sends + [piece], offset + size;
    }
  }

  /** Replies are awaited one per frame; any of them may fail. */
  method AwaitReplies(count: nat, expected: bool) returns (received: nat, ok: bool)
    ensures received <= count
    ensures ok ==> received == if expected then count else 0
  {
    received, ok := 0, true;
    if !expected { return; }
    while ok && received < count
      invariant received <= count && (!ok ==> received < count)
      decreases count - received, ok
    {
      ok := *;
      if ok { received := received + 1; }
    }
  }

  lemma GroupIsConsumed(frames: seq<Frame>, start: nat, end: nat)
    requires start < end <= |frames|
    ensures WireOf(frames[..end]) == WireOf(frames[..start]) + WireOf(frames[start..end])
    ensures WireOf(frames[..end]) <= WireOf(frames)
  {
    hide WireOf, WireSize;
    assert frames[..end] == frames[..start] + frames[start..end];
    WireAppend(frames[..start], frames[start..end]);
    assert frames == frames[..end] + frames[end..];
    WireAppend(frames[..end], frames[end..]);
  }

  lemma PlanUnfolds(frames: seq<Frame>, c: Controls, start: nat)
    requires start < |frames|
    ensures
      var end := GroupEnd(frames, start, c.batchSize);
      && start < end <= |frames|
      && SendCallsFrom(frames, c, start) == SendsOf(|WireOf(frames[start..end])|, c.fragmentSize) + SendCallsFrom(frames, c, start + c.batchSize)
      && GroupsFrom(frames, c.batchSize, start) == [GroupAt(frames, c.batchSize, start)] + GroupsFrom(frames, c.batchSize, start + c.batchSize)
  {
    hide WireOf, WireSize, SendsOf;
  }

  ghost predicate Delivered(log: Log, frames: seq<Frame>, p: Profile, repliesExpected: bool)
  {
    && |log.sends| == ExpectedSendCalls(frames, TransportControls(p))
    && log.groups == PlannedSendGroups(frames, TransportControls(p))
    && Concat(log.sends) == WireOf(frames)
    && log.framesSent == |frames|
    && log.responses == if repliesExpected then |frames| else 0
  }

  /** A passing session has made exactly the planned calls with exactly the planned group records, and the
      bytes it sent are the frames one after the other; a failing one has sent a prefix of them. */
  method RunSession(frames: seq<Frame>, p: Profile, repliesExpected: bool) returns (log: Log)
    ensures Concat(log.sends) <= WireOf(frames)
    ensures log.passed ==> Delivered(log, frames, p, repliesExpected)
  {
    hide WireOf, WireSize, SendCallsFrom, GroupsFrom, ExpectedSendCalls, PlannedSendGroups, Concat, SendsOf, TransportControls;
    var c := TransportControls(p);
    var start: nat := 0;
    log := Log(false, [], [], 0, 0);
    StartOfSession(frames, c);
    while start < |frames|
      invariant Concat(log.sends) == WireOf(frames[..Min(start, |frames|)])
      invariant Concat(log.sends) <= WireOf(frames)
      invariant |log.sends| + SendCallsFrom(frames, c, start) == ExpectedSendCalls(frames, c)
      invariant log.groups + GroupsFrom(frames, c.batchSize, start) == PlannedSendGroups(frames, c)
      invariant log.framesSent == Min(start, |frames|) && !log.passed
      invariant log.responses == if repliesExpected then Min(start, |frames|) else 0
      decreases |frames| - start
    {
      var group := frames[start..Min(start + c.batchSize, |frames|)];
      var wire := WireOf(group);
      var record := Group(start + 1, |group|, |wire|,
                          if start + |group| < |frames| then group[|group| - 1].intervalAfter else 0);
      PlanUnfolds(frames, c, start);
      GroupIsConsumed(frames, start, start + |group|);
      var sends, sent := SendGroup(wire, c.fragmentSize);
      ConcatAppend(log.sends, sends);
      log := log.(sends := log.sends + sends);
      if !sent { return; }
      log := log.(groups := log.groups + [record], framesSent := log.framesSent + |group|);
      var received, ok := AwaitReplies(|group|, repliesExpected);
      log := log.(responses := log.responses + received);
      if !ok { return; }
      start := start + c.batchSize;
    }
    assert frames[..|frames|] == frames;
    AfterTheLastGroup(frames, c, start);
    var closed: bool := *;
    log := log.(passed := closed);
  }

  lemma AfterTheLastGroup(frames: seq<Frame>, c: Controls, start: nat)
    requires start >= |frames|
    ensures SendCallsFrom(frames, c, start) == 0 && GroupsFrom(frames, c.batchSize, start) == []
  {}

  lemma StartOfSession(frames: seq<Frame>, c: Controls)
    ensures Concat([]) == WireOf(frames[..0]) == []
    ensures SendCallsFrom(frames, c, 0) == ExpectedSendCalls(frames, c)
    ensures GroupsFrom(frames, c.batchSize, 0) == PlannedSendGroups(frames, c)
  {}

  lemma {:induction false} GroupCount(frames: seq<Frame>, batch: Positive, start: nat)
    ensures |GroupsFrom(frames, batch, start)| == if start < |frames| then CeilDiv(|frames| - start, batch) else 0
    decreases |frames| - start
  {
    if start < |frames| {
      GroupCount(frames, batch, start + batch);
      CeilDivStep(start, batch, |frames|);
      hide CeilDiv, GroupAt;
      if start + batch == |frames| { NothingToSend(batch); }
    }
  }

  lemma NothingToSend(b: Positive)
    ensures CeilDiv(0, b) == 0
  {
    SmallDivide(b - 1, b);
  }

  lemma {:induction false} WholeGroupsAreOneCall(frames: seq<Frame>, c: Controls, start: nat)
    requires c.fragmentSize.None?
    ensures SendCallsFrom(frames, c, start) == |GroupsFrom(frames, c.batchSize, start)|
    decreases |frames| - start
  {
    if start < |frames| { WholeGroupsAreOneCall(frames, c, start + c.batchSize); }
  }

  /** The pieces of frames that are cut one by one. */
  function Pieces(frames: seq<Frame>, size: Positive): nat
  {
    if frames == [] then 0 else CeilDiv(|frames[0].wire|, size) + Pieces(frames[1..], size)
  }

  lemma {:induction false} SingleFramesAreCut(frames: seq<Frame>, c: Controls, start: nat)
    requires start <= |frames| && c.batchSize == 1 && c.fragmentSize.Some?
    ensures SendCallsFrom(frames, c, start) == Pieces(frames[start..], c.fragmentSize.value)
    decreases |frames| - start
  {
    if start < |frames| {
      SingleFramesAreCut(frames, c, start + 1);
      var one := frames[start..start + 1];
      assert one == [frames[start]] && Init(one) == [] && frames[start..][1..] == frames[start + 1..];
      assert WireSize(one) == |frames[start].wire|;
      hide CeilDiv, WireSize;
    }
  }

  predicate Batches(s: Scenario) { s == NormalBatchedChat || s == ControlledBurstChat }

  /** What the profile means for the plan: batches of the chosen size, else of four where the scenario batches and of
      one elsewhere; and only fragmented chat is cut, into pieces of the chosen size, else of 31 bytes. */
  lemma PlanOfProfile(frames: seq<Frame>, p: Profile)
    ensures
      var c := TransportControls(p);
      var groups := |PlannedSendGroups(frames, c)|;
      && (p.batchSize.Some? ==> groups == CeilDiv(|frames|, p.batchSize.value))
      && (p.batchSize.None? ==> groups == if Batches(p.scenario) then CeilDiv(|frames|, 4) else |frames|)
      && (p.scenario != NormalFragmentedChat ==> ExpectedSendCalls(frames, c) == groups)
      && (p.scenario == NormalFragmentedChat && (p.batchSize.None? || p.batchSize.value == 1) ==>
            ExpectedSendCalls(frames, c) == Pieces(frames, if p.fragmentSize.Some? then p.fragmentSize.value else 31))
  {
    var c := TransportControls(p);
    GroupCount(frames, c.batchSize, 0);
    if frames == [] { NothingToSend(c.batchSize); }
    if c.fragmentSize.None? { WholeGroupsAreOneCall(frames, c, 0); }
    if c.fragmentSize.Some? && c.batchSize == 1 {
      SingleFramesAreCut(frames, c, 0);
      assert frames[0..] == frames;
    }
    assert CeilDiv(|frames|, 1) == |frames|;
    hide CeilDiv, Pieces, GroupsFrom, SendCallsFrom;
  }
}

/** The frames that the generator builds, and what the server's reader will report of them. */
module TrafficExpectations {
  import opened Seqs
  import opened Wire
  import opened FrameReader
  import opened TrafficPlan

  /** One drawn message: text bytes, at most 1024 of them, and a number. */
  datatype Draw = Draw(text: Bytes, value: Int32, intervalAfter: nat)

  const MAX_TEXT := 1024

  function ChatFrame(text: Bytes, value: Int32): (f: Bytes)
    requires |text| <= MAX_TEXT
    ensures |f| == 14 + |text|
  {
    Header(0, 14 + |text|) + Put16(|text|) + text + Put32(value)
  }

  predicate IsError(s: Scenario) { s.MalformedChatPayload? || s.MalformedLengthChat? || s.InvalidFrameSize? }

  function BuildWire(s: Scenario, d: Draw): Bytes
    requires |d.text| <= MAX_TEXT
  {
    match s
    case MalformedChatPayload => Header(0, 9) + [0]
    case MalformedLengthChat => var f := ChatFrame(d.text, d.value); f[..8] + Put16(60000) + f[10..]
    case InvalidFrameSize => Header(0, 7)
    case _ => ChatFrame(d.text, d.value)
  }

  datatype Session = Session(frames: seq<Frame>, expectedMessages: seq<Parsed>, expectedResponses: nat, expectedErrors: nat)

  /** build_expectations for one session: an error scenario sends a single frame. */
  method BuildSession(s: Scenario, draws: seq<Draw>) returns (session: Session)
    requires draws != [] && forall i :: 0 <= i < |draws| ==> |draws[i].text| <= MAX_TEXT
    ensures
      var faulty := s == MalformedChatPayload || s == MalformedLengthChat || s == InvalidFrameSize;
      && |session.frames| == (if faulty then 1 else |draws|)
      && session.expectedResponses == (if faulty then 0 else |draws|)
      && session.expectedErrors == (if faulty then 1 else 0)
    ensures forall i :: 0 <= i < |session.frames| ==> session.frames[i] == Frame(BuildWire(s, draws[i]), draws[i].intervalAfter)
    ensures session.expectedMessages == ExpectedMessages(s, session.frames)
    ensures |session.expectedMessages| == if s == InvalidFrameSize then 0 else |session.frames|
    ensures forall i :: 0 <= i < |session.expectedMessages| ==>
      session.expectedMessages[i] == Parsed(0, |session.frames[i].wire|)
  {
    var count := if IsError(s) then 1 else |draws|;
    var frames: seq<Frame> := [];
    for k := 0 to count
      invariant |frames| == k
      invariant forall i :: 0 <= i < k ==> frames[i] == Frame(BuildWire(s, draws[i]), draws[i].intervalAfter)
    {
      frames := frames + [Frame(BuildWire(s, draws[k]), draws[k].intervalAfter)];
    }
    session := Session(frames, ExpectedMessages(s, frames), if IsError(s) then 0 else |frames|, if IsError(s) then 1 else 0);
  }

  function ExpectedMessages(s: Scenario, frames: seq<Frame>): seq<Parsed>
  {
    if s.InvalidFrameSize? then []
    else seq(|frames|, i requires 0 <= i < |frames| => Parsed(0, |frames[i].wire|))
  }

  /** Every frame of an observable scenario is one that the reader accepts whole. */
  lemma BuiltFramesAreFrames(s: Scenario, d: Draw, capacity: nat)
    requires |d.text| <= MAX_TEXT && capacity >= 14 + MAX_TEXT && !s.InvalidFrameSize?
    ensures IsFrame(BuildWire(s, d), capacity) && IdOf(BuildWire(s, d)) == 0
  {
    var f := BuildWire(s, d);
    match s
    case MalformedChatPayload => HeaderRoundTrip(0, 9, [0]);
    case MalformedLengthChat => LongFrame(d, f);
    case _ => ChatFrameIsFrame(d.text, d.value);
  }

  lemma ChatFrameIsFrame(text: Bytes, value: Int32)
    requires |text| <= MAX_TEXT
    ensures IdOf(ChatFrame(text, value)) == 0 && SizeOf(ChatFrame(text, value)) == 14 + |text|
    ensures ChatFrame(text, value)[..8] == Header(0, 14 + |text|)
  {
    var rest := Put16(|text|) + text + Put32(value);
    assert ChatFrame(text, value) == Header(0, 14 + |text|) + rest;
    HeaderRoundTrip(0, 14 + |text|, rest);
  }

  lemma LongFrame(d: Draw, f: Bytes)
    requires |d.text| <= MAX_TEXT && f == BuildWire(MalformedLengthChat, d)
    ensures |f| == 14 + |d.text| && IdOf(f) == 0 && SizeOf(f) == |f|
  {
    var g := ChatFrame(d.text, d.value);
    ChatFrameIsFrame(d.text, d.value);
    assert f[..4] == g[..4] && f[4..8] == g[4..8];
  }

  /** A chat frame in bytes, high byte first: id 0, its own size, the length of the text, the text, the number. */
  lemma ChatFrameCarries(text: Bytes, value: Int32)
    requires |text| <= MAX_TEXT
    ensures
      var f := ChatFrame(text, value);
      && Weight32(f[0..4]) == 0 && Weight32(f[4..8]) == |f| == 14 + |text|
      && Weight16(f[8..10]) == |text| && f[10..10 + |text|] == text
      && Weight32(f[10 + |text|..]) == (if value < 0 then value + 0x1_0000_0000 else value)
  {
    var f := ChatFrame(text, value);
    BytesCarryWeight(0);
    BytesCarryWeight(14 + |text|);
    TwoBytesCarryWeight(|text|);
    BytesCarryWeight(value);
    hide Put32, Put16, Weight32, Weight16;
    assert f[0..4] == Put32(0) && f[4..8] == Put32(14 + |text|) && f[8..10] == Put16(|text|);
    assert f[10 + |text|..] == Put32(value);
  }

  /** The three faulty frames: a body of one byte under a size of 9; a chat frame whose text claims 60000 bytes; a
      bare header with size 7. */
  lemma FaultyFramesCarry(d: Draw)
    requires |d.text| <= MAX_TEXT
    ensures
      var f := BuildWire(MalformedChatPayload, d);
      |f| == 9 && Weight32(f[0..4]) == 0 && Weight32(f[4..8]) == 9 && f[8] == 0
    ensures
      var f, chat := BuildWire(MalformedLengthChat, d), ChatFrame(d.text, d.value);
      |f| == |chat| && Weight16(f[8..10]) == 60000 && f[..8] == chat[..8] && f[10..] == chat[10..]
    ensures
      var f := BuildWire(InvalidFrameSize, d);
      |f| == 8 && Weight32(f[0..4]) == 0 && Weight32(f[4..8]) == 7
  {
    BytesCarryWeight(0);
    BytesCarryWeight(9);
    BytesCarryWeight(7);
    TwoBytesCarryWeight(60000);
    hide Put32, Put16, Weight32, Weight16;
    var short, bare := BuildWire(MalformedChatPayload, d), BuildWire(InvalidFrameSize, d);
    assert short[0..4] == Put32(0) == bare[0..4] && short[4..8] == Put32(9) && bare[4..8] == Put32(7);
    var long := BuildWire(MalformedLengthChat, d);
    assert long[8..10] == Put16(60000);
  }

  function Wires(frames: seq<Frame>): seq<Bytes>
  {
    seq(|frames|, i requires 0 <= i < |frames| => frames[i].wire)
  }

  lemma {:induction false} WiresConcat(frames: seq<Frame>)
    ensures Concat(Wires(frames)) == WireOf(frames)
  {
    if frames != [] {
      WiresConcat(Init(frames));
      assert Init(Wires(frames)) == Wires(Init(frames));
    }
  }

  /** Whatever the batches, the fragments and the network: the server reports exactly the expected messages of
      an observable scenario, complete and without a framing fault. */
  lemma ServerSeesTheExpectedMessages(s: Scenario, draws: seq<Draw>, frames: seq<Frame>, pieces: seq<Bytes>,
      capacity: nat)
    requires |frames| <= |draws| && capacity >= 14 + MAX_TEXT && !s.InvalidFrameSize?
    requires forall i :: 0 <= i < |frames| ==> |draws[i].text| <= MAX_TEXT && frames[i].wire == BuildWire(s, draws[i])
    requires Concat(pieces) == WireOf(frames)
    ensures ReceiveAll(pieces, capacity) == Reader([], ExpectedMessages(s, frames), NoFault)
  {
    WiresConcat(frames);
    var wires := Wires(frames);
    forall i | 0 <= i < |wires| ensures IsFrame(wires[i], capacity) && IdOf(wires[i]) == 0 {
      BuiltFramesAreFrames(s, draws[i], capacity);
    }
    ReaderRecoversFrames(wires, pieces, capacity);
    assert Reports(wires) == ExpectedMessages(s, frames);
  }

  /** The header-rejection scenario: the reader faults on the size and reports no message. */
  lemma InvalidSizeIsRejected(d: Draw, pieces: seq<Bytes>, capacity: nat)
    requires |d.text| <= MAX_TEXT && Concat(pieces) == BuildWire(InvalidFrameSize, d)
    ensures ReceiveAll(pieces, capacity).fault == SizeTooSmall && ReceiveAll(pieces, capacity).parsed == []
  {
    ChunkingDoesNotMatter(pieces, capacity);
    HeaderRoundTrip(0, 7, []);
    assert Header(0, 7) + [] == Header(0, 7);
  }
}

/** Reading a reply from a stream that delivers pieces of any size. */
module ReplyReader {
  import opened Seqs
  import opened Wire

  const REPLY_TEXT: Bytes := [72, 101, 108, 108, 111, 32, 109, 121, 32, 119, 111, 114, 108, 100]

  function ReplyFrame(): Bytes { Header(1, 24) + Put16(14) + REPLY_TEXT }

  class Connection {
    var incoming: Bytes

    constructor (incoming: Bytes)
      ensures this.incoming == incoming
    {
      this.incoming := incoming;
    }

    /** A nonempty piece of at most the asked size; empty only at the end of the stream. */
    method Recv(size: nat) returns (part: Bytes)
      requires size > 0
      modifies this
      ensures |part| <= size && old(incoming) == part + incoming
      ensures part == [] <==> old(incoming) == []
    {
      if incoming == [] { return []; }
      var n :| 1 <= n <= size && n <= |incoming|;
      part := incoming[..n];
      incoming := incoming[n..];
    }

    /** Exactly the next `size` bytes, or a failure when the stream ends first. */
    method ReadExact(size: nat) returns (result: Option<Bytes>)
      modifies this
      ensures result.Some? <==> size <= |old(incoming)|
      ensures result.Some? ==> result.value == old(incoming)[..size] && incoming == old(incoming)[size..]
    {
      var got: Bytes := [];
      while |got| < size
        invariant |got| <= size && got + incoming == old(incoming)
        decreases size - |got|
      {
        var part := Recv(size - |got|);
        if part == [] {
          assert got + [] == got;
          return None;
        }
        got := got + part;
      }
      return Some(got);
    }

    /** A reply is accepted exactly if the stream goes on with the one reply frame. */
    method ReadReply() returns (ok: bool)
      modifies this
      ensures ok <==> ReplyFrame() <= old(incoming)
      ensures ok ==> incoming == old(incoming)[|ReplyFrame()|..]
    {
      ghost var all := incoming;
      ReplyIsDetermined(all);
      var header := ReadExact(HEADER_SIZE);
      if header.None? { return false; }
      var id, size := IdOf(header.value), SizeOf(header.value);
      assert id == IdOf(all) && size == SizeOf(all) by { assert header.value[..4] == all[..4] && header.value[4..8] == all[4..8]; }
      if id != 1 || !(10 <= size <= 2048) { return false; }
      var body := ReadExact(size - HEADER_SIZE);
      if body.None? { return false; }
      assert body.value == all[8..size];
      ok := Get16(body.value[..2]) == |REPLY_TEXT| && body.value[2..] == REPLY_TEXT;
    }
  }

  ghost predicate LooksLikeReply(all: Bytes)
  {
    && |all| >= HEADER_SIZE && IdOf(all) == 1 && 10 <= SizeOf(all) <= 2048 && SizeOf(all) <= |all|
    && Get16(all[8..SizeOf(all)][..2]) == 14 && all[8..SizeOf(all)][2..] == REPLY_TEXT
  }

  /** The separate checks of id, size, length field and text admit one frame only. */
  lemma ReplyIsDetermined(all: Bytes)
    ensures LooksLikeReply(all) <==> ReplyFrame() <= all
  {
    if LooksLikeReply(all) {
      var size := SizeOf(all);
      var body := all[8..size];
      assert size == 24;
      HeaderIsDetermined(all);
      PutGet16(body[..2]);
      assert body == body[..2] + body[2..];
      assert all[..24] == all[..8] + body;
      assert all[..24] == ReplyFrame();
    }
    if ReplyFrame() <= all {
      var rest := all[8..];
      assert all == Header(1, 24) + rest;
      HeaderRoundTrip(1, 24, rest);
      GetPut16(14);
      assert all[8..24][..2] == ReplyFrame()[8..10] == Put16(14);
      assert all[8..24][2..] == ReplyFrame()[10..24] == REPLY_TEXT;
    }
  }
}
