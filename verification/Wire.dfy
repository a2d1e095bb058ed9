/** The wire format: a frame is an id and its whole size as signed 32-bit big-endian numbers, then a body. */
module Wire {
  import opened Seqs

  type Byte = x: int | 0 <= x < 256

  type Bytes = seq<Byte>

  const HEADER_SIZE := 8
  const INT32_LIMIT := 0x8000_0000
  const UINT32_RANGE := 0x1_0000_0000

  type Int32 = x: int | -INT32_LIMIT <= x < INT32_LIMIT

  function Unsigned(x: Int32): nat { if x < 0 then x + UINT32_RANGE else x }

  function Signed(u: nat): Int32
    requires u < UINT32_RANGE
  {
    if u < INT32_LIMIT then u else u - UINT32_RANGE
  }

  function High(u: nat): nat { u / 256 }

  function Low(u: nat): Byte { u % 256 }

  lemma HighLow(u: nat)
    ensures u == High(u) * 256 + Low(u)
  {}

  lemma JoinSplits(h: nat, l: Byte)
    ensures High(h * 256 + l) == h && Low(h * 256 + l) == l
  {}

  lemma HighBelow(u: nat, n: nat)
    requires u < n * 256
    ensures High(u) < n
  {}

  function Put16(u: nat): (b: Bytes)
    requires u < 0x1_0000
    ensures |b| == 2
  {
    HighBelow(u, 256);
    [High(u), Low(u)]
  }

  function Get16(b: Bytes): (u: nat)
    requires |b| == 2
    ensures u < 0x1_0000
  {
    (b[0] as int) * 256 + b[1]
  }

  function Put32(x: Int32): (b: Bytes)
    ensures |b| == 4
  {
    var u := Unsigned(x);
    HighBelow(u, 0x100_0000);
    HighBelow(High(u), 0x1_0000);
    Put16(High(High(u))) + [Low(High(u)), Low(u)]
  }

  function Get32(b: Bytes): Int32
    requires |b| == 4
  {
    Signed((Get16(b[..2]) * 256 + b[2]) * 256 + b[3])
  }

  lemma GetPut16(u: nat)
    requires u < 0x1_0000
    ensures Get16(Put16(u)) == u
  {
    HighLow(u);
  }

  lemma PutGet16(b: Bytes)
    requires |b| == 2
    ensures Put16(Get16(b)) == b
  {
    JoinSplits(b[0], b[1]);
  }

  lemma GetPut32(x: Int32)
    ensures Get32(Put32(x)) == x
  {
    var u := Unsigned(x);
    var b := Put32(x);
    HighBelow(u, 0x100_0000);
    HighBelow(High(u), 0x1_0000);
    GetPut16(High(High(u)));
    assert b[..2] == Put16(High(High(u)));
    HighLow(u);
    HighLow(High(u));
    hide High, Low, Put16, Get16;
  }

  lemma PutGet32(b: Bytes)
    requires |b| == 4
    ensures Put32(Get32(b)) == b
  {
    var h := Get16(b[..2]);
    JoinSplits(h, b[2]);
    JoinSplits(h * 256 + b[2], b[3]);
    PutGet16(b[..2]);
    hide High, Low, Put16, Get16;
    var u := (h * 256 + b[2]) * 256 + b[3];
    assert Unsigned(Signed(u)) == u;
    assert b == b[..2] + [b[2], b[3]];
  }

  function Header(id: Int32, size: Int32): (h: Bytes)
    ensures |h| == HEADER_SIZE
  {
    Put32(id) + Put32(size)
  }

  function IdOf(b: Bytes): Int32
    requires |b| >= HEADER_SIZE
  {
    Get32(b[..4])
  }

  function SizeOf(b: Bytes): Int32
    requires |b| >= HEADER_SIZE
  {
    Get32(b[4..8])
  }

  lemma HeaderRoundTrip(id: Int32, size: Int32, rest: Bytes)
    ensures IdOf(Header(id, size) + rest) == id && SizeOf(Header(id, size) + rest) == size
  {
    var b := Header(id, size) + rest;
    assert b[..4] == Put32(id) && b[4..8] == Put32(size);
    GetPut32(id);
    GetPut32(size);
  }

  lemma HeaderIsDetermined(b: Bytes)
    requires |b| >= HEADER_SIZE
    ensures b[..8] == Header(IdOf(b), SizeOf(b))
  {
    PutGet32(b[..4]);
    PutGet32(b[4..8]);
    assert b[..8] == b[..4] + b[4..8];
  }

  /** The value of a field by the weights of its bytes, high byte first. */
  function Weight16(b: Bytes): int
    requires |b| == 2
  {
    (b[0] as int) * 0x100 + b[1] as int
  }

  function Weight32(b: Bytes): int
    requires |b| == 4
  {
    (b[0] as int) * 0x100_0000 + (b[1] as int) * 0x1_0000 + (b[2] as int) * 0x100 + b[3] as int
  }

  lemma TwoBytesCarryWeight(u: nat)
    requires u < 0x1_0000
    ensures Weight16(Put16(u)) == u
  {
    HighLow(u);
  }

  /** Network order: a number is written with its high byte first, a negative one as its two's complement. */
  lemma BytesCarryWeight(x: Int32)
    ensures Weight32(Put32(x)) == if x < 0 then x + 0x1_0000_0000 else x
  {
    var u := Unsigned(x);
    HighBelow(u, 0x100_0000);
    HighBelow(High(u), 0x1_0000);
    TwoBytesCarryWeight(High(High(u)));
    HighLow(u);
    HighLow(High(u));
  }

  function Concat(parts: seq<Bytes>): Bytes
  {
    if parts == [] then [] else Concat(Init(parts)) + Last(parts)
  }

  lemma JoinAssociates(a: Bytes, b: Bytes, c: Bytes)
    ensures (a + b) + c == a + (b + c)
  {}

  lemma {:induction false} ConcatAppend(a: seq<Bytes>, b: seq<Bytes>)
    ensures Concat(a + b) == Concat(a) + Concat(b)
  {
    if b == [] {
      assert a + b == a;
    } else {
      assert Init(a + b) == a + Init(b) && Last(a + b) == Last(b);
      ConcatAppend(a, Init(b));
      JoinAssociates(Concat(a), Concat(Init(b)), Last(b));
    }
  }

  lemma ConcatOne(x: Bytes)
    ensures Concat([x]) == x
  {
    assert Init([x]) == [];
  }
}

/** The server's reader: header first, then the body, over whatever pieces arrive. */
module FrameReader {
  import opened Seqs
  import opened Wire

  datatype Fault = NoFault | SizeTooSmall | SizeTooLarge | IdOutOfRange

  /** A parsed frame as the telemetry sees it. */
  datatype Parsed = Parsed(packetId: int, packetSize: int)

  /** `pending` are received bytes of a frame that is not complete yet. */
  datatype Reader = Reader(pending: Bytes, parsed: seq<Parsed>, fault: Fault)

  predicate IdInRange(id: Int32) { 0 <= id <= 0xFFFF }

  /** The parse loop over the receive buffer. A fault closes the connection. Both comparisons of the size are
      unsigned, so a negative size is no small one but one beyond any capacity. */
  function ParsePackets(r: Reader, capacity: nat): (r': Reader)
    ensures r.parsed <= r'.parsed
    ensures |r'.pending| <= |r.pending|
    decreases |r.pending|
  {
    if r.fault != NoFault || |r.pending| < HEADER_SIZE then r
    else
      var id, size := IdOf(r.pending), SizeOf(r.pending);
      if 0 <= size < HEADER_SIZE then r.(fault := SizeTooSmall)
      else if size < 0 || size > capacity then r.(fault := SizeTooLarge)
      else if |r.pending| < size then r
      else if !IdInRange(id) then r.(pending := r.pending[size..], fault := IdOutOfRange)
      else ParsePackets(Reader(r.pending[size..], r.parsed + [Parsed(id, size)], NoFault), capacity)
  }

  function Receive(r: Reader, piece: Bytes, capacity: nat): Reader
  {
    if r.fault != NoFault then r else ParsePackets(r.(pending := r.pending + piece), capacity)
  }

  function ReceiveAll(pieces: seq<Bytes>, capacity: nat): Reader
  {
    if pieces == [] then Reader([], [], NoFault)
    else Receive(ReceiveAll(Init(pieces), capacity), Last(pieces), capacity)
  }

  /** Two readers that will report the same from now on; after a fault the leftover bytes do not matter. */
  predicate Same(a: Reader, b: Reader)
  {
    a.parsed == b.parsed && a.fault == b.fault && (a.fault == NoFault ==> a.pending == b.pending)
  }

  /** Parsing early and then again with more bytes is parsing once with all bytes. */
  lemma {:induction false} ParseThenParse(r: Reader, more: Bytes, capacity: nat)
    requires r.fault == NoFault
    ensures Same(Receive(ParsePackets(r, capacity), more, capacity), ParsePackets(r.(pending := r.pending + more), capacity))
    decreases |r.pending|
  {
    if |r.pending| >= HEADER_SIZE {
      var all := r.pending + more;
      assert all[..4] == r.pending[..4] && all[4..8] == r.pending[4..8];
      var id, size := IdOf(r.pending), SizeOf(r.pending);
      if HEADER_SIZE <= size <= capacity && size <= |r.pending| && IdInRange(id) {
        assert all[size..] == r.pending[size..] + more;
        ParseThenParse(Reader(r.pending[size..], r.parsed + [Parsed(id, size)], NoFault), more, capacity);
      }
    }
  }

  /** However the network cuts the stream, the reader reports what one piece would give. */
  lemma {:induction false} ChunkingDoesNotMatter(pieces: seq<Bytes>, capacity: nat)
    ensures Same(ReceiveAll(pieces, capacity), ParsePackets(Reader(Concat(pieces), [], NoFault), capacity))
  {
    if pieces != [] {
      var before := Concat(Init(pieces));
      ChunkingDoesNotMatter(Init(pieces), capacity);
      ParseThenParse(Reader(before, [], NoFault), Last(pieces), capacity);
    }
  }

  /** A frame that the reader accepts: a header that tells its size, and an id in range. */
  predicate IsFrame(f: Bytes, capacity: nat)
  {
    HEADER_SIZE <= |f| && SizeOf(f) == |f| && |f| <= capacity && IdInRange(IdOf(f))
  }

  function Report(f: Bytes): Parsed { Parsed(if |f| >= HEADER_SIZE then IdOf(f) else 0, |f|) }

  function Reports(frames: seq<Bytes>): seq<Parsed>
  {
    seq(|frames|, i requires 0 <= i < |frames| => Report(frames[i]))
  }

  lemma OneFrameParses(f: Bytes, done: seq<Parsed>, capacity: nat)
    requires IsFrame(f, capacity)
    ensures ParsePackets(Reader(f, done, NoFault), capacity) == Reader([], done + [Report(f)], NoFault)
  {
    var rest := Reader(f[|f|..], done + [Report(f)], NoFault);
    assert f[|f|..] == [];
    assert ParsePackets(rest, capacity) == rest;
  }

  lemma ParsesOnceMore(before: Bytes, f: Bytes, done: seq<Parsed>, capacity: nat)
    requires ParsePackets(Reader(before, [], NoFault), capacity) == Reader([], done, NoFault) && IsFrame(f, capacity)
    ensures ParsePackets(Reader(before + f, [], NoFault), capacity) == Reader([], done + [Report(f)], NoFault)
  {
    hide ParsePackets, Report, IsFrame;
    ParseThenParse(Reader(before, [], NoFault), f, capacity);
    assert [] + f == f;
    OneFrameParses(f, done, capacity);
  }

  lemma {:induction false} FramesParse(frames: seq<Bytes>, capacity: nat)
    requires forall i :: 0 <= i < |frames| ==> IsFrame(frames[i], capacity)
    ensures ParsePackets(Reader(Concat(frames), [], NoFault), capacity) == Reader([], Reports(frames), NoFault)
  {
    if frames == [] {
      assert Reports(frames) == [];
    } else {
      var before, f := Init(frames), Last(frames);
      assert before == frames[..|frames| - 1] && f == frames[|frames| - 1] && Concat(frames) == Concat(before) + f;
      hide *;
      FramesParse(before, capacity);
      ParsesOnceMore(Concat(before), f, Reports(before), capacity);
      ReportsUnfold(before, f);
      assert before + [f] == frames;
    }
  }

  lemma ReportsUnfold(before: seq<Bytes>, f: Bytes)
    ensures Reports(before + [f]) == Reports(before) + [Report(f)]
  {
    hide Report;
  }

  /** The reader recovers the sent frames, in order and complete, from any cutting of their stream. */
  lemma ReaderRecoversFrames(frames: seq<Bytes>, pieces: seq<Bytes>, capacity: nat)
    requires forall i :: 0 <= i < |frames| ==> IsFrame(frames[i], capacity)
    requires Concat(pieces) == Concat(frames)
    ensures ReceiveAll(pieces, capacity) == Reader([], Reports(frames), NoFault)
  {
    ChunkingDoesNotMatter(pieces, capacity);
    FramesParse(frames, capacity);
  }

  lemma FaultyHeaderStops(done: seq<Parsed>, bad: Bytes, capacity: nat)
    requires |bad| >= 8
    ensures
      var r, id, size := ParsePackets(Reader(bad, done, NoFault), capacity), IdOf(bad), SizeOf(bad);
      && (0 <= size < 8 ==> r.parsed == done && r.fault == SizeTooSmall)
      && (size < 0 || (size >= 8 && size > capacity) ==> r.parsed == done && r.fault == SizeTooLarge)
      && (8 <= size <= capacity && |bad| < size ==> r == Reader(bad, done, NoFault))
      && (8 <= size <= capacity && |bad| >= size && !(0 <= id < 0x1_0000) ==> r.parsed == done && r.fault == IdOutOfRange)
  {}

  /** From any cutting of good frames and a faulty one after them the reader reports exactly the good frames and the
      fault: a size below the header, a size that is negative or beyond the buffer, or an id that is no 16-bit number;
      a size that is merely not reached yet is waited for. */
  lemma FirstFaultyFrameStops(frames: seq<Bytes>, bad: Bytes, pieces: seq<Bytes>, capacity: nat)
    requires forall i :: 0 <= i < |frames| ==> IsFrame(frames[i], capacity)
    requires |bad| >= 8 && Concat(pieces) == Concat(frames) + bad
    ensures
      var r, id, size := ReceiveAll(pieces, capacity), IdOf(bad), SizeOf(bad);
      && (0 <= size < 8 ==> r.parsed == Reports(frames) && r.fault == SizeTooSmall)
      && (size < 0 || (size >= 8 && size > capacity) ==> r.parsed == Reports(frames) && r.fault == SizeTooLarge)
      && (8 <= size <= capacity && |bad| < size ==> r == Reader(bad, Reports(frames), NoFault))
      && (8 <= size <= capacity && |bad| >= size && !(0 <= id < 0x1_0000) ==>
            r.parsed == Reports(frames) && r.fault == IdOutOfRange)
  {
    ChunkingDoesNotMatter(pieces, capacity);
    FramesParse(frames, capacity);
    ParseThenParse(Reader(Concat(frames), [], NoFault), bad, capacity);
    assert [] + bad == bad;
    FaultyHeaderStops(Reports(frames), bad, capacity);
    hide ParsePackets, Reports, IsFrame, Concat, IdOf, SizeOf, ReceiveAll;
  }
}
