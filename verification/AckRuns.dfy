/** Acknowledgements over what a connection really reads: how many bytes a chunk takes, and
    exactly the windows at which every byte is accounted for. */
module AckRuns {
  import opened Bytes
  import opened ChunkHeader
  import opened ChunkStream
  import opened Demultiplex
  import opened AckWindow
  import opened Lockstep

  /** The longest one- or two-byte basic header and message header. */
  const MAX_HEADERS := 17

  // ---- how many bytes a chunk takes ---------------------------------------------------

  lemma HeadersAreBounded(d: Demux, s: seq<byte>, slack: nat)
    requires ReadHeaders(d, s, slack).Headers?
    ensures |s| - |ReadHeaders(d, s, slack).rest| <= MAX_HEADERS + if ShortForm(s) then 0 else 1 + slack
  {
    var p := DecodeBasicHeader(s, slack);
    assert |s| - |p.rest| <= if ShortForm(s) then 2 else 3 + slack;
    hide DecodeBasicHeader, DecodeMessageHeader, Absorb;
  }

  /** How many bytes one chunk takes at most: behind a three-byte basic header so many more
      as the read of that header takes along. */
  lemma ChunkIsBounded(d: Demux, s: seq<byte>, slack: nat)
    requires ReadChunk(d, s, slack).Chunk? && d.At(ReadChunk(d, s, slack).csid).length <= MAX_UINT24
    ensures |s| - |ReadChunk(d, s, slack).rest|
            <= MAX_HEADERS + (if ShortForm(s) then 0 else 1 + slack) + Min(d.chunkSize, MAX_UINT24)
  {
    HeadersAreBounded(d, s, slack);
    HeadersSafety(d, s, slack);
    hide ReadHeaders, Append, ShortForm;
  }

  /** What a chunk takes at most, when three-byte basic headers come with `extra` bytes more
      than a two-byte one, or do not come at all. */
  function Largest(d: Demux, extra: nat): nat {
    MAX_HEADERS + extra + if d.chunkSize < MAX_UINT24 then d.chunkSize else MAX_UINT24
  }

  predicate AllSane(d: Demux) {
    forall c <- d.readers :: Sane(d.readers[c])
  }

  /** The input has no three-byte basic headers, or behind them fewer than `extra` bytes are
      lost. */
  ghost predicate Takes(ss: seq<Slice>, slack: nat -> nat, extra: nat) {
    AllShort(ss) || forall n :: slack(n) < extra
  }

  lemma StaysSane(d: Demux, s: seq<byte>, slack: nat)
    requires AllSane(d) && ReadChunk(d, s, slack).Chunk?
    ensures var res := ReadChunk(d, s, slack);
            && AllSane(res.demux) && res.demux.chunkSize == d.chunkSize && d.At(res.csid).length <= MAX_UINT24
  {
    ReaderSafety(d, s, slack);
    hide ReadChunk;
  }

  lemma RunEmpty(d: Demux, slack: nat -> nat)
    ensures Run(d, [], slack) == ([], Some(d))
  {
  }

  lemma FirstIsBounded(d: Demux, s: seq<byte>, slack: nat -> nat, extra: nat)
    returns (x: Slice, d1: Demux, rest: seq<byte>)
    requires s != [] && AllSane(d) && Run(d, s, slack).1.Some? && Takes(Run(d, s, slack).0, slack, extra)
    ensures |rest| < |s| && AllSane(d1) && Run(d, s, slack) == ([x] + Run(d1, rest, slack).0, Run(d1, rest, slack).1)
    ensures Takes(Run(d1, rest, slack).0, slack, extra)
    ensures |x.bytes| <= Largest(d, extra) == Largest(d1, extra)
  {
    hide ReadChunk, Run, AllShort, AllSane, ShortForm;
    x, d1, rest := FirstSlice(d, s, slack);
    StaysSane(d, s, slack(|s|));
    ChunkIsBounded(d, s, slack(|s|));
  }

  lemma {:induction false} SlicesAreBounded(d: Demux, s: seq<byte>, slack: nat -> nat, extra: nat)
    requires AllSane(d) && Run(d, s, slack).1.Some? && Takes(Run(d, s, slack).0, slack, extra)
    ensures forall x <- Run(d, s, slack).0 :: |x.bytes| <= Largest(d, extra)
    decreases |s|
  {
    hide *;
    if s != [] {
      var x, d1, rest := FirstIsBounded(d, s, slack, extra);
      SlicesAreBounded(d1, rest, slack, extra);
    } else {
      RunEmpty(d, slack);
    }
  }

  // ---- its turns ----------------------------------------------------------------------

  function TurnsOf(ss: seq<Slice>, window: int32): (ts: seq<Turn>)
    ensures |ts| == |ss| && forall i :: 0 <= i < |ss| ==> ts[i] == Turn(|ss[i].bytes|, window)
  {
    seq(|ss|, i requires 0 <= i < |ss| => Turn(|ss[i].bytes|, window))
  }

  lemma TotalOfSlices(x: Slice, later: seq<Slice>, window: int32)
    ensures Total(TurnsOf([x] + later, window)) == |x.bytes| + Total(TurnsOf(later, window))
  {
    assert TurnsOf([x] + later, window)[1..] == TurnsOf(later, window);
  }

  lemma {:induction false} SlicesCoverInput(d: Demux, s: seq<byte>, slack: nat -> nat, window: int32)
    requires Run(d, s, slack).1.Some?
    ensures Total(TurnsOf(Run(d, s, slack).0, window)) == |s|
    decreases |s|
  {
    if s == [] {
      assert Run(d, s, slack).0 == [];
    } else {
      hide ReadChunk, Run, AllShort, TurnsOf, Total;
      var x, d1, rest := FirstSlice(d, s, slack);
      SlicesCoverInput(d1, rest, slack, window);
      TotalOfSlices(x, Run(d1, rest, slack).0, window);
    }
  }

  lemma TurnsAreFixed(ss: seq<Slice>, window: int32, most: nat)
    requires forall x <- ss :: |x.bytes| <= most
    ensures Fixed(TurnsOf(ss, window), window, most)
  {
    var ts := TurnsOf(ss, window);
    forall t <- ts ensures t.window == window && t.bytes <= most {
      var i :| 0 <= i < |ts| && ts[i] == t;
      assert ss[i] in ss;
    }
  }

  /** The turns of reading this input with this window, none of them too long. */
  lemma RunTurns(d: Demux, s: seq<byte>, slack: nat -> nat, window: int32, extra: nat)
    requires AllSane(d) && Run(d, s, slack).1.Some? && Takes(Run(d, s, slack).0, slack, extra)
    ensures var ts := TurnsOf(Run(d, s, slack).0, window);
            Fixed(ts, window, Largest(d, extra)) && Total(ts) == |s|
  {
    hide *;
    SlicesAreBounded(d, s, slack, extra);
    SlicesCoverInput(d, s, slack, window);
    TurnsAreFixed(Run(d, s, slack).0, window, Largest(d, extra));
  }

  /** On any input that reads without an error, at one chunk size and window: the
      unacknowledged bytes stay below W/2 between turns and below W/2 and the largest chunk
      when an Ack is sent, and the Acks account for every byte. */
  lemma UnacknowledgedIsBounded(d: Demux, s: seq<byte>, slack: nat -> nat, window: int32, extra: nat)
    requires AllSane(d) && Run(d, s, slack).1.Some? && Takes(Run(d, s, slack).0, slack, extra)
    requires window >= 2 && extra <= 0x1_0000
    ensures var ts := TurnsOf(Run(d, s, slack).0, window);
            var acks := Acks(Counters(0, 0), ts);
            && Last(Counters(0, 0), ts).fragment < window / 2
            && (forall k <- acks :: window / 2 <= k.gap < window / 2 + Largest(d, extra))
            && Gaps(acks) + Last(Counters(0, 0), ts).fragment == Total(ts) == |s|
            && Numbered(acks, 0)
  {
    hide Run, Takes, AllSane, TurnsOf, Acks, Last, Total, Gaps, Numbered, InTime, Fixed;
    var ts := TurnsOf(Run(d, s, slack).0, window);
    RunTurns(d, s, slack, window, extra);
    LateWindows(window, Largest(d, extra));
    FixedWindowBounds(Counters(0, 0), ts, window, Largest(d, extra));
    ConservedInTime(ts, window, Largest(d, extra));
  }

  // ---- an input of 2^32 bytes that calls for no Ack -----------------------------------

  /** A chunk stream whose ID takes two bytes. */
  const ID := 64

  const ONE_BYTE := MessageHeader(0, 0, 1, 8, 0, Unused)

  /** The chunk stream is between two messages. */
  predicate Resting(d: Demux) {
    d.chunkSize >= 1 && d.Room(ID) && (d.At(ID).completed || d.At(ID).buf == [])
  }

  /** The last message had one byte, and another may follow it without a header. */
  predicate Repeating(d: Demux) {
    Resting(d) && ID in d.readers && d.At(ID).completed && d.At(ID).length == 1 && d.At(ID).mode.Unused?
  }

  lemma OneByteRead(d: Demux, fmt: Format, rest: seq<byte>, slack: nat) returns (d1: Demux)
    requires Resting(d) && (fmt == 0 || (fmt == 3 && Repeating(d)))
    ensures ReadChunk(d, ChunkBytes(fmt, ID, ONE_BYTE, [7]) + rest, slack) == Chunk(d1, ID, rest)
    ensures Repeating(d1) && d1.chunkSize == d.chunkSize
  {
    var r := Received(d.At(ID), fmt, ID, ONE_BYTE, [7]);
    d1 := d.(readers := d.readers[ID := r]);
    hide ReadChunk, ChunkBytes;
    ChunkArrives(d, fmt, ID, ONE_BYTE, [7], rest, slack);
  }

  lemma OneByteSize(fmt: Format)
    requires fmt == 0 || fmt == 3
    ensures |ChunkBytes(fmt, ID, ONE_BYTE, [7])| == if fmt == 0 then 14 else 3
    ensures ShortForm(ChunkBytes(fmt, ID, ONE_BYTE, [7]))
  {
    BasicHeaderRoundTrip(BasicHeader(fmt, ID), [], 0);
    MessageHeaderRoundTrip(fmt, ONE_BYTE, Unused, []);
    hide EncodeMessageHeader;
  }

  /** So many one-byte messages in front of the rest. */
  function Filler(fmt: Format, n: nat, rest: seq<byte>): seq<byte> {
    if n == 0 then rest else ChunkBytes(fmt, ID, ONE_BYTE, [7]) + Filler(fmt, n - 1, rest)
  }

  lemma {:induction false} FillerSize(fmt: Format, n: nat, rest: seq<byte>)
    requires fmt == 0 || fmt == 3
    ensures |Filler(fmt, n, rest)| == n * (if fmt == 0 then 14 else 3) + |rest|
  {
    hide ChunkBytes;
    OneByteSize(fmt);
    if n > 0 {
      FillerSize(fmt, n - 1, rest);
    }
  }

  /** With this input the run finds these slices, and goes on with the rest from there. */
  ghost predicate Passes(d: Demux, s: seq<byte>, fs: seq<Slice>, d': Demux, rest: seq<byte>, slack: nat -> nat) {
    && AllShort(fs) && d'.chunkSize == d.chunkSize
    && Run(d, s, slack) == (fs + Run(d', rest, slack).0, Run(d', rest, slack).1)
  }

  lemma PassesNothing(d: Demux, rest: seq<byte>, slack: nat -> nat)
    ensures Passes(d, rest, [], d, rest, slack)
  {
    hide ReadChunk;
    assert [] + Run(d, rest, slack).0 == Run(d, rest, slack).0;
  }

  lemma PassesOne(d: Demux, s: seq<byte>, b: seq<byte>, rest: seq<byte>, slack: nat -> nat, d1: Demux)
    returns (x: Slice)
    requires s == b + rest && ReadChunk(d, s, slack(|s|)) == Chunk(d1, ID, rest) && ID in d1.readers
    requires d1.chunkSize == d.chunkSize
    ensures x.bytes == b && (ShortForm(b) ==> Passes(d, s, [x], d1, rest, slack))
    ensures Run(d, s, slack) == ([x] + Run(d1, rest, slack).0, Run(d1, rest, slack).1)
  {
    hide ReadChunk, Run, ShortForm;
    x := Slice(ID, b, MessageOf(d1.readers[ID]));
    RunOf(d, s, slack, d1, x, rest);
  }

  lemma PassesBoth(d: Demux, s: seq<byte>, fs: seq<Slice>, d1: Demux, t: seq<byte>, gs: seq<Slice>, d2: Demux,
                   rest: seq<byte>, slack: nat -> nat)
    requires Passes(d, s, fs, d1, t, slack) && Passes(d1, t, gs, d2, rest, slack)
    ensures Passes(d, s, fs + gs, d2, rest, slack)
  {
    hide Run;
    assert fs + (gs + Run(d2, rest, slack).0) == (fs + gs) + Run(d2, rest, slack).0;
  }

  lemma FillerFirst(fmt: Format, n: nat, rest: seq<byte>)
    requires n > 0
    ensures Filler(fmt, n, rest) == ChunkBytes(fmt, ID, ONE_BYTE, [7]) + Filler(fmt, n - 1, rest)
  {
    hide ChunkBytes;
  }

  /** One of these messages. */
  lemma OnePasses(d: Demux, fmt: Format, rest: seq<byte>, slack: nat -> nat) returns (d1: Demux, x: Slice)
    requires Resting(d) && (fmt == 0 || (fmt == 3 && Repeating(d)))
    ensures Repeating(d1) && Resting(d1)
    ensures Passes(d, ChunkBytes(fmt, ID, ONE_BYTE, [7]) + rest, [x], d1, rest, slack)
  {
    hide ReadChunk, ChunkBytes, Passes, Run, ShortForm;
    var c := ChunkBytes(fmt, ID, ONE_BYTE, [7]);
    d1 := OneByteRead(d, fmt, rest, slack(|c + rest|));
    OneByteSize(fmt);
    x := PassesOne(d, c + rest, c, rest, slack, d1);
  }

  lemma NoFiller(fmt: Format, rest: seq<byte>)
    ensures Filler(fmt, 0, rest) == rest
  {
  }

  lemma {:induction false} FillerReads(d: Demux, fmt: Format, n: nat, rest: seq<byte>, slack: nat -> nat)
    returns (d': Demux, fs: seq<Slice>)
    requires Resting(d) && (fmt == 0 || (fmt == 3 && Repeating(d)))
    ensures Resting(d') && (n > 0 || Repeating(d) ==> Repeating(d'))
    ensures Passes(d, Filler(fmt, n, rest), fs, d', rest, slack)
    decreases n
  {
    hide Run, ReadChunk, Filler, ChunkBytes, Passes, Resting, Repeating;
    if n == 0 {
      d', fs := d, [];
      NoFiller(fmt, rest);
      PassesNothing(d, rest, slack);
    } else {
      var c, more := ChunkBytes(fmt, ID, ONE_BYTE, [7]), Filler(fmt, n - 1, rest);
      FillerFirst(fmt, n, rest);
      var d1, x := OnePasses(d, fmt, more, slack);
      var gs;
      d', gs := FillerReads(d1, fmt, n - 1, rest, slack);
      fs := [x] + gs;
      PassesBoth(d, c + more, [x], d1, more, gs, d', rest, slack);
    }
  }

  /** A message in one chunk, as long as it may be, with an extended timestamp. */
  function Payload(d: Demux): seq<byte> {
    seq(Min(d.chunkSize, MAX_UINT24), _ => 7)
  }

  function LastHeader(d: Demux): MessageHeader {
    MessageHeader(MAX_UINT24, 0, Min(d.chunkSize, MAX_UINT24), 8, 0, Unused)
  }

  /** Its chunk: with a two-byte basic header, or with a three-byte one for the same ID and
      the bytes that are lost behind it. */
  function LastChunk(d: Demux, extra: nat): seq<byte> {
    (if extra == 0 then EncodeBasicHeader(BasicHeader(0, ID)).value else [1, 0, 0] + seq(extra - 1, _ => 0))
    + EncodeMessageHeader(0, LastHeader(d)) + Payload(d)
  }

  lemma LastSize(d: Demux, extra: nat)
    requires d.chunkSize >= 1
    ensures |LastChunk(d, extra)| == Largest(d, extra) > 0 && (extra == 0 ==> ShortForm(LastChunk(d, extra)))
  {
    BasicHeaderRoundTrip(BasicHeader(0, ID), [], 0);
    MessageHeaderRoundTrip(0, LastHeader(d), Unused, []);
    hide EncodeMessageHeader;
  }

  lemma LastBasic(d: Demux, extra: nat, slack: nat)
    requires extra > 0 ==> slack == extra - 1
    ensures DecodeBasicHeader(LastChunk(d, extra), slack)
            == Parsed(BasicHeader(0, ID), EncodeMessageHeader(0, LastHeader(d)) + Payload(d))
  {
    hide EncodeMessageHeader;
    var rest := EncodeMessageHeader(0, LastHeader(d)) + Payload(d);
    if extra == 0 {
      BasicHeaderRoundTrip(BasicHeader(0, ID), rest, slack);
      assert LastChunk(d, 0) == EncodeBasicHeader(BasicHeader(0, ID)).value + rest;
    } else {
      var s := LastChunk(d, extra);
      assert s[0] == 1 && s[1] == 0 && s[2] == 0 && s[3 + slack..] == rest;
    }
  }

  lemma LastHeaders(d: Demux, extra: nat, slack: nat) returns (r: Reader)
    requires Resting(d) && (extra > 0 ==> slack == extra - 1)
    ensures ReadHeaders(d, LastChunk(d, extra), slack) == Headers(ID, r, Payload(d))
    ensures 1 <= |Payload(d)| == Expected(r, d.chunkSize) && |r.buf| < r.length
  {
    var h, data := LastHeader(d), Payload(d);
    r := Absorb(d.At(ID), BasicHeader(0, ID), Carried(0, h));
    LastBasic(d, extra, slack);
    MessageHeaderRoundTrip(0, h, d.At(ID).mode, data);
    hide DecodeBasicHeader, DecodeMessageHeader, EncodeMessageHeader, LastChunk, Payload;
  }

  lemma LastRead(d: Demux, extra: nat, slack: nat) returns (d1: Demux)
    requires Resting(d) && (extra > 0 ==> slack == extra - 1)
    ensures ReadChunk(d, LastChunk(d, extra), slack) == Chunk(d1, ID, [])
    ensures ID in d1.readers && d1.chunkSize == d.chunkSize
  {
    hide ReadHeaders, LastChunk, Payload, Append, Expected, Resting;
    var data := Payload(d);
    var r := LastHeaders(d, extra, slack);
    assert data[..|data|] == data && data[|data|..] == [];
    d1 := d.(readers := d.readers[ID := Append(r, data)]);
  }

  lemma SameLast(d: Demux, d': Demux, extra: nat)
    requires d'.chunkSize == d.chunkSize
    ensures LastChunk(d', extra) == LastChunk(d, extra) && Largest(d', extra) == Largest(d, extra)
  {
  }

  /** The input reads without an error, and the last chunk takes all that one can take. */
  ghost predicate EndsLarge(d: Demux, s: seq<byte>, slack: nat -> nat, extra: nat) {
    var (ss, end) := Run(d, s, slack);
    end.Some? && Takes(ss, slack, extra) && ss != [] && |ss[|ss| - 1].bytes| == Largest(d, extra)
  }

  lemma LastRuns(d: Demux, extra: nat, slack: nat -> nat) returns (x: Slice, d1: Demux)
    requires Resting(d) && (extra > 0 ==> forall n :: slack(n) == extra - 1)
    ensures Run(d, LastChunk(d, extra), slack) == ([x], Some(d1))
    ensures |x.bytes| == Largest(d, extra) && (extra == 0 ==> ShortForm(x.bytes))
  {
    assert d.chunkSize >= 1;
    hide ReadChunk, Run, LastChunk, ShortForm, Resting, Passes, Largest;
    var last := LastChunk(d, extra);
    LastSize(d, extra);
    d1 := LastRead(d, extra, slack(|last|));
    RunEmpty(d1, slack);
    x := PassesOne(d, last, last, [], slack, d1);
    assert [x] + [] == [x];
  }

  lemma PassesLast(d: Demux, s: seq<byte>, fs: seq<Slice>, d': Demux, extra: nat, slack: nat -> nat)
    requires Resting(d') && Passes(d, s, fs, d', LastChunk(d', extra), slack)
    requires extra > 0 ==> forall n :: slack(n) == extra - 1
    ensures EndsLarge(d, s, slack, extra)
  {
    hide ReadChunk, Run, LastChunk, ShortForm, Resting;
    var x, d1 := LastRuns(d', extra, slack);
    assert Run(d, s, slack) == (fs + [x], Some(d1));
  }

  /** Any number of bytes but a few small ones, in front of the rest. */
  lemma Padded(d: Demux, m: nat, rest: seq<byte>, slack: nat -> nat) returns (s: seq<byte>, d': Demux, fs: seq<Slice>)
    requires Resting(d) && m >= 42
    ensures |s| == m + |rest| && Resting(d') && Passes(d, s, fs, d', rest, slack)
  {
    hide Run, ReadChunk, Filler, Resting, Repeating, Passes, ChunkBytes;
    // 14 leaves 2 when divided by 3
    var a := if m % 3 == 0 then 3 else if m % 3 == 1 then 2 else 1;
    var b := (m - 14 * a) / 3;
    var more := Filler(3, b, rest);
    s := Filler(0, a, more);
    FillerSize(3, b, rest);
    FillerSize(0, a, more);
    var d1, gs := FillerReads(d, 0, a, more, slack);
    var d2, hs := FillerReads(d1, 3, b, rest, slack);
    PassesBoth(d, s, gs, d1, more, hs, d2, rest, slack);
    d', fs := d2, gs + hs;
  }

  /** An input of any length there is room for, that ends with the longest chunk. */
  lemma LongInput(d: Demux, n: nat, extra: nat) returns (s: seq<byte>, slack: nat -> nat)
    requires Resting(d) && n >= Largest(d, extra) + 42
    ensures |s| == n && EndsLarge(d, s, slack, extra)
  {
    assert d.chunkSize >= 1;
    hide Run, ReadChunk, LastChunk, Takes, Resting, Largest, EndsLarge;
    slack := _ => if extra > 0 then extra - 1 else 0;
    LastSize(d, extra);
    var d', fs;
    s, d', fs := Padded(d, n - Largest(d, extra), LastChunk(d, extra), slack);
    SameLast(d, d', extra);
    PassesLast(d, s, fs, d', extra, slack);
  }

  /** Exactly the windows at which every byte read is accounted for, on a new connection and
      over every input that reads without an error at one chunk size and window. */
  lemma BooksKeptIff(d: Demux, window: int32, extra: nat)
    requires d.readers == map[] && d.maxStreams >= 1 && d.chunkSize >= 1 && extra <= 0x1_0000
    ensures (forall s, slack :: Run(d, s, slack).1.Some? && Takes(Run(d, s, slack).0, slack, extra) ==>
                                  Conserved(Counters(0, 0), TurnsOf(Run(d, s, slack).0, window)))
            <==> !(-2 * Largest(d, extra) < window <= -2)
  {
    hide ReadChunk, Run, Takes, Conserved, TurnsOf, Threshold;
    var most := Largest(d, extra);
    LateWindows(window, most);
    if InTime(window, most) {
      forall s, slack | Run(d, s, slack).1.Some? && Takes(Run(d, s, slack).0, slack, extra)
        ensures Conserved(Counters(0, 0), TurnsOf(Run(d, s, slack).0, window))
      {
        RunTurns(d, s, slack, window, extra);
        ConservedInTime(TurnsOf(Run(d, s, slack).0, window), window, most);
      }
    } else {
      var s, slack := LongInput(d, TOP, extra);
      RunTurns(d, s, slack, window, extra);
      var ts := TurnsOf(Run(d, s, slack).0, window);
      Unnoticed(Counters(0, 0), ts, window, most);
      assert !Conserved(Counters(0, 0), ts);
    }
  }
}
