/** Chunk streams do not interfere: a chunk is read from its own bytes and the memory of its
    own stream, so any mixture of streams reads as each of them does alone. */
module Demultiplex {
  import opened Bytes
  import opened ChunkHeader
  import opened ChunkStream

  /** The headers are there and so is all the payload they call for. */
  predicate Whole(d: Demux, s: seq<byte>, slack: nat) {
    var h := ReadHeaders(d, s, slack);
    h.Headers? && Expected(h.reader, d.chunkSize) <= |h.rest|
  }

  /** Two connections that look the same to one chunk stream. */
  predicate SameFor(d: Demux, d': Demux, csid: int) {
    && d'.At(csid) == d.At(csid) && d'.chunkSize == d.chunkSize
    && (csid in d'.readers || |d'.readers| < d'.maxStreams)
  }

  lemma HeadersAreLocal(d: Demux, s: seq<byte>, slack: nat, d': Demux, u: seq<byte>, slack': nat)
    requires ReadHeaders(d, s, slack).Headers? && ShortForm(s)
    requires SameFor(d, d', ReadHeaders(d, s, slack).csid)
    ensures var h := ReadHeaders(d, s, slack);
            ReadHeaders(d', s[..|s| - |h.rest|] + u, slack') == Headers(h.csid, h.reader, u)
  {
    hide DecodeBasicHeader, DecodeMessageHeader, Absorb;
    var p := DecodeBasicHeader(s, slack);
    var mode := d.At(p.value.csid).mode;
    var q := DecodeMessageHeader(p.rest, p.value.fmt, mode);
    var b := s[..|s| - |p.rest|];
    var m := p.rest[..|p.rest| - |q.rest|];
    assert s[..|s| - |q.rest|] + u == b + (m + u);
    BasicHeaderIsLocal(s, slack, m + u, slack');
    MessageHeaderIsLocal(p.rest, p.value.fmt, mode, u);
  }

  lemma PayloadIsLocal(d: Demux, csid: int, r: Reader, s: seq<byte>, d': Demux, t: seq<byte>)
    requires ReadPayload(d, csid, r, s).Chunk? && d'.chunkSize == d.chunkSize
    requires Expected(r, d.chunkSize) <= |s| || t == []
    ensures var res := ReadPayload(d, csid, r, s);
            ReadPayload(d', csid, r, s[..|s| - |res.rest|] + t)
            == Chunk(d'.(readers := d'.readers[csid := res.demux.readers[csid]]), csid, t)
  {
    var n := Min(Expected(r, d.chunkSize), |s|);
    assert (s[..n] + t)[..n] == s[..n] && (s[..n] + t)[n..] == t;
  }

  lemma Cut(s: seq<byte>, u: seq<byte>, v: seq<byte>, t: seq<byte>)
    requires |v| <= |u| <= |s| && u == s[|s| - |u|..]
    ensures s[..|s| - |v|] + t == s[..|s| - |u|] + (u[..|u| - |v|] + t)
  {
  }

  /** A chunk is read the same way from its own bytes on any connection that looks the same
      to its stream. Only a payload cut off by the end of the input depends on that end. */
  lemma ChunkIsLocal(d: Demux, s: seq<byte>, slack: nat, d': Demux, t: seq<byte>, slack': nat)
    requires ReadChunk(d, s, slack).Chunk? && ShortForm(s)
    requires SameFor(d, d', ReadChunk(d, s, slack).csid)
    requires Whole(d, s, slack) || t == []
    ensures var res := ReadChunk(d, s, slack);
            ReadChunk(d', s[..|s| - |res.rest|] + t, slack')
            == Chunk(d'.(readers := d'.readers[res.csid := res.demux.readers[res.csid]]), res.csid, t)
  {
    HeadersTakePrefix(d, s, slack);
    var h := ReadHeaders(d, s, slack);
    hide ReadHeaders, Append, Expected, ShortForm;
    var res := ReadChunk(d, s, slack);
    PayloadIsLocal(d, h.csid, h.reader, h.rest, d', t);
    Cut(s, h.rest, res.rest, t);
    HeadersAreLocal(d, s, slack, d', h.rest[..|h.rest| - |res.rest|] + t, slack');
    hide ReadPayload;
  }

  // ---- whole runs ---------------------------------------------------------------------

  datatype Slice = Slice(csid: int, bytes: seq<byte>, message: Option<Message>)

  function MessageOf(r: Reader): Option<Message> {
    if r.completed then Some(r.Assembled()) else None
  }

  /** Reading to the end of the input at one chunk size: the chunks found, with the message
      each completes, and the final state; none when a chunk fails. */
  function Run(d: Demux, s: seq<byte>, slack: nat -> nat): (seq<Slice>, Option<Demux>)
    decreases |s|
  {
    if s == [] then
      ([], Some(d))
    else
      match ReadChunk(d, s, slack(|s|))
      case Failed(_, _) => ([], None)
      case Chunk(d1, c, rest) =>
        var later := Run(d1, rest, slack);
        ([Slice(c, s[..|s| - |rest|], MessageOf(d1.readers[c]))] + later.0, later.1)
  }

  /** The slices of one chunk stream. */
  function Only(ss: seq<Slice>, c: int): seq<Slice> {
    if ss == [] then [] else (if ss[0].csid == c then [ss[0]] else []) + Only(ss[1..], c)
  }

  function Joined(ss: seq<Slice>): seq<byte> {
    if ss == [] then [] else ss[0].bytes + Joined(ss[1..])
  }

  predicate AllShort(ss: seq<Slice>) {
    forall x <- ss :: ShortForm(x.bytes)
  }

  lemma RunReads(d: Demux, s: seq<byte>, slack: nat -> nat)
    requires s != [] && Run(d, s, slack).1.Some?
    ensures ReadChunk(d, s, slack(|s|)).Chunk?
  {
    hide ReadChunk;
  }

  lemma Rejoin(s: seq<byte>, t: seq<byte>)
    requires |t| <= |s| && t == s[|s| - |t|..]
    ensures s == s[..|s| - |t|] + t
  {
  }

  lemma RunOf(d: Demux, s: seq<byte>, slack: nat -> nat, d1: Demux, x: Slice, rest: seq<byte>)
    requires s == x.bytes + rest && ReadChunk(d, s, slack(|s|)) == Chunk(d1, x.csid, rest)
    requires x.csid in d1.readers && x.message == MessageOf(d1.readers[x.csid])
    ensures |rest| < |s| && Run(d, s, slack) == ([x] + Run(d1, rest, slack).0, Run(d1, rest, slack).1)
  {
    hide ReadChunk;
    assert s[..|s| - |rest|] == x.bytes;
  }

  lemma RunUnfolds(d: Demux, s: seq<byte>, slack: nat -> nat) returns (res: ReadResult)
    requires s != [] && Run(d, s, slack).1.Some?
    ensures res == ReadChunk(d, s, slack(|s|)) && res.Chunk? && |res.rest| < |s|
    ensures s == s[..|s| - |res.rest|] + res.rest && res.csid in res.demux.readers
    ensures Run(d, s, slack)
            == ([Slice(res.csid, s[..|s| - |res.rest|], MessageOf(res.demux.readers[res.csid]))]
                + Run(res.demux, res.rest, slack).0,
                Run(res.demux, res.rest, slack).1)
  {
    hide *;
    res := ReadChunk(d, s, slack(|s|));
    RunReads(d, s, slack);
    ReadChunkTakesPrefix(d, s, slack(|s|));
    Rejoin(s, res.rest);
    RunOf(d, s, slack, res.demux,
          Slice(res.csid, s[..|s| - |res.rest|], MessageOf(res.demux.readers[res.csid])), res.rest);
  }

  lemma TouchesOneStream(d: Demux, s: seq<byte>, slack: nat)
    ensures var res := ReadChunk(d, s, slack);
            res.Chunk? ==> res.demux == d.(readers := d.readers[res.csid := res.demux.readers[res.csid]])
  {
    ReaderSafety(d, s, slack);
    hide *;
  }

  lemma SameForm(b: seq<byte>, s: seq<byte>)
    requires |b| <= |s| && b == s[..|b|] && ShortForm(b)
    ensures ShortForm(s)
  {
  }

  lemma AllShortCons(x: Slice, later: seq<Slice>)
    ensures AllShort([x] + later) ==> ShortForm(x.bytes) && AllShort(later)
  {
    if AllShort([x] + later) {
      assert ([x] + later)[0] in [x] + later;
      assert forall y <- later :: y in [x] + later;
    }
  }

  /** The first slice of a run and the run after it. */
  lemma FirstSlice(d: Demux, s: seq<byte>, slack: nat -> nat) returns (x: Slice, d1: Demux, rest: seq<byte>)
    requires s != [] && Run(d, s, slack).1.Some?
    ensures ReadChunk(d, s, slack(|s|)) == Chunk(d1, x.csid, rest)
    ensures |rest| < |s| && x.bytes == s[..|s| - |rest|] && s == x.bytes + rest
    ensures x.csid in d1.readers && x.message == MessageOf(d1.readers[x.csid])
    ensures Run(d, s, slack) == ([x] + Run(d1, rest, slack).0, Run(d1, rest, slack).1)
    ensures AllShort(Run(d, s, slack).0) ==> ShortForm(s) && AllShort(Run(d1, rest, slack).0)
    ensures d1 == d.(readers := d.readers[x.csid := d1.readers[x.csid]])
  {
    hide *;
    var res := RunUnfolds(d, s, slack);
    TouchesOneStream(d, s, slack(|s|));
    d1, rest := res.demux, res.rest;
    x := Slice(res.csid, s[..|s| - |rest|], MessageOf(d1.readers[res.csid]));
    AllShortCons(x, Run(d1, rest, slack).0);
    if AllShort(Run(d, s, slack).0) {
      SameForm(x.bytes, s);
    }
  }

  lemma OnlyCons(x: Slice, ss: seq<Slice>, c: int)
    ensures Only([x] + ss, c) == (if x.csid == c then [x] + Only(ss, c) else Only(ss, c))
    ensures Joined([x] + ss) == x.bytes + Joined(ss)
  {
    assert ([x] + ss)[1..] == ss;
  }

  lemma TruncatedIsLast(d: Demux, s: seq<byte>, k: nat, slack: nat -> nat, d1: Demux)
    ensures var res := ReadChunk(d, s, k);
            res.Chunk? && !Whole(d, s, k) ==> res.rest == [] && Joined(Only(Run(d1, res.rest, slack).0, res.csid)) == []
  {
    hide ReadHeaders, Append;
  }

  /** A chunk of the stream in question, put before that stream's later chunks. */
  lemma OwnChunk(d: Demux, s: seq<byte>, slack: nat -> nat, d1: Demux, x: Slice, rest: seq<byte>, later: seq<Slice>,
                 d': Demux, slack': nat -> nat)
    requires ShortForm(s) && SameFor(d, d', x.csid) && |rest| < |s| && x.bytes == s[..|s| - |rest|]
    requires ReadChunk(d, s, slack(|s|)) == Chunk(d1, x.csid, rest) && x.csid in d1.readers
    requires later == Run(d1, rest, slack).0
    ensures var own := Joined(Only(later, x.csid));
            ReadChunk(d', x.bytes + own, slack'(|x.bytes + own|))
            == Chunk(d'.(readers := d'.readers[x.csid := d1.readers[x.csid]]), x.csid, own)
  {
    var own := Joined(Only(later, x.csid));
    hide *;
    TruncatedIsLast(d, s, slack(|s|), slack, d1);
    ChunkIsLocal(d, s, slack(|s|), d', own, slack'(|x.bytes + own|));
  }

  /** Non-interference: on any bytes that read without an error, one chunk stream gets from
      the mixture exactly what it gets from its own chunks alone. */
  lemma {:induction false} NonInterference(d: Demux, s: seq<byte>, slack: nat -> nat, c: int,
                                           d': Demux, slack': nat -> nat)
    requires Run(d, s, slack).1.Some? && AllShort(Run(d, s, slack).0)
    requires SameFor(d, d', c)
    ensures var mixed, alone := Run(d, s, slack), Run(d', Joined(Only(Run(d, s, slack).0, c)), slack');
            && alone.0 == Only(mixed.0, c) && alone.1.Some?
            && alone.1.value.At(c) == mixed.1.value.At(c)
    decreases |s|
  {
    if s != [] {
      hide AllShort, ShortForm, ReadChunk, MessageOf;
      var x, d1, rest := FirstSlice(d, s, slack);
      var later := Run(d1, rest, slack).0;
      OnlyCons(x, later, c);
      hide Run, Only;
      if x.csid == c {
        var own := Joined(Only(later, c));
        var d1' := d'.(readers := d'.readers[c := d1.readers[c]]);
        OwnChunk(d, s, slack, d1, x, rest, later, d', slack');
        NonInterference(d1, rest, slack, c, d1', slack');
        OnlyCons(x, Only(later, c), c);
        RunOf(d', x.bytes + own, slack', d1', x, own);
      } else {
        NonInterference(d1, rest, slack, c, d', slack');
      }
    }
  }

  // ---- putting streams together -------------------------------------------------------

  /** One chunk read alone: all its bytes are used and nothing is missing. */
  function Solo(r: Reader, csid: int, chunkSize: uint32, b: seq<byte>): Option<Reader> {
    var d := Demux(map[csid := r], 1, chunkSize);
    match ReadChunk(d, b, 0)
    case Failed(_, _) => None
    case Chunk(d1, c, rest) =>
      if c == csid && rest == [] && ShortForm(b) && Whole(d, b, 0) then Some(d1.readers[c]) else None
  }

  /** The chunks of one stream, one after another. */
  function Play(r: Reader, csid: int, chunkSize: uint32, bs: seq<seq<byte>>): Option<(Reader, seq<Message>)>
    decreases |bs|
  {
    if bs == [] then
      Some((r, []))
    else
      match Solo(r, csid, chunkSize, bs[0])
      case None => None
      case Some(r1) =>
        match Play(r1, csid, chunkSize, bs[1..])
        case None => None
        case Some((r2, ms)) => Some((r2, (if r1.completed then [r1.Assembled()] else []) + ms))
  }

  datatype Tagged = Tagged(csid: int, bytes: seq<byte>)

  function Own(ts: seq<Tagged>, c: int): seq<seq<byte>> {
    if ts == [] then [] else (if ts[0].csid == c then [ts[0].bytes] else []) + Own(ts[1..], c)
  }

  function Concat(ts: seq<Tagged>): seq<byte> {
    if ts == [] then [] else ts[0].bytes + Concat(ts[1..])
  }

  function Messages(ss: seq<Slice>, c: int): seq<Message> {
    if ss == [] then []
    else (if ss[0].csid == c && ss[0].message.Some? then [ss[0].message.value] else []) + Messages(ss[1..], c)
  }

  ghost predicate Playable(d: Demux, ts: seq<Tagged>, ids: set<int>) {
    && |d.readers.Keys + ids| <= d.maxStreams
    && (forall i :: 0 <= i < |ts| ==> ts[i].csid in ids)
    && (forall k <- ids :: Play(d.At(k), k, d.chunkSize, Own(ts, k)).Some?)
  }

  lemma SoloAnywhere(d: Demux, csid: int, b: seq<byte>, t: seq<byte>, slack: nat)
    requires Solo(d.At(csid), csid, d.chunkSize, b).Some?
    requires csid in d.readers || |d.readers| < d.maxStreams
    ensures ReadChunk(d, b + t, slack)
            == Chunk(d.(readers := d.readers[csid := Solo(d.At(csid), csid, d.chunkSize, b).value]), csid, t)
  {
    var solo := Demux(map[csid := d.At(csid)], 1, d.chunkSize);
    hide ReadChunk, Whole, ShortForm;
    ChunkIsLocal(solo, b, 0, d, t, slack);
    assert b[..|b|] == b;
  }

  lemma OwnFirst(ts: seq<Tagged>, c: int)
    requires ts != []
    ensures Own(ts, c) == if ts[0].csid == c then [ts[0].bytes] + Own(ts[1..], c) else Own(ts[1..], c)
  {
  }

  lemma PlayFirst(r: Reader, csid: int, chunkSize: uint32, b: seq<byte>, bs: seq<seq<byte>>)
    ensures var first := Solo(r, csid, chunkSize, b);
            var play := Play(r, csid, chunkSize, [b] + bs);
            play.Some? <==> first.Some? && Play(first.value, csid, chunkSize, bs).Some?
    ensures var first := Solo(r, csid, chunkSize, b);
            var play := Play(r, csid, chunkSize, [b] + bs);
            play.Some? ==>
              var rest := Play(first.value, csid, chunkSize, bs).value;
              play.value == (rest.0, (if first.value.completed then [first.value.Assembled()] else []) + rest.1)
  {
    hide Solo;
    assert ([b] + bs)[1..] == bs;
  }

  lemma RoomAmong(d: Demux, ids: set<int>, c: int)
    requires |d.readers.Keys + ids| <= d.maxStreams && c in ids
    ensures c in d.readers || |d.readers| < d.maxStreams
  {
    if c !in d.readers {
      assert d.readers.Keys + ids == d.readers.Keys + (ids - d.readers.Keys);
      assert c in ids - d.readers.Keys;
    }
  }

  lemma RestPlayable(d: Demux, ts: seq<Tagged>, ids: set<int>, d1: Demux)
    requires ts != [] && Playable(d, ts, ids)
    requires var r1 := Solo(d.At(ts[0].csid), ts[0].csid, d.chunkSize, ts[0].bytes);
             r1.Some? && d1 == d.(readers := d.readers[ts[0].csid := r1.value])
    ensures Playable(d1, ts[1..], ids)
  {
    hide Solo, Own, Play;
    forall k <- ids ensures Play(d1.At(k), k, d1.chunkSize, Own(ts[1..], k)).Some? {
      OwnFirst(ts, k);
      PlayFirst(d.At(k), k, d.chunkSize, ts[0].bytes, Own(ts[1..], k));
      assert Play(d.At(k), k, d.chunkSize, Own(ts, k)).Some?;
    }
    assert ts[0].csid in ids;
    assert d1.readers.Keys + ids == d.readers.Keys + ids;
  }

  lemma FirstTagged(d: Demux, ts: seq<Tagged>, ids: set<int>, slack: nat)
    returns (d1: Demux)
    requires ts != [] && Playable(d, ts, ids)
    ensures var c := ts[0].csid;
            var r1 := Solo(d.At(c), c, d.chunkSize, ts[0].bytes);
            && r1.Some? && d1 == d.(readers := d.readers[c := r1.value]) && Playable(d1, ts[1..], ids)
            && ReadChunk(d, Concat(ts), slack) == Chunk(d1, c, Concat(ts[1..]))
  {
    var c, b := ts[0].csid, ts[0].bytes;
    assert c in ids && Play(d.At(c), c, d.chunkSize, Own(ts, c)).Some?;
    OwnFirst(ts, c);
    RoomAmong(d, ids, c);
    PlayFirst(d.At(c), c, d.chunkSize, b, Own(ts[1..], c));
    d1 := d.(readers := d.readers[c := Solo(d.At(c), c, d.chunkSize, b).value]);
    assert Concat(ts) == b + Concat(ts[1..]);
    hide *;
    SoloAnywhere(d, c, b, Concat(ts[1..]), slack);
    RestPlayable(d, ts, ids, d1);
  }

  /** Whatever the order in which whole chunks of several streams share the wire, they read
      without error, and each stream's messages and memory are those of its chunks alone. */
  lemma {:induction false} Interleaved(d: Demux, ts: seq<Tagged>, ids: set<int>, slack: nat -> nat, c: int)
    requires Playable(d, ts, ids) && c in ids
    ensures var run, alone := Run(d, Concat(ts), slack), Play(d.At(c), c, d.chunkSize, Own(ts, c));
            run.1.Some? && alone.Some? && run.1.value.At(c) == alone.value.0 && Messages(run.0, c) == alone.value.1
    decreases |ts|
  {
    assert Play(d.At(c), c, d.chunkSize, Own(ts, c)).Some?;
    if ts != [] {
      var all := Concat(ts);
      var d1 := FirstTagged(d, ts, ids, slack(|all|));
      Interleaved(d1, ts[1..], ids, slack, c);
      var k := ts[0].csid;
      var x := Slice(k, ts[0].bytes, MessageOf(d1.readers[k]));
      hide ReadChunk, Playable, Solo, Run, Play, Own;
      RunOf(d, all, slack, d1, x, Concat(ts[1..]));
      var later := Run(d1, Concat(ts[1..]), slack).0;
      assert ([x] + later)[1..] == later;
      OwnFirst(ts, c);
      PlayFirst(d.At(c), c, d.chunkSize, ts[0].bytes, Own(ts[1..], c));
    }
  }
}
