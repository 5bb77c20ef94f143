/** How many chunks a message takes, which formats they have, and how many bytes in all. */
module Fragments {
  import opened Bytes
  import opened ChunkHeader
  import opened ChunkStream

  datatype Piece = Piece(fmt: Format, bytes: seq<byte>)

  /** The chunks `writeChunk` produces until it reports completion. */
  function Pieces(w: Writer, size: uint32): seq<Piece>
    requires InRange(w.csid) && size >= 1
    decreases |w.buf|
  {
    var res := WriteChunk(w, size);
    if res.OutOfRange? then
      []
    else
      [Piece(res.writer.fmt, res.bytes)] + if res.completed then [] else Pieces(res.writer, size)
  }

  function TotalBytes(ps: seq<Piece>): nat {
    if ps == [] then 0 else |ps[0].bytes| + TotalBytes(ps[1..])
  }

  /** Nothing about the message has changed since its last chunk. */
  predicate Continuing(w: Writer) {
    && !w.newChunk && w.length == w.header.messageLength && w.typeID == w.header.messageTypeID
    && w.streamID == w.header.messageStreamID && w.timestamp == w.header.timestamp
    && w.delta == w.header.timestampDelta
  }

  /** k is n divided by c, rounded up. */
  predicate RoundedUp(k: int, n: int, c: int) {
    (k - 1) * c < n <= k * c
  }

  lemma OneMore(k: int, n: int, c: int)
    requires RoundedUp(k, n - c, c)
    ensures RoundedUp(k + 1, n, c)
  {
    assert (k + 1) * c == k * c + c && (k + 1 - 1) * c == (k - 1) * c + c;
  }

  /** The basic headers of so many chunks. */
  function HeaderBytes(chunks: nat, csid: int): nat {
    chunks * BasicHeaderSize(csid)
  }

  lemma OneMoreHeader(chunks: nat, csid: int)
    ensures HeaderBytes(chunks + 1, csid) == HeaderBytes(chunks, csid) + BasicHeaderSize(csid)
    ensures HeaderBytes(0, csid) == 0
  {
  }

  /** What one call of `writeChunk` does. */
  lemma OneWrite(w: Writer, size: uint32)
    requires InRange(w.csid) && |w.buf| <= MAX_UINT32
    ensures var w1 := UpdateHeader(w);
            var n := Min(|w.buf|, size);
            var res := WriteChunk(w, size);
            && res.Written? && res.writer == w1.(buf := w1.buf[n..]) && res.completed == (|w.buf| <= size)
            && |res.bytes| == BasicHeaderSize(w.csid) + |EncodeMessageHeader(w1.fmt, w1.header)| + n
            && w1.buf == w.buf && w1.csid == w.csid && Continuing(res.writer)
  {
    BasicHeaderRoundTrip(BasicHeader(UpdateHeader(w).fmt, w.csid), [], 0);
    hide EncodeMessageHeader, EncodeBasicHeader, BasicHeaderSize;
  }

  /** One chunk: its size, and that it is followed by the chunks of the rest, if any. */
  lemma OneChunk(w: Writer, size: uint32)
    requires InRange(w.csid) && |w.buf| <= MAX_UINT32 && size >= 1
    ensures var w1 := UpdateHeader(w);
            var n := Min(|w.buf|, size);
            var w2 := w1.(buf := w1.buf[n..]);
            var ps := Pieces(w, size);
            && Continuing(w2) && ps != [] && ps[0].fmt == w1.fmt
            && ps[1..] == (if |w.buf| <= size then [] else Pieces(w2, size))
            && TotalBytes(ps) == BasicHeaderSize(w.csid) + |EncodeMessageHeader(w1.fmt, w1.header)| + n
                                 + TotalBytes(ps[1..])
  {
    OneWrite(w, size);
    hide EncodeMessageHeader, WriteChunk, BasicHeaderSize, UpdateHeader, Continuing;
  }

  lemma {:induction false} ContinuationPieces(w: Writer, size: uint32)
    requires InRange(w.csid) && 1 <= |w.buf| <= MAX_UINT32 && size >= 1 && Continuing(w)
    ensures var ps := Pieces(w, size);
            && RoundedUp(|ps|, |w.buf|, size)
            && (forall i :: 0 <= i < |ps| ==> ps[i].fmt == 3)
            && TotalBytes(ps) == |w.buf| + HeaderBytes(|ps|, w.csid)
    decreases |w.buf|
  {
    var w1 := UpdateHeader(w);
    assert w1.fmt == 3 && EncodeMessageHeader(3, w1.header) == [];
    OneChunk(w, size);
    Rest(|w.buf|, w1.(buf := w1.buf[Min(|w.buf|, size)..]), size, Pieces(w, size), 0);
  }

  lemma JustOne(n: int, c: int)
    ensures 1 <= n <= c ==> RoundedUp(1, n, c)
  {
  }

  lemma NothingMore(ps: seq<Piece>)
    requires ps != [] && ps[1..] == []
    ensures |ps| == 1 && TotalBytes(ps[1..]) == 0
  {
  }

  /** The first chunk of n bytes, and the rest that `w` has. */
  lemma Rest(n: nat, w: Writer, size: uint32, ps: seq<Piece>, extra: nat)
    requires InRange(w.csid) && 1 <= n <= MAX_UINT32 && size >= 1 && ps != []
    requires Continuing(w) && |w.buf| == n - Min(n, size) && ps[1..] == (if n <= size then [] else Pieces(w, size))
    requires TotalBytes(ps) == BasicHeaderSize(w.csid) + extra + Min(n, size) + TotalBytes(ps[1..])
    ensures RoundedUp(|ps|, n, size)
    ensures forall i :: 1 <= i < |ps| ==> ps[i].fmt == 3
    ensures TotalBytes(ps) == n + HeaderBytes(|ps|, w.csid) + extra
    decreases n, 0
  {
    hide Continuing, BasicHeaderSize, Pieces, HeaderBytes, RoundedUp, TotalBytes;
    OneMoreHeader(|ps| - 1, w.csid);
    OneMoreHeader(0, w.csid);
    if n > size {
      ContinuationPieces(w, size);
      OneMore(|ps| - 1, n, size);
      assert forall i :: 1 <= i < |ps| ==> ps[i] == ps[1..][i - 1];
    } else {
      NothingMore(ps);
      JustOne(n, size);
    }
  }

  /** A message of n bytes at chunk size c takes n/c chunks, rounded up; all but the first
      are type 3; and the wire carries the payload, one basic header a chunk and one
      message header. */
  lemma FragmentArithmetic(w: Writer, size: uint32)
    requires InRange(w.csid) && 1 <= |w.buf| <= MAX_UINT24 && w.length == |w.buf| && size >= 1
    ensures var ps := Pieces(w, size);
            var w1 := UpdateHeader(w);
            && RoundedUp(|ps|, |w.buf|, size)
            && ps[0].fmt == w1.fmt && (forall i :: 1 <= i < |ps| ==> ps[i].fmt == 3)
            && TotalBytes(ps) == |w.buf| + |ps| * BasicHeaderSize(w.csid)
                                 + MessageHeaderSize(w1.fmt, NeedsExtension(w1.fmt, w1.header))
  {
    var w1 := UpdateHeader(w);
    OneChunk(w, size);
    MessageHeaderRoundTrip(w1.fmt, w1.header, Unused, []);
    Rest(|w.buf|, w1.(buf := w1.buf[Min(|w.buf|, size)..]), size, Pieces(w, size),
         |EncodeMessageHeader(w1.fmt, w1.header)|);
  }
}
