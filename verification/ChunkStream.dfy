/** One end of a chunk stream on each side (chunk_streamer.go): the reader that rebuilds
    headers from memory and reassembles messages, and the writer that leaves out what the
    reader remembers and cuts messages into chunks. */
module ChunkStream {
  import opened Bytes
  import opened Collections
  import opened ChunkHeader

  datatype Message = Message(timestamp: uint32, typeID: byte, streamID: uint32, payload: seq<byte>)

  // ---- reading ------------------------------------------------------------------------

  datatype Reader = Reader(
    basic: BasicHeader,
    header: MessageHeader,
    timestamp: uint32,
    delta: uint32,
    length: uint32,
    typeID: byte,
    streamID: uint32,
    mode: ExtendedMode,
    buf: seq<byte>,
    completed: bool)
  {
    function Assembled(): Message {
      Message(timestamp, typeID, streamID, buf)
    }
  }

  const FRESH_READER := Reader(BasicHeader(0, 0), BLANK, 0, 0, 0, 0, 0, Unused, [], false)

  /** The readers of one connection, keyed by chunk stream ID. */
  datatype Demux = Demux(readers: map<int, Reader>, maxStreams: int, chunkSize: uint32)
  {
    /** The reader of a chunk stream, as it is or as it will be created. */
    function At(csid: int): Reader {
      if csid in readers then readers[csid] else FRESH_READER
    }

    /** Is the chunk stream open, or may it be opened? */
    predicate Room(csid: int) {
      csid in readers || |readers| < maxStreams
    }
  }

  datatype ReadError = EndOfInput | TooManyChunkStreams | InvalidState

  datatype ReadResult =
    | Chunk(demux: Demux, csid: int, rest: seq<byte>)
    | Failed(demux: Demux, error: ReadError)

  /** What the headers of a chunk do to the memory of its stream. */
  function Absorb(r: Reader, bh: BasicHeader, mh: MessageHeader): Reader {
    var r1 := (if r.completed then r.(buf := [], completed := false) else r).(basic := bh, header := mh);
    if bh.fmt == 0 then
      r1.(timestamp := mh.timestamp, delta := 0, length := mh.messageLength, typeID := mh.messageTypeID,
          streamID := mh.messageStreamID, mode := mh.mode)
    else if bh.fmt == 1 then
      r1.(delta := mh.timestampDelta, length := mh.messageLength, typeID := mh.messageTypeID, mode := mh.mode)
    else if bh.fmt == 2 then
      r1.(delta := mh.timestampDelta, mode := mh.mode)
    else
      match r1.mode
      case Unused => r1
      case TimestampUsed => r1.(timestamp := mh.timestamp)
      case DeltaUsed => r1.(delta := mh.timestampDelta)
  }

  /** Appends payload; the timestamp moves on when the message is whole. */
  function Append(r: Reader, data: seq<byte>): Reader {
    var r1 := r.(buf := r.buf + data);
    if |r1.buf| == r1.length then
      r1.(timestamp := Wrap32(r1.timestamp + r1.delta), completed := true)
    else
      r1
  }

  /** How much payload the next chunk of this stream holds. */
  function Expected(r: Reader, chunkSize: uint32): int {
    Min(r.length - |r.buf|, chunkSize)
  }

  datatype HeadersResult =
    | Headers(csid: int, reader: Reader, rest: seq<byte>)
    | NoHeaders(demux: Demux, error: ReadError)

  /** Both headers, absorbed by the reader of their stream. */
  function ReadHeaders(d: Demux, s: seq<byte>, slack: nat): (res: HeadersResult)
    ensures res.Headers? ==> |res.rest| < |s|
  {
    var p := DecodeBasicHeader(s, slack);
    if p.Short? then
      NoHeaders(d, EndOfInput)
    else if p.value.csid !in d.readers && |d.readers| >= d.maxStreams then
      NoHeaders(d, TooManyChunkStreams)
    else
      var r := d.At(p.value.csid);
      var q := DecodeMessageHeader(p.rest, p.value.fmt, r.mode);
      if q.Short? then
        NoHeaders(d.(readers := d.readers[p.value.csid := r]), EndOfInput)
      else
        Headers(p.value.csid, Absorb(r, p.value, q.value), q.rest)
  }

  /** The same, step by step. */
  lemma NoHeadersFor(d: Demux, s: seq<byte>, slack: nat)
    requires DecodeBasicHeader(s, slack).Parsed? ==> !d.Room(DecodeBasicHeader(s, slack).value.csid)
    ensures ReadHeaders(d, s, slack).NoHeaders? && ReadHeaders(d, s, slack).demux == d
  {
    hide DecodeBasicHeader, DecodeMessageHeader, Absorb;
  }

  lemma HeadersFor(d: Demux, s: seq<byte>, slack: nat, p: Parse<BasicHeader>, q: Parse<MessageHeader>)
    requires p == DecodeBasicHeader(s, slack) && p.Parsed? && d.Room(p.value.csid)
    requires q == DecodeMessageHeader(p.rest, p.value.fmt, d.At(p.value.csid).mode)
    ensures var r := d.At(p.value.csid);
            ReadHeaders(d, s, slack) ==
            if q.Short? then NoHeaders(d.(readers := d.readers[p.value.csid := r]), EndOfInput)
            else Headers(p.value.csid, Absorb(r, p.value, q.value), q.rest)
  {
    hide DecodeBasicHeader, DecodeMessageHeader, Absorb;
  }

  /** The payload of one chunk; one cut off by the end of the input is not an error here. */
  function ReadPayload(d: Demux, csid: int, r: Reader, s: seq<byte>): (res: ReadResult)
    ensures res.Chunk? ==> |res.rest| <= |s| && res.csid in res.demux.readers
  {
    if r.length <= |r.buf| then
      Failed(d.(readers := d.readers[csid := r]), InvalidState)
    else
      var n := Min(Expected(r, d.chunkSize), |s|);
      Chunk(d.(readers := d.readers[csid := Append(r, s[..n])]), csid, s[n..])
  }

  function ReadChunk(d: Demux, s: seq<byte>, slack: nat): (res: ReadResult)
    ensures res.Chunk? ==> |res.rest| < |s| && res.csid in res.demux.readers
  {
    match ReadHeaders(d, s, slack)
    case NoHeaders(d', error) => Failed(d', error)
    case Headers(csid, r, rest) => ReadPayload(d, csid, r, rest)
  }

  /** Absorbing the headers in the map first makes no difference. */
  lemma PayloadAfterHeaders(d: Demux, csid: int, r: Reader, s: seq<byte>)
    ensures ReadPayload(d.(readers := d.readers[csid := r]), csid, r, s) == ReadPayload(d, csid, r, s)
  {
    forall v: Reader {:trigger d.readers[csid := v]} ensures d.readers[csid := r][csid := v] == d.readers[csid := v] {
    }
  }

  lemma EndOfEnd(s: seq<byte>, t: seq<byte>, u: seq<byte>)
    requires |t| <= |s| && t == s[|s| - |t|..] && |u| <= |t| && u == t[|t| - |u|..]
    ensures u == s[|s| - |u|..]
  {
  }

  lemma HeadersTakePrefix(d: Demux, s: seq<byte>, slack: nat)
    ensures var res := ReadHeaders(d, s, slack);
            res.Headers? ==> res.rest == s[|s| - |res.rest|..]
  {
    hide DecodeBasicHeader, DecodeMessageHeader, Absorb;
    var p := DecodeBasicHeader(s, slack);
    if p.Parsed? {
      var q := DecodeMessageHeader(p.rest, p.value.fmt, d.At(p.value.csid).mode);
      if q.Parsed? {
        EndOfEnd(s, p.rest, q.rest);
      }
    }
  }

  /** A chunk is a prefix of the input: what is left is the input's own end. */
  lemma ReadChunkTakesPrefix(d: Demux, s: seq<byte>, slack: nat)
    ensures var res := ReadChunk(d, s, slack);
            res.Chunk? ==> res.rest == s[|s| - |res.rest|..]
  {
    hide ReadHeaders, Append;
    HeadersTakePrefix(d, s, slack);
    var h := ReadHeaders(d, s, slack);
    if h.Headers? && ReadPayload(d, h.csid, h.reader, h.rest).Chunk? {
      EndOfEnd(s, h.rest, ReadPayload(d, h.csid, h.reader, h.rest).rest);
    }
  }

  /** Never more payload than announced, and finished exactly when all of it is there. */
  predicate Sane(r: Reader) {
    |r.buf| <= r.length <= MAX_UINT24 && (r.completed ==> |r.buf| == r.length)
  }

  predicate WithinLimit(d: Demux) {
    |d.readers| <= if d.maxStreams > 0 then d.maxStreams else 0
  }

  lemma HeadersSafety(d: Demux, s: seq<byte>, slack: nat)
    ensures var res := ReadHeaders(d, s, slack);
            match res
            case NoHeaders(d', _) =>
              (WithinLimit(d) ==> WithinLimit(d')) && d'.maxStreams == d.maxStreams && d'.chunkSize == d.chunkSize
            case Headers(csid, r, _) =>
              && (csid in d.readers || |d.readers| < d.maxStreams)
              && !r.completed && r.basic.csid == csid
              && (d.At(csid).length <= MAX_UINT24 ==> r.length <= MAX_UINT24)
  {
    hide DecodeBasicHeader, DecodeMessageHeader;
    var p := DecodeBasicHeader(s, slack);
    if p.Parsed? {
      OneMoreKey(d.readers, p.value.csid, d.At(p.value.csid));
    }
  }

  lemma PayloadSafety(d: Demux, csid: int, r: Reader, s: seq<byte>)
    requires !r.completed && (csid in d.readers || |d.readers| < d.maxStreams)
    ensures var res := ReadPayload(d, csid, r, s);
            && (WithinLimit(d) ==> WithinLimit(res.demux))
            && res.demux.maxStreams == d.maxStreams && res.demux.chunkSize == d.chunkSize
            && (res.Chunk? ==>
                  && res.csid == csid && csid in res.demux.readers
                  && var r1 := res.demux.readers[csid];
                     && res.demux.readers == d.readers[csid := r1]
                     && r1.length == r.length && |r1.buf| <= r1.length && r1.basic == r.basic
                     && (r1.completed <==> |r1.buf| == r1.length))
  {
    forall r1: Reader {:trigger d.readers[csid := r1]} {
      OneMoreKey(d.readers, csid, r1);
    }
  }

  /** On any bytes at all, reading a chunk fails or keeps its stream sane, touches no other
      stream, and never opens a stream beyond the limit. */
  lemma ReaderSafety(d: Demux, s: seq<byte>, slack: nat)
    ensures var res := ReadChunk(d, s, slack);
            && (WithinLimit(d) ==> WithinLimit(res.demux))
            && res.demux.maxStreams == d.maxStreams && res.demux.chunkSize == d.chunkSize
            && (res.Chunk? ==>
                  && res.csid in res.demux.readers
                  && var r1 := res.demux.readers[res.csid];
                     && res.demux.readers == d.readers[res.csid := r1]
                     && (d.At(res.csid).length <= MAX_UINT24 ==> Sane(r1))
                     && (r1.completed <==> |r1.buf| == r1.length)
                     && r1.basic.csid == res.csid)
  {
    hide ReadHeaders, ReadPayload;
    HeadersSafety(d, s, slack);
    var h := ReadHeaders(d, s, slack);
    if h.Headers? {
      PayloadSafety(d, h.csid, h.reader, h.rest);
    }
  }

  // ---- writing ------------------------------------------------------------------------

  datatype Writer = Writer(
    csid: int,
    fmt: Format,
    header: MessageHeader,
    timestamp: uint32,
    delta: uint32,
    length: uint32,
    typeID: byte,
    streamID: uint32,
    buf: seq<byte>,
    newChunk: bool)

  function FreshWriter(csid: int): Writer {
    Writer(csid, 0, BLANK.(timestamp := MAX_UINT32), 0, 0, 0, 0, 0, [], true)
  }

  /** A message is encoded into the writer's buffer and its fields are set. */
  function Load(w: Writer, m: Message): Writer {
    w.(timestamp := m.timestamp, length := Wrap32(|w.buf + m.payload|), typeID := m.typeID, streamID := m.streamID,
       buf := w.buf + m.payload, newChunk := true)
  }

  /** Picks the smallest format for the next chunk and remembers what is sent. */
  function UpdateHeader(w: Writer): Writer {
    var h := w.header;
    var renamed := h.messageLength != w.length || w.typeID != h.messageTypeID;
    var timed := w.timestamp != h.timestamp || w.newChunk;
    var reversed := timed && w.timestamp < h.timestamp;
    var delta := if reversed then 0 else if timed then w.timestamp - h.timestamp else w.delta;
    var fmt :=
      if h.messageStreamID != w.streamID || reversed then 0
      else if renamed then 1
      else if delta == h.timestampDelta then 3
      else 2;
    w.(fmt := fmt, delta := delta, newChunk := false,
       header := MessageHeader(w.timestamp, delta, w.length, w.typeID, w.streamID, h.mode))
  }

  datatype WriteResult =
    | Written(writer: Writer, bytes: seq<byte>, completed: bool)
    | OutOfRange(writer: Writer)

  function WriteChunk(w: Writer, chunkSize: uint32): WriteResult {
    var w1 := UpdateHeader(w);
    var e := EncodeBasicHeader(BasicHeader(w1.fmt, w1.csid));
    if e.None? then
      OutOfRange(w1)
    else
      var n := if Wrap32(|w1.buf|) > chunkSize then chunkSize else |w1.buf|;
      Written(w1.(buf := w1.buf[n..]),
              e.value + EncodeMessageHeader(w1.fmt, w1.header) + w1.buf[..n],
              |w1.buf| == n)
  }
}
