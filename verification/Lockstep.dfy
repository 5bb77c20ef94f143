/** One chunk stream between a writer and a reader. The sender can tell beforehand whether
    a message will travel intact: exactly when it is admissible. */
module Lockstep {
  import opened Bytes
  import opened ChunkHeader
  import opened ChunkStream

  /** The bytes of one chunk. */
  function ChunkBytes(fmt: Format, csid: int, h: MessageHeader, data: seq<byte>): seq<byte>
    requires InRange(csid)
  {
    EncodeBasicHeader(BasicHeader(fmt, csid)).value + EncodeMessageHeader(fmt, h) + data
  }

  /** What the reader of a chunk stream becomes when a whole chunk reaches it. */
  function Received(r: Reader, fmt: Format, csid: int, h: MessageHeader, data: seq<byte>): Reader {
    Append(Absorb(r, BasicHeader(fmt, csid), Carried(fmt, h)), data)
  }

  /** The chunk is read whole and nothing else is. */
  predicate Taken(d: Demux, fmt: Format, csid: int, h: MessageHeader, data: seq<byte>, suffix: seq<byte>, slack: nat)
    requires InRange(csid)
  {
    ReadChunk(d, ChunkBytes(fmt, csid, h, data) + suffix, slack)
    == Chunk(d.(readers := d.readers[csid := Received(d.At(csid), fmt, csid, h, data)]), csid, suffix)
  }

  /** It is, whatever follows it on the wire, from a connection that hands over up to `over`
      bytes more than it must. */
  ghost predicate Arrives(d: Demux, fmt: Format, csid: int, h: MessageHeader, data: seq<byte>, over: nat)
    requires InRange(csid)
  {
    forall suffix: seq<byte>, slack: nat :: slack <= over ==> Taken(d, fmt, csid, h, data, suffix, slack)
  }

  /** The basic header is read without what follows it. */
  predicate Apart(csid: int, slack: nat) {
    InRange(csid) && (csid <= 319 || slack == 0)
  }

  /** The reader has room for the stream and will take exactly this much payload. */
  predicate Ready(d: Demux, fmt: Format, csid: int, h: MessageHeader, data: seq<byte>) {
    && d.Room(csid)
    && (fmt < 3 || d.At(csid).mode.Unused?)
    && var r := Absorb(d.At(csid), BasicHeader(fmt, csid), Carried(fmt, h));
       |r.buf| < r.length && |data| == Expected(r, d.chunkSize)
  }

  /** The headers of a chunk, read back: as carried, unless a type 3 header meets an
      extended mode; then the reader looks for a timestamp in what follows. */
  lemma HeadersRead(d: Demux, fmt: Format, csid: int, h: MessageHeader, tail: seq<byte>, slack: nat)
    requires Apart(csid, slack) && h.messageLength <= MAX_UINT24 && d.Room(csid)
    ensures var bh := BasicHeader(fmt, csid);
            var r := d.At(csid);
            ReadHeaders(d, ChunkBytes(fmt, csid, h, tail), slack) ==
            if fmt < 3 || r.mode.Unused? then
              Headers(csid, Absorb(r, bh, Carried(fmt, h)), tail)
            else
              match DecodeMessageHeader(tail, 3, r.mode)
              case Short => NoHeaders(d.(readers := d.readers[csid := r]), EndOfInput)
              case Parsed(mh, rest) => Headers(csid, Absorb(r, bh, mh), rest)
  {
    var bh := BasicHeader(fmt, csid);
    BasicHeaderRoundTrip(bh, [], 0);
    assert fmt == 3 ==> EncodeMessageHeader(fmt, h) == [];
    hide DecodeBasicHeader, DecodeMessageHeader, EncodeMessageHeader, EncodeBasicHeader, Absorb;
    var e := EncodeBasicHeader(bh).value;
    var f := EncodeMessageHeader(fmt, h);
    assert ChunkBytes(fmt, csid, h, tail) == e + (f + tail);
    assert fmt == 3 ==> f + tail == tail;
    BasicHeaderRoundTrip(bh, f + tail, slack);
    MessageHeaderRoundTrip(fmt, h, d.At(csid).mode, tail);
  }

  /** Read outside the extended modes, a chunk is taken as it was written exactly if it has
      the payload the reader expects, or less and nothing follows it. */
  lemma TakenIff(d: Demux, fmt: Format, csid: int, h: MessageHeader, data: seq<byte>, suffix: seq<byte>, slack: nat)
    requires Apart(csid, slack) && h.messageLength <= MAX_UINT24 && d.Room(csid)
    requires fmt < 3 || d.At(csid).mode.Unused?
    ensures var r := Absorb(d.At(csid), BasicHeader(fmt, csid), Carried(fmt, h));
            Taken(d, fmt, csid, h, data, suffix, slack)
            <==> |r.buf| < r.length
                 && (|data| == Expected(r, d.chunkSize) || (|data| < Expected(r, d.chunkSize) && suffix == []))
  {
    assert ChunkBytes(fmt, csid, h, data) + suffix == ChunkBytes(fmt, csid, h, data + suffix);
    hide ReadHeaders, ChunkBytes, Absorb, Append, Carried;
    HeadersRead(d, fmt, csid, h, data + suffix, slack);
    var n := |data|;
    assert (data + suffix)[..n] == data && (data + suffix)[n..] == suffix;
  }

  lemma ChunkArrives(d: Demux, fmt: Format, csid: int, h: MessageHeader, data: seq<byte>, suffix: seq<byte>, slack: nat)
    requires Apart(csid, slack) && h.messageLength <= MAX_UINT24 && Ready(d, fmt, csid, h, data)
    ensures ReadChunk(d, ChunkBytes(fmt, csid, h, data) + suffix, slack)
            == Chunk(d.(readers := d.readers[csid := Received(d.At(csid), fmt, csid, h, data)]), csid, suffix)
  {
    hide ReadChunk, ChunkBytes, Absorb, Received, Carried, Expected;
    TakenIff(d, fmt, csid, h, data, suffix, slack);
  }

  lemma ReadyChunkArrives(d: Demux, fmt: Format, csid: int, h: MessageHeader, data: seq<byte>, over: nat)
    requires Apart(csid, over) && h.messageLength <= MAX_UINT24 && Ready(d, fmt, csid, h, data)
    ensures Arrives(d, fmt, csid, h, data, over)
  {
    hide Ready, ReadChunk, ChunkBytes, Received;
    forall suffix: seq<byte>, slack: nat | slack <= over ensures Taken(d, fmt, csid, h, data, suffix, slack) {
      ChunkArrives(d, fmt, csid, h, data, suffix, slack);
    }
  }

  // ---- what the sender knows ----------------------------------------------------------

  /** A writer together with the two things its own header does not tell about the reader:
      the delta it holds and its extended mode; and the message being sent. */
  datatype Channel = Channel(
    writer: Writer,
    virgin: bool,
    heldDelta: uint32,
    heldMode: ExtendedMode,
    current: Option<Message>)

  function FreshChannel(csid: int): Channel {
    Channel(FreshWriter(csid), true, 0, Unused, None)
  }

  function Submit(ch: Channel, m: Message): Channel {
    ch.(writer := Load(ch.writer, m), current := Some(m))
  }

  function CutSize(w: Writer, size: uint32): nat {
    if Wrap32(|w.buf|) > size then size else |w.buf|
  }

  /** The channel after one `WriteChunk`. */
  function Sent(ch: Channel, size: uint32): Channel {
    var w := UpdateHeader(ch.writer);
    var n := CutSize(w, size);
    Channel(
      w.(buf := w.buf[n..]),
      false,
      if w.fmt == 0 then 0 else if w.fmt == 3 then ch.heldDelta else w.delta,
      if w.fmt == 3 then ch.heldMode else Carried(w.fmt, w.header).mode,
      if n == |w.buf| then None else ch.current)
  }

  /** The bytes of that chunk. */
  function SentBytes(ch: Channel, size: uint32): seq<byte>
    requires InRange(ch.writer.csid)
  {
    var w := UpdateHeader(ch.writer);
    ChunkBytes(w.fmt, w.csid, w.header, w.buf[..CutSize(w, size)])
  }

  lemma SentIsWriteChunk(ch: Channel, size: uint32)
    requires InRange(ch.writer.csid)
    ensures WriteChunk(ch.writer, size)
            == Written(Sent(ch, size).writer, SentBytes(ch, size), |Sent(ch, size).writer.buf| == 0)
  {
    BasicHeaderRoundTrip(BasicHeader(UpdateHeader(ch.writer).fmt, ch.writer.csid), [], 0);
  }

  /** The condition on a loaded message, in terms of the sender's own record: a first
      message announces itself in full; a type 3 header is not used while the reader is in
      an extended mode or holds another delta; and a message of several chunks does not
      open with an extended header. */
  predicate Clean(ch: Channel, m: Message, size: uint32) {
    var w := UpdateHeader(ch.writer);
    && (ch.virgin ==> w.fmt == 0)
    && (w.fmt == 3 ==> ch.heldMode.Unused? && ch.heldDelta == w.delta)
    && (|m.payload| > size ==> !NeedsExtension(w.fmt, w.header))
  }

  predicate Admissible(ch: Channel, m: Message, size: uint32) {
    1 <= |m.payload| <= MAX_UINT24 && Clean(Submit(ch, m), m, size)
  }

  // ---- what both ends agree on --------------------------------------------------------

  /** Two chunk sizes that cut every message of up to `n` bytes alike. */
  predicate CutAlike(a: uint32, b: uint32, n: nat) {
    a >= 1 && b >= 1 && Min(a, n) == Min(b, n)
  }

  predicate Agreement(ch: Channel, r: Reader) {
    && r.mode == ch.heldMode
    && r.delta == ch.heldDelta
    && r.length == ch.writer.header.messageLength <= MAX_UINT24
    && r.typeID == ch.writer.header.messageTypeID
    && r.streamID == ch.writer.header.messageStreamID
  }

  /** Between two messages. */
  predicate AtRest(ch: Channel, r: Reader) {
    && Agreement(ch, r)
    && (r.completed || r.buf == [])
    && if ch.virgin then ch.writer.header.timestamp == MAX_UINT32 && r.timestamp == 0 && ch.heldDelta == 0
       else ch.writer.header.timestamp == r.timestamp
  }

  predicate Idle(ch: Channel, r: Reader) {
    ch.current.None? && ch.writer.buf == [] && AtRest(ch, r)
  }

  predicate Holds(w: Writer, m: Message) {
    w.timestamp == m.timestamp && w.length == |m.payload| && w.typeID == m.typeID && w.streamID == m.streamID
  }

  /** Loaded, nothing sent yet. */
  predicate Waiting(ch: Channel, r: Reader, m: Message) {
    && AtRest(ch, r)
    && Holds(ch.writer, m) && ch.writer.newChunk && ch.writer.buf == m.payload
  }

  /** Some chunks sent, some to come; `due` is the timestamp the reader will report. */
  predicate InFlight(ch: Channel, r: Reader, m: Message, due: uint32) {
    var w := ch.writer;
    && Agreement(ch, r)
    && Holds(w, m) && !w.newChunk && 0 < |w.buf|
    && w.header.messageLength == w.length && w.header.messageTypeID == w.typeID
    && w.header.messageStreamID == w.streamID
    && w.header.timestamp == w.timestamp && w.header.timestampDelta == w.delta
    && !r.completed && r.buf + w.buf == m.payload
    && Wrap32(r.timestamp + r.delta) == due
  }

  /** What the reader will report as the timestamp of the next message. */
  function Due(ch: Channel, r: Reader): uint32 {
    var w := UpdateHeader(ch.writer);
    if w.fmt == 0 then w.timestamp
    else Wrap32(r.timestamp + if w.fmt == 3 then r.delta else w.delta)
  }

  function ReceivedFrom(ch: Channel, r: Reader, size: uint32): Reader {
    var w := UpdateHeader(ch.writer);
    Received(r, w.fmt, w.csid, w.header, w.buf[..CutSize(w, size)])
  }

  predicate ReadyFor(ch: Channel, d: Demux, size: uint32) {
    var w := UpdateHeader(ch.writer);
    Ready(d, w.fmt, w.csid, w.header, w.buf[..CutSize(w, size)])
  }

  /** The state after one more chunk: finished with timestamp `due`, or still in flight. */
  predicate Advanced(ch': Channel, r': Reader, m: Message, due: uint32) {
    if ch'.writer.buf == [] then
      && ch'.current.None? && Agreement(ch', r') && r'.completed && r'.Assembled() == m.(timestamp := due)
      && !ch'.virgin && ch'.writer.header.timestamp == m.timestamp
    else
      InFlight(ch', r', m, due) && !ch'.virgin
  }

  lemma SplitAt(a: seq<byte>, b: seq<byte>, n: nat)
    requires n <= |b|
    ensures (a + b[..n]) + b[n..] == a + b
    ensures a == [] ==> a + b[..n] == b[..n] && a + b == b
    ensures n == |b| ==> b[..n] == b && b[n..] == []
  {
    assert b == b[..n] + b[n..];
  }

  /** Once a message is under way every further chunk is type 3 and needs no more than a
      reader outside the extended modes. */
  lemma ContinuationChunk(ch: Channel, d: Demux, m: Message, due: uint32, size: uint32)
    requires InFlight(ch, d.At(ch.writer.csid), m, due) && |m.payload| <= MAX_UINT24
    requires ch.writer.csid in d.readers && size >= 1
    ensures UpdateHeader(ch.writer) == ch.writer.(fmt := 3)
    ensures ReadyFor(ch, d, size)
            <==> ch.heldMode.Unused? && Min(size, |ch.writer.buf|) == Min(d.chunkSize, |ch.writer.buf|)
    ensures Advanced(Sent(ch, size), ReceivedFrom(ch, d.At(ch.writer.csid), size), m, due)
            || !ch.heldMode.Unused?
    ensures 0 < CutSize(ch.writer, size)
  {
    var r := d.At(ch.writer.csid);
    SplitAt(r.buf, ch.writer.buf, CutSize(ch.writer, size));
  }

  /** The reader's memory after the headers of a first chunk. */
  lemma FirstHeaders(ch: Channel, r: Reader, m: Message)
    requires Waiting(ch, r, m) && |m.payload| <= MAX_UINT24
    ensures var w := UpdateHeader(ch.writer);
            var r1 := Absorb(r, BasicHeader(w.fmt, w.csid), Carried(w.fmt, w.header));
            && r1.length == w.length && r1.typeID == m.typeID && r1.streamID == m.streamID
            && r1.buf == [] && !r1.completed
    ensures var w := UpdateHeader(ch.writer);
            var r1 := Absorb(r, BasicHeader(w.fmt, w.csid), Carried(w.fmt, w.header));
            (w.fmt == 3 ==> ch.heldMode.Unused?) ==>
              && r1.mode == (if w.fmt == 3 then ch.heldMode else Carried(w.fmt, w.header).mode)
              && r1.delta == (if w.fmt == 0 then 0 else if w.fmt == 3 then ch.heldDelta else w.delta)
              && Wrap32(r1.timestamp + r1.delta) == Due(ch, r)
    ensures var w := UpdateHeader(ch.writer);
            && Holds(w, m) && w.buf == m.payload && !w.newChunk && w.csid == ch.writer.csid
            && w.header.messageLength == w.length && w.header.messageTypeID == w.typeID
            && w.header.messageStreamID == w.streamID
            && w.header.timestamp == w.timestamp && w.header.timestampDelta == w.delta
  {
  }

  lemma FirstCut(ch: Channel, m: Message, size: uint32)
    requires ch.writer.buf == m.payload && |m.payload| <= MAX_UINT24
    ensures var w := UpdateHeader(ch.writer);
            && w.buf == m.payload && CutSize(w, size) == CutSize(ch.writer, size) == Min(size, |m.payload|)
            && w.csid == ch.writer.csid
  {
  }

  lemma FirstReady(ch: Channel, d: Demux, m: Message, size: uint32)
    requires Waiting(ch, d.At(ch.writer.csid), m) && 1 <= |m.payload| <= MAX_UINT24 && d.Room(ch.writer.csid)
    ensures var w := UpdateHeader(ch.writer);
            ReadyFor(ch, d, size)
            <==> (w.fmt == 3 ==> ch.heldMode.Unused?) && Min(size, |m.payload|) == Min(d.chunkSize, |m.payload|)
  {
    FirstCut(ch, m, size);
    FirstHeaders(ch, d.At(ch.writer.csid), m);
    assert d.At(ch.writer.csid).mode == ch.heldMode;
    hide Absorb, Carried, UpdateHeader, AtRest, Due, NeedsExtension, Waiting;
  }

  lemma FirstAdvances(ch: Channel, d: Demux, m: Message, size: uint32)
    requires Waiting(ch, d.At(ch.writer.csid), m) && 1 <= |m.payload| <= MAX_UINT24 && size >= 1
    requires UpdateHeader(ch.writer).fmt == 3 ==> ch.heldMode.Unused?
    ensures Advanced(Sent(ch, size), ReceivedFrom(ch, d.At(ch.writer.csid), size), m, Due(ch, d.At(ch.writer.csid)))
  {
    var r := d.At(ch.writer.csid);
    var w := UpdateHeader(ch.writer);
    var n := CutSize(w, size);
    FirstCut(ch, m, size);
    FirstHeaders(ch, r, m);
    hide Absorb, Carried, UpdateHeader, AtRest, Due, NeedsExtension, Waiting, CutSize, Wrap32;
    SplitAt([], w.buf, n);
  }

  /** The first chunk: what it needs, and what it leaves at both ends. */
  lemma FirstChunk(ch: Channel, d: Demux, m: Message, size: uint32)
    requires Waiting(ch, d.At(ch.writer.csid), m) && 1 <= |m.payload| <= MAX_UINT24 && d.Room(ch.writer.csid)
    ensures var w := UpdateHeader(ch.writer);
            ReadyFor(ch, d, size)
            <==> (w.fmt == 3 ==> ch.heldMode.Unused?) && Min(size, |m.payload|) == Min(d.chunkSize, |m.payload|)
    ensures ReadyFor(ch, d, size) && size >= 1 ==>
              Advanced(Sent(ch, size), ReceivedFrom(ch, d.At(ch.writer.csid), size), m,
                       Due(ch, d.At(ch.writer.csid)))
    ensures CutSize(ch.writer, size) == Min(size, |m.payload|)
  {
    FirstCut(ch, m, size);
    hide UpdateHeader, ReadyFor, Advanced, Sent, ReceivedFrom, Due, Agreement, CutSize;
    FirstReady(ch, d, m, size);
    if ReadyFor(ch, d, size) && size >= 1 {
      FirstAdvances(ch, d, m, size);
    }
  }

  // ---- exactly which messages travel intact -------------------------------------------

  /** Chunk by chunk the reader takes exactly what the writer wrote, and hands over the
      message that was submitted when the writer is done, not before. */
  ghost predicate TravelsIntact(ch: Channel, d: Demux, m: Message, size: uint32, over: nat)
    requires InRange(ch.writer.csid)
    decreases |ch.writer.buf|
  {
    var w := UpdateHeader(ch.writer);
    var ch' := Sent(ch, size);
    var r' := ReceivedFrom(ch, d.At(ch.writer.csid), size);
    && Arrives(d, w.fmt, w.csid, w.header, w.buf[..CutSize(w, size)], over)
    && if ch'.writer.buf == [] then
         r'.completed && r'.Assembled() == m
       else
         && !r'.completed && |ch'.writer.buf| < |ch.writer.buf|
         && TravelsIntact(ch', d.(readers := d.readers[ch.writer.csid := r']), m, size, over)
  }

  lemma Type3KeepsWhatIsExpected(r: Reader, bh: BasicHeader, mh: MessageHeader, mh': MessageHeader)
    requires bh.fmt == 3
    ensures Absorb(r, bh, mh).length == Absorb(r, bh, mh').length
    ensures Absorb(r, bh, mh).buf == Absorb(r, bh, mh').buf
  {
  }

  /** In an extended mode the reader takes the first four bytes of a type 3 chunk's payload
      for a timestamp, so that the chunk is never taken as it was written. */
  lemma ExtendedModeBreaksType3(d: Demux, csid: int, h: MessageHeader, data: seq<byte>, suffix: seq<byte>, slack: nat)
    requires Apart(csid, slack) && h.messageLength <= MAX_UINT24 && d.Room(csid) && !d.At(csid).mode.Unused?
    ensures !Taken(d, 3, csid, h, data, suffix, slack)
  {
    var bh := BasicHeader(3, csid);
    var r := d.At(csid);
    var s := ChunkBytes(3, csid, h, data) + suffix;
    assert s == ChunkBytes(3, csid, h, data + suffix);
    HeadersRead(d, 3, csid, h, data + suffix, slack);
    var q := DecodeMessageHeader(data + suffix, 3, r.mode);
    if q.Parsed? {
      assert |q.rest| == |data| + |suffix| - 4;
      Type3KeepsWhatIsExpected(r, bh, q.value, Carried(3, h));
    }
    hide ReadHeaders, Absorb, ChunkBytes, Carried, DecodeMessageHeader;
    var res := ReadChunk(d, s, slack);
    if res.Chunk? && |res.rest| == |suffix| {
      assert |res.demux.readers[csid].buf| != |Received(r, 3, csid, h, data).buf|;
    }
  }

  /** The chunk of an empty message is an error, whatever follows it. */
  lemma EmptyMessageFails(ch: Channel, d: Demux, m: Message, size: uint32, suffix: seq<byte>, slack: nat)
    requires Apart(ch.writer.csid, slack) && Waiting(ch, d.At(ch.writer.csid), m) && m.payload == []
    requires d.Room(ch.writer.csid)
    ensures ReadChunk(d, SentBytes(ch, size) + suffix, slack).Failed?
  {
    var w := UpdateHeader(ch.writer);
    var r := d.At(w.csid);
    var bh := BasicHeader(w.fmt, w.csid);
    assert w.buf[..CutSize(w, size)] + suffix == suffix;
    assert SentBytes(ch, size) + suffix == ChunkBytes(w.fmt, w.csid, w.header, suffix);
    FirstHeaders(ch, r, m);
    HeadersRead(d, w.fmt, w.csid, w.header, suffix, slack);
    var q := DecodeMessageHeader(suffix, 3, r.mode);
    if w.fmt == 3 && q.Parsed? {
      Type3KeepsWhatIsExpected(r, bh, q.value, Carried(3, w.header));
    }
    hide ReadHeaders, Absorb, Append, ChunkBytes, Carried, DecodeMessageHeader, Received, UpdateHeader;
  }

  lemma KeepsID(w: Writer)
    ensures UpdateHeader(w).csid == w.csid
  {
  }

  lemma IntactStep(ch: Channel, d: Demux, m: Message, size: uint32, over: nat) returns (r': Reader)
    requires InRange(ch.writer.csid) && TravelsIntact(ch, d, m, size, over)
    ensures r' == ReceivedFrom(ch, d.At(ch.writer.csid), size)
    ensures ReadChunk(d, SentBytes(ch, size) + [], 0)
            == Chunk(d.(readers := d.readers[ch.writer.csid := r']), ch.writer.csid, [])
    ensures Sent(ch, size).writer.buf == [] ==> r'.Assembled() == m
    ensures Sent(ch, size).writer.buf != [] ==>
              && |Sent(ch, size).writer.buf| < |ch.writer.buf|
              && TravelsIntact(Sent(ch, size), d.(readers := d.readers[ch.writer.csid := r']), m, size, over)
  {
    hide ReadChunk, Received, UpdateHeader, ChunkBytes;
    var w := UpdateHeader(ch.writer);
    r' := ReceivedFrom(ch, d.At(ch.writer.csid), size);
    KeepsID(ch.writer);
    assert Taken(d, w.fmt, w.csid, w.header, w.buf[..CutSize(w, size)], [], 0);
  }

  /** Whatever is handed over has a length the reader read in 24 bits. */
  lemma {:induction false} IntactFits24Bits(ch: Channel, d: Demux, m: Message, size: uint32, over: nat)
    requires InRange(ch.writer.csid) && TravelsIntact(ch, d, m, size, over)
    requires d.At(ch.writer.csid).length <= MAX_UINT24
    ensures |m.payload| <= MAX_UINT24
    decreases |ch.writer.buf|
  {
    KeepsID(ch.writer);
    hide ReadChunk, SentBytes, ReceivedFrom, UpdateHeader, TravelsIntact;
    var c := ch.writer.csid;
    var r' := IntactStep(ch, d, m, size, over);
    ReaderSafety(d, SentBytes(ch, size) + [], 0);
    var d' := d.(readers := d.readers[c := r']);
    assert r' == d'.readers[c] && r'.length <= MAX_UINT24;
    if Sent(ch, size).writer.buf != [] {
      IntactFits24Bits(Sent(ch, size), d', m, size, over);
    }
  }

  /** The timestamp comes out right exactly when the sender's record says so. */
  lemma DueIsTimestamp(ch: Channel, r: Reader, m: Message)
    requires Waiting(ch, r, m)
    ensures var w := UpdateHeader(ch.writer);
            Due(ch, r) == m.timestamp
            <==> (ch.virgin ==> w.fmt == 0) && (w.fmt == 3 ==> ch.heldDelta == w.delta)
  {
  }

  lemma {:induction false} RestTravels(ch: Channel, d: Demux, m: Message, due: uint32, size: uint32, over: nat)
    requires Apart(ch.writer.csid, over) && ch.writer.csid in d.readers
    requires InFlight(ch, d.At(ch.writer.csid), m, due) && |m.payload| <= MAX_UINT24
    requires CutAlike(size, d.chunkSize, |m.payload|)
    ensures TravelsIntact(ch, d, m, size, over) <==> ch.heldMode.Unused? && due == m.timestamp
    decreases |ch.writer.buf|
  {
    var c := ch.writer.csid;
    ContinuationChunk(ch, d, m, due, size);
    var w := UpdateHeader(ch.writer);
    var data := w.buf[..CutSize(w, size)];
    var ch', r' := Sent(ch, size), ReceivedFrom(ch, d.At(c), size);
    var d' := d.(readers := d.readers[c := r']);
    if ch.heldMode.Unused? {
      ReadyChunkArrives(d, w.fmt, c, w.header, data, over);
      assert ch'.writer.csid == c && ch'.heldMode.Unused? && d'.At(c) == r';
      if ch'.writer.buf != [] {
        RestTravels(ch', d', m, due, size, over);
      }
    } else {
      ExtendedModeBreaksType3(d, c, w.header, data, [], 0);
    }
  }

  lemma BufferAfterHeaders(r: Reader, bh: BasicHeader, mh: MessageHeader, mh': MessageHeader)
    ensures Absorb(r, bh, mh).buf == Absorb(r, bh, mh').buf
  {
  }

  /** How long the reader's buffer is after a chunk: what its stream had, and what the chunk
      took beyond its headers. */
  lemma BufferAfter(d: Demux, s: seq<byte>, slack: nat, bh: BasicHeader, rest: seq<byte>) returns (k: nat)
    requires DecodeBasicHeader(s, slack) == Parsed(bh, rest) && ReadChunk(d, s, slack).Chunk?
    ensures k == MessageHeaderSize(bh.fmt, false) || k == MessageHeaderSize(bh.fmt, true)
    ensures var res := ReadChunk(d, s, slack);
            forall mh :: |res.demux.readers[res.csid].buf| + |res.rest| + k
                         == |Absorb(d.At(bh.csid), bh, mh).buf| + |rest|
  {
    var r := d.At(bh.csid);
    var q := DecodeMessageHeader(rest, bh.fmt, r.mode);
    assert q.Parsed? by { hide DecodeBasicHeader, Absorb, DecodeMessageHeader; }
    DecodedSize(rest, bh.fmt, r.mode);
    k := |rest| - |q.rest|;
    forall mh { BufferAfterHeaders(r, bh, q.value, mh); }
    hide DecodeBasicHeader, Absorb, DecodeMessageHeader;
  }

  /** One byte is gone behind a three-byte basic header. */
  lemma OneByteLost(fmt: Format, csid: int, h: MessageHeader, data: seq<byte>) returns (rest: seq<byte>)
    requires 320 <= csid <= 65599
    ensures DecodeBasicHeader(ChunkBytes(fmt, csid, h, data) + [0], 1) == Parsed(BasicHeader(fmt, csid), rest)
    ensures |rest| == MessageHeaderSize(fmt, NeedsExtension(fmt, h)) + |data|
  {
    var bh := BasicHeader(fmt, csid);
    var tail := EncodeMessageHeader(fmt, h) + data + [0];
    LongFormRoundTrip(bh, tail, 1);
    EncodedSize(fmt, h);
    hide DecodeBasicHeader, EncodeBasicHeader, EncodeMessageHeader;
    assert ChunkBytes(fmt, csid, h, data) + [0] == EncodeBasicHeader(bh).value + tail;
    rest := tail[1..];
  }

  /** A connection that hands over one byte too many loses it behind a three-byte basic
      header, and the chunk with it. */
  lemma LongFormBreaks(d: Demux, fmt: Format, csid: int, h: MessageHeader, data: seq<byte>, over: nat)
    requires 320 <= csid <= 65599 && over >= 1
    ensures !Arrives(d, fmt, csid, h, data, over)
  {
    hide DecodeBasicHeader, EncodeBasicHeader, EncodeMessageHeader, ChunkBytes, Absorb, ReadChunk, NeedsExtension;
    var s := ChunkBytes(fmt, csid, h, data) + [0];
    var rest := OneByteLost(fmt, csid, h, data);
    if ReadChunk(d, s, 1).Chunk? {
      var k := BufferAfter(d, s, 1, BasicHeader(fmt, csid), rest);
      assert |Received(d.At(csid), fmt, csid, h, data).buf|
             == |Absorb(d.At(csid), BasicHeader(fmt, csid), Carried(fmt, h)).buf| + |data|;
    }
    assert !Taken(d, fmt, csid, h, data, [0], 1);
  }

  lemma SubmittedTravels(ch: Channel, d: Demux, m: Message, size: uint32, over: nat)
    requires Apart(ch.writer.csid, over) && Waiting(ch, d.At(ch.writer.csid), m) && 1 <= |m.payload| <= MAX_UINT24
    requires d.Room(ch.writer.csid)
    ensures TravelsIntact(ch, d, m, size, over) <==> Clean(ch, m, size) && CutAlike(size, d.chunkSize, |m.payload|)
  {
    var c := ch.writer.csid;
    var w := UpdateHeader(ch.writer);
    var due := Due(ch, d.At(c));
    FirstChunk(ch, d, m, size);
    FirstHeaders(ch, d.At(c), m);
    DueIsTimestamp(ch, d.At(c), m);
    var data := w.buf[..CutSize(w, size)];
    var ch', r' := Sent(ch, size), ReceivedFrom(ch, d.At(c), size);
    var d' := d.(readers := d.readers[c := r']);
    assert w.fmt < 3 ==> (ch'.heldMode.Unused? <==> !NeedsExtension(w.fmt, w.header));
    hide UpdateHeader, Due, NeedsExtension, Carried, Absorb;
    if w.fmt == 3 && !ch.heldMode.Unused? {
      ExtendedModeBreaksType3(d, c, w.header, data, [], 0);
    } else if Min(size, |m.payload|) != Min(d.chunkSize, |m.payload|) {
      TakenIff(d, w.fmt, c, w.header, data, [0], 0);
    } else if size >= 1 {
      ReadyChunkArrives(d, w.fmt, c, w.header, data, over);
      assert d'.At(c) == r';
      if ch'.writer.buf != [] {
        RestTravels(ch', d', m, due, size, over);
      }
    }
  }

  /** A message submitted on a chunk stream at rest is sure to reach the other end intact,
      chunk by chunk and whatever follows, if and only if it is admissible, both ends cut it
      alike, and its chunk stream ID does not need the three-byte form, unless the connection
      never hands over a byte too many. */
  lemma IntactIffAdmissible(ch: Channel, d: Demux, m: Message, size: uint32, over: nat)
    requires InRange(ch.writer.csid) && Idle(ch, d.At(ch.writer.csid)) && d.Room(ch.writer.csid)
    ensures TravelsIntact(Submit(ch, m), d, m, size, over)
            <==> Apart(ch.writer.csid, over) && Admissible(ch, m, size) && CutAlike(size, d.chunkSize, |m.payload|)
  {
    var c := ch.writer.csid;
    var s := Submit(ch, m);
    assert [] + m.payload == m.payload;
    var w := UpdateHeader(s.writer);
    var data := w.buf[..CutSize(w, size)];
    if !Apart(c, over) {
      LongFormBreaks(d, w.fmt, c, w.header, data, over);
    } else if |m.payload| > MAX_UINT24 {
      if TravelsIntact(s, d, m, size, over) {
        IntactFits24Bits(s, d, m, size, over);
      }
    } else if m.payload == [] {
      EmptyMessageFails(s, d, m, size, [], 0);
      assert !Taken(d, w.fmt, c, w.header, data, [], 0);
    } else {
      SubmittedTravels(s, d, m, size, over);
    }
  }
}
