/** The reader against a sender that follows section 5.3.1 of the RTMP specification 1.0 to
    the letter: any permitted format for each message, extended timestamps repeated on
    type 3 chunks (section 5.3.1.3), any 32-bit times and deltas. Type 3 is used only to
    continue a message or after a message of type 1 or 2 (or type 3 after those). */
module StandardSender {
  import opened Bytes
  import opened ChunkHeader
  import opened ChunkStream
  import opened Demultiplex

  /** What the sender remembers of the last message on a chunk stream. */
  datatype Memory =
    | Nothing
    | Last(timestamp: uint32, delta: uint32, length: uint32, typeID: byte, streamID: uint32, mode: ExtendedMode,
           repeatable: bool)

  /** May a message go out in this format? */
  predicate Permitted(k: Memory, f: Format, m: Message) {
    && 1 <= |m.payload| <= MAX_UINT24
    && (f >= 1 ==> k.Last? && m.streamID == k.streamID)
    && (f >= 2 ==> |m.payload| == k.length && m.typeID == k.typeID)
    && (f == 3 ==> k.repeatable && !k.mode.TimestampUsed? && Wrap32(m.timestamp - k.timestamp) == k.delta)
  }

  /** The full header; deltas wrap around 32 bits. */
  function Full(k: Memory, m: Message): MessageHeader
    requires 1 <= |m.payload| <= MAX_UINT24
  {
    MessageHeader(m.timestamp, if k.Last? then Wrap32(m.timestamp - k.timestamp) else 0, |m.payload|, m.typeID,
                  m.streamID, Unused)
  }

  function Remember(k: Memory, f: Format, m: Message): Memory
    requires Permitted(k, f, m)
  {
    var h := Full(k, m);
    if f == 3 then
      k.(timestamp := m.timestamp)
    else
      Last(m.timestamp, if f == 0 then 0 else h.timestampDelta, |m.payload|, m.typeID, m.streamID,
           Carried(f, h).mode, f != 0)
  }

  /** The extended timestamp field of a type 3 chunk. */
  function Repeated(k: Memory): seq<byte>
    requires k.Last?
  {
    match k.mode
    case Unused => []
    case TimestampUsed => BE32(k.timestamp)
    case DeltaUsed => BE32(k.delta)
  }

  function Basic(f: Format, csid: int): seq<byte>
    requires 2 <= csid <= 319
  {
    EncodeBasicHeader(BasicHeader(f, csid)).value
  }

  /** A chunk; a type 3 chunk repeats the extended field of what is remembered. */
  function ChunkOf(k: Memory, f: Format, csid: int, h: MessageHeader, data: seq<byte>): seq<byte>
    requires 2 <= csid <= 319 && (f == 3 ==> k.Last?)
  {
    Basic(f, csid) + (if f == 3 then Repeated(k) else EncodeMessageHeader(f, h)) + data
  }

  /** `k` is what will be remembered of the message being sent. */
  function Continuations(k: Memory, csid: int, data: seq<byte>, size: uint32): seq<seq<byte>>
    requires k.Last? && 2 <= csid <= 319 && size >= 1
    decreases |data|
  {
    if data == [] then
      []
    else
      var n := Min(|data|, size);
      [ChunkOf(k, 3, csid, BLANK, data[..n])] + Continuations(k, csid, data[n..], size)
  }

  function ChunksOf(k: Memory, csid: int, f: Format, m: Message, size: uint32): seq<seq<byte>>
    requires Permitted(k, f, m) && 2 <= csid <= 319 && size >= 1
  {
    var n := Min(|m.payload|, size);
    var k' := Remember(k, f, m);
    [ChunkOf(k', f, csid, Full(k, m), m.payload[..n])]
    + Continuations(k', csid, m.payload[n..], size)
  }

  // ---- the reader follows -------------------------------------------------------------

  predicate InStep(k: Memory, r: Reader) {
    && (r.completed || r.buf == [])
    && (k.Last? ==>
          && r.timestamp == k.timestamp && r.length == k.length && r.typeID == k.typeID && r.streamID == k.streamID
          && r.mode == k.mode && r.delta == k.delta && (k.mode.DeltaUsed? ==> k.repeatable))
  }

  /** In the middle of a message. */
  predicate Halfway(k: Memory, r: Reader, m: Message, left: seq<byte>) {
    && k.Last? && left != [] && !r.completed && r.buf + left == m.payload && |m.payload| <= MAX_UINT24
    && r.length == k.length == |m.payload| && r.typeID == k.typeID == m.typeID
    && r.streamID == k.streamID == m.streamID && k.timestamp == m.timestamp
    && r.mode == k.mode && r.delta == k.delta && (k.mode.DeltaUsed? ==> k.repeatable)
    && (k.mode.TimestampUsed? ==> r.timestamp == k.timestamp)
    && Wrap32(r.timestamp + r.delta) == m.timestamp
  }

  /** After some more payload: whole and in step, or still halfway. */
  predicate Onward(k: Memory, r: Reader, m: Message, left: seq<byte>) {
    if left == [] then r.completed && InStep(k, r) && r.Assembled() == m
    else Halfway(k, r, m, left)
  }

  /** The header fields a chunk's message header yields to a reader in step. */
  function Seen(k: Memory, f: Format, h: MessageHeader): MessageHeader
    requires f == 3 ==> k.Last?
  {
    if f < 3 then
      Carried(f, h)
    else
      match k.mode
      case Unused => BLANK
      case TimestampUsed => BLANK.(timestamp := k.timestamp, mode := k.mode)
      case DeltaUsed => BLANK.(timestampDelta := k.delta, mode := k.mode)
  }

  lemma HeaderSeen(k: Memory, f: Format, h: MessageHeader, mode: ExtendedMode, data: seq<byte>)
    requires h.messageLength <= MAX_UINT24 && (f == 3 ==> k.Last? && k.mode == mode)
    ensures DecodeMessageHeader((if f == 3 then Repeated(k) else EncodeMessageHeader(f, h)) + data, f, mode)
            == Parsed(Seen(k, f, h), data)
  {
    if f < 3 {
      MessageHeaderRoundTrip(f, h, mode, data);
    } else if k.mode.Unused? {
      assert [] + data == data;
    } else {
      hide BE32, U32;
      var x := if k.mode.TimestampUsed? then k.timestamp else k.delta;
      BE32RoundTrip(x);
      assert (BE32(x) + data)[0..4] == BE32(x) && (BE32(x) + data)[4..] == data;
    }
  }

  lemma ChunkIsShort(k: Memory, f: Format, csid: int, h: MessageHeader, data: seq<byte>)
    requires 2 <= csid <= 319 && (f == 3 ==> k.Last?)
    ensures ShortForm(ChunkOf(k, f, csid, h, data))
  {
    BasicHeaderRoundTrip(BasicHeader(f, csid), [], 0);
    assert ChunkOf(k, f, csid, h, data)[0] == Basic(f, csid)[0];
  }

  lemma HeadersSolo(k: Memory, f: Format, csid: int, h: MessageHeader, data: seq<byte>, r: Reader, size: uint32)
    requires 2 <= csid <= 319 && h.messageLength <= MAX_UINT24 && (f == 3 ==> k.Last? && k.mode == r.mode)
    ensures ReadHeaders(Demux(map[csid := r], 1, size), ChunkOf(k, f, csid, h, data), 0)
            == Headers(csid, Absorb(r, BasicHeader(f, csid), Seen(k, f, h)), data)
  {
    var bh := BasicHeader(f, csid);
    var header := if f == 3 then Repeated(k) else EncodeMessageHeader(f, h);
    var b := ChunkOf(k, f, csid, h, data);
    assert b == Basic(f, csid) + (header + data);
    BasicHeaderRoundTrip(bh, header + data, 0);
    assert DecodeBasicHeader(b, 0) == Parsed(bh, header + data);
    HeaderSeen(k, f, h, r.mode, data);
    hide DecodeBasicHeader, DecodeMessageHeader, EncodeMessageHeader, EncodeBasicHeader, Absorb, Seen, Repeated,
         ChunkOf, Basic, BasicHeaderSize;
    assert DecodeMessageHeader(header + data, f, r.mode) == Parsed(Seen(k, f, h), data);
  }

  /** One chunk of the right size, read alone. */
  lemma ChunkSolo(k: Memory, f: Format, csid: int, h: MessageHeader, data: seq<byte>, r: Reader, size: uint32)
    requires 2 <= csid <= 319 && h.messageLength <= MAX_UINT24 && (f == 3 ==> k.Last? && k.mode == r.mode)
    requires var r1 := Absorb(r, BasicHeader(f, csid), Seen(k, f, h));
             |r1.buf| < r1.length && |data| == Expected(r1, size)
    ensures Solo(r, csid, size, ChunkOf(k, f, csid, h, data))
            == Some(Append(Absorb(r, BasicHeader(f, csid), Seen(k, f, h)), data))
  {
    hide ChunkOf, ShortForm, Absorb, Append, Seen, ReadHeaders;
    HeadersSolo(k, f, csid, h, data, r, size);
    ChunkIsShort(k, f, csid, h, data);
    assert data[..|data|] == data && data[|data|..] == [];
  }

  lemma ContinuationOnward(k: Memory, csid: int, m: Message, left: seq<byte>, size: uint32, r: Reader)
    requires 2 <= csid <= 319 && size >= 1 && Halfway(k, r, m, left)
    ensures var n := Min(|left|, size);
            var r1 := Absorb(r, BasicHeader(3, csid), Seen(k, 3, BLANK));
            && |r1.buf| < r1.length && n == Expected(r1, size)
            && Onward(k, Append(r1, left[..n]), m, left[n..])
  {
    var n := Min(|left|, size);
    assert left == left[..n] + left[n..];
    assert r.buf + left == (r.buf + left[..n]) + left[n..];
    if n == |left| {
      assert left[n..] == [];
      assert r.buf + left[..n] == m.payload;
    }
  }

  lemma {:induction false} ContinuationsPlay(k: Memory, csid: int, m: Message, left: seq<byte>, size: uint32, r: Reader)
    requires 2 <= csid <= 319 && size >= 1 && Halfway(k, r, m, left)
    ensures var play := Play(r, csid, size, Continuations(k, csid, left, size));
            play.Some? && InStep(k, play.value.0) && play.value.1 == [m]
    decreases |left|, 0
  {
    var n := Min(|left|, size);
    var bs := Continuations(k, csid, left[n..], size);
    var b := ChunkOf(k, 3, csid, BLANK, left[..n]);
    var r' := Append(Absorb(r, BasicHeader(3, csid), Seen(k, 3, BLANK)), left[..n]);
    assert left != [] && k.Last? && k.mode == r.mode;
    assert Continuations(k, csid, left, size) == [b] + bs;
    hide Append, Absorb, Seen, ChunkOf, Halfway, Expected;
    ContinuationOnward(k, csid, m, left, size, r);
    ChunkSolo(k, 3, csid, BLANK, left[..n], r, size);
    FinishPlay(k, csid, m, left[n..], size, r, r', b, bs);
  }

  lemma OnwardMeans(k: Memory, csid: int, m: Message, left: seq<byte>, size: uint32, r: Reader)
    requires 2 <= csid <= 319 && size >= 1 && k.Last? && Onward(k, r, m, left)
    ensures left == [] ==> Continuations(k, csid, left, size) == [] && r.completed && InStep(k, r) && r.Assembled() == m
    ensures left != [] ==> !r.completed && Halfway(k, r, m, left)
  {
  }

  lemma PlayNothing(r: Reader, csid: int, size: uint32)
    ensures Play(r, csid, size, []) == Some((r, []))
  {
  }

  /** A chunk that leads onward, and the continuation chunks after it. */
  lemma FinishPlay(k: Memory, csid: int, m: Message, left: seq<byte>, size: uint32, r: Reader, r': Reader,
                   b: seq<byte>, bs: seq<seq<byte>>)
    requires 2 <= csid <= 319 && size >= 1 && k.Last? && Onward(k, r', m, left)
    requires Solo(r, csid, size, b) == Some(r') && bs == Continuations(k, csid, left, size)
    ensures var play := Play(r, csid, size, [b] + bs);
            play.Some? && InStep(k, play.value.0) && play.value.1 == [m]
    decreases |left|, 1
  {
    assert left != [] ==> !r'.completed && Halfway(k, r', m, left);
    hide *;
    PlayFirst(r, csid, size, b, bs);
    OnwardMeans(k, csid, m, left, size, r');
    if left == [] {
      PlayNothing(r', csid, size);
      assert [m] + [] == [m];
    } else {
      ContinuationsPlay(k, csid, m, left, size, r');
      assert [] + [m] == [m];
    }
  }

  lemma WrappedSum(a: uint32, b: uint32)
    ensures Wrap32(a + Wrap32(b - a)) == b
  {
  }

  /** The reader's memory after the headers of a first chunk, in whatever format. */
  lemma FirstAbsorbed(k: Memory, csid: int, f: Format, m: Message, r: Reader)
    requires InStep(k, r) && Permitted(k, f, m)
    ensures var k' := Remember(k, f, m);
            var r1 := Absorb(r, BasicHeader(f, csid), Seen(k', f, Full(k, m)));
            && k'.Last? && k'.length == |m.payload| && k'.timestamp == m.timestamp
            && k'.typeID == m.typeID && k'.streamID == m.streamID
            && r1.buf == [] && !r1.completed && r1.length == |m.payload| && r1.typeID == m.typeID
            && r1.streamID == m.streamID && r1.mode == k'.mode && r1.delta == k'.delta
    ensures var k' := Remember(k, f, m);
            var r1 := Absorb(r, BasicHeader(f, csid), Seen(k', f, Full(k, m)));
            && (k'.mode.DeltaUsed? ==> k'.repeatable)
            && (k'.mode.TimestampUsed? ==> r1.timestamp == k'.timestamp)
            && Wrap32(r1.timestamp + r1.delta) == m.timestamp
            && (f == 3 ==> k'.mode == r.mode)
  {
    if f != 0 {
      WrappedSum(k.timestamp, m.timestamp);
    }
  }

  lemma FirstChunkOnward(k: Memory, csid: int, f: Format, m: Message, size: uint32, r: Reader)
    requires 2 <= csid <= 319 && size >= 1 && InStep(k, r) && Permitted(k, f, m)
    ensures var k' := Remember(k, f, m);
            var n := Min(|m.payload|, size);
            var r1 := Absorb(r, BasicHeader(f, csid), Seen(k', f, Full(k, m)));
            && k'.Last? && r1.buf == [] && n == Expected(r1, size) && 0 < r1.length
            && (f == 3 ==> k'.mode == r.mode)
            && Onward(k', Append(r1, m.payload[..n]), m, m.payload[n..])
  {
    assert 1 <= |m.payload| <= MAX_UINT24;
    hide Absorb, Seen, Remember, Full, Permitted;
    var n := Min(|m.payload|, size);
    FirstAbsorbed(k, csid, f, m, r);
    assert m.payload == m.payload[..n] + m.payload[n..];
    assert [] + m.payload[..n] == m.payload[..n];
    if n == |m.payload| {
      assert m.payload[..n] == m.payload && m.payload[n..] == [];
    }
  }

  /** Every message is recovered, whatever permitted format it came in. */
  lemma MessagePlays(k: Memory, csid: int, f: Format, m: Message, size: uint32, r: Reader)
    requires 2 <= csid <= 319 && size >= 1 && InStep(k, r) && Permitted(k, f, m)
    ensures var play := Play(r, csid, size, ChunksOf(k, csid, f, m, size));
            play.Some? && InStep(Remember(k, f, m), play.value.0) && play.value.1 == [m]
  {
    var k' := Remember(k, f, m);
    var h := Full(k, m);
    var n := Min(|m.payload|, size);
    FirstChunkOnward(k, csid, f, m, size, r);
    var b := ChunkOf(k', f, csid, h, m.payload[..n]);
    var bs := Continuations(k', csid, m.payload[n..], size);
    assert ChunksOf(k, csid, f, m, size) == [b] + bs;
    hide Append, Absorb, Seen, ChunkOf, Remember, Expected;
    ChunkSolo(k', f, csid, h, m.payload[..n], r, size);
    FinishPlay(k', csid, m, m.payload[n..], size, r,
               Append(Absorb(r, BasicHeader(f, csid), Seen(k', f, h)), m.payload[..n]), b, bs);
  }

  // ---- whole runs ---------------------------------------------------------------------

  datatype Sending = Sending(fmt: Format, message: Message)

  predicate PermittedRun(k: Memory, ss: seq<Sending>)
    decreases |ss|
  {
    ss == [] || (Permitted(k, ss[0].fmt, ss[0].message) && PermittedRun(Remember(k, ss[0].fmt, ss[0].message), ss[1..]))
  }

  function RunChunks(k: Memory, csid: int, ss: seq<Sending>, size: uint32): seq<seq<byte>>
    requires PermittedRun(k, ss) && 2 <= csid <= 319 && size >= 1
    decreases |ss|
  {
    if ss == [] then
      []
    else
      ChunksOf(k, csid, ss[0].fmt, ss[0].message, size)
      + RunChunks(Remember(k, ss[0].fmt, ss[0].message), csid, ss[1..], size)
  }

  function MessagesOf(ss: seq<Sending>): seq<Message> {
    if ss == [] then [] else [ss[0].message] + MessagesOf(ss[1..])
  }

  lemma {:induction false} PlayAppends(r: Reader, csid: int, size: uint32, a: seq<seq<byte>>, b: seq<seq<byte>>)
    requires Play(r, csid, size, a).Some? && Play(Play(r, csid, size, a).value.0, csid, size, b).Some?
    ensures var p := Play(r, csid, size, a).value;
            var q := Play(p.0, csid, size, b).value;
            Play(r, csid, size, a + b) == Some((q.0, p.1 + q.1))
    decreases |a|
  {
    hide *;
    if a == [] {
      PlayNothing(r, csid, size);
      assert a + b == b;
      assert [] + Play(r, csid, size, b).value.1 == Play(r, csid, size, b).value.1;
    } else {
      assert a == [a[0]] + a[1..] && a + b == [a[0]] + (a[1..] + b);
      PlayFirst(r, csid, size, a[0], a[1..]);
      PlayFirst(r, csid, size, a[0], a[1..] + b);
      var r1 := Solo(r, csid, size, a[0]).value;
      PlayAppends(r1, csid, size, a[1..], b);
      var x := if r1.completed then [r1.Assembled()] else [];
      var p := Play(r1, csid, size, a[1..]).value;
      var q := Play(p.0, csid, size, b).value;
      assert x + (p.1 + q.1) == (x + p.1) + q.1;
    }
  }

  // ---- where the reader departs -------------------------------------------------------

  /** A type 3 chunk that opens another message of the same length, with no delta held. */
  lemma RestartOnward(k: Memory, csid: int, m: Message, size: uint32, r: Reader)
    requires 2 <= csid <= 319 && size >= 1 && InStep(k, r) && k.Last? && k.delta == 0
    requires 1 <= |m.payload| <= MAX_UINT24 && k.timestamp == m.timestamp && k.length == |m.payload|
    requires k.typeID == m.typeID && k.streamID == m.streamID && !k.mode.DeltaUsed?
    ensures var n := Min(|m.payload|, size);
            var r1 := Absorb(r, BasicHeader(3, csid), Seen(k, 3, BLANK));
            && r1.buf == [] && 0 < r1.length && n == Expected(r1, size)
            && Onward(k, Append(r1, m.payload[..n]), m, m.payload[n..])
  {
    var n := Min(|m.payload|, size);
    assert m.payload == m.payload[..n] + m.payload[n..];
    assert [] + m.payload[..n] == m.payload[..n];
    if n == |m.payload| {
      assert m.payload[..n] == m.payload && m.payload[n..] == [];
    }
  }

  lemma RestartPlays(k: Memory, csid: int, m: Message, size: uint32, r: Reader)
    requires 2 <= csid <= 319 && size >= 1 && InStep(k, r) && k.Last? && k.delta == 0
    requires 1 <= |m.payload| <= MAX_UINT24 && k.timestamp == m.timestamp && k.length == |m.payload|
    requires k.typeID == m.typeID && k.streamID == m.streamID && !k.mode.DeltaUsed?
    ensures var play := Play(r, csid, size, Continuations(k, csid, m.payload, size));
            play.Some? && play.value.1 == [m]
  {
    var n := Min(|m.payload|, size);
    var b := ChunkOf(k, 3, csid, BLANK, m.payload[..n]);
    var bs := Continuations(k, csid, m.payload[n..], size);
    assert m.payload != [] && k.mode == r.mode;
    assert Continuations(k, csid, m.payload, size) == [b] + bs;
    hide Play, Append, Absorb, Seen, ChunkOf, Expected, InStep, Continuations, Onward;
    RestartOnward(k, csid, m, size, r);
    var r1 := Append(Absorb(r, BasicHeader(3, csid), Seen(k, 3, BLANK)), m.payload[..n]);
    ChunkSolo(k, 3, csid, BLANK, m.payload[..n], r, size);
    FinishPlay(k, csid, m, m.payload[n..], size, r, r1, b, bs);
  }

  lemma AfterType0(m: Message)
    requires 1 <= |m.payload| <= MAX_UINT24
    ensures Permitted(Nothing, 0, m)
    ensures var k := Remember(Nothing, 0, m);
            && k.Last? && k.delta == 0 && k.timestamp == m.timestamp && k.length == |m.payload|
            && k.typeID == m.typeID && k.streamID == m.streamID && !k.mode.DeltaUsed?
  {
  }

  /** A message of type 0, and one of the same length that opens with type 3. */
  function OpenedByType3(csid: int, m: Message, payload: seq<byte>, size: uint32): seq<seq<byte>>
    requires 2 <= csid <= 319 && size >= 1 && 1 <= |m.payload| <= MAX_UINT24
  {
    ChunksOf(Nothing, csid, 0, m, size) + Continuations(Remember(Nothing, 0, m), csid, payload, size)
  }

  /** What section 5.3.1.2.4 asks for as the time of the second: the timestamp of the type 0
      chunk is its delta. */
  function StandardTime(m: Message): uint32 {
    Wrap32(m.timestamp + m.timestamp)
  }

  lemma TwiceIsOnceIff(m: Message)
    ensures m.timestamp == StandardTime(m) <==> m.timestamp == 0
  {
  }

  /** The reader recovers both messages, at any chunk size and time, but gives the second the
      time of the first; that is what the standard asks for exactly when it is 0. */
  lemma Type3AfterType0(csid: int, m: Message, payload: seq<byte>, size: uint32, r: Reader)
    requires 2 <= csid <= 319 && size >= 1 && InStep(Nothing, r)
    requires 1 <= |m.payload| <= MAX_UINT24 && |payload| == |m.payload|
    ensures var play := Play(r, csid, size, OpenedByType3(csid, m, payload, size));
            play.Some? && play.value.1 == [m, m.(payload := payload)]
    ensures m.timestamp == StandardTime(m) <==> m.timestamp == 0
  {
    AfterType0(m);
    var first := ChunksOf(Nothing, csid, 0, m, size);
    var k := Remember(Nothing, 0, m);
    var second := Continuations(k, csid, payload, size);
    assert OpenedByType3(csid, m, payload, size) == first + second;
    hide *;
    MessagePlays(Nothing, csid, 0, m, size, r);
    RestartPlays(k, csid, m.(payload := payload), size, Play(r, csid, size, first).value.0);
    PlayAppends(r, csid, size, first, second);
    TwiceIsOnceIff(m);
    assert [m] + [m.(payload := payload)] == [m, m.(payload := payload)];
  }

  // ---- whole runs, from a new connection ----------------------------------------------

  /** The reader recovers every message of every permitted run on a chunk stream, for all
      32-bit times and deltas, and keeps the extended mode right across the run. With
      `Demultiplex.Interleaved` this holds for any mixture of such streams on one wire. */
  lemma {:induction false} StandardRunRecovered(k: Memory, csid: int, ss: seq<Sending>, size: uint32, r: Reader)
    requires 2 <= csid <= 319 && size >= 1 && InStep(k, r) && PermittedRun(k, ss)
    ensures var play := Play(r, csid, size, RunChunks(k, csid, ss, size));
            play.Some? && play.value.1 == MessagesOf(ss)
    decreases |ss|
  {
    if ss != [] {
      var f, m := ss[0].fmt, ss[0].message;
      var k' := Remember(k, f, m);
      hide Play, InStep, Permitted, Remember, ChunksOf;
      MessagePlays(k, csid, f, m, size, r);
      var first := ChunksOf(k, csid, f, m, size);
      var r' := Play(r, csid, size, first).value.0;
      StandardRunRecovered(k', csid, ss[1..], size, r');
      PlayAppends(r, csid, size, first, RunChunks(k', csid, ss[1..], size));
    } else {
      PlayNothing(r, csid, size);
    }
  }

  /** Any interleaving of standard senders, one per chunk stream, on a new connection: every
      stream delivers exactly its messages, in order. */
  lemma StandardSendersRecovered(d: Demux, runs: map<int, seq<Sending>>, ts: seq<Tagged>, slack: nat -> nat, c: int)
    requires d.readers == map[] && d.chunkSize >= 1 && |runs| <= d.maxStreams && c in runs
    requires forall k <- runs :: 2 <= k <= 319 && PermittedRun(Nothing, runs[k])
    requires forall i :: 0 <= i < |ts| ==> ts[i].csid in runs
    requires forall k <- runs :: Own(ts, k) == RunChunks(Nothing, k, runs[k], d.chunkSize)
    ensures var run := Run(d, Concat(ts), slack);
            run.1.Some? && Messages(run.0, c) == MessagesOf(runs[c])
  {
    hide Play, Run, Own, Concat, RunChunks, PermittedRun, Messages;
    forall k <- runs
      ensures var play := Play(d.At(k), k, d.chunkSize, Own(ts, k)); play.Some? && play.value.1 == MessagesOf(runs[k])
    {
      StandardRunRecovered(Nothing, k, runs[k], d.chunkSize, FRESH_READER);
    }
    assert d.readers.Keys + runs.Keys == runs.Keys;
    Interleaved(d, ts, runs.Keys, slack, c);
  }
}
