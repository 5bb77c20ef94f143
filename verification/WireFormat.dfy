/** The formats on the wire, field by field and byte by byte (sections 5.3.1, 5.4, 6.2 and 7.1.7
    of the RTMP specification 1.0). */
module WireFormat {
  import opened Bytes
  import opened ChunkHeader
  import opened Messages

  function Nth(s: seq<byte>, i: nat): int
    requires i < |s|
  {
    s[i]
  }

  /** Most significant byte first, from position i. */
  predicate BigEndian(s: seq<byte>, i: nat, n: nat, x: int)
    requires 1 <= n <= 4
  {
    i + n <= |s| &&
    x == if n == 1 then Nth(s, i)
         else if n == 2 then 256 * Nth(s, i) + Nth(s, i + 1)
         else if n == 3 then 65536 * Nth(s, i) + 256 * Nth(s, i + 1) + Nth(s, i + 2)
         else 16777216 * Nth(s, i) + 65536 * Nth(s, i + 1) + 256 * Nth(s, i + 2) + Nth(s, i + 3)
  }

  /** Least significant byte first, 32 bits. */
  predicate LittleEndian(s: seq<byte>, i: nat, x: int) {
    i + 4 <= |s|
    && x == Nth(s, i) + 256 * Nth(s, i + 1) + 65536 * Nth(s, i + 2) + 16777216 * Nth(s, i + 3)
  }

  lemma BE32Is(x: uint32)
    ensures BigEndian(BE32(x), 0, 4, x)
  {
    BE32RoundTrip(x);
  }

  lemma BE24Is(x: uint32)
    requires x <= MAX_UINT24
    ensures BigEndian(BE24(x), 0, 3, x)
  {
    BE32RoundTrip(x);
    assert BE32(x)[0] == 0;
  }

  lemma LE32Is(x: uint32)
    ensures LittleEndian(LE32(x), 0, x)
  {
    LE32RoundTrip(x);
  }

  /** A field that stands at position i of a longer sequence. */
  lemma FieldAt(s: seq<byte>, i: nat, f: seq<byte>, n: nat, x: int)
    requires 1 <= n <= 4 && BigEndian(f, 0, n, x) && |f| == n && i + n <= |s| && s[i..i + n] == f
    ensures BigEndian(s, i, n, x)
  {
    assert forall k :: 0 <= k < n ==> s[i + k] == f[k];
  }

  lemma LittleAt(s: seq<byte>, i: nat, f: seq<byte>, x: int)
    requires LittleEndian(f, 0, x) && |f| == 4 && i + 4 <= |s| && s[i..i + 4] == f
    ensures LittleEndian(s, i, x)
  {
    assert forall k :: 0 <= k < 4 ==> s[i + k] == f[k];
  }

  /** Two bits of format, and the chunk stream ID in one, two or three bytes. */
  lemma BasicHeaderFormat(h: BasicHeader)
    requires InRange(h.csid)
    ensures EncodeBasicHeader(h).Some?
    ensures var s := EncodeBasicHeader(h).value;
            && |s| == (if h.csid < 64 then 1 else if h.csid < 320 then 2 else 3)
            && s[0] == 64 * h.fmt + (if h.csid < 64 then h.csid else if h.csid < 320 then 0 else 1)
            && h.csid == (if |s| == 1 then Nth(s, 0) - 64 * h.fmt
                          else if |s| == 2 then Nth(s, 1) + 64
                          else 256 * Nth(s, 2) + Nth(s, 1) + 64)
  {
  }

  /** The 24-bit time field, and the 32-bit one that follows the header when it is full. */
  predicate TimeFields(s: seq<byte>, size: nat, t: uint32) {
    if t < 0xff_ffff then BigEndian(s, 0, 3, t) && |s| == size
    else BigEndian(s, 0, 3, 0xff_ffff) && BigEndian(s, size, 4, t) && |s| == size + 4
  }

  lemma Slices(a: seq<byte>, b: seq<byte>, c: seq<byte>, d: seq<byte>, e: seq<byte>)
    requires |a| == |b| == 3 && |c| == 1 && |d| == 4
    ensures var s := a + b + c + d + e;
            s[0..3] == a && s[3..6] == b && s[6] == c[0] && s[7..11] == d && s[11..11 + |e|] == e && |s| == 11 + |e|
  {
  }

  /** Type 0: the time, the length and the type ID, and the message stream ID, least
      significant byte first. */
  lemma Type0Format(h: MessageHeader)
    requires h.messageLength <= MAX_UINT24
    ensures var s := EncodeMessageHeader(0, h);
            && TimeFields(s, 11, h.timestamp) && BigEndian(s, 3, 3, h.messageLength) && s[6] == h.messageTypeID
            && LittleEndian(s, 7, h.messageStreamID)
  {
    var s := EncodeMessageHeader(0, h);
    var t := Min(h.timestamp, MAX_UINT24);
    BE24Is(t);
    BE24Is(h.messageLength);
    LE32Is(h.messageStreamID);
    BE32Is(h.timestamp);
    hide BE24, BE32, LE32, BigEndian, LittleEndian;
    var a, b, c, d := BE24(t), BE24(h.messageLength), [h.messageTypeID], LE32(h.messageStreamID);
    var e := if h.timestamp >= MAX_UINT24 then BE32(h.timestamp) else [];
    assert s == a + b + c + d + e;
    Slices(a, b, c, d, e);
    FieldAt(s, 0, a, 3, t);
    FieldAt(s, 3, b, 3, h.messageLength);
    LittleAt(s, 7, d, h.messageStreamID);
    if h.timestamp >= MAX_UINT24 {
      FieldAt(s, 11, e, 4, h.timestamp);
    }
  }

  /** Types 1 and 2: the time is a delta; type 2 has nothing but the delta, and type 3 has
      nothing at all. */
  lemma ShorterFormats(fmt: Format, h: MessageHeader)
    requires h.messageLength <= MAX_UINT24 && fmt >= 1
    ensures var s := EncodeMessageHeader(fmt, h);
            && (fmt == 1 ==> TimeFields(s, 7, h.timestampDelta) && BigEndian(s, 3, 3, h.messageLength)
                             && s[6] == h.messageTypeID)
            && (fmt == 2 ==> TimeFields(s, 3, h.timestampDelta))
            && (fmt == 3 ==> s == [])
  {
    var s := EncodeMessageHeader(fmt, h);
    var t := Min(h.timestampDelta, MAX_UINT24);
    BE24Is(t);
    BE24Is(h.messageLength);
    BE32Is(h.timestampDelta);
    hide BE24, BE32, BigEndian;
    var size := if fmt == 1 then 7 else 3;
    if fmt < 3 {
      FieldAt(s, 0, BE24(t), 3, t);
      if fmt == 1 {
        FieldAt(s, 3, BE24(h.messageLength), 3, h.messageLength);
      }
      if h.timestampDelta >= MAX_UINT24 {
        assert s[size..size + 4] == BE32(h.timestampDelta);
      FieldAt(s, size, BE32(h.timestampDelta), 4, h.timestampDelta);
      }
    }
  }

  /** The control messages under their type IDs; signed sizes in two's complement. */
  lemma ControlFormat(m: Msg)
    requires Encode(m).Encoded?
    ensures var s := Encode(m).bytes;
            match m
            case SetChunkSize(n) => TypeID(m) == 1 && |s| == 4 && BigEndian(s, 0, 4, n) && 1 <= n <= 0x7fff_ffff
            case AbortMessage(id) => TypeID(m) == 2 && |s| == 4 && BigEndian(s, 0, 4, id)
            case Ack(n) => TypeID(m) == 3 && |s| == 4 && BigEndian(s, 0, 4, n)
            case UserCtrl(e) => TypeID(m) == 4 && s == EncodeEvent(e)
            case WinAckSize(n) =>
              TypeID(m) == 5 && |s| == 4 && BigEndian(s, 0, 4, if n >= 0 then n else n + 0x1_0000_0000)
            case SetPeerBandwidth(n, l) =>
              TypeID(m) == 6 && |s| == 5 && BigEndian(s, 0, 4, if n >= 0 then n else n + 0x1_0000_0000) && s[4] == l
            case AudioMessage(p) => TypeID(m) == 8 && s == p
            case VideoMessage(p) => TypeID(m) == 9 && s == p
  {
    hide BE32, BigEndian, EncodeEvent;
    match m {
      case SetChunkSize(n) => BE32Is(n);
      case AbortMessage(id) => BE32Is(id);
      case Ack(n) => BE32Is(n);
      case WinAckSize(n) => BE32Is(Wrap32(n));
      case SetPeerBandwidth(n, l) =>
        BE32Is(Wrap32(n));
        FieldAt(Encode(m).bytes, 0, BE32(Wrap32(n)), 4, Wrap32(n));
      case _ =>
    }
  }

  /** Only a chunk size of zero or above 31 bits cannot be encoded. */
  lemma EncodedIff(m: Msg)
    ensures Encode(m).Encoded? <==> (m.SetChunkSize? ==> 1 <= m.chunkSize <= 0x7fff_ffff)
  {
    hide EncodeEvent;
  }

  /** User control events: two bytes of type, then their numbers. */
  lemma EventFormat(e: UserEvent)
    ensures var s := EncodeEvent(e);
            match e
            case StreamBegin(id) => |s| == 6 && BigEndian(s, 0, 2, 0) && BigEndian(s, 2, 4, id)
            case StreamEOF(id) => |s| == 6 && BigEndian(s, 0, 2, 1) && BigEndian(s, 2, 4, id)
            case StreamDry(id) => |s| == 6 && BigEndian(s, 0, 2, 2) && BigEndian(s, 2, 4, id)
            case SetBufferLength(id, ms) =>
              |s| == 10 && BigEndian(s, 0, 2, 3) && BigEndian(s, 2, 4, id) && BigEndian(s, 6, 4, ms)
            case StreamIsRecorded(id) => |s| == 6 && BigEndian(s, 0, 2, 4) && BigEndian(s, 2, 4, id)
            case PingRequest(t) => |s| == 6 && BigEndian(s, 0, 2, 6) && BigEndian(s, 2, 4, t)
            case PingResponse(t) => |s| == 6 && BigEndian(s, 0, 2, 7) && BigEndian(s, 2, 4, t)
  {
    hide BE32;
    var s := EncodeEvent(e);
    if e.SetBufferLength? {
      BE32Is(e.streamID);
      BE32Is(e.lengthMs);
      assert s[2..6] == BE32(e.streamID) && s[6..10] == BE32(e.lengthMs);
      FieldAt(s, 2, BE32(e.streamID), 4, e.streamID);
      FieldAt(s, 6, BE32(e.lengthMs), 4, e.lengthMs);
    } else {
      var v := if e.PingRequest? || e.PingResponse? then e.timestamp else e.streamID;
      BE32Is(v);
      assert s[2..6] == BE32(v);
      FieldAt(s, 2, BE32(v), 4, v);
    }
  }

  /** What the decoder rejects, and why: everything of an unknown type, reserved types, and
      known ones that are too short or say a chunk size of zero or above 31 bits. */
  lemma RejectedIff(typeID: byte, s: seq<byte>)
    ensures Decode(typeID, s) == Rejected(NotImplemented) <==> typeID in {15, 16, 17, 19, 22}
    ensures Decode(typeID, s) == Rejected(UnexpectedType)
            <==> typeID !in {1, 2, 3, 4, 5, 6, 8, 9, 15, 16, 17, 18, 19, 20, 22}
    ensures Decode(typeID, s) == Rejected(BadFormat)
            <==> typeID == 1 && |s| >= 4 && !exists n :: 1 <= n <= 0x7fff_ffff && BigEndian(s, 0, 4, n)
    ensures Decode(typeID, s) == Rejected(ShortInput)
            <==> (typeID in {1, 2, 3, 5} && |s| < 4) || (typeID == 6 && |s| < 5)
                 || (typeID == 4
                     && (|s| < 2 || (BigEndian(s, 0, 2, 3) && |s| < 10)
                         || (|s| < 6 && exists n :: n in {0, 1, 2, 4, 6, 7} && BigEndian(s, 0, 2, n))))
    ensures Decode(typeID, s) == Rejected(UnknownEvent)
            <==> typeID == 4 && |s| >= 2 && !exists n :: n in {0, 1, 2, 3, 4, 6, 7} && BigEndian(s, 0, 2, n)
  {
    if |s| >= 4 {
      assert BigEndian(s, 0, 4, U32(s[..4]));
    }
    if |s| >= 2 {
      assert BigEndian(s, 0, 2, U16(s[..2]));
    }
  }
}
