/** The two headers of a chunk (chunk_header.go): what the encoders write and what the
    decoders make of any bytes, and that the two undo each other. */
module ChunkHeader {
  import opened Bytes

  type Format = x: int | 0 <= x < 4

  datatype ExtendedMode = Unused | TimestampUsed | DeltaUsed

  datatype BasicHeader = BasicHeader(fmt: Format, csid: int)

  datatype MessageHeader = MessageHeader(
    timestamp: uint32,
    timestampDelta: uint32,
    messageLength: uint32,
    messageTypeID: byte,
    messageStreamID: uint32,
    mode: ExtendedMode)

  const BLANK := MessageHeader(0, 0, 0, 0, 0, Unused)

  datatype Option<+T> = None | Some(value: T)

  /** A decoder either takes a prefix of its input, or finds the input too short. */
  datatype Parse<+T> = Parsed(value: T, rest: seq<byte>) | Short

  predicate InRange(csid: int) {
    2 <= csid <= 65599
  }

  // ---- basic header -------------------------------------------------------------------

  function EncodeBasicHeader(h: BasicHeader): Option<seq<byte>> {
    var top := h.fmt * 64;
    if 2 <= h.csid <= 63 then
      Some([top + h.csid])
    else if 64 <= h.csid <= 319 then
      Some([top, h.csid - 64])
    else if 320 <= h.csid <= 65599 then
      Some([top + 1, (h.csid - 64) % 256, (h.csid - 64) / 256])
    else
      None
  }

  /** `slack` is how many bytes beyond the two it needs the reader hands over when the
      three-byte form reads into all that is left of its scratch buffer; they are lost.
      A scratch buffer of three bytes leaves no room, so there `slack` is 0. */
  function DecodeBasicHeader(s: seq<byte>, slack: nat): (p: Parse<BasicHeader>)
    ensures p.Parsed? ==> |p.rest| < |s| && p.rest == s[|s| - |p.rest|..]
  {
    if |s| < 1 then
      Short
    else
      var fmt := s[0] / 64;
      var id := s[0] % 64;
      if id == 0 then
        if |s| < 2 then Short else Parsed(BasicHeader(fmt, (s[1] as int) + 64), s[2..])
      else if id == 1 then
        if |s| < 3 then
          Short
        else
          Parsed(BasicHeader(fmt, (s[2] as int) * 256 + s[1] + 64), s[3 + Min(slack, |s| - 3)..])
      else
        Parsed(BasicHeader(fmt, id), s[1..])
  }

  function BasicHeaderSize(csid: int): nat {
    if csid <= 63 then 1 else if csid <= 319 then 2 else 3
  }

  lemma TopAndLow(top: int, low: int)
    requires 0 <= low < 64
    ensures (top * 64 + low) / 64 == top && (top * 64 + low) % 64 == low
  {
  }

  lemma ShortFormRoundTrip(h: BasicHeader, suffix: seq<byte>, slack: nat)
    requires 2 <= h.csid <= 319
    ensures EncodeBasicHeader(h).Some? && |EncodeBasicHeader(h).value| == BasicHeaderSize(h.csid)
    ensures DecodeBasicHeader(EncodeBasicHeader(h).value + suffix, slack) == Parsed(h, suffix)
  {
    var e := EncodeBasicHeader(h).value;
    var s := e + suffix;
    TopAndLow(h.fmt, if h.csid <= 63 then h.csid else 0);
    assert s[0] == e[0] && s[|e|..] == suffix;
    assert h.csid > 63 ==> s[1] == e[1];
  }

  /** In the long form the bytes that followed are left exactly if none is read with it. */
  lemma LongFormRoundTrip(h: BasicHeader, suffix: seq<byte>, slack: nat)
    requires 320 <= h.csid <= 65599
    ensures EncodeBasicHeader(h).Some? && |EncodeBasicHeader(h).value| == 3
    ensures DecodeBasicHeader(EncodeBasicHeader(h).value + suffix, slack)
            == Parsed(h, suffix[Min(slack, |suffix|)..])
  {
    var e := EncodeBasicHeader(h).value;
    var s := e + suffix;
    TopAndLow(h.fmt, 1);
    assert s[0] == e[0] && s[1] == e[1] && s[2] == e[2];
    assert s[3 + Min(slack, |suffix|)..] == suffix[Min(slack, |suffix|)..];
  }

  /** Decoding what was encoded gives the header back and leaves exactly the bytes that
      followed, if and only if no byte is read beyond the three-byte form. */
  lemma BasicHeaderRoundTrip(h: BasicHeader, suffix: seq<byte>, slack: nat)
    requires InRange(h.csid)
    ensures EncodeBasicHeader(h).Some?
    ensures var e := EncodeBasicHeader(h).value;
            && |e| == BasicHeaderSize(h.csid)
            && DecodeBasicHeader(e + suffix, slack).Parsed?
            && DecodeBasicHeader(e + suffix, slack).value == h
            && (DecodeBasicHeader(e + suffix, slack).rest == suffix
                <==> h.csid <= 319 || slack == 0 || suffix == [])
  {
    hide EncodeBasicHeader, DecodeBasicHeader;
    if h.csid <= 319 {
      ShortFormRoundTrip(h, suffix, slack);
    } else {
      LongFormRoundTrip(h, suffix, slack);
    }
  }

  /** The encoder never writes a longer form than the one it was decoded from. */
  lemma ReencodedBasicHeaderNotLonger(s: seq<byte>)
    requires DecodeBasicHeader(s, 0).Parsed?
    ensures var p := DecodeBasicHeader(s, 0);
            && InRange(p.value.csid)
            && EncodeBasicHeader(p.value).Some?
            && |EncodeBasicHeader(p.value).value| <= |s| - |p.rest|
            && DecodeBasicHeader(EncodeBasicHeader(p.value).value + p.rest, 0) == p
  {
    var p := DecodeBasicHeader(s, 0);
    BasicHeaderRoundTrip(p.value, p.rest, 0);
  }

  // ---- message header -----------------------------------------------------------------

  predicate NeedsExtension(fmt: Format, h: MessageHeader) {
    if fmt == 0 then h.timestamp >= MAX_UINT24 else fmt < 3 && h.timestampDelta >= MAX_UINT24
  }

  function EncodeMessageHeader(fmt: Format, h: MessageHeader): seq<byte> {
    if fmt == 0 then
      BE24(Min(h.timestamp, MAX_UINT24)) + BE24(h.messageLength) + [h.messageTypeID] + LE32(h.messageStreamID)
      + if h.timestamp >= MAX_UINT24 then BE32(h.timestamp) else []
    else if fmt == 1 then
      BE24(Min(h.timestampDelta, MAX_UINT24)) + BE24(h.messageLength) + [h.messageTypeID]
      + if h.timestampDelta >= MAX_UINT24 then BE32(h.timestampDelta) else []
    else if fmt == 2 then
      BE24(Min(h.timestampDelta, MAX_UINT24))
      + if h.timestampDelta >= MAX_UINT24 then BE32(h.timestampDelta) else []
    else
      []
  }

  function MessageHeaderSize(fmt: Format, extended: bool): nat {
    (if fmt == 0 then 11 else if fmt == 1 then 7 else if fmt == 2 then 3 else 0) + if extended then 4 else 0
  }

  /** `mode` is what the chunk stream remembers; only a type 3 header looks at it. */
  function DecodeMessageHeader(s: seq<byte>, fmt: Format, mode: ExtendedMode): (p: Parse<MessageHeader>)
    ensures p.Parsed? ==> |p.rest| <= |s| && p.rest == s[|s| - |p.rest|..]
    ensures p.Parsed? ==> |s| - |p.rest| <= 15 && p.value.messageLength < 0x1_000000
  {
    if fmt == 0 then
      if |s| < 11 then
        Short
      else
        U24RoundTrip(s[3..6]);
        var h := MessageHeader(U24(s[0..3]), 0, U24(s[3..6]), s[6], FromLE32(s[7..11]), Unused);
        if h.timestamp != MAX_UINT24 then
          Parsed(h, s[11..])
        else if |s| < 15 then
          Short
        else
          Parsed(h.(timestamp := U32(s[11..15]), mode := TimestampUsed), s[15..])
    else if fmt == 1 then
      if |s| < 7 then
        Short
      else
        U24RoundTrip(s[3..6]);
        var h := BLANK.(timestampDelta := U24(s[0..3]), messageLength := U24(s[3..6]), messageTypeID := s[6]);
        if h.timestampDelta != MAX_UINT24 then
          Parsed(h, s[7..])
        else if |s| < 11 then
          Short
        else
          Parsed(h.(timestampDelta := U32(s[7..11]), mode := DeltaUsed), s[11..])
    else if fmt == 2 then
      if |s| < 3 then
        Short
      else
        var h := BLANK.(timestampDelta := U24(s[0..3]));
        if h.timestampDelta != MAX_UINT24 then
          Parsed(h, s[3..])
        else if |s| < 7 then
          Short
        else
          Parsed(h.(timestampDelta := U32(s[3..7]), mode := DeltaUsed), s[7..])
    else
      match mode
      case Unused => Parsed(BLANK, s)
      case TimestampUsed =>
        if |s| < 4 then Short else Parsed(BLANK.(timestamp := U32(s[0..4]), mode := mode), s[4..])
      case DeltaUsed =>
        if |s| < 4 then Short else Parsed(BLANK.(timestampDelta := U32(s[0..4]), mode := mode), s[4..])
  }

  /** The part of a header that a given format carries. */
  function Carried(fmt: Format, h: MessageHeader): MessageHeader {
    if fmt == 0 then
      h.(timestampDelta := 0, mode := if NeedsExtension(0, h) then TimestampUsed else Unused)
    else if fmt == 1 then
      h.(timestamp := 0, messageStreamID := 0, mode := if NeedsExtension(1, h) then DeltaUsed else Unused)
    else if fmt == 2 then
      BLANK.(timestampDelta := h.timestampDelta, mode := if NeedsExtension(2, h) then DeltaUsed else Unused)
    else
      BLANK
  }

  lemma Type0RoundTrip(h: MessageHeader, mode: ExtendedMode, suffix: seq<byte>)
    requires h.messageLength <= MAX_UINT24
    ensures DecodeMessageHeader(EncodeMessageHeader(0, h) + suffix, 0, mode) == Parsed(Carried(0, h), suffix)
  {
    hide BE24, BE32, LE32, U24, U32, FromLE32;
    var short, length := BE24(Min(h.timestamp, MAX_UINT24)), BE24(h.messageLength);
    var ext := if NeedsExtension(0, h) then BE32(h.timestamp) else [];
    var s := EncodeMessageHeader(0, h) + suffix;
    assert s[0..3] == short && s[3..6] == length && s[6] == h.messageTypeID && s[7..11] == LE32(h.messageStreamID);
    assert s[11..] == ext + suffix;
    assert NeedsExtension(0, h) ==> s[11..15] == ext && s[15..] == suffix;
    BE24RoundTrip(Min(h.timestamp, MAX_UINT24));
    BE24RoundTrip(h.messageLength);
    LE32RoundTrip(h.messageStreamID);
    BE32RoundTrip(h.timestamp);
  }

  lemma Type1RoundTrip(h: MessageHeader, mode: ExtendedMode, suffix: seq<byte>)
    requires h.messageLength <= MAX_UINT24
    ensures DecodeMessageHeader(EncodeMessageHeader(1, h) + suffix, 1, mode) == Parsed(Carried(1, h), suffix)
  {
    hide BE24, BE32, U24, U32;
    var short, length := BE24(Min(h.timestampDelta, MAX_UINT24)), BE24(h.messageLength);
    var ext := if NeedsExtension(1, h) then BE32(h.timestampDelta) else [];
    var s := EncodeMessageHeader(1, h) + suffix;
    assert s[0..3] == short && s[3..6] == length && s[6] == h.messageTypeID;
    assert s[7..] == ext + suffix;
    assert NeedsExtension(1, h) ==> s[7..11] == ext && s[11..] == suffix;
    BE24RoundTrip(Min(h.timestampDelta, MAX_UINT24));
    BE24RoundTrip(h.messageLength);
    BE32RoundTrip(h.timestampDelta);
  }

  lemma Type2RoundTrip(h: MessageHeader, mode: ExtendedMode, suffix: seq<byte>)
    ensures DecodeMessageHeader(EncodeMessageHeader(2, h) + suffix, 2, mode) == Parsed(Carried(2, h), suffix)
  {
    hide BE24, BE32, U24, U32;
    var short := BE24(Min(h.timestampDelta, MAX_UINT24));
    var ext := if NeedsExtension(2, h) then BE32(h.timestampDelta) else [];
    var s := EncodeMessageHeader(2, h) + suffix;
    assert s[0..3] == short;
    assert s[3..] == ext + suffix;
    assert NeedsExtension(2, h) ==> s[3..7] == ext && s[7..] == suffix;
    BE24RoundTrip(Min(h.timestampDelta, MAX_UINT24));
    BE32RoundTrip(h.timestampDelta);
  }

  /** Types 0 to 2 come back exactly, over the whole 32-bit range of times and on both
      sides of the 24-bit escape; type 3 does so if and only if the decoder is not in an
      extended mode (there it takes four bytes that the encoder never wrote). */
  lemma MessageHeaderRoundTrip(fmt: Format, h: MessageHeader, mode: ExtendedMode, suffix: seq<byte>)
    requires h.messageLength <= MAX_UINT24
    ensures DecodeMessageHeader(EncodeMessageHeader(fmt, h) + suffix, fmt, mode) == Parsed(Carried(fmt, h), suffix)
            <==> fmt < 3 || mode.Unused?
    ensures |EncodeMessageHeader(fmt, h)| == MessageHeaderSize(fmt, NeedsExtension(fmt, h))
  {
    if fmt == 0 {
      Type0RoundTrip(h, mode, suffix);
    } else if fmt == 1 {
      Type1RoundTrip(h, mode, suffix);
    } else if fmt == 2 {
      Type2RoundTrip(h, mode, suffix);
    } else {
      assert EncodeMessageHeader(fmt, h) + suffix == suffix;
    }
  }

  lemma EncodedSize(fmt: Format, h: MessageHeader)
    ensures |EncodeMessageHeader(fmt, h)| == MessageHeaderSize(fmt, NeedsExtension(fmt, h))
  {
  }

  /** Whatever the bytes, a header has one of the two sizes of its format. */
  lemma DecodedSize(s: seq<byte>, fmt: Format, mode: ExtendedMode)
    requires DecodeMessageHeader(s, fmt, mode).Parsed?
    ensures var n := |s| - |DecodeMessageHeader(s, fmt, mode).rest|;
            n == MessageHeaderSize(fmt, false) || n == MessageHeaderSize(fmt, true)
  {
    hide U24, U32, FromLE32;
  }

  /** The one- and two-byte forms, for which nothing can be read beyond the header. */
  predicate ShortForm(s: seq<byte>) {
    |s| > 0 && s[0] % 64 != 1
  }

  /** A header is read the same way from its own bytes, whatever follows them. */
  lemma BasicHeaderIsLocal(s: seq<byte>, slack: nat, u: seq<byte>, slack': nat)
    requires DecodeBasicHeader(s, slack).Parsed? && ShortForm(s)
    ensures var p := DecodeBasicHeader(s, slack);
            DecodeBasicHeader(s[..|s| - |p.rest|] + u, slack') == Parsed(p.value, u)
  {
    var p := DecodeBasicHeader(s, slack);
    var k := |s| - |p.rest|;
    assert (s[..k] + u)[k..] == u;
  }

  lemma MessageHeaderIsLocal(s: seq<byte>, fmt: Format, mode: ExtendedMode, u: seq<byte>)
    requires DecodeMessageHeader(s, fmt, mode).Parsed?
    ensures var p := DecodeMessageHeader(s, fmt, mode);
            DecodeMessageHeader(s[..|s| - |p.rest|] + u, fmt, mode) == Parsed(p.value, u)
  {
    hide U24, U32, FromLE32;
    var p := DecodeMessageHeader(s, fmt, mode);
    var k := |s| - |p.rest|;
    var v := s[..k] + u;
    assert v[k..] == u;
    if fmt == 0 {
      assert v[0..3] == s[0..3] && v[3..6] == s[3..6] && v[7..11] == s[7..11];
      if p.value.mode.TimestampUsed? { assert v[11..15] == s[11..15]; }
    } else if fmt == 1 {
      assert v[0..3] == s[0..3] && v[3..6] == s[3..6];
      if p.value.mode.DeltaUsed? { assert v[7..11] == s[7..11]; }
    } else if fmt == 2 {
      assert v[0..3] == s[0..3];
      if p.value.mode.DeltaUsed? { assert v[3..7] == s[3..7]; }
    } else if !mode.Unused? {
      assert v[0..4] == s[0..4];
    }
  }
}
