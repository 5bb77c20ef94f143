/** Protocol control messages and user control events as bytes (message/encoder.go,
    message/decoder.go, message/user_control_event_encoder.go and _decoder.go). */
module Messages {
  import opened Bytes

  datatype UserEvent =
    | StreamBegin(streamID: uint32)
    | StreamEOF(streamID: uint32)
    | StreamDry(streamID: uint32)
    | SetBufferLength(streamID: uint32, lengthMs: uint32)
    | StreamIsRecorded(streamID: uint32)
    | PingRequest(timestamp: uint32)
    | PingResponse(timestamp: uint32)

  datatype Msg =
    | SetChunkSize(chunkSize: uint32)
    | AbortMessage(chunkStreamID: uint32)
    | Ack(sequenceNumber: uint32)
    | UserCtrl(event: UserEvent)
    | WinAckSize(size: int32)
    | SetPeerBandwidth(size: int32, limit: byte)
    | AudioMessage(payload: seq<byte>)
    | VideoMessage(payload: seq<byte>)

  function TypeID(m: Msg): byte {
    match m
    case SetChunkSize(_) => 1
    case AbortMessage(_) => 2
    case Ack(_) => 3
    case UserCtrl(_) => 4
    case WinAckSize(_) => 5
    case SetPeerBandwidth(_, _) => 6
    case AudioMessage(_) => 8
    case VideoMessage(_) => 9
  }

  datatype EncodeResult = Encoded(bytes: seq<byte>) | ChunkSizeOutOfRange

  function EncodeEvent(e: UserEvent): seq<byte> {
    match e
    case StreamBegin(id) => BE16(0) + BE32(id)
    case StreamEOF(id) => BE16(1) + BE32(id)
    case StreamDry(id) => BE16(2) + BE32(id)
    case SetBufferLength(id, ms) => BE16(3) + BE32(id) + BE32(ms)
    case StreamIsRecorded(id) => BE16(4) + BE32(id)
    case PingRequest(t) => BE16(6) + BE32(t)
    case PingResponse(t) => BE16(7) + BE32(t)
  }

  function Encode(m: Msg): EncodeResult {
    match m
    case SetChunkSize(n) =>
      if n < 1 || n > 0x7fff_ffff then ChunkSizeOutOfRange else Encoded(BE32(n % 0x8000_0000))
    case AbortMessage(id) => Encoded(BE32(id))
    case Ack(n) => Encoded(BE32(n))
    case UserCtrl(e) => Encoded(EncodeEvent(e))
    case WinAckSize(n) => Encoded(BE32(Wrap32(n)))
    case SetPeerBandwidth(n, l) => Encoded(BE32(Wrap32(n)) + [l])
    case AudioMessage(p) => Encoded(p)
    case VideoMessage(p) => Encoded(p)
  }

  datatype DecodeError = ShortInput | BadFormat | UnknownEvent | NotImplemented | UnexpectedType | NotModelled

  datatype DecodeResult<+T> = Decoded(value: T, rest: seq<byte>) | Rejected(error: DecodeError)

  function DecodeEvent(s: seq<byte>): DecodeResult<UserEvent> {
    if |s| < 2 then
      Rejected(ShortInput)
    else
      var ty := U16(s[..2]);
      if ty !in {0, 1, 2, 3, 4, 6, 7} then
        Rejected(UnknownEvent)
      else if ty == 3 then
        if |s| < 10 then Rejected(ShortInput)
        else Decoded(SetBufferLength(U32(s[2..6]), U32(s[6..10])), s[10..])
      else if |s| < 6 then
        Rejected(ShortInput)
      else
        var v := U32(s[2..6]);
        var e :=
          if ty == 0 then StreamBegin(v) else if ty == 1 then StreamEOF(v) else if ty == 2 then StreamDry(v)
          else if ty == 4 then StreamIsRecorded(v) else if ty == 6 then PingRequest(v) else PingResponse(v);
        Decoded(e, s[6..])
  }

  /** The decoder chosen by a type ID. Audio and video keep the reader: all that is left is
      their payload. AMF0 bodies (18 and 20) are not part of this model. */
  function Decode(typeID: byte, s: seq<byte>): DecodeResult<Msg> {
    if typeID in {1, 2, 3, 5} then
      if |s| < 4 then
        Rejected(ShortInput)
      else
        var v := U32(s[..4]);
        var rest := s[4..];
        if typeID == 1 then
          if v / 0x8000_0000 != 0 || v % 0x8000_0000 == 0 then Rejected(BadFormat)
          else Decoded(SetChunkSize(v % 0x8000_0000), rest)
        else if typeID == 2 then Decoded(AbortMessage(v), rest)
        else if typeID == 3 then Decoded(Ack(v), rest)
        else Decoded(WinAckSize(ToInt32(v)), rest)
    else if typeID == 4 then
      var r := DecodeEvent(s);
      if r.Rejected? then Rejected(r.error) else Decoded(UserCtrl(r.value), r.rest)
    else if typeID == 6 then
      if |s| < 5 then Rejected(ShortInput)
      else Decoded(SetPeerBandwidth(ToInt32(U32(s[..4])), s[4]), s[5..])
    else if typeID == 8 then
      Decoded(AudioMessage(s), [])
    else if typeID == 9 then
      Decoded(VideoMessage(s), [])
    else if typeID in {18, 20} then
      Rejected(NotModelled)
    else if typeID in {15, 16, 17, 19, 22} then
      Rejected(NotImplemented)
    else
      Rejected(UnexpectedType)
  }

  predicate HasPayload(m: Msg) {
    m.AudioMessage? || m.VideoMessage?
  }

  lemma EventRoundTrip(e: UserEvent, suffix: seq<byte>)
    ensures DecodeEvent(EncodeEvent(e) + suffix) == Decoded(e, suffix)
  {
    hide BE32, U32;
    var s := EncodeEvent(e) + suffix;
    assert s[..2] == EncodeEvent(e)[..2];
    if e.SetBufferLength? {
      assert s[2..6] == BE32(e.streamID) && s[6..10] == BE32(e.lengthMs) && s[10..] == suffix;
      BE32RoundTrip(e.streamID);
      BE32RoundTrip(e.lengthMs);
    } else {
      var v := if e.PingRequest? || e.PingResponse? then e.timestamp else e.streamID;
      assert s[2..6] == BE32(v) && s[6..] == suffix;
      BE32RoundTrip(v);
    }
  }

  lemma EventCanonical(s: seq<byte>)
    requires DecodeEvent(s).Decoded?
    ensures EncodeEvent(DecodeEvent(s).value) + DecodeEvent(s).rest == s
  {
    hide BE32, U32;
    U32RoundTrip(s[2..6]);
    assert s[..2] == BE16(U16(s[..2]));
    if U16(s[..2]) == 3 {
      U32RoundTrip(s[6..10]);
      assert s == s[..2] + s[2..6] + s[6..10] + s[10..];
    } else {
      assert s == s[..2] + s[2..6] + s[6..];
    }
  }

  /** Under its own type ID every encodable control message comes back, signed sizes
      included, and exactly its own bytes are consumed. */
  lemma RoundTrip(m: Msg, suffix: seq<byte>)
    requires Encode(m).Encoded?
    ensures Decode(TypeID(m), Encode(m).bytes + if HasPayload(m) then [] else suffix)
            == Decoded(m, if HasPayload(m) then [] else suffix)
  {
    hide BE32, U32, EncodeEvent, DecodeEvent;
    var e := Encode(m).bytes;
    var s := e + suffix;
    assert |e| >= 4 ==> s[..4] == e[..4];
    assert s[|e|..] == suffix;
    match m {
      case UserCtrl(ev) => EventRoundTrip(ev, suffix);
      case AudioMessage(p) => assert p + [] == p;
      case VideoMessage(p) => assert p + [] == p;
      case SetPeerBandwidth(n, l) =>
        BE32RoundTrip(Wrap32(n));
        assert e[..4] == BE32(Wrap32(n)) && s[4] == l;
      case WinAckSize(n) =>
        BE32RoundTrip(Wrap32(n));
      case SetChunkSize(n) => BE32RoundTrip(n);
      case AbortMessage(id) => BE32RoundTrip(id);
      case Ack(n) => BE32RoundTrip(n);
    }
  }

  /** Nothing else is accepted: a decoded message re-encodes to the very bytes read. */
  lemma Canonical(typeID: byte, s: seq<byte>)
    requires Decode(typeID, s).Decoded?
    ensures var r := Decode(typeID, s);
            && TypeID(r.value) == typeID && Encode(r.value).Encoded?
            && Encode(r.value).bytes + r.rest == s
  {
    if |s| >= 4 {
      U32RoundTrip(s[..4]);
    }
    if typeID == 4 {
      EventCanonical(s);
    }
    hide BE32, U32, EncodeEvent, DecodeEvent;
    var r := Decode(typeID, s);
    assert typeID in {1, 2, 3, 5} ==> s == s[..4] + s[4..];
    assert typeID == 6 ==> s == s[..4] + [s[4]] + s[5..];
    assert r.value.WinAckSize? ==> Wrap32(r.value.size) == U32(s[..4]);
    assert r.value.SetPeerBandwidth? ==> Wrap32(r.value.size) == U32(s[..4]);
  }

  /** Exactly the encodings are accepted, whatever follows them. */
  lemma DecodesIffEncoded(typeID: byte, s: seq<byte>, m: Msg, rest: seq<byte>)
    requires !HasPayload(m)
    ensures Decode(typeID, s) == Decoded(m, rest)
            <==> typeID == TypeID(m) && Encode(m).Encoded? && s == Encode(m).bytes + rest
  {
    if Decode(typeID, s) == Decoded(m, rest) {
      Canonical(typeID, s);
    }
    if typeID == TypeID(m) && Encode(m).Encoded? && s == Encode(m).bytes + rest {
      RoundTrip(m, rest);
    }
  }
}
