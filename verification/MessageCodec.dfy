/** The message encoder and decoder as they work on buffers and readers
    (message/encoder.go, message/decoder.go, message/user_control_event_encoder.go and
    _decoder.go), against the functions of Messages. */
module MessageCodec {
  import opened Bytes
  import opened Messages
  import opened StreamIO

  class UserControlEventEncoder {
    const w: Sink

    constructor (w: Sink)
      ensures this.w == w
    {
      this.w := w;
    }

    /** An event type and one number. */
    method EncodeTagged(tag: int, v: uint32)
      requires 0 <= tag < 0x1_0000
      modifies w
      ensures w.output == old(w.output) + (BE16(tag) + BE32(v))
    {
      hide BE16, BE32;
      var buf := new byte[2 + 4](_ => 0);
      PutBigEndian16(buf, 0, tag);
      PutBigEndian32(buf, 2, v);
      assert buf[..] == buf[0..2] + buf[2..6];
      w.Write(buf[..]);
    }

    method EncodeSetBufferLength(id: uint32, ms: uint32)
      modifies w
      ensures w.output == old(w.output) + (BE16(3) + BE32(id) + BE32(ms))
    {
      hide BE16, BE32;
      var buf := new byte[2 + 4 + 4](_ => 0);
      PutBigEndian16(buf, 0, 3);
      PutBigEndian32(buf, 2, id);
      PutBigEndian32(buf, 6, ms);
      assert buf[..] == buf[0..2] + buf[2..6] + buf[6..10];
      w.Write(buf[..]);
    }

    method Encode(e: UserEvent)
      modifies w
      ensures w.output == old(w.output) + EncodeEvent(e)
    {
      match e {
        case StreamBegin(id) => EncodeTagged(0, id);
        case StreamEOF(id) => EncodeTagged(1, id);
        case StreamDry(id) => EncodeTagged(2, id);
        case SetBufferLength(id, ms) => EncodeSetBufferLength(id, ms);
        case StreamIsRecorded(id) => EncodeTagged(4, id);
        case PingRequest(t) => EncodeTagged(6, t);
        case PingResponse(t) => EncodeTagged(7, t);
      }
    }
  }

  class Encoder {
    var w: Sink

    constructor (w: Sink)
      ensures this.w == w
    {
      this.w := w;
    }

    method Reset(w: Sink)
      modifies this
      ensures this.w == w
    {
      this.w := w;
    }

    /** A message of one 32-bit number. */
    method EncodeWord(v: uint32)
      modifies w
      ensures w.output == old(w.output) + BE32(v)
    {
      var buf := new byte[4](_ => 0);
      PutBigEndian32(buf, 0, v);
      assert buf[..] == buf[0..4];
      w.Write(buf[..]);
    }

    method EncodeSetChunkSize(n: uint32) returns (ok: bool)
      modifies w
      ensures ok <==> 1 <= n <= 0x7fff_ffff
      ensures w.output == old(w.output) + if ok then BE32(n % 0x8000_0000) else []
    {
      hide BE32;
      if n < 1 || n > 0x7fff_ffff {
        assert w.output == old(w.output) + [];
        return false;
      }
      EncodeWord(n % 0x8000_0000);
      return true;
    }

    method EncodeSetPeerBandwidth(n: int32, limit: byte)
      modifies w
      ensures w.output == old(w.output) + (BE32(Wrap32(n)) + [limit])
    {
      hide BE32;
      var buf := new byte[5](_ => 0);
      PutBigEndian32(buf, 0, Wrap32(n));
      buf[4] := limit;
      assert buf[..] == buf[0..4] + [buf[4]];
      w.Write(buf[..]);
    }

    method Encode(m: Msg) returns (ok: bool)
      modifies w
      ensures match Messages.Encode(m)
              case Encoded(bytes) => ok && w.output == old(w.output) + bytes
              case ChunkSizeOutOfRange => !ok && w.output == old(w.output)
    {
      hide BE32, EncodeEvent;
      ok := true;
      match m {
        case SetChunkSize(n) => ok := EncodeSetChunkSize(n);
        case AbortMessage(id) => EncodeWord(id);
        case Ack(n) => EncodeWord(n);
        case UserCtrl(e) =>
          var events := new UserControlEventEncoder(w);
          events.Encode(e);
        case WinAckSize(n) => EncodeWord(Wrap32(n));
        case SetPeerBandwidth(n, limit) => EncodeSetPeerBandwidth(n, limit);
        case AudioMessage(payload) => w.Write(payload);
        case VideoMessage(payload) => w.Write(payload);
      }
    }
  }

  /** The next `n` bytes as a buffer of their own. */
  method ReadFull(r: Source, n: nat) returns (ok: bool, bytes: seq<byte>)
    requires r.Valid()
    modifies r
    ensures r.Valid() && (ok <==> |old(r.input)| >= n)
    ensures ok ==> bytes == old(r.input)[..n] && r.input == old(r.input)[n..]
  {
    hide Wrap32;
    var buf := new byte[n](_ => 0);
    ok := r.ReadAtLeast(buf, 0, n, n, 0);
    bytes := buf[..];
  }

  class UserControlEventDecoder {
    const r: Source

    constructor (r: Source)
      ensures this.r == r
    {
      this.r := r;
    }

    method Decode() returns (res: DecodeResult<UserEvent>)
      requires r.Valid()
      modifies r
      ensures r.Valid()
      ensures res == DecodeEvent(old(r.input)) && (res.Decoded? ==> r.input == res.rest)
    {
      hide U32, Wrap32;
      ghost var s := r.input;
      var ok, head := ReadFull(r, 2);
      if !ok {
        return Rejected(ShortInput);
      }
      var tag := U16(head);
      if tag !in {0, 1, 2, 3, 4, 6, 7} {
        return Rejected(UnknownEvent);
      }
      var body;
      if tag == 3 {
        ok, body := ReadFull(r, 8);
        if !ok {
          return Rejected(ShortInput);
        }
        assert body[..4] == s[2..6] && body[4..] == s[6..10];
        return Decoded(SetBufferLength(U32(body[..4]), U32(body[4..])), r.input);
      }
      ok, body := ReadFull(r, 4);
      if !ok {
        return Rejected(ShortInput);
      }
      assert body == s[2..6];
      var v := U32(body);
      var e;
      match tag {
        case 0 => e := StreamBegin(v);
        case 1 => e := StreamEOF(v);
        case 2 => e := StreamDry(v);
        case 4 => e := StreamIsRecorded(v);
        case 6 => e := PingRequest(v);
        case _ => e := PingResponse(v);
      }
      return Decoded(e, r.input);
    }
  }

  class Decoder {
    var r: Source

    constructor (r: Source)
      ensures this.r == r
    {
      this.r := r;
    }

    method Reset(r: Source)
      modifies this
      ensures this.r == r
    {
      this.r := r;
    }

    /** The messages that are one 32-bit number. */
    method DecodeWord(typeID: byte) returns (res: DecodeResult<Msg>)
      requires r.Valid() && typeID in {1, 2, 3, 5}
      modifies r
      ensures r.Valid()
      ensures res == Messages.Decode(typeID, old(r.input)) && (res.Decoded? ==> r.input == res.rest)
    {
      hide U32, DecodeEvent, Wrap32;
      var ok, buf := ReadFull(r, 4);
      if !ok {
        return Rejected(ShortInput);
      }
      var v := U32(buf);
      if typeID == 1 {
        var bit, size := v / 0x8000_0000, v % 0x8000_0000;
        if bit != 0 || size == 0 {
          return Rejected(BadFormat);
        }
        return Decoded(SetChunkSize(size), r.input);
      } else if typeID == 2 {
        return Decoded(AbortMessage(v), r.input);
      } else if typeID == 3 {
        return Decoded(Ack(v), r.input);
      } else {
        return Decoded(WinAckSize(ToInt32(v)), r.input);
      }
    }

    /** Dispatch on the type ID of the chunk stream; what was not taken stays in the reader. */
    method Decode(typeID: byte) returns (res: DecodeResult<Msg>)
      requires r.Valid()
      modifies r
      ensures r.Valid()
      ensures res == Messages.Decode(typeID, old(r.input)) && (res.Decoded? ==> r.input == res.rest)
    {
      hide U32, DecodeEvent, Wrap32;
      if typeID in {1, 2, 3, 5} {
        res := DecodeWord(typeID);
      } else if typeID == 4 {
        var events := new UserControlEventDecoder(r);
        var e := events.Decode();
        res := match e case Decoded(v, _) => Decoded(UserCtrl(v), r.input) case Rejected(error) => Rejected(error);
      } else if typeID == 6 {
        ghost var s := r.input;
        var ok, buf := ReadFull(r, 5);
        if !ok {
          return Rejected(ShortInput);
        }
        assert buf[..4] == s[..4];
        res := Decoded(SetPeerBandwidth(ToInt32(U32(buf[..4])), buf[4]), r.input);
      } else if typeID == 8 || typeID == 9 {
        var _, payload := ReadFull(r, |r.input|);
        assert payload == old(r.input);
        res := Decoded(if typeID == 8 then AudioMessage(payload) else VideoMessage(payload), r.input);
      } else if typeID == 18 || typeID == 20 {
        res := Rejected(NotModelled);
      } else if typeID in {15, 16, 17, 19, 22} {
        res := Rejected(NotImplemented);
      } else {
        res := Rejected(UnexpectedType);
      }
    }
  }
}
