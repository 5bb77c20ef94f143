/** The header codec as it works on buffers (chunk_header.go), against its specification. */
module ChunkHeaderCodec {
  import opened Bytes
  import opened ChunkHeader
  import opened StreamIO

  method EncodeChunkBasicHeader(w: Sink, h: BasicHeader) returns (ok: bool)
    modifies w
    ensures match EncodeBasicHeader(h)
            case None => !ok && w.output == old(w.output)
            case Some(e) => ok && w.output == old(w.output) + e
  {
    var buf := new byte[3](_ => 0);
    buf[0] := h.fmt * 64;
    if 2 <= h.csid <= 63 {
      buf[0] := buf[0] + h.csid;
      w.Write(buf[..1]);
    } else if 64 <= h.csid <= 319 {
      buf[1] := h.csid - 64;
      w.Write(buf[..2]);
    } else if 320 <= h.csid <= 65599 {
      buf[0] := buf[0] + 1;
      buf[1] := (h.csid - 64) % 256;
      buf[2] := (h.csid - 64) / 256;
      w.Write(buf[..]);
    } else {
      return false;
    }
    return true;
  }

  method EncodeType0(w: Sink, h: MessageHeader, buf: array<byte>, cache: array<byte>)
    requires buf.Length == 15 && cache.Length == 4 && buf != cache
    modifies w, buf, cache
    ensures w.output == old(w.output) + EncodeMessageHeader(0, h)
  {
    hide BE32, LE32, BE24;
    var n, ts, ext := 11, h.timestamp, false;
    if ts >= MAX_UINT24 {
      ts, ext, n := MAX_UINT24, true, n + 4;
    }
    PutBigEndian24(buf, 0, ts, cache);
    PutBigEndian24(buf, 3, h.messageLength, cache);
    buf[6] := h.messageTypeID;
    PutLittleEndian32(buf, 7, h.messageStreamID);
    if ext {
      PutBigEndian32(buf, 11, h.timestamp);
    }
    assert buf[0..3] == BE24(ts) && buf[3..6] == BE24(h.messageLength) && buf[7..11] == LE32(h.messageStreamID);
    assert buf[..n] == buf[0..3] + buf[3..6] + [buf[6]] + buf[7..11] + buf[11..n];
    w.Write(buf[..n]);
  }

  method EncodeType1(w: Sink, h: MessageHeader, buf: array<byte>, cache: array<byte>)
    requires buf.Length == 15 && cache.Length == 4 && buf != cache
    modifies w, buf, cache
    ensures w.output == old(w.output) + EncodeMessageHeader(1, h)
  {
    hide BE32, BE24;
    var n, td, ext := 7, h.timestampDelta, false;
    if td >= MAX_UINT24 {
      td, ext, n := MAX_UINT24, true, n + 4;
    }
    PutBigEndian24(buf, 0, td, cache);
    PutBigEndian24(buf, 3, h.messageLength, cache);
    buf[6] := h.messageTypeID;
    if ext {
      PutBigEndian32(buf, 7, h.timestampDelta);
    }
    assert buf[0..3] == BE24(td) && buf[3..6] == BE24(h.messageLength);
    assert buf[..n] == buf[0..3] + buf[3..6] + [buf[6]] + buf[7..n];
    w.Write(buf[..n]);
  }

  method EncodeType2(w: Sink, h: MessageHeader, buf: array<byte>, cache: array<byte>)
    requires buf.Length == 15 && cache.Length == 4 && buf != cache
    modifies w, buf, cache
    ensures w.output == old(w.output) + EncodeMessageHeader(2, h)
  {
    hide BE32, BE24;
    var n, td, ext := 3, h.timestampDelta, false;
    if td >= MAX_UINT24 {
      td, ext, n := MAX_UINT24, true, n + 4;
    }
    PutBigEndian24(buf, 0, td, cache);
    if ext {
      PutBigEndian32(buf, 3, h.timestampDelta);
    }
    assert buf[0..3] == BE24(td);
    assert buf[..n] == buf[0..3] + buf[3..n];
    w.Write(buf[..n]);
  }

  method EncodeChunkMessageHeader(w: Sink, fmt: Format, h: MessageHeader)
    modifies w
    ensures w.output == old(w.output) + EncodeMessageHeader(fmt, h)
  {
    var buf := new byte[15](_ => 0);
    var cache := new byte[4](_ => 0);
    if fmt == 0 {
      EncodeType0(w, h, buf, cache);
    } else if fmt == 1 {
      EncodeType1(w, h, buf, cache);
    } else if fmt == 2 {
      EncodeType2(w, h, buf, cache);
    } else {
      assert w.output == old(w.output) + [];
    }
  }

  /** The input moved on, and the counters with it. */
  twostate predicate Counted(r: Source)
    reads r
  {
    && |r.input| <= |old(r.input)| && r.Valid()
    && r.total == old(r.total) + |old(r.input)| - |r.input|
    && r.fragment == old(r.fragment) + |old(r.input)| - |r.input|
  }

  /** Four bytes into a buffer of their own. */
  method ReadExtension(r: Source) returns (ok: bool, v: uint32)
    requires r.Valid()
    modifies r
    ensures ok <==> |old(r.input)| >= 4
    ensures ok ==> v == U32(old(r.input)[..4]) && r.Took(4)
    ensures Counted(r)
  {
    var cache := new byte[4](_ => 0);
    ok := r.ReadAtLeast(cache, 0, 4, 4, 0);
    v := 0;
    if ok {
      assert cache[..] == old(r.input)[..4];
      v := U32(cache[..]);
    }
  }

  /** The next `n` bytes into the scratch buffer. */
  method Fill(r: Source, buf: array<byte>, n: nat) returns (ok: bool)
    requires r.Valid() && n <= buf.Length
    modifies r, buf
    ensures ok <==> |old(r.input)| >= n
    ensures ok ==> buf[..n] == old(r.input)[..n] && r.Took(n)
    ensures Counted(r)
  {
    ok := r.ReadAtLeast(buf, 0, n, n, 0);
  }

  /** The next byte into place `at`. */
  method FillOne(r: Source, buf: array<byte>, at: nat) returns (ok: bool)
    requires r.Valid() && at < buf.Length
    modifies r, buf
    ensures ok <==> r.Took(1)
    ensures ok ==> buf[at] == old(r.input)[0] && |old(r.input)| >= 1
    ensures !ok ==> old(r.input) == [] && Counted(r)
  {
    ok := r.ReadAtLeast(buf, at, at + 1, 1, 0);
  }

  function Room(length: nat): nat {
    if length < 3 then 0 else length - 3
  }

  /** The second and third byte of the long form; `more` is what the connection hands over
      beyond them, and as much of it as fits the scratch buffer is taken, and lost. */
  method FillLongForm(r: Source, buf: array<byte>, more: nat) returns (ok: bool)
    requires r.Valid() && buf.Length >= 3
    modifies r, buf
    ensures ok <==> |old(r.input)| >= 2
    ensures ok ==> buf[1] == old(r.input)[0] && buf[2] == old(r.input)[1]
    ensures ok ==> r.Took(2 + Min(Min(more, buf.Length - 3), |old(r.input)| - 2))
    ensures Counted(r)
  {
    hide Wrap32;
    ok := r.ReadAtLeast(buf, 1, buf.Length, 2, more);
  }

  method DecodeChunkBasicHeader(r: Source, scratch: array<byte>, more: nat) returns (ok: bool, h: BasicHeader)
    requires r.Valid()
    modifies r, scratch
    ensures match DecodeBasicHeader(old(r.input), Min(more, Room(scratch.Length)))
            case Short => !ok
            case Parsed(v, rest) => ok && h == v && r.input == rest
    ensures Counted(r)
  {
    hide Wrap32;
    ghost var s := r.input;
    h := BasicHeader(0, 0);
    var buf := scratch;
    if buf.Length < 3 {
      buf := new byte[3](_ => 0);
    }
    ok := FillOne(r, buf, 0);
    if !ok {
      return;
    }
    var fmt := buf[0] / 64;
    var id: int := buf[0] % 64;
    if id == 0 {
      ok := FillOne(r, buf, 1);
      if !ok {
        return;
      }
      assert r.input == s[2..] && buf[1] == s[1];
      id := (buf[1] as int) + 64;
    } else if id == 1 {
      ok := FillLongForm(r, buf, more);
      if !ok {
        return;
      }
      ghost var k := Min(Min(more, Room(scratch.Length)), |s| - 3);
      assert r.input == s[1..][2 + k..] == s[3 + k..] && buf[1] == s[1] && buf[2] == s[2];
      id := (buf[2] as int) * 256 + buf[1] + 64;
    }
    h := BasicHeader(fmt, id);
  }

  method DecodeType0(r: Source, buf: array<byte>) returns (ok: bool, h: MessageHeader)
    requires r.Valid() && buf.Length >= 11
    modifies r, buf
    ensures match DecodeMessageHeader(old(r.input), 0, Unused)
            case Short => !ok
            case Parsed(v, rest) => ok && h == v && r.input == rest
    ensures Counted(r)
  {
    hide U32, U24, FromLE32, Wrap32;
    h := BLANK;
    ghost var s := r.input;
    ok := Fill(r, buf, 11);
    if !ok {
      return;
    }
    assert buf[0..3] == s[0..3] && buf[3..6] == s[3..6] && buf[6] == s[6] && buf[7..11] == s[7..11];
    h := h.(timestamp := U24(buf[0..3]), messageLength := U24(buf[3..6]), messageTypeID := buf[6],
            messageStreamID := FromLE32(buf[7..11]));
    if h.timestamp == MAX_UINT24 {
      var v;
      ok, v := ReadExtension(r);
      if !ok {
        return;
      }
      assert s[11..][..4] == s[11..15];
      h := h.(timestamp := v, mode := TimestampUsed);
    }
  }

  method DecodeType1(r: Source, buf: array<byte>) returns (ok: bool, h: MessageHeader)
    requires r.Valid() && buf.Length >= 11
    modifies r, buf
    ensures match DecodeMessageHeader(old(r.input), 1, Unused)
            case Short => !ok
            case Parsed(v, rest) => ok && h == v && r.input == rest
    ensures Counted(r)
  {
    hide U32, U24, FromLE32, Wrap32;
    h := BLANK;
    ghost var s := r.input;
    ok := Fill(r, buf, 7);
    if !ok {
      return;
    }
    assert buf[0..3] == s[0..3] && buf[3..6] == s[3..6] && buf[6] == s[6];
    h := h.(timestampDelta := U24(buf[0..3]), messageLength := U24(buf[3..6]), messageTypeID := buf[6]);
    if h.timestampDelta == MAX_UINT24 {
      var v;
      ok, v := ReadExtension(r);
      if !ok {
        return;
      }
      assert s[7..][..4] == s[7..11];
      h := h.(timestampDelta := v, mode := DeltaUsed);
    }
  }

  method DecodeType2(r: Source, buf: array<byte>) returns (ok: bool, h: MessageHeader)
    requires r.Valid() && buf.Length >= 11
    modifies r, buf
    ensures match DecodeMessageHeader(old(r.input), 2, Unused)
            case Short => !ok
            case Parsed(v, rest) => ok && h == v && r.input == rest
    ensures Counted(r)
  {
    hide U32, U24, FromLE32, Wrap32;
    h := BLANK;
    ghost var s := r.input;
    ok := Fill(r, buf, 3);
    if !ok {
      return;
    }
    assert buf[0..3] == s[0..3];
    h := h.(timestampDelta := U24(buf[0..3]));
    if h.timestampDelta == MAX_UINT24 {
      var v;
      ok, v := ReadExtension(r);
      if !ok {
        return;
      }
      assert s[3..][..4] == s[3..7];
      h := h.(timestampDelta := v, mode := DeltaUsed);
    }
  }

  method DecodeType3(r: Source, buf: array<byte>, mode: ExtendedMode) returns (ok: bool, h: MessageHeader)
    requires r.Valid() && buf.Length >= 11
    modifies r, buf
    ensures match DecodeMessageHeader(old(r.input), 3, mode)
            case Short => !ok
            case Parsed(v, rest) => ok && h == v && r.input == rest
    ensures Counted(r)
  {
    hide U32, U24, FromLE32, Wrap32;
    h := BLANK;
    ok := true;
    var v;
    match mode {
      case Unused =>
      case TimestampUsed =>
        ok, v := ReadExtension(r);
        if !ok {
          return;
        }
        h := h.(timestamp := v);
      case DeltaUsed =>
        ok, v := ReadExtension(r);
        if !ok {
          return;
        }
        h := h.(timestampDelta := v);
    }
    h := h.(mode := mode);
  }

  lemma ModeMattersToType3(s: seq<byte>, fmt: Format, mode: ExtendedMode)
    ensures fmt < 3 ==> DecodeMessageHeader(s, fmt, mode) == DecodeMessageHeader(s, fmt, Unused)
  {
    hide U32, U24, FromLE32;
  }

  method DecodeChunkMessageHeader(r: Source, fmt: Format, scratch: array<byte>, mode: ExtendedMode)
    returns (ok: bool, h: MessageHeader)
    requires r.Valid()
    modifies r, scratch
    ensures match DecodeMessageHeader(old(r.input), fmt, mode)
            case Short => !ok
            case Parsed(v, rest) => ok && h == v && r.input == rest
    ensures Counted(r)
  {
    ModeMattersToType3(r.input, fmt, mode);
    hide DecodeMessageHeader, Wrap32;
    var buf := scratch;
    if buf.Length < 11 {
      buf := new byte[11](_ => 0);
    }
    if fmt == 0 {
      ok, h := DecodeType0(r, buf);
    } else if fmt == 1 {
      ok, h := DecodeType1(r, buf);
    } else if fmt == 2 {
      ok, h := DecodeType2(r, buf);
    } else {
      ok, h := DecodeType3(r, buf, mode);
    }
  }
}
