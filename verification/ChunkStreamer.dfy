/** The chunk streamer with its state updated in place (chunk_streamer.go,
    chunk_stream_reader.go, chunk_stream_writer.go), against the functions of ChunkStream. */
module ChunkStreamer {
  import opened Bytes
  import opened ChunkHeader
  import CS = ChunkStream
  import opened ChunkHeaderCodec
  import opened ControlState
  import opened StreamIO
  import AckWindow
  import Receiving
  import Scheduler
  import Transport
  import WriteLoop

  /** The least room a buffer makes for a read. */
  const MIN_READ := 512

  class ChunkStreamReader {
    var basicHeader: BasicHeader
    var messageHeader: MessageHeader
    var timestamp: uint32
    var timestampDelta: uint32
    var messageLength: uint32
    var messageTypeID: byte
    var messageStreamID: uint32
    var extendedTimestampMode: ExtendedMode
    var buf: seq<byte>
    var completed: bool

    function Value(): CS.Reader
      reads this
    {
      CS.Reader(basicHeader, messageHeader, timestamp, timestampDelta, messageLength, messageTypeID, messageStreamID,
                extendedTimestampMode, buf, completed)
    }

    constructor ()
      ensures Value() == CS.FRESH_READER
    {
      basicHeader, messageHeader := BasicHeader(0, 0), BLANK;
      timestamp, timestampDelta, messageLength, messageTypeID, messageStreamID := 0, 0, 0, 0, 0;
      extendedTimestampMode, buf, completed := Unused, [], false;
    }

    /** Both headers of a chunk, taken into the memory of its stream. */
    method Absorb(bh: BasicHeader, mh: MessageHeader)
      modifies this
      ensures Value() == CS.Absorb(old(Value()), bh, mh)
    {
      if completed {
        buf := [];
        completed := false;
      }
      basicHeader := bh;
      messageHeader := mh;
      if bh.fmt == 0 {
        timestamp := mh.timestamp;
        timestampDelta := 0;
        messageLength := mh.messageLength;
        messageTypeID := mh.messageTypeID;
        messageStreamID := mh.messageStreamID;
        extendedTimestampMode := mh.mode;
      } else if bh.fmt == 1 {
        timestampDelta := mh.timestampDelta;
        messageLength := mh.messageLength;
        messageTypeID := mh.messageTypeID;
        extendedTimestampMode := mh.mode;
      } else if bh.fmt == 2 {
        timestampDelta := mh.timestampDelta;
        extendedTimestampMode := mh.mode;
      } else {
        match extendedTimestampMode {
          case Unused =>
          case TimestampUsed => timestamp := mh.timestamp;
          case DeltaUsed => timestampDelta := mh.timestampDelta;
        }
      }
    }

    lemma PrefixGrows(s: seq<byte>, i: nat, k: nat)
      requires i + k <= |s|
      ensures s[..i] + s[i..][..k] == s[..i + k] && s[i..][k..] == s[i + k..]
    {
    }

    /** One read, into room made for it. */
    method ReadSome(r: Source, n: nat) returns (k: nat)
      requires r.Valid()
      modifies this`buf, r
      ensures k == Min(n, Min(MIN_READ, |old(r.input)|))
      ensures buf == old(buf) + old(r.input)[..k] && r.Took(k)
    {
      hide Wrap32;
      var spare := new byte[MIN_READ](_ => 0);
      k := r.Read(spare, 0, spare.Length, n);
      assert spare[..k] == old(r.input)[..k];
      buf := buf + spare[..k];
    }

    /** The next `n` bytes of the connection go into the buffer, which makes room for so many
        at a time; an input that ends early is not an error. */
    method CopyFrom(r: Source, n: nat)
      requires r.Valid()
      modifies this`buf, r
      ensures buf == old(buf) + old(r.input)[..Min(n, |old(r.input)|)]
      ensures r.Took(Min(n, |old(r.input)|))
    {
      hide Wrap32;
      ghost var s := r.input;
      var done := 0;
      while done < n && r.input != []
        invariant done <= Min(n, |s|) && r.Took(done)
        invariant buf == old(buf) + s[..done]
        decreases n - done
      {
        var k := ReadSome(r, n - done);
        PrefixGrows(s, done, k);
        done := done + k;
      }
    }

    /** The message header of a chunk whose basic header is known, and its effect. */
    method TakeHeader(r: Source, bh: BasicHeader, scratch: array<byte>) returns (ok: bool)
      requires r.Valid()
      modifies this, r, scratch
      ensures Counted(r)
      ensures match DecodeMessageHeader(old(r.input), bh.fmt, old(extendedTimestampMode))
              case Short => !ok && Value() == old(Value())
              case Parsed(mh, rest) => ok && Value() == CS.Absorb(old(Value()), bh, mh) && r.input == rest
    {
      hide DecodeMessageHeader, CS.Absorb, Wrap32;
      var mh;
      ok, mh := DecodeChunkMessageHeader(r, bh.fmt, scratch, extendedTimestampMode);
      if ok {
        Absorb(bh, mh);
      }
    }

    /** The payload of a chunk; the timestamp moves on when the message is whole. */
    method TakePayload(r: Source, chunkSize: uint32) returns (ok: bool)
      requires r.Valid()
      modifies this, r
      ensures ok <==> old(messageLength) > |old(buf)|
      ensures !ok ==> Value() == old(Value()) && r.Took(0)
      ensures Counted(r)
      ensures ok ==> var n := Min(CS.Expected(old(Value()), chunkSize), |old(r.input)|);
                     Value() == CS.Append(old(Value()), old(r.input)[..n]) && r.Took(n)
    {
      hide Wrap32;
      var expected := messageLength - |buf|;
      if expected <= 0 {
        return false;
      }
      if expected > chunkSize {
        expected := chunkSize;
      }
      CopyFrom(r, expected);
      if messageLength - |buf| == 0 {
        timestamp := Wrap32(timestamp + timestampDelta);
        completed := true;
      }
      return true;
    }

    /** Drains what was assembled. */
    method Read(n: nat) returns (bytes: seq<byte>)
      modifies this`buf
      ensures old(buf) == bytes + buf && |bytes| == Min(n, |old(buf)|)
    {
      var k := Min(n, |buf|);
      bytes, buf := buf[..k], buf[k..];
    }
  }

  class ChunkStreamWriter {
    const csid: int
    var fmt: Format
    var messageHeader: MessageHeader
    var timestamp: uint32
    var timestampDelta: uint32
    var messageLength: uint32
    var messageTypeID: byte
    var messageStreamID: uint32
    var buf: seq<byte>
    var newChunk: bool
    var idle: bool
    var failed: bool
    var cut: bool

    function Value(): CS.Writer
      reads this
    {
      CS.Writer(csid, fmt, messageHeader, timestamp, timestampDelta, messageLength, messageTypeID, messageStreamID, buf,
                newChunk)
    }

    constructor (csid: int)
      ensures Value() == CS.FreshWriter(csid) && idle && !failed && !cut
    {
      this.csid := csid;
      fmt, messageHeader := 0, BLANK.(timestamp := MAX_UINT32);
      timestamp, timestampDelta, messageLength, messageTypeID, messageStreamID := 0, 0, 0, 0, 0;
      buf, newChunk := [], true;
      idle, failed, cut := true, false, false;
    }

    /** Takes the writer if nobody has it, or if its `closeCh` is closed; when both channels are
        ready either may be chosen. A producer that would have to wait for longer than its time
        gives up, and a writer that failed answers with its error. */
    method Wait(chooseClose: bool) returns (ok: bool)
      modifies this`idle
      ensures ok <==> !old(failed) && (old(idle) || old(cut))
      ensures idle == (old(idle) && (!ok || (cut && chooseClose)))
    {
      if idle && !(cut && chooseClose) {
        if failed {
          return false;
        }
        idle := false;
        return true;
      } else if cut {
        return !failed;
      } else {
        return false;
      }
    }

    /** This writer as writer `n` of the scheduler's machine. */
    ghost predicate IsSlot(s: Scheduler.State, n: nat)
      reads this
    {
      n in s.slots && s.slots[n].open == !idle && s.slots[n].failed == failed && (n in s.cut <==> cut)
    }

    /** A producer passes `Wait` exactly when the machine has a step for it, by the one channel
        or by the other, and that step takes the writer or leaves it as `Wait` does. */
    lemma WaitIsAStep(s: Scheduler.State, n: nat, p: nat, limit: int)
      requires IsSlot(s, n) && p !in s.holds
      ensures Scheduler.Enabled(s, Scheduler.Acquire(p, n), limit) <==> !failed && idle
      ensures Scheduler.Enabled(s, Scheduler.AcquireCut(p, n), limit) <==> !failed && cut
      ensures Scheduler.Enabled(s, Scheduler.Acquire(p, n), limit) ==>
                Scheduler.Apply(s, Scheduler.Acquire(p, n), limit).slots[n].open
      ensures Scheduler.Enabled(s, Scheduler.AcquireCut(p, n), limit) ==>
                IsSlot(Scheduler.Apply(s, Scheduler.AcquireCut(p, n), limit), n)
    {
    }

    method Write(bytes: seq<byte>)
      modifies this`buf
      ensures buf == old(buf) + bytes
    {
      buf := buf + bytes;
    }

    /** A message is encoded into the buffer, and the fields the headers are made of are set. */
    method Load(m: CS.Message)
      modifies this
      ensures Value() == CS.Load(old(Value()), m)
      ensures idle == old(idle) && failed == old(failed) && cut == old(cut)
    {
      Write(m.payload);
      timestamp := m.timestamp;
      messageLength := Wrap32(|buf|);
      messageTypeID := m.typeID;
      messageStreamID := m.streamID;
      newChunk := true;
    }

    /** The smallest format that still tells the reader everything it does not know. */
    method UpdateWriterHeader()
      modifies this`fmt, this`messageHeader, this`timestampDelta, this`newChunk
      ensures Value() == CS.UpdateHeader(old(Value()))
    {
      var f: Format := 2;
      if messageHeader.messageLength != messageLength || messageTypeID != messageHeader.messageTypeID {
        messageHeader := messageHeader.(messageLength := messageLength, messageTypeID := messageTypeID);
        f := 1;
      }
      if timestamp != messageHeader.timestamp || newChunk {
        if timestamp >= messageHeader.timestamp {
          timestampDelta := timestamp - messageHeader.timestamp;
        } else {
          f := 0;
          timestampDelta := 0;
        }
      }
      newChunk := false;
      if timestampDelta == messageHeader.timestampDelta && f == 2 {
        f := 3;
      }
      messageHeader := messageHeader.(timestampDelta := timestampDelta, timestamp := timestamp);
      if messageHeader.messageStreamID != messageStreamID {
        f := 0;
        messageHeader := messageHeader.(messageStreamID := messageStreamID);
      }
      fmt := f;
    }
  }

  /** The readers and writers of a connection, opened as they are first used. */
  class ChunkStreamer {
    const r: Source
    const w: Sink
    var readers: map<int, ChunkStreamReader>
    var writers: map<int, ChunkStreamWriter>
    const selfState: StreamControlState
    const peerState: StreamControlState
    const cacheBuffer: array<byte>
    const config: Config
    var acks: seq<AckWindow.Ack>
    var queue: seq<ChunkStreamWriter>

    /** Every stream has an object of its own, and its own chunk stream ID. */
    ghost predicate Valid()
      reads this`readers, this`writers
    {
      && selfState != peerState && cacheBuffer.Length == Receiving.SCRATCH
      && (forall c, k :: c in readers && k in readers && c != k ==> readers[c] != readers[k])
      && (forall c <- writers :: writers[c].csid == c)
    }

    ghost function Demux(): CS.Demux
      reads this`readers, readers.Values, peerState`chunkSize
    {
      CS.Demux(map c <- readers :: readers[c].Value(), config.maxChunkStreams, peerState.chunkSize)
    }

    constructor (r: Source, w: Sink, config: Config)
      requires r.Valid()
      ensures Valid() && this.r == r && this.w == w && this.config == config
      ensures readers == map[] && writers == map[] && acks == [] && queue == []
      ensures fresh(selfState) && fresh(peerState) && fresh(cacheBuffer)
      ensures selfState.chunkSize == peerState.chunkSize == config.defaultChunkSize
      ensures Demux() == CS.Demux(map[], config.maxChunkStreams, config.defaultChunkSize)
    {
      this.r, this.w, this.config := r, w, config;
      readers, writers, acks, queue := map[], map[], [], [];
      selfState := new StreamControlState(config);
      peerState := new StreamControlState(config);
      cacheBuffer := new byte[Receiving.SCRATCH](_ => 0);
    }

    method PrepareChunkReader(csid: int) returns (reader: ChunkStreamReader?)
      requires Valid()
      modifies this`readers
      ensures Valid()
      ensures reader == null <==> csid !in old(readers) && |old(readers)| >= config.maxChunkStreams
      ensures reader == null ==> readers == old(readers)
      ensures reader != null ==>
                && readers == old(readers)[csid := reader]
                && (if csid in old(readers) then reader == old(readers)[csid] else fresh(reader))
                && reader.Value() == old(Demux()).At(csid)
    {
      if csid in readers {
        assert readers == readers[csid := readers[csid]];
        return readers[csid];
      }
      if |readers| >= config.maxChunkStreams {
        return null;
      }
      reader := new ChunkStreamReader();
      readers := readers[csid := reader];
    }

    method PrepareChunkWriter(csid: int) returns (writer: ChunkStreamWriter?)
      requires Valid()
      modifies this`writers
      ensures Valid()
      ensures writer == null <==> csid !in old(writers) && |old(writers)| >= config.maxChunkStreams
      ensures writer == null ==> writers == old(writers)
      ensures writer != null ==>
                && writers == old(writers)[csid := writer] && writer.csid == csid
                && (csid in old(writers) ==> writer == old(writers)[csid])
                && (csid !in old(writers) ==>
                      fresh(writer) && writer.Value() == CS.FreshWriter(csid) && writer.idle && !writer.failed
                      && !writer.cut)
    {
      if csid in writers {
        assert writers == writers[csid := writers[csid]];
        return writers[csid];
      }
      if |writers| >= config.maxChunkStreams {
        return null;
      }
      writer := new ChunkStreamWriter(csid);
      writers := writers[csid := writer];
    }

    /** Only the reader of this stream changed. */
    twostate lemma OneReaderChanged(c: int)
      requires Valid() && readers == old(readers) && c in readers
      requires forall o <- readers.Values :: o != readers[c] ==> unchanged(o)
      requires peerState.chunkSize == old(peerState.chunkSize)
      ensures Demux() == old(Demux()).(readers := old(Demux()).readers[c := readers[c].Value()])
    {
      assert forall k <- readers :: readers[k] in readers.Values;
      assert forall k <- readers :: k != c ==> readers[k].Value() == old(readers[k].Value());
      assert Demux().readers == old(Demux()).readers[c := readers[c].Value()];
    }

    /** The map of values has the keys of the map of objects. */
    lemma DemuxKeys()
      ensures Demux().readers.Keys == readers.Keys && |Demux().readers| == |readers|
    {
      assert Demux().readers.Keys == readers.Keys;
      assert |Demux().readers| == |Demux().readers.Keys| && |readers| == |readers.Keys|;
    }

    /** A reader was looked up or opened, and the others kept what they had. */
    twostate lemma ReaderFound(c: int)
      requires c in readers && readers == old(readers)[c := readers[c]]
      requires readers[c].Value() == old(Demux()).At(c)
      requires forall o <- old(readers).Values :: unchanged(o)
      requires peerState.chunkSize == old(peerState.chunkSize)
      ensures Demux() == old(Demux()).(readers := old(Demux()).readers[c := old(Demux()).At(c)])
    {
      assert forall k <- readers :: k != c ==> k in old(readers) && readers[k] in old(readers).Values;
      assert Demux().readers == old(Demux()).readers[c := old(Demux()).At(c)];
    }

    method ReadBasicHeader(more: nat) returns (ok: bool, bh: BasicHeader, ghost p: Parse<BasicHeader>)
      requires Valid() && r.Valid()
      modifies r, cacheBuffer
      ensures Valid() && Counted(r)
      ensures p == DecodeBasicHeader(old(r.input), Receiving.Slack(more)) && ok == p.Parsed?
      ensures p.Parsed? ==> bh == p.value && r.input == p.rest
    {
      assert Receiving.Slack(more) == Min(more, ChunkHeaderCodec.Room(cacheBuffer.Length));
      hide DecodeBasicHeader, Wrap32, Min, Receiving.Slack, ChunkHeaderCodec.Room, Valid;
      p := DecodeBasicHeader(r.input, Receiving.Slack(more));
      ok, bh := DecodeChunkBasicHeader(r, cacheBuffer, more);
    }

    /** The reader of a chunk stream, if there is room for it. */
    method OpenReader(csid: int) returns (reader: ChunkStreamReader?)
      requires Valid()
      modifies this`readers
      ensures Valid()
      ensures reader == null <==> !old(Demux()).Room(csid)
      ensures reader == null ==> Demux() == old(Demux()) && readers == old(readers)
      ensures reader != null ==>
                && csid in readers && readers[csid] == reader && reader.Value() == old(Demux()).At(csid)
                && (readers == old(readers) || (fresh(reader) && readers == old(readers)[csid := reader]))
                && Demux() == old(Demux()).(readers := old(Demux()).readers[csid := old(Demux()).At(csid)])
    {
      DemuxKeys();
      assert Demux().maxStreams == config.maxChunkStreams;
      hide Demux, Valid;
      reader := PrepareChunkReader(csid);
      if reader != null {
        ReaderFound(csid);
      }
    }

    /** The basic header of the next chunk, and the reader it names if there is room for it. */
    method FindReader(more: nat) returns (reader: ChunkStreamReader?, bh: BasicHeader, ghost p: Parse<BasicHeader>)
      requires Valid() && r.Valid()
      modifies this`readers, r, cacheBuffer
      ensures Valid() && Counted(r)
      ensures p == DecodeBasicHeader(old(r.input), Receiving.Slack(more))
      ensures p.Parsed? ==> bh == p.value && r.input == p.rest
      ensures reader == null <==> p.Short? || !old(Demux()).Room(p.value.csid)
      ensures reader == null ==> Demux() == old(Demux()) && readers == old(readers)
      ensures reader != null ==>
                && bh.csid in readers && readers[bh.csid] == reader
                && reader.Value() == old(Demux()).At(bh.csid)
                && (readers == old(readers) || (fresh(reader) && readers == old(readers)[bh.csid := reader]))
                && Demux() == old(Demux()).(readers := old(Demux()).readers[bh.csid := old(Demux()).At(bh.csid)])
    {
      hide DecodeBasicHeader, Receiving.Slack, Demux, Valid, CS.Demux.At, CS.Demux.Room, Wrap32;
      reader := null;
      var ok;
      ok, bh, p := ReadBasicHeader(more);
      if ok {
        reader := OpenReader(bh.csid);
      }
    }

    ghost predicate Handed(reader: ChunkStreamReader?, c: int)
      reads this`readers
    {
      reader != null && c in readers && readers[c] == reader
    }

    /** Readers that were not there before are new objects. */
    twostate predicate Grew()
      reads this`readers
    {
      fresh(readers.Values - old(readers.Values))
    }

    /** The message header of a chunk whose basic header is known. */
    method ReadMessageHeader(reader: ChunkStreamReader, bh: BasicHeader) returns (ok: bool,
                                                                                  ghost q: Parse<MessageHeader>)
      requires Valid() && r.Valid() && Handed(reader, bh.csid)
      modifies r, cacheBuffer, reader
      ensures Counted(r)
      ensures q == DecodeMessageHeader(old(r.input), bh.fmt, old(reader.Value()).mode) && ok == q.Parsed?
      ensures reader.Value() == if ok then CS.Absorb(old(reader.Value()), bh, q.value) else old(reader.Value())
      ensures Demux() == old(Demux()).(readers := old(Demux()).readers[bh.csid := reader.Value()])
      ensures ok ==> r.input == q.rest
    {
      hide DecodeMessageHeader, CS.Absorb, Wrap32, Valid, Demux;
      q := DecodeMessageHeader(r.input, bh.fmt, reader.extendedTimestampMode);
      ok := reader.TakeHeader(r, bh, cacheBuffer);
      OneReaderChanged(bh.csid);
    }

    /** The headers of the next chunk, absorbed by the reader of their stream. */
    method ReadHeaders(more: nat) returns (reader: ChunkStreamReader?, ghost h: CS.HeadersResult)
      requires Valid() && r.Valid()
      modifies this`readers, r, cacheBuffer, readers.Values
      ensures Valid() && Counted(r) && Grew()
      ensures h == CS.ReadHeaders(old(Demux()), old(r.input), Receiving.Slack(more))
      ensures h.NoHeaders? ==> reader == null && Demux() == h.demux
      ensures h.Headers? ==> Handed(reader, h.csid) && r.input == h.rest && reader.Value() == h.reader
      ensures h.Headers? ==> Demux() == old(Demux()).(readers := old(Demux()).readers[h.csid := h.reader])
    {
      hide DecodeBasicHeader, DecodeMessageHeader, CS.Absorb, CS.ReadHeaders, Wrap32, Receiving.Slack, Valid, Demux,
           CS.Demux.Room, CS.Demux.At;
      ghost var d, s := Demux(), r.input;
      h := CS.ReadHeaders(d, s, Receiving.Slack(more));
      var bh;
      ghost var p;
      reader, bh, p := FindReader(more);
      if reader == null {
        CS.NoHeadersFor(d, s, Receiving.Slack(more));
      } else {
        ghost var was := reader.Value();
        var ok;
        ghost var q;
        ok, q := ReadMessageHeader(reader, bh);
        CS.HeadersFor(d, s, Receiving.Slack(more), p, q);
        assert d.readers[bh.csid := was][bh.csid := reader.Value()] == d.readers[bh.csid := reader.Value()];
        if !ok {
          reader := null;
        }
      }
    }

    /** The payload of a chunk whose headers were absorbed. */
    method ReadPayload(reader: ChunkStreamReader, ghost c: int) returns (ok: bool, ghost res: CS.ReadResult)
      requires Valid() && r.Valid() && Handed(reader, c)
      modifies r, reader
      ensures Counted(r)
      ensures res == CS.ReadPayload(old(Demux()), c, old(reader.Value()), old(r.input)) && Demux() == res.demux
      ensures ok == res.Chunk?
      ensures res.Chunk? ==> res.csid == c && r.input == res.rest && reader.Value() == res.demux.readers[c]
    {
      assert Demux().chunkSize == peerState.chunkSize;
      hide CS.Append, CS.Expected, Wrap32, Min, Valid, Demux;
      res := CS.ReadPayload(Demux(), c, reader.Value(), r.input);
      ok := reader.TakePayload(r, peerState.chunkSize);
      OneReaderChanged(c);
    }

    /** One chunk, whole or as far as the input goes. */
    method ReadChunk(more: nat) returns (reader: ChunkStreamReader?, ghost res: CS.ReadResult)
      requires Valid() && r.Valid()
      modifies this`readers, r, cacheBuffer, readers.Values
      ensures Valid() && Counted(r) && Grew()
      ensures res == CS.ReadChunk(old(Demux()), old(r.input), Receiving.Slack(more)) && Demux() == res.demux
      ensures res.Failed? ==> reader == null
      ensures res.Chunk? ==> Handed(reader, res.csid) && r.input == res.rest
                             && reader.Value() == res.demux.readers[res.csid]
    {
      hide CS.ReadHeaders, CS.ReadPayload, Wrap32, Receiving.Slack, Valid, Demux;
      ghost var d := Demux();
      ghost var h;
      reader, h := ReadHeaders(more);
      if reader == null {
        res := CS.Failed(h.demux, h.error);
      } else {
        CS.PayloadAfterHeaders(d, h.csid, h.reader, r.input);
        var ok;
        ok, res := ReadPayload(reader, h.csid);
        if !ok {
          reader := null;
        }
      }
    }

    twostate lemma CountersMoved(n: nat)
      requires old(r.Valid()) && Counted(r) && n == |old(r.input)| - |r.input|
      ensures r.totalReadBytes == Wrap32(old(r.totalReadBytes) + n)
      ensures r.fragmentReadBytes == Wrap32(old(r.fragmentReadBytes) + n)
    {
      WrapAdds(old(r.total), n);
      WrapAdds(old(r.fragment), n);
    }

    ghost function Counters(): AckWindow.Counters
      reads r
    {
      AckWindow.Counters(r.totalReadBytes, r.fragmentReadBytes)
    }

    /** One chunk; and what was read is acknowledged if it is half a window or more. An Ack that
        cannot be written is an error, and nothing is reset. */
    method ReadAndAcknowledge(more: nat, send: bool) returns (reader: ChunkStreamReader?, ghost res: CS.ReadResult,
                                                              ghost turn: AckWindow.Turn)
      requires Valid() && r.Valid()
      modifies this`readers, this`acks, r, cacheBuffer, readers.Values
      ensures Valid() && r.Valid() && Grew()
      ensures res == CS.ReadChunk(old(Demux()), old(r.input), Receiving.Slack(more)) && Demux() == res.demux
      ensures res.Failed? ==> reader == null && acks == old(acks)
      ensures res.Chunk? ==> turn == AckWindow.Turn(|old(r.input)| - |res.rest|, peerState.ackWindowSize)
      ensures res.Chunk? && AckWindow.Due(old(Counters()), turn) != [] && !send ==> reader == null && acks == old(acks)
      ensures res.Chunk? && (AckWindow.Due(old(Counters()), turn) == [] || send) ==>
                && Handed(reader, res.csid) && r.input == res.rest && reader.Value() == res.demux.readers[res.csid]
                && acks == old(acks) + AckWindow.Due(old(Counters()), turn)
                && Counters() == AckWindow.Next(old(Counters()), turn)
    {
      hide CS.ReadChunk, Wrap32, Receiving.Slack, AckWindow.Threshold, Valid, Demux;
      ghost var s := r.input;
      turn := AckWindow.Turn(0, 0);
      reader, res := ReadChunk(more);
      if reader == null {
        return;
      }
      turn := AckWindow.Turn(|s| - |r.input|, peerState.ackWindowSize);
      CountersMoved(|s| - |r.input|);
      if r.fragmentReadBytes >= AckWindow.Threshold(peerState.ackWindowSize) {
        if send {
          acks := acks + [AckWindow.Ack(r.totalReadBytes, r.fragmentReadBytes)];
          r.ResetFragmentReadBytes();
        } else {
          reader := null;
        }
      }
    }

    /** What is still to come of the next message. */
    ghost function Ahead(more: nat -> nat, sends: nat -> bool): Receiving.Received
      reads this`readers, this`acks, readers.Values, peerState, r
    {
      Receiving.NextMessage(Demux(), r.input, more, Counters(), peerState.ackWindowSize, acks, sends)
    }

    /** The end of a read: with a message and its reader, or with an error. */
    ghost predicate Ended(goal: Receiving.Received, reader: ChunkStreamReader?)
      reads this`readers, this`acks, readers.Values, peerState, r
    {
      && Demux() == goal.demux && acks == goal.acks
      && if goal.HandedOver? then
           Handed(reader, goal.csid) && r.input == goal.rest && Counters() == goal.counters
         else
           reader == null
    }

    /** One chunk on the way: either that was all, or the same is still ahead, with less to
        read. */
    method ReadOneMore(more: nat -> nat, sends: nat -> bool) returns (reader: ChunkStreamReader?)
      requires Valid() && r.Valid()
      modifies this`readers, this`acks, r, cacheBuffer, readers.Values
      ensures Valid() && r.Valid() && Grew()
      ensures reader == null || reader.completed ==> Ended(old(Ahead(more, sends)), reader)
      ensures reader != null && !reader.completed ==>
                Ahead(more, sends) == old(Ahead(more, sends)) && |r.input| < |old(r.input)|
    {
      hide AckWindow.Due, AckWindow.Next, CS.ReadChunk, Wrap32, Receiving.Slack, Valid, Demux;
      ghost var res, turn;
      reader, res, turn := ReadAndAcknowledge(more(|r.input|), sends(|acks|));
    }

    /** Chunks are read until one completes its message, and acknowledged on the way. */
    method NewChunkReader(more: nat -> nat, sends: nat -> bool) returns (reader: ChunkStreamReader?)
      requires Valid() && r.Valid()
      modifies this`readers, this`acks, r, cacheBuffer, readers.Values
      ensures Valid() && r.Valid() && Grew()
      ensures Ended(old(Ahead(more, sends)), reader)
    {
      hide Ahead, Ended, Valid, Wrap32;
      ghost var goal := Ahead(more, sends);
      while true
        invariant Valid() && r.Valid() && Grew() && Ahead(more, sends) == goal
        decreases |r.input|
      {
        reader := ReadOneMore(more, sends);
        if reader == null || reader.completed {
          return;
        }
      }
    }

    // ---- writing ----------------------------------------------------------------------

    /** One chunk of a writer's message, in the smallest format that will do. */
    method WriteChunk(writer: ChunkStreamWriter) returns (ok: bool, completed: bool)
      modifies w, writer
      ensures match CS.WriteChunk(old(writer.Value()), selfState.chunkSize)
              case Written(v, bytes, done) =>
                ok && completed == done && writer.Value() == v && w.output == old(w.output) + bytes
              case OutOfRange(v) => !ok && !completed && writer.Value() == v && w.output == old(w.output)
      ensures writer.idle == old(writer.idle) && writer.failed == old(writer.failed)
    {
      hide CS.UpdateHeader, EncodeBasicHeader, EncodeMessageHeader;
      completed := false;
      writer.UpdateWriterHeader();
      var n := |writer.buf|;
      if Wrap32(n) > selfState.chunkSize {
        n := selfState.chunkSize;
      }
      ok := EncodeChunkBasicHeader(w, BasicHeader(writer.fmt, writer.csid));
      if !ok {
        return;
      }
      EncodeChunkMessageHeader(w, writer.fmt, writer.messageHeader);
      w.Write(writer.buf[..n]);
      writer.buf := writer.buf[n..];
      completed := |writer.buf| == 0;
    }

    /** Every queued writer is there once, and taken. */
    ghost predicate QueueValid()
      reads this`queue, queue
    {
      && (forall i, j :: 0 <= i < j < |queue| ==> queue[i] != queue[j])
      && forall x <- queue :: !x.idle
    }

    /** Puts an acquired writer into the queue. */
    method Sched(writer: ChunkStreamWriter)
      requires |queue| < Scheduler.CAPACITY
      modifies this`queue
      ensures queue == old(queue) + [writer]
    {
      queue := queue + [writer];
    }

    /** The writer a message for this chunk stream would get, before the message is loaded. */
    ghost function WriterValue(csid: int): CS.Writer
      reads this`writers, writers.Values
    {
      if csid in writers then writers[csid].Value() else CS.FreshWriter(csid)
    }

    /** The writer of a chunk stream, opened if need be, once it can be had. */
    method NewChunkWriter(csid: int, chooseClose: bool) returns (writer: ChunkStreamWriter?)
      requires Valid()
      modifies this`writers, writers.Values`idle
      ensures Valid()
      ensures writer != null <==> if csid in old(writers)
                                  then old(!writers[csid].failed && (writers[csid].idle || writers[csid].cut))
                                  else |old(writers)| < config.maxChunkStreams
      ensures writer == null ==> writers == old(writers) && forall c <- writers :: unchanged(writers[c])
      ensures writer != null ==>
                && csid in writers && writers == old(writers)[csid := writer]
                && (if csid in old(writers) then writer == old(writers)[csid] else fresh(writer))
                && writer.Value() == old(WriterValue(csid)) && !writer.failed
                && (writer.idle ==> csid in old(writers) && old(writers[csid].cut))
                && forall c <- old(writers) :: c != csid ==> unchanged(old(writers)[c]) && writers[c] != writer
    {
      writer := PrepareChunkWriter(csid);
      if writer != null {
        assert forall c <- writers :: c != csid ==> writers[c] != writer;
        hide Valid;
        var ok := writer.Wait(chooseClose);
        if !ok {
          return null;
        }
      }
    }

    /** A message is loaded onto the writer of its chunk stream and queued. With a full queue
        the producer is left waiting with the loaded writer, to be queued when there is room. */
    method Write(csid: int, m: CS.Message, chooseClose: bool) returns (ok: bool, queued: bool)
      requires Valid()
      modifies this`writers, this`queue, writers.Values
      ensures Valid()
      ensures ok <==> if csid in old(writers)
                      then old(!writers[csid].failed && (writers[csid].idle || writers[csid].cut))
                      else |old(writers)| < config.maxChunkStreams
      ensures queued == (ok && |old(queue)| < 64)
      ensures !ok ==> queue == old(queue) && writers == old(writers) && forall c <- writers :: unchanged(writers[c])
      ensures ok ==>
                && csid in writers && writers == old(writers)[csid := writers[csid]]
                && (if csid in old(writers) then writers[csid] == old(writers)[csid] else fresh(writers[csid]))
                && writers[csid].Value() == CS.Load(old(WriterValue(csid)), m) && !writers[csid].failed
                && queue == old(queue) + (if queued then [writers[csid]] else [])
                && forall c <- old(writers) :: c != csid ==> unchanged(old(writers)[c])
      ensures old(QueueValid()) && (ok && csid in old(writers) ==> old(!writers[csid].cut)) ==> QueueValid()
    {
      hide CS.Load, Valid;
      ok, queued := false, false;
      var writer := NewChunkWriter(csid, chooseClose);
      if writer == null {
        return;
      }
      ok := true;
      writer.Load(m);
      if |queue| < Scheduler.CAPACITY {
        Sched(writer);
        queued := true;
      }
    }

    /** When the loop has ended with an error every writer there is gets its `closeCh` closed. */
    method ForceCloseWriters()
      modifies writers.Values`cut
      ensures forall c <- writers :: writers[c].cut
    {
      forall c | c in writers {
        writers[c].cut := true;
      }
    }

    ghost function Values(q: seq<ChunkStreamWriter>): (ws: seq<CS.Writer>)
      reads q
      ensures |ws| == |q| && forall i :: 0 <= i < |q| ==> ws[i] == q[i].Value()
    {
      if q == [] then [] else [q[0].Value()] + Values(q[1..])
    }

    ghost predicate AllFailed(lost: set<ChunkStreamWriter>)
      reads lost
    {
      forall x <- lost :: x.failed
    }

    /** The queue is made of these writers, and those that left it are idle and empty. */
    ghost predicate Among(members: set<ChunkStreamWriter>)
      reads this`queue, queue, members
    {
      && QueueValid()
      && (forall x <- queue :: x in members)
      && (forall x <- members :: x in queue || (x.idle && x.buf == []))
    }

    /** Where the loop stands: what is written and what is queued make up the whole output. */
    ghost predicate Running(all: seq<byte>, size: uint32)
      requires size >= 1
      reads this`queue, w, queue
    {
      w.output + WriteLoop.LoopBytes(Values(queue), size) == all
    }

    /** The first writer in the queue wrote a chunk and was released, or went to the end of the
        queue; or it could not write, and was released with its error. */
    twostate predicate Turned(writer: ChunkStreamWriter, ok: bool)
      requires old(queue) != []
      reads this`queue, w, writer, selfState
    {
      var res := CS.WriteChunk(old(writer.Value()), selfState.chunkSize);
      && ok == res.Written? && writer.idle == (!ok || res.completed) && writer.failed == (!ok || old(writer.failed))
      && queue == old(queue)[1..] + (if ok && !res.completed then [writer] else [])
      && w.output == old(w.output) + (if ok then res.bytes else [])
      && (ok ==> writer.Value() == res.writer)
    }

    /** One turn of the loop. */
    method TakeTurn() returns (ok: bool)
      requires QueueValid() && queue != []
      modifies this`queue, w, queue[0]
      ensures QueueValid() && Turned(old(queue)[0], ok)
    {
      hide CS.WriteChunk;
      var writer := queue[0];
      queue := queue[1..];
      var completed;
      ok, completed := WriteChunk(writer);
      if !ok {
        writer.failed := true;
        writer.idle := true;
        assert w.output + [] == w.output && queue + [] == queue;
      } else if completed {
        writer.idle := true;
        assert queue + [] == queue;
      } else {
        queue := queue + [writer];
      }
    }

    lemma CompletedIsEmpty(v: CS.Writer, size: uint32)
      ensures var res := CS.WriteChunk(v, size); res.Written? && res.completed ==> res.writer.buf == []
    {
      hide CS.UpdateHeader, EncodeBasicHeader, EncodeMessageHeader;
    }

    /** A turn leaves the head at the end of the queue, or idle and empty, and touches no other. */
    method TurnAmong(ghost members: set<ChunkStreamWriter>, ghost lost: set<ChunkStreamWriter>) returns (ok: bool)
      requires Among(members) && queue != []
      modifies this`queue, w, queue[0]
      ensures QueueValid() && Turned(old(queue)[0], ok) && (ok ==> Among(members))
      ensures old(AllFailed(lost)) ==> AllFailed(lost)
    {
      CompletedIsEmpty(queue[0].Value(), selfState.chunkSize);
      hide CS.WriteChunk;
      ghost var q := queue;
      assert q[0] in q;
      ok := TakeTurn();
      if ok {
        forall x <- members ensures x in queue || (x.idle && x.buf == []) {
          if x in q && x != q[0] {
            assert x in q[1..];
          }
        }
      }
    }

    /** The values behind the head keep their order. */
    twostate lemma OthersKeepValues()
      requires old(queue) != [] && |queue| >= |old(queue)| - 1
      requires forall i :: 0 <= i < |old(queue)| - 1 ==> queue[i] == old(queue)[i + 1] && unchanged(queue[i])
      ensures forall i :: 0 <= i < |old(queue)| - 1 ==> Values(queue)[i] == old(Values(queue))[i + 1]
    {
    }

    lemma HeadIsAlone(members: set<ChunkStreamWriter>)
      requires queue != [] && Among(members)
      ensures queue[0] in members && QueueValid()
      ensures forall i :: 0 < i < |queue| ==> queue[i] != queue[0]
    {
      assert queue[0] in queue;
    }

    method RunOnce(ghost all: seq<byte>, ghost members: set<ChunkStreamWriter>, ghost lost: set<ChunkStreamWriter>)
      returns (ok: bool)
      requires queue != [] && selfState.chunkSize >= 1 && Among(members) && Running(all, selfState.chunkSize)
      modifies this`queue, w, queue[0]
      ensures !ok ==> w.output == all && old(queue[0]).failed && old(queue[0]).idle
      ensures old(AllFailed(lost)) ==> AllFailed(lost)
      ensures ok ==> Among(members) && Running(all, selfState.chunkSize)
      ensures ok ==> WriteLoop.Load(Values(queue)) < WriteLoop.Load(old(Values(queue)))
    {
      HeadIsAlone(members);
      hide CS.WriteChunk, WriteLoop.Load, WriteLoop.LoopBytes, WriteLoop.NextQueue, Among, QueueValid, AllFailed;
      ghost var size := selfState.chunkSize;
      ghost var v, out := Values(queue), w.output;
      ok := TurnAmong(members, lost);
      if ok {
        OthersKeepValues();
        WriteLoop.AfterTurn(v, Values(queue), out, size);
      } else {
        WriteLoop.NothingWritten(v, out, size);
        assert out + [] == out;
      }
    }

    /** The loop without new work: it ends when every queued message is written, or with the
        first writer that fails. */
    method Run() returns (ok: bool)
      requires QueueValid() && selfState.chunkSize >= 1
      modifies this`queue, w, queue
      ensures w.output == old(w.output) + WriteLoop.LoopBytes(old(Values(queue)), selfState.chunkSize)
      ensures ok ==> queue == [] && forall x <- old(queue) :: x.idle && x.buf == []
      ensures !ok ==> exists x <- old(queue) :: x.failed && x.idle
      ensures forall x <- old(queue) :: old(x.failed) ==> x.failed
    {
      ghost var size := selfState.chunkSize;
      ghost var members := set x <- queue;
      ghost var lost := set x <- queue | x.failed;
      ghost var all := w.output + WriteLoop.LoopBytes(Values(queue), size);
      hide WriteLoop.Load, WriteLoop.LoopBytes, QueueValid;
      while queue != []
        invariant selfState.chunkSize == size && Among(members) && Running(all, size)
        invariant AllFailed(lost)
        decreases WriteLoop.Load(Values(queue))
      {
        HeadIsAlone(members);
        ok := RunOnce(all, members, lost);
        if !ok {
          return;
        }
      }
      WriteLoop.NothingWritten(Values(queue), w.output, size);
      return true;
    }

    /** The write loop, and what follows its end. */
    method SchedWriteLoop() returns (ok: bool)
      requires QueueValid() && selfState.chunkSize >= 1
      modifies this`queue, w, queue, writers.Values`cut
      ensures w.output == old(w.output) + WriteLoop.LoopBytes(old(Values(queue)), selfState.chunkSize)
      ensures !ok ==> (forall c <- writers :: writers[c].cut) && exists x <- old(queue) :: x.failed
      ensures forall x <- old(queue) :: old(x.failed) ==> x.failed
    {
      ok := Run();
      if !ok {
        ForceCloseWriters();
      }
    }

    /** The switch that comes with creating a stream: the local size changes at once, then the
        message is queued; a size that the message cannot carry is refused only then. */
    method SwitchChunkSize(n: uint32, chooseClose: bool) returns (ok: bool, queued: bool)
      requires Valid()
      modifies this`writers, this`queue, writers.Values, selfState
      ensures Valid()
      ensures selfState.chunkSize == if n > 0 then n else old(selfState.chunkSize)
      ensures var same := n == 0 || n == old(selfState.chunkSize);
              && ok == (same || (n <= 0x7fff_ffff && old(if 2 in writers
                                                         then !writers[2].failed && (writers[2].idle || writers[2].cut)
                                                         else |writers| < config.maxChunkStreams)))
              && (same || !ok ==>
                    !queued && queue == old(queue) && writers == old(writers)
                    && forall c <- writers :: unchanged(writers[c]))
              && (ok && !same ==>
                    && queued == (|old(queue)| < 64)
                    && 2 in writers && writers == old(writers)[2 := writers[2]]
                    && writers[2].Value() == CS.Load(old(WriterValue(2)), Transport.SwitchMessage(n))
                    && queue == old(queue) + (if queued then [writers[2]] else [])
                    && forall c <- old(writers) :: c != 2 ==> unchanged(old(writers)[c]))
    {
      hide CS.Load, BE32;
      ok, queued := true, false;
      if n > 0 && n != selfState.chunkSize {
        selfState.chunkSize := n;
        if n > 0x7fff_ffff {
          ok := false;
        } else {
          ok, queued := Write(2, CS.Message(0, 1, 0, BE32(n)), chooseClose);
        }
      }
    }
  }
}
