/** The choice among the four header formats: what may be left out, that no more could be,
    and the traffic for which every message is admissible. */
module Formats {
  import opened Bytes
  import opened ChunkHeader
  import opened ChunkStream
  import opened Lockstep

  /** The delta the writer compares with is the one the reader holds. */
  predicate Faithful(ch: Channel) {
    ch.heldDelta == ch.writer.header.timestampDelta
  }

  /** Would a reader that gets this header in this format come to know the message? */
  predicate Recovers(r: Reader, fmt: Format, csid: int, h: MessageHeader, m: Message) {
    var r1 := Absorb(r, BasicHeader(fmt, csid), Carried(fmt, h));
    && r1.length == |m.payload| && r1.typeID == m.typeID && r1.streamID == m.streamID
    && Wrap32(r1.timestamp + r1.delta) == m.timestamp
  }

  /** Sound omission: a field is left out only when the receiver already holds its value; for
      the delta that type 3 leaves out, exactly if both ends hold the same. */
  lemma OmissionIsSound(ch: Channel, r: Reader, m: Message)
    requires Waiting(ch, r, m)
    ensures var w := UpdateHeader(ch.writer);
            && (w.fmt >= 1 ==> r.streamID == m.streamID)
            && (w.fmt >= 2 ==> r.length == |m.payload| && r.typeID == m.typeID)
            && (w.fmt == 3 ==> (r.delta == w.delta <==> Faithful(ch)))
  {
  }

  /** An admissible message leaves out only what the receiver holds, the delta included. */
  lemma AdmissibleOmissionIsSound(ch: Channel, r: Reader, m: Message, size: uint32)
    requires Idle(ch, r) && Admissible(ch, m, size)
    ensures var w := UpdateHeader(Submit(ch, m).writer);
            && (w.fmt >= 1 ==> r.streamID == m.streamID)
            && (w.fmt >= 2 ==> r.length == |m.payload| && r.typeID == m.typeID)
            && (w.fmt == 3 ==> r.delta == w.delta)
  {
  }

  /** Whether both ends hold the same delta after the first chunk of a message, whatever they
      held before: a full header settles it at 0, a delta that is sent settles it, and type 3
      leaves it as it was. */
  lemma DeltaAgreesIff(ch: Channel, r: Reader, m: Message, size: uint32)
    requires Idle(ch, r)
    ensures var w := UpdateHeader(Submit(ch, m).writer);
            Faithful(Sent(Submit(ch, m), size))
            <==> (if w.fmt == 0 then w.delta == 0 else w.fmt < 3 || Faithful(ch))
  {
  }

  /** So the deltas part exactly when the message stream ID changes together with a later
      timestamp, and come together again with the next header that carries one, or with a
      full header at no later a time. */
  lemma DeltaLostIff(ch: Channel, r: Reader, m: Message, size: uint32)
    requires Idle(ch, r) && Faithful(ch)
    ensures Faithful(Sent(Submit(ch, m), size))
            <==> !(m.streamID != ch.writer.header.messageStreamID && m.timestamp > ch.writer.header.timestamp)
  {
  }

  /** A timestamp that runs backwards forces type 0 and clears the delta on both sides. */
  lemma ReversedIsFull(ch: Channel, r: Reader, m: Message, size: uint32)
    requires Waiting(ch, r, m) && m.timestamp < ch.writer.header.timestamp
    ensures UpdateHeader(ch.writer).fmt == 0
    ensures Sent(ch, size).writer.header.timestampDelta == 0 && Sent(ch, size).writer.delta == 0
    ensures ReceivedFrom(ch, r, size).delta == 0
  {
  }

  lemma ModuloDistinct(t: uint32, a: uint32, b: uint32)
    ensures Wrap32(t + a) == Wrap32(t + b) ==> a == b
  {
  }

  lemma ChosenRecovers(ch: Channel, r: Reader, m: Message)
    requires Waiting(ch, r, m) && !ch.virgin && Faithful(ch) && ch.heldMode.Unused?
    ensures var w := UpdateHeader(ch.writer);
            Recovers(r, w.fmt, w.csid, w.header, m)
  {
    assert |m.payload| == ch.writer.length;
  }

  lemma SmallerDoesNot(ch: Channel, r: Reader, m: Message, g: Format)
    requires Waiting(ch, r, m) && !ch.virgin && Faithful(ch) && ch.heldMode.Unused?
    requires m.timestamp >= ch.writer.header.timestamp && g > UpdateHeader(ch.writer).fmt
    ensures var w := UpdateHeader(ch.writer);
            !Recovers(r, g, w.csid, w.header, m)
  {
    assert |m.payload| == ch.writer.length;
    ModuloDistinct(r.timestamp, r.delta, UpdateHeader(ch.writer).delta);
  }

  /** No format that carries less than the chosen one would do, unless time runs backwards
      (a delta that wraps around would do, but the writer does not use it). */
  lemma SmallestFormat(ch: Channel, r: Reader, m: Message, g: Format)
    requires Waiting(ch, r, m) && !ch.virgin && Faithful(ch) && ch.heldMode.Unused?
    requires m.timestamp >= ch.writer.header.timestamp
    ensures var w := UpdateHeader(ch.writer);
            && Recovers(r, w.fmt, w.csid, w.header, m)
            && (g > w.fmt ==> !Recovers(r, g, w.csid, w.header, m))
  {
    hide Recovers, Waiting, UpdateHeader;
    ChosenRecovers(ch, r, m);
    if g > UpdateHeader(ch.writer).fmt {
      SmallerDoesNot(ch, r, m, g);
    }
  }

  // ---- plain traffic ------------------------------------------------------------------

  /** No extended header is in force and both ends hold the same delta. */
  predicate PlainLane(ch: Channel) {
    ch.heldMode.Unused? && Faithful(ch)
  }

  /** A non-empty message of 24-bit length on the same message stream, or at the same or an
      earlier time; whose absolute time, when it must be sent, and whose time step, when
      that is sent, are below the 24-bit escape value. */
  predicate PlainMessage(ch: Channel, m: Message) {
    var h := ch.writer.header;
    var absolute := ch.virgin || m.timestamp < h.timestamp || m.streamID != h.messageStreamID;
    && 1 <= |m.payload| <= MAX_UINT24
    && (m.streamID == h.messageStreamID || m.timestamp <= h.timestamp)
    && (absolute ==> m.timestamp < MAX_UINT24)
    && (!absolute ==> m.timestamp - h.timestamp < MAX_UINT24)
  }

  /** A plain message that was loaded is clean, and its first chunk leaves the lane plain. */
  lemma LoadedStaysPlain(ch: Channel, r: Reader, m: Message, size: uint32)
    requires Waiting(ch, r, m) && PlainLane(ch) && PlainMessage(ch, m)
    ensures Clean(ch, m, size) && PlainLane(Sent(ch, size))
  {
  }

  /** So do its later chunks. */
  lemma ContinuationStaysPlain(ch: Channel, r: Reader, m: Message, due: uint32, size: uint32)
    requires InFlight(ch, r, m, due) && PlainLane(ch)
    ensures PlainLane(Sent(ch, size))
  {
  }

  /** A plain message is admissible, at any chunk size. */
  lemma PlainIsAdmissible(ch: Channel, r: Reader, m: Message, size: uint32)
    requires Idle(ch, r) && PlainLane(ch) && PlainMessage(ch, m)
    ensures Admissible(ch, m, size)
  {
    assert [] + m.payload == m.payload;
    assert Waiting(Submit(ch, m), r, m);
    hide UpdateHeader;
    LoadedStaysPlain(Submit(ch, m), r, m, size);
  }

  // ---- inputs for which the round trip fails ------------------------------------------

  /** The next message of a lane that is idle, and its reader, after a message of one chunk. */
  lemma OneChunkLater(ch: Channel, r: Reader, m: Message, size: uint32)
    requires Idle(ch, r) && 1 <= |m.payload| <= size && |m.payload| <= MAX_UINT24
    requires Admissible(ch, m, size)
    ensures Idle(Sent(Submit(ch, m), size), ReceivedFrom(Submit(ch, m), r, size))
    ensures ReceivedFrom(Submit(ch, m), r, size).Assembled() == m
  {
    assert [] + m.payload == m.payload && m.payload[..|m.payload|] == m.payload && m.payload[|m.payload|..] == [];
    var d := Demux(map[ch.writer.csid := r], 1, size);
    FirstChunk(Submit(ch, m), d, m, size);
    DueIsTimestamp(Submit(ch, m), r, m);
    hide UpdateHeader, Due, ReceivedFrom, NeedsExtension, Agreement;
  }

  /** Message stream 1, then stream 2 ten ticks later, then stream 2 another ten ticks
      later: the third message goes out as type 3, but the reader's delta was reset, so it
      reports the time of the second. */
  lemma StreamChangeBreaksType3(over: nat)
    ensures var m1, m2, m3 := Message(0, 8, 1, [7]), Message(10, 8, 2, [7]), Message(20, 8, 2, [7]);
            var s1 := Submit(FreshChannel(4), m1);
            var s2 := Submit(Sent(s1, 128), m2);
            var s3 := Submit(Sent(s2, 128), m3);
            var r2 := ReceivedFrom(s2, ReceivedFrom(s1, FRESH_READER, 128), 128);
            && UpdateHeader(s3.writer).fmt == 3
            && ReceivedFrom(s3, r2, 128).Assembled() == m3.(timestamp := 10)
            && !TravelsIntact(s3, Demux(map[4 := r2], 1, 128), m3, 128, over)
  {
    var m1, m2, m3 := Message(0, 8, 1, [7]), Message(10, 8, 2, [7]), Message(20, 8, 2, [7]);
    assert [] + [7 as byte] == [7];
    var c0 := FreshChannel(4);
    var c1 := Sent(Submit(c0, m1), 128);
    assert c1.writer.header == MessageHeader(0, 0, 1, 8, 1, Unused) && c1.writer.buf == [];
    var c2 := Sent(Submit(c1, m2), 128);
    assert c2.writer.header == MessageHeader(10, 10, 1, 8, 2, Unused) && c2.writer.buf == [];
    OneChunkLater(c0, FRESH_READER, m1, 128);
    var r1 := ReceivedFrom(Submit(c0, m1), FRESH_READER, 128);
    OneChunkLater(c1, r1, m2, 128);
    var r2 := ReceivedFrom(Submit(c1, m2), r1, 128);
    var s3 := Submit(c2, m3);
    assert UpdateHeader(s3.writer).fmt == 3 && c2.heldDelta == 0;
    assert UpdateHeader(s3.writer).buf[..CutSize(s3.writer, 128)] == [7];
    hide TravelsIntact, Sent, Submit;
    IntactIffAdmissible(c2, Demux(map[4 := r2], 1, 128), m3, 128, over);
  }

  /** A first message past the 24-bit escape that needs a second chunk never arrives. */
  lemma ExtendedTwoChunksBreak(d: Demux, csid: int, m: Message, size: uint32, over: nat)
    requires InRange(csid) && csid !in d.readers && d.Room(csid)
    requires m.timestamp >= MAX_UINT24 && |m.payload| > size
    ensures !TravelsIntact(Submit(FreshChannel(csid), m), d, m, size, over)
  {
    var ch := FreshChannel(csid);
    assert !Admissible(ch, m, size);
    hide TravelsIntact, Submit, Admissible;
    IntactIffAdmissible(ch, d, m, size, over);
  }

  /** A first message at the largest time on message stream 0 is taken for type 1: it is
      reported at time 0. */
  lemma LargestFirstTimestampBreaks(d: Demux, csid: int, m: Message, size: uint32, over: nat)
    requires InRange(csid) && csid !in d.readers && d.Room(csid)
    requires m.timestamp == MAX_UINT32 && m.streamID == 0 && m.payload != [] && |m.payload| <= MAX_UINT24
    ensures UpdateHeader(Submit(FreshChannel(csid), m).writer).fmt == 1
    ensures Due(Submit(FreshChannel(csid), m), FRESH_READER) == 0
    ensures !TravelsIntact(Submit(FreshChannel(csid), m), d, m, size, over)
  {
    var ch := FreshChannel(csid);
    assert UpdateHeader(Submit(ch, m).writer).fmt == 1 && Due(Submit(ch, m), FRESH_READER) == 0;
    assert !Admissible(ch, m, size);
    hide TravelsIntact, Submit, Admissible, UpdateHeader, Due;
    IntactIffAdmissible(ch, d, m, size, over);
  }
}
