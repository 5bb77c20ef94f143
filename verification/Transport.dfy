/** The whole writer-to-reader path: any number of chunk streams, cut into chunks and
    interleaved in any order on one wire, and the chunk size changed on the way. */
module Transport {
  import opened Bytes
  import opened Collections
  import opened ChunkHeader
  import opened ChunkStream
  import opened Lockstep
  import opened ControlState
  import Messages

  // ---- the receiving end --------------------------------------------------------------

  datatype Delivery = Delivery(csid: int, message: Message)

  const SET_CHUNK_SIZE: byte := 1

  /** What a delivered message does to the chunk layer that delivered it; an invalid or
      refused chunk size ends the connection. */
  function React(d: Demux, config: Config, m: Message): Option<Demux> {
    if m.typeID != SET_CHUNK_SIZE then
      Some(d)
    else
      match Messages.Decode(m.typeID, m.payload)
      case Rejected(_) => None
      case Decoded(msg, _) =>
        if !msg.SetChunkSize? then
          Some(d)
        else
          match AcceptChunkSize(msg.chunkSize, config)
          case Refuse => None
          case Accept(n) => Some(d.(chunkSize := n))
  }

  /** All messages that a run of `readChunk` makes of the input, and the reader it leaves;
      none when the run ends in an error. */
  function ReadAll(d: Demux, config: Config, s: seq<byte>, slack: nat -> nat): (seq<Delivery>, Option<Demux>)
    decreases |s|
  {
    if s == [] then
      ([], Some(d))
    else
      match ReadChunk(d, s, slack(|s|))
      case Failed(_, _) => ([], None)
      case Chunk(d1, c, rest) =>
        if !d1.readers[c].completed then
          ReadAll(d1, config, rest, slack)
        else
          var m := d1.readers[c].Assembled();
          match React(d1, config, m)
          case None => ([Delivery(c, m)], None)
          case Some(d2) =>
            var later := ReadAll(d2, config, rest, slack);
            ([Delivery(c, m)] + later.0, later.1)
  }

  // ---- the sending end ----------------------------------------------------------------

  /** `chunkSize` is what the sender cuts by, `peer` the size it last told the reader, and
      `highest` the highest chunk stream ID it uses. */
  datatype Sender = Sender(lanes: map<int, Channel>, chunkSize: uint32, peer: uint32, highest: int)
  {
    function Lane(csid: int): Channel {
      if csid in lanes then lanes[csid] else FreshChannel(csid)
    }

    predicate AllIdle() {
      forall c <- lanes :: lanes[c].current.None?
    }

    predicate Room(csid: int, limit: int) {
      csid in lanes || |lanes| < limit
    }
  }

  /** A message is handed to a chunk stream; the scheduler gives some chunk stream a turn; or
      the sender changes its chunk size, which it does before it hands the message that says
      so to a chunk stream. */
  datatype Event = Submit(csid: int, message: Message) | Turn(csid: int) | Resize(size: uint32)

  function SwitchMessage(size: uint32): Message {
    Message(0, SET_CHUNK_SIZE, 0, BE32(size))
  }

  /** At time 0 on message stream 0. */
  lemma SwitchIs(size: uint32)
    ensures var m := SwitchMessage(size);
            && m.timestamp == 0 && m.typeID == 1 && m.streamID == 0
            && |m.payload| == 4 && U32(m.payload) == size
  {
    BE32RoundTrip(size);
  }

  const CONTROL := 2

  /** A message that says a chunk size says a valid one. */
  predicate Sound(m: Message) {
    m.typeID == SET_CHUNK_SIZE ==> |m.payload| == 4 && 1 <= U32(m.payload) <= 0x7fff_ffff
  }

  /** The chunk size the reader goes by after a message. */
  function Told(m: Message, before: uint32): uint32 {
    if m.typeID == SET_CHUNK_SIZE && |m.payload| == 4 then U32(m.payload) else before
  }

  /** When an event may happen. While the reader has not been told of a change, a chunk may
      be written only if the old and the new size cut what is left of its message alike. */
  predicate Legal(s: Sender, e: Event, limit: int) {
    match e
    case Submit(c, m) =>
      && 2 <= c <= s.highest && s.Room(c, limit)
      && s.Lane(c).current.None? && Sound(m) && Admissible(s.Lane(c), m, s.chunkSize)
    case Turn(c) =>
      c in s.lanes && s.lanes[c].current.Some? && CutAlike(s.chunkSize, s.peer, |s.lanes[c].writer.buf|)
    case Resize(n) =>
      && n >= 1
      && forall c <- s.lanes :: s.lanes[c].current.Some? && s.lanes[c].writer.newChunk ==>
           Clean(s.lanes[c], s.lanes[c].current.value, n)
  }

  /** One chunk of a chunk stream is written. */
  function Turned(s: Sender, c: int): Sender {
    s.(lanes := s.lanes[c := Sent(s.Lane(c), s.chunkSize)])
  }

  /** A turn that finishes a message also tells the reader what is in it. */
  function Step(s: Sender, e: Event): Sender {
    match e
    case Submit(c, m) => s.(lanes := s.lanes[c := Lockstep.Submit(s.Lane(c), m)])
    case Turn(c) =>
      var ch := s.Lane(c);
      if ch.current.Some? && Sent(ch, s.chunkSize).current.None? then
        Turned(s, c).(peer := Told(ch.current.value, s.peer))
      else
        Turned(s, c)
    case Resize(n) => s.(chunkSize := n)
  }

  /** What an event puts on the wire. */
  function Wire(s: Sender, e: Event): seq<byte> {
    if e.Turn? && InRange(s.Lane(e.csid).writer.csid) then SentBytes(s.Lane(e.csid), s.chunkSize) else []
  }

  /** The message an event completes. */
  function Finished(s: Sender, e: Event): seq<Delivery> {
    if !e.Turn? then
      []
    else
      var ch := s.Lane(e.csid);
      if ch.current.Some? && Sent(ch, s.chunkSize).current.None? then [Delivery(e.csid, ch.current.value)] else []
  }

  predicate LegalRun(s: Sender, es: seq<Event>, limit: int)
    decreases |es|
  {
    es == [] || (Legal(s, es[0], limit) && LegalRun(Step(s, es[0]), es[1..], limit))
  }

  function After(s: Sender, es: seq<Event>): Sender
    decreases |es|
  {
    if es == [] then s else After(Step(s, es[0]), es[1..])
  }

  function WireOf(s: Sender, es: seq<Event>): seq<byte>
    decreases |es|
  {
    if es == [] then [] else Wire(s, es[0]) + WireOf(Step(s, es[0]), es[1..])
  }

  function FinishedBy(s: Sender, es: seq<Event>): seq<Delivery>
    decreases |es|
  {
    if es == [] then [] else Finished(s, es[0]) + FinishedBy(Step(s, es[0]), es[1..])
  }

  // ---- what both ends agree on --------------------------------------------------------

  predicate Linked(ch: Channel, r: Reader, size: uint32) {
    match ch.current
    case None => Idle(ch, r)
    case Some(m) =>
      && 1 <= |m.payload| <= MAX_UINT24
      && if ch.writer.newChunk then Waiting(ch, r, m) && Clean(ch, m, size)
         else InFlight(ch, r, m, m.timestamp) && ch.heldMode.Unused? && !ch.virgin
  }

  predicate Synced(s: Sender, d: Demux) {
    && s.chunkSize >= 1 && CutAlike(s.peer, d.chunkSize, MAX_UINT24)
    && d.readers.Keys <= s.lanes.Keys && |s.lanes| <= d.maxStreams
    && forall c <- s.lanes ::
         && 2 <= c <= s.highest && s.lanes[c].writer.csid == c && Linked(s.lanes[c], d.At(c), s.chunkSize)
         && (s.lanes[c].current.Some? ==> Sound(s.lanes[c].current.value))
  }

  /** A sender that was just opened. */
  function FreshSender(config: Config, highest: int): Sender {
    Sender(map[], config.defaultChunkSize, config.defaultChunkSize, highest)
  }

  /** Its reader. */
  function FreshDemux(config: Config): Demux {
    Demux(map[], config.maxChunkStreams, config.defaultChunkSize)
  }

  /** A connection that was just opened with the same settings on both ends. */
  lemma FreshEndsAreSynced(config: Config, highest: int)
    requires config.defaultChunkSize >= 1 && config.maxChunkStreams >= 0
    ensures Synced(FreshSender(config, highest), FreshDemux(config))
  {
  }

  lemma FreshLaneIsIdle(c: int)
    ensures Idle(FreshChannel(c), FRESH_READER)
  {
  }

  lemma FewerKeys<V, W>(a: map<int, V>, b: map<int, W>, c: int)
    requires a.Keys <= b.Keys && c in b && c !in a
    ensures |a| < |b|
  {
    assert a.Keys + {c} <= b.Keys;
    SubsetCount(a.Keys + {c}, b.Keys);
  }

  lemma SentIsDone(ch: Channel, size: uint32)
    ensures Sent(ch, size).current == if Sent(ch, size).writer.buf == [] then None else ch.current
    ensures Sent(ch, size).writer.csid == ch.writer.csid
  {
  }

  lemma HeaderIsShort(ch: Channel, r: Reader, size: uint32)
    requires Linked(ch, r, size) && ch.current.Some?
    ensures var w := UpdateHeader(ch.writer); w.header.messageLength <= MAX_UINT24 && w.csid == ch.writer.csid
    ensures var w := UpdateHeader(ch.writer); w.fmt < 3 || r.mode.Unused?
  {
  }

  /** Until its next chunk a busy lane needs only that both ends cut what is left alike. */
  lemma ReadyIffCutAlike(ch: Channel, d: Demux, size: uint32)
    requires Linked(ch, d.At(ch.writer.csid), size) && ch.current.Some? && d.Room(ch.writer.csid) && size >= 1
    ensures ReadyFor(ch, d, size) <==> Min(size, |ch.writer.buf|) == Min(d.chunkSize, |ch.writer.buf|)
  {
    var m := ch.current.value;
    if ch.writer.newChunk {
      FirstChunk(ch, d, m, size);
    } else {
      assert d.At(ch.writer.csid) != FRESH_READER;
      ContinuationChunk(ch, d, m, m.timestamp, size);
    }
    hide UpdateHeader, ReadyFor, NeedsExtension, Agreement;
  }

  lemma BusyAdvances(ch: Channel, d: Demux, size: uint32)
    requires Linked(ch, d.At(ch.writer.csid), size) && ch.current.Some? && d.Room(ch.writer.csid) && size >= 1
    requires CutAlike(size, d.chunkSize, |ch.writer.buf|)
    ensures var m := ch.current.value;
            var ch' := Sent(ch, size);
            && Advanced(ch', ReceivedFrom(ch, d.At(ch.writer.csid), size), m, m.timestamp)
            && (ch'.writer.buf != [] ==> ch'.heldMode.Unused?)
            && ch'.current == (if ch'.writer.buf == [] then None else ch.current)
            && ch'.writer.csid == ch.writer.csid
  {
    var m := ch.current.value;
    var w := UpdateHeader(ch.writer);
    SentIsDone(ch, size);
    if ch.writer.newChunk {
      FirstChunk(ch, d, m, size);
      FirstHeaders(ch, d.At(ch.writer.csid), m);
      DueIsTimestamp(ch, d.At(ch.writer.csid), m);
      assert w.fmt < 3 && |m.payload| > size ==> Carried(w.fmt, w.header).mode.Unused?;
    } else {
      assert d.At(ch.writer.csid) != FRESH_READER;
      ContinuationChunk(ch, d, m, m.timestamp, size);
    }
    hide UpdateHeader, Due, Carried, Absorb, NeedsExtension, Received, Advanced;
  }

  /** One chunk of a busy lane: the reader takes exactly it, and the lane stays linked. */
  lemma ChunkKeepsLink(ch: Channel, d: Demux, size: uint32, suffix: seq<byte>, slack: nat)
    requires Apart(ch.writer.csid, slack) && Linked(ch, d.At(ch.writer.csid), size) && ch.current.Some?
    requires d.Room(ch.writer.csid) && CutAlike(size, d.chunkSize, |ch.writer.buf|)
    ensures var c := ch.writer.csid;
            var m := ch.current.value;
            var r' := ReceivedFrom(ch, d.At(c), size);
            && ReadChunk(d, SentBytes(ch, size) + suffix, slack) == Chunk(d.(readers := d.readers[c := r']), c, suffix)
            && Sent(ch, size).writer.csid == c
            && Linked(Sent(ch, size), r', size)
            && (r'.completed <==> Sent(ch, size).current.None?)
            && (r'.completed ==> r'.Assembled() == m)
            && (Sent(ch, size).current.Some? ==> Sent(ch, size).current == ch.current)
  {
    var c := ch.writer.csid;
    var m := ch.current.value;
    var w := UpdateHeader(ch.writer);
    ReadyIffCutAlike(ch, d, size);
    BusyAdvances(ch, d, size);
    HeaderIsShort(ch, d.At(c), size);
    hide UpdateHeader, Due, Carried, Absorb, NeedsExtension, ReadChunk, Received;
    ChunkArrives(d, w.fmt, c, w.header, w.buf[..CutSize(w, size)], suffix, slack);
  }

  /** Changing one lane, with or without its reader, leaves the others linked. */
  lemma LaneUpdated(s: Sender, d: Demux, c: int, ch: Channel, d': Demux)
    requires Synced(s, d) && s.Room(c, d.maxStreams)
    requires 2 <= c <= s.highest && ch.writer.csid == c && Linked(ch, d'.At(c), s.chunkSize)
    requires ch.current.Some? ==> Sound(ch.current.value)
    requires d' == d || exists r {:trigger d.readers[c := r]} :: d' == d.(readers := d.readers[c := r])
    ensures Synced(s.(lanes := s.lanes[c := ch]), d')
  {
    hide Linked;
    var s' := s.(lanes := s.lanes[c := ch]);
    assert s'.lanes.Keys == s.lanes.Keys + {c};
    forall k <- s'.lanes | k != c ensures d'.At(k) == d.At(k) {
    }
  }

  lemma RoomForReader(s: Sender, d: Demux, c: int)
    requires Synced(s, d) && s.Room(c, d.maxStreams)
    ensures d.Room(c)
  {
    hide Linked;
    if c !in d.readers && c in s.lanes {
      FewerKeys(d.readers, s.lanes, c);
    } else if c !in d.readers {
      SubsetCount(d.readers.Keys, s.lanes.Keys);
    }
  }

  lemma LaneIsLinked(s: Sender, d: Demux, c: int)
    requires Synced(s, d)
    ensures Linked(s.Lane(c), d.At(c), s.chunkSize) && s.Lane(c).writer.csid == c
  {
    FreshLaneIsIdle(c);
    hide Idle;
  }

  /** Loading an admissible message onto an idle lane. */
  lemma SubmittedIsLinked(ch: Channel, r: Reader, m: Message, size: uint32, size': uint32)
    requires Linked(ch, r, size') && ch.current.None? && Admissible(ch, m, size)
    ensures Linked(Lockstep.Submit(ch, m), r, size) && Lockstep.Submit(ch, m).writer.csid == ch.writer.csid
  {
    hide Clean, UpdateHeader;
    assert [] + m.payload == m.payload;
  }

  lemma SubmitKeepsSync(s: Sender, d: Demux, c: int, m: Message)
    requires Synced(s, d) && Legal(s, Submit(c, m), d.maxStreams)
    ensures Synced(Step(s, Submit(c, m)), d)
  {
    assert Lockstep.Submit(s.Lane(c), m).current == Some(m);
    hide Synced, Linked, Admissible, Lockstep.Submit, Sound;
    LaneIsLinked(s, d, c);
    SubmittedIsLinked(s.Lane(c), d.At(c), m, s.chunkSize, s.chunkSize);
    LaneUpdated(s, d, c, Lockstep.Submit(s.Lane(c), m), d);
  }

  /** Lanes stay linked when the size changes: of what they hold only a message whose first
      chunk is still to come depends on it. */
  lemma ResizeKeepsSync(s: Sender, d: Demux, n: uint32)
    requires Synced(s, d) && Legal(s, Resize(n), d.maxStreams)
    ensures Synced(Step(s, Resize(n)), d)
  {
    hide Idle, Waiting, InFlight, Clean, Sound;
  }

  lemma CutAlikeBoth(a: uint32, b: uint32, c: uint32, n: nat)
    requires CutAlike(b, c, MAX_UINT24) && n <= MAX_UINT24 && a >= 1
    ensures CutAlike(a, b, n) <==> Min(a, n) == Min(c, n)
  {
  }

  lemma BusyLane(s: Sender, d: Demux, c: int)
    requires Synced(s, d) && c in s.lanes && s.lanes[c].current.Some?
    ensures var ch := s.lanes[c];
            && 2 <= c <= s.highest && ch.writer.csid == c && Linked(ch, d.At(c), s.chunkSize) && d.Room(c)
            && |ch.writer.buf| <= MAX_UINT24 && Sound(ch.current.value)
            && (CutAlike(s.chunkSize, s.peer, |ch.writer.buf|)
                <==> Min(s.chunkSize, |ch.writer.buf|) == Min(d.chunkSize, |ch.writer.buf|))
            && s.chunkSize >= 1 && d.chunkSize >= 1
  {
    RoomForReader(s, d, c);
    var ch := s.lanes[c];
    assert Linked(ch, d.At(c), s.chunkSize);
    hide AtRest, Agreement, Clean, Sound;
    assert |ch.writer.buf| <= |ch.current.value.payload|;
    CutAlikeBoth(s.chunkSize, s.peer, d.chunkSize, |ch.writer.buf|);
  }

  lemma TurnKeepsSync(s: Sender, d: Demux, c: int, suffix: seq<byte>, slack: nat)
    requires Synced(s, d) && Legal(s, Turn(c), d.maxStreams) && Apart(s.highest, slack)
    ensures var r' := ReceivedFrom(s.lanes[c], d.At(c), s.chunkSize);
            var d' := d.(readers := d.readers[c := r']);
            && ReadChunk(d, Wire(s, Turn(c)) + suffix, slack) == Chunk(d', c, suffix)
            && Synced(Turned(s, c), d')
            && Finished(s, Turn(c)) == (if r'.completed then [Delivery(c, r'.Assembled())] else [])
    ensures var r' := ReceivedFrom(s.lanes[c], d.At(c), s.chunkSize);
            && (r'.completed <==> Sent(s.lanes[c], s.chunkSize).current.None?)
            && (r'.completed ==> r'.Assembled() == s.lanes[c].current.value && Sound(r'.Assembled()))
  {
    hide Linked, ReadChunk, ReceivedFrom, Sent, SentBytes, Synced, Sound;
    var ch := s.lanes[c];
    BusyLane(s, d, c);
    ChunkKeepsLink(ch, d, s.chunkSize, suffix, slack);
    var r' := ReceivedFrom(ch, d.At(c), s.chunkSize);
    LaneUpdated(s, d, c, Sent(ch, s.chunkSize), d.(readers := d.readers[c := r']));
  }

  /** The condition on a turn is exact: if what is left of the message is not cut alike by the
      size in use and the one the reader was told, the reader does not take the chunk as it
      was written when anything follows it. */
  lemma TurnTakenIff(s: Sender, d: Demux, c: int, suffix: seq<byte>, slack: nat)
    requires Synced(s, d) && c in s.lanes && s.lanes[c].current.Some? && Apart(s.highest, slack) && suffix != []
    ensures ReadChunk(d, Wire(s, Turn(c)) + suffix, slack)
            == Chunk(d.(readers := d.readers[c := ReceivedFrom(s.lanes[c], d.At(c), s.chunkSize)]), c, suffix)
            <==> Legal(s, Turn(c), d.maxStreams)
  {
    var ch := s.lanes[c];
    BusyLane(s, d, c);
    HeaderIsShort(ch, d.At(c), s.chunkSize);
    hide Linked, ReadChunk, Synced, Sound, UpdateHeader, Absorb, Received, ChunkBytes, Carried;
    ReadyIffCutAlike(ch, d, s.chunkSize);
    var w := UpdateHeader(ch.writer);
    TakenIff(d, w.fmt, c, w.header, w.buf[..CutSize(w, s.chunkSize)], suffix, slack);
  }

  /** What the reader makes of a message: one that says a chunk size is obeyed, cut to 24 bits,
      and ends the connection if it is too short, or the size is 0, above 31 bits or beyond the
      limit; all others leave the reader as it is. */
  lemma ReactLaw(d: Demux, config: Config, m: Message)
    ensures m.typeID != 1 ==> React(d, config, m) == Some(d)
    ensures m.typeID == 1 && |m.payload| < 4 ==> React(d, config, m) == None
    ensures m.typeID == 1 && |m.payload| >= 4 ==>
              var n := U32(m.payload[..4]);
              React(d, config, m)
              == if 1 <= n <= 0x7fff_ffff && (n <= config.maxChunkSize || 0xff_ffff <= config.maxChunkSize) then
                   Some(d.(chunkSize := if n <= 0xff_ffff then n else 0xff_ffff))
                 else None
  {
    if m.typeID == 1 && |m.payload| >= 4 {
      AcceptedIff(U32(m.payload[..4]), 0, config);
    }
    hide U32, AcceptChunkSize;
  }

  /** The reader obeys a sound message, and is clamped where it does not show. */
  lemma SoundIsObeyed(d: Demux, config: Config, m: Message)
    requires Sound(m) && config.maxChunkSize >= MAX_UINT24
    ensures React(d, config, m)
            == Some(if m.typeID == SET_CHUNK_SIZE then d.(chunkSize := Min(U32(m.payload), MAX_UINT24)) else d)
  {
    hide React;
    ReactLaw(d, config, m);
    assert m.typeID == SET_CHUNK_SIZE ==> m.payload[..4] == m.payload;
  }

  lemma OneChunkSuffices(ch: Channel, m: Message, size: uint32)
    requires ch.writer.buf == [] && |m.payload| <= size
    ensures Lockstep.Submit(ch, m).writer.buf == m.payload && Lockstep.Submit(ch, m).current == Some(m)
    ensures Sent(Lockstep.Submit(ch, m), size).current.None?
  {
  }

  /** What is told and obeyed keeps both ends in step. */
  lemma ToldKeepsSync(s: Sender, d: Demux, m: Message)
    requires Synced(s, d) && Sound(m)
    ensures Synced(s.(peer := Told(m, s.peer)),
                   if m.typeID == SET_CHUNK_SIZE then d.(chunkSize := Min(U32(m.payload), MAX_UINT24)) else d)
  {
    hide Linked, U32;
  }

  /** What follows on the wire once a chunk has been taken off it. */
  function Continue(d: Demux, config: Config, c: int, tail: seq<byte>, slack: nat -> nat)
    : (seq<Delivery>, Option<Demux>)
    requires c in d.readers
  {
    if !d.readers[c].completed then
      ReadAll(d, config, tail, slack)
    else
      var m := d.readers[c].Assembled();
      match React(d, config, m)
      case None => ([Delivery(c, m)], None)
      case Some(d2) =>
        var later := ReadAll(d2, config, tail, slack);
        ([Delivery(c, m)] + later.0, later.1)
  }

  lemma ReadAllContinues(d: Demux, config: Config, all: seq<byte>, d': Demux, c: int, tail: seq<byte>,
                         slack: nat -> nat)
    requires ReadChunk(d, all, slack(|all|)) == Chunk(d', c, tail)
    ensures c in d'.readers && ReadAll(d, config, all, slack) == Continue(d', config, c, tail, slack)
  {
    hide React;
  }

  lemma TurnedKeepsPeer(s: Sender, c: int)
    ensures Turned(s, c).peer == s.peer
  {
  }

  lemma TurnTransported(s: Sender, d: Demux, config: Config, c: int, tail: seq<byte>, slack: nat -> nat)
    returns (d': Demux)
    requires Synced(s, d) && Legal(s, Turn(c), d.maxStreams) && config.maxChunkSize >= MAX_UINT24
    requires forall n :: Apart(s.highest, slack(n))
    ensures Synced(Step(s, Turn(c)), d') && d'.maxStreams == d.maxStreams
    ensures ReadAll(d, config, Wire(s, Turn(c)) + tail, slack)
            == (Finished(s, Turn(c)) + ReadAll(d', config, tail, slack).0, ReadAll(d', config, tail, slack).1)
  {
    var all := Wire(s, Turn(c)) + tail;
    var ch := s.lanes[c];
    hide ReadChunk, ReceivedFrom, Synced, Finished, Wire, ReadAll, React, Told, Sound, Sent, Turned, Apart, CutAlike;
    TurnKeepsSync(s, d, c, tail, slack(|all|));
    var d1 := d.(readers := d.readers[c := ReceivedFrom(ch, d.At(c), s.chunkSize)]);
    ReadAllContinues(d, config, all, d1, c, tail, slack);
    if d1.readers[c].completed {
      var m := ch.current.value;
      SoundIsObeyed(d1, config, m);
      TurnedKeepsPeer(s, c);
      ToldKeepsSync(Turned(s, c), d1, m);
      d' := React(d1, config, m).value;
    } else {
      d' := d1;
      assert [] + ReadAll(d', config, tail, slack).0 == ReadAll(d', config, tail, slack).0;
    }
  }

  /** Other events put nothing on the wire. */
  lemma QuietWire(s: Sender, e: Event)
    requires !e.Turn?
    ensures Wire(s, e) == [] && Finished(s, e) == []
  {
  }

  lemma QuietEvent(s: Sender, d: Demux, config: Config, e: Event, tail: seq<byte>, slack: nat -> nat)
    requires !e.Turn?
    ensures ReadAll(d, config, Wire(s, e) + tail, slack)
            == (Finished(s, e) + ReadAll(d, config, tail, slack).0, ReadAll(d, config, tail, slack).1)
  {
    hide ReadAll, Wire, Finished;
    QuietWire(s, e);
    assert [] + tail == tail;
    assert [] + ReadAll(d, config, tail, slack).0 == ReadAll(d, config, tail, slack).0;
  }

  /** One event: the reader consumes what it put on the wire, delivers what it finished. */
  lemma EventTransported(s: Sender, d: Demux, config: Config, e: Event, tail: seq<byte>, slack: nat -> nat)
    returns (d': Demux)
    requires Synced(s, d) && Legal(s, e, d.maxStreams) && config.maxChunkSize >= MAX_UINT24
    requires forall n :: Apart(s.highest, slack(n))
    ensures Synced(Step(s, e), d') && d'.maxStreams == d.maxStreams
    ensures ReadAll(d, config, Wire(s, e) + tail, slack)
            == (Finished(s, e) + ReadAll(d', config, tail, slack).0, ReadAll(d', config, tail, slack).1)
  {
    hide Synced, Step, ReadAll, Apart, Legal, Wire, Finished;
    if e.Turn? {
      d' := TurnTransported(s, d, config, e.csid, tail, slack);
    } else {
      d' := d;
      QuietEvent(s, d, config, e, tail, slack);
      if e.Submit? {
        SubmitKeepsSync(s, d, e.csid, e.message);
      } else {
        ResizeKeepsSync(s, d, e.size);
      }
    }
  }

  lemma StepKeepsHighest(s: Sender, e: Event)
    ensures Step(s, e).highest == s.highest
  {
  }

  /** Transport: whatever the legal interleaving, the reader at the other end of the wire
      delivers exactly the messages that were finished, with their chunk stream, timestamp,
      type, stream ID and payload, in the order they were finished, and stays in step. */
  lemma {:induction false} Transported(s: Sender, d: Demux, config: Config, es: seq<Event>, slack: nat -> nat)
    requires Synced(s, d) && LegalRun(s, es, d.maxStreams) && config.maxChunkSize >= MAX_UINT24
    requires forall n :: Apart(s.highest, slack(n))
    ensures var (deliveries, end) := ReadAll(d, config, WireOf(s, es), slack);
            deliveries == FinishedBy(s, es) && end.Some? && Synced(After(s, es), end.value)
    decreases |es|
  {
    hide Synced, Legal, Step, Wire, Finished, ReadChunk, React, Apart;
    if es != [] {
      StepKeepsHighest(s, es[0]);
      var d' := EventTransported(s, d, config, es[0], WireOf(Step(s, es[0]), es[1..]), slack);
      Transported(Step(s, es[0]), d', config, es[1..], slack);
    }
  }

  // ---- in order, on every chunk stream ------------------------------------------------

  /** What was asked to be sent on one chunk stream. */
  function Requested(es: seq<Event>, c: int): seq<Message> {
    if es == [] then
      []
    else
      (match es[0]
       case Submit(k, m) => if k == c then [m] else []
       case _ => []) + Requested(es[1..], c)
  }

  function On(ds: seq<Delivery>, c: int): seq<Message> {
    if ds == [] then [] else (if ds[0].csid == c then [ds[0].message] else []) + On(ds[1..], c)
  }

  function Pending(s: Sender, c: int): seq<Message> {
    var ch := s.Lane(c);
    if ch.current.Some? then [ch.current.value] else []
  }

  lemma {:induction false} OnDistributes(a: seq<Delivery>, b: seq<Delivery>, c: int)
    ensures On(a + b, c) == On(a, c) + On(b, c)
  {
    if a == [] {
      assert a + b == b;
    } else {
      var x := if a[0].csid == c then [a[0].message] else [];
      var p, q, r := On(a[1..], c), On(b, c), On(a[1..] + b, c);
      assert (a + b)[0] == a[0] && (a + b)[1..] == a[1..] + b;
      assert On(a, c) == x + p && On(a + b, c) == x + r;
      OnDistributes(a[1..], b, c);
      hide On;
      assert x + (p + q) == (x + p) + q;
    }
  }

  /** Lanes are kept under their own ID, and one with nothing to send has nothing buffered. */
  predicate Orderly(s: Sender) {
    forall k <- s.lanes ::
      s.lanes[k].writer.csid == k && (s.lanes[k].current.None? ==> s.lanes[k].writer.buf == [])
  }

  lemma NothingHappens(s: Sender, c: int)
    ensures Pending(s, c) + Requested([], c) == On(FinishedBy(s, []), c) + Pending(After(s, []), c)
  {
  }

  lemma FirstEvent(s: Sender, es: seq<Event>, limit: int, c: int)
    requires es != [] && LegalRun(s, es, limit)
    ensures Legal(s, es[0], limit) && LegalRun(Step(s, es[0]), es[1..], limit)
    ensures Requested(es, c) == Requested([es[0]], c) + Requested(es[1..], c)
    ensures FinishedBy(s, es) == Finished(s, es[0]) + FinishedBy(Step(s, es[0]), es[1..])
    ensures After(s, es) == After(Step(s, es[0]), es[1..])
  {
    hide Legal, Step, Finished;
    assert [es[0]][1..] == [];
    assert Requested([], c) == [];
  }

  lemma Regroup<T>(p: seq<T>, r: seq<T>, rs: seq<T>, f: seq<T>, q: seq<T>, fs: seq<T>, last: seq<T>)
    requires p + r == f + q && q + rs == fs + last
    ensures p + (r + rs) == (f + fs) + last
  {
    assert p + (r + rs) == (p + r) + rs;
    assert (f + q) + rs == f + (q + rs);
    assert f + (fs + last) == (f + fs) + last;
  }

  lemma OnOne(d: Delivery, c: int)
    ensures On([d], c) == if d.csid == c then [d.message] else []
  {
    assert [d][1..] == [];
  }

  lemma SwitchIsShort(n: uint32)
    ensures |SwitchMessage(n).payload| == 4
  {
  }

  lemma EventConserves(s: Sender, e: Event, limit: int, c: int)
    requires Legal(s, e, limit) && Orderly(s)
    ensures Pending(s, c) + Requested([e], c) == On(Finished(s, e), c) + Pending(Step(s, e), c)
    ensures Orderly(Step(s, e))
  {
    hide Admissible, Clean, Sound, Told;
    assert [e][1..] == [];
    if e.Turn? {
      OnOne(Delivery(e.csid, s.lanes[e.csid].current.value), c);
    }
  }

  /** Conservation on every chunk stream: what was being sent, then what was requested, is
      what was delivered, then what is still being sent. Nothing is lost, doubled or
      reordered. */
  lemma {:induction false} DeliveredInOrder(s: Sender, es: seq<Event>, limit: int, c: int)
    requires LegalRun(s, es, limit) && Orderly(s)
    ensures Pending(s, c) + Requested(es, c) == On(FinishedBy(s, es), c) + Pending(After(s, es), c)
    decreases |es|
  {
    hide *;
    if es == [] {
      NothingHappens(s, c);
    } else {
      var e, s' := es[0], Step(s, es[0]);
      FirstEvent(s, es, limit, c);
      EventConserves(s, e, limit, c);
      DeliveredInOrder(s', es[1..], limit, c);
      OnDistributes(Finished(s, e), FinishedBy(s', es[1..]), c);
      Regroup(Pending(s, c), Requested([e], c), Requested(es[1..], c), On(Finished(s, e), c), Pending(s', c),
              On(FinishedBy(s', es[1..]), c), Pending(After(s', es[1..]), c));
    }
  }
}
