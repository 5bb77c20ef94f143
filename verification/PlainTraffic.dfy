/** Ordinary traffic from end to end: conditions on the messages alone under which every run
    is legal, so that everything sent is delivered. */
module PlainTraffic {
  import opened Bytes
  import opened ChunkHeader
  import opened ChunkStream
  import opened ControlState
  import opened Formats
  import opened Lockstep
  import opened Transport

  /** When an event may happen: as `Transport.Legal` has it, with a condition on the message
      in place of the sender's record of the reader, and none on a new chunk size. */
  predicate PlainLegal(s: Sender, e: Event, limit: int) {
    match e
    case Submit(c, m) =>
      && 2 <= c <= s.highest && s.Room(c, limit)
      && s.Lane(c).current.None? && Sound(m) && PlainMessage(s.Lane(c), m)
    case Turn(c) =>
      c in s.lanes && s.lanes[c].current.Some? && CutAlike(s.chunkSize, s.peer, |s.lanes[c].writer.buf|)
    case Resize(n) => n >= 1
  }

  predicate PlainRun(s: Sender, es: seq<Event>, limit: int)
    decreases |es|
  {
    es == [] || (PlainLegal(s, es[0], limit) && PlainRun(Step(s, es[0]), es[1..], limit))
  }

  /** A lane on which only plain messages were sent, and a plain one is loaded if any. */
  predicate PlainSoFar(ch: Channel) {
    PlainLane(ch) && (ch.current.Some? && ch.writer.newChunk ==> PlainMessage(ch, ch.current.value))
  }

  predicate AllPlain(s: Sender) {
    forall c <- s.lanes :: PlainSoFar(s.lanes[c])
  }

  lemma LaneIsPlain(s: Sender, c: int)
    requires AllPlain(s)
    ensures PlainSoFar(s.Lane(c))
  {
  }

  /** A switch message is plain on any lane. */
  lemma SwitchIsPlain(ch: Channel, n: uint32)
    requires 1 <= n <= 0x7fff_ffff
    ensures PlainMessage(ch, SwitchMessage(n)) && Sound(SwitchMessage(n))
  {
    BE32RoundTrip(n);
  }

  /** An idle linked lane takes a plain message. */
  lemma PlainFits(ch: Channel, r: Reader, m: Message, size: uint32, size': uint32)
    requires Linked(ch, r, size') && ch.current.None? && PlainSoFar(ch) && PlainMessage(ch, m)
    ensures Admissible(ch, m, size) && PlainSoFar(Lockstep.Submit(ch, m))
  {
    hide UpdateHeader, Admissible;
    PlainIsAdmissible(ch, r, m, size);
  }

  lemma PlainStaysClean(ch: Channel, r: Reader, n: uint32, size: uint32)
    requires Linked(ch, r, size) && PlainSoFar(ch) && ch.current.Some? && ch.writer.newChunk
    ensures Clean(ch, ch.current.value, n)
  {
    hide Waiting, PlainMessage, Clean;
    LoadedStaysPlain(ch, r, ch.current.value, n);
  }

  lemma PlainIsLegal(s: Sender, d: Demux, e: Event)
    requires Synced(s, d) && AllPlain(s) && PlainLegal(s, e, d.maxStreams)
    ensures Legal(s, e, d.maxStreams)
  {
    hide Synced, Linked, Admissible, PlainMessage, PlainSoFar, Clean, Sound;
    match e {
      case Submit(c, m) =>
        LaneIsLinked(s, d, c);
        LaneIsPlain(s, c);
        PlainFits(s.Lane(c), d.At(c), m, s.chunkSize, s.chunkSize);
      case Turn(c) =>
      case Resize(n) =>
        forall c <- s.lanes | s.lanes[c].current.Some? && s.lanes[c].writer.newChunk
          ensures Clean(s.lanes[c], s.lanes[c].current.value, n)
        {
          LaneIsLinked(s, d, c);
          PlainStaysClean(s.lanes[c], d.At(c), n, s.chunkSize);
        }
    }
  }

  /** A chunk of a lane with plain traffic leaves it so. */
  lemma SentStaysPlain(ch: Channel, r: Reader, size: uint32, size': uint32)
    requires Linked(ch, r, size') && ch.current.Some? && PlainSoFar(ch)
    ensures PlainSoFar(Sent(ch, size))
  {
    var m := ch.current.value;
    if ch.writer.newChunk {
      LoadedStaysPlain(ch, r, m, size);
    } else {
      ContinuationStaysPlain(ch, r, m, m.timestamp, size);
    }
    assert !Sent(ch, size).writer.newChunk;
    hide UpdateHeader, PlainLane, Waiting, InFlight;
  }

  lemma PlainStaysPlain(s: Sender, d: Demux, e: Event)
    requires Synced(s, d) && AllPlain(s) && PlainLegal(s, e, d.maxStreams)
    ensures AllPlain(Step(s, e))
  {
    match e {
      case Submit(c, m) =>
        hide Linked, PlainMessage, Synced, Admissible, PlainSoFar, Lockstep.Submit, Sound;
        LaneIsLinked(s, d, c);
        LaneIsPlain(s, c);
        PlainFits(s.Lane(c), d.At(c), m, s.chunkSize, s.chunkSize);
      case Turn(c) =>
        hide Linked, PlainSoFar, Synced, Sent, Told;
        LaneIsLinked(s, d, c);
        SentStaysPlain(s.lanes[c], d.At(c), s.chunkSize, s.chunkSize);
      case Resize(n) =>
    }
  }

  /** Plain runs are legal: the sender need not keep a record of its reader. */
  lemma {:induction false} PlainRunIsLegal(s: Sender, d: Demux, es: seq<Event>)
    requires Synced(s, d) && AllPlain(s) && PlainRun(s, es, d.maxStreams) && InRange(s.highest)
    ensures LegalRun(s, es, d.maxStreams)
    decreases |es|
  {
    hide Synced, AllPlain, PlainLegal, Legal, Step;
    if es != [] {
      PlainIsLegal(s, d, es[0]);
      PlainStaysPlain(s, d, es[0]);
      StepKeepsHighest(s, es[0]);
      var d' := EventTransported(s, d, Normalize(UNSET), es[0], [], _ => 0);
      PlainRunIsLegal(Step(s, es[0]), d', es[1..]);
    }
  }

  lemma FreshIsPlain(s: Sender)
    requires s.lanes == map[]
    ensures AllPlain(s) && Orderly(s) && forall c :: Pending(s, c) == []
  {
  }

  lemma AllFinishedOrPending(s: Sender, es: seq<Event>, limit: int)
    requires LegalRun(s, es, limit) && Orderly(s) && forall c :: Pending(s, c) == []
    ensures forall c :: Requested(es, c) == On(FinishedBy(s, es), c) + Pending(After(s, es), c)
  {
    hide *;
    forall c ensures Requested(es, c) == On(FinishedBy(s, es), c) + Pending(After(s, es), c) {
      DeliveredInOrder(s, es, limit, c);
      assert [] + Requested(es, c) == Requested(es, c);
    }
  }

  /** Ordinary traffic is delivered: between two ends opened with the same settings, whatever
      plain messages are sent on however many chunk streams, in whatever order the scheduler
      takes them, and however the chunk size is switched, the reader delivers exactly the
      finished messages, and on every chunk stream what was requested, in order, up to the
      message that is still being sent. */
  lemma PlainTrafficDelivered(config: Config, highest: int, es: seq<Event>, slack: nat -> nat)
    requires config.defaultChunkSize >= 1 && config.maxChunkStreams >= 0 && config.maxChunkSize >= MAX_UINT24
    requires PlainRun(FreshSender(config, highest), es, config.maxChunkStreams)
    requires forall n :: Apart(highest, slack(n))
    ensures var s := FreshSender(config, highest);
            var d := FreshDemux(config);
            var (deliveries, end) := ReadAll(d, config, WireOf(s, es), slack);
            && deliveries == FinishedBy(s, es) && end.Some?
            && forall c :: Requested(es, c) == On(deliveries, c) + Pending(After(s, es), c)
  {
    var s := FreshSender(config, highest);
    var d := FreshDemux(config);
    FreshEndsAreSynced(config, highest);
    FreshIsPlain(s);
    assert Apart(highest, slack(0));
    hide *;
    PlainRunIsLegal(s, d, es);
    Transported(s, d, config, es, slack);
    AllFinishedOrPending(s, es, d.maxStreams);
  }
}
