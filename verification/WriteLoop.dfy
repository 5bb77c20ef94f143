/** The write loop left to itself (chunk_streamer.go): it takes writers from a queue, writes
    one chunk of each, and puts those that are not done back at the end. */
module WriteLoop {
  import opened Bytes
  import opened ChunkHeader
  import opened ChunkStream
  import opened Lockstep
  import opened ControlState
  import opened Transport

  /** Bytes still to be written, and one turn at least for every writer. */
  function Load(q: seq<Writer>): nat {
    if q == [] then 0 else |q[0].buf| + 1 + Load(q[1..])
  }

  lemma {:induction false} LoadAppends(q: seq<Writer>, w: Writer)
    ensures Load(q + [w]) == Load(q) + |w.buf| + 1
  {
    if q == [] {
      assert [] + [w] == [w] && [w][1..] == [];
    } else {
      assert (q + [w])[0] == q[0] && (q + [w])[1..] == q[1..] + [w];
      LoadAppends(q[1..], w);
    }
  }

  /** The queue after the writer at its head had its turn. */
  function NextQueue(q: seq<Writer>, size: uint32): seq<Writer>
    requires q != [] && WriteChunk(q[0], size).Written?
  {
    var res := WriteChunk(q[0], size);
    q[1..] + if res.completed then [] else [res.writer]
  }

  lemma TurnShortens(w: Writer, size: uint32)
    requires WriteChunk(w, size).Written? && size >= 1
    ensures WriteChunk(w, size).completed || |WriteChunk(w, size).writer.buf| < |w.buf|
  {
    hide EncodeBasicHeader, EncodeMessageHeader;
  }

  lemma LoadDrops(q: seq<Writer>, size: uint32)
    requires q != [] && WriteChunk(q[0], size).Written? && size >= 1
    ensures Load(NextQueue(q, size)) < Load(q)
  {
    TurnShortens(q[0], size);
    hide WriteChunk;
    LoadAppends(q[1..], WriteChunk(q[0], size).writer);
    assert q[1..] + [] == q[1..];
  }

  /** What the loop writes until its queue is empty, or until a header cannot be written. */
  function LoopBytes(q: seq<Writer>, size: uint32): seq<byte>
    requires size >= 1
    decreases Load(q)
  {
    if q == [] || WriteChunk(q[0], size).OutOfRange? then
      []
    else
      LoadDrops(q, size);
      WriteChunk(q[0], size).bytes + LoopBytes(NextQueue(q, size), size)
  }

  /** A queue whose head moved to the end with a new value, or out, and whose other members
      kept theirs: what was written and what is still to come make up the same bytes. */
  lemma AfterTurn(was: seq<Writer>, now: seq<Writer>, out: seq<byte>, size: uint32)
    requires was != [] && size >= 1 && WriteChunk(was[0], size).Written?
    requires var res := WriteChunk(was[0], size);
             && |now| == |was| - (if res.completed then 1 else 0)
             && (!res.completed ==> now[|was| - 1] == res.writer)
    requires forall i :: 0 <= i < |was| - 1 ==> now[i] == was[i + 1]
    ensures now == NextQueue(was, size) && Load(now) < Load(was)
    ensures (out + WriteChunk(was[0], size).bytes) + LoopBytes(now, size) == out + LoopBytes(was, size)
  {
    hide WriteChunk;
    assert now == NextQueue(was, size);
    LoadDrops(was, size);
    var b, rest := WriteChunk(was[0], size).bytes, LoopBytes(now, size);
    assert (out + b) + rest == out + (b + rest);
  }

  lemma NothingWritten(was: seq<Writer>, out: seq<byte>, size: uint32)
    requires size >= 1 && (was == [] || WriteChunk(was[0], size).OutOfRange?)
    ensures out + LoopBytes(was, size) == out
  {
    hide WriteChunk;
    assert out + [] == out;
  }

  // ---- round robin --------------------------------------------------------------------

  predicate AllWrite(q: seq<Writer>, size: uint32) {
    forall w <- q :: WriteChunk(w, size).Written?
  }

  /** One chunk of every writer, in the order of the queue. */
  function OneChunkEach(q: seq<Writer>, size: uint32): seq<byte>
    requires AllWrite(q, size)
  {
    if q == [] then [] else WriteChunk(q[0], size).bytes + OneChunkEach(q[1..], size)
  }

  /** The writers that are not done after that chunk, in the same order. */
  function NotDone(q: seq<Writer>, size: uint32): seq<Writer>
    requires AllWrite(q, size)
  {
    if q == [] then []
    else (if WriteChunk(q[0], size).completed then [] else [WriteChunk(q[0], size).writer]) + NotDone(q[1..], size)
  }

  lemma FirstServed(q: seq<Writer>, t: seq<Writer>, size: uint32, back: seq<Writer>)
    requires size >= 1 && q != [] && WriteChunk(q[0], size).Written?
    requires back == if WriteChunk(q[0], size).completed then [] else [WriteChunk(q[0], size).writer]
    ensures LoopBytes(q + t, size) == WriteChunk(q[0], size).bytes + LoopBytes(q[1..] + (t + back), size)
  {
    hide WriteChunk;
    assert (q + t)[0] == q[0] && (q + t)[1..] + back == q[1..] + (t + back);
  }

  lemma {:induction false} PartOfARound(q: seq<Writer>, t: seq<Writer>, size: uint32)
    requires size >= 1 && AllWrite(q, size)
    ensures LoopBytes(q + t, size) == OneChunkEach(q, size) + LoopBytes(t + NotDone(q, size), size)
    decreases |q|
  {
    hide WriteChunk, LoopBytes;
    if q == [] {
      assert [] + t == t && t + [] == t && [] + LoopBytes(t, size) == LoopBytes(t, size);
    } else {
      var res := WriteChunk(q[0], size);
      var back := if res.completed then [] else [res.writer];
      assert AllWrite(q[1..], size);
      FirstServed(q, t, size, back);
      PartOfARound(q[1..], t + back, size);
      assert (t + back) + NotDone(q[1..], size) == t + (back + NotDone(q[1..], size));
      var more := LoopBytes(t + NotDone(q, size), size);
      assert res.bytes + (OneChunkEach(q[1..], size) + more) == (res.bytes + OneChunkEach(q[1..], size)) + more;
    }
  }

  /** The loop serves its writers in rounds: one chunk of each in the order of the queue, and
      then the same with those that have more to write. */
  lemma RoundRobin(q: seq<Writer>, size: uint32)
    requires size >= 1 && AllWrite(q, size)
    ensures LoopBytes(q, size) == OneChunkEach(q, size) + LoopBytes(NotDone(q, size), size)
  {
    hide *;
    PartOfARound(q, [], size);
    assert q + [] == q && [] + NotDone(q, size) == NotDone(q, size);
  }

  // ---- the loop's turns as events -----------------------------------------------------

  /** The queue names busy lanes, each once. */
  predicate Queued(q: seq<int>, s: Sender) {
    && (forall i, j :: 0 <= i < j < |q| ==> q[i] != q[j])
    && forall i :: 0 <= i < |q| ==>
         q[i] in s.lanes && s.lanes[q[i]].current.Some? && s.lanes[q[i]].writer.csid == q[i] && InRange(q[i])
  }

  function WritersOf(q: seq<int>, s: Sender): (ws: seq<Writer>)
    requires Queued(q, s)
    ensures |ws| == |q| && forall i :: 0 <= i < |q| ==> ws[i] == s.lanes[q[i]].writer
  {
    seq(|q|, i requires 0 <= i < |q| => s.lanes[q[i]].writer)
  }

  function Requeue(q: seq<int>, s: Sender): seq<int>
    requires q != [] && Queued(q, s)
  {
    q[1..] + if Sent(s.lanes[q[0]], s.chunkSize).current.None? then [] else [q[0]]
  }

  /** What a turn of a busy lane writes, and what its writer is afterwards. */
  lemma TurnWrites(s: Sender, c: int)
    requires c in s.lanes && InRange(c) && s.lanes[c].writer.csid == c && s.lanes[c].current.Some?
    ensures WriteChunk(s.lanes[c].writer, s.chunkSize)
            == Written(Step(s, Turn(c)).lanes[c].writer, Wire(s, Turn(c)), Step(s, Turn(c)).lanes[c].current.None?)
    ensures var ch' := Step(s, Turn(c)).lanes[c];
            && ch' == Sent(s.lanes[c], s.chunkSize) && ch'.writer.csid == c
            && Step(s, Turn(c)).lanes == s.lanes[c := ch']
  {
    SentIsWriteChunk(s.lanes[c], s.chunkSize);
    SentIsDone(s.lanes[c], s.chunkSize);
    hide Sent, SentBytes, WriteChunk, Told;
  }

  lemma TurnKeepsQueue(q: seq<int>, s: Sender)
    requires q != [] && Queued(q, s)
    ensures Queued(Requeue(q, s), Step(s, Turn(q[0])))
    ensures WriteChunk(s.lanes[q[0]].writer, s.chunkSize).Written?
    ensures WriteChunk(s.lanes[q[0]].writer, s.chunkSize).bytes == Wire(s, Turn(q[0]))
    ensures WritersOf(Requeue(q, s), Step(s, Turn(q[0]))) == NextQueue(WritersOf(q, s), s.chunkSize)
  {
    hide Sent, WriteChunk, Step, Wire;
    var c := q[0];
    assert c in q && forall k <- q[1..] :: k in q && k != c;
    TurnWrites(s, c);
    var s' := Step(s, Turn(c));
    assert forall k <- q[1..] :: s'.lanes[k] == s.lanes[k];
  }

  function Turns(q: seq<int>, s: Sender): seq<Event>
    requires Queued(q, s) && s.chunkSize >= 1
    decreases Load(WritersOf(q, s))
  {
    if q == [] then
      []
    else
      TurnKeepsQueue(q, s);
      LoadDrops(WritersOf(q, s), s.chunkSize);
      [Turn(q[0])] + Turns(Requeue(q, s), Step(s, Turn(q[0])))
  }

  /** No change of the chunk size is under way: the reader was told of the size in use, or of
      one that cuts alike, and no message still to be sent tells it another. */
  predicate Settled(s: Sender) {
    && CutAlike(s.chunkSize, s.peer, MAX_UINT24)
    && forall c <- s.lanes :: s.lanes[c].current.Some? ==>
         && |s.lanes[c].writer.buf| <= MAX_UINT24
         && CutAlike(s.chunkSize, Told(s.lanes[c].current.value, s.peer), MAX_UINT24)
  }

  lemma TurnStaysSettled(s: Sender, c: int, limit: int)
    requires Settled(s) && c in s.lanes && s.lanes[c].current.Some?
    ensures Legal(s, Turn(c), limit) && Settled(Step(s, Turn(c))) && Step(s, Turn(c)).chunkSize == s.chunkSize
  {
    SentIsDone(s.lanes[c], s.chunkSize);
    assert |Sent(s.lanes[c], s.chunkSize).writer.buf| <= |s.lanes[c].writer.buf|;
    hide Sent;
  }

  /** Every busy lane is in the queue. */
  predicate AllQueued(q: seq<int>, s: Sender) {
    forall c <- s.lanes :: s.lanes[c].current.Some? ==> c in q
  }

  lemma StillAllQueued(q: seq<int>, s: Sender)
    requires q != [] && Queued(q, s) && AllQueued(q, s)
    ensures AllQueued(Requeue(q, s), Step(s, Turn(q[0])))
  {
    hide Sent;
    var s' := Step(s, Turn(q[0]));
    forall c <- s'.lanes | s'.lanes[c].current.Some? ensures c in Requeue(q, s) {
      if c != q[0] {
        assert c in q && c in q[1..];
      }
    }
  }

  /** The loop's turns are a legal run, they are what the loop writes, and when they are over
      no lane is busy. */
  lemma {:induction false} TurnsAreRun(q: seq<int>, s: Sender, limit: int)
    requires Queued(q, s) && AllQueued(q, s) && Settled(s)
    ensures var es := Turns(q, s);
            && LegalRun(s, es, limit) && WireOf(s, es) == LoopBytes(WritersOf(q, s), s.chunkSize)
            && After(s, es).AllIdle() && forall c :: Requested(es, c) == []
    decreases Load(WritersOf(q, s))
  {
    if q == [] {
      assert WritersOf(q, s) == [];
    } else {
      var e, s', q' := Turn(q[0]), Step(s, Turn(q[0])), Requeue(q, s);
      assert q[0] in q;
      TurnStaysSettled(s, q[0], limit);
      TurnKeepsQueue(q, s);
      LoadDrops(WritersOf(q, s), s.chunkSize);
      StillAllQueued(q, s);
      TurnsAreRun(q', s', limit);
      var rest := Turns(q', s');
      var es := Turns(q, s);
      assert es == [e] + rest && es[0] == e && es[1..] == rest;
      hide Legal, Step, Requeue, Wire, WriteChunk, NextQueue, WritersOf;
      forall c ensures Requested(es, c) == [] {
        assert Requested(es, c) == [] + Requested(rest, c);
      }
    }
  }

  lemma SyncedIsOrderly(s: Sender, d: Demux)
    requires Synced(s, d)
    ensures Orderly(s)
  {
    hide AtRest, Waiting, InFlight, Clean;
  }

  lemma PendingWhenIdle(s: Sender, c: int)
    requires s.AllIdle()
    ensures Pending(s, c) == []
  {
  }

  lemma PendingWhenQueued(q: seq<int>, s: Sender, c: int)
    requires Queued(q, s) && AllQueued(q, s)
    ensures Pending(s, c) == if c in q then [s.lanes[c].current.value] else []
  {
  }

  /** What the loop's turns finish is what was pending. */
  lemma TurnsFinish(q: seq<int>, s: Sender, limit: int, c: int)
    requires Queued(q, s) && AllQueued(q, s) && Settled(s) && Orderly(s)
    ensures On(FinishedBy(s, Turns(q, s)), c) == if c in q then [s.lanes[c].current.value] else []
  {
    hide Turns, LoopBytes, WritersOf, FinishedBy, After, LegalRun, WireOf, Requested, On, Orderly, AllQueued, Pending;
    var es := Turns(q, s);
    TurnsAreRun(q, s, limit);
    PendingWhenQueued(q, s, c);
    DeliveredInOrder(s, es, limit, c);
    PendingWhenIdle(After(s, es), c);
    var ms := On(FinishedBy(s, es), c);
    assert Pending(s, c) + [] == Pending(s, c) && ms + [] == ms;
  }

  /** Left to itself the loop sends every queued message: the reader at the other end makes
      of the bytes exactly one message for every busy chunk stream, the one that was being
      sent there, and none for any other. */
  lemma LoopDelivers(s: Sender, d: Demux, config: Config, q: seq<int>, slack: nat -> nat)
    requires Synced(s, d) && Queued(q, s) && AllQueued(q, s) && Settled(s) && config.maxChunkSize >= MAX_UINT24
    requires forall n :: Apart(s.highest, slack(n))
    ensures var (deliveries, end) := ReadAll(d, config, LoopBytes(WritersOf(q, s), s.chunkSize), slack);
            && end.Some?
            && forall c :: On(deliveries, c) == if c in q then [s.lanes[c].current.value] else []
  {
    hide Synced, LegalRun, WireOf, LoopBytes, ReadAll, FinishedBy, Requested, After, On, Turns, WritersOf, Orderly,
         AllQueued, Apart;
    SyncedIsOrderly(s, d);
    var es := Turns(q, s);
    TurnsAreRun(q, s, d.maxStreams);
    Transported(s, d, config, es, slack);
    forall c ensures On(FinishedBy(s, es), c) == if c in q then [s.lanes[c].current.value] else [] {
      TurnsFinish(q, s, d.maxStreams, c);
    }
  }
}
