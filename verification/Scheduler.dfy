/** Producers, writers and the write loop as a machine of atomic channel steps
    (chunk_stream_writer.go, chunk_streamer.go): who holds a writer, how `doneCh` is closed
    and replaced, and how the loop feeds its own bounded queue. */
module Scheduler {
  import opened Collections

  /** The capacity of the channel the loop both reads and writes. */
  const CAPACITY := 64

  /** A writer: is its current `doneCh` still open, has an error been recorded, how many
      chunks of its message are left, how many `doneCh` it has had and how many closes. */
  datatype Slot = Slot(open: bool, failed: bool, remaining: nat, made: nat, closed: nat)

  /** What a producer is doing with the writer it acquired. */
  datatype Hold = Acquired(writer: nat) | Loaded(writer: nat)

  /** The loop waits for work, has taken a writer, or must put one back. */
  datatype Service = Waiting | Taken(writer: nat) | PuttingBack(writer: nat)

  datatype State = State(
    slots: map<nat, Slot>,
    holds: map<nat, Hold>,
    queue: seq<nat>,
    service: Service,
    stopped: bool,
    panicked: bool,
    cut: set<nat>)

  const START := State(map[], map[], [], Waiting, false, false, {})

  datatype Step =
    | Create(writer: nat)
    | Acquire(producer: nat, writer: nat)
    | Load(producer: nat, chunks: nat)
    | Enqueue(producer: nat)
    | Take
    | Write(ok: bool)
    | PutBack
    | Stop
    | ForceClose
    | AcquireCut(producer: nat, writer: nat)

  /** When a step can happen; `limit` bounds the number of chunk streams. A loop that a write
      error ended closes the `closeCh` of every writer there is (`cut`); from then on a
      producer may also get past `Wait` by that channel. */
  predicate Enabled(s: State, t: Step, limit: int) {
    match t
    case Create(w) => w !in s.slots && |s.slots| < limit
    case Acquire(p, w) => p !in s.holds && w in s.slots && !s.slots[w].open && !s.slots[w].failed
    case Load(p, n) => p in s.holds && s.holds[p].Acquired? && s.holds[p].writer in s.slots && n >= 1
    case Enqueue(p) => p in s.holds && s.holds[p].Loaded? && |s.queue| < CAPACITY
    case Take => !s.stopped && s.service.Waiting? && s.queue != []
    case Write(_) => s.service.Taken? && s.service.writer in s.slots
    case PutBack => s.service.PuttingBack? && |s.queue| < CAPACITY
    case Stop => !s.stopped && s.service.Waiting?
    case ForceClose => s.stopped && s.service.Waiting? && s.cut == {} && exists w <- s.slots :: s.slots[w].failed
    case AcquireCut(p, w) => p !in s.holds && w in s.cut && w in s.slots && !s.slots[w].failed
  }

  /** Closing a closed channel panics. */
  function Close(s: State, w: nat, failed: bool, left: nat): State
    requires w in s.slots
  {
    var x := s.slots[w];
    s.(slots := s.slots[w := x.(open := false, failed := failed, remaining := left, closed := x.closed + 1)],
       panicked := s.panicked || !x.open)
  }

  function Apply(s: State, t: Step, limit: int): State
    requires Enabled(s, t, limit)
  {
    match t
    case Create(w) => s.(slots := s.slots[w := Slot(false, false, 0, 1, 1)])
    case Acquire(p, w) =>
      var x := s.slots[w];
      s.(slots := s.slots[w := x.(open := true, made := x.made + 1)], holds := s.holds[p := Acquired(w)])
    case Load(p, n) =>
      var w := s.holds[p].writer;
      s.(slots := s.slots[w := s.slots[w].(remaining := s.slots[w].remaining + n)], holds := s.holds[p := Loaded(w)])
    case Enqueue(p) => s.(queue := s.queue + [s.holds[p].writer], holds := s.holds - {p})
    case Take => s.(service := Taken(s.queue[0]), queue := s.queue[1..])
    case Write(ok) =>
      var w := s.service.writer;
      var x := s.slots[w];
      if !ok then
        Close(s, w, true, x.remaining).(service := Waiting, stopped := true)
      else if x.remaining <= 1 then
        Close(s, w, x.failed, 0).(service := Waiting)
      else
        s.(slots := s.slots[w := x.(remaining := x.remaining - 1)], service := PuttingBack(w))
    case PutBack => s.(queue := s.queue + [s.service.writer], service := Waiting)
    case Stop => s.(stopped := true)
    case ForceClose => s.(cut := s.slots.Keys)
    case AcquireCut(p, w) => s.(holds := s.holds[p := Acquired(w)])
  }

  // ---- ownership ----------------------------------------------------------------------

  function Writers(holds: map<nat, Hold>): set<nat> {
    set p <- holds :: holds[p].writer
  }

  function Held(s: State): set<nat> {
    Writers(s.holds)
  }

  function InService(s: State): set<nat> {
    if s.service.Waiting? then {} else {s.service.writer}
  }

  predicate NoDuplicates(q: seq<nat>) {
    forall i, j :: 0 <= i < j < |q| ==> q[i] != q[j]
  }

  /** No two producers hold the same writer. */
  predicate Injective(holds: map<nat, Hold>) {
    forall p, q :: p in holds && q in holds && p != q ==> holds[p].writer != holds[q].writer
  }

  /** A writer whose `doneCh` is open is in exactly one place: with one producer, in the
      queue once, or in service. */
  ghost predicate OnePlace(s: State) {
    && NoDuplicates(s.queue) && Injective(s.holds)
    && (forall w <- s.queue :: w !in Held(s) && w !in InService(s))
    && Held(s) !! InService(s)
    && forall w :: (w in s.slots && s.slots[w].open) <==> (w in s.queue || w in Held(s) || w in InService(s))
  }

  predicate Books(s: State) {
    forall w <- s.slots ::
      var x := s.slots[w];
      && x.made == x.closed + (if x.open then 1 else 0)
      && (x.failed ==> !x.open && s.stopped)
      && (!x.open && !x.failed ==> x.remaining == 0)
  }

  /** Work is attached to writers that are loaded, queued or in service, and to no others. */
  predicate Work(s: State) {
    && (forall p <- s.holds :: s.holds[p].writer in s.slots &&
          (s.slots[s.holds[p].writer].remaining == 0 <==> s.holds[p].Acquired?))
    && (forall w <- s.queue :: w in s.slots && s.slots[w].remaining >= 1)
    && (!s.service.Waiting? ==> s.service.writer in s.slots && s.slots[s.service.writer].remaining >= 1)
  }

  ghost predicate Inv(s: State) {
    OnePlace(s) && Books(s) && Work(s) && !s.panicked
  }

  lemma StartInv()
    ensures Inv(START)
  {
  }

  lemma WritersUpdated(holds: map<nat, Hold>, p: nat, h: Hold)
    requires Injective(holds)
    requires if p in holds then holds[p].writer == h.writer else h.writer !in Writers(holds)
    ensures Writers(holds[p := h]) == Writers(holds) + {h.writer} && Injective(holds[p := h])
  {
    var after := holds[p := h];
    forall w | w in Writers(holds) ensures w in Writers(after) {
      var q :| q in holds && holds[q].writer == w;
      assert after[q].writer == w;
    }
    assert after[p].writer == h.writer;
    forall q <- holds | q != p ensures holds[q].writer != h.writer {
      assert holds[q].writer in Writers(holds);
    }
  }

  lemma WritersRemoved(holds: map<nat, Hold>, p: nat)
    requires p in holds && Injective(holds)
    ensures Writers(holds - {p}) == Writers(holds) - {holds[p].writer} && Injective(holds - {p})
  {
    var after := holds - {p};
    forall w | w in Writers(holds) && w != holds[p].writer ensures w in Writers(after) {
      var q :| q in holds && holds[q].writer == w;
      assert after[q].writer == w;
    }
  }

  lemma CreateKeepsInv(s: State, w: nat, limit: int)
    requires Inv(s) && Enabled(s, Create(w), limit)
    ensures Inv(Apply(s, Create(w), limit))
  {
    var s' := Apply(s, Create(w), limit);
    assert Held(s') == Held(s);
    hide Writers;
  }

  lemma AcquireKeepsPlace(s: State, p: nat, w: nat, limit: int)
    requires Inv(s) && Enabled(s, Acquire(p, w), limit)
    ensures OnePlace(Apply(s, Acquire(p, w), limit))
  {
    assert w !in Held(s);
    WritersUpdated(s.holds, p, Acquired(w));
    hide Writers, Books, Work, Injective;
  }

  lemma AcquireKeepsWork(s: State, p: nat, w: nat, limit: int)
    requires Inv(s) && Enabled(s, Acquire(p, w), limit)
    ensures Work(Apply(s, Acquire(p, w), limit))
  {
    assert forall q <- s.holds :: s.holds[q].writer in Held(s);
    assert w !in Held(s) && w !in s.queue && w !in InService(s);
    hide Writers, OnePlace;
  }

  lemma AcquireKeepsInv(s: State, p: nat, w: nat, limit: int)
    requires Inv(s) && Enabled(s, Acquire(p, w), limit)
    ensures Inv(Apply(s, Acquire(p, w), limit))
  {
    AcquireKeepsPlace(s, p, w, limit);
    AcquireKeepsWork(s, p, w, limit);
    hide Writers, OnePlace, Work;
  }

  /** Nothing moved, and the same writers are busy. */
  lemma PlaceFrame(s: State, s': State)
    requires OnePlace(s) && Injective(s'.holds) && Held(s') == Held(s)
    requires s'.queue == s.queue && s'.service == s.service
    requires forall w :: (w in s'.slots && s'.slots[w].open) <==> (w in s.slots && s.slots[w].open)
    ensures OnePlace(s')
  {
    hide Held, Injective;
  }

  lemma HoldersAreBusy(s: State, p: nat)
    requires Inv(s) && p in s.holds
    ensures var w := s.holds[p].writer;
            && w in Held(s) && w in s.slots && s.slots[w].open && w !in s.queue && w !in InService(s)
            && forall q <- s.holds :: q != p ==> s.holds[q].writer != w
  {
    hide Books, Work, NoDuplicates;
  }

  lemma LoadKeepsPlace(s: State, p: nat, n: nat, limit: int)
    requires Inv(s) && Enabled(s, Load(p, n), limit)
    ensures OnePlace(Apply(s, Load(p, n), limit))
  {
    var w := s.holds[p].writer;
    HoldersAreBusy(s, p);
    WritersUpdated(s.holds, p, Loaded(w));
    assert Writers(s.holds) + {w} == Writers(s.holds);
    hide Writers, Injective, OnePlace, Books, Work;
    PlaceFrame(s, Apply(s, Load(p, n), limit));
  }

  lemma LoadKeepsWork(s: State, p: nat, n: nat, limit: int)
    requires Inv(s) && Enabled(s, Load(p, n), limit)
    ensures Work(Apply(s, Load(p, n), limit))
  {
    HoldersAreBusy(s, p);
    hide OnePlace, Held, Books;
  }

  lemma LoadKeepsInv(s: State, p: nat, n: nat, limit: int)
    requires Inv(s) && Enabled(s, Load(p, n), limit)
    ensures Inv(Apply(s, Load(p, n), limit))
  {
    HoldersAreBusy(s, p);
    LoadKeepsPlace(s, p, n, limit);
    LoadKeepsWork(s, p, n, limit);
    hide OnePlace, Held, Work;
  }

  lemma EnqueueKeepsPlace(s: State, p: nat, limit: int)
    requires Inv(s) && Enabled(s, Enqueue(p), limit)
    ensures OnePlace(Apply(s, Enqueue(p), limit))
  {
    WritersRemoved(s.holds, p);
    assert s.holds[p].writer in Held(s);
    hide Writers, Books, Work, Injective;
  }

  lemma EnqueueKeepsWork(s: State, p: nat, limit: int)
    requires Inv(s) && Enabled(s, Enqueue(p), limit)
    ensures Work(Apply(s, Enqueue(p), limit))
  {
    hide OnePlace, Books;
  }

  lemma EnqueueKeepsInv(s: State, p: nat, limit: int)
    requires Inv(s) && Enabled(s, Enqueue(p), limit)
    ensures Inv(Apply(s, Enqueue(p), limit))
  {
    EnqueueKeepsPlace(s, p, limit);
    EnqueueKeepsWork(s, p, limit);
    hide OnePlace, Work;
  }

  lemma TakeKeepsPlace(s: State, limit: int)
    requires Inv(s) && Enabled(s, Take, limit)
    ensures OnePlace(Apply(s, Take, limit))
  {
    var s' := Apply(s, Take, limit);
    assert Held(s') == Held(s);
    assert s.queue == [s.queue[0]] + s'.queue;
    hide Writers, Books, Work, Injective;
  }

  lemma TakeKeepsInv(s: State, limit: int)
    requires Inv(s) && Enabled(s, Take, limit)
    ensures Inv(Apply(s, Take, limit))
  {
    TakeKeepsPlace(s, limit);
    hide Writers, OnePlace;
    assert s.queue == [s.queue[0]] + s.queue[1..];
  }

  lemma CloseKeepsPlace(s: State, failed: bool, left: nat)
    requires Inv(s) && s.service.Taken? && s.service.writer in s.slots
    ensures OnePlace(Close(s, s.service.writer, failed, left).(service := Waiting, stopped := s.stopped || failed))
  {
    assert s.service.writer in InService(s);
    hide Writers, Books, Work;
  }

  /** Closing the writer in service puts it at rest. */
  lemma CloseKeepsInv(s: State, failed: bool, left: nat)
    requires Inv(s) && s.service.Taken? && s.service.writer in s.slots
    requires failed || (left == 0 && !s.slots[s.service.writer].failed)
    ensures Inv(Close(s, s.service.writer, failed, left).(service := Waiting, stopped := s.stopped || failed))
  {
    CloseKeepsPlace(s, failed, left);
    assert s.service.writer in InService(s) && s.slots[s.service.writer].open && s.service.writer !in s.queue;
    assert forall q <- s.holds :: s.holds[q].writer in Held(s);
    assert s.service.writer !in Held(s);
    hide Writers, OnePlace;
  }

  lemma WriteKeepsInv(s: State, ok: bool, limit: int)
    requires Inv(s) && Enabled(s, Write(ok), limit)
    ensures Inv(Apply(s, Write(ok), limit))
  {
    var s' := Apply(s, Write(ok), limit);
    var w := s.service.writer;
    assert w in InService(s) && s.slots[w].open;
    if !ok {
      CloseKeepsInv(s, true, s.slots[w].remaining);
    } else if s.slots[w].remaining <= 1 {
      CloseKeepsInv(s, s.slots[w].failed, 0);
    } else {
      assert forall q <- s.holds :: s.holds[q].writer in Held(s);
      hide Writers;
    }
  }

  lemma PutBackKeepsInv(s: State, limit: int)
    requires Inv(s) && Enabled(s, PutBack, limit)
    ensures Inv(Apply(s, PutBack, limit))
  {
    var s' := Apply(s, PutBack, limit);
    assert Held(s') == Held(s);
    hide Writers;
  }

  /** Every step of every interleaving of producers and loop keeps the ownership invariant,
      the forced close included, except that of a producer who gets past `Wait` by it. */
  lemma StepKeepsInv(s: State, t: Step, limit: int)
    requires Inv(s) && Enabled(s, t, limit) && !t.AcquireCut?
    ensures Inv(Apply(s, t, limit))
  {
    match t {
      case Create(w) => CreateKeepsInv(s, w, limit);
      case Acquire(p, w) => AcquireKeepsInv(s, p, w, limit);
      case Load(p, n) => LoadKeepsInv(s, p, n, limit);
      case Enqueue(p) => EnqueueKeepsInv(s, p, limit);
      case Take => TakeKeepsInv(s, limit);
      case Write(ok) => WriteKeepsInv(s, ok, limit);
      case PutBack => PutBackKeepsInv(s, limit);
      case Stop =>
      case ForceClose =>
    }
  }

  // ---- the bounded queue --------------------------------------------------------------

  function Elements(q: seq<nat>): set<nat> {
    set w <- q
  }

  lemma {:induction false} ElementsCount(q: seq<nat>)
    requires NoDuplicates(q)
    ensures |Elements(q)| == |q|
  {
    if q != [] {
      ElementsCount(q[1..]);
      assert q == [q[0]] + q[1..];
      assert Elements(q) == {q[0]} + Elements(q[1..]);
      assert q[0] !in Elements(q[1..]);
    }
  }

  /** A busy writer outside the queue leaves the queue shorter than the number of writers. */
  lemma RoomInQueue(s: State, w: nat)
    requires Inv(s) && (w in Held(s) || w in InService(s))
    ensures |s.queue| < |s.slots|
  {
    ElementsCount(s.queue);
    hide Writers;
    assert w in s.slots && w !in s.queue;
    assert Elements(s.queue) + {w} <= s.slots.Keys;
    SubsetCount(Elements(s.queue) + {w}, s.slots.Keys);
  }

  /** With at most 64 writers the loop never blocks on its own channel, and neither does a
      producer that has loaded its writer. */
  lemma NeverBlocks(s: State, limit: int)
    requires Inv(s) && |s.slots| <= 64
    ensures s.service.PuttingBack? ==> Enabled(s, PutBack, limit)
    ensures forall p <- s.holds :: s.holds[p].Loaded? ==> Enabled(s, Enqueue(p), limit)
  {
    if s.service.PuttingBack? {
      RoomInQueue(s, s.service.writer);
    }
    forall p <- s.holds | s.holds[p].Loaded? ensures Enabled(s, Enqueue(p), limit) {
      assert s.holds[p].writer in Held(s);
      RoomInQueue(s, s.holds[p].writer);
    }
  }

  /** While the loop runs and has anything to do it can take a step. */
  lemma LoopCanMove(s: State, limit: int)
    requires Inv(s) && |s.slots| <= CAPACITY && !s.stopped
    requires s.queue != [] || !s.service.Waiting?
    ensures Enabled(s, Take, limit) || Enabled(s, Write(true), limit) || Enabled(s, PutBack, limit)
  {
    NeverBlocks(s, limit);
  }

  // ---- runs ---------------------------------------------------------------------------

  predicate ValidRun(s: State, ts: seq<Step>, limit: int)
    decreases |ts|
  {
    ts == [] || (Enabled(s, ts[0], limit) && ValidRun(Apply(s, ts[0], limit), ts[1..], limit))
  }

  function After(s: State, ts: seq<Step>, limit: int): State
    requires ValidRun(s, ts, limit)
    decreases |ts|
  {
    if ts == [] then s else After(Apply(s, ts[0], limit), ts[1..], limit)
  }

  lemma StepKeepsLimit(s: State, t: Step, limit: int)
    requires Enabled(s, t, limit) && |s.slots| <= limit
    ensures |Apply(s, t, limit).slots| <= limit
  {
    match t {
      case Create(w) => OneMoreKey(s.slots, w, Slot(false, false, 0, 1, 1));
      case Acquire(p, w) => OneMoreKey(s.slots, w, Apply(s, t, limit).slots[w]);
      case Load(p, n) => OneMoreKey(s.slots, s.holds[p].writer, Apply(s, t, limit).slots[s.holds[p].writer]);
      case Write(ok) => OneMoreKey(s.slots, s.service.writer, Apply(s, t, limit).slots[s.service.writer]);
      case _ =>
    }
  }

  predicate NobodyCutsIn(ts: seq<Step>) {
    forall t <- ts :: !t.AcquireCut?
  }

  /** Ownership over every interleaving in which no producer passes by a closed `closeCh`. */
  lemma {:induction false} RunsKeepInv(s: State, ts: seq<Step>, limit: int)
    requires Inv(s) && ValidRun(s, ts, limit) && NobodyCutsIn(ts)
    ensures Inv(After(s, ts, limit))
    decreases |ts|
  {
    if ts != [] {
      assert ts[0] in ts && forall t <- ts[1..] :: t in ts;
      StepKeepsInv(s, ts[0], limit);
      hide Inv, Enabled, Apply;
      RunsKeepInv(Apply(s, ts[0], limit), ts[1..], limit);
    }
  }

  /** What holds whatever happens: no `doneCh` is ever closed twice; writers are closed by
      force only after the loop has ended; and until then ownership is exact. */
  ghost predicate Safe(s: State) {
    !s.panicked && if s.cut == {} then Inv(s) else s.stopped && s.service.Waiting?
  }

  lemma StepKeepsSafe(s: State, t: Step, limit: int)
    requires Safe(s) && Enabled(s, t, limit)
    ensures Safe(Apply(s, t, limit))
  {
    if s.cut == {} {
      StepKeepsInv(s, t, limit);
    }
    hide OnePlace, Books, Work;
  }

  lemma {:induction false} RunsAreSafe(s: State, ts: seq<Step>, limit: int)
    requires Safe(s) && |s.slots| <= limit && ValidRun(s, ts, limit)
    ensures Safe(After(s, ts, limit)) && |After(s, ts, limit).slots| <= limit
    decreases |ts|
  {
    if ts != [] {
      StepKeepsSafe(s, ts[0], limit);
      StepKeepsLimit(s, ts[0], limit);
      hide Safe, Enabled, Apply;
      RunsAreSafe(Apply(s, ts[0], limit), ts[1..], limit);
    }
  }

  predicate LoopIsOver(s: State, limit: int) {
    !Enabled(s, Take, limit) && !Enabled(s, Write(true), limit) && !Enabled(s, Write(false), limit)
    && !Enabled(s, PutBack, limit)
  }

  lemma {:induction false} StaysStopped(s: State, ts: seq<Step>, limit: int)
    requires s.stopped && s.service.Waiting? && ValidRun(s, ts, limit)
    ensures After(s, ts, limit).stopped && After(s, ts, limit).service.Waiting?
    decreases |ts|
  {
    if ts != [] {
      StaysStopped(Apply(s, ts[0], limit), ts[1..], limit);
    }
  }

  /** A loop that waits for work can be stopped, and that is the end of it: whatever the
      producers do, it takes no writer any more. */
  lemma StoppedForGood(s: State, ts: seq<Step>, limit: int)
    requires !s.stopped && s.service.Waiting?
    ensures Enabled(s, Stop, limit)
    ensures ValidRun(Apply(s, Stop, limit), ts, limit) ==> LoopIsOver(After(Apply(s, Stop, limit), ts, limit), limit)
  {
    if ValidRun(Apply(s, Stop, limit), ts, limit) {
      StaysStopped(Apply(s, Stop, limit), ts, limit);
    }
  }

  // ---- no chunk lost or doubled -------------------------------------------------------

  function Left(s: State, w: nat): nat {
    if w in s.slots then s.slots[w].remaining else 0
  }

  /** The chunks that a step loads into a writer. */
  function LoadedInto(s: State, t: Step, w: nat): nat {
    if t.Load? && t.producer in s.holds && s.holds[t.producer].writer == w then t.chunks else 0
  }

  /** The chunks of a writer that a step writes. */
  function WrittenFrom(s: State, t: Step, w: nat): nat {
    if t.Write? && t.ok && s.service.Taken? && s.service.writer == w then 1 else 0
  }

  function AllLoadedInto(s: State, ts: seq<Step>, w: nat, limit: int): nat
    requires ValidRun(s, ts, limit)
    decreases |ts|
  {
    if ts == [] then 0 else LoadedInto(s, ts[0], w) + AllLoadedInto(Apply(s, ts[0], limit), ts[1..], w, limit)
  }

  function AllWrittenFrom(s: State, ts: seq<Step>, w: nat, limit: int): nat
    requires ValidRun(s, ts, limit)
    decreases |ts|
  {
    if ts == [] then 0 else WrittenFrom(s, ts[0], w) + AllWrittenFrom(Apply(s, ts[0], limit), ts[1..], w, limit)
  }

  lemma StepConserves(s: State, t: Step, w: nat, limit: int)
    requires Safe(s) && Enabled(s, t, limit)
    ensures Left(Apply(s, t, limit), w) + WrittenFrom(s, t, w) == Left(s, w) + LoadedInto(s, t, w)
  {
    hide OnePlace, Books;
  }

  /** Over every interleaving, those included in which producers share a writer after a forced
      close: the chunks loaded into a writer are those written from it and those still left. */
  lemma {:induction false} ChunksConserved(s: State, ts: seq<Step>, w: nat, limit: int)
    requires Safe(s) && ValidRun(s, ts, limit)
    ensures Left(After(s, ts, limit), w) + AllWrittenFrom(s, ts, w, limit)
            == Left(s, w) + AllLoadedInto(s, ts, w, limit)
    decreases |ts|
  {
    if ts != [] {
      StepConserves(s, ts[0], w, limit);
      StepKeepsSafe(s, ts[0], limit);
      hide Safe, Apply, Enabled, Left, LoadedInto, WrittenFrom;
      ChunksConserved(Apply(s, ts[0], limit), ts[1..], w, limit);
    }
  }

  // ---- one writer ---------------------------------------------------------------------

  /** There is one writer at most, and closing it by force lets nobody have it. */
  ghost predicate Lonely(s: State) {
    Inv(s) && |s.slots| <= 1 && forall w <- s.cut :: w in s.slots && s.slots[w].failed
  }

  lemma OnlyWriter(s: State, v: nat, w: nat)
    requires |s.slots| <= 1 && v in s.slots && w in s.slots
    ensures v == w
  {
    if v != w {
      SubsetCount({v, w}, s.slots.Keys);
    }
  }

  lemma StepKeepsFailed(s: State, t: Step, w: nat, limit: int)
    requires Enabled(s, t, limit) && w in s.slots && s.slots[w].failed
    ensures w in Apply(s, t, limit).slots && Apply(s, t, limit).slots[w].failed
  {
  }

  lemma StepKeepsLonely(s: State, t: Step, limit: int)
    requires Lonely(s) && Enabled(s, t, limit) && limit <= 1
    ensures Lonely(Apply(s, t, limit))
  {
    hide Inv;
    var s' := Apply(s, t, limit);
    StepKeepsInv(s, t, limit);
    StepKeepsLimit(s, t, 1);
    forall w <- s'.cut ensures w in s'.slots && s'.slots[w].failed {
      if t.ForceClose? {
        var v :| v in s.slots && s.slots[v].failed;
        OnlyWriter(s, v, w);
      } else {
        StepKeepsFailed(s, t, w, limit);
      }
    }
  }

  lemma {:induction false} RunsKeepLonely(s: State, ts: seq<Step>, limit: int)
    requires Lonely(s) && ValidRun(s, ts, limit) && limit <= 1
    ensures Lonely(After(s, ts, limit))
    decreases |ts|
  {
    if ts != [] {
      StepKeepsLonely(s, ts[0], limit);
      hide Lonely, Enabled, Apply;
      RunsKeepLonely(Apply(s, ts[0], limit), ts[1..], limit);
    }
  }

  lemma StepRefusesFailed(s: State, t: Step, w: nat, limit: int)
    requires Enabled(s, t, limit) && w in s.slots && s.slots[w].failed
    ensures forall p <- Apply(s, t, limit).holds ::
              Apply(s, t, limit).holds[p].writer == w ==> p in s.holds && s.holds[p].writer == w
  {
  }

  /** A writer that failed is lost: in no run does anybody acquire it again, not even by a
      closed `closeCh`. */
  lemma {:induction false} FailedIsLost(s: State, ts: seq<Step>, w: nat, limit: int)
    requires ValidRun(s, ts, limit) && w in s.slots && s.slots[w].failed
    ensures var s' := After(s, ts, limit);
            && w in s'.slots && s'.slots[w].failed
            && forall p <- s'.holds :: s'.holds[p].writer == w ==> p in s.holds && s.holds[p].writer == w
    decreases |ts|
  {
    if ts != [] {
      StepKeepsFailed(s, ts[0], w, limit);
      StepRefusesFailed(s, ts[0], w, limit);
      hide Enabled, Apply;
      FailedIsLost(Apply(s, ts[0], limit), ts[1..], w, limit);
    }
  }

  // ---- after a forced close -----------------------------------------------------------

  lemma RunCons(s: State, t: Step, ts: seq<Step>, limit: int)
    requires Enabled(s, t, limit) && ValidRun(Apply(s, t, limit), ts, limit)
    ensures ValidRun(s, [t] + ts, limit) && After(s, [t] + ts, limit) == After(Apply(s, t, limit), ts, limit)
  {
    hide Enabled, Apply;
    assert ([t] + ts)[0] == t && ([t] + ts)[1..] == ts;
  }

  /** After a forced close ownership is lost: `Wait` lets any number of producers have the
      same writer, if that writer itself did not fail. */
  lemma ForcedCloseShares(s: State, w: nat, p: nat, q: nat, limit: int)
    requires w in s.cut && w in s.slots && !s.slots[w].failed && p !in s.holds && q !in s.holds && p != q
    ensures var ts := [AcquireCut(p, w)] + ([AcquireCut(q, w)] + []);
            && ValidRun(s, ts, limit)
            && After(s, ts, limit).holds == s.holds[p := Acquired(w)][q := Acquired(w)]
            && !Injective(After(s, ts, limit).holds)
  {
    var s1 := Apply(s, AcquireCut(p, w), limit);
    var s2 := Apply(s1, AcquireCut(q, w), limit);
    assert ValidRun(s2, [], limit) && After(s2, [], limit) == s2;
    assert !Injective(s2.holds) by { assert s2.holds[p].writer == s2.holds[q].writer; }
    RunCons(s1, AcquireCut(q, w), [], limit);
    RunCons(s, AcquireCut(p, w), [AcquireCut(q, w)] + [], limit);
  }

  lemma RunHead(s: State, ts: seq<Step>, limit: int)
    requires ValidRun(s, ts, limit)
    ensures ts == [] ==> After(s, ts, limit) == s
    ensures ts != [] ==>
              && Enabled(s, ts[0], limit) && ValidRun(Apply(s, ts[0], limit), ts[1..], limit)
              && After(s, ts, limit) == After(Apply(s, ts[0], limit), ts[1..], limit)
  {
    hide Enabled, Apply;
  }

  lemma {:induction false} RunsCompose(s: State, a: seq<Step>, b: seq<Step>, limit: int)
    requires ValidRun(s, a, limit) && ValidRun(After(s, a, limit), b, limit)
    ensures ValidRun(s, a + b, limit) && After(s, a + b, limit) == After(After(s, a, limit), b, limit)
    decreases |a|
  {
    hide *;
    RunHead(s, a, limit);
    if a == [] {
      assert a + b == b;
    } else {
      var s1 := Apply(s, a[0], limit);
      RunsCompose(s1, a[1..], b, limit);
      assert a + b == [a[0]] + (a[1..] + b);
      RunCons(s, a[0], a[1..] + b, limit);
    }
  }

  // ---- more than 64 writers -----------------------------------------------------------

  /** The loop wants to put a writer back and the queue is full. */
  predicate Deadlocked(s: State) {
    s.service.PuttingBack? && |s.queue| >= CAPACITY
  }

  /** Nothing gets the loop out of that state. */
  lemma DeadlockStays(s: State, t: Step, limit: int)
    requires Deadlocked(s) && Enabled(s, t, limit)
    ensures Deadlocked(Apply(s, t, limit)) && !t.Take? && !t.Write? && !t.PutBack?
  {
  }

  const TWO_LEFT := Slot(true, false, 2, 2, 1)

  function Slots(n: nat): (m: map<nat, Slot>)
    ensures |m| == n && forall w: nat :: w in m <==> w < n
  {
    if n == 0 then
      map[]
    else
      var m := Slots(n - 1);
      assert m[n - 1 := TWO_LEFT].Keys == m.Keys + {n - 1};
      m[n - 1 := TWO_LEFT]
  }

  function Ids(n: nat): (q: seq<nat>)
    ensures |q| == n
  {
    if n == 0 then [] else Ids(n - 1) + [n - 1]
  }

  /** `n` writers queued, each with a message of two chunks. */
  function Queued(n: nat): State {
    State(Slots(n), map[], Ids(n), Waiting, false, false, {})
  }

  function Round(n: nat): seq<Step> {
    [Create(n)] + ([Acquire(n, n)] + ([Load(n, 2)] + ([Enqueue(n)] + [])))
  }

  lemma CreateAcquire(s: State, n: nat, limit: int)
    requires n !in s.slots && n !in s.holds && |s.slots| < limit
    ensures Enabled(s, Create(n), limit) && Enabled(Apply(s, Create(n), limit), Acquire(n, n), limit)
    ensures Apply(Apply(s, Create(n), limit), Acquire(n, n), limit)
            == s.(slots := s.slots[n := Slot(true, false, 0, 2, 1)], holds := s.holds[n := Acquired(n)])
  {
  }

  lemma LoadEnqueue(s: State, n: nat, holds: map<nat, Hold>, limit: int)
    requires n in s.slots && s.slots[n] == Slot(true, false, 0, 2, 1) && |s.queue| < CAPACITY
    requires n !in holds && s.holds == holds[n := Acquired(n)]
    ensures Enabled(s, Load(n, 2), limit) && Enabled(Apply(s, Load(n, 2), limit), Enqueue(n), limit)
    ensures Apply(Apply(s, Load(n, 2), limit), Enqueue(n), limit)
            == s.(slots := s.slots[n := TWO_LEFT], holds := holds, queue := s.queue + [n])
  {
    assert holds[n := Acquired(n)][n := Loaded(n)] - {n} == holds;
  }

  lemma RoundIs(n: nat)
    ensures Round(n) == [Create(n)] + ([Acquire(n, n)] + ([Load(n, 2)] + ([Enqueue(n)] + [])))
  {
  }

  lemma RunNil(s: State, limit: int)
    ensures ValidRun(s, [], limit) && After(s, [], limit) == s
  {
  }

  lemma OneRound(s: State, n: nat, limit: int)
    requires n !in s.slots && n !in s.holds && |s.slots| < limit && |s.queue| < CAPACITY
    ensures ValidRun(s, Round(n), limit)
    ensures After(s, Round(n), limit) == s.(slots := s.slots[n := TWO_LEFT], queue := s.queue + [n])
  {
    hide *;
    CreateAcquire(s, n, limit);
    var s1 := Apply(s, Create(n), limit);
    var s2 := Apply(s1, Acquire(n, n), limit);
    LoadEnqueue(s2, n, s.holds, limit);
    var s3 := Apply(s2, Load(n, 2), limit);
    RunNil(Apply(s3, Enqueue(n), limit), limit);
    RunCons(s3, Enqueue(n), [], limit);
    RunCons(s2, Load(n, 2), [Enqueue(n)] + [], limit);
    RunCons(s1, Acquire(n, n), [Load(n, 2)] + ([Enqueue(n)] + []), limit);
    RunCons(s, Create(n), [Acquire(n, n)] + ([Load(n, 2)] + ([Enqueue(n)] + [])), limit);
    RoundIs(n);
    assert s.slots[n := Slot(true, false, 0, 2, 1)][n := TWO_LEFT] == s.slots[n := TWO_LEFT];
  }

  lemma {:induction false} FillQueue(n: nat, limit: int) returns (ts: seq<Step>)
    requires n <= CAPACITY && n <= limit
    ensures ValidRun(START, ts, limit) && After(START, ts, limit) == Queued(n)
  {
    if n == 0 {
      ts := [];
    } else {
      ts := FillQueue(n - 1, limit);
      OneRound(Queued(n - 1), n - 1, limit);
      RunsCompose(START, ts, Round(n - 1), limit);
      ts := ts + Round(n - 1);
    }
  }

  lemma {:induction false} FirstIsQueued(n: nat)
    requires n >= 1
    ensures Ids(n)[0] == 0 && Slots(n)[0] == TWO_LEFT
  {
    if n > 1 {
      FirstIsQueued(n - 1);
    }
  }

  /** The loop takes a writer, a producer queues another one in its place, and the loop has a
      chunk left to put back. */
  lemma FullIsStuck(limit: int)
    requires limit > CAPACITY
    ensures var s := Queued(CAPACITY);
            && Enabled(s, Take, limit)
            && var s1 := Apply(s, Take, limit);
               && CAPACITY !in s1.slots && CAPACITY !in s1.holds && |s1.slots| < limit && |s1.queue| < CAPACITY
               && var s2 := s1.(slots := s1.slots[CAPACITY := TWO_LEFT], queue := s1.queue + [CAPACITY]);
                  Enabled(s2, Write(true), limit) && Deadlocked(Apply(s2, Write(true), limit))
  {
    FirstIsQueued(CAPACITY);
  }

  lemma FullThenStuck(limit: int) returns (ts: seq<Step>)
    requires limit > CAPACITY
    ensures ValidRun(Queued(CAPACITY), ts, limit) && Deadlocked(After(Queued(CAPACITY), ts, limit))
  {
    hide *;
    FullIsStuck(limit);
    var n := CAPACITY;
    var s := Queued(n);
    var s1 := Apply(s, Take, limit);
    OneRound(s1, n, limit);
    var s2 := After(s1, Round(n), limit);
    RunNil(Apply(s2, Write(true), limit), limit);
    RunCons(s2, Write(true), [], limit);
    RunsCompose(s1, Round(n), [Write(true)] + [], limit);
    RunCons(s, Take, Round(n) + ([Write(true)] + []), limit);
    ts := [Take] + (Round(n) + ([Write(true)] + []));
  }

  /** The bound is exact: with room for 65 writers the loop can come to block for ever on
      the queue that only it empties. */
  lemma DeadlockReachable(limit: int) returns (ts: seq<Step>)
    requires limit > 64
    ensures ValidRun(START, ts, limit) && Deadlocked(After(START, ts, limit))
  {
    var fill := FillQueue(CAPACITY, limit);
    var more := FullThenStuck(limit);
    RunsCompose(START, fill, more, limit);
    ts := fill + more;
  }

  /** The loop takes a writer, fails to write, and closes them all. */
  lemma LoopDies(s: State, limit: int)
    requires s.queue == [0] && s.slots == map[0 := TWO_LEFT] && s.holds == map[] && limit >= 2
    requires s.service.Waiting? && !s.stopped && s.cut == {}
    ensures Enabled(s, Create(1), limit)
    ensures var s1 := Apply(s, Create(1), limit);
            Enabled(s1, Take, limit) && Enabled(Apply(s1, Take, limit), Write(false), limit)
    ensures var s3 := Apply(Apply(Apply(s, Create(1), limit), Take, limit), Write(false), limit);
            && Enabled(s3, ForceClose, limit)
            && var s4 := Apply(s3, ForceClose, limit);
               1 in s4.cut && 1 in s4.slots && !s4.slots[1].failed && s4.holds == map[]
  {
    var s3 := Apply(Apply(Apply(s, Create(1), limit), Take, limit), Write(false), limit);
    assert 0 in s3.slots && s3.slots[0].failed;
  }

  /** Ownership is lost in runs that start from nothing: one failed write is enough. */
  lemma OwnershipLostReachable(limit: int) returns (ts: seq<Step>)
    requires limit >= 2
    ensures ValidRun(START, ts, limit) && !Injective(After(START, ts, limit).holds)
  {
    assert START == State(map[], map[], [], Waiting, false, false, {}) && CAPACITY == 64;
    hide *;
    OneRound(START, 0, limit);
    var s := After(START, Round(0), limit);
    assert s.queue == [0];
    LoopDies(s, limit);
    var s1 := Apply(s, Create(1), limit);
    var s2 := Apply(s1, Take, limit);
    var s3 := Apply(s2, Write(false), limit);
    ForcedCloseShares(Apply(s3, ForceClose, limit), 1, 1, 2, limit);
    var last := [AcquireCut(1, 1)] + ([AcquireCut(2, 1)] + []);
    RunCons(s3, ForceClose, last, limit);
    RunCons(s2, Write(false), [ForceClose] + last, limit);
    RunCons(s1, Take, [Write(false)] + ([ForceClose] + last), limit);
    var rest := [Take] + ([Write(false)] + ([ForceClose] + last));
    RunCons(s, Create(1), rest, limit);
    RunsCompose(START, Round(0), [Create(1)] + rest, limit);
    ts := Round(0) + ([Create(1)] + rest);
  }

  // ---- exactly when, counting from the start ------------------------------------------

  lemma StartIsLonely()
    ensures Lonely(START) && Safe(START)
  {
    StartInv();
  }

  lemma LonelyIsInjective(s: State)
    requires Lonely(s)
    ensures Injective(s.holds)
  {
    hide Books, Work;
  }

  /** Exactly when two producers can come to hold the same writer: when there may be two
      chunk streams, one for a write to fail on and another to share. */
  lemma OwnershipLostIff(limit: int)
    ensures (exists ts :: ValidRun(START, ts, limit) && !Injective(After(START, ts, limit).holds)) <==> limit >= 2
  {
    hide ValidRun, After, Injective, Lonely;
    if limit >= 2 {
      var ts := OwnershipLostReachable(limit);
    } else {
      StartIsLonely();
      forall ts | ValidRun(START, ts, limit) ensures Injective(After(START, ts, limit).holds) {
        RunsKeepLonely(START, ts, limit);
        LonelyIsInjective(After(START, ts, limit));
      }
    }
  }

  lemma SafeIsNotStuck(s: State, limit: int)
    requires Safe(s) && |s.slots| <= CAPACITY
    ensures !Deadlocked(s)
  {
    if s.cut == {} {
      NeverBlocks(s, limit);
    }
  }

  /** Exactly when the loop can come to block for ever on its own queue. */
  lemma DeadlockIff(limit: nat)
    ensures (exists ts :: ValidRun(START, ts, limit) && Deadlocked(After(START, ts, limit))) <==> limit > 64
  {
    hide ValidRun, After, Deadlocked, Safe;
    if limit > CAPACITY {
      var ts := DeadlockReachable(limit);
      assert ValidRun(START, ts, limit);
    } else {
      StartIsLonely();
      forall ts | ValidRun(START, ts, limit) ensures !Deadlocked(After(START, ts, limit)) {
        RunsAreSafe(START, ts, limit);
        SafeIsNotStuck(After(START, ts, limit), limit);
      }
    }
  }

  // ---- fairness -----------------------------------------------------------------------

  function Position(q: seq<nat>, w: nat): nat
    requires w in q
  {
    if q[0] == w then 0 else Position(q[1..], w) + 1
  }

  lemma {:induction false} PositionBounds(q: seq<nat>, w: nat, v: nat)
    requires w in q
    ensures Position(q, w) < |q| && Position(q + [v], w) == Position(q, w)
  {
    assert (q + [v])[0] == q[0] && (q + [v])[1..] == q[1..] + [v];
    if q[0] != w {
      PositionBounds(q[1..], w, v);
    }
  }

  lemma {:induction false} PositionAtEnd(q: seq<nat>, w: nat)
    requires w !in q
    ensures Position(q + [w], w) == |q|
  {
    if q != [] {
      assert (q + [w])[0] == q[0] && (q + [w])[1..] == q[1..] + [w];
      PositionAtEnd(q[1..], w);
    }
  }

  /** On its way through the loop. */
  predicate InTransit(s: State, w: nat) {
    w in s.slots && (w in s.queue || (!s.service.Waiting? && s.service.writer == w))
  }

  /** How many chunks are written, at most, before this writer is done, with k writers. */
  function Rank(s: State, w: nat, k: nat): int
    requires InTransit(s, w)
  {
    var left := s.slots[w].remaining;
    if s.service == Taken(w) then (left - 1) * k + 1
    else if s.service == PuttingBack(w) then left * k
    else (left - 1) * k + Position(s.queue, w) + 1 + if s.service.Taken? then 1 else 0
  }

  /** The step that writes the last chunk of this writer's message. */
  predicate Completes(s: State, t: Step, w: nat) {
    t == Write(true) && s.service == Taken(w) && w in s.slots && s.slots[w].remaining <= 1
  }

  predicate Faultless(t: Step) {
    t != Write(false) && !t.Stop? && !t.AcquireCut?
  }

  lemma Multiply(n: int, k: int)
    ensures n * k == (n - 1) * k + k
  {
  }

  lemma NonNegative(n: nat, k: nat)
    ensures n * k >= 0
  {
  }

  /** A queued writer of m chunks is at most k * m chunks away from completion. */
  lemma RankBound(s: State, w: nat, k: nat)
    requires Inv(s) && w in s.queue && |s.slots| <= k
    ensures w in s.slots && 1 <= Rank(s, w, k) <= s.slots[w].remaining * k
  {
    hide Writers, Injective;
    PositionBounds(s.queue, w, 0);
    var left := s.slots[w].remaining;
    Multiply(left, k);
    NonNegative(left - 1, k);
    if !s.service.Waiting? {
      assert s.service.writer in InService(s);
      RoomInQueue(s, s.service.writer);
    } else {
      ElementsCount(s.queue);
      SubsetCount(Elements(s.queue), s.slots.Keys);
    }
  }

  lemma EnqueueKeepsRank(s: State, p: nat, w: nat, k: nat, limit: int)
    requires Inv(s) && Enabled(s, Enqueue(p), limit) && InTransit(s, w)
    ensures InTransit(Apply(s, Enqueue(p), limit), w) && Rank(Apply(s, Enqueue(p), limit), w, k) == Rank(s, w, k)
  {
    if w in s.queue {
      PositionBounds(s.queue, w, s.holds[p].writer);
    }
    assert w in s.queue || w in InService(s);
    hide Writers, Position, Books, Work, Injective, NoDuplicates;
  }

  /** A writer in transit is not idle, and nobody holds it. */
  lemma InTransitIsBusy(s: State, w: nat)
    requires Inv(s) && InTransit(s, w)
    ensures s.slots[w].open && forall p <- s.holds :: s.holds[p].writer != w
  {
    assert w in s.queue || w in InService(s);
    assert forall p <- s.holds :: s.holds[p].writer in Held(s);
    hide Writers, Books, Work, Injective, NoDuplicates;
  }

  /** Producers do not touch a writer in transit, and queue up behind it. */
  lemma OthersKeepRank(s: State, t: Step, w: nat, k: nat, limit: int)
    requires Inv(s) && Enabled(s, t, limit) && InTransit(s, w)
    requires t.Create? || t.Acquire? || t.Load? || t.Enqueue? || t.ForceClose?
    ensures InTransit(Apply(s, t, limit), w) && Rank(Apply(s, t, limit), w, k) == Rank(s, w, k)
  {
    hide Position, Inv;
    InTransitIsBusy(s, w);
    if t.Enqueue? {
      EnqueueKeepsRank(s, t.producer, w, k, limit);
    }
  }

  lemma TakeKeepsRank(s: State, w: nat, k: nat, limit: int)
    requires Inv(s) && Enabled(s, Take, limit) && InTransit(s, w)
    ensures InTransit(Apply(s, Take, limit), w) && Rank(Apply(s, Take, limit), w, k) == Rank(s, w, k)
  {
    assert s.queue == [s.queue[0]] + s.queue[1..];
    hide Writers, Books, Work, Injective;
  }

  lemma PutBackKeepsRank(s: State, w: nat, k: nat, limit: int)
    requires Inv(s) && Enabled(s, PutBack, limit) && InTransit(s, w) && |s.slots| <= k
    ensures InTransit(Apply(s, PutBack, limit), w) && Rank(Apply(s, PutBack, limit), w, k) <= Rank(s, w, k)
  {
    var v := s.service.writer;
    assert v in InService(s);
    if v == w {
      PositionAtEnd(s.queue, w);
      RoomInQueue(s, w);
      Multiply(s.slots[w].remaining, k);
    } else {
      PositionBounds(s.queue, w, v);
    }
    hide Writers, Position, Books, Work, Injective;
  }

  /** Whatever else happens, each chunk written brings a writer in transit nearer its end,
      and nothing takes it back. */
  lemma RankDrops(s: State, t: Step, w: nat, k: nat, limit: int)
    requires Inv(s) && Enabled(s, t, limit) && Faultless(t) && InTransit(s, w)
    requires |s.slots| <= k
    requires !Completes(s, t, w)
    ensures var s' := Apply(s, t, limit);
            InTransit(s', w) && Rank(s', w, k) <= Rank(s, w, k) - if t.Write? then 1 else 0
  {
    var left := s.slots[w].remaining;
    Multiply(left, k);
    Multiply(left - 1, k);
    match t {
      case Enqueue(p) =>
        OthersKeepRank(s, t, w, k, limit);
      case Take =>
        TakeKeepsRank(s, w, k, limit);
      case Write(ok) =>
      case PutBack =>
        PutBackKeepsRank(s, w, k, limit);
      case _ =>
        OthersKeepRank(s, t, w, k, limit);
    }
  }

  function Writes(ts: seq<Step>): nat {
    if ts == [] then 0 else (if ts[0].Write? then 1 else 0) + Writes(ts[1..])
  }

  /** Somewhere in the run the writer's message is finished. */
  predicate Finishes(s: State, ts: seq<Step>, w: nat, limit: int)
    requires ValidRun(s, ts, limit)
    decreases |ts|
  {
    ts != [] && (Completes(s, ts[0], w) || Finishes(Apply(s, ts[0], limit), ts[1..], w, limit))
  }

  predicate AllFaultless(ts: seq<Step>) {
    forall t <- ts :: Faultless(t)
  }

  lemma PositiveRank(s: State, w: nat, k: nat)
    requires Inv(s) && InTransit(s, w) && |s.slots| <= k
    ensures Rank(s, w, k) >= 1
  {
    var left := s.slots[w].remaining;
    assert left >= 1;
    NonNegative(left - 1, k);
    Multiply(left, k);
    assert k >= 1 by {
      assert {w} <= s.slots.Keys;
      SubsetCount({w}, s.slots.Keys);
    }
  }

  lemma {:induction false} FinishesWithinRank(s: State, ts: seq<Step>, w: nat, k: nat)
    requires Inv(s) && |s.slots| <= k && InTransit(s, w)
    requires ValidRun(s, ts, k) && AllFaultless(ts) && Writes(ts) >= Rank(s, w, k)
    requires Rank(s, w, k) >= 1
    ensures Finishes(s, ts, w, k)
    decreases |ts|
  {
    if !Completes(s, ts[0], w) {
      assert ts[0] in ts && forall t <- ts[1..] :: t in ts;
      StepKeepsInv(s, ts[0], k);
      StepKeepsLimit(s, ts[0], k);
      RankDrops(s, ts[0], w, k, k);
      var s' := Apply(s, ts[0], k);
      PositiveRank(s', w, k);
      hide Inv, Enabled, Apply, Rank, InTransit, Completes;
      FinishesWithinRank(s', ts[1..], w, k);
    }
  }

  /** Bounded fairness: with at most k writers and no error or stop, a queued message of m
      chunks is finished in every run that writes at least k * m chunks, whatever else is
      acquired, loaded and queued meanwhile. */
  lemma BoundedFairness(s: State, ts: seq<Step>, w: nat, k: nat)
    requires Inv(s) && |s.slots| <= k && w in s.queue && w in s.slots
    requires ValidRun(s, ts, k) && AllFaultless(ts) && Writes(ts) >= s.slots[w].remaining * k
    ensures Finishes(s, ts, w, k)
  {
    RankBound(s, w, k);
    FinishesWithinRank(s, ts, w, k);
  }

  // ---- draining -----------------------------------------------------------------------

  function Sum(q: seq<nat>, slots: map<nat, Slot>): nat
    requires forall w <- q :: w in slots
  {
    if q == [] then 0 else slots[q[0]].remaining + Sum(q[1..], slots)
  }

  /** Chunks still to be written for messages in transit. */
  function Backlog(s: State): nat
    requires Work(s)
  {
    Sum(s.queue, s.slots) + if s.service.Waiting? then 0 else s.slots[s.service.writer].remaining
  }

  lemma {:induction false} SumAppend(q: seq<nat>, w: nat, slots: map<nat, Slot>)
    requires w in slots && forall v <- q :: v in slots
    ensures Sum(q + [w], slots) == Sum(q, slots) + slots[w].remaining
  {
    if q != [] {
      assert (q + [w])[0] == q[0] && (q + [w])[1..] == q[1..] + [w];
      SumAppend(q[1..], w, slots);
    } else {
      assert [] + [w] == [w] && [w][1..] == [];
    }
  }

  lemma {:induction false} SumFrame(q: seq<nat>, w: nat, x: Slot, slots: map<nat, Slot>)
    requires w !in q && forall v <- q :: v in slots
    ensures Sum(q, slots[w := x]) == Sum(q, slots)
  {
    if q != [] {
      SumFrame(q[1..], w, x, slots);
    }
  }

  predicate LoopStep(t: Step) {
    t.Take? || t == Write(true) || t.PutBack?
  }

  /** Left alone, the loop works off one chunk a turn. */
  lemma LoopDrains(s: State, t: Step, limit: int)
    requires Inv(s) && Enabled(s, t, limit) && LoopStep(t)
    ensures Work(Apply(s, t, limit))
    ensures Backlog(Apply(s, t, limit)) == Backlog(s) - if t.Write? then 1 else 0
  {
    StepKeepsInv(s, t, limit);
    hide Writers, Injective, Books;
    match t {
      case Take =>
      case Write(_) =>
        var w := s.service.writer;
        assert w in InService(s) && w !in s.queue;
        SumFrame(s.queue, w, Apply(s, t, limit).slots[w], s.slots);
      case PutBack =>
        SumAppend(s.queue, s.service.writer, s.slots);
    }
  }

  predicate LoopOnly(ts: seq<Step>) {
    forall t <- ts :: LoopStep(t)
  }

  /** With no arrivals the chunks written and the backlog left always sum to the backlog
      there was; when the loop can go no further it has written everything, and every writer
      that nobody holds is at rest with an empty buffer. */
  lemma {:induction false} DrainsCompletely(s: State, ts: seq<Step>, k: nat)
    requires Inv(s) && |s.slots| <= k <= 64 && ValidRun(s, ts, k) && LoopOnly(ts)
    ensures var s' := After(s, ts, k);
            && Inv(s') && Writes(ts) + Backlog(s') == Backlog(s)
            && (!s'.stopped && !Enabled(s', Take, k) && !Enabled(s', Write(true), k) && !Enabled(s', PutBack, k) ==>
                  && Backlog(s') == 0 && s'.queue == [] && s'.service.Waiting?
                  && forall w <- s'.slots :: w !in Held(s') && !s'.slots[w].failed ==> s'.slots[w].remaining == 0)
    decreases |ts|
  {
    if ts == [] {
      if !s.stopped && (s.queue != [] || !s.service.Waiting?) {
        LoopCanMove(s, k);
      }
      hide Writers;
    } else {
      assert ts[0] in ts && forall t <- ts[1..] :: t in ts;
      StepKeepsInv(s, ts[0], k);
      StepKeepsLimit(s, ts[0], k);
      LoopDrains(s, ts[0], k);
      hide Apply, Enabled, Backlog, Work, OnePlace, Books;
      DrainsCompletely(Apply(s, ts[0], k), ts[1..], k);
    }
  }
}
