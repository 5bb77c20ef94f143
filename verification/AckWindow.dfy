/** Acknowledgements (sections 5.4.3 and 5.4.4 of the RTMP specification 1.0): the byte
    counters of the reader and the loop that sends an Ack for every half window. */
module AckWindow {
  import opened Bytes

  /** Both counters wrap around 32 bits. */
  datatype Counters = Counters(total: uint32, fragment: uint32)

  /** Half the window as an unsigned number; Go's division truncates towards zero. */
  function Threshold(window: int32): uint32 {
    Wrap32(if window < 0 then -(-(window as int) / 2) else window / 2)
  }

  /** One turn of the loop: so many bytes were read while this window was in force. */
  datatype Turn = Turn(bytes: nat, window: int32)

  /** An Ack carries the sequence number; `gap` is the fragment counter it is sent for. */
  datatype Ack = Ack(sequenceNumber: uint32, gap: uint32)

  function Count(a: Counters, n: nat): Counters {
    Counters(Wrap32(a.total + n), Wrap32(a.fragment + n))
  }

  function Due(a: Counters, t: Turn): seq<Ack> {
    var b := Count(a, t.bytes);
    if b.fragment >= Threshold(t.window) then [Ack(b.total, b.fragment)] else []
  }

  function Next(a: Counters, t: Turn): Counters {
    var b := Count(a, t.bytes);
    if b.fragment >= Threshold(t.window) then b.(fragment := 0) else b
  }

  function Acks(a: Counters, ts: seq<Turn>): seq<Ack>
    decreases |ts|
  {
    if ts == [] then [] else Due(a, ts[0]) + Acks(Next(a, ts[0]), ts[1..])
  }

  function Last(a: Counters, ts: seq<Turn>): Counters
    decreases |ts|
  {
    if ts == [] then a else Last(Next(a, ts[0]), ts[1..])
  }

  function Total(ts: seq<Turn>): nat {
    if ts == [] then 0 else ts[0].bytes + Total(ts[1..])
  }

  function Gaps(acks: seq<Ack>): nat {
    if acks == [] then 0 else acks[0].gap + Gaps(acks[1..])
  }

  /** The sequence numbers a peer that counts without wrapping would expect. */
  ghost predicate Numbered(acks: seq<Ack>, start: nat)
    decreases |acks|
  {
    acks == [] ||
    (acks[0].sequenceNumber == Wrap32(start + acks[0].gap) && Numbered(acks[1..], start + acks[0].gap))
  }

  /** The counters wrap around here. */
  const TOP := 0x1_0000_0000

  /** An Ack is due before the counter wraps, if no turn takes more than `most` bytes. */
  predicate InTime(window: int32, most: nat) {
    Threshold(window) + most <= TOP
  }

  predicate Usual(ts: seq<Turn>, most: nat) {
    forall t <- ts :: InTime(t.window, most) && t.bytes <= most
  }

  lemma FirstAcks(x: seq<Ack>, acks: seq<Ack>, start: nat)
    requires |x| <= 1
    ensures Gaps(x + acks) == (if x == [] then 0 else x[0].gap) + Gaps(acks)
    ensures Numbered(x + acks, start) <==>
            if x == [] then Numbered(acks, start)
            else x[0].sequenceNumber == Wrap32(start + x[0].gap) && Numbered(acks, start + x[0].gap)
  {
    if x == [] {
      assert x + acks == acks;
    } else {
      assert (x + acks)[1..] == acks && (x + acks)[0] == x[0];
    }
  }

  lemma FirstTurn(a: Counters, ts: seq<Turn>)
    requires ts != []
    ensures Acks(a, ts) == Due(a, ts[0]) + Acks(Next(a, ts[0]), ts[1..])
    ensures Last(a, ts) == Last(Next(a, ts[0]), ts[1..])
    ensures Total(ts) == ts[0].bytes + Total(ts[1..])
    ensures forall most :: Usual(ts, most) ==> InTime(ts[0].window, most) && ts[0].bytes <= most && Usual(ts[1..], most)
  {
    hide Due, Next, InTime;
    assert ts[0] in ts && forall u <- ts[1..] :: u in ts;
  }

  lemma NoTurns(a: Counters, read: nat)
    ensures Acks(a, []) == [] && Last(a, []) == a && Total([]) == 0 && Gaps([]) == 0 && Numbered([], read)
  {
  }

  lemma OneTurn(a: Counters, t: Turn, read: nat, most: nat)
    requires InTime(t.window, most) && t.bytes <= most
    requires a.fragment + most < TOP && a.fragment <= read && a.total == Wrap32(read)
    ensures Next(a, t).fragment + most < TOP && Next(a, t).total == Wrap32(read + t.bytes)
    ensures if Due(a, t) == [] then
              Next(a, t).fragment == a.fragment + t.bytes
            else
              && |Due(a, t)| == 1 && Next(a, t).fragment == 0
              && Due(a, t)[0] == Ack(Wrap32(read + t.bytes), a.fragment + t.bytes)
  {
    WrapAdds(read, t.bytes);
  }

  /** Conservation, whatever such windows follow each other: the acknowledged gaps and what is
      still unacknowledged sum to the bytes read, and each sequence number is the number of
      bytes read so far, modulo 2^32. `read` is how many bytes were read before. */
  lemma {:induction false} AcksConserve(a: Counters, ts: seq<Turn>, read: nat, most: nat)
    requires Usual(ts, most) && a.fragment + most < TOP && a.fragment <= read && a.total == Wrap32(read)
    ensures Gaps(Acks(a, ts)) + Last(a, ts).fragment == a.fragment + Total(ts)
    ensures Numbered(Acks(a, ts), read - a.fragment)
    ensures Last(a, ts).total == Wrap32(read + Total(ts)) && Last(a, ts).fragment + most < TOP
    decreases |ts|
  {
    hide *;
    if ts == [] {
      NoTurns(a, read - a.fragment);
    } else {
      var t := ts[0];
      FirstTurn(a, ts);
      OneTurn(a, t, read, most);
      AcksConserve(Next(a, t), ts[1..], read + t.bytes, most);
      FirstAcks(Due(a, t), Acks(Next(a, t), ts[1..]), read - a.fragment);
    }
  }

  /** The windows at which the counter may wrap before an Ack is due: the negative ones from
      -2 down to twice what a turn may take. */
  lemma LateWindows(window: int32, most: nat)
    requires most <= 0xc000_0000
    ensures InTime(window, most) <==> !(-2 * most < window <= -2)
  {
  }

  predicate Fixed(ts: seq<Turn>, window: int32, most: nat) {
    forall t <- ts :: t.window == window && t.bytes <= most
  }

  predicate Conserved(a: Counters, ts: seq<Turn>) {
    Gaps(Acks(a, ts)) + Last(a, ts).fragment == a.fragment + Total(ts)
  }

  lemma QuietTurn(a: Counters, t: Turn)
    requires a.fragment + t.bytes < Threshold(t.window) || (a.fragment + t.bytes == TOP && Threshold(t.window) > 0)
    ensures Due(a, t) == [] && Next(a, t).fragment == (a.fragment + t.bytes) % TOP
  {
    hide Threshold;
  }

  lemma LastTurnFits(ts: seq<Turn>)
    requires ts != []
    ensures ts[|ts| - 1].bytes <= Total(ts)
  {
    if |ts| > 1 {
      assert ts[1..][|ts| - 2] == ts[|ts| - 1];
      LastTurnFits(ts[1..]);
    }
  }

  /** Turns of 2^32 bytes together, the last of which takes the counter from below the
      threshold past its end: no Ack is sent, and the counter is back at zero. */
  lemma {:induction false} Unnoticed(a: Counters, ts: seq<Turn>, window: int32, most: nat)
    requires ts != [] && Fixed(ts, window, most) && a.fragment + Total(ts) == TOP
    requires Threshold(window) + ts[|ts| - 1].bytes > TOP
    ensures Acks(a, ts) == [] && Last(a, ts).fragment == 0 && !Conserved(a, ts)
    decreases |ts|
  {
    hide Threshold, Due, Next;
    var t := ts[0];
    FirstTurn(a, ts);
    assert t in ts && forall u <- ts[1..] :: u in ts;
    if |ts| == 1 {
      NoTurns(Next(a, t), 0);
      QuietTurn(a, t);
    } else {
      LastTurnFits(ts[1..]);
      QuietTurn(a, t);
      Unnoticed(Next(a, t), ts[1..], window, most);
    }
  }

  lemma ConservedInTime(ts: seq<Turn>, window: int32, most: nat)
    requires Fixed(ts, window, most) && InTime(window, most) && most < TOP
    ensures Conserved(Counters(0, 0), ts) && Numbered(Acks(Counters(0, 0), ts), 0)
  {
    assert Usual(ts, most);
    hide Usual, InTime, Acks, Last, Total, Gaps, Numbered;
    AcksConserve(Counters(0, 0), ts, 0, most);
  }

  function OneByOne(n: nat, window: int32): (ts: seq<Turn>)
    ensures |ts| == n && forall i :: 0 <= i < n ==> ts[i] == Turn(1, window)
  {
    seq(n, _ => Turn(1, window))
  }

  lemma {:induction false} OneByOneThen(n: nat, window: int32, t: Turn)
    ensures Total(OneByOne(n, window) + [t]) == n + t.bytes
  {
    if n > 0 {
      assert (OneByOne(n, window) + [t])[1..] == OneByOne(n - 1, window) + [t];
      OneByOneThen(n - 1, window, t);
    } else {
      assert OneByOne(0, window) + [t] == [t];
    }
  }

  /** Exactly the windows at which every run of turns of at most `most` bytes keeps the books. */
  lemma ConservedIff(window: int32, most: nat)
    requires most <= 0xc000_0000
    ensures (forall ts :: Fixed(ts, window, most) ==> Conserved(Counters(0, 0), ts))
            <==> !(-2 * most < window <= -2)
  {
    LateWindows(window, most);
    hide Threshold, Conserved;
    if InTime(window, most) {
      forall ts | Fixed(ts, window, most) ensures Conserved(Counters(0, 0), ts) {
        ConservedInTime(ts, window, most);
      }
    } else {
      var ts := OneByOne(TOP - most, window) + [Turn(most, window)];
      OneByOneThen(TOP - most, window, Turn(most, window));
      Unnoticed(Counters(0, 0), ts, window, most);
      assert !Conserved(Counters(0, 0), ts);
    }
  }

  lemma FixedWindowTurn(a: Counters, t: Turn, most: nat)
    requires t.window >= 2 && most <= 0xc000_0000 && a.fragment < t.window / 2 && t.bytes <= most
    ensures Next(a, t).fragment < t.window / 2
    ensures forall k <- Due(a, t) :: t.window / 2 <= k.gap < t.window / 2 + most
  {
  }

  /** For a fixed window W of at least 2 and chunks of at most `most` bytes: fewer than W/2
      bytes are unacknowledged after every turn, and every Ack covers at least W/2 and fewer
      than W/2 + most bytes. */
  lemma {:induction false} FixedWindowBounds(a: Counters, ts: seq<Turn>, window: int32, most: nat)
    requires window >= 2 && most <= 0xc000_0000 && a.fragment < window / 2
    requires Fixed(ts, window, most)
    ensures Last(a, ts).fragment < window / 2
    ensures forall k <- Acks(a, ts) :: window / 2 <= k.gap < window / 2 + most
    decreases |ts|
  {
    if ts != [] {
      var t := ts[0];
      assert t in ts;
      assert forall u <- ts[1..] :: u in ts;
      FixedWindowTurn(a, t, most);
      hide Due, Next;
      FixedWindowBounds(Next(a, t), ts[1..], window, most);
      assert forall k <- Acks(a, ts) :: k in Due(a, t) || k in Acks(Next(a, t), ts[1..]);
    }
  }
}
