/** Reading one message (chunk_streamer.go, NewChunkReader): chunks are read until one
    completes a message, and acknowledged on the way. */
module Receiving {
  import opened Bytes
  import opened ChunkStream
  import opened ControlState
  import opened AckWindow
  import T = Transport

  /** The scratch buffer of a connection. */
  const SCRATCH := 0x1_0000

  /** How many bytes can be lost behind a three-byte basic header. */
  function Slack(more: nat): nat {
    Min(more, SCRATCH - 3)
  }

  /** What is on offer is lost, but for what the scratch buffer of 64 KB has no room for. */
  lemma SlackIs(more: nat)
    ensures Slack(more) == if more <= 65533 then more else 65533
  {
  }

  /** How the read of one message ends: with the message; with an error of the chunk layer; or
      with an Ack that cannot be written. `acks` are all that were sent so far. */
  datatype Received =
    | HandedOver(demux: Demux, csid: int, rest: seq<byte>, acks: seq<Ack>, counters: Counters)
    | NotRead(demux: Demux, error: ReadError, acks: seq<Ack>)
    | NotAcknowledged(demux: Demux, acks: seq<Ack>)

  /** `sends` says which Acks can be written, counted from the first of the connection. */
  function NextMessage(d: Demux, s: seq<byte>, more: nat -> nat, a: Counters, window: int32, acks: seq<Ack>,
                       sends: nat -> bool): Received
    decreases |s|
  {
    hide ReadChunk;
    match ReadChunk(d, s, Slack(more(|s|)))
    case Failed(d', error) => NotRead(d', error, acks)
    case Chunk(d', c, rest) =>
      var t := Turn(|s| - |rest|, window);
      if AckWindow.Due(a, t) != [] && !sends(|acks|) then
        NotAcknowledged(d', acks)
      else if d'.readers[c].completed then
        HandedOver(d', c, rest, acks + AckWindow.Due(a, t), Next(a, t))
      else
        NextMessage(d', rest, more, Next(a, t), window, acks + AckWindow.Due(a, t), sends)
  }

  // ---- the chunks alone ---------------------------------------------------------------

  /** How many bytes each chunk took, and how the last one ended. */
  function ToNextMessage(d: Demux, s: seq<byte>, slack: nat -> nat): (seq<nat>, ReadResult)
    decreases |s|
  {
    hide ReadChunk;
    match ReadChunk(d, s, slack(|s|))
    case Failed(d', e) => ([], Failed(d', e))
    case Chunk(d', c, rest) =>
      if d'.readers[c].completed then
        ([|s| - |rest|], Chunk(d', c, rest))
      else
        var later := ToNextMessage(d', rest, slack);
        ([|s| - |rest|] + later.0, later.1)
  }

  lemma OneMoreChunk(d: Demux, s: seq<byte>, slack: nat -> nat, d': Demux, c: int, rest: seq<byte>)
    requires ReadChunk(d, s, slack(|s|)) == Chunk(d', c, rest)
    ensures c in d'.readers && |rest| < |s|
    ensures ToNextMessage(d, s, slack) ==
            if d'.readers[c].completed then ([|s| - |rest|], Chunk(d', c, rest))
            else ([|s| - |rest|] + ToNextMessage(d', rest, slack).0, ToNextMessage(d', rest, slack).1)
  {
    hide ReadChunk;
  }

  /** Message by message, this is all the reading there is: what `NewChunkReader` hands over
      next is the first thing a whole run delivers. */
  lemma {:induction false} NextIsFirstDelivery(d: Demux, config: Config, s: seq<byte>, slack: nat -> nat)
    requires ToNextMessage(d, s, slack).1.Chunk?
    ensures var next := ToNextMessage(d, s, slack).1;
            && next.csid in next.demux.readers && next.demux.readers[next.csid].completed
            && T.ReadAll(d, config, s, slack) == T.Continue(next.demux, config, next.csid, next.rest, slack)
    decreases |s|
  {
    var res := ReadChunk(d, s, slack(|s|));
    T.ReadAllContinues(d, config, s, res.demux, res.csid, res.rest, slack);
    OneMoreChunk(d, s, slack, res.demux, res.csid, res.rest);
    if !res.demux.readers[res.csid].completed {
      hide ReadChunk, T.ReadAll;
      NextIsFirstDelivery(res.demux, config, res.rest, slack);
    }
  }

  // ---- the chunks with their Acks -----------------------------------------------------

  function TurnsFor(sizes: seq<nat>, window: int32): (ts: seq<Turn>)
    ensures |ts| == |sizes| && forall i :: 0 <= i < |ts| ==> ts[i] == Turn(sizes[i], window)
  {
    seq(|sizes|, i requires 0 <= i < |sizes| => Turn(sizes[i], window))
  }

  lemma FirstOfTurns(a: Counters, n: nat, sizes: seq<nat>, window: int32)
    ensures var t := Turn(n, window);
            var all, later := TurnsFor([n] + sizes, window), TurnsFor(sizes, window);
            Acks(a, all) == AckWindow.Due(a, t) + Acks(Next(a, t), later) && Last(a, all) == Last(Next(a, t), later)
    ensures Acks(a, TurnsFor([], window)) == [] && Last(a, TurnsFor([], window)) == a
  {
    hide AckWindow.Due, Next;
    var all := TurnsFor([n] + sizes, window);
    assert all[1..] == TurnsFor(sizes, window) && all[0] == Turn(n, window);
    assert TurnsFor([], window) == [];
  }

  /** The reader and the acknowledgements, put together from the chunks: all of those that the
      window calls for were sent when a message is handed over or a chunk cannot be read, and
      otherwise they were sent up to the first that could not be. */
  lemma {:induction false} NextMessageSends(d: Demux, s: seq<byte>, more: nat -> nat, slack: nat -> nat, a: Counters,
                                            window: int32, acks: seq<Ack>, sends: nat -> bool)
    requires forall n :: slack(n) == Slack(more(n))
    ensures var (sizes, res) := ToNextMessage(d, s, slack);
            var ts := TurnsFor(sizes, window);
            match NextMessage(d, s, more, a, window, acks, sends)
            case HandedOver(d', c, rest, sent, counters) =>
              res == Chunk(d', c, rest) && sent == acks + Acks(a, ts) && counters == Last(a, ts)
            case NotRead(d', error, sent) => res == Failed(d', error) && sent == acks + Acks(a, ts)
            case NotAcknowledged(_, sent) =>
              acks <= sent < acks + Acks(a, ts) && !sends(|sent|)
    decreases |s|
  {
    hide AckWindow.Due, Next, Acks, Last, TurnsFor, Slack, ReadChunk;
    var res := ReadChunk(d, s, slack(|s|));
    FirstOfTurns(a, 0, [], window);
    match res {
      case Failed(_, _) => assert acks + [] == acks;
      case Chunk(d', c, rest) =>
        var n := |s| - |rest|;
        var t := Turn(n, window);
        var later := ToNextMessage(d', rest, slack).0;
        OneMoreChunk(d, s, slack, d', c, rest);
        FirstOfTurns(a, n, later, window);
        FirstOfTurns(a, n, [], window);
        FirstOfTurns(Next(a, t), 0, [], window);
        var due := AckWindow.Due(a, t);
        assert [n] + [] == [n] && due + [] == due;
        if (due == [] || sends(|acks|)) && !d'.readers[c].completed {
          NextMessageSends(d', rest, more, slack, Next(a, t), window, acks + due, sends);
          var rest' := Acks(Next(a, t), TurnsFor(later, window));
          assert acks + (due + rest') == (acks + due) + rest';
        }
    }
  }
}
