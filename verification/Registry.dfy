/** The message streams of a connection and the allocator of their IDs (streams.go). */
module Registry {
  import opened Bytes

  /** The states a stream can have on the server side; `Unset` until it is given one. */
  datatype StreamState = Unset | NotConnected | Connected | Inactive | Publishing | Playing

  datatype Allocation = Allocated(id: uint32) | Full

  /** Tries `Create` for every candidate in turn; candidates are cut to 32 bits. */
  function AllocateFrom(ids: set<uint32>, max: int, i: nat): Allocation
    decreases max - i
  {
    if i >= max then Full
    else if Wrap32(i) !in ids && |ids| < max then Allocated(Wrap32(i))
    else AllocateFrom(ids, max, i + 1)
  }

  lemma {:induction false} InitialSegment(ids: set<uint32>, n: nat)
    requires forall i: uint32 :: i < n ==> i in ids
    requires n <= 0x1_0000_0000
    ensures |ids| >= n
  {
    if n > 0 {
      var last: uint32 := n - 1;
      InitialSegment(ids - {last}, n - 1);
      assert ids == (ids - {last}) + {last};
    }
  }

  lemma {:induction false} NeverWhenFull(ids: set<uint32>, max: int, i: nat)
    requires |ids| >= max
    ensures AllocateFrom(ids, max, i) == Full
    decreases max - i
  {
    if i < max {
      NeverWhenFull(ids, max, i + 1);
    }
  }

  lemma {:induction false} AllocatesFrom(ids: set<uint32>, max: int, i: nat)
    requires max <= 0x1_0000_0000
    requires forall j: uint32 :: j < i ==> j in ids
    ensures var a := AllocateFrom(ids, max, i);
            && (a.Allocated? <==> i < max && |ids| < max)
            && (a.Allocated? ==> a.id !in ids && a.id < max && forall j: uint32 :: j < a.id ==> j in ids)
    decreases max - i
  {
    if i >= max {
    } else if |ids| < max && Wrap32(i) in ids {
      if i + 1 == max {
        InitialSegment(ids, i + 1);
      }
      AllocatesFrom(ids, max, i + 1);
    } else if |ids| >= max {
      NeverWhenFull(ids, max, i);
    }
  }

  /** A stream can be created exactly when fewer than the limit exist, and it gets the least
      ID that is free. */
  lemma AllocatesIffRoom(ids: set<uint32>, max: int)
    requires 0 <= max <= 0x1_0000_0000
    ensures var a := AllocateFrom(ids, max, 0);
            && (a.Allocated? <==> |ids| < max)
            && (a.Allocated? ==> a.id !in ids && a.id < max && forall j: uint32 :: j < a.id ==> j in ids)
  {
    AllocatesFrom(ids, max, 0);
  }

  class Stream {
    const streamID: uint32
    var state: StreamState

    constructor (streamID: uint32)
      ensures this.streamID == streamID && state == Unset
    {
      this.streamID := streamID;
      state := Unset;
    }

    /** The unset state cannot be asked for. */
    method ChangeState(state: StreamState)
      modifies this
      ensures this.state == if state.Unset? then old(this.state) else state
    {
      if !state.Unset? {
        this.state := state;
      }
    }
  }

  class Streams {
    var streams: map<uint32, Stream>
    const max: int

    /** Every stream is kept under its own ID, so no two keys share a stream. */
    ghost predicate Valid()
      reads this
    {
      forall id <- streams :: streams[id].streamID == id
    }

    ghost function States(): (m: map<uint32, StreamState>)
      reads this, streams.Values
      ensures m.Keys == streams.Keys
    {
      map id <- streams :: streams[id].state
    }

    constructor (max: int)
      ensures Valid() && streams == map[] && this.max == max
    {
      this.max := max;
      streams := map[];
    }

    method Create(streamID: uint32) returns (s: Stream?)
      requires Valid()
      modifies this
      ensures Valid()
      ensures s != null <==> streamID !in old(streams) && |old(streams)| < max
      ensures s == null ==> streams == old(streams)
      ensures s != null ==> fresh(s) && s.state == Unset && s.streamID == streamID
      ensures s != null ==> streams == old(streams)[streamID := s]
    {
      if streamID in streams {
        return null;
      }
      if |streams| >= max {
        return null;
      }
      s := new Stream(streamID);
      streams := streams[streamID := s];
    }

    method CreateIfAvailable() returns (s: Stream?)
      requires Valid()
      modifies this
      ensures Valid()
      ensures AllocateFrom(old(streams).Keys, max, 0) == if s == null then Full else Allocated(s.streamID)
      ensures s == null ==> streams == old(streams)
      ensures s != null ==> fresh(s) && streams == old(streams)[s.streamID := s]
    {
      var i := 0;
      while i < max
        invariant 0 <= i && Valid() && streams == old(streams)
        invariant AllocateFrom(old(streams).Keys, max, 0) == AllocateFrom(old(streams).Keys, max, i)
      {
        assert |streams.Keys| == |streams|;
        s := Create(Wrap32(i));
        if s != null {
          return;
        }
        i := i + 1;
      }
      return null;
    }

    method Delete(streamID: uint32) returns (ok: bool)
      requires Valid()
      modifies this
      ensures Valid()
      ensures ok <==> streamID in old(streams)
      ensures streams == old(streams) - {streamID}
    {
      if streamID !in streams {
        assert streams - {streamID} == streams;
        return false;
      }
      var s := streams[streamID];
      streams := streams - {s.streamID};
      return true;
    }
  }
}
