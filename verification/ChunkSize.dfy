/** Agreement on the chunk size: what the clamp of conn_state.go hides, and when the switch
    of stream.go keeps both ends in step. */
module ChunkSize {
  import opened Bytes
  import opened ChunkStream
  import opened ControlState
  import opened Lockstep
  import opened Transport

  /** A receiver that clamps the size it is sent cuts every message as the sender does, as
      long as lengths fit 24 bits; beyond them a clamped size would show. */
  lemma ClampIsInvisible(n: uint32, config: Config, length: nat)
    requires n >= 1 && config.maxChunkSize >= MAX_UINT24
    ensures AcceptChunkSize(n, config).Accept?
    ensures CutAlike(n, AcceptChunkSize(n, config).value, length) <==> n <= MAX_UINT24 || length <= MAX_UINT24
  {
  }

  /** Two ends opened with the same settings, completed with the defaults, are in step; and
      completed settings stay as they are. */
  lemma NormalizedEndsAreSynced(cb: Config, highest: int)
    requires cb.maxChunkStreams >= 0
    ensures var c := Normalize(cb);
            && Normalize(c) == c
            && Synced(FreshSender(c, highest), FreshDemux(c))
  {
    FreshEndsAreSynced(Normalize(cb), highest);
  }

  /** The switch message is cut with the new size and read with the old one, so it arrives
      exactly when neither cuts its four bytes, or nothing changes. */
  lemma SwitchTravelsIff(ch: Channel, d: Demux, n: uint32, over: nat)
    requires ch.writer.csid == CONTROL && Idle(ch, d.At(CONTROL)) && d.Room(CONTROL)
    requires 1 <= n <= 0x7fff_ffff && Admissible(ch, SwitchMessage(n), n)
    ensures TravelsIntact(Lockstep.Submit(ch, SwitchMessage(n)), d, SwitchMessage(n), n, over)
            <==> n == d.chunkSize || (n >= 4 && d.chunkSize >= 4)
  {
    SwitchIsShort(n);
    hide Idle, Admissible, TravelsIntact, Lockstep.Submit, SwitchMessage;
    IntactIffAdmissible(ch, d, SwitchMessage(n), n, over);
  }

  lemma ThreeEvents(s: Sender, a: Event, b: Event, c: Event, limit: int)
    requires Legal(s, a, limit) && Legal(Step(s, a), b, limit) && Legal(Step(Step(s, a), b), c, limit)
    ensures LegalRun(s, [a, b, c], limit) && After(s, [a, b, c]) == Step(Step(Step(s, a), b), c)
  {
    hide Legal, Step;
    var s3 := Step(Step(Step(s, a), b), c);
    assert [a, b, c][1..] == [b, c] && [b, c][1..] == [c] && [c][1..] == [];
    assert LegalRun(s3, [], limit) && After(s3, []) == s3;
    assert LegalRun(Step(Step(s, a), b), [c], limit) && After(Step(Step(s, a), b), [c]) == s3;
    assert LegalRun(Step(s, a), [b, c], limit) && After(Step(s, a), [b, c]) == s3;
  }

  lemma IdleIsEmpty(s: Sender, d: Demux, c: int)
    requires Synced(s, d) && s.Lane(c).current.None?
    ensures s.Lane(c).writer.buf == []
  {
    LaneIsLinked(s, d, c);
    hide Synced;
  }

  /** The whole switch, whatever else is being sent: once its message is written the reader
      goes by the size in use, at whatever size it was told before. */
  lemma SwitchCompletes(s: Sender, d: Demux, n: uint32)
    requires Synced(s, d) && Legal(s, Resize(n), d.maxStreams) && 4 <= n <= 0x7fff_ffff && s.peer >= 4
    requires CONTROL <= s.highest && s.Room(CONTROL, d.maxStreams) && s.Lane(CONTROL).current.None?
    requires Admissible(s.Lane(CONTROL), SwitchMessage(n), n)
    ensures var es := [Resize(n), Submit(CONTROL, SwitchMessage(n)), Turn(CONTROL)];
            && LegalRun(s, es, d.maxStreams)
            && After(s, es).chunkSize == After(s, es).peer == n && After(s, es).Lane(CONTROL).current.None?
  {
    var m := SwitchMessage(n);
    SwitchIsShort(n);
    BE32RoundTrip(n);
    IdleIsEmpty(s, d, CONTROL);
    OneChunkSuffices(s.Lane(CONTROL), m, n);
    hide Synced, Admissible, Sent, Lockstep.Submit, Clean, LegalRun, After;
    ThreeEvents(s, Resize(n), Submit(CONTROL, m), Turn(CONTROL), d.maxStreams);
  }

  /** A size above 0x7fffffff is refused after the sender has taken it for its own: from then
      on exactly the messages that the peer does not cut at all get through. */
  lemma RefusedSwitchDesyncs(ch: Channel, d: Demux, m: Message, n: uint32, over: nat)
    requires Apart(ch.writer.csid, over) && Idle(ch, d.At(ch.writer.csid)) && d.Room(ch.writer.csid)
    requires n > 0x7fff_ffff && d.chunkSize <= MAX_UINT24 && Admissible(ch, m, n)
    ensures TravelsIntact(Lockstep.Submit(ch, m), d, m, n, over) <==> |m.payload| <= d.chunkSize
  {
    assert 1 <= |m.payload| <= MAX_UINT24;
    hide Idle, Admissible, TravelsIntact, Lockstep.Submit;
    IntactIffAdmissible(ch, d, m, n, over);
  }
}
