/** What a turn of the message loop must do: for every message and every state of its stream
    the callback it leads to, the replies in order, and the streams and sizes it leaves. */
module SessionTurns {
  import opened Bytes
  import opened ControlState
  import opened Registry
  import opened Session
  import SessionSafety

  /** The turn adds these events to the log, leaves these streams, ends the connection or not,
      and changes nothing else. */
  predicate Does(s: Server, s': Server, news: seq<Event>, streams: map<uint32, StreamState>, ends: bool) {
    s' == s.(log := s.log + news, streams := streams, open := s.open && !ends)
  }

  // ---- connect ------------------------------------------------------------------------

  /** Until this one, or until all four, the replies to an accepted connect can be written. */
  predicate FailsAt(writes: nat -> bool, k: nat) {
    k <= 4 && (forall i :: 0 <= i < k ==> writes(i)) && (k < 4 ==> !writes(k))
  }

  lemma ConnectTold(s: Server, sid: uint32, env: Env)
    requires env.answer.Agreed? && FailsAt(env.writes, 4)
    ensures Does(s, HandleConnect(s, sid, env),
                 [OnConnect(Agreed), Wrote(sid, WroteWinAckSize, true), Wrote(sid, WrotePeerBandwidth, true),
                  Wrote(sid, WroteStreamBegin, true), Wrote(sid, WroteConnectResult(true), true),
                  Changed(sid, Connected)],
                 s.streams[sid := Connected], false)
  {
    var log, a, f := s.log, OnConnect(Agreed), Changed(sid, Connected);
    var b, c := Wrote(sid, WroteWinAckSize, true), Wrote(sid, WrotePeerBandwidth, true);
    var d, e := Wrote(sid, WroteStreamBegin, true), Wrote(sid, WroteConnectResult(true), true);
    assert log + [a] + [b] + [c] + [d] + [e] + [f] == log + [a, b, c, d, e, f];
  }

  /** The reply that cannot be written is the last but one. */
  lemma ConnectUntold(s: Server, sid: uint32, env: Env, k: nat)
    requires env.answer.Agreed? && FailsAt(env.writes, k) && k < 4
    ensures var told := [Wrote(sid, WroteWinAckSize, true), Wrote(sid, WrotePeerBandwidth, true),
                         Wrote(sid, WroteStreamBegin, true)];
            var untold := [WroteWinAckSize, WrotePeerBandwidth, WroteStreamBegin, WroteConnectResult(true)];
            Does(s, HandleConnect(s, sid, env),
                 [OnConnect(Agreed)] + told[..k]
                 + [Wrote(sid, untold[k], false), Wrote(sid, WroteConnectResult(false), env.writes(k + 1))],
                 s.streams, true)
  {
    var log, a, z := s.log, OnConnect(Agreed), Wrote(sid, WroteConnectResult(false), env.writes(k + 1));
    var told := [Wrote(sid, WroteWinAckSize, true), Wrote(sid, WrotePeerBandwidth, true),
                 Wrote(sid, WroteStreamBegin, true)];
    if k == 0 {
      assert log + [a] + [Wrote(sid, WroteWinAckSize, false)] + [z]
             == log + ([a] + told[..0] + [Wrote(sid, WroteWinAckSize, false), z]);
    } else if k == 1 {
      assert log + [a] + [told[0]] + [Wrote(sid, WrotePeerBandwidth, false)] + [z]
             == log + ([a] + told[..1] + [Wrote(sid, WrotePeerBandwidth, false), z]);
    } else if k == 2 {
      assert log + [a] + [told[0]] + [told[1]] + [Wrote(sid, WroteStreamBegin, false)] + [z]
             == log + ([a] + told[..2] + [Wrote(sid, WroteStreamBegin, false), z]);
    } else {
      assert log + [a] + [told[0]] + [told[1]] + [told[2]] + [Wrote(sid, WroteConnectResult(true), false)] + [z]
             == log + ([a] + told[..3] + [Wrote(sid, WroteConnectResult(true), false), z]);
    }
  }

  lemma ConnectRefused(s: Server, sid: uint32, env: Env)
    requires !env.answer.Agreed?
    ensures Does(s, HandleConnect(s, sid, env),
                 [OnConnect(env.answer), Wrote(sid, WroteConnectResult(false), env.writes(0))], s.streams,
                 env.answer.Refused? || !env.writes(0))
  {
    var a, b := OnConnect(env.answer), Wrote(sid, WroteConnectResult(false), env.writes(0));
    assert s.log + [a] + [b] == s.log + [a, b];
  }

  /** How far the replies get. */
  lemma Fails(writes: nat -> bool) returns (k: nat)
    ensures FailsAt(writes, k)
    ensures k == 4 <==> writes(0) && writes(1) && writes(2) && writes(3)
  {
    k := if !writes(0) then 0 else if !writes(1) then 1 else if !writes(2) then 2 else if !writes(3) then 3 else 4;
  }

  /** A stream that is not connected becomes connected by `connect` exactly if the application
      agrees and all four replies go out; otherwise the streams are as before, and the last
      that is written is the error reply. */
  lemma ConnectTurn(s: Server, sid: uint32, env: Env, cfg: Settings)
    requires s.open && HasState(s.streams, sid, NotConnected)
    ensures var s' := Step(s, sid, Cmd(Connect), env, cfg);
            var connects := env.answer.Agreed? && env.writes(0) && env.writes(1) && env.writes(2) && env.writes(3);
            && |s'.log| > |s.log| && s.log <= s'.log && s'.log[|s.log|] == OnConnect(env.answer)
            && (HasState(s'.streams, sid, Connected) <==> connects)
            && s'.streams == (if connects then s.streams[sid := Connected] else s.streams)
            && (connects ==> s'.open)
            && (!connects ==> exists ok :: s'.log[|s'.log| - 1] == Wrote(sid, WroteConnectResult(false), ok))
  {
    var s' := HandleConnect(s, sid, env);
    var k := Fails(env.writes);
    if env.answer.Agreed? && k == 4 {
      ConnectTold(s, sid, env);
    } else if env.answer.Agreed? {
      ConnectUntold(s, sid, env, k);
    } else {
      ConnectRefused(s, sid, env);
    }
    hide HandleConnect;
    assert Step(s, sid, Cmd(Connect), env, cfg) == s';
    assert env.answer.Agreed? && k < 4 ==>
        s'.log[|s'.log| - 1] == Wrote(sid, WroteConnectResult(false), env.writes(k + 1));
  }

  // ---- publish and play ---------------------------------------------------------------

  /** An inactive stream asks to publish: the application is asked about that, the answer is
      told, and the stream publishes exactly if it was agreed and told. */
  lemma PublishTurn(s: Server, sid: uint32, env: Env, cfg: Settings)
    requires s.open && HasState(s.streams, sid, Inactive)
    ensures var ok := env.writes(0);
            Does(s, Step(s, sid, Cmd(Publish), env, cfg),
                 [OnPublish(sid, env.answer)]
                 + (if !env.answer.Agreed? then [Wrote(sid, WrotePublishFailed, ok)]
                    else if ok then [Wrote(sid, WrotePublishStart, true), Changed(sid, Publishing)]
                    else [Wrote(sid, WrotePublishStart, false)]),
                 if env.answer.Agreed? && ok then s.streams[sid := Publishing] else s.streams,
                 env.answer.Refused? || !ok)
  {
    var a, ok := OnPublish(sid, env.answer), env.writes(0);
    var b := Wrote(sid, if env.answer.Agreed? then WrotePublishStart else WrotePublishFailed, ok);
    assert s.log + [a] + [b] == s.log + ([a] + [b]);
    assert s.log + [a] + [b] + [Changed(sid, Publishing)] == s.log + ([a] + [b, Changed(sid, Publishing)]);
  }

  /** The same for play. */
  lemma PlayTurn(s: Server, sid: uint32, env: Env, cfg: Settings)
    requires s.open && HasState(s.streams, sid, Inactive)
    ensures var ok := env.writes(0);
            Does(s, Step(s, sid, Cmd(Play), env, cfg),
                 [OnPlay(sid, env.answer)]
                 + (if !env.answer.Agreed? then [Wrote(sid, WrotePlayFailed, ok)]
                    else if ok then [Wrote(sid, WrotePlayStart, true), Changed(sid, Playing)]
                    else [Wrote(sid, WrotePlayStart, false)]),
                 if env.answer.Agreed? && ok then s.streams[sid := Playing] else s.streams,
                 env.answer.Refused? || !ok)
  {
    var a, ok := OnPlay(sid, env.answer), env.writes(0);
    var b := Wrote(sid, if env.answer.Agreed? then WrotePlayStart else WrotePlayFailed, ok);
    assert s.log + [a] + [b] == s.log + ([a] + [b]);
    assert s.log + [a] + [b] + [Changed(sid, Playing)] == s.log + ([a] + [b, Changed(sid, Playing)]);
  }

  // ---- streams created and deleted ----------------------------------------------------

  lemma CreatedLaw(s: Server, env: Env, cfg: Settings, id: uint32)
    requires env.answer.Agreed? && id !in s.streams
    requires AllocateFrom(s.streams.Keys, cfg.control.maxMessageStreams, 0) == Allocated(id)
    ensures var ok := env.writes(0);
            Does(s, HandleCreateStream(s, CONTROL, env, cfg),
                 [OnCreateStream(Agreed), Opened(id), Wrote(CONTROL, WroteStreamID(id), ok)]
                 + (if ok then [] else [Removed(id), Wrote(CONTROL, WroteCreateError, env.writes(1))]),
                 if ok then s.streams[id := Inactive] else s.streams, !ok)
  {
    hide AllocateFrom;
    var a, b, c := OnCreateStream(Agreed), Opened(id), Wrote(CONTROL, WroteStreamID(id), env.writes(0));
    var d, e := Removed(id), Wrote(CONTROL, WroteCreateError, env.writes(1));
    assert s.log + [a] + [b] + [c] == s.log + ([a, b, c] + []);
    assert s.log + [a] + [b] + [c] + [d] + [e] == s.log + ([a, b, c] + [d, e]);
    assert s.streams[id := Inactive] - {id} == s.streams;
  }

  lemma FullLaw(s: Server, env: Env, cfg: Settings)
    requires env.answer.Agreed? && AllocateFrom(s.streams.Keys, cfg.control.maxMessageStreams, 0).Full?
    ensures var ok := env.writes(0);
            Does(s, HandleCreateStream(s, CONTROL, env, cfg),
                 [OnCreateStream(Agreed), Wrote(CONTROL, WroteCreateError, ok)]
                 + (if ok then [] else [Wrote(CONTROL, WroteCreateError, env.writes(1))]),
                 s.streams, !ok)
  {
    hide AllocateFrom;
    var a, b, c := OnCreateStream(Agreed), Wrote(CONTROL, WroteCreateError, env.writes(0)),
                   Wrote(CONTROL, WroteCreateError, env.writes(1));
    assert s.log + [a] + [b] == s.log + ([a, b] + []);
    assert s.log + [a] + [b] + [c] == s.log + ([a, b] + [c]);
  }

  lemma CreateRefused(s: Server, env: Env, cfg: Settings)
    requires !env.answer.Agreed?
    ensures Does(s, HandleCreateStream(s, CONTROL, env, cfg),
                 [OnCreateStream(env.answer), Wrote(CONTROL, WroteCreateError, env.writes(0))], s.streams,
                 env.answer.Refused? || !env.writes(0))
  {
    hide AllocateFrom;
    var a, b := OnCreateStream(env.answer), Wrote(CONTROL, WroteCreateError, env.writes(0));
    assert s.log + [a] + [b] == s.log + [a, b];
  }

  /** A connected control stream creates a stream: the least free one is opened and named to
      the peer, or taken out again if it cannot be; every refusal is answered with an error. */
  lemma CreateTurn(s: Server, env: Env, cfg: Settings) returns (id: uint32)
    requires s.open && HasState(s.streams, CONTROL, Connected)
    requires 0 <= cfg.control.maxMessageStreams <= 0x1_0000_0000
    ensures var ok := env.writes(0);
            var room := |s.streams| < cfg.control.maxMessageStreams;
            && (env.answer.Agreed? && room ==>
                  id !in s.streams && id < cfg.control.maxMessageStreams && forall j: uint32 :: j < id ==> j in s.streams)
            && Does(s, Step(s, CONTROL, Cmd(CreateStream), env, cfg),
                    if !env.answer.Agreed? then
                      [OnCreateStream(env.answer), Wrote(CONTROL, WroteCreateError, ok)]
                    else if room then
                      [OnCreateStream(Agreed), Opened(id), Wrote(CONTROL, WroteStreamID(id), ok)]
                      + (if ok then [] else [Removed(id), Wrote(CONTROL, WroteCreateError, env.writes(1))])
                    else
                      [OnCreateStream(Agreed), Wrote(CONTROL, WroteCreateError, ok)]
                      + (if ok then [] else [Wrote(CONTROL, WroteCreateError, env.writes(1))]),
                    if env.answer.Agreed? && room && ok then s.streams[id := Inactive] else s.streams,
                    env.answer.Refused? || !ok)
  {
    AllocatesIffRoom(s.streams.Keys, cfg.control.maxMessageStreams);
    assert |s.streams.Keys| == |s.streams|;
    var a := AllocateFrom(s.streams.Keys, cfg.control.maxMessageStreams, 0);
    id := if a.Allocated? then a.id else 0;
    hide AllocateFrom, HandleCreateStream, Does;
    if !env.answer.Agreed? {
      CreateRefused(s, env, cfg);
    } else if a.Allocated? {
      CreatedLaw(s, env, cfg, id);
    } else {
      FullLaw(s, env, cfg);
    }
  }

  /** A connected control stream deletes a stream: it is gone exactly if the application agrees,
      and asking for one that is not there ends the connection. */
  lemma DeleteTurn(s: Server, sid: uint32, target: uint32, env: Env, cfg: Settings)
    requires s.open && HasState(s.streams, sid, Connected)
    ensures var agreed := env.answer.Agreed?;
            Does(s, Step(s, sid, Cmd(DeleteStream(target)), env, cfg),
                 [OnDeleteStream(target, env.answer)]
                 + (if agreed && target in s.streams then [Removed(target)] else []),
                 if agreed then s.streams - {target} else s.streams,
                 env.answer.Refused? || (agreed && target !in s.streams))
  {
    var a := OnDeleteStream(target, env.answer);
    assert s.log + [a] == s.log + ([a] + []);
    assert s.log + [a] + [Removed(target)] == s.log + ([a] + [Removed(target)]);
    assert target !in s.streams ==> s.streams - {target} == s.streams;
  }

  // ---- what is only passed on ---------------------------------------------------------

  /** A message that is no more than a callback. */
  predicate Passes(s: Server, s': Server, e: Event, answer: Answer) {
    Does(s, s', [e], s.streams, answer.Refused?)
  }

  predicate IsMedia(x: Incoming) {
    x.Audio? || x.Video? || x.SetDataFrame?
  }

  /** Releases and announcements on a connected control stream are passed on as what they are. */
  lemma NoticeTurn(s: Server, sid: uint32, c: Command, env: Env, cfg: Settings)
    requires s.open && HasState(s.streams, sid, Connected)
    requires c.ReleaseStream? || c.FCPublish? || c.FCUnpublish?
    ensures Passes(s, Step(s, sid, Cmd(c), env, cfg), OnNotice(c, env.answer), env.answer)
  {
  }

  /** Audio, video and data frames on a publishing stream are passed on as what they are. */
  lemma MediaTurn(s: Server, sid: uint32, x: Incoming, env: Env, cfg: Settings)
    requires s.open && HasState(s.streams, sid, Publishing) && IsMedia(x)
    ensures Passes(s, Step(s, sid, x, env, cfg), OnMedia(sid, x, env.answer), env.answer)
  {
  }

  /** Does a stream in this state know this message? */
  predicate Known(st: StreamState, x: Incoming) {
    match st
    case Unset => false
    case NotConnected => x == Cmd(Connect)
    case Connected =>
      x.Cmd? && (x.command.CreateStream? || x.command.DeleteStream? || x.command.ReleaseStream?
                 || x.command.FCPublish? || x.command.FCUnpublish?)
    case Inactive => x == Cmd(Publish) || x == Cmd(Play)
    case Publishing => IsMedia(x)
    case Playing => false
  }

  /** Every other command, message and data frame is passed on as unknown. */
  lemma UnknownTurn(s: Server, sid: uint32, x: Incoming, env: Env, cfg: Settings)
    requires s.open && sid in s.streams && !s.streams[sid].Unset? && !Known(s.streams[sid], x)
    requires x.Cmd? || IsMedia(x) || x.OtherMessage?
    ensures Passes(s, Step(s, sid, x, env, cfg), OnUnknown(sid, x, env.answer), env.answer)
  {
    hide HandleConnect, HandleCreateStream, HandleDeleteStream, HandlePublish, HandlePlay;
  }

  // ---- what the application is not asked about ----------------------------------------

  /** A chunk size is taken, cut to 24 bits, if the limit allows; otherwise it ends the
      connection. */
  lemma SizeTurn(s: Server, sid: uint32, n: uint32, env: Env, cfg: Settings)
    requires s.open && sid in s.streams
    ensures var s' := Step(s, sid, SetChunkSize(n), env, cfg);
            var max := cfg.control.maxChunkSize;
            && (s'.open <==> n <= max || 0xff_ffff <= max)
            && s' == s.(open := s'.open,
                        chunkSize := if !s'.open then s.chunkSize else if n <= 0xff_ffff then n else 0xff_ffff)
  {
    AcceptedIff(n, 0, cfg.control);
    hide AcceptChunkSize;
  }

  /** A window is taken as it is if the limit allows; otherwise it ends the connection. */
  lemma WindowTurn(s: Server, sid: uint32, w: int32, env: Env, cfg: Settings)
    requires s.open && sid in s.streams
    ensures var s' := Step(s, sid, WinAckSize(w), env, cfg);
            && (s'.open <==> w <= cfg.control.maxAckWindowSize)
            && s' == s.(open := s'.open, window := if s'.open then w else s.window)
  {
    AcceptedIff(0, w, cfg.control);
    hide AcceptAckWindow;
  }

  /** Responses and malformed bodies end the connection, unknown bodies do nothing. */
  lemma SilentTurn(s: Server, sid: uint32, x: Incoming, env: Env, cfg: Settings)
    requires s.open && sid in s.streams && (x.Response? || x.BadBody? || x.UnknownBody?)
    ensures Does(s, Step(s, sid, x, env, cfg), [], s.streams, !x.UnknownBody?)
  {
    assert s.log + [] == s.log;
  }

  // ---- a session that succeeds --------------------------------------------------------

  /** What a publisher sends, and the application's consent to all of it. */
  function Publisher(x: Incoming, writes: nat -> bool): seq<SessionSafety.Input> {
    var env := Env(Agreed, writes);
    [SessionSafety.Input(CONTROL, Cmd(Connect), env)]
    + ([SessionSafety.Input(CONTROL, Cmd(CreateStream), env)]
       + ([SessionSafety.Input(1, Cmd(Publish), env)] + ([SessionSafety.Input(1, x, env)] + [])))
  }

  lemma ServeFirst(s: Server, sid: uint32, x: Incoming, env: Env, rest: seq<SessionSafety.Input>, cfg: Settings)
    ensures SessionSafety.Serve(s, [SessionSafety.Input(sid, x, env)] + rest, cfg)
            == SessionSafety.Serve(Step(s, sid, x, env, cfg), rest, cfg)
  {
    hide Step;
    assert ([SessionSafety.Input(sid, x, env)] + rest)[1..] == rest;
  }

  lemma ServeNothing(s: Server, cfg: Settings)
    ensures SessionSafety.Serve(s, [], cfg) == s
  {
  }

  lemma StreamOpened(cfg: Settings, env: Env) returns (s: Server)
    requires 2 <= cfg.control.maxMessageStreams <= 0x1_0000_0000 && env.answer.Agreed? && forall i :: env.writes(i)
    ensures var s1 := Step(SessionSafety.Started(cfg), CONTROL, Cmd(Connect), env, cfg);
            s == Step(s1, CONTROL, Cmd(CreateStream), env, cfg)
    ensures s.open && s.streams == map[CONTROL := Connected, 1 := Inactive]
  {
    hide Step;
    var s0 := SessionSafety.Started(cfg);
    ConnectTurn(s0, CONTROL, env, cfg);
    var s1 := Step(s0, CONTROL, Cmd(Connect), env, cfg);
    assert s1.streams == map[CONTROL := Connected];
    var id := CreateTurn(s1, env, cfg);
    s := Step(s1, CONTROL, Cmd(CreateStream), env, cfg);
    var one: uint32 := 1;
    assert |s1.streams| == 1 && one !in s1.streams;
    assert id == 1;
  }

  /** If it is all agreed to and all told, stream 1 is created and publishes, and what is sent
      on it reaches the application. */
  lemma PublisherServed(cfg: Settings, x: Incoming, writes: nat -> bool)
    requires 2 <= cfg.control.maxMessageStreams <= 0x1_0000_0000 && IsMedia(x) && forall i :: writes(i)
    ensures var s' := SessionSafety.Serve(SessionSafety.Started(cfg), Publisher(x, writes), cfg);
            && s'.open && s'.streams == map[CONTROL := Connected, 1 := Publishing]
            && EndsWith(s'.log, [OnMedia(1, x, Agreed)])
  {
    var env := Env(Agreed, writes);
    hide Step;
    var s0 := SessionSafety.Started(cfg);
    var s1 := Step(s0, CONTROL, Cmd(Connect), env, cfg);
    var s2 := StreamOpened(cfg, env);
    PublishTurn(s2, 1, env, cfg);
    var s3 := Step(s2, 1, Cmd(Publish), env, cfg);
    MediaTurn(s3, 1, x, env, cfg);
    hide SessionSafety.Serve, SessionSafety.Started;
    var x4 := [SessionSafety.Input(1, x, env)] + [];
    var x3 := [SessionSafety.Input(1, Cmd(Publish), env)] + x4;
    var x2 := [SessionSafety.Input(CONTROL, Cmd(CreateStream), env)] + x3;
    ServeFirst(s0, CONTROL, Cmd(Connect), env, x2, cfg);
    ServeFirst(s1, CONTROL, Cmd(CreateStream), env, x3, cfg);
    ServeFirst(s2, 1, Cmd(Publish), env, x4, cfg);
    ServeFirst(s3, 1, x, env, [], cfg);
    ServeNothing(Step(s3, 1, x, env, cfg), cfg);
  }
}
