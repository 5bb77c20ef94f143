/** What ends a server connection: exactly a refusal by the application with an error that the
    message loop does not drop, a write that fails, or one of a few messages that cannot be
    served. */
module SessionEnd {
  import opened Bytes
  import opened ControlState
  import opened Registry
  import opened Session
  import SessionSafety

  /** The application refused with an error that is not dropped, or the peer could not be told. */
  predicate Bad(e: Event) {
    match e
    case Wrote(_, _, ok) => !ok
    case Opened(_) => false
    case Removed(_) => false
    case Changed(_, _) => false
    case _ => e.answer.Refused?
  }

  /** Some event from position n on is bad. */
  predicate AnyBad(log: seq<Event>, n: nat) {
    exists i :: n <= i < |log| && Bad(log[i])
  }

  /** The log goes on from `before`, and has bad news since exactly if `bad`. */
  predicate Tracks(s: Server, before: seq<Event>, bad: bool) {
    before <= s.log && (AnyBad(s.log, |before|) <==> bad)
  }

  lemma TracksEmit(s: Server, e: Event, before: seq<Event>, bad: bool)
    requires Tracks(s, before, bad)
    ensures Tracks(Emit(s, e), before, bad || Bad(e)) && Emit(s, e).open == s.open
  {
    var log := s.log + [e];
    if AnyBad(s.log, |before|) {
      var i :| |before| <= i < |s.log| && Bad(s.log[i]);
      assert log[i] == s.log[i];
    }
    if Bad(e) {
      assert log[|s.log|] == e;
    }
    if AnyBad(log, |before|) && !Bad(e) {
      var i :| |before| <= i < |log| && Bad(log[i]);
      assert s.log[i] == log[i];
    }
  }

  lemma TracksFail(s: Server, before: seq<Event>, bad: bool)
    requires Tracks(s, before, bad)
    ensures Tracks(Fail(s), before, bad) && !Fail(s).open
  {
  }

  lemma TracksStart(s: Server)
    ensures Tracks(s, s.log, false)
  {
  }

  /** The connection ends exactly with bad news, or with `silent` cause. */
  predicate EndsIff(s: Server, s': Server, silent: bool) {
    s.log <= s'.log && (!s'.open <==> AnyBad(s'.log, |s.log|) || silent)
  }

  lemma Track(s: Server, e: Event, before: seq<Event>, bad: bool) returns (s': Server)
    requires Tracks(s, before, bad)
    ensures s' == Emit(s, e) && Tracks(s', before, bad || Bad(e)) && s'.open == s.open
  {
    hide Emit, Tracks;
    s' := Emit(s, e);
    TracksEmit(s, e, before, bad);
  }

  lemma TracksMeans(s: Server, before: seq<Event>, bad: bool)
    requires Tracks(s, before, bad)
    ensures before <= s.log && (AnyBad(s.log, |before|) <==> bad)
  {
    hide AnyBad;
  }

  lemma FailEnds(s: Server, before: seq<Event>, bad: bool)
    requires Tracks(s, before, bad)
    ensures before <= Fail(s).log && (AnyBad(Fail(s).log, |before|) <==> bad) && !Fail(s).open
  {
    hide AnyBad, Tracks, Fail;
    TracksFail(s, before, bad);
    TracksMeans(Fail(s), before, bad);
  }

  /** After an error a reply is tried. If the error was bad news the connection ends; a dropped
      one ends it only if the reply is. */
  lemma ReplyEnds(s: Server, before: seq<Event>, sid: uint32, what: Written, answer: Answer, ok: bool)
    requires s.open && Tracks(s, before, !answer.Unrecognised?)
    ensures var s' := ErrorReply(s, sid, what, answer, ok);
            before <= s'.log && (!s'.open <==> AnyBad(s'.log, |before|))
  {
    hide Emit, Fail, AnyBad, Tracks;
    var s1 := Track(s, Wrote(sid, what, ok), before, !answer.Unrecognised?);
    TracksMeans(s1, before, !answer.Unrecognised? || !ok);
    FailEnds(s1, before, !answer.Unrecognised? || !ok);
  }

  lemma ConnectEnds(s: Server, sid: uint32, env: Env)
    requires s.open
    ensures EndsIff(s, HandleConnect(s, sid, env), false)
  {
    hide Emit, Fail, AnyBad, Tracks;
    var w := env.writes;
    TracksStart(s);
    var s1 := Track(s, OnConnect(env.answer), s.log, false);
    if env.answer.Agreed? {
      var s2 := Track(s1, Wrote(sid, WroteWinAckSize, w(0)), s.log, false);
      if w(0) {
        var s3 := Track(s2, Wrote(sid, WrotePeerBandwidth, w(1)), s.log, false);
        if w(1) {
          var s4 := Track(s3, Wrote(sid, WroteStreamBegin, w(2)), s.log, false);
          if w(2) {
            var s5 := Track(s4, Wrote(sid, WroteConnectResult(true), w(3)), s.log, false);
            if w(3) {
              var s6 := Track(s5, Changed(sid, Connected), s.log, false);
              TracksMeans(s6, s.log, false);
            } else {
              ReplyEnds(s5, s.log, sid, WroteConnectResult(false), env.answer, w(4));
            }
          } else {
            ReplyEnds(s4, s.log, sid, WroteConnectResult(false), env.answer, w(3));
          }
        } else {
          ReplyEnds(s3, s.log, sid, WroteConnectResult(false), env.answer, w(2));
        }
      } else {
        ReplyEnds(s2, s.log, sid, WroteConnectResult(false), env.answer, w(1));
      }
    } else {
      ReplyEnds(s1, s.log, sid, WroteConnectResult(false), env.answer, w(0));
    }
  }

  lemma CreateEnds(s: Server, sid: uint32, env: Env, cfg: Settings)
    requires s.open
    ensures EndsIff(s, HandleCreateStream(s, sid, env, cfg), false)
  {
    hide Emit, Fail, AnyBad, Tracks, AllocateFrom;
    var w := env.writes;
    TracksStart(s);
    var s1 := Track(s, OnCreateStream(env.answer), s.log, false);
    if !env.answer.Agreed? {
      ReplyEnds(s1, s.log, sid, WroteCreateError, env.answer, w(0));
    } else {
      match AllocateFrom(s1.streams.Keys, cfg.control.maxMessageStreams, 0) {
        case Full =>
          var s2 := Track(s1, Wrote(sid, WroteCreateError, w(0)), s.log, false);
          TracksMeans(s2, s.log, !w(0));
          if !w(0) {
            ReplyEnds(s2, s.log, sid, WroteCreateError, env.answer, w(1));
          }
        case Allocated(id) =>
          var s2 := Track(s1, Opened(id), s.log, false);
          var s3 := Track(s2, Wrote(sid, WroteStreamID(id), w(0)), s.log, false);
          TracksMeans(s3, s.log, !w(0));
          if !w(0) {
            var s4 := Track(s3, Removed(id), s.log, true);
            ReplyEnds(s4, s.log, sid, WroteCreateError, env.answer, w(1));
          }
      }
    }
  }

  lemma SameStreams(s: Server, e: Event)
    requires !e.Opened? && !e.Removed? && !e.Changed?
    ensures Emit(s, e).streams == s.streams
  {
  }

  lemma DeleteEnds(s: Server, target: uint32, env: Env)
    requires s.open
    ensures EndsIff(s, HandleDeleteStream(s, target, env), env.answer.Agreed? && target !in s.streams)
  {
    SameStreams(s, OnDeleteStream(target, env.answer));
    hide Emit, Fail, AnyBad, Tracks;
    TracksStart(s);
    var s1 := Track(s, OnDeleteStream(target, env.answer), s.log, false);
    TracksMeans(s1, s.log, env.answer.Refused?);
    FailEnds(s1, s.log, env.answer.Refused?);
    if env.answer.Agreed? && target in s.streams {
      var s2 := Track(s1, Removed(target), s.log, false);
      TracksMeans(s2, s.log, false);
    }
  }

  lemma RoleEnds(s: Server, sid: uint32, env: Env)
    requires s.open
    ensures EndsIff(s, HandlePublish(s, sid, env), false) && EndsIff(s, HandlePlay(s, sid, env), false)
  {
    hide Emit, Fail, AnyBad, Tracks;
    var ok := env.writes(0);
    TracksStart(s);
    var p1 := Track(s, OnPublish(sid, env.answer), s.log, false);
    var q1 := Track(s, OnPlay(sid, env.answer), s.log, false);
    if !env.answer.Agreed? {
      ReplyEnds(p1, s.log, sid, WrotePublishFailed, env.answer, ok);
      ReplyEnds(q1, s.log, sid, WrotePlayFailed, env.answer, ok);
    } else {
      var p2 := Track(p1, Wrote(sid, WrotePublishStart, ok), s.log, false);
      var q2 := Track(q1, Wrote(sid, WrotePlayStart, ok), s.log, false);
      if !ok {
        FailEnds(p2, s.log, true);
        FailEnds(q2, s.log, true);
      } else {
        var p3 := Track(p2, Changed(sid, Publishing), s.log, false);
        var q3 := Track(q2, Changed(sid, Playing), s.log, false);
        TracksMeans(p3, s.log, false);
        TracksMeans(q3, s.log, false);
      }
    }
  }

  lemma NotifyEnds(s: Server, e: Event, env: Env)
    requires s.open && Bad(e) == env.answer.Refused?
    ensures EndsIff(s, Notify(s, e, env), false)
  {
    hide Emit, Fail, AnyBad, Tracks, Bad;
    TracksStart(s);
    var s1 := Track(s, e, s.log, false);
    TracksMeans(s1, s.log, env.answer.Refused?);
    FailEnds(s1, s.log, env.answer.Refused?);
  }

  /** Messages that end the connection without a callback or a write going wrong. */
  predicate Silent(s: Server, sid: uint32, x: Incoming, env: Env, cfg: Settings) {
    if sid !in s.streams then
      !(cfg.ignoreUnknownStreams && s.ignored < cfg.ignoreLimit)
    else
      match x
      case Response => true
      case BadBody => true
      case UnknownBody => false
      case SetChunkSize(n) => AcceptChunkSize(n, cfg.control).Refuse?
      case WinAckSize(n) => AcceptAckWindow(n, cfg.control).Refuse?
      case Cmd(c) =>
        s.streams[sid].Unset?
        || (s.streams[sid].Connected? && c.DeleteStream? && env.answer.Agreed? && c.target !in s.streams)
      case _ => s.streams[sid].Unset?
  }

  lemma CommandEnds(s: Server, sid: uint32, c: Command, env: Env, cfg: Settings)
    requires s.open && sid in s.streams
    ensures EndsIff(s, HandleCommand(s, sid, c, env, cfg), Silent(s, sid, Cmd(c), env, cfg))
  {
    hide HandleConnect, HandleCreateStream, HandleDeleteStream, HandlePublish, HandlePlay, Notify, AnyBad;
    NotifyEnds(s, OnUnknown(sid, Cmd(c), env.answer), env);
    NotifyEnds(s, OnNotice(c, env.answer), env);
    TracksStart(s);
    FailEnds(s, s.log, false);
    match s.streams[sid] {
      case NotConnected => ConnectEnds(s, sid, env);
      case Connected =>
        CreateEnds(s, sid, env, cfg);
        if c.DeleteStream? {
          DeleteEnds(s, c.target, env);
        }
      case Inactive => RoleEnds(s, sid, env);
      case _ =>
    }
  }

  /** A turn of the message loop only adds to the log, and ends an open connection exactly
      when a callback of this turn refused with an error that is not dropped, a write of this
      turn failed, or the message is one that cannot be served. */
  lemma StepEndsIff(s: Server, sid: uint32, x: Incoming, env: Env, cfg: Settings)
    requires s.open
    ensures EndsIff(s, Step(s, sid, x, env, cfg), Silent(s, sid, x, env, cfg))
  {
    hide HandleCommand, Notify, AnyBad, AcceptChunkSize, AcceptAckWindow;
    NotifyEnds(s, OnUnknown(sid, x, env.answer), env);
    NotifyEnds(s, OnMedia(sid, x, env.answer), env);
    TracksStart(s);
    TracksMeans(s, s.log, false);
    if sid in s.streams && x.Cmd? {
      CommandEnds(s, sid, x.command, env, cfg);
    }
  }

  lemma HandlersAsk(s: Server, sid: uint32, env: Env, cfg: Settings)
    requires !env.answer.Agreed?
    ensures HandleConnect(s, sid, env).streams == s.streams
    ensures HandleCreateStream(s, sid, env, cfg).streams == s.streams
    ensures HandlePublish(s, sid, env).streams == s.streams && HandlePlay(s, sid, env).streams == s.streams
  {
    hide AllocateFrom;
  }

  lemma DeletionAsks(s: Server, target: uint32, env: Env)
    requires !env.answer.Agreed?
    ensures HandleDeleteStream(s, target, env).streams == s.streams
  {
  }

  lemma CommandAsks(s: Server, sid: uint32, c: Command, env: Env, cfg: Settings)
    requires !env.answer.Agreed? && sid in s.streams
    ensures HandleCommand(s, sid, c, env, cfg).streams == s.streams
  {
    hide HandleConnect, HandleCreateStream, HandleDeleteStream, HandlePublish, HandlePlay;
    HandlersAsk(s, sid, env, cfg);
    if c.DeleteStream? {
      DeletionAsks(s, c.target, env);
    }
  }

  /** Only a callback that agrees changes a stream. */
  lemma NothingWithoutConsent(s: Server, sid: uint32, x: Incoming, env: Env, cfg: Settings)
    requires !env.answer.Agreed?
    ensures Step(s, sid, x, env, cfg).streams == s.streams
  {
    hide HandleCommand, AcceptChunkSize, AcceptAckWindow;
    if x.Cmd? && sid in s.streams {
      CommandAsks(s, sid, x.command, env, cfg);
    }
  }

  /** A dropped error whose reply, if there is one, goes out leaves nothing but its trace in
      the log: what was asked for can be asked for again. */
  lemma DroppedIsForgotten(s: Server, sid: uint32, x: Incoming, env: Env, cfg: Settings)
    requires s.open && sid in s.streams && !Silent(s, sid, x, env, cfg) && !x.SetChunkSize? && !x.WinAckSize?
    requires env.answer.Unrecognised? && env.writes(0)
    ensures var s' := Step(s, sid, x, env, cfg);
            s' == s.(log := s'.log)
  {
    hide AllocateFrom;
  }

  /** The same for a turn of the message loop, which also ends when there is no message. */
  lemma TurnEndsIff(s: Server, x: SessionSafety.Input, cfg: Settings)
    requires s.open
    ensures EndsIff(s, SessionSafety.Turn(s, x, cfg),
                    x.NoMessage? || Silent(s, x.stream, x.message, x.env, cfg))
  {
    match x {
      case Input(sid, m, env) =>
        hide Step, EndsIff;
        StepEndsIff(s, sid, m, env, cfg);
      case NoMessage =>
        TracksStart(s);
        FailEnds(s, s.log, false);
    }
  }
}
