/** The server's side of a connection with its state updated in place (conn.go,
    server_conn.go, stream_handler.go and the handlers of each state), against the functions
    of Session. */
module SessionConn {
  import opened Bytes
  import opened ControlState
  import opened Registry
  import opened Session
  import SessionSafety

  class Conn {
    const streams: Streams
    const peerState: StreamControlState
    const settings: Settings
    var ignoredMessages: uint32
    var isOpen: bool
    var log: seq<Event>

    ghost predicate Valid()
      reads streams
    {
      && streams.Valid() && streams.max == settings.control.maxMessageStreams
      && peerState.config == settings.control
    }

    ghost function Model(): Server
      reads this, streams, streams.streams.Values, peerState
    {
      Server(streams.States(), ignoredMessages, peerState.chunkSize, peerState.ackWindowSize, isOpen, log)
    }

    constructor (settings: Settings)
      ensures Valid() && this.settings == settings && fresh(streams) && fresh(peerState)
      ensures Model() == SessionSafety.Started(settings).(streams := map[])
    {
      this.settings := settings;
      streams := new Streams(settings.control.maxMessageStreams);
      peerState := new StreamControlState(settings.control);
      ignoredMessages, isOpen, log := 0, true, [];
    }

    /** Streams that were not there before are new objects. */
    twostate predicate Grew()
      reads streams`streams
    {
      fresh(streams.streams.Values - old(streams.streams.Values))
    }

    /** Opens the control stream; there is no serving without it. */
    method Serve() returns (ok: bool)
      requires Valid() && log == [] && streams.streams == map[]
      modifies streams
      ensures Valid() && Grew()
      ensures ok <==> settings.control.maxMessageStreams >= 1
      ensures ok ==> Model() == old(Model()).(streams := FIRST)
    {
      var s := streams.Create(CONTROL);
      if s == null {
        return false;
      }
      s.ChangeState(NotConnected);
      assert streams.States() == FIRST;
      return true;
    }

    /** A callback or a write: it changes no stream. */
    method Record(e: Event)
      requires Valid() && Effect(Model().streams, e) == Model().streams
      modifies this`log
      ensures Valid() && Model() == Emit(old(Model()), e)
    {
      log := log + [e];
    }

    method Shut()
      requires Valid()
      modifies this`isOpen
      ensures Valid() && Model() == Fail(old(Model()))
    {
      isOpen := false;
    }

    method ChangeState(sid: uint32, st: StreamState)
      requires Valid() && sid in streams.streams && !st.Unset?
      modifies this`log, streams.streams[sid]
      ensures Valid() && Model() == Emit(old(Model()), Changed(sid, st)) && streams.streams[sid].state == st
    {
      ghost var was := Model().streams;
      streams.streams[sid].ChangeState(st);
      assert streams.States() == was[sid := st];
      log := log + [Changed(sid, st)];
    }

    method Append(e: Event)
      requires Valid()
      modifies this`log
      ensures Valid() && Model() == old(Model()).(log := old(Model()).log + [e])
    {
      log := log + [e];
    }

    /** The stream with the least free ID, ready for use. */
    method Spawn() returns (a: Allocation)
      requires Valid()
      modifies streams
      ensures Valid() && Grew()
      ensures a == AllocateFrom(old(Model()).streams.Keys, settings.control.maxMessageStreams, 0)
      ensures Model() == if a.Full? then old(Model())
                         else old(Model()).(streams := old(Model()).streams[a.id := Inactive])
    {
      hide AllocateFrom;
      ghost var was := streams.States();
      var s := streams.CreateIfAvailable();
      if s == null {
        return Full;
      }
      s.ChangeState(Inactive);
      assert streams.States() == was[s.streamID := Inactive];
      return Allocated(s.streamID);
    }

    method Open() returns (a: Allocation)
      requires Valid()
      modifies this`log, streams
      ensures Valid() && Grew()
      ensures a == AllocateFrom(old(Model()).streams.Keys, settings.control.maxMessageStreams, 0)
      ensures Model() == if a.Full? then old(Model()) else Emit(old(Model()), Opened(a.id))
    {
      hide AllocateFrom, Model, Valid;
      a := Spawn();
      if a.Allocated? {
        Append(Opened(a.id));
      }
    }

    method Remove(id: uint32) returns (ok: bool)
      requires Valid()
      modifies this`log, streams
      ensures Valid() && Grew()
      ensures ok <==> id in old(Model()).streams
      ensures Model() == if ok then Emit(old(Model()), Removed(id)) else old(Model())
      ensures streams.streams == old(streams.streams) - {id}
    {
      ghost var was := Model().streams;
      ok := streams.Delete(id);
      assert streams.States() == was - {id};
      if ok {
        log := log + [Removed(id)];
      } else {
        assert was - {id} == was;
      }
    }

    method Send(sid: uint32, what: Written, ok: bool) returns (sent: bool)
      requires Valid()
      modifies this`log
      ensures Valid() && sent == ok && Model() == Emit(old(Model()), Wrote(sid, what, ok))
    {
      Record(Wrote(sid, what, ok));
      return ok;
    }

    /** An error and its reply: it ends the connection, unless it is one that the message loop
        drops and the reply went out. */
    method Reply(sid: uint32, what: Written, answer: Answer, ok: bool)
      requires Valid()
      modifies this`log, this`isOpen
      ensures Valid() && Model() == ErrorReply(old(Model()), sid, what, answer, ok)
    {
      hide Emit, Fail, Model, Valid;
      var sent := Send(sid, what, ok);
      if !answer.Unrecognised? || !sent {
        Shut();
      }
    }

    /** The application is told, and its error ends the connection unless it is dropped. */
    method Tell(e: Event, env: Env)
      requires Valid() && !e.Opened? && !e.Removed? && !e.Changed?
      modifies this`log, this`isOpen
      ensures Valid() && Model() == Notify(old(Model()), e, env)
    {
      hide Emit, Fail, Model, Valid, Effect;
      NoEffect(Model().streams, e);
      Record(e);
      if env.answer.Refused? {
        Shut();
      }
    }

    lemma SameStreams(sid: uint32)
      ensures sid in Model().streams <==> sid in streams.streams
      ensures sid in streams.streams ==> Model().streams[sid] == streams.streams[sid].state
    {
    }

    /** Connect: each step in turn, and on the first error the error reply. */
    method Connect(sid: uint32, env: Env)
      requires Valid() && sid in streams.streams
      modifies this`log, this`isOpen, streams.streams[sid]
      ensures Valid() && Model() == HandleConnect(old(Model()), sid, env)
      ensures var told := env.writes(0) && env.writes(1) && env.writes(2) && env.writes(3);
              streams.streams[sid].state
              == if env.answer.Agreed? && told then Connected else old(streams.streams[sid].state)
    {
      hide Emit, Fail, Model, Valid, Effect;
      NoEffect(Model().streams, OnConnect(env.answer));
      Record(OnConnect(env.answer));
      var k := 0;
      var ok := env.answer.Agreed?;
      if ok {
        ok := Send(sid, WroteWinAckSize, env.writes(k));
        k := k + 1;
      }
      if ok {
        ok := Send(sid, WrotePeerBandwidth, env.writes(k));
        k := k + 1;
      }
      if ok {
        ok := Send(sid, WroteStreamBegin, env.writes(k));
        k := k + 1;
      }
      if ok {
        ok := Send(sid, WroteConnectResult(true), env.writes(k));
        k := k + 1;
      }
      if ok {
        ChangeState(sid, Connected);
      } else {
        Reply(sid, WroteConnectResult(false), env.answer, env.writes(k));
      }
    }

    lemma KeepsStreams(s: Server, e: Event)
      requires Effect(s.streams, e) == s.streams
      ensures Emit(s, e).streams == s.streams
    {
    }

    lemma OpenedIsThere(s: Server, answer: Answer, id: uint32, sid: uint32, ok: bool)
      ensures id in Emit(Emit(Emit(s, OnCreateStream(answer)), Opened(id)), Wrote(sid, WroteStreamID(id), ok)).streams
    {
    }

    /** A stream is opened for the peer; whatever fails after that takes it out again, and the
        error is answered. */
    method CreateStream(sid: uint32, env: Env)
      requires Valid()
      modifies this`log, this`isOpen, streams
      ensures Valid() && Grew() && Model() == HandleCreateStream(old(Model()), sid, env, settings)
    {
      hide Emit, Fail, Model, Valid, Effect, AllocateFrom;
      NoEffect(Model().streams, OnCreateStream(env.answer));
      KeepsStreams(Model(), OnCreateStream(env.answer));
      Record(OnCreateStream(env.answer));
      var failed, k := true, 0;
      if env.answer.Agreed? {
        var a := Open();
        match a {
          case Full =>
            var sent := Send(sid, WroteCreateError, env.writes(0));
            failed, k := !sent, 1;
          case Allocated(id) =>
            var sent := Send(sid, WroteStreamID(id), env.writes(0));
            failed, k := !sent, 1;
            if !sent {
              OpenedIsThere(old(Model()), env.answer, id, sid, env.writes(0));
              var _ := Remove(id);
            }
        }
      }
      if failed {
        Reply(sid, WroteCreateError, env.answer, env.writes(k));
      }
    }

    method DeleteStream(target: uint32, env: Env)
      requires Valid()
      modifies this`log, this`isOpen, streams
      ensures Valid() && Grew() && Model() == HandleDeleteStream(old(Model()), target, env)
      ensures streams.streams == if env.answer.Agreed? then old(streams.streams) - {target} else old(streams.streams)
    {
      hide Emit, Fail, Model, Valid, Effect;
      NoEffect(Model().streams, OnDeleteStream(target, env.answer));
      Record(OnDeleteStream(target, env.answer));
      var failed := env.answer.Refused?;
      if env.answer.Agreed? {
        var ok := Remove(target);
        failed := !ok;
      }
      if failed {
        Shut();
      }
    }

    method Publish(sid: uint32, env: Env)
      requires Valid() && sid in streams.streams
      modifies this`log, this`isOpen, streams.streams[sid]
      ensures Valid() && Model() == HandlePublish(old(Model()), sid, env)
      ensures streams.streams[sid].state
              == if env.answer.Agreed? && env.writes(0) then Publishing else old(streams.streams[sid].state)
    {
      hide Emit, Fail, Model, Valid, Effect;
      NoEffect(Model().streams, OnPublish(sid, env.answer));
      Record(OnPublish(sid, env.answer));
      if !env.answer.Agreed? {
        Reply(sid, WrotePublishFailed, env.answer, env.writes(0));
        return;
      }
      var ok := Send(sid, WrotePublishStart, env.writes(0));
      if !ok {
        Shut();
        return;
      }
      ChangeState(sid, Publishing);
    }

    method Play(sid: uint32, env: Env)
      requires Valid() && sid in streams.streams
      modifies this`log, this`isOpen, streams.streams[sid]
      ensures Valid() && Model() == HandlePlay(old(Model()), sid, env)
      ensures streams.streams[sid].state
              == if env.answer.Agreed? && env.writes(0) then Playing else old(streams.streams[sid].state)
    {
      hide Emit, Fail, Model, Valid, Effect;
      NoEffect(Model().streams, OnPlay(sid, env.answer));
      Record(OnPlay(sid, env.answer));
      if !env.answer.Agreed? {
        Reply(sid, WrotePlayFailed, env.answer, env.writes(0));
        return;
      }
      var ok := Send(sid, WrotePlayStart, env.writes(0));
      if !ok {
        Shut();
        return;
      }
      ChangeState(sid, Playing);
    }

    /** A command goes to the handler of its stream's state. */
    method OnCommand(sid: uint32, c: Command, env: Env)
      requires Valid() && sid in streams.streams
      modifies this`log, this`isOpen, streams, streams.streams[sid]
      ensures Valid() && Grew()
      ensures sid in old(Model()).streams && Model() == HandleCommand(old(Model()), sid, c, env, settings)
    {
      SameStreams(sid);
      hide Model, Valid, HandleConnect, HandleCreateStream, HandleDeleteStream, HandlePublish, HandlePlay, Notify, Fail;
      match streams.streams[sid].state {
        case Unset => Shut();
        case NotConnected =>
          if c.Connect? {
            Connect(sid, env);
          } else {
            Tell(OnUnknown(sid, Cmd(c), env.answer), env);
          }
        case Connected =>
          match c {
            case CreateStream => CreateStream(sid, env);
            case DeleteStream(target) => DeleteStream(target, env);
            case ReleaseStream => Tell(OnNotice(c, env.answer), env);
            case FCPublish => Tell(OnNotice(c, env.answer), env);
            case FCUnpublish => Tell(OnNotice(c, env.answer), env);
            case _ => Tell(OnUnknown(sid, Cmd(c), env.answer), env);
          }
        case Inactive =>
          match c {
            case Publish => Publish(sid, env);
            case Play => Play(sid, env);
            case _ => Tell(OnUnknown(sid, Cmd(c), env.answer), env);
          }
        case Publishing => Tell(OnUnknown(sid, Cmd(c), env.answer), env);
        case Playing => Tell(OnUnknown(sid, Cmd(c), env.answer), env);
      }
    }

    method SetPeerChunkSize(n: uint32)
      requires Valid()
      modifies this`isOpen, peerState
      ensures Valid()
      ensures Model() == match AcceptChunkSize(n, settings.control)
                         case Refuse => Fail(old(Model()))
                         case Accept(k) => old(Model()).(chunkSize := k)
    {
      hide AcceptChunkSize;
      var ok := peerState.SetChunkSize(n);
      if !ok {
        Shut();
      }
    }

    method SetPeerWindow(n: int32)
      requires Valid()
      modifies this`isOpen, peerState
      ensures Valid()
      ensures Model() == match AcceptAckWindow(n, settings.control)
                         case Refuse => Fail(old(Model()))
                         case Accept(k) => old(Model()).(window := k)
    {
      hide AcceptAckWindow;
      var ok := peerState.SetAckWindowSize(n);
      if !ok {
        Shut();
      }
    }

    /** A message on a stream that exists. */
    method Handle(sid: uint32, x: Incoming, env: Env)
      requires Valid() && sid in streams.streams
      modifies this`log, this`isOpen, peerState, streams, streams.streams[sid]
      ensures Valid() && Grew()
      ensures sid in old(Model()).streams && Model() == HandleOnStream(old(Model()), sid, x, env, settings)
    {
      SameStreams(sid);
      hide Model, Valid, HandleCommand, Notify, Fail, AcceptChunkSize, AcceptAckWindow;
      match x {
        case Cmd(c) => OnCommand(sid, c, env);
        case Response => Shut();
        case BadBody => Shut();
        case UnknownBody =>
        case SetChunkSize(n) => SetPeerChunkSize(n);
        case WinAckSize(n) => SetPeerWindow(n);
        case OtherMessage =>
          if streams.streams[sid].state.Unset? {
            Shut();
          } else {
            Tell(OnUnknown(sid, x, env.answer), env);
          }
        case _ =>
          if streams.streams[sid].state.Unset? {
            Shut();
          } else if streams.streams[sid].state.Publishing? {
            Tell(OnMedia(sid, x, env.answer), env);
          } else {
            Tell(OnUnknown(sid, x, env.answer), env);
          }
      }
    }

    /** One message of the loop; nothing is read any more once the connection has ended. */
    method HandleMessage(sid: uint32, x: Incoming, env: Env)
      requires Valid()
      modifies this, peerState, streams, streams.streams.Values
      ensures Valid() && Grew()
      ensures Model() == Step(old(Model()), sid, x, env, settings)
    {
      SameStreams(sid);
      hide Valid, HandleOnStream;
      if isOpen {
        if sid in streams.streams {
          Handle(sid, x, env);
        } else if settings.ignoreUnknownStreams && ignoredMessages < settings.ignoreLimit {
          ignoredMessages := ignoredMessages + 1;
        } else {
          Shut();
        }
      }
    }

    /** The message loop over a whole run: it is left as soon as the connection has ended. */
    method Run(xs: seq<SessionSafety.Input>)
      requires Valid()
      modifies this, peerState, streams, streams.streams.Values
      ensures Valid() && Grew()
      ensures Model() == SessionSafety.Serve(old(Model()), xs, settings)
    {
      hide Valid, Step;
      ghost var goal := SessionSafety.Serve(Model(), xs, settings);
      var i := 0;
      while i < |xs| && isOpen
        invariant i <= |xs| && Valid() && Grew()
        invariant SessionSafety.Serve(Model(), xs[i..], settings) == goal
      {
        assert xs[i..][1..] == xs[i + 1..] && xs[i..][0] == xs[i];
        match xs[i] {
          case Input(sid, x, env) => HandleMessage(sid, x, env);
          case NoMessage => Shut();
        }
        i := i + 1;
      }
      if !isOpen {
        SessionSafety.ClosedStaysClosed(Model(), xs[i..], settings);
      }
    }
  }
}
