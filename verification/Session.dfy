/** The server session: one control stream, its data streams, and the handler of each state
    (conn.go, stream_handler.go, server_control_not_connected_handler.go,
    server_control_connected_handler.go, server_data_inactive_handler.go,
    server_data_publish_handler.go, server_data_play_handler.go).
    The application's callbacks and the outcome of every write are the environment's choice;
    the log records callbacks, writes and changes of streams in the order they happen. */
module Session {
  import opened Bytes
  import opened ControlState
  import opened Registry

  datatype Command =
    | Connect | CreateStream | DeleteStream(target: uint32)
    | ReleaseStream | FCPublish | FCUnpublish
    | Publish | Play | OtherCommand

  /** A message whose body has been decoded, or not. */
  datatype Incoming =
    | Cmd(command: Command)
    | Response
    | SetDataFrame
    | Audio | Video | OtherMessage
    | SetChunkSize(size: uint32)
    | WinAckSize(window: int32)
    | UnknownBody
    | BadBody

  datatype Written =
    | WroteWinAckSize | WrotePeerBandwidth | WroteStreamBegin
    | WroteConnectResult(success: bool)
    | WroteStreamID(id: uint32) | WroteCreateError
    | WrotePublishStart | WrotePublishFailed | WrotePlayStart | WrotePlayFailed

  /** What a callback answers: no error, some error, or one of the two errors for a body that
      is not known, which the message loop drops wherever they come from. */
  datatype Answer = Agreed | Refused | Unrecognised

  datatype Event =
    | OnConnect(answer: Answer)
    | OnCreateStream(answer: Answer)
    | OnDeleteStream(target: uint32, answer: Answer)
    | OnNotice(command: Command, answer: Answer)
    | OnPublish(stream: uint32, answer: Answer)
    | OnPlay(stream: uint32, answer: Answer)
    | OnMedia(stream: uint32, message: Incoming, answer: Answer)
    | OnUnknown(stream: uint32, message: Incoming, answer: Answer)
    | Wrote(stream: uint32, what: Written, ok: bool)
    | Opened(stream: uint32)
    | Removed(stream: uint32)
    | Changed(stream: uint32, state: StreamState)

  /** What the callback answers, and which of the writes of this step go through. */
  datatype Env = Env(answer: Answer, writes: nat -> bool)

  datatype Settings = Settings(ignoreUnknownStreams: bool, ignoreLimit: uint32, control: Config)

  datatype Server = Server(
    streams: map<uint32, StreamState>,
    ignored: uint32,
    chunkSize: uint32,
    window: int32,
    open: bool,
    log: seq<Event>)

  const CONTROL: uint32 := 0

  /** What an event does to the streams. */
  function Effect(m: map<uint32, StreamState>, e: Event): map<uint32, StreamState> {
    match e
    case Opened(id) => m[id := Inactive]
    case Removed(id) => m - {id}
    case Changed(id, st) => m[id := st]
    case _ => m
  }

  function Emit(s: Server, e: Event): Server {
    s.(streams := Effect(s.streams, e), log := s.log + [e])
  }

  function Fail(s: Server): Server {
    s.(open := false)
  }

  // ---- the handlers -------------------------------------------------------------------

  /** An error and its reply. The error ends the connection, unless it is one that the message
      loop drops; a reply that fails wraps it into one that is not. */
  function ErrorReply(s: Server, sid: uint32, what: Written, answer: Answer, ok: bool): Server {
    var s1 := Emit(s, Wrote(sid, what, ok));
    if answer.Unrecognised? && ok then s1 else Fail(s1)
  }

  function ConnectError(s: Server, sid: uint32, answer: Answer, ok: bool): Server {
    ErrorReply(s, sid, WroteConnectResult(false), answer, ok)
  }

  function HandleConnect(s: Server, sid: uint32, env: Env): Server {
    var s1 := Emit(s, OnConnect(env.answer));
    if !env.answer.Agreed? then ConnectError(s1, sid, env.answer, env.writes(0))
    else
      var s2 := Emit(s1, Wrote(sid, WroteWinAckSize, env.writes(0)));
      if !env.writes(0) then ConnectError(s2, sid, env.answer, env.writes(1))
      else
        var s3 := Emit(s2, Wrote(sid, WrotePeerBandwidth, env.writes(1)));
        if !env.writes(1) then ConnectError(s3, sid, env.answer, env.writes(2))
        else
          var s4 := Emit(s3, Wrote(sid, WroteStreamBegin, env.writes(2)));
          if !env.writes(2) then ConnectError(s4, sid, env.answer, env.writes(3))
          else
            var s5 := Emit(s4, Wrote(sid, WroteConnectResult(true), env.writes(3)));
            if !env.writes(3) then ConnectError(s5, sid, env.answer, env.writes(4))
            else Emit(s5, Changed(sid, Connected))
  }

  function CreateError(s: Server, sid: uint32, answer: Answer, ok: bool): Server {
    ErrorReply(s, sid, WroteCreateError, answer, ok)
  }

  function HandleCreateStream(s: Server, sid: uint32, env: Env, cfg: Settings): Server {
    var s1 := Emit(s, OnCreateStream(env.answer));
    if !env.answer.Agreed? then CreateError(s1, sid, env.answer, env.writes(0))
    else
      match AllocateFrom(s1.streams.Keys, cfg.control.maxMessageStreams, 0)
      case Full =>
        // refused, but the connection is kept if the refusal can be sent
        var s2 := Emit(s1, Wrote(sid, WroteCreateError, env.writes(0)));
        if env.writes(0) then s2 else CreateError(s2, sid, env.answer, env.writes(1))
      case Allocated(id) =>
        var s2 := Emit(s1, Opened(id));
        var s3 := Emit(s2, Wrote(sid, WroteStreamID(id), env.writes(0)));
        if env.writes(0) then s3 else CreateError(Emit(s3, Removed(id)), sid, env.answer, env.writes(1))
  }

  function HandleDeleteStream(s: Server, target: uint32, env: Env): Server {
    var s1 := Emit(s, OnDeleteStream(target, env.answer));
    match env.answer
    case Refused => Fail(s1)
    case Unrecognised => s1
    case Agreed => if target in s1.streams then Emit(s1, Removed(target)) else Fail(s1)
  }

  function HandlePublish(s: Server, sid: uint32, env: Env): Server {
    var s1 := Emit(s, OnPublish(sid, env.answer));
    if !env.answer.Agreed? then ErrorReply(s1, sid, WrotePublishFailed, env.answer, env.writes(0))
    else
      var s2 := Emit(s1, Wrote(sid, WrotePublishStart, env.writes(0)));
      if env.writes(0) then Emit(s2, Changed(sid, Publishing)) else Fail(s2)
  }

  function HandlePlay(s: Server, sid: uint32, env: Env): Server {
    var s1 := Emit(s, OnPlay(sid, env.answer));
    if !env.answer.Agreed? then ErrorReply(s1, sid, WrotePlayFailed, env.answer, env.writes(0))
    else
      var s2 := Emit(s1, Wrote(sid, WrotePlayStart, env.writes(0)));
      if env.writes(0) then Emit(s2, Changed(sid, Playing)) else Fail(s2)
  }

  /** A single callback whose error ends the connection, unless it is dropped. */
  function Notify(s: Server, e: Event, env: Env): Server {
    var s1 := Emit(s, e);
    if env.answer.Refused? then Fail(s1) else s1
  }

  /** Commands go to the handler of the stream's state; what it does not know is passed to
      the application as unknown. */
  function HandleCommand(s: Server, sid: uint32, c: Command, env: Env, cfg: Settings): Server
    requires sid in s.streams
  {
    match s.streams[sid]
    case Unset => Fail(s)
    case NotConnected =>
      if c.Connect? then HandleConnect(s, sid, env) else Notify(s, OnUnknown(sid, Cmd(c), env.answer), env)
    case Connected =>
      (match c
       case CreateStream => HandleCreateStream(s, sid, env, cfg)
       case DeleteStream(target) => HandleDeleteStream(s, target, env)
       case ReleaseStream => Notify(s, OnNotice(c, env.answer), env)
       case FCPublish => Notify(s, OnNotice(c, env.answer), env)
       case FCUnpublish => Notify(s, OnNotice(c, env.answer), env)
       case _ => Notify(s, OnUnknown(sid, Cmd(c), env.answer), env))
    case Inactive =>
      (match c
       case Publish => HandlePublish(s, sid, env)
       case Play => HandlePlay(s, sid, env)
       case _ => Notify(s, OnUnknown(sid, Cmd(c), env.answer), env))
    case Publishing => Notify(s, OnUnknown(sid, Cmd(c), env.answer), env)
    case Playing => Notify(s, OnUnknown(sid, Cmd(c), env.answer), env)
  }

  function HandleOnStream(s: Server, sid: uint32, x: Incoming, env: Env, cfg: Settings): Server
    requires sid in s.streams
  {
    match x
    case Cmd(c) => HandleCommand(s, sid, c, env, cfg)
    case Response => Fail(s)
    case BadBody => Fail(s)
    case UnknownBody => s
    case SetChunkSize(n) =>
      (match AcceptChunkSize(n, cfg.control)
       case Refuse => Fail(s)
       case Accept(k) => s.(chunkSize := k))
    case WinAckSize(w) =>
      (match AcceptAckWindow(w, cfg.control)
       case Refuse => Fail(s)
       case Accept(k) => s.(window := k))
    case OtherMessage => if s.streams[sid].Unset? then Fail(s) else Notify(s, OnUnknown(sid, x, env.answer), env)
    case _ =>
      // audio, video and data frames
      if s.streams[sid].Unset? then Fail(s)
      else if s.streams[sid].Publishing? then Notify(s, OnMedia(sid, x, env.answer), env)
      else Notify(s, OnUnknown(sid, x, env.answer), env)
  }

  /** One turn of the message loop. */
  function Step(s: Server, sid: uint32, x: Incoming, env: Env, cfg: Settings): Server {
    if !s.open then s
    else if sid in s.streams then HandleOnStream(s, sid, x, env, cfg)
    else if cfg.ignoreUnknownStreams && s.ignored < cfg.ignoreLimit then s.(ignored := s.ignored + 1)
    else Fail(s)
  }

  // ---- what the log may hold ----------------------------------------------------------

  const FIRST: map<uint32, StreamState> := map[CONTROL := NotConnected]

  /** The streams after a history. */
  function Replay(log: seq<Event>): map<uint32, StreamState> {
    if log == [] then FIRST else Effect(Replay(log[..|log| - 1]), log[|log| - 1])
  }

  predicate EndsWith(log: seq<Event>, tail: seq<Event>) {
    |tail| <= |log| && log[|log| - |tail|..] == tail
  }

  predicate HasState(m: map<uint32, StreamState>, id: uint32, st: StreamState) {
    id in m && m[id] == st
  }

  /** May this event follow this history? */
  predicate Allowed(log: seq<Event>, e: Event) {
    var m := Replay(log);
    match e
    case OnConnect(_) => HasState(m, CONTROL, NotConnected)
    case OnCreateStream(_) => HasState(m, CONTROL, Connected)
    case OnDeleteStream(_, _) => HasState(m, CONTROL, Connected)
    case OnNotice(_, _) => HasState(m, CONTROL, Connected)
    case OnPublish(id, _) => HasState(m, id, Inactive)
    case OnPlay(id, _) => HasState(m, id, Inactive)
    case OnMedia(id, x, _) => HasState(m, id, Publishing) && (x.Audio? || x.Video? || x.SetDataFrame?)
    case OnUnknown(id, _, _) => id in m
    case Wrote(id, what, _) => id in m && (what.WroteStreamID? ==> EndsWith(log, [Opened(what.id)]))
    case Opened(id) =>
      id !in m && HasState(m, CONTROL, Connected) && (forall j: uint32 :: j < id ==> j in m)
      && EndsWith(log, [OnCreateStream(Agreed)])
    case Removed(id) =>
      id in m && HasState(m, CONTROL, Connected)
      && (EndsWith(log, [OnDeleteStream(id, Agreed)])
          || EndsWith(log, [Opened(id), Wrote(CONTROL, WroteStreamID(id), false)]))
    case Changed(id, Connected) =>
      id == CONTROL && HasState(m, id, NotConnected)
      && EndsWith(log, [OnConnect(Agreed), Wrote(id, WroteWinAckSize, true), Wrote(id, WrotePeerBandwidth, true),
                        Wrote(id, WroteStreamBegin, true), Wrote(id, WroteConnectResult(true), true)])
    case Changed(id, Publishing) =>
      HasState(m, id, Inactive) && EndsWith(log, [OnPublish(id, Agreed), Wrote(id, WrotePublishStart, true)])
    case Changed(id, Playing) =>
      HasState(m, id, Inactive) && EndsWith(log, [OnPlay(id, Agreed), Wrote(id, WrotePlayStart, true)])
    case Changed(_, _) => false
  }

  predicate WellFormed(log: seq<Event>) {
    forall i :: 0 <= i < |log| ==> Allowed(log[..i], log[i])
  }

  /** The control stream, if present, is only ever connected or not; data streams never are. */
  predicate Shape(m: map<uint32, StreamState>) {
    forall id <- m ::
      if id == CONTROL then m[id] in {NotConnected, Connected} else m[id] in {Inactive, Publishing, Playing}
  }

  predicate Inv(s: Server) {
    s.streams == Replay(s.log) && WellFormed(s.log) && Shape(s.streams)
  }

  lemma ReplayAppends(log: seq<Event>, e: Event)
    ensures Replay(log + [e]) == Effect(Replay(log), e)
  {
    assert (log + [e])[..|log|] == log;
  }

  lemma WellFormedAppends(log: seq<Event>, e: Event)
    requires WellFormed(log) && Allowed(log, e)
    ensures WellFormed(log + [e])
  {
    hide Allowed;
    var log' := log + [e];
    forall i | 0 <= i < |log'| ensures Allowed(log'[..i], log'[i]) {
      assert log'[..i] == if i < |log| then log[..i] else log;
    }
  }

  lemma EffectKeepsShape(log: seq<Event>, e: Event)
    requires Shape(Replay(log)) && Allowed(log, e)
    ensures Shape(Effect(Replay(log), e))
  {
    hide Replay, EndsWith;
  }

  /** A permitted event keeps the server in agreement with its history. */
  lemma EmitKeepsInv(s: Server, e: Event)
    requires Inv(s) && Allowed(s.log, e)
    ensures Inv(Emit(s, e))
  {
    ReplayAppends(s.log, e);
    WellFormedAppends(s.log, e);
    EffectKeepsShape(s.log, e);
    hide Replay, WellFormed, Allowed, Shape, Effect;
  }

  lemma EndsWithAppends(log: seq<Event>, tail: seq<Event>, e: Event)
    requires EndsWith(log, tail)
    ensures EndsWith(log + [e], tail + [e])
  {
  }

  /** Consistent, with these streams, and with these events last in the log. */
  predicate Reached(s: Server, m: map<uint32, StreamState>, tail: seq<Event>) {
    Inv(s) && s.streams == m && EndsWith(s.log, tail)
  }

  lemma Begin(s: Server, e: Event)
    requires Inv(s) && Allowed(s.log, e)
    ensures Reached(Emit(s, e), Effect(s.streams, e), [e])
  {
    EmitKeepsInv(s, e);
    hide Inv, Effect, Allowed;
  }

  /** Writes are always possible on a live stream and change nothing else; only the reply
      that names a new stream must follow its opening. */
  lemma AfterWrite(s: Server, m: map<uint32, StreamState>, tail: seq<Event>, sid: uint32, what: Written, ok: bool)
    requires Reached(s, m, tail) && sid in m && (what.WroteStreamID? ==> tail == [Opened(what.id)])
    ensures var e := Wrote(sid, what, ok);
            Reached(Emit(s, e), m, tail + [e]) && Inv(Emit(s, e))
  {
    var e := Wrote(sid, what, ok);
    assert Allowed(s.log, e) by { hide WellFormed, Shape, Replay, EndsWith; }
    hide Allowed;
    EmitKeepsInv(s, e);
    EndsWithAppends(s.log, tail, e);
    hide WellFormed, Shape, Replay, EndsWith;
  }

  lemma NoEffect(m: map<uint32, StreamState>, e: Event)
    requires !e.Opened? && !e.Removed? && !e.Changed?
    ensures Effect(m, e) == m
  {
  }

  lemma FailKeepsInv(s: Server)
    requires Inv(s)
    ensures Inv(Fail(s))
  {
    hide Replay, WellFormed, Shape;
  }

  lemma ErrorReplyKeepsInv(s: Server, m: map<uint32, StreamState>, tail: seq<Event>, sid: uint32, what: Written,
                           answer: Answer, ok: bool)
    requires Reached(s, m, tail) && sid in m && !what.WroteStreamID?
    ensures Inv(ErrorReply(s, sid, what, answer, ok))
  {
    hide Reached, Inv, Emit, Fail;
    AfterWrite(s, m, tail, sid, what, ok);
    FailKeepsInv(Emit(s, Wrote(sid, what, ok)));
  }

  /** Only the control stream is ever connected or waiting to be. */
  lemma ControlIsZero(s: Server, sid: uint32)
    requires Inv(s) && sid in s.streams && s.streams[sid] in {NotConnected, Connected}
    ensures sid == CONTROL
  {
    hide Replay, WellFormed;
  }

  lemma BeginConnect(s: Server, sid: uint32, answer: Answer)
    requires Inv(s) && HasState(s.streams, sid, NotConnected)
    ensures Reached(Emit(s, OnConnect(answer)), s.streams, [OnConnect(answer)])
  {
    ControlIsZero(s, sid);
    assert Allowed(s.log, OnConnect(answer)) by { hide Replay, WellFormed, Shape; }
    hide Inv, Allowed, Emit, Reached;
    Begin(s, OnConnect(answer));
  }

  lemma WritesReached(s: Server, m: map<uint32, StreamState>, tail: seq<Event>, sid: uint32, what: Written,
                      ok: bool, answer: Answer, next: bool)
    requires Reached(s, m, tail) && sid in m && !what.WroteStreamID?
    ensures var e := Wrote(sid, what, ok);
            Reached(Emit(s, e), m, tail + [e]) && Inv(ConnectError(Emit(s, e), sid, answer, next))
  {
    hide Reached, Inv, Emit, Fail;
    AfterWrite(s, m, tail, sid, what, ok);
    ErrorReplyKeepsInv(Emit(s, Wrote(sid, what, ok)), m, tail + [Wrote(sid, what, ok)], sid, WroteConnectResult(false),
                       answer, next);
  }

  lemma RepliesSent(s: Server, m: map<uint32, StreamState>)
    requires HasState(m, CONTROL, NotConnected)
    requires Reached(s, m, [OnConnect(Agreed), Wrote(CONTROL, WroteWinAckSize, true),
                            Wrote(CONTROL, WrotePeerBandwidth, true), Wrote(CONTROL, WroteStreamBegin, true),
                            Wrote(CONTROL, WroteConnectResult(true), true)])
    ensures Inv(Emit(s, Changed(CONTROL, Connected)))
  {
    hide EndsWith, WellFormed, Shape, Replay, Emit;
    assert Allowed(s.log, Changed(CONTROL, Connected));
    hide Allowed, Reached;
    EmitKeepsInv(s, Changed(CONTROL, Connected));
  }

  lemma ConnectSucceeds(s1: Server, m: map<uint32, StreamState>, sid: uint32, s5: Server)
    requires sid == CONTROL && HasState(m, sid, NotConnected) && Reached(s1, m, [OnConnect(Agreed)])
    requires s5 == Emit(Emit(Emit(Emit(s1, Wrote(sid, WroteWinAckSize, true)), Wrote(sid, WrotePeerBandwidth, true)),
                             Wrote(sid, WroteStreamBegin, true)), Wrote(sid, WroteConnectResult(true), true))
    ensures Inv(Emit(s5, Changed(sid, Connected)))
  {
    hide Reached, Emit, Inv;
    var a := OnConnect(Agreed);
    var b, c := Wrote(sid, WroteWinAckSize, true), Wrote(sid, WrotePeerBandwidth, true);
    var d, e := Wrote(sid, WroteStreamBegin, true), Wrote(sid, WroteConnectResult(true), true);
    AfterWrite(s1, m, [a], sid, WroteWinAckSize, true);
    AfterWrite(Emit(s1, b), m, [a] + [b], sid, WrotePeerBandwidth, true);
    AfterWrite(Emit(Emit(s1, b), c), m, [a] + [b] + [c], sid, WroteStreamBegin, true);
    AfterWrite(Emit(Emit(Emit(s1, b), c), d), m, [a] + [b] + [c] + [d], sid, WroteConnectResult(true), true);
    assert [a] + [b] + [c] + [d] + [e] == [a, b, c, d, e];
    RepliesSent(s5, m);
  }

  lemma ConnectKeepsInv(s: Server, sid: uint32, env: Env)
    requires Inv(s) && HasState(s.streams, sid, NotConnected)
    ensures Inv(HandleConnect(s, sid, env))
  {
    hide Inv, Reached, Emit, Fail;
    var m, w := s.streams, env.writes;
    assert sid in m;
    ControlIsZero(s, sid);
    BeginConnect(s, sid, env.answer);
    var a := OnConnect(env.answer);
    var s1 := Emit(s, a);
    ErrorReplyKeepsInv(s1, m, [a], sid, WroteConnectResult(false), env.answer, w(0));
    if env.answer.Agreed? {
      WritesReached(s1, m, [a], sid, WroteWinAckSize, w(0), env.answer, w(1));
      var s2, b := Emit(s1, Wrote(sid, WroteWinAckSize, w(0))), [a] + [Wrote(sid, WroteWinAckSize, w(0))];
      WritesReached(s2, m, b, sid, WrotePeerBandwidth, w(1), env.answer, w(2));
      var s3, c := Emit(s2, Wrote(sid, WrotePeerBandwidth, w(1))), b + [Wrote(sid, WrotePeerBandwidth, w(1))];
      WritesReached(s3, m, c, sid, WroteStreamBegin, w(2), env.answer, w(3));
      var s4, d := Emit(s3, Wrote(sid, WroteStreamBegin, w(2))), c + [Wrote(sid, WroteStreamBegin, w(2))];
      WritesReached(s4, m, d, sid, WroteConnectResult(true), w(3), env.answer, w(4));
      if w(0) && w(1) && w(2) && w(3) {
        ConnectSucceeds(s1, m, sid, Emit(s4, Wrote(sid, WroteConnectResult(true), true)));
      }
    }
  }

  lemma OpenedReached(s: Server, m: map<uint32, StreamState>, id: uint32)
    requires Reached(s, m, [OnCreateStream(Agreed)]) && HasState(m, CONTROL, Connected)
    requires id !in m && forall j: uint32 :: j < id ==> j in m
    ensures Reached(Emit(s, Opened(id)), m[id := Inactive], [Opened(id)])
  {
    assert Inv(s) by { hide Inv; }
    assert Allowed(s.log, Opened(id)) by { hide EndsWith, WellFormed, Replay, Shape; }
    hide Inv, Emit, Allowed, EndsWith;
    assert Effect(m, Opened(id)) == m[id := Inactive];
    Begin(s, Opened(id));
  }

  /** Taking a stream out and replying with the error. */
  lemma UndoKeepsInv(s: Server, m: map<uint32, StreamState>, sid: uint32, id: uint32, answer: Answer,
                     ok: bool)
    requires Reached(s, m, [Opened(id), Wrote(CONTROL, WroteStreamID(id), false)])
    requires sid == CONTROL != id && HasState(m, sid, Connected) && id in m
    ensures Inv(CreateError(Emit(s, Removed(id)), sid, answer, ok))
  {
    assert Inv(s) by { hide Inv; }
    assert Allowed(s.log, Removed(id)) by { hide EndsWith, WellFormed, Replay, Shape; }
    hide Inv, Emit, Fail, Allowed, EndsWith;
    Begin(s, Removed(id));
    assert Effect(m, Removed(id)) == m - {id};
    ErrorReplyKeepsInv(Emit(s, Removed(id)), m - {id}, [Removed(id)], sid, WroteCreateError, answer, ok);
  }

  lemma OpenKeepsInv(s: Server, m: map<uint32, StreamState>, sid: uint32, id: uint32, answer: Answer, w: nat -> bool)
    requires Reached(s, m, [OnCreateStream(Agreed)]) && sid == CONTROL && HasState(m, sid, Connected)
    requires id !in m && forall j: uint32 :: j < id ==> j in m
    ensures var s2 := Emit(Emit(s, Opened(id)), Wrote(sid, WroteStreamID(id), w(0)));
            Inv(s2) && (!w(0) ==> Inv(CreateError(Emit(s2, Removed(id)), sid, answer, w(1))))
  {
    hide Inv, Emit, Fail, Reached;
    var m' := m[id := Inactive];
    var e := Wrote(sid, WroteStreamID(id), w(0));
    OpenedReached(s, m, id);
    var s1 := Emit(s, Opened(id));
    AfterWrite(s1, m', [Opened(id)], sid, WroteStreamID(id), w(0));
    if !w(0) {
      assert [Opened(id)] + [e] == [Opened(id), Wrote(CONTROL, WroteStreamID(id), false)];
      UndoKeepsInv(Emit(s1, e), m', sid, id, answer, w(1));
    }
  }

  lemma CreateKeepsInv(s: Server, sid: uint32, env: Env, cfg: Settings)
    requires Inv(s) && HasState(s.streams, sid, Connected)
    requires 0 <= cfg.control.maxMessageStreams <= 0x1_0000_0000
    ensures Inv(HandleCreateStream(s, sid, env, cfg))
  {
    var m, w := s.streams, env.writes;
    assert sid == CONTROL;
    var a := OnCreateStream(env.answer);
    var s1 := Emit(s, a);
    Begin(s, a);
    if !env.answer.Agreed? {
      ErrorReplyKeepsInv(s1, m, [a], sid, WroteCreateError, env.answer, w(0));
    } else {
      AllocatesIffRoom(m.Keys, cfg.control.maxMessageStreams);
      match AllocateFrom(m.Keys, cfg.control.maxMessageStreams, 0) {
        case Full =>
          hide Reached, Emit, Fail, Inv;
          AfterWrite(s1, m, [a], sid, WroteCreateError, w(0));
          ErrorReplyKeepsInv(Emit(s1, Wrote(sid, WroteCreateError, w(0))), m,
                             [a] + [Wrote(sid, WroteCreateError, w(0))], sid, WroteCreateError, env.answer, w(1));
        case Allocated(id) =>
          OpenKeepsInv(s1, m, sid, id, env.answer, w);
      }
    }
  }

  lemma DeleteKeepsInv(s: Server, target: uint32, env: Env)
    requires Inv(s) && HasState(s.streams, CONTROL, Connected)
    ensures Inv(HandleDeleteStream(s, target, env))
  {
    var a := OnDeleteStream(target, env.answer);
    assert Allowed(s.log, a) by { hide EndsWith, WellFormed, Replay, Shape; }
    Begin(s, a);
    var s1 := Emit(s, a);
    FailKeepsInv(s1);
    if env.answer.Agreed? && target in s1.streams {
      assert Allowed(s1.log, Removed(target)) by { hide EndsWith, WellFormed, Replay, Shape; }
      hide WellFormed, Shape, Allowed, EndsWith, Replay;
      EmitKeepsInv(s1, Removed(target));
    }
  }

  /** A callback changes no stream. */
  lemma BeginQuietly(s: Server, e: Event)
    requires Inv(s) && Allowed(s.log, e) && !e.Opened? && !e.Removed? && !e.Changed?
    ensures Reached(Emit(s, e), s.streams, [e])
  {
    NoEffect(s.streams, e);
    hide Inv, Allowed, Emit, Effect, Reached;
    Begin(s, e);
  }

  lemma MayTakeRole(s: Server, sid: uint32, answer: Answer)
    requires Inv(s) && HasState(s.streams, sid, Inactive)
    ensures Allowed(s.log, OnPublish(sid, answer)) && Allowed(s.log, OnPlay(sid, answer))
  {
    hide EndsWith, WellFormed, Replay, Shape;
  }

  lemma PublishTold(s: Server, m: map<uint32, StreamState>, sid: uint32)
    requires HasState(m, sid, Inactive) && Reached(s, m, [OnPublish(sid, Agreed), Wrote(sid, WrotePublishStart, true)])
    ensures Inv(Emit(s, Changed(sid, Publishing)))
  {
    hide EndsWith, WellFormed, Shape, Replay, Emit;
    assert Allowed(s.log, Changed(sid, Publishing));
    hide Allowed, Reached;
    EmitKeepsInv(s, Changed(sid, Publishing));
  }

  lemma PublishKeepsInv(s: Server, sid: uint32, env: Env)
    requires Inv(s) && HasState(s.streams, sid, Inactive)
    ensures Inv(HandlePublish(s, sid, env))
  {
    hide Inv, Allowed, Emit, Fail, Effect, Reached;
    var m, w, a := s.streams, env.writes, OnPublish(sid, env.answer);
    assert sid in m;
    MayTakeRole(s, sid, env.answer);
    BeginQuietly(s, a);
    var s1 := Emit(s, a);
    if !env.answer.Agreed? {
      ErrorReplyKeepsInv(s1, m, [a], sid, WrotePublishFailed, env.answer, w(0));
    } else {
      AfterWrite(s1, m, [a], sid, WrotePublishStart, w(0));
      FailKeepsInv(Emit(s1, Wrote(sid, WrotePublishStart, w(0))));
      if w(0) {
        assert [a] + [Wrote(sid, WrotePublishStart, true)] == [a, Wrote(sid, WrotePublishStart, true)];
        PublishTold(Emit(s1, Wrote(sid, WrotePublishStart, true)), m, sid);
      }
    }
  }

  lemma PlayTold(s: Server, m: map<uint32, StreamState>, sid: uint32)
    requires HasState(m, sid, Inactive) && Reached(s, m, [OnPlay(sid, Agreed), Wrote(sid, WrotePlayStart, true)])
    ensures Inv(Emit(s, Changed(sid, Playing)))
  {
    hide EndsWith, WellFormed, Shape, Replay, Emit;
    assert Allowed(s.log, Changed(sid, Playing));
    hide Allowed, Reached;
    EmitKeepsInv(s, Changed(sid, Playing));
  }

  lemma PlayKeepsInv(s: Server, sid: uint32, env: Env)
    requires Inv(s) && HasState(s.streams, sid, Inactive)
    ensures Inv(HandlePlay(s, sid, env))
  {
    hide Inv, Allowed, Emit, Fail, Effect, Reached;
    var m, w, a := s.streams, env.writes, OnPlay(sid, env.answer);
    assert sid in m;
    MayTakeRole(s, sid, env.answer);
    BeginQuietly(s, a);
    var s1 := Emit(s, a);
    if !env.answer.Agreed? {
      ErrorReplyKeepsInv(s1, m, [a], sid, WrotePlayFailed, env.answer, w(0));
    } else {
      AfterWrite(s1, m, [a], sid, WrotePlayStart, w(0));
      FailKeepsInv(Emit(s1, Wrote(sid, WrotePlayStart, w(0))));
      if w(0) {
        assert [a] + [Wrote(sid, WrotePlayStart, true)] == [a, Wrote(sid, WrotePlayStart, true)];
        PlayTold(Emit(s1, Wrote(sid, WrotePlayStart, true)), m, sid);
      }
    }
  }

  lemma NotifyKeepsInv(s: Server, e: Event, env: Env)
    requires Inv(s) && Allowed(s.log, e)
    ensures Inv(Notify(s, e, env))
  {
    EmitKeepsInv(s, e);
    FailKeepsInv(Emit(s, e));
  }

  lemma ControlCommandKeepsInv(s: Server, sid: uint32, c: Command, env: Env, cfg: Settings)
    requires Inv(s) && HasState(s.streams, sid, Connected) && 0 <= cfg.control.maxMessageStreams <= 0x1_0000_0000
    ensures Inv(HandleCommand(s, sid, c, env, cfg))
  {
    ControlIsZero(s, sid);
    assert Allowed(s.log, OnNotice(c, env.answer)) && Allowed(s.log, OnUnknown(sid, Cmd(c), env.answer)) by {
      hide Replay, WellFormed, Shape;
    }
    hide Inv, Allowed, HandleCreateStream, HandleDeleteStream, Notify;
    NotifyKeepsInv(s, OnUnknown(sid, Cmd(c), env.answer), env);
    match c {
      case CreateStream => CreateKeepsInv(s, sid, env, cfg);
      case DeleteStream(target) => DeleteKeepsInv(s, target, env);
      case ReleaseStream => NotifyKeepsInv(s, OnNotice(c, env.answer), env);
      case FCPublish => NotifyKeepsInv(s, OnNotice(c, env.answer), env);
      case FCUnpublish => NotifyKeepsInv(s, OnNotice(c, env.answer), env);
      case _ =>
    }
  }

  lemma CommandKeepsInv(s: Server, sid: uint32, c: Command, env: Env, cfg: Settings)
    requires Inv(s) && sid in s.streams && 0 <= cfg.control.maxMessageStreams <= 0x1_0000_0000
    ensures Inv(HandleCommand(s, sid, c, env, cfg))
  {
    assert Allowed(s.log, OnUnknown(sid, Cmd(c), env.answer)) by { hide Replay, WellFormed, Shape; }
    hide Inv, Allowed, HandleConnect, HandleCreateStream, HandleDeleteStream, HandlePublish, HandlePlay, Notify;
    NotifyKeepsInv(s, OnUnknown(sid, Cmd(c), env.answer), env);
    match s.streams[sid] {
      case Unset => FailKeepsInv(s);
      case NotConnected => if c.Connect? { ConnectKeepsInv(s, sid, env); }
      case Connected => ControlCommandKeepsInv(s, sid, c, env, cfg);
      case Inactive =>
        if c.Publish? { PublishKeepsInv(s, sid, env); }
        if c.Play? { PlayKeepsInv(s, sid, env); }
      case _ =>
    }
  }

  lemma MayBeUnknown(s: Server, sid: uint32, answer: Answer)
    requires Inv(s) && sid in s.streams
    ensures forall x: Incoming :: Allowed(s.log, OnUnknown(sid, x, answer))
    ensures forall x: Incoming ::
              s.streams[sid].Publishing? && (x.Audio? || x.Video? || x.SetDataFrame?) ==>
                Allowed(s.log, OnMedia(sid, x, answer))
  {
    hide Replay, WellFormed, Shape;
  }

  lemma SameLog(s: Server, s': Server)
    requires Inv(s) && s'.log == s.log && s'.streams == s.streams
    ensures Inv(s')
  {
    hide Replay, WellFormed, Shape;
  }

  lemma HandleKeepsInv(s: Server, sid: uint32, x: Incoming, env: Env, cfg: Settings)
    requires Inv(s) && sid in s.streams && 0 <= cfg.control.maxMessageStreams <= 0x1_0000_0000
    ensures Inv(HandleOnStream(s, sid, x, env, cfg))
  {
    hide Inv, Allowed, HandleCommand, Notify, AcceptChunkSize, AcceptAckWindow;
    MayBeUnknown(s, sid, env.answer);
    FailKeepsInv(s);
    NotifyKeepsInv(s, OnUnknown(sid, x, env.answer), env);
    match x {
      case Cmd(c) => CommandKeepsInv(s, sid, c, env, cfg);
      case SetChunkSize(n) =>
        forall k: uint32 {:trigger s.(chunkSize := k)} { SameLog(s, s.(chunkSize := k)); }
      case WinAckSize(n) =>
        forall k: int32 {:trigger s.(window := k)} { SameLog(s, s.(window := k)); }
      case _ =>
        if s.streams[sid].Publishing? && (x.Audio? || x.Video? || x.SetDataFrame?) {
          NotifyKeepsInv(s, OnMedia(sid, x, env.answer), env);
        }
    }
  }

  /** Every turn of the message loop keeps the registry in agreement with the history, the
      history within what is allowed, and the streams in their states. */
  lemma StepKeepsInv(s: Server, sid: uint32, x: Incoming, env: Env, cfg: Settings)
    requires Inv(s) && 0 <= cfg.control.maxMessageStreams <= 0x1_0000_0000
    ensures Inv(Step(s, sid, x, env, cfg))
  {
    hide Inv, HandleOnStream;
    FailKeepsInv(s);
    if sid in s.streams {
      HandleKeepsInv(s, sid, x, env, cfg);
    } else if s.ignored < cfg.ignoreLimit {
      SameLog(s, s.(ignored := s.ignored + 1));
    }
  }
}
