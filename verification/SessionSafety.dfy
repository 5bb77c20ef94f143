/** What the session invariant means over whole server runs, in terms of the log alone. */
module SessionSafety {
  import opened Bytes
  import opened ControlState
  import opened Registry
  import opened Session

  /** What a turn of the message loop finds: a message, and what the environment answers to
      it; or no message, because a chunk cannot be read, an Ack cannot be written, a message
      cannot be decoded, or the write loop has ended. */
  datatype Input = Input(stream: uint32, message: Incoming, env: Env) | NoMessage

  /** One turn of the message loop. */
  function Turn(s: Server, x: Input, cfg: Settings): Server {
    match x
    case Input(sid, m, env) => Step(s, sid, m, env, cfg)
    case NoMessage => Fail(s)
  }

  /** The server as it starts to serve: the control stream exists and is not connected. */
  function Started(cfg: Settings): Server {
    Server(FIRST, 0, cfg.control.defaultChunkSize, cfg.control.defaultAckWindowSize, true, [])
  }

  function Serve(s: Server, xs: seq<Input>, cfg: Settings): Server
    decreases |xs|
  {
    if xs == [] then s else Serve(Turn(s, xs[0], cfg), xs[1..], cfg)
  }

  lemma TurnKeepsInv(s: Server, x: Input, cfg: Settings)
    requires Inv(s) && 0 <= cfg.control.maxMessageStreams <= 0x1_0000_0000
    ensures Inv(Turn(s, x, cfg))
  {
    hide Inv, Step, Fail;
    match x {
      case Input(sid, m, env) => StepKeepsInv(s, sid, m, env, cfg);
      case NoMessage => FailKeepsInv(s);
    }
  }

  lemma {:induction false} ServeKeepsInv(s: Server, xs: seq<Input>, cfg: Settings)
    requires Inv(s) && 0 <= cfg.control.maxMessageStreams <= 0x1_0000_0000
    ensures Inv(Serve(s, xs, cfg))
    decreases |xs|
  {
    if xs != [] {
      TurnKeepsInv(s, xs[0], cfg);
      hide Inv, Turn;
      ServeKeepsInv(Turn(s, xs[0], cfg), xs[1..], cfg);
    }
  }

  lemma StartedInv(cfg: Settings)
    ensures Inv(Started(cfg))
  {
  }

  // ---- reading a log ------------------------------------------------------------------

  lemma ReplayStep(log: seq<Event>, i: nat)
    requires i < |log|
    ensures Replay(log[..i + 1]) == Effect(Replay(log[..i]), log[i])
  {
    assert log[..i + 1] == log[..i] + [log[i]];
    ReplayAppends(log[..i], log[i]);
  }

  lemma {:induction false} ShapeHolds(log: seq<Event>, i: nat)
    requires WellFormed(log) && i <= |log|
    ensures Shape(Replay(log[..i]))
  {
    if i == 0 {
      assert log[..0] == [];
    } else {
      ShapeHolds(log, i - 1);
      ReplayStep(log, i - 1);
      assert Allowed(log[..i - 1], log[i - 1]);
      hide Replay, WellFormed, Shape, Allowed, Effect;
      EffectKeepsShape(log[..i - 1], log[i - 1]);
    }
  }

  /** Which stream an event gives a state to, or takes out. */
  predicate Touches(e: Event, id: uint32) {
    match e
    case Opened(j) => j == id
    case Removed(j) => j == id
    case Changed(j, _) => j == id
    case _ => false
  }

  /** No event from i up to j changes this stream. */
  predicate Untouched(log: seq<Event>, i: nat, j: nat, id: uint32)
    requires i <= j <= |log|
  {
    forall k :: i <= k < j ==> !Touches(log[k], id)
  }

  /** A stream that has a state got it from the last event that touched it. */
  lemma {:induction false} LastTouch(log: seq<Event>, j: nat, id: uint32) returns (k: nat)
    requires j <= |log| && id in Replay(log[..j])
    ensures k <= j && Untouched(log, k, j, id)
    ensures k == 0 ==> id in FIRST && FIRST[id] == Replay(log[..j])[id]
    ensures k > 0 ==>
              match log[k - 1]
              case Opened(i) => i == id && Replay(log[..j])[id] == Inactive
              case Changed(i, st) => i == id && Replay(log[..j])[id] == st
              case _ => false
  {
    if j == 0 {
      k := 0;
      assert log[..0] == [];
    } else {
      ReplayStep(log, j - 1);
      hide Replay;
      if Touches(log[j - 1], id) {
        k := j;
      } else {
        k := LastTouch(log, j - 1, id);
      }
    }
  }

  predicate At(log: seq<Event>, k: int, e: Event) {
    0 <= k < |log| && log[k] == e
  }

  /** The five events that make up an accepted connect, and the change that follows them. */
  predicate AcceptedConnect(log: seq<Event>, k: nat) {
    && At(log, k, OnConnect(Agreed)) && At(log, k + 1, Wrote(CONTROL, WroteWinAckSize, true))
    && At(log, k + 2, Wrote(CONTROL, WrotePeerBandwidth, true))
    && At(log, k + 3, Wrote(CONTROL, WroteStreamBegin, true))
    && At(log, k + 4, Wrote(CONTROL, WroteConnectResult(true), true)) && At(log, k + 5, Changed(CONTROL, Connected))
  }

  predicate AcceptedPublish(log: seq<Event>, k: nat, id: uint32) {
    && At(log, k, OnPublish(id, Agreed)) && At(log, k + 1, Wrote(id, WrotePublishStart, true))
    && At(log, k + 2, Changed(id, Publishing))
  }

  lemma EndsWithAt(log: seq<Event>, n: nat, tail: seq<Event>, i: nat)
    requires n <= |log| && EndsWith(log[..n], tail) && i < |tail|
    ensures At(log, n - |tail| + i, tail[i])
  {
    assert log[..n][n - |tail|..][i] == log[n - |tail| + i];
  }

  lemma AllowedAt(log: seq<Event>, j: nat)
    requires WellFormed(log) && j < |log|
    ensures Allowed(log[..j], log[j])
  {
    hide Allowed;
  }

  lemma ConnectedWasAccepted(log: seq<Event>, j: nat) returns (k: nat)
    requires WellFormed(log) && j <= |log| && HasState(Replay(log[..j]), CONTROL, Connected)
    ensures k + 5 < j && AcceptedConnect(log, k) && Untouched(log, k + 6, j, CONTROL)
  {
    hide Replay, WellFormed;
    var t := LastTouch(log, j, CONTROL);
    AllowedAt(log, t - 1);
    var tail := [OnConnect(Agreed), Wrote(CONTROL, WroteWinAckSize, true), Wrote(CONTROL, WrotePeerBandwidth, true),
                 Wrote(CONTROL, WroteStreamBegin, true), Wrote(CONTROL, WroteConnectResult(true), true)];
    k := t - 6;
    forall i | 0 <= i < 5 ensures At(log, k + i, tail[i]) {
      hide Allowed, EndsWith, At;
      EndsWithAt(log, t - 1, tail, i);
    }
    assert At(log, k, tail[0]) && At(log, k + 1, tail[1]) && At(log, k + 2, tail[2]) && At(log, k + 3, tail[3])
           && At(log, k + 4, tail[4]);
  }

  lemma PublishIsPrepared(log: seq<Event>, id: uint32)
    requires Allowed(log, Changed(id, Publishing))
    ensures EndsWith(log, [OnPublish(id, Agreed), Wrote(id, WrotePublishStart, true)])
  {
    hide Replay, EndsWith;
  }

  lemma PublishingWasAccepted(log: seq<Event>, j: nat, id: uint32) returns (k: nat)
    requires WellFormed(log) && j <= |log| && HasState(Replay(log[..j]), id, Publishing)
    ensures k + 2 < j && AcceptedPublish(log, k, id) && Untouched(log, k + 3, j, id)
  {
    hide Replay, WellFormed, Allowed, Untouched;
    var t := LastTouch(log, j, id);
    AllowedAt(log, t - 1);
    PublishIsPrepared(log[..t - 1], id);
    k := t - 3;
    var tail := [OnPublish(id, Agreed), Wrote(id, WrotePublishStart, true)];
    EndsWithAt(log, t - 1, tail, 0);
    EndsWithAt(log, t - 1, tail, 1);
  }

  lemma ControlStaysAway(log: seq<Event>, e: Event)
    requires Allowed(log, e) && CONTROL !in Replay(log)
    ensures CONTROL !in Effect(Replay(log), e)
  {
    hide Replay, EndsWith;
  }

  /** Once the control stream is gone it never returns. */
  lemma {:induction false} ControlNeverReturns(log: seq<Event>, i: nat, j: nat)
    requires WellFormed(log) && i <= j <= |log| && CONTROL !in Replay(log[..i])
    ensures CONTROL !in Replay(log[..j])
    decreases j
  {
    hide Replay, WellFormed, Allowed, Effect;
    if i < j {
      ControlNeverReturns(log, i, j - 1);
      ReplayStep(log, j - 1);
      AllowedAt(log, j - 1);
      ControlStaysAway(log[..j - 1], log[j - 1]);
    }
  }

  predicate TakesRole(e: Event, id: uint32) {
    e == Changed(id, Publishing) || e == Changed(id, Playing)
  }

  predicate InRole(m: map<uint32, StreamState>, id: uint32) {
    id in m && m[id] in {Publishing, Playing}
  }

  predicate RemovedBetween(log: seq<Event>, i: nat, j: nat, id: uint32)
    requires i < j <= |log|
  {
    exists k :: i < k < j && log[k] == Removed(id)
  }

  lemma RoleStays(log: seq<Event>, e: Event, id: uint32)
    requires Allowed(log, e) && InRole(Replay(log), id) && e != Removed(id)
    ensures InRole(Effect(Replay(log), e), id) && !TakesRole(e, id)
  {
    hide Replay, EndsWith;
  }

  /** A stream that publishes or plays does so until it is removed. */
  lemma {:induction false} RoleLasts(log: seq<Event>, i: nat, j: nat, id: uint32)
    requires WellFormed(log) && i <= j <= |log| && InRole(Replay(log[..i]), id)
    requires forall k :: i <= k < j ==> log[k] != Removed(id)
    ensures InRole(Replay(log[..j]), id)
    decreases j
  {
    hide Replay, WellFormed, Allowed, Effect, InRole;
    if i < j {
      RoleLasts(log, i, j - 1, id);
      ReplayStep(log, j - 1);
      AllowedAt(log, j - 1);
      RoleStays(log[..j - 1], log[j - 1], id);
    }
  }

  lemma RoleTaken(log: seq<Event>, i: nat, id: uint32)
    requires i < |log| && TakesRole(log[i], id)
    ensures InRole(Replay(log[..i + 1]), id)
  {
    hide Replay;
    ReplayStep(log, i);
  }

  /** A stream takes a role once: before it takes another it must be removed. */
  lemma OneRole(log: seq<Event>, i: nat, j: nat, id: uint32)
    requires WellFormed(log) && i < j < |log| && TakesRole(log[i], id) && TakesRole(log[j], id)
    ensures RemovedBetween(log, i, j, id)
  {
    hide Replay, WellFormed, Allowed, Effect, InRole;
    RoleTaken(log, i, id);
    AllowedAt(log, j);
    if !RemovedBetween(log, i, j, id) {
      RoleLasts(log, i + 1, j, id);
      RoleStays(log[..j], log[j], id);
    }
  }

  predicate FollowsConnect(e: Event) {
    e.OnCreateStream? || e.OnDeleteStream? || e.OnNotice? || e.Opened? || e.Removed?
  }

  // ---- what the application granted ---------------------------------------------------

  /** The application let a stream publish or play. */
  predicate Granting(e: Event) {
    (e.OnPublish? || e.OnPlay?) && e.answer.Agreed?
  }

  predicate Grants(e: Event, id: uint32) {
    e == OnPublish(id, Agreed) || e == OnPlay(id, Agreed)
  }

  function Reply(e: Event): Written
    requires Granting(e)
  {
    if e.OnPublish? then WrotePublishStart else WrotePlayStart
  }

  function Role(e: Event): StreamState
    requires Granting(e)
  {
    if e.OnPublish? then Publishing else Playing
  }

  /** A grant is told and the stream takes the role; if it cannot be told, that is the end. */
  predicate Followed(log: seq<Event>, open: bool, i: nat)
    requires i < |log| && Granting(log[i])
  {
    var id := log[i].stream;
    || (At(log, i + 1, Wrote(id, Reply(log[i]), true)) && At(log, i + 2, Changed(id, Role(log[i]))))
    || (At(log, i + 1, Wrote(id, Reply(log[i]), false)) && |log| == i + 2 && !open)
  }

  predicate AllFollowed(log: seq<Event>, open: bool) {
    forall i :: 0 <= i < |log| && Granting(log[i]) ==> Followed(log, open, i)
  }

  /** Nothing is granted from the end of one log to the end of another. */
  predicate Ungranted(before: seq<Event>, after: seq<Event>) {
    before <= after && forall i :: |before| <= i < |after| ==> !Granting(after[i])
  }

  lemma ConnectGrantsNothing(s: Server, sid: uint32, env: Env)
    ensures Ungranted(s.log, HandleConnect(s, sid, env).log)
  {
    hide Effect;
  }

  lemma CreateGrantsNothing(s: Server, sid: uint32, env: Env, cfg: Settings)
    ensures Ungranted(s.log, HandleCreateStream(s, sid, env, cfg).log)
  {
    hide AllocateFrom, Effect;
  }

  lemma DeleteGrantsNothing(s: Server, target: uint32, env: Env)
    ensures Ungranted(s.log, HandleDeleteStream(s, target, env).log)
  {
  }

  lemma NotifyGrantsNothing(s: Server, e: Event, env: Env)
    requires !Granting(e)
    ensures Ungranted(s.log, Notify(s, e, env).log)
  {
  }

  /** The log goes on with these events. */
  lemma GrantFollowed(before: seq<Event>, e: Event, told: bool)
    requires AllFollowed(before, true) && Granting(e)
    ensures told ==> AllFollowed(before + [e] + [Wrote(e.stream, Reply(e), true)] + [Changed(e.stream, Role(e))], true)
    ensures !told ==> AllFollowed(before + [e] + [Wrote(e.stream, Reply(e), false)], false)
  {
  }

  lemma RefusalFollowed(before: seq<Event>, e: Event, reply: Event, open: bool)
    requires AllFollowed(before, true) && !Granting(e) && !Granting(reply)
    ensures AllFollowed(before + [e] + [reply], open)
  {
  }

  lemma PublishIsFollowed(s: Server, sid: uint32, env: Env)
    requires AllFollowed(s.log, true) && s.open
    ensures AllFollowed(HandlePublish(s, sid, env).log, HandlePublish(s, sid, env).open)
  {
    var e := OnPublish(sid, env.answer);
    hide AllFollowed;
    if env.answer.Agreed? {
      GrantFollowed(s.log, e, env.writes(0));
    } else {
      RefusalFollowed(s.log, e, Wrote(sid, WrotePublishFailed, env.writes(0)), HandlePublish(s, sid, env).open);
    }
  }

  lemma PlayIsFollowed(s: Server, sid: uint32, env: Env)
    requires AllFollowed(s.log, true) && s.open
    ensures AllFollowed(HandlePlay(s, sid, env).log, HandlePlay(s, sid, env).open)
  {
    var e := OnPlay(sid, env.answer);
    hide AllFollowed;
    if env.answer.Agreed? {
      GrantFollowed(s.log, e, env.writes(0));
    } else {
      RefusalFollowed(s.log, e, Wrote(sid, WrotePlayFailed, env.writes(0)), HandlePlay(s, sid, env).open);
    }
  }

  lemma UngrantedFollowed(before: seq<Event>, after: seq<Event>, open: bool)
    requires AllFollowed(before, true) && Ungranted(before, after)
    ensures AllFollowed(after, open)
  {
  }

  lemma ControlGrantsNothing(s: Server, sid: uint32, c: Command, env: Env, cfg: Settings)
    requires sid in s.streams && !(s.streams[sid].Inactive? && (c.Publish? || c.Play?))
    ensures Ungranted(s.log, HandleCommand(s, sid, c, env, cfg).log)
  {
    NotifyGrantsNothing(s, OnUnknown(sid, Cmd(c), env.answer), env);
    NotifyGrantsNothing(s, OnNotice(c, env.answer), env);
    assert Ungranted(s.log, Fail(s).log);
    hide HandleConnect, HandleCreateStream, HandleDeleteStream, Notify, Ungranted;
    match s.streams[sid] {
      case NotConnected => ConnectGrantsNothing(s, sid, env);
      case Connected =>
        CreateGrantsNothing(s, sid, env, cfg);
        if c.DeleteStream? {
          DeleteGrantsNothing(s, c.target, env);
        }
      case _ =>
    }
  }

  lemma CommandIsFollowed(s: Server, sid: uint32, c: Command, env: Env, cfg: Settings)
    requires AllFollowed(s.log, true) && s.open && sid in s.streams
    ensures var s' := HandleCommand(s, sid, c, env, cfg); AllFollowed(s'.log, s'.open)
  {
    hide HandlePublish, HandlePlay, Notify, Ungranted, AllFollowed;
    if s.streams[sid].Inactive? && (c.Publish? || c.Play?) {
      PublishIsFollowed(s, sid, env);
      PlayIsFollowed(s, sid, env);
    } else {
      hide HandleCommand;
      var s' := HandleCommand(s, sid, c, env, cfg);
      ControlGrantsNothing(s, sid, c, env, cfg);
      UngrantedFollowed(s.log, s'.log, s'.open);
    }
  }

  lemma StepIsFollowed(s: Server, sid: uint32, x: Incoming, env: Env, cfg: Settings)
    requires AllFollowed(s.log, s.open)
    ensures var s' := Step(s, sid, x, env, cfg); AllFollowed(s'.log, s'.open)
  {
    var s' := Step(s, sid, x, env, cfg);
    if s.open && x.Cmd? && sid in s.streams {
      hide HandleCommand, AllFollowed;
      CommandIsFollowed(s, sid, x.command, env, cfg);
    } else if s.open {
      NotifyGrantsNothing(s, OnUnknown(sid, x, env.answer), env);
      NotifyGrantsNothing(s, OnMedia(sid, x, env.answer), env);
      assert Ungranted(s.log, s.log);
      hide Notify, Ungranted, AllFollowed, AcceptChunkSize, AcceptAckWindow;
      UngrantedFollowed(s.log, s'.log, s'.open);
    }
  }

  lemma TurnIsFollowed(s: Server, x: Input, cfg: Settings)
    requires AllFollowed(s.log, s.open)
    ensures AllFollowed(Turn(s, x, cfg).log, Turn(s, x, cfg).open)
  {
    match x {
      case Input(sid, m, env) =>
        hide Step;
        StepIsFollowed(s, sid, m, env, cfg);
      case NoMessage =>
    }
  }

  lemma {:induction false} ServeIsFollowed(s: Server, xs: seq<Input>, cfg: Settings)
    requires AllFollowed(s.log, s.open)
    ensures AllFollowed(Serve(s, xs, cfg).log, Serve(s, xs, cfg).open)
    decreases |xs|
  {
    if xs != [] {
      TurnIsFollowed(s, xs[0], cfg);
      hide Turn, AllFollowed;
      ServeIsFollowed(Turn(s, xs[0], cfg), xs[1..], cfg);
    }
  }

  lemma GrantNeedsInactive(log: seq<Event>, e: Event, id: uint32)
    requires Allowed(log, e) && Grants(e, id)
    ensures HasState(Replay(log), id, Inactive)
  {
    hide Replay, EndsWith;
  }

  lemma NotRemovedAfter(log: seq<Event>, i: nat, k: nat, j: nat, id: uint32)
    requires i < k <= j <= |log| && !RemovedBetween(log, i, j, id)
    ensures forall l :: k <= l < j ==> log[l] != Removed(id)
  {
  }

  /** A grant that is not the last thing to happen took effect. */
  lemma GrantTookEffect(log: seq<Event>, open: bool, i: nat, j: nat, id: uint32)
    requires AllFollowed(log, open) && i < j < |log| && Grants(log[i], id) && Grants(log[j], id)
    ensures i + 2 < j && TakesRole(log[i + 2], id)
  {
    assert Granting(log[i]) && Followed(log, open, i);
    hide AllFollowed;
  }

  /** Between two grants to one stream, of either kind, the stream was removed. */
  lemma OneGrant(log: seq<Event>, open: bool, i: nat, j: nat, id: uint32)
    requires WellFormed(log) && AllFollowed(log, open) && i < j < |log| && Grants(log[i], id) && Grants(log[j], id)
    ensures RemovedBetween(log, i, j, id)
  {
    GrantTookEffect(log, open, i, j, id);
    AllowedAt(log, j);
    GrantNeedsInactive(log[..j], log[j], id);
    hide Replay, WellFormed, Allowed, AllFollowed, RemovedBetween, Effect, TakesRole;
    RoleTaken(log, i + 2, id);
    if !RemovedBetween(log, i, j, id) {
      NotRemovedAfter(log, i, i + 3, j, id);
      RoleLasts(log, i + 3, j, id);
    }
  }

  lemma ConnectIsNeeded(log: seq<Event>, e: Event)
    requires Allowed(log, e) && FollowsConnect(e)
    ensures HasState(Replay(log), CONTROL, Connected)
  {
    hide Replay, EndsWith;
  }

  lemma PublishIsNeeded(log: seq<Event>, e: Event)
    requires Allowed(log, e) && e.OnMedia?
    ensures HasState(Replay(log), e.stream, Publishing)
  {
    hide Replay, EndsWith;
  }

  // ---- the session, over whole runs ---------------------------------------------------

  /** Stream 0 is only ever unconnected or connected, every other stream inactive,
      publishing or playing. */
  ghost predicate KeepsShape(log: seq<Event>) {
    forall i :: 0 <= i <= |log| ==> Shape(Replay(log[..i]))
  }

  /** Stream 0, once deleted, never returns. */
  ghost predicate ControlGoesForGood(log: seq<Event>) {
    forall i, j :: 0 <= i <= j <= |log| && CONTROL !in Replay(log[..i]) ==> CONTROL !in Replay(log[..j])
  }

  /** Creating and deleting streams, and the notices, follow an accepted connect on a
      control stream that is still there. */
  ghost predicate ConnectComesFirst(log: seq<Event>) {
    forall j :: 0 <= j < |log| && FollowsConnect(log[j]) ==>
      exists k: nat :: k + 5 < j && AcceptedConnect(log, k) && Untouched(log, k + 6, j, CONTROL)
  }

  /** Media reaches the application only on a stream whose publish it accepted and which has
      neither been removed nor opened again since. */
  ghost predicate MediaFollowsPublish(log: seq<Event>) {
    forall j :: 0 <= j < |log| && log[j].OnMedia? ==>
      exists k: nat ::
        k + 2 < j && AcceptedPublish(log, k, log[j].stream) && Untouched(log, k + 3, j, log[j].stream)
  }

  /** No stream is granted publish or play a second time, nor one after the other, unless it
      was removed in between; nor does it change into a role twice. */
  ghost predicate OneRoleEach(log: seq<Event>) {
    && (forall id, i, j :: 0 <= i < j < |log| && Grants(log[i], id) && Grants(log[j], id) ==>
          RemovedBetween(log, i, j, id))
    && (forall id, i, j :: 0 <= i < j < |log| && TakesRole(log[i], id) && TakesRole(log[j], id) ==>
          RemovedBetween(log, i, j, id))
  }

  /** A stream is removed only because its deletion was asked for and accepted, or because the
      reply to its creation could not be written. */
  ghost predicate RemovalHasCause(log: seq<Event>) {
    forall j :: 0 <= j < |log| && log[j].Removed? ==>
      || At(log, j - 1, OnDeleteStream(log[j].stream, Agreed))
      || (At(log, j - 2, Opened(log[j].stream))
          && At(log, j - 1, Wrote(CONTROL, WroteStreamID(log[j].stream), false)))
  }

  lemma WellFormedRemoves(log: seq<Event>)
    requires WellFormed(log)
    ensures RemovalHasCause(log)
  {
    hide WellFormed, At;
    forall j | 0 <= j < |log| && log[j].Removed?
      ensures || At(log, j - 1, OnDeleteStream(log[j].stream, Agreed))
              || (At(log, j - 2, Opened(log[j].stream))
                  && At(log, j - 1, Wrote(CONTROL, WroteStreamID(log[j].stream), false)))
    {
      var id := log[j].stream;
      AllowedAt(log, j);
      hide EndsWith, Replay;
      if EndsWith(log[..j], [OnDeleteStream(id, Agreed)]) {
        EndsWithAt(log, j, [OnDeleteStream(id, Agreed)], 0);
      } else {
        EndsWithAt(log, j, [Opened(id), Wrote(CONTROL, WroteStreamID(id), false)], 0);
        EndsWithAt(log, j, [Opened(id), Wrote(CONTROL, WroteStreamID(id), false)], 1);
      }
    }
  }

  lemma WellFormedConnectsFirst(log: seq<Event>)
    requires WellFormed(log)
    ensures ConnectComesFirst(log)
  {
    hide WellFormed, Allowed, Replay, AcceptedConnect, Untouched, HasState;
    forall j | 0 <= j < |log| && FollowsConnect(log[j])
      ensures exists k: nat :: k + 5 < j && AcceptedConnect(log, k) && Untouched(log, k + 6, j, CONTROL)
    {
      AllowedAt(log, j);
      ConnectIsNeeded(log[..j], log[j]);
      var k := ConnectedWasAccepted(log, j);
    }
  }

  lemma WellFormedPublishesFirst(log: seq<Event>)
    requires WellFormed(log)
    ensures MediaFollowsPublish(log)
  {
    hide WellFormed, Allowed, Replay, AcceptedPublish, Untouched, HasState;
    forall j | 0 <= j < |log| && log[j].OnMedia?
      ensures exists k: nat ::
                k + 2 < j && AcceptedPublish(log, k, log[j].stream) && Untouched(log, k + 3, j, log[j].stream)
    {
      AllowedAt(log, j);
      PublishIsNeeded(log[..j], log[j]);
      var k := PublishingWasAccepted(log, j, log[j].stream);
    }
  }

  lemma WellFormedKeepsShape(log: seq<Event>)
    requires WellFormed(log)
    ensures KeepsShape(log) && ControlGoesForGood(log)
  {
    hide WellFormed, Replay, Shape;
    forall i | 0 <= i <= |log| ensures Shape(Replay(log[..i])) {
      ShapeHolds(log, i);
    }
    forall i, j | 0 <= i <= j <= |log| && CONTROL !in Replay(log[..i]) ensures CONTROL !in Replay(log[..j]) {
      ControlNeverReturns(log, i, j);
    }
  }

  lemma TakesOneRole(log: seq<Event>, open: bool)
    requires WellFormed(log) && AllFollowed(log, open)
    ensures OneRoleEach(log)
  {
    hide WellFormed, RemovedBetween, AllFollowed;
    forall id, i, j | 0 <= i < j < |log| && TakesRole(log[i], id) && TakesRole(log[j], id)
      ensures RemovedBetween(log, i, j, id)
    {
      OneRole(log, i, j, id);
    }
    forall id, i, j | 0 <= i < j < |log| && Grants(log[i], id) && Grants(log[j], id)
      ensures RemovedBetween(log, i, j, id)
    {
      OneGrant(log, open, i, j, id);
    }
  }

  /** Whatever arrives, whatever the application answers and whichever writes fail. */
  lemma SessionIsSafe(cfg: Settings, xs: seq<Input>)
    requires 0 <= cfg.control.maxMessageStreams <= 0x1_0000_0000
    ensures var log := Serve(Started(cfg), xs, cfg).log;
            KeepsShape(log) && ControlGoesForGood(log) && ConnectComesFirst(log) && MediaFollowsPublish(log)
            && OneRoleEach(log) && RemovalHasCause(log)
  {
    StartedInv(cfg);
    ServeKeepsInv(Started(cfg), xs, cfg);
    ServeIsFollowed(Started(cfg), xs, cfg);
    var log := Serve(Started(cfg), xs, cfg).log;
    assert WellFormed(log) by { hide Serve, Replay, WellFormed, Shape; }
    hide *;
    WellFormedKeepsShape(log);
    WellFormedConnectsFirst(log);
    WellFormedPublishesFirst(log);
    WellFormedRemoves(log);
    TakesOneRole(log, Serve(Started(cfg), xs, cfg).open);
  }

  // ---- createStream and its undo ------------------------------------------------------

  lemma CreatedOutcome(s: Server, env: Env, cfg: Settings, id: uint32)
    requires AllocateFrom(s.streams.Keys, cfg.control.maxMessageStreams, 0) == Allocated(id) && id !in s.streams
    ensures var s' := HandleCreateStream(s, CONTROL, env, cfg);
            && (s'.open <==> s.open && !env.answer.Refused? && env.writes(0))
            && s'.streams == (if env.answer.Agreed? && env.writes(0) then s.streams[id := Inactive] else s.streams)
            && (env.answer.Agreed? && env.writes(0) ==> EndsWith(s'.log, [Wrote(CONTROL, WroteStreamID(id), true)]))
  {
    hide AllocateFrom;
    assert s.streams[id := Inactive] - {id} == s.streams;
  }

  lemma RefusedOutcome(s: Server, env: Env, cfg: Settings)
    requires AllocateFrom(s.streams.Keys, cfg.control.maxMessageStreams, 0).Full?
    ensures var s' := HandleCreateStream(s, CONTROL, env, cfg);
            (s'.open <==> s.open && !env.answer.Refused? && env.writes(0)) && s'.streams == s.streams
  {
    hide AllocateFrom;
  }

  /** A createStream adds the least free stream, ready for use, exactly when the application
      agrees, there is room and the reply can be written; in every other case the streams
      are as before. The connection survives a full registry, and an error that the message
      loop drops, if the refusal can be sent. */
  lemma CreateStreamOutcome(s: Server, env: Env, cfg: Settings)
    requires Inv(s) && HasState(s.streams, CONTROL, Connected)
    requires 0 <= cfg.control.maxMessageStreams <= 0x1_0000_0000
    ensures var s' := HandleCreateStream(s, CONTROL, env, cfg);
            var room := |s.streams| < cfg.control.maxMessageStreams;
            && (env.answer.Agreed? && room && env.writes(0) ==>
                  exists id: uint32 ::
                    && id !in s.streams && id < cfg.control.maxMessageStreams
                    && (forall j: uint32 :: j < id ==> j in s.streams)
                    && s'.streams == s.streams[id := Inactive]
                    && EndsWith(s'.log, [Wrote(CONTROL, WroteStreamID(id), true)]))
            && (!(env.answer.Agreed? && room && env.writes(0)) ==> s'.streams == s.streams)
            && (s'.open <==> s.open && !env.answer.Refused? && env.writes(0))
  {
    AllocatesIffRoom(s.streams.Keys, cfg.control.maxMessageStreams);
    assert |s.streams.Keys| == |s.streams|;
    var a := AllocateFrom(s.streams.Keys, cfg.control.maxMessageStreams, 0);
    hide Inv, AllocateFrom, Shape, Replay, WellFormed;
    if a.Allocated? {
      CreatedOutcome(s, env, cfg, a.id);
    } else {
      RefusedOutcome(s, env, cfg);
    }
  }

  // ---- the budget for unknown streams -------------------------------------------------

  /** How many messages of a run reach an open server on a stream that does not exist. */
  function Stray(s: Server, xs: seq<Input>, cfg: Settings): nat
    decreases |xs|
  {
    if xs == [] then 0
    else (if s.open && xs[0].Input? && xs[0].stream !in s.streams then 1 else 0)
         + Stray(Turn(s, xs[0], cfg), xs[1..], cfg)
  }

  lemma HandlingCostsNothing(s: Server, sid: uint32, x: Incoming, env: Env, cfg: Settings)
    requires sid in s.streams
    ensures HandleOnStream(s, sid, x, env, cfg).ignored == s.ignored
  {
    hide AllocateFrom, Effect, AcceptChunkSize, AcceptAckWindow;
  }

  lemma BudgetTurn(s: Server, x: Input, cfg: Settings)
    ensures var s' := Turn(s, x, cfg);
            && (x.NoMessage? || x.stream in s.streams || !s.open ==> s'.ignored == s.ignored)
            && (x.Input? && s.open && x.stream !in s.streams ==>
                  if cfg.ignoreUnknownStreams && s.ignored < cfg.ignoreLimit
                  then s' == s.(ignored := s.ignored + 1) else s' == s.(open := false))
            && (!s.open ==> s' == s)
  {
    hide HandleOnStream;
    if x.Input? && x.stream in s.streams {
      HandlingCostsNothing(s, x.stream, x.message, x.env, cfg);
    }
  }

  lemma {:induction false} ClosedStaysClosed(s: Server, xs: seq<Input>, cfg: Settings)
    requires !s.open
    ensures Serve(s, xs, cfg) == s && Stray(s, xs, cfg) == 0
  {
    if xs != [] {
      ClosedStaysClosed(s, xs[1..], cfg);
    }
  }

  /** The budget is exact: a server that is still open has counted every stray message and
      is within its limit, and one that met more strays than the limit is closed. */
  lemma {:induction false} BudgetIsExact(s: Server, xs: seq<Input>, cfg: Settings)
    requires s.ignored <= cfg.ignoreLimit
    ensures var s' := Serve(s, xs, cfg);
            var budget := if cfg.ignoreUnknownStreams then cfg.ignoreLimit - s.ignored else 0;
            && s'.ignored <= cfg.ignoreLimit
            && Stray(s, xs, cfg) <= budget + 1
            && (s'.open ==> Stray(s, xs, cfg) <= budget && s'.ignored == s.ignored + Stray(s, xs, cfg))
            && (Stray(s, xs, cfg) > budget ==> !s'.open)
    decreases |xs|
  {
    if xs != [] {
      var s1 := Turn(s, xs[0], cfg);
      BudgetTurn(s, xs[0], cfg);
      hide Turn;
      if !s1.open {
        ClosedStaysClosed(s1, xs[1..], cfg);
      } else {
        BudgetIsExact(s1, xs[1..], cfg);
      }
    }
  }

  /** From the start: as many stray messages as the limit says are let pass, none if they are
      not to be, and not one more. */
  lemma BudgetFromStart(cfg: Settings, xs: seq<Input>)
    ensures var strays := Stray(Started(cfg), xs, cfg);
            var s' := Serve(Started(cfg), xs, cfg);
            && (s'.open ==> strays <= (if cfg.ignoreUnknownStreams then cfg.ignoreLimit else 0) && s'.ignored == strays)
            && (strays > (if cfg.ignoreUnknownStreams then cfg.ignoreLimit else 0) ==> !s'.open)
  {
    hide Serve, Stray;
    BudgetIsExact(Started(cfg), xs, cfg);
  }
}
