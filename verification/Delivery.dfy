/** The promise to a joined client, end to end: through every interleaving of connections, joins,
    closes and ticks, it hears each update once and in order, and its mirror follows the session. */
module Delivery {
  import opened OrderedMaps
  import opened AntiCheat
  import opened Snapshots
  import opened Sessions
  import opened Replication
  import opened Gateways
  import opened GatewayInvariants

  /** The updates among what a socket was sent. */
  function Broadcasts(inbox: seq<ServerMessage>): seq<Message> {
    if inbox == [] then []
    else
      var last := inbox[|inbox| - 1];
      Broadcasts(inbox[..|inbox| - 1]) + (if last.Broadcast? then [last.message] else [])
  }

  /** The mirror a client holds once it has applied everything it was sent. */
  function MirrorFrom(inbox: seq<ServerMessage>): Mirror {
    if inbox == [] then map[]
    else
      var before, last := MirrorFrom(inbox[..|inbox| - 1]), inbox[|inbox| - 1];
      if last.Broadcast? || last.Direct? then Receive(before, last.message) else before
  }

  /** The client on a socket tracks a room's session, and nobody it holds has left. */
  ghost predicate Follows(h: Hub, k: Socket, room: RoomId) {
    room in h.gw.sessions && Tracks(Watch(h.gw.sessions[room], MirrorFrom(InboxOf(h.net, k)), {}))
  }

  /** No join of this socket to another room is about to send its snapshot. */
  ghost predicate NoStrayJoin(w: World, k: Socket, room: RoomId) {
    forall t :: t in w.tasks && t.AwaitJoined? && t.k == k ==> t.roomId == room
  }

  // ---------- inboxes ----------

  lemma InboxAfterSend(net: Net, j: Socket, m: ServerMessage, k: Socket)
    ensures InboxOf(Send(net, j, m), k) == if j == k && k in net.open then InboxOf(net, k) + [m] else InboxOf(net, k)
  {
  }

  lemma AppendOne(inbox: seq<ServerMessage>, m: ServerMessage)
    ensures MirrorFrom(inbox + [m]) == if m.Broadcast? || m.Direct? then Receive(MirrorFrom(inbox), m.message)
            else MirrorFrom(inbox)
    ensures Broadcasts(inbox + [m]) == Broadcasts(inbox) + if m.Broadcast? then [m.message] else []
  {
    hide Receive;
    assert (inbox + [m])[..|inbox|] == inbox;
  }

  function Wrapped(messages: seq<Message>): seq<ServerMessage> {
    if messages == [] then []
    else Wrapped(messages[..|messages| - 1]) + [Broadcast(messages[|messages| - 1])]
  }

  lemma {:induction false} AppendWrapped(inbox: seq<ServerMessage>, messages: seq<Message>)
    ensures MirrorFrom(inbox + Wrapped(messages)) == ReceiveAll(MirrorFrom(inbox), messages)
    ensures Broadcasts(inbox + Wrapped(messages)) == Broadcasts(inbox) + messages
  {
    hide Receive;
    if messages == [] {
      assert inbox + Wrapped(messages) == inbox;
    } else {
      var init, last := messages[..|messages| - 1], messages[|messages| - 1];
      AppendWrapped(inbox, init);
      assert inbox + Wrapped(messages) == (inbox + Wrapped(init)) + [Broadcast(last)];
      AppendOne(inbox + Wrapped(init), Broadcast(last));
      assert messages == init + [last];
    }
  }

  // ---------- what one event does to a listening client ----------

  /** The session did at most one operation, and it was neither a tick nor a removal. */
  ghost predicate SessionMoved(cfg: Config, s: Session, s': Session)
    requires Inv(s)
  {
    s' == s || exists op: Op :: !op.TickOp? && !op.RemovePlayerOp? && s' == Step(cfg, s, op).session
  }

  /** The mirror stayed, or was replaced by the live state. */
  ghost predicate MirrorMoved(mirror: Mirror, mirror': Mirror, s': Session) {
    mirror' == mirror || mirror' == MirrorOf(View(s'.players.entries))
  }

  ghost predicate NoUpdate(cfg: Config, h: Hub, h': Hub, k: Socket, room: RoomId) {
    && room in h.gw.sessions && room in h'.gw.sessions
    && Inv(h.gw.sessions[room])
    && SessionMoved(cfg, h.gw.sessions[room], h'.gw.sessions[room])
    && MirrorMoved(MirrorFrom(InboxOf(h.net, k)), MirrorFrom(InboxOf(h'.net, k)), h'.gw.sessions[room])
    && Broadcasts(InboxOf(h'.net, k)) == Broadcasts(InboxOf(h.net, k))
    && SaidIn(h'.log, room) == SaidIn(h.log, room)
  }

  lemma ViewTracks(s: Session)
    requires Inv(s)
    ensures Tracks(Watch(s, MirrorOf(View(s.players.entries)), {}))
  {
  }

  lemma NoUpdateFollows(cfg: Config, h: Hub, h': Hub, k: Socket, room: RoomId)
    requires NoUpdate(cfg, h, h', k, room) && Follows(h, k, room)
    ensures Follows(h', k, room)
  {
    hide Step, Tracks, InboxOf, MotionAgrees, AllInWorld;
    var s, s' := h.gw.sessions[room], h'.gw.sessions[room];
    var mirror := MirrorFrom(InboxOf(h.net, k));
    if s' != s {
      var op: Op :| !op.TickOp? && !op.RemovePlayerOp? && s' == Step(cfg, s, op).session;
      QuietStep(cfg, Watch(s, mirror, {}), op);
      StepKeepsTracking(cfg, Watch(s, mirror, {}), op);
      HearIs(cfg, Watch(s, mirror, {}), op);
      StepKeeps(cfg, s, op);
    }
    ViewTracks(s');
  }

  lemma HearIs(cfg: Config, w: Watch, op: Op)
    requires Inv(w.session) && !op.TickOp? && !op.RemovePlayerOp?
    ensures Hear(cfg, w, op) == Watch(Step(cfg, w.session, op).session, w.mirror, w.gone)
  {
    hide Step;
    QuietStep(cfg, w, op);
  }

  /** The gateway stayed, and at most messages that carry no state were sent. */
  lemma SilentReply(cfg: Config, h: Hub, h': Hub, j: Socket, m: ServerMessage, k: Socket, room: RoomId)
    requires room in h.gw.sessions && Inv(h.gw.sessions[room])
    requires h'.gw.sessions == h.gw.sessions && h'.log.said == h.log.said
    requires InboxOf(h'.net, k) == InboxOf(Send(h.net, j, m), k)
    requires !m.Broadcast? && !m.Direct?
    ensures NoUpdate(cfg, h, h', k, room)
  {
    hide Inv, Step, InboxOf, Send, MirrorFrom, Broadcasts, Receive, View;
    InboxAfterSend(h.net, j, m, k);
    AppendOne(InboxOf(h.net, k), m);
  }

  lemma NothingSent(cfg: Config, h: Hub, h': Hub, k: Socket, room: RoomId)
    requires room in h.gw.sessions && Inv(h.gw.sessions[room])
    requires h'.gw.sessions == h.gw.sessions && h'.log.said == h.log.said
    requires InboxOf(h'.net, k) == InboxOf(h.net, k)
    ensures NoUpdate(cfg, h, h', k, room)
  {
    hide Inv, Step, InboxOf, MirrorFrom, Broadcasts, View;
  }

  /** One session, of this or another room, did one quiet operation. */
  lemma QuietOperation(cfg: Config, h: Hub, h': Hub, r: RoomId, op: Op, k: Socket, room: RoomId)
    requires room in h.gw.sessions && Inv(h.gw.sessions[room])
    requires r in h.gw.sessions && Inv(h.gw.sessions[r]) && !op.TickOp? && !op.RemovePlayerOp?
    requires h'.gw.sessions == h.gw.sessions[r := Step(cfg, h.gw.sessions[r], op).session]
    requires h'.log.said == h.log.said
    requires MirrorFrom(InboxOf(h'.net, k)) == MirrorFrom(InboxOf(h.net, k))
    requires Broadcasts(InboxOf(h'.net, k)) == Broadcasts(InboxOf(h.net, k))
    ensures NoUpdate(cfg, h, h', k, room)
  {
    hide Step, InboxOf, MotionAgrees, AllInWorld;
  }

  /** A live snapshot of the room was sent. */
  lemma LiveReply(cfg: Config, h: Hub, k: Socket, room: RoomId, now: int)
    requires room in h.gw.sessions && Inv(h.gw.sessions[room]) && k in h.net.open
    ensures NoUpdate(cfg, h, Reply(h, k, Direct(BuildFullSnapshot(h.gw.sessions[room], now))), k, room)
    ensures Follows(Reply(h, k, Direct(BuildFullSnapshot(h.gw.sessions[room], now))), k, room)
  {
    hide Step, InboxOf, MotionAgrees, AllInWorld, BuildFullSnapshot, Send, Receive, View, Tracks;
    var s := h.gw.sessions[room];
    var m := Direct(BuildFullSnapshot(s, now));
    InboxAfterSend(h.net, k, m, k);
    AppendOne(InboxOf(h.net, k), m);
    LiveSnapshotTracks(s, MirrorFrom(InboxOf(h.net, k)), now);
  }

  // ---------- the events, one by one ----------

  lemma AbortIsSilent(cfg: Config, h: Hub, j: Socket, early: bool, k: Socket, room: RoomId)
    requires room in h.gw.sessions && Inv(h.gw.sessions[room])
    ensures NoUpdate(cfg, h, Abort(h, j, early), k, room)
  {
    hide Inv, NoUpdate;
    if early {
      assert InboxOf(Close(Send(h.net, j, Error(Unauthorized)), j), k) ==
          InboxOf(Send(h.net, j, Error(Unauthorized)), k);
      SilentReply(cfg, h, Abort(h, j, early), j, Error(Unauthorized), k, room);
    } else {
      NothingSent(cfg, h, h, k, room);
    }
  }

  lemma ConnectIsSilent(cfg: Config, w: World, j: Socket, allowed: bool, auth: Option<Payload>, k: Socket, room: RoomId)
    requires room in w.hub.gw.sessions && Inv(w.hub.gw.sessions[room])
    ensures NoUpdate(cfg, w.hub, Connect(w, j, allowed, auth).hub, k, room)
  {
    hide Inv, NoUpdate, Abort, Without;
    if allowed && auth == None {
      AbortIsSilent(cfg, w.hub, j, true, k, room);
    } else {
      NothingSent(cfg, w.hub, Connect(w, j, allowed, auth).hub, k, room);
    }
  }

  lemma BeginJoinIsSilent(cfg: Config, h: Hub, j: Socket, r: RoomId, token: Option<Token>, readAt: int, now: int,
      k: Socket, room: RoomId)
    requires j in h.gw.contexts && room in h.gw.sessions && Inv(h.gw.sessions[room])
    ensures NoUpdate(cfg, h, BeginJoin(h, j, r, token, readAt, now).0, k, room)
  {
    hide Inv, NoUpdate, Send;
    var h' := BeginJoin(h, j, r, token, readAt, now).0;
    if h'.net == h.net {
      NothingSent(cfg, h, h', k, room);
    } else {
      SilentReply(cfg, h, h', j, Error(InvalidReconnect), k, room);
    }
  }

  lemma SilentSend(net: Net, j: Socket, m: ServerMessage, k: Socket)
    requires !m.Broadcast? && !m.Direct?
    ensures MirrorFrom(InboxOf(Send(net, j, m), k)) == MirrorFrom(InboxOf(net, k))
    ensures Broadcasts(InboxOf(Send(net, j, m), k)) == Broadcasts(InboxOf(net, k))
  {
    hide Send, InboxOf;
    InboxAfterSend(net, j, m, k);
    AppendOne(InboxOf(net, k), m);
  }

  lemma InputIsSilent(cfg: Config, h: Hub, j: Socket, input: Input, k: Socket, room: RoomId)
    requires j in h.gw.contexts && room in h.gw.sessions && forall r :: r in h.gw.sessions ==> Inv(h.gw.sessions[r])
    ensures NoUpdate(cfg, h, OnInput(h, j, input), k, room)
  {
    hide MotionAgrees, AllInWorld, NoUpdate, Send, EnqueueInput, InboxOf;
    var ctx := h.gw.contexts[j];
    if ctx.roomId == None {
      SilentReply(cfg, h, OnInput(h, j, input), j, Error(NotInSession), k, room);
    } else if ctx.roomId.value in h.gw.sessions {
      SilentSend(h.net, j, InputAck(input.seqNo, h.gw.sessions[ctx.roomId.value].tick), k);
      QuietOperation(cfg, h, OnInput(h, j, input), ctx.roomId.value, EnqueueInputOp(ctx.playerId, input), k, room);
    } else {
      NothingSent(cfg, h, h, k, room);
    }
  }

  lemma PingIsSilent(cfg: Config, h: Hub, j: Socket, clientTime: int, readAt: int, now: int, k: Socket, room: RoomId)
    requires j in h.gw.contexts && room in h.gw.sessions && forall r :: r in h.gw.sessions ==> Inv(h.gw.sessions[r])
    ensures NoUpdate(cfg, h, OnPing(h, j, clientTime, readAt, now), k, room)
  {
    hide MotionAgrees, AllInWorld, NoUpdate, Send, UpdatePing, InboxOf;
    var h', pong := OnPing(h, j, clientTime, readAt, now), Pong(clientTime, now);
    SilentSend(h.net, j, pong, k);
    if InRoom(h.gw, j).Some? {
      var rtt := if readAt < clientTime then 0 else readAt - clientTime;
      QuietOperation(cfg, h, h', InRoom(h.gw, j).value, UpdatePingOp(h.gw.contexts[j].playerId, rtt as real), k, room);
    } else {
      SilentReply(cfg, h, h', j, pong, k, room);
    }
  }

  lemma HeartbeatIsSilent(cfg: Config, h: Hub, j: Socket, now: int, k: Socket, room: RoomId)
    requires j in h.gw.contexts && room in h.gw.sessions && forall r :: r in h.gw.sessions ==> Inv(h.gw.sessions[r])
    ensures NoUpdate(cfg, h, OnHeartbeat(h, j, now), k, room)
  {
    hide MotionAgrees, AllInWorld, NoUpdate, Heartbeat, InboxOf;
    if InRoom(h.gw, j).Some? {
      QuietOperation(cfg, h, OnHeartbeat(h, j, now), InRoom(h.gw, j).value, HeartbeatOp(h.gw.contexts[j].playerId, now),
                     k, room);
    } else {
      NothingSent(cfg, h, h, k, room);
    }
  }

  lemma RequestIsLive(cfg: Config, h: Hub, j: Socket, now: int, k: Socket, room: RoomId)
    requires j in h.gw.contexts && room in h.gw.sessions && forall r :: r in h.gw.sessions ==> Inv(h.gw.sessions[r])
    requires ListensTo(h, k, room)
    ensures NoUpdate(cfg, h, OnRequestSnapshot(h, j, now), k, room)
  {
    hide MotionAgrees, AllInWorld, NoUpdate, BuildFullSnapshot, InboxOf;
    if j == k {
      LiveReply(cfg, h, k, room, now);
    } else {
      if InRoom(h.gw, j).Some? {
        InboxAfterSend(h.net, j, Direct(BuildFullSnapshot(h.gw.sessions[InRoom(h.gw, j).value], now)), k);
      }
      NothingSent(cfg, h, OnRequestSnapshot(h, j, now), k, room);
    }
  }

  lemma DispatchIsSilent(cfg: Config, w: World, j: Socket, msg: ClientMessage, readAt: int, now: int, k: Socket,
      room: RoomId)
    requires TasksReady(w) && j in w.hub.gw.contexts && ListensTo(w.hub, k, room) && room in w.hub.gw.sessions
    ensures NoUpdate(cfg, w.hub, Dispatch(w, j, msg, readAt, now).hub, k, room)
  {
    hide Inv, NoUpdate, BeginJoin, OnInput, OnPing, OnHeartbeat, OnRequestSnapshot, ListensTo, Send;
    assert Inv(w.hub.gw.sessions[room]);
    match msg
    case JoinSession(r, token) => BeginJoinIsSilent(cfg, w.hub, j, r, token, readAt, now, k, room);
    case InputMessage(input) => InputIsSilent(cfg, w.hub, j, input, k, room);
    case Ping(clientTime) => PingIsSilent(cfg, w.hub, j, clientTime, readAt, now, k, room);
    case HeartbeatMessage => HeartbeatIsSilent(cfg, w.hub, j, now, k, room);
    case RequestSnapshot => RequestIsLive(cfg, w.hub, j, now, k, room);
    case TooLarge =>
        SilentReply(cfg, w.hub, Reply(w.hub, j, Error(PayloadTooLarge)), j, Error(PayloadTooLarge), k, room);
    case Malformed(isJson) =>
      var code := if isJson then ValidationError else InvalidJson;
      SilentReply(cfg, w.hub, Reply(w.hub, j, Error(code)), j, Error(code), k, room);
  }

  lemma AttachIsSilent(cfg: Config, h: Hub, j: Socket, r: RoomId, token: Token, now: int, k: Socket, room: RoomId)
    requires j in h.gw.contexts && room in h.gw.sessions && forall q :: q in h.gw.sessions ==> Inv(h.gw.sessions[q])
    ensures NoUpdate(cfg, h, AttachJoin(cfg, h, j, r, token, now), k, room)
  {
    hide MotionAgrees, AllInWorld, AddPlayer, InboxOf;
    var ctx := h.gw.contexts[j];
    if r in h.gw.sessions {
      QuietOperation(cfg, h, AttachJoin(cfg, h, j, r, token, now), r, AddPlayerOp(ctx.playerId, ctx.username, now), k,
                     room);
    }
  }

  lemma RoomIsSilent(cfg: Config, h: Hub, j: Socket, r: RoomId, found: Option<RoomInfo>, early: bool, token: Token,
      now: int, k: Socket, room: RoomId)
    requires j in h.gw.contexts && room in h.gw.sessions && forall q :: q in h.gw.sessions ==> Inv(h.gw.sessions[q])
    ensures NoUpdate(cfg, h, RoomLookedUp(cfg, h, j, r, found, early, token, now).0, k, room)
  {
    hide Inv, NoUpdate, AttachJoin, Abort, Send;
    assert Inv(h.gw.sessions[room]);
    AbortIsSilent(cfg, h, j, early, k, room);
    SilentReply(cfg, h, Reply(h, j, Error(Forbidden)), j, Error(Forbidden), k, room);
    SilentReply(cfg, h, Reply(h, j, Error(RoomClosed)), j, Error(RoomClosed), k, room);
    AttachIsSilent(cfg, h, j, r, token, now, k, room);
  }

  lemma CloseIsSilent(cfg: Config, h: Hub, j: Socket, k: Socket, room: RoomId)
    requires room in h.gw.sessions && forall q :: q in h.gw.sessions ==> Inv(h.gw.sessions[q])
    ensures NoUpdate(cfg, h, OnClose(h.(net := Close(h.net, j)), j), k, room)
    ensures NoUpdate(cfg, h, h.(net := Close(h.net, j)), k, room)
  {
    hide MotionAgrees, AllInWorld, MarkDisconnected, NoUpdate, Without;
    var closed := h.(net := Close(h.net, j));
    var h' := OnClose(closed, j);
    NothingSent(cfg, h, closed, k, room);
    if h'.gw.sessions == h.gw.sessions && h'.log.said == h.log.said {
      NothingSent(cfg, h, h', k, room);
    } else {
      var ctx := h.gw.contexts[j];
      QuietOperation(cfg, h, h', ctx.roomId.value, MarkDisconnectedOp(ctx.playerId), k, room);
    }
  }

  lemma FinishInbox(h: Hub, k: Socket, room: RoomId, token: Token, now: int)
    requires k in h.gw.contexts && room in h.gw.sessions && Inv(h.gw.sessions[room]) && k in h.net.open
    ensures MirrorFrom(InboxOf(FinishJoin(h, k, room, token, now).net, k)) ==
            MirrorOf(View(h.gw.sessions[room].players.entries))
    ensures Broadcasts(InboxOf(FinishJoin(h, k, room, token, now).net, k)) == Broadcasts(InboxOf(h.net, k))
  {
    hide InboxOf, MotionAgrees, AllInWorld, BuildFullSnapshot, Receive, View;
    var session := h.gw.sessions[room];
    var joined, live :=
        Joined(room, h.gw.contexts[k].playerId, session.tick, token), Direct(BuildFullSnapshot(session, now));
    InboxAfterSend(h.net, k, joined, k);
    InboxAfterSend(Send(h.net, k, joined), k, live, k);
    AppendOne(InboxOf(h.net, k), joined);
    AppendOne(InboxOf(h.net, k) + [joined], live);
    LiveSnapshotTracks(session, MirrorFrom(InboxOf(h.net, k)), now);
  }

  lemma FinishElsewhere(h: Hub, j: Socket, room: RoomId, token: Token, now: int, k: Socket)
    requires j in h.gw.contexts && room in h.gw.sessions && Inv(h.gw.sessions[room]) && j != k
    ensures InboxOf(FinishJoin(h, j, room, token, now).net, k) == InboxOf(h.net, k)
  {
    hide MotionAgrees, AllInWorld, BuildFullSnapshot;
  }

  /** The end of a join starts its client following. */
  lemma FinishFollows(h: Hub, k: Socket, room: RoomId, token: Token, now: int)
    requires ListensTo(h, k, room) && room in h.gw.sessions && Inv(h.gw.sessions[room])
    ensures Follows(FinishJoin(h, k, room, token, now), k, room)
  {
    hide InboxOf, BuildFullSnapshot, Tracks;
    FinishInbox(h, k, room, token, now);
    FinishOnlyNet(h, k, room, token, now);
    ViewTracks(h.gw.sessions[room]);
  }

  // ---------- ticks ----------

  lemma BroadcastedInbox(h: Hub, room: RoomId, m: Message, k: Socket)
    ensures InboxOf(Broadcasted(h, room, m).net, k) ==
            if ListensTo(h, k, room) then InboxOf(h.net, k) + [Broadcast(m)] else InboxOf(h.net, k)
    ensures ListensTo(Broadcasted(h, room, m), k, room) <==> ListensTo(h, k, room)
  {
  }

  /** With one listener a broadcast reaches a listening socket once, and no other socket at all. */
  lemma {:induction false} BroadcastInbox(h: Hub, room: RoomId, messages: seq<Message>, k: Socket)
    requires ListenersOf(h.gw, room) == 1
    ensures var r := BroadcastAll(h, room, messages);
            && InboxOf(r.net, k) ==
                 (if ListensTo(h, k, room) then InboxOf(h.net, k) + Wrapped(messages) else InboxOf(h.net, k))
            && (ListensTo(r, k, room) <==> ListensTo(h, k, room))
  {
    hide InboxOf, ListensTo, Broadcasted, ListenersOf;
    if messages != [] {
      var init, last := messages[..|messages| - 1], messages[|messages| - 1];
      BroadcastInbox(h, room, init, k);
      var before := BroadcastAll(h, room, init);
      BroadcastedInbox(before, room, last, k);
      assert BroadcastTimes(before, room, last, 0) == before;
      assert BroadcastTimes(before, room, last, 1) == Broadcasted(before, room, last);
      assert (InboxOf(h.net, k) + Wrapped(init)) + [Broadcast(last)] == InboxOf(h.net, k) + Wrapped(messages);
    } else {
      assert InboxOf(h.net, k) + Wrapped(messages) == InboxOf(h.net, k);
    }
  }

  lemma TickRoomInbox(cfg: Config, h: Hub, r: RoomId, now: int, k: Socket)
    requires r in h.gw.sessions && Inv(h.gw.sessions[r]) && ListenersOf(h.gw, r) == 1
    ensures var messages := Messages(Step(cfg, h.gw.sessions[r], TickOp(now)).events);
            var h' := TickRoom(cfg, h, r, now);
            && InboxOf(h'.net, k) ==
                 (if ListensTo(h, k, r) then InboxOf(h.net, k) + Wrapped(messages) else InboxOf(h.net, k))
            && h'.log.said == h.log.said[r := SaidIn(h.log, r) + messages]
  {
    hide Step, InboxOf, BroadcastAll, MotionAgrees, AllInWorld, Messages, Wrapped;
    var o := Step(cfg, h.gw.sessions[r], TickOp(now));
    var messages := Messages(o.events);
    var ticked := h.(gw := h.gw.(sessions := h.gw.sessions[r := o.session]),
                     log := h.log.(said := h.log.said[r := SaidIn(h.log, r) + messages]));
    BroadcastInbox(ticked, r, messages, k);
    BroadcastOnlyInboxes(ticked, r, messages);
  }

  /** A tick of the client's own room: what the session says is what the client is sent. */
  lemma TickFollows(cfg: Config, h: Hub, room: RoomId, now: int, k: Socket)
    requires room in h.gw.sessions && Inv(h.gw.sessions[room]) && ListenersOf(h.gw, room) == 1
    requires ListensTo(h, k, room) && Follows(h, k, room)
    ensures Follows(TickRoom(cfg, h, room, now), k, room)
  {
    hide Step, InboxOf, TickRoom, MotionAgrees, AllInWorld, Tracks, ListensTo, ListenersOf, Messages, ReceiveAll;
    var s, mirror := h.gw.sessions[room], MirrorFrom(InboxOf(h.net, k));
    var messages := Messages(Step(cfg, s, TickOp(now)).events);
    TickRoomInbox(cfg, h, room, now, k);
    TickRoomOnlySession(cfg, h, room, now);
    AppendWrapped(InboxOf(h.net, k), messages);
    TickKeepsTracking(cfg, Watch(s, mirror, {}), now);
    assert Hear(cfg, Watch(s, mirror, {}), TickOp(now)) ==
           Watch(Step(cfg, s, TickOp(now)).session, ReceiveAll(mirror, messages), {});
  }

  // ---------- one event ----------

  /** Every event but a tick, and the end of a join to another room, leaves a listening client with
      no update missed and its mirror good. */
  lemma OthersAreSilent(cfg: Config, w: World, e: WireEvent, k: Socket, room: RoomId)
    requires WorldInv(w) && Enabled(w, e) && !e.Ticks?
    requires ListensTo(w.hub, k, room) && room in w.hub.gw.sessions
    requires e.JoinedResumes? ==> !(e.ok && e.k == k && e.roomId != room)
    ensures NoUpdate(cfg, w.hub, Next(cfg, w, e).hub, k, room)
  {
    hide Inv, NoUpdate, Connect, Dispatch, RoomLookedUp, OnClose, FinishJoin, Abort, Send, ListensTo,
         SocketsMatch, TokensCurrent, SpentSoundly, OneListenerEach;
    var h' := Next(cfg, w, e).hub;
    assert Inv(w.hub.gw.sessions[room]);
    match e
    case Connected(j) => NothingSent(cfg, w.hub, h', k, room);
    case ConnectResumes(j, allowed, auth) =>
      ConnectIsSilent(cfg, w.(tasks := w.tasks - multiset{AwaitConnect(j)}), j, allowed, auth, k, room);
    case OnlineResumes(j, ok) =>
      NothingSent(cfg, w.hub, w.hub.(net := w.hub.net.(watched := w.hub.net.watched + {j})), k, room);
      AbortIsSilent(cfg, w.hub, j, true, k, room);
    case Arrives(j, msg) =>
      NothingSent(cfg, w.hub, w.hub, k, room);
      SilentReply(cfg, w.hub, Reply(w.hub, j, Error(PayloadTooLarge)), j, Error(PayloadTooLarge), k, room);
    case MessageResumes(j, msg, allowed, readAt, now) =>
      MessageIsSilent(cfg, w, j, msg, allowed, readAt, now, k, room);
    case RoomResumes(j, r, found, early, token, now) =>
      RoomIsSilent(cfg, w.hub, j, r, found, early, token, now, k, room);
    case JoinedResumes(j, r, token, ok, early, now) =>
      JoinedIsSilent(cfg, w.hub, j, r, token, ok, early, now, k, room);
    case HeartbeatResumes(j) => SilentReply(cfg, w.hub, h', j, HeartbeatAck, k, room);
    case MessageFails(j, msg, early) => AbortIsSilent(cfg, w.hub, j, early, k, room);
    case HeartbeatFails(j, early) => AbortIsSilent(cfg, w.hub, j, early, k, room);
    case Lost(j) => NothingSent(cfg, w.hub, h', k, room);
    case CloseFires(j) => CloseIsSilent(cfg, w.hub, j, k, room);
  }

  lemma MessageIsSilent(cfg: Config, w: World, j: Socket, msg: ClientMessage, allowed: bool, readAt: int, now: int,
      k: Socket, room: RoomId)
    requires TasksReady(w) && Enabled(w, MessageResumes(j, msg, allowed, readAt, now))
    requires ListensTo(w.hub, k, room) && room in w.hub.gw.sessions
    ensures NoUpdate(cfg, w.hub, Next(cfg, w, MessageResumes(j, msg, allowed, readAt, now)).hub, k, room)
  {
    hide Inv, NoUpdate, Dispatch, Send, ListensTo;
    assert Inv(w.hub.gw.sessions[room]);
    var resumed := w.(tasks := w.tasks - multiset{AwaitMessage(j, msg)});
    assert TasksReady(resumed);
    if allowed {
      DispatchIsSilent(cfg, resumed, j, msg, readAt, now, k, room);
    } else {
      SilentReply(cfg, w.hub, Reply(w.hub, j, Error(RateLimit)), j, Error(RateLimit), k, room);
    }
  }

  lemma JoinedIsSilent(cfg: Config, h: Hub, j: Socket, r: RoomId, token: Token, ok: bool, early: bool, now: int,
      k: Socket, room: RoomId)
    requires j in h.gw.contexts && r in h.gw.sessions && Inv(h.gw.sessions[r])
    requires room in h.gw.sessions && Inv(h.gw.sessions[room]) && ListensTo(h, k, room)
    requires ok && j == k ==> r == room
    ensures NoUpdate(cfg, h, if ok then FinishJoin(h, j, r, token, now) else Abort(h, j, early), k, room)
  {
    hide Inv, Step, FinishJoin, Abort, View, InboxOf;
    if !ok {
      AbortIsSilent(cfg, h, j, early, k, room);
    } else {
      FinishOnlyNet(h, j, r, token, now);
      if j == k {
        FinishInbox(h, k, room, token, now);
      } else {
        FinishElsewhere(h, j, r, token, now, k);
      }
    }
  }

  /** A join that is about to send its snapshot was already about to, or has just put its socket in
      the room it joins. */
  lemma NewJoins(cfg: Config, w: World, e: WireEvent, t: Task)
    requires WorldInv(w) && Enabled(w, e) && t.AwaitJoined? && t !in w.tasks
    ensures t in Next(cfg, w, e).tasks ==>
              && e.RoomResumes? && t == AwaitJoined(e.k, e.roomId, e.token)
              && Next(cfg, w, e).hub == AttachJoin(cfg, w.hub, e.k, e.roomId, e.token, e.now)
  {
    hide Inv, SocketsMatch, TokensCurrent, SpentSoundly, OneListenerEach, Connect, Dispatch, RoomLookedUp, AttachJoin,
         OnClose, TickRoom, FinishJoin, Abort, Send, Close, Arrive, Reply;
    match e
    case ConnectResumes(k, allowed, auth) =>
        ConnectTasks(w.(tasks := w.tasks - multiset{AwaitConnect(k)}), k, allowed, auth);
    case MessageResumes(k, msg, allowed, readAt, now) => MessageBringsNoJoin(cfg, w, k, msg, allowed, readAt, now, t);
    case RoomResumes(k, r, found, early, token, now) => RoomLookedUpIs(cfg, w.hub, k, r, found, early, token, now);
    case CloseFires(k) =>
    case Ticks(r, now) =>
    case _ => QuietTasks(cfg, w, e);
  }

  lemma MessageBringsNoJoin(cfg: Config, w: World, k: Socket, msg: ClientMessage, allowed: bool, readAt: int, now: int,
      t: Task)
    requires WorldInv(w) && Enabled(w, MessageResumes(k, msg, allowed, readAt, now)) && t.AwaitJoined? && t !in w.tasks
    ensures t !in Next(cfg, w, MessageResumes(k, msg, allowed, readAt, now)).tasks
  {
    hide Inv, SocketsMatch, TokensCurrent, SpentSoundly, OneListenerEach, Dispatch, BeginJoin, OneSessionOp, Send;
    var resumed := w.(tasks := w.tasks - multiset{AwaitMessage(k, msg)});
    if allowed {
      FewerTasksKeep(w, resumed.tasks);
      DispatchIs(cfg, resumed, k, msg, readAt, now);
    }
  }

  lemma ConnectTasks(w: World, k: Socket, allowed: bool, auth: Option<Payload>)
    ensures forall t :: t in Connect(w, k, allowed, auth).tasks ==> t in w.tasks || t.AwaitOnline?
  {
    hide Register, Abort, Close;
  }

  lemma NoStrayAfter(cfg: Config, w: World, e: WireEvent, k: Socket, room: RoomId)
    requires WorldInv(w) && Enabled(w, e) && NoStrayJoin(w, k, room)
    ensures ListensTo(Next(cfg, w, e).hub, k, room) ==> NoStrayJoin(Next(cfg, w, e), k, room)
  {
    hide Next, Enabled, TasksReady, SocketsMatch, TokensCurrent, SpentSoundly, OneListenerEach, AddPlayer;
    forall t | t in Next(cfg, w, e).tasks && t.AwaitJoined? && t.k == k && t !in w.tasks
        && ListensTo(Next(cfg, w, e).hub, k, room)
      ensures t.roomId == room
    {
      NewJoins(cfg, w, e, t);
    }
  }

  /** One event, whatever it resumes: a client that listens before and after still follows. */
  lemma NextFollows(cfg: Config, w: World, e: WireEvent, k: Socket, room: RoomId)
    requires WorldInv(w) && Enabled(w, e) && NoStrayJoin(w, k, room)
    requires ListensTo(w.hub, k, room) && Follows(w.hub, k, room)
    ensures Follows(Next(cfg, w, e).hub, k, room)
  {
    hide SocketsMatch, TokensCurrent, SpentSoundly, Next, ListensTo, MotionAgrees, AllInWorld, Tracks, TickRoom;
    if e.Ticks? {
      TickOfOneRoom(cfg, w, e.roomId, e.now, k, room);
    } else {
      OthersAreSilent(cfg, w, e, k, room);
      NoUpdateFollows(cfg, w.hub, Next(cfg, w, e).hub, k, room);
    }
  }

  lemma TickOfOneRoom(cfg: Config, w: World, r: RoomId, now: int, k: Socket, room: RoomId)
    requires WorldInv(w) && Enabled(w, Ticks(r, now))
    requires ListensTo(w.hub, k, room) && Follows(w.hub, k, room)
    ensures Follows(Next(cfg, w, Ticks(r, now)).hub, k, room)
  {
    hide SocketsMatch, TokensCurrent, SpentSoundly, MotionAgrees, AllInWorld, Tracks, TickRoom, Step, InboxOf, Messages,
         Wrapped;
    if r == room {
      TickFollows(cfg, w.hub, room, now, k);
    } else {
      TickRoomInbox(cfg, w.hub, r, now, k);
      TickRoomOnlySession(cfg, w.hub, r, now);
    }
  }

  // ---------- every update once and in order ----------

  /** What the socket was sent as updates between two moments is what the session said between
      them. */
  ghost predicate HeardAll(h: Hub, h': Hub, k: Socket, room: RoomId) {
    && SaidIn(h.log, room) <= SaidIn(h'.log, room)
    && Broadcasts(InboxOf(h'.net, k)) == Broadcasts(InboxOf(h.net, k)) + SaidIn(h'.log, room)[|SaidIn(h.log, room)|..]
  }

  lemma NextIsHeard(cfg: Config, w: World, e: WireEvent, k: Socket, room: RoomId)
    requires WorldInv(w) && Enabled(w, e)
    requires ListensTo(w.hub, k, room) && room in w.hub.gw.sessions
    ensures HeardAll(w.hub, Next(cfg, w, e).hub, k, room)
    ensures room in Next(cfg, w, e).hub.gw.sessions
  {
    hide SocketsMatch, TokensCurrent, SpentSoundly, ListensTo, MotionAgrees, AllInWorld, TickRoom, FinishJoin, InboxOf,
         Connect, Dispatch, RoomLookedUp, OnClose, Abort, Send, Step, Messages, Wrapped, OneListenerEach;
    var h' := Next(cfg, w, e).hub;
    if e.Ticks? {
      TickIsHeard(cfg, w, e.roomId, e.now, k, room);
    } else if e.JoinedResumes? && e.ok && e.k == k && e.roomId != room {
      ListenerIsOpen(w.hub, k, room);
      FinishInbox(w.hub, k, e.roomId, e.token, e.now);
      FinishOnlyNet(w.hub, k, e.roomId, e.token, e.now);
    } else {
      OthersAreSilent(cfg, w, e, k, room);
    }
  }

  lemma ListenerIsOpen(h: Hub, k: Socket, room: RoomId)
    requires ListensTo(h, k, room)
    ensures k in h.net.open && k in h.gw.contexts
  {
  }

  lemma TickIsHeard(cfg: Config, w: World, r: RoomId, now: int, k: Socket, room: RoomId)
    requires WorldInv(w) && Enabled(w, Ticks(r, now))
    requires ListensTo(w.hub, k, room) && room in w.hub.gw.sessions
    ensures HeardAll(w.hub, TickRoom(cfg, w.hub, r, now), k, room)
    ensures room in TickRoom(cfg, w.hub, r, now).gw.sessions
  {
    hide SocketsMatch, TokensCurrent, SpentSoundly, MotionAgrees, AllInWorld, TickRoom, InboxOf, Step, Messages,
         Wrapped;
    TickRoomInbox(cfg, w.hub, r, now, k);
    TickRoomOnlySession(cfg, w.hub, r, now);
    if r == room {
      AppendWrapped(InboxOf(w.hub.net, k), Messages(Step(cfg, w.hub.gw.sessions[r], TickOp(now)).events));
    }
  }

  lemma HeardAllChains(a: Hub, b: Hub, c: Hub, k: Socket, room: RoomId)
    requires HeardAll(a, b, k, room) && HeardAll(b, c, k, room)
    ensures HeardAll(a, c, k, room)
  {
    var sa, sb, sc := SaidIn(a.log, room), SaidIn(b.log, room), SaidIn(c.log, room);
    assert sc[|sa|..] == sb[|sa|..] + sc[|sb|..];
  }

  // ---------- runs ----------

  /** At every moment of the run the socket is registered, open and in the room. */
  ghost predicate ListensThroughout(cfg: Config, w: World, es: seq<WireEvent>, k: Socket, room: RoomId)
    requires WorldInv(w)
  {
    forall n :: 0 <= n <= |es| ==> ListensTo(RunWorld(cfg, w, es[..n]).hub, k, room)
  }

  lemma ListensBefore(cfg: Config, w: World, es: seq<WireEvent>, k: Socket, room: RoomId)
    requires WorldInv(w) && es != [] && ListensThroughout(cfg, w, es, k, room)
    ensures ListensThroughout(cfg, w, es[..|es| - 1], k, room)
    ensures ListensTo(RunWorld(cfg, w, es[..|es| - 1]).hub, k, room)
    ensures ListensTo(RunWorld(cfg, w, es).hub, k, room)
  {
    hide WorldInv, ListensTo, RunWorld;
    var init := es[..|es| - 1];
    assert forall n :: 0 <= n <= |init| ==> init[..n] == es[..n];
    assert es[..|es|] == es;
  }

  /** While a socket stays registered, open and in a room it is sent every message the room's
      session emits, each once, in order, under every interleaving of everything else. */
  lemma {:induction false} EveryUpdateOnce(cfg: Config, w: World, es: seq<WireEvent>, k: Socket, room: RoomId)
    requires WorldInv(w) && ListensThroughout(cfg, w, es, k, room) && room in w.hub.gw.sessions
    ensures HeardAll(w.hub, RunWorld(cfg, w, es).hub, k, room)
    ensures room in RunWorld(cfg, w, es).hub.gw.sessions
  {
    hide Next, ListensTo, TasksReady, SocketsMatch, TokensCurrent, SpentSoundly, OneListenerEach, Enabled,
         ListensThroughout;
    if es == [] {
      assert SaidIn(w.hub.log, room)[|SaidIn(w.hub.log, room)|..] == [];
    } else {
      var before := RunWorld(cfg, w, es[..|es| - 1]);
      ListensBefore(cfg, w, es, k, room);
      EveryUpdateOnce(cfg, w, es[..|es| - 1], k, room);
      if Enabled(before, es[|es| - 1]) {
        NextIsHeard(cfg, before, es[|es| - 1], k, room);
        HeardAllChains(w.hub, before.hub, RunWorld(cfg, w, es).hub, k, room);
      }
    }
  }

  /** A following client goes on following for as long as its socket listens, provided no join of
      its own to another room was in flight. */
  lemma {:induction false} FollowsThroughout(cfg: Config, w: World, es: seq<WireEvent>, k: Socket, room: RoomId)
    requires WorldInv(w) && ListensThroughout(cfg, w, es, k, room)
    requires Follows(w.hub, k, room) && NoStrayJoin(w, k, room)
    ensures Follows(RunWorld(cfg, w, es).hub, k, room) && NoStrayJoin(RunWorld(cfg, w, es), k, room)
  {
    hide Next, ListensTo, TasksReady, SocketsMatch, TokensCurrent, SpentSoundly, OneListenerEach, Enabled, Follows,
         NoStrayJoin, ListensThroughout;
    if es != [] {
      var before := RunWorld(cfg, w, es[..|es| - 1]);
      ListensBefore(cfg, w, es, k, room);
      FollowsThroughout(cfg, w, es[..|es| - 1], k, room);
      if Enabled(before, es[|es| - 1]) {
        NextFollows(cfg, before, es[|es| - 1], k, room);
        NoStrayAfter(cfg, before, es[|es| - 1], k, room);
      }
    }
  }

  /** From the end of its join on, a client follows. */
  lemma JoinStarts(cfg: Config, w: World, k: Socket, room: RoomId, token: Token, early: bool, joined: int)
    requires WorldInv(w) && Enabled(w, JoinedResumes(k, room, token, true, early, joined))
    requires ListensTo(w.hub, k, room) && NoStrayJoin(w, k, room)
    ensures var start := Next(cfg, w, JoinedResumes(k, room, token, true, early, joined));
            WorldInv(start) && Follows(start.hub, k, room) && NoStrayJoin(start, k, room)
  {
    hide SocketsMatch, TokensCurrent, SpentSoundly, OneListenerEach, FinishJoin, Follows, ListensTo, MotionAgrees,
         AllInWorld;
    NextKeeps(cfg, w, JoinedResumes(k, room, token, true, early, joined));
    FinishFollows(w.hub, k, room, token, joined);
  }

  /** After any run through which it listens, the next tick of its room leaves a following client in
      agreement. */
  lemma FollowerAgrees(cfg: Config, w: World, k: Socket, room: RoomId, es: seq<WireEvent>, now: int)
    requires WorldInv(w) && Follows(w.hub, k, room) && NoStrayJoin(w, k, room)
    requires ListensThroughout(cfg, w, es, k, room)
    ensures var end := RunWorld(cfg, w, es);
            && Enabled(end, Ticks(room, now))
            && var h := Next(cfg, end, Ticks(room, now)).hub;
               && room in h.gw.sessions
               && AgreesWithServer(MirrorFrom(InboxOf(h.net, k)), h.gw.sessions[room].players.entries)
  {
    hide Next, WorldInv, ListensTo, AgreesWithServer, InboxOf, MirrorFrom, Tracks, NoStrayJoin;
    FollowsThroughout(cfg, w, es, k, room);
    var end := RunWorld(cfg, w, es);
    assert es[..|es|] == es;
    assert ListensTo(end.hub, k, room);
    NextFollows(cfg, end, Ticks(room, now), k, room);
    AgreesAfterTick(cfg, end, room, now, k);
  }

  /** End to end: from the snapshot that ends its join, through any interleaving, a client whose
      socket keeps listening agrees with the server after every tick of its room on who is there
      and on everything about them but `connected` and `ping`. */
  lemma JoinedClientAgrees(cfg: Config, w: World, k: Socket, room: RoomId, token: Token, early: bool, joined: int,
      es: seq<WireEvent>, now: int)
    requires WorldInv(w) && Enabled(w, JoinedResumes(k, room, token, true, early, joined))
    requires ListensTo(w.hub, k, room) && NoStrayJoin(w, k, room)
    ensures var start := Next(cfg, w, JoinedResumes(k, room, token, true, early, joined));
            && WorldInv(start)
            && (ListensThroughout(cfg, start, es, k, room) ==>
                  var end := RunWorld(cfg, start, es);
                  && Enabled(end, Ticks(room, now))
                  && var h := Next(cfg, end, Ticks(room, now)).hub;
                     && room in h.gw.sessions
                     && AgreesWithServer(MirrorFrom(InboxOf(h.net, k)), h.gw.sessions[room].players.entries))
  {
    hide Next, ListensTo, SocketsMatch, TokensCurrent, SpentSoundly, OneListenerEach, Follows, NoStrayJoin, RunWorld,
         AgreesWithServer, InboxOf, MirrorFrom, ListensThroughout;
    var start := Next(cfg, w, JoinedResumes(k, room, token, true, early, joined));
    JoinStarts(cfg, w, k, room, token, early, joined);
    if ListensThroughout(cfg, start, es, k, room) {
      FollowerAgrees(cfg, start, k, room, es, now);
    }
  }

  lemma AgreesAfterTick(cfg: Config, w: World, room: RoomId, now: int, k: Socket)
    requires WorldInv(w) && Enabled(w, Ticks(room, now))
    ensures var h := Next(cfg, w, Ticks(room, now)).hub;
            Follows(h, k, room) ==> AgreesWithServer(MirrorFrom(InboxOf(h.net, k)), h.gw.sessions[room].players.entries)
  {
    hide SocketsMatch, TokensCurrent, SpentSoundly, OneListenerEach, TickRoom, Tick, InboxOf, MirrorFrom, MotionAgrees,
         AllInWorld, View;
    TickRoomOnlySession(cfg, w.hub, room, now);
    TickKeeps(cfg, w.hub.gw.sessions[room], now);
    var h := Next(cfg, w, Ticks(room, now)).hub;
    if Follows(h, k, room) {
      TracksMeansAgrees(h.gw.sessions[room], MirrorFrom(InboxOf(h.net, k)));
    }
  }

  lemma TracksMeansAgrees(s: Session, mirror: Mirror)
    requires Tracks(Watch(s, mirror, {})) && s.previous.entries == View(s.players.entries)
    ensures AgreesWithServer(mirror, s.players.entries)
  {
  }
}
