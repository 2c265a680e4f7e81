/** When the gateway lets a client in, what it answers, and what each message changes. */
module GatewayRules {
  import opened OrderedMaps
  import opened AntiCheat
  import opened Snapshots
  import opened Sessions
  import opened Gateways
  import opened GatewayInvariants
  import opened Replication
  import opened Delivery
  import opened SessionEffects

  /** Socket `k` was sent these and no other socket anything; no socket opened or closed. */
  ghost predicate SentOnly(net: Net, net': Net, k: Socket, ms: seq<ServerMessage>) {
    && net'.open == net.open && net'.known == net.known && net'.watched == net.watched
    && (forall j :: j != k ==> InboxOf(net', j) == InboxOf(net, j))
    && InboxOf(net', k) == if k in net.open then InboxOf(net, k) + ms else InboxOf(net, k)
  }

  lemma NothingIsSent(net: Net, k: Socket)
    ensures SentOnly(net, net, k, [])
  {
    assert InboxOf(net, k) + [] == InboxOf(net, k);
  }

  lemma ReplyIs(h: Hub, k: Socket, m: ServerMessage)
    ensures Reply(h, k, m) == h.(net := Reply(h, k, m).net) && SentOnly(h.net, Reply(h, k, m).net, k, [m])
  {
  }

  // ---------- connecting ----------

  /** The player's earlier socket, if any, is closed and unregistered; the new one is registered in no
      room, and every other registration stays. */
  lemma RegisterIs(h: Hub, k: Socket, p: Payload)
    requires Distinct(h.gw.sockets) && k !in h.gw.sockets
    requires forall q :: q in h.gw.socketsByPlayer ==> h.gw.socketsByPlayer[q] in h.gw.sockets
    ensures var h' := Register(h, k, p);
            var earlier := if p.playerId in h.gw.socketsByPlayer then {h.gw.socketsByPlayer[p.playerId]} else {};
            && h'.net.open == h.net.open - earlier && h'.net.inboxes == h.net.inboxes && h'.log == h.log
            && (forall j :: j in h'.gw.sockets <==> j == k || (j in h.gw.sockets && j !in earlier))
            && p.playerId in h'.gw.socketsByPlayer && h'.gw.socketsByPlayer[p.playerId] == k
            && (forall q :: q != p.playerId ==> (q in h'.gw.socketsByPlayer <==> q in h.gw.socketsByPlayer))
            && (forall q :: q != p.playerId && q in h.gw.socketsByPlayer ==>
                  h'.gw.socketsByPlayer[q] == h.gw.socketsByPlayer[q])
            && k in h'.gw.contexts && h'.gw.contexts[k].userId == p.userId && h'.gw.contexts[k].playerId == p.playerId
            && h'.gw.contexts[k].username == p.username
            && h'.gw.contexts[k].roomId == None && h'.gw.contexts[k].reconnectToken == None
            && (forall j :: j != k && j in h.gw.contexts ==>
                  j in h'.gw.contexts && h'.gw.contexts[j] == h.gw.contexts[j])
            && h'.gw.sessions == h.gw.sessions && h'.gw.reconnectTokens == h.gw.reconnectTokens
  {
    if p.playerId in h.gw.socketsByPlayer {
      WithoutMembers(h.gw.sockets, h.gw.socketsByPlayer[p.playerId]);
    }
  }

  /** A connection over its rate limit is closed unanswered, one without a good token is answered and
      closed, and neither is registered. */
  lemma ConnectionRefused(w: World, k: Socket, allowed: bool, auth: Option<Payload>)
    requires !allowed || auth == None
    ensures var w' := Connect(w, k, allowed, auth);
            && w'.hub.gw == w.hub.gw && w'.hub.log == w.hub.log && w'.tasks == w.tasks
            && w'.hub.net.open == w.hub.net.open - {k}
            && (forall j :: j != k ==> InboxOf(w'.hub.net, j) == InboxOf(w.hub.net, j))
            && InboxOf(w'.hub.net, k) ==
               InboxOf(w.hub.net, k) + if allowed && k in w.hub.net.open then [Error(Unauthorized)] else []
  {
    assert InboxOf(w.hub.net, k) + [] == InboxOf(w.hub.net, k);
  }

  /** A frame from a socket that is not registered does nothing; one too large is refused at once. */
  lemma ArriveIs(w: World, k: Socket, msg: ClientMessage)
    ensures var w' := Arrive(w, k, msg);
            if k !in w.hub.gw.sockets then w' == w
            else if msg.TooLarge? then
              && w'.tasks == w.tasks && w'.hub.gw == w.hub.gw && w'.hub.log == w.hub.log
              && SentOnly(w.hub.net, w'.hub.net, k, [Error(PayloadTooLarge)])
            else w'.hub == w.hub && w'.tasks == w.tasks + multiset{AwaitMessage(k, msg)}
  {
    ReplyIs(w.hub, k, Error(PayloadTooLarge));
  }

  /** Closing a registered socket unregisters it, takes its player's entry if it is theirs, and
      disconnects the player in the session of their room. */
  lemma OnCloseIs(h: Hub, k: Socket)
    requires Distinct(h.gw.sockets) && k in h.gw.sockets && k in h.gw.contexts
    ensures var h', ctx := OnClose(h, k), h.gw.contexts[k];
            && h'.net == h.net && h'.gw.contexts == h.gw.contexts && h'.gw.reconnectTokens == h.gw.reconnectTokens
            && (forall j :: j in h'.gw.sockets <==> j in h.gw.sockets && j != k)
            && (forall q :: q in h'.gw.socketsByPlayer <==>
                  q in h.gw.socketsByPlayer && !(q == ctx.playerId && h.gw.socketsByPlayer[q] == k))
            && (forall q :: q in h'.gw.socketsByPlayer ==> h'.gw.socketsByPlayer[q] == h.gw.socketsByPlayer[q])
            && h'.gw.sessions.Keys == h.gw.sessions.Keys
            && (forall r :: r in h.gw.sessions && Some(r) != ctx.roomId ==> h'.gw.sessions[r] == h.gw.sessions[r])
            && (ctx.roomId.Some? && ctx.roomId.value in h.gw.sessions ==>
                  var s, s' := h.gw.sessions[ctx.roomId.value], h'.gw.sessions[ctx.roomId.value];
                  && OnlyTouches(s, s', ctx.playerId)
                  && (if ctx.playerId in s.players.entries then
                        ctx.playerId in s'.players.entries && !s'.players.entries[ctx.playerId].connected
                      else s' == s))
  {
    hide MarkDisconnected, OnlyTouches;
    WithoutMembers(h.gw.sockets, k);
    var ctx := h.gw.contexts[k];
    if ctx.roomId.Some? && ctx.roomId.value in h.gw.sessions {
      MarkDisconnectedIs(h.gw.sessions[ctx.roomId.value], ctx.playerId);
    }
  }

  // ---------- joining ----------

  /** A join without a token goes on. One with a token goes on exactly when the token is in the table,
      not expired at either look at the clock, and the player's own for that room; good or bad, the
      token is used up, and a bad one is answered. Expired tokens go, and nothing else changes. */
  lemma BeginJoinExactlyWhen(h: Hub, k: Socket, room: RoomId, token: Option<Token>, readAt: int, now: int)
    requires k in h.gw.contexts
    ensures var (h', goesOn) := BeginJoin(h, k, room, token, readAt, now);
            var table, ctx := h.gw.reconnectTokens, h.gw.contexts[k];
            && (goesOn <==> (token.Some? ==>
                  && token.value in table
                  && table[token.value].expiresAt > readAt && table[token.value].expiresAt > now
                  && table[token.value].playerId == ctx.playerId && table[token.value].roomId == room))
            && SentOnly(h.net, h'.net, k, if goesOn then [] else [Error(InvalidReconnect)])
            && h'.gw == h.gw.(reconnectTokens := h'.gw.reconnectTokens)
            && (forall t :: t in h'.gw.reconnectTokens <==>
                  t in table && table[t].expiresAt > readAt && Some(t) != token)
            && (forall t :: t in h'.gw.reconnectTokens ==> h'.gw.reconnectTokens[t] == table[t])
  {
    NothingIsSent(h.net, k);
    if token.Some? {
      var used := PurgeExpiredReconnectTokens(h.gw.reconnectTokens, readAt) - {token.value};
      ReplyIs(h.(gw := h.gw.(reconnectTokens := used)), k, Error(InvalidReconnect));
    }
  }

  /** A lookup lets the join go on exactly when it found the room, with the player a member, and not
      closed. Otherwise nothing changes but what the client is told: a non-member is forbidden, a member
      is told the room is closed. */
  lemma JoinGoesOnExactlyWhen(cfg: Config, h: Hub, k: Socket, room: RoomId, found: Option<RoomInfo>, early: bool,
      token: Token, now: int)
    requires k in h.gw.contexts
    ensures var (h', goesOn) := RoomLookedUp(cfg, h, k, room, found, early, token, now);
            && (goesOn <==> found.Some? && found.value.isMember && found.value.status != Closed)
            && (goesOn ==> h'.net == h.net)
            && (!goesOn ==> h'.gw == h.gw && h'.log == h.log)
            && (found.Some? && !goesOn ==>
                  SentOnly(h.net, h'.net, k, [Error(if found.value.isMember then RoomClosed else Forbidden)]))
            && (found == None && !early ==> h' == h)
            && (found == None && early ==>
                  && h'.net.open == h.net.open - {k}
                  && InboxOf(h'.net, k) ==
                     InboxOf(h.net, k) + if k in h.net.open then [Error(Unauthorized)] else [])
  {
    hide AddPlayer;
    ReplyIs(h, k, Error(Forbidden));
    ReplyIs(h, k, Error(RoomClosed));
    assert InboxOf(h.net, k) + [] == InboxOf(h.net, k);
  }

  /** An attachment adds the player to the session of the room, a new one if there is none, and puts the
      context in the room with a new token good for five minutes, in place of its old one; every other
      session, token and context stays. */
  lemma AttachGivesToken(cfg: Config, h: Hub, k: Socket, room: RoomId, token: Token, now: int)
    requires k in h.gw.contexts && token !in h.gw.reconnectTokens
    ensures var h', ctx := AttachJoin(cfg, h, k, room, token, now), h.gw.contexts[k];
            var table, table' := h.gw.reconnectTokens, h'.gw.reconnectTokens;
            && h'.net == h.net && h'.gw.sockets == h.gw.sockets && h'.gw.socketsByPlayer == h.gw.socketsByPlayer
            && h'.gw.sessions == h.gw.sessions[room :=
                 AddPlayer(cfg, if room in h.gw.sessions then h.gw.sessions[room]
                                else Session(OrderedMap([], map[]), OrderedMap([], map[]), map[], 0),
                           ctx.playerId, ctx.username, now)]
            && h'.gw.contexts.Keys == h.gw.contexts.Keys
            && h'.gw.contexts[k] == Context(ctx.userId, ctx.playerId, ctx.username, Some(room), Some(token))
            && (forall j :: j != k && j in h.gw.contexts ==> h'.gw.contexts[j] == h.gw.contexts[j])
            && token in table' && table'[token].playerId == ctx.playerId && table'[token].roomId == room
            && table'[token].expiresAt == now + 5 * 60 * 1000
            && (forall t :: t != token ==> (t in table' <==> t in table && Some(t) != ctx.reconnectToken))
            && (forall t :: t != token && t in table' ==> table'[t] == table[t])
            && token in h'.log.issued && h'.log.issued[token] == Issue(k, table'[token])
  {
    hide AddPlayer;
  }

  /** The end of a join: its answer with the session's tick and the token, and then the live snapshot. */
  lemma FinishJoinSends(h: Hub, k: Socket, room: RoomId, token: Token, now: int)
    requires k in h.gw.contexts && room in h.gw.sessions && Inv(h.gw.sessions[room])
    ensures var h', s := FinishJoin(h, k, room, token, now), h.gw.sessions[room];
            && h'.gw == h.gw && h'.log == h.log
            && SentOnly(h.net, h'.net, k, [Joined(room, h.gw.contexts[k].playerId, s.tick, token),
                                           Direct(BuildFullSnapshot(s, now))])
  {
    hide BuildFullSnapshot, MotionAgrees, AllInWorld;
    var s := h.gw.sessions[room];
    var joined, live := Joined(room, h.gw.contexts[k].playerId, s.tick, token), Direct(BuildFullSnapshot(s, now));
    ReplyIs(h, k, joined);
    ReplyIs(Reply(h, k, joined), k, live);
    assert InboxOf(h.net, k) + [joined] + [live] == InboxOf(h.net, k) + [joined, live];
  }

  // ---------- the messages of a joined client ----------

  /** Only one room's session may differ. */
  ghost predicate OnlySessionOf(gw: Gateway, gw': Gateway, room: RoomId) {
    && gw' == gw.(sessions := gw'.sessions) && gw'.sessions.Keys == gw.sessions.Keys
    && forall r :: r != room && r in gw.sessions ==> gw'.sessions[r] == gw.sessions[r]
  }

  /** An input from a client in no room is refused; one for a player with a queue is queued in the
      session of their room and acknowledged; any other is dropped. */
  lemma OnInputIs(h: Hub, k: Socket, input: Input)
    requires k in h.gw.contexts
    ensures var h', ctx := OnInput(h, k, input), h.gw.contexts[k];
            && h'.log == h.log
            && (if ctx.roomId == None then h'.gw == h.gw && SentOnly(h.net, h'.net, k, [Error(NotInSession)])
                else if ctx.roomId.value !in h.gw.sessions then h' == h
                else
                  var s, s' := h.gw.sessions[ctx.roomId.value], h'.gw.sessions[ctx.roomId.value];
                  && OnlySessionOf(h.gw, h'.gw, ctx.roomId.value) && OnlyTouches(s, s', ctx.playerId)
                  && s'.players == s.players
                  && (if ctx.playerId in s.pending then
                        var queue := s.pending[ctx.playerId];
                        && ctx.playerId in s'.pending
                        && s'.pending[ctx.playerId] == (if |queue| < 40 then queue else queue[1..]) + [input]
                        && SentOnly(h.net, h'.net, k, [InputAck(input.seqNo, s.tick)])
                      else s' == s && h'.net == h.net))
  {
    hide EnqueueInput, OnlyTouches, SentOnly, Send;
    var ctx := h.gw.contexts[k];
    ReplyIs(h, k, Error(NotInSession));
    if ctx.roomId.Some? && ctx.roomId.value in h.gw.sessions {
      var s := h.gw.sessions[ctx.roomId.value];
      EnqueueInputIs(s, ctx.playerId, input);
      var s' := EnqueueInput(s, ctx.playerId, input);
      var queued := h.(gw := h.gw.(sessions := h.gw.sessions[ctx.roomId.value := s']));
      ReplyIs(queued, k, InputAck(input.seqNo, s.tick));
    }
  }

  /** A ping is always answered with both clocks; in a room it sets the player's ping to the round trip,
      never negative. */
  lemma OnPingIs(h: Hub, k: Socket, clientTime: int, readAt: int, now: int)
    requires k in h.gw.contexts
    ensures var h', ctx := OnPing(h, k, clientTime, readAt, now), h.gw.contexts[k];
            && h'.log == h.log && SentOnly(h.net, h'.net, k, [Pong(clientTime, now)])
            && (if ctx.roomId == None || ctx.roomId.value !in h.gw.sessions then h'.gw == h.gw
                else
                  var s, s' := h.gw.sessions[ctx.roomId.value], h'.gw.sessions[ctx.roomId.value];
                  && OnlySessionOf(h.gw, h'.gw, ctx.roomId.value) && OnlyTouches(s, s', ctx.playerId)
                  && (if ctx.playerId in s.players.entries then
                        && ctx.playerId in s'.players.entries
                        && s'.players.entries[ctx.playerId].ping ==
                           (if readAt < clientTime then 0 else readAt - clientTime)
                      else s' == s))
  {
    hide UpdatePing, OnlyTouches, SentOnly, Send;
    var ctx := h.gw.contexts[k];
    ReplyIs(h, k, Pong(clientTime, now));
    if ctx.roomId.Some? && ctx.roomId.value in h.gw.sessions {
      var s, rtt := h.gw.sessions[ctx.roomId.value], if readAt < clientTime then 0 else readAt - clientTime;
      UpdatePingIs(s, ctx.playerId, rtt as real);
      ReplyIs(h.(gw := h.gw.(sessions := h.gw.sessions[ctx.roomId.value := UpdatePing(s, ctx.playerId, rtt as real)])),
              k, Pong(clientTime, now));
    }
  }

  /** A heartbeat reaches the session of the client's room, if any, and sends nothing yet. */
  lemma OnHeartbeatIs(h: Hub, k: Socket, now: int)
    requires k in h.gw.contexts
    ensures var h', ctx := OnHeartbeat(h, k, now), h.gw.contexts[k];
            && h'.log == h.log && h'.net == h.net
            && (if ctx.roomId == None || ctx.roomId.value !in h.gw.sessions then h'.gw == h.gw
                else
                  var s, s' := h.gw.sessions[ctx.roomId.value], h'.gw.sessions[ctx.roomId.value];
                  && OnlySessionOf(h.gw, h'.gw, ctx.roomId.value) && OnlyTouches(s, s', ctx.playerId)
                  && (if ctx.playerId in s.players.entries then
                        && ctx.playerId in s'.players.entries && s'.players.entries[ctx.playerId].connected
                        && s'.players.entries[ctx.playerId].lastHeartbeatAt == now
                      else s' == s))
  {
    hide Heartbeat, OnlyTouches;
    var ctx := h.gw.contexts[k];
    if ctx.roomId.Some? && ctx.roomId.value in h.gw.sessions {
      HeartbeatIs(h.gw.sessions[ctx.roomId.value], ctx.playerId, now);
    }
  }

  /** A snapshot request is answered with the live state of the client's own room, or not at all. */
  lemma OnRequestSnapshotIs(h: Hub, k: Socket, now: int)
    requires k in h.gw.contexts && forall room :: room in h.gw.sessions ==> Inv(h.gw.sessions[room])
    ensures var h', ctx := OnRequestSnapshot(h, k, now), h.gw.contexts[k];
            && h'.gw == h.gw && h'.log == h.log
            && (if ctx.roomId == None || ctx.roomId.value !in h.gw.sessions then h' == h
                else SentOnly(h.net, h'.net, k, [Direct(BuildFullSnapshot(h.gw.sessions[ctx.roomId.value], now))]))
  {
    hide MotionAgrees, AllInWorld, BuildFullSnapshot;
    var room := h.gw.contexts[k].roomId;
    if room.Some? && room.value in h.gw.sessions {
      assert Inv(h.gw.sessions[room.value]);
      ReplyIs(h, k, Direct(BuildFullSnapshot(h.gw.sessions[room.value], now)));
    }
  }

  /** A message over its rate limit is only answered; one too large or malformed does no more when it
      is let through. */
  lemma RefusedMessageIs(cfg: Config, w: World, k: Socket, msg: ClientMessage, allowed: bool, readAt: int, now: int)
    requires TasksReady(w) && Enabled(w, MessageResumes(k, msg, allowed, readAt, now))
    ensures var w' := Next(cfg, w, MessageResumes(k, msg, allowed, readAt, now));
            !allowed || msg.TooLarge? || msg.Malformed? ==>
              && w'.hub.gw == w.hub.gw && w'.hub.log == w.hub.log
              && w'.tasks == w.tasks - multiset{AwaitMessage(k, msg)}
              && SentOnly(w.hub.net, w'.hub.net, k,
                          [Error(if !allowed then RateLimit else if msg.TooLarge? then PayloadTooLarge
                                 else if msg.isJson then ValidationError else InvalidJson)])
  {
    hide Inv, SentOnly, Send;
    ReplyIs(w.hub, k, Error(if !allowed then RateLimit else if msg.TooLarge? then PayloadTooLarge
                            else if msg.Malformed? && msg.isJson then ValidationError else InvalidJson));
  }

  /** Once a new connection's presence call is back its close is watched, or the connection is ended. */
  lemma OnlineIs(cfg: Config, w: World, k: Socket, ok: bool)
    requires TasksReady(w) && Enabled(w, OnlineResumes(k, ok))
    ensures var w' := Next(cfg, w, OnlineResumes(k, ok));
            && w'.hub.gw == w.hub.gw && w'.hub.log == w.hub.log && w'.tasks == w.tasks - multiset{AwaitOnline(k)}
            && (if ok then
                  && w'.hub.net.watched == w.hub.net.watched + {k}
                  && w'.hub.net.open == w.hub.net.open && w'.hub.net.inboxes == w.hub.net.inboxes
                else
                  && w'.hub.net.watched == w.hub.net.watched && w'.hub.net.open == w.hub.net.open - {k}
                  && (forall j :: j != k ==> InboxOf(w'.hub.net, j) == InboxOf(w.hub.net, j))
                  && InboxOf(w'.hub.net, k) ==
                     InboxOf(w.hub.net, k) + if k in w.hub.net.open then [Error(Unauthorized)] else [])
  {
    hide Inv;
    assert InboxOf(w.hub.net, k) + [] == InboxOf(w.hub.net, k);
  }

  // ---------- who hears a tick ----------

  /** A tick's message goes, once, to every socket that is registered, open and in the room, and to no
      other; a tick that says nothing sends nothing. */
  lemma TickReaches(cfg: Config, h: Hub, room: RoomId, now: int, k: Socket)
    requires room in h.gw.sessions && Inv(h.gw.sessions[room]) && ListenersOf(h.gw, room) == 1
    ensures var said, h' := Messages(Step(cfg, h.gw.sessions[room], TickOp(now)).events), TickRoom(cfg, h, room, now);
            var there := k in h.gw.sockets && k in h.net.open && k in h.gw.contexts
                && h.gw.contexts[k].roomId == Some(room);
            && |said| <= 1
            && InboxOf(h'.net, k) ==
               InboxOf(h.net, k) + if there && |said| == 1 then [Broadcast(said[0])] else []
  {
    hide Step, TickRoom, InboxOf, MotionAgrees, AllInWorld, Messages;
    var said := Messages(Step(cfg, h.gw.sessions[room], TickOp(now)).events);
    TickSaysExactly(cfg, h.gw.sessions[room], now);
    TickRoomInbox(cfg, h, room, now, k);
    assert InboxOf(h.net, k) + [] == InboxOf(h.net, k);
    if |said| == 1 {
      assert said[..0] == [] && Wrapped([]) == [];
      assert Wrapped(said) == [Broadcast(said[0])];
    }
  }

  // ---------- who gets into a session ----------

  predicate InSession(gw: Gateway, room: RoomId, p: Id) {
    room in gw.sessions && p in gw.sessions[room].players.entries
  }

  ghost predicate SamePlayers(gw: Gateway, gw': Gateway) {
    forall room, p :: InSession(gw', room, p) <==> InSession(gw, room, p)
  }

  /** The event is a lookup that found `p`, for whose socket it was made, a member of this room, and the
      room not closed. */
  ghost predicate Admits(w: World, e: WireEvent, room: RoomId, p: Id) {
    && e.RoomResumes? && e.roomId == room && e.k in w.hub.gw.contexts && w.hub.gw.contexts[e.k].playerId == p
    && e.found.Some? && e.found.value.isMember && e.found.value.status != Closed
  }

  lemma OneSessionSamePlayers(gw: Gateway, gw': Gateway, room: RoomId, id: Id)
    requires room in gw.sessions && gw'.sessions.Keys == gw.sessions.Keys
    requires forall r :: r != room && r in gw.sessions ==> gw'.sessions[r] == gw.sessions[r]
    requires OnlyTouches(gw.sessions[room], gw'.sessions[room], id)
    requires id in gw'.sessions[room].players.entries <==> id in gw.sessions[room].players.entries
    ensures SamePlayers(gw, gw')
  {
  }

  lemma DispatchSamePlayers(w: World, k: Socket, msg: ClientMessage, readAt: int, now: int)
    requires k in w.hub.gw.contexts && forall room :: room in w.hub.gw.sessions ==> Inv(w.hub.gw.sessions[room])
    ensures SamePlayers(w.hub.gw, Dispatch(w, k, msg, readAt, now).hub.gw)
  {
    hide Inv, OnInput, OnPing, OnHeartbeat, OnRequestSnapshot, BeginJoin, SentOnly, SamePlayers, OnlyTouches;
    var h, ctx := w.hub, w.hub.gw.contexts[k];
    var h' := Dispatch(w, k, msg, readAt, now).hub;
    SameSessions(h.gw, h'.gw);
    match msg
    case JoinSession(room, token) => BeginJoinExactlyWhen(h, k, room, token, readAt, now);
    case InputMessage(input) =>
      OnInputIs(h, k, input);
      if h'.gw != h.gw {
        OneSessionSamePlayers(h.gw, h'.gw, ctx.roomId.value, ctx.playerId);
      }
    case Ping(clientTime) =>
      OnPingIs(h, k, clientTime, readAt, now);
      if h'.gw != h.gw {
        OneSessionSamePlayers(h.gw, h'.gw, ctx.roomId.value, ctx.playerId);
      }
    case HeartbeatMessage =>
      OnHeartbeatIs(h, k, now);
      if h'.gw != h.gw {
        OneSessionSamePlayers(h.gw, h'.gw, ctx.roomId.value, ctx.playerId);
      }
    case RequestSnapshot => OnRequestSnapshotIs(h, k, now);
    case _ =>
  }

  lemma SameSessions(gw: Gateway, gw': Gateway)
    ensures gw'.sessions == gw.sessions ==> SamePlayers(gw, gw')
  {
  }

  lemma CloseSamePlayers(w: World, k: Socket)
    requires TablesInverse(w.hub.gw)
    ensures SamePlayers(w.hub.gw, OnClose(w.hub, k).gw)
  {
    hide SamePlayers, OnlyTouches;
    var h := w.hub;
    SameSessions(h.gw, OnClose(h, k).gw);
    if k in h.gw.sockets {
      hide OnClose, Distinct;
      OnCloseIs(h, k);
      var ctx := h.gw.contexts[k];
      if ctx.roomId.Some? && ctx.roomId.value in h.gw.sessions {
        OneSessionSamePlayers(h.gw, OnClose(h, k).gw, ctx.roomId.value, ctx.playerId);
      }
    }
  }

  lemma TickSamePlayers(cfg: Config, h: Hub, room: RoomId, now: int)
    requires room in h.gw.sessions && Inv(h.gw.sessions[room])
    ensures SamePlayers(h.gw, TickRoom(cfg, h, room, now).gw)
  {
    hide Inv, TickRoom, Step;
    TickRoomOnlySession(cfg, h, room, now);
    TickKeepsPlayers(cfg, h.gw.sessions[room], now);
  }

  lemma TickKeepsPlayers(cfg: Config, s: Session, now: int)
    requires Inv(s)
    ensures Step(cfg, s, TickOp(now)).session.players.entries.Keys == s.players.entries.Keys
  {
    hide MotionAgrees, AllInWorld, Publish, Expired, LastAccepted, MidTick;
    AdvanceKeeps(cfg, s, now);
    PublishKeeps(Advance(cfg, s, now), now);
  }

  /** An admission puts the player into the session of the room, and any other lookup nobody anywhere. */
  lemma LookupEnters(cfg: Config, h: Hub, k: Socket, room: RoomId, found: Option<RoomInfo>, early: bool, token: Token,
      now: int, r: RoomId, p: Id)
    requires k in h.gw.contexts
    ensures var h' := RoomLookedUp(cfg, h, k, room, found, early, token, now).0;
            InSession(h'.gw, r, p) <==>
              || InSession(h.gw, r, p)
              || (&& r == room && p == h.gw.contexts[k].playerId
                  && found.Some? && found.value.isMember && found.value.status != Closed)
  {
    hide AddPlayer, SentOnly;
    var ctx := h.gw.contexts[k];
    JoinGoesOnExactlyWhen(cfg, h, k, room, found, early, token, now);
    AddPlayerIs(cfg, SessionOf(h.gw, room), ctx.playerId, ctx.username, now);
  }

  lemma ConnectSamePlayers(w: World, k: Socket, allowed: bool, auth: Option<Payload>)
    ensures SamePlayers(w.hub.gw, Connect(w, k, allowed, auth).hub.gw)
  {
    hide SamePlayers;
    SameSessions(w.hub.gw, Connect(w, k, allowed, auth).hub.gw);
  }

  /** After an event a player is in a session exactly when they were before, or the event admitted them:
      the only way in is a lookup that finds the player a member of a room that is not closed. */
  lemma EntersExactlyWhen(cfg: Config, w: World, e: WireEvent, room: RoomId, p: Id)
    requires WorldInv(w) && Enabled(w, e)
    ensures InSession(Next(cfg, w, e).hub.gw, room, p) <==> InSession(w.hub.gw, room, p) || Admits(w, e, room, p)
  {
    hide Inv, TokensCurrent, SpentSoundly, OneListenerEach, TablesInverse, Connect, Dispatch, OnClose, TickRoom,
         RoomLookedUp, FinishJoin, Abort, Arrive;
    match e
    case ConnectResumes(k, allowed, auth) =>
      ConnectSamePlayers(w.(tasks := w.tasks - multiset{AwaitConnect(k)}), k, allowed, auth);
    case MessageResumes(k, msg, allowed, readAt, now) =>
      if allowed {
        DispatchSamePlayers(w.(tasks := w.tasks - multiset{AwaitMessage(k, msg)}), k, msg, readAt, now);
      }
    case RoomResumes(k, r, found, early, token, now) =>
      LookupEnters(cfg, w.hub, k, r, found, early, token, now, room, p);
    case CloseFires(k) =>
      CloseKeepsPlayers(w, k);
    case Ticks(r, now) => TickSamePlayers(cfg, w.hub, r, now);
    case _ => QuietHub(cfg, w, e);
  }

  lemma CloseKeepsPlayers(w: World, k: Socket)
    requires TablesInverse(w.hub.gw)
    ensures SamePlayers(w.hub.gw, OnClose(w.hub.(net := Close(w.hub.net, k)), k).gw)
  {
    hide TablesInverse, SamePlayers, OnClose;
    CloseSamePlayers(w.(hub := w.hub.(net := Close(w.hub.net, k))), k);
  }

  /** Event `n` of the run could happen, and admitted the player. */
  ghost predicate AdmittedAt(cfg: Config, es: seq<WireEvent>, n: nat, room: RoomId, p: Id)
    requires n < |es| && WorldInv(NEW_WORLD)
  {
    var before := RunWorld(cfg, NEW_WORLD, es[..n]);
    Enabled(before, es[n]) && Admits(before, es[n], room, p)
  }

  /** Over every run the players of a room's session are exactly those that some event admitted to it. */
  lemma {:induction false} OnlyMembersAreIn(cfg: Config, es: seq<WireEvent>, room: RoomId, p: Id)
    ensures WorldInv(NEW_WORLD)
    ensures InSession(RunWorld(cfg, NEW_WORLD, es).hub.gw, room, p) <==>
            exists n :: 0 <= n < |es| && AdmittedAt(cfg, es, n, room, p)
  {
    hide Next, Enabled, WorldInv, Admits;
    NewWorldInv();
    if es != [] {
      var init, last := es[..|es| - 1], |es| - 1;
      OnlyMembersAreIn(cfg, init, room, p);
      if Enabled(RunWorld(cfg, NEW_WORLD, init), es[last]) {
        EntersExactlyWhen(cfg, RunWorld(cfg, NEW_WORLD, init), es[last], room, p);
      }
      assert forall n :: 0 <= n < |init| ==> init[..n] == es[..n] && init[n] == es[n];
      assert forall n :: 0 <= n < |init| ==> (AdmittedAt(cfg, init, n, room, p) <==> AdmittedAt(cfg, es, n, room, p));
      assert (exists n :: 0 <= n < |es| && AdmittedAt(cfg, es, n, room, p)) <==>
             (exists n :: 0 <= n < |init| && AdmittedAt(cfg, init, n, room, p)) || AdmittedAt(cfg, es, last, room, p);
    }
  }
}
