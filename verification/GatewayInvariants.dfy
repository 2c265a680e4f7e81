/** What the gateway keeps under every interleaving of its suspended stretches. */
module GatewayInvariants {
  import opened OrderedMaps
  import opened AntiCheat
  import opened Snapshots
  import opened Sessions
  import opened Gateways

  /** The two socket tables are inverse to one another, and a socket still waiting for its rate
      limit has not been given a context. */
  ghost predicate SocketsMatch(w: World) {
    && TablesInverse(w.hub.gw)
    && (forall k :: k in w.hub.gw.contexts ==> k in w.hub.net.known)
    && (forall k :: AwaitConnect(k) in w.tasks ==>
          k in w.hub.net.known && k !in w.hub.gw.contexts && w.tasks[AwaitConnect(k)] == 1)
  }

  ghost predicate TablesInverse(gw: Gateway) {
    && Distinct(gw.sockets)
    && (forall k :: k in gw.sockets ==>
          && k in gw.contexts
          && gw.contexts[k].playerId in gw.socketsByPlayer
          && gw.socketsByPlayer[gw.contexts[k].playerId] == k)
    && (forall p :: p in gw.socketsByPlayer ==>
          && gw.socketsByPlayer[p] in gw.sockets
          && gw.contexts[gw.socketsByPlayer[p]].playerId == p)
  }

  /** Every token in the table is the current one of the context it was issued to. */
  ghost predicate TokensCurrent(gw: Gateway, log: Log) {
    && (forall t :: t in log.issued ==>
          && log.issued[t].socket in gw.contexts
          && log.issued[t].entry.playerId == gw.contexts[log.issued[t].socket].playerId)
    && (forall t :: t in gw.reconnectTokens ==>
          && t in log.issued
          && gw.reconnectTokens[t] == log.issued[t].entry
          && gw.contexts[log.issued[t].socket].reconnectToken == Some(t))
    && (forall k :: k in gw.contexts && gw.contexts[k].reconnectToken.Some? ==>
          && gw.contexts[k].reconnectToken.value in log.issued
          && log.issued[gw.contexts[k].reconnectToken.value].socket == k)
  }

  /** Every token that was accepted was issued to that player for that room, was accepted before it
      expired, and has left the table for good. */
  ghost predicate SpentSoundly(gw: Gateway, log: Log) {
    && (forall i :: 0 <= i < |log.spent| ==>
          var s := log.spent[i];
          && s.token in log.issued
          && s.token !in gw.reconnectTokens
          && log.issued[s.token].entry.playerId == s.playerId
          && log.issued[s.token].entry.roomId == s.roomId
          && s.at < log.issued[s.token].entry.expiresAt)
    && (forall i, j :: 0 <= i < j < |log.spent| ==> log.spent[i].token != log.spent[j].token)
  }

  /** Exactly the rooms with a session have a listener, and they have one. */
  ghost predicate OneListenerEach(gw: Gateway) {
    forall room :: (room in gw.sessions <==> room in gw.subscribedRooms)
                   && ListenersOf(gw, room) == if room in gw.subscribedRooms then 1 else 0
  }

  ghost predicate WorldInv(w: World) {
    && TasksReady(w)
    && SocketsMatch(w)
    && TokensCurrent(w.hub.gw, w.hub.log)
    && SpentSoundly(w.hub.gw, w.hub.log)
    && OneListenerEach(w.hub.gw)
  }

  lemma NewWorldInv()
    ensures WorldInv(NEW_WORLD)
  {
  }

  // ---------- what a tick leaves alone ----------

  lemma {:induction false} BroadcastTimesOnlyInboxes(h: Hub, room: RoomId, m: Message, n: nat)
    ensures var r := BroadcastTimes(h, room, m, n);
            r.gw == h.gw && r.log == h.log && r.net == h.net.(inboxes := r.net.inboxes)
  {
    if n > 0 {
      BroadcastTimesOnlyInboxes(h, room, m, n - 1);
    }
  }

  lemma {:induction false} BroadcastOnlyInboxes(h: Hub, room: RoomId, messages: seq<Message>)
    ensures var r := BroadcastAll(h, room, messages);
            r.gw == h.gw && r.log == h.log && r.net == h.net.(inboxes := r.net.inboxes)
  {
    if messages != [] {
      var before := BroadcastAll(h, room, messages[..|messages| - 1]);
      BroadcastOnlyInboxes(h, room, messages[..|messages| - 1]);
      BroadcastTimesOnlyInboxes(before, room, messages[|messages| - 1], ListenersOf(h.gw, room));
    }
  }

  lemma TickRoomOnlySession(cfg: Config, h: Hub, room: RoomId, now: int)
    requires room in h.gw.sessions && Inv(h.gw.sessions[room])
    ensures var r := TickRoom(cfg, h, room, now);
            && r.gw == h.gw.(sessions := h.gw.sessions[room := Step(cfg, h.gw.sessions[room], TickOp(now)).session])
            && r.log == h.log.(said := r.log.said)
            && r.net == h.net.(inboxes := r.net.inboxes)
  {
    hide Step, MotionAgrees, AllInWorld, BroadcastAll;
    var o := Step(cfg, h.gw.sessions[room], TickOp(now));
    var messages := Replication.Messages(o.events);
    BroadcastOnlyInboxes(h.(gw := h.gw.(sessions := h.gw.sessions[room := o.session]),
                            log := h.log.(said := h.log.said[room := SaidIn(h.log, room) + messages])), room, messages);
  }

  // ---------- sessions and suspended stretches ----------

  /** The contexts, sessions and registrations of one hub are still good in another. */
  ghost predicate Extends(g: Gateway, g': Gateway) {
    && (forall k :: k in g.contexts ==> k in g'.contexts)
    && (forall room :: room in g.sessions ==> room in g'.sessions)
    && (forall k :: k in g'.sockets ==> k in g'.contexts)
    && (forall room :: room in g'.sessions ==> Inv(g'.sessions[room]))
  }

  lemma ReadyAfter(w: World, w': World)
    requires TasksReady(w) && Extends(w.hub.gw, w'.hub.gw)
    requires forall t :: t in w'.tasks ==>
                           || t in w.tasks
                           || (t.k in w'.hub.gw.contexts && !t.AwaitJoined?)
                           || t.AwaitConnect?
                           || (t.AwaitJoined? && t.k in w'.hub.gw.contexts && t.roomId in w'.hub.gw.sessions)
    ensures TasksReady(w')
  {
    hide Inv;
  }

  lemma SessionStep(cfg: Config, h: Hub, room: RoomId, op: Op, h': Hub)
    requires forall k :: k in h.gw.sockets ==> k in h.gw.contexts
    requires forall r :: r in h.gw.sessions ==> Inv(h.gw.sessions[r])
    requires room in h.gw.sessions && Inv(h.gw.sessions[room])
    requires h'.gw.sessions == h.gw.sessions[room := Step(cfg, h.gw.sessions[room], op).session]
    requires forall k :: k in h.gw.contexts ==> k in h'.gw.contexts
    requires forall k :: k in h'.gw.sockets ==> k in h'.gw.contexts
    ensures Extends(h.gw, h'.gw)
  {
    hide MotionAgrees, AllInWorld, Step;
    StepKeeps(cfg, h.gw.sessions[room], op);
  }

  /** A joined client's message that reached its session did one operation there. */
  ghost predicate OneSessionOp(cfg: Config, h: Hub, h': Hub) {
    || h'.gw == h.gw
    || (exists room, op :: room in h.gw.sessions && Inv(h.gw.sessions[room]) &&
          h'.gw == h.gw.(sessions := h.gw.sessions[room := Step(cfg, h.gw.sessions[room], op).session]))
  }

  lemma MadeSessionOp(cfg: Config, h: Hub, room: RoomId, op: Op, h': Hub)
    requires room in h.gw.sessions && Inv(h.gw.sessions[room])
    requires h'.gw == h.gw.(sessions := h.gw.sessions[room := Step(cfg, h.gw.sessions[room], op).session])
    ensures OneSessionOp(cfg, h, h')
  {
    hide Step, MotionAgrees, AllInWorld;
  }

  lemma SessionOpReady(cfg: Config, h: Hub, h': Hub)
    requires forall k :: k in h.gw.sockets ==> k in h.gw.contexts
    requires forall r :: r in h.gw.sessions ==> Inv(h.gw.sessions[r])
    requires OneSessionOp(cfg, h, h')
    ensures Extends(h.gw, h'.gw)
    ensures h'.gw == h.gw.(sessions := h'.gw.sessions) && h'.gw.sessions.Keys == h.gw.sessions.Keys
  {
    hide Step, MotionAgrees, AllInWorld;
    if h'.gw != h.gw {
      var room, op :| room in h.gw.sessions && Inv(h.gw.sessions[room]) &&
        h'.gw == h.gw.(sessions := h.gw.sessions[room := Step(cfg, h.gw.sessions[room], op).session]);
      SessionStep(cfg, h, room, op, h');
    }
  }

  lemma InputIsSessionOp(cfg: Config, h: Hub, k: Socket, input: Input)
    requires k in h.gw.contexts && forall r :: r in h.gw.sessions ==> Inv(h.gw.sessions[r])
    ensures OneSessionOp(cfg, h, OnInput(h, k, input))
    ensures OnInput(h, k, input).log == h.log && OnInput(h, k, input).net.known == h.net.known
  {
    hide OneSessionOp, MotionAgrees, AllInWorld, EnqueueInput;
    SameGatewayIsSessionOp(cfg, h, OnInput(h, k, input));
    var ctx := h.gw.contexts[k];
    if ctx.roomId.Some? && ctx.roomId.value in h.gw.sessions {
      assert Inv(h.gw.sessions[ctx.roomId.value]);
      MadeSessionOp(cfg, h, ctx.roomId.value, EnqueueInputOp(ctx.playerId, input), OnInput(h, k, input));
    }
  }

  lemma PingIsSessionOp(cfg: Config, h: Hub, k: Socket, clientTime: int, readAt: int, now: int)
    requires k in h.gw.contexts && forall r :: r in h.gw.sessions ==> Inv(h.gw.sessions[r])
    ensures var h' := OnPing(h, k, clientTime, readAt, now);
            OneSessionOp(cfg, h, h') && h'.log == h.log && h'.net.known == h.net.known
  {
    hide OneSessionOp, MotionAgrees, AllInWorld, UpdatePing;
    var h' := OnPing(h, k, clientTime, readAt, now);
    SameGatewayIsSessionOp(cfg, h, h');
    var room := InRoom(h.gw, k);
    if room.Some? {
      assert Inv(h.gw.sessions[room.value]);
      var rtt := if readAt < clientTime then 0 else readAt - clientTime;
      MadeSessionOp(cfg, h, room.value, UpdatePingOp(h.gw.contexts[k].playerId, rtt as real), h');
    }
  }

  lemma HeartbeatIsSessionOp(cfg: Config, h: Hub, k: Socket, now: int)
    requires k in h.gw.contexts && forall r :: r in h.gw.sessions ==> Inv(h.gw.sessions[r])
    ensures OneSessionOp(cfg, h, OnHeartbeat(h, k, now))
    ensures OnHeartbeat(h, k, now).log == h.log && OnHeartbeat(h, k, now).net.known == h.net.known
  {
    hide OneSessionOp, MotionAgrees, AllInWorld, Heartbeat;
    SameGatewayIsSessionOp(cfg, h, OnHeartbeat(h, k, now));
    var room := InRoom(h.gw, k);
    if room.Some? {
      assert Inv(h.gw.sessions[room.value]);
      MadeSessionOp(cfg, h, room.value, HeartbeatOp(h.gw.contexts[k].playerId, now), OnHeartbeat(h, k, now));
    }
  }

  lemma SameGatewayIsSessionOp(cfg: Config, h: Hub, h': Hub)
    ensures h'.gw == h.gw ==> OneSessionOp(cfg, h, h')
  {
    hide Step, Inv;
  }

  lemma RequestOnlyNet(h: Hub, k: Socket, now: int)
    requires k in h.gw.contexts && forall r :: r in h.gw.sessions ==> Inv(h.gw.sessions[r])
    ensures OnRequestSnapshot(h, k, now) == h.(net := OnRequestSnapshot(h, k, now).net)
    ensures OnRequestSnapshot(h, k, now).net.known == h.net.known
  {
    hide Inv, BuildFullSnapshot;
  }

  /** What one client message does: a join goes to the room lookup, any other does at most one
      operation in one session. */
  lemma DispatchIs(cfg: Config, w: World, k: Socket, msg: ClientMessage, readAt: int, now: int)
    requires TasksReady(w) && k in w.hub.gw.contexts
    ensures var w' := Dispatch(w, k, msg, readAt, now);
            && (w'.tasks == w.tasks || (!msg.JoinSession? && w'.tasks == w.tasks + multiset{AwaitHeartbeat(k)})
                || (msg.JoinSession? && w'.tasks == w.tasks + multiset{AwaitRoom(k, msg.roomId)}))
            && (if msg.JoinSession? then w'.hub == BeginJoin(w.hub, k, msg.roomId, msg.reconnectToken, readAt, now).0
                else OneSessionOp(cfg, w.hub, w'.hub) && w'.hub.log == w.hub.log && w'.hub.net.known == w.hub.net.known)
  {
    hide Inv, BeginJoin, OnInput, OnPing, OnHeartbeat, OnRequestSnapshot, OneSessionOp;
    SameGatewayIsSessionOp(cfg, w.hub, Dispatch(w, k, msg, readAt, now).hub);
    match msg
    case InputMessage(input) => InputIsSessionOp(cfg, w.hub, k, input);
    case Ping(clientTime) => PingIsSessionOp(cfg, w.hub, k, clientTime, readAt, now);
    case HeartbeatMessage => HeartbeatIsSessionOp(cfg, w.hub, k, now);
    case RequestSnapshot => RequestOnlyNet(w.hub, k, now);
    case _ =>
  }

  lemma AttachReady(cfg: Config, h: Hub, k: Socket, room: RoomId, token: Token, now: int)
    requires k in h.gw.contexts
    requires forall j :: j in h.gw.sockets ==> j in h.gw.contexts
    requires forall r :: r in h.gw.sessions ==> Inv(h.gw.sessions[r])
    ensures Extends(h.gw, AttachJoin(cfg, h, k, room, token, now).gw)
    ensures room in AttachJoin(cfg, h, k, room, token, now).gw.sessions
  {
    hide Inv, AddPlayer;
    var ctx := h.gw.contexts[k];
    assert Inv(SessionOf(h.gw, room)) by {
      if room !in h.gw.sessions {
        NewSessionInv();
      }
    }
    AddPlayerKeeps(cfg, SessionOf(h.gw, room), ctx.playerId, ctx.username, now);
  }

  lemma RegisterReady(h: Hub, k: Socket, p: Payload)
    requires forall j :: j in h.gw.sockets ==> j in h.gw.contexts
    requires forall r :: r in h.gw.sessions ==> Inv(h.gw.sessions[r])
    ensures Extends(h.gw, Register(h, k, p).gw) && k in Register(h, k, p).gw.contexts
  {
    hide Inv;
    if p.playerId in h.gw.socketsByPlayer {
      WithoutMembers(h.gw.sockets, h.gw.socketsByPlayer[p.playerId]);
    }
  }

  lemma CloseReady(cfg: Config, h: Hub, k: Socket)
    requires forall j :: j in h.gw.sockets ==> j in h.gw.contexts
    requires forall r :: r in h.gw.sessions ==> Inv(h.gw.sessions[r])
    ensures Extends(h.gw, OnClose(h, k).gw)
  {
    hide Inv, MarkDisconnected;
    WithoutMembers(h.gw.sockets, k);
    if k in h.gw.sockets && h.gw.contexts[k].roomId.Some? && h.gw.contexts[k].roomId.value in h.gw.sessions {
      var ctx := h.gw.contexts[k];
      SessionStep(cfg, h, ctx.roomId.value, MarkDisconnectedOp(ctx.playerId), OnClose(h, k));
    }
  }

  // ---------- events that change neither the tables nor the log ----------

  ghost predicate Quiet(e: WireEvent) {
    e.Connected? || e.OnlineResumes? || e.Arrives? || e.JoinedResumes? || e.HeartbeatResumes? || e.Lost?
    || e.MessageFails? || e.HeartbeatFails?
  }

  lemma AbortOnlyNet(h: Hub, k: Socket, early: bool)
    ensures Abort(h, k, early) == h.(net := Abort(h, k, early).net)
    ensures Abort(h, k, early).net.known == h.net.known
  {
  }

  lemma FinishOnlyNet(h: Hub, k: Socket, room: RoomId, token: Token, now: int)
    requires k in h.gw.contexts && room in h.gw.sessions && Inv(h.gw.sessions[room])
    ensures FinishJoin(h, k, room, token, now) == h.(net := FinishJoin(h, k, room, token, now).net)
    ensures FinishJoin(h, k, room, token, now).net.known == h.net.known
  {
    hide BuildFullSnapshot;
  }

  lemma QuietHub(cfg: Config, w: World, e: WireEvent)
    requires TasksReady(w) && Enabled(w, e) && Quiet(e)
    ensures var h := Next(cfg, w, e).hub;
            h == w.hub.(net := h.net) && w.hub.net.known <= h.net.known && (e.Connected? ==> e.k in h.net.known)
  {
    hide Inv, Abort, FinishJoin, Dispatch, Connect, RoomLookedUp, OnClose, TickRoom;
    if e.OnlineResumes? {
      AbortOnlyNet(w.hub, e.k, true);
    } else if e.MessageFails? || e.HeartbeatFails? {
      AbortOnlyNet(w.hub, e.k, e.early);
    } else if e.JoinedResumes? {
      AbortOnlyNet(w.hub, e.k, e.early);
      FinishOnlyNet(w.hub, e.k, e.roomId, e.token, e.now);
    }
  }

  lemma QuietTasks(cfg: Config, w: World, e: WireEvent)
    requires TasksReady(w) && Enabled(w, e) && Quiet(e)
    ensures var tasks := Next(cfg, w, e).tasks;
            if e.Connected? then tasks == w.tasks + multiset{AwaitConnect(e.k)}
            else
              || tasks <= w.tasks
              || (e.Arrives? && e.k in w.hub.gw.contexts && tasks == w.tasks + multiset{AwaitMessage(e.k, e.msg)})
  {
    hide Inv, Abort, FinishJoin, Dispatch, Connect, RoomLookedUp, OnClose, TickRoom, Send, Close, Reply, RoomLookedUp;
  }

  lemma QuietKeeps(cfg: Config, w: World, e: WireEvent)
    requires WorldInv(w) && Enabled(w, e) && Quiet(e)
    ensures WorldInv(Next(cfg, w, e))
  {
    hide Inv, Next, TokensCurrent, SpentSoundly, OneListenerEach;
    QuietHub(cfg, w, e);
    QuietTasks(cfg, w, e);
  }

  // ---------- registering a socket ----------

  lemma WithoutOne(keys: seq<Socket>, k: Socket)
    requires Distinct(keys)
    ensures Distinct(Without(keys, k))
    ensures forall x :: x in Without(keys, k) <==> x in keys && x != k
  {
    WithoutMembers(keys, k);
  }

  lemma RegisterTables(h: Hub, k: Socket, p: Payload)
    requires TablesInverse(h.gw) && k !in h.gw.contexts
    ensures TablesInverse(Register(h, k, p).gw)
  {
    if p.playerId in h.gw.socketsByPlayer {
      WithoutOne(h.gw.sockets, h.gw.socketsByPlayer[p.playerId]);
    }
  }

  lemma RegisterSockets(w: World, k: Socket, p: Payload, tasks: multiset<Task>)
    requires SocketsMatch(w) && AwaitConnect(k) in w.tasks
    requires tasks == w.tasks - multiset{AwaitConnect(k)} + multiset{AwaitOnline(k)}
    ensures SocketsMatch(World(Register(w.hub, k, p), tasks))
  {
    hide TablesInverse;
    RegisterTables(w.hub, k, p);
    assert AwaitConnect(k) !in tasks;
    assert forall j :: AwaitConnect(j) in tasks ==>
        AwaitConnect(j) in w.tasks && tasks[AwaitConnect(j)] == w.tasks[AwaitConnect(j)];
  }

  lemma RegisterTokens(h: Hub, k: Socket, p: Payload)
    requires TokensCurrent(h.gw, h.log) && k !in h.gw.contexts
    ensures TokensCurrent(Register(h, k, p).gw, h.log)
  {
  }

  lemma FewerTasksMatch(w: World, fewer: multiset<Task>)
    requires SocketsMatch(w) && fewer <= w.tasks
    ensures SocketsMatch(w.(tasks := fewer))
  {
    assert forall k :: AwaitConnect(k) in fewer ==>
        AwaitConnect(k) in w.tasks && fewer[AwaitConnect(k)] <= w.tasks[AwaitConnect(k)];
  }

  lemma RegisterKeeps(w: World, k: Socket, p: Payload)
    requires WorldInv(w) && AwaitConnect(k) in w.tasks
    ensures WorldInv(World(Register(w.hub, k, p), w.tasks - multiset{AwaitConnect(k)} + multiset{AwaitOnline(k)}))
  {
    hide Inv, Register, SpentSoundly, OneListenerEach, TokensCurrent, SocketsMatch;
    assert k !in w.hub.gw.contexts by { SocketWaits(w, k); }
    var tasks := w.tasks - multiset{AwaitConnect(k)} + multiset{AwaitOnline(k)};
    RegisterSockets(w, k, p, tasks);
    RegisterTokens(w.hub, k, p);
    RegisterKeepsRest(w.hub, k, p);
    RegisterReady(w.hub, k, p);
    ReadyAfter(w, World(Register(w.hub, k, p), tasks));
  }

  lemma ConnectKeeps(cfg: Config, w: World, k: Socket, allowed: bool, auth: Option<Payload>)
    requires WorldInv(w) && Enabled(w, ConnectResumes(k, allowed, auth))
    ensures WorldInv(Next(cfg, w, ConnectResumes(k, allowed, auth)))
  {
    hide Inv, Register, SpentSoundly, OneListenerEach, TokensCurrent, SocketsMatch, Extends;
    var fewer := w.(tasks := w.tasks - multiset{AwaitConnect(k)});
    if allowed && auth.Some? {
      RegisterKeeps(w, k, auth.value);
    } else {
      FewerTasksKeep(w, fewer.tasks);
      NetOnlyKeeps(fewer, Next(cfg, w, ConnectResumes(k, allowed, auth)));
    }
  }

  lemma SocketWaits(w: World, k: Socket)
    requires SocketsMatch(w) && AwaitConnect(k) in w.tasks
    ensures k !in w.hub.gw.contexts
  {
  }

  /** Only open sockets and inboxes differ. */
  lemma SocketsOnly(w: World, w': World)
    requires SocketsMatch(w) && w'.hub.gw == w.hub.gw && w'.hub.net.known == w.hub.net.known && w'.tasks == w.tasks
    ensures SocketsMatch(w')
  {
  }

  lemma RegisterKeepsRest(h: Hub, k: Socket, p: Payload)
    ensures Register(h, k, p).log == h.log
    ensures SpentSoundly(h.gw, h.log) ==> SpentSoundly(Register(h, k, p).gw, h.log)
    ensures OneListenerEach(h.gw) ==> OneListenerEach(Register(h, k, p).gw)
  {
  }

  // ---------- a message resumes ----------

  /** Only tokens were removed from the table; contexts, sockets and listeners are as before. */
  ghost predicate OnlyTokensRemoved(g: Gateway, g': Gateway) {
    && g'.contexts == g.contexts && g'.sockets == g.sockets && g'.socketsByPlayer == g.socketsByPlayer
    && g'.subscribedRooms == g.subscribedRooms && g'.listeners == g.listeners
    && g'.sessions.Keys == g.sessions.Keys
    && (forall t :: t in g'.reconnectTokens ==> t in g.reconnectTokens && g'.reconnectTokens[t] == g.reconnectTokens[t])
  }

  lemma OnlyTokensRemovedKeeps(g: Gateway, g': Gateway, log: Log)
    requires OnlyTokensRemoved(g, g')
    requires TokensCurrent(g, log) && SpentSoundly(g, log) && OneListenerEach(g)
    ensures TokensCurrent(g', log) && SpentSoundly(g', log) && OneListenerEach(g')
  {
  }

  /** What the first stretch of a join changes, and what it spends. */
  lemma BeginJoinIs(h: Hub, k: Socket, room: RoomId, token: Option<Token>, readAt: int, now: int)
    requires k in h.gw.contexts
    ensures var h' := BeginJoin(h, k, room, token, readAt, now).0;
            && OnlyTokensRemoved(h.gw, h'.gw)
            && h'.gw.sessions == h.gw.sessions
            && h'.net.known == h.net.known && h'.net.open == h.net.open && h'.net.watched == h.net.watched
            && (h'.log == h.log
                || (token.Some? && GoodToken(h.gw.reconnectTokens, token.value, h.gw.contexts[k], room, now)
                    && token.value !in h'.gw.reconnectTokens
                    && h'.log ==
                         h.log.(spent := h.log.spent + [Spend(token.value, h.gw.contexts[k].playerId, room, now)])))
  {
  }

  lemma BeginJoinKeeps(h: Hub, k: Socket, room: RoomId, token: Option<Token>, readAt: int, now: int)
    requires k in h.gw.contexts
    requires TokensCurrent(h.gw, h.log) && SpentSoundly(h.gw, h.log) && OneListenerEach(h.gw)
    ensures var h' := BeginJoin(h, k, room, token, readAt, now).0;
            && OnlyTokensRemoved(h.gw, h'.gw)
            && h'.gw.sessions == h.gw.sessions
            && h'.net.known == h.net.known && h'.net.open == h.net.open && h'.net.watched == h.net.watched
            && TokensCurrent(h'.gw, h'.log) && SpentSoundly(h'.gw, h'.log) && OneListenerEach(h'.gw)
  {
    hide TokensCurrent, OneListenerEach, BeginJoin, SpentSoundly, OnlyTokensRemoved;
    var h' := BeginJoin(h, k, room, token, readAt, now).0;
    BeginJoinIs(h, k, room, token, readAt, now);
    OnlyTokensRemovedKeeps(h.gw, h'.gw, h.log);
    if h'.log != h.log {
      SpendIsSound(h, token.value, h.gw.contexts[k].playerId, room, now, h'.gw);
      OnlyLogSpent(h'.gw, h.log, h'.log);
    }
  }

  lemma SpendIsSound(h: Hub, t: Token, playerId: Id, room: RoomId, now: int, g': Gateway)
    requires TokensCurrent(h.gw, h.log) && SpentSoundly(h.gw, h.log) && SpentSoundly(g', h.log)
    requires t in h.gw.reconnectTokens && t !in g'.reconnectTokens
    requires h.gw.reconnectTokens[t].expiresAt > now
    requires h.gw.reconnectTokens[t].playerId == playerId && h.gw.reconnectTokens[t].roomId == room
    ensures SpentSoundly(g', h.log.(spent := h.log.spent + [Spend(t, playerId, room, now)]))
  {
  }

  lemma OnlyLogSpent(g: Gateway, log: Log, log': Log)
    requires TokensCurrent(g, log) && log'.issued == log.issued
    ensures TokensCurrent(g, log')
  {
  }

  lemma SessionUpdateKeeps(g: Gateway, g': Gateway, log: Log)
    requires g' == g.(sessions := g'.sessions) && g'.sessions.Keys == g.sessions.Keys
    requires TokensCurrent(g, log) && SpentSoundly(g, log) && OneListenerEach(g)
    ensures TokensCurrent(g', log) && SpentSoundly(g', log) && OneListenerEach(g')
  {
    OnlyTokensRemovedKeeps(g, g', log);
  }

  lemma JoinKeeps(w: World, k: Socket, room: RoomId, token: Option<Token>, readAt: int, now: int, more: multiset<Task>)
    requires WorldInv(w) && k in w.hub.gw.contexts && more <= multiset{AwaitRoom(k, room)}
    ensures WorldInv(World(BeginJoin(w.hub, k, room, token, readAt, now).0, w.tasks + more))
  {
    hide Inv, TokensCurrent, SpentSoundly, OneListenerEach, BeginJoin;
    BeginJoinKeeps(w.hub, k, room, token, readAt, now);
    ReadyAfter(w, World(BeginJoin(w.hub, k, room, token, readAt, now).0, w.tasks + more));
  }

  lemma SessionOpKeeps(cfg: Config, w: World, h': Hub)
    requires WorldInv(w) && OneSessionOp(cfg, w.hub, h') && h'.log == w.hub.log && h'.net.known == w.hub.net.known
    ensures WorldInv(w.(hub := h'))
  {
    hide Inv, TokensCurrent, SpentSoundly, OneListenerEach, OneSessionOp;
    SessionOpReady(cfg, w.hub, h');
    SessionUpdateKeeps(w.hub.gw, h'.gw, w.hub.log);
    ReadyAfter(w, w.(hub := h'));
  }

  lemma HeartbeatTaskKeeps(w: World, k: Socket)
    requires WorldInv(w) && k in w.hub.gw.contexts
    ensures WorldInv(w.(tasks := w.tasks + multiset{AwaitHeartbeat(k)}))
  {
    hide Inv, TokensCurrent, SpentSoundly, OneListenerEach;
  }

  lemma DispatchKeeps(cfg: Config, w: World, k: Socket, msg: ClientMessage, readAt: int, now: int)
    requires WorldInv(w) && k in w.hub.gw.contexts
    ensures WorldInv(Dispatch(w, k, msg, readAt, now))
  {
    var w' := Dispatch(w, k, msg, readAt, now);
    DispatchIs(cfg, w, k, msg, readAt, now);
    hide Inv, TasksReady, SocketsMatch, TokensCurrent, SpentSoundly, OneListenerEach, BeginJoin, Dispatch, OneSessionOp;
    if msg.JoinSession? {
      JoinKeeps(w, k, msg.roomId, msg.reconnectToken, readAt, now, multiset{});
      JoinKeeps(w, k, msg.roomId, msg.reconnectToken, readAt, now, multiset{AwaitRoom(k, msg.roomId)});
      assert w.tasks + multiset{} == w.tasks;
    } else {
      SessionOpKeeps(cfg, w, w'.hub);
      SessionOpKeepsContext(cfg, w, w'.hub, k);
      HeartbeatTaskKeeps(w.(hub := w'.hub), k);
    }
  }

  lemma SessionOpKeepsContext(cfg: Config, w: World, h': Hub, k: Socket)
    requires TasksReady(w) && OneSessionOp(cfg, w.hub, h') && k in w.hub.gw.contexts
    ensures k in h'.gw.contexts
  {
    hide Inv, OneSessionOp;
    SessionOpReady(cfg, w.hub, h');
  }

  lemma FewerTasksKeep(w: World, fewer: multiset<Task>)
    requires WorldInv(w) && fewer <= w.tasks
    ensures WorldInv(w.(tasks := fewer))
  {
    hide Inv, SocketsMatch, TokensCurrent, SpentSoundly, OneListenerEach;
    FewerTasksMatch(w, fewer);
    ReadyAfter(w, w.(tasks := fewer));
  }

  lemma NetOnlyKeeps(w: World, w': World)
    requires WorldInv(w) && w' == w.(hub := w.hub.(net := w'.hub.net)) && w'.hub.net.known == w.hub.net.known
    ensures WorldInv(w')
  {
    hide Inv, SocketsMatch, TokensCurrent, SpentSoundly, OneListenerEach;
    SocketsOnly(w, w');
  }

  lemma MessageKeeps(cfg: Config, w: World, k: Socket, msg: ClientMessage, allowed: bool, readAt: int, now: int)
    requires WorldInv(w) && Enabled(w, MessageResumes(k, msg, allowed, readAt, now))
    ensures WorldInv(Next(cfg, w, MessageResumes(k, msg, allowed, readAt, now)))
  {
    hide Inv, SocketsMatch, TokensCurrent, SpentSoundly, OneListenerEach, Dispatch;
    var resumed := w.(tasks := w.tasks - multiset{AwaitMessage(k, msg)});
    FewerTasksKeep(w, resumed.tasks);
    if allowed {
      DispatchKeeps(cfg, resumed, k, msg, readAt, now);
    } else {
      NetOnlyKeeps(resumed, Next(cfg, w, MessageResumes(k, msg, allowed, readAt, now)));
    }
  }

  // ---------- a room lookup resumes ----------

  lemma AttachTokens(cfg: Config, h: Hub, k: Socket, room: RoomId, token: Token, now: int)
    requires k in h.gw.contexts && token !in h.log.issued && TokensCurrent(h.gw, h.log)
    ensures TokensCurrent(AttachJoin(cfg, h, k, room, token, now).gw, AttachJoin(cfg, h, k, room, token, now).log)
  {
    hide AddPlayer;
  }

  lemma AttachSpent(cfg: Config, h: Hub, k: Socket, room: RoomId, token: Token, now: int)
    requires k in h.gw.contexts && token !in h.log.issued && SpentSoundly(h.gw, h.log)
    ensures SpentSoundly(AttachJoin(cfg, h, k, room, token, now).gw, AttachJoin(cfg, h, k, room, token, now).log)
  {
    hide AddPlayer;
  }

  lemma AttachListeners(cfg: Config, h: Hub, k: Socket, room: RoomId, token: Token, now: int)
    requires k in h.gw.contexts && OneListenerEach(h.gw)
    ensures OneListenerEach(AttachJoin(cfg, h, k, room, token, now).gw)
  {
    hide AddPlayer;
  }

  lemma AttachSockets(cfg: Config, w: World, k: Socket, room: RoomId, token: Token, now: int)
    requires k in w.hub.gw.contexts && SocketsMatch(w)
    ensures SocketsMatch(w.(hub := AttachJoin(cfg, w.hub, k, room, token, now)))
  {
    hide AddPlayer;
    var g, g' := w.hub.gw, AttachJoin(cfg, w.hub, k, room, token, now).gw;
    assert forall j :: j in g'.contexts <==> j in g.contexts;
    assert forall j :: j in g.contexts ==> g'.contexts[j].playerId == g.contexts[j].playerId;
  }

  lemma OtherTasksMatch(w: World, tasks: multiset<Task>)
    requires SocketsMatch(w)
    requires forall k :: tasks[AwaitConnect(k)] == w.tasks[AwaitConnect(k)]
    ensures SocketsMatch(w.(tasks := tasks))
  {
    assert forall k :: AwaitConnect(k) in tasks ==> AwaitConnect(k) in w.tasks;
  }

  lemma RoomLookedUpIs(cfg: Config, h: Hub, k: Socket, room: RoomId, found: Option<RoomInfo>, early: bool, token: Token,
      now: int)
    requires k in h.gw.contexts
    ensures var (h', goesOn) := RoomLookedUp(cfg, h, k, room, found, early, token, now);
            if goesOn then h' == AttachJoin(cfg, h, k, room, token, now)
            else h' == h.(net := h'.net) && h'.net.known == h.net.known
  {
    hide AttachJoin;
  }

  lemma RoomKeeps(cfg: Config, w: World, k: Socket, room: RoomId, found: Option<RoomInfo>, early: bool, token: Token,
      now: int)
    requires WorldInv(w) && Enabled(w, RoomResumes(k, room, found, early, token, now))
    ensures WorldInv(Next(cfg, w, RoomResumes(k, room, found, early, token, now)))
  {
    hide Inv, AttachJoin, RoomLookedUp, SocketsMatch, TokensCurrent, SpentSoundly, OneListenerEach, Extends;
    var w' := Next(cfg, w, RoomResumes(k, room, found, early, token, now));
    RoomLookedUpIs(cfg, w.hub, k, room, found, early, token, now);
    if RoomLookedUp(cfg, w.hub, k, room, found, early, token, now).1 {
      AttachKeeps(cfg, w, k, room, token, now);
      OtherTasksKeep(w.(hub := w'.hub), w'.tasks);
    } else {
      NetOnlyKeeps(w, w.(hub := w'.hub));
      FewerTasksKeep(w.(hub := w'.hub), w'.tasks);
    }
  }

  lemma AttachKeeps(cfg: Config, w: World, k: Socket, room: RoomId, token: Token, now: int)
    requires WorldInv(w) && k in w.hub.gw.contexts && token !in w.hub.log.issued
    ensures WorldInv(w.(hub := AttachJoin(cfg, w.hub, k, room, token, now)))
    ensures var g := AttachJoin(cfg, w.hub, k, room, token, now).gw;
            k in g.contexts && room in g.sessions
  {
    hide Inv, AttachJoin, SocketsMatch, TokensCurrent, SpentSoundly, OneListenerEach;
    AttachReady(cfg, w.hub, k, room, token, now);
    ReadyAfter(w, w.(hub := AttachJoin(cfg, w.hub, k, room, token, now)));
    AttachTokens(cfg, w.hub, k, room, token, now);
    AttachSpent(cfg, w.hub, k, room, token, now);
    AttachListeners(cfg, w.hub, k, room, token, now);
    AttachSockets(cfg, w, k, room, token, now);
  }

  lemma OtherTasksKeep(w: World, tasks: multiset<Task>)
    requires WorldInv(w)
    requires forall j :: tasks[AwaitConnect(j)] == w.tasks[AwaitConnect(j)]
    requires forall t :: t in tasks && t !in w.tasks ==>
               t.AwaitJoined? && t.k in w.hub.gw.contexts && t.roomId in w.hub.gw.sessions
    ensures WorldInv(w.(tasks := tasks))
  {
    hide Inv, SocketsMatch, TokensCurrent, SpentSoundly, OneListenerEach;
    OtherTasksMatch(w, tasks);
  }

  // ---------- a close event, and a tick ----------

  /** What a close does to the gateway's own tables. */
  lemma CloseTables(h: Hub, k: Socket)
    ensures var g, g' := h.gw, OnClose(h, k).gw;
            && g' == g.(sockets := g'.sockets, socketsByPlayer := g'.socketsByPlayer, sessions := g'.sessions)
            && g'.sessions.Keys == g.sessions.Keys
            && OnClose(h, k).net == h.net && OnClose(h, k).log == h.log.(disconnects := OnClose(h, k).log.disconnects)
  {
    hide MarkDisconnected, Without;
  }

  lemma CloseKeepsTables(h: Hub, k: Socket)
    requires TablesInverse(h.gw)
    ensures TablesInverse(OnClose(h, k).gw)
  {
    hide MarkDisconnected;
    WithoutOne(h.gw.sockets, k);
  }

  lemma CloseSockets(w: World, k: Socket)
    requires SocketsMatch(w)
    ensures SocketsMatch(w.(hub := OnClose(w.hub, k)))
  {
    hide OnClose, TablesInverse;
    CloseTables(w.hub, k);
    CloseKeepsTables(w.hub, k);
  }

  lemma CloseRest(h: Hub, k: Socket)
    requires TokensCurrent(h.gw, h.log) && SpentSoundly(h.gw, h.log) && OneListenerEach(h.gw)
    ensures var h' := OnClose(h, k);
            TokensCurrent(h'.gw, h'.log) && SpentSoundly(h'.gw, h'.log) && OneListenerEach(h'.gw)
  {
    hide OnClose;
    CloseTables(h, k);
    var h' := OnClose(h, k);
    SameTables(h.gw, h'.gw, h.log, h'.log);
  }

  /** Contexts, tokens and listeners are as before. */
  lemma SameTables(g: Gateway, g': Gateway, log: Log, log': Log)
    requires g'.contexts == g.contexts && g'.reconnectTokens == g.reconnectTokens && log'.issued == log.issued
             && log'.spent == log.spent
    requires g'.subscribedRooms == g.subscribedRooms && g'.listeners == g.listeners
             && g'.sessions.Keys == g.sessions.Keys
    ensures TokensCurrent(g, log) ==> TokensCurrent(g', log')
    ensures SpentSoundly(g, log) ==> SpentSoundly(g', log')
    ensures OneListenerEach(g) ==> OneListenerEach(g')
  {
  }

  lemma CloseKeeps(cfg: Config, w: World, k: Socket)
    requires WorldInv(w)
    ensures WorldInv(Next(cfg, w, CloseFires(k)))
  {
    hide Inv, OnClose, SocketsMatch, TokensCurrent, SpentSoundly, OneListenerEach;
    var closed := w.hub.(net := Close(w.hub.net, k));
    NetOnlyKeeps(w, w.(hub := closed));
    CloseReady(cfg, closed, k);
    CloseSockets(w.(hub := closed), k);
    CloseRest(closed, k);
    if k in w.hub.net.watched {
      ReadyAfter(w, Next(cfg, w, CloseFires(k)));
    }
  }

  lemma TickKeepsWorld(cfg: Config, w: World, room: RoomId, now: int)
    requires WorldInv(w) && room in w.hub.gw.sessions
    ensures WorldInv(Next(cfg, w, Ticks(room, now)))
  {
    hide MotionAgrees, AllInWorld, TickRoom, Step, SocketsMatch, TokensCurrent, SpentSoundly, OneListenerEach;
    var w' := Next(cfg, w, Ticks(room, now));
    TickRoomOnlySession(cfg, w.hub, room, now);
    SessionStep(cfg, w.hub, room, TickOp(now), w'.hub);
    ReadyAfter(w, w');
    SessionUpdateKeeps(w.hub.gw, w'.hub.gw, w.hub.log);
    OnlySaid(w'.hub.gw, w.hub.log, w'.hub.log);
    TickSockets(w, w');
  }

  lemma OnlySaid(g: Gateway, log: Log, log': Log)
    requires log' == log.(said := log'.said)
    ensures TokensCurrent(g, log) ==> TokensCurrent(g, log')
    ensures SpentSoundly(g, log) ==> SpentSoundly(g, log')
  {
  }

  lemma TickSockets(w: World, w': World)
    requires SocketsMatch(w) && w'.tasks == w.tasks && w'.hub.net.known == w.hub.net.known
    requires w'.hub.gw == w.hub.gw.(sessions := w'.hub.gw.sessions)
    ensures SocketsMatch(w')
  {
  }

  // ---------- every run ----------

  /** Every event keeps the invariant, whichever suspended stretch it resumes. */
  lemma NextKeeps(cfg: Config, w: World, e: WireEvent)
    requires WorldInv(w) && Enabled(w, e)
    ensures WorldInv(Next(cfg, w, e))
  {
    hide Next, Inv, SocketsMatch, TokensCurrent, SpentSoundly, OneListenerEach, TasksReady;
    match e
    case ConnectResumes(k, allowed, auth) => ConnectKeeps(cfg, w, k, allowed, auth);
    case MessageResumes(k, msg, allowed, readAt, now) => MessageKeeps(cfg, w, k, msg, allowed, readAt, now);
    case RoomResumes(k, room, found, early, token, now) => RoomKeeps(cfg, w, k, room, found, early, token, now);
    case CloseFires(k) => CloseKeeps(cfg, w, k);
    case Ticks(room, now) => TickKeepsWorld(cfg, w, room, now);
    case _ => QuietKeeps(cfg, w, e);
  }

  /** Any sequence of events; one that cannot happen is passed over. */
  ghost function RunWorld(cfg: Config, w: World, es: seq<WireEvent>): World
    requires WorldInv(w)
    ensures WorldInv(RunWorld(cfg, w, es))
  {
    if es == [] then w
    else
      var before := RunWorld(cfg, w, es[..|es| - 1]);
      if Enabled(before, es[|es| - 1]) then
        NextKeeps(cfg, before, es[|es| - 1]);
        Next(cfg, before, es[|es| - 1])
      else before
  }
}
