/** The WebSocket gateway as a value. Every function below is one stretch of the program between
    two awaits; a world is the gateway together with the stretches still waiting to be resumed, and
    its events may resume any of them, in any order. */
module Gateways {
  import opened OrderedMaps
  import opened AntiCheat
  import opened Snapshots
  import opened Sessions
  import Replication

  type Socket = nat
  type Token = nat
  type RoomId = string

  const RECONNECT_TTL_MS := 5 * 60_000

  datatype Context = Context(
    userId: string, playerId: Id, username: string, roomId: Option<RoomId>, reconnectToken: Option<Token>)

  datatype ReconnectEntry = ReconnectEntry(playerId: Id, roomId: RoomId, expiresAt: int)

  /** The fields of the gateway, the sessions of its manager, and how many listeners each room's
      session has. `contexts` holds every context ever made: a suspended join keeps using its own
      even after its socket has left `sockets`. */
  datatype Gateway = Gateway(
    contexts: map<Socket, Context>,
    sockets: seq<Socket>,
    socketsByPlayer: map<Id, Socket>,
    reconnectTokens: map<Token, ReconnectEntry>,
    subscribedRooms: set<RoomId>,
    listeners: map<RoomId, nat>,
    sessions: map<RoomId, Session>)

  datatype Code =
    | Unauthorized | PayloadTooLarge | RateLimit | InvalidJson | ValidationError | NotInSession
    | InvalidReconnect | Forbidden | RoomClosed

  /** What is sent on a socket; a broadcast and a snapshot sent to one socket look alike on the wire. */
  datatype ServerMessage =
    | Broadcast(message: Message)
    | Direct(message: Message)
    | Joined(roomId: RoomId, playerId: Id, tick: nat, reconnectToken: Token)
    | InputAck(seqNo: int, tick: nat)
    | Pong(clientTime: int, serverTime: int)
    | HeartbeatAck
    | Error(code: Code)

  /** The sockets that can be written to, those whose close is watched, and all that was sent. */
  datatype Net = Net(known: set<Socket>, open: set<Socket>, watched: set<Socket>,
                     inboxes: map<Socket, seq<ServerMessage>>)

  datatype Issue = Issue(socket: Socket, entry: ReconnectEntry)
  datatype Spend = Spend(token: Token, playerId: Id, roomId: RoomId, at: int)
  datatype Disconnect = Disconnect(socket: Socket, playerId: Id, roomId: RoomId)

  /** What has happened: tokens issued and accepted, players marked as disconnected by a close, and
      the messages each room's session emitted. */
  datatype Log = Log(issued: map<Token, Issue>, spent: seq<Spend>, disconnects: seq<Disconnect>,
                     said: map<RoomId, seq<Message>>)

  datatype Hub = Hub(gw: Gateway, net: Net, log: Log)

  function InboxOf(net: Net, k: Socket): seq<ServerMessage> {
    if k in net.inboxes then net.inboxes[k] else []
  }

  function Send(net: Net, k: Socket, m: ServerMessage): Net {
    if k in net.open then net.(inboxes := net.inboxes[k := InboxOf(net, k) + [m]]) else net
  }

  function Close(net: Net, k: Socket): Net {
    net.(open := net.open - {k})
  }

  function Reply(h: Hub, k: Socket, m: ServerMessage): Hub {
    h.(net := Send(h.net, k, m))
  }

  /** An await that failed while early frames were being replayed ends the connection. One that fails
      later is awaited by nobody and ends the program; here it is passed over. */
  function Abort(h: Hub, k: Socket, early: bool): Hub {
    if early then h.(net := Close(Send(h.net, k, Error(Unauthorized)), k)) else h
  }

  // ---------- connecting and closing ----------

  datatype Payload = Payload(userId: string, playerId: Id, username: string)

  function ReplaceExistingSocket(h: Hub, playerId: Id): Hub {
    if playerId in h.gw.socketsByPlayer then
      var existing := h.gw.socketsByPlayer[playerId];
      h.(net := Close(h.net, existing),
         gw := h.gw.(sockets := Without(h.gw.sockets, existing), socketsByPlayer := h.gw.socketsByPlayer - {playerId}))
    else h
  }

  /** From the verified access token to the first await after it. */
  function Register(h: Hub, k: Socket, p: Payload): Hub {
    var r := ReplaceExistingSocket(h, p.playerId);
    r.(gw := r.gw.(
         contexts := r.gw.contexts[k := Context(p.userId, p.playerId, p.username, None, None)],
         sockets := if k in r.gw.sockets then r.gw.sockets else r.gw.sockets + [k],
         socketsByPlayer := r.gw.socketsByPlayer[p.playerId := k]))
  }

  function OnClose(h: Hub, k: Socket): Hub {
    if k !in h.gw.sockets || k !in h.gw.contexts then h
    else
      var ctx := h.gw.contexts[k];
      var byPlayer := h.gw.socketsByPlayer;
      var left := h.gw.(sockets := Without(h.gw.sockets, k),
                        socketsByPlayer := if ctx.playerId in byPlayer && byPlayer[ctx.playerId] == k
                                           then byPlayer - {ctx.playerId} else byPlayer);
      if ctx.roomId.Some? && ctx.roomId.value in left.sessions then
        var room := ctx.roomId.value;
        h.(gw := left.(sessions := left.sessions[room := MarkDisconnected(left.sessions[room], ctx.playerId).session]),
           log := h.log.(disconnects := h.log.disconnects + [Disconnect(k, ctx.playerId, room)]))
      else h.(gw := left)
  }

  // ---------- joining a session ----------

  function PurgeExpiredReconnectTokens(table: map<Token, ReconnectEntry>, now: int): map<Token, ReconnectEntry> {
    map t | t in table && table[t].expiresAt > now :: table[t]
  }

  function GoodToken(table: map<Token, ReconnectEntry>, token: Token, ctx: Context, room: RoomId, now: int): bool {
    && token in table
    && table[token].expiresAt > now
    && table[token].playerId == ctx.playerId
    && table[token].roomId == room
  }

  /** Up to the room lookup, with the clock read twice; the flag says whether the join goes on. */
  function BeginJoin(h: Hub, k: Socket, room: RoomId, token: Option<Token>, readAt: int, now: int): (Hub, bool)
    requires k in h.gw.contexts
  {
    var ctx := h.gw.contexts[k];
    var table := PurgeExpiredReconnectTokens(h.gw.reconnectTokens, readAt);
    match token
    case None => (h.(gw := h.gw.(reconnectTokens := table)), true)
    case Some(t) =>
      var used := h.(gw := h.gw.(reconnectTokens := table - {t}));
      if GoodToken(table, t, ctx, room, now) then
        (used.(log := h.log.(spent := h.log.spent + [Spend(t, ctx.playerId, room, now)])), true)
      else (Reply(used, k, Error(InvalidReconnect)), false)
  }

  datatype RoomStatus = Waiting | InProgress | Closed
  datatype RoomInfo = RoomInfo(isMember: bool, status: RoomStatus)

  function SessionOf(gw: Gateway, room: RoomId): Session {
    if room in gw.sessions then gw.sessions[room] else NEW_SESSION
  }

  function ListenersOf(gw: Gateway, room: RoomId): nat {
    if room in gw.listeners then gw.listeners[room] else 0
  }

  /** Adds the player to the room's session and hands out a new token, all before the next await. */
  function AttachJoin(cfg: Config, h: Hub, k: Socket, room: RoomId, token: Token, now: int): Hub
    requires k in h.gw.contexts
  {
    var gw, ctx := h.gw, h.gw.contexts[k];
    var table := if ctx.reconnectToken.Some? then gw.reconnectTokens - {ctx.reconnectToken.value}
        else gw.reconnectTokens;
    var entry := ReconnectEntry(ctx.playerId, room, now + RECONNECT_TTL_MS);
    h.(gw := gw.(
         sessions := gw.sessions[room := AddPlayer(cfg, SessionOf(gw, room), ctx.playerId, ctx.username, now)],
         subscribedRooms := gw.subscribedRooms + {room},
         listeners := if room in gw.subscribedRooms then gw.listeners
             else gw.listeners[room := ListenersOf(gw, room) + 1],
         reconnectTokens := table[token := entry],
         contexts := gw.contexts[k := ctx.(roomId := Some(room), reconnectToken := Some(token))]),
       log := h.log.(issued := h.log.issued[token := Issue(k, entry)]))
  }

  /** After the room lookup; the flag says whether the join goes on. */
  function RoomLookedUp(cfg: Config, h: Hub, k: Socket, room: RoomId, found: Option<RoomInfo>, early: bool,
      token: Token, now: int): (Hub, bool)
    requires k in h.gw.contexts
  {
    match found
    case None => (Abort(h, k, early), false)
    case Some(info) =>
      if !info.isMember then (Reply(h, k, Error(Forbidden)), false)
      else if info.status != InProgress && info.status != Waiting then (Reply(h, k, Error(RoomClosed)), false)
      else (AttachJoin(cfg, h, k, room, token, now), true)
  }

  /** After the last await of a join: the answer, and the live state of the session joined. */
  function FinishJoin(h: Hub, k: Socket, room: RoomId, token: Token, now: int): Hub
    requires k in h.gw.contexts && room in h.gw.sessions && Inv(h.gw.sessions[room])
  {
    var session := h.gw.sessions[room];
    Reply(Reply(h, k, Joined(room, h.gw.contexts[k].playerId, session.tick, token)), k,
          Direct(BuildFullSnapshot(session, now)))
  }

  // ---------- messages of a joined client ----------

  datatype ClientMessage =
    | JoinSession(roomId: RoomId, reconnectToken: Option<Token>)
    | InputMessage(input: Input)
    | Ping(clientTime: int)
    | HeartbeatMessage
    | RequestSnapshot
    | TooLarge
    | Malformed(isJson: bool)

  function InRoom(gw: Gateway, k: Socket): Option<RoomId>
    requires k in gw.contexts
  {
    var room := gw.contexts[k].roomId;
    if room.Some? && room.value in gw.sessions then room else None
  }

  function OnInput(h: Hub, k: Socket, input: Input): Hub
    requires k in h.gw.contexts
  {
    var ctx := h.gw.contexts[k];
    if ctx.roomId == None then Reply(h, k, Error(NotInSession))
    else if ctx.roomId.value !in h.gw.sessions then h
    else
      var room := ctx.roomId.value;
      var session := h.gw.sessions[room];
      var queued := h.(gw := h.gw.(sessions := h.gw.sessions[room := EnqueueInput(session, ctx.playerId, input)]));
      if ctx.playerId in session.pending then Reply(queued, k, InputAck(input.seqNo, session.tick)) else queued
  }

  /** The clock is read once for the round trip and once more for the answer. */
  function OnPing(h: Hub, k: Socket, clientTime: int, readAt: int, now: int): Hub
    requires k in h.gw.contexts
  {
    var measured := match InRoom(h.gw, k)
      case None => h
      case Some(room) =>
        var rtt := if readAt < clientTime then 0 else readAt - clientTime;
        h.(gw := h.gw.(sessions :=
            h.gw.sessions[room := UpdatePing(h.gw.sessions[room], h.gw.contexts[k].playerId, rtt as real)]));
    Reply(measured, k, Pong(clientTime, now))
  }

  function OnHeartbeat(h: Hub, k: Socket, now: int): Hub
    requires k in h.gw.contexts
  {
    match InRoom(h.gw, k)
    case None => h
    case Some(room) =>
      h.(gw := h.gw.(sessions := h.gw.sessions[room := Heartbeat(h.gw.sessions[room], h.gw.contexts[k].playerId, now)]))
  }

  function OnRequestSnapshot(h: Hub, k: Socket, now: int): Hub
    requires k in h.gw.contexts
    requires forall room :: room in h.gw.sessions ==> Inv(h.gw.sessions[room])
  {
    match InRoom(h.gw, k)
    case None => h
    case Some(room) =>
      assert Inv(h.gw.sessions[room]);
      Reply(h, k, Direct(BuildFullSnapshot(h.gw.sessions[room], now)))
  }

  // ---------- ticks ----------

  ghost predicate ListensTo(h: Hub, k: Socket, room: RoomId) {
    && k in h.gw.sockets
    && k in h.gw.contexts
    && h.gw.contexts[k].roomId == Some(room)
    && k in h.net.open
  }

  ghost function Audience(h: Hub, room: RoomId): set<Socket> {
    set k | k in h.gw.sockets && ListensTo(h, k, room)
  }

  /** One listener's broadcast: every registered, open socket in the room is sent the message. */
  ghost function Broadcasted(h: Hub, room: RoomId, m: Message): Hub {
    h.(net := h.net.(inboxes := map k | k in h.net.inboxes.Keys + Audience(h, room) ::
                                  if k in Audience(h, room) then InboxOf(h.net, k) + [Broadcast(m)]
                                      else InboxOf(h.net, k)))
  }

  ghost function BroadcastTimes(h: Hub, room: RoomId, m: Message, listeners: nat): Hub {
    if listeners == 0 then h else Broadcasted(BroadcastTimes(h, room, m, listeners - 1), room, m)
  }

  ghost function BroadcastAll(h: Hub, room: RoomId, messages: seq<Message>): Hub {
    if messages == [] then h
    else
      var before := BroadcastAll(h, room, messages[..|messages| - 1]);
      BroadcastTimes(before, room, messages[|messages| - 1], ListenersOf(h.gw, room))
  }

  function SaidIn(log: Log, room: RoomId): seq<Message> {
    if room in log.said then log.said[room] else []
  }

  /** A tick of one room's session; each listener broadcasts what the session emits. */
  ghost function TickRoom(cfg: Config, h: Hub, room: RoomId, now: int): Hub
    requires room in h.gw.sessions && Inv(h.gw.sessions[room])
  {
    var o := Step(cfg, h.gw.sessions[room], TickOp(now));
    var messages := Replication.Messages(o.events);
    var ticked := h.(gw := h.gw.(sessions := h.gw.sessions[room := o.session]),
                     log := h.log.(said := h.log.said[room := SaidIn(h.log, room) + messages]));
    BroadcastAll(ticked, room, messages)
  }

  // ---------- the interleaved protocol ----------

  /** A stretch of the program that waits for an await to come back. */
  datatype Task =
    | AwaitConnect(k: Socket)
    | AwaitOnline(k: Socket)
    | AwaitMessage(k: Socket, msg: ClientMessage)
    | AwaitRoom(k: Socket, roomId: RoomId)
    | AwaitJoined(k: Socket, roomId: RoomId, token: Token)
    | AwaitHeartbeat(k: Socket)

  datatype World = World(hub: Hub, tasks: multiset<Task>)

  datatype WireEvent =
    | Connected(k: Socket)
    | ConnectResumes(k: Socket, allowed: bool, auth: Option<Payload>)
    | OnlineResumes(k: Socket, ok: bool)
    | Arrives(k: Socket, msg: ClientMessage)
    | MessageResumes(k: Socket, msg: ClientMessage, allowed: bool, readAt: int, now: int)
    | RoomResumes(k: Socket, roomId: RoomId, found: Option<RoomInfo>, early: bool, token: Token, now: int)
    | JoinedResumes(k: Socket, roomId: RoomId, token: Token, ok: bool, early: bool, now: int)
    | HeartbeatResumes(k: Socket)
    | MessageFails(k: Socket, msg: ClientMessage, early: bool)
    | HeartbeatFails(k: Socket, early: bool)
    | Lost(k: Socket)
    | CloseFires(k: Socket)
    | Ticks(roomId: RoomId, now: int)

  const NEW_WORLD := World(
    Hub(Gateway(map[], [], map[], map[], {}, map[], map[]), Net({}, {}, {}, map[]), Log(map[], [], [], map[])),
    multiset{})

  function Swap(tasks: multiset<Task>, was: Task, more: multiset<Task>): multiset<Task> {
    tasks - multiset{was} + more
  }

  /** What must hold for an event to happen at all. A token handed out is always a new one. */
  ghost predicate Enabled(w: World, e: WireEvent) {
    match e
    case Connected(k) => k !in w.hub.net.known
    case ConnectResumes(k, _, _) => AwaitConnect(k) in w.tasks
    case OnlineResumes(k, _) => AwaitOnline(k) in w.tasks
    case Arrives(k, _) => true
    case MessageResumes(k, msg, _, _, _) => AwaitMessage(k, msg) in w.tasks
    case RoomResumes(k, room, _, _, token, _) => AwaitRoom(k, room) in w.tasks && token !in w.hub.log.issued
    case JoinedResumes(k, room, token, _, _, _) => AwaitJoined(k, room, token) in w.tasks
    case HeartbeatResumes(k) => AwaitHeartbeat(k) in w.tasks
    case MessageFails(k, msg, _) => AwaitMessage(k, msg) in w.tasks
    case HeartbeatFails(k, _) => AwaitHeartbeat(k) in w.tasks
    case Lost(k) => true
    case CloseFires(k) => true
    case Ticks(room, _) => room in w.hub.gw.sessions
  }

  /** Every suspended stretch has the context and the session it is going to use. */
  ghost predicate TasksReady(w: World) {
    && (forall t :: t in w.tasks && !t.AwaitConnect? ==> t.k in w.hub.gw.contexts)
    && (forall t :: t in w.tasks && t.AwaitJoined? ==> t.roomId in w.hub.gw.sessions)
    && (forall k :: k in w.hub.gw.sockets ==> k in w.hub.gw.contexts)
    && (forall room :: room in w.hub.gw.sessions ==> Inv(w.hub.gw.sessions[room]))
  }

  function Dispatch(w: World, k: Socket, msg: ClientMessage, readAt: int, now: int): World
    requires k in w.hub.gw.contexts
    requires forall room :: room in w.hub.gw.sessions ==> Inv(w.hub.gw.sessions[room])
  {
    match msg
    case JoinSession(room, token) =>
      var (h, goesOn) := BeginJoin(w.hub, k, room, token, readAt, now);
      World(h, if goesOn then w.tasks + multiset{AwaitRoom(k, room)} else w.tasks)
    case InputMessage(input) => w.(hub := OnInput(w.hub, k, input))
    case Ping(clientTime) => w.(hub := OnPing(w.hub, k, clientTime, readAt, now))
    case HeartbeatMessage => World(OnHeartbeat(w.hub, k, now), w.tasks + multiset{AwaitHeartbeat(k)})
    case RequestSnapshot => w.(hub := OnRequestSnapshot(w.hub, k, now))
    case TooLarge => w.(hub := Reply(w.hub, k, Error(PayloadTooLarge)))
    case Malformed(isJson) => w.(hub := Reply(w.hub, k, Error(if isJson then ValidationError else InvalidJson)))
  }

  function Connect(w: World, k: Socket, allowed: bool, auth: Option<Payload>): World {
    if !allowed then w.(hub := w.hub.(net := Close(w.hub.net, k)))
    else if auth == None then w.(hub := Abort(w.hub, k, true))
    else World(Register(w.hub, k, auth.value), w.tasks + multiset{AwaitOnline(k)})
  }

  function Arrive(w: World, k: Socket, msg: ClientMessage): World {
    if k !in w.hub.gw.sockets then w
    else if msg.TooLarge? then w.(hub := Reply(w.hub, k, Error(PayloadTooLarge)))
    else w.(tasks := w.tasks + multiset{AwaitMessage(k, msg)})
  }

  ghost function Next(cfg: Config, w: World, e: WireEvent): World
    requires TasksReady(w) && Enabled(w, e)
  {
    match e
    case Connected(k) =>
      World(w.hub.(net := w.hub.net.(known := w.hub.net.known + {k}, open := w.hub.net.open + {k})),
            w.tasks + multiset{AwaitConnect(k)})
    case ConnectResumes(k, allowed, auth) =>
      Connect(w.(tasks := w.tasks - multiset{AwaitConnect(k)}), k, allowed, auth)
    case OnlineResumes(k, ok) =>
      World(if ok then w.hub.(net := w.hub.net.(watched := w.hub.net.watched + {k})) else Abort(w.hub, k, true),
            w.tasks - multiset{AwaitOnline(k)})
    case Arrives(k, msg) => Arrive(w, k, msg)
    case MessageResumes(k, msg, allowed, readAt, now) =>
      var resumed := w.(tasks := w.tasks - multiset{AwaitMessage(k, msg)});
      if allowed then Dispatch(resumed, k, msg, readAt, now)
      else resumed.(hub := Reply(w.hub, k, Error(RateLimit)))
    case RoomResumes(k, room, found, early, token, now) =>
      var (h, goesOn) := RoomLookedUp(cfg, w.hub, k, room, found, early, token, now);
      World(h, Swap(w.tasks, AwaitRoom(k, room), if goesOn then multiset{AwaitJoined(k, room, token)} else multiset{}))
    case JoinedResumes(k, room, token, ok, early, now) =>
      World(if ok then FinishJoin(w.hub, k, room, token, now) else Abort(w.hub, k, early),
            w.tasks - multiset{AwaitJoined(k, room, token)})
    case HeartbeatResumes(k) => World(Reply(w.hub, k, HeartbeatAck), w.tasks - multiset{AwaitHeartbeat(k)})
    case MessageFails(k, msg, early) => World(Abort(w.hub, k, early), w.tasks - multiset{AwaitMessage(k, msg)})
    case HeartbeatFails(k, early) => World(Abort(w.hub, k, early), w.tasks - multiset{AwaitHeartbeat(k)})
    case Lost(k) => w.(hub := w.hub.(net := Close(w.hub.net, k)))
    case CloseFires(k) =>
      var closed := w.hub.(net := Close(w.hub.net, k));
      w.(hub := if k in w.hub.net.watched then OnClose(closed, k) else closed)
    case Ticks(room, now) => w.(hub := TickRoom(cfg, w.hub, room, now))
  }
}
