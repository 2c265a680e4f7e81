/** The gateway as the program keeps it: contexts changed in place, tables reassigned, and one method
    for each stretch between two awaits, proved to do to the whole state what its function says. */
module GatewayObjects {
  import opened OrderedMaps
  import opened AntiCheat
  import opened Snapshots
  import opened Sessions
  import Spec = Gateways
  import opened Gateways

  class SocketContext {
    const userId: string
    const playerId: Id
    const username: string
    var roomId: Option<RoomId>
    var reconnectToken: Option<Token>

    constructor (p: Payload)
      ensures Value() == Context(p.userId, p.playerId, p.username, None, None)
    {
      userId, playerId, username := p.userId, p.playerId, p.username;
      roomId, reconnectToken := None, None;
    }

    function Value(): Context
      reads this
    {
      Context(userId, playerId, username, roomId, reconnectToken)
    }
  }

  type ContextTable = map<Socket, SocketContext>

  ghost function ContextValues(contexts: ContextTable): (values: map<Socket, Context>)
    reads contexts.Values
    ensures values.Keys == contexts.Keys
  {
    map k | k in contexts :: contexts[k].Value()
  }

  /** No two sockets have the same context object. */
  ghost predicate OwnContexts(contexts: ContextTable) {
    forall j, k :: j in contexts && k in contexts && j != k ==> contexts[j] != contexts[k]
  }

  /** The gateway's tables are maps, and registered sockets have the contexts made for them. */
  ghost predicate Fit(sockets: OrderedMap<Socket, SocketContext>, tokens: OrderedMap<Token, ReconnectEntry>,
      contexts: ContextTable) {
    && Valid(sockets) && Valid(tokens)
    && OwnContexts(contexts)
    && (forall k :: k in sockets.entries ==> k in contexts && contexts[k] == sockets.entries[k])
  }

  lemma FitKeys(sockets: OrderedMap<Socket, SocketContext>, tokens: OrderedMap<Token, ReconnectEntry>,
      contexts: ContextTable)
    requires Fit(sockets, tokens, contexts)
    ensures forall k :: k in sockets.keys <==> k in sockets.entries
    ensures forall k :: k in sockets.entries ==> k in contexts && contexts[k] == sockets.entries[k]
  {
  }

  lemma FitWithout(sockets: OrderedMap<Socket, SocketContext>, tokens: OrderedMap<Token, ReconnectEntry>,
      contexts: ContextTable, k: Socket)
    requires Fit(sockets, tokens, contexts)
    ensures Fit(Delete(sockets, k), tokens, contexts)
  {
    DeleteValid(sockets, k);
  }

  lemma FitWith(sockets: OrderedMap<Socket, SocketContext>, tokens: OrderedMap<Token, ReconnectEntry>,
      contexts: ContextTable, k: Socket, ctx: SocketContext)
    requires Fit(sockets, tokens, contexts) && ctx !in contexts.Values
    ensures Fit(Put(sockets, k, ctx), tokens, contexts[k := ctx])
  {
    PutValid(sockets, k, ctx);
    PutContext(contexts, k, ctx);
  }

  lemma PutContext(contexts: ContextTable, k: Socket, ctx: SocketContext)
    requires ctx !in contexts.Values
    ensures OwnContexts(contexts) ==> OwnContexts(contexts[k := ctx])
    ensures ContextValues(contexts[k := ctx]) == ContextValues(contexts)[k := ctx.Value()]
  {
    forall j | j in contexts && j != k
      ensures contexts[j] != ctx
    {
      assert contexts[j] in contexts.Values;
    }
    SameContexts(ContextValues(contexts[k := ctx]), ContextValues(contexts)[k := ctx.Value()]);
  }

  lemma ContextAt(contexts: ContextTable, k: Socket)
    requires k in contexts
    ensures ContextValues(contexts)[k] == contexts[k].Value()
  {
  }

  lemma SameContexts(a: map<Socket, Context>, b: map<Socket, Context>)
    requires a.Keys == b.Keys && forall k :: k in a ==> a[k] == b[k]
    ensures a == b
  {
  }

  lemma FitTokens(sockets: OrderedMap<Socket, SocketContext>, tokens: OrderedMap<Token, ReconnectEntry>,
      contexts: ContextTable)
    requires Fit(sockets, tokens, contexts)
    ensures forall t :: t in tokens.keys <==> t in tokens.entries
    ensures Distinct(tokens.keys)
  {
  }

  lemma FitWithoutToken(sockets: OrderedMap<Socket, SocketContext>, tokens: OrderedMap<Token, ReconnectEntry>,
      contexts: ContextTable, t: Token)
    requires Fit(sockets, tokens, contexts)
    ensures Fit(sockets, Delete(tokens, t), contexts)
  {
    DeleteValid(tokens, t);
  }

  lemma FitWithToken(sockets: OrderedMap<Socket, SocketContext>, tokens: OrderedMap<Token, ReconnectEntry>,
      contexts: ContextTable, t: Token, entry: ReconnectEntry)
    requires Fit(sockets, tokens, contexts)
    ensures Fit(sockets, Put(tokens, t, entry), contexts)
  {
    PutValid(tokens, t, entry);
  }

  lemma FitOwn(sockets: OrderedMap<Socket, SocketContext>, tokens: OrderedMap<Token, ReconnectEntry>,
      contexts: ContextTable)
    requires Fit(sockets, tokens, contexts)
    ensures OwnContexts(contexts)
  {
  }

  /** What is left of the table once the given tokens have been looked at. */
  ghost function KeptAfter(table: map<Token, ReconnectEntry>, seen: seq<Token>, now: int): map<Token, ReconnectEntry> {
    map t | t in table && (t in seen ==> table[t].expiresAt > now) :: table[t]
  }

  lemma KeptNext(table: map<Token, ReconnectEntry>, keys: seq<Token>, i: nat, now: int)
    requires i < |keys| && keys[i] in table
    ensures KeptAfter(table, keys[..i + 1], now) ==
            if table[keys[i]].expiresAt <= now then KeptAfter(table, keys[..i], now) - {keys[i]}
                else KeptAfter(table, keys[..i], now)
  {
    assert keys[..i + 1] == keys[..i] + [keys[i]];
  }

  lemma AllKept(table: OrderedMap<Token, ReconnectEntry>, now: int)
    requires forall t :: t in table.keys <==> t in table.entries
    ensures KeptAfter(table.entries, table.keys[..0], now) == table.entries
    ensures KeptAfter(table.entries, table.keys[..|table.keys|], now) ==
            Spec.PurgeExpiredReconnectTokens(table.entries, now)
  {
    assert table.keys[..|table.keys|] == table.keys;
  }

  /** Those of the given sockets that listen. */
  ghost function Listening(h: Hub, ks: seq<Socket>, room: RoomId): set<Socket> {
    set k | k in ks && ListensTo(h, k, room)
  }

  /** The message has been sent to a set of sockets. */
  ghost function SentTo(net: Net, to: set<Socket>, m: Message): Net {
    net.(inboxes := map k | k in net.inboxes.Keys + to :: if k in to then InboxOf(net, k) + [Spec.Broadcast(m)]
        else InboxOf(net, k))
  }

  lemma SentToAll(h: Hub, room: RoomId, m: Message)
    ensures SentTo(h.net, Listening(h, h.gw.sockets[..0], room), m) == h.net
    ensures h.(net := SentTo(h.net, Listening(h, h.gw.sockets[..|h.gw.sockets|], room), m)) == Broadcasted(h, room, m)
  {
    hide ListensTo;
    assert h.gw.sockets[..|h.gw.sockets|] == h.gw.sockets;
    assert Listening(h, h.gw.sockets, room) == Audience(h, room);
    assert SentTo(h.net, {}, m).inboxes == h.net.inboxes;
  }

  lemma SentToOneMore(net: Net, to: set<Socket>, k: Socket, m: Message)
    requires k !in to && k in net.open
    ensures SentTo(net, to + {k}, m) == Spec.Send(SentTo(net, to, m), k, Spec.Broadcast(m))
  {
    assert SentTo(net, to + {k}, m).inboxes == SentTo(net, to, m).inboxes[k := InboxOf(net, k) + [Spec.Broadcast(m)]];
  }

  lemma NextListening(h: Hub, i: nat, room: RoomId)
    requires i < |h.gw.sockets| && Distinct(h.gw.sockets) && h.gw.sockets[i] in h.gw.contexts
    ensures var ks, k := h.gw.sockets, h.gw.sockets[i];
            && k !in Listening(h, ks[..i], room)
            && Listening(h, ks[..i + 1], room) ==
               if h.gw.contexts[k].roomId == Some(room) && k in h.net.open then Listening(h, ks[..i], room) + {k}
                   else Listening(h, ks[..i], room)
  {
    var ks := h.gw.sockets;
    assert ks[..i + 1] == ks[..i] + [ks[i]];
    assert ks[i] !in ks[..i];
  }

  lemma FitDistinct(sockets: OrderedMap<Socket, SocketContext>, tokens: OrderedMap<Token, ReconnectEntry>,
      contexts: ContextTable)
    requires Fit(sockets, tokens, contexts)
    ensures Distinct(sockets.keys)
  {
  }

  class WebSocketGateway {
    const cfg: Config
    var sockets: OrderedMap<Socket, SocketContext>
    var socketsByPlayer: map<Id, Socket>
    var reconnectTokens: OrderedMap<Token, ReconnectEntry>
    var subscribedRooms: set<RoomId>
    /** The running sessions and who listens to each, and the sockets with what was sent on each. */
    var sessions: map<RoomId, Session>
    var listeners: map<RoomId, nat>
    var net: Net
    /** Every context ever made, as a suspended join may still hold one; and what has happened. */
    ghost var contexts: ContextTable
    ghost var log: Log

    ghost predicate Consistent()
      reads this
    {
      Fit(sockets, reconnectTokens, contexts)
    }

    /** The whole state as a value. */
    ghost function Model(): Hub
      reads this, contexts.Values
    {
      Hub(Gateway(ContextValues(contexts), sockets.keys, socketsByPlayer, reconnectTokens.entries, subscribedRooms,
                  listeners, sessions),
          net, log)
    }

    constructor (cfg: Config, net: Net)
      ensures Consistent() && this.cfg == cfg
      ensures Model() == NEW_WORLD.hub.(net := net)
    {
      this.cfg, this.net := cfg, net;
      sockets, socketsByPlayer, reconnectTokens, subscribedRooms := Empty(), map[], Empty(), {};
      sessions, listeners := map[], map[];
      contexts, log := map[], Log(map[], [], [], map[]);
    }

    method Send(k: Socket, m: ServerMessage)
      modifies this`net
      ensures net == Spec.Send(old(net), k, m)
    {
      if k in net.open {
        net := net.(inboxes := net.inboxes[k := InboxOf(net, k) + [m]]);
      }
    }

    method CloseSocket(k: Socket)
      modifies this`net
      ensures net == Spec.Close(old(net), k)
    {
      net := net.(open := net.open - {k});
    }

    method ReplaceExistingSocket(playerId: Id)
      requires Consistent()
      modifies this`net, this`sockets, this`socketsByPlayer
      ensures Consistent()
      ensures Model() == Spec.ReplaceExistingSocket(old(Model()), playerId)
    {
      hide Fit, ContextValues, Without;
      if playerId !in socketsByPlayer {
        return;
      }
      var existing := socketsByPlayer[playerId];
      CloseSocket(existing);
      FitWithout(sockets, reconnectTokens, contexts, existing);
      sockets := Delete(sockets, existing);
      socketsByPlayer := socketsByPlayer - {playerId};
    }

    /** Makes a context for a socket and registers it. */
    method AddSocket(k: Socket, p: Payload) returns (ctx: SocketContext)
      requires Consistent()
      modifies this`sockets, this`contexts
      ensures Consistent() && fresh(ctx) && contexts == old(contexts)[k := ctx]
      ensures ContextValues(contexts) ==
              old(ContextValues(contexts))[k := Context(p.userId, p.playerId, p.username, None, None)]
      ensures sockets.keys == if k in old(sockets.keys) then old(sockets.keys) else old(sockets.keys) + [k]
    {
      hide Fit, ContextValues;
      ctx := new SocketContext(p);
      FitKeys(sockets, reconnectTokens, contexts);
      FitWith(sockets, reconnectTokens, contexts, k, ctx);
      PutContext(contexts, k, ctx);
      sockets := Put(sockets, k, ctx);
      contexts := contexts[k := ctx];
    }

    /** From the verified access token to the first await after it. */
    method Register(k: Socket, p: Payload) returns (ctx: SocketContext)
      requires Consistent()
      modifies this`net, this`sockets, this`socketsByPlayer, this`contexts
      ensures Consistent() && fresh(ctx) && contexts == old(contexts)[k := ctx]
      ensures Model() == Spec.Register(old(Model()), k, p)
    {
      hide Fit, ContextValues, Spec.ReplaceExistingSocket;
      ReplaceExistingSocket(p.playerId);
      ctx := AddSocket(k, p);
      socketsByPlayer := socketsByPlayer[p.playerId := k];
    }

    /** Takes a socket out of both tables. */
    method Unregister(k: Socket) returns (ctx: SocketContext)
      requires Consistent() && k in sockets.entries
      modifies this`sockets, this`socketsByPlayer
      ensures Consistent() && k in contexts && ctx == contexts[k]
      ensures sockets.keys == Without(old(sockets.keys), k)
      ensures socketsByPlayer == if ctx.playerId in old(socketsByPlayer) && old(socketsByPlayer)[ctx.playerId] == k
                                 then old(socketsByPlayer) - {ctx.playerId} else old(socketsByPlayer)
    {
      hide Fit, Without;
      FitKeys(sockets, reconnectTokens, contexts);
      FitWithout(sockets, reconnectTokens, contexts, k);
      ctx := sockets.entries[k];
      sockets := Delete(sockets, k);
      if ctx.playerId in socketsByPlayer && socketsByPlayer[ctx.playerId] == k {
        socketsByPlayer := socketsByPlayer - {ctx.playerId};
      }
    }

    method OnClose(k: Socket)
      requires Consistent()
      modifies this`sockets, this`socketsByPlayer, this`sessions, this`log
      ensures Consistent()
      ensures Model() == Spec.OnClose(old(Model()), k)
    {
      hide Fit, Without, MarkDisconnected, ContextValues;
      FitKeys(sockets, reconnectTokens, contexts);
      if k !in sockets.entries {
        return;
      }
      var ctx := Unregister(k);
      ContextAt(contexts, k);
      if ctx.roomId.Some? && ctx.roomId.value in sessions {
        sessions := sessions[ctx.roomId.value := MarkDisconnected(sessions[ctx.roomId.value], ctx.playerId).session];
        log := log.(disconnects := log.disconnects + [Disconnect(k, ctx.playerId, ctx.roomId.value)]);
      }
    }

    /** Walks the table and deletes each entry that has expired. */
    method PurgeExpiredReconnectTokens(now: int)
      requires Consistent()
      modifies this`reconnectTokens
      ensures Consistent()
      ensures reconnectTokens.entries == Spec.PurgeExpiredReconnectTokens(old(reconnectTokens.entries), now)
    {
      hide Fit, KeptAfter;
      var all := reconnectTokens;
      FitTokens(sockets, reconnectTokens, contexts);
      AllKept(all, now);
      for i := 0 to |all.keys|
        invariant Consistent()
        invariant reconnectTokens.entries == KeptAfter(all.entries, all.keys[..i], now)
      {
        var token := all.keys[i];
        KeptNext(all.entries, all.keys, i, now);
        if all.entries[token].expiresAt <= now {
          FitWithoutToken(sockets, reconnectTokens, contexts, token);
          reconnectTokens := Delete(reconnectTokens, token);
        }
      }
    }

    /** A join up to its room lookup; tells whether it goes on. */
    method BeginJoin(k: Socket, ctx: SocketContext, room: RoomId, token: Option<Token>, readAt: int,
        now: int) returns (goesOn: bool)
      requires Consistent() && k in contexts && contexts[k] == ctx
      modifies this`reconnectTokens, this`net, this`log
      ensures Consistent()
      ensures (Model(), goesOn) == Spec.BeginJoin(old(Model()), k, room, token, readAt, now)
    {
      hide Fit, Spec.PurgeExpiredReconnectTokens, Spec.Send, ContextValues;
      ContextAt(contexts, k);
      PurgeExpiredReconnectTokens(readAt);
      if token == None {
        return true;
      }
      var t := token.value;
      var cached := if t in reconnectTokens.entries then Some(reconnectTokens.entries[t]) else None;
      FitWithoutToken(sockets, reconnectTokens, contexts, t);
      reconnectTokens := Delete(reconnectTokens, t);
      if cached == None || cached.value.expiresAt <= now || cached.value.playerId != ctx.playerId
          || cached.value.roomId != room {
        Send(k, Error(InvalidReconnect));
        return false;
      }
      log := log.(spent := log.spent + [Spend(t, ctx.playerId, room, now)]);
      goesOn := true;
    }

    /** Adds the player to the room's session, and listens to it unless the room has a listener. */
    method Admit(playerId: Id, username: string, room: RoomId, now: int)
      modifies this`sessions, this`subscribedRooms, this`listeners
      ensures sessions ==
              old(sessions)[room := AddPlayer(cfg, if room in old(sessions) then old(sessions)[room] else NEW_SESSION,
                                                          playerId, username, now)]
      ensures subscribedRooms == old(subscribedRooms) + {room}
      ensures listeners == if room in old(subscribedRooms) then old(listeners)
                           else old(listeners)[room := (if room in old(listeners) then old(listeners)[room] else 0) + 1]
    {
      hide AddPlayer;
      var session := if room in sessions then sessions[room] else NEW_SESSION;
      sessions := sessions[room := AddPlayer(cfg, session, playerId, username, now)];
      if room !in subscribedRooms {
        subscribedRooms := subscribedRooms + {room};
        listeners := listeners[room := (if room in listeners then listeners[room] else 0) + 1];
      }
    }

    method Attach(k: Socket, ctx: SocketContext, room: RoomId, token: Token, now: int)
      requires Consistent() && k in contexts && contexts[k] == ctx
      modifies this`sessions, this`subscribedRooms, this`listeners, this`reconnectTokens, this`log, ctx
      ensures Consistent()
      ensures Model() == Spec.AttachJoin(cfg, old(Model()), k, room, token, now)
    {
      hide Fit, ContextValues, AddPlayer;
      ContextAt(contexts, k);
      Admit(ctx.playerId, ctx.username, room, now);
      IssueToken(k, ctx, room, token, now);
    }

    /** Takes the context's old token out of the table, and gives it a new one. */
    method IssueToken(k: Socket, ctx: SocketContext, room: RoomId, token: Token, now: int)
      requires Consistent() && k in contexts && contexts[k] == ctx
      modifies this`reconnectTokens, this`log, ctx
      ensures Consistent()
      ensures var was, entry := old(ctx.Value()), ReconnectEntry(ctx.playerId, room, now + RECONNECT_TTL_MS);
              && reconnectTokens.entries ==
                   (if was.reconnectToken.Some? then old(reconnectTokens.entries) - {was.reconnectToken.value}
                                             else old(reconnectTokens.entries))[token := entry]
              && log == old(log).(issued := old(log).issued[token := Issue(k, entry)])
              && ContextValues(contexts) ==
                   old(ContextValues(contexts))[k := was.(roomId := Some(room), reconnectToken := Some(token))]
    {
      hide Fit, ContextValues;
      if ctx.reconnectToken.Some? {
        FitWithoutToken(sockets, reconnectTokens, contexts, ctx.reconnectToken.value);
        reconnectTokens := Delete(reconnectTokens, ctx.reconnectToken.value);
      }
      var entry := ReconnectEntry(ctx.playerId, room, now + RECONNECT_TTL_MS);
      FitWithToken(sockets, reconnectTokens, contexts, token, entry);
      reconnectTokens := Put(reconnectTokens, token, entry);
      log := log.(issued := log.issued[token := Issue(k, entry)]);
      Enter(k, ctx, room, token);
    }

    /** Changes a context in place. */
    method Enter(k: Socket, ctx: SocketContext, room: RoomId, token: Token)
      requires Consistent() && k in contexts && contexts[k] == ctx
      modifies ctx
      ensures ContextValues(contexts) ==
              old(ContextValues(contexts))[k := old(ctx.Value()).(roomId := Some(room), reconnectToken := Some(token))]
    {
      ghost var values := ContextValues(contexts);
      FitOwn(sockets, reconnectTokens, contexts);
      ctx.roomId, ctx.reconnectToken := Some(room), Some(token);
      SameContexts(ContextValues(contexts), values[k := ctx.Value()]);
    }

    /** A join from its room lookup to its last await; tells whether it goes on. */
    method RoomLookedUp(k: Socket, ctx: SocketContext, room: RoomId, found: Option<RoomInfo>, early: bool, token: Token,
        now: int)
      returns (goesOn: bool)
      requires Consistent() && k in contexts && contexts[k] == ctx
      modifies this`sessions, this`subscribedRooms, this`listeners, this`reconnectTokens, this`log, this`net, ctx
      ensures Consistent()
      ensures (Model(), goesOn) == Spec.RoomLookedUp(cfg, old(Model()), k, room, found, early, token, now)
    {
      hide Fit, ContextValues, Spec.AttachJoin;
      if found == None {
        if early {
          Send(k, Error(Unauthorized));
          CloseSocket(k);
        }
        return false;
      }
      if !found.value.isMember {
        Send(k, Error(Forbidden));
        return false;
      }
      if found.value.status != InProgress && found.value.status != Waiting {
        Send(k, Error(RoomClosed));
        return false;
      }
      Attach(k, ctx, room, token, now);
      goesOn := true;
    }

    /** A join after its last await: the answer, and the live state of the session. */
    method FinishJoin(k: Socket, ctx: SocketContext, room: RoomId, token: Token, now: int)
      requires Consistent() && k in contexts && contexts[k] == ctx
      requires room in sessions && Inv(sessions[room])
      modifies this`net
      ensures Consistent()
      ensures Model() == Spec.FinishJoin(old(Model()), k, room, token, now)
    {
      hide Fit, ContextValues, MotionAgrees, AllInWorld, BuildFullSnapshot, Spec.Send;
      ContextAt(contexts, k);
      Send(k, Joined(room, ctx.playerId, sessions[room].tick, token));
      Send(k, Direct(BuildFullSnapshot(sessions[room], now)));
    }

    method OnInput(k: Socket, ctx: SocketContext, input: Input)
      requires Consistent() && k in contexts && contexts[k] == ctx
      modifies this`sessions, this`net
      ensures Consistent()
      ensures Model() == Spec.OnInput(old(Model()), k, input)
    {
      hide Fit, ContextValues, Spec.Send, EnqueueInput;
      ContextAt(contexts, k);
      if ctx.roomId == None {
        Send(k, Error(NotInSession));
        return;
      }
      var room := ctx.roomId.value;
      if room !in sessions {
        return;
      }
      var tick, accepted := sessions[room].tick, ctx.playerId in sessions[room].pending;
      sessions := sessions[room := EnqueueInput(sessions[room], ctx.playerId, input)];
      if accepted {
        Send(k, InputAck(input.seqNo, tick));
      }
    }

    method OnPing(k: Socket, ctx: SocketContext, clientTime: int, readAt: int, now: int)
      requires Consistent() && k in contexts && contexts[k] == ctx
      modifies this`sessions, this`net
      ensures Consistent()
      ensures Model() == Spec.OnPing(old(Model()), k, clientTime, readAt, now)
    {
      hide Fit, ContextValues, Spec.Send, UpdatePing;
      ContextAt(contexts, k);
      if ctx.roomId.Some? && ctx.roomId.value in sessions {
        var rtt := if readAt < clientTime then 0 else readAt - clientTime;
        sessions := sessions[ctx.roomId.value := UpdatePing(sessions[ctx.roomId.value], ctx.playerId, rtt as real)];
      }
      Send(k, Pong(clientTime, now));
    }

    /** Up to its await; the answer comes after it. */
    method OnHeartbeat(k: Socket, ctx: SocketContext, now: int)
      requires Consistent() && k in contexts && contexts[k] == ctx
      modifies this`sessions
      ensures Consistent()
      ensures Model() == Spec.OnHeartbeat(old(Model()), k, now)
    {
      hide Fit, ContextValues, Heartbeat;
      ContextAt(contexts, k);
      if ctx.roomId.Some? && ctx.roomId.value in sessions {
        sessions := sessions[ctx.roomId.value := Heartbeat(sessions[ctx.roomId.value], ctx.playerId, now)];
      }
    }

    method OnRequestSnapshot(k: Socket, ctx: SocketContext, now: int)
      requires Consistent() && k in contexts && contexts[k] == ctx
      requires forall room :: room in sessions ==> Inv(sessions[room])
      modifies this`net
      ensures Consistent()
      ensures Model() == Spec.OnRequestSnapshot(old(Model()), k, now)
    {
      hide Fit, ContextValues, Spec.Send, BuildFullSnapshot, MotionAgrees, AllInWorld;
      ContextAt(contexts, k);
      if ctx.roomId.Some? && ctx.roomId.value in sessions {
        assert Inv(sessions[ctx.roomId.value]);
        Send(k, Direct(BuildFullSnapshot(sessions[ctx.roomId.value], now)));
      }
    }

    /** Walks the registered sockets and sends the message to each open one in the room. */
    method Broadcast(room: RoomId, m: Message)
      requires Consistent()
      modifies this`net
      ensures Consistent()
      ensures Model() == Spec.Broadcasted(old(Model()), room, m)
    {
      hide Fit, SentTo, Listening, Broadcasted, ContextValues;
      FitKeys(sockets, reconnectTokens, contexts);
      FitDistinct(sockets, reconnectTokens, contexts);
      ghost var before := Model();
      SentToAll(before, room, m);
      for i := 0 to |sockets.keys|
        invariant net == SentTo(before.net, Listening(before, sockets.keys[..i], room), m)
        invariant net.open == before.net.open
      {
        var k := sockets.keys[i];
        var ctx := sockets.entries[k];
        ContextAt(contexts, k);
        NextListening(before, i, room);
        if ctx.roomId == Some(room) && k in net.open {
          SentToOneMore(before.net, Listening(before, sockets.keys[..i], room), k, m);
          Send(k, Spec.Broadcast(m));
        }
      }
    }
  }
}
