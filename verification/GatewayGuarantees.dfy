/** What the gateway promises about connections and reconnect tokens, over every interleaving. */
module GatewayGuarantees {
  import opened OrderedMaps
  import opened AntiCheat
  import opened Sessions
  import opened Gateways
  import opened GatewayInvariants

  /** Over every run the two tables are one relation: a player is mapped to exactly the socket that
      is registered for them, so no player ever has two. */
  lemma OneSocketPerPlayer(cfg: Config, es: seq<WireEvent>, p: Id, k: Socket)
    ensures WorldInv(NEW_WORLD)
    ensures var gw := RunWorld(cfg, NEW_WORLD, es).hub.gw;
            && (p in gw.socketsByPlayer && gw.socketsByPlayer[p] == k <==>
                  k in gw.sockets && k in gw.contexts && gw.contexts[k].playerId == p)
            && (forall j :: (j in gw.sockets && k in gw.sockets && j in gw.contexts && k in gw.contexts
                             && gw.contexts[j].playerId == gw.contexts[k].playerId) ==> j == k)
  {
    hide RunWorld, TasksReady, TokensCurrent, SpentSoundly, OneListenerEach;
    NewWorldInv();
    assert SocketsMatch(RunWorld(cfg, NEW_WORLD, es));
  }

  /** Over every run a room's session has one listener, however many joins raced to make it, and a
      room without a session has none. */
  lemma OneListenerPerRoom(cfg: Config, es: seq<WireEvent>, room: RoomId)
    ensures WorldInv(NEW_WORLD)
    ensures var gw := RunWorld(cfg, NEW_WORLD, es).hub.gw;
            ListenersOf(gw, room) == if room in gw.sessions then 1 else 0
  {
    hide RunWorld, TasksReady, TokensCurrent, SpentSoundly, SocketsMatch;
    NewWorldInv();
    assert OneListenerEach(RunWorld(cfg, NEW_WORLD, es).hub.gw);
  }

  // ---------- who is marked as disconnected ----------

  /** The two events that change who is registered. */
  ghost predicate ChangesSockets(e: WireEvent) {
    e.ConnectResumes? || e.CloseFires?
  }

  lemma OthersKeepSockets(cfg: Config, w: World, e: WireEvent)
    requires WorldInv(w) && Enabled(w, e) && !ChangesSockets(e)
    ensures var h := Next(cfg, w, e).hub;
            && h.gw.sockets == w.hub.gw.sockets
            && h.gw.socketsByPlayer == w.hub.gw.socketsByPlayer
            && h.gw.contexts.Keys == w.hub.gw.contexts.Keys
            && h.log.disconnects == w.hub.log.disconnects
  {
    hide Inv, SocketsMatch, TokensCurrent, SpentSoundly, OneListenerEach, BeginJoin, Dispatch, AttachJoin, RoomLookedUp,
         OneSessionOp, TickRoom, Step, OnClose, Connect, FinishJoin, Abort;
    match e
    case MessageResumes(k, msg, allowed, readAt, now) =>
      if allowed {
        var resumed := w.(tasks := w.tasks - multiset{AwaitMessage(k, msg)});
        FewerTasksKeep(w, resumed.tasks);
        MessageKeepsSockets(cfg, resumed, k, msg, readAt, now);
      }
    case RoomResumes(k, room, found, early, token, now) =>
      RoomLookedUpIs(cfg, w.hub, k, room, found, early, token, now);
      AttachKeepsSockets(cfg, w.hub, k, room, token, now);
    case Ticks(room, now) => TickRoomOnlySession(cfg, w.hub, room, now);
    case _ => QuietHub(cfg, w, e);
  }

  lemma AttachKeepsSockets(cfg: Config, h: Hub, k: Socket, room: RoomId, token: Token, now: int)
    requires k in h.gw.contexts
    ensures var h' := AttachJoin(cfg, h, k, room, token, now);
            && h'.gw.sockets == h.gw.sockets && h'.gw.socketsByPlayer == h.gw.socketsByPlayer
            && h'.gw.contexts.Keys == h.gw.contexts.Keys && h'.log.disconnects == h.log.disconnects
  {
    hide AddPlayer;
  }

  lemma MessageKeepsSockets(cfg: Config, w: World, k: Socket, msg: ClientMessage, readAt: int, now: int)
    requires WorldInv(w) && k in w.hub.gw.contexts
    ensures var h := Dispatch(w, k, msg, readAt, now).hub;
            && h.gw.sockets == w.hub.gw.sockets && h.gw.socketsByPlayer == w.hub.gw.socketsByPlayer
            && h.gw.contexts.Keys == w.hub.gw.contexts.Keys && h.log.disconnects == w.hub.log.disconnects
  {
    hide Inv, SocketsMatch, TokensCurrent, SpentSoundly, OneListenerEach, Dispatch, OneSessionOp;
    DispatchIs(cfg, w, k, msg, readAt, now);
    if msg.JoinSession? {
      assert BeginJoin(w.hub, k, msg.roomId, msg.reconnectToken, readAt, now).0.log.disconnects ==
          w.hub.log.disconnects;
    } else {
      SessionOpReady(cfg, w.hub, Dispatch(w, k, msg, readAt, now).hub);
    }
  }

  /** A player is marked as disconnected exactly when the close of their current, watched socket
      fires while that socket is in a room; and then they have no registered socket. */
  lemma MarkedOnlyByCurrentSocket(cfg: Config, w: World, e: WireEvent)
    requires WorldInv(w) && Enabled(w, e)
    ensures var w' := Next(cfg, w, e);
            if w'.hub.log.disconnects == w.hub.log.disconnects then
              e.CloseFires? && e.k in w.hub.net.watched && e.k in w.hub.gw.sockets ==>
                !(w.hub.gw.contexts[e.k].roomId.Some? && w.hub.gw.contexts[e.k].roomId.value in w.hub.gw.sessions)
            else
              && e.CloseFires? && e.k in w.hub.gw.sockets && e.k in w.hub.net.watched
              && var p := w.hub.gw.contexts[e.k].playerId;
                 && p in w.hub.gw.socketsByPlayer && w.hub.gw.socketsByPlayer[p] == e.k
                 && p !in w'.hub.gw.socketsByPlayer
                 && w'.hub.log.disconnects ==
                      w.hub.log.disconnects + [Disconnect(e.k, p, w.hub.gw.contexts[e.k].roomId.value)]
  {
    hide Inv, TokensCurrent, SpentSoundly, OneListenerEach, TasksReady;
    match e
    case ConnectResumes(k, allowed, auth) => ConnectMarksNobody(cfg, w, k, allowed, auth);
    case CloseFires(k) => CloseMarks(w.hub, k);
    case _ => OthersKeepSockets(cfg, w, e);
  }

  lemma ConnectMarksNobody(cfg: Config, w: World, k: Socket, allowed: bool, auth: Option<Payload>)
    requires TasksReady(w) && Enabled(w, ConnectResumes(k, allowed, auth))
    ensures Next(cfg, w, ConnectResumes(k, allowed, auth)).hub.log == w.hub.log
  {
    hide Inv;
  }

  ghost function ForgetSocket(gw: Gateway, k: Socket): map<Id, Socket>
    requires k in gw.contexts
  {
    var p := gw.contexts[k].playerId;
    if p in gw.socketsByPlayer && gw.socketsByPlayer[p] == k then gw.socketsByPlayer - {p} else gw.socketsByPlayer
  }

  lemma CloseMarks(h: Hub, k: Socket)
    requires k in h.gw.sockets ==> k in h.gw.contexts
    ensures var closed := h.(net := Close(h.net, k));
            var marks := k in h.gw.sockets && h.gw.contexts[k].roomId.Some?
                && h.gw.contexts[k].roomId.value in h.gw.sessions;
            && OnClose(closed, k).log == (if marks then h.log.(disconnects := h.log.disconnects +
                 [Disconnect(k, h.gw.contexts[k].playerId, h.gw.contexts[k].roomId.value)]) else h.log)
            && (k in h.gw.sockets ==> OnClose(closed, k).gw.socketsByPlayer == ForgetSocket(h.gw, k))
  {
    hide MarkDisconnected;
  }

  lemma RegisterLeavesOut(h: Hub, j: Socket, p: Payload, k: Socket)
    requires k in h.gw.contexts && k !in h.gw.sockets && j != k
    ensures k in Register(h, j, p).gw.contexts && k !in Register(h, j, p).gw.sockets
  {
    if p.playerId in h.gw.socketsByPlayer {
      WithoutMembers(h.gw.sockets, h.gw.socketsByPlayer[p.playerId]);
    }
  }

  lemma ConnectLeavesOut(cfg: Config, w: World, j: Socket, allowed: bool, auth: Option<Payload>, k: Socket)
    requires WorldInv(w) && Enabled(w, ConnectResumes(j, allowed, auth))
    requires k in w.hub.gw.contexts && k !in w.hub.gw.sockets
    ensures var h := Next(cfg, w, ConnectResumes(j, allowed, auth)).hub;
            k in h.gw.contexts && k !in h.gw.sockets
  {
    hide Inv, TokensCurrent, SpentSoundly, OneListenerEach, TablesInverse, Register;
    SocketWaits(w, j);
    if allowed && auth.Some? {
      RegisterLeavesOut(w.hub, j, auth.value, k);
    }
  }

  lemma CloseLeavesOut(cfg: Config, w: World, j: Socket, k: Socket)
    requires WorldInv(w) && k in w.hub.gw.contexts && k !in w.hub.gw.sockets
    ensures var h := Next(cfg, w, CloseFires(j)).hub;
            k in h.gw.contexts && k !in h.gw.sockets
  {
    hide Inv, TokensCurrent, SpentSoundly, OneListenerEach, SocketsMatch, MarkDisconnected;
    WithoutMembers(w.hub.gw.sockets, j);
  }

  /** A socket that has been replaced, or has closed, is never registered again. */
  lemma ReplacedStaysOut(cfg: Config, w: World, e: WireEvent, k: Socket)
    requires WorldInv(w) && Enabled(w, e)
    requires k in w.hub.gw.contexts && k !in w.hub.gw.sockets
    ensures var h := Next(cfg, w, e).hub;
            k in h.gw.contexts && k !in h.gw.sockets
  {
    hide Next, TasksReady, SocketsMatch, TokensCurrent, SpentSoundly, OneListenerEach;
    match e
    case ConnectResumes(j, allowed, auth) => ConnectLeavesOut(cfg, w, j, allowed, auth, k);
    case CloseFires(j) => CloseLeavesOut(cfg, w, j, k);
    case _ => OthersKeepSockets(cfg, w, e);
  }

  ghost function MarksBy(log: seq<Disconnect>, k: Socket): nat {
    if log == [] then 0 else MarksBy(log[..|log| - 1], k) + (if log[|log| - 1].socket == k then 1 else 0)
  }

  /** However late its close event fires, a replaced socket marks nobody as disconnected. */
  lemma {:induction false} ReplacedNeverMarks(cfg: Config, w: World, es: seq<WireEvent>, k: Socket)
    requires WorldInv(w) && k in w.hub.gw.contexts && k !in w.hub.gw.sockets
    ensures var h := RunWorld(cfg, w, es).hub;
            && k in h.gw.contexts && k !in h.gw.sockets
            && MarksBy(h.log.disconnects, k) == MarksBy(w.hub.log.disconnects, k)
  {
    hide Next, Enabled, SocketsMatch, TokensCurrent, SpentSoundly, OneListenerEach, TasksReady;
    if es != [] {
      var before, e := RunWorld(cfg, w, es[..|es| - 1]), es[|es| - 1];
      ReplacedNeverMarks(cfg, w, es[..|es| - 1], k);
      if Enabled(before, e) {
        ReplacedStaysOut(cfg, before, e, k);
        MarkedOnlyByCurrentSocket(cfg, before, e);
        var was, now := before.hub.log.disconnects, Next(cfg, before, e).hub.log.disconnects;
        assert now != was ==> now[..|now| - 1] == was && now[|now| - 1].socket != k;
      }
    }
  }

  // ---------- reconnect tokens ----------

  /** Over every run no token is accepted twice, and each was accepted for the player and the room
      it was issued to, before it expired. */
  lemma TokenAcceptedOnce(cfg: Config, es: seq<WireEvent>, i: nat, j: nat)
    ensures WorldInv(NEW_WORLD)
    ensures var log := RunWorld(cfg, NEW_WORLD, es).hub.log;
            && (i < j < |log.spent| ==> log.spent[i].token != log.spent[j].token)
            && (i < |log.spent| ==>
                  var s := log.spent[i];
                  && s.token in log.issued
                  && log.issued[s.token].entry.playerId == s.playerId
                  && log.issued[s.token].entry.roomId == s.roomId
                  && s.at < log.issued[s.token].entry.expiresAt)
  {
    hide RunWorld, TasksReady, TokensCurrent, SocketsMatch, OneListenerEach;
    NewWorldInv();
    assert SpentSoundly(RunWorld(cfg, NEW_WORLD, es).hub.gw, RunWorld(cfg, NEW_WORLD, es).hub.log);
  }

  /** Over every run each context has at most one token in the table, its current one. */
  lemma OneTokenPerContext(cfg: Config, es: seq<WireEvent>, t: Token, u: Token)
    ensures WorldInv(NEW_WORLD)
    ensures var h := RunWorld(cfg, NEW_WORLD, es).hub;
            && (t in h.gw.reconnectTokens ==>
                  t in h.log.issued && h.log.issued[t].socket in h.gw.contexts
                  && h.gw.contexts[h.log.issued[t].socket].reconnectToken == Some(t))
            && ((t in h.gw.reconnectTokens && u in h.gw.reconnectTokens
                 && t in h.log.issued && u in h.log.issued
                 && h.log.issued[t].socket == h.log.issued[u].socket) ==> t == u)
  {
    hide RunWorld, TasksReady, SpentSoundly, SocketsMatch, OneListenerEach;
    NewWorldInv();
    assert TokensCurrent(RunWorld(cfg, NEW_WORLD, es).hub.gw, RunWorld(cfg, NEW_WORLD, es).hub.log);
  }
}
