/** Where a joined client does not follow its room: when another join of its own is still to be
    answered. The failing run, and the exact condition. */
module CrossedJoins {
  import opened OrderedMaps
  import opened AntiCheat
  import opened Snapshots
  import opened Sessions
  import opened Replication
  import opened Gateways
  import opened GatewayInvariants
  import opened Delivery

  // ---------- runs, event by event ----------

  lemma NoEvents(cfg: Config, w: World, k: Socket, room: RoomId)
    requires WorldInv(w)
    ensures RunWorld(cfg, w, []) == w
    ensures ListensTo(w.hub, k, room) ==> ListensThroughout(cfg, w, [], k, room)
  {
    hide Next, TasksReady, SocketsMatch, TokensCurrent, SpentSoundly, OneListenerEach, ListensTo;
  }

  lemma OneMore(cfg: Config, w: World, es: seq<WireEvent>, e: WireEvent, k: Socket, room: RoomId)
    requires WorldInv(w) && Enabled(RunWorld(cfg, w, es), e)
    ensures RunWorld(cfg, w, es + [e]) == Next(cfg, RunWorld(cfg, w, es), e)
    ensures ListensThroughout(cfg, w, es, k, room) && ListensTo(RunWorld(cfg, w, es + [e]).hub, k, room) ==>
              ListensThroughout(cfg, w, es + [e], k, room)
  {
    hide Next, Enabled, TasksReady, SocketsMatch, TokensCurrent, SpentSoundly, OneListenerEach, ListensTo;
    var more := es + [e];
    assert more[..|es|] == es;
    assert forall n :: 0 <= n <= |es| ==> more[..n] == es[..n];
    assert more[..|more|] == more;
  }

  lemma {:induction false} Then(cfg: Config, w: World, a: seq<WireEvent>, b: seq<WireEvent>)
    requires WorldInv(w)
    ensures RunWorld(cfg, w, a + b) == RunWorld(cfg, RunWorld(cfg, w, a), b)
  {
    hide Next, Enabled, TasksReady, SocketsMatch, TokensCurrent, SpentSoundly, OneListenerEach;
    if b == [] {
      assert a + b == a;
    } else {
      Then(cfg, w, a, b[..|b| - 1]);
      assert (a + b)[..|a + b| - 1] == a + b[..|b| - 1];
    }
  }

  /** One run after another. */
  lemma ThenListens(cfg: Config, w: World, a: seq<WireEvent>, b: seq<WireEvent>, k: Socket, room: RoomId)
    requires WorldInv(w) && ListensThroughout(cfg, w, a, k, room)
             && ListensThroughout(cfg, RunWorld(cfg, w, a), b, k, room)
    ensures RunWorld(cfg, w, a + b) == RunWorld(cfg, RunWorld(cfg, w, a), b)
    ensures ListensThroughout(cfg, w, a + b, k, room)
  {
    hide WorldInv, ListensTo, RunWorld;
    Then(cfg, w, a, b);
    forall n | 0 <= n <= |a + b|
      ensures ListensTo(RunWorld(cfg, w, (a + b)[..n]).hub, k, room)
    {
      if n <= |a| {
        assert (a + b)[..n] == a[..n];
      } else {
        assert (a + b)[..n] == a + b[..n - |a|];
        Then(cfg, w, a, b[..n - |a|]);
      }
    }
  }

  // ---------- connecting, and asking to join ----------

  function EnterEvents(j: Socket, p: Id): seq<WireEvent> {
    [Connected(j), ConnectResumes(j, true, Some(Payload(p, p, p))), OnlineResumes(j, true)]
  }

  /** A new socket of a player who has none is registered and watched, and nothing else changes. */
  function Entered(w: World, j: Socket, p: Id): World {
    var g, net := w.hub.gw, w.hub.net;
    w.(hub := w.hub.(
         gw := g.(contexts := g.contexts[j := Context(p, p, p, None, None)],
                  sockets := g.sockets + [j],
                  socketsByPlayer := g.socketsByPlayer[p := j]),
         net := net.(known := net.known + {j}, open := net.open + {j}, watched := net.watched + {j})))
  }

  lemma Enters(cfg: Config, w: World, j: Socket, p: Id, k: Socket, room: RoomId)
    requires WorldInv(w) && j !in w.hub.net.known && p !in w.hub.gw.socketsByPlayer
    ensures RunWorld(cfg, w, EnterEvents(j, p)) == Entered(w, j, p) && WorldInv(Entered(w, j, p))
    ensures ListensTo(w.hub, k, room) ==>
              ListensThroughout(cfg, w, EnterEvents(j, p), k, room) && ListensTo(Entered(w, j, p).hub, k, room)
                  && j != k
  {
    hide Next, TasksReady, SocketsMatch, TokensCurrent, SpentSoundly, OneListenerEach, RunWorld, ListensThroughout,
         ListensTo, Entered;
    var e1, e2, e3 := Connected(j), ConnectResumes(j, true, Some(Payload(p, p, p))), OnlineResumes(j, true);
    EnterSteps(cfg, w, j, p, k, room);
    NoEvents(cfg, w, k, room);
    assert [] + [e1] == [e1] && [e1] + [e2] == [e1, e2] && [e1, e2] + [e3] == EnterEvents(j, p);
    OneMore(cfg, w, [], e1, k, room);
    OneMore(cfg, w, [e1], e2, k, room);
    OneMore(cfg, w, [e1, e2], e3, k, room);
  }

  lemma EnterSteps(cfg: Config, w: World, j: Socket, p: Id, k: Socket, room: RoomId)
    requires WorldInv(w) && j !in w.hub.net.known && p !in w.hub.gw.socketsByPlayer
    ensures var e1, e2, e3 := Connected(j), ConnectResumes(j, true, Some(Payload(p, p, p))), OnlineResumes(j, true);
            && Enabled(w, e1) && WorldInv(Next(cfg, w, e1))
            && var w1 := Next(cfg, w, e1);
               && Enabled(w1, e2) && WorldInv(Next(cfg, w1, e2))
               && var w2 := Next(cfg, w1, e2);
                  && Enabled(w2, e3) && WorldInv(Next(cfg, w2, e3)) && Next(cfg, w2, e3) == Entered(w, j, p)
                  && (ListensTo(w.hub, k, room) ==>
                        && j != k && ListensTo(w1.hub, k, room) && ListensTo(w2.hub, k, room)
                        && ListensTo(Entered(w, j, p).hub, k, room))
  {
    hide TasksReady, SocketsMatch, TokensCurrent, SpentSoundly, OneListenerEach, Next, Enabled, ListensTo;
    FirstStep(cfg, w, j, k, room);
    var w1 := Next(cfg, w, Connected(j));
    SecondStep(cfg, w, w1, j, p, k, room);
    ThirdStep(cfg, w, Next(cfg, w1, ConnectResumes(j, true, Some(Payload(p, p, p)))), j, p, k, room);
  }

  lemma FirstStep(cfg: Config, w: World, j: Socket, k: Socket, room: RoomId)
    requires WorldInv(w) && j !in w.hub.net.known
    ensures Enabled(w, Connected(j)) && WorldInv(Next(cfg, w, Connected(j)))
    ensures Next(cfg, w, Connected(j)) ==
            World(w.hub.(net := w.hub.net.(known := w.hub.net.known + {j}, open := w.hub.net.open + {j})),
                  w.tasks + multiset{AwaitConnect(j)})
    ensures j !in w.hub.gw.contexts && j !in w.hub.gw.sockets
    ensures ListensTo(w.hub, k, room) ==> j != k && ListensTo(Next(cfg, w, Connected(j)).hub, k, room)
  {
    hide Inv, TokensCurrent, SpentSoundly, OneListenerEach;
    NextKeeps(cfg, w, Connected(j));
  }

  lemma SecondStep(cfg: Config, w: World, w1: World, j: Socket, p: Id, k: Socket, room: RoomId)
    requires WorldInv(w1) && p !in w.hub.gw.socketsByPlayer && j !in w.hub.gw.contexts && j !in w.hub.gw.sockets
    requires w1 == World(w.hub.(net := w.hub.net.(known := w.hub.net.known + {j}, open := w.hub.net.open + {j})),
                         w.tasks + multiset{AwaitConnect(j)})
    ensures var e := ConnectResumes(j, true, Some(Payload(p, p, p)));
            && Enabled(w1, e) && WorldInv(Next(cfg, w1, e))
            && var w2 := Next(cfg, w1, e);
               && w2.hub.gw == Entered(w, j, p).hub.gw && w2.hub.net == w1.hub.net && w2.hub.log == w.hub.log
               && w2.tasks == w.tasks + multiset{AwaitOnline(j)}
               && (ListensTo(w1.hub, k, room) && j != k ==> ListensTo(w2.hub, k, room))
  {
    hide Inv, TokensCurrent, SpentSoundly, OneListenerEach, SocketsMatch;
    NextKeeps(cfg, w1, ConnectResumes(j, true, Some(Payload(p, p, p))));
    assert w1.tasks - multiset{AwaitConnect(j)} == w.tasks;
  }

  lemma ThirdStep(cfg: Config, w: World, w2: World, j: Socket, p: Id, k: Socket, room: RoomId)
    requires WorldInv(w2) && w2.hub.gw == Entered(w, j, p).hub.gw && w2.hub.log == w.hub.log
    requires w2.hub.net == w.hub.net.(known := w.hub.net.known + {j}, open := w.hub.net.open + {j})
    requires w2.tasks == w.tasks + multiset{AwaitOnline(j)}
    ensures var e := OnlineResumes(j, true);
            && Enabled(w2, e) && WorldInv(Next(cfg, w2, e)) && Next(cfg, w2, e) == Entered(w, j, p)
            && (ListensTo(w2.hub, k, room) ==> ListensTo(Entered(w, j, p).hub, k, room))
  {
    hide Inv, TokensCurrent, SpentSoundly, OneListenerEach, SocketsMatch;
    NextKeeps(cfg, w2, OnlineResumes(j, true));
    assert w2.tasks - multiset{AwaitOnline(j)} == w.tasks;
  }

  function AskEvents(j: Socket, r: RoomId): seq<WireEvent> {
    [Arrives(j, JoinSession(r, None)), MessageResumes(j, JoinSession(r, None), true, 0, 0)]
  }

  /** A registered socket's join waits for its room, and only expired tokens have gone. */
  function Asked(w: World, j: Socket, r: RoomId): World {
    World(w.hub.(gw := w.hub.gw.(reconnectTokens := PurgeExpiredReconnectTokens(w.hub.gw.reconnectTokens, 0))),
          w.tasks + multiset{AwaitRoom(j, r)})
  }

  lemma Asks(cfg: Config, w: World, j: Socket, r: RoomId, k: Socket, room: RoomId)
    requires WorldInv(w) && j in w.hub.gw.sockets
    ensures RunWorld(cfg, w, AskEvents(j, r)) == Asked(w, j, r) && WorldInv(Asked(w, j, r))
    ensures ListensTo(w.hub, k, room) ==>
              ListensThroughout(cfg, w, AskEvents(j, r), k, room) && ListensTo(Asked(w, j, r).hub, k, room)
  {
    hide Next, TasksReady, SocketsMatch, TokensCurrent, SpentSoundly, OneListenerEach, RunWorld, ListensThroughout,
         ListensTo, Asked;
    var e1, e2 := Arrives(j, JoinSession(r, None)), MessageResumes(j, JoinSession(r, None), true, 0, 0);
    AskSteps(cfg, w, j, r, k, room);
    NoEvents(cfg, w, k, room);
    assert [] + [e1] == [e1] && [e1] + [e2] == AskEvents(j, r);
    OneMore(cfg, w, [], e1, k, room);
    OneMore(cfg, w, [e1], e2, k, room);
  }

  lemma AskSteps(cfg: Config, w: World, j: Socket, r: RoomId, k: Socket, room: RoomId)
    requires WorldInv(w) && j in w.hub.gw.sockets
    ensures var e1, e2 := Arrives(j, JoinSession(r, None)), MessageResumes(j, JoinSession(r, None), true, 0, 0);
            && Enabled(w, e1) && WorldInv(Next(cfg, w, e1))
            && var w1 := Next(cfg, w, e1);
               && Enabled(w1, e2) && WorldInv(Next(cfg, w1, e2)) && Next(cfg, w1, e2) == Asked(w, j, r)
               && (ListensTo(w.hub, k, room) ==> ListensTo(w1.hub, k, room) && ListensTo(Asked(w, j, r).hub, k, room))
  {
    hide Inv, TokensCurrent, SpentSoundly, OneListenerEach, SocketsMatch, Next;
    var w1 := w.(tasks := w.tasks + multiset{AwaitMessage(j, JoinSession(r, None))});
    JoinArrives(cfg, w, j, r);
    JoinResumes(cfg, w, w1, j, r);
  }

  lemma JoinArrives(cfg: Config, w: World, j: Socket, r: RoomId)
    requires WorldInv(w) && j in w.hub.gw.sockets
    ensures var w1 := w.(tasks := w.tasks + multiset{AwaitMessage(j, JoinSession(r, None))});
            Next(cfg, w, Arrives(j, JoinSession(r, None))) == w1 && WorldInv(w1)
  {
    hide Inv, TokensCurrent, SpentSoundly, OneListenerEach, SocketsMatch;
    NextKeeps(cfg, w, Arrives(j, JoinSession(r, None)));
  }

  lemma JoinResumes(cfg: Config, w: World, w1: World, j: Socket, r: RoomId)
    requires WorldInv(w1) && j in w.hub.gw.contexts
    requires w1 == w.(tasks := w.tasks + multiset{AwaitMessage(j, JoinSession(r, None))})
    ensures var e := MessageResumes(j, JoinSession(r, None), true, 0, 0);
            Enabled(w1, e) && Next(cfg, w1, e) == Asked(w, j, r) && WorldInv(Asked(w, j, r))
  {
    hide Inv, TokensCurrent, SpentSoundly, OneListenerEach, SocketsMatch, PurgeExpiredReconnectTokens;
    assert w1.tasks - multiset{AwaitMessage(j, JoinSession(r, None))} == w.tasks;
    NextKeeps(cfg, w1, MessageResumes(j, JoinSession(r, None), true, 0, 0));
  }

  /** A member's join goes on. */
  lemma MemberJoins(cfg: Config, w: World, k: Socket, room: RoomId, token: Token, now: int)
    requires WorldInv(w) && Enabled(w, RoomResumes(k, room, Some(RoomInfo(true, Waiting)), false, token, now))
    ensures var w' := Next(cfg, w, RoomResumes(k, room, Some(RoomInfo(true, Waiting)), false, token, now));
            && w' == World(AttachJoin(cfg, w.hub, k, room, token, now),
                           Swap(w.tasks, AwaitRoom(k, room), multiset{AwaitJoined(k, room, token)}))
            && room in w'.hub.gw.sessions && WorldInv(w')
            && w'.hub.log.issued.Keys == w.hub.log.issued.Keys + {token}
            && w'.hub.net == w.hub.net && w'.hub.gw.sockets == w.hub.gw.sockets
            && k in w'.hub.gw.contexts && w'.hub.gw.contexts[k].roomId == Some(room)
  {
    hide AddPlayer, Inv, SocketsMatch, TokensCurrent, SpentSoundly, OneListenerEach;
    NextKeeps(cfg, w, RoomResumes(k, room, Some(RoomInfo(true, Waiting)), false, token, now));
  }

  lemma AddedIsIn(cfg: Config, s: Session, id: Id, username: string, now: int)
    ensures AddPlayer(cfg, s, id, username, now).players.entries.Keys == s.players.entries.Keys + {id}
  {
    hide CreateRuntimePlayer;
  }

  /** What an attachment changes: the room's session has the player, its socket is in the room, and
      other sessions and contexts are as they were. */
  lemma AttachIs(cfg: Config, h: Hub, j: Socket, r: RoomId, token: Token, now: int)
    requires j in h.gw.contexts
    ensures var h' := AttachJoin(cfg, h, j, r, token, now);
            && h'.net == h.net && h'.gw.sockets == h.gw.sockets && h'.gw.socketsByPlayer == h.gw.socketsByPlayer
            && h'.log.issued.Keys == h.log.issued.Keys + {token}
            && r in h'.gw.sessions
            && h'.gw.sessions[r].players.entries.Keys ==
               (if r in h.gw.sessions then h.gw.sessions[r].players.entries.Keys else {}) + {h.gw.contexts[j].playerId}
            && (forall q :: q != r ==> (q in h'.gw.sessions <==> q in h.gw.sessions))
            && (forall q :: q != r && q in h.gw.sessions ==> h'.gw.sessions[q] == h.gw.sessions[q])
            && h'.gw.contexts.Keys == h.gw.contexts.Keys && h'.gw.contexts[j].roomId == Some(r)
            && h'.gw.contexts[j].playerId == h.gw.contexts[j].playerId
            && (forall i :: i != j && i in h.gw.contexts ==> h'.gw.contexts[i] == h.gw.contexts[i])
  {
    hide AddPlayer;
    var ctx := h.gw.contexts[j];
    AddedIsIn(cfg, SessionOf(h.gw, r), ctx.playerId, ctx.username, now);
  }

  function Found(j: Socket, r: RoomId, token: Token, now: int): WireEvent {
    RoomResumes(j, r, Some(RoomInfo(true, Waiting)), false, token, now)
  }

  /** A lookup that finds the player a member. */
  lemma FoundIs(cfg: Config, w: World, j: Socket, r: RoomId, token: Token, now: int)
    requires WorldInv(w) && AwaitRoom(j, r) in w.tasks && token !in w.hub.log.issued
    ensures Enabled(w, Found(j, r, token, now)) && j in w.hub.gw.contexts
    ensures var w' := Next(cfg, w, Found(j, r, token, now));
            var g, g' := w.hub.gw, w'.hub.gw;
            && WorldInv(w') && w'.hub.net == w.hub.net && g'.sockets == g.sockets
               && g'.socketsByPlayer == g.socketsByPlayer
            && w'.hub.log.issued.Keys == w.hub.log.issued.Keys + {token}
            && g'.sessions.Keys == g.sessions.Keys + {r}
            && g'.sessions[r].players.entries.Keys ==
               (if r in g.sessions then g.sessions[r].players.entries.Keys else {}) + {g.contexts[j].playerId}
            && (forall q :: q != r && q in g.sessions ==> g'.sessions[q] == g.sessions[q])
            && g'.contexts.Keys == g.contexts.Keys && g'.contexts[j].roomId == Some(r)
               && g'.contexts[j].playerId == g.contexts[j].playerId
            && (forall i :: i != j && i in g.contexts ==> g'.contexts[i] == g.contexts[i])
            && AwaitJoined(j, r, token) in w'.tasks
               && (forall t :: t in w.tasks && t != AwaitRoom(j, r) ==> t in w'.tasks)
  {
    hide Next, Inv, SocketsMatch, TokensCurrent, SpentSoundly, OneListenerEach, AttachJoin;
    MemberJoins(cfg, w, j, r, token, now);
    AttachIs(cfg, w.hub, j, r, token, now);
  }

  // ---------- one stray join is enough ----------

  /** When that snapshot comes the client holds the other room's state: it then follows its own
      room exactly when that state happens to track it, and not if the other room has a player
      whom its own has not. */
  lemma StrayJoinMisleads(cfg: Config, w: World, k: Socket, room: RoomId, other: RoomId, token: Token, early: bool,
      now: int)
    requires WorldInv(w) && ListensTo(w.hub, k, room) && room in w.hub.gw.sessions
    requires other != room && Enabled(w, JoinedResumes(k, other, token, true, early, now))
    ensures var h := Next(cfg, w, JoinedResumes(k, other, token, true, early, now)).hub;
            && ListensTo(h, k, room)
            && MirrorFrom(InboxOf(h.net, k)) == MirrorOf(View(w.hub.gw.sessions[other].players.entries))
            && (Follows(h, k, room) <==>
                  Tracks(Watch(w.hub.gw.sessions[room], MirrorOf(View(w.hub.gw.sessions[other].players.entries)), {})))
            && (!(w.hub.gw.sessions[other].players.entries.Keys <= w.hub.gw.sessions[room].players.entries.Keys) ==>
                  !Follows(h, k, room))
  {
    hide SocketsMatch, TokensCurrent, SpentSoundly, OneListenerEach, MotionAgrees, AllInWorld, FinishJoin, InboxOf;
    FinishInbox(w.hub, k, other, token, now);
    FinishOnlyNet(w.hub, k, other, token, now);
    FinishOpen(w.hub, k, other, token, now);
  }

  lemma FinishOpen(h: Hub, k: Socket, room: RoomId, token: Token, now: int)
    requires k in h.gw.contexts && room in h.gw.sessions && Inv(h.gw.sessions[room])
    ensures FinishJoin(h, k, room, token, now).net.open == h.net.open
  {
    hide BuildFullSnapshot;
  }

  lemma {:induction false} FreshNumber(used: set<nat>) returns (n: nat)
    ensures forall x :: x in used ==> x < n
    decreases |used|
  {
    if used == {} {
      n := 0;
    } else {
      var x :| x in used;
      var m := FreshNumber(used - {x});
      n := if x < m then m else x + 1;
      forall y | y in used
        ensures y < n
      {
        assert y == x || y in used - {x};
      }
    }
  }

  lemma {:induction false} FreshId(used: set<Id>) returns (p: Id)
    ensures forall q :: q in used ==> |q| < |p|
    decreases |used|
  {
    if used == {} {
      p := "";
    } else {
      var q :| q in used;
      var r := FreshId(used - {q});
      p := if |q| < |r| then r else q + "x";
      forall y | y in used
        ensures |y| < |p|
      {
        assert y == q || y in used - {q};
      }
    }
  }

  /** A newcomer who joins the other room in the meantime: from any world, with the stray join still
      waiting and the client listening throughout. */
  lemma NewcomerJoins(cfg: Config, w: World, k: Socket, room: RoomId, other: RoomId, t: Task, j: Socket, p: Id,
      u: Token)
    requires WorldInv(w) && ListensTo(w.hub, k, room) && room in w.hub.gw.sessions && other != room
    requires t in w.tasks && j !in w.hub.net.known && p !in w.hub.gw.socketsByPlayer && u !in w.hub.log.issued
    requires t.AwaitJoined?
    ensures var es := EnterEvents(j, p) + AskEvents(j, other) + [Found(j, other, u, 0)];
            && ListensThroughout(cfg, w, es, k, room)
            && var w' := RunWorld(cfg, w, es);
               && ListensTo(w'.hub, k, room) && t in w'.tasks
               && room in w'.hub.gw.sessions && w'.hub.gw.sessions[room] == w.hub.gw.sessions[room]
               && other in w'.hub.gw.sessions && p in w'.hub.gw.sessions[other].players.entries
  {
    hide Next, TasksReady, SocketsMatch, TokensCurrent, SpentSoundly, OneListenerEach, RunWorld, ListensThroughout,
         Found, Enabled;
    var e := Found(j, other, u, 0);
    var w1 := Entered(w, j, p);
    var w2 := Asked(w1, j, other);
    Enters(cfg, w, j, p, k, room);
    Asks(cfg, w1, j, other, k, room);
    ThenListens(cfg, w, EnterEvents(j, p), AskEvents(j, other), k, room);
    FoundIs(cfg, w2, j, other, u, 0);
    OneMore(cfg, w, EnterEvents(j, p) + AskEvents(j, other), e, k, room);
  }

  /** From any world with a stray join waiting there is a run through which the client listens and at
      whose end it does not follow. */
  lemma StrayJoinCanMislead(cfg: Config, w: World, k: Socket, room: RoomId)
    requires WorldInv(w) && ListensTo(w.hub, k, room) && Follows(w.hub, k, room) && !NoStrayJoin(w, k, room)
    ensures exists es :: ListensThroughout(cfg, w, es, k, room) && !Follows(RunWorld(cfg, w, es).hub, k, room)
  {
    hide Next, TasksReady, SocketsMatch, TokensCurrent, SpentSoundly, OneListenerEach, RunWorld, ListensThroughout,
         ListensTo, Tracks;
    var t :| t in w.tasks && t.AwaitJoined? && t.k == k && t.roomId != room;
    var j := FreshNumber(w.hub.net.known);
    var p := FreshId(w.hub.gw.socketsByPlayer.Keys + w.hub.gw.sessions[room].players.entries.Keys);
    var u := FreshNumber(w.hub.log.issued.Keys);
    NewcomerJoins(cfg, w, k, room, t.roomId, t, j, p, u);
    var es := EnterEvents(j, p) + AskEvents(j, t.roomId) + [Found(j, t.roomId, u, 0)];
    var e := JoinedResumes(k, t.roomId, t.token, true, false, 0);
    StrayJoinMisleads(cfg, RunWorld(cfg, w, es), k, room, t.roomId, t.token, false, 0);
    OneMore(cfg, w, es, e, k, room);
  }

  /** A client that follows its room goes on following through every run in which its socket keeps
      listening exactly when no join of its own to another room is still to be answered. */
  lemma FollowsExactlyWhen(cfg: Config, w: World, k: Socket, room: RoomId)
    requires WorldInv(w) && ListensTo(w.hub, k, room) && Follows(w.hub, k, room)
    ensures (forall es :: ListensThroughout(cfg, w, es, k, room) ==> Follows(RunWorld(cfg, w, es).hub, k, room))
            <==> NoStrayJoin(w, k, room)
  {
    hide WorldInv, ListensTo, Follows, NoStrayJoin, RunWorld, ListensThroughout;
    if NoStrayJoin(w, k, room) {
      forall es | ListensThroughout(cfg, w, es, k, room)
        ensures Follows(RunWorld(cfg, w, es).hub, k, room)
      {
        FollowsThroughout(cfg, w, es, k, room);
      }
    } else {
      StrayJoinCanMislead(cfg, w, k, room);
    }
  }

  // ---------- a run that fails ----------

  function Answered(j: Socket, r: RoomId, token: Token): WireEvent {
    JoinedResumes(j, r, token, true, false, 0)
  }

  lemma Answers(cfg: Config, w: World, j: Socket, r: RoomId, token: Token)
    requires WorldInv(w) && AwaitJoined(j, r, token) in w.tasks
    ensures Enabled(w, Answered(j, r, token))
    ensures var w' := Next(cfg, w, Answered(j, r, token));
            && WorldInv(w') && w'.hub.gw == w.hub.gw && w'.hub.log == w.hub.log
            && w'.hub.net.known == w.hub.net.known && w'.hub.net.open == w.hub.net.open
            && w'.tasks == w.tasks - multiset{AwaitJoined(j, r, token)}
  {
    hide MotionAgrees, AllInWorld, TokensCurrent, SpentSoundly, OneListenerEach, SocketsMatch, FinishJoin;
    NextKeeps(cfg, w, Answered(j, r, token));
    FinishOnlyNet(w.hub, j, r, token, 0);
    FinishOpen(w.hub, j, r, token, 0);
  }

  /** Two players connect, and the second joins the first room. */
  function Opening(a: RoomId): seq<WireEvent> {
    EnterEvents(0, "ann") + EnterEvents(1, "ben") + AskEvents(1, a) + [Found(1, a, 0, 0)] + [Answered(1, a, 0)]
  }

  /** The first player is connected and in no room; the second is alone in the first room. */
  ghost predicate Opened(w: World, a: RoomId) {
    && WorldInv(w)
    && 0 in w.hub.gw.sockets && 0 in w.hub.gw.contexts && w.hub.gw.contexts[0].playerId == "ann" && 0 in w.hub.net.open
    && w.hub.log.issued.Keys == {0}
    && w.hub.gw.sessions.Keys == {a} && w.hub.gw.sessions[a].players.entries.Keys == {"ben"}
  }

  function BothEntered(): World {
    Entered(Entered(NEW_WORLD, 0, "ann"), 1, "ben")
  }

  lemma BothEnter(cfg: Config)
    ensures WorldInv(NEW_WORLD) && WorldInv(BothEntered())
    ensures RunWorld(cfg, NEW_WORLD, EnterEvents(0, "ann") + EnterEvents(1, "ben")) == BothEntered()
  {
    hide TasksReady, SocketsMatch, TokensCurrent, SpentSoundly, OneListenerEach, RunWorld, ListensThroughout, ListensTo;
    NewWorldInv();
    Enters(cfg, NEW_WORLD, 0, "ann", 0, "");
    Enters(cfg, Entered(NEW_WORLD, 0, "ann"), 1, "ben", 0, "");
    Then(cfg, NEW_WORLD, EnterEvents(0, "ann"), EnterEvents(1, "ben"));
  }

  /** A player in no room joins one that nobody is in. */
  lemma JoinsEmpty(cfg: Config, w: World, j: Socket, r: RoomId, token: Token)
    requires WorldInv(w) && j in w.hub.gw.sockets && j in w.hub.gw.contexts && token !in w.hub.log.issued
             && r !in w.hub.gw.sessions
    ensures var w' := RunWorld(cfg, w, AskEvents(j, r) + [Found(j, r, token, 0)] + [Answered(j, r, token)]);
            && w'.hub.net.open == w.hub.net.open && w'.hub.gw.sockets == w.hub.gw.sockets
            && w'.hub.log.issued.Keys == w.hub.log.issued.Keys + {token}
            && w'.hub.gw.sessions.Keys == w.hub.gw.sessions.Keys + {r}
            && w'.hub.gw.sessions[r].players.entries.Keys == {w.hub.gw.contexts[j].playerId}
            && w'.hub.gw.contexts.Keys == w.hub.gw.contexts.Keys
            && (forall i :: i != j && i in w.hub.gw.contexts ==> w'.hub.gw.contexts[i] == w.hub.gw.contexts[i])
  {
    hide Next, TasksReady, SocketsMatch, TokensCurrent, SpentSoundly, OneListenerEach, RunWorld, ListensThroughout,
         ListensTo, Found;
    var asked := Asked(w, j, r);
    Asks(cfg, w, j, r, j, r);
    FoundIs(cfg, asked, j, r, token, 0);
    OneMore(cfg, w, AskEvents(j, r), Found(j, r, token, 0), j, r);
    var found := Next(cfg, asked, Found(j, r, token, 0));
    Answers(cfg, found, j, r, token);
    OneMore(cfg, w, AskEvents(j, r) + [Found(j, r, token, 0)], Answered(j, r, token), j, r);
  }

  lemma OpeningOpens(cfg: Config, a: RoomId)
    ensures WorldInv(NEW_WORLD) && Opened(RunWorld(cfg, NEW_WORLD, Opening(a)), a)
  {
    hide TasksReady, SocketsMatch, TokensCurrent, SpentSoundly, OneListenerEach, RunWorld, EnterEvents, AskEvents;
    BothEnter(cfg);
    var joins := AskEvents(1, a) + [Found(1, a, 0, 0)] + [Answered(1, a, 0)];
    JoinsEmpty(cfg, BothEntered(), 1, a, 0);
    Then(cfg, NEW_WORLD, EnterEvents(0, "ann") + EnterEvents(1, "ben"), joins);
    assert Opening(a) == EnterEvents(0, "ann") + EnterEvents(1, "ben") + joins;
  }

  /** The first player asks for both rooms at once, is found a member of the first and then of the
      second, and is answered for the second. */
  function Crossing(a: RoomId, b: RoomId): seq<WireEvent> {
    AskEvents(0, a) + AskEvents(0, b) + [Found(0, a, 1, 0), Found(0, b, 2, 0)] + [Answered(0, b, 2)]
  }

  /** One client's two lookups find it a member of two rooms. */
  lemma BothAttach(cfg: Config, w: World, mid: World, k: Socket, a: RoomId, b: RoomId, t: Token, u: Token, now: int)
    requires WorldInv(w) && a != b && t != u && t !in w.hub.log.issued && u !in w.hub.log.issued
    requires AwaitRoom(k, a) in w.tasks && AwaitRoom(k, b) in w.tasks && k in w.hub.gw.contexts
    ensures Enabled(w, Found(k, a, t, now))
    ensures mid == Next(cfg, w, Found(k, a, t, now)) ==>
              && WorldInv(mid) && Enabled(mid, Found(k, b, u, now))
              && var g, end := w.hub.gw, Next(cfg, mid, Found(k, b, u, now));
                 && end.hub.net == w.hub.net && end.hub.gw.sockets == g.sockets
                 && k in end.hub.gw.contexts && end.hub.gw.contexts[k].roomId == Some(b)
                 && AwaitJoined(k, a, t) in end.tasks && AwaitJoined(k, b, u) in end.tasks
                 && a in end.hub.gw.sessions && b in end.hub.gw.sessions
                 && end.hub.gw.sessions[a].players.entries.Keys ==
                    (if a in g.sessions then g.sessions[a].players.entries.Keys else {}) + {g.contexts[k].playerId}
                 && end.hub.gw.sessions[b].players.entries.Keys ==
                    (if b in g.sessions then g.sessions[b].players.entries.Keys else {}) + {g.contexts[k].playerId}
  {
    hide Next, TasksReady, SocketsMatch, TokensCurrent, SpentSoundly, OneListenerEach, Found, Enabled;
    FoundIs(cfg, w, k, a, t, now);
    if mid == Next(cfg, w, Found(k, a, t, now)) {
      FoundIs(cfg, mid, k, b, u, now);
    }
  }

  /** A client that sent two joins before either was answered can be put in the second room while
      the first join has still to send its snapshot. */
  lemma JoinsCross(cfg: Config, w: World, k: Socket, a: RoomId, b: RoomId, t: Token, u: Token, now: int)
    requires WorldInv(w) && a != b && t != u && t !in w.hub.log.issued && u !in w.hub.log.issued
    requires AwaitRoom(k, a) in w.tasks && AwaitRoom(k, b) in w.tasks
    requires k in w.hub.gw.sockets && k in w.hub.net.open
    ensures var es := [Found(k, a, t, now), Found(k, b, u, now)];
            var g, end := w.hub.gw, RunWorld(cfg, w, es);
            && ListensTo(end.hub, k, b) && AwaitJoined(k, a, t) in end.tasks && AwaitJoined(k, b, u) in end.tasks
            && !NoStrayJoin(end, k, b)
            && a in end.hub.gw.sessions && b in end.hub.gw.sessions && k in g.contexts
            && end.hub.gw.sessions[a].players.entries.Keys ==
               (if a in g.sessions then g.sessions[a].players.entries.Keys else {}) + {g.contexts[k].playerId}
            && end.hub.gw.sessions[b].players.entries.Keys ==
               (if b in g.sessions then g.sessions[b].players.entries.Keys else {}) + {g.contexts[k].playerId}
  {
    hide Next, TokensCurrent, SpentSoundly, OneListenerEach, SocketsMatch, RunWorld, ListensThroughout, Found, Enabled,
         Inv;
    var e, f := Found(k, a, t, now), Found(k, b, u, now);
    FoundIs(cfg, w, k, a, t, now);
    BothAttach(cfg, w, Next(cfg, w, e), k, a, b, t, u, now);
    NoEvents(cfg, w, k, b);
    assert [] + [e] == [e] && [e] + [f] == [e, f];
    OneMore(cfg, w, [], e, k, b);
    OneMore(cfg, w, [e], f, k, b);
    assert AwaitJoined(k, a, t) in RunWorld(cfg, w, [e, f]).tasks;
  }

  lemma BothFound(cfg: Config, w: World, a: RoomId, b: RoomId)
    requires Opened(w, a) && a != b
    ensures var w' := RunWorld(cfg, w, AskEvents(0, a) + AskEvents(0, b) + [Found(0, a, 1, 0), Found(0, b, 2, 0)]);
            && ListensTo(w'.hub, 0, b) && AwaitJoined(0, a, 1) in w'.tasks && AwaitJoined(0, b, 2) in w'.tasks
            && a in w'.hub.gw.sessions && "ben" in w'.hub.gw.sessions[a].players.entries
            && b in w'.hub.gw.sessions && "ben" !in w'.hub.gw.sessions[b].players.entries
  {
    hide Next, TasksReady, SocketsMatch, TokensCurrent, SpentSoundly, OneListenerEach, RunWorld, Found, ListensTo,
         ListensThroughout;
    var w1, w2 := Asked(w, 0, a), Asked(Asked(w, 0, a), 0, b);
    Asks(cfg, w, 0, a, 0, b);
    Asks(cfg, w1, 0, b, 0, b);
    var es := AskEvents(0, a) + AskEvents(0, b);
    Then(cfg, w, AskEvents(0, a), AskEvents(0, b));
    JoinsCross(cfg, w2, 0, a, b, 1, 2, 0);
    Then(cfg, w, es, [Found(0, a, 1, 0), Found(0, b, 2, 0)]);
  }

  lemma CrossingCrosses(cfg: Config, w: World, a: RoomId, b: RoomId)
    requires Opened(w, a) && a != b
    ensures var w' := RunWorld(cfg, w, Crossing(a, b));
            && ListensTo(w'.hub, 0, b) && Follows(w'.hub, 0, b) && AwaitJoined(0, a, 1) in w'.tasks
            && a in w'.hub.gw.sessions && "ben" in w'.hub.gw.sessions[a].players.entries
            && "ben" !in w'.hub.gw.sessions[b].players.entries
  {
    hide Next, TasksReady, SocketsMatch, TokensCurrent, SpentSoundly, OneListenerEach, RunWorld, ListensThroughout,
         Follows;
    BothFound(cfg, w, a, b);
    var es := AskEvents(0, a) + AskEvents(0, b) + [Found(0, a, 1, 0), Found(0, b, 2, 0)];
    var mid := RunWorld(cfg, w, es);
    Answers(cfg, mid, 0, b, 2);
    AnswerFollows(cfg, mid, 0, b, 2);
    OneMore(cfg, w, es, Answered(0, b, 2), 0, b);
  }

  lemma AnswerFollows(cfg: Config, w: World, k: Socket, room: RoomId, token: Token)
    requires WorldInv(w) && AwaitJoined(k, room, token) in w.tasks && ListensTo(w.hub, k, room)
    ensures Enabled(w, Answered(k, room, token)) && Follows(Next(cfg, w, Answered(k, room, token)).hub, k, room)
  {
    hide MotionAgrees, AllInWorld, TokensCurrent, SpentSoundly, OneListenerEach, SocketsMatch, FinishJoin, Follows,
         ListensTo;
    FinishFollows(w.hub, k, room, token, 0);
  }

  /** A run from the start: the first player, who left the first room for the second between the two
      lookups, follows the second room until the answer to the first join comes, and then holds the
      second player, who is not there. */
  lemma CrossedJoinsMislead(cfg: Config, a: RoomId, b: RoomId)
    requires a != b
    ensures WorldInv(NEW_WORLD)
    ensures var es := Opening(a) + Crossing(a, b);
            var before, after := RunWorld(cfg, NEW_WORLD, es), RunWorld(cfg, NEW_WORLD, es + [Answered(0, a, 1)]);
            && ListensTo(before.hub, 0, b) && Follows(before.hub, 0, b)
            && ListensTo(after.hub, 0, b) && !Follows(after.hub, 0, b)
            && "ben" in MirrorFrom(InboxOf(after.hub.net, 0))
            && b in after.hub.gw.sessions && "ben" !in after.hub.gw.sessions[b].players.entries
  {
    hide Next, TasksReady, SocketsMatch, TokensCurrent, SpentSoundly, OneListenerEach, RunWorld, ListensThroughout,
         ListensTo, Opening, Crossing, Tracks, InboxOf, MirrorFrom;
    OpeningOpens(cfg, a);
    var w := RunWorld(cfg, NEW_WORLD, Opening(a));
    CrossingCrosses(cfg, w, a, b);
    Then(cfg, NEW_WORLD, Opening(a), Crossing(a, b));
    var before := RunWorld(cfg, w, Crossing(a, b));
    Answers(cfg, before, 0, a, 1);
    StrayJoinMisleads(cfg, before, 0, b, a, 1, false, 0);
    OneMore(cfg, NEW_WORLD, Opening(a) + Crossing(a, b), Answered(0, a, 1), 0, b);
  }

  // ---------- and how long it lasts ----------

  /** Whatever the client holds, the next full tick of its room makes it follow again. */
  lemma FullTickRepairs(cfg: Config, h: Hub, room: RoomId, now: int, k: Socket)
    requires room in h.gw.sessions && Inv(h.gw.sessions[room]) && ListenersOf(h.gw, room) == 1
    requires ListensTo(h, k, room)
    requires (h.gw.sessions[room].tick + 1) % 20 == 0 || h.gw.sessions[room].previous.keys == []
    ensures Follows(TickRoom(cfg, h, room, now), k, room)
  {
    hide Step, InboxOf, TickRoom, MotionAgrees, AllInWorld, Tracks, Exact, ListensTo, ListenersOf, Messages, ReceiveAll;
    var s, mirror := h.gw.sessions[room], MirrorFrom(InboxOf(h.net, k));
    var messages := Messages(Step(cfg, s, TickOp(now)).events);
    TickRoomInbox(cfg, h, room, now, k);
    TickRoomOnlySession(cfg, h, room, now);
    AppendWrapped(InboxOf(h.net, k), messages);
    var heard := Hear(cfg, Watch(s, mirror, {}), TickOp(now));
    TickHeard(cfg, Watch(s, mirror, {}), now);
    TickKeepsExact(cfg, Watch(s, mirror, {}), now);
    ExactTracks(heard);
    assert heard == Watch(Step(cfg, s, TickOp(now)).session, ReceiveAll(mirror, messages), {});
  }
}
