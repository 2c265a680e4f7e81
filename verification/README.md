# Verified model of the game server core

A Dafny model of an authoritative multiplayer game server: the tick loop of a game session and the
delta messages that replicate it, the movement check, the WebSocket gateway, refresh-token rotation,
the rate limiter and the lobby. `dafny verify dfyconfig.toml` checks the whole project.

Code that changes state in the original is a class here, and each of its methods is proved to do to
the whole state exactly what a function on values says (`Model() == F(old(Model()))`). What the
system promises is then proved about those functions, over every run of operations or every
interleaving of suspended stretches.

| file | models |
|---|---|
| `OrderedMaps.dfy` | maps that remember insertion order |
| `Vectors.dfy`, `AntiCheat.dfy` | vectors, the clamp, and the check every movement input passes |
| `Snapshots.dfy` | snapshots, the delta between two of them, and the client that applies one |
| `Sessions.dfy`, `GameSessions.dfy`, `GameSessionManagers.dfy` | the session as a value, as a mutable object, and the table of sessions |
| `SessionEffects.dfy` | each session operation and tick told in plain fields: who is touched, disconnected, shown |
| `Replication.dfy`, `Presence.dfy` | what listening clients hold, and what one player's presence guarantees, over runs |
| `Gateways.dfy`, `GatewayObjects.dfy` | the gateway's stretches between awaits, as functions and as methods |
| `GatewayRules.dfy` | each stretch told in plain fields: who is let in, what is answered, who hears a tick, over runs too |
| `GatewayInvariants.dfy`, `GatewayGuarantees.dfy`, `Delivery.dfy`, `CrossedJoins.dfy` | what every interleaving keeps and promises, up to the client's mirror, and where a client is misled |
| `RefreshTokens.dfy`, `AuthServices.dfy`, `RefreshRules.dfy`, `RefreshGuarantees.dfy` | token rotation: calls interleaved, calls one at a time, exactly when each succeeds, and what they promise |
| `RateLimits.dfy`, `RateLimiters.dfy` | the fixed-window limiter and its bounds over traces |
| `Lobbies.dfy`, `LobbyServices.dfy`, `LobbyGuarantees.dfy` | rooms, hosts, capacity and status |

How the model reads the system:

- Numbers are reals, and a square root is a number handed to the model with the fact that its square
  is what stands under it (`IsMagnitude`); roots are unique, so nothing is lost (`RootsDoNotMatter`).
  The spawn angle repeats every eight players, so its cosines and sines are a table of eight points
  on the unit circle.
- Clocks, random codes, new tokens, hashes and the upper-casing of room codes are parameters; a token
  handed out is one never handed out before, and different tokens have different hashes.
- The client is not part of the repository. It is read off the message types: a snapshot replaces
  what it holds, a delta drops the removed ids and merges each patch.
- A JavaScript map is a sequence of keys with a map, because iteration follows insertion.
- The gateway is single-threaded between awaits. A world is the gateway together with the stretches
  that wait to be resumed; every event that may happen next may happen, in any order. An await that
  fails while early frames are replayed is answered and ends the connection. One that fails later is
  awaited by nobody, and on the Node version the repository asks for that ends the process; the model
  passes it over, so its runs include those of a process that ends there.
- A refresh, a login or a logout is cut at each of its repository calls, and any of them may fail.
- A counter in the limiter's store may outlive its expiry by `lag`; the bounds hold for every lag.

The functions that the methods are proved against are in turn pinned by laws that name none of them:
`AntiCheat.AcceptedMovesAlong`, `SessionEffects`, `GatewayRules`, `RefreshRules`, `RateLimits.VerdictIs`
and the `...ExactlyWhen` and `...FailsBecause` lemmas of the lobby speak of plain fields and literal
numbers, so that a method and its function cannot be wrong together.

What turned out not to hold, and what does instead:

- After a logout everywhere, or detected reuse, a user can still come to hold an active token without
  signing in again. This happens exactly when a refresh that had already won its token, or a sign-in,
  was still in flight (`RevocationLastsExactlyWhen`, `LogoutAllCanBeOutlived`). With one call at a time
  the revocation lasts (`ReuseEndsEverySession`).
- A client that sends two joins before either is answered can be put in the second room and then be
  sent the state of the first. A following client goes on following through every run in which its
  socket listens exactly when no join of its own to another room is still to be answered
  (`FollowsExactlyWhen`). `CrossedJoinsMislead` gives a run from the start that ends with the client
  holding a player who is not in its room. The lobby allows one open room per player, so the two room
  lookups answer "member" at different times, with a leave and a join between them. The next full
  tick of the room puts the client right (`FullTickRepairs`).
- A delta does not carry usernames. The delta round trip holds exactly when no player known to both
  sides has changed username (`DeltaRoundTrip`), and no session ever changes one.
- The limiter never allows 2 * limit calls in one window's length: the exact worst case is one fewer.
- The `removed` list of a delta is always empty, and the answer `position_cheat` is never given.

## Model

| member | source | states |
|---|---|---|
| Vectors.MagnitudeUnique | src/domain/value-objects/vec3.ts:18-20 | a vector has only one magnitude, so a root given as a witness is the root computed |
| Vectors.ScaleMagnitude | src/domain/value-objects/vec3.ts:18-20 | scaling a vector scales its magnitude |
| Vectors.WithinBoundsDistance | src/domain/value-objects/vec3.ts:11-16 | the root-free bound used in proofs holds exactly when `distance3` is within it |
| Vectors.CauchySchwarz | src/domain/value-objects/vec3.ts:11-20 | the Cauchy-Schwarz inequality for the dot product behind both roots |
| Vectors.Triangle | src/domain/value-objects/vec3.ts:11-16 | the triangle inequality for `distance3` |
| Vectors.ClampIsProjection | src/domain/value-objects/vec3.ts:22-31 | clamping gives the one point of the box nearest to the given point, and leaves points of the box alone |
| Vectors.ClampNonExpansive | src/domain/value-objects/vec3.ts:22-31 | clamping takes no point further from any point of the box |
| AntiCheat.RootsDoNotMatter | src/infrastructure/game/anti-cheat.ts:39-98 | whatever roots the maths library returns, the check answers as the model does |
| AntiCheat.AcceptedExactlyWhen | src/infrastructure/game/anti-cheat.ts:39-98 | acceptance holds exactly for a newer seq, 0 < dt <= 0.25, m <= 1.05 and m * min(1, m) * maxSpeed <= maxSpeed + 0.01; a rejection changes nothing; `position_cheat` is never answered |
| AntiCheat.MovedVelocity | src/infrastructure/game/anti-cheat.ts:57-96 | the velocity given has magnitude m * min(1, m) * maxSpeed and the new position is in the world; its direction is `AcceptedMovesAlong` |
| AntiCheat.AcceptedMovesAlong | src/infrastructure/game/anti-cheat.ts:44-96 | coordinate by coordinate: velocity is min(1, m) * maxSpeed times the move, position is carried along it for dt and kept within the literal bounds, rotation and seq are the input's, every other field stays; acceptance in literal numbers |
| AntiCheat.RejectedBecause | src/infrastructure/game/anti-cheat.ts:44-84 | which of the checks, in order, is the reason for a rejection, in literal numbers; the state comes back as it was |
| AntiCheat.AcceptedStepIsShort | src/infrastructure/game/anti-cheat.ts:68-96 | one accepted input moves a player in the world at most 0.25 * (maxSpeed + 0.01) and leaves them in it |
| AntiCheat.SpawnInsideWorld | src/infrastructure/game/anti-cheat.ts:19-37 | everyone spawns on the circle of radius 5, inside the world |
| AntiCheat.SpawnIs | src/infrastructure/game/anti-cheat.ts:19-37 | the whole record of a newly spawned player, field by field |
| Snapshots.DiffPlayer | src/infrastructure/game/snapshot.ts:39-85 | the patch built field by field is the difference, and it is dirty exactly when it names a field |
| Snapshots.ComputeDelta | src/infrastructure/game/snapshot.ts:18-89 | the two loops compute the changes and the removed ids of the specification, in order |
| Snapshots.ByIdMembers | src/infrastructure/game/snapshot.ts:22 | the map built from the current list holds exactly its players under their ids |
| Snapshots.RemovedMembers | src/infrastructure/game/snapshot.ts:26-30 | `removed` holds exactly the known ids that are not current |
| Snapshots.PatchedByDelta | src/infrastructure/game/snapshot.ts:32-86 | merging a delta into any mirror that covers its base brings every listed player up to date and touches no other |
| Snapshots.DeltaRoundTrip | src/infrastructure/game/snapshot.ts:18-89 | holding the base and applying the delta gives the current players, exactly when no known player's username changed |
| Snapshots.PatchesAreExact | src/infrastructure/game/snapshot.ts:32-86 | every patch is a newcomer in full, or carries precisely the fields that differ with their new values |
| Snapshots.PatchIdsDistinct | src/infrastructure/game/snapshot.ts:32-86 | no player has two patches in one delta |
| Snapshots.DiffIsSmallest | src/infrastructure/game/snapshot.ts:39-85 | any patch that takes a client from one snapshot to the next names every field the computed one names |
| Snapshots.DeltaEmptyExactlyWhen | src/infrastructure/game/snapshot.ts:18-89 | with usernames agreeing, a delta is empty exactly when base and current are equal |
| Sessions.AddPlayerKeeps | src/infrastructure/game/game-session.ts:50-62 | adding a player, new or returning, keeps the session invariant |
| Sessions.RemovePlayerKeeps | src/infrastructure/game/game-session.ts:64-68 | removing a player takes them out of all three maps and keeps the invariant |
| Sessions.LastAcceptedKeeps | src/infrastructure/game/game-session.ts:129-137 | draining a queue against the tick-start record keeps who the player is and keeps them in the world |
| Sessions.AdvanceKeeps | src/infrastructure/game/game-session.ts:121-138 | the first half of a tick keeps players, order and last-sent snapshots, and empties every queue |
| Sessions.NothingRemoved | src/infrastructure/game/game-session.ts:64-68 | what was last sent names only present players, so a delta has nobody to remove |
| Sessions.PublishedPrevious | src/infrastructure/game/game-session.ts:140-167 | whether the tick is full, a delta or silent, it remembers exactly the players as they now are |
| Sessions.TickKeeps | src/infrastructure/game/game-session.ts:117-179 | a tick keeps the invariant, adds one to the tick and remembers what it showed |
| Sessions.StepKeeps | src/infrastructure/game/game-session.ts:50-179 | every operation of a session keeps the invariant |
| SessionEffects.AddPlayerIs | src/infrastructure/game/game-session.ts:50-62 | a returning player is connected with a fresh heartbeat and keeps all else; a new one comes last, as spawned, with an empty queue; nobody else is touched |
| SessionEffects.RemovePlayerIs | src/infrastructure/game/game-session.ts:64-68 | a removed player is in none of the three maps and everyone else is as before |
| SessionEffects.MarkDisconnectedIs | src/infrastructure/game/game-session.ts:70-75 | only `connected` is cleared, the event is emitted once, a stranger changes nothing |
| SessionEffects.EnqueueInputIs | src/infrastructure/game/game-session.ts:77-85 | the input goes to the end of the newest forty; without a queue nothing happens |
| SessionEffects.HeartbeatIs | src/infrastructure/game/game-session.ts:87-92 | only `connected` and the heartbeat time change, to true and now |
| SessionEffects.UpdatePingIs | src/infrastructure/game/game-session.ts:94-98 | only the ping changes: the nearest whole number, halves upwards, never negative |
| SessionEffects.LiveSnapshotIs | src/infrastructure/game/game-session.ts:108-115 | the current tick and everyone as they are now, in the order they were added |
| SessionEffects.ViewShows | src/infrastructure/game/snapshot.ts:4-16 | a snapshot copies every field a client is shown |
| SessionEffects.TickDisconnects | src/infrastructure/game/game-session.ts:122-127 | after a tick a player is connected exactly when they were and now - lastHeartbeatAt <= the timeout; they are announced exactly when they were connected and it is not, and then once; heartbeat, ping and hp stay |
| SessionEffects.LinkOverRuns | src/infrastructure/game/game-session.ts:50-127 | over every run a player who is not removed is connected exactly as their heartbeats, joins, marks and ticks say |
| SessionEffects.StaysConnected | src/infrastructure/game/game-session.ts:87-127 | over every run a connected player who is neither removed nor marked, and is heard of within the timeout at every tick, stays connected |
| SessionEffects.TickSaysExactly | src/infrastructure/game/game-session.ts:140-178 | every twentieth tick, and when nobody was shown before, says everyone in order; any other says nothing when nothing shown changed, and one delta when something did |
| GameSessions.GameSession.AddPlayer | src/infrastructure/game/game-session.ts:50-62 | changes a returning player's record in place, or adds a record and an empty queue, as specified |
| GameSessions.GameSession.RemovePlayer | src/infrastructure/game/game-session.ts:64-68 | deletes the player from all three maps |
| GameSessions.GameSession.MarkDisconnected | src/infrastructure/game/game-session.ts:70-75 | clears `connected` in place and says so, or does nothing for a stranger |
| GameSessions.GameSession.EnqueueInput | src/infrastructure/game/game-session.ts:77-85 | pushes onto a queue bounded at forty, dropping the oldest, and tells whether there was a queue |
| GameSessions.GameSession.Heartbeat | src/infrastructure/game/game-session.ts:87-92 | refreshes the heartbeat and `connected` in place |
| GameSessions.GameSession.UpdatePing | src/infrastructure/game/game-session.ts:94-98 | sets the rounded, non-negative ping in place |
| GameSessions.GameSession.BuildFullSnapshot | src/infrastructure/game/game-session.ts:108-115 | copies every live record, in order, with the current tick |
| GameSessions.GameSession.DrainQueue | src/infrastructure/game/game-session.ts:129-137 | the shift loop ends with the queue empty and the record being the tick-start record moved by its last acceptable input |
| GameSessions.GameSession.Expire | src/infrastructure/game/game-session.ts:122-127 | clears `connected` in place and announces it the first time, as the specified expiry does; whom that is: `SessionEffects.TickDisconnects` |
| GameSessions.GameSession.AdvanceAll | src/infrastructure/game/game-session.ts:121-138 | the loop over players does to the whole session what the specified first half of a tick does; for each player: `SessionEffects.TickDisconnects`, `Presence.TickAppliesTheLastAccepted` |
| GameSessions.GameSession.Publish | src/infrastructure/game/game-session.ts:140-179 | emits a full snapshot, a delta or nothing, and updates the last-sent snapshots, as specified |
| GameSessions.GameSession.Step | src/infrastructure/game/game-session.ts:117-179 | the imperative tick does to the state, and says, what the specified tick does, which `SessionEffects.TickDisconnects`, `SessionEffects.TickSaysExactly` and `Presence.TickAppliesTheLastAccepted` tell in plain fields |
| GameSessionManagers.GameSessionManager.GetOrCreate | src/infrastructure/game/game-session-manager.ts:6-14 | a room's session is the same object at every call; a new one is started and empty; no other session changes |
| GameSessionManagers.GameSessionManager.Get | src/infrastructure/game/game-session-manager.ts:16-18 | the session found carries the room's id and its state, and no other running session has that id; none is found exactly when the room has none |
| GameSessionManagers.GameSessionManager.Destroy | src/infrastructure/game/game-session-manager.ts:20-25 | stops and forgets one session and leaves every other as it is |
| GameSessionManagers.PerformIn | src/infrastructure/websocket/gateway.ts:227-269 | any operation on the session object a room id finds changes that session as specified and no other room's, and does nothing for a room without one |
| GameSessionManagers.Perform | src/infrastructure/game/game-session.ts:50-179 | the same for a session already in hand, with the events it emits, ticks included |
| GameSessionManagers.Admit | src/infrastructure/websocket/gateway.ts:323-324 | a join puts the player in the one session object of the room, and no other session's state changes |
| Replication.TickHeard | src/infrastructure/game/game-session.ts:140-178 | what a listening client holds after a tick, full, delta or silent |
| Replication.RunKeepsExact | src/infrastructure/game/game-session.ts:140-178 | over every run, a client that holds the last-sent snapshots goes on holding them, and otherwise only ids removed since the last full snapshot |
| Replication.MirrorIsLastSent | src/infrastructure/game/game-session.ts:140-178 | from a tick-emitted full snapshot on, over every run without removals, the mirror is exactly `previousSnapshots`, silent ticks included |
| Replication.LiveSnapshotTracks | src/infrastructure/game/game-session.ts:108-115 | the live snapshot, taken at any moment, starts a client that tracks the session |
| Replication.RunKeepsTracking | src/infrastructure/game/game-session.ts:140-178 | a tracking client keeps tracking over every run |
| Replication.LateClientAgrees | src/infrastructure/game/game-session.ts:108-178 | a client that took the live snapshot at any moment agrees with the server after every later tick on everything but `connected` and `ping` |
| Replication.ExactWithinTwentyTicks | src/infrastructure/game/game-session.ts:140-155 | after twenty ticks nothing is stale |
| Replication.LeaversClearedWithinTwentyTicks | src/infrastructure/game/game-session.ts:140-155 | after twenty ticks without a removal the client holds the last-sent snapshots and nobody else, whoever left before |
| Replication.DeltasRemoveNobody | src/infrastructure/game/game-session.ts:157-178 | every delta a session emits removes nobody, says something, and names the tick before as its base |
| Replication.BaseTickIsHeld | src/infrastructure/game/game-session.ts:170-178 | the base tick of a delta is a state the client really holds, however old its last message is |
| Presence.OnlyTheSurvivorMoves | src/infrastructure/game/game-session.ts:129-137 | of a queue the last input acceptable against the tick-start state decides, and no other has any effect |
| Presence.TickAppliesTheLastAccepted | src/infrastructure/game/game-session.ts:121-138 | a tick gives a player the position, velocity, rotation and seq that the movement check gives the last queued input it accepts against the record before the tick, or leaves all four alone |
| Presence.StayOneStep | src/infrastructure/game/game-session.ts:121-138 | a tick applies the survivor to a player, with a strictly newer seq; no other operation moves them or changes their seq |
| Presence.SequenceNeverFalls | src/infrastructure/game/anti-cheat.ts:44-46 | `lastProcessedInputSeq` never decreases while a player stays |
| Presence.SurvivorsRise | src/infrastructure/game/anti-cheat.ts:44-46 | no sequence number decides two ticks of one presence |
| Presence.TravelBound | src/infrastructure/game/anti-cheat.ts:57-96 | a player who stays is in the world, and after n ticks within n * 0.25 * (maxSpeed + 0.01) of where they were, whatever was queued |
| Presence.QueueHoldsNewest | src/infrastructure/game/game-session.ts:77-85 | over every run players and queues have the same keys, and a queue is the newest forty inputs since the last tick or the joining, in order |
| GatewayObjects.WebSocketGateway.ReplaceExistingSocket | src/infrastructure/websocket/gateway.ts:135-141 | closes and unregisters the player's earlier socket, if any |
| GatewayObjects.WebSocketGateway.Register | src/infrastructure/websocket/gateway.ts:101-109 | from the verified token to the first await: replaces, makes the context, fills both tables |
| GatewayObjects.WebSocketGateway.OnClose | src/infrastructure/websocket/gateway.ts:358-369 | unregisters the socket, leaves the player's newer socket alone, and marks the player only if it was registered |
| GatewayObjects.WebSocketGateway.PurgeExpiredReconnectTokens | src/infrastructure/websocket/gateway.ts:157-163 | deleting while walking leaves exactly the entries that have not expired |
| GatewayObjects.WebSocketGateway.BeginJoin | src/infrastructure/websocket/gateway.ts:283-301 | purges, uses up the presented token whether good or not, and goes on exactly when it was good |
| GatewayObjects.WebSocketGateway.RoomLookedUp | src/infrastructure/websocket/gateway.ts:303-344 | after the room lookup: not found, not a member, closed, or attached, as specified; which of them when: `GatewayRules.JoinGoesOnExactlyWhen` |
| GatewayObjects.WebSocketGateway.IssueToken | src/infrastructure/websocket/gateway.ts:333-344 | swaps the context's token in the table and in the context |
| GatewayObjects.WebSocketGateway.FinishJoin | src/infrastructure/websocket/gateway.ts:348-355 | sends the answer and then the live snapshot |
| GatewayObjects.WebSocketGateway.OnInput | src/infrastructure/websocket/gateway.ts:218-243 | queues the input in the player's session and acknowledges it exactly when it was queued |
| GatewayObjects.WebSocketGateway.OnPing | src/infrastructure/websocket/gateway.ts:244-256 | records the clipped round trip in the session, if any, and answers with the client's time and the server's |
| GatewayObjects.WebSocketGateway.OnHeartbeat | src/infrastructure/websocket/gateway.ts:257-261 | refreshes the player's heartbeat in their session, if any |
| GatewayObjects.WebSocketGateway.OnRequestSnapshot | src/infrastructure/websocket/gateway.ts:267-273 | sends the live snapshot of the client's own session, or nothing |
| GatewayObjects.WebSocketGateway.Broadcast | src/infrastructure/websocket/gateway.ts:373-379 | the loop over sockets sends the message once to each registered, open socket in the room, and to no other |
| GatewayRules.RegisterIs | src/infrastructure/websocket/gateway.ts:101-109 | the player's earlier socket is closed and unregistered, the new one is registered in no room, and every other registration stays |
| GatewayRules.ConnectionRefused | src/infrastructure/websocket/gateway.ts:87-133 | a connection over its limit is closed unanswered, one without a good token is answered and closed, and neither is registered |
| GatewayRules.OnlineIs | src/infrastructure/websocket/gateway.ts:109-132 | after the presence call the close of the socket is watched, or the connection is answered and ended |
| GatewayRules.ArriveIs | src/infrastructure/websocket/gateway.ts:165-172 | an unregistered socket's frame does nothing; one too large is refused at once; any other waits for its rate limit |
| GatewayRules.RefusedMessageIs | src/infrastructure/websocket/gateway.ts:174-207 | a message over its limit, or one that is malformed, changes nothing and gets exactly its own error |
| GatewayRules.BeginJoinExactlyWhen | src/infrastructure/websocket/gateway.ts:283-301 | a join with a token goes on exactly when the token is in the table, unexpired, and the player's for that room; good or bad it is used up, and a bad one is answered |
| GatewayRules.JoinGoesOnExactlyWhen | src/infrastructure/websocket/gateway.ts:303-321 | a join goes on exactly when the room was found, the player is a member and it is not closed; otherwise nothing changes but the one answer, forbidden or closed |
| GatewayRules.AttachGivesToken | src/infrastructure/websocket/gateway.ts:323-344 | the player is added to the room's session; the context is put in the room with a new token good for 5 * 60 * 1000 ms in place of its old one; every other session, token and context stays |
| GatewayRules.FinishJoinSends | src/infrastructure/websocket/gateway.ts:348-355 | exactly the joined answer with the session's tick and the token, then the live snapshot, to this socket only |
| GatewayRules.OnInputIs | src/infrastructure/websocket/gateway.ts:218-243 | refused in no room, dropped without a session or a queue, or else queued in that room's session and acknowledged |
| GatewayRules.OnPingIs | src/infrastructure/websocket/gateway.ts:244-256 | always answered with both clocks; the player's ping is the round trip, never negative |
| GatewayRules.OnHeartbeatIs | src/infrastructure/websocket/gateway.ts:257-261 | the player is connected with a fresh heartbeat in the session of their room |
| GatewayRules.OnRequestSnapshotIs | src/infrastructure/websocket/gateway.ts:267-273 | answered with the live state of the client's own room, or not at all |
| GatewayRules.OnCloseIs | src/infrastructure/websocket/gateway.ts:358-369 | the socket is unregistered, the player's entry goes if it is this socket's, and the player is disconnected in the session of their room; nobody else is touched |
| GatewayRules.TickReaches | src/infrastructure/websocket/gateway.ts:373-379 | what a tick says is sent once to every socket that is registered, open and in the room, and to no other |
| GatewayRules.EntersExactlyWhen | src/infrastructure/websocket/gateway.ts:303-324 | after any event a player is in a room's session exactly when they were before or the event was a lookup that found them a member of that room and the room not closed |
| GatewayRules.OnlyMembersAreIn | src/infrastructure/websocket/gateway.ts:303-324 | over every interleaving the players of a room's session are exactly those such a lookup admitted |
| GatewayInvariants.RegisterSockets | src/infrastructure/websocket/gateway.ts:101-109 | registering keeps the two socket tables inverse to one another |
| GatewayInvariants.AttachTokens | src/infrastructure/websocket/gateway.ts:333-344 | issuing a token keeps every token in the table its context's current one |
| GatewayInvariants.AttachListeners | src/infrastructure/websocket/gateway.ts:326-331 | attaching keeps exactly one listener for each room with a session |
| GatewayInvariants.SpendIsSound | src/infrastructure/websocket/gateway.ts:285-300 | an accepted token was issued to that player and room, had not expired and was never accepted before |
| GatewayInvariants.CloseSockets | src/infrastructure/websocket/gateway.ts:358-365 | a close keeps the two socket tables inverse to one another |
| GatewayInvariants.NextKeeps | src/infrastructure/websocket/gateway.ts:77-379 | every event of the interleaved protocol keeps the whole invariant |
| GatewayGuarantees.OneSocketPerPlayer | src/infrastructure/websocket/gateway.ts:101-109 | over every interleaving `sockets` and `socketsByPlayer` are mutually inverse: one registered socket per player |
| GatewayGuarantees.OneListenerPerRoom | src/infrastructure/websocket/gateway.ts:323-331 | over every interleaving a room's session has exactly one broadcast listener |
| GatewayGuarantees.MarkedOnlyByCurrentSocket | src/infrastructure/websocket/gateway.ts:358-369 | a player is marked as disconnected exactly by the close of their current, watched socket while it is in a room |
| GatewayGuarantees.ReplacedStaysOut | src/infrastructure/websocket/gateway.ts:135-141 | a replaced or closed socket is never registered again |
| GatewayGuarantees.ReplacedNeverMarks | src/infrastructure/websocket/gateway.ts:358-369 | over every interleaving a replaced socket's close, however late, marks nobody |
| GatewayGuarantees.TokenAcceptedOnce | src/infrastructure/websocket/gateway.ts:283-301 | over every interleaving of suspended joins a reconnect token is accepted at most once, for its player and room, before expiry |
| GatewayGuarantees.OneTokenPerContext | src/infrastructure/websocket/gateway.ts:333-344 | over every interleaving a context has at most one token in the table, its current one |
| Delivery.BroadcastInbox | src/infrastructure/websocket/gateway.ts:373-379 | with one listener each message reaches a listening socket once and in order, and no other socket |
| Delivery.TickFollows | src/infrastructure/websocket/gateway.ts:328-330 | a tick's broadcast keeps a following client following |
| Delivery.OthersAreSilent | src/infrastructure/websocket/gateway.ts:77-370 | any other event sends a listening client no update but the live state of its own room |
| Delivery.NextFollows | src/infrastructure/websocket/gateway.ts:77-379 | a client that listens goes on following through any one event |
| Delivery.NextIsHeard | src/infrastructure/websocket/gateway.ts:373-379 | one event sends a listening socket exactly what its room's session said in it |
| Delivery.EveryUpdateOnce | src/infrastructure/websocket/gateway.ts:323-379 | while a socket stays registered, open and in a room it is sent every message the session emits exactly once and in order, over every interleaving |
| Delivery.FollowsThroughout | src/infrastructure/websocket/gateway.ts:343-379 | a following client follows for as long as its socket listens |
| Delivery.JoinedClientAgrees | src/infrastructure/websocket/gateway.ts:343-379 | end to end: from its join snapshot on, over every interleaving and with no other join of its own in flight, the client agrees with the server after every tick of its room |
| CrossedJoins.FollowsExactlyWhen | src/infrastructure/websocket/gateway.ts:303-355 | a following client follows through every run in which its socket listens, if and only if no join of its own to another room is still to be answered |
| CrossedJoins.StrayJoinCanMislead | src/infrastructure/websocket/gateway.ts:346-355 | from any world with such a join there is a run through which the client listens and at whose end it does not follow |
| CrossedJoins.CrossedJoinsMislead | src/infrastructure/websocket/gateway.ts:303-355 | a run from the start, for any two rooms: the client follows the second until the first join is answered, and then holds a player who is not in its room |
| CrossedJoins.FullTickRepairs | src/infrastructure/game/game-session.ts:140-155 | whatever a listening client holds, the next full tick of its room makes it follow |
| AuthServices.RefreshTokenRepository.FindByTokenHash | src/infrastructure/database/prisma-refresh-token-repository.ts:38-41 | finds the row with the hash or none |
| AuthServices.RefreshTokenRepository.Create | src/infrastructure/database/prisma-refresh-token-repository.ts:27-36 | adds one active row, or fails when the hash is taken |
| AuthServices.RefreshTokenRepository.Revoke | src/infrastructure/database/prisma-refresh-token-repository.ts:43-48 | stamps one row as revoked and no other |
| AuthServices.RefreshTokenRepository.RevokeIfActive | src/infrastructure/database/prisma-refresh-token-repository.ts:50-56 | the compare-and-set: succeeds exactly on an active row, which is then revoked |
| AuthServices.RefreshTokenRepository.RevokeAllForUser | src/infrastructure/database/prisma-refresh-token-repository.ts:58-63 | revokes the user's active rows and leaves every other row, and earlier stamps, alone |
| AuthServices.AuthService.IssueTokens | src/application/services/auth-service.ts:188-193 | creates the row of a new token |
| AuthServices.AuthService.Refresh | src/application/services/auth-service.ts:127-157 | the ordered checks, the compare-and-set, reuse detection and the new row, as specified; which of them when: `RefreshRules.RefreshIs` and `RefreshSucceedsExactlyWhen` |
| AuthServices.AuthService.Logout | src/application/services/auth-service.ts:159-170 | revokes the user's own active token, refuses another's, ignores an unknown one |
| AuthServices.AuthService.LogoutAll | src/application/services/auth-service.ts:172-174 | revokes all of the user's tokens |
| RefreshRules.RefreshSucceedsExactlyWhen | src/application/services/auth-service.ts:127-157 | a refresh issues a token exactly when a stored row has the presented hash, is the signed user's, active and unexpired, that user has a player, and the new hash is free |
| RefreshRules.RefreshIs | src/application/services/auth-service.ts:127-157 | what a refresh does with each kind of stored token, row by row: unsigned, expired or another's changes nothing, a revoked one revokes all of the user's active rows, an active one is revoked alone and has a successor or not |
| RefreshRules.RefreshOfUnknown | src/application/services/auth-service.ts:127-138 | a token that is not stored is refused and changes nothing |
| RefreshRules.LogoutIs | src/application/services/auth-service.ts:159-170 | the user's own active token alone is revoked; another user's is refused; a revoked one changes nothing |
| RefreshRules.LogoutOfUnknown | src/application/services/auth-service.ts:159-163 | a logout with a token that is not stored changes nothing |
| RefreshRules.LogoutAllIs | src/application/services/auth-service.ts:172-174 | exactly the user's active rows are stamped |
| RefreshRules.IssueIs | src/application/services/auth-service.ts:188-193 | one active row comes last, or nothing changes when the hash is taken |
| RefreshRules.RefreshBeginsExactlyWhen | src/application/services/auth-service.ts:127-142 | with calls interleaved a refresh goes on past its checks exactly for a stored, unexpired token of the signed user |
| RefreshRules.SuccessorsAreOwed | src/application/services/auth-service.ts:127-156 | over every interleaving a token with a predecessor is owed to a refresh that presented that predecessor, signed for its user, no later than its expiry, and one without to a sign-in of its user: an expired token gets no successor |
| RefreshTokens.ResumeKeeps | src/application/services/auth-service.ts:135-157 | every repository call of a suspended refresh, login or logout keeps chains and rotations sound |
| RefreshTokens.RevokeStarts | src/infrastructure/database/prisma-refresh-token-repository.ts:50-56 | whoever wins the compare-and-set is alone in rotating the token |
| RefreshTokens.NextKeeps | src/application/services/auth-service.ts:58-199 | every event of the interleaved protocol keeps the invariant |
| RefreshGuarantees.ChainsNeverBranch | src/application/services/auth-service.ts:144-156 | over every interleaving a token has at most one successor, of the same user, and a token with a successor is revoked |
| RefreshGuarantees.OneLiveTokenPerSignIn | src/application/services/auth-service.ts:144-156 | over every interleaving at most one token of a chain is active or won and not yet replaced |
| RefreshGuarantees.NoMoreLiveTokensThanSignIns | src/application/services/auth-service.ts:144-193 | over every interleaving a user's active tokens and won refreshes together never exceed their issuances by register and login |
| RefreshGuarantees.ReuseEndsEverySession | src/application/services/auth-service.ts:144-149 | with one call at a time, presenting a revoked unexpired token leaves the user no active token, and none appears before their next sign-in, over any number of calls |
| RefreshGuarantees.ReplayRevokesTheSuccessor | src/application/services/auth-service.ts:144-156 | a successful refresh keeps the number of active tokens; replaying its old token revokes the new one |
| RefreshGuarantees.AtomicRefreshIsARun | src/application/services/auth-service.ts:127-157 | a refresh nobody interleaves with is a run of the interleaved protocol |
| RefreshGuarantees.AtomicSignInIsARun | src/application/services/auth-service.ts:188-193 | so is the issuance of a register or login |
| RefreshGuarantees.AtomicLogoutIsARun | src/application/services/auth-service.ts:159-170 | so is a logout |
| RefreshGuarantees.RevocationLastsExactlyWhen | src/application/services/auth-service.ts:144-156 | with calls interleaved, a complete revocation lasts until the next sign-in exactly when no won refresh or sign-in of the user was in flight |
| RefreshGuarantees.RevokedEverywhere | src/application/services/auth-service.ts:147-174 | logout everywhere and detected reuse both leave no active token, and leave other calls in flight |
| RefreshGuarantees.LogoutAllCanBeOutlived | src/application/services/auth-service.ts:151-174 | a reachable run in which a user has an active token after a logout everywhere and no sign-in |
| RateLimiters.RateLimiter.Consume | src/infrastructure/redis/redis-client.ts:68-90 | increments, sets the expiry on first use, and answers as specified; what the answers are: `RateLimits.VerdictIs` |
| RateLimits.VerdictIs | src/infrastructure/redis/redis-client.ts:68-90 | over every trace a verdict is the number of the call in its window against its limit, windows told from the times of the calls alone, each 1000 ms for every second |
| RateLimits.WindowAllowsTheLimit | src/infrastructure/redis/redis-client.ts:74-89 | from a call that starts a window of w seconds at t, exactly the first `limit` calls of the key before t + 1000 w are allowed |
| RateLimits.NextWindowStarts | src/infrastructure/redis/redis-client.ts:77-81 | the first call at or after t + 1000 w, and the store's lag, starts the next window, and none before it does |
| RateLimits.FirstCallStarts | src/infrastructure/redis/redis-client.ts:77-81 | the first call of a key starts a window |
| RateLimits.LifetimeAllowsTheLimit | src/infrastructure/redis/redis-client.ts:74-89 | in each lifetime of a key exactly the first `limit` calls are allowed, over every trace |
| RateLimits.AtMostTwiceTheLimit | src/infrastructure/redis/redis-client.ts:68-90 | over every trace at most 2 * limit - 1 calls are allowed in any [from, from + 1000 * windowSeconds) |
| RateLimits.BoundIsReached | src/infrastructure/redis/redis-client.ts:68-90 | for every limit and window a trace reaches that bound |
| RateLimits.RemainingIsHonest | src/infrastructure/redis/redis-client.ts:88-89 | while the counter lives the next call is allowed exactly when something remained |
| LobbyServices.RoomRepository.Create | src/infrastructure/database/prisma-room-repository.ts:61-78 | adds a waiting room with its host as only member, or fails when the code is taken |
| LobbyServices.RoomRepository.FindByPlayerId | src/infrastructure/database/prisma-room-repository.ts:96-107 | finds an open room the player is in, or none |
| LobbyServices.RoomRepository.FindByCode | src/infrastructure/database/prisma-room-repository.ts:88-94 | finds the room with the code, open or closed, or none |
| LobbyServices.RoomRepository.AddMember | src/infrastructure/database/prisma-room-repository.ts:109-138 | unknown room, not waiting, full and already in are refused in that order, or there is one more member |
| LobbyServices.RoomRepository.RemoveMember | src/infrastructure/database/prisma-room-repository.ts:140-184 | refuses an unknown room; deletes the member, then closes the empty room or passes the lead to whoever joined first |
| LobbyServices.RoomRepository.SetReady | src/infrastructure/database/prisma-room-repository.ts:186-204 | refuses a player who is no member of the room, or changes that member's readiness |
| LobbyServices.RoomRepository.UpdateStatus | src/infrastructure/database/prisma-room-repository.ts:206-213 | refuses an unknown room, or changes its status and no other's |
| LobbyServices.LobbyService.DrawCode | src/application/services/lobby-service.ts:25-30 | the retry loop gives the first free code, or the sixth without looking it up |
| LobbyServices.LobbyService.CreateRoom | src/application/services/lobby-service.ts:14-38 | the guards, the retry loop and the new room, as specified |
| LobbyServices.LobbyService.JoinRoom | src/application/services/lobby-service.ts:40-52 | the guards, the lookup by the upper-cased code and the new member, as specified |
| LobbyServices.LobbyService.LeaveRoom | src/application/services/lobby-service.ts:54-60 | leaves the player's open room, as specified |
| LobbyServices.LobbyService.SetReady | src/application/services/lobby-service.ts:62-71 | changes readiness only while the room waits |
| LobbyServices.LobbyService.StartGame | src/application/services/lobby-service.ts:89-120 | the guards, the status and one session row for each member, as specified |
| Lobbies.LeftIsSound | src/infrastructure/database/prisma-room-repository.ts:140-184 | whoever leaves, in whatever state, the room stays sound: host first, everyone ready in a game, closed exactly when empty |
| Lobbies.StepKeeps | src/application/services/lobby-service.ts:14-120 | every service call keeps the lobby's invariant |
| LobbyGuarantees.EveryReachableRoom | src/infrastructure/database/prisma-room-repository.ts:61-184 | in every reachable lobby: closed exactly when empty, never over capacity, led by the earliest-joined member, in progress only with everyone ready or leading, nobody in two open rooms |
| LobbyGuarantees.OnlyForward | src/infrastructure/database/prisma-room-repository.ts:153-161 | over every run statuses only move forward, games gain no member, and a closed room stays as it is |
| LobbyGuarantees.Succession | src/infrastructure/database/prisma-room-repository.ts:140-184 | who leads after someone leaves, and what becomes of an emptied room |
| LobbyGuarantees.LeavingUndoesJoining | src/application/services/lobby-service.ts:40-60 | leaving right after joining restores the lobby exactly |
| LobbyGuarantees.CreatesExactlyWhen | src/application/services/lobby-service.ts:14-38 | a room is made exactly when the capacity is allowed, the host is in no open room and one of the six codes is free, and gets the first free one |
| LobbyGuarantees.JoinsExactlyWhen | src/application/services/lobby-service.ts:40-52 | a player joins exactly when in no open room and the room with the upper-cased code is waiting and not full; they are then its last member, not ready, and nothing else differs |
| LobbyGuarantees.ReadiesExactlyWhen | src/application/services/lobby-service.ts:62-71 | readiness is set exactly in the open room the player is in while it waits, to the value given, for that member and nobody else |
| LobbyGuarantees.LeavesExactlyWhen | src/application/services/lobby-service.ts:54-60 | a player leaves exactly the open room they are in, and otherwise nothing changes |
| LobbyGuarantees.StartsExactlyWhen | src/application/services/lobby-service.ts:89-120 | a game starts exactly at its host's call from waiting with everyone else ready, and each member gets one session row |
| LobbyGuarantees.CreateFailsBecause | src/application/services/lobby-service.ts:14-38 | which reason a creation fails for, in the order of the guards |
| LobbyGuarantees.JoinFailsBecause | src/application/services/lobby-service.ts:40-52 | which reason a join fails for, in the order of the guards |
| LobbyGuarantees.StartFailsBecause | src/application/services/lobby-service.ts:89-120 | which reason a start fails for, in the order of the guards |

## Left out

- IEEE 754 rounding, NaN, infinities and signed zero: numbers are reals, so the movement bounds are claims about exact arithmetic.
- Square roots, cosine and sine as computations: they are numbers characterised by what they satisfy; the spawn table fixes only that its points lie on the unit circle.
- Timers and wall clocks: the clock readings are parameters of each step, and nothing is said about how often ticks come.
- JWT signing, bcrypt, SHA-256 and random generation: a signature check is an optional user id, and new tokens and codes are parameters.
- Redis itself and JSON: the limiter's script is one atomic step; presence calls are awaits that may succeed or fail and store nothing.
- GatewayObjects.WebSocketGateway.Attach: keeps sessions as values in a table; that the manager's session objects are shared and changed in place, each apart from the others, is proved in `GameSessionManagers.Admit` and `PerformIn`.
- GatewayGuarantees.OneListenerPerRoom: assumes, as the gateway's steps do, that no session is destroyed while it runs; only `destroyAll` at shutdown destroys any.
- The order of frames that arrive before a connection is set up: they may be handled in any order, which allows more interleavings than the program.
- `playerDisconnected` events are kept in the event list; nothing in the repository listens to them.
- `GameSessionManager.destroyAll` and `WebSocketGateway.close`: shutdown.
- Postgres isolation: each lobby call is one atomic step and join times strictly increase; capacity and one-room checks are read-then-write without locks and could interleave in the program.
- Deleting users and players, which cascades to tokens and memberships, has no service call here.
- The user and player rows of register and login: only the token they issue is modelled, from the moment the user may be issued one.
- HTTP routes, schemas, configuration, inventory, economy, leaderboard and experience: no state worth a proof, or one-row updates.
