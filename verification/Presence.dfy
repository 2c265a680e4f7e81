/** What one player's continuous presence in a session guarantees: where they can be, which of
    their inputs take effect, and what waits in their queue. */
module Presence {
  import opened OrderedMaps
  import opened Vectors
  import opened AntiCheat
  import opened Snapshots
  import opened Sessions

  // ---------- one input per tick takes effect ----------

  /** The input of a queue that decides a tick, if any does. */
  function Survivor(cfg: Config, state: Player, queue: seq<Input>): Option<Input> {
    if queue == [] then None
    else if Acceptable(state, queue[|queue| - 1], cfg.maxMoveSpeed) then Some(queue[|queue| - 1])
    else Survivor(cfg, state, queue[..|queue| - 1])
  }

  /** The survivor is the last acceptable input of the queue, judged against the state at the start
      of the tick, and it alone moves the player. */
  lemma {:induction false} OnlyTheSurvivorMoves(cfg: Config, state: Player, queue: seq<Input>)
    ensures Survivor(cfg, state, queue) == None <==>
            forall i :: 0 <= i < |queue| ==> !Acceptable(state, queue[i], cfg.maxMoveSpeed)
    ensures match Survivor(cfg, state, queue)
            case None => LastAccepted(cfg, state, queue) == state
            case Some(input) =>
              && LastAccepted(cfg, state, queue) == Moved(state, input, cfg.maxMoveSpeed)
              && exists k :: 0 <= k < |queue| && queue[k] == input
                             && Acceptable(state, input, cfg.maxMoveSpeed)
                             && forall j :: k < j < |queue| ==> !Acceptable(state, queue[j], cfg.maxMoveSpeed)
  {
    hide Acceptable, Moved;
    if queue != [] {
      var last, init := queue[|queue| - 1], queue[..|queue| - 1];
      if Acceptable(state, last, cfg.maxMoveSpeed) {
        assert Survivor(cfg, state, queue) == Some(last);
        assert queue[|queue| - 1] == last;
      } else {
        OnlyTheSurvivorMoves(cfg, state, init);
        assert forall i :: 0 <= i < |init| ==> init[i] == queue[i];
        if Survivor(cfg, state, queue).Some? {
          var input := Survivor(cfg, state, queue).value;
          var k :| 0 <= k < |init| && init[k] == input
                   && Acceptable(state, input, cfg.maxMoveSpeed)
                   && forall j :: k < j < |init| ==> !Acceptable(state, init[j], cfg.maxMoveSpeed);
          assert queue[k] == input;
          assert forall j :: k < j < |queue| ==> j < |init| || queue[j] == last;
        }
      }
    }
  }

  ghost predicate Stays(id: Id, ops: seq<Op>) {
    forall i :: 0 <= i < |ops| ==> ops[i] != RemovePlayerOp(id)
  }

  /** The input that decides the next tick for a player. */
  function NextSurvivor(cfg: Config, s: Session, id: Id, now: int): Option<Input>
    requires id in s.players.entries
  {
    Survivor(cfg, ExpireHeartbeat(cfg, s.players.entries[id], now), QueueOf(s, id))
  }

  lemma TickOnePlayer(cfg: Config, s: Session, id: Id, now: int)
    requires Inv(s) && id in s.players.entries
    ensures var s' := Step(cfg, s, TickOp(now)).session;
            && id in s'.players.entries
            && s'.players.entries[id] ==
                 LastAccepted(cfg, ExpireHeartbeat(cfg, s.players.entries[id], now), QueueOf(s, id))
  {
    hide Publish, Expired, Inv, LastAccepted, ExpireHeartbeat;
    AdvanceKeeps(cfg, s, now);
    PublishKeeps(Advance(cfg, s, now), now);
  }

  /** None of the inputs from the one numbered `k` on passes the movement check against this record. */
  ghost predicate RejectedFrom(cfg: Config, p: Player, queue: seq<Input>, k: nat) {
    forall j :: k <= j < |queue| ==> ValidateAndApplyMovement(p, queue[j], cfg.maxMoveSpeed).Rejected?
  }

  /** A tick applies to a player the last of their queued inputs that the movement check accepts against
      the record they had before it, and if there is none leaves them where they were. */
  lemma TickAppliesTheLastAccepted(cfg: Config, s: Session, now: int, id: Id, k: nat)
    requires Inv(s) && id in s.players.entries
    ensures id in s.pending && id in Step(cfg, s, TickOp(now)).session.players.entries
    ensures var p, queue, p' := s.players.entries[id], s.pending[id],
                Step(cfg, s, TickOp(now)).session.players.entries[id];
            && (RejectedFrom(cfg, p, queue, 0) ==>
                  && p'.position == p.position && p'.velocity == p.velocity && p'.rotation == p.rotation
                  && p'.lastProcessedInputSeq == p.lastProcessedInputSeq)
            && (k < |queue| && ValidateAndApplyMovement(p, queue[k], cfg.maxMoveSpeed).Accepted?
                && RejectedFrom(cfg, p, queue, k + 1) ==>
                  var moved := ValidateAndApplyMovement(p, queue[k], cfg.maxMoveSpeed).state;
                  && p'.position == moved.position && p'.velocity == moved.velocity && p'.rotation == moved.rotation
                  && p'.lastProcessedInputSeq == moved.lastProcessedInputSeq)
  {
    hide ValidateAndApplyMovement, Step, LastAccepted, MotionAgrees, AllInWorld, PlayersValid, RejectedFrom;
    TickOnePlayer(cfg, s, id, now);
    var p := s.players.entries[id];
    LastAcceptedApplies(cfg, p, ExpireHeartbeat(cfg, p, now), QueueOf(s, id), k);
  }

  lemma {:induction false} LastAcceptedApplies(cfg: Config, p: Player, start: Player, queue: seq<Input>, k: nat)
    requires start == p.(connected := start.connected)
    ensures RejectedFrom(cfg, p, queue, 0) ==> LastAccepted(cfg, start, queue) == start
    ensures k < |queue| && ValidateAndApplyMovement(p, queue[k], cfg.maxMoveSpeed).Accepted?
            && RejectedFrom(cfg, p, queue, k + 1) ==>
              LastAccepted(cfg, start, queue) ==
              ValidateAndApplyMovement(p, queue[k], cfg.maxMoveSpeed).state.(connected := start.connected)
  {
    hide ValidateAndApplyMovement, Acceptable, Moved, RejectedFrom;
    if queue != [] {
      var init, last := queue[..|queue| - 1], queue[|queue| - 1];
      ConnectionDoesNotMatter(p, start, last, cfg.maxMoveSpeed);
      LastAcceptedApplies(cfg, p, start, init, k);
      RejectedOfLess(cfg, p, queue, 0);
      RejectedOfLess(cfg, p, queue, k + 1);
    }
  }

  lemma RejectedOfLess(cfg: Config, p: Player, queue: seq<Input>, k: nat)
    requires queue != []
    ensures RejectedFrom(cfg, p, queue, k) ==>
              && RejectedFrom(cfg, p, queue[..|queue| - 1], k)
              && (k < |queue| ==>
                    ValidateAndApplyMovement(p, queue[|queue| - 1], cfg.maxMoveSpeed).Rejected?)
  {
    hide ValidateAndApplyMovement;
  }

  lemma ConnectionDoesNotMatter(p: Player, start: Player, input: Input, maxSpeed: real)
    requires start == p.(connected := start.connected) && maxSpeed > 0.0
    ensures ValidateAndApplyMovement(p, input, maxSpeed).Accepted? <==> Acceptable(start, input, maxSpeed)
    ensures ValidateAndApplyMovement(p, input, maxSpeed).Accepted? ==>
              Moved(start, input, maxSpeed) ==
              ValidateAndApplyMovement(p, input, maxSpeed).state.(connected := start.connected)
  {
    hide ValidateAndApplyMovement;
    AcceptedExactlyWhen(p, input, maxSpeed);
  }

  /** What one operation does to a player who stays: a tick applies the survivor, if there is one,
      and nothing else touches where they are or which input they last processed. */
  lemma StayOneStep(cfg: Config, s: Session, op: Op, id: Id)
    requires Inv(s) && id in s.players.entries && op != RemovePlayerOp(id)
    ensures id in Step(cfg, s, op).session.players.entries
    ensures var p, p' := s.players.entries[id], Step(cfg, s, op).session.players.entries[id];
            if op.TickOp? && NextSurvivor(cfg, s, id, op.now).Some? then
              var input := NextSurvivor(cfg, s, id, op.now).value;
              && p'.lastProcessedInputSeq == input.seqNo > p.lastProcessedInputSeq
              && p'.username == p.username
              && InBox(p.position, WORLD_BOUNDS)
              && Within(p.position, p'.position, StepReach(cfg.maxMoveSpeed))
            else
              && p'.lastProcessedInputSeq == p.lastProcessedInputSeq
              && p'.username == p.username
              && p'.position == p.position
  {
    hide Tick, Within, StepReach;
    if op.TickOp? {
      TickOnePlayer(cfg, s, id, op.now);
      var start, queue := ExpireHeartbeat(cfg, s.players.entries[id], op.now), QueueOf(s, id);
      OnlyTheSurvivorMoves(cfg, start, queue);
      if Survivor(cfg, start, queue).Some? {
        AcceptedStepIsShort(start, Survivor(cfg, start, queue).value, cfg.maxMoveSpeed);
      }
    }
  }

  // ---------- sequence numbers ----------

  /** The last processed sequence number never goes back while the player stays. */
  lemma {:induction false} SequenceNeverFalls(cfg: Config, s: Session, ops: seq<Op>, id: Id)
    requires Inv(s) && id in s.players.entries && Stays(id, ops)
    ensures id in Run(cfg, s, ops).players.entries
    ensures Run(cfg, s, ops).players.entries[id].lastProcessedInputSeq >= s.players.entries[id].lastProcessedInputSeq
  {
    hide Step, Inv;
    if ops != [] {
      var init := ops[..|ops| - 1];
      SequenceNeverFalls(cfg, s, init, id);
      StayOneStep(cfg, Run(cfg, s, init), ops[|ops| - 1], id);
    }
  }

  /** No sequence number decides two ticks: of two survivors of one presence the later is newer,
      whatever was queued, in whatever order. */
  lemma SurvivorsRise(cfg: Config, s: Session, now: int, ops: seq<Op>, later: int, id: Id)
    requires Inv(s) && id in s.players.entries && Stays(id, ops)
    requires NextSurvivor(cfg, s, id, now).Some?
    ensures var after := Step(cfg, s, TickOp(now)).session;
            && Inv(after)
            && var then_ := Run(cfg, after, ops);
               && id in then_.players.entries
               && (NextSurvivor(cfg, then_, id, later).Some? ==>
                     NextSurvivor(cfg, s, id, now).value.seqNo < NextSurvivor(cfg, then_, id, later).value.seqNo)
  {
    hide Step, Run, NextSurvivor, MotionAgrees, AllInWorld;
    var after := Step(cfg, s, TickOp(now)).session;
    StepKeeps(cfg, s, TickOp(now));
    StayOneStep(cfg, s, TickOp(now), id);
    SequenceNeverFalls(cfg, after, ops, id);
    StayOneStep(cfg, Run(cfg, after, ops), TickOp(later), id);
  }

  // ---------- how far a player can get ----------

  function Reach(cfg: Config, ticks: nat): real {
    ticks as real * StepReach(cfg.maxMoveSpeed)
  }

  lemma ReachOneMore(cfg: Config, ticks: nat)
    ensures StepReach(cfg.maxMoveSpeed) >= 0.0
    ensures Reach(cfg, ticks) >= 0.0
    ensures Reach(cfg, ticks + 1) == Reach(cfg, ticks) + StepReach(cfg.maxMoveSpeed)
  {
    var t, r := ticks as real, StepReach(cfg.maxMoveSpeed);
    ProductMonotone(0.0, 0.0, t, r);
    assert (t + 1.0) * r == t * r + r;
  }

  lemma WithinWider(a: Vec3, b: Vec3, r: real, wider: real)
    requires Within(a, b, r) && r <= wider
    ensures Within(a, b, wider)
  {
    SquareMonotone(r, wider);
  }

  lemma WithinSelf(a: Vec3, r: real)
    requires r >= 0.0
    ensures Within(a, a, r)
  {
    ProductMonotone(0.0, 0.0, r, r);
  }

  lemma {:induction false} TravelWithin(cfg: Config, s: Session, ops: seq<Op>, id: Id)
    requires Inv(s) && id in s.players.entries && Stays(id, ops)
    ensures id in Run(cfg, s, ops).players.entries
    ensures Within(s.players.entries[id].position, Run(cfg, s, ops).players.entries[id].position,
                   Reach(cfg, TicksIn(ops)))
  {
    hide Step, Within, StepReach, Reach, InBox, MotionAgrees, AllInWorld;
    var start := s.players.entries[id].position;
    if ops == [] {
      ReachOneMore(cfg, 0);
      WithinSelf(start, Reach(cfg, 0));
    } else {
      var init, op := ops[..|ops| - 1], ops[|ops| - 1];
      TravelWithin(cfg, s, init, id);
      var before := Run(cfg, s, init);
      StayOneStep(cfg, before, op, id);
      ReachOneMore(cfg, TicksIn(init));
      var here, next := before.players.entries[id].position, Step(cfg, before, op).session.players.entries[id].position;
      if op.TickOp? {
        if here == next {
          WithinWider(start, next, Reach(cfg, TicksIn(init)), Reach(cfg, TicksIn(ops)));
        } else {
          Triangle(start, here, next, Reach(cfg, TicksIn(init)), StepReach(cfg.maxMoveSpeed));
        }
      }
    }
  }

  /** While a player stays they are inside the world, and after `n` ticks no further from where
      they were than `n * 0.25 * (maxSpeed + 0.01)`, whatever inputs were queued. */
  lemma TravelBound(cfg: Config, s: Session, ops: seq<Op>, id: Id, d: real)
    requires Inv(s) && id in s.players.entries && Stays(id, ops)
    requires id in Run(cfg, s, ops).players.entries ==>
               IsDistance(d, s.players.entries[id].position, Run(cfg, s, ops).players.entries[id].position)
    ensures id in Run(cfg, s, ops).players.entries
    ensures InBox(Run(cfg, s, ops).players.entries[id].position, WORLD_BOUNDS)
    ensures d <= TicksIn(ops) as real * (0.25 * (cfg.maxMoveSpeed + 0.01))
  {
    hide Run, Within, InBox, IsDistance, TicksIn;
    TravelWithin(cfg, s, ops, id);
    ReachOneMore(cfg, TicksIn(ops));
    WithinBoundsDistance(d, s.players.entries[id].position, Run(cfg, s, ops).players.entries[id].position,
                         Reach(cfg, TicksIn(ops)));
    assert AllInWorld(Run(cfg, s, ops).players.entries);
  }

  // ---------- what waits in a queue ----------

  /** Every input enqueued for a player since the last tick, or since they were added if that was
      later; nothing for a player who is not present. It never forgets. */
  function History(ops: seq<Op>, id: Id): Option<seq<Input>> {
    if ops == [] then None else Extend(History(ops[..|ops| - 1], id), ops[|ops| - 1], id)
  }

  function Extend(h: Option<seq<Input>>, op: Op, id: Id): Option<seq<Input>> {
    match op
    case AddPlayerOp(who, _, _) => if who == id && h == None then Some([]) else h
    case RemovePlayerOp(who) => if who == id then None else h
    case EnqueueInputOp(who, input) => if who == id && h.Some? then Some(h.value + [input]) else h
    case TickOp(_) => if h.Some? then Some([]) else None
    case _ => h
  }

  function LastOf(h: seq<Input>, n: nat): seq<Input> {
    if |h| <= n then h else h[|h| - n..]
  }

  lemma EnqueueKeepsNewest(h: seq<Input>, input: Input)
    ensures Enqueued(LastOf(h, QUEUE_CAPACITY), input) == LastOf(h + [input], QUEUE_CAPACITY)
  {
  }

  lemma TickEmptiesQueues(cfg: Config, s: Session, now: int)
    requires Inv(s)
    ensures var pending := Step(cfg, s, TickOp(now)).session.pending;
            && pending.Keys == s.pending.Keys
            && forall id :: id in pending ==> pending[id] == []
  {
    hide Publish, Expired, LastAccepted, ExpireHeartbeat;
    AdvanceKeeps(cfg, s, now);
    PublishKeeps(Advance(cfg, s, now), now);
  }

  ghost predicate QueueIs(s: Session, id: Id, h: Option<seq<Input>>) {
    && (id in s.pending <==> h.Some?)
    && (id in s.pending ==> s.pending[id] == LastOf(h.value, 40))
  }

  lemma QueueStep(cfg: Config, s: Session, op: Op, id: Id, h: Option<seq<Input>>)
    requires Inv(s) && QueueIs(s, id, h)
    ensures QueueIs(Step(cfg, s, op).session, id, Extend(h, op, id))
  {
    hide Tick, CreateRuntimePlayer, Delete, Put, LastOf, Enqueued, MotionAgrees, AllInWorld, RoundedPing;
    EmptyHistory();
    match op
    case TickOp(now) => TickEmptiesQueues(cfg, s, now);
    case EnqueueInputOp(who, input) =>
      if h.Some? {
        EnqueueKeepsNewest(h.value, input);
      }
    case _ =>
  }

  lemma EmptyHistory()
    ensures LastOf([], QUEUE_CAPACITY) == []
  {
  }

  /** Over every run of a new session a player has a queue exactly while present, and it holds the
      newest forty of what was enqueued since the last tick, in order. */
  lemma {:induction false} QueueHoldsNewest(cfg: Config, ops: seq<Op>, id: Id)
    ensures Inv(NEW_SESSION)
    ensures var s := Run(cfg, NEW_SESSION, ops);
            && (id in s.pending <==> id in s.players.entries)
            && QueueIs(s, id, History(ops, id))
  {
    hide Step, Extend, LastOf;
    NewSessionInv();
    if ops != [] {
      QueueHoldsNewest(cfg, ops[..|ops| - 1], id);
      QueueStep(cfg, Run(cfg, NEW_SESSION, ops[..|ops| - 1]), ops[|ops| - 1], id, History(ops[..|ops| - 1], id));
    }
  }
}
