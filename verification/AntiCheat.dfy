/** Players as the simulation holds them, and the check every movement input passes. */
module AntiCheat {
  import opened Vectors

  type Id = string

  const DEFAULT_PLAYER_HP := 100
  const MAX_INPUT_DT := 0.25
  const MAX_MOVE_MAGNITUDE := 1.05
  const SPEED_TOLERANCE := 0.01
  const POSITION_TOLERANCE := 1.15
  const SPAWN_RADIUS := 5.0

  /** The cosine and sine of one spawn angle. */
  datatype Direction = Direction(cos: real, sin: real)

  /** What the environment fixes: two settings, and the numbers the maths library would supply. */
  datatype Settings = Settings(maxMoveSpeed: real, heartbeatTimeoutMs: int, pi: real, compass: seq<Direction>)

  predicate OnUnitCircle(d: Direction) {
    d.cos * d.cos + d.sin * d.sin == 1.0
  }

  /** `compass[k]` holds the cosine and sine of `k * pi / 4`; the eight directions then repeat. */
  type Config = s: Settings |
      && s.maxMoveSpeed > 0.0
      && s.heartbeatTimeoutMs > 0
      && |s.compass| == 8
      && forall k :: 0 <= k < 8 ==> OnUnitCircle(s.compass[k])
    witness Settings(12.0, 15000, 3.14, seq(8, _ => Direction(1.0, 0.0)))

  datatype Player = Player(
    id: Id,
    username: string,
    position: Vec3,
    rotation: Vec3,
    velocity: Vec3,
    hp: int,
    connected: bool,
    ping: int,
    lastProcessedInputSeq: int,
    lastHeartbeatAt: int)

  /** `moveMagnitude` is the root the program takes of `move`. */
  datatype MovementInput = MovementInput(seqNo: int, dt: real, move: Vec3, look: Vec3, moveMagnitude: real)

  type Input = i: MovementInput | IsMagnitude(i.moveMagnitude, i.move)
    witness MovementInput(0, 1.0, ORIGIN, ORIGIN, 0.0)

  datatype Reason = StaleInput | InvalidDt | InvalidMoveVector | SpeedCheat | PositionCheat

  datatype ValidationResult = Accepted(state: Player) | Rejected(reason: Reason, state: Player)

  function CreateRuntimePlayer(cfg: Config, id: Id, username: string, spawnIndex: nat, now: int): Player {
    var angle := spawnIndex as real * cfg.pi * 2.0 / 8.0;
    var facing := cfg.compass[spawnIndex % 8];
    Player(id, username,
           Vec3(facing.cos * SPAWN_RADIUS, 0.0, facing.sin * SPAWN_RADIUS),
           Vec3(0.0, angle, 0.0),
           ORIGIN, DEFAULT_PLAYER_HP, true, 0, 0, now)
  }

  function Speed(input: Input, maxSpeed: real): real {
    Min(1.0, input.moveMagnitude) * maxSpeed
  }

  function NextVelocity(input: Input, maxSpeed: real): Vec3 {
    Scale(input.move, Speed(input, maxSpeed))
  }

  function ProposedPosition(state: Player, input: Input, maxSpeed: real): Vec3 {
    Plus(state.position, Scale(NextVelocity(input, maxSpeed), input.dt))
  }

  /** The check itself. The last two arguments are the two further roots it takes, of the next
      velocity and of the proposed displacement; the second is taken only once `dt` is positive. */
  function ValidateWithRoots(state: Player, input: Input, maxSpeed: real,
                             velocityMagnitude: real, teleportDistance: real): ValidationResult
    requires IsMagnitude(velocityMagnitude, NextVelocity(input, maxSpeed))
    requires input.dt > 0.0 ==>
               IsMagnitude(teleportDistance, Minus(ProposedPosition(state, input, maxSpeed), state.position))
  {
    if input.seqNo <= state.lastProcessedInputSeq then Rejected(StaleInput, state)
    else if input.dt <= 0.0 || input.dt > MAX_INPUT_DT then Rejected(InvalidDt, state)
    else if input.moveMagnitude > MAX_MOVE_MAGNITUDE then Rejected(InvalidMoveVector, state)
    else if velocityMagnitude > maxSpeed + SPEED_TOLERANCE then Rejected(SpeedCheat, state)
    else if teleportDistance > maxSpeed * input.dt * POSITION_TOLERANCE then Rejected(PositionCheat, state)
    else Accepted(Moved(state, input, maxSpeed))
  }

  function Moved(state: Player, input: Input, maxSpeed: real): Player {
    state.(position := ClampVec3(ProposedPosition(state, input, maxSpeed), WORLD_BOUNDS),
           velocity := NextVelocity(input, maxSpeed),
           rotation := input.look,
           lastProcessedInputSeq := input.seqNo)
  }

  /** The length of the next velocity, found from the length of the move alone. */
  function VelocityMagnitude(input: Input, maxSpeed: real): real {
    input.moveMagnitude * Speed(input, maxSpeed)
  }

  lemma VelocityRoot(input: Input, maxSpeed: real)
    requires maxSpeed > 0.0
    ensures Speed(input, maxSpeed) >= 0.0
    ensures IsMagnitude(VelocityMagnitude(input, maxSpeed), NextVelocity(input, maxSpeed))
  {
    ScaleMagnitude(input.moveMagnitude, input.move, Speed(input, maxSpeed));
  }

  lemma TeleportRoot(state: Player, input: Input, maxSpeed: real)
    requires maxSpeed > 0.0 && input.dt > 0.0
    ensures IsMagnitude(VelocityMagnitude(input, maxSpeed) * input.dt,
                        Minus(ProposedPosition(state, input, maxSpeed), state.position))
  {
    VelocityRoot(input, maxSpeed);
    ScaleMagnitude(VelocityMagnitude(input, maxSpeed), NextVelocity(input, maxSpeed), input.dt);
    PlusMinus(state.position, Scale(NextVelocity(input, maxSpeed), input.dt));
  }

  function ValidateAndApplyMovement(state: Player, input: Input, maxSpeed: real): ValidationResult
    requires maxSpeed > 0.0
  {
    VelocityRoot(input, maxSpeed);
    if input.dt > 0.0 then
      TeleportRoot(state, input, maxSpeed);
      ValidateWithRoots(state, input, maxSpeed,
                        VelocityMagnitude(input, maxSpeed), VelocityMagnitude(input, maxSpeed) * input.dt)
    else
      ValidateWithRoots(state, input, maxSpeed, VelocityMagnitude(input, maxSpeed), 0.0)
  }

  /** Roots are unique, so the roots chosen above are the ones the program computes. */
  lemma RootsDoNotMatter(state: Player, input: Input, maxSpeed: real, vm: real, td: real)
    requires maxSpeed > 0.0
    requires IsMagnitude(vm, NextVelocity(input, maxSpeed))
    requires input.dt > 0.0 ==>
               IsMagnitude(td, Minus(ProposedPosition(state, input, maxSpeed), state.position))
    ensures ValidateWithRoots(state, input, maxSpeed, vm, td) == ValidateAndApplyMovement(state, input, maxSpeed)
  {
    assert vm == VelocityMagnitude(input, maxSpeed) by {
      VelocityRoot(input, maxSpeed);
      MagnitudeUnique(vm, VelocityMagnitude(input, maxSpeed), NextVelocity(input, maxSpeed));
    }
    if input.dt > 0.0 {
      assert td == VelocityMagnitude(input, maxSpeed) * input.dt by {
        TeleportRoot(state, input, maxSpeed);
        MagnitudeUnique(td, VelocityMagnitude(input, maxSpeed) * input.dt,
                        Minus(ProposedPosition(state, input, maxSpeed), state.position));
      }
    } else {
      assert ValidateWithRoots(state, input, maxSpeed, vm, td) == ValidateWithRoots(state, input, maxSpeed, vm, 0.0);
    }
  }

  /** What an input must satisfy to be accepted, in terms of the length of its move. */
  predicate Acceptable(state: Player, input: Input, maxSpeed: real) {
    && input.seqNo > state.lastProcessedInputSeq
    && 0.0 < input.dt <= MAX_INPUT_DT
    && input.moveMagnitude <= MAX_MOVE_MAGNITUDE
    && input.moveMagnitude * Min(1.0, input.moveMagnitude) * maxSpeed <= maxSpeed + SPEED_TOLERANCE
  }

  lemma DisplacementBelowTolerance(input: Input, maxSpeed: real)
    requires maxSpeed > 0.0 && input.dt > 0.0 && input.moveMagnitude <= MAX_MOVE_MAGNITUDE
    ensures VelocityMagnitude(input, maxSpeed) * input.dt <= maxSpeed * input.dt * POSITION_TOLERANCE
  {
    var m, d := input.moveMagnitude, maxSpeed * input.dt;
    assert d >= 0.0;
    ProductMonotone(m, Min(1.0, m), MAX_MOVE_MAGNITUDE, 1.0);
    assert VelocityMagnitude(input, maxSpeed) * input.dt == (m * Min(1.0, m)) * d;
    ProductMonotone(m * Min(1.0, m), d, POSITION_TOLERANCE, d);
  }

  /** The move check is exact: it accepts precisely the acceptable inputs, changes nothing when it
      rejects, and never answers `position_cheat`. */
  lemma AcceptedExactlyWhen(state: Player, input: Input, maxSpeed: real)
    requires maxSpeed > 0.0
    ensures var r := ValidateAndApplyMovement(state, input, maxSpeed);
            && (r.Accepted? <==> Acceptable(state, input, maxSpeed))
            && (r.Accepted? ==> r.state == Moved(state, input, maxSpeed))
            && (r.Rejected? ==> r.reason != PositionCheat && r.state == state)
  {
    var m := input.moveMagnitude;
    assert VelocityMagnitude(input, maxSpeed) == m * Min(1.0, m) * maxSpeed;
    if input.dt > 0.0 && m <= MAX_MOVE_MAGNITUDE {
      DisplacementBelowTolerance(input, maxSpeed);
    }
  }

  /** An accepted velocity is exactly as long as the move allows, and touches nothing else. */
  lemma MovedVelocity(state: Player, input: Input, maxSpeed: real)
    requires maxSpeed > 0.0
    ensures var p := Moved(state, input, maxSpeed);
            && IsMagnitude(input.moveMagnitude * Min(1.0, input.moveMagnitude) * maxSpeed, p.velocity)
            && InBox(p.position, WORLD_BOUNDS)
            && p.rotation == input.look
            && p.lastProcessedInputSeq == input.seqNo
  {
    var m := input.moveMagnitude;
    VelocityRoot(input, maxSpeed);
    assert VelocityMagnitude(input, maxSpeed) == m * Min(1.0, m) * maxSpeed;
  }

  /** `c` is `x` moved to the nearer end of the interval if it lies outside it. */
  predicate ClampedTo(c: real, x: real, lo: real, hi: real) {
    && (x < lo ==> c == lo)
    && (hi < x ==> c == hi)
    && (lo <= x <= hi ==> c == x)
  }

  /** What an accepted input does, coordinate by coordinate: the velocity points along the move, and
      the position is carried along it for `dt` and kept in the world. No other field changes. */
  lemma AcceptedMovesAlong(state: Player, input: Input, maxSpeed: real)
    requires maxSpeed > 0.0
    ensures var r, m := ValidateAndApplyMovement(state, input, maxSpeed), input.moveMagnitude;
            var k := (if m < 1.0 then m else 1.0) * maxSpeed;
            var vx, vy, vz := k * input.move.x, k * input.move.y, k * input.move.z;
            && (r.Accepted? <==>
                  && input.seqNo > state.lastProcessedInputSeq
                  && 0.0 < input.dt <= 0.25
                  && m <= 1.05
                  && m * k <= maxSpeed + 0.01)
            && (r.Accepted? ==>
                  && r.state.velocity == Vec3(vx, vy, vz)
                  && ClampedTo(r.state.position.x, state.position.x + input.dt * vx, -100.0, 100.0)
                  && ClampedTo(r.state.position.y, state.position.y + input.dt * vy, 0.0, 50.0)
                  && ClampedTo(r.state.position.z, state.position.z + input.dt * vz, -100.0, 100.0)
                  && r.state.rotation == input.look
                  && r.state.lastProcessedInputSeq == input.seqNo
                  && r.state == Player(state.id, state.username, r.state.position, r.state.rotation, r.state.velocity,
                                       state.hp, state.connected, state.ping, r.state.lastProcessedInputSeq,
                                       state.lastHeartbeatAt))
  {
    hide ValidateAndApplyMovement, Moved, Acceptable, ClampedTo, IsMagnitude;
    AcceptedExactlyWhen(state, input, maxSpeed);
    AcceptableIs(state, input, maxSpeed);
    MovedAlong(state, input, maxSpeed, (if input.moveMagnitude < 1.0 then input.moveMagnitude else 1.0) * maxSpeed);
  }

  lemma AcceptableIs(state: Player, input: Input, maxSpeed: real)
    ensures var m := input.moveMagnitude;
            Acceptable(state, input, maxSpeed) <==>
              && input.seqNo > state.lastProcessedInputSeq
              && 0.0 < input.dt <= 0.25
              && m <= 1.05
              && m * ((if m < 1.0 then m else 1.0) * maxSpeed) <= maxSpeed + 0.01
  {
    var m := input.moveMagnitude;
    assert m * Min(1.0, m) * maxSpeed == m * (Min(1.0, m) * maxSpeed);
  }

  lemma MovedAlong(state: Player, input: Input, maxSpeed: real, k: real)
    requires k == (if input.moveMagnitude < 1.0 then input.moveMagnitude else 1.0) * maxSpeed
    ensures var p := Moved(state, input, maxSpeed);
            var vx, vy, vz := k * input.move.x, k * input.move.y, k * input.move.z;
            && p.velocity == Vec3(vx, vy, vz)
            && ClampedTo(p.position.x, state.position.x + input.dt * vx, -100.0, 100.0)
            && ClampedTo(p.position.y, state.position.y + input.dt * vy, 0.0, 50.0)
            && ClampedTo(p.position.z, state.position.z + input.dt * vz, -100.0, 100.0)
            && p == Player(state.id, state.username, p.position, input.look, p.velocity, state.hp, state.connected,
                           state.ping, input.seqNo, state.lastHeartbeatAt)
  {
    hide Scale, IsMagnitude;
    assert Speed(input, maxSpeed) == k;
    Commutes(input.move, k);
    var v := Vec3(k * input.move.x, k * input.move.y, k * input.move.z);
    Commutes(v, input.dt);
  }

  lemma Commutes(v: Vec3, k: real)
    ensures Scale(v, k) == Vec3(k * v.x, k * v.y, k * v.z)
  {
  }

  /** The first check that fails gives the answer, and the state comes back as it was. */
  lemma RejectedBecause(state: Player, input: Input, maxSpeed: real)
    requires maxSpeed > 0.0
    ensures var r, m := ValidateAndApplyMovement(state, input, maxSpeed), input.moveMagnitude;
            r.Rejected? ==>
              && r.state == state
              && (r.reason == StaleInput <==> input.seqNo <= state.lastProcessedInputSeq)
              && (r.reason == InvalidDt <==>
                    input.seqNo > state.lastProcessedInputSeq && (input.dt <= 0.0 || input.dt > 0.25))
              && (r.reason == InvalidMoveVector <==>
                    input.seqNo > state.lastProcessedInputSeq && 0.0 < input.dt <= 0.25 && m > 1.05)
              && (r.reason == SpeedCheat <==>
                    input.seqNo > state.lastProcessedInputSeq && 0.0 < input.dt <= 0.25 && m <= 1.05)
  {
    AcceptedExactlyWhen(state, input, maxSpeed);
  }

  /** How far one accepted input can carry a player. */
  function StepReach(maxSpeed: real): real {
    MAX_INPUT_DT * (maxSpeed + SPEED_TOLERANCE)
  }

  /** An accepted input moves a player who is inside the world no further than the reach of one
      input, and leaves them inside. */
  lemma AcceptedStepIsShort(state: Player, input: Input, maxSpeed: real)
    requires maxSpeed > 0.0 && InBox(state.position, WORLD_BOUNDS)
    requires Acceptable(state, input, maxSpeed)
    ensures InBox(Moved(state, input, maxSpeed).position, WORLD_BOUNDS)
    ensures Within(state.position, Moved(state, input, maxSpeed).position, StepReach(maxSpeed))
  {
    var p := ProposedPosition(state, input, maxSpeed);
    ProposedStepIsShort(state, input, maxSpeed);
    WithinSymmetric(p, state.position, StepReach(maxSpeed));
    ClampNonExpansive(p, state.position, WORLD_BOUNDS, ClampVec3(p, WORLD_BOUNDS));
  }

  lemma AcceptableSpeed(state: Player, input: Input, maxSpeed: real)
    requires maxSpeed > 0.0 && Acceptable(state, input, maxSpeed)
    ensures 0.0 <= VelocityMagnitude(input, maxSpeed) <= maxSpeed + SPEED_TOLERANCE
  {
    VelocityRoot(input, maxSpeed);
  }

  lemma ProposedStepIsShort(state: Player, input: Input, maxSpeed: real)
    requires maxSpeed > 0.0 && Acceptable(state, input, maxSpeed)
    ensures Within(ProposedPosition(state, input, maxSpeed), state.position, StepReach(maxSpeed))
  {
    hide ProposedPosition, VelocityMagnitude, Within, IsMagnitude;
    var vm := VelocityMagnitude(input, maxSpeed);
    AcceptableSpeed(state, input, maxSpeed);
    ProductMonotone(vm, input.dt, maxSpeed + SPEED_TOLERANCE, MAX_INPUT_DT);
    TeleportRoot(state, input, maxSpeed);
    DistanceImpliesWithin(vm * input.dt, ProposedPosition(state, input, maxSpeed), state.position, StepReach(maxSpeed));
  }

  lemma WithinSymmetric(a: Vec3, b: Vec3, r: real)
    ensures Within(a, b, r) <==> Within(b, a, r)
  {
    SquareEven(a.x - b.x);
    SquareEven(a.y - b.y);
    SquareEven(a.z - b.z);
  }

  /** Every player spawns on the circle of radius 5 about the origin, inside the world. */
  lemma SpawnInsideWorld(cfg: Config, id: Id, username: string, spawnIndex: nat, now: int)
    ensures var p := CreateRuntimePlayer(cfg, id, username, spawnIndex, now);
            InBox(p.position, WORLD_BOUNDS) && IsMagnitude(SPAWN_RADIUS, p.position)
  {
    var d := cfg.compass[spawnIndex % 8];
    assert OnUnitCircle(d);
    SquareZero(d.cos);
    SquareZero(d.sin);
    UnitBound(d.cos);
    UnitBound(d.sin);
  }

  /** The whole record of a new player: the k-th spawns on the k-th of eight directions, facing it. */
  lemma SpawnIs(cfg: Config, id: Id, username: string, spawnIndex: nat, now: int)
    ensures var p, d := CreateRuntimePlayer(cfg, id, username, spawnIndex, now), cfg.compass[spawnIndex % 8];
            && p.id == id && p.username == username
            && p.position == Vec3(5.0 * d.cos, 0.0, 5.0 * d.sin)
            && p.rotation == Vec3(0.0, spawnIndex as real * cfg.pi / 4.0, 0.0)
            && p.velocity == Vec3(0.0, 0.0, 0.0)
            && p.hp == 100 && p.connected && p.ping == 0 && p.lastProcessedInputSeq == 0 && p.lastHeartbeatAt == now
  {
    var n := spawnIndex as real;
    assert n * cfg.pi * 2.0 / 8.0 == n * cfg.pi / 4.0;
  }

  lemma UnitBound(a: real)
    requires a * a <= 1.0
    ensures -1.0 <= a <= 1.0
  {
    if a > 1.0 {
      SquareMonotone(a, 1.0);
    } else if a < -1.0 {
      SquareMonotone(-a, 1.0);
    }
  }
}
