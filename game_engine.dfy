/**
 * The simulation engine (src/pong/core/GameEngine.ts): the run-state
 * machine (active, serving, pending serve) and the per-frame kinematic
 * rules for the paddles and the ball.
 *
 * Positions are reals along three axes: x is the forward axis between the
 * two goals, z the lateral axis the paddles move along, y the height. The
 * serve timer is an armed-timer value `serveTimeout` plus the method
 * `FireServe` that the environment calls when it expires. `Math.cos` and
 * `Math.sin` are the function values `cos` and `sin` the engine is built
 * with. The score and status callbacks are recorded, in order, in the
 * ghost log `events`.
 */
module Engine {
  import opened Optional
  import opened Constants
  import opened MatchState
  import opened Random
  import opened AiControl
  import opened Input

  const PADDLE_HALF_DEPTH: real := PADDLE_DEPTH / 2.0
  const PLAYFIELD_HALF_LENGTH: real := TABLE_LENGTH / 2.0
  const PLAYFIELD_HALF_WIDTH: real := TABLE_WIDTH / 2.0
  const EFFECTIVE_HALF_WIDTH: real := PLAYFIELD_HALF_WIDTH - PADDLE_BOUNDARY_PADDING
  /** How far a paddle's centre may move off the table's centre line. */
  const PADDLE_LIMIT: real := EFFECTIVE_HALF_WIDTH - PADDLE_HALF_DEPTH
  /** How far the ball's centre may move off the centre line before it bounces. */
  const WALL_LIMIT: real := EFFECTIVE_HALF_WIDTH - BALL_RADIUS
  /** Beyond this forward distance the ball is past a goal line. */
  const GOAL_LIMIT: real := PLAYFIELD_HALF_LENGTH + BALL_RADIUS
  /** Largest lateral distance between ball and paddle centres that still counts as a hit. */
  const PADDLE_REACH: real := PADDLE_HALF_DEPTH + BALL_RADIUS
  const PLAYER_PADDLE_X: real := -PLAYFIELD_HALF_LENGTH + 1.1
  const AI_PADDLE_X: real := PLAYFIELD_HALF_LENGTH - 1.1
  /** Serve delays in milliseconds: after `start`, and after a goal. */
  const START_SERVE_DELAY: nat := 350
  const GOAL_SERVE_DELAY: nat := 800
  /** `Math.PI`. */
  const PI: real := 3.141592653589793
  /** Bound of the random lateral spin added on every paddle hit. */
  const SPIN: real := 0.12

  datatype Vec3 = Vec3(x: real, y: real, z: real)

  const ZERO: Vec3 := Vec3(0.0, 0.0, 0.0)
  /** Where the ball is parked between rallies. */
  const BALL_ORIGIN: Vec3 := Vec3(0.0, BALL_RADIUS, 0.0)

  /** A status or score callback, as the presentation layer receives it. */
  datatype Event =
    | Status(isRunning: bool, isServing: bool)
    | Score(snapshot: ScoreSnapshot, lastPoint: Option<Side>)

  function Min(a: real, b: real): real {
    if a <= b then a else b
  }

  /** `THREE.MathUtils.clamp`: `max(lo, min(hi, v))`. */
  function Clamp(v: real, lo: real, hi: real): (r: real)
    ensures lo <= hi ==> lo <= r <= hi
    ensures lo <= v <= hi ==> r == v
    ensures lo <= hi && v < lo ==> r == lo
    ensures lo <= hi && hi < v ==> r == hi
  {
    var m := Min(hi, v);
    if lo >= m then lo else m
  }

  predicate PaddleInRange(z: real) {
    -PADDLE_LIMIT <= z <= PADDLE_LIMIT
  }

  /**
   * The player's paddle after one frame: `PADDLE_SPEED` units per second in
   * the sampled direction, kept inside the paddle's range; with no key held
   * a paddle in range stays where it is.
   */
  function PlayerStep(z: real, direction: MoveDirection, dt: real): (r: real)
    ensures PaddleInRange(r)
    ensures direction == 0 && PaddleInRange(z) ==> r == z
    ensures PaddleInRange(z + direction as real * PADDLE_SPEED * dt) ==> r == z + direction as real * PADDLE_SPEED * dt
    ensures dt >= 0.0 && PaddleInRange(z) && direction == -1 ==> r <= z
    ensures dt >= 0.0 && PaddleInRange(z) && direction == 1 ==> r >= z
  {
    ClampPaddle(z + direction as real * PADDLE_SPEED * dt)
  }

  /** `clampPaddle`: the point of [-PADDLE_LIMIT, PADDLE_LIMIT] nearest to `v`. */
  function ClampPaddle(v: real): (r: real)
    ensures PaddleInRange(r)
    ensures PaddleInRange(v) ==> r == v
    ensures v < -PADDLE_LIMIT ==> r == -PADDLE_LIMIT
    ensures v > PADDLE_LIMIT ==> r == PADDLE_LIMIT
  {
    Clamp(v, -PADDLE_LIMIT, PADDLE_LIMIT)
  }

  /** The launch speed of a serve: it grows with the rounds played and is capped at the maximum. */
  function ServeSpeed(rounds: nat): (s: real)
    ensures BALL_INITIAL_SPEED <= s <= BALL_MAX_SPEED
    ensures s < BALL_MAX_SPEED ==> s == BALL_INITIAL_SPEED + BALL_SPEED_INCREMENT * rounds as real * 0.35
    ensures BALL_INITIAL_SPEED + BALL_SPEED_INCREMENT * rounds as real * 0.35 <= BALL_MAX_SPEED ==>
      s == BALL_INITIAL_SPEED + BALL_SPEED_INCREMENT * rounds as real * 0.35
    ensures BALL_INITIAL_SPEED + BALL_SPEED_INCREMENT * rounds as real * 0.35 >= BALL_MAX_SPEED ==> s == BALL_MAX_SPEED
  {
    Min(BALL_INITIAL_SPEED + BALL_SPEED_INCREMENT * rounds as real * 0.35, BALL_MAX_SPEED)
  }

  /** Later rounds never start slower. */
  lemma ServeSpeedMonotone(a: nat, b: nat)
    requires a <= b
    ensures ServeSpeed(a) <= ServeSpeed(b)
  {
    assert BALL_SPEED_INCREMENT * a as real * 0.35 <= BALL_SPEED_INCREMENT * b as real * 0.35;
  }

  /** The speed after a paddle hit: one increment more, capped at the maximum. */
  function HitSpeed(speed: real): (s: real)
    ensures speed <= BALL_MAX_SPEED ==> speed <= s <= BALL_MAX_SPEED
    ensures BALL_INITIAL_SPEED <= speed ==> BALL_INITIAL_SPEED <= s
    ensures s < BALL_MAX_SPEED ==> s == speed + BALL_SPEED_INCREMENT
    ensures speed + BALL_SPEED_INCREMENT <= BALL_MAX_SPEED ==> s == speed + BALL_SPEED_INCREMENT
    ensures speed + BALL_SPEED_INCREMENT >= BALL_MAX_SPEED ==> s == BALL_MAX_SPEED
  {
    Min(speed + BALL_SPEED_INCREMENT, BALL_MAX_SPEED)
  }

  /** The forward position of a paddle's striking face, offset by the ball's radius. */
  function PaddleFront(side: Side): real {
    match side
    case Player => PLAYER_PADDLE_X + PADDLE_WIDTH / 2.0 + BALL_RADIUS
    case Ai => AI_PADDLE_X - PADDLE_WIDTH / 2.0 - BALL_RADIUS
  }

  /** The forward direction a paddle sends the ball: the player's toward the AI (+1), the AI's back (-1). */
  function Heading(side: Side): real {
    match side
    case Player => 1.0
    case Ai => -1.0
  }

  /** The ball moves toward that side's goal. */
  predicate Approaching(side: Side, velocity: Vec3) {
    match side
    case Player => velocity.x < 0.0
    case Ai => velocity.x > 0.0
  }

  /** The ball is at or past that paddle's front face. */
  predicate ReachedFront(side: Side, x: real) {
    match side
    case Player => x <= PaddleFront(side)
    case Ai => x >= PaddleFront(side)
  }

  predicate WithinReach(ballZ: real, paddleZ: real) {
    Abs(ballZ - paddleZ) <= PADDLE_REACH
  }

  /** The three conditions under which a paddle returns the ball. */
  predicate Hits(side: Side, ball: Vec3, velocity: Vec3, paddleZ: real) {
    Approaching(side, velocity) && ReachedFront(side, ball.x) && WithinReach(ball.z, paddleZ)
  }

  /** Where on the paddle the ball struck, from -1 (one end) to 1 (the other). */
  function NormalizedOffset(ballZ: real, paddleZ: real): (n: real)
    ensures -1.0 <= n <= 1.0
    ensures Abs(ballZ - paddleZ) <= PADDLE_HALF_DEPTH ==> n * PADDLE_HALF_DEPTH == ballZ - paddleZ
    ensures ballZ - paddleZ >= PADDLE_HALF_DEPTH ==> n == 1.0
    ensures ballZ - paddleZ <= -PADDLE_HALF_DEPTH ==> n == -1.0
  {
    Clamp(ballZ - paddleZ, -PADDLE_HALF_DEPTH, PADDLE_HALF_DEPTH) / PADDLE_HALF_DEPTH
  }

  /** The velocity of a serve or a return: `speed` along `angle`, heading forward by `heading`. */
  function Launch(cos: real -> real, sin: real -> real, angle: real, speed: real, heading: real): Vec3 {
    Vec3(cos(angle) * speed * heading, 0.0, sin(angle) * speed)
  }

  /** The velocity after a paddle hit: deflected by up to 45 degrees by where it struck, plus lateral spin. */
  function Rebound(cos: real -> real, sin: real -> real, side: Side, offset: real, speed: real, spin: real): Vec3 {
    var v := Launch(cos, sin, offset * (PI / 4.0), speed, Heading(side));
    v.(z := v.z + spin)
  }

  /** The serve angle drawn from `u`: uniform in [-36, 36) degrees. */
  function ServeAngle(u: real): (a: real)
    requires 0.0 <= u < 1.0
    ensures -PI / 5.0 <= a < PI / 5.0
  {
    Scale(-PI / 5.0, PI / 5.0, u)
  }

  /** The spin drawn from `u`: uniform in [-SPIN, SPIN). */
  function Spin(u: real): (s: real)
    requires 0.0 <= u < 1.0
    ensures -SPIN <= s < SPIN
  {
    Scale(-SPIN, SPIN, u)
  }

  /** The one property of the cosine the model relies on. */
  ghost predicate CosPositiveOnQuarter(cos: real -> real) {
    forall a :: -PI / 4.0 <= a <= PI / 4.0 ==> cos(a) > 0.0
  }

  /** A launch within 45 degrees of straight ahead travels forward in the direction of its heading. */
  lemma LaunchHeading(cos: real -> real, sin: real -> real, angle: real, speed: real, heading: real)
    requires CosPositiveOnQuarter(cos)
    requires -PI / 4.0 <= angle <= PI / 4.0 && speed > 0.0
    ensures heading > 0.0 ==> Launch(cos, sin, angle, speed, heading).x > 0.0
    ensures heading < 0.0 ==> Launch(cos, sin, angle, speed, heading).x < 0.0
  {
    var c := cos(angle);
    assert c > 0.0;
    assert c * speed > 0.0;
  }

  /** A returned ball moves away from the paddle that hit it, so the same paddle cannot register it again. */
  lemma ReboundRecedes(cos: real -> real, sin: real -> real, side: Side, offset: real, speed: real, spin: real)
    requires CosPositiveOnQuarter(cos)
    requires -1.0 <= offset <= 1.0 && speed > 0.0
    ensures !Approaching(side, Rebound(cos, sin, side, offset, speed, spin))
  {
    var q := PI / 4.0;
    assert q > 0.0;
    assert -q <= offset * q <= q by {
      assert (offset + 1.0) * q >= 0.0;
      assert (1.0 - offset) * q >= 0.0;
    }
    LaunchHeading(cos, sin, offset * q, speed, Heading(side));
  }

  /** The ball's lateral position is at or beyond a side wall. */
  predicate AtWall(z: real) {
    z <= -WALL_LIMIT || z >= WALL_LIMIT
  }

  class GameEngine {
    const state: GameState
    const input: InputController
    const ai: AiController
    const random: RandomGenerator
    const cos: real -> real
    const sin: real -> real

    var ball: Vec3
    var velocity: Vec3
    var ballSpeed: real
    var playerPaddleZ: real
    var aiPaddleZ: real
    var isActive: bool
    var isServing: bool
    /** The armed serve timer, with its delay in milliseconds. */
    var serveTimeout: Option<nat>
    /** Every status and score callback emitted so far, oldest first. */
    ghost var events: seq<Event>

    /**
     * The invariant every operation keeps: the random source is consistent,
     * the match state's running flag mirrors `isActive`, both paddles are
     * within their limit, the speed lies between its initial value and its
     * cap, and the ball moves in the table's plane.
     */
    ghost predicate Core()
      reads this, state, random
    {
      && random.Valid()
      && state.isRunning == isActive
      && ai.maxSpeed == AI_MAX_SPEED && ai.reactionDelay == DEFAULT_REACTION_DELAY
      && PaddleInRange(playerPaddleZ) && PaddleInRange(aiPaddleZ)
      && BALL_INITIAL_SPEED <= ballSpeed <= BALL_MAX_SPEED
      && ball.y == BALL_RADIUS && velocity.y == 0.0
    }

    /** A serve is only ever pending while the engine is active. */
    ghost predicate Armed()
      reads this
    {
      serveTimeout.Some? ==> isActive
    }

    /** Between frames the ball is inside the side walls and not past either goal line. */
    ghost predicate OnTable()
      reads this
    {
      -WALL_LIMIT <= ball.z <= WALL_LIMIT && -GOAL_LIMIT <= ball.x <= GOAL_LIMIT
    }

    ghost predicate Valid()
      reads this, state, random
    {
      Core() && Armed() && OnTable()
    }

    function PaddleZ(side: Side): real
      reads this
    {
      match side
      case Player => playerPaddleZ
      case Ai => aiPaddleZ
    }

    /** The effects of `registerGoal(winner)` between the state before and after it. */
    twostate predicate GoalRegistered(winner: Side)
      reads this, state
    {
      && state.Snapshot() == PointRecorded(old(state.Snapshot()), winner)
      && isServing && ball == BALL_ORIGIN && velocity == ZERO
      && playerPaddleZ == old(playerPaddleZ) && aiPaddleZ == old(aiPaddleZ)
      && isActive == old(isActive) && ballSpeed == old(ballSpeed)
      && serveTimeout == (if old(isActive) then Some(GOAL_SERVE_DELAY) else old(serveTimeout))
      && events == old(events) + [Score(state.Snapshot(), Some(winner)), Status(old(isActive), true)]
                    + (if old(isActive) then [Status(true, true)] else [])
    }

    /** The engine as it is before its first frame: idle, parked, with fresh scores. */
    constructor (seed: int, cos: real -> real, sin: real -> real)
      ensures Valid()
      ensures fresh(state) && fresh(input) && fresh(ai) && fresh(random)
      ensures this.cos == cos && this.sin == sin
      ensures random.origin == FixSeed(seed) && random.drawn == []
      ensures state.Snapshot() == ScoresReset
      ensures input.GetDirection() == 0 && !input.listenersAttached
      ensures ai.timeAccumulator == 0.0 && ai.targetZ == 0.0
      ensures !isActive && isServing && serveTimeout == None
      ensures ball == BALL_ORIGIN && velocity == ZERO && ballSpeed == BALL_INITIAL_SPEED
      ensures playerPaddleZ == 0.0 && aiPaddleZ == 0.0
      ensures events == []
    {
      state := new GameState();
      input := new InputController();
      ai := new AiController(AI_MAX_SPEED, DEFAULT_REACTION_DELAY);
      random := new RandomGenerator(seed);
      this.cos := cos;
      this.sin := sin;
      ball := BALL_ORIGIN;
      velocity := ZERO;
      ballSpeed := BALL_INITIAL_SPEED;
      playerPaddleZ := 0.0;
      aiPaddleZ := 0.0;
      isActive := false;
      isServing := true;
      serveTimeout := None;
      events := [];
    }

    method EmitStatus()
      modifies this`events
      ensures events == old(events) + [Status(isActive, isServing)]
    {
      events := events + [Status(isActive, isServing)];
    }

    method EmitScore(snapshot: ScoreSnapshot, lastPoint: Option<Side>)
      modifies this`events
      ensures events == old(events) + [Score(snapshot, lastPoint)]
    {
      events := events + [Score(snapshot, lastPoint)];
    }

    method Start()
      requires Valid()
      modifies this, state
      ensures Valid()
      ensures old(isActive) ==> unchanged(this, state)
      ensures isActive && state.isRunning
      ensures !old(isActive) && old(isServing) ==>
        && isServing && serveTimeout == Some(START_SERVE_DELAY)
        && ball == BALL_ORIGIN && velocity == ZERO
        && events == old(events) + [Status(true, true), Status(true, true)]
      ensures !old(isActive) && !old(isServing) ==>
        && !isServing && serveTimeout == old(serveTimeout)
        && ball == old(ball) && velocity == old(velocity)
        && events == old(events) + [Status(true, false)]
      ensures ballSpeed == old(ballSpeed) && playerPaddleZ == old(playerPaddleZ) && aiPaddleZ == old(aiPaddleZ)
      ensures state.Snapshot() == old(state.Snapshot())
    {
      if isActive {
        return;
      }
      isActive := true;
      state.isRunning := true;
      EmitStatus();
      if isServing {
        ScheduleServe(START_SERVE_DELAY);
      }
    }

    method Pause()
      requires Valid()
      modifies this, state
      ensures Valid()
      ensures !old(isActive) && !old(state.isRunning) ==> unchanged(this, state)
      ensures old(isActive) || old(state.isRunning) ==>
        && velocity == ZERO && serveTimeout == None && isServing
        && events == old(events) + [Status(false, old(isServing))]
      ensures !isActive && !state.isRunning
      ensures ball == old(ball) && ballSpeed == old(ballSpeed)
      ensures playerPaddleZ == old(playerPaddleZ) && aiPaddleZ == old(aiPaddleZ)
      ensures state.Snapshot() == old(state.Snapshot())
    {
      if !isActive && !state.isRunning {
        return;
      }
      isActive := false;
      state.isRunning := false;
      velocity := ZERO;
      EmitStatus();
      ClearServeTimeout();
      isServing := true;
    }

    method ToggleStart()
      requires Valid()
      modifies this, state
      ensures Valid()
      ensures isActive == !old(isActive) && state.isRunning == isActive
      ensures old(isActive) ==>
        && velocity == ZERO && serveTimeout == None && isServing && ball == old(ball)
        && events == old(events) + [Status(false, old(isServing))]
      ensures !old(isActive) && old(isServing) ==>
        && isServing && serveTimeout == Some(START_SERVE_DELAY)
        && ball == BALL_ORIGIN && velocity == ZERO
        && events == old(events) + [Status(true, true), Status(true, true)]
      ensures !old(isActive) && !old(isServing) ==>
        && !isServing && serveTimeout == old(serveTimeout)
        && ball == old(ball) && velocity == old(velocity)
        && events == old(events) + [Status(true, false)]
      ensures ballSpeed == old(ballSpeed) && playerPaddleZ == old(playerPaddleZ) && aiPaddleZ == old(aiPaddleZ)
      ensures state.Snapshot() == old(state.Snapshot())
    {
      if isActive {
        Pause();
      } else {
        Start();
      }
    }

    method ResetMatch(resetScores: bool) returns (snap: ScoreSnapshot)
      requires Valid()
      modifies this, state
      ensures Valid()
      ensures !isActive && isServing && serveTimeout == None
      ensures ball == BALL_ORIGIN && velocity == ZERO && ballSpeed == BALL_INITIAL_SPEED
      ensures playerPaddleZ == 0.0 && aiPaddleZ == 0.0
      ensures state.Snapshot() == (if resetScores then ScoresReset else old(state.Snapshot()))
      ensures snap == state.Snapshot()
      ensures events == old(events) + (if old(isActive) then [Status(false, old(isServing))] else [])
                        + [Status(false, true), Score(snap, None)]
    {
      Pause();
      PlaceActorsAtOrigin();
      ballSpeed := BALL_INITIAL_SPEED;
      if resetScores {
        snap := state.ResetScores();
      } else {
        snap := state.Snapshot();
      }
      EmitScore(snap, None);
    }

    /** `saveProgress`: the record handed to storage. */
    method SaveProgress() returns (record: SerializedGameState)
      ensures record == Serialized(state.Snapshot())
    {
      record := state.ToJSON();
    }

    /** `loadProgress(data)`: `stored` is what storage yields when `data` is absent. */
    method LoadProgress(data: Option<UntrustedRecord>, stored: Option<UntrustedRecord>) returns (snap: ScoreSnapshot)
      requires Valid()
      modifies this, state
      ensures Valid()
      ensures state.Snapshot() == Sanitised(old(state.Snapshot()), if data.Some? then data else stored)
      ensures snap == state.Snapshot()
      ensures isServing && ball == BALL_ORIGIN && velocity == ZERO
      ensures playerPaddleZ == 0.0 && aiPaddleZ == 0.0
      ensures isActive == old(isActive) && serveTimeout == old(serveTimeout) && ballSpeed == old(ballSpeed)
      ensures events == old(events) + [Score(snap, None), Status(isActive, true)]
    {
      var record := if data.Some? then data else stored;
      snap := state.ApplySerialized(record);
      EmitScore(snap, None);
      PlaceActorsAtOrigin();
    }

    /** One frame of `dt` seconds. */
    method Update(dt: real)
      requires Valid()
      modifies this, ai, random, state
      ensures Valid()
      ensures playerPaddleZ == PlayerStep(old(playerPaddleZ), input.GetDirection(), dt)
      ensures old(ai.timeAccumulator) + dt >= ai.reactionDelay ==> ai.targetZ == old(ball.z) && ai.timeAccumulator == 0.0
      ensures old(ai.timeAccumulator) + dt < ai.reactionDelay ==> ai.targetZ == old(ai.targetZ) && ai.timeAccumulator == old(ai.timeAccumulator) + dt
      ensures aiPaddleZ == ClampPaddle(ai.Move(old(aiPaddleZ), dt))
      ensures dt >= 0.0 && old(ai.Waiting()) ==> ai.Waiting()
      ensures isActive == old(isActive)
      ensures !(old(isActive) && !old(isServing)) ==>
        && ball == old(ball) && velocity == old(velocity) && ballSpeed == old(ballSpeed)
        && isServing == old(isServing) && serveTimeout == old(serveTimeout)
        && unchanged(state, random) && events == old(events)
      ensures || state.Snapshot() == old(state.Snapshot())
              || state.Snapshot() == PointRecorded(old(state.Snapshot()), Player)
              || state.Snapshot() == PointRecorded(old(state.Snapshot()), Ai)
    {
      UpdatePlayerPaddle(dt);
      ghost var playerZ := playerPaddleZ;
      assert playerZ == PlayerStep(old(playerPaddleZ), input.GetDirection(), dt);
      UpdateAiPaddle(dt);
      ghost var aiZ := aiPaddleZ;
      assert aiZ == ClampPaddle(ai.Move(old(aiPaddleZ), dt));
      if isActive && !isServing {
        UpdateBall(dt);
        assert playerPaddleZ == playerZ && aiPaddleZ == aiZ;
      }
      assert input.GetDirection() == old(input.GetDirection());
    }

    method UpdatePlayerPaddle(dt: real)
      requires Valid()
      modifies this`playerPaddleZ
      ensures Valid()
      ensures playerPaddleZ == PlayerStep(old(playerPaddleZ), input.GetDirection(), dt)
    {
      var direction := input.GetDirection();
      var nextZ := playerPaddleZ + direction as real * PADDLE_SPEED * dt;
      playerPaddleZ := ClampPaddle(nextZ);
      assert playerPaddleZ == PlayerStep(old(playerPaddleZ), direction, dt);
    }

    method UpdateAiPaddle(dt: real)
      requires Valid()
      modifies this`aiPaddleZ, ai
      ensures Valid()
      ensures old(ai.timeAccumulator) + dt >= ai.reactionDelay ==> ai.targetZ == ball.z && ai.timeAccumulator == 0.0
      ensures old(ai.timeAccumulator) + dt < ai.reactionDelay ==> ai.targetZ == old(ai.targetZ) && ai.timeAccumulator == old(ai.timeAccumulator) + dt
      ensures aiPaddleZ == ClampPaddle(ai.Move(old(aiPaddleZ), dt))
      ensures dt >= 0.0 && old(ai.Waiting()) ==> ai.Waiting()
    {
      ai.UpdateTarget(ball.z, dt);
      var next := ai.Move(aiPaddleZ, dt);
      aiPaddleZ := ClampPaddle(next);
    }

    /** Ball integration and the three collision rules, in the source's order. */
    method UpdateBall(dt: real)
      requires Valid() && isActive && !isServing
      modifies this, random, state
      ensures Valid()
      ensures isActive && playerPaddleZ == old(playerPaddleZ) && aiPaddleZ == old(aiPaddleZ)
      ensures || state.Snapshot() == old(state.Snapshot())
              || state.Snapshot() == PointRecorded(old(state.Snapshot()), Player)
              || state.Snapshot() == PointRecorded(old(state.Snapshot()), Ai)
    {
      ball := Vec3(ball.x + velocity.x * dt, ball.y + velocity.y * dt, ball.z + velocity.z * dt);
      HandleWallBounces();
      HandlePaddleCollision(Player);
      HandlePaddleCollision(Ai);
      HandleGoals();
    }

    method HandleWallBounces()
      requires Core() && Armed()
      modifies this`ball, this`velocity
      ensures Core() && Armed()
      ensures -WALL_LIMIT <= ball.z <= WALL_LIMIT
      ensures AtWall(old(ball.z)) ==>
        ball == old(ball).(z := Clamp(old(ball.z), -WALL_LIMIT, WALL_LIMIT)) && velocity == old(velocity).(z := -old(velocity.z))
      ensures !AtWall(old(ball.z)) ==> ball == old(ball) && velocity == old(velocity)
    {
      var limitZ := WALL_LIMIT;
      if ball.z <= -limitZ || ball.z >= limitZ {
        ball := ball.(z := Clamp(ball.z, -limitZ, limitZ));
        velocity := velocity.(z := velocity.z * -1.0);
      }
    }

    method HandlePaddleCollision(side: Side)
      requires Core() && Armed() && -WALL_LIMIT <= ball.z <= WALL_LIMIT
      modifies this`ball, this`velocity, this`ballSpeed, random
      ensures Core() && Armed() && ball.z == old(ball.z)
      ensures !Hits(side, old(ball), old(velocity), PaddleZ(side)) ==>
        ball == old(ball) && velocity == old(velocity) && ballSpeed == old(ballSpeed) && unchanged(random)
      ensures Hits(side, old(ball), old(velocity), PaddleZ(side)) ==> Returned(side)
    {
      if !Hits(side, ball, velocity, PaddleZ(side)) {
        return;
      }
      ReturnBall(side);
    }

    /**
     * The effects of a hit by `side`'s paddle: the ball is snapped onto the
     * paddle's face, sped up, and sent back along the deflection angle with
     * one random draw of spin; with a cosine that is positive up to 45
     * degrees it then moves away from that paddle.
     */
    twostate predicate Returned(side: Side)
      reads this, random
    {
      && ball == old(ball).(x := PaddleFront(side))
      && ballSpeed == HitSpeed(old(ballSpeed))
      && random.Valid()
      && |random.drawn| == |old(random.drawn)| + 1 && random.drawn[..|old(random.drawn)|] == old(random.drawn)
      && velocity == Rebound(cos, sin, side, NormalizedOffset(old(ball.z), PaddleZ(side)), ballSpeed,
                             Spin(random.drawn[|random.drawn| - 1]))
      && (CosPositiveOnQuarter(cos) ==> !Approaching(side, velocity))
    }

    method ReturnBall(side: Side)
      requires Core() && Armed() && -WALL_LIMIT <= ball.z <= WALL_LIMIT
      modifies this`ball, this`velocity, this`ballSpeed, random
      ensures Core() && Armed() && ball.z == old(ball.z)
      ensures Returned(side)
    {
      var paddleZ := PaddleZ(side);
      ball := ball.(x := PaddleFront(side));
      var offset := Clamp(ball.z - paddleZ, -PADDLE_HALF_DEPTH, PADDLE_HALF_DEPTH);
      var normalized := offset / PADDLE_HALF_DEPTH;
      assert normalized == NormalizedOffset(old(ball.z), paddleZ);
      ballSpeed := HitSpeed(ballSpeed);
      var spin := random.Range(-SPIN, SPIN);
      velocity := Rebound(cos, sin, side, normalized, ballSpeed, spin);
      if CosPositiveOnQuarter(cos) {
        ReboundRecedes(cos, sin, side, normalized, ballSpeed, spin);
      }
    }

    method HandleGoals()
      requires Core() && Armed() && -WALL_LIMIT <= ball.z <= WALL_LIMIT
      modifies this, state
      ensures Valid()
      ensures old(ball.x) < -GOAL_LIMIT ==> GoalRegistered(Ai)
      ensures old(ball.x) > GOAL_LIMIT ==> GoalRegistered(Player)
      ensures -GOAL_LIMIT <= old(ball.x) <= GOAL_LIMIT ==> unchanged(this, state)
    {
      var limitX := GOAL_LIMIT;
      if ball.x < -limitX {
        RegisterGoal(Ai);
      } else if ball.x > limitX {
        RegisterGoal(Player);
      }
    }

    method RegisterGoal(winner: Side)
      requires Core() && Armed()
      modifies this, state
      ensures Valid()
      ensures GoalRegistered(winner)
    {
      var snapshot := state.RecordPoint(winner);
      EmitScore(snapshot, Some(winner));
      isServing := true;
      EmitStatus();
      velocity := ZERO;
      ball := BALL_ORIGIN;
      playerPaddleZ := ClampPaddle(playerPaddleZ);
      aiPaddleZ := ClampPaddle(aiPaddleZ);
      if isActive {
        ScheduleServe(GOAL_SERVE_DELAY);
      }
    }

    method PlaceActorsAtOrigin()
      requires Core() && Armed()
      modifies this
      ensures Valid()
      ensures ball == BALL_ORIGIN && velocity == ZERO && playerPaddleZ == 0.0 && aiPaddleZ == 0.0 && isServing
      ensures isActive == old(isActive) && serveTimeout == old(serveTimeout) && ballSpeed == old(ballSpeed)
      ensures events == old(events) + [Status(isActive, true)]
    {
      ball := BALL_ORIGIN;
      velocity := ZERO;
      playerPaddleZ := 0.0;
      aiPaddleZ := 0.0;
      isServing := true;
      EmitStatus();
    }

    method ScheduleServe(delay: nat)
      requires Core() && isActive
      modifies this
      ensures Valid()
      ensures isServing && serveTimeout == Some(delay) && ball == BALL_ORIGIN && velocity == ZERO
      ensures isActive && ballSpeed == old(ballSpeed)
      ensures playerPaddleZ == old(playerPaddleZ) && aiPaddleZ == old(aiPaddleZ)
      ensures events == old(events) + [Status(true, true)]
    {
      ClearServeTimeout();
      isServing := true;
      EmitStatus();
      ball := BALL_ORIGIN;
      velocity := ZERO;
      serveTimeout := Some(delay);
    }

    /**
     * The serve timer expiring. The timer is consumed; the serve itself is
     * dropped unless the engine is still active. `Armed()` is not required
     * here, so the guard is checked in every state the engine can reach.
     */
    method FireServe()
      requires Core() && OnTable() && serveTimeout.Some?
      modifies this, random
      ensures Valid() && serveTimeout == None
      ensures !old(isActive) ==>
        && unchanged(random) && events == old(events)
        && ball == old(ball) && velocity == old(velocity) && ballSpeed == old(ballSpeed) && isServing == old(isServing)
      ensures old(isActive) ==> Served()
      ensures isActive == old(isActive) && ball == old(ball)
      ensures playerPaddleZ == old(playerPaddleZ) && aiPaddleZ == old(aiPaddleZ)
    {
      serveTimeout := None;
      if !isActive {
        return;
      }
      PerformServe();
    }

    /**
     * The effects of `performServe`: serving is cleared and the speed set
     * from the rounds played; the first serve of a match draws its heading
     * and then its angle, a later serve draws only the angle and heads the
     * stored serve direction; one status callback reports the live rally.
     */
    twostate predicate Served()
      reads this, state, random
    {
      var n := |old(random.drawn)|;
      var rounds := state.Snapshot().rounds;
      && random.Valid()
      && !isServing && ballSpeed == ServeSpeed(rounds)
      && |random.drawn| == n + (if rounds == 0 then 2 else 1)
      && random.drawn[..n] == old(random.drawn)
      && (rounds == 0 ==>
            velocity == Launch(cos, sin, ServeAngle(random.drawn[n + 1]), ballSpeed, if random.drawn[n] > 0.5 then 1.0 else -1.0))
      && (rounds > 0 ==>
            velocity == Launch(cos, sin, ServeAngle(random.drawn[n]), ballSpeed, state.Snapshot().serveDirection as real))
      && events == old(events) + [Status(isActive, false)]
    }

    method PerformServe()
      requires Core() && OnTable()
      modifies this`isServing, this`ballSpeed, this`velocity, this`events, random
      ensures Core() && OnTable()
      ensures Served()
    {
      isServing := false;
      var rounds := state.Snapshot().rounds;
      ballSpeed := ServeSpeed(rounds);
      var direction := ServeHeading();
      var angle := random.Range(-PI / 5.0, PI / 5.0);
      velocity := Launch(cos, sin, angle, ballSpeed, direction);
      EmitStatus();
    }

    /** The serve's heading: a fair coin on the first serve of a match, the recorded serve direction afterwards. */
    method ServeHeading() returns (direction: real)
      requires random.Valid()
      modifies random
      ensures random.Valid()
      ensures var n := |old(random.drawn)|;
        && (state.Snapshot().rounds == 0 ==>
              |random.drawn| == n + 1 && random.drawn[..n] == old(random.drawn)
              && direction == if random.drawn[n] > 0.5 then 1.0 else -1.0)
        && (state.Snapshot().rounds > 0 ==>
              random.drawn == old(random.drawn) && direction == state.Snapshot().serveDirection as real)
    {
      if state.Snapshot().rounds == 0 {
        var u := random.Next();
        direction := if u > 0.5 then 1.0 else -1.0;
      } else {
        direction := state.Snapshot().serveDirection as real;
      }
    }

    method ClearServeTimeout()
      modifies this`serveTimeout
      ensures serveTimeout == None
    {
      if serveTimeout.Some? {
        serveTimeout := None;
      }
    }
  }
}
