/** The records that make up the Super Pong server's shared game state, the
    configuration constants, and the pure operations on paddles: input
    clamping and the power-up effects. */
module Entities {

  datatype Option<T> = None | Some(value: T)

  // Field geometry, in canvas pixels.
  const FieldWidth: real := 800.0
  const FieldHeight: real := 600.0
  /** A power-up is attributed to paddle 1 when the ball is left of this line. */
  const Midline: real := 400.0
  const BallRadius: real := 8.0
  const BallStartX: real := 400.0
  const BallStartY: real := 300.0
  const PaddleWidth: real := 20.0
  const NormalHeight: real := 100.0
  const EnlargedHeight: real := 150.0
  const Paddle1X: real := 50.0
  const Paddle2X: real := 750.0
  const PaddleStartY: real := 300.0
  const MinPaddleY: real := 50.0
  const MaxPaddleY: real := 550.0
  const ObstacleSize: real := 40.0
  const PickupRadius: real := 15.0

  // The server's game configuration.
  const BallInitialSpeed: real := 6.0
  const BallMaxSpeed: real := 18.0
  /** Speed gained per second of play. */
  const BallAcceleration: real := 0.3
  const PaddleBounceFactor: real := 1.3
  const WallBounceFactor: real := 0.9
  const PowerUpChance: real := 0.1
  const ObstacleChance: real := 0.05
  /** How long a collected power-up acts on its paddle, in milliseconds. */
  const PowerUpDuration: int := 8000
  const MaxPowerUps: nat := 2
  const MaxObstacles: nat := 1

  /** How long an uncollected power-up stays on the field, in milliseconds. */
  const PowerUpLifetime: int := 20000
  /** How long an untouched obstacle stays on the field, in milliseconds. */
  const ObstacleLifetime: int := 30000
  const TrailLength: nat := 5
  const WinScore: nat := 5
  const CountdownStart: int := 3
  const CenterLineStep: int := 3
  const CenterLinePeriod: int := 20

  /** A connection identifier handed out by the realtime transport. */
  type PlayerId = string

  datatype Status = Waiting | Countdown | Playing | Finished

  datatype PowerUpKind = Speed | Size | Shield

  /** The power-up a paddle currently holds. */
  datatype Effect = Effect(kind: PowerUpKind, duration: int, startTime: int)

  datatype Paddle = Paddle(x: real, y: real, width: real, height: real,
                           powerup: Option<Effect>, invisible: bool, ready: bool)

  datatype Point = Point(x: real, y: real)

  datatype Velocity = Velocity(dx: real, dy: real)

  /** The ball; `trail` holds its most recent positions, newest first. */
  datatype Ball = Ball(x: real, y: real, dx: real, dy: real, trail: seq<Point>, moving: bool)

  /** A power-up lying on the field. */
  datatype PowerUp = PowerUp(x: real, y: real, kind: PowerUpKind, active: bool, createdAt: int)

  /** A destructible block of ObstacleSize x ObstacleSize with its top-left corner at (x, y). */
  datatype Obstacle = Obstacle(x: real, y: real, active: bool, createdAt: int)

  datatype Score = Score(player1: nat, player2: nat)

  /** The random draws behind one paddle hit's spawn attempts: the chance
      roll, type and position of a power-up, then of an obstacle. */
  datatype SpawnRolls = SpawnRolls(powerUpRoll: real, kind: PowerUpKind, powerUpAt: Point,
                                   obstacleRoll: real, obstacleAt: Point)

  /** A paddle as a round starts: centred, normal height, no power-up, not ready. */
  function NewPaddle(x: real): Paddle {
    Paddle(x, PaddleStartY, PaddleWidth, NormalHeight, None, false, false)
  }

  /** The paddle invariant: on its side, fixed width, one of the two
      heights, and y within the clamping range. */
  predicate PaddleOk(p: Paddle, x: real) {
    p.x == x && p.width == PaddleWidth &&
    (p.height == NormalHeight || p.height == EnlargedHeight) &&
    MinPaddleY <= p.y <= MaxPaddleY
  }

  /** The ball that a round reset places at `at`, resting. */
  function ServedBall(at: Point): Ball {
    Ball(at.x, at.y, 0.0, 0.0, [], false)
  }

  /** The range of the random serve position: x within 50 of the centre,
      y in the middle half of the field. */
  predicate ServeInRange(at: Point) {
    BallStartX - 50.0 <= at.x < BallStartX + 50.0 && 150.0 <= at.y < 450.0
  }

  /** A requested paddle y limited to [MinPaddleY, MaxPaddleY]. */
  function Clamp(y: real): (r: real)
    ensures MinPaddleY <= r <= MaxPaddleY
    ensures MinPaddleY <= y <= MaxPaddleY ==> r == y
    ensures y < MinPaddleY ==> r == MinPaddleY
    ensures y > MaxPaddleY ==> r == MaxPaddleY
  {
    var below := if y < MaxPaddleY then y else MaxPaddleY;
    if MinPaddleY < below then below else MinPaddleY
  }

  /** Clamping is idempotent and order-preserving. */
  lemma ClampMonotone(a: real, b: real)
    requires a <= b
    ensures Clamp(a) <= Clamp(b)
    ensures Clamp(Clamp(a)) == Clamp(a)
  {
  }

  /** A paddle picks up a power-up of `kind` at time `now`: the new
      effect replaces whatever it held, and `Size` enlarges the paddle. */
  function ApplyPowerUp(p: Paddle, kind: PowerUpKind, now: int): (r: Paddle)
    ensures r.powerup == Some(Effect(kind, PowerUpDuration, now))
    ensures r.height == if kind == Size then EnlargedHeight else p.height
    ensures r.(powerup := p.powerup, height := p.height) == p
  {
    match kind
    case Speed => p.(powerup := Some(Effect(Speed, PowerUpDuration, now)))
    case Size => p.(powerup := Some(Effect(Size, PowerUpDuration, now)), height := EnlargedHeight)
    case Shield => p.(powerup := Some(Effect(Shield, PowerUpDuration, now)))
  }

  /** True when `p` holds an effect that has run past its duration at `now`. */
  predicate Expired(p: Paddle, now: int) {
    p.powerup.Some? && now - p.powerup.value.startTime > p.powerup.value.duration
  }

  /** Drops a paddle's expired effect; an expired `Size` effect also
      restores the normal height. */
  function ExpireEffect(p: Paddle, now: int): (r: Paddle)
    ensures !Expired(p, now) ==> r == p
    ensures Expired(p, now) ==> r.powerup == None
    ensures Expired(p, now) && p.powerup.value.kind == Size ==> r.height == NormalHeight
    ensures Expired(p, now) && p.powerup.value.kind != Size ==> r.height == p.height
    ensures r.(powerup := p.powerup, height := p.height) == p
    ensures !Expired(r, now)
  {
    match p.powerup
    case None => p
    case Some(e) =>
      if now - e.startTime > e.duration then
        p.(powerup := None, height := if e.kind == Size then NormalHeight else p.height)
      else p
  }

  /** Expiry undoes a power-up once its duration has passed: the paddle
      loses the effect and, for `Size`, gets the normal height back. */
  lemma ExpireUndoesApply(p: Paddle, kind: PowerUpKind, t: int, now: int)
    requires now - t > PowerUpDuration
    ensures ExpireEffect(ApplyPowerUp(p, kind, t), now)
            == p.(powerup := None, height := if kind == Size then NormalHeight else p.height)
  {
  }

  /** Until its duration has passed, expiry leaves a fresh power-up alone. */
  lemma ApplyOutlivesDuration(p: Paddle, kind: PowerUpKind, t: int, now: int)
    requires now - t <= PowerUpDuration
    ensures ExpireEffect(ApplyPowerUp(p, kind, t), now) == ApplyPowerUp(p, kind, t)
  {
  }

  /** A `Size` effect overwritten by another kind is never undone: once
      the later effect expires the paddle holds no effect but keeps the
      enlarged height, since expiry only restores the height for the
      effect it finds. */
  lemma OverwrittenSizeStaysEnlarged(p: Paddle, kind: PowerUpKind, t1: int, t2: int, now: int, t3: int, later: int)
    requires kind != Size && now - t2 > PowerUpDuration
    ensures var q := ExpireEffect(ApplyPowerUp(ApplyPowerUp(p, Size, t1), kind, t2), now);
            q.powerup == None && q.height == EnlargedHeight
    ensures var q := ExpireEffect(ApplyPowerUp(ApplyPowerUp(p, Size, t1), kind, t2), now);
            later - t3 > PowerUpDuration ==> ExpireEffect(ApplyPowerUp(q, Size, t3), later).height == NormalHeight
  {
  }

  /** Applies the power-ups of `kinds` to `p` one after another. */
  function ApplyAll(p: Paddle, kinds: seq<PowerUpKind>, now: int): (r: Paddle)
    ensures kinds == [] ==> r == p
    ensures kinds != [] ==> r.powerup == Some(Effect(kinds[|kinds| - 1], PowerUpDuration, now))
    ensures r.height == if Size in kinds then EnlargedHeight else p.height
    ensures r.(powerup := p.powerup, height := p.height) == p
    decreases |kinds|
  {
    if kinds == [] then p
    else
      assert kinds == [kinds[0]] + kinds[1..];
      ApplyAll(ApplyPowerUp(p, kinds[0], now), kinds[1..], now)
  }

  /** Power-up effects keep the paddle invariant. */
  lemma EffectsKeepPaddleOk(p: Paddle, x: real, kinds: seq<PowerUpKind>, now: int)
    requires PaddleOk(p, x)
    ensures PaddleOk(ApplyAll(p, kinds, now), x)
    ensures PaddleOk(ExpireEffect(p, now), x)
  {
  }
}
