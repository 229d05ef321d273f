/** The pure steps of one simulation tick: speed ramp, trail and position
    integration, wall and paddle bounces, the obstacle and power-up contact
    tests, and scoring. The tick method of the game class applies them to
    its state one after another. */
module Physics {
  import opened Entities
  import opened Seqs

  function Abs(v: real): (r: real)
    ensures r >= 0.0 && (r == v || r == -v)
  {
    if v < 0.0 then -v else v
  }

  /** Seconds between two millisecond timestamps. */
  function Elapsed(last: int, now: int): real {
    (now - last) as real / 1000.0
  }

  /** The play time after a tick at `now`, when the previous tick was
      at `last`. */
  function PlayTime(gameTime: real, last: int, now: int): real {
    gameTime + Elapsed(last, now)
  }

  /** The speed the ball should have after `gameTime` seconds of play. */
  function TargetSpeed(gameTime: real): (r: real)
    ensures r <= BallMaxSpeed
    ensures r <= BallInitialSpeed + gameTime * BallAcceleration
    ensures r == BallMaxSpeed || r == BallInitialSpeed + gameTime * BallAcceleration
    ensures gameTime >= 0.0 ==> r >= BallInitialSpeed
  {
    var ramped := BallInitialSpeed + gameTime * BallAcceleration;
    if ramped < BallMaxSpeed then ramped else BallMaxSpeed
  }

  /** Rescales the velocity to `target` keeping its direction; `speed` is
      the current speed, the square root of dx^2 + dy^2. A resting ball
      (speed 0) is left alone. */
  function Ramp(b: Ball, target: real, speed: real): (r: Ball)
    ensures speed <= 0.0 ==> r == b
    ensures r.(dx := b.dx, dy := b.dy) == b
  {
    if speed > 0.0 then b.(dx := b.dx / speed * target, dy := b.dy / speed * target) else b
  }

  /** After the ramp the ball moves at exactly the target speed. */
  lemma RampReachesTarget(b: Ball, target: real, speed: real)
    requires speed > 0.0 && speed * speed == b.dx * b.dx + b.dy * b.dy
    ensures var r := Ramp(b, target, speed); r.dx * r.dx + r.dy * r.dy == target * target
  {
    var k := target / speed;
    var r := Ramp(b, target, speed);
    assert speed * k == target;
    assert r.dx == b.dx * k && r.dy == b.dy * k;
    calc {
      r.dx * r.dx + r.dy * r.dy;
      == (b.dx * b.dx + b.dy * b.dy) * (k * k);
      == (speed * k) * (speed * k);
    }
  }

  /** With a positive target the ramp keeps the direction of travel on
      both axes. */
  lemma RampKeepsHeading(b: Ball, target: real, speed: real)
    requires speed > 0.0 && target > 0.0
    ensures var r := Ramp(b, target, speed);
            (r.dx > 0.0 <==> b.dx > 0.0) && (r.dx < 0.0 <==> b.dx < 0.0) &&
            (r.dy > 0.0 <==> b.dy > 0.0) && (r.dy < 0.0 <==> b.dy < 0.0) &&
            r.dx * b.dy == r.dy * b.dx
  {
    var k := target / speed;
    assert k > 0.0;
    var r := Ramp(b, target, speed);
    assert r.dx == b.dx * k && r.dy == b.dy * k;
  }

  /** Pushes `at` onto the front of the trail and drops the oldest entry
      once the trail is longer than TrailLength. */
  function PushTrail(trail: seq<Point>, at: Point): (r: seq<Point>)
    ensures |r| == if |trail| < TrailLength then |trail| + 1 else |trail|
    ensures r[0] == at
    ensures forall i :: 0 < i < |r| ==> r[i] == trail[i - 1]
  {
    var pushed := [at] + trail;
    if |pushed| > TrailLength then pushed[..|pushed| - 1] else pushed
  }

  /** Records the current position in the trail, then moves by (dx, dy). */
  function Advance(b: Ball): (r: Ball)
    ensures r.x - b.x == b.dx && r.y - b.y == b.dy
    ensures r.trail != [] && r.trail[0] == Point(b.x, b.y)
    ensures |b.trail| <= TrailLength ==> |r.trail| <= TrailLength
    ensures r.(x := b.x, y := b.y, trail := b.trail) == b
  {
    b.(trail := PushTrail(b.trail, Point(b.x, b.y)), x := b.x + b.dx, y := b.y + b.dy)
  }

  /** True when the ball has reached the top or bottom wall. */
  predicate AtWall(b: Ball) {
    b.y <= BallRadius || b.y >= FieldHeight - BallRadius
  }

  /** Clamps the ball to the field height and reflects dy, damped by
      WallBounceFactor, when it reaches a wall. */
  function WallStep(b: Ball): (r: Ball)
    ensures BallRadius <= r.y <= FieldHeight - BallRadius
    ensures b.y <= BallRadius ==> r.y == BallRadius
    ensures BallRadius < b.y && b.y >= FieldHeight - BallRadius ==> r.y == FieldHeight - BallRadius
    ensures !AtWall(b) ==> r == b
    ensures AtWall(b) ==> r.dy == -(b.dy * WallBounceFactor) && Abs(r.dy) <= Abs(b.dy)
    ensures r.(y := b.y, dy := b.dy) == b
  {
    if b.y <= BallRadius then
      b.(y := BallRadius, dy := -b.dy * WallBounceFactor)
    else if b.y >= FieldHeight - BallRadius then
      b.(y := FieldHeight - BallRadius, dy := -b.dy * WallBounceFactor)
    else b
  }

  /** The box test of the ball against paddle 1 (skipped when invisible):
      the ball's centre lies within the paddle's rectangle widened by the
      ball's radius on both sides. */
  predicate HitsPaddle1(b: Ball, p: Paddle): (r: bool)
    ensures r ==> !p.invisible
    ensures r ==> Abs(b.x - (p.x + p.width / 2.0)) <= p.width / 2.0 + BallRadius
    ensures r ==> Abs(b.y - p.y) <= p.height / 2.0
  {
    b.x <= p.x + p.width + BallRadius && b.x >= p.x - BallRadius &&
    b.y >= p.y - p.height / 2.0 && b.y <= p.y + p.height / 2.0 && !p.invisible
  }

  /** The box test of the ball against paddle 2 (skipped when invisible);
      paddle 2's rectangle extends from its x to the left. */
  predicate HitsPaddle2(b: Ball, p: Paddle): (r: bool)
    ensures r ==> !p.invisible
    ensures r ==> Abs(b.x - (p.x - p.width / 2.0)) <= p.width / 2.0 + BallRadius
    ensures r ==> Abs(b.y - p.y) <= p.height / 2.0
  {
    b.x >= p.x - p.width - BallRadius && b.x <= p.x + BallRadius &&
    b.y >= p.y - p.height / 2.0 && b.y <= p.y + p.height / 2.0 && !p.invisible
  }

  /** Where the ball meets the paddle, from -1 (top end) to 1 (bottom end);
      the rebound angle is this times 60 degrees. */
  function HitPoint(b: Ball, p: Paddle): real
    requires p.height > 0.0
  {
    (b.y - p.y) / (p.height / 2.0)
  }

  /** A ball that passes either paddle's box test meets the paddle within
      its length, so the rebound angle stays within 60 degrees; a hit at
      the paddle's centre gives angle 0. */
  lemma HitPointRange(b: Ball, p: Paddle)
    requires p.height > 0.0
    requires HitsPaddle1(b, p) || HitsPaddle2(b, p)
    ensures -1.0 <= HitPoint(b, p) <= 1.0
    ensures b.y == p.y ==> HitPoint(b, p) == 0.0
  {
    var half := p.height / 2.0;
    assert -half <= b.y - p.y <= half;
    RatioBound(b.y - p.y, half);
  }

  /** A value within [-half, half] is within [-1, 1] once divided by half. */
  lemma RatioBound(y: real, half: real)
    requires half > 0.0 && -half <= y <= half
    ensures -1.0 <= y / half <= 1.0
  {
    var q := y / half;
    assert q * half == y;
    assert (q - 1.0) * half <= 0.0 && (q + 1.0) * half >= 0.0;
  }

  /** Paddle 1 returns the ball: it is put at the paddle's outer edge and
      sent right, faster by PaddleBounceFactor, at the angle `hitSin`
      gives for the hit point (`hitSin(h)` stands for sin(h * pi / 3)). */
  function Bounce1(b: Ball, p: Paddle, hitSin: real -> real): (r: Ball)
    requires p.height > 0.0
    ensures r.x == p.x + p.width + BallRadius
    ensures r.dx == Abs(b.dx) * PaddleBounceFactor && r.dx >= Abs(b.dx)
    ensures b.dx != 0.0 ==> r.dx > 0.0
    ensures r.dy == hitSin(HitPoint(b, p)) * r.dx
    ensures r.(x := b.x, dx := b.dx, dy := b.dy) == b
  {
    var dx := Abs(b.dx) * PaddleBounceFactor;
    b.(x := p.x + p.width + BallRadius, dx := dx, dy := hitSin(HitPoint(b, p)) * dx)
  }

  /** Paddle 2 returns the ball: it is put at the paddle's outer edge and
      sent left, faster by PaddleBounceFactor. */
  function Bounce2(b: Ball, p: Paddle, hitSin: real -> real): (r: Ball)
    requires p.height > 0.0
    ensures r.x == p.x - p.width - BallRadius
    ensures r.dx == -(Abs(b.dx) * PaddleBounceFactor) && Abs(r.dx) >= Abs(b.dx)
    ensures b.dx != 0.0 ==> r.dx < 0.0
    ensures r.dy == hitSin(HitPoint(b, p)) * Abs(r.dx)
    ensures r.(x := b.x, dx := b.dx, dy := b.dy) == b
  {
    var dx := -Abs(b.dx) * PaddleBounceFactor;
    b.(x := p.x - p.width - BallRadius, dx := dx, dy := hitSin(HitPoint(b, p)) * Abs(dx))
  }

  /** The ball after ramp, trail, integration and the wall test. */
  function Flown(b: Ball, target: real, speed: real): Ball {
    WallStep(Advance(Ramp(b, target, speed)))
  }

  /** The ball after the paddle 1 test. */
  function Returned1(b: Ball, p1: Paddle, hitSin: real -> real): Ball
    requires p1.height > 0.0
  {
    if HitsPaddle1(b, p1) then Bounce1(b, p1, hitSin) else b
  }

  /** The ball after the paddle 2 test. */
  function Returned2(b: Ball, p2: Paddle, hitSin: real -> real): Ball
    requires p2.height > 0.0
  {
    if HitsPaddle2(b, p2) then Bounce2(b, p2, hitSin) else b
  }

  /** Where one tick's movement and bounces leave the ball. */
  function Flight(b: Ball, p1: Paddle, p2: Paddle, target: real, speed: real,
                  hitSin: real -> real): (r: Ball)
    requires p1.height > 0.0 && p2.height > 0.0
    ensures |b.trail| <= TrailLength ==> |r.trail| <= TrailLength
    ensures r.trail != [] && r.trail[0] == Point(b.x, b.y)
    ensures BallRadius <= r.y <= FieldHeight - BallRadius
    ensures r.moving == b.moving
  {
    Returned2(Returned1(Flown(b, target, speed), p1, hitSin), p2, hitSin)
  }

  /** The power-ups after a paddle hit (`hit`) tries to spawn one with
      the draws `rolls`: a won roll adds one, created at `now`, while
      fewer than MaxPowerUps lie on the field. */
  function SpawnedPowerUps(ps: seq<PowerUp>, hit: bool, rolls: SpawnRolls, now: int): (r: seq<PowerUp>)
    ensures ps <= r && |r| <= |ps| + 1
    ensures |ps| <= MaxPowerUps ==> |r| <= MaxPowerUps
    ensures !hit ==> r == ps
    ensures |r| == |ps| + 1 <==> hit && rolls.powerUpRoll < PowerUpChance && |ps| < MaxPowerUps
    ensures |r| == |ps| + 1 ==> r[|ps|] == PowerUp(rolls.powerUpAt.x, rolls.powerUpAt.y, rolls.kind, true, now)
  {
    if hit && rolls.powerUpRoll < PowerUpChance && |ps| < MaxPowerUps
    then ps + [PowerUp(rolls.powerUpAt.x, rolls.powerUpAt.y, rolls.kind, true, now)]
    else ps
  }

  /** The obstacles after a paddle hit tries to spawn a block. */
  function SpawnedObstacles(os: seq<Obstacle>, hit: bool, rolls: SpawnRolls, now: int): (r: seq<Obstacle>)
    ensures os <= r && |r| <= |os| + 1
    ensures |os| <= MaxObstacles ==> |r| <= MaxObstacles
    ensures !hit ==> r == os
    ensures |r| == |os| + 1 <==> hit && rolls.obstacleRoll < ObstacleChance && |os| < MaxObstacles
    ensures |r| == |os| + 1 ==> r[|os|] == Obstacle(rolls.obstacleAt.x, rolls.obstacleAt.y, true, now)
  {
    if hit && rolls.obstacleRoll < ObstacleChance && |os| < MaxObstacles
    then os + [Obstacle(rolls.obstacleAt.x, rolls.obstacleAt.y, true, now)]
    else os
  }

  /** The power-ups after the paddle tests of a tick: the ball `w`, as it
      reaches the paddles, may hit paddle 1 (drawing `spawn1`) and, once
      returned, paddle 2 (drawing `spawn2`). */
  function PowerUpsAfterHits(ps: seq<PowerUp>, w: Ball, p1: Paddle, p2: Paddle, hitSin: real -> real,
                             spawn1: SpawnRolls, spawn2: SpawnRolls, now: int): seq<PowerUp>
    requires p1.height > 0.0
  {
    SpawnedPowerUps(SpawnedPowerUps(ps, HitsPaddle1(w, p1), spawn1, now),
                    HitsPaddle2(Returned1(w, p1, hitSin), p2), spawn2, now)
  }

  /** The obstacles after the paddle tests of a tick. */
  function ObstaclesAfterHits(os: seq<Obstacle>, w: Ball, p1: Paddle, p2: Paddle, hitSin: real -> real,
                              spawn1: SpawnRolls, spawn2: SpawnRolls, now: int): seq<Obstacle>
    requires p1.height > 0.0
  {
    SpawnedObstacles(SpawnedObstacles(os, HitsPaddle1(w, p1), spawn1, now),
                     HitsPaddle2(Returned1(w, p1, hitSin), p2), spawn2, now)
  }

  /** A tick's paddle hits only ever add items, so a power-up on the field
      before the tick that the ball does not reach is still on the field
      after the pickup pass, and likewise for a block it does not touch. */
  lemma UnreachedItemsStay(ps: seq<PowerUp>, os: seq<Obstacle>, w: Ball, p1: Paddle, p2: Paddle,
                           hitSin: real -> real, spawn1: SpawnRolls, spawn2: SpawnRolls, now: int, b: Ball)
    requires p1.height > 0.0
    ensures forall p :: p in ps && !Collects(b, p) ==>
              p in Filter(PowerUpsAfterHits(ps, w, p1, p2, hitSin, spawn1, spawn2, now), Remains(b))
    ensures forall o :: o in os && !Smashes(b, o) ==>
              o in Filter(ObstaclesAfterHits(os, w, p1, p2, hitSin, spawn1, spawn2, now), Survives(b))
  {
    var spawned := PowerUpsAfterHits(ps, w, p1, p2, hitSin, spawn1, spawn2, now);
    var blocks := ObstaclesAfterHits(os, w, p1, p2, hitSin, spawn1, spawn2, now);
    assert ps <= spawned && os <= blocks;
    FilterKeepsPrefix(ps, spawned, Remains(b));
    FilterKeepsPrefix(os, blocks, Survives(b));
    forall p | p in ps && !Collects(b, p)
      ensures p in Filter(spawned, Remains(b))
    {
      assert Remains(b)(p);
    }
    forall o | o in os && !Smashes(b, o)
      ensures o in Filter(blocks, Survives(b))
    {
      assert Survives(b)(o);
    }
  }

  /** A block the ball touches (it is destroyed on contact): an active
      block whose square contains the ball's centre. */
  predicate Smashes(b: Ball, o: Obstacle): (r: bool)
    ensures r ==> o.active
    ensures r ==> Abs(b.x - (o.x + ObstacleSize / 2.0)) <= ObstacleSize / 2.0
    ensures r ==> Abs(b.y - (o.y + ObstacleSize / 2.0)) <= ObstacleSize / 2.0
  {
    o.active &&
    b.x >= o.x && b.x <= o.x + ObstacleSize && b.y >= o.y && b.y <= o.y + ObstacleSize
  }

  /** A power-up the ball picks up: its centre lies closer than
      BallRadius + PickupRadius to the ball's centre (compared squared),
      so it lies within that distance on each axis. */
  predicate Collects(b: Ball, p: PowerUp): (r: bool)
    ensures r ==> p.active
    ensures r ==> Abs(b.x - p.x) < BallRadius + PickupRadius && Abs(b.y - p.y) < BallRadius + PickupRadius
  {
    var ex, ey := b.x - p.x, b.y - p.y;
    p.active && ex * ex + ey * ey < (BallRadius + PickupRadius) * (BallRadius + PickupRadius)
  }

  function Survives(b: Ball): Obstacle -> bool {
    o => !Smashes(b, o)
  }

  function Remains(b: Ball): PowerUp -> bool {
    p => !Collects(b, p)
  }

  function PowerUpFresh(now: int): PowerUp -> bool {
    (p: PowerUp) => now - p.createdAt < PowerUpLifetime
  }

  function ObstacleFresh(now: int): Obstacle -> bool {
    (o: Obstacle) => now - o.createdAt < ObstacleLifetime
  }

  /** The kinds of the power-ups of `ps` the ball picks up, in order. */
  function PickedKinds(b: Ball, ps: seq<PowerUp>): (r: seq<PowerUpKind>)
    ensures |r| <= |ps|
    decreases |ps|
  {
    if ps == [] then []
    else (if Collects(b, ps[0]) then [ps[0].kind] else []) + PickedKinds(b, ps[1..])
  }

  /** A kind is picked up exactly when the ball reaches a power-up of that
      kind. */
  lemma {:induction false} PickedKindsMembers(b: Ball, ps: seq<PowerUp>)
    ensures forall k :: k in PickedKinds(b, ps) <==> exists p :: p in ps && Collects(b, p) && p.kind == k
    decreases |ps|
  {
    if ps != [] {
      PickedKindsMembers(b, ps[1..]);
      assert ps == [ps[0]] + ps[1..];
    }
  }

  /** One step of the power-up pass: `list` is the part `kept` already
      decided followed by the unvisited `todo`, and `collector`, once the
      power-ups in `todo` are applied to it, ends as `target`. A power-up
      the ball reaches is spliced out and applied; any other is kept. */
  lemma CollectStep(b: Ball, todo: seq<PowerUp>, kept: seq<PowerUp>, list: seq<PowerUp>,
                    whole: seq<PowerUp>, collector: Paddle, target: Paddle, now: int)
    requires todo != [] && list == kept + todo
    requires kept + Filter(todo, Remains(b)) == whole
    requires ApplyAll(collector, PickedKinds(b, todo), now) == target
    ensures list[|kept|] == todo[0]
    ensures Collects(b, todo[0]) ==>
              list[..|kept|] + list[|kept| + 1..] == kept + todo[1..] &&
              kept + Filter(todo[1..], Remains(b)) == whole &&
              ApplyAll(ApplyPowerUp(collector, todo[0].kind, now), PickedKinds(b, todo[1..]), now) == target
    ensures !Collects(b, todo[0]) ==>
              list == (kept + [todo[0]]) + todo[1..] &&
              (kept + [todo[0]]) + Filter(todo[1..], Remains(b)) == whole &&
              ApplyAll(collector, PickedKinds(b, todo[1..]), now) == target
  {
    FilterStep(todo, kept, list, whole, Remains(b));
    assert Remains(b)(todo[0]) == !Collects(b, todo[0]);
    var rest := PickedKinds(b, todo[1..]);
    if Collects(b, todo[0]) {
      assert ([todo[0].kind] + rest)[0] == todo[0].kind && ([todo[0].kind] + rest)[1..] == rest;
    }
  }

  /** The power-up pass as the server writes it: `forEach` visits index
      `i` of the live array and `splice` removes a reached power-up, so
      the element that moves into position `i` is never visited. */
  function SpliceWhileIterating(b: Ball, list: seq<PowerUp>, i: nat): (r: seq<PowerUp>)
    ensures |r| <= |list|
    ensures forall p :: p in r ==> p in list
    decreases |list| - i
  {
    if i >= |list| then list
    else if Collects(b, list[i]) then SpliceWhileIterating(b, list[..i] + list[i + 1..], i + 1)
    else SpliceWhileIterating(b, list, i + 1)
  }

  /** Two power-ups lying under the ball: the pass as written removes only
      the first one, while removing every reached power-up leaves none. */
  lemma SpliceSkipsNeighbour()
    ensures var b := Ball(300.0, 300.0, 6.0, 0.0, [], true);
            var p := PowerUp(300.0, 300.0, Speed, true, 0);
            SpliceWhileIterating(b, [p, p], 0) == [p] && Filter([p, p], Remains(b)) == []
  {
    var b := Ball(300.0, 300.0, 6.0, 0.0, [], true);
    var p := PowerUp(300.0, 300.0, Speed, true, 0);
    assert Collects(b, p);
    assert [p, p][..0] + [p, p][1..] == [p];
    assert SpliceWhileIterating(b, [p], 1) == [p];
  }

  /** The centre line's dash offset after one tick's animation step: it
      advances by CenterLineStep and wraps around at CenterLinePeriod. */
  function NextOffset(offset: int): (r: int)
    ensures 0 <= r < CenterLinePeriod
    ensures 0 <= offset < CenterLinePeriod - CenterLineStep ==> r == offset + CenterLineStep
    ensures CenterLinePeriod - CenterLineStep <= offset < CenterLinePeriod ==>
              r == offset + CenterLineStep - CenterLinePeriod
  {
    (offset + CenterLineStep) % CenterLinePeriod
  }

  /** True when the ball has left the field on the left or right. */
  predicate Scores(x: real) {
    x <= 0.0 || x >= FieldWidth
  }

  /** The score after the ball ends a tick at `x`: leaving on the left is a
      point for player 2, on the right a point for player 1. */
  function Award(s: Score, x: real): (r: Score)
    ensures x <= 0.0 ==> r == Score(s.player1, s.player2 + 1)
    ensures x >= FieldWidth ==> r == Score(s.player1 + 1, s.player2)
    ensures !Scores(x) ==> r == s
    ensures r.player1 >= s.player1 && r.player2 >= s.player2
    ensures r.player1 + r.player2 == s.player1 + s.player2 + (if Scores(x) then 1 else 0)
  {
    if x <= 0.0 then s.(player2 := s.player2 + 1)
    else if x >= FieldWidth then s.(player1 := s.player1 + 1)
    else s
  }

  /** True when the point scored at `x` takes its scorer to WinScore. */
  predicate Wins(s: Score, x: real) {
    var t := Award(s, x);
    (x <= 0.0 && t.player2 >= WinScore) || (x >= FieldWidth && t.player1 >= WinScore)
  }

  /** True when the ball at `x` scores a point that does not end the
      match, so that a new round starts. */
  predicate Resets(s: Score, x: real) {
    Scores(x) && !Wins(s, x)
  }

  /** A match is won only by scoring, and it is won exactly when the
      scorer's previous total was one short of WinScore or more. */
  lemma WinsOnlyByScoring(s: Score, x: real)
    ensures Wins(s, x) ==> Scores(x)
    ensures x <= 0.0 ==> (Wins(s, x) <==> s.player2 + 1 >= WinScore)
    ensures x >= FieldWidth ==> (Wins(s, x) <==> s.player1 + 1 >= WinScore)
  {
  }
}
