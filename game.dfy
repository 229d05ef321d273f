/** The authoritative game state of the Super Pong server and everything
    that changes it: the connection and input handlers, the round and match
    state machine (reset, countdown, start), the power-up and obstacle
    lifecycle, and the simulation tick. Timer callbacks are separate step
    methods; the clock, random draws, square root and sine are parameters. */
module Server {
  import opened Entities
  import opened Seqs
  import opened Physics

  class Game {
    var paddle1: Paddle
    var paddle2: Paddle
    var ball: Ball
    var score: Score
    var status: Status
    /** Connected players in arrival order; the first is player 1. */
    var players: seq<PlayerId>
    var powerups: seq<PowerUp>
    var obstacles: seq<Obstacle>
    /** Seconds of play in this round; drives the speed ramp. */
    var gameTime: real
    /** Timestamp of the last tick, in milliseconds. */
    var lastUpdate: int
    var centerOffset: int
    var countdown: int
    var gameStartTime: Option<int>

    /** The state invariant: paddles in range and on their side, at most
        two players and no duplicates, item counts within their maxima
        and every listed item active, a bounded trail, the ball between
        the walls and the centre line offset within its period. */
    ghost predicate Valid()
      reads this
    {
      PaddleOk(paddle1, Paddle1X) && PaddleOk(paddle2, Paddle2X) &&
      |players| <= 2 && Distinct(players) &&
      |powerups| <= MaxPowerUps && (forall p :: p in powerups ==> p.active) &&
      |obstacles| <= MaxObstacles && (forall o :: o in obstacles ==> o.active) &&
      |ball.trail| <= TrailLength &&
      BallRadius <= ball.y <= FieldHeight - BallRadius &&
      0 <= centerOffset < CenterLinePeriod
    }

    /** The round-scoped part of the state right after a round reset that
        served the ball at `serve` at time `now`. */
    ghost predicate FreshRound(serve: Point, now: int)
      reads this
    {
      ball == ServedBall(serve) &&
      paddle1 == NewPaddle(Paddle1X) && paddle2 == NewPaddle(Paddle2X) &&
      status == Countdown && powerups == [] && obstacles == [] &&
      gameTime == 0.0 && lastUpdate == now &&
      countdown == CountdownStart && gameStartTime == None
    }

    /** The server's state at start-up. */
    constructor (now: int)
      ensures Valid()
      ensures paddle1 == NewPaddle(Paddle1X) && paddle2 == NewPaddle(Paddle2X)
      ensures ball == Ball(BallStartX, BallStartY, 0.0, 0.0, [], false)
      ensures score == Score(0, 0) && status == Waiting
      ensures players == [] && powerups == [] && obstacles == []
      ensures gameTime == 0.0 && lastUpdate == now && centerOffset == 0
      ensures countdown == CountdownStart && gameStartTime == None
    {
      paddle1 := NewPaddle(Paddle1X);
      paddle2 := NewPaddle(Paddle2X);
      ball := Ball(BallStartX, BallStartY, 0.0, 0.0, [], false);
      score := Score(0, 0);
      status := Waiting;
      players := [];
      powerups := [];
      obstacles := [];
      gameTime := 0.0;
      lastUpdate := now;
      centerOffset := 0;
      countdown := CountdownStart;
      gameStartTime := None;
    }

    /** Starts a new round keeping the score: the ball is served at rest
        at `serve`, paddles, items and the clock are rebuilt, and the
        countdown starts from CountdownStart. */
    method ResetRound(now: int, serve: Point)
      requires Valid() && ServeInRange(serve)
      modifies this`ball, this`paddle1, this`paddle2, this`status, this`powerups,
               this`obstacles, this`gameTime, this`lastUpdate, this`countdown,
               this`gameStartTime
      ensures Valid()
      ensures FreshRound(serve, now)
    {
      ball, paddle1, paddle2 := ServedBall(serve), NewPaddle(Paddle1X), NewPaddle(Paddle2X);
      status, powerups, obstacles := Countdown, [], [];
      gameTime, lastUpdate := 0.0, now;
      countdown, gameStartTime := CountdownStart, None;
    }

    /** A new connection takes the next free player slot; the second
        player to arrive starts a round. Observers beyond two get no slot
        and change nothing. */
    method Connect(id: PlayerId, now: int, serve: Point)
      requires Valid() && id !in players && ServeInRange(serve)
      modifies this`players, this`ball, this`paddle1, this`paddle2, this`status,
               this`powerups, this`obstacles, this`gameTime, this`lastUpdate,
               this`countdown, this`gameStartTime
      ensures Valid()
      ensures |players| <= 2
      ensures |old(players)| >= 2 ==> unchanged(this)
      ensures |old(players)| < 2 ==> players == old(players) + [id]
      ensures |old(players)| == 1 ==> FreshRound(serve, now)
      ensures |old(players)| == 0 ==>
                ball == old(ball) && paddle1 == old(paddle1) && paddle2 == old(paddle2) &&
                status == old(status) && powerups == old(powerups) &&
                obstacles == old(obstacles) && countdown == old(countdown) &&
                gameTime == old(gameTime) && lastUpdate == old(lastUpdate) &&
                gameStartTime == old(gameStartTime)
    {
      if |players| < 2 {
        players := players + [id];
        if |players| == 2 {
          ResetRound(now, serve);
        }
      }
    }

    /** Sets the named paddle's y to the requested value clamped to
        [MinPaddleY, MaxPaddleY]; any player number other than 1 or 2 is
        ignored. */
    method MovePaddle(player: int, y: real)
      requires Valid()
      modifies this`paddle1, this`paddle2
      ensures Valid()
      ensures player == 1 ==> paddle1 == old(paddle1).(y := Clamp(y)) && paddle2 == old(paddle2)
      ensures player == 2 ==> paddle2 == old(paddle2).(y := Clamp(y)) && paddle1 == old(paddle1)
      ensures player != 1 && player != 2 ==> unchanged(this)
    {
      if player == 1 {
        paddle1 := paddle1.(y := Clamp(y));
      } else if player == 2 {
        paddle2 := paddle2.(y := Clamp(y));
      }
    }

    /** Marks the named player ready; when both are ready while the game
        waits, a round starts (and the reset clears both flags again). */
    method PlayerReady(player: int, now: int, serve: Point)
      requires Valid() && ServeInRange(serve)
      modifies this`ball, this`paddle1, this`paddle2, this`status, this`powerups,
               this`obstacles, this`gameTime, this`lastUpdate, this`countdown,
               this`gameStartTime
      ensures Valid()
      ensures var p1 := if player == 1 then old(paddle1).(ready := true) else old(paddle1);
              var p2 := if player == 2 then old(paddle2).(ready := true) else old(paddle2);
              if p1.ready && p2.ready && old(status) == Waiting then
                FreshRound(serve, now)
              else
                paddle1 == p1 && paddle2 == p2 && ball == old(ball) &&
                status == old(status) && powerups == old(powerups) &&
                obstacles == old(obstacles) && countdown == old(countdown) &&
                gameTime == old(gameTime) && lastUpdate == old(lastUpdate) &&
                gameStartTime == old(gameStartTime)
    {
      if player == 1 {
        paddle1 := paddle1.(ready := true);
      } else if player == 2 {
        paddle2 := paddle2.(ready := true);
      }
      if paddle1.ready && paddle2.ready && status == Waiting {
        ResetRound(now, serve);
      }
    }

    /** A client's reset request: both scores go back to zero and a new
        round starts. */
    method RequestReset(now: int, serve: Point)
      requires Valid() && ServeInRange(serve)
      modifies this`score, this`ball, this`paddle1, this`paddle2, this`status,
               this`powerups, this`obstacles, this`gameTime, this`lastUpdate,
               this`countdown, this`gameStartTime
      ensures Valid()
      ensures score == Score(0, 0)
      ensures FreshRound(serve, now)
    {
      score := Score(0, 0);
      ResetRound(now, serve);
    }

    /** A connection closes: its slot is freed (the other player keeps its
        order), and below two players the game drops back to `Waiting`
        with both ready flags cleared. */
    method Disconnect(id: PlayerId)
      requires Valid()
      modifies this`players, this`status, this`paddle1, this`paddle2
      ensures Valid()
      ensures players == Without(old(players), id)
      ensures id !in players
      ensures forall q :: q != id ==> (q in players <==> q in old(players))
      ensures |players| < 2 ==>
                status == Waiting &&
                paddle1 == old(paddle1).(ready := false) && paddle2 == old(paddle2).(ready := false)
      ensures |players| >= 2 ==>
                status == old(status) && paddle1 == old(paddle1) && paddle2 == old(paddle2)
    {
      WithoutDistinct(players, id);
      var index := IndexOf(players, id);
      if index > -1 {
        players := players[..index] + players[index + 1..];
      }
      if |players| < 2 {
        status := Waiting;
        paddle1 := paddle1.(ready := false);
        paddle2 := paddle2.(ready := false);
      }
    }

    /** Sends the ball off: status becomes `Playing` and the ball gets its
        serve velocity `dir`, but it stays where it is until BallStart. */
    method StartGame(now: int, dir: Velocity)
      requires Valid()
      modifies this`status, this`gameStartTime, this`ball
      ensures Valid()
      ensures status == Playing && gameStartTime == Some(now)
      ensures ball == old(ball).(dx := dir.dx, dy := dir.dy)
    {
      status := Playing;
      gameStartTime := Some(now);
      ball := ball.(dx := dir.dx, dy := dir.dy);
    }

    /** One second of the countdown: the counter drops by one, and once it
        reaches zero the game starts. */
    method CountdownStep(now: int, dir: Velocity)
      requires Valid()
      modifies this`countdown, this`status, this`gameStartTime, this`ball
      ensures Valid()
      ensures countdown == old(countdown) - 1
      ensures countdown > 0 ==>
                status == old(status) && ball == old(ball) && gameStartTime == old(gameStartTime)
      ensures countdown <= 0 ==>
                status == Playing && gameStartTime == Some(now) &&
                ball == old(ball).(dx := dir.dx, dy := dir.dy)
    {
      countdown := countdown - 1;
      if countdown <= 0 {
        StartGame(now, dir);
      }
    }

    /** The delayed start: the ball begins to move. */
    method BallStart()
      requires Valid()
      modifies this`ball
      ensures Valid()
      ensures ball == old(ball).(moving := true)
    {
      ball := ball.(moving := true);
    }

    /** On a won chance roll, and only below MaxPowerUps, adds a power-up
        created at `now`. */
    method CreatePowerUp(rolls: SpawnRolls, now: int)
      requires Valid()
      modifies this`powerups
      ensures Valid()
      ensures if rolls.powerUpRoll < PowerUpChance && |old(powerups)| < MaxPowerUps
              then powerups == old(powerups) +
                     [PowerUp(rolls.powerUpAt.x, rolls.powerUpAt.y, rolls.kind, true, now)]
              else powerups == old(powerups)
    {
      if rolls.powerUpRoll < PowerUpChance && |powerups| < MaxPowerUps {
        powerups := powerups + [PowerUp(rolls.powerUpAt.x, rolls.powerUpAt.y, rolls.kind, true, now)];
      }
    }

    /** On a won chance roll, and only below MaxObstacles, adds a block
        created at `now`. */
    method CreateObstacle(rolls: SpawnRolls, now: int)
      requires Valid()
      modifies this`obstacles
      ensures Valid()
      ensures if rolls.obstacleRoll < ObstacleChance && |old(obstacles)| < MaxObstacles
              then obstacles == old(obstacles) +
                     [Obstacle(rolls.obstacleAt.x, rolls.obstacleAt.y, true, now)]
              else obstacles == old(obstacles)
    {
      if rolls.obstacleRoll < ObstacleChance && |obstacles| < MaxObstacles {
        obstacles := obstacles + [Obstacle(rolls.obstacleAt.x, rolls.obstacleAt.y, true, now)];
      }
    }

    /** Keeps the power-ups younger than PowerUpLifetime and the obstacles
        younger than ObstacleLifetime, and ends each paddle's expired
        effect. */
    method CleanExpiredItems(now: int)
      requires Valid()
      modifies this`powerups, this`obstacles, this`paddle1, this`paddle2
      ensures Valid()
      ensures powerups == Filter(old(powerups), PowerUpFresh(now))
      ensures obstacles == Filter(old(obstacles), ObstacleFresh(now))
      ensures paddle1 == ExpireEffect(old(paddle1), now)
      ensures paddle2 == ExpireEffect(old(paddle2), now)
      ensures paddle1.y == old(paddle1.y) && paddle2.y == old(paddle2.y)
      ensures forall p :: p in powerups <==> p in old(powerups) && now - p.createdAt < PowerUpLifetime
      ensures forall o :: o in obstacles <==> o in old(obstacles) && now - o.createdAt < ObstacleLifetime
    {
      EffectsKeepPaddleOk(paddle1, Paddle1X, [], now);
      EffectsKeepPaddleOk(paddle2, Paddle2X, [], now);
      FilterMembers(powerups, PowerUpFresh(now));
      FilterMembers(obstacles, ObstacleFresh(now));
      powerups := Filter(powerups, PowerUpFresh(now));
      obstacles := Filter(obstacles, ObstacleFresh(now));
      paddle1 := ExpireEffect(paddle1, now);
      paddle2 := ExpireEffect(paddle2, now);
    }

    /** Ramp, trail, integration, wall and paddle tests of one tick; each
        paddle hit also tries to spawn a power-up and an obstacle. */
    method MoveBall(currentSpeed: real, hitSin: real -> real,
                    spawn1: SpawnRolls, spawn2: SpawnRolls, now: int)
      requires Valid()
      modifies this`ball, this`powerups, this`obstacles
      ensures Valid()
      ensures ball == Flight(old(ball), paddle1, paddle2, TargetSpeed(gameTime), currentSpeed, hitSin)
      ensures var w := Flown(old(ball), TargetSpeed(gameTime), currentSpeed);
              powerups == PowerUpsAfterHits(old(powerups), w, paddle1, paddle2, hitSin, spawn1, spawn2, now) &&
              obstacles == ObstaclesAfterHits(old(obstacles), w, paddle1, paddle2, hitSin, spawn1, spawn2, now)
    {
      var b := WallStep(Advance(Ramp(ball, TargetSpeed(gameTime), currentSpeed)));
      if HitsPaddle1(b, paddle1) {
        b := Bounce1(b, paddle1, hitSin);
        CreatePowerUp(spawn1, now);
        CreateObstacle(spawn1, now);
      }
      if HitsPaddle2(b, paddle2) {
        b := Bounce2(b, paddle2, hitSin);
        CreatePowerUp(spawn2, now);
        CreateObstacle(spawn2, now);
      }
      ball := b;
    }

    /** Removes every block the ball touches and keeps the others in order. */
    method SmashObstacles()
      requires Valid()
      modifies this`obstacles
      ensures Valid()
      ensures obstacles == Filter(old(obstacles), Survives(ball))
      ensures forall o :: o in obstacles <==> o in old(obstacles) && !Smashes(ball, o)
    {
      obstacles := Smash(ball, obstacles);
      FilterMembers(old(obstacles), Survives(ball));
    }

    /** Picks up every power-up the ball reaches: its effect goes to the
        paddle on the ball's half of the field, in list order, and the
        power-up leaves the field; the others stay in order. */
    method CollectPowerUps(now: int)
      requires Valid()
      modifies this`powerups, this`paddle1, this`paddle2
      ensures Valid()
      ensures powerups == Filter(old(powerups), Remains(ball))
      ensures forall p :: p in powerups <==> p in old(powerups) && !Collects(ball, p)
      ensures ball.x < Midline ==>
                paddle1 == ApplyAll(old(paddle1), PickedKinds(ball, old(powerups)), now) &&
                paddle2 == old(paddle2)
      ensures ball.x >= Midline ==>
                paddle2 == ApplyAll(old(paddle2), PickedKinds(ball, old(powerups)), now) &&
                paddle1 == old(paddle1)
      ensures paddle1.y == old(paddle1.y) && paddle2.y == old(paddle2.y)
    {
      FilterMembers(powerups, Remains(ball));
      if ball.x < Midline {
        EffectsKeepPaddleOk(paddle1, Paddle1X, PickedKinds(ball, powerups), now);
        powerups, paddle1 := Collect(ball, powerups, paddle1, now);
      } else {
        EffectsKeepPaddleOk(paddle2, Paddle2X, PickedKinds(ball, powerups), now);
        powerups, paddle2 := Collect(ball, powerups, paddle2, now);
      }
    }

    /** The scoring step: a ball past the left edge is a point for player
        2, past the right edge a point for player 1; reaching WinScore
        finishes the match, any other point starts a new round. */
    method AwardPoint(now: int, serve: Point)
      requires Valid() && ServeInRange(serve) && status == Playing
      modifies this`score, this`ball, this`paddle1, this`paddle2, this`status,
               this`powerups, this`obstacles, this`gameTime, this`lastUpdate,
               this`countdown, this`gameStartTime
      ensures Valid()
      ensures score == Award(old(score), old(ball).x)
      ensures status == Finished <==> Wins(old(score), old(ball).x)
      ensures Scores(old(ball).x) && !Wins(old(score), old(ball).x) ==> FreshRound(serve, now)
      ensures !Scores(old(ball).x) || Wins(old(score), old(ball).x) ==>
                ball == old(ball) && paddle1 == old(paddle1) && paddle2 == old(paddle2) &&
                powerups == old(powerups) && obstacles == old(obstacles) &&
                gameTime == old(gameTime) && lastUpdate == old(lastUpdate) &&
                countdown == old(countdown) && gameStartTime == old(gameStartTime)
      ensures !Scores(old(ball).x) ==> status == old(status)
    {
      if ball.x <= 0.0 {
        score := score.(player2 := score.player2 + 1);
        if score.player2 >= WinScore {
          status := Finished;
        } else {
          ResetRound(now, serve);
        }
      }
      if ball.x >= FieldWidth {
        score := score.(player1 := score.player1 + 1);
        if score.player1 >= WinScore {
          status := Finished;
        } else {
          ResetRound(now, serve);
        }
      }
    }

    /** The moving part of a tick: the clock advances, the ball flies
        and bounces, then the blocks it touches and the power-ups it
        reaches leave the field. */
    method Fly(now: int, currentSpeed: real, hitSin: real -> real,
               spawn1: SpawnRolls, spawn2: SpawnRolls)
      returns (ghost spawned: seq<PowerUp>, ghost spawnedBlocks: seq<Obstacle>)
      requires Valid()
      modifies this`lastUpdate, this`gameTime, this`ball, this`powerups, this`obstacles,
               this`paddle1, this`paddle2
      ensures Valid()
      ensures lastUpdate == now && gameTime == PlayTime(old(gameTime), old(lastUpdate), now)
      ensures ball == Flight(old(ball), old(paddle1), old(paddle2), TargetSpeed(gameTime),
                             currentSpeed, hitSin)
      ensures var w := Flown(old(ball), TargetSpeed(gameTime), currentSpeed);
              spawned == PowerUpsAfterHits(old(powerups), w, old(paddle1), old(paddle2), hitSin, spawn1, spawn2, now) &&
              spawnedBlocks == ObstaclesAfterHits(old(obstacles), w, old(paddle1), old(paddle2), hitSin,
                                                  spawn1, spawn2, now)
      ensures powerups == Filter(spawned, Remains(ball))
      ensures obstacles == Filter(spawnedBlocks, Survives(ball))
      ensures ball.x < Midline ==>
                paddle1 == ApplyAll(old(paddle1), PickedKinds(ball, spawned), now) && paddle2 == old(paddle2)
      ensures ball.x >= Midline ==>
                paddle2 == ApplyAll(old(paddle2), PickedKinds(ball, spawned), now) && paddle1 == old(paddle1)
      ensures paddle1.y == old(paddle1.y) && paddle2.y == old(paddle2.y)
    {
      gameTime, lastUpdate := PlayTime(gameTime, lastUpdate, now), now;
      MoveBall(currentSpeed, hitSin, spawn1, spawn2, now);
      spawned, spawnedBlocks := powerups, obstacles;
      SmashObstacles();
      CollectPowerUps(now);
    }

    /** The closing part of a tick: a ball off the field scores, expired
        items and effects go, and the centre line moves on. */
    method Settle(now: int, serve: Point)
      requires Valid() && ServeInRange(serve) && status == Playing && lastUpdate == now
      modifies this`score, this`ball, this`paddle1, this`paddle2, this`status,
               this`powerups, this`obstacles, this`gameTime, this`lastUpdate,
               this`countdown, this`gameStartTime, this`centerOffset
      ensures Valid()
      ensures score == Award(old(score), old(ball).x)
      ensures status == Finished <==> Wins(old(score), old(ball).x)
      ensures Resets(old(score), old(ball).x) ==> FreshRound(serve, now)
      ensures !Resets(old(score), old(ball).x) ==>
                ball == old(ball) && gameTime == old(gameTime) && lastUpdate == now &&
                countdown == old(countdown) && gameStartTime == old(gameStartTime) &&
                powerups == Filter(old(powerups), PowerUpFresh(now)) &&
                obstacles == Filter(old(obstacles), ObstacleFresh(now)) &&
                paddle1 == ExpireEffect(old(paddle1), now) && paddle2 == ExpireEffect(old(paddle2), now)
      ensures !Scores(old(ball).x) ==> status == Playing
      ensures centerOffset == NextOffset(old(centerOffset))
    {
      AwardPoint(now, serve);
      CleanExpiredItems(now);
      centerOffset := NextOffset(centerOffset);
    }

    /** One simulation tick of a game in play: the clock advances, the
        ball flies and bounces, touched blocks and reached power-ups go, a
        ball off the field scores (finishing the match or starting a new
        round), expired items and effects go, and the centre line moves on.
        `b` is the ball after its flight and `ps`/`os` are the item lists
        after the paddle hits' spawns. */
    method PlayTick(now: int, currentSpeed: real, hitSin: real -> real,
                    spawn1: SpawnRolls, spawn2: SpawnRolls, serve: Point)
      returns (ghost b: Ball, ghost ps: seq<PowerUp>, ghost os: seq<Obstacle>)
      requires Valid() && ServeInRange(serve) && status == Playing
      modifies this`score, this`ball, this`paddle1, this`paddle2, this`status,
               this`powerups, this`obstacles, this`gameTime, this`lastUpdate,
               this`countdown, this`gameStartTime, this`centerOffset
      ensures Valid()
      ensures b == Flight(old(ball), old(paddle1), old(paddle2),
                          TargetSpeed(PlayTime(old(gameTime), old(lastUpdate), now)), currentSpeed, hitSin)
      ensures var w := Flown(old(ball), TargetSpeed(PlayTime(old(gameTime), old(lastUpdate), now)), currentSpeed);
              ps == PowerUpsAfterHits(old(powerups), w, old(paddle1), old(paddle2), hitSin, spawn1, spawn2, now) &&
              os == ObstaclesAfterHits(old(obstacles), w, old(paddle1), old(paddle2), hitSin, spawn1, spawn2, now)
      ensures score == Award(old(score), b.x) && (status == Finished <==> Wins(old(score), b.x))
      ensures Resets(old(score), b.x) ==> FreshRound(serve, now)
      ensures !Scores(b.x) ==> status == Playing
      ensures !Resets(old(score), b.x) ==>
                ball == b && gameTime == PlayTime(old(gameTime), old(lastUpdate), now) &&
                countdown == old(countdown) && gameStartTime == old(gameStartTime)
      ensures !Resets(old(score), b.x) ==>
                powerups == Filter(Filter(ps, Remains(b)), PowerUpFresh(now)) &&
                obstacles == Filter(Filter(os, Survives(b)), ObstacleFresh(now)) &&
                paddle1 == ExpireEffect(if b.x < Midline then ApplyAll(old(paddle1), PickedKinds(b, ps), now)
                                        else old(paddle1), now) &&
                paddle2 == ExpireEffect(if b.x >= Midline then ApplyAll(old(paddle2), PickedKinds(b, ps), now)
                                        else old(paddle2), now)
      ensures paddle1.y == (if Resets(old(score), b.x) then PaddleStartY else old(paddle1.y))
      ensures paddle2.y == (if Resets(old(score), b.x) then PaddleStartY else old(paddle2.y))
      ensures lastUpdate == now && players == old(players)
      ensures centerOffset == NextOffset(old(centerOffset))
    {
      ps, os := Fly(now, currentSpeed, hitSin, spawn1, spawn2);
      b := ball;
      Settle(now, serve);
    }

    /** One simulation tick. Unless the game is playing with the ball in
        motion nothing changes; otherwise it is a PlayTick. Without a new
        round, the items and paddle effects are those the flight, the
        pickups and the cleanup leave.
        `currentSpeed` is the square root of dx^2 + dy^2 before the tick. */
    method UpdateBall(now: int, currentSpeed: real, hitSin: real -> real,
                      spawn1: SpawnRolls, spawn2: SpawnRolls, serve: Point)
      requires Valid() && ServeInRange(serve)
      requires currentSpeed >= 0.0 && currentSpeed * currentSpeed == ball.dx * ball.dx + ball.dy * ball.dy
      modifies this
      ensures Valid()
      ensures !(old(status) == Playing && old(ball.moving)) ==> unchanged(this)
      ensures old(status) == Playing && old(ball.moving) ==>
                var t := PlayTime(old(gameTime), old(lastUpdate), now);
                var b := Flight(old(ball), old(paddle1), old(paddle2), TargetSpeed(t), currentSpeed, hitSin);
                score == Award(old(score), b.x) &&
                (status == Finished <==> Wins(old(score), b.x)) &&
                (Resets(old(score), b.x) ==> FreshRound(serve, now)) &&
                (!Scores(b.x) ==> status == Playing) &&
                (!Resets(old(score), b.x) ==>
                   ball == b && gameTime == t &&
                   countdown == old(countdown) && gameStartTime == old(gameStartTime)) &&
                paddle1.y == (if Resets(old(score), b.x) then PaddleStartY else old(paddle1.y)) &&
                paddle2.y == (if Resets(old(score), b.x) then PaddleStartY else old(paddle2.y)) &&
                lastUpdate == now && players == old(players) &&
                centerOffset == NextOffset(old(centerOffset))
      ensures old(status) == Playing && old(ball.moving) ==>
                var t := PlayTime(old(gameTime), old(lastUpdate), now);
                var w := Flown(old(ball), TargetSpeed(t), currentSpeed);
                var b := Flight(old(ball), old(paddle1), old(paddle2), TargetSpeed(t), currentSpeed, hitSin);
                var ps := PowerUpsAfterHits(old(powerups), w, old(paddle1), old(paddle2), hitSin, spawn1, spawn2, now);
                var os := ObstaclesAfterHits(old(obstacles), w, old(paddle1), old(paddle2), hitSin, spawn1, spawn2, now);
                !Resets(old(score), b.x) ==>
                  powerups == Filter(Filter(ps, Remains(b)), PowerUpFresh(now)) &&
                  obstacles == Filter(Filter(os, Survives(b)), ObstacleFresh(now)) &&
                  paddle1 == ExpireEffect(if b.x < Midline then ApplyAll(old(paddle1), PickedKinds(b, ps), now)
                                          else old(paddle1), now) &&
                  paddle2 == ExpireEffect(if b.x >= Midline then ApplyAll(old(paddle2), PickedKinds(b, ps), now)
                                          else old(paddle2), now)
    {
      if status != Playing || !ball.moving {
        return;
      }
      ghost var b, ps, os := PlayTick(now, currentSpeed, hitSin, spawn1, spawn2, serve);
    }
  }

  /** The obstacle pass of a tick: walks the list, splicing out every
      block the ball touches, so that the untouched ones stay in order. */
  method Smash(b: Ball, obstacles: seq<Obstacle>) returns (list: seq<Obstacle>)
    ensures list == Filter(obstacles, Survives(b))
  {
    list := obstacles;
    ghost var todo, kept: seq<Obstacle> := obstacles, [];
    var i := 0;
    while i < |list|
      invariant i == |kept| && list == kept + todo
      invariant kept + Filter(todo, Survives(b)) == Filter(obstacles, Survives(b))
      decreases |list| - i
    {
      FilterStep(todo, kept, list, Filter(obstacles, Survives(b)), Survives(b));
      assert Survives(b)(list[i]) == !Smashes(b, list[i]);
      if Smashes(b, list[i]) {
        list := list[..i] + list[i + 1..];
      } else {
        kept := kept + [list[i]];
        i := i + 1;
      }
      todo := todo[1..];
    }
    assert todo == [];
  }

  /** The power-up pass of a tick: walks the list, splicing out every
      power-up the ball reaches and applying it to `paddle`, so that the
      remaining ones stay in order and the effects land in list order. */
  method Collect(b: Ball, powerups: seq<PowerUp>, paddle: Paddle, now: int)
    returns (list: seq<PowerUp>, collector: Paddle)
    ensures list == Filter(powerups, Remains(b))
    ensures collector == ApplyAll(paddle, PickedKinds(b, powerups), now)
  {
    list, collector := powerups, paddle;
    ghost var target := ApplyAll(paddle, PickedKinds(b, powerups), now);
    ghost var todo, kept: seq<PowerUp> := powerups, [];
    var i := 0;
    while i < |list|
      invariant i == |kept| && list == kept + todo
      invariant kept + Filter(todo, Remains(b)) == Filter(powerups, Remains(b))
      invariant ApplyAll(collector, PickedKinds(b, todo), now) == target
      decreases |list| - i
    {
      CollectStep(b, todo, kept, list, Filter(powerups, Remains(b)), collector, target, now);
      var p := list[i];
      if Collects(b, p) {
        collector := ApplyPowerUp(collector, p.kind, now);
        list := list[..i] + list[i + 1..];
      } else {
        kept := kept + [p];
        i := i + 1;
      }
      todo := todo[1..];
    }
    assert todo == [];
  }
}
