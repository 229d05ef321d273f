# Super Pong server: a verified model of the authoritative game state

Super Pong is a two-player browser Pong game. A Node.js server (`server.js`)
holds the only copy of the game state. It accepts paddle moves, ready
signals and reset requests from the two clients, runs the countdown and the
60 Hz simulation tick, and broadcasts the state. This project models that
state and every operation that changes it, and proves what the server
relies on.

- `seqs.dfy` (module `Seqs`): the JavaScript array operations the server
  uses: `filter`, `indexOf` and `splice(i, 1)`, stated on sequences. It also
  has the lemmas that justify the in-place removal loops.
- `entities.dfy` (module `Entities`): the records (paddle, ball, power-up,
  obstacle, score, status) and the configuration constants. It also holds
  the pure paddle operations: input clamping, applying a power-up and
  expiring an effect.
- `physics.dfy` (module `Physics`): the pure steps of one tick. These are
  the speed ramp, the trail, the movement, the wall and paddle bounces, the
  obstacle and power-up contact tests, and scoring.
- `game.dfy` (module `Server`): the class `Game`. Its fields are those of
  the server's `gameState` object. Its methods are the connection handlers,
  `resetGame`, the countdown and start timers, item spawning and cleanup,
  and the tick (`updateBall`). The methods keep the invariant `Valid()`:
  - both paddles are on their side, 20 wide, 100 or 150 high, with y in
    [50, 550];
  - there are at most two distinct players;
  - there are at most 2 power-ups and 1 obstacle, all active;
  - the trail holds at most 5 points;
  - the ball is between the walls;
  - the centre-line offset is in [0, 20).

Timers are separate step methods. The environment calls them when the
server's `setInterval`/`setTimeout` callback would fire:
- `CountdownStep` for the one-second countdown interval;
- `BallStart` for the delayed ball start;
- `UpdateBall` for the 16 ms game loop.

The model takes non-deterministic and transcendental inputs as parameters:
- `now` for `Date.now()`;
- `serve` for the random serve position, constrained to the range
  `getRandomBallPosition` produces;
- `dir` for the random serve velocity;
- `SpawnRolls` for the spawn chance rolls, kinds and positions;
- `currentSpeed` for `Math.sqrt(dx*dx + dy*dy)`, required to be that
  square root;
- `hitSin` for `Math.sin(hitPoint * PI / 3)`.

Three behaviours of `server.js` worth knowing, which the model follows:
- A finished match leaves `ball.moving` true. The tick guard alone stops
  the ball.
- The countdown callback is not guarded and is not cancelled when a player
  leaves. A countdown already under way still starts the game after a
  disconnect.
- A `speed` or `shield` pickup replaces the paddle's effect without
  touching its height, and expiry restores the normal height only when the
  effect it finds is `size`. A `size` effect overwritten by `speed` or
  `shield` therefore leaves the paddle with no effect and 150 high once the
  later effect expires, until a round reset or until a later `size` effect
  expires (`Entities.OverwrittenSizeStaysEnlarged`).

## Model

| member | source | states |
|---|---|---|
| Entities.Clamp | server.js:429-435 | a requested paddle y ends in [50, 550]; values inside are kept, values below give 50, values above give 550 |
| Entities.ClampMonotone | server.js:431-434 | clamping preserves order and clamping twice changes nothing |
| Entities.ApplyPowerUp | server.js:220-235 | the paddle holds exactly the new effect (kind, 8000 ms, start now), Size sets height 150, no other field changes |
| Entities.ExpireEffect | server.js:252-259 | an effect past its duration is dropped and an expired Size restores height 100; an unexpired or absent effect leaves the paddle as it was; no other field changes and the result holds no expired effect |
| Entities.ExpireUndoesApply | server.js:220-259 | once more than 8000 ms have passed, expiry removes a collected power-up and undoes its height change |
| Entities.ApplyOutlivesDuration | server.js:221-253 | within 8000 ms of collection, expiry leaves the power-up in place |
| Entities.OverwrittenSizeStaysEnlarged | server.js:220-259 | a Size effect replaced by another kind is not undone by the later effect's expiry: the paddle then has no effect and is still 150 high; only a later Size effect's expiry brings it back to 100 |
| Entities.ApplyAll | server.js:361-380 | applying several collected power-ups in order leaves the last one's effect, height 150 when a Size was among them, otherwise the height it had, and every other field unchanged |
| Entities.EffectsKeepPaddleOk | server.js:220-259 | collecting power-ups and expiring effects keep the paddle invariant (side, width, height 100 or 150, y range) |
| Seqs.FilterMembers | server.js:242-249 | a filtered list holds exactly the elements of the original that pass the test |
| Seqs.IndexOf | server.js:471 | the first position of the value, or -1 exactly when it is absent |
| Seqs.Without | server.js:471-474 | splicing out the found index removes one element, keeps the list when the value is absent, and keeps every other value's membership |
| Seqs.WithoutDistinct | server.js:471-474 | on a list without duplicates, the removed id is gone entirely and no duplicates appear |
| Seqs.WithoutAppended | server.js:471-474 | connecting a new id and then disconnecting it gives back the original player list |
| Physics.TargetSpeed | server.js:271-275 | the target speed is 6 + 0.3 per second of play, capped at 18, and never below 6 for non-negative play time |
| Physics.Ramp | server.js:278-282 | a resting ball (speed 0) is left alone; otherwise only dx and dy change |
| Physics.RampReachesTarget | server.js:278-282 | after the rescale the ball's speed is exactly the target speed |
| Physics.RampKeepsHeading | server.js:278-282 | the rescale keeps the direction of travel: the signs of dx and dy and the ratio dx : dy are unchanged |
| Physics.PushTrail | server.js:285-288 | the pre-move position is at the head of the trail, older points shift back by one, and the trail grows only while it is shorter than 5 |
| Physics.Advance | server.js:285-292 | the ball moves by exactly its velocity, the pre-move position heads the trail, the trail stays within 5 points, and nothing else changes |
| Physics.WallStep | server.js:294-301 | after the wall test y is in [8, 592], exactly 8 at the top wall and 592 at the bottom wall; at a wall dy becomes -0.9 dy, so its magnitude does not grow; away from walls nothing changes; only y and dy can change |
| Physics.HitsPaddle1 | server.js:304-308 | a hit needs a visible paddle 1 and the ball's centre within the paddle's rectangle widened by the ball's radius on the left and right |
| Physics.HitsPaddle2 | server.js:324-328 | a hit needs a visible paddle 2 and the ball's centre within its rectangle, which extends to the left of its x, widened by the ball's radius |
| Physics.HitPointRange | server.js:303-331 | a ball passing either paddle's box test hits within the paddle's length, so the rebound angle stays within 60 degrees, and a centre hit gives angle 0 |
| Physics.Bounce1 | server.js:303-317 | after a paddle 1 hit the ball sits at the paddle's outer edge, dx = 1.3 abs(dx) moving right, and dy = sin(angle) * dx' |
| Physics.Bounce2 | server.js:323-335 | after a paddle 2 hit the ball sits at the paddle's outer edge, dx = -1.3 abs(dx) moving left, and dy = sin(angle) * abs(dx') |
| Physics.Flight | server.js:270-340 | the ball after one tick's movement keeps a trail of at most 5 with the pre-move position first, stays between the walls, and keeps its moving flag |
| Physics.SpawnedPowerUps | server.js:180-196 | a power-up is appended exactly when a paddle hit wins the 0.1 roll with fewer than 2 on the field, and it is the drawn kind at the drawn spot, active and created now; otherwise the list is unchanged; never more than 2 in all |
| Physics.SpawnedObstacles | server.js:199-217 | a block is appended exactly when a paddle hit wins the 0.05 roll with no block on the field, and it is at the drawn spot, active and created now; otherwise the list is unchanged; never more than 1 in all |
| Physics.Smashes | server.js:343-347 | a block is smashed only while active and when the ball's centre lies inside its 40 x 40 square |
| Physics.Collects | server.js:362-368 | a power-up is reached only while active and when the ball's centre is within 23 of it, hence within 23 on each axis |
| Physics.UnreachedItemsStay | server.js:318-380 | items only get added by the paddle hits, so a power-up the ball does not reach and a block it does not touch are still on the field after the tick's removal passes |
| Physics.PickedKindsMembers | server.js:361-380 | a kind is applied to a paddle exactly when the ball reaches a power-up of that kind |
| Physics.SpliceWhileIterating | server.js:361-380 | the power-up pass as written, visiting index i of the live list while splicing: it never adds an element and never grows the list |
| Physics.SpliceSkipsNeighbour | server.js:361-380 | with two reached power-ups, the pass as written removes only the first, while removing every reached power-up leaves none |
| Physics.NextOffset | server.js:405-406 | the centre-line offset advances by 3 and wraps at 20, so it stays in [0, 20) |
| Physics.Award | server.js:382-400 | a ball past the left edge is +1 for player 2, past the right edge +1 for player 1, otherwise no change; the total rises by exactly one when a point is scored |
| Physics.WinsOnlyByScoring | server.js:383-400 | a match is won only by scoring, and exactly when the scorer's new total reaches 5 |
| Server.Game.constructor | server.js:35-75 | the start-up state: centred paddles, resting ball at the centre, 0-0, waiting, no players or items, offset 0, countdown 3 |
| Server.Game.ResetRound | server.js:102-139 | a reset keeps the score and player list, serves a resting ball at the drawn position, rebuilds both paddles, clears items and the clock, and enters the countdown from 3 |
| Server.Game.Connect | server.js:413-421 | a newcomer joins at the end while fewer than two are connected, and the second arrival starts a round; a third connection changes nothing; never more than two players |
| Server.Game.MovePaddle | server.js:427-436 | only the named paddle moves, to the clamped y; any other player number changes nothing |
| Server.Game.PlayerReady | server.js:443-453 | the named paddle becomes ready, and a round starts exactly when both are ready while waiting |
| Server.Game.RequestReset | server.js:459-463 | a reset request zeroes both scores and starts a fresh round |
| Server.Game.Disconnect | server.js:467-482 | the leaving id is removed and the others keep their order; below two players the game is waiting with both ready flags cleared, otherwise nothing else changes |
| Server.Game.StartGame | server.js:159-166 | the game is playing, the start time is recorded, and the ball gets the drawn velocity but does not move yet |
| Server.Game.CountdownStep | server.js:144-155 | each second the counter drops by one, and the game starts when it reaches zero |
| Server.Game.BallStart | server.js:169-172 | after the start delay the ball begins to move and nothing else changes |
| Server.Game.CreatePowerUp | server.js:180-196 | a power-up created now is appended only on a won roll (< 0.1) while fewer than 2 are on the field |
| Server.Game.CreateObstacle | server.js:199-217 | a block created now is appended only on a won roll (< 0.05) while no block is on the field |
| Server.Game.CleanExpiredItems | server.js:238-260 | exactly the power-ups younger than 20000 ms and the blocks younger than 30000 ms stay, in order, and each paddle's expired effect ends |
| Server.Game.MoveBall | server.js:270-340 | the ball ends where the pure flight puts it; a hit on paddle 1 (then, for the returned ball, on paddle 2) tries one power-up and one block spawn with that hit's draws, and without a hit the item lists are unchanged |
| Server.Game.SmashObstacles | server.js:342-358 | every block the ball touches is removed and the others stay in order: a block remains exactly when it was there and the ball does not touch it |
| Server.Smash | server.js:342-358 | the in-place removal loop leaves exactly the untouched blocks in their original order |
| Server.Game.CollectPowerUps | server.js:360-380 | every reached power-up leaves the field and its effect goes, in list order, to the paddle on the ball's half; a power-up remains exactly when it was there and the ball does not reach it; the other paddle and the paddles' y are untouched |
| Server.Collect | server.js:361-380 | the in-place removal loop leaves exactly the unreached power-ups in order and applies the reached ones to the paddle in order |
| Server.Game.AwardPoint | server.js:382-400 | the score follows Award; the match is finished exactly on a winning point; a non-winning point starts a fresh round; no point changes nothing |
| Server.Game.Fly | server.js:266-380 | the clock advances by the elapsed seconds and the ball ends at its flight position; the item lists are those the paddle hits' spawns leave, filtered by the smash and pickup tests; the paddle on the ball's half gets the picked kinds in order and the other is unchanged |
| Server.Game.Settle | server.js:382-406 | scoring as in AwardPoint; without a new round the ball, clock, countdown and start time stay, exactly the young items remain and each paddle's expired effect ends; the centre-line offset advances by 3 modulo 20 |
| Server.Game.PlayTick | server.js:266-406 | the whole tick of a game in play: the score follows Award for the flown ball, the match is finished exactly on a winning point, any other point gives a fresh round, and otherwise the ball, clock, countdown and start time are as flown, the item lists are the spawned lists filtered by contact and then by age, and each paddle is its pickups followed by expiry |
| Server.Game.UpdateBall | server.js:263-407 | nothing changes unless the game is playing with a moving ball; otherwise everything PlayTick states, from the state before the tick. The invariant, including an offset in [0, 20), holds throughout |

## Left out

- Socket.IO and HTTP: emits, static file serving, console output and the listening port are outside the model; handlers are methods called with their arguments.
- Timers: `setInterval`/`setTimeout` scheduling is not modelled; the callbacks are the step methods `CountdownStep`, `BallStart` and `UpdateBall`. Each `resetGame` starts another countdown interval in the server, and the model does not count how many are running.
- Clock and randomness: `Date.now()` and `Math.random()` are parameters. One handler's several `Date.now()` readings share one `now`.
- `Math.sqrt` and `Math.sin`: they are the parameters `currentSpeed` and `hitSin`.
- Floating point: every JavaScript number of the model (positions, velocities, `gameTime`, the 0.3, 0.9 and 1.3 factors) is an exact `real`, so no rounding is modelled.
- Server.Game.StartGame: the drawn velocity `dir` is unconstrained; the server's has speed 6 and an angle within 45 degrees.
- Server.Game.CreatePowerUp: spawn rolls, kind and position are not constrained to the ranges the server draws from ([0, 1) and [200, 600) x [100, 500)); the power-up `id` is not modelled.
- Server.Game.CreateObstacle: same as for power-ups; the obstacle `type` (always `block`), `width`/`height` (always 40, the constant ObstacleSize) and `id` are not fields.
- Server.Game.Connect: requires a connection id not already listed, which the transport guarantees; the initial `gameState` emit is left out.
- Server.Game.MovePaddle: the requested y is a number; non-numeric input (which would make `Math.max` return NaN) is not modelled.
- The ball's `radius` (always 8, the constant BallRadius) and `speed` fields are not fields of the model; the server never reads `speed`.
- `gameMode`, `multiBalls` and `effects` are written by the reset but never read by the server logic, so they are not modelled; nor are the unused `PADDLE_SPEED` and `COUNTDOWN_DURATION` settings.
- The `invisible` paddle flag and the Speed and Shield effects have no source of change or consequence in the server beyond what is modelled (the flag disables the paddle test).
- The skip caused by `splice` inside `forEach` is not part of the tick; the tick removes every reached item (see Findings).
- The browser client (`public/`) is not part of this model.

## Findings

| source | as written | input that shows it | evidently intended | confidence | as-written member | corrected member |
|---|---|---|---|---|---|---|
| server.js:361-380 | `forEach` with `splice(index, 1)` skips the power-up that moves into the removed one's position | two active power-ups both under the ball, e.g. both at (300, 300) with the ball at (300, 300): only the first is collected | every power-up the ball reaches is collected and removed in the same tick | not executed; the pass on obstacles (server.js:342-358) has the same pattern but at most one block, so it cannot skip | Physics.SpliceSkipsNeighbour | Server.Collect |
