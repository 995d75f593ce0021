# Space shooter: gameplay-state model

A Dafny model of the gameplay core of a small top-down arcade shooter written
in Go on the ebiten engine (`main.go`). The player's ship moves on a fixed
800 x 600 canvas and shoots falling asteroids. Power-ups give a single
active effect for 30 seconds. A `Game` record holds the whole state, and a
per-frame `Update` drives it through the states Playing, GameOver and
Victory.

The model covers the state primitives defined in `main.go`:

- `Ship.Move`: add the displacement, then clamp the ship to the canvas.
- The three hit tests: bullet and asteroid, asteroid and ship, ship and
  power-up.
- The effect of a bullet hit on an asteroid.
- The ship-damage table.
- Asteroid generation and splitting, including the loop that fills an
  asteroid's outline.
- Spawning and activating power-ups.
- `reset`.
- The state-transition skeleton of `Update`.
- The data part of `NewGame`.

Layout, one module per concern:

- `canvas.dfy` (`Canvas`): canvas size, per-axis clamping, and the
  distance test.
- `clock.dfy` (`Clock`): time in integer nanoseconds, Go's truncating
  division, and the boss-spawn gate.
- `entities.dfy` (`Entities`): the `Ship` and `Asteroid` classes, which
  Go changes in place through pointers, and the value records (bullets,
  power-ups, upgrades, achievements). Also the vertex outline and the
  float-to-int conversion.
- `shooter.dfy` (`Shooter`): the `Game` class and the operations on it.

Modelling choices:

- Go `float64` is Dafny `real`.
- Every random draw is a method parameter, and its `requires` gives the
  range `rand.Intn`/`rand.Float64` produces.
- Every clock reading is an integer nanosecond parameter `now`.
- `math.Sqrt(dx*dx+dy*dy) <= r` becomes `Within(dx, dy, r)`, which says
  `0 <= r && dx*dx+dy*dy <= r*r`. `Canvas.WithinIffDistance` proves this
  is the same test, for the non-negative root of the squared distance.
- Go keeps asteroids in a slice of values; the model keeps references to
  `Asteroid` objects, and `Game.Valid` says no object is listed twice.
- An outline corner is kept symbolically as `Polar(radius, i, n)`. This
  means the point at angle `i*2*pi/n` on the circle of that radius. So
  the filling loop is modelled without computing cosines and sines.

Notes on what `main.go` does, which the model follows:

- `splitAsteroid` only appends the two children and leaves the parent in
  the list (`Game.SplitAsteroid` keeps every earlier entry).
- `reset` generates no asteroid; only `NewGame` does (main.go:487).
  `Game.Reset` leaves `asteroids` empty.
- `reset` keeps the high score, the upgrades, the achievements and the
  `gameOver` flag. Only the Ctrl+R path of `Update` clears the flag.
- No line of `main.go` assigns GameOver or Victory to the state; only the
  undefined frame-phase helpers could.
- A spawned power-up is one of the five kinds Nuke to SpeedBoost
  (`rand.Intn(5) + 1`).

## Model

| member | source | states |
|---|---|---|
| `Canvas.ClampAxis` | main.go:170-181 | The clamped coordinate lies in [0, max]; it equals the input when that is already inside, 0 below, max above |
| `Canvas.ClampIsNearest` | main.go:170-181 | The clamped coordinate is the point of [0, max] closest to the target |
| `Canvas.Within` | main.go:356-359 | The squared-distance form of the hit test: a point within r lies within r on each axis, and coincident points are within r exactly when r ≥ 0 |
| `Canvas.WithinIffDistance` | main.go:356-359 | For the non-negative root `dist` of dx²+dy², `Within(dx, dy, r)` holds exactly when `dist <= r` (both directions) |
| `Entities.Ship.Move` | main.go:167-182 | After a move the ship is on the canvas (0 ≤ X ≤ 800, 0 ≤ Y ≤ 600); a target already on the canvas is reached exactly; Angle, Size and Health are unchanged |
| `Entities.TruncToInt` | main.go:403 | Go's float-to-int conversion: the result is the integer part of the input, rounded toward zero |
| `Entities.RegularPolygon` | main.go:405-410 | The vertex loop yields exactly n corners, corner i being the point at angle i·2π/n on the circle of the given radius |
| `Entities.PowerUpOfOrdinal` | main.go:152-159 | Go's numbering of power-up kinds 0..5: the kind returned for n has number n |
| `Entities.OrdinalRoundTrip` | main.go:152-159 | Numbering a kind and mapping the number back gives the same kind |
| `Shooter.HitHealth` | main.go:360-364 | After a hit the health is ≤ 0 exactly when the size was below 15 (so it shrinks below 10) or the damage covers the health; otherwise it is health − damage; a size below 15 gives exactly 0 |
| `Shooter.Collides` | main.go:355-368 | Hit iff the bullet is within the asteroid's radius; on a hit Size drops by exactly 5 and Health becomes old Health − Damage, forced to 0 when the new Size is below 10; on a miss the asteroid is untouched; the bullet is a value and never changes |
| `Shooter.GetDamage` | main.go:384-391 | Damage is 5, 15 or 25: 5 exactly when Size < 20, 25 exactly when Size ≥ 40, 15 between |
| `Shooter.DamageMonotone` | main.go:384-391 | A larger asteroid never does less damage |
| `Shooter.GeneratedAsteroidBounds` | main.go:393-412 | A generated asteroid has an integral size in [10, 49] equal to its health, 3 to 7 vertices with as many outline corners, Y = −50, an integral X in [0, 799], speed 1, 2 or 3, and angle in [0, 2π) |
| `Shooter.SplitHalves` | main.go:414-425 | The two children of a split have equal size, health and speed; their sizes add up to the parent's; each starts with the integer part of its size as health |
| `Shooter.StepFor` | main.go:218-277 | A restart happens exactly on Ctrl+R in Playing with the game-over flag set, or on Space in GameOver/Victory; the game waits for Ctrl+R exactly in Playing with the flag set and no Ctrl+R; the frame phases run exactly in Playing without the flag; the enemy-spawn gate is open only while fewer than 3 enemies exist and the draw is below 0.01 |
| `Shooter.SpawnableKinds` | main.go:437 | The kinds a power-up spawn can draw are exactly the five kinds other than None |
| `Clock.BossSpawnDue` | main.go:244 | The boss gate is never open while a boss is present, and is open during the first second of the game when none is |
| `Clock.BossSpawnWindow` | main.go:244 | For elapsed time ≥ 0 and no boss, the boss gate is open exactly in the first second after each 5-minute boundary; with a boss present it is never open |
| `Shooter.Game.constructor` | main.go:461-487 | The starting record: starting ship, all lists empty except one generated asteroid, score and high score 0, level 1, power-up None, spawn rate 2 s, state Playing, clocks started at `now`, sound enabled, the three upgrades and three achievements of the catalog |
| `Shooter.Game.Reset` | main.go:334-353 | Fresh ship at (400, 550), angle 0, Size 20, Health 100, LastShot zero; bullets, enemy bullets, asteroids, power-ups and enemy ships empty, boss and special weapon nil; score and counters 0, level 1, power-up None, spawn rate 2 s, state Playing, clocks at `now`; high score, upgrades, achievements, power-up timers, difficulty speeds and sound flag untouched |
| `Shooter.Game.ClearEntities` | main.go:335-341 | The first half of reset: the fresh starting ship and every entity list emptied |
| `Shooter.Game.RestartCounters` | main.go:342-351 | The second half of reset: score, counters, power-up, spawn rate, state and clocks restarted |
| `Shooter.Game.CollidesWithShip` | main.go:370-375 | Contact puts the centres within the sum of the two radii on each axis; coincident centres touch exactly when that sum is ≥ 0 |
| `Shooter.Game.CollidesWithPowerUp` | main.go:377-382 | Reach puts the power-up within the ship's radius plus 10 on each axis; a power-up at the ship's centre is reached exactly when that reach is ≥ 0 |
| `Shooter.Game.ShipContactIffDistance` | main.go:370-375 | The asteroid touches the ship exactly when the distance between the centres is at most the two radii together |
| `Shooter.Game.PowerUpContactIffDistance` | main.go:377-382 | The ship reaches a power-up exactly when the distance is at most the ship's radius plus 10 |
| `Shooter.Game.GenerateAsteroid` | main.go:393-412 | Appends exactly one fresh asteroid built from the draws, keeps every earlier entry, and keeps every outline as long as its vertex count and no asteroid listed twice |
| `Shooter.Game.SplitAsteroid` | main.go:414-434 | Appends exactly two distinct fresh children, each at the parent's position with its vertex count, half its size, 1.5 times its speed and health int(size / 2); the parent and all earlier entries stay |
| `Shooter.Game.SpawnPowerUp` | main.go:436-444 | Appends exactly one power-up, of kind number draw + 1 (never None), at an integral point of [0, 799] x [0, 599] |
| `Shooter.Game.ActivatePowerUp` | main.go:446-455 | The active power-up becomes the argument whatever was active before; it expires at now + 30 s; the message time is now |
| `Shooter.Game.Update` | main.go:215-280 | The step is the one `StepFor` gives; the elapsed game time is refreshed; on a restart the record is the reset one, and the flag is cleared only on the Ctrl+R path; while awaiting a restart or showing the end screen nothing else changes; outside a running frame the state afterwards is Playing or the state it had before, the high score, catalogs, power-up timers, difficulty speeds and sound flag are kept, and no existing asteroid, enemy ship, boss or the old ship is touched; a running frame may change any field of the record, the ship, the listed asteroids, the enemy ships and the boss |

## Left out

- Rendering: `Ship.Draw`, `EnemyShip.Draw`, `Asteroid.Draw`, `Game.Draw`, `drawEndScreen` and `Layout` are calls into the graphics engine (main.go:184-213, 282-332, 457-459).
- Audio and fonts: `loadWaveFile`, `main`, and the audio-context, sound-player and font setup in `NewGame` are I/O and foreign library calls (main.go:489-548). The audio and font fields are not in the model; `enableSound` is kept as data.
- Trigonometry: outline corners are kept as symbolic `Polar` points, and cosines and sines are not computed (main.go:406-410, 427-431). The ship-triangle corners belong to rendering.
- The frame phases of `Update` call helpers that `main.go` does not define: `spawnEnemyShip`, `updateEnemyShip`, `updateBoss`, `spawnBoss`, `updatePlayerMovement`, `updatePlayerShooting`, `updateBullets`, `updateAsteroids`, `checkCollisions`, `updatePowerUps`, `updateDifficulty`, `checkLevelUp`, `checkAchievements`. `boss.Draw`, `drawPowerUp` and `drawHUD` are missing too. Those helpers are not part of this model. In that branch `Shooter.Game.Update` only refreshes the game time and reports the enemy-spawn gate's decision as `Frame(spawnEnemy)`; its contract lets such a frame change any field of the record, the ship, the listed asteroids, the enemy ships and the boss, and says nothing about what those phases would do to them, including whether they move the state to GameOver.
- Boss-spawn gate: main.go:244 applies `%` to a `float64`, which Go does not compile. `Clock.BossSpawnDue` reads it as `math.Mod`, over integer nanoseconds, with Go's truncating division and remainder. It stands on its own and is not wired into `Update`, because in the source it runs after `updateEnemyShip` and `updateBoss`, which are not modelled.
- Randomness: `rand.Seed` and the generator itself are left out. Their draws are parameters.
- Clock: `time.Now` and `time.Since` are left out. One reading `now` serves each call, although `reset`, `activatePowerUp` and `NewGame` read the clock more than once.
- Power-up message: the text built with `fmt.Sprintf` (main.go:453) is cosmetic, and the `powerUpMessage` field is not modelled.
- Inert data: `LastShot`, the contents of `SpecialWeapon`, and the level and cost of upgrades are never read by the modelled code. They are kept as plain data.
- Floating point: positions, sizes and speeds are exact reals, so float64 rounding is not modelled. `Entities.Pi` is 3.141592653589793, the shortest decimal that rounds to float64 `math.Pi`, taken as exact (the stored float64 is 3.141592653589793115997963...).
- Shooter.Collides: does not model 64-bit wrap-around of `Health - Damage`, because Go `int` is modelled as an unbounded integer. The game's healths and damages are small.
- Shooter.Game.SplitAsteroid: requires a non-negative vertex count, because Go's `make` panics on a negative length.
- Shooter.Game.ActivatePowerUp: accepts only the six named kinds. Go's `PowerUpType` is an `int` and could carry other values.
- Shooter.Game.Update: handles only the three named states. Go's `GameState` is an `int`, and any other value would fall through the `switch` unchanged. For a running frame (`Frame` step) the contract gives only the enemy-spawn decision and the game time refreshed at the top of the frame (main.go:215); that the game time still holds that value at the end of the frame rests on no phase writing `gameTime`, which the unmodelled helpers cannot be checked for.
