/** The game record and the gameplay primitives that act on it: spawning and
    splitting asteroids, the hit tests, the damage table, power-ups, restart,
    and the state transitions of the per-frame step. Every random draw and
    every clock reading is a parameter. */
module Shooter {
  import opened Canvas
  import opened Clock
  import opened Entities

  const ShipHealth: int := 100
  /** How long a picked-up power-up lasts, in seconds. */
  const PowerUpDuration: int := 30
  /** The starting interval between asteroid spawns. */
  const InitialAsteroidSpawnRate: Duration := 2 * Second

  const InitialUpgrades: seq<Upgrade> := [
    Upgrade("Health", 0, 100),
    Upgrade("Speed", 0, 100),
    Upgrade("Damage", 0, 100)
  ]

  const InitialAchievements: seq<Achievement> := [
    Achievement("Asteroid Hunter", "Destroy 100 asteroids", false),
    Achievement("Enemy Slayer", "Destroy 50 enemy ships", false),
    Achievement("Boss Killer", "Defeat a boss", false)
  ]

  datatype GameState = Playing | GameOver | Victory

  /** The keys the frame step looks at. */
  datatype Keys = Keys(control: bool, r: bool, space: bool)

  /** What one call of `Game.Update` did. `Frame` means the game is running:
      the phases of the frame (movement, bullets, collisions, difficulty, ...)
      are helpers outside this model, and `spawnEnemy` is the decision of the
      enemy-spawn gate that opens the frame. */
  datatype Step = Restarted | AwaitingRestart | Frame(spawnEnemy: bool) | EndScreen

  /** The ship every round starts with: bottom centre of the canvas, full health. */
  ghost predicate IsStartingShip(s: Ship)
    reads s
  {
    s.X == ScreenWidth / 2.0 && s.Y == ScreenHeight - 50.0 && s.Angle == 0.0 &&
    s.Size == 20.0 && s.Health == ShipHealth && s.LastShot == ZeroTime
  }

  /** The ranges of the random draws `generateAsteroid` makes. */
  predicate AsteroidDraws(sizeDraw: int, vertexDraw: int, xDraw: int, angleDraw: real, speedDraw: int) {
    0 <= sizeDraw < 40 && 0 <= vertexDraw < 5 && 0 <= xDraw < 800 &&
    0.0 <= angleDraw < 1.0 && 0 <= speedDraw < 3
  }

  /** `a` is the asteroid `generateAsteroid` builds from these draws. */
  ghost predicate GeneratedFrom(a: Asteroid, sizeDraw: int, vertexDraw: int, xDraw: int, angleDraw: real, speedDraw: int)
    reads a
  {
    a.X == xDraw as real && a.Y == -50.0 && a.NumVertices == vertexDraw + 3 &&
    a.Size == (sizeDraw + 10) as real && a.Angle == angleDraw * Pi * 2.0 &&
    a.Speed == (speedDraw + 1) as real && a.Health == TruncToInt(a.Size) &&
    IsRegularPolygon(a.Vertices, a.Size, a.NumVertices)
  }

  /** What a generated asteroid looks like, whatever the draws. */
  lemma GeneratedAsteroidBounds(a: Asteroid, sizeDraw: int, vertexDraw: int, xDraw: int, angleDraw: real, speedDraw: int)
    requires AsteroidDraws(sizeDraw, vertexDraw, xDraw, angleDraw, speedDraw)
    requires GeneratedFrom(a, sizeDraw, vertexDraw, xDraw, angleDraw, speedDraw)
    ensures 10 <= a.Health <= 49 && a.Size == a.Health as real
    ensures 3 <= a.NumVertices <= 7 && |a.Vertices| == a.NumVertices
    ensures a.Y == -50.0 && 0.0 <= a.X <= 799.0 && a.X == a.X.Floor as real
    ensures a.Speed == 1.0 || a.Speed == 2.0 || a.Speed == 3.0
    ensures 0.0 <= a.Angle < 2.0 * Pi
  {
  }

  /** `c` is one of the children `splitAsteroid` makes of `parent`. */
  ghost predicate SplitFrom(c: Asteroid, parent: Asteroid, angleDraw: real)
    reads c, parent
  {
    c.X == parent.X && c.Y == parent.Y && c.NumVertices == parent.NumVertices &&
    c.Size == parent.Size / 2.0 && c.Angle == angleDraw * Pi * 2.0 &&
    c.Speed == parent.Speed * 1.5 && c.Health == TruncToInt(parent.Size / 2.0) &&
    IsRegularPolygon(c.Vertices, c.Size, c.NumVertices)
  }

  /** The two children of a split are alike, share the parent's size between
      them, and start with the whole part of their size as health. */
  lemma SplitHalves(c1: Asteroid, c2: Asteroid, parent: Asteroid, angle1: real, angle2: real)
    requires SplitFrom(c1, parent, angle1) && SplitFrom(c2, parent, angle2)
    requires 0.0 <= parent.Size
    ensures c1.Size + c2.Size == parent.Size
    ensures c1.Size == c2.Size && c1.Health == c2.Health && c1.Speed == c2.Speed
    ensures c1.Health as real <= c1.Size < c1.Health as real + 1.0
  {
  }

  /** An asteroid's health after a bullet of the given damage hits it at the
      given size and health: reduced by the damage, or forced to 0 once the
      shrunk size drops below 10. */
  function HitHealth(size: real, health: int, damage: int): (h: int)
    ensures h <= 0 <==> size < 15.0 || health <= damage
    ensures size < 15.0 ==> h == 0
    ensures 15.0 <= size ==> h == health - damage
  {
    if size - 5.0 < 10.0 then 0 else health - damage
  }

  /** The bullet/asteroid hit test and its effect on the asteroid. The Go
      method's receiver is unused, so this stands on its own. The bullet is a
      value and is left as it is. */
  method Collides(a: Asteroid, b: Bullet) returns (hit: bool)
    modifies a`Size, a`Health
    ensures hit <==> Within(b.X - a.X, b.Y - a.Y, old(a.Size))
    ensures hit ==> a.Size == old(a.Size) - 5.0 && a.Health == HitHealth(old(a.Size), old(a.Health), b.Damage)
    ensures !hit ==> a.Size == old(a.Size) && a.Health == old(a.Health)
  {
    var dx := b.X - a.X;
    var dy := b.Y - a.Y;
    if Within(dx, dy, a.Size) {
      a.Size := a.Size - 5.0;
      a.Health := a.Health - b.Damage;
      if a.Size < 10.0 {
        a.Health := 0;
      }
      return true;
    }
    return false;
  }

  /** The damage an asteroid does to the ship, by its size. */
  function GetDamage(a: Asteroid): (d: int)
    reads a
    ensures d == 5 || d == 15 || d == 25
    ensures d == 5 <==> a.Size < 20.0
    ensures d == 25 <==> 40.0 <= a.Size
  {
    if a.Size < 20.0 then 5 else if a.Size < 40.0 then 15 else 25
  }

  /** A bigger asteroid never does less damage. */
  lemma DamageMonotone(a: Asteroid, b: Asteroid)
    requires a.Size <= b.Size
    ensures GetDamage(a) <= GetDamage(b)
  {
  }

  /** The enemy-spawn gate that opens a running frame; `draw` is the random
      float in [0, 1) it compares with 0.01. */
  predicate EnemySpawnDue(enemies: int, draw: real) {
    enemies < 3 && draw < 0.01
  }

  /** What `Game.Update` does from a given state, flag and key chord. */
  function StepFor(state: GameState, gameOver: bool, keys: Keys, enemies: int, enemyDraw: real): (step: Step)
    ensures step.Restarted? <==>
              (state == Playing && gameOver && keys.control && keys.r) || (state != Playing && keys.space)
    ensures step.Frame? <==> state == Playing && !gameOver
    ensures step.AwaitingRestart? <==> state == Playing && gameOver && !(keys.control && keys.r)
    ensures step.Frame? ==> (step.spawnEnemy <==> enemies < 3 && enemyDraw < 0.01)
  {
    match state
    case Playing =>
      if gameOver then
        (if keys.control && keys.r then Restarted else AwaitingRestart)
      else
        Frame(EnemySpawnDue(enemies, enemyDraw))
    case _ =>
      if keys.space then Restarted else EndScreen
  }

  /** All five power-up kinds a spawn can draw are real power-ups, and every
      real power-up can be drawn. */
  lemma SpawnableKinds(t: PowerUpType)
    ensures t != None <==> exists n :: 1 <= n <= 5 && PowerUpOfOrdinal(n) == t
  {
    if t != None {
      OrdinalRoundTrip(t);
      assert PowerUpOfOrdinal(t.Ordinal()) == t;
    }
  }

  /** The game record. Only one frame loop owns it. */
  class Game {
    var ship: Ship
    var enemyShips: seq<EnemyShip>
    var boss: Boss?
    var gameStartTime: Time
    var bullets: seq<Bullet>
    var enemyBullets: seq<Bullet>
    var asteroids: seq<Asteroid>
    var powerUps: seq<PowerUp>
    var score: int
    var highScore: int
    var powerUp: PowerUpType
    var powerUpEnd: Time
    var enableSound: bool
    var gameOver: bool
    var lastPowerUpSpawn: Time
    var asteroidSpawnRate: Duration
    var powerUpMessageTime: Time
    var state: GameState
    var gameTime: Duration
    var asteroidSpeed: real
    var enemyShipSpeed: real
    var asteroidsDefeated: int
    var enemyShipsDestroyed: int
    var level: int
    var upgrades: seq<Upgrade>
    var specialWeapon: SpecialWeapon?
    var achievements: seq<Achievement>

    /** Every asteroid's outline has as many corners as it says, and no
        asteroid is listed twice (Go keeps the asteroids by value). */
    ghost predicate Valid()
      reads this, asteroids
    {
      (forall a <- asteroids :: |a.Vertices| == a.NumVertices) &&
      (forall i, j :: 0 <= i < j < |asteroids| ==> asteroids[i] != asteroids[j])
    }

    /** The part of the record every round starts with: the starting ship,
        every entity list but the asteroids emptied, counters at their
        starting values, and the round's clocks started at `now`. */
    ghost predicate RoundStarted(now: Time)
      reads this, ship
    {
      IsStartingShip(ship) &&
      bullets == [] && enemyBullets == [] && powerUps == [] && enemyShips == [] && boss == null &&
      score == 0 && powerUp == None && lastPowerUpSpawn == now &&
      asteroidSpawnRate == InitialAsteroidSpawnRate && state == Playing && gameStartTime == now &&
      asteroidsDefeated == 0 && enemyShipsDestroyed == 0 && level == 1 && specialWeapon == null
    }

    /** The starting record: one generated asteroid, the starting ship, the
        upgrade and achievement catalogs, and every other field at its zero
        value. */
    constructor (now: Time, sizeDraw: int, vertexDraw: int, xDraw: int, angleDraw: real, speedDraw: int)
      requires AsteroidDraws(sizeDraw, vertexDraw, xDraw, angleDraw, speedDraw)
      ensures Valid()
      ensures fresh(ship)
      ensures |asteroids| == 1 && fresh(asteroids[0])
      ensures GeneratedFrom(asteroids[0], sizeDraw, vertexDraw, xDraw, angleDraw, speedDraw)
      ensures RoundStarted(now)
      ensures highScore == 0 && powerUpEnd == ZeroTime && enableSound && !gameOver
      ensures powerUpMessageTime == ZeroTime && gameTime == 0
      ensures asteroidSpeed == 0.0 && enemyShipSpeed == 0.0
      ensures upgrades == InitialUpgrades && achievements == InitialAchievements
    {
      ship := new Ship(ScreenWidth / 2.0, ScreenHeight - 50.0, 20.0, ShipHealth);
      enemyShips, boss, bullets, enemyBullets, asteroids, powerUps := [], null, [], [], [], [];
      score, highScore, powerUp, powerUpEnd := 0, 0, None, ZeroTime;
      enableSound, gameOver := true, false;
      lastPowerUpSpawn, asteroidSpawnRate, powerUpMessageTime := now, InitialAsteroidSpawnRate, ZeroTime;
      state, gameStartTime, gameTime := Playing, now, 0;
      asteroidSpeed, enemyShipSpeed := 0.0, 0.0;
      asteroidsDefeated, enemyShipsDestroyed, level := 0, 0, 1;
      upgrades, specialWeapon, achievements := InitialUpgrades, null, InitialAchievements;
      new;
      GenerateAsteroid(sizeDraw, vertexDraw, xDraw, angleDraw, speedDraw);
    }

    /** Starts a new round: a fresh ship, every entity list emptied, counters
        and timers restarted. The high score, upgrades and achievements carry
        over, and no asteroid is generated. */
    method Reset(now: Time)
      modifies this`ship, this`bullets, this`enemyBullets, this`asteroids, this`powerUps,
               this`enemyShips, this`boss, this`score, this`powerUp, this`lastPowerUpSpawn,
               this`asteroidSpawnRate, this`state, this`gameStartTime, this`asteroidsDefeated,
               this`enemyShipsDestroyed, this`level, this`specialWeapon
      ensures fresh(ship) && RoundStarted(now) && asteroids == []
      ensures highScore == old(highScore) && upgrades == old(upgrades) && achievements == old(achievements)
      ensures powerUpEnd == old(powerUpEnd) && powerUpMessageTime == old(powerUpMessageTime)
      ensures asteroidSpeed == old(asteroidSpeed) && enemyShipSpeed == old(enemyShipSpeed) && enableSound == old(enableSound)
      ensures Valid()
    {
      ClearEntities();
      RestartCounters(now);
    }

    /** The first half of `Reset`: the new ship and the emptied entity lists. */
    method ClearEntities()
      modifies this`ship, this`bullets, this`enemyBullets, this`asteroids, this`powerUps,
               this`enemyShips, this`boss
      ensures fresh(ship) && IsStartingShip(ship)
      ensures bullets == [] && enemyBullets == [] && asteroids == [] && powerUps == []
      ensures enemyShips == [] && boss == null
    {
      ship := new Ship(ScreenWidth / 2.0, ScreenHeight - 50.0, 20.0, ShipHealth);
      bullets := [];
      enemyBullets := [];
      asteroids := [];
      powerUps := [];
      enemyShips := [];
      boss := null;
    }

    /** The second half of `Reset`: score, counters, power-up, spawn rate,
        state and the round's clocks. */
    method RestartCounters(now: Time)
      modifies this`score, this`powerUp, this`lastPowerUpSpawn, this`asteroidSpawnRate,
               this`state, this`gameStartTime, this`asteroidsDefeated,
               this`enemyShipsDestroyed, this`level, this`specialWeapon
      ensures score == 0 && powerUp == None && lastPowerUpSpawn == now
      ensures asteroidSpawnRate == InitialAsteroidSpawnRate && state == Playing && gameStartTime == now
      ensures asteroidsDefeated == 0 && enemyShipsDestroyed == 0 && level == 1 && specialWeapon == null
    {
      score := 0;
      powerUp := None;
      lastPowerUpSpawn := now;
      asteroidSpawnRate := InitialAsteroidSpawnRate;
      state := Playing;
      gameStartTime := now;
      asteroidsDefeated := 0;
      enemyShipsDestroyed := 0;
      level := 1;
      specialWeapon := null;
    }

    /** Does the asteroid touch the ship? Contact puts the centres within the
        two radii together on each axis. */
    function CollidesWithShip(a: Asteroid): (c: bool)
      reads this, ship, a
      ensures c ==> Abs(ship.X - a.X) <= a.Size + ship.Size && Abs(ship.Y - a.Y) <= a.Size + ship.Size
      ensures ship.X == a.X && ship.Y == a.Y ==> (c <==> 0.0 <= a.Size + ship.Size)
    {
      Within(ship.X - a.X, ship.Y - a.Y, a.Size + ship.Size)
    }

    /** `CollidesWithShip` is Go's `collidesWithShip` test: the distance between the
        centres is at most the two radii together. */
    lemma ShipContactIffDistance(a: Asteroid, dist: real)
      requires 0.0 <= dist
      requires dist * dist == (ship.X - a.X) * (ship.X - a.X) + (ship.Y - a.Y) * (ship.Y - a.Y)
      ensures CollidesWithShip(a) <==> dist <= a.Size + ship.Size
    {
      WithinIffDistance(ship.X - a.X, ship.Y - a.Y, a.Size + ship.Size, dist);
    }

    /** Is the power-up within reach of the ship? Reach puts the power-up
        within the ship's radius plus 10 on each axis. */
    function CollidesWithPowerUp(p: PowerUp): (c: bool)
      reads this, ship
      ensures c ==> Abs(ship.X - p.X) <= ship.Size + 10.0 && Abs(ship.Y - p.Y) <= ship.Size + 10.0
      ensures ship.X == p.X && ship.Y == p.Y ==> (c <==> 0.0 <= ship.Size + 10.0)
    {
      Within(ship.X - p.X, ship.Y - p.Y, ship.Size + 10.0)
    }

    /** `CollidesWithPowerUp` is Go's `collidesWithPowerUp` test: the distance is at most
        the ship's radius plus 10. */
    lemma PowerUpContactIffDistance(p: PowerUp, dist: real)
      requires 0.0 <= dist
      requires dist * dist == (ship.X - p.X) * (ship.X - p.X) + (ship.Y - p.Y) * (ship.Y - p.Y)
      ensures CollidesWithPowerUp(p) <==> dist <= ship.Size + 10.0
    {
      WithinIffDistance(ship.X - p.X, ship.Y - p.Y, ship.Size + 10.0, dist);
    }

    /** Appends one new asteroid built from the draws; nothing else changes. */
    method GenerateAsteroid(sizeDraw: int, vertexDraw: int, xDraw: int, angleDraw: real, speedDraw: int)
      requires AsteroidDraws(sizeDraw, vertexDraw, xDraw, angleDraw, speedDraw)
      requires Valid()
      modifies this`asteroids
      ensures Valid()
      ensures |asteroids| == |old(asteroids)| + 1 && asteroids[..|old(asteroids)|] == old(asteroids)
      ensures fresh(asteroids[|old(asteroids)|])
      ensures GeneratedFrom(asteroids[|old(asteroids)|], sizeDraw, vertexDraw, xDraw, angleDraw, speedDraw)
    {
      var size := (sizeDraw + 10) as real;
      var numVertices := vertexDraw + 3;
      var vertices := RegularPolygon(size, numVertices);
      var asteroid := new Asteroid(xDraw as real, -50.0, vertices, numVertices, size,
                                   angleDraw * Pi * 2.0, (speedDraw + 1) as real, TruncToInt(size));
      asteroids := asteroids + [asteroid];
    }

    /** Appends two children of `parent`, one per angle draw. The parent and
        every other asteroid already in the list stay as they are. */
    method SplitAsteroid(parent: Asteroid, angleDraws: seq<real>)
      requires |angleDraws| == 2 && forall k :: 0 <= k < |angleDraws| ==> 0.0 <= angleDraws[k] < 1.0
      requires 0 <= parent.NumVertices
      requires Valid()
      modifies this`asteroids
      ensures Valid()
      ensures |asteroids| == |old(asteroids)| + 2 && asteroids[..|old(asteroids)|] == old(asteroids)
      ensures forall k :: 0 <= k < 2 ==>
                fresh(asteroids[|old(asteroids)| + k]) && SplitFrom(asteroids[|old(asteroids)| + k], parent, angleDraws[k])
      ensures asteroids[|old(asteroids)|] != asteroids[|old(asteroids)| + 1]
    {
      var newSize := parent.Size / 2.0;
      ghost var n := |asteroids|;
      for i := 0 to 2
        invariant Valid()
        invariant |asteroids| == n + i && asteroids[..n] == old(asteroids)
        invariant forall j :: n <= j < |asteroids| ==> fresh(asteroids[j])
        invariant forall j :: n <= j < |asteroids| ==> SplitFrom(asteroids[j], parent, angleDraws[j - n])
        invariant i == 2 ==> asteroids[n] != asteroids[n + 1]
      {
        var vertices := RegularPolygon(newSize, parent.NumVertices);
        var child := new Asteroid(parent.X, parent.Y, vertices, parent.NumVertices, newSize,
                                  angleDraws[i] * Pi * 2.0, parent.Speed * 1.5, TruncToInt(newSize));
        asteroids := asteroids + [child];
        assert asteroids[n + i] == child;
      }
    }

    /** Appends one power-up of a drawn kind (never `None`) at a drawn point. */
    method SpawnPowerUp(kindDraw: int, xDraw: int, yDraw: int)
      requires 0 <= kindDraw < 5 && 0 <= xDraw < 800 && 0 <= yDraw < 600
      modifies this`powerUps
      ensures powerUps == old(powerUps) + [PowerUp(xDraw as real, yDraw as real, PowerUpOfOrdinal(kindDraw + 1), ZeroTime)]
      ensures powerUps[|powerUps| - 1].Type != None
      ensures 0.0 <= powerUps[|powerUps| - 1].X <= 799.0 && 0.0 <= powerUps[|powerUps| - 1].Y <= 599.0
    {
      var kind := PowerUpOfOrdinal(kindDraw + 1);
      var p := PowerUp(xDraw as real, yDraw as real, kind, ZeroTime);
      powerUps := powerUps + [p];
    }

    /** Makes `kind` the one active power-up, whatever was active before, and
        starts its 30-second run and its message. */
    method ActivatePowerUp(kind: PowerUpType, now: Time)
      modifies this`powerUp, this`powerUpEnd, this`powerUpMessageTime
      ensures powerUp == kind
      ensures powerUpEnd == now + PowerUpDuration * Second
      ensures powerUpMessageTime == now
    {
      if powerUp != None {
        powerUp := None;
      }
      powerUp := kind;
      powerUpEnd := now + PowerUpDuration * Second;
      powerUpMessageTime := now;
    }

    /** One frame step. The elapsed game time is refreshed; a terminal state
        restarts on Space; a running game whose game-over flag is set restarts
        on Ctrl+R and clears the flag, and otherwise waits unchanged. In a
        running frame the phases (movement, bullets, collisions, difficulty,
        ...) are helpers outside this model, so such a frame may change any
        field of the record, the ship, the listed asteroids, the enemy ships
        and the boss. */
    method Update(now: Time, keys: Keys, enemyDraw: real) returns (step: Step)
      requires 0.0 <= enemyDraw < 1.0
      requires Valid()
      modifies this, ship, asteroids, enemyShips, boss
      ensures Valid()
      ensures step == StepFor(old(state), old(gameOver), keys, |old(enemyShips)|, enemyDraw)
      ensures gameTime == now - old(gameStartTime)
      ensures step.Restarted? ==> fresh(ship) && RoundStarted(now) && asteroids == []
      ensures step.Restarted? ==> gameOver == (old(gameOver) && old(state) != Playing)
      ensures step.AwaitingRestart? || step.EndScreen? ==>
                unchanged(this`ship, this`bullets, this`enemyBullets, this`asteroids, this`powerUps,
                          this`enemyShips, this`boss, this`score, this`powerUp, this`lastPowerUpSpawn,
                          this`asteroidSpawnRate, this`state, this`gameStartTime, this`asteroidsDefeated,
                          this`enemyShipsDestroyed, this`level, this`specialWeapon, this`gameOver)
      ensures !step.Frame? ==> state == Playing || state == old(state)
      ensures !step.Frame? ==>
                (highScore == old(highScore) && upgrades == old(upgrades) && achievements == old(achievements) &&
                 powerUpEnd == old(powerUpEnd) && powerUpMessageTime == old(powerUpMessageTime) &&
                 asteroidSpeed == old(asteroidSpeed) && enemyShipSpeed == old(enemyShipSpeed) &&
                 enableSound == old(enableSound))
      ensures !step.Frame? ==> forall a <- old(asteroids) :: unchanged(a)
      ensures !step.Frame? ==> forall e <- old(enemyShips) :: unchanged(e)
      ensures !step.Frame? && old(boss) != null ==> unchanged(old(boss))
      ensures !step.Frame? ==> unchanged(old(ship))
    {
      gameTime := now - gameStartTime;
      match state
      case Playing =>
        if gameOver {
          if keys.control && keys.r {
            Reset(now);
            gameOver := false;
            return Restarted;
          }
          return AwaitingRestart;
        }
        return Frame(EnemySpawnDue(|enemyShips|, enemyDraw));
      case GameOver | Victory =>
        if keys.space {
          Reset(now);
          return Restarted;
        }
        return EndScreen;
    }
  }
}
