/** The entities of the game: the player's ship and the asteroids, which the
    game changes in place through pointers, and the value records (bullets,
    power-ups, upgrades, achievements). */
module Entities {
  import opened Canvas
  import opened Clock

  /** Go's `math.Pi`, written as the shortest decimal that rounds to the
      float64 value Go stores; the model takes this decimal as exact. */
  const Pi: real := 3.141592653589793

  /** Go's conversion of a float64 to int: the integer part, rounding toward zero. */
  function TruncToInt(x: real): (n: int)
    ensures 0.0 <= x ==> n as real <= x < n as real + 1.0
    ensures x < 0.0 ==> n as real - 1.0 < x <= n as real
  {
    if 0.0 <= x then x.Floor else -((-x).Floor)
  }

  /** The player's ship. `Move` changes its position in place. */
  class Ship {
    var X: real
    var Y: real
    var Angle: real
    var Size: real
    var Health: int
    var LastShot: Time

    constructor (x: real, y: real, size: real, health: int)
      ensures X == x && Y == y && Angle == 0.0 && Size == size && Health == health && LastShot == ZeroTime
    {
      X, Y, Angle, Size, Health, LastShot := x, y, 0.0, size, health, ZeroTime;
    }

    /** Adds the displacement, then pulls each coordinate back onto the canvas. */
    method Move(dx: real, dy: real)
      modifies this`X, this`Y
      ensures X == ClampAxis(old(X) + dx, ScreenWidth) && Y == ClampAxis(old(Y) + dy, ScreenHeight)
      ensures 0.0 <= X <= ScreenWidth && 0.0 <= Y <= ScreenHeight
      ensures (0.0 <= old(X) + dx <= ScreenWidth && 0.0 <= old(Y) + dy <= ScreenHeight) ==>
                X == old(X) + dx && Y == old(Y) + dy
      ensures Angle == old(Angle) && Size == old(Size) && Health == old(Health)
    {
      X := X + dx;
      Y := Y + dy;
      if X < 0.0 {
        X := 0.0;
      }
      if X > ScreenWidth {
        X := ScreenWidth;
      }
      if Y < 0.0 {
        Y := 0.0;
      }
      if Y > ScreenHeight {
        Y := ScreenHeight;
      }
    }
  }

  /** One corner of an asteroid's outline, kept symbolically: the offset
      (radius * cos(a), radius * sin(a)) from the centre, at the angle
      a = step * 2 * pi / steps. */
  datatype Vertex = Polar(radius: real, step: nat, steps: nat)

  /** `vs` is the outline of a regular polygon with `n` corners on the circle
      of the given radius, corner i at angle i * 2 * pi / n. */
  ghost predicate IsRegularPolygon(vs: seq<Vertex>, radius: real, n: int) {
    |vs| == n && forall i :: 0 <= i < |vs| ==> vs[i] == Polar(radius, i, n)
  }

  /** Fills a fresh vertex array of length `n`, corner by corner. */
  method RegularPolygon(radius: real, n: nat) returns (vs: seq<Vertex>)
    ensures |vs| == n
    ensures forall i :: 0 <= i < n ==> vs[i] == Polar(radius, i, n)
  {
    var corners := new Vertex[n];
    for i := 0 to n
      invariant forall j :: 0 <= j < i ==> corners[j] == Polar(radius, j, n)
    {
      corners[i] := Polar(radius, i, n);
    }
    vs := corners[..];
  }

  /** A falling asteroid. A bullet hit shrinks it and damages it in place;
      its outline is fixed when it is created. */
  class Asteroid {
    var X: real
    var Y: real
    var Vertices: seq<Vertex>
    var NumVertices: int
    var Size: real
    var Angle: real
    var Speed: real
    var Health: int

    constructor (x: real, y: real, vertices: seq<Vertex>, numVertices: int, size: real,
                 angle: real, speed: real, health: int)
      ensures X == x && Y == y && Vertices == vertices && NumVertices == numVertices
      ensures Size == size && Angle == angle && Speed == speed && Health == health
    {
      X, Y, Vertices, NumVertices := x, y, vertices, numVertices;
      Size, Angle, Speed, Health := size, angle, speed, health;
    }
  }

  /** An enemy ship; only the collection holding them is touched here. */
  class EnemyShip {
    var X: real
    var Y: real
    var Angle: real
    var Size: real
    var Health: int
    var Speed: real
    var LastShot: Time
  }

  /** The boss; only the slot holding it is touched here. */
  class Boss {
    var X: real
    var Y: real
    var Angle: real
    var Size: real
    var Health: int
    var Speed: real
    var LastShot: Time
    var Pattern: int
  }

  /** A special weapon with limited ammunition; inert in the modelled code. */
  class SpecialWeapon {
    var Name: string
    var Ammo: int
    var Damage: int
  }

  datatype Bullet = Bullet(X: real, Y: real, Angle: real, Damage: int)

  /** The kinds of power-up. Go numbers them 0 to 5 in this order. */
  datatype PowerUpType = None | Nuke | DoubleDamage | InfiniteAmmo | Shield | SpeedBoost
  {
    function Ordinal(): (n: int)
      ensures 0 <= n <= 5
      ensures n == 0 <==> this == None
    {
      match this
      case None => 0
      case Nuke => 1
      case DoubleDamage => 2
      case InfiniteAmmo => 3
      case Shield => 4
      case SpeedBoost => 5
    }
  }

  /** The power-up kind with Go number `n`. */
  function PowerUpOfOrdinal(n: int): (t: PowerUpType)
    requires 0 <= n <= 5
    ensures t.Ordinal() == n
  {
    match n
    case 0 => None
    case 1 => Nuke
    case 2 => DoubleDamage
    case 3 => InfiniteAmmo
    case 4 => Shield
    case _ => SpeedBoost
  }

  /** Numbering and un-numbering a kind gives the kind back. */
  lemma OrdinalRoundTrip(t: PowerUpType)
    ensures PowerUpOfOrdinal(t.Ordinal()) == t
  {
  }

  datatype PowerUp = PowerUp(X: real, Y: real, Type: PowerUpType, Duration: Time)

  datatype Upgrade = Upgrade(Name: string, Level: int, Cost: int)

  datatype Achievement = Achievement(Name: string, Description: string, Unlocked: bool)
}
