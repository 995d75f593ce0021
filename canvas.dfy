/** The fixed 800 x 600 logical canvas and the two geometric tests the game
    applies on it: clamping a coordinate into the canvas, and "is this point
    within distance r of that one". Go's float64 is modelled by `real`. */
module Canvas {

  const ScreenWidth: real := 800.0
  const ScreenHeight: real := 600.0

  function Abs(x: real): (a: real)
    ensures 0.0 <= a && (a == x || a == -x)
  {
    if x < 0.0 then -x else x
  }

  /** Where one coordinate of the ship ends up after `Ship.Move`: a value below
      0 snaps to 0, a value above `max` snaps to `max`, anything else stays. */
  function ClampAxis(v: real, max: real): (r: real)
    requires 0.0 <= max
    ensures 0.0 <= r <= max
    ensures 0.0 <= v <= max ==> r == v
    ensures v < 0.0 ==> r == 0.0
    ensures max < v ==> r == max
  {
    if v < 0.0 then 0.0 else if v > max then max else v
  }

  /** The clamped coordinate is the point of [0, max] nearest to the target. */
  lemma ClampIsNearest(v: real, max: real, p: real)
    requires 0.0 <= max && 0.0 <= p <= max
    ensures Abs(ClampAxis(v, max) - v) <= Abs(p - v)
  {
  }

  /** The game's hit tests compute `math.Sqrt(dx*dx + dy*dy) <= r`. A square
      root is never negative, so that holds exactly when r is not negative and
      the squared distance is at most r*r; this is the form used throughout. */
  function Within(dx: real, dy: real, r: real): (w: bool)
    ensures w ==> Abs(dx) <= r && Abs(dy) <= r
    ensures dx == 0.0 && dy == 0.0 ==> (w <==> 0.0 <= r)
  {
    AxisWithinRadius(dx, dy, r);
    AxisWithinRadius(dy, dx, r);
    0.0 <= r && dx * dx + dy * dy <= r * r
  }

  /** A point within distance r of the origin is within r on each axis. */
  lemma AxisWithinRadius(x: real, y: real, r: real)
    ensures 0.0 <= r && x * x + y * y <= r * r ==> Abs(x) <= r
  {
    if 0.0 <= r && r < Abs(x) {
      SquareStrictMonotone(r, Abs(x));
      assert Abs(x) * Abs(x) == x * x;
      assert 0.0 <= y * y;
    }
  }

  lemma SquareMonotone(a: real, b: real)
    requires 0.0 <= a <= b
    ensures a * a <= b * b
  {
  }

  lemma SquareStrictMonotone(a: real, b: real)
    requires 0.0 <= a < b
    ensures a * a < b * b
  {
    calc {
      a * a;
    <= a * b;
    <  { assert 0.0 < (b - a) * b; }
      b * b;
    }
  }

  /** `Within` agrees with Go's `math.Sqrt` distance test for the
      non-negative square root `dist` of the squared distance. */
  lemma WithinIffDistance(dx: real, dy: real, r: real, dist: real)
    requires 0.0 <= dist && dist * dist == dx * dx + dy * dy
    ensures Within(dx, dy, r) <==> dist <= r
  {
    if dist <= r {
      SquareMonotone(dist, r);
    } else if 0.0 <= r {
      SquareStrictMonotone(r, dist);
    }
  }
}
