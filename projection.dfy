/** get_ball_position: the screen-space bounding box of a ball. */
module Projection {
  import opened World

  /** A bounding box in pixels: top-left corner (left, top) and bottom-right
      corner (right, bottom); the program calls them tx, ty, bx, by. */
  datatype Box = Box(left: real, top: real, right: real, bottom: real)

  /** Pixels per world unit, horizontally and vertically. */
  const ScaleX: real := OutputWidth as real / WorldWidth as real
  const ScaleY: real := OutputHeight as real / WorldHeight as real
  /** The drawn radius, a little smaller than the physics radius of 2. */
  const DrawRadius: real := 1.9

  /** The box of a ball at position p: world corners scaled, x measured from
      the screen centre, y flipped, and then the corners ordered by min/max. */
  function GetBallPosition(p: Vec2): (b: Box)
    ensures b.left <= b.right && b.top <= b.bottom
    ensures b.right - b.left == 2.0 * DrawRadius * ScaleX == 76.0
    ensures b.bottom - b.top == 2.0 * DrawRadius * ScaleY == 76.0
    ensures (b.left + b.right) / 2.0 == 20.0 * p.x + 400.0
    ensures (b.top + b.bottom) / 2.0 == 400.0 - 20.0 * p.y
  {
    assert ScaleX == 20.0 && ScaleY == 20.0;
    var ballboxtlx := ((p.x - DrawRadius) * ScaleX) + (OutputWidth / 2) as real;
    var ballboxtly := OutputHeight as real - ((p.y - DrawRadius) * ScaleY);
    var ballboxbrx := ((p.x + DrawRadius) * ScaleX) + (OutputWidth / 2) as real;
    var ballboxbry := OutputHeight as real - ((p.y + DrawRadius) * ScaleY);
    Box(MinR(ballboxtlx, ballboxbrx), MinR(ballboxtly, ballboxbry),
        MaxR(ballboxtlx, ballboxbrx), MaxR(ballboxtly, ballboxbry))
  }

  function MinR(a: real, b: real): real
  {
    if a <= b then a else b
  }

  function MaxR(a: real, b: real): real
  {
    if a >= b then a else b
  }

  /** The world position at the centre of a box: the inverse of the projection. */
  function BoxCentre(b: Box): Vec2
  {
    Vec2(((b.left + b.right) / 2.0 - 400.0) / 20.0, (400.0 - (b.top + b.bottom) / 2.0) / 20.0)
  }

  /** The box of a ball determines where the ball is. */
  lemma ProjectionRoundTrip(p: Vec2)
    ensures BoxCentre(GetBallPosition(p)) == p
  {
    var b := GetBallPosition(p);
    assert (b.left + b.right) / 2.0 - 400.0 == 20.0 * p.x;
    assert 400.0 - (b.top + b.bottom) / 2.0 == 20.0 * p.y;
  }

  /** Two balls get the same box only when they are at the same place. */
  lemma ProjectionInjective(p: Vec2, q: Vec2)
    ensures GetBallPosition(p) == GetBallPosition(q) ==> p == q
  {
    ProjectionRoundTrip(p);
    ProjectionRoundTrip(q);
  }

  /** Horizontal distance between the left edges of two balls' boxes. */
  lemma LeftEdgeDistance(p: Vec2, q: Vec2)
    ensures GetBallPosition(q).left - GetBallPosition(p).left == 20.0 * (q.x - p.x)
  {
    var bp, bq := GetBallPosition(p), GetBallPosition(q);
    assert bp.left == 20.0 * p.x + 400.0 - 38.0;
    assert bq.left == 20.0 * q.x + 400.0 - 38.0;
  }
}
