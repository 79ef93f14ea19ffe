/** The data model shared by every other module: the fixed sizes of the
    screen and of the physics world, a ball's state as the physics library
    keeps it, the per-ball parameter tuple, and the opaque physics step. */
module World {

  /** Size of the rendered frame in pixels (OUTPUT_SIZE). */
  const OutputWidth: int := 800
  const OutputHeight: int := 400

  /** Size of the physics world in world units (WORLD_SIZE). */
  const WorldWidth: int := 40
  const WorldHeight: int := 20

  /** Height at which every ball is created. */
  const DropHeight: real := 20.0

  datatype Option<T> = None | Some(value: T)

  datatype Vec2 = Vec2(x: real, y: real)

  /** A dynamic circular body: its position, its linear velocity and the
      restitution of its single fixture. */
  datatype Ball = Ball(position: Vec2, linearVelocity: Vec2, restitution: real)

  /** The tuple (posx, rest, velx, vely) that creates one ball and that is
      captured back from it before the first step. */
  datatype BallParams = BallParams(posx: int, rest: real, velx: int, vely: int)

  /** Python's int() on a float: truncation toward zero. */
  function Trunc(r: real): (n: int)
    ensures 0.0 <= r ==> n as real <= r < n as real + 1.0
    ensures r < 0.0 ==> n as real - 1.0 < r <= n as real
  {
    if r >= 0.0 then r.Floor else -((-r).Floor)
  }

  /** The body that CreateDynamicBody makes from one parameter tuple. */
  function CreateBall(p: BallParams): Ball
  {
    Ball(Vec2(p.posx as real, DropHeight), Vec2(p.velx as real, p.vely as real), p.rest)
  }

  /** The parameter tuple read back from a body. */
  function Capture(b: Ball): BallParams
  {
    BallParams(Trunc(b.position.x), b.restitution,
               Trunc(b.linearVelocity.x), Trunc(b.linearVelocity.y))
  }

  /** Reading a freshly created ball back gives the tuple it was made from. */
  lemma CaptureCreate(p: BallParams)
    ensures Capture(CreateBall(p)) == p
  {
    var b := CreateBall(p);
    assert Trunc(b.position.x) == p.posx;
    assert Trunc(b.linearVelocity.x) == p.velx;
    assert Trunc(b.linearVelocity.y) == p.vely;
  }

  /** The balls created, in order, from a list of parameter tuples. */
  function Launch(ps: seq<BallParams>): (w: seq<Ball>)
    ensures |w| == |ps|
    ensures forall i :: 0 <= i < |ps| ==> Capture(w[i]) == ps[i]
  {
    var w := seq(|ps|, i requires 0 <= i < |ps| => CreateBall(ps[i]));
    forall i | 0 <= i < |ps| ensures Capture(w[i]) == ps[i] {
      CaptureCreate(ps[i]);
    }
    w
  }

  /** A physics step moves the bodies it is given and keeps every one of them. */
  ghost predicate PreservesCount(physics: seq<Ball> -> seq<Ball>)
  {
    forall w: seq<Ball> {:trigger physics(w)} :: |physics(w)| == |w|
  }

  /** The balls after n physics steps (world.Step followed by ClearForces). */
  function Run(physics: seq<Ball> -> seq<Ball>, w: seq<Ball>, n: nat): (r: seq<Ball>)
    ensures PreservesCount(physics) ==> |r| == |w|
    decreases n
  {
    if n == 0 then w else physics(Run(physics, w, n - 1))
  }
}
