/**
 * The per-frame physics of `Ball`: the collision predicate and the update
 * that rolls a moving ball along +x and stops it on a collision.
 */
module Billiards {
  import opened Vectors

  /** `Ball::BALL_RADIUS`. */
  const BALL_RADIUS: real := 0.035

  /** Half-extents of the playing area along x and z, the wall limits of `IsColliding`. */
  const WALL_X: real := 0.9
  const WALL_Z: real := 0.45

  /** The state of one ball the physics reads and writes. */
  datatype Ball = Ball(position: Vec3, orientation: Vec3, isMoving: bool)

  /** Two ball centres are no further apart than two radii (`glm::distance <= 2 * BALL_RADIUS`). */
  predicate Touching(a: Vec3, b: Vec3) {
    SqDistance(a, b) <= (2.0 * BALL_RADIUS) * (2.0 * BALL_RADIUS)
  }

  /** The ball pokes through one of the four cushions; the height is not looked at. */
  predicate HitsWall(p: Vec3) {
    || p.x + BALL_RADIUS > WALL_X
    || p.x - BALL_RADIUS < -WALL_X
    || p.z + BALL_RADIUS > WALL_Z
    || p.z - BALL_RADIUS < -WALL_Z
  }

  /** What `balls[i].IsColliding(balls)` reports: another ball touches it, or it hits a wall. */
  predicate Colliding(balls: seq<Ball>, i: nat)
    requires i < |balls|
  {
    || (exists j | 0 <= j < |balls| && j != i :: Touching(balls[i].position, balls[j].position))
    || HitsWall(balls[i].position)
  }

  /** `Ball::IsColliding`: scan the other balls, returning at the first touching one, then test the walls. */
  method IsColliding(balls: seq<Ball>, i: nat) returns (r: bool)
    requires i < |balls|
    ensures r <==> Colliding(balls, i)
  {
    var position := balls[i].position;
    var j := 0;
    while j < |balls|
      invariant 0 <= j <= |balls|
      invariant forall k | 0 <= k < j && k != i :: !Touching(position, balls[k].position)
    {
      if j != i {
        var sq := SqDistance(position, balls[j].position);
        var minDistance := 2.0 * BALL_RADIUS;
        if sq <= minDistance * minDistance {
          return true;
        }
      }
      j := j + 1;
    }
    if position.x + BALL_RADIUS > WALL_X || position.x - BALL_RADIUS < -WALL_X
      || position.z + BALL_RADIUS > WALL_Z || position.z - BALL_RADIUS < -WALL_Z
    {
      return true;
    }
    return false;
  }

  /**
   * Comparing squares decides the same as comparing `glm::distance`: for the
   * non-negative root `d` of the squared distance, `d <= 2r` exactly when
   * the squared distance is at most `(2r)^2`.
   */
  lemma SquaredComparisonExact(a: Vec3, b: Vec3, d: real)
    requires d >= 0.0 && d * d == SqDistance(a, b)
    ensures d <= 2.0 * BALL_RADIUS <==> Touching(a, b)
  {
    var m := 2.0 * BALL_RADIUS;
    if d <= m {
      assert d * d <= m * d <= m * m;
    } else {
      assert d * d > m * d > m * m;
    }
  }

  /**
   * `Ball::Update` for `balls[i]`, with `SPEED` as `speed` and
   * `glm::degrees` as `deg`: a moving ball stops if it collides, and in the
   * same call still advances along x and rolls about z.
   */
  function Update(balls: seq<Ball>, i: nat, deltaTime: real, speed: real, deg: real -> real): (r: Ball)
    requires i < |balls|
    ensures !balls[i].isMoving ==> r == balls[i]
    ensures balls[i].isMoving ==> (r.isMoving <==> !Colliding(balls, i))
  {
    var b := balls[i];
    if !b.isMoving then b
    else
      var distance := speed * deltaTime;
      Ball(
        b.position.(x := b.position.x + distance),
        b.orientation.(z := b.orientation.z - deg(distance / BALL_RADIUS)),
        !Colliding(balls, i))
  }

  /**
   * A moving ball advances by `speed * deltaTime` along x and turns by
   * `deg(speed * deltaTime / BALL_RADIUS)` backwards about z; every other
   * coordinate is untouched, collision or not.
   */
  lemma UpdateMoving(balls: seq<Ball>, i: nat, deltaTime: real, speed: real, deg: real -> real)
    requires i < |balls| && balls[i].isMoving
    ensures var b, b' := balls[i], Update(balls, i, deltaTime, speed, deg);
      && b'.position.x == b.position.x + speed * deltaTime
      && b'.position.y == b.position.y
      && b'.position.z == b.position.z
      && b'.orientation.x == b.orientation.x
      && b'.orientation.y == b.orientation.y
      && b'.orientation.z == b.orientation.z - deg(speed * deltaTime / BALL_RADIUS)
  {
  }

  /** A collision stops the ball but does not cancel that frame's advance. */
  lemma CollisionStopsAfterAdvancing(balls: seq<Ball>, i: nat, deltaTime: real, speed: real, deg: real -> real)
    requires i < |balls| && balls[i].isMoving
    ensures var b' := Update(balls, i, deltaTime, speed, deg);
      && (b'.isMoving <==> !Colliding(balls, i))
      && b'.position.x == balls[i].position.x + speed * deltaTime
  {
  }

  /** Nothing in the update sets a ball moving again. */
  lemma UpdateNeverRestarts(balls: seq<Ball>, i: nat, deltaTime: real, speed: real, deg: real -> real)
    requires i < |balls|
    ensures Update(balls, i, deltaTime, speed, deg).isMoving ==> balls[i].isMoving
  {
  }

  /** With no elapsed time the position and orientation stay put, moving or not. */
  lemma UpdateZeroTime(balls: seq<Ball>, i: nat, speed: real, deg: real -> real)
    requires i < |balls| && deg(0.0) == 0.0
    ensures Update(balls, i, 0.0, speed, deg).position == balls[i].position
    ensures Update(balls, i, 0.0, speed, deg).orientation == balls[i].orientation
  {
  }

  /** A ball exactly touching a cushion is not a wall collision; one a little further out is. */
  lemma WallIsStrict(p: Vec3)
    ensures p.x == WALL_X - BALL_RADIUS && -WALL_Z + BALL_RADIUS <= p.z <= WALL_Z - BALL_RADIUS ==> !HitsWall(p)
    ensures p.x > WALL_X - BALL_RADIUS ==> HitsWall(p)
    ensures p.z < -WALL_Z + BALL_RADIUS ==> HitsWall(p)
  {
  }

  /** An in-bounds ball with no other ball within two radii does not collide. */
  lemma FreeBallNotColliding(balls: seq<Ball>, i: nat)
    requires i < |balls| && !HitsWall(balls[i].position)
    requires forall j | 0 <= j < |balls| && j != i :: !Touching(balls[i].position, balls[j].position)
    ensures !Colliding(balls, i)
  {
  }

  /** Worked example: centres 0.05 apart collide. */
  lemma NearBallsCollide()
    ensures Touching(Vec3(0.0, 0.1, 0.0), Vec3(0.05, 0.1, 0.0))
  {
    assert Sub(Vec3(0.0, 0.1, 0.0), Vec3(0.05, 0.1, 0.0)) == Vec3(-0.05, 0.0, 0.0);
    assert Dot(Vec3(-0.05, 0.0, 0.0), Vec3(-0.05, 0.0, 0.0)) == 0.0025;
  }

  /** Worked example: centres 0.2 apart do not collide. */
  lemma FarBallsDoNotCollide()
    ensures !Touching(Vec3(0.0, 0.1, 0.0), Vec3(0.2, 0.1, 0.0))
  {
    assert Sub(Vec3(0.0, 0.1, 0.0), Vec3(0.2, 0.1, 0.0)) == Vec3(-0.2, 0.0, 0.0);
    assert Dot(Vec3(-0.2, 0.0, 0.0), Vec3(-0.2, 0.0, 0.0)) == 0.04;
  }

  /** The ball-ball test is inclusive: centres exactly two radii apart, along any axis, collide. */
  lemma TouchingIsInclusive(p: Vec3)
    ensures Touching(p, p.(x := p.x + 2.0 * BALL_RADIUS))
    ensures Touching(p, p.(y := p.y - 2.0 * BALL_RADIUS))
    ensures Touching(p, p.(z := p.z + 2.0 * BALL_RADIUS))
  {
    assert Sub(p, p.(x := p.x + 2.0 * BALL_RADIUS)) == Vec3(-0.07, 0.0, 0.0);
    assert Dot(Vec3(-0.07, 0.0, 0.0), Vec3(-0.07, 0.0, 0.0)) == 0.0049;
    assert Sub(p, p.(y := p.y - 2.0 * BALL_RADIUS)) == Vec3(0.0, 0.07, 0.0);
    assert Dot(Vec3(0.0, 0.07, 0.0), Vec3(0.0, 0.07, 0.0)) == 0.0049;
    assert Sub(p, p.(z := p.z + 2.0 * BALL_RADIUS)) == Vec3(0.0, 0.0, -0.07);
    assert Dot(Vec3(0.0, 0.0, -0.07), Vec3(0.0, 0.0, -0.07)) == 0.0049;
  }

  /** A ball only ever hits another ball, never itself: a lone in-bounds ball is never colliding. */
  lemma LoneBallFree(b: Ball)
    requires !HitsWall(b.position)
    ensures !Colliding([b], 0)
  {
  }

  /**
   * Because the advance is applied on the frame that detects the collision,
   * a ball stops one step past the point where it first overlapped: rolled
   * 0.1 per frame from x = 0.86, it is still moving at 0.96 and comes to
   * rest at 1.06, beyond the cushion at 0.9.
   */
  lemma CushionOvershoot(deg: real -> real)
    ensures var b0 := Ball(Vec3(0.86, 0.1, 0.0), Vec3(0.0, 0.0, 0.0), true);
      var b1 := Update([b0], 0, 1.0, 0.1, deg);
      var b2 := Update([b1], 0, 1.0, 0.1, deg);
      && b1.isMoving && b1.position.x == 0.96
      && !b2.isMoving && b2.position.x == 1.06
      && b2.position.x > WALL_X
  {
    var b0 := Ball(Vec3(0.86, 0.1, 0.0), Vec3(0.0, 0.0, 0.0), true);
    assert !Colliding([b0], 0);
    var b1 := Update([b0], 0, 1.0, 0.1, deg);
    assert Colliding([b1], 0);
  }
}
