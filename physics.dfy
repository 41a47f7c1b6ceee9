/**
 * The ball and paddle rules as functions on plain values: paddle placement from a
 * tracker sample, ball launch, Euler step, wall reflection, paddle deflection and
 * the brick bounce.
 */
module Physics {
  import opened Config
  import opened Geometry

  datatype Option<T> = None | Some(value: T)

  datatype Point = Point(x: real, y: real)

  /** Position and velocity of the ball. */
  datatype BallState = BallState(x: real, y: real, vx: real, vy: real)

  /**
   * The floating-point library the rules call: math.sin, math.cos, math.radians
   * and math.hypot. They are inputs to the model, not part of it.
   */
  datatype Trig = Trig(sin: real -> real, cos: real -> real, radians: real -> real,
                       hypot: (real, real) -> real)
  {
    function Sin(a: real): real { sin(a) }
    function Cos(a: real): real { cos(a) }
    function Radians(d: real): real { radians(d) }
    function Hypot(u: real, v: real): real { hypot(u, v) }
  }

  /** Python's int() on a float: truncation toward zero. */
  function Trunc(v: real): (n: int)
    ensures 0.0 <= v ==> n as real <= v < n as real + 1.0
    ensures v < 0.0 ==> n as real - 1.0 < v <= n as real
  {
    if v >= 0.0 then v.Floor else -((-v).Floor)
  }

  /** Paddle target from a normalised tracker sample: sample * screen - size / 2. */
  function Aim(sample: Point): (t: Point)
    ensures t.x + PADDLE_W as real / 2.0 == sample.x * SCREEN_W as real
    ensures t.y + PADDLE_H as real / 2.0 == sample.y * SCREEN_H as real
  {
    Point(sample.x * SCREEN_W as real - PADDLE_W as real / 2.0,
          sample.y * SCREEN_H as real - PADDLE_H as real / 2.0)
  }

  /**
   * Paddle.move: the target clamped horizontally into [0, 500] and vertically into
   * the band [BRICK_TOP + 120, SCREEN_H - h - 10] = [180, 452].
   */
  function PaddleSpot(target: Point): (p: Point)
    ensures 0.0 <= p.x <= 500.0 && 180.0 <= p.y <= 452.0
    ensures 0.0 <= target.x <= 500.0 ==> p.x == target.x
    ensures 180.0 <= target.y <= 452.0 ==> p.y == target.y
  {
    Point(Clamp(target.x, 0.0, (SCREEN_W - PADDLE_W) as real),
          Clamp(target.y, (BRICK_TOP + 120) as real, (SCREEN_H - PADDLE_H - 10) as real))
  }

  /**
   * A sample whose target lies in the paddle's band is followed exactly: the
   * clamped paddle's centre is the sample scaled to the screen.
   */
  lemma AimCentresPaddle(sample: Point)
    requires 70.0 <= sample.x * SCREEN_W as real <= 570.0
    requires 189.0 <= sample.y * SCREEN_H as real <= 461.0
    ensures PaddleSpot(Aim(sample)).x + PADDLE_W as real / 2.0 == sample.x * SCREEN_W as real
    ensures PaddleSpot(Aim(sample)).y + PADDLE_H as real / 2.0 == sample.y * SCREEN_H as real
  {
  }

  /** The centre sample (0.5, 0.7) puts the paddle at (250, 327). */
  lemma AimAtCentre()
    ensures PaddleSpot(Aim(Point(0.5, 0.7))) == Point(250.0, 327.0)
  {
  }

  /** Paddle.rect: the position truncated to integers, with the paddle's size. */
  function PaddleRect(p: Point): (r: Rect)
    ensures r.w == PADDLE_W && r.h == PADDLE_H
    ensures 0.0 <= p.x ==> r.left as real <= p.x < r.left as real + 1.0
    ensures 0.0 <= p.y ==> r.top as real <= p.y < r.top as real + 1.0
  {
    Rect(Trunc(p.x), Trunc(p.y), PADDLE_W, PADDLE_H)
  }

  /**
   * Ball.reset: centre of the screen, speed 5 + level, direction from the random
   * launch angle `draw`; the vertical velocity is never downward.
   */
  function Launch(level: int, draw: real, trig: Trig): (b: BallState)
    ensures b.x == (SCREEN_W / 2) as real && b.y == (SCREEN_H / 2) as real
    ensures b.vy <= 0.0
  {
    var speed := (5 + level) as real;
    BallState((SCREEN_W / 2) as real, (SCREEN_H / 2) as real,
              trig.Sin(draw) * speed, -Abs(trig.Cos(draw) * speed))
  }

  /** Ball.update: one Euler step. */
  function Advance(b: BallState): (r: BallState)
    ensures r.vx == b.vx && r.vy == b.vy
    ensures r.x - b.x == b.vx && r.y - b.y == b.vy
    ensures SqSpeed(r) == SqSpeed(b)
  {
    b.(x := b.x + b.vx, y := b.y + b.vy)
  }

  /** The ball touches the left or the right wall. */
  predicate AtSide(b: BallState)
  {
    b.x - R <= 0.0 || b.x + R >= SCREEN_W as real
  }

  /** The ball touches the top wall. */
  predicate AtTop(b: BallState)
  {
    b.y - R <= 0.0
  }

  function SqSpeed(b: BallState): real
  {
    b.vx * b.vx + b.vy * b.vy
  }

  /** Two reals of equal magnitude have equal squares. */
  lemma SameSquare(u: real, v: real)
    requires Abs(u) == Abs(v)
    ensures u * u == v * v
  {
    if u != v {
      assert u == -v;
    }
  }

  /**
   * The wall rule: a side wall reverses vx, the top wall sends the ball down with
   * the same vertical speed; nothing else changes, so the speed is kept.
   */
  function Walls(b: BallState): (r: BallState)
    ensures r.x == b.x && r.y == b.y
    ensures AtSide(b) ==> r.vx == -b.vx
    ensures !AtSide(b) ==> r.vx == b.vx
    ensures AtTop(b) ==> r.vy >= 0.0
    ensures !AtTop(b) ==> r.vy == b.vy
    ensures Abs(r.vx) == Abs(b.vx) && Abs(r.vy) == Abs(b.vy)
    ensures SqSpeed(r) == SqSpeed(b)
  {
    var vx := if AtSide(b) then -b.vx else b.vx;
    var vy := if AtTop(b) then Abs(b.vy) else b.vy;
    var r := b.(vx := vx, vy := vy);
    SameSquare(r.vx, b.vx);
    SameSquare(r.vy, b.vy);
    r
  }

  /** The ball is on the paddle and moving down: the deflection applies. */
  predicate OnPaddle(b: BallState, pad: Rect)
  {
    CircleRect(b.x, b.y, R, pad) && b.vy > 0.0
  }

  /** Offset of the ball from the paddle centre, scaled to [-1, 1]. */
  function HitOffset(b: BallState, pad: Rect): (hit: real)
    ensures -1.0 <= hit <= 1.0
  {
    Clamp((b.x - pad.CenterX() as real) / (PADDLE_W as real / 2.0), -1.0, 1.0)
  }

  /** The outgoing angle from vertical: the offset times 60 degrees. */
  function DeflectAngle(b: BallState, pad: Rect, trig: Trig): real
  {
    HitOffset(b, pad) * trig.Radians(60.0)
  }

  /**
   * The paddle rule: on a hit the ball leaves at angle offset * 60 degrees from
   * straight up with the given speed, placed just above the paddle; otherwise
   * nothing changes.
   */
  function PaddleBounce(b: BallState, pad: Rect, speed: real, trig: Trig): (r: BallState)
    ensures !OnPaddle(b, pad) ==> r == b
    ensures OnPaddle(b, pad) ==> r.x == b.x && r.y + R < pad.top as real
  {
    if OnPaddle(b, pad) then
      var angle := DeflectAngle(b, pad, trig);
      BallState(b.x, pad.top as real - R - 1.0, speed * trig.Sin(angle), -speed * trig.Cos(angle))
    else
      b
  }

  /**
   * With a cosine that is positive within 60 degrees of vertical and a positive
   * speed, a deflected ball always moves up.
   */
  lemma DeflectUpward(b: BallState, pad: Rect, speed: real, trig: Trig)
    requires speed > 0.0 && trig.Radians(60.0) >= 0.0
    requires forall a :: Abs(a) <= trig.Radians(60.0) ==> trig.Cos(a) > 0.0
    requires OnPaddle(b, pad)
    ensures PaddleBounce(b, pad, speed, trig).vy < 0.0
  {
    var angle := DeflectAngle(b, pad, trig);
    ScaledWithin(HitOffset(b, pad), trig.Radians(60.0));
    assert trig.Cos(angle) > 0.0;
    PositiveProduct(speed, trig.Cos(angle));
  }

  /**
   * With sin^2 + cos^2 = 1 and `speed` the ball's speed, a deflection turns the
   * ball without changing its speed.
   */
  lemma DeflectKeepsSpeed(b: BallState, pad: Rect, speed: real, trig: Trig)
    requires forall a :: trig.Sin(a) * trig.Sin(a) + trig.Cos(a) * trig.Cos(a) == 1.0
    requires speed * speed == SqSpeed(b)
    ensures SqSpeed(PaddleBounce(b, pad, speed, trig)) == SqSpeed(b)
  {
    if OnPaddle(b, pad) {
      var angle := DeflectAngle(b, pad, trig);
      var u, v := trig.Sin(angle), trig.Cos(angle);
      assert u * u + v * v == 1.0;
      calc {
        SqSpeed(PaddleBounce(b, pad, speed, trig));
        (speed * u) * (speed * u) + (-speed * v) * (-speed * v);
        speed * speed * (u * u + v * v);
        speed * speed;
      }
    }
  }

  /** A factor in [-1, 1] scales m >= 0 to within m of zero. */
  lemma ScaledWithin(h: real, m: real)
    requires -1.0 <= h <= 1.0 && m >= 0.0
    ensures Abs(h * m) <= m
  {
    if h >= 0.0 {
      assert m - h * m == (1.0 - h) * m;
      NonNegProduct(1.0 - h, m);
      NonNegProduct(h, m);
    } else {
      assert m + h * m == (1.0 + h) * m;
      NonNegProduct(1.0 + h, m);
      NonNegProduct(-h, m);
    }
  }

  lemma NonNegProduct(u: real, v: real)
    requires u >= 0.0 && v >= 0.0
    ensures u * v >= 0.0
  {
  }

  lemma PositiveProduct(u: real, v: real)
    requires u > 0.0 && v > 0.0
    ensures u * v > 0.0
  {
  }

  /** The brick-contact test: the ball's circle meets the brick's rectangle. */
  predicate Touches(b: BallState, rect: Rect)
  {
    CircleRect(b.x, b.y, R, rect)
  }

  /**
   * The contact is on a side face: the horizontal offset from the clamped contact
   * point is larger than the vertical one.
   */
  predicate SideContact(b: BallState, rect: Rect)
  {
    var cx := Clamp(b.x, rect.left as real, rect.Right() as real);
    var cy := Clamp(b.y, rect.top as real, rect.Bottom() as real);
    Abs(b.x - cx) > Abs(b.y - cy)
  }

  /**
   * The brick rule: exactly one velocity component is reversed, vx on a side
   * contact and vy otherwise; position and both speeds are kept.
   */
  function BrickBounce(b: BallState, rect: Rect): (r: BallState)
    ensures r.x == b.x && r.y == b.y
    ensures SideContact(b, rect) ==> r.vx == -b.vx && r.vy == b.vy
    ensures !SideContact(b, rect) ==> r.vx == b.vx && r.vy == -b.vy
    ensures Abs(r.vx) == Abs(b.vx) && Abs(r.vy) == Abs(b.vy)
    ensures SqSpeed(r) == SqSpeed(b)
  {
    var r := if SideContact(b, rect) then b.(vx := -b.vx) else b.(vy := -b.vy);
    SameSquare(r.vx, b.vx);
    SameSquare(r.vy, b.vy);
    r
  }
}
