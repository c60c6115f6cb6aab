/** JavaScript's `undefined`/`null` next to a real value. */
module Optional {
  datatype Option<+T> = None | Some(value: T)
}

/**
 * The pure pieces shared by both variants of the game screen: the constants,
 * the screen geometry, the bird's hitbox test, the two pipe rectangles, the
 * ground/ceiling test, the free-fall step and the bird's rotation.
 * Numbers are `real`: an idealisation of JavaScript doubles without rounding.
 */
module World {
  import opened Optional

  const Gravity: real := 1000.0
  const JumpForce: real := -500.0

  const PipeWidth: real := 104.0
  const PipeHeight: real := 640.0
  const BirdWidth: real := 64.0
  const BirdHeight: real := 48.0
  const BaseHeight: real := 150.0

  /** The window dimensions, read once when the game screen mounts. */
  datatype Screen = Screen(width: real, height: real) {
    /** The bird's fixed horizontal position. */
    function BirdX(): real { width / 4.0 }
    /** The bird's height when a session starts. */
    function StartY(): real { height / 3.0 }
    /** Below this line (strictly) the bird has hit the ground. */
    function GroundLine(): real { height - BaseHeight + BirdHeight / 2.0 }
  }

  datatype Point = Point(x: real, y: real)
  datatype Rect = Rect(x: real, y: real, w: real, h: real)

  // ---------------------------------------------------------------------------
  // Hitbox

  /** The point-in-rectangle test of both variants: inclusive on every side, with the
      rectangle grown by half the bird's height to the left and above and by a third
      of it below. */
  predicate IsPointCollidingWithRect(p: Point, rect: Rect) {
    p.x >= rect.x - BirdHeight / 2.0 &&
    p.x <= rect.x + rect.w &&
    p.y >= rect.y - BirdHeight / 2.0 &&
    p.y <= rect.y + rect.h + BirdHeight / 3.0
  }

  /** Reference definition: a closed rectangle contains a point. */
  predicate Contains(rect: Rect, p: Point) {
    rect.x <= p.x <= rect.x + rect.w && rect.y <= p.y <= rect.y + rect.h
  }

  /** `rect` grown by `left` to the left, `top` upwards and `bottom` downwards. */
  function Inflate(rect: Rect, left: real, top: real, bottom: real): (r: Rect)
    requires left >= 0.0 && top >= 0.0 && bottom >= 0.0
    ensures forall p :: Contains(rect, p) ==> Contains(r, p)
    ensures r.x + r.w == rect.x + rect.w
  {
    Rect(rect.x - left, rect.y - top, rect.w + left, rect.h + top + bottom)
  }

  /** The hitbox test is containment in the rectangle inflated by the pads 24 (left),
      24 (top) and 16 (bottom), right edge unchanged. */
  lemma HitboxIsInflatedRect(p: Point, rect: Rect)
    ensures IsPointCollidingWithRect(p, rect) <==> Contains(Inflate(rect, 24.0, 24.0, 16.0), p)
  {
  }

  /** Every boundary of the hitbox belongs to it, and a point a hair outside any
      side does not. */
  lemma HitboxIsInclusive(rect: Rect, e: real)
    requires rect.w >= 0.0 && rect.h >= 0.0 && e > 0.0
    ensures IsPointCollidingWithRect(Point(rect.x - 24.0, rect.y - 24.0), rect)
    ensures IsPointCollidingWithRect(Point(rect.x + rect.w, rect.y + rect.h + 16.0), rect)
    ensures !IsPointCollidingWithRect(Point(rect.x - 24.0 - e, rect.y), rect)
    ensures !IsPointCollidingWithRect(Point(rect.x + rect.w + e, rect.y), rect)
    ensures !IsPointCollidingWithRect(Point(rect.x, rect.y - 24.0 - e), rect)
    ensures !IsPointCollidingWithRect(Point(rect.x, rect.y + rect.h + 16.0 + e), rect)
  {
  }

  /** `rects.some(rect => isPointCollidingWithRect(p, rect))`. */
  predicate SomeColliding(p: Point, rects: seq<Rect>): (b: bool)
    ensures b <==> exists i :: 0 <= i < |rects| && IsPointCollidingWithRect(p, rects[i])
  {
    if rects == [] then false
    else if IsPointCollidingWithRect(p, rects[0]) then true
    else
      assert forall i :: 1 <= i < |rects| ==> rects[i] == rects[1..][i - 1];
      SomeColliding(p, rects[1..])
  }

  // ---------------------------------------------------------------------------
  // Pipes

  /** The top pipe's y: the gap offset, half a pipe height up. */
  function TopPipeY(offset: real): real { offset - 320.0 }

  /** The bottom pipe's y: the screen height, half a pipe height up, plus the offset. */
  function BottomPipeY(screen: Screen, offset: real): real { screen.height - 320.0 + offset }

  /** The two obstacle rectangles, bottom pipe first, derived from the pipe's x and
      its gap offset. */
  function Obstacles(screen: Screen, pipeX: real, offset: real): (rs: seq<Rect>)
    ensures |rs| == 2
    ensures rs[0].x == pipeX && rs[1].x == pipeX
    ensures rs[0].w == PipeWidth && rs[1].w == PipeWidth
    ensures rs[0].h == PipeHeight && rs[1].h == PipeHeight
    ensures rs[0].y - (rs[1].y + rs[1].h) == screen.height - 640.0
    ensures rs[1].y + rs[1].h == offset + 320.0
  {
    [Rect(pipeX, BottomPipeY(screen, offset), PipeWidth, PipeHeight),
     Rect(pipeX, TopPipeY(offset), PipeWidth, PipeHeight)]
  }

  /** Changing the gap offset moves both pipes vertically by the same amount and
      nothing else. */
  lemma OffsetMovesBothPipes(screen: Screen, pipeX: real, offset: real, d: real)
    ensures forall i :: 0 <= i < 2 ==>
      Obstacles(screen, pipeX, offset + d)[i] == Obstacles(screen, pipeX, offset)[i].(y := Obstacles(screen, pipeX, offset)[i].y + d)
  {
  }

  /** The gap offset drawn when a pipe is recycled, from `r = Math.random()`. */
  function NextPipeOffset(r: real): (o: real)
    requires 0.0 <= r < 1.0
    ensures -200.0 <= o < 200.0
  {
    r * 400.0 - 200.0
  }

  // ---------------------------------------------------------------------------
  // Collision

  /** The ground/ceiling test on the bird's top y. */
  predicate OutOfBounds(screen: Screen, birdY: real) {
    birdY > screen.GroundLine() || birdY < 0.0
  }

  /** The point the hitbox test uses: the centre of the bird sprite, which lies
      inside the sprite's rectangle at equal distance from opposite edges. */
  function BirdCenter(screen: Screen, birdY: real): (c: Point)
    ensures Contains(Rect(screen.BirdX(), birdY, BirdWidth, BirdHeight), c)
    ensures c.x - screen.BirdX() == screen.BirdX() + BirdWidth - c.x
    ensures c.y - birdY == birdY + BirdHeight - c.y
  {
    Point(screen.BirdX() + 32.0, birdY + 24.0)
  }

  /** Everything that ends a game: ground, ceiling, or the centre inside either pipe's hitbox. */
  predicate Hit(screen: Screen, birdY: real, pipeX: real, offset: real) {
    OutOfBounds(screen, birdY) ||
    SomeColliding(BirdCenter(screen, birdY), Obstacles(screen, pipeX, offset))
  }

  /** A bird one unit above the bottom of the screen has hit the ground. */
  lemma GroundScenario(screen: Screen, pipeX: real, offset: real)
    ensures Hit(screen, screen.height - 1.0, pipeX, offset)
  {
  }

  // ---------------------------------------------------------------------------
  // Physics

  datatype Bird = Bird(y: real, velocity: real)

  /** `!dt`: a frame without an elapsed time, or with zero, is skipped. */
  predicate Skips(dt: Option<real>) {
    dt.None? || dt.value == 0.0
  }

  /** One frame of `dt` milliseconds: the position moves with the OLD velocity, then
      gravity is added to the velocity. */
  function Fall(b: Bird, dt: real): (r: Bird)
    ensures r.velocity - b.velocity == Gravity * (dt / 1000.0)
    ensures dt >= 0.0 ==> r.velocity >= b.velocity
  {
    Bird(b.y + b.velocity * dt / 1000.0, b.velocity + Gravity * dt / 1000.0)
  }

  /** Exact free fall for `dt` milliseconds starting from `b`. */
  function ExactY(b: Bird, dt: real): real {
    var t := dt / 1000.0;
    b.y + b.velocity * t + Gravity * t * t / 2.0
  }

  /** The position after a step lags exact free fall by g·t²/2. */
  lemma FallLagsExactFall(b: Bird, dt: real)
    ensures Fall(b, dt).y == ExactY(b, dt) - Gravity * (dt / 1000.0) * (dt / 1000.0) / 2.0
  {
    var t := dt / 1000.0;
    assert b.velocity * dt / 1000.0 == b.velocity * t;
  }

  /** The velocity does not depend on how the elapsed time is split into frames. */
  lemma VelocityIsFrameRateIndependent(b: Bird, d1: real, d2: real)
    ensures Fall(Fall(b, d1), d2).velocity == Fall(b, d1 + d2).velocity
  {
  }

  /** The position does not: splitting a frame of d1 + d2 milliseconds into two
      frames moves the bird further by g·(d1/1000)·(d2/1000), the gravity gained in
      the first frame applied over the second. */
  lemma PositionDependsOnFrameRate(b: Bird, d1: real, d2: real)
    ensures Fall(Fall(b, d1), d2).y == Fall(b, d1 + d2).y + Gravity * (d1 / 1000.0) * (d2 / 1000.0)
  {
  }

  // ---------------------------------------------------------------------------
  // Rotation

  function Clamp(x: real, lo: real, hi: real): (r: real)
    requires lo <= hi
    ensures lo <= r <= hi
    ensures lo <= x <= hi ==> r == x
    ensures x < lo ==> r == lo
    ensures x > hi ==> r == hi
  {
    if x < lo then lo else if x > hi then hi else x
  }

  /** Linear interpolation of `x` from [inLo, inHi] onto [outLo, outHi], clamped
      at both ends outside the input range. */
  function InterpolateClamped(x: real, inLo: real, inHi: real, outLo: real, outHi: real): (r: real)
    requires inLo < inHi && outLo <= outHi
    ensures outLo <= r <= outHi
    ensures x <= inLo ==> r == outLo
    ensures x >= inHi ==> r == outHi
  {
    if x < inLo then outLo
    else if x > inHi then outHi
    else
      var p := (x - inLo) / (inHi - inLo);
      ProgressIsFraction(x, inLo, inHi);
      ScaledFraction(p, outHi - outLo);
      assert outLo + p * (outHi - outLo) <= outLo + (outHi - outLo);
      outLo + p * (outHi - outLo)
  }

  lemma ProgressIsFraction(x: real, lo: real, hi: real)
    requires lo <= x <= hi && lo < hi
    ensures 0.0 <= (x - lo) / (hi - lo) <= 1.0
    ensures x == lo ==> (x - lo) / (hi - lo) == 0.0
    ensures x == hi ==> (x - lo) / (hi - lo) == 1.0
  {
    var d := hi - lo;
    var q := (x - lo) / d;
    assert q * d == x - lo;
    if q > 1.0 {
      var e := q - 1.0;
      assert e * d > 0.0;
      assert q * d == e * d + d;
    }
    if x == hi {
      assert x - lo == d;
    }
  }

  lemma ScaledFraction(p: real, d: real)
    requires 0.0 <= p <= 1.0 && d >= 0.0
    ensures 0.0 <= p * d <= d
  {
  }

  /** The bird's rotation in radians from its vertical velocity. */
  function Rotation(velocity: real): (a: real)
    ensures -0.5 <= a <= 0.5
  {
    InterpolateClamped(velocity, -500.0, 500.0, -0.5, 0.5)
  }

  /** The rotation is the velocity over 1000, clamped to [-0.5, 0.5]. */
  lemma RotationIsClampedVelocity(velocity: real)
    ensures Rotation(velocity) == Clamp(velocity / 1000.0, -0.5, 0.5)
  {
  }

  /** A faster fall never tilts the bird less. */
  lemma RotationIsMonotone(v1: real, v2: real)
    requires v1 <= v2
    ensures Rotation(v1) <= Rotation(v2)
  {
    RotationIsClampedVelocity(v1);
    RotationIsClampedVelocity(v2);
  }
}
