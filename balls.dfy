/** One ball of the free-play field and what happens to it in one frame
    (app.js:473-512), at creation (app.js:327-364) and on stop (app.js:419-426). */
module Balls {
  import opened Constants

  /** The record `{x, y, vx, vy, radius}`: (x, y) is the centre, y grows upwards
      from the container's bottom edge. The DOM element is not modelled. */
  datatype Ball = Ball(x: real, y: real, vx: real, vy: real, radius: real)

  /** A value of `Math.random()`. */
  predicate Unit(u: real) { 0.0 <= u < 1.0 }

  /** The random numbers one ball may consume in one frame: the kick factor,
      the wall-bounce jitter and the floor-bounce jitter. */
  datatype StepDraws = StepDraws(kick: real, wall: real, floor: real)

  predicate ValidStepDraws(d: StepDraws) { Unit(d.kick) && Unit(d.wall) && Unit(d.floor) }

  function Abs(a: real): real { if a < 0.0 then -a else a }

  /** The ball's bottom is on or above the floor. */
  predicate OnOrAboveGround(b: Ball) { b.y - b.radius >= GROUND_Y_OFFSET }

  /** The ball lies between the two walls of a container of width `width`. */
  predicate BetweenWalls(b: Ball, width: real) { b.radius <= b.x <= width - b.radius }

  /** The kick gate: the ball's bottom is within KICK_TOLERANCE of the floor. */
  predicate NearGround(b: Ball) { b.y - b.radius <= GROUND_Y_OFFSET + KICK_TOLERANCE }

  predicate KickFires(b: Ball, n: real) { n > KICK_VOLUME && NearGround(b) }

  // ---------------------------------------------------------------- stages

  /** Gravity, then the voice kick (app.js:475-485). The gate is tested on the
      position before the move, which gravity does not change. */
  function Accelerate(b: Ball, n: real, impulse: real, kick: real): (r: Ball)
    requires Unit(kick)
    ensures r.x == b.x && r.y == b.y && r.vx == b.vx && r.radius == b.radius
    ensures !KickFires(b, n) ==> r.vy == b.vy - 0.8
    ensures KickFires(b, n) ==> r.vy <= KICK_CAP
    ensures KickFires(b, n) && VOICE_IMPULSE_MIN <= impulse <= VOICE_IMPULSE_MAX ==>
              12.0 <= r.vy < VOICE_IMPULSE_MAX && r.vy == impulse * (0.8 + kick * 0.2)
  {
    var vy := b.vy + GRAVITY;
    if KickFires(b, n) then
      var factor := 0.8 + kick * 0.2;
      var kicked := impulse * factor;
      KickBounds(impulse, factor);
      b.(vy := if kicked <= KICK_CAP then kicked else KICK_CAP)
    else
      b.(vy := vy)
  }

  lemma KickBounds(impulse: real, factor: real)
    requires 0.8 <= factor < 1.0
    ensures VOICE_IMPULSE_MIN <= impulse <= VOICE_IMPULSE_MAX ==>
              12.0 <= impulse * factor < VOICE_IMPULSE_MAX
  {
    if VOICE_IMPULSE_MIN <= impulse <= VOICE_IMPULSE_MAX {
      ProductBounds(impulse, factor);
    }
  }

  lemma ProductBounds(i: real, f: real)
    requires 15.0 <= i <= 45.0 && 0.8 <= f < 1.0
    ensures 12.0 <= i * f < 45.0
  {
    assert i * f >= 15.0 * f;
    assert i * f < i * 1.0;
  }

  /** Explicit Euler step (app.js:488-489). */
  function Integrate(b: Ball): (r: Ball)
    ensures r.x == b.x + b.vx && r.y == b.y + b.vy
    ensures r.vx == b.vx && r.vy == b.vy && r.radius == b.radius
  {
    b.(x := b.x + b.vx, y := b.y + b.vy)
  }

  /** Left wall, else right wall (app.js:492-500): at most one of them applies. */
  function WallCollision(b: Ball, width: real, jitter: real): (r: Ball)
    requires Unit(jitter)
    ensures r.y == b.y && r.vy == b.vy && r.radius == b.radius
    ensures b.x - b.radius < 0.0 ==>
              r.x == b.radius && r.vx == -WALL_DAMPING * b.vx + (jitter - 0.5) * 0.5
    ensures b.x - b.radius >= 0.0 && b.x + b.radius > width ==>
              r.x == width - b.radius && r.vx == -WALL_DAMPING * b.vx + (jitter - 0.5) * 0.5
    ensures b.x - b.radius >= 0.0 && b.x + b.radius <= width ==> r == b
    ensures r != b ==> -0.25 <= r.vx + WALL_DAMPING * b.vx < 0.25
    ensures width >= 2.0 * b.radius ==> BetweenWalls(r, width)
  {
    if b.x - b.radius < 0.0 then
      b.(x := b.radius, vx := b.vx * -WALL_DAMPING + (jitter - 0.5) * 0.5)
    else if b.x + b.radius > width then
      b.(x := width - b.radius, vx := b.vx * -WALL_DAMPING + (jitter - 0.5) * 0.5)
    else
      b
  }

  /** Floor snap, damped reflection, micro-bounce cut-off and horizontal
      jitter (app.js:503-512). */
  function FloorCollision(b: Ball, jitter: real): (r: Ball)
    requires Unit(jitter)
    ensures r.x == b.x && r.radius == b.radius
    ensures OnOrAboveGround(r)
    ensures b.y - b.radius >= GROUND_Y_OFFSET ==> r == b
    ensures b.y - b.radius < GROUND_Y_OFFSET ==>
              && r.y == GROUND_Y_OFFSET + b.radius
              && (r.vy == 0.0 || r.vy == -BOUNCE_DAMPING * b.vy)
              && (r.vy == 0.0 || Abs(r.vy) >= 1.0)
              && (Abs(BOUNCE_DAMPING * b.vy) >= 1.0 ==> r.vy == -BOUNCE_DAMPING * b.vy)
              && -1.0 <= r.vx - b.vx < 1.0
  {
    if b.y - b.radius < GROUND_Y_OFFSET then
      var vy := b.vy * -BOUNCE_DAMPING;
      b.(y := GROUND_Y_OFFSET + b.radius,
         vy := if Abs(vy) < 1.0 && Abs(vy) > 0.0 then 0.0 else vy,
         vx := b.vx + (jitter - 0.5) * 2.0)
    else
      b
  }

  /** One frame of one ball, the stages in the source's order. */
  function Step(b: Ball, n: real, impulse: real, width: real, d: StepDraws): (r: Ball)
    requires ValidStepDraws(d)
    ensures r.radius == b.radius
    ensures OnOrAboveGround(r)
    ensures width >= 2.0 * b.radius ==> BetweenWalls(r, width)
  {
    FloorCollision(WallCollision(Integrate(Accelerate(b, n, impulse, d.kick)), width, d.wall), d.floor)
  }

  /** Before the move, a kick overwrites the gravity-updated velocity with
      `impulse * k`, k in [0.8, 1); the 1.5 * 45 cap never binds. */
  lemma KickNeverCapped(b: Ball, n: real, impulse: real, kick: real)
    requires Unit(kick) && KickFires(b, n)
    requires VOICE_IMPULSE_MIN <= impulse <= VOICE_IMPULSE_MAX
    ensures Accelerate(b, n, impulse, kick).vy == impulse * (0.8 + kick * 0.2) < KICK_CAP
  {
  }

  /** A ball on or above the floor that is kicked moves up. */
  lemma KickedBallRises(b: Ball, n: real, impulse: real, width: real, d: StepDraws)
    requires ValidStepDraws(d) && OnOrAboveGround(b) && KickFires(b, n)
    requires VOICE_IMPULSE_MIN <= impulse <= VOICE_IMPULSE_MAX
    ensures Step(b, n, impulse, width, d).y > b.y
  {
    var a := Accelerate(b, n, impulse, d.kick);
    var m := WallCollision(Integrate(a), width, d.wall);
    assert m.y == b.y + a.vy >= b.y + 12.0;
  }

  /** A ball resting on the floor in a quiet frame stays exactly where it
      is vertically, with zero vertical velocity: gravity pulls it 0.8 below
      the floor, the snap puts it back, and the damped 0.64 is cut to 0. */
  lemma QuietRestingBallStays(b: Ball, n: real, impulse: real, width: real, d: StepDraws)
    requires ValidStepDraws(d) && n <= KICK_VOLUME
    requires b.y == GROUND_Y_OFFSET + b.radius && b.vy == 0.0
    ensures Step(b, n, impulse, width, d).y == b.y
    ensures Step(b, n, impulse, width, d).vy == 0.0
  {
    var a := Accelerate(b, n, impulse, d.kick);
    assert a.vy == -0.8;
    var m := WallCollision(Integrate(a), width, d.wall);
    assert m.y - m.radius < GROUND_Y_OFFSET;
  }

  /** A ball that leaves the gate (bottom more than the tolerance above the
      floor) is not affected by the voice at all. */
  lemma AirborneIgnoresVoice(b: Ball, n1: real, i1: real, n2: real, i2: real, width: real, d: StepDraws)
    requires ValidStepDraws(d) && !NearGround(b)
    ensures Step(b, n1, i1, width, d) == Step(b, n2, i2, width, d)
  {
  }

  /** A ball of radius 25 at x = 3 moving left at 5 per frame ends the frame
      snapped to the left wall; its horizontal speed is 4.5 plus the wall
      jitter, and also plus the floor jitter if the floor is hit in that frame. */
  lemma LeftWallBounce(y: real, vy: real, n: real, impulse: real, width: real, d: StepDraws)
    requires ValidStepDraws(d) && width >= 50.0
    ensures Step(Ball(3.0, y, -5.0, vy, 25.0), n, impulse, width, d).x == 25.0
    ensures -1.0 <= Step(Ball(3.0, y, -5.0, vy, 25.0), n, impulse, width, d).vx
                    - (4.5 + (d.wall - 0.5) * 0.5) < 1.0
  {
  }

  /** The same bounce high in the air, with no kick and no floor contact:
      then the new speed is exactly 4.5 plus the wall jitter. */
  lemma LeftWallBounceInFlight(y: real, vy: real, n: real, impulse: real, width: real, d: StepDraws)
    requires ValidStepDraws(d) && width >= 50.0
    requires y - 25.0 > GROUND_Y_OFFSET + KICK_TOLERANCE
    requires y + vy - 0.8 - 25.0 >= GROUND_Y_OFFSET
    ensures Step(Ball(3.0, y, -5.0, vy, 25.0), n, impulse, width, d).x == 25.0
    ensures Step(Ball(3.0, y, -5.0, vy, 25.0), n, impulse, width, d).vx == 4.5 + (d.wall - 0.5) * 0.5
  {
  }

  // ---------------------------------------------------------------- frame

  /** All balls after one frame (the `forEach` of app.js:473-517). */
  function StepAll(balls: seq<Ball>, n: real, impulse: real, width: real, draws: seq<StepDraws>): (r: seq<Ball>)
    requires |draws| == |balls|
    requires forall i :: 0 <= i < |draws| ==> ValidStepDraws(draws[i])
    ensures |r| == |balls|
    ensures forall i :: 0 <= i < |r| ==> r[i].radius == balls[i].radius && OnOrAboveGround(r[i])
    ensures forall i :: 0 <= i < |r| && width >= 2.0 * balls[i].radius ==> BetweenWalls(r[i], width)
  {
    seq(|balls|, i requires 0 <= i < |balls| => Step(balls[i], n, impulse, width, draws[i]))
  }

  // ---------------------------------------------------------------- creation

  /** The random numbers used to create one ball: size, x, y, vx, vy
      (the colour draw is not modelled). */
  datatype SpawnDraws = SpawnDraws(size: real, x: real, y: real, vx: real, vy: real)

  predicate ValidSpawnDraws(d: SpawnDraws)
  {
    Unit(d.size) && Unit(d.x) && Unit(d.y) && Unit(d.vx) && Unit(d.vy)
  }

  /** Whole-pixel diameter `floor(random * 31) + 30`. */
  function BallSize(u: real): (size: int)
    requires Unit(u)
    ensures MIN_BALL_SIZE <= size <= MAX_BALL_SIZE
  {
    (u * (MAX_BALL_SIZE - MIN_BALL_SIZE + 1) as real).Floor + MIN_BALL_SIZE
  }

  /** One new ball in a container of width `width` (app.js:332-350). */
  function Spawn(width: real, d: SpawnDraws): (b: Ball)
    requires ValidSpawnDraws(d)
    ensures 15.0 <= b.radius <= 30.0
    ensures GROUND_Y_OFFSET <= b.y - b.radius < GROUND_Y_OFFSET + 50.0
    ensures -3.0 <= b.vx < 3.0
    ensures VOICE_IMPULSE_MIN * 0.5 <= b.vy < VOICE_IMPULSE_MIN * 0.5 + VOICE_IMPULSE_MAX * 0.5
    ensures width >= 2.0 * b.radius ==> BetweenWalls(b, width)
  {
    var size := BallSize(d.size) as real;
    var radius := size / 2.0;
    Ball(SpawnX(width, size, d.x), SpawnY(radius, d.y), SpawnVx(d.vx), SpawnVy(d.vy), radius)
  }

  /** Centre abscissa `random * (width - size) + size / 2`. */
  function SpawnX(width: real, size: real, u: real): (x: real)
    requires Unit(u) && size >= 0.0
    ensures width >= size ==> size / 2.0 <= x <= width - size / 2.0
  {
    var gap := width - size;
    if gap >= 0.0 then ScaleBelow(u, gap); u * gap + size / 2.0
    else u * gap + size / 2.0
  }

  /** Centre height: on the floor plus up to 50 pixels. */
  function SpawnY(radius: real, u: real): (y: real)
    requires Unit(u)
    ensures GROUND_Y_OFFSET <= y - radius < GROUND_Y_OFFSET + 50.0
  {
    GROUND_Y_OFFSET + radius + u * 50.0
  }

  /** Initial horizontal speed in [-3, 3). */
  function SpawnVx(u: real): (vx: real)
    requires Unit(u)
    ensures -3.0 <= vx < 3.0
  {
    (u - 0.5) * 6.0
  }

  /** Initial upward speed, from half the minimum impulse up to half the sum of the bounds. */
  function SpawnVy(u: real): (vy: real)
    requires Unit(u)
    ensures VOICE_IMPULSE_MIN * 0.5 <= vy < VOICE_IMPULSE_MIN * 0.5 + VOICE_IMPULSE_MAX * 0.5
  {
    u * (VOICE_IMPULSE_MAX * 0.5) + VOICE_IMPULSE_MIN * 0.5
  }

  lemma ScaleBelow(u: real, gap: real)
    requires Unit(u) && gap >= 0.0
    ensures 0.0 <= u * gap <= gap
  {
  }

  /** The whole field created by one `createBouncingBalls` call. */
  function SpawnAll(width: real, draws: seq<SpawnDraws>): (r: seq<Ball>)
    requires forall i :: 0 <= i < |draws| ==> ValidSpawnDraws(draws[i])
    ensures |r| == |draws|
    ensures forall i :: 0 <= i < |r| ==> r[i] == Spawn(width, draws[i])
    ensures forall i :: 0 <= i < |r| ==> 15.0 <= r[i].radius <= 30.0 && OnOrAboveGround(r[i])
    ensures forall i :: 0 <= i < |r| ==>
              && r[i].y - r[i].radius < GROUND_Y_OFFSET + 50.0
              && -3.0 <= r[i].vx < 3.0
              && VOICE_IMPULSE_MIN * 0.5 <= r[i].vy < VOICE_IMPULSE_MIN * 0.5 + VOICE_IMPULSE_MAX * 0.5
    ensures forall i :: 0 <= i < |r| && width >= 2.0 * r[i].radius ==> BetweenWalls(r[i], width)
  {
    seq(|draws|, i requires 0 <= i < |draws| => Spawn(width, draws[i]))
  }

  // ---------------------------------------------------------------- stop

  /** What stopping does to a ball (app.js:419-426): it rests on the floor. */
  function Rest(b: Ball): (r: Ball)
    ensures r.x == b.x && r.radius == b.radius
    ensures r.vx == 0.0 && r.vy == 0.0 && r.y == GROUND_Y_OFFSET + b.radius
    ensures OnOrAboveGround(r)
  {
    b.(vx := 0.0, vy := 0.0, y := GROUND_Y_OFFSET + b.radius)
  }

  /** Resting twice is resting once: a second stop changes no ball. */
  lemma RestIdempotent(b: Ball)
    ensures Rest(Rest(b)) == Rest(b)
  {
  }

  function RestAll(balls: seq<Ball>): (r: seq<Ball>)
    ensures |r| == |balls|
    ensures forall i :: 0 <= i < |r| ==> r[i] == Rest(balls[i])
  {
    seq(|balls|, i requires 0 <= i < |balls| => Rest(balls[i]))
  }
}
