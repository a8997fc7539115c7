/** The per-frame simulation of a two-paddle ball game, stated on values.
    Coordinates are reals; the canvas origin is the top-left corner and y
    grows downwards.  The class in module PongGame mutates its fields in
    place and is specified by the functions of this module. */
module Pong {

  // ---------------------------------------------------------------------
  // Constants of the game
  // ---------------------------------------------------------------------

  const PaddleWidth: real := 10.0
  const PaddleHeight: real := 100.0
  const BallRadius: real := 8.0
  /** Gap between a paddle and its side wall. */
  const PaddleMargin: real := 10.0
  /** Distance the player's paddle moves per frame while an arrow key is held. */
  const PaddleSpeed: real := 6.0
  /** Distance the computer's paddle moves per frame. */
  const AiSpeed: real := 4.0
  /** Half-width of the band around the ball in which the computer holds still. */
  const DeadZone: real := 6.0
  const BaseSpeed: real := 5.0
  const SpeedStep: real := 0.4
  const MaxSpeed: real := 12.0
  /** Extra clearance put between the ball and a paddle face after a hit. */
  const Nudge: real := 0.1
  /** pi as JavaScript prints Math.PI. */
  const Pi: real := 3.141592653589793
  /** Largest angle off the horizontal, for serves and for bounces (45 degrees). */
  const MaxAngle: real := Pi / 4.0

  // ---------------------------------------------------------------------
  // Data model
  // ---------------------------------------------------------------------

  /** Which paddle: the player's on the left, the computer's on the right. */
  datatype Side = Left | Right

  /** A paddle; (x, y) is its top-left corner, only y ever changes. */
  datatype Paddle = Paddle(x: real, y: real, w: real, h: real)

  /** The ball: centre, velocity per frame, and the speed the velocity is built from. */
  datatype Ball = Ball(x: real, y: real, vx: real, vy: real, speed: real)

  /** How a serve picks its horizontal direction: towards a named side, or
      by a coin flip made from one draw of the random source in [0, 1). */
  datatype Aim = Toward(side: Side) | CoinFlip(draw: real)

  /** Everything one frame reads and writes. */
  datatype GameState = GameState(
    width: real, height: real,
    left: Paddle, right: Paddle, ball: Ball,
    playerScore: nat, computerScore: nat,
    running: bool, arrowUp: bool, arrowDown: bool)

  /** Cosine and sine, as supplied by the runtime.  Nothing is known about
      them except what Valid() states about the range of angles the game uses. */
  datatype Trig = Trig(cos: real -> real, sin: real -> real) {
    function Cos(a: real): real { cos(a) }
    function Sin(a: real): real { sin(a) }

    ghost predicate Valid() {
      cos(0.0) == 1.0 &&
      (forall a :: -MaxAngle <= a <= MaxAngle ==> 0.0 < cos(a) <= 1.0) &&
      (forall a :: -MaxAngle <= a <= MaxAngle ==>
         -1.0 <= sin(a) <= 1.0 && (sin(a) < 0.0 <==> a < 0.0) && (sin(a) > 0.0 <==> a > 0.0))
    }
  }

  function Min(a: real, b: real): real { if a <= b then a else b }
  function Max(a: real, b: real): real { if a >= b then a else b }
  function Abs(a: real): real { if a < 0.0 then -a else a }

  function Centre(p: Paddle): real { p.y + p.h / 2.0 }

  /** The paddle lies entirely on the canvas. */
  predicate InBounds(p: Paddle, height: real) { 0.0 <= p.y <= height - p.h }

  /** The ball's centre is level with some part of the paddle. */
  predicate InSpan(y: real, p: Paddle) { y >= p.y && y <= p.y + p.h }

  /** The invariant every frame keeps: fixed geometry, paddles on the canvas,
      the ball between the walls, the speed between the serve speed and the cap. */
  predicate Inv(s: GameState) {
    s.height >= PaddleHeight && s.height >= 2.0 * BallRadius &&
    s.left == Paddle(PaddleMargin, s.left.y, PaddleWidth, PaddleHeight) &&
    s.right == Paddle(s.width - PaddleWidth - PaddleMargin, s.right.y, PaddleWidth, PaddleHeight) &&
    InBounds(s.left, s.height) && InBounds(s.right, s.height) &&
    BallRadius <= s.ball.y <= s.height - BallRadius &&
    BaseSpeed <= s.ball.speed <= MaxSpeed
  }

  // ---------------------------------------------------------------------
  // clamp
  // ---------------------------------------------------------------------

  /** max(a, min(b, v)). */
  function Clamp(v: real, a: real, b: real): (r: real)
    ensures a <= b ==> a <= r <= b
    ensures a <= v <= b ==> r == v
    ensures v <= a ==> r == a
    ensures a <= b <= v ==> r == b
  {
    Max(a, Min(b, v))
  }

  // ---------------------------------------------------------------------
  // Paddle motion
  // ---------------------------------------------------------------------

  /** The player's paddle after one frame of keyboard control: up then down,
      each by PaddleSpeed, then clamped onto the canvas. */
  function KeyboardPaddle(p: Paddle, up: bool, down: bool, height: real): (r: Paddle)
    requires p.h <= height
    ensures InBounds(r, height)
    ensures r == p.(y := r.y)
    ensures var want := p.y + (if down then PaddleSpeed else 0.0) - (if up then PaddleSpeed else 0.0);
            0.0 <= want <= height - p.h ==> r.y == want
    ensures var want := p.y + (if down then PaddleSpeed else 0.0) - (if up then PaddleSpeed else 0.0);
            want < 0.0 ==> r.y == 0.0
    ensures var want := p.y + (if down then PaddleSpeed else 0.0) - (if up then PaddleSpeed else 0.0);
            want > height - p.h ==> r.y == height - p.h
    ensures up == down && InBounds(p, height) ==> r == p
    ensures InBounds(p, height) && up && !down ==> r.y <= p.y
    ensures InBounds(p, height) && down && !up ==> r.y >= p.y
  {
    var y1 := if up then p.y - PaddleSpeed else p.y;
    var y2 := if down then y1 + PaddleSpeed else y1;
    p.(y := Clamp(y2, 0.0, height - p.h))
  }

  /** The player's paddle after the pointer moves to height y on the canvas:
      centred on the pointer, then clamped onto the canvas. */
  function PointerPaddle(p: Paddle, y: real, height: real): (r: Paddle)
    requires p.h <= height
    ensures InBounds(r, height)
    ensures r == p.(y := r.y)
    ensures p.h / 2.0 <= y <= height - p.h / 2.0 ==> Centre(r) == y
    ensures y < p.h / 2.0 ==> r.y == 0.0
    ensures y > height - p.h / 2.0 ==> r.y == height - p.h
  {
    p.(y := Clamp(y - p.h / 2.0, 0.0, height - p.h))
  }

  /** The computer's paddle position before clamping: it steps AiSpeed
      towards the ball when its centre is more than DeadZone away, and
      otherwise holds.  Stepping shrinks the gap by exactly AiSpeed and
      never carries the centre past the ball. */
  function AiStep(p: Paddle, ballY: real): (r: real)
    ensures Centre(p) < ballY - DeadZone ==> r == p.y + AiSpeed
    ensures Centre(p) > ballY + DeadZone ==> r == p.y - AiSpeed
    ensures ballY - DeadZone <= Centre(p) <= ballY + DeadZone ==> r == p.y
    ensures var c := Centre(p.(y := r));
            Abs(Centre(p) - ballY) > DeadZone ==>
              Abs(c - ballY) == Abs(Centre(p) - ballY) - AiSpeed &&
              (c < ballY <==> Centre(p) < ballY)
  {
    if p.y + p.h / 2.0 < ballY - DeadZone then p.y + AiSpeed
    else if p.y + p.h / 2.0 > ballY + DeadZone then p.y - AiSpeed
    else p.y
  }

  /** The computer's paddle after one frame: AiStep, then clamped. */
  function AiPaddle(p: Paddle, ballY: real, height: real): (r: Paddle)
    requires p.h <= height
    ensures InBounds(r, height)
    ensures r == p.(y := r.y)
    ensures 0.0 <= AiStep(p, ballY) <= height - p.h ==> r.y == AiStep(p, ballY)
    ensures AiStep(p, ballY) < 0.0 ==> r.y == 0.0
    ensures AiStep(p, ballY) > height - p.h ==> r.y == height - p.h
  {
    p.(y := Clamp(AiStep(p, ballY), 0.0, height - p.h))
  }

  // ---------------------------------------------------------------------
  // Ball motion and walls
  // ---------------------------------------------------------------------

  /** One step of the ball along its velocity. */
  function Advance(b: Ball): Ball {
    b.(x := b.x + b.vx, y := b.y + b.vy)
  }

  /** Top and bottom walls: a ball touching a wall is put back against it
      and its vertical velocity reversed. */
  function WallBounce(b: Ball, height: real): (r: Ball)
    ensures height >= 2.0 * BallRadius ==> BallRadius <= r.y <= height - BallRadius
    ensures Abs(r.vy) == Abs(b.vy)
    ensures r.x == b.x && r.vx == b.vx && r.speed == b.speed
    ensures b.y - BallRadius <= 0.0 ==> r.y == BallRadius && r.vy == -b.vy
    ensures b.y - BallRadius > 0.0 && b.y + BallRadius >= height ==>
              r.y == height - BallRadius && r.vy == -b.vy
    ensures BallRadius < b.y < height - BallRadius ==> r == b
  {
    if b.y - BallRadius <= 0.0 then b.(y := BallRadius, vy := -b.vy)
    else if b.y + BallRadius >= height then b.(y := height - BallRadius, vy := -b.vy)
    else b
  }

  // ---------------------------------------------------------------------
  // Paddle hits
  // ---------------------------------------------------------------------

  /** Where on the paddle the ball struck, scaled so that the centre is 0
      and the two ends are -1 (top) and 1 (bottom). */
  function RelativeIntersect(y: real, p: Paddle): (r: real)
    requires p.h > 0.0
    ensures InSpan(y, p) ==> -1.0 <= r <= 1.0
    ensures r == 0.0 <==> y == Centre(p)
    ensures r < 0.0 <==> y < Centre(p)
    ensures y == p.y ==> r == -1.0
    ensures y == p.y + p.h ==> r == 1.0
  {
    var half := p.h / 2.0;
    var d := y - (p.y + half);
    var r := d / half;
    assert r * half == d;
    QuotientSign(d, half, r);
    r
  }

  /** A quotient r = d / k by a positive k has the sign of d, lies in
      [-1, 1] when d does in [-k, k], and is -1 or 1 at the two ends. */
  lemma QuotientSign(d: real, k: real, r: real)
    requires k > 0.0 && r * k == d
    ensures r == 0.0 <==> d == 0.0
    ensures r < 0.0 <==> d < 0.0
    ensures -k <= d <= k ==> -1.0 <= r <= 1.0
    ensures d == -k ==> r == -1.0
    ensures d == k ==> r == 1.0
  {
    if r < 0.0 {
      assert r * k < 0.0;
    } else if r > 0.0 {
      assert r * k > 0.0;
    }
    if r < -1.0 {
      assert (r + 1.0) * k < 0.0;
    }
    if r > 1.0 {
      assert (r - 1.0) * k > 0.0;
    }
    assert (r + 1.0) * k == d + k;
    assert (r - 1.0) * k == d - k;
  }

  /** The angle of return off the horizontal: zero from the paddle's
      centre, growing linearly to MaxAngle at either end, negative (upwards)
      above the centre and positive below it. */
  function BounceAngle(y: real, p: Paddle): (r: real)
    requires p.h > 0.0
    ensures InSpan(y, p) ==> -MaxAngle <= r <= MaxAngle
    ensures r == 0.0 <==> y == Centre(p)
    ensures r < 0.0 <==> y < Centre(p)
    ensures r > 0.0 <==> y > Centre(p)
    ensures y == p.y ==> r == -MaxAngle
    ensures y == p.y + p.h ==> r == MaxAngle
  {
    var rel := RelativeIntersect(y, p);
    ScaledSign(MaxAngle, rel);
    rel * MaxAngle
  }

  /** The speed after one hit: one step faster, capped. */
  function BumpSpeed(s: real): (r: real)
    ensures s <= MaxSpeed ==> s <= r <= MaxSpeed
    ensures s <= MaxSpeed - SpeedStep ==> r == s + SpeedStep
    ensures s >= MaxSpeed - SpeedStep ==> r == MaxSpeed
  {
    Min(s + SpeedStep, MaxSpeed)
  }

  /** +1 for 'right', -1 for 'left'. */
  function SideSign(side: Side): real {
    if side == Left then -1.0 else 1.0
  }

  /** Horizontal direction away from the paddle on the given side. */
  function AwayFrom(side: Side): real {
    if side == Left then 1.0 else -1.0
  }

  /** The ball after striking the paddle on the given side: angle of return
      proportional to the offset from the paddle's centre, one speed step
      faster, heading away from the paddle, and moved clear of its face. */
  function Deflect(b: Ball, p: Paddle, side: Side, trig: Trig): (r: Ball)
    requires p.h > 0.0
    ensures r.y == b.y
    ensures r.speed == BumpSpeed(b.speed)
    ensures side == Left ==> r.x == p.x + p.w + BallRadius + Nudge
    ensures side == Right ==> r.x == p.x - BallRadius - Nudge
  {
    var angle := BounceAngle(b.y, p);
    var speed := BumpSpeed(b.speed);
    var dir := AwayFrom(side);
    var x := if side == Left then p.x + p.w + BallRadius + Nudge else p.x - BallRadius - Nudge;
    Ball(x, b.y, dir * speed * trig.Cos(angle), speed * trig.Sin(angle), speed)
  }

  /** Product of a positive factor and a factor of known sign keeps that sign. */
  lemma ScaledSign(k: real, c: real)
    requires k > 0.0
    ensures c > 0.0 ==> k * c > 0.0
    ensures c < 0.0 ==> k * c < 0.0
    ensures c == 0.0 ==> k * c == 0.0
    ensures -1.0 <= c <= 1.0 ==> -k <= k * c <= k
  {
  }

  /** A direction of +1 or -1 times a positive speed times a factor in
      (0, 1] points in that direction and is no longer than the speed. */
  lemma DirectedSign(d: real, k: real, c: real)
    requires d == 1.0 || d == -1.0
    requires k > 0.0 && 0.0 < c <= 1.0
    ensures d > 0.0 ==> 0.0 < d * k * c <= k
    ensures d < 0.0 ==> -k <= d * k * c < 0.0
    ensures c == 1.0 ==> d * k * c == d * k
  {
    ScaledSign(k, c);
    assert d * k * c == d * (k * c);
  }

  /** The trigonometric facts at one angle of the game's range. */
  lemma TrigAt(trig: Trig, a: real)
    requires trig.Valid() && -MaxAngle <= a <= MaxAngle
    ensures 0.0 < trig.Cos(a) <= 1.0 && -1.0 <= trig.Sin(a) <= 1.0
    ensures trig.Sin(a) < 0.0 <==> a < 0.0
    ensures trig.Sin(a) > 0.0 <==> a > 0.0
  {
  }

  /** A hit sends the ball away from the paddle that struck it, straight
      back at full speed from the paddle's centre, and never faster
      horizontally than its speed. */
  lemma DeflectHeadsAway(b: Ball, p: Paddle, side: Side, trig: Trig)
    requires trig.Valid() && p.h > 0.0 && InSpan(b.y, p)
    requires BaseSpeed <= b.speed <= MaxSpeed
    ensures var r := Deflect(b, p, side, trig);
      (side == Left ==> r.vx > 0.0) && (side == Right ==> r.vx < 0.0) &&
      Abs(r.vx) <= r.speed &&
      (b.y == Centre(p) ==> r.vx == AwayFrom(side) * r.speed)
  {
    var angle := BounceAngle(b.y, p);
    var speed := BumpSpeed(b.speed);
    var c := trig.Cos(angle);
    TrigAt(trig, angle);
    var d := AwayFrom(side);
    DirectedSign(d, speed, c);
    var r := Deflect(b, p, side, trig);
    assert r.vx == d * speed * c && r.speed == speed;
    assert b.y == Centre(p) ==> angle == 0.0 && c == 1.0;
  }

  /** After a hit the ball travels upwards exactly when it struck above the
      paddle's centre, downwards exactly when it struck below, and
      horizontally when it struck the centre itself. */
  lemma DeflectVerticalDirection(b: Ball, p: Paddle, side: Side, trig: Trig)
    requires trig.Valid() && p.h > 0.0 && InSpan(b.y, p)
    requires BaseSpeed <= b.speed <= MaxSpeed
    ensures var r := Deflect(b, p, side, trig);
      (r.vy < 0.0 <==> b.y < Centre(p)) && (r.vy > 0.0 <==> b.y > Centre(p)) &&
      (b.y == Centre(p) ==> r.vy == 0.0) &&
      Abs(r.vy) <= r.speed
  {
    var angle := BounceAngle(b.y, p);
    var speed := BumpSpeed(b.speed);
    var s := trig.Sin(angle);
    TrigAt(trig, angle);
    ScaledSign(speed, s);
    var vy := speed * s;
    assert Deflect(b, p, side, trig).vy == vy && Deflect(b, p, side, trig).speed == speed;
    if b.y < Centre(p) {
      assert angle < 0.0 && s < 0.0 && vy < 0.0;
    } else if b.y > Centre(p) {
      assert angle > 0.0 && s > 0.0 && vy > 0.0;
    } else {
      assert angle == 0.0 && vy == 0.0;
    }
    assert -speed <= vy <= speed;
  }

  /** Speed of the ball after n consecutive hits since the last serve. */
  function SpeedAfterHits(n: nat): real {
    if n == 0 then BaseSpeed else BumpSpeed(SpeedAfterHits(n - 1))
  }

  /** Within a rally the speed grows by SpeedStep per hit until it reaches the cap. */
  lemma {:induction false} SpeedAfterHitsClosedForm(n: nat)
    ensures SpeedAfterHits(n) == Min(BaseSpeed + SpeedStep * (n as real), MaxSpeed)
  {
    if n > 0 {
      SpeedAfterHitsClosedForm(n - 1);
    }
  }

  /** Hits never slow the ball, and a ball whose speed is in
      [BaseSpeed, MaxSpeed] stays there after any number of them. */
  lemma {:induction false} SpeedAfterHitsMonotone(m: nat, n: nat)
    requires m <= n
    ensures BaseSpeed <= SpeedAfterHits(m) <= SpeedAfterHits(n) <= MaxSpeed
  {
    if m < n {
      SpeedAfterHitsMonotone(m, n - 1);
    } else if n > 0 {
      SpeedAfterHitsMonotone(0, n - 1);
    }
  }

  // ---------------------------------------------------------------------
  // Serving
  // ---------------------------------------------------------------------

  /** Horizontal direction of a serve: -1 towards the left, +1 towards the
      right; a coin draw below one half serves left. */
  function ServeDirection(aim: Aim): (r: real)
    ensures r == 1.0 || r == -1.0
    ensures aim.Toward? ==> r == SideSign(aim.side)
    ensures aim.CoinFlip? ==> (r == -1.0 <==> aim.draw < 0.5)
  {
    match aim
    case Toward(side) => SideSign(side)
    case CoinFlip(d) => if d < 0.5 then -1.0 else 1.0
  }

  /** The serve angle from a draw in [0, 1): uniform over [-MaxAngle, MaxAngle). */
  function ServeAngle(draw: real): (r: real)
    ensures 0.0 <= draw < 1.0 ==> -MaxAngle <= r < MaxAngle
  {
    (draw * 2.0 - 1.0) * MaxAngle
  }

  /** The ball after a serve: centred, at the base speed, launched in
      direction dir at the angle the draw selects. */
  function Serve(width: real, height: real, dir: real, draw: real, trig: Trig): (r: Ball)
    ensures r.x == width / 2.0 && r.y == height / 2.0 && r.speed == BaseSpeed
    ensures height >= 2.0 * BallRadius ==> BallRadius <= r.y <= height - BallRadius
  {
    var angle := ServeAngle(draw);
    Ball(width / 2.0, height / 2.0, dir * BaseSpeed * trig.Cos(angle), BaseSpeed * trig.Sin(angle), BaseSpeed)
  }

  /** A serve travels in its chosen direction, with neither velocity
      component above the base speed. */
  lemma ServeHeadsTowards(width: real, height: real, aim: Aim, draw: real, trig: Trig)
    requires trig.Valid() && 0.0 <= draw < 1.0
    ensures var r := Serve(width, height, ServeDirection(aim), draw, trig);
      (ServeDirection(aim) > 0.0 ==> r.vx > 0.0) && (ServeDirection(aim) < 0.0 ==> r.vx < 0.0) &&
      Abs(r.vx) <= BaseSpeed && Abs(r.vy) <= BaseSpeed
  {
    var angle := ServeAngle(draw);
    var c, s := trig.Cos(angle), trig.Sin(angle);
    assert 0.0 < c <= 1.0 && -1.0 <= s <= 1.0;
    ScaledSign(BaseSpeed, c);
    ScaledSign(BaseSpeed, s);
  }

  // ---------------------------------------------------------------------
  // One frame
  // ---------------------------------------------------------------------

  /** The motion half of a frame: keyboard paddle, computer paddle (which
      looks at the ball before it moves), ball step and walls. */
  function Moved(s: GameState): (r: GameState)
    requires Inv(s)
    ensures Inv(r)
    ensures r.ball.speed == s.ball.speed
    ensures r == s.(left := r.left, right := r.right, ball := r.ball)
  {
    s.(left := KeyboardPaddle(s.left, s.arrowUp, s.arrowDown, s.height),
       right := AiPaddle(s.right, s.ball.y, s.height),
       ball := WallBounce(Advance(s.ball), s.height))
  }

  /** The ball has reached the left paddle's face and the paddle covers it. */
  predicate LeftHit(s: GameState) {
    s.ball.x - BallRadius <= s.left.x + s.left.w && InSpan(s.ball.y, s.left)
  }

  /** The ball has reached the left paddle's face, is not covered by it,
      and its edge is past the left edge of the canvas. */
  predicate LeftMiss(s: GameState) {
    s.ball.x - BallRadius <= s.left.x + s.left.w && !InSpan(s.ball.y, s.left) &&
    s.ball.x - BallRadius < 0.0
  }

  predicate RightHit(s: GameState) {
    s.ball.x + BallRadius >= s.right.x && InSpan(s.ball.y, s.right)
  }

  predicate RightMiss(s: GameState) {
    s.ball.x + BallRadius >= s.right.x && !InSpan(s.ball.y, s.right) &&
    s.ball.x + BallRadius > s.width
  }

  function AfterLeftHit(s: GameState, trig: Trig): (r: GameState)
    requires Inv(s)
    ensures Inv(r)
    ensures r == s.(ball := r.ball)
    ensures r.ball.speed >= s.ball.speed
    ensures !LeftHit(s) ==> r == s
    ensures LeftHit(s) ==>
              r.ball.y == s.ball.y && r.ball.speed == BumpSpeed(s.ball.speed) &&
              r.ball.x == s.left.x + s.left.w + BallRadius + Nudge
  {
    if LeftHit(s) then s.(ball := Deflect(s.ball, s.left, Left, trig)) else s
  }

  function AfterRightHit(s: GameState, trig: Trig): (r: GameState)
    requires Inv(s)
    ensures Inv(r)
    ensures r == s.(ball := r.ball)
    ensures r.ball.speed >= s.ball.speed
    ensures !RightHit(s) ==> r == s
    ensures RightHit(s) ==>
              r.ball.y == s.ball.y && r.ball.speed == BumpSpeed(s.ball.speed) &&
              r.ball.x == s.right.x - BallRadius - Nudge
  {
    if RightHit(s) then s.(ball := Deflect(s.ball, s.right, Right, trig)) else s
  }

  /** A ball that strikes the left paddle leaves it heading right, and
      upwards exactly when it struck above the paddle's centre. */
  lemma LeftHitSendsBallRight(s: GameState, trig: Trig)
    requires Inv(s) && trig.Valid() && LeftHit(s)
    ensures var r := AfterLeftHit(s, trig);
      r.ball.vx > 0.0 && Abs(r.ball.vx) <= r.ball.speed &&
      (r.ball.vy < 0.0 <==> s.ball.y < Centre(s.left)) &&
      (r.ball.vy > 0.0 <==> s.ball.y > Centre(s.left))
  {
    DeflectHeadsAway(s.ball, s.left, Left, trig);
    DeflectVerticalDirection(s.ball, s.left, Left, trig);
    assert AfterLeftHit(s, trig).ball == Deflect(s.ball, s.left, Left, trig);
  }

  /** A ball that strikes the right paddle leaves it heading left, and
      upwards exactly when it struck above the paddle's centre. */
  lemma RightHitSendsBallLeft(s: GameState, trig: Trig)
    requires Inv(s) && trig.Valid() && RightHit(s)
    ensures var r := AfterRightHit(s, trig);
      r.ball.vx < 0.0 && Abs(r.ball.vx) <= r.ball.speed &&
      (r.ball.vy < 0.0 <==> s.ball.y < Centre(s.right)) &&
      (r.ball.vy > 0.0 <==> s.ball.y > Centre(s.right))
  {
    DeflectHeadsAway(s.ball, s.right, Right, trig);
    DeflectVerticalDirection(s.ball, s.right, Right, trig);
    assert AfterRightHit(s, trig).ball == Deflect(s.ball, s.right, Right, trig);
  }

  /** The left side of the collision half: a hit deflects the ball; a
      miss scores one for the computer and serves to the right. */
  function ResolveLeft(s: GameState, trig: Trig, draw: real): (r: GameState)
    requires Inv(s)
    ensures Inv(r)
    ensures r == s.(ball := r.ball, computerScore := r.computerScore)
    ensures LeftMiss(s) ==>
              r.computerScore == s.computerScore + 1 && r.ball == Serve(s.width, s.height, 1.0, draw, trig)
    ensures !LeftMiss(s) ==> r.computerScore == s.computerScore && r.ball.speed >= s.ball.speed
  {
    if LeftMiss(s) then
      s.(computerScore := s.computerScore + 1,
         ball := Serve(s.width, s.height, ServeDirection(Toward(Right)), draw, trig))
    else AfterLeftHit(s, trig)
  }

  /** The right side of the collision half: a hit deflects the ball; a
      miss scores one for the player and serves to the left. */
  function ResolveRight(s: GameState, trig: Trig, draw: real): (r: GameState)
    requires Inv(s)
    ensures Inv(r)
    ensures r == s.(ball := r.ball, playerScore := r.playerScore)
    ensures RightMiss(s) ==>
              r.playerScore == s.playerScore + 1 && r.ball == Serve(s.width, s.height, -1.0, draw, trig)
    ensures !RightMiss(s) ==> r.playerScore == s.playerScore && r.ball.speed >= s.ball.speed
  {
    if RightMiss(s) then
      s.(playerScore := s.playerScore + 1,
         ball := Serve(s.width, s.height, ServeDirection(Toward(Left)), draw, trig))
    else AfterRightHit(s, trig)
  }

  /** The collision half of a frame: the left side first, where a miss ends
      the frame; then the right side. */
  function Collide(s: GameState, trig: Trig, draw: real): (r: GameState)
    requires Inv(s)
    ensures Inv(r)
    ensures r == s.(ball := r.ball, playerScore := r.playerScore, computerScore := r.computerScore)
    ensures (r.playerScore == s.playerScore && r.computerScore == s.computerScore &&
             r.ball.speed >= s.ball.speed) ||
            (r.playerScore == s.playerScore && r.computerScore == s.computerScore + 1 &&
             r.ball == Serve(s.width, s.height, 1.0, draw, trig)) ||
            (r.playerScore == s.playerScore + 1 && r.computerScore == s.computerScore &&
             r.ball == Serve(s.width, s.height, -1.0, draw, trig))
  {
    if LeftMiss(s) then ResolveLeft(s, trig, draw)
    else ResolveRight(ResolveLeft(s, trig, draw), trig, draw)
  }

  /** One frame of the simulation; draw is the random draw a serve would use. */
  function Tick(s: GameState, trig: Trig, draw: real): (r: GameState)
    requires Inv(s)
    ensures Inv(r)
    ensures !s.running ==> r == s
    ensures r.width == s.width && r.height == s.height && r.running == s.running
    ensures r.arrowUp == s.arrowUp && r.arrowDown == s.arrowDown
    ensures (r.playerScore == s.playerScore && r.computerScore == s.computerScore &&
             r.ball.speed >= s.ball.speed) ||
            (r.playerScore == s.playerScore && r.computerScore == s.computerScore + 1 &&
             r.ball == Serve(s.width, s.height, 1.0, draw, trig)) ||
            (r.playerScore == s.playerScore + 1 && r.computerScore == s.computerScore &&
             r.ball == Serve(s.width, s.height, -1.0, draw, trig))
    ensures s.running && r.ball.speed < s.ball.speed ==> r.ball.speed == BaseSpeed
  {
    if !s.running then s else Collide(Moved(s), trig, draw)
  }

  /** A left miss scores one for the computer, serves to the right, and
      ends the frame before the right side is looked at; without a left
      miss the computer's score does not change. */
  lemma LeftMissScoresForComputer(s: GameState, trig: Trig, draw: real)
    requires Inv(s) && s.running
    ensures var m := Moved(s);
      (LeftMiss(m) ==>
         Tick(s, trig, draw) == m.(computerScore := s.computerScore + 1,
                                    ball := Serve(s.width, s.height, 1.0, draw, trig))) &&
      (Tick(s, trig, draw).computerScore == s.computerScore + 1 <==> LeftMiss(m)) &&
      (!LeftMiss(m) ==> Tick(s, trig, draw).computerScore == s.computerScore)
  {
  }

  /** The player scores exactly when the left side did not miss and the
      ball, after any left hit, misses on the right; the ball is then served
      to the left and everything else but the score is as after the left side. */
  lemma RightMissScoresForPlayer(s: GameState, trig: Trig, draw: real)
    requires Inv(s) && s.running
    ensures var m := Moved(s);
            var t := AfterLeftHit(m, trig);
      (Tick(s, trig, draw).playerScore == s.playerScore + 1 <==> !LeftMiss(m) && RightMiss(t)) &&
      (!LeftMiss(m) && RightMiss(t) ==>
         Tick(s, trig, draw) == t.(playerScore := s.playerScore + 1,
                                    ball := Serve(s.width, s.height, -1.0, draw, trig))) &&
      (LeftMiss(m) || !RightMiss(t) ==> Tick(s, trig, draw).playerScore == s.playerScore)
  {
  }
}
