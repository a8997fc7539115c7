/** The game as the program keeps it: one object whose paddles, ball,
    scores and flags are updated in place, once per animation frame and by
    the input handlers.  Each method is specified by the functions of
    module Pong. */
module PongGame {
  import opened Pong

  class Game {
    const width: real
    const height: real
    var left: Paddle
    var right: Paddle
    var ball: Ball
    var playerScore: nat
    var computerScore: nat
    var running: bool
    var arrowUp: bool
    var arrowDown: bool

    /** The whole state as a value. */
    function State(): GameState
      reads this
    {
      GameState(width, height, left, right, ball, playerScore, computerScore,
                running, arrowUp, arrowDown)
    }

    ghost predicate Valid()
      reads this
    {
      Inv(State())
    }

    /** Start-up: paddles centred vertically, ball at rest in the centre at
        the base speed, scores zero, running, then a serve in a random
        direction. */
    constructor (width: real, height: real, trig: Trig, angleDraw: real, coinDraw: real)
      requires height >= PaddleHeight && height >= 2.0 * BallRadius
      requires 0.0 <= angleDraw < 1.0 && 0.0 <= coinDraw < 1.0
      ensures Valid()
      ensures this.width == width && this.height == height
      ensures left == Paddle(PaddleMargin, (height - PaddleHeight) / 2.0, PaddleWidth, PaddleHeight)
      ensures right == Paddle(width - PaddleWidth - PaddleMargin, (height - PaddleHeight) / 2.0,
                              PaddleWidth, PaddleHeight)
      ensures ball == Serve(width, height, ServeDirection(CoinFlip(coinDraw)), angleDraw, trig)
      ensures playerScore == 0 && computerScore == 0
      ensures running && !arrowUp && !arrowDown
    {
      this.width := width;
      this.height := height;
      left := Paddle(PaddleMargin, (height - PaddleHeight) / 2.0, PaddleWidth, PaddleHeight);
      right := Paddle(width - PaddleWidth - PaddleMargin, (height - PaddleHeight) / 2.0,
                      PaddleWidth, PaddleHeight);
      ball := Ball(width / 2.0, height / 2.0, 0.0, 0.0, BaseSpeed);
      playerScore, computerScore := 0, 0;
      running := true;
      arrowUp, arrowDown := false, false;
      new;
      ResetBall(CoinFlip(coinDraw), angleDraw, trig);
    }

    /** Re-centre the ball at the base speed and launch it in the aimed
        direction at the angle the draw selects. */
    method ResetBall(aim: Aim, angleDraw: real, trig: Trig)
      requires Valid()
      requires 0.0 <= angleDraw < 1.0
      modifies this`ball
      ensures Valid()
      ensures ball == Serve(width, height, ServeDirection(aim), angleDraw, trig)
    {
      ball := ball.(x := width / 2.0, y := height / 2.0, speed := BaseSpeed);
      var angle := (angleDraw * 2.0 - 1.0) * MaxAngle;
      var dir := match aim
        case Toward(Left) => -1.0
        case Toward(Right) => 1.0
        case CoinFlip(d) => if d < 0.5 then -1.0 else 1.0;
      ball := ball.(vx := dir * ball.speed * trig.Cos(angle));
      ball := ball.(vy := ball.speed * trig.Sin(angle));
    }

    /** The ball has struck the paddle on the given side. */
    method HandlePaddleCollision(side: Side, trig: Trig)
      requires Valid()
      modifies this`ball
      ensures Valid()
      ensures ball == Deflect(old(ball), if side == Left then left else right, side, trig)
    {
      var paddle := if side == Left then left else right;
      var bounceAngle := BounceAngle(ball.y, paddle);
      var speed := BumpSpeed(ball.speed);
      var dir := AwayFrom(side);
      var x := if side == Left then left.x + left.w + BallRadius + Nudge
               else right.x - BallRadius - Nudge;
      ball := Ball(x, ball.y, dir * speed * trig.Cos(bounceAngle), speed * trig.Sin(bounceAngle), speed);
    }

    /** Keyboard control of the player's paddle: up, then down, then clamped. */
    method MovePlayerPaddle()
      requires Valid()
      modifies this`left
      ensures Valid()
      ensures left == KeyboardPaddle(old(left), arrowUp, arrowDown, height)
    {
      if arrowUp {
        left := left.(y := left.y - PaddleSpeed);
      }
      if arrowDown {
        left := left.(y := left.y + PaddleSpeed);
      }
      left := left.(y := Clamp(left.y, 0.0, height - left.h));
    }

    /** The computer's paddle chases the ball outside the dead zone, then is clamped. */
    method MoveComputerPaddle()
      requires Valid()
      modifies this`right
      ensures Valid()
      ensures right == AiPaddle(old(right), ball.y, height)
    {
      if right.y + right.h / 2.0 < ball.y - DeadZone {
        right := right.(y := right.y + AiSpeed);
      } else if right.y + right.h / 2.0 > ball.y + DeadZone {
        right := right.(y := right.y - AiSpeed);
      }
      right := right.(y := Clamp(right.y, 0.0, height - right.h));
    }

    /** The ball steps along its velocity and bounces off the top and bottom walls. */
    method MoveBall()
      requires Valid()
      modifies this`ball
      ensures Valid()
      ensures ball == WallBounce(Advance(old(ball)), height)
    {
      ball := ball.(x := ball.x + ball.vx);
      ball := ball.(y := ball.y + ball.vy);
      if ball.y - BallRadius <= 0.0 {
        ball := ball.(y := BallRadius, vy := -ball.vy);
      } else if ball.y + BallRadius >= height {
        ball := ball.(y := height - BallRadius, vy := -ball.vy);
      }
    }

    /** One animation frame.  When paused nothing changes; otherwise the
        paddles and the ball move, and a miss scores and ends the frame
        early.  angleDraw is the random draw a serve in this frame uses. */
    method Update(trig: Trig, angleDraw: real)
      requires Valid()
      requires 0.0 <= angleDraw < 1.0
      modifies this
      ensures Valid()
      ensures State() == Tick(old(State()), trig, angleDraw)
      ensures !old(running) ==> State() == old(State())
    {
      if !running {
        return;
      }

      MovePlayerPaddle();
      MoveComputerPaddle();
      MoveBall();
      var missed := CheckLeftPaddle(trig, angleDraw);
      if missed {
        return;
      }
      CheckRightPaddle(trig, angleDraw);
    }

    /** Collision handling on the left: a hit deflects the ball, a miss
        scores for the computer and serves to the right. */
    method CheckLeftPaddle(trig: Trig, angleDraw: real) returns (missed: bool)
      requires Valid()
      requires 0.0 <= angleDraw < 1.0
      modifies this`ball, this`computerScore
      ensures Valid()
      ensures missed == LeftMiss(old(State()))
      ensures State() == ResolveLeft(old(State()), trig, angleDraw)
    {
      missed := false;
      if ball.x - BallRadius <= left.x + left.w {
        if ball.y >= left.y && ball.y <= left.y + left.h {
          HandlePaddleCollision(Left, trig);
        } else if ball.x - BallRadius < 0.0 {
          computerScore := computerScore + 1;
          ResetBall(Toward(Right), angleDraw, trig);
          missed := true;
        }
      }
    }

    /** Collision handling on the right: a hit deflects the ball, a miss
        scores for the player and serves to the left. */
    method CheckRightPaddle(trig: Trig, angleDraw: real)
      requires Valid()
      requires 0.0 <= angleDraw < 1.0
      modifies this`ball, this`playerScore
      ensures Valid()
      ensures State() == ResolveRight(old(State()), trig, angleDraw)
    {
      if ball.x + BallRadius >= right.x {
        if ball.y >= right.y && ball.y <= right.y + right.h {
          HandlePaddleCollision(Right, trig);
        } else if ball.x + BallRadius > width {
          playerScore := playerScore + 1;
          ResetBall(Toward(Left), angleDraw, trig);
        }
      }
    }

    /** The pointer moved to height y on the canvas: centre the player's
        paddle on it, clamped onto the canvas. */
    method MouseMove(y: real)
      requires Valid()
      modifies this`left
      ensures Valid()
      ensures left == PointerPaddle(old(left), y, height)
    {
      left := left.(y := Clamp(y - left.h / 2.0, 0.0, height - left.h));
    }

    /** The Space key pauses or resumes the game. */
    method TogglePause()
      requires Valid()
      modifies this`running
      ensures Valid()
      ensures running == !old(running)
    {
      running := !running;
    }

    /** An arrow key was pressed (held) or released. */
    method SetArrow(up: bool, held: bool)
      requires Valid()
      modifies this`arrowUp, this`arrowDown
      ensures Valid()
      ensures up ==> arrowUp == held && arrowDown == old(arrowDown)
      ensures !up ==> arrowDown == held && arrowUp == old(arrowUp)
    {
      if up {
        arrowUp := held;
      } else {
        arrowDown := held;
      }
    }
  }
}
