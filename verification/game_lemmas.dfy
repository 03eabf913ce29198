/** Properties of the simulation in module Game: the invariant every frame keeps,
    the scoring and game-over rules over a whole frame, the AI's movement bounds,
    the speed ramp, and the agreement of the AI's prediction with the physics. */
module GameLemmas {
  import opened FixedPoint
  import opened Dimensions
  import opened Lcg
  import opened Game

  // ---------------------------------------------------------------------------
  // The stages of one frame

  /** The intermediate values of one PLAYING frame of UpdateGame, in order. */
  datatype Stages = Stages(
    ai: Engine,          // after the pointer and the AI paddle have moved
    ballX: int,          // integer position of the moved ball
    ballY: int,
    walled: GameContext, // after the wall bounce
    hit: GameContext,    // after both paddle tests and the vertical clamp
    scored: Engine,      // after scoring
    result: Engine)      // after the safety clamp

  function Trace(e: Engine, mouseY: int, deadZone: nat): Stages {
    var e1 := UpdateAI(e.(ctx := FollowPointer(e.ctx, mouseY)), deadZone);
    var moved := MoveBall(e1.ctx.ball);
    var ballX := FpToInt(moved.x);
    var ballY := FpToInt(moved.y);
    var c2 := e1.ctx.(ball := WallBounce(moved));
    var c3 := AiHit(PlayerHit(c2, ballX, ballY, e.ai.updateInterval), ballX, ballY);
    var c4 := c3.(ball := ClampVy(c3.ball));
    var e5 := Score(e1.(ctx := c4), ballX);
    Stages(e1, ballX, ballY, c2, c4, e5, e5.(ctx := e5.ctx.(ball := SafetyClampY(e5.ctx.ball))))
  }

  lemma TraceIsUpdateGame(e: Engine, mouseY: int, deadZone: nat)
    requires e.ctx.state == Playing
    ensures Trace(e, mouseY, deadZone).result == UpdateGame(e, mouseY, deadZone)
  {
  }

  /** Only one of the two paddles can be hit in a frame, since the player paddle is
      checked left of the centre line and the AI paddle right of it. */
  lemma AtMostOnePaddleHit(c: GameContext, ballX: int, ballY: int, interval: int)
    ensures PlayerHits(c, ballX) ==> !AiHits(PlayerHit(c, ballX, ballY, interval), ballX)
  {
  }

  // ---------------------------------------------------------------------------
  // The frame invariant

  /** Scores by phase: zero on the title screen, below the winning score while a
      match is running or paused, and exactly one side at the winning score once it
      is over (ties cannot happen, because one point is scored at a time). */
  predicate PhaseScores(c: GameContext) {
    && 0 <= c.playerScore && 0 <= c.aiScore
    && (c.state == Title ==> c.playerScore == 0 && c.aiScore == 0)
    && (c.state == Playing || c.state == Paused ==>
          c.playerScore < WINNING_SCORE && c.aiScore < WINNING_SCORE)
    && (c.state == GameOver ==>
          || (c.playerScore == WINNING_SCORE && c.aiScore < WINNING_SCORE)
          || (c.aiScore == WINNING_SCORE && c.playerScore < WINNING_SCORE))
    && (c.state == HighScoreEntry ==>
          c.playerScore == WINNING_SCORE && c.aiScore < WINNING_SCORE)
  }

  /** What holds of the engine between any two frames once InitGame has run; in
      particular the ball's horizontal speed is the ramp value for the number of
      paddle hits since the last serve. */
  predicate Inv(e: Engine) {
    && e.ctx.difficulty <= HARD
    && 0 <= e.ctx.aiUpdateTimer <= e.ai.updateInterval
    && InTravel(e.ctx.playerPaddle.y)
    && InTravel(e.ctx.aiPaddle.y)
    && InTravel(e.ctx.aiPaddle.targetY)
    && BALL_INITIAL_SPEED <= Abs(e.ctx.ball.vx) <= BALL_MAX_SPEED
    && -MAX_VY <= e.ctx.ball.vy <= MAX_VY
    && IntToFp(TOP_WALL + BALL_SIZE / 2) <= e.ctx.ball.y <= IntToFp(SCREEN_HEIGHT - BALL_SIZE / 2)
    && IntToFp(-BALL_SIZE) <= e.ctx.ball.x < IntToFp(SCREEN_WIDTH + BALL_SIZE + 1)
    && 0 <= e.ctx.rallies
    && Abs(e.ctx.ball.vx) == SpeedAfterHits(e.ctx.rallies)
    && PhaseScores(e.ctx)
  }

  /** A freshly served ball satisfies the ball part of the invariant. */
  lemma ServedBallInRange(c: GameContext)
    requires Served(c)
    ensures BALL_INITIAL_SPEED <= Abs(c.ball.vx) <= BALL_MAX_SPEED
    ensures -MAX_VY <= c.ball.vy <= MAX_VY
    ensures IntToFp(TOP_WALL + BALL_SIZE / 2) <= c.ball.y <= IntToFp(SCREEN_HEIGHT - BALL_SIZE / 2)
    ensures IntToFp(-BALL_SIZE) <= c.ball.x < IntToFp(SCREEN_WIDTH + BALL_SIZE + 1)
  {
  }

  /** InitGame establishes the invariant, whatever state it starts from. */
  lemma InitGameEstablishesInv(e: Engine)
    ensures Inv(InitGame(e))
  {
    ServedBallInRange(InitGame(e).ctx);
  }

  /** The AI step keeps both the paddle and its target in the travel range. */
  lemma UpdateAIKeepsTravel(e: Engine, deadZone: nat)
    requires InTravel(e.ctx.aiPaddle.y) && InTravel(e.ctx.aiPaddle.targetY)
    ensures InTravel(UpdateAI(e, deadZone).ctx.aiPaddle.y)
    ensures InTravel(UpdateAI(e, deadZone).ctx.aiPaddle.targetY)
  {
  }

  /** The ball's horizontal speed stays in [BALL_INITIAL_SPEED, BALL_MAX_SPEED]
      through the paddle tests, for any number of consecutive rallies. */
  lemma PaddleHitsKeepSpeed(c: GameContext, ballX: int, ballY: int, interval: int)
    requires BALL_INITIAL_SPEED <= Abs(c.ball.vx) <= BALL_MAX_SPEED
    ensures var h := AiHit(PlayerHit(c, ballX, ballY, interval), ballX, ballY);
      BALL_INITIAL_SPEED <= Abs(h.ball.vx) <= BALL_MAX_SPEED
  {
  }

  /** Each paddle hit is one step of the speed ramp and one more rally, so the
      paddle tests keep the speed equal to the ramp value for the rally count. */
  lemma PaddleHitsFollowRamp(c: GameContext, ballX: int, ballY: int, interval: int)
    requires 0 <= c.rallies && Abs(c.ball.vx) == SpeedAfterHits(c.rallies)
    ensures var h := AiHit(PlayerHit(c, ballX, ballY, interval), ballX, ballY);
      0 <= h.rallies && Abs(h.ball.vx) == SpeedAfterHits(h.rallies)
  {
    AtMostOnePaddleHit(c, ballX, ballY, interval);
    var p := PlayerHit(c, ballX, ballY, interval);
    if PlayerHits(c, ballX) {
      assert SpeedAfterHits(p.rallies) == SpeedUp(SpeedAfterHits(c.rallies));
    } else if AiHits(p, ballX) {
      assert SpeedAfterHits(p.rallies + 1) == SpeedUp(SpeedAfterHits(p.rallies));
    }
  }

  /** Every frame keeps the invariant. */
  lemma {:induction false} UpdateGameKeepsInv(e: Engine, mouseY: int, deadZone: nat)
    requires Inv(e)
    ensures Inv(UpdateGame(e, mouseY, deadZone))
  {
    if e.ctx.state == Playing {
      var t := Trace(e, mouseY, deadZone);
      TraceIsUpdateGame(e, mouseY, deadZone);
      var e0 := e.(ctx := FollowPointer(e.ctx, mouseY));
      UpdateAIKeepsTravel(e0, deadZone);
      assert 0 <= t.ai.ctx.aiUpdateTimer < e.ai.updateInterval;
      var moved := MoveBall(t.ai.ctx.ball);
      PaddleHitsKeepSpeed(t.walled, t.ballX, t.ballY, e.ai.updateInterval);
      PaddleHitsFollowRamp(t.walled, t.ballX, t.ballY, e.ai.updateInterval);
      var bx := t.hit.ball.x;
      assert bx == moved.x || bx == IntToFp(PADDLE_OFFSET + PADDLE_WIDTH + BALL_SIZE / 2)
        || bx == IntToFp(AI_PADDLE_X - BALL_SIZE / 2);
      var s := t.scored;
      if OutLeft(t.hit.ball, t.ballX) || OutRight(t.hit.ball, t.ballX) {
        ServedBallInRange(s.ctx);
      } else {
        assert s == t.ai.(ctx := t.hit);
        assert t.ballX >= -BALL_SIZE && t.ballX <= SCREEN_WIDTH + BALL_SIZE;
        assert IntToFp(-BALL_SIZE) <= bx < IntToFp(SCREEN_WIDTH + BALL_SIZE + 1);
      }
      assert t.result == s;
    }
  }

  // ---------------------------------------------------------------------------
  // Frame-level properties

  /** Both paddle centres end the frame in the travel range, provided the AI
      paddle started there (the player paddle is always clamped). */
  lemma PaddlesStayInTravel(e: Engine, mouseY: int, deadZone: nat)
    requires e.ctx.state == Playing
    requires InTravel(e.ctx.aiPaddle.y)
    ensures InTravel(UpdateGame(e, mouseY, deadZone).ctx.playerPaddle.y)
    ensures InTravel(UpdateGame(e, mouseY, deadZone).ctx.aiPaddle.y)
  {
    var t := Trace(e, mouseY, deadZone);
    TraceIsUpdateGame(e, mouseY, deadZone);
    assert t.result.ctx.aiPaddle == t.ai.ctx.aiPaddle;
  }

  /** The AI paddle never moves more than its difficulty's speed in one frame. */
  lemma AiStepBounded(e: Engine, mouseY: int, deadZone: nat)
    requires Inv(e)
    ensures Abs(UpdateGame(e, mouseY, deadZone).ctx.aiPaddle.y - e.ctx.aiPaddle.y) <= e.ai.speed
  {
    if e.ctx.state == Playing {
      var t := Trace(e, mouseY, deadZone);
      TraceIsUpdateGame(e, mouseY, deadZone);
      var e0 := e.(ctx := FollowPointer(e.ctx, mouseY));
      UpdateAIKeepsTravel(e0, deadZone);
      assert t.result.ctx.aiPaddle == t.ai.ctx.aiPaddle;
    }
  }

  /** Dead zone: when no recalculation is due and the AI paddle is already within
      the dead zone of its target, the frame does not move it. */
  lemma DeadZoneHoldsPaddle(e: Engine, mouseY: int, deadZone: nat)
    requires e.ctx.state == Playing
    requires !Recalculates(e)
    requires Abs(e.ctx.aiPaddle.targetY - e.ctx.aiPaddle.y) <= deadZone
    ensures UpdateGame(e, mouseY, deadZone).ctx.aiPaddle.y == e.ctx.aiPaddle.y
  {
    var t := Trace(e, mouseY, deadZone);
    TraceIsUpdateGame(e, mouseY, deadZone);
    assert t.result.ctx.aiPaddle == t.ai.ctx.aiPaddle;
  }

  /** Scores never decrease and at most one point is scored per frame. */
  lemma ScoresMonotone(e: Engine, mouseY: int, deadZone: nat)
    ensures var r := UpdateGame(e, mouseY, deadZone);
      && e.ctx.playerScore <= r.ctx.playerScore
      && e.ctx.aiScore <= r.ctx.aiScore
      && r.ctx.playerScore + r.ctx.aiScore <= e.ctx.playerScore + e.ctx.aiScore + 1
  {
    if e.ctx.state == Playing {
      var t := Trace(e, mouseY, deadZone);
      TraceIsUpdateGame(e, mouseY, deadZone);
      assert t.hit.playerScore == e.ctx.playerScore && t.hit.aiScore == e.ctx.aiScore;
    }
  }

  /** Once either side has reached the winning score, no frame undoes it. */
  lemma GameOverSticks(e: Engine, mouseY: int, deadZone: nat)
    requires IsGameOver(e.ctx)
    ensures IsGameOver(UpdateGame(e, mouseY, deadZone).ctx)
  {
    ScoresMonotone(e, mouseY, deadZone);
  }

  /** During a match, the frame ends in GAMEOVER exactly when it brought one side to
      the winning score, and otherwise play continues. */
  lemma GameOverExactlyAtWinningScore(e: Engine, mouseY: int, deadZone: nat)
    requires e.ctx.state == Playing
    requires e.ctx.playerScore < WINNING_SCORE && e.ctx.aiScore < WINNING_SCORE
    ensures var r := UpdateGame(e, mouseY, deadZone);
      && (r.ctx.state == GameOver <==> IsGameOver(r.ctx))
      && (r.ctx.state == Playing || r.ctx.state == GameOver)
      && (PlayerWon(r.ctx) <==> r.ctx.playerScore == WINNING_SCORE)
  {
    var t := Trace(e, mouseY, deadZone);
    TraceIsUpdateGame(e, mouseY, deadZone);
    assert t.hit.state == Playing;
    assert t.hit.playerScore == e.ctx.playerScore && t.hit.aiScore == e.ctx.aiScore;
  }

  /** The ball's row at the end of a frame is always between the score band and the
      floor, so the defensive clamp to [-50, SCREEN_HEIGHT + 50] never changes it. */
  lemma BallRowStaysInsideWalls(e: Engine, mouseY: int, deadZone: nat)
    requires e.ctx.state == Playing
    ensures var t := Trace(e, mouseY, deadZone);
      && IntToFp(TOP_WALL + BALL_SIZE / 2) <= t.scored.ctx.ball.y <= IntToFp(SCREEN_HEIGHT - BALL_SIZE / 2)
      && t.result == t.scored
  {
    var t := Trace(e, mouseY, deadZone);
    assert t.hit.ball.y == t.walled.ball.y;
  }

  /** After a point the next serve goes towards the side that was scored upon:
      towards the player after an AI point, towards the AI after a player point. */
  lemma ServeGoesToTheLoser(e: Engine, mouseY: int, deadZone: nat)
    requires e.ctx.state == Playing
    ensures var r := UpdateGame(e, mouseY, deadZone);
      && (r.ctx.aiScore == e.ctx.aiScore + 1 ==> r.ctx.servingPlayer && r.ctx.ball.vx == -BALL_INITIAL_SPEED)
      && (r.ctx.playerScore == e.ctx.playerScore + 1 ==> !r.ctx.servingPlayer && r.ctx.ball.vx == BALL_INITIAL_SPEED)
      && (r.ctx.aiScore != e.ctx.aiScore || r.ctx.playerScore != e.ctx.playerScore ==>
            r.ctx.ball.x == IntToFp(SCREEN_WIDTH / 2) && r.ctx.ball.y == IntToFp(SCREEN_HEIGHT / 2)
            && r.ctx.rallies == 0)
  {
    var t := Trace(e, mouseY, deadZone);
    TraceIsUpdateGame(e, mouseY, deadZone);
    BallRowStaysInsideWalls(e, mouseY, deadZone);
    assert t.hit.playerScore == e.ctx.playerScore && t.hit.aiScore == e.ctx.aiScore;
  }

  /** A player hit in a frame without a point: one more rally, and the ball leaves
      towards the AI at min(old speed + 48, BALL_MAX_SPEED). */
  lemma PlayerHitRampsSpeed(e: Engine, mouseY: int, deadZone: nat)
    requires e.ctx.state == Playing
    requires var t := Trace(e, mouseY, deadZone);
      PlayerHits(t.walled, t.ballX) && !OutLeft(t.hit.ball, t.ballX) && !OutRight(t.hit.ball, t.ballX)
    ensures var r := UpdateGame(e, mouseY, deadZone);
      && r.ctx.rallies == e.ctx.rallies + 1
      && r.ctx.ball.vx == SpeedUp(Abs(e.ctx.ball.vx))
      && r.ctx.ball.vx > 0
  {
    var t := Trace(e, mouseY, deadZone);
    TraceIsUpdateGame(e, mouseY, deadZone);
    BallRowStaysInsideWalls(e, mouseY, deadZone);
    AtMostOnePaddleHit(t.walled, t.ballX, t.ballY, e.ai.updateInterval);
  }

  /** An AI hit in a frame without a point: one more rally, and the ball leaves
      towards the player at min(old speed + 48, BALL_MAX_SPEED). */
  lemma AiHitRampsSpeed(e: Engine, mouseY: int, deadZone: nat)
    requires e.ctx.state == Playing
    requires var t := Trace(e, mouseY, deadZone);
      AiHits(t.walled, t.ballX) && !OutLeft(t.hit.ball, t.ballX) && !OutRight(t.hit.ball, t.ballX)
    ensures var r := UpdateGame(e, mouseY, deadZone);
      && r.ctx.rallies == e.ctx.rallies + 1
      && r.ctx.ball.vx == -SpeedUp(Abs(e.ctx.ball.vx))
      && r.ctx.ball.vx < 0
  {
    var t := Trace(e, mouseY, deadZone);
    TraceIsUpdateGame(e, mouseY, deadZone);
    BallRowStaysInsideWalls(e, mouseY, deadZone);
    assert !PlayerHits(t.walled, t.ballX);
  }

  // ---------------------------------------------------------------------------
  // Speed ramp

  /** The horizontal speed after n paddle hits since a serve. */
  function SpeedAfterHits(n: nat): int {
    if n == 0 then BALL_INITIAL_SPEED else SpeedUp(SpeedAfterHits(n - 1))
  }

  /** The ramp adds 48 per hit until it saturates at BALL_MAX_SPEED. */
  lemma {:induction false} SpeedAfterHitsClosedForm(n: nat)
    ensures SpeedAfterHits(n) == if n < 32 then BALL_INITIAL_SPEED + n * BALL_SPEED_INCREASE
                                 else BALL_MAX_SPEED
  {
    if n > 0 {
      SpeedAfterHitsClosedForm(n - 1);
    }
  }

  /** Hence the cap is reached after exactly 32 hits, and speed strictly grows before. */
  lemma SpeedCapReachedAfter32Hits(n: nat)
    ensures SpeedAfterHits(n) == BALL_MAX_SPEED <==> n >= 32
    ensures n < 32 ==> SpeedAfterHits(n) < SpeedAfterHits(n + 1)
  {
    SpeedAfterHitsClosedForm(n);
    SpeedAfterHitsClosedForm(n + 1);
  }

  /** Between frames the ball's horizontal speed is fixed by the rally count alone:
      6.0 plus 48/256 per hit since the serve, up to 12.0. */
  lemma SpeedIsRampOfRallies(e: Engine)
    requires Inv(e)
    ensures Abs(e.ctx.ball.vx) == if e.ctx.rallies < 32 then BALL_INITIAL_SPEED + e.ctx.rallies * BALL_SPEED_INCREASE
                                  else BALL_MAX_SPEED
  {
    SpeedAfterHitsClosedForm(e.ctx.rallies);
  }

  /** The ball speed constants are ordered so that the ramp makes progress. */
  lemma SpeedConstants()
    ensures BALL_INITIAL_SPEED < BALL_MAX_SPEED
    ensures BALL_SPEED_INCREASE > 0
    ensures BALL_INITIAL_SPEED == IntToFp(6) && BALL_MAX_SPEED == IntToFp(12)
  {
  }

  // ---------------------------------------------------------------------------
  // Difficulty table

  /** Easy is slower, less accurate and slower to react than medium, and medium than hard. */
  lemma DifficultyOrdering()
    ensures forall i, j :: 0 <= i < j < |DifficultySettings| ==>
      && DifficultySettings[i].speed < DifficultySettings[j].speed
      && DifficultySettings[i].errorMargin > DifficultySettings[j].errorMargin
      && DifficultySettings[i].updateInterval > DifficultySettings[j].updateInterval
  {
  }

  /** On HARD the AI moves at most 6 pixels per frame and recalculates every 6 frames. */
  lemma HardPresetApplied(e: Engine)
    ensures SetDifficulty(e, HARD).ai == AISettings(6, 8, 6)
  {
  }

  // ---------------------------------------------------------------------------
  // Collision geometry and spin

  /** The pixel (x, y) lies in the ball's square. */
  predicate BallCovers(b: Ball, x: int, y: int) {
    FpToInt(b.x) - BALL_SIZE / 2 <= x <= FpToInt(b.x) + BALL_SIZE / 2 &&
    FpToInt(b.y) - BALL_SIZE / 2 <= y <= FpToInt(b.y) + BALL_SIZE / 2
  }

  /** The pixel (x, y) lies in the paddle's rectangle. */
  predicate PaddleCovers(paddleX: int, paddleY: int, x: int, y: int) {
    paddleX <= x <= paddleX + PADDLE_WIDTH &&
    paddleY - PADDLE_HEIGHT / 2 <= y <= paddleY + PADDLE_HEIGHT / 2
  }

  /** The collision test holds exactly when some pixel lies in both shapes. */
  lemma CollisionIsOverlap(b: Ball, paddleX: int, paddleY: int)
    ensures CheckPaddleCollision(b, paddleX, paddleY) <==>
      exists x, y :: BallCovers(b, x, y) && PaddleCovers(paddleX, paddleY, x, y)
  {
    var bx := FpToInt(b.x);
    var ry := FpToInt(b.y);
    if CheckPaddleCollision(b, paddleX, paddleY) {
      var x := if bx - BALL_SIZE / 2 < paddleX then paddleX else bx - BALL_SIZE / 2;
      var y := if ry - BALL_SIZE / 2 < paddleY - PADDLE_HEIGHT / 2 then paddleY - PADDLE_HEIGHT / 2
               else ry - BALL_SIZE / 2;
      assert BallCovers(b, x, y) && PaddleCovers(paddleX, paddleY, x, y);
    }
  }

  /** The spin grows with the ball's offset below the paddle centre. */
  lemma SpinMonotone(a: int, b: int, paddleY: int)
    requires a <= b
    ensures CalculateSpin(a, paddleY) <= CalculateSpin(b, paddleY)
  {
  }

  // ---------------------------------------------------------------------------
  // The AI's prediction against the physics

  /** The ball after n Euler steps, ignoring walls and paddles. */
  function Fly(b: Ball, n: nat): Ball {
    if n == 0 then b else MoveBall(Fly(b, n - 1))
  }

  lemma {:induction false} FlyClosedForm(b: Ball, n: nat)
    ensures Fly(b, n) == Ball(b.x + n * b.vx, b.y + n * b.vy, b.vx, b.vy)
  {
    if n > 0 {
      FlyClosedForm(b, n - 1);
    }
  }

  /** For a ball flying straight at the AI paddle at a speed that is a multiple of 16
      and reaching it after n <= 8 whole frames, the AI's predicted arrival row is
      exactly the row where the ball, in free flight with no wall bounce, meets the
      paddle's face. */
  lemma PredictionMatchesFlight(b: Ball, k: int, n: nat)
    requires k >= 1 && b.vx == 16 * k
    requires IntToFp(AI_PADDLE_X) - b.x == n * b.vx
    requires 16 * n <= MAX_TIME_TO_REACH
    ensures Fly(b, n).x == IntToFp(AI_PADDLE_X)
    ensures PredictedArrival(b) == FpToInt(Fly(b, n).y)
  {
    FlyClosedForm(b, n);
    assert ApproachDivisor(b.vx) == k;
    assert IntToFp(AI_PADDLE_X) - b.x == (16 * n) * k;
    TruncDivExact(16 * n, k);
    assert TimeToReach(b) == 16 * n;
    assert b.vy * (16 * n) == (b.vy * n) * 16;
    TruncDivExact(b.vy * n, 16);
    assert n * b.vy == b.vy * n;
  }

  /** The ball after n frames of movement and wall bounces, with no paddle in the way. */
  function Bounced(b: Ball, n: nat): Ball {
    if n == 0 then b else WallBounce(MoveBall(Bounced(b, n - 1)))
  }

  /** The ball's square touches neither the score band nor the floor. */
  predicate ClearOfWalls(b: Ball) {
    FpToInt(b.y) - BALL_SIZE / 2 > TOP_WALL && FpToInt(b.y) + BALL_SIZE / 2 < SCREEN_HEIGHT
  }

  /** When every free-flight position up to frame n is clear of the walls, the wall
      test never fires and the real flight is the free flight. */
  lemma {:induction false} ClearFlightIsFree(b: Ball, n: nat)
    requires forall k :: 1 <= k <= n ==> ClearOfWalls(Fly(b, k))
    ensures Bounced(b, n) == Fly(b, n)
  {
    if n > 0 {
      ClearFlightIsFree(b, n - 1);
      assert ClearOfWalls(Fly(b, n));
    }
  }

  /** The prediction is the row the ball really reaches, walls included, provided no
      wall bounce comes before the paddle. */
  lemma PredictionMatchesClearFlight(b: Ball, k: int, n: nat)
    requires k >= 1 && b.vx == 16 * k
    requires IntToFp(AI_PADDLE_X) - b.x == n * b.vx
    requires 16 * n <= MAX_TIME_TO_REACH
    requires forall j :: 1 <= j <= n ==> ClearOfWalls(Fly(b, j))
    ensures Bounced(b, n).x == IntToFp(AI_PADDLE_X)
    ensures PredictedArrival(b) == FpToInt(Bounced(b, n).y)
  {
    ClearFlightIsFree(b, n);
    PredictionMatchesFlight(b, k, n);
  }

  /** The estimate is capped at 128, which stands for 8 frames of flight when vx is a
      multiple of 16; a freshly served ball is already beyond the cap, whichever way
      it goes. */
  lemma ServedBallIsBeyondLookAhead(c: GameContext)
    requires Served(c)
    ensures TimeToReach(c.ball) == MAX_TIME_TO_REACH
  {
  }

  /** The prediction divides with truncation towards zero: a ball at the serve speed,
      five time units short of the AI paddle and rising by two units per frame (the
      serve draw 127), is predicted at row 128, where a floor division would give 127. */
  lemma TruncationMovesTheAiTarget()
    ensures var b := Ball(IntToFp(AI_PADDLE_X) - 480, IntToFp(128), BALL_INITIAL_SPEED, -2);
      && TimeToReach(b) == 5
      && PredictedArrival(b) == 128
      && FpToInt(b.y + (b.vy * TimeToReach(b)) / 16) == 127
  {
    assert TruncDiv(480, 96) == 5;
    assert TruncDiv(-10, 16) == 0;
  }

  // ---------------------------------------------------------------------------
  // Terminal checks

  /** A player win is a finished game, and a finished game that the player did not
      win was won by the AI. */
  lemma PlayerWonMeansGameOver(c: GameContext)
    ensures PlayerWon(c) ==> IsGameOver(c)
    ensures IsGameOver(c) && !PlayerWon(c) ==> c.aiScore >= WINNING_SCORE
  {
  }
}
