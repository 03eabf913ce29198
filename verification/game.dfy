/** The per-frame simulation of game.c / game.h: match reset, the predictive AI
    paddle, ball physics with paddle spin and speed ramp, scoring and the
    game-over checks.

    The source keeps the random seed and the current AI settings in file-scope
    variables; here they travel with the game context in an Engine value, and
    every operation returns the next Engine. */
module Game {
  import opened FixedPoint
  import opened Dimensions
  import opened Lcg

  /** GameState: the phase of the program. */
  datatype GameState = Title | Playing | Paused | GameOver | HighScoreEntry

  /** Position and velocity of the ball, all in 8.8 fixed point. */
  datatype Ball = Ball(x: int, y: int, vx: int, vy: int)

  /** A paddle: its centre row in pixels and, for the AI paddle, the row it heads for. */
  datatype Paddle = Paddle(y: int, targetY: int)

  /** GameContext, including the difficulty and aiUpdateTimer fields that game.c uses. */
  datatype GameContext = GameContext(
    state: GameState,
    ball: Ball,
    playerPaddle: Paddle,
    aiPaddle: Paddle,
    playerScore: int,
    aiScore: int,
    rallies: int,
    servingPlayer: bool,
    difficulty: nat,
    aiUpdateTimer: int)

  /** Difficulty levels, in the order of the settings table. */
  const EASY: nat := 0
  const MEDIUM: nat := 1
  const HARD: nat := 2

  /** Tuning of the AI paddle for one difficulty level. */
  datatype AISettings = AISettings(speed: int, errorMargin: int, updateInterval: int)

  /** The difficulty table, indexed by EASY, MEDIUM, HARD. */
  const DifficultySettings: seq<AISettings> :=
    [AISettings(3, 40, 20), AISettings(4, 24, 12), AISettings(6, 8, 6)]

  predicate IsProfile(s: AISettings) {
    s in DifficultySettings
  }

  /** The current AI settings are always one row of the table: the initial value
      is the MEDIUM row and only table rows are ever assigned to it. */
  type Profile = s: AISettings | IsProfile(s) witness AISettings(4, 24, 12)

  /** The AI settings before any difficulty has been applied. */
  const INITIAL_AI: Profile := AISettings(4, 24, 12)

  /** The game context together with the generator seed and the current AI settings. */
  datatype Engine = Engine(ctx: GameContext, seed: U32, ai: Profile)

  const BALL_INITIAL_SPEED: int := 6 * FP_ONE
  const BALL_MAX_SPEED: int := 12 * FP_ONE
  const BALL_SPEED_INCREASE: int := 48
  const WINNING_SCORE: int := 11

  /** Largest vertical speed and largest spin, in fixed point. */
  const MAX_VY: int := 4 * FP_ONE
  const MAX_SPIN: int := 3 * FP_ONE

  /** The travel range of a paddle centre. */
  const PADDLE_MIN: int := PADDLE_HEIGHT / 2
  const PADDLE_MAX: int := SCREEN_HEIGHT - PADDLE_HEIGHT / 2

  /** Left edge of the AI paddle, in pixels. */
  const AI_PADDLE_X: int := SCREEN_WIDTH - PADDLE_OFFSET - PADDLE_WIDTH

  /** The lowest row of the score band the ball must stay below. */
  const TOP_WALL: int := 48

  /** Upper bound of the AI's arrival-time estimate. */
  const MAX_TIME_TO_REACH: int := 128

  predicate InTravel(y: int) {
    PADDLE_MIN <= y <= PADDLE_MAX
  }

  /** x lies between a and b (in either order). */
  predicate Between(a: int, x: int, b: int) {
    (a <= x <= b) || (b <= x <= a)
  }

  // ---------------------------------------------------------------------------
  // Difficulty and match reset

  /** SetDifficulty: an out-of-range level falls back to MEDIUM, and the current AI
      settings become that level's row of the table. */
  function SetDifficulty(e: Engine, diff: nat): (r: Engine)
    ensures r.ctx.difficulty <= HARD
    ensures diff <= HARD ==> r.ctx.difficulty == diff
    ensures diff > HARD ==> r.ctx.difficulty == MEDIUM
    ensures r.ai == DifficultySettings[r.ctx.difficulty]
    ensures r.ctx == e.ctx.(difficulty := r.ctx.difficulty)
    ensures r.seed == e.seed
  {
    var d := if diff > HARD then MEDIUM else diff;
    e.(ctx := e.ctx.(difficulty := d), ai := DifficultySettings[d])
  }

  /** The ball as ResetBall leaves it: centred, at the serve speed, heading towards
      the player when the player serves and towards the AI otherwise, with an even
      vertical velocity in [-256, 254], no rallies and a fresh AI timer. */
  predicate Served(c: GameContext) {
    && c.ball.x == IntToFp(SCREEN_WIDTH / 2)
    && c.ball.y == IntToFp(SCREEN_HEIGHT / 2)
    && c.ball.vx == (if c.servingPlayer then -BALL_INITIAL_SPEED else BALL_INITIAL_SPEED)
    && c.ball.vy % 2 == 0
    && -256 <= c.ball.vy <= 254
    && c.rallies == 0
    && c.aiUpdateTimer == 0
  }

  /** ResetBall: re-centres the ball and draws a random vertical angle
      INT_TO_FP(Random(256) - 128) / 128, consuming one draw of the generator. */
  function ResetBall(e: Engine): (r: Engine)
    ensures Served(r.ctx)
    ensures r.ctx == e.ctx.(ball := r.ctx.ball, rallies := 0, aiUpdateTimer := 0)
    ensures r.ctx.ball.vy == 2 * (Random(e.seed, 256).value - 128)
    ensures r.seed == NextSeed(e.seed)
    ensures r.ai == e.ai
  {
    var d := Random(e.seed, 256);
    var k := 2 * (d.value - 128);
    assert IntToFp(d.value - 128) == k * 128;
    TruncDivExact(k, 128);
    var angle := TruncDiv(IntToFp(d.value - 128), 128);
    var speed := BALL_INITIAL_SPEED;
    var ball := Ball(IntToFp(SCREEN_WIDTH / 2), IntToFp(SCREEN_HEIGHT / 2),
                     if e.ctx.servingPlayer then -speed else speed, angle);
    e.(ctx := e.ctx.(ball := ball, rallies := 0, aiUpdateTimer := 0), seed := d.seed)
  }

  /** InitGame: back to the title with a 0-0 score, the player serving, both paddles
      centred, the difficulty normalised and applied, and a fresh serve. */
  function InitGame(e: Engine): (r: Engine)
    ensures r.ctx.state == Title
    ensures r.ctx.playerScore == 0 && r.ctx.aiScore == 0
    ensures r.ctx.servingPlayer
    ensures r.ctx.playerPaddle == Paddle(SCREEN_HEIGHT / 2, SCREEN_HEIGHT / 2)
    ensures r.ctx.aiPaddle == Paddle(SCREEN_HEIGHT / 2, SCREEN_HEIGHT / 2)
    ensures e.ctx.difficulty <= HARD ==> r.ctx.difficulty == e.ctx.difficulty
    ensures e.ctx.difficulty > HARD ==> r.ctx.difficulty == MEDIUM
    ensures r.ai == DifficultySettings[r.ctx.difficulty]
    ensures Served(r.ctx)
    ensures r.ctx.ball.vy == 2 * (Random(e.seed, 256).value - 128)
    ensures r.seed == NextSeed(e.seed)
  {
    var d := if e.ctx.difficulty > HARD then MEDIUM else e.ctx.difficulty;
    var centre := Paddle(SCREEN_HEIGHT / 2, SCREEN_HEIGHT / 2);
    var c := e.ctx.(state := Title, playerScore := 0, aiScore := 0, rallies := 0,
                    servingPlayer := true, aiUpdateTimer := 0, difficulty := d,
                    playerPaddle := centre, aiPaddle := centre);
    ResetBall(Engine(c, e.seed, DifficultySettings[d]))
  }

  // ---------------------------------------------------------------------------
  // AI paddle

  /** vx >> 4, raised to 1 when smaller, so that the division below never divides by zero. */
  function ApproachDivisor(vx: int): (d: int)
    ensures d >= 1
    ensures vx >= 16 ==> d * 16 <= vx < d * 16 + 16
    ensures vx < 32 ==> d == 1
  {
    var shifted := vx / 16;
    if shifted < 1 then 1 else shifted
  }

  /** The estimated arrival time: the fixed-point distance to the AI paddle's face
      divided (truncating) by the guarded divisor, clamped to [0, 128]. */
  function TimeToReach(b: Ball): (t: int)
    ensures 0 <= t <= MAX_TIME_TO_REACH
    ensures b.x >= IntToFp(AI_PADDLE_X) ==> t == 0
    ensures b.x < IntToFp(AI_PADDLE_X) && t < MAX_TIME_TO_REACH ==>
      t * ApproachDivisor(b.vx) <= IntToFp(AI_PADDLE_X) - b.x < (t + 1) * ApproachDivisor(b.vx)
    ensures b.x < IntToFp(AI_PADDLE_X) ==>
      (t == MAX_TIME_TO_REACH <==>
         IntToFp(AI_PADDLE_X) - b.x >= MAX_TIME_TO_REACH * ApproachDivisor(b.vx))
  {
    var d := ApproachDivisor(b.vx);
    var dist := IntToFp(AI_PADDLE_X) - b.x;
    var raw := TruncDiv(dist, d);
    TruncDivNonPositive(dist, d);
    QuotientReachesCap(dist, d, raw);
    if raw < 0 then 0 else if raw > MAX_TIME_TO_REACH then MAX_TIME_TO_REACH else raw
  }

  /** The product of two non-negative numbers is non-negative. */
  lemma MulNonNegative(a: int, b: int)
    requires a >= 0 && b >= 0
    ensures a * b >= 0
  {
  }

  /** For a positive dividend, the truncated quotient reaches the cap exactly when the
      dividend reaches the cap times the divisor. */
  lemma QuotientReachesCap(dist: int, d: int, q: int)
    requires d > 0 && q == TruncDiv(dist, d)
    ensures dist > 0 ==> q * d <= dist < (q + 1) * d
    ensures dist > 0 ==> (q >= MAX_TIME_TO_REACH <==> dist >= MAX_TIME_TO_REACH * d)
  {
    if dist > 0 {
      assert (q + 1) * d == q * d + d;
      if q >= MAX_TIME_TO_REACH {
        MulNonNegative(q - MAX_TIME_TO_REACH, d);
        assert (q - MAX_TIME_TO_REACH) * d == q * d - MAX_TIME_TO_REACH * d;
      } else {
        MulNonNegative(MAX_TIME_TO_REACH - (q + 1), d);
        assert (MAX_TIME_TO_REACH - (q + 1)) * d == MAX_TIME_TO_REACH * d - (q + 1) * d;
      }
    }
  }

  /** A non-positive dividend has a non-positive truncated quotient. */
  lemma TruncDivNonPositive(a: int, b: int)
    requires b > 0
    ensures a <= 0 ==> TruncDiv(a, b) <= 0
  {
    var q := TruncDiv(a, b);
    if a <= 0 && q >= 1 {
      MulAtLeast(q, b);
    }
  }

  /** The row at which the ball is expected to meet the AI paddle, before the error is added. */
  function PredictedArrival(b: Ball): int {
    FpToInt(b.y + TruncDiv(b.vy * TimeToReach(b), 16))
  }

  /** A new AI target, the random error added to it, and the seed left behind. */
  datatype Prediction = Prediction(target: int, error: int, seed: U32)

  /** The recalculation step of UpdateAI for a ball heading towards the AI: predicted
      arrival row plus a random error in [-errorMargin, errorMargin], clamped to the
      paddle's travel range. With no error margin no random number is drawn. */
  function Predict(b: Ball, ai: AISettings, seed: U32): (p: Prediction)
    ensures InTravel(p.target)
    ensures p.target == Clamp(PredictedArrival(b) + p.error, PADDLE_MIN, PADDLE_MAX)
    ensures ai.errorMargin > 0 ==> -ai.errorMargin <= p.error <= ai.errorMargin
    ensures ai.errorMargin > 0 ==> p.error == Random(seed, ai.errorMargin * 2 + 1).value - ai.errorMargin
    ensures ai.errorMargin > 0 ==> p.seed == NextSeed(seed)
    ensures ai.errorMargin <= 0 ==> p.error == 0 && p.seed == seed
  {
    var predicted := PredictedArrival(b);
    if ai.errorMargin > 0 then
      var d := Random(seed, ai.errorMargin * 2 + 1);
      var error := d.value - ai.errorMargin;
      Prediction(Clamp(predicted + error, PADDLE_MIN, PADDLE_MAX), error, d.seed)
    else
      Prediction(Clamp(predicted, PADDLE_MIN, PADDLE_MAX), 0, seed)
  }

  /** The movement step of UpdateAI: no move inside the dead zone; otherwise at most
      `speed` pixels towards the target, landing on it when it is within one step,
      then clamped to the travel range. */
  function MoveToward(y: int, target: int, speed: int, deadZone: int): (r: int)
    ensures Abs(target - y) <= deadZone ==> r == y
    ensures Abs(target - y) > deadZone ==> InTravel(r)
    ensures Abs(target - y) > deadZone && 0 <= speed && InTravel(y) && InTravel(target) ==>
      && Between(y, r, target)
      && Abs(r - y) <= speed
      && (Abs(target - y) <= speed ==> r == target)
      && (Abs(target - y) > speed ==> Abs(r - y) == speed)
  {
    var diff := target - y;
    if Abs(diff) <= deadZone then y
    else
      var next := if diff > speed then y + speed
                  else if diff < -speed then y - speed
                  else target;
      Clamp(next, PADDLE_MIN, PADDLE_MAX)
  }

  /** Whether this frame's UpdateAI recalculates the target. */
  predicate Recalculates(e: Engine) {
    e.ctx.aiUpdateTimer + 1 >= e.ai.updateInterval
  }

  /** UpdateAI: advances the timer; on a recalculation frame resets it and aims at
      the predicted arrival row, or at the screen's middle row when the ball moves
      away; then moves the paddle towards its target. */
  function UpdateAI(e: Engine, deadZone: nat): (r: Engine)
    ensures r.ai == e.ai
    ensures r.ctx == e.ctx.(aiPaddle := r.ctx.aiPaddle, aiUpdateTimer := r.ctx.aiUpdateTimer)
    ensures Recalculates(e) ==> r.ctx.aiUpdateTimer == 0
    ensures Recalculates(e) && e.ctx.ball.vx > 0 ==>
      && r.ctx.aiPaddle.targetY == Predict(e.ctx.ball, e.ai, e.seed).target
      && r.seed == NextSeed(e.seed)
    ensures Recalculates(e) && e.ctx.ball.vx <= 0 ==>
      r.ctx.aiPaddle.targetY == SCREEN_HEIGHT / 2 && r.seed == e.seed
    ensures !Recalculates(e) ==>
      && r.ctx.aiUpdateTimer == e.ctx.aiUpdateTimer + 1
      && r.ctx.aiPaddle.targetY == e.ctx.aiPaddle.targetY
      && r.seed == e.seed
    ensures e.ctx.aiUpdateTimer >= 0 ==> 0 <= r.ctx.aiUpdateTimer < e.ai.updateInterval
    ensures r.ctx.aiPaddle.y == MoveToward(e.ctx.aiPaddle.y, r.ctx.aiPaddle.targetY, e.ai.speed, deadZone)
  {
    var timer := e.ctx.aiUpdateTimer + 1;
    var aim :=
      if timer >= e.ai.updateInterval then
        if e.ctx.ball.vx > 0 then
          var p := Predict(e.ctx.ball, e.ai, e.seed);
          (p.target, 0, p.seed)
        else
          (SCREEN_HEIGHT / 2, 0, e.seed)
      else
        (e.ctx.aiPaddle.targetY, timer, e.seed);
    var target := aim.0;
    var y := MoveToward(e.ctx.aiPaddle.y, target, e.ai.speed, deadZone);
    e.(ctx := e.ctx.(aiPaddle := Paddle(y, target), aiUpdateTimer := aim.1), seed := aim.2)
  }

  // ---------------------------------------------------------------------------
  // Collision and spin

  /** CheckPaddleCollision: the ball's square (side BALL_SIZE, around its integer
      position) and the paddle's rectangle overlap, edges included. */
  predicate CheckPaddleCollision(b: Ball, paddleX: int, paddleY: int): (r: bool)
    ensures r <==>
      && paddleX - BALL_SIZE / 2 <= FpToInt(b.x) <= paddleX + PADDLE_WIDTH + BALL_SIZE / 2
      && Abs(FpToInt(b.y) - paddleY) <= PADDLE_HEIGHT / 2 + BALL_SIZE / 2
  {
    var ballX := FpToInt(b.x);
    var ballY := FpToInt(b.y);
    && ballX + BALL_SIZE / 2 >= paddleX
    && ballX - BALL_SIZE / 2 <= paddleX + PADDLE_WIDTH
    && ballY + BALL_SIZE / 2 >= paddleY - PADDLE_HEIGHT / 2
    && ballY - BALL_SIZE / 2 <= paddleY + PADDLE_HEIGHT / 2
  }

  /** CalculateSpin: the offset of the ball from the paddle centre mapped linearly
      onto [-3, 3] fixed-point units (48 per pixel) and saturated at the bounds. */
  function CalculateSpin(ballY: int, paddleY: int): (spin: int)
    ensures -MAX_SPIN <= spin <= MAX_SPIN
    ensures Abs(ballY - paddleY) <= PADDLE_HEIGHT / 2 ==> spin == 48 * (ballY - paddleY)
    ensures ballY - paddleY >= PADDLE_HEIGHT / 2 ==> spin == MAX_SPIN
    ensures ballY - paddleY <= -(PADDLE_HEIGHT / 2) ==> spin == -MAX_SPIN
  {
    var offset := ballY - paddleY;
    assert offset * IntToFp(3) == (offset * 48) * (PADDLE_HEIGHT / 2);
    TruncDivExact(offset * 48, PADDLE_HEIGHT / 2);
    var spin := TruncDiv(offset * IntToFp(3), PADDLE_HEIGHT / 2);
    if spin > MAX_SPIN then MAX_SPIN
    else if spin < -MAX_SPIN then -MAX_SPIN
    else spin
  }

  /** The speed ramp: one increment, capped at the maximum speed. */
  function SpeedUp(speed: int): (r: int)
    ensures r <= BALL_MAX_SPEED
    ensures r <= speed + BALL_SPEED_INCREASE
    ensures r == BALL_MAX_SPEED || r == speed + BALL_SPEED_INCREASE
  {
    var s := speed + BALL_SPEED_INCREASE;
    if s > BALL_MAX_SPEED then BALL_MAX_SPEED else s
  }

  // ---------------------------------------------------------------------------
  // One frame

  /** The player paddle follows the pointer row, clamped to its travel range. */
  function FollowPointer(c: GameContext, mouseY: int): (r: GameContext)
    ensures InTravel(r.playerPaddle.y)
    ensures InTravel(mouseY) ==> r.playerPaddle.y == mouseY
    ensures mouseY < PADDLE_MIN ==> r.playerPaddle.y == PADDLE_MIN
    ensures mouseY > PADDLE_MAX ==> r.playerPaddle.y == PADDLE_MAX
    ensures r == c.(playerPaddle := c.playerPaddle.(y := r.playerPaddle.y))
  {
    c.(playerPaddle := c.playerPaddle.(y := Clamp(mouseY, PADDLE_MIN, PADDLE_MAX)))
  }

  /** One Euler step of the ball: the position advances by the velocity, which is kept. */
  function MoveBall(b: Ball): (r: Ball)
    ensures r.vx == b.vx && r.vy == b.vy
    ensures r.x - b.x == b.vx && r.y - b.y == b.vy
  {
    b.(x := b.x + b.vx, y := b.y + b.vy)
  }

  /** Wall bounce: a ball touching the score band (row 48) or the floor is put back
      just inside and its vertical velocity is reversed. */
  function WallBounce(b: Ball): (r: Ball)
    ensures r.x == b.x && r.vx == b.vx
    ensures IntToFp(TOP_WALL + BALL_SIZE / 2) <= r.y <= IntToFp(SCREEN_HEIGHT - BALL_SIZE / 2)
    ensures FpToInt(b.y) - BALL_SIZE / 2 <= TOP_WALL ==>
      r.y == IntToFp(TOP_WALL + BALL_SIZE / 2) && r.vy == -b.vy
    ensures FpToInt(b.y) - BALL_SIZE / 2 > TOP_WALL && FpToInt(b.y) + BALL_SIZE / 2 >= SCREEN_HEIGHT ==>
      r.y == IntToFp(SCREEN_HEIGHT - BALL_SIZE / 2) && r.vy == -b.vy
    ensures FpToInt(b.y) - BALL_SIZE / 2 > TOP_WALL && FpToInt(b.y) + BALL_SIZE / 2 < SCREEN_HEIGHT ==>
      r == b
  {
    var ballY := FpToInt(b.y);
    if ballY - BALL_SIZE / 2 <= TOP_WALL then
      b.(y := IntToFp(TOP_WALL + BALL_SIZE / 2), vy := -b.vy)
    else if ballY + BALL_SIZE / 2 >= SCREEN_HEIGHT then
      b.(y := IntToFp(SCREEN_HEIGHT - BALL_SIZE / 2), vy := -b.vy)
    else
      b
  }

  /** The player paddle is checked only for a ball moving left in the left half. */
  predicate PlayerHits(c: GameContext, ballX: int) {
    c.ball.vx < 0 && ballX < SCREEN_WIDTH / 2 &&
    CheckPaddleCollision(c.ball, PADDLE_OFFSET, c.playerPaddle.y)
  }

  /** The AI paddle is checked only for a ball moving right in the right half. */
  predicate AiHits(c: GameContext, ballX: int) {
    c.ball.vx > 0 && ballX > SCREEN_WIDTH / 2 &&
    CheckPaddleCollision(c.ball, AI_PADDLE_X, c.aiPaddle.y)
  }

  /** Player paddle bounce: the ball leaves to the right one ramp step faster, just
      outside the paddle face, with spin added; one more rally; and the AI timer is
      set so that the AI recalculates on the next frame. */
  function PlayerHit(c: GameContext, ballX: int, ballY: int, interval: int): (r: GameContext)
    ensures !PlayerHits(c, ballX) ==> r == c
    ensures PlayerHits(c, ballX) ==>
      && r.ball.vx == SpeedUp(Abs(c.ball.vx))
      && r.ball.vx > 0
      && r.ball.x == IntToFp(PADDLE_OFFSET + PADDLE_WIDTH + BALL_SIZE / 2)
      && r.ball.y == c.ball.y
      && r.ball.vy == c.ball.vy + CalculateSpin(ballY, c.playerPaddle.y)
      && r.rallies == c.rallies + 1
      && r.aiUpdateTimer == interval
      && r == c.(ball := r.ball, rallies := r.rallies, aiUpdateTimer := r.aiUpdateTimer)
  {
    if PlayerHits(c, ballX) then
      var vx := -c.ball.vx;
      var vy := c.ball.vy + CalculateSpin(ballY, c.playerPaddle.y);
      var speed := SpeedUp(Abs(vx));
      c.(ball := Ball(IntToFp(PADDLE_OFFSET + PADDLE_WIDTH + BALL_SIZE / 2), c.ball.y, speed, vy),
         rallies := c.rallies + 1,
         aiUpdateTimer := interval)
    else
      c
  }

  /** AI paddle bounce: the ball leaves to the left one ramp step faster, just
      outside the paddle face, with spin added; one more rally. */
  function AiHit(c: GameContext, ballX: int, ballY: int): (r: GameContext)
    ensures !AiHits(c, ballX) ==> r == c
    ensures AiHits(c, ballX) ==>
      && r.ball.vx == -SpeedUp(Abs(c.ball.vx))
      && r.ball.vx < 0
      && r.ball.x == IntToFp(AI_PADDLE_X - BALL_SIZE / 2)
      && r.ball.y == c.ball.y
      && r.ball.vy == c.ball.vy + CalculateSpin(ballY, c.aiPaddle.y)
      && r.rallies == c.rallies + 1
      && r == c.(ball := r.ball, rallies := r.rallies)
  {
    if AiHits(c, ballX) then
      var vx := -c.ball.vx;
      var vy := c.ball.vy + CalculateSpin(ballY, c.aiPaddle.y);
      var speed := SpeedUp(Abs(vx));
      c.(ball := Ball(IntToFp(AI_PADDLE_X - BALL_SIZE / 2), c.ball.y, -speed, vy),
         rallies := c.rallies + 1)
    else
      c
  }

  /** The vertical velocity is bounded by four fixed-point units either way. */
  function ClampVy(b: Ball): (r: Ball)
    ensures -MAX_VY <= r.vy <= MAX_VY
    ensures -MAX_VY <= b.vy <= MAX_VY ==> r == b
    ensures b.vy > MAX_VY ==> r.vy == MAX_VY
    ensures b.vy < -MAX_VY ==> r.vy == -MAX_VY
    ensures r == b.(vy := r.vy)
  {
    var vy := if b.vy > MAX_VY then MAX_VY else b.vy;
    b.(vy := if vy < -MAX_VY then -MAX_VY else vy)
  }

  /** The ball has left through the player's side (AI point). */
  predicate OutLeft(b: Ball, ballX: int) {
    ballX < -BALL_SIZE || b.x < IntToFp(-50)
  }

  /** The ball has left through the AI's side (player point). */
  predicate OutRight(b: Ball, ballX: int) {
    ballX > SCREEN_WIDTH + BALL_SIZE || b.x > IntToFp(SCREEN_WIDTH + 50)
  }

  /** Scoring, the left side first: the other side scores, the side scored upon
      serves the fresh ball, and the match ends when the scorer reaches WINNING_SCORE. */
  function Score(e: Engine, ballX: int): (r: Engine)
    ensures r.ai == e.ai
    ensures r.ctx.difficulty == e.ctx.difficulty
    ensures r.ctx.playerPaddle == e.ctx.playerPaddle && r.ctx.aiPaddle == e.ctx.aiPaddle
    ensures OutLeft(e.ctx.ball, ballX) ==>
      && r.ctx.aiScore == e.ctx.aiScore + 1
      && r.ctx.playerScore == e.ctx.playerScore
      && r.ctx.servingPlayer
      && r.ctx.ball.vx < 0
      && Served(r.ctx)
      && r.ctx.ball.vy == 2 * (Random(e.seed, 256).value - 128)
      && r.seed == NextSeed(e.seed)
      && (r.ctx.aiScore >= WINNING_SCORE ==> r.ctx.state == GameOver)
      && (r.ctx.aiScore < WINNING_SCORE ==> r.ctx.state == e.ctx.state)
    ensures !OutLeft(e.ctx.ball, ballX) && OutRight(e.ctx.ball, ballX) ==>
      && r.ctx.playerScore == e.ctx.playerScore + 1
      && r.ctx.aiScore == e.ctx.aiScore
      && !r.ctx.servingPlayer
      && r.ctx.ball.vx > 0
      && Served(r.ctx)
      && r.ctx.ball.vy == 2 * (Random(e.seed, 256).value - 128)
      && r.seed == NextSeed(e.seed)
      && (r.ctx.playerScore >= WINNING_SCORE ==> r.ctx.state == GameOver)
      && (r.ctx.playerScore < WINNING_SCORE ==> r.ctx.state == e.ctx.state)
    ensures !OutLeft(e.ctx.ball, ballX) && !OutRight(e.ctx.ball, ballX) ==> r == e
  {
    if OutLeft(e.ctx.ball, ballX) then
      var scored := e.ctx.(aiScore := e.ctx.aiScore + 1, servingPlayer := true);
      var reset := ResetBall(e.(ctx := scored));
      if reset.ctx.aiScore >= WINNING_SCORE then reset.(ctx := reset.ctx.(state := GameOver))
      else reset
    else if OutRight(e.ctx.ball, ballX) then
      var scored := e.ctx.(playerScore := e.ctx.playerScore + 1, servingPlayer := false);
      var reset := ResetBall(e.(ctx := scored));
      if reset.ctx.playerScore >= WINNING_SCORE then reset.(ctx := reset.ctx.(state := GameOver))
      else reset
    else
      e
  }

  /** The defensive bound on the ball's row: [-50, SCREEN_HEIGHT + 50] pixels. */
  function SafetyClampY(b: Ball): (r: Ball)
    ensures IntToFp(-50) <= r.y <= IntToFp(SCREEN_HEIGHT + 50)
    ensures IntToFp(-50) <= b.y <= IntToFp(SCREEN_HEIGHT + 50) ==> r == b
    ensures b.y < IntToFp(-50) ==> r.y == IntToFp(-50)
    ensures b.y > IntToFp(SCREEN_HEIGHT + 50) ==> r.y == IntToFp(SCREEN_HEIGHT + 50)
    ensures r == b.(y := r.y)
  {
    var y := if b.y < IntToFp(-50) then IntToFp(-50) else b.y;
    b.(y := if y > IntToFp(SCREEN_HEIGHT + 50) then IntToFp(SCREEN_HEIGHT + 50) else y)
  }

  /** UpdateGame: nothing happens outside PLAYING. Otherwise, in this order: the
      player paddle follows the pointer, the AI moves, the ball moves and bounces
      off the walls, then off the player and AI paddles, the vertical speed is
      clamped, a point is scored if the ball left the field, and the ball row is
      bounded. */
  function UpdateGame(e: Engine, mouseY: int, deadZone: nat): (r: Engine)
    ensures e.ctx.state != Playing ==> r == e
    ensures r.ai == e.ai && r.ctx.difficulty == e.ctx.difficulty
    ensures e.ctx.state == Playing ==>
      && r.ctx.playerPaddle.y == Clamp(mouseY, PADDLE_MIN, PADDLE_MAX)
      && InTravel(r.ctx.playerPaddle.y)
      && -MAX_VY <= r.ctx.ball.vy <= MAX_VY
      && IntToFp(-50) <= r.ctx.ball.y <= IntToFp(SCREEN_HEIGHT + 50)
  {
    if e.ctx.state != Playing then e
    else
      var e1 := UpdateAI(e.(ctx := FollowPointer(e.ctx, mouseY)), deadZone);
      var moved := MoveBall(e1.ctx.ball);
      var ballX := FpToInt(moved.x);
      var ballY := FpToInt(moved.y);
      var c2 := e1.ctx.(ball := WallBounce(moved));
      var c3 := AiHit(PlayerHit(c2, ballX, ballY, e.ai.updateInterval), ballX, ballY);
      var c4 := c3.(ball := ClampVy(c3.ball));
      var e5 := Score(e1.(ctx := c4), ballX);
      e5.(ctx := e5.ctx.(ball := SafetyClampY(e5.ctx.ball)))
  }

  /** IsGameOver: either side has reached the winning score, that is the player has
      won or the AI has. */
  predicate IsGameOver(c: GameContext): (r: bool)
    ensures r <==> PlayerWon(c) || c.aiScore >= WINNING_SCORE
  {
    c.playerScore >= WINNING_SCORE || c.aiScore >= WINNING_SCORE
  }

  /** PlayerWon: the player has reached the winning score. */
  predicate PlayerWon(c: GameContext) {
    c.playerScore >= WINNING_SCORE
  }
}
