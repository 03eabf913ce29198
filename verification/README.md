# Amiga Pong, modelled in Dafny

This project models the game core of Amiga Pong: a one-player Pong for the Amiga 500.
The player's paddle follows the mouse, an AI paddle opposes it, and the first side to
11 points wins. A player win that beats the last of the five high scores lets the
player type a name, which is then inserted into the table.

The model covers three parts:

- the per-frame simulation of `game.c`. This is 8.8 fixed-point ball physics,
  wall bounces, paddle collisions with spin, the speed ramp, scoring, the predictive
  AI with its difficulty presets, and the 32-bit linear-congruential random
  generator;
- the in-memory high-score table of `highscore.c`: `StrCopy`, `InitHighScores`,
  `IsHighScore`, `GetScoreRank` and `AddHighScore`;
- the phase machine of `pong.c`: title, playing, paused, game over and name entry,
  plus the dispatch done by one iteration of the game loop.

Modules, in dependency order:

- `FixedPoint`: the `INT_TO_FP`/`FP_TO_INT` macros, `Clamp`, `Abs`, and C's
  truncating division `TruncDiv`.
- `Dimensions`: the screen and sprite sizes of `graphics.h`.
- `Lcg`: `Random` and the seed update, with the seed's inverse.
- `Game`: the context, the difficulty table and every step of `UpdateGame`.
- `GameLemmas`: the frame invariant `Inv` and properties of whole frames.
- `HighScore`: C strings as NUL-terminated buffers, and the table operations.
- `Session`: the phase handlers of `pong.c` and `Frame`, one game-loop iteration.
- `SessionLemmas`: the session invariant and properties across frames.

The C program keeps its state in process-wide variables: the random seed, the
current AI settings, the context, the table and the name buffer. Here they are
threaded explicitly:

- `Engine` is the context plus the seed plus the current AI settings.
- `Session` is an `Engine` plus the table, the name buffer and the quit flag.
- A frame's input is an `Input` value: pointer row, click, ESC, close gadget and
  last key.

The headers and the code that uses them disagree in several places. The model
follows the code in each case:

- `game.h` declares `GameContext` without the `difficulty` and `aiUpdateTimer`
  fields (game.h:41-50), but `game.c` and `pong.c` read and write both. The model's
  `GameContext` has both.
- `highscore.h` declares `HighScoreTable` with only the entries and the magic
  number (highscore.h:22-25). Yet `InitHighScores` writes `difficulty` and
  `reserved[0..2]` (highscore.c:29-32), and `pong.c` reads and writes `difficulty`
  (pong.c:79, pong.c:308). The model's `HighScoreTable` has both fields.
- The `Difficulty` type and the `DIFFICULTY_*` constants are used (game.c:36-38,
  pong.c:288-301) but declared in none of the files. The model uses the levels
  0, 1 and 2 that index the preset table.
- `AI_DEAD_ZONE` is used (game.c:166) but defined nowhere. The model takes it as a
  parameter.

## Model

| member | source | states |
|---|---|---|
| FixedPoint.IntToFp | game.h:14 | the result is a multiple of 256 whose quotient by 256 is the input |
| FixedPoint.FpToInt | game.h:15 | the arithmetic right shift is floor division: r*256 <= v < r*256 + 256 |
| FixedPoint.FpRoundTrip | game.h:14-15 | FP_TO_INT(INT_TO_FP(n)) == n for every n |
| FixedPoint.FpToIntMonotone | game.h:15 | converting to pixels preserves order |
| FixedPoint.Clamp | game.c:97-102 | within [lo, hi] whenever lo <= hi, the value itself when already inside, lo below, hi above |
| FixedPoint.Abs | game.c:105-114 | the result is non-negative and is x or -x |
| FixedPoint.TruncDiv | game.c:139 | C division rounds towards zero: the remainder has the dividend's sign and is smaller than the divisor |
| FixedPoint.TruncDivUnique | game.c:139 | any quotient with a C-style remainder is TruncDiv's, so the remainder conditions define it |
| FixedPoint.TruncDivNegate | game.c:143 | truncating division is odd: TruncDiv(-a, b) == -TruncDiv(a, b) |
| FixedPoint.TruncDivExact | game.c:214 | an exact multiple divides back to its factor |
| FixedPoint.FpOneIsIntToFpOne | game.h:12-14 | FP_ONE, 1 << 8, is 256 and is the fixed-point value of the integer 1 |
| Lcg.Random | game.c:13-18 | max <= 0 gives 0 and leaves the seed alone; otherwise the seed advances once and the value lies in [0, max) and is bits 16 and up of the new seed modulo max |
| Lcg.PrevAfterNext | game.c:16 | the update seed*1103515245+12345 mod 2^32 is inverted by PrevSeed |
| Lcg.NextSeedInjective | game.c:16 | two different seeds never advance to the same seed |
| Game.SetDifficulty | game.c:36-41 | out-of-range levels become MEDIUM, the applied AI settings are that level's row of the table, and nothing else in the context changes |
| Game.ResetBall | game.c:67-94 | centred ball, serve towards the side that serves, vy = 2*(Random(256) - 128), rally count and AI timer zeroed, one draw from the generator, the rest of the context unchanged |
| Game.InitGame | game.c:43-65 | title state, 0-0, player serves, both paddles centred, the difficulty kept if valid and otherwise MEDIUM, its AI settings applied, and a fresh serve whose vy is 2*(Random(256) - 128) from one draw |
| Game.ApproachDivisor | game.c:136-137 | the guarded divisor vx >> 4 is at least 1 |
| Game.TimeToReach | game.c:129-141 | the estimate is in [0, 128] and is 0 once the ball is at or past the AI paddle. Before the paddle, a value t below 128 satisfies t*d <= distance < (t+1)*d for the guarded divisor d. It is 128 exactly when the distance is at least 128*d |
| Game.Predict | game.c:143-155 | the target is the predicted row plus the error, clamped to the travel range. With a positive margin m the error is Random(2m + 1) - m, so it lies in [-m, m], and one draw is made. With margin 0 the error is 0 and no draw is made |
| Game.MoveToward | game.c:162-181 | no move inside the dead zone; otherwise a step of at most `speed` towards the target that lands on it when close enough, and a result in the travel range |
| Game.UpdateAI | game.c:117-182 | the timer counts frames up to the interval; a recalculation aims at the prediction or at the middle row when the ball moves away; then the paddle moves by MoveToward; only the AI paddle, the timer and the seed change |
| Game.CheckPaddleCollision | game.c:185-204 | the ball square and the paddle rectangle overlap exactly when the ball's centre pixel lies in the paddle rectangle grown by half a ball on every side |
| Game.CalculateSpin | game.c:207-221 | spin is 48 per pixel of offset from the paddle centre and saturates at +-3.0 |
| Game.SpeedUp | game.c:264-267 | one increment of 48, capped at BALL_MAX_SPEED |
| Game.FollowPointer | game.c:232-234 | the player paddle takes the pointer row when it is inside the travel range. A pointer row less than PADDLE_MIN gives PADDLE_MIN, and one greater than PADDLE_MAX gives PADDLE_MAX. Nothing else changes |
| Game.MoveBall | game.c:240-241 | the position advances by exactly the velocity, and the velocity is kept |
| Game.WallBounce | game.c:246-254 | a ball touching the score band or the floor is put back inside with vy reversed; otherwise it is unchanged |
| Game.PlayerHit | game.c:256-273 | a hit sends the ball right one ramp step faster from the paddle face, adds spin, counts a rally and forces an AI recalculation; with no hit nothing changes |
| Game.AiHit | game.c:275-290 | a hit sends the ball left one ramp step faster from the paddle face, adds spin and counts a rally; with no hit nothing changes |
| Game.ClampVy | game.c:292-294 | vy is bounded by +-4.0 and left alone when already inside |
| Game.Score | game.c:296-315 | the left exit is checked first. The other side scores, and the side scored upon serves a fresh ball with vy = 2*(Random(256) - 128) from one draw. Reaching 11 ends the match |
| Game.SafetyClampY | game.c:317-319 | the ball row is left alone inside [-50, 306] pixels, and outside it is set to the nearer bound |
| Game.UpdateGame | game.c:223-320 | outside PLAYING nothing changes; otherwise the player paddle follows the pointer and the ball's vy and row end bounded |
| Game.IsGameOver | game.c:322-325 | the game is over exactly when the player has won or the AI has reached 11 |
| Game.PlayerWon | game.c:327-330 | the player has reached 11 |
| GameLemmas.AtMostOnePaddleHit | game.c:256-290 | after a player-paddle bounce the AI paddle cannot bounce the ball in the same frame |
| GameLemmas.ServedBallInRange | game.c:67-94 | a served ball is inside the field and below the score band, moves at the initial speed, and has vy within the +-4.0 clamp |
| GameLemmas.InitGameEstablishesInv | game.c:43-65 | InitGame establishes the frame invariant from any state |
| GameLemmas.UpdateAIKeepsTravel | game.c:150-181 | the AI paddle and its target stay in the travel range |
| GameLemmas.PaddleHitsKeepSpeed | game.c:256-290 | the ball's horizontal speed stays between the initial and the maximum speed through the paddle bounces |
| GameLemmas.PaddleHitsFollowRamp | game.c:256-290 | each paddle bounce is one ramp step and one more rally, so the speed stays the ramp value for the rally count |
| GameLemmas.UpdateGameKeepsInv | game.c:223-320 | every frame keeps the invariant. Paddles stay in range and the timer at most the interval. Ball speed and position stay bounded. The speed is the ramp value for the rallies since the serve, and the scores fit the phase |
| GameLemmas.PaddlesStayInTravel | game.c:232-237 | both paddle centres end the frame in the travel range |
| GameLemmas.AiStepBounded | game.c:170-181 | the AI paddle moves at most its preset speed per frame |
| GameLemmas.DeadZoneHoldsPaddle | game.c:162-168 | within the dead zone and without a recalculation the AI paddle does not move |
| GameLemmas.ScoresMonotone | game.c:296-315 | a frame adds at most one point, to at most one side, and never takes one away |
| GameLemmas.GameOverSticks | game.c:322-325 | once a side has 11 points, later frames keep the game over |
| GameLemmas.GameOverExactlyAtWinningScore | game.c:303-314 | a match below 11-11 ends in this frame exactly when the frame's point brings a side to 11 |
| GameLemmas.BallRowStaysInsideWalls | game.c:246-254 | after the wall test the ball row lies between the score band and the floor |
| GameLemmas.ServeGoesToTheLoser | game.c:296-315 | after a point the fresh ball heads towards the side that conceded |
| GameLemmas.PlayerHitRampsSpeed | game.c:256-273 | a player-paddle bounce leaves the ball moving right at SpeedUp of its old speed |
| GameLemmas.AiHitRampsSpeed | game.c:275-290 | an AI-paddle bounce leaves the ball moving left at SpeedUp of its old speed |
| GameLemmas.SpeedAfterHitsClosedForm | game.c:264-268 | after n bounces from the serve the speed is 6.0 + 48n, capped at 12.0 |
| GameLemmas.SpeedCapReachedAfter32Hits | game.h:73-75 | the cap is reached exactly from the 32nd bounce on, and the speed strictly rises before that |
| GameLemmas.SpeedIsRampOfRallies | game.c:256-290 | between frames the ball's horizontal speed is 6.0 + 48 per rally since the serve, capped at 12.0 |
| GameLemmas.SpeedConstants | game.h:73-75 | the serve speed 6.0 is below the cap 12.0 and the increment is positive |
| GameLemmas.DifficultyOrdering | game.c:27-31 | harder levels are faster, more accurate and recalculate more often |
| GameLemmas.HardPresetApplied | game.c:27-41 | selecting HARD applies speed 6, margin 8 and interval 6 |
| GameLemmas.CollisionIsOverlap | game.c:185-204 | the collision test holds exactly when some pixel is covered by both the ball square and the paddle rectangle |
| GameLemmas.SpinMonotone | game.c:207-221 | spin does not decrease as the hit moves down the paddle |
| GameLemmas.FlyClosedForm | game.c:240-241 | n undisturbed moves displace the ball by n times its velocity |
| GameLemmas.PredictionMatchesFlight | game.c:129-143 | suppose vx is a multiple of 16 and the ball reaches the paddle in n whole frames with n <= 8 (16n <= 128). Then the AI's prediction is the row the ball reaches in free flight, with no wall bounce before the paddle |
| GameLemmas.ClearFlightIsFree | game.c:240-254 | when every free-flight position up to frame n is clear of the walls, n frames of movement and wall tests give the free-flight ball |
| GameLemmas.PredictionMatchesClearFlight | game.c:129-143 | under the same conditions, and with no wall reached on the way, the prediction is the row the ball reaches with the wall tests applied |
| GameLemmas.ServedBallIsBeyondLookAhead | game.c:136-141 | a freshly served ball is already at the 128 cap of the estimate. For vx a multiple of 16 the cap is 8 frames of flight, so the prediction looks at most 8 frames ahead |
| GameLemmas.TruncationMovesTheAiTarget | game.c:139-143 | the prediction divides towards zero. A ball at the serve speed, 5 time units short of the paddle and with the serve's vy of -2, is predicted at row 128, where floor division would give 127 |
| GameLemmas.PlayerWonMeansGameOver | game.c:322-330 | a player win is a game over, and a game over the player did not win is an AI win |
| HighScore.StrCopy | highscore.c:15-22 | the destination then holds the source's C string cut to maxLen characters, NUL-terminated, and the bytes after the terminator are untouched |
| HighScore.DefaultNameFillsBuffer | highscore.c:35 | copying "--------" fills the whole 9-byte buffer, whatever it held |
| HighScore.InitHighScores | highscore.c:24-38 | five entries named "--------" with score 0, the magic number, MEDIUM and zeroed reserved bytes |
| HighScore.IsHighScore | highscore.c:82-86 | on a sorted table a score qualifies exactly when it beats some entry |
| HighScore.GetScoreRank | highscore.c:88-99 | the first index whose score the new score beats, or -1 when it beats none |
| HighScore.AddHighScore | highscore.c:101-125 | entries above the rank unchanged, the rest shifted down one with the last dropped, the new name and score at the rank, the magic stamped; no change at all when the score does not rank |
| HighScore.ShiftDown | highscore.c:112-115 | the shift loop turns the entries into entries[..rank+1] + entries[rank..4]: everything from the rank moves down one, the last falls off, and the rank keeps its old entry |
| HighScore.ShiftThenWriteIsInsertion | highscore.c:111-118 | the shifted entries, with the name copied over the rank's buffer and the score written, are exactly the entries AddHighScore returns |
| HighScore.IsHighScoreIffRanks | highscore.c:82-99 | a qualifying score always gets a rank, and on a sorted table a ranked score always qualifies |
| HighScore.RankIsInsertionPoint | highscore.c:88-99 | on a sorted table every entry above the rank scores at least the new score and every entry from the rank on scores less |
| HighScore.AddHighScoreKeepsSorted | highscore.c:101-125 | inserting into a sorted table keeps it sorted |
| HighScore.AddHighScoreDropsLast | highscore.c:101-125 | the new table plus the dropped last entry is the old table plus the new entry, as a multiset |
| Session.EditName | pong.c:373-386 | backspace or delete removes the last character when there is one; a printable key is appended while there is room; other keys do nothing; the buffer stays valid |
| Session.Boot | pong.c:72-80 | the program starts on the title screen at 0-0 with the loaded table, an empty name and no quit request. The table's difficulty is applied when valid, and MEDIUM otherwise, with that level's AI settings. The player serves, both paddles are centred, and the ball's vy is 2*(Random(256) - 128) from one draw of the initial seed |
| Session.SelectDifficulty | pong.c:286-311 | a new level goes into the context and the table, and the save stamps the magic; the same level changes nothing |
| Session.HandleTitleInput | pong.c:270-312 | ESC requests quit. Otherwise a click starts a served 0-0 match at the current level, or MEDIUM if that is invalid, with its AI settings. The serving side is kept and one random draw sets the angle. Otherwise keys '1' to '3' select the level |
| Session.HandlePlayingInput | pong.c:314-320 | ESC pauses; nothing else changes |
| Session.HandlePausedInput | pong.c:322-334 | a click resumes exactly where the match was; otherwise ESC returns to the title through InitGame |
| Session.HandleGameOverInput | pong.c:336-357 | on a click, name entry with an empty name opens exactly when the player won with a qualifying score; otherwise back to the title |
| Session.HandleHighScoreEntry | pong.c:359-387 | no key does nothing. Enter records the name when it is not empty and returns to the title, keeping the name buffer and the quit flag. Other keys edit the name |
| Session.Dispatch | pong.c:144-165 | the handler keeps the table well formed and the name valid. Only the title screen can request quit, and only the title and name-entry screens change the table. In a match, ESC pauses with no step, and otherwise exactly one UpdateGame step runs. An idle frame outside a match changes nothing |
| Session.Frame | pong.c:130-166 | the loop stops exactly when the window is closed or a quit was requested |
| SessionLemmas.BootEstablishesInv | pong.c:78-80 | the start state satisfies the session invariant for any well-formed loaded table |
| SessionLemmas.FrameKeepsInv | pong.c:122-180 | every frame keeps the session invariant, including a qualifying score throughout name entry |
| SessionLemmas.FrameKeepsSorted | pong.c:365-369 | a sorted table stays sorted from frame to frame |
| SessionLemmas.EscapePausesWithoutStep | pong.c:149-151 | ESC during a match pauses it, and that frame's simulation step changes nothing |
| SessionLemmas.PlayingFrameIsOneStep | pong.c:149-151 | without ESC a match frame is exactly one UpdateGame step with the pointer row |
| SessionLemmas.PauseResumeRoundTrip | pong.c:314-327 | ESC then a click gives back exactly the session the match was in |
| SessionLemmas.EscapeOnTitleQuits | pong.c:275-277 | ESC on the title screen ends the loop on the next frame |
| SessionLemmas.NameEntryOpensExactlyForQualifyingWins | pong.c:338-356 | on a click after a match, name entry opens exactly when the player has 11 and the last table entry is below 11 |
| SessionLemmas.FullTableClosesNameEntry | highscore.c:82-86 | once the last table entry holds 11, the next frame does not open the name entry and the last entry still holds 11 |
| SessionLemmas.Run | pong.c:130-166 | the game loop over a sequence of frame inputs stops at the first stopping frame and keeps the session invariant throughout |
| SessionLemmas.FullTableClosesNameEntryForever | highscore.c:82-86 | once the last table entry holds 11 outside name entry, no run of frames ever reaches the name entry again |
| SessionLemmas.NameText | pong.c:376-386 | the name buffer's C string is the characters before the cursor |
| SessionLemmas.TypeThenBackspace | pong.c:373-386 | typing a character and then backspace restores the name exactly |
| SessionLemmas.TypingAppends | pong.c:380-386 | typing appends the key's character to the name's C string |
| SessionLemmas.EnterRecordsTheName | pong.c:365-369 | Enter (return or linefeed) with a non-empty name puts the winning score in the table at its rank, under the name typed |
| SessionLemmas.OnlyWinsAreRecorded | pong.c:365-369 | every entry after a frame was already in the table or scores 11 |
| SessionLemmas.ChosenDifficultyIsPlayed | pong.c:278-302 | a level key followed by a click starts the match with that level's AI settings |

## Left out

- Drawing is left out because it has no effect on the game state: `RenderFrame`, the `Draw*` functions, `ResetStaticScreen`, `RequestFullRedraw`, `graphics.c`, and the `prevState` bookkeeping of `GameLoop`.
- Input polling (`ProcessInput`, `input.c`) is left out; each frame's input is an `Input` value instead.
- Library opening and closing and the error exits of `main` are left out because they are operating-system calls.
- The file I/O of `LoadHighScores` and `SaveHighScores` is left out. `Boot` takes the loaded table as a parameter. The only in-memory effect of a save is that it stamps the magic number, and that effect is modelled.
- 16-bit `WORD` and 32-bit `LONG` wrap-around is not modelled; these are unbounded integers. The exception is the random seed, which is reduced modulo 2^32 exactly. The ball's fields are `LONG` (game.h:27-32), and the invariant keeps them far inside 32 bits. Of the `WORD` fields, the invariant bounds the scores to [0, 11] and the paddle rows to the travel range. `rallies` is a `WORD` with no bound, so its wrap after 32767 hits in one rally is not modelled.
- FixedPoint.TruncDiv: it is defined only for positive divisors, because every division in `game.c` has a positive constant or guarded divisor.
- Game.UpdateAI: `AI_DEAD_ZONE` is defined in none of the files modelled, so the dead zone is a `deadZone` parameter of `MoveToward`, `UpdateAI`, `UpdateGame` and `Frame`.
- `AI_REACTION_DELAY`, `AI_SPEED` and `AI_ERROR_MARGIN` are declared in `game.h` but never used by the code, so they are not modelled.
- HighScore.StrCopy: reading past the end of the source sequence yields NUL, where the C code would read whatever memory follows. The destination must have room for `maxLen` characters and the terminator, as every caller's buffer does.
- Difficulty is a natural number. The C enum is assigned straight from the table's byte, and `InitGame` normalises anything above HARD.
- Session.Frame models one iteration of the loop, and `SessionLemmas.Run` runs it over a finite sequence of inputs. The frame timing of the loop is not modelled.
