/** The phase machine of pong.c: what each frame does with the player's input in
    the title, playing, paused, game-over and high-score-entry phases, and the
    name-entry editor. Input polling, drawing and the file I/O of the high-score
    table are outside the model; the input of a frame is an Input value. */
module Session {
  import opened Dimensions
  import opened Lcg
  import opened Game
  import opened HighScore

  /** An unsigned byte (UBYTE), as the input layer reports keys. */
  type Byte = x: int | 0 <= x < 256

  /** What the input layer reports for one frame: the pointer row, whether the
      button was pressed, ESC was pressed, the window's close gadget was used, and
      the last ASCII key (0 when none). */
  datatype Input = Input(mouseY: int, click: bool, esc: bool, close: bool, key: Byte)

  /** The name being typed: a NAME_LENGTH + 1 character buffer and the cursor. */
  datatype NameEntry = NameEntry(buf: seq<char>, pos: int)

  /** Everything pong.c keeps between frames. */
  datatype Session = Session(engine: Engine, table: HighScoreTable, entry: NameEntry, wantQuit: bool)

  /** One iteration of the game loop either stops it or yields the next session. */
  datatype Step = Stopped | Running(next: Session)

  const KEY_BACKSPACE: int := 8
  const KEY_LINEFEED: int := 10
  const KEY_RETURN: int := 13
  const KEY_DELETE: int := 127

  /** An empty name: cursor at 0 and every character NUL. */
  const EMPTY_NAME: NameEntry := NameEntry([NUL, NUL, NUL, NUL, NUL, NUL, NUL, NUL, NUL], 0)

  /** The name buffer's invariant: the cursor is in [0, NAME_LENGTH], the characters
      before it are printable and every character from it on is NUL. */
  predicate ValidName(n: NameEntry) {
    && |n.buf| == NAME_LENGTH + 1
    && 0 <= n.pos <= NAME_LENGTH
    && (forall i :: 0 <= i < n.pos ==> 32 <= n.buf[i] as int < 127)
    && (forall i :: n.pos <= i < |n.buf| ==> n.buf[i] == NUL)
  }

  predicate Printable(key: Byte) {
    32 <= key < 127
  }

  /** The editing keys of the name entry: backspace (8 or 127) removes the last
      character when there is one; a printable key is appended while there is room;
      every other key leaves the name alone. */
  function EditName(n: NameEntry, key: Byte): (r: NameEntry)
    requires ValidName(n)
    ensures ValidName(r)
    ensures (key == KEY_BACKSPACE || key == KEY_DELETE) ==>
      if n.pos > 0 then r.pos == n.pos - 1 && r.buf[..r.pos] == n.buf[..r.pos] else r == n
    ensures key != KEY_BACKSPACE && key != KEY_DELETE && Printable(key) ==>
      if n.pos < NAME_LENGTH then r.pos == n.pos + 1 && r.buf[..n.pos] == n.buf[..n.pos] && r.buf[n.pos] == key as char
      else r == n
    ensures key != KEY_BACKSPACE && key != KEY_DELETE && !Printable(key) ==> r == n
  {
    if key == KEY_BACKSPACE || key == KEY_DELETE then
      if n.pos > 0 then NameEntry(n.buf[n.pos - 1 := NUL], n.pos - 1) else n
    else if Printable(key) && n.pos < NAME_LENGTH then
      NameEntry(n.buf[n.pos := key as char][n.pos + 1 := NUL], n.pos + 1)
    else
      n
  }

  /** The program's start: the zero-initialised context takes the difficulty saved
      with the loaded table, then InitGame runs with the generator's initial seed
      and the initial AI settings. The name buffer starts empty. */
  function Boot(t: HighScoreTable): (s: Session)
    requires WellFormed(t)
    ensures s.engine.ctx.state == Title && !s.wantQuit && s.table == t
    ensures t.difficulty <= HARD ==> s.engine.ctx.difficulty == t.difficulty
    ensures t.difficulty > HARD ==> s.engine.ctx.difficulty == MEDIUM
    ensures s.engine.ai == DifficultySettings[s.engine.ctx.difficulty]
    ensures s.engine.ctx.playerScore == 0 && s.engine.ctx.aiScore == 0 && Served(s.engine.ctx)
    ensures s.engine.ctx.servingPlayer
    ensures s.engine.ctx.playerPaddle == Paddle(SCREEN_HEIGHT / 2, SCREEN_HEIGHT / 2)
    ensures s.engine.ctx.aiPaddle == Paddle(SCREEN_HEIGHT / 2, SCREEN_HEIGHT / 2)
    ensures s.engine.ctx.ball.vy == 2 * (Random(INITIAL_SEED, 256).value - 128)
    ensures s.engine.seed == NextSeed(INITIAL_SEED)
    ensures s.entry == EMPTY_NAME
  {
    var zero := GameContext(Title, Ball(0, 0, 0, 0), Paddle(0, 0), Paddle(0, 0), 0, 0, 0,
                            false, t.difficulty, 0);
    Session(InitGame(Engine(zero, INITIAL_SEED, INITIAL_AI)), t, EMPTY_NAME, false)
  }

  /** A title-screen difficulty key: when the level differs from the current one it
      is recorded in the context and in the table, and the table is saved (which
      stamps the magic number). The AI settings are applied only when the match
      starts. */
  function SelectDifficulty(s: Session, d: nat): (r: Session)
    requires d <= HARD
    ensures r.engine.ctx.difficulty == d
    ensures s.engine.ctx.difficulty != d ==>
      r.table == s.table.(difficulty := d, magic := HIGHSCORE_MAGIC)
    ensures s.engine.ctx.difficulty == d ==> r == s
    ensures r.engine == s.engine.(ctx := s.engine.ctx.(difficulty := d))
    ensures r.entry == s.entry && r.wantQuit == s.wantQuit
  {
    if s.engine.ctx.difficulty != d then
      s.(engine := s.engine.(ctx := s.engine.ctx.(difficulty := d)),
         table := s.table.(difficulty := d, magic := HIGHSCORE_MAGIC))
    else
      s
  }

  /** HandleTitleInput: ESC asks to quit; otherwise a click applies the difficulty
      and starts a match at 0-0 with a fresh serve; otherwise '1', '2' or '3'
      selects EASY, MEDIUM or HARD. */
  function HandleTitleInput(s: Session, input: Input): (r: Session)
    ensures input.esc ==> r == s.(wantQuit := true)
    ensures !input.esc && input.click ==>
      && r.engine.ctx.state == Playing
      && r.engine.ctx.playerScore == 0 && r.engine.ctx.aiScore == 0
      && Served(r.engine.ctx)
      && r.engine.ctx.difficulty <= HARD
      && (s.engine.ctx.difficulty <= HARD ==> r.engine.ctx.difficulty == s.engine.ctx.difficulty)
      && (s.engine.ctx.difficulty > HARD ==> r.engine.ctx.difficulty == MEDIUM)
      && r.engine.ai == DifficultySettings[r.engine.ctx.difficulty]
      && r.engine.ctx.servingPlayer == s.engine.ctx.servingPlayer
      && r.engine.seed == NextSeed(s.engine.seed)
      && r.engine.ctx.ball.vy == 2 * (Random(s.engine.seed, 256).value - 128)
      && r.engine.ctx.playerPaddle == s.engine.ctx.playerPaddle
      && r.engine.ctx.aiPaddle == s.engine.ctx.aiPaddle
      && r.table == s.table && r.entry == s.entry && r.wantQuit == s.wantQuit
    ensures !input.esc && !input.click && '1' as int <= input.key <= '3' as int ==>
      r == SelectDifficulty(s, input.key - '1' as int)
    ensures !input.esc && !input.click && !('1' as int <= input.key <= '3' as int) ==> r == s
  {
    if input.esc then s.(wantQuit := true)
    else if input.click then
      var e1 := SetDifficulty(s.engine, s.engine.ctx.difficulty);
      var e2 := e1.(ctx := e1.ctx.(state := Playing, playerScore := 0, aiScore := 0));
      s.(engine := ResetBall(e2))
    else if input.key == '1' as int then SelectDifficulty(s, EASY)
    else if input.key == '2' as int then SelectDifficulty(s, MEDIUM)
    else if input.key == '3' as int then SelectDifficulty(s, HARD)
    else s
  }

  /** HandlePlayingInput: ESC pauses. */
  function HandlePlayingInput(s: Session, input: Input): (r: Session)
    ensures input.esc ==> r == s.(engine := s.engine.(ctx := s.engine.ctx.(state := Paused)))
    ensures !input.esc ==> r == s
  {
    if input.esc then s.(engine := s.engine.(ctx := s.engine.ctx.(state := Paused))) else s
  }

  /** HandlePausedInput: a click resumes the match as it was; otherwise ESC goes
      back to the title through InitGame. */
  function HandlePausedInput(s: Session, input: Input): (r: Session)
    ensures input.click ==> r == s.(engine := s.engine.(ctx := s.engine.ctx.(state := Playing)))
    ensures !input.click && input.esc ==>
      r == s.(engine := InitGame(s.engine)) && r.engine.ctx.state == Title
    ensures !input.click && !input.esc ==> r == s
  {
    if input.click then s.(engine := s.engine.(ctx := s.engine.ctx.(state := Playing)))
    else if input.esc then s.(engine := InitGame(s.engine.(ctx := s.engine.ctx.(state := Title))))
    else s
  }

  /** HandleGameOverInput: on a click, a player win with a qualifying score opens the
      name entry with an empty name; anything else goes back to the title. */
  function HandleGameOverInput(s: Session, input: Input): (r: Session)
    requires WellFormed(s.table)
    ensures !input.click ==> r == s
    ensures input.click ==>
      (r.engine.ctx.state == HighScoreEntry <==>
         PlayerWon(s.engine.ctx) && IsHighScore(s.table, s.engine.ctx.playerScore))
    ensures input.click && r.engine.ctx.state == HighScoreEntry ==>
      r == s.(engine := s.engine.(ctx := s.engine.ctx.(state := HighScoreEntry)), entry := EMPTY_NAME)
    ensures input.click && r.engine.ctx.state != HighScoreEntry ==>
      r == s.(engine := InitGame(s.engine)) && r.engine.ctx.state == Title
  {
    if !input.click then s
    else if PlayerWon(s.engine.ctx) && IsHighScore(s.table, s.engine.ctx.playerScore) then
      s.(engine := s.engine.(ctx := s.engine.ctx.(state := HighScoreEntry)), entry := EMPTY_NAME)
    else
      s.(engine := InitGame(s.engine.(ctx := s.engine.ctx.(state := Title))))
  }

  /** HandleHighScoreEntry: no key does nothing; Enter (13 or 10) records the name
      and the player's score when the name is not empty and returns to the title;
      the other keys edit the name. */
  function HandleHighScoreEntry(s: Session, input: Input): (r: Session)
    requires WellFormed(s.table) && ValidName(s.entry)
    ensures input.key == 0 ==> r == s
    ensures input.key == KEY_RETURN || input.key == KEY_LINEFEED ==>
      && r.engine == InitGame(s.engine)
      && r.engine.ctx.state == Title
      && r.entry == s.entry && r.wantQuit == s.wantQuit
      && (s.entry.pos > 0 ==> r.table == AddHighScore(s.table, s.entry.buf, s.engine.ctx.playerScore).table)
      && (s.entry.pos == 0 ==> r.table == s.table)
    ensures input.key != 0 && input.key != KEY_RETURN && input.key != KEY_LINEFEED ==>
      r == s.(entry := EditName(s.entry, input.key))
  {
    if input.key == 0 then s
    else if input.key == KEY_RETURN || input.key == KEY_LINEFEED then
      var table := if s.entry.pos > 0 then AddHighScore(s.table, s.entry.buf, s.engine.ctx.playerScore).table
                   else s.table;
      s.(table := table, engine := InitGame(s.engine.(ctx := s.engine.ctx.(state := Title))))
    else
      s.(entry := EditName(s.entry, input.key))
  }

  /** The frame's phase handler; in PLAYING the simulation step runs after the
      handler, so it does nothing on the frame ESC pauses the match. */
  function Dispatch(s: Session, input: Input, deadZone: nat): (r: Session)
    requires WellFormed(s.table) && ValidName(s.entry)
    ensures WellFormed(r.table) && ValidName(r.entry)
    ensures r.wantQuit <==> s.wantQuit || (s.engine.ctx.state == Title && input.esc)
    ensures s.engine.ctx.state != Title && s.engine.ctx.state != HighScoreEntry ==> r.table == s.table
    ensures s.engine.ctx.state == Playing && input.esc ==>
      r.engine == s.engine.(ctx := s.engine.ctx.(state := Paused))
    ensures s.engine.ctx.state == Playing && !input.esc ==>
      r.engine == UpdateGame(s.engine, input.mouseY, deadZone)
    ensures s.engine.ctx.state != Playing && !input.click && !input.esc && input.key == 0 ==> r == s
  {
    match s.engine.ctx.state
    case Title => HandleTitleInput(s, input)
    case Playing =>
      var handled := HandlePlayingInput(s, input);
      handled.(engine := UpdateGame(handled.engine, input.mouseY, deadZone))
    case Paused => HandlePausedInput(s, input)
    case GameOver => HandleGameOverInput(s, input)
    case HighScoreEntry => HandleHighScoreEntry(s, input)
  }

  /** One iteration of GameLoop: the loop ends when the window is closed or a quit
      was requested on an earlier frame; otherwise the phase handler runs. */
  function Frame(s: Session, input: Input, deadZone: nat): (r: Step)
    requires WellFormed(s.table) && ValidName(s.entry)
    ensures r.Stopped? <==> input.close || s.wantQuit
  {
    if input.close || s.wantQuit then Stopped
    else Running(Dispatch(s, input, deadZone))
  }
}
