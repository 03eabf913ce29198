/** Properties of the pong.c phase machine over whole frames. */
module SessionLemmas {
  import opened FixedPoint
  import opened Lcg
  import opened Game
  import opened GameLemmas
  import opened HighScore
  import opened Session

  /** What holds between frames: the engine invariant, a well-formed table, a valid
      name buffer, and, while a name is being typed, a score that still qualifies. */
  predicate SessionInv(s: Session) {
    && Inv(s.engine)
    && WellFormed(s.table)
    && ValidName(s.entry)
    && (s.engine.ctx.state == HighScoreEntry ==> IsHighScore(s.table, s.engine.ctx.playerScore))
  }

  /** The start of the program establishes the invariant for any loaded table. */
  lemma BootEstablishesInv(t: HighScoreTable)
    requires WellFormed(t)
    ensures SessionInv(Boot(t))
  {
    var s := Boot(t);
    InitGameEstablishesInv(Engine(GameContext(Title, Ball(0, 0, 0, 0), Paddle(0, 0), Paddle(0, 0),
                                              0, 0, 0, false, t.difficulty, 0),
                                  INITIAL_SEED, INITIAL_AI));
  }

  /** Every frame that does not stop the loop keeps the invariant. */
  lemma {:induction false} FrameKeepsInv(s: Session, input: Input, deadZone: nat)
    requires SessionInv(s)
    ensures Frame(s, input, deadZone).Running? ==> SessionInv(Frame(s, input, deadZone).next)
  {
    if !input.close && !s.wantQuit {
      var n := Frame(s, input, deadZone).next;
      match s.engine.ctx.state
      case Title =>
        if !input.esc && input.click {
          var e1 := SetDifficulty(s.engine, s.engine.ctx.difficulty);
          var e2 := e1.(ctx := e1.ctx.(state := Playing, playerScore := 0, aiScore := 0));
          ServedBallInRange(ResetBall(e2).ctx);
        }
      case Playing =>
        var handled := HandlePlayingInput(s, input);
        UpdateGameKeepsInv(handled.engine, input.mouseY, deadZone);
      case Paused =>
        if !input.click && input.esc {
          InitGameEstablishesInv(s.engine.(ctx := s.engine.ctx.(state := Title)));
        }
      case GameOver =>
        if input.click && n.engine.ctx.state != HighScoreEntry {
          InitGameEstablishesInv(s.engine.(ctx := s.engine.ctx.(state := Title)));
        }
      case HighScoreEntry =>
        if input.key == KEY_RETURN || input.key == KEY_LINEFEED {
          InitGameEstablishesInv(s.engine.(ctx := s.engine.ctx.(state := Title)));
        }
    }
  }

  /** A table that is in score order stays so, frame after frame. */
  lemma FrameKeepsSorted(s: Session, input: Input, deadZone: nat)
    requires SessionInv(s) && Sorted(s.table)
    ensures Frame(s, input, deadZone).Running? ==> Sorted(Frame(s, input, deadZone).next.table)
  {
    if !input.close && !s.wantQuit && s.engine.ctx.state == HighScoreEntry && s.entry.pos > 0 {
      AddHighScoreKeepsSorted(s.table, s.entry.buf, s.engine.ctx.playerScore);
    }
  }

  /** ESC during a match pauses it on the same frame, and the simulation step of that
      frame does nothing: ball, paddles, scores and seed are as they were. */
  lemma EscapePausesWithoutStep(s: Session, input: Input, deadZone: nat)
    requires WellFormed(s.table) && ValidName(s.entry)
    requires s.engine.ctx.state == Playing && input.esc && !input.close && !s.wantQuit
    ensures Frame(s, input, deadZone) == Running(s.(engine := s.engine.(ctx := s.engine.ctx.(state := Paused))))
  {
  }

  /** Without ESC, a frame of the match is exactly one simulation step. */
  lemma PlayingFrameIsOneStep(s: Session, input: Input, deadZone: nat)
    requires WellFormed(s.table) && ValidName(s.entry)
    requires s.engine.ctx.state == Playing && !input.esc && !input.close && !s.wantQuit
    ensures Frame(s, input, deadZone) == Running(s.(engine := UpdateGame(s.engine, input.mouseY, deadZone)))
  {
  }

  /** Pausing and resuming is a round trip: ESC and then a click give back exactly the
      session the match was in. */
  lemma PauseResumeRoundTrip(s: Session, esc: Input, click: Input, deadZone: nat)
    requires WellFormed(s.table) && ValidName(s.entry)
    requires s.engine.ctx.state == Playing && !s.wantQuit
    requires esc.esc && !esc.close
    requires click.click && !click.close
    ensures Frame(s, esc, deadZone).Running?
    ensures Frame(Frame(s, esc, deadZone).next, click, deadZone) == Running(s)
  {
    var p := Frame(s, esc, deadZone).next;
    assert p.engine.ctx.state == Paused;
    assert p.engine.ctx.(state := Playing) == s.engine.ctx;
  }

  /** ESC on the title screen ends the loop at the next frame, whatever its input. */
  lemma EscapeOnTitleQuits(s: Session, esc: Input, next: Input, deadZone: nat)
    requires WellFormed(s.table) && ValidName(s.entry)
    requires s.engine.ctx.state == Title && esc.esc && !esc.close && !s.wantQuit
    ensures Frame(s, esc, deadZone).Running?
    ensures Frame(Frame(s, esc, deadZone).next, next, deadZone) == Stopped
  {
  }

  /** A click on the game-over screen opens the name entry exactly when the player won
      with a score above the table's last entry; the name then starts empty. */
  lemma NameEntryOpensExactlyForQualifyingWins(s: Session, input: Input, deadZone: nat)
    requires SessionInv(s)
    requires s.engine.ctx.state == GameOver && input.click && !input.close && !s.wantQuit
    ensures var n := Frame(s, input, deadZone).next;
      && (n.engine.ctx.state == HighScoreEntry <==>
            s.engine.ctx.playerScore == WINNING_SCORE
            && s.table.entries[MAX_HIGHSCORES - 1].score < WINNING_SCORE)
      && (n.engine.ctx.state == HighScoreEntry ==> n.entry == EMPTY_NAME)
      && (n.engine.ctx.state != HighScoreEntry ==> n.engine.ctx.state == Title)
  {
  }

  /** Once the last entry of the table holds the winning score, no game reaches the
      name entry again. */
  lemma FullTableClosesNameEntry(s: Session, input: Input, deadZone: nat)
    requires SessionInv(s)
    requires s.table.entries[MAX_HIGHSCORES - 1].score >= WINNING_SCORE
    requires !input.close && !s.wantQuit && s.engine.ctx.state != HighScoreEntry
    ensures Frame(s, input, deadZone).next.engine.ctx.state != HighScoreEntry
    ensures Frame(s, input, deadZone).next.table.entries[MAX_HIGHSCORES - 1].score >= WINNING_SCORE
  {
  }

  /** The game loop over a sequence of frame inputs: it runs frames until one stops
      it or the inputs run out, and keeps the session invariant throughout. */
  function Run(s: Session, inputs: seq<Input>, deadZone: nat): (r: Session)
    requires SessionInv(s)
    ensures SessionInv(r)
    decreases |inputs|
  {
    if |inputs| == 0 then s
    else
      FrameKeepsInv(s, inputs[0], deadZone);
      match Frame(s, inputs[0], deadZone)
      case Stopped => s
      case Running(n) => Run(n, inputs[1..], deadZone)
  }

  /** Once the last entry holds the winning score outside name entry, no run of frames
      ever reaches the name entry again, and the table stays full. */
  lemma {:induction false} FullTableClosesNameEntryForever(s: Session, inputs: seq<Input>, deadZone: nat)
    requires SessionInv(s)
    requires s.table.entries[MAX_HIGHSCORES - 1].score >= WINNING_SCORE
    requires s.engine.ctx.state != HighScoreEntry
    ensures Run(s, inputs, deadZone).engine.ctx.state != HighScoreEntry
    ensures Run(s, inputs, deadZone).table.entries[MAX_HIGHSCORES - 1].score >= WINNING_SCORE
    decreases |inputs|
  {
    if |inputs| > 0 && !inputs[0].close && !s.wantQuit {
      FrameKeepsInv(s, inputs[0], deadZone);
      FullTableClosesNameEntry(s, inputs[0], deadZone);
      FullTableClosesNameEntryForever(Frame(s, inputs[0], deadZone).next, inputs[1..], deadZone);
    }
  }

  /** The C string a valid name buffer holds is the characters before the cursor. */
  lemma NameText(n: NameEntry)
    requires ValidName(n)
    ensures CString(n.buf) == n.buf[..n.pos]
  {
    CStringUpTo(n.buf, n.pos);
  }

  /** Typing a printable character and then backspace restores the name. */
  lemma TypeThenBackspace(n: NameEntry, key: Byte)
    requires ValidName(n) && Printable(key) && n.pos < NAME_LENGTH
    ensures EditName(EditName(n, key), KEY_BACKSPACE) == n
  {
    var typed := EditName(n, key);
    assert typed.buf[n.pos := NUL] == n.buf;
  }

  /** Typing appends: the C string grows by the key's character. */
  lemma TypingAppends(n: NameEntry, key: Byte)
    requires ValidName(n) && Printable(key) && n.pos < NAME_LENGTH
    ensures CString(EditName(n, key).buf) == CString(n.buf) + [key as char]
  {
    var typed := EditName(n, key);
    NameText(n);
    NameText(typed);
    assert typed.buf[..typed.pos] == typed.buf[..n.pos] + [typed.buf[n.pos]];
  }

  /** Enter (return or linefeed) with a non-empty name records it: the score (always the winning score)
      goes in at its rank, under the name typed. */
  lemma EnterRecordsTheName(s: Session, input: Input, deadZone: nat)
    requires SessionInv(s)
    requires s.engine.ctx.state == HighScoreEntry && !input.close && !s.wantQuit
    requires (input.key == KEY_RETURN || input.key == KEY_LINEFEED) && s.entry.pos > 0
    ensures var n := Frame(s, input, deadZone).next;
      var rank := GetScoreRank(s.table, WINNING_SCORE);
      && 0 <= rank < MAX_HIGHSCORES
      && n.table.entries[rank].score == WINNING_SCORE
      && CString(n.table.entries[rank].name) == s.entry.buf[..s.entry.pos]
      && n.engine.ctx.state == Title
  {
    IsHighScoreIffRanks(s.table, s.engine.ctx.playerScore);
    NameText(s.entry);
  }

  /** The only score a frame ever adds to the table is the winning score: every entry
      afterwards was already there or scores WINNING_SCORE. */
  lemma OnlyWinsAreRecorded(s: Session, input: Input, deadZone: nat)
    requires SessionInv(s)
    ensures Frame(s, input, deadZone).Running? ==>
      var n := Frame(s, input, deadZone).next;
      forall i :: 0 <= i < |n.table.entries| ==>
        n.table.entries[i] in s.table.entries || n.table.entries[i].score == WINNING_SCORE
  {
    if !input.close && !s.wantQuit && s.engine.ctx.state == HighScoreEntry
       && (input.key == KEY_RETURN || input.key == KEY_LINEFEED) && s.entry.pos > 0 {
      var r := AddHighScore(s.table, s.entry.buf, s.engine.ctx.playerScore);
      IsHighScoreIffRanks(s.table, s.engine.ctx.playerScore);
      var t := r.table.entries;
      forall i | 0 <= i < |t|
        ensures t[i] in s.table.entries || t[i].score == WINNING_SCORE
      {
        if i < r.rank {
          assert t[i] == t[..r.rank][i];
        } else if i > r.rank {
          assert t[i] == t[r.rank + 1..][i - r.rank - 1];
        }
      }
    }
  }

  /** A difficulty key on the title screen followed by a click starts the match with
      that level's AI settings. */
  lemma ChosenDifficultyIsPlayed(s: Session, key: Input, click: Input, deadZone: nat)
    requires SessionInv(s)
    requires s.engine.ctx.state == Title && !s.wantQuit
    requires !key.esc && !key.click && !key.close && '1' as int <= key.key <= '3' as int
    requires click.click && !click.esc && !click.close
    ensures var n := Frame(Frame(s, key, deadZone).next, click, deadZone).next;
      && n.engine.ctx.state == Playing
      && n.engine.ai == DifficultySettings[key.key - '1' as int]
  {
  }
}
