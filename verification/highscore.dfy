/** The in-memory high-score table of highscore.c: the bounded string copy, the
    default table, the qualification test, the rank search and the ranked insert.
    Loading and saving the table file is not part of this model; the only
    in-memory effect of the save inside AddHighScore (setting the magic number)
    is kept. */
module HighScore {

  const MAX_HIGHSCORES: int := 5
  const NAME_LENGTH: int := 8
  const HIGHSCORE_MAGIC: int := 0x504F4E47

  const NUL: char := 0 as char

  /** The name every entry of a fresh table shows. */
  const DEFAULT_NAME: string := "--------"

  /** One entry: a NUL-terminated name buffer of NAME_LENGTH + 1 characters and a score. */
  datatype Entry = Entry(name: seq<char>, score: int)

  /** The table, including the difficulty and reserved bytes stored with it. */
  datatype HighScoreTable = HighScoreTable(
    entries: seq<Entry>,
    magic: int,
    difficulty: int,
    reserved: seq<int>)

  /** The shape the C struct guarantees. */
  predicate WellFormed(t: HighScoreTable) {
    && |t.entries| == MAX_HIGHSCORES
    && (forall i :: 0 <= i < |t.entries| ==> |t.entries[i].name| == NAME_LENGTH + 1)
    && 0 <= t.difficulty < 256
    && |t.reserved| == 3
  }

  /** Scores do not increase from rank 0 down to the last rank. */
  predicate Sorted(t: HighScoreTable) {
    forall i, j :: 0 <= i < j < |t.entries| ==> t.entries[i].score >= t.entries[j].score
  }

  // ---------------------------------------------------------------------------
  // C strings

  /** Character i of a C string held in a sequence: past the end of the sequence
      it reads as the terminator. */
  function CharAt(s: seq<char>, i: nat): char {
    if i < |s| then s[i] else NUL
  }

  /** The C string a buffer holds: its characters before the first NUL. */
  function CString(s: seq<char>): seq<char> {
    if |s| == 0 || s[0] == NUL then [] else [s[0]] + CString(s[1..])
  }

  /** At most the first k characters of s. */
  function Prefix(s: seq<char>, k: nat): seq<char> {
    if |s| <= k then s else s[..k]
  }

  /** The index StrCopy's loop stops at, starting from i: the first NUL of src,
      or maxLen, whichever comes first. */
  function CopyFrom(src: seq<char>, maxLen: nat, i: nat): (n: nat)
    requires i <= maxLen && i <= |src|
    requires forall j :: 0 <= j < i ==> src[j] != NUL
    ensures i <= n <= maxLen && n <= |src|
    ensures forall j :: 0 <= j < n ==> src[j] != NUL
    ensures n < maxLen ==> CharAt(src, n) == NUL
    decreases maxLen - i
  {
    if i < maxLen && CharAt(src, i) != NUL then CopyFrom(src, maxLen, i + 1) else i
  }

  function CopyLength(src: seq<char>, maxLen: nat): (n: nat)
    ensures n <= maxLen && n <= |src|
    ensures forall j :: 0 <= j < n ==> src[j] != NUL
    ensures n < maxLen ==> CharAt(src, n) == NUL
  {
    CopyFrom(src, maxLen, 0)
  }

  /** A buffer whose first m characters are not NUL and which ends or has a NUL
      at m holds the C string of those m characters. */
  lemma {:induction false} CStringUpTo(s: seq<char>, m: nat)
    requires m <= |s|
    requires forall j :: 0 <= j < m ==> s[j] != NUL
    requires m < |s| ==> s[m] == NUL
    ensures CString(s) == s[..m]
  {
    if m > 0 {
      CStringUpTo(s[1..], m - 1);
      assert s[..m] == [s[0]] + s[1..][..m - 1];
    }
  }

  /** StrCopy: copies at most maxLen characters of src, stopping at its first NUL,
      writes a terminator at the index reached, and leaves the rest of dest alone.
      dest must have room for maxLen characters and the terminator. */
  function StrCopy(dest: seq<char>, src: seq<char>, maxLen: nat): (r: seq<char>)
    requires maxLen < |dest|
    ensures |r| == |dest|
    ensures CString(r) == Prefix(CString(src), maxLen)
    ensures r[|CString(r)|] == NUL
    ensures forall i :: |CString(r)| < i < |dest| ==> r[i] == dest[i]
  {
    var n := CopyLength(src, maxLen);
    var r := src[..n] + [NUL] + dest[n + 1..];
    CopiedString(src, maxLen, r);
    r
  }

  /** The C string a StrCopy result holds is the source's, cut at maxLen. */
  lemma CopiedString(src: seq<char>, maxLen: nat, r: seq<char>)
    requires CopyLength(src, maxLen) < |r|
    requires r[..CopyLength(src, maxLen) + 1] == src[..CopyLength(src, maxLen)] + [NUL]
    ensures CString(r) == src[..CopyLength(src, maxLen)]
    ensures CString(r) == Prefix(CString(src), maxLen)
  {
    var n := CopyLength(src, maxLen);
    assert r[n] == r[..n + 1][n];
    assert forall j :: 0 <= j < n ==> r[j] == r[..n + 1][j];
    CStringUpTo(r, n);
    assert r[..n] == r[..n + 1][..n];
    if n < maxLen {
      CStringUpTo(src, n);
    } else {
      CStringPrefix(src, maxLen);
    }
  }

  /** The first k characters of the C string of s, when s has no NUL among them. */
  lemma {:induction false} CStringPrefix(s: seq<char>, k: nat)
    requires k <= |s|
    requires forall j :: 0 <= j < k ==> s[j] != NUL
    ensures Prefix(CString(s), k) == s[..k]
  {
    if k > 0 {
      CStringPrefix(s[1..], k - 1);
      assert s[..k] == [s[0]] + s[1..][..k - 1];
    }
  }

  /** The default name fills the whole buffer, so the old contents do not matter. */
  lemma DefaultNameFillsBuffer(dest: seq<char>)
    requires |dest| == NAME_LENGTH + 1
    ensures StrCopy(dest, DEFAULT_NAME, NAME_LENGTH) == DEFAULT_NAME + [NUL]
  {
    var r := StrCopy(dest, DEFAULT_NAME, NAME_LENGTH);
    CStringUpTo(DEFAULT_NAME, 8);
    assert |CString(r)| == 8;
    assert r[..8] == CString(r) by {
      CStringUpTo(r, 8);
    }
    assert r == r[..8] + [r[8]];
  }

  // ---------------------------------------------------------------------------
  // The table

  /** InitHighScores: five entries named "--------" with score 0, the magic number,
      MEDIUM difficulty and zeroed reserved bytes. */
  function InitHighScores(): (t: HighScoreTable)
    ensures WellFormed(t) && Sorted(t)
    ensures forall i :: 0 <= i < |t.entries| ==>
      t.entries[i].score == 0 && CString(t.entries[i].name) == DEFAULT_NAME
    ensures t.magic == HIGHSCORE_MAGIC && t.difficulty == 1 && t.reserved == [0, 0, 0]
  {
    var blank := seq(NAME_LENGTH + 1, _ => NUL);
    var name := StrCopy(blank, DEFAULT_NAME, NAME_LENGTH);
    CStringUpTo(DEFAULT_NAME, 8);
    var e := Entry(name, 0);
    HighScoreTable([e, e, e, e, e], HIGHSCORE_MAGIC, 1, [0, 0, 0])
  }

  /** IsHighScore: the score beats the last entry; on a sorted table, where the last
      entry is the lowest, that is the same as beating any entry at all. */
  predicate IsHighScore(t: HighScoreTable, score: int): (r: bool)
    requires WellFormed(t)
    ensures Sorted(t) ==> (r <==> exists i :: 0 <= i < |t.entries| && score > t.entries[i].score)
  {
    score > t.entries[MAX_HIGHSCORES - 1].score
  }

  /** The scan of GetScoreRank from index i on. */
  function RankFrom(entries: seq<Entry>, score: int, i: nat): (r: int)
    requires i <= |entries|
    ensures r == -1 || i <= r < |entries|
    ensures r >= 0 ==> score > entries[r].score
    ensures forall j :: i <= j < (if r < 0 then |entries| else r) ==> score <= entries[j].score
    decreases |entries| - i
  {
    if i == |entries| then -1
    else if score > entries[i].score then i
    else RankFrom(entries, score, i + 1)
  }

  /** GetScoreRank: the least rank whose score the new score beats, or -1 when it
      beats none. */
  function GetScoreRank(t: HighScoreTable, score: int): (r: int)
    requires WellFormed(t)
    ensures -1 <= r < MAX_HIGHSCORES
    ensures r >= 0 ==> score > t.entries[r].score
    ensures forall j :: 0 <= j < (if r < 0 then MAX_HIGHSCORES else r) ==> score <= t.entries[j].score
  {
    RankFrom(t.entries, score, 0)
  }

  /** The table after an insert, and the rank returned (-1 when nothing was added). */
  datatype Insertion = Insertion(table: HighScoreTable, rank: int)

  /** AddHighScore: when the score ranks, the entries from that rank on move down
      one place (the last one falls off), the name (at most NAME_LENGTH characters)
      and score are written at the rank, and the save stamps the magic number;
      otherwise the table is left as it is and -1 is returned. */
  function AddHighScore(t: HighScoreTable, name: seq<char>, score: int): (r: Insertion)
    requires WellFormed(t)
    ensures r.rank == GetScoreRank(t, score)
    ensures r.rank < 0 ==> r.table == t
    ensures r.rank >= 0 ==>
      && WellFormed(r.table)
      && r.table.entries[..r.rank] == t.entries[..r.rank]
      && r.table.entries[r.rank + 1..] == t.entries[r.rank..MAX_HIGHSCORES - 1]
      && r.table.entries[r.rank].score == score
      && CString(r.table.entries[r.rank].name) == Prefix(CString(name), NAME_LENGTH)
      && r.table == t.(entries := r.table.entries, magic := HIGHSCORE_MAGIC)
  {
    var rank := GetScoreRank(t, score);
    if rank < 0 then Insertion(t, -1)
    else
      var entry := Entry(StrCopy(t.entries[rank].name, name, NAME_LENGTH), score);
      var entries := t.entries[..rank] + [entry] + t.entries[rank..MAX_HIGHSCORES - 1];
      assert entries[rank] == entry;
      assert entries[..rank] == t.entries[..rank];
      assert entries[rank + 1..] == t.entries[rank..MAX_HIGHSCORES - 1];
      Insertion(t.(entries := entries, magic := HIGHSCORE_MAGIC), rank)
  }

  /** The shift loop of AddHighScore, entries[i] = entries[i - 1] for i from the last
      index down to rank + 1, computes the sequence AddHighScore builds. */
  method ShiftDown(entries: seq<Entry>, rank: int) returns (out: seq<Entry>)
    requires 0 <= rank < |entries|
    ensures out == entries[..rank + 1] + entries[rank..|entries| - 1]
  {
    out := entries;
    var i := |entries| - 1;
    while i > rank
      invariant rank <= i < |entries|
      invariant |out| == |entries|
      invariant out[..i + 1] == entries[..i + 1]
      invariant forall k :: i < k < |entries| ==> out[k] == entries[k - 1]
    {
      out := out[i := out[i - 1]];
      i := i - 1;
    }
    assert out[..rank + 1] == entries[..rank + 1];
  }
  /** The shift followed by the writes at the rank (the name copied over the shifted
      entry's buffer, then the score) yields exactly the entries AddHighScore builds. */
  lemma ShiftThenWriteIsInsertion(t: HighScoreTable, name: seq<char>, score: int, shifted: seq<Entry>)
    requires WellFormed(t) && GetScoreRank(t, score) >= 0
    requires var rank := GetScoreRank(t, score);
      shifted == t.entries[..rank + 1] + t.entries[rank..MAX_HIGHSCORES - 1]
    ensures var rank := GetScoreRank(t, score);
      shifted[rank := Entry(StrCopy(shifted[rank].name, name, NAME_LENGTH), score)]
        == AddHighScore(t, name, score).table.entries
  {
    var rank := GetScoreRank(t, score);
    var written := shifted[rank := Entry(StrCopy(shifted[rank].name, name, NAME_LENGTH), score)];
    var added := AddHighScore(t, name, score).table.entries;
    assert shifted[rank] == t.entries[rank];
    assert written[..rank] == t.entries[..rank];
    assert written[rank + 1..] == t.entries[rank..MAX_HIGHSCORES - 1];
    assert written == written[..rank] + [written[rank]] + written[rank + 1..];
    assert added == added[..rank] + [added[rank]] + added[rank + 1..];
  }


  // ---------------------------------------------------------------------------
  // Properties

  /** A score that beats the last entry ranks somewhere; in a sorted table the
      converse holds as well. */
  lemma IsHighScoreIffRanks(t: HighScoreTable, score: int)
    requires WellFormed(t)
    ensures IsHighScore(t, score) ==> GetScoreRank(t, score) >= 0
    ensures Sorted(t) && GetScoreRank(t, score) >= 0 ==> IsHighScore(t, score)
  {
  }

  /** In a sorted table the rank is the insertion point that keeps the order. */
  lemma RankIsInsertionPoint(t: HighScoreTable, score: int)
    requires WellFormed(t) && Sorted(t)
    requires GetScoreRank(t, score) >= 0
    ensures var r := GetScoreRank(t, score);
      && (forall j :: 0 <= j < r ==> t.entries[j].score >= score)
      && (forall j :: r <= j < MAX_HIGHSCORES ==> t.entries[j].score < score)
  {
  }

  /** AddHighScore keeps a sorted table sorted. */
  lemma AddHighScoreKeepsSorted(t: HighScoreTable, name: seq<char>, score: int)
    requires WellFormed(t) && Sorted(t)
    ensures Sorted(AddHighScore(t, name, score).table)
  {
    var r := AddHighScore(t, name, score);
    if r.rank >= 0 {
      var k := r.rank;
      var u := r.table.entries;
      RankIsInsertionPoint(t, score);
      assert forall i :: 0 <= i < k ==> u[i] == t.entries[i];
      assert forall i :: k < i < MAX_HIGHSCORES ==> u[i] == t.entries[i - 1] by {
        forall i | k < i < MAX_HIGHSCORES
          ensures u[i] == t.entries[i - 1]
        {
          assert u[i] == u[k + 1..][i - k - 1];
        }
      }
    }
  }

  /** An insert keeps every entry but the old last one and adds the new one. */
  lemma AddHighScoreDropsLast(t: HighScoreTable, name: seq<char>, score: int)
    requires WellFormed(t)
    requires AddHighScore(t, name, score).rank >= 0
    ensures var r := AddHighScore(t, name, score);
      multiset(r.table.entries) + multiset{t.entries[MAX_HIGHSCORES - 1]}
        == multiset(t.entries) + multiset{r.table.entries[r.rank]}
  {
    var r := AddHighScore(t, name, score);
    var k := r.rank;
    var u := r.table.entries;
    assert u == u[..k] + [u[k]] + u[k + 1..];
    assert t.entries == t.entries[..k] + t.entries[k..MAX_HIGHSCORES - 1] + [t.entries[MAX_HIGHSCORES - 1]];
  }
}
