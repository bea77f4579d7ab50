/** LeaderboardPanel: the entries read back from highscores.txt, the scroll
    offset and the window of entries that is painted. */
module Leaderboard {
  import opened Wrappers
  import opened KeyEvents
  import opened Geometry
  import opened Text
  import opened StableSort
  import opened HighScores

  /** Entries visible at once. */
  const VISIBLE_LINES := 7

  /** A parsed line of the file. */
  datatype ScoreEntry = ScoreEntry(username: string, score: int)

  /** The furthest the list scrolls down for n entries. */
  function MaxScroll(n: int): int
  {
    Max(0, n - VISIBLE_LINES)
  }

  /** One line of loadScores: blank lines, lines without '-' and lines whose
      text after the last '-' is not an int are skipped; otherwise the
      entry is the trimmed text before that '-' and the int after it. The
      score is the one parseScore reads, and a line is skipped only when
      parseScore reads it as 0. */
  function ParseEntry(line: string): (r: Option<ScoreEntry>)
    ensures r.Some? ==> !IsBlank(line) && r.value.score == ParseScore(line)
    ensures r.None? ==> ParseScore(line) == 0
  {
    if IsBlank(line) then
      assert '-' !in line by {
        forall i | 0 <= i < |line| ensures line[i] != '-' {
          assert IsWhitespace(line[i]);
        }
      }
      None
    else
      var idx := LastIndexOf(line, '-');
      if idx == -1 then None
      else
        match ParseInt(Trim(line[idx + 1..]))
        case Some(n) => Some(ScoreEntry(Trim(line[..idx]), n))
        case None => None
  }

  /** A line addScore writes with a score of zero or more reads back as the
      trimmed username and that score. */
  lemma ParseEntryFormatLine(username: string, score: int)
    requires 0 <= score <= JavaInt.INT_MAX
    ensures ParseEntry(FormatLine(username, score)) == Some(ScoreEntry(Trim(username), score))
  {
    var line := FormatLine(username, score);
    FormatLineNotBlank(username, score);
    FormatLineSplit(username, score);
    FormatLineHead(username, score);
    TrimTrailing(username, ' ');
    var idx := LastIndexOf(line, '-');
    assert ParseInt(Trim(line[idx + 1..])) == Some(score);
    assert Trim(line[..idx]) == Trim(username);
  }

  /** The entry of one line, as a list of none or one. */
  function EntryOf(line: string): (t: seq<ScoreEntry>)
    ensures |t| <= 1
    ensures forall i :: 0 <= i < |t| ==> t[i].score == ParseScore(line)
  {
    match ParseEntry(line)
    case Some(e) => [e]
    case None => []
  }

  /** The entries of the lines, in file order. */
  function ParsedEntries(lines: seq<string>): (es: seq<ScoreEntry>)
    ensures |es| <= |lines|
  {
    if |lines| == 0 then []
    else ParsedEntries(lines[..|lines| - 1]) + EntryOf(lines[|lines| - 1])
  }

  /** Every score is at most the one before it. */
  predicate EntriesDesc(es: seq<ScoreEntry>)
  {
    forall i, j :: 0 <= i < j < |es| ==> es[i].score >= es[j].score
  }

  /** A non-increasing list followed by entries no higher than any of it
      and themselves non-increasing is non-increasing. */
  lemma AppendDesc(es: seq<ScoreEntry>, t: seq<ScoreEntry>)
    requires EntriesDesc(es) && |t| <= 1
    requires forall i, j :: 0 <= i < |es| && 0 <= j < |t| ==> es[i].score >= t[j].score
    ensures EntriesDesc(es + t)
  {
  }

  /** Entries of lines that all parse to at least b have scores of at least b. */
  lemma {:induction false} ParsedEntriesAtLeast(lines: seq<string>, b: int)
    requires forall i :: 0 <= i < |lines| ==> ParseScore(lines[i]) >= b
    ensures forall i :: 0 <= i < |ParsedEntries(lines)| ==> ParsedEntries(lines)[i].score >= b
  {
    if |lines| > 0 {
      var init := lines[..|lines| - 1];
      ParsedEntriesAtLeast(init, b);
      var es := ParsedEntries(init);
      var t := EntryOf(lines[|lines| - 1]);
      assert ParsedEntries(lines) == es + t;
      assert forall i :: 0 <= i < |t| ==> t[i].score >= b;
    }
  }

  /** The lines of a sorted file give entries with non-increasing scores. */
  lemma {:induction false} ParsedEntriesDesc(lines: seq<string>)
    requires SortedDesc(ParseScore, lines)
    ensures EntriesDesc(ParsedEntries(lines))
  {
    if |lines| > 0 {
      var init := lines[..|lines| - 1];
      var last := lines[|lines| - 1];
      assert SortedDesc(ParseScore, init);
      ParsedEntriesDesc(init);
      assert forall i :: 0 <= i < |init| ==> ParseScore(init[i]) >= ParseScore(last);
      ParsedEntriesAtLeast(init, ParseScore(last));
      var es := ParsedEntries(init);
      var t := EntryOf(last);
      assert ParsedEntries(lines) == es + t;
      AppendDesc(es, t);
    }
  }

  /** scrollOffset after keyPressed: W scrolls up unless at the top, S
      scrolls down unless at MaxScroll(n), other keys do nothing. */
  function Scroll(offset: int, n: int, code: int): (r: int)
    ensures -1 <= r - offset <= 1
    ensures r < offset ==> code == KEY_W && r >= 0
    ensures r > offset ==> code == KEY_S && r <= MaxScroll(n)
  {
    if code == KEY_W && offset > 0 then offset - 1
    else if code == KEY_S && offset < MaxScroll(n) then offset + 1
    else offset
  }

  /** S then W comes back to where it was, unless S was at the bottom. */
  lemma ScrollDownUp(offset: int, n: int)
    requires 0 <= offset < MaxScroll(n)
    ensures Scroll(Scroll(offset, n, KEY_S), n, KEY_W) == offset
  {
  }

  /** W then S comes back to where it was, unless W was at the top. */
  lemma ScrollUpDown(offset: int, n: int)
    requires 0 < offset <= MaxScroll(n)
    ensures Scroll(Scroll(offset, n, KEY_W), n, KEY_S) == offset
  {
  }

  class LeaderboardPanel {
    var scores: seq<ScoreEntry>
    var scrollOffset: int

    /** The offset is never negative and, while there are entries, never
        past the last full window. */
    ghost predicate Valid()
      reads this
    {
      0 <= scrollOffset && (|scores| > 0 ==> scrollOffset <= MaxScroll(|scores|))
    }

    /** The panel loads the scores when it is made. */
    constructor (file: ScoreFile)
      requires file.Valid()
      modifies file`lines
      ensures Valid() && file.Valid()
      ensures file.present ==> file.lines == SortDesc(ParseScore, NonBlank(old(file.lines)))
      ensures scores == if file.present then ParsedEntries(file.lines) else []
      ensures scrollOffset == 0
    {
      scores := [];
      scrollOffset := 0;
      new;
      LoadScores(file);
    }

    /** The reading loop of loadScores. */
    static method ReadEntries(lines: seq<string>) returns (entries: seq<ScoreEntry>)
      ensures entries == ParsedEntries(lines)
    {
      entries := [];
      for i := 0 to |lines|
        invariant entries == ParsedEntries(lines[..i])
      {
        assert lines[..i + 1][..i] == lines[..i];
        match ParseEntry(lines[i]) {
          case Some(e) => entries := entries + [e];
          case None =>
        }
      }
      assert lines[..|lines|] == lines;
    }

    /** loadScores: the file is sorted first; a missing file leaves no
        entries and the offset as it was; otherwise the entries are parsed
        in the sorted order, so they come highest score first, and the
        offset is clamped to the last full window. */
    method LoadScores(file: ScoreFile)
      requires Valid() && file.Valid()
      modifies this, file`lines
      ensures Valid() && file.Valid()
      ensures file.present ==> file.lines == SortDesc(ParseScore, NonBlank(old(file.lines)))
      ensures scores == if file.present then ParsedEntries(file.lines) else []
      ensures EntriesDesc(scores)
      ensures scrollOffset == if file.present then Min(old(scrollOffset), MaxScroll(|scores|))
                              else old(scrollOffset)
    {
      file.SortScores();
      scores := [];
      if !file.present {
        return;
      }
      SortDescSorted(ParseScore, NonBlank(old(file.lines)));
      ParsedEntriesDesc(file.lines);
      var entries := ReadEntries(file.lines);
      scores := entries;
      scrollOffset := Min(scrollOffset, MaxScroll(|scores|));
    }

    /** keyPressed: W and S scroll by one within the bounds. */
    method KeyPressed(code: int)
      requires Valid()
      modifies this`scrollOffset
      ensures Valid()
      ensures scrollOffset == Scroll(old(scrollOffset), |scores|, code)
    {
      if code == KEY_W && scrollOffset > 0 {
        scrollOffset := scrollOffset - 1;
      } else if code == KEY_S && scrollOffset < MaxScroll(|scores|) {
        scrollOffset := scrollOffset + 1;
      }
    }

    /** The entries paintComponent draws, top to bottom: min(7, n) of them
        from scrollOffset on, every index below n. */
    method VisibleEntries() returns (shown: seq<ScoreEntry>)
      requires Valid()
      ensures |shown| == Min(VISIBLE_LINES, |scores|)
      ensures forall i :: 0 <= i < |shown| ==>
                scrollOffset + i < |scores| && shown[i] == scores[scrollOffset + i]
    {
      var visible := Min(VISIBLE_LINES, |scores|);
      shown := [];
      for i := 0 to visible
        invariant |shown| == i
        invariant forall k :: 0 <= k < i ==> shown[k] == scores[scrollOffset + k]
      {
        shown := shown + [scores[scrollOffset + i]];
      }
    }
  }
}
