/** HighscoreManager: the lines of highscores.txt, the score each line
    carries, and the stable descending sort the file is kept in. */
module HighScores {
  import opened JavaInt
  import opened Wrappers
  import opened Text
  import opened StableSort
  import opened Lists

  /** The line addScore writes: username + " - " + score. */
  function FormatLine(username: string, score: int): (line: string)
    ensures |line| > |username| + 3 && line[..|username|] == username
    ensures line[|username|..|username| + 3] == " - "
  {
    username + " - " + IntToString(score)
  }

  /** parseScore: the trimmed integer after the last '-', and 0 when there
      is no '-' or that text is not an int. */
  function ParseScore(line: string): (v: int)
    ensures INT_MIN <= v <= INT_MAX
    ensures '-' !in line ==> v == 0
  {
    var idx := LastIndexOf(line, '-');
    if idx == -1 then 0
    else
      match ParseInt(Trim(line[idx + 1..]))
      case Some(n) => n
      case None => 0
  }

  /** The last '-' of a written line is the separator for a score of zero or
      more, and the sign of a negative score. */
  lemma FormatLineLastDash(username: string, score: int)
    ensures var line := FormatLine(username, score);
            LastIndexOf(line, '-') == if score >= 0 then |username| + 1 else |username| + 3
  {
    var digits := IntToString(score);
    if score >= 0 {
      assert username + " - " + digits == (username + " -") + (" " + digits);
      LastIndexOfAppend(username + " -", " " + digits, '-');
    } else {
      var rest := digits[1..];
      assert digits == "-" + rest;
      assert username + " - " + digits == (username + " - -") + rest;
      LastIndexOfAppend(username + " - -", rest, '-');
    }
  }

  /** parseScore reads back the score addScore wrote: the score itself when
      it is zero or more; for a negative score the last '-' is its sign, so
      the magnitude comes back, and Integer.MIN_VALUE, whose magnitude is
      not an int, reads as 0. */
  lemma ParseScoreFormatLine(username: string, score: int)
    requires INT_MIN <= score <= INT_MAX
    ensures ParseScore(FormatLine(username, score)) ==
            if score >= 0 then score else if score == INT_MIN then 0 else -score
  {
    if score >= 0 {
      ParseScoreNonNegative(username, score);
    } else {
      ParseScoreNegative(username, score);
    }
  }

  lemma ParseScoreNonNegative(username: string, score: int)
    requires 0 <= score <= INT_MAX
    ensures ParseScore(FormatLine(username, score)) == score
  {
    FormatLineSplit(username, score);
  }

  /** A written line with a score of zero or more has its last '-' after
      the username and a blank, and the score after it. */
  lemma FormatLineSplit(username: string, score: int)
    requires 0 <= score <= INT_MAX
    ensures var line := FormatLine(username, score);
            LastIndexOf(line, '-') == |username| + 1 &&
            ParseInt(Trim(line[|username| + 2..])) == Some(score)
  {
    var line := FormatLine(username, score);
    var digits := IntToString(score);
    FormatLineLastDash(username, score);
    var suffix := line[|username| + 2..];
    assert suffix == " " + digits;
    TrimLeading(' ', digits);
    TrimUntrimmed(digits);
    assert Trim(suffix) == digits;
    ParseIntToString(score);
  }

  lemma ParseScoreNegative(username: string, score: int)
    requires INT_MIN <= score < 0
    ensures ParseScore(FormatLine(username, score)) == if score == INT_MIN then 0 else -score
  {
    var line := FormatLine(username, score);
    var digits := IntToString(score);
    FormatLineLastDash(username, score);
    assert line[|username| + 4..] == digits[1..];
    TrimUntrimmed(digits[1..]);
    ParseIntDropsSign(score);
  }

  /** A score written in another script's digits reads as Java reads it:
      the line "ABC - " followed by a fullwidth five carries 5. */
  lemma ParseScoreOtherScripts()
    ensures ParseScore("ABC - \U{FF15}") == 5
  {
    var line := "ABC - \U{FF15}";
    var idx := FullwidthLineDash();
    assert line[idx + 1..] == " \U{FF15}";
    FullwidthSuffix();
  }

  /** The last '-' of that line is its separator. */
  lemma FullwidthLineDash() returns (idx: int)
    ensures idx == 4 && LastIndexOf("ABC - \U{FF15}", '-') == idx
  {
    LastIndexOfAppend("ABC -", " \U{FF15}", '-');
    assert "ABC - \U{FF15}" == "ABC -" + " \U{FF15}";
    idx := 4;
  }

  /** The text after it trims to the fullwidth five, which reads as 5. */
  lemma FullwidthSuffix()
    ensures ParseInt(Trim(" \U{FF15}")) == Some(5)
  {
    assert " \U{FF15}" == [' '] + "\U{FF15}";
    TrimLeading(' ', "\U{FF15}");
    TrimUntrimmed("\U{FF15}");
    ParseIntOtherScripts();
  }

  // ------------------------------------------------------------ the file

  /** A line sortScores keeps. */
  predicate NotBlank(line: string)
  {
    !IsBlank(line)
  }

  /** The lines sortScores keeps: those that are not blank, in file order. */
  function NonBlank(lines: seq<string>): seq<string>
  {
    Filter(NotBlank, lines)
  }

  /** What sortScores writes has no blank line and is sorted, so a second
      sortScores leaves the file as the first one wrote it. */
  lemma SortScoresTwice(lines: seq<string>)
    ensures var once := SortDesc(ParseScore, NonBlank(lines));
            SortDesc(ParseScore, NonBlank(once)) == once
  {
    var kept := NonBlank(lines);
    var once := SortDesc(ParseScore, kept);
    forall i | 0 <= i < |once|
      ensures !IsBlank(once[i])
    {
      assert once[i] in multiset(once);
      FilterCounts(NotBlank, lines, once[i]);
    }
    FilterIdentity(NotBlank, once);
    SortDescSorted(ParseScore, kept);
    SortDescSortedIdentity(ParseScore, once);
  }

  /** addScore's line is in the file afterwards. */
  lemma AddScoreKeepsLine(lines: seq<string>, username: string, score: int)
    ensures FormatLine(username, score) in SortDesc(ParseScore, NonBlank(lines + [FormatLine(username, score)]))
  {
    var line := FormatLine(username, score);
    FormatLineNotBlank(username, score);
    var all := lines + [line];
    assert all[|lines|] == line;
    assert multiset(all)[line] > 0;
    FilterCounts(NotBlank, all, line);
    assert multiset(SortDesc(ParseScore, NonBlank(all)))[line] > 0;
  }

  /** highscores.txt: whether it exists, and its lines (none when it does not). */
  class ScoreFile {
    var present: bool
    var lines: seq<string>

    ghost predicate Valid()
      reads this
    {
      !present ==> lines == []
    }

    constructor (present: bool, lines: seq<string>)
      requires present || lines == []
      ensures Valid() && this.present == present && this.lines == lines
    {
      this.present := present;
      this.lines := lines;
    }

    /** The reading loop of sortScores: blank lines are dropped. */
    static method ReadNonBlank(file: seq<string>) returns (kept: seq<string>)
      ensures kept == NonBlank(file)
    {
      kept := [];
      for i := 0 to |file|
        invariant kept == NonBlank(file[..i])
      {
        assert file[..i + 1][..i] == file[..i];
        if !IsBlank(file[i]) {
          kept := kept + [file[i]];
        }
      }
      assert file[..|file|] == file;
    }

    /** sortScores: nothing happens to a missing file; otherwise the file is
        rewritten with its non-blank lines, highest score first. */
    method SortScores()
      requires Valid()
      modifies this`lines
      ensures Valid()
      ensures !present ==> lines == old(lines)
      ensures present ==> lines == SortDesc(ParseScore, NonBlank(old(lines)))
    {
      if !present {
        return;
      }
      var kept := ReadNonBlank(lines);
      lines := SortDesc(ParseScore, kept);
    }

    /** addScore: the line username + " - " + score is appended, which
        creates a missing file, and the file is sorted. */
    method AddScore(username: string, score: int)
      requires Valid()
      modifies this`present, this`lines
      ensures Valid() && present
      ensures lines == SortDesc(ParseScore, NonBlank(old(lines) + [FormatLine(username, score)]))
    {
      present := true;
      lines := lines + [FormatLine(username, score)];
      SortScores();
    }
  }

  /** A written line starts with the username and a blank. */
  lemma FormatLineHead(username: string, score: int)
    ensures FormatLine(username, score)[..|username| + 1] == username + [' ']
  {
    var line := FormatLine(username, score);
    assert line[..|username| + 1] == line[..|username|] + [line[|username|]];
  }

  /** A written line is never blank, so it survives the next sort. */
  lemma FormatLineNotBlank(username: string, score: int)
    ensures !IsBlank(FormatLine(username, score))
  {
    var line := FormatLine(username, score);
    assert line[|username| + 1] == '-';
  }
}
