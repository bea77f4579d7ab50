/** The java.lang.String and Integer operations the score files rely on:
    isBlank, trim, lastIndexOf, Integer.parseInt and Integer.toString. */
module Text {
  import opened JavaInt
  import opened Wrappers

  /** Character.isWhitespace: space, the controls U+0009..U+000D and
      U+001C..U+001F, and the Unicode space, line and paragraph separators
      other than the no-break spaces. */
  predicate IsWhitespace(c: char)
  {
    c == ' ' || '\t' <= c <= '\r' || '\U{1C}' <= c <= '\U{1F}' ||
    c == '\U{1680}' || '\U{2000}' <= c <= '\U{2006}' || '\U{2008}' <= c <= '\U{200A}' ||
    c == '\U{2028}' || c == '\U{2029}' || c == '\U{205F}' || c == '\U{3000}'
  }

  /** String.isBlank: empty or whitespace only. */
  predicate IsBlank(s: string)
  {
    forall i :: 0 <= i < |s| ==> IsWhitespace(s[i])
  }

  /** String.trim cuts every character up to U+0020 from both ends. */
  predicate Trimmed(c: char)
  {
    c <= ' '
  }

  function TrimStart(s: string): (r: string)
    ensures |r| <= |s| && r == s[|s| - |r|..]
    ensures |r| > 0 ==> !Trimmed(r[0])
    ensures forall i :: 0 <= i < |s| - |r| ==> Trimmed(s[i])
  {
    if |s| > 0 && Trimmed(s[0]) then TrimStart(s[1..]) else s
  }

  function TrimEnd(s: string): (r: string)
    ensures |r| <= |s| && r == s[..|r|]
    ensures |r| > 0 ==> !Trimmed(r[|r| - 1])
    ensures forall i :: |r| <= i < |s| ==> Trimmed(s[i])
  {
    if |s| > 0 && Trimmed(s[|s| - 1]) then TrimEnd(s[..|s| - 1]) else s
  }

  /** String.trim */
  function Trim(s: string): (r: string)
    ensures |r| > 0 ==> !Trimmed(r[0]) && !Trimmed(r[|r| - 1])
  {
    TrimEnd(TrimStart(s))
  }

  /** Trimming a string without trimmable ends changes nothing. */
  lemma TrimUntrimmed(s: string)
    requires |s| > 0 && !Trimmed(s[0]) && !Trimmed(s[|s| - 1])
    ensures Trim(s) == s
  {
  }

  /** A trimmable character in front changes nothing of the trim. */
  lemma TrimLeading(c: char, s: string)
    requires Trimmed(c)
    ensures Trim([c] + s) == Trim(s)
  {
    assert ([c] + s)[1..] == s;
  }

  /** Text after a string that keeps something once its front is trimmed
      survives the front trim whole. */
  lemma {:induction false} TrimStartAppend(s: string, t: string)
    ensures TrimStart(s + t) == if |TrimStart(s)| > 0 then TrimStart(s) + t else TrimStart(t)
  {
    if |s| > 0 {
      assert (s + t)[0] == s[0];
      if Trimmed(s[0]) {
        assert (s + t)[1..] == s[1..] + t;
        TrimStartAppend(s[1..], t);
      }
    } else {
      assert s + t == t;
    }
  }

  /** A trimmable character at the back changes nothing of the trim. */
  lemma TrimTrailing(s: string, c: char)
    requires Trimmed(c)
    ensures Trim(s + [c]) == Trim(s)
  {
    TrimStartAppend(s, [c]);
    var u := TrimStart(s);
    if |u| > 0 {
      assert (u + [c])[..|u + [c]| - 1] == u;
    }
  }

  /** String.lastIndexOf(c): the last position holding c, or -1. */
  function LastIndexOf(s: string, c: char): (k: int)
    ensures -1 <= k < |s|
    ensures k >= 0 ==> s[k] == c
    ensures forall i :: k < i < |s| ==> s[i] != c
  {
    if |s| == 0 then -1
    else if s[|s| - 1] == c then |s| - 1
    else LastIndexOf(s[..|s| - 1], c)
  }

  /** A search that finds nothing in the tail finds the head's last match. */
  lemma {:induction false} LastIndexOfAppend(s: string, t: string, c: char)
    requires c !in t
    ensures LastIndexOf(s + t, c) == LastIndexOf(s, c)
    decreases |t|
  {
    if |t| > 0 {
      assert (s + t)[..|s + t| - 1] == s + t[..|t| - 1];
      LastIndexOfAppend(s, t[..|t| - 1], c);
    } else {
      assert s + t == s;
    }
  }

  /** Code point n is one of the ten digits from zero. */
  predicate InBlock(n: int, zero: int)
  {
    zero <= n <= zero + 9
  }

  /** The zero of the block of ten decimal digits (Unicode category Nd)
      holding code point n, or -1.  The blocks are those of the Basic
      Multilingual Plane, in order: ASCII, Arabic-Indic, Extended
      Arabic-Indic, NKo, Devanagari, Bengali, Gurmukhi, Gujarati, Oriya,
      Tamil, Telugu, Kannada, Malayalam, Sinhala Lith, Thai, Lao, Tibetan,
      Myanmar, Myanmar Shan, Khmer, Mongolian, Limbu, New Tai Lue, Tai Tham
      Hora, Tai Tham Tham, Balinese, Sundanese, Lepcha, Ol Chiki, Vai,
      Saurashtra, Kayah Li, Javanese, Myanmar Tai Laing, Cham, Meetei Mayek
      and Fullwidth.  A Java char outside the plane is one half of a
      surrogate pair, which is never a digit. */
  function DigitZero(n: int): (z: int)
    ensures z == -1 || InBlock(n, z)
  {
    if InBlock(n, 0x0030) then 0x0030
    else if InBlock(n, 0x0660) then 0x0660
    else if InBlock(n, 0x06F0) then 0x06F0
    else if InBlock(n, 0x07C0) then 0x07C0
    else if InBlock(n, 0x0966) then 0x0966
    else if InBlock(n, 0x09E6) then 0x09E6
    else if InBlock(n, 0x0A66) then 0x0A66
    else if InBlock(n, 0x0AE6) then 0x0AE6
    else if InBlock(n, 0x0B66) then 0x0B66
    else if InBlock(n, 0x0BE6) then 0x0BE6
    else if InBlock(n, 0x0C66) then 0x0C66
    else if InBlock(n, 0x0CE6) then 0x0CE6
    else if InBlock(n, 0x0D66) then 0x0D66
    else if InBlock(n, 0x0DE6) then 0x0DE6
    else if InBlock(n, 0x0E50) then 0x0E50
    else if InBlock(n, 0x0ED0) then 0x0ED0
    else if InBlock(n, 0x0F20) then 0x0F20
    else if InBlock(n, 0x1040) then 0x1040
    else if InBlock(n, 0x1090) then 0x1090
    else if InBlock(n, 0x17E0) then 0x17E0
    else if InBlock(n, 0x1810) then 0x1810
    else if InBlock(n, 0x1946) then 0x1946
    else if InBlock(n, 0x19D0) then 0x19D0
    else if InBlock(n, 0x1A80) then 0x1A80
    else if InBlock(n, 0x1A90) then 0x1A90
    else if InBlock(n, 0x1B50) then 0x1B50
    else if InBlock(n, 0x1BB0) then 0x1BB0
    else if InBlock(n, 0x1C40) then 0x1C40
    else if InBlock(n, 0x1C50) then 0x1C50
    else if InBlock(n, 0xA620) then 0xA620
    else if InBlock(n, 0xA8D0) then 0xA8D0
    else if InBlock(n, 0xA900) then 0xA900
    else if InBlock(n, 0xA9D0) then 0xA9D0
    else if InBlock(n, 0xA9F0) then 0xA9F0
    else if InBlock(n, 0xAA50) then 0xAA50
    else if InBlock(n, 0xABF0) then 0xABF0
    else if InBlock(n, 0xFF10) then 0xFF10
    else -1
  }

  /** Character.digit(c, 10): the value of a decimal digit of any script,
      -1 for every other character. */
  function DigitValue(c: char): (d: int)
    ensures -1 <= d <= 9
    ensures '0' <= c <= '9' ==> d == c as int - '0' as int
  {
    var z := DigitZero(c as int);
    if z < 0 then -1 else c as int - z
  }

  predicate IsDigit(c: char)
  {
    DigitValue(c) >= 0
  }

  /** The value of a string of decimal digits. */
  function DigitsValue(s: string): (v: nat)
    requires forall i :: 0 <= i < |s| ==> IsDigit(s[i])
  {
    if |s| == 0 then 0
    else
      assert IsDigit(s[|s| - 1]);
      10 * DigitsValue(s[..|s| - 1]) + DigitValue(s[|s| - 1])
  }

  /** Integer.parseInt: an optional sign and at least one decimal digit of
      any script, whose value fits in 32 bits; anything else is a
      NumberFormatException. */
  function ParseInt(s: string): (r: Option<int>)
    ensures r.Some? ==> INT_MIN <= r.value <= INT_MAX
    ensures r.Some? ==> |s| > 0 && (IsDigit(s[0]) || s[0] == '-' || s[0] == '+')
  {
    var neg := |s| > 0 && s[0] == '-';
    var body := if |s| > 0 && (s[0] == '-' || s[0] == '+') then s[1..] else s;
    if |body| == 0 || exists i :: 0 <= i < |body| && !IsDigit(body[i]) then None
    else
      var v: int := DigitsValue(body);
      if neg && -v >= INT_MIN then Some(-v)
      else if !neg && v <= INT_MAX then Some(v)
      else None
  }

  /** Digits of other scripts read as Java reads them: a fullwidth five,
      and a negative Arabic-Indic fifty. */
  lemma ParseIntOtherScripts()
    ensures ParseInt("\U{FF15}") == Some(5)
    ensures ParseInt("-\U{0665}\U{0660}") == Some(-50)
  {
    var five := "\U{FF15}";
    assert DigitValue(five[0]) == 5;
    assert DigitsValue(five[..0]) == 0;
    assert DigitsValue(five) == 5;
    assert five[0] != '-' && five[0] != '+';
    var fifty := "\U{0665}\U{0660}";
    assert fifty[..1] == "\U{0665}";
    assert DigitsValue(fifty) == 50;
  }

  /** The decimal digits of n, without sign or leading zeros. */
  function NatDigits(n: nat): (s: string)
    ensures |s| > 0 && forall i :: 0 <= i < |s| ==> IsDigit(s[i])
    ensures DigitsValue(s) == n
  {
    if n < 10 then ['0' + n as char]
    else
      var s := NatDigits(n / 10) + ['0' + (n % 10) as char];
      assert s[..|s| - 1] == NatDigits(n / 10);
      s
  }

  /** Integer.toString */
  function IntToString(n: int): (s: string)
    ensures |s| > 0 && !Trimmed(s[0]) && !Trimmed(s[|s| - 1])
    ensures n >= 0 ==> '-' !in s
    ensures n < 0 ==> s[0] == '-' && '-' !in s[1..]
  {
    if n >= 0 then NatDigits(n) else "-" + NatDigits(-n)
  }

  /** Integer.parseInt reads back what Integer.toString writes. */
  lemma ParseIntToString(n: int)
    requires INT_MIN <= n <= INT_MAX
    ensures ParseInt(IntToString(n)) == Some(n)
  {
    var s := IntToString(n);
    if n < 0 {
      assert s[1..] == NatDigits(-n);
    }
  }

  /** The digits of a negative number read without its sign. */
  lemma ParseIntDropsSign(n: int)
    requires n < 0
    ensures ParseInt(IntToString(n)[1..]) == if -n <= INT_MAX then Some(-n) else None
  {
    assert IntToString(n)[1..] == NatDigits(-n);
  }
}
