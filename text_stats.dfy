/**
 * `analyzeTextAndEstimateDuration` of lib/utils.ts: the character count without
 * whitespace, the word count (English words plus CJK ideographs), and the
 * spoken duration at 150 English words and 250 CJK characters per minute,
 * rounded to whole seconds and split into minutes and seconds.
 *
 * The source computes the duration in floating point; here it is computed in
 * exact `real` arithmetic, and `Math.round` is `floor(x + 0.5)`. The number of
 * English-word matches of the source's regular expression is an input.
 */
module TextStats {

  /** The characters JavaScript's `\s` matches; none of them is a CJK ideograph or lies beyond U+FFFF. */
  function IsWhitespace(c: char): (b: bool)
    ensures b ==> !IsCjk(c) && c as int <= 0xFFFF
  {
    || c == '\t' || c == '\n' || c == '\U{000B}' || c == '\U{000C}' || c == '\r'
    || c == ' ' || c == '\U{00A0}' || c == '\U{1680}' || ('\U{2000}' <= c <= '\U{200A}')
    || c == '\U{2028}' || c == '\U{2029}' || c == '\U{202F}' || c == '\U{205F}'
    || c == '\U{3000}' || c == '\U{FEFF}'
  }

  /** The class `[一-龥]`. */
  predicate IsCjk(c: char)
  {
    '\U{4E00}' <= c <= '\U{9FA5}'
  }

  /** The number of whitespace characters in the text. */
  function WhitespaceCount(text: string): (n: nat)
    ensures n <= |text|
    ensures n == 0 <==> forall i :: 0 <= i < |text| ==> !IsWhitespace(text[i])
  {
    if text == [] then 0 else (if IsWhitespace(text[0]) then 1 else 0) + WhitespaceCount(text[1..])
  }

  /**
   * `text.replace(/\s+/g, "")`: the text with every whitespace character removed
   * and every other character kept.
   */
  function RemoveWhitespace(text: string): (r: string)
    ensures |r| == |text| - WhitespaceCount(text)
    ensures forall i :: 0 <= i < |r| ==> !IsWhitespace(r[i])
    ensures forall c :: c in r <==> c in text && !IsWhitespace(c)
    ensures (forall i :: 0 <= i < |text| ==> !IsWhitespace(text[i])) ==> r == text
  {
    if text == [] then []
    else
      assert text == [text[0]] + text[1..];
      (if IsWhitespace(text[0]) then [] else [text[0]]) + RemoveWhitespace(text[1..])
  }

  /** `.length` of a string: UTF-16 code units, two for a character beyond U+FFFF. */
  function Utf16Length(s: string): (n: nat)
    ensures |s| <= n <= 2 * |s|
    ensures n == |s| <==> forall i :: 0 <= i < |s| ==> s[i] as int <= 0xFFFF
  {
    if s == [] then 0 else (if s[0] as int > 0xFFFF then 2 else 1) + Utf16Length(s[1..])
  }

  /** The number of matches of `[一-龥]`. */
  function CjkCount(text: string): (n: nat)
    ensures n <= |text|
    ensures n == 0 <==> forall i :: 0 <= i < |text| ==> !IsCjk(text[i])
  {
    if text == [] then 0 else (if IsCjk(text[0]) then 1 else 0) + CjkCount(text[1..])
  }

  datatype Duration = Duration(minutes: int, seconds: int)

  datatype TextAnalysis = TextAnalysis(characterCount: nat, wordCount: nat, totalMinutes: real, duration: Duration)

  const ENGLISH_WORDS_PER_MINUTE: real := 150.0
  const CHINESE_CHARS_PER_MINUTE: real := 250.0

  function TotalMinutes(englishWords: nat, chineseChars: nat): real
  {
    englishWords as real / ENGLISH_WORDS_PER_MINUTE + chineseChars as real / CHINESE_CHARS_PER_MINUTE
  }

  /** `Math.round`: the nearest integer, halves rounded up. */
  function MathRound(x: real): (k: int)
    ensures k as real - 0.5 <= x < k as real + 0.5
  {
    (x + 0.5).Floor
  }

  /** The duration branch of the source: nothing to read, under a second, under a minute, or more. */
  function EstimateDuration(englishWords: nat, chineseChars: nat): (d: Duration)
    ensures d.minutes >= 0 && 0 <= d.seconds < 60
    ensures TotalMinutes(englishWords, chineseChars) > 0.0 ==> d.minutes > 0 || d.seconds > 0
  {
    var totalMinutes := TotalMinutes(englishWords, chineseChars);
    if totalMinutes > 0.0 then
      var totalSecondsRaw := totalMinutes * 60.0;
      var totalSecondsRounded := if totalSecondsRaw < 1.0 && totalSecondsRaw > 0.0 then 1 else MathRound(totalSecondsRaw);
      if totalSecondsRounded >= 60 then Duration(totalSecondsRounded / 60, totalSecondsRounded % 60)
      else Duration(0, totalSecondsRounded)
    else Duration(0, 0)
  }

  /**
   * The rounded total in integers. At the two rates the raw total is
   * (10 * englishWords + 6 * chineseChars) / 25 seconds; a positive total under
   * a second counts as one second.
   */
  function RoundedSeconds(englishWords: nat, chineseChars: nat): nat
  {
    var n := 10 * englishWords + 6 * chineseChars;
    if n == 0 then 0 else if n < 25 then 1 else (2 * n + 25) / 50
  }

  /** `analyzeTextAndEstimateDuration`. */
  function AnalyzeTextAndEstimateDuration(text: string, englishWords: nat): (a: TextAnalysis)
    ensures a.characterCount == Utf16Length(RemoveWhitespace(text))
    ensures CjkCount(text) <= a.characterCount
    ensures a.wordCount == englishWords + CjkCount(text)
    ensures a.duration.minutes * 60 + a.duration.seconds == RoundedSeconds(englishWords, CjkCount(text))
    ensures 0 <= a.duration.seconds < 60
    ensures a.totalMinutes == englishWords as real / 150.0 + CjkCount(text) as real / 250.0
  {
    var chineseChars := CjkCount(text);
    DurationMatchesReference(englishWords, chineseChars);
    CjkWithinCharacterCount(text);
    TextAnalysis(
      Utf16Length(RemoveWhitespace(text)),
      englishWords + chineseChars,
      TotalMinutes(englishWords, chineseChars),
      EstimateDuration(englishWords, chineseChars))
  }

  lemma FloorOfFiftieth(m: int)
    ensures (m as real / 50.0).Floor == m / 50
  {
    var q, r := m / 50, m % 50;
    assert m == q * 50 + r;
    assert m as real / 50.0 == q as real + r as real / 50.0;
  }

  /**
   * The minutes and seconds reported always add up to the rounded total, with
   * fewer than 60 seconds, and minutes stay 0 below a minute.
   */
  lemma DurationMatchesReference(englishWords: nat, chineseChars: nat)
    ensures var d := EstimateDuration(englishWords, chineseChars);
      && d.minutes * 60 + d.seconds == RoundedSeconds(englishWords, chineseChars)
      && 0 <= d.seconds < 60
      && (RoundedSeconds(englishWords, chineseChars) < 60 ==> d.minutes == 0)
  {
    var n := 10 * englishWords + 6 * chineseChars;
    assert TotalMinutes(englishWords, chineseChars) * 60.0 == n as real / 25.0;
    if n >= 25 {
      assert n as real / 25.0 + 0.5 == (2 * n + 25) as real / 50.0;
      FloorOfFiftieth(2 * n + 25);
    }
  }

  /** Nothing to read is exactly the case that reports 0 minutes 0 seconds. */
  lemma ZeroDurationIffNothingToRead(englishWords: nat, chineseChars: nat)
    ensures EstimateDuration(englishWords, chineseChars) == Duration(0, 0) <==> englishWords == 0 && chineseChars == 0
  {
    DurationMatchesReference(englishWords, chineseChars);
  }

  /** Anything under one second of reading is reported as one second. */
  lemma UnderASecondReportsOne(englishWords: nat, chineseChars: nat)
    requires 0 < 10 * englishWords + 6 * chineseChars < 25
    ensures EstimateDuration(englishWords, chineseChars) == Duration(0, 1)
  {
    assert TotalMinutes(englishWords, chineseChars) * 60.0 == (10 * englishWords + 6 * chineseChars) as real / 25.0;
  }

  /** More words never give a shorter estimate. */
  lemma RoundedSecondsMonotone(en1: nat, zh1: nat, en2: nat, zh2: nat)
    requires en1 <= en2 && zh1 <= zh2
    ensures RoundedSeconds(en1, zh1) <= RoundedSeconds(en2, zh2)
  {
    var n1, n2 := 10 * en1 + 6 * zh1, 10 * en2 + 6 * zh2;
    assert n1 <= n2;
    if n1 >= 25 {
      assert (2 * n1 + 25) / 50 <= (2 * n2 + 25) / 50;
    }
  }

  /** Removing whitespace distributes over concatenation. */
  lemma {:induction false} RemoveWhitespaceConcat(a: string, b: string)
    ensures RemoveWhitespace(a + b) == RemoveWhitespace(a) + RemoveWhitespace(b)
  {
    if a == [] {
      assert a + b == b;
    } else {
      assert (a + b)[1..] == a[1..] + b;
      RemoveWhitespaceConcat(a[1..], b);
    }
  }

  /** Every CJK character is a non-whitespace character counted once, so it is within the character count. */
  lemma {:induction false} CjkWithinCharacterCount(text: string)
    ensures CjkCount(text) <= Utf16Length(RemoveWhitespace(text))
  {
    if text != [] {
      CjkWithinCharacterCount(text[1..]);
      var head := if IsWhitespace(text[0]) then [] else [text[0]];
      Utf16Concat(head, RemoveWhitespace(text[1..]));
    }
  }

  lemma {:induction false} Utf16Concat(a: string, b: string)
    ensures Utf16Length(a + b) == Utf16Length(a) + Utf16Length(b)
  {
    if a == [] {
      assert a + b == b;
    } else {
      assert (a + b)[1..] == a[1..] + b;
      Utf16Concat(a[1..], b);
    }
  }

  /** For text within the Basic Multilingual Plane the character count is the number of non-whitespace characters. */
  lemma BmpCharacterCount(text: string)
    requires forall i :: 0 <= i < |text| ==> text[i] as int <= 0xFFFF
    ensures Utf16Length(RemoveWhitespace(text)) == |text| - WhitespaceCount(text)
  {
    var r := RemoveWhitespace(text);
    forall i | 0 <= i < |r|
      ensures r[i] as int <= 0xFFFF
    {
      assert r[i] in r;
    }
  }
}
