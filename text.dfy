/** Text helpers the build scripts rely on: Python's `str.strip()`,
    `readlines()` on a file opened in text mode, and decimal rendering of
    a number (used for the publish passcode). */
module Text {

  /** The characters for which Python's `str.isspace()` holds; these are
      the characters `str.strip()` removes from both ends. */
  predicate IsSpace(c: char)
  {
    || c == ' ' || c == '\t' || c == '\n' || c == '\r'
    || c == '\U{0B}' || c == '\U{0C}'
    || ('\U{1C}' <= c <= '\U{1F}')
    || c == '\U{85}' || c == '\U{A0}' || c == '\U{1680}'
    || ('\U{2000}' <= c <= '\U{200A}')
    || c == '\U{2028}' || c == '\U{2029}' || c == '\U{202F}'
    || c == '\U{205F}' || c == '\U{3000}'
  }

  predicate AllSpace(s: string)
  {
    forall k :: 0 <= k < |s| ==> IsSpace(s[k])
  }

  /** A string with no whitespace at either end. */
  predicate Trimmed(s: string)
  {
    s == [] || (!IsSpace(s[0]) && !IsSpace(s[|s| - 1]))
  }

  /** Number of whitespace characters at the start of `s`. */
  function LeadingSpace(s: string): (n: nat)
    ensures n <= |s|
  {
    if s != [] && IsSpace(s[0]) then 1 + LeadingSpace(s[1..]) else 0
  }

  /** The leading run is all whitespace and is followed by a non-space
      character or the end of `s`. */
  lemma {:induction false} LeadingSpaceRun(s: string)
    ensures AllSpace(s[..LeadingSpace(s)])
    ensures LeadingSpace(s) < |s| ==> !IsSpace(s[LeadingSpace(s)])
  {
    if s != [] && IsSpace(s[0]) {
      LeadingSpaceRun(s[1..]);
      var n := LeadingSpace(s);
      assert s[..n] == [s[0]] + s[1..][..n - 1];
    }
  }

  /** Number of whitespace characters at the end of `s`. */
  function TrailingSpace(s: string): (n: nat)
    ensures n <= |s|
  {
    if s != [] && IsSpace(s[|s| - 1]) then 1 + TrailingSpace(s[..|s| - 1]) else 0
  }

  /** The trailing run is all whitespace and is preceded by a non-space
      character or the start of `s`. */
  lemma {:induction false} TrailingSpaceRun(s: string)
    ensures AllSpace(s[|s| - TrailingSpace(s)..])
    ensures TrailingSpace(s) < |s| ==> !IsSpace(s[|s| - TrailingSpace(s) - 1])
  {
    if s != [] && IsSpace(s[|s| - 1]) {
      TrailingSpaceRun(s[..|s| - 1]);
      var n := TrailingSpace(s);
      assert s[|s| - n..] == s[..|s| - 1][|s| - n..] + [s[|s| - 1]];
    }
  }

  /** Python's `s.strip()`: `s` without whitespace at either end. */
  function Strip(s: string): (r: string)
  {
    var body := s[LeadingSpace(s)..];
    body[..|body| - TrailingSpace(body)]
  }

  /** The stripped text is `s` with whitespace removed from both ends, and
      nothing else: `s` is that text padded on each side with whitespace
      only, and the text itself starts and ends with a non-space
      character. */
  lemma StripSplits(s: string)
    ensures Trimmed(Strip(s))
    ensures exists i, j :: 0 <= i <= j <= |s| && Strip(s) == s[i..j]
                           && AllSpace(s[..i]) && AllSpace(s[j..])
  {
    var i := LeadingSpace(s);
    var body := s[i..];
    var t := TrailingSpace(body);
    var j := i + |body| - t;
    LeadingSpaceRun(s);
    TrailingSpaceRun(body);
    assert Strip(s) == s[i..j];
    assert s[j..] == body[|body| - t..];
    if Strip(s) != [] {
      assert Strip(s)[0] == s[i];
      assert Strip(s)[|Strip(s)| - 1] == body[|body| - t - 1];
    }
  }

  /** Stripping is determined by the text between the padding: padding a
      trimmed text with whitespace on both sides and stripping gives that
      text back. */
  lemma {:induction false} StripPadded(pre: string, x: string, post: string)
    requires AllSpace(pre) && AllSpace(post) && Trimmed(x)
    ensures Strip(pre + x + post) == x
  {
    var s := pre + x + post;
    assert forall k :: 0 <= k < |pre| ==> s[k] == pre[k];
    assert forall k :: |pre| + |x| <= k < |s| ==> s[k] == post[k - |pre| - |x|];
    var i := LeadingSpace(s);
    LeadingSpaceRun(s);
    if x == [] {
      assert AllSpace(s);
      assert i == |s|;
    } else {
      assert s[|pre|] == x[0];
      assert i == |pre|;
      var body := s[i..];
      assert body == x + post;
      assert forall k :: |x| <= k < |body| ==> body[k] == post[k - |x|];
      assert body[|x| - 1] == x[|x| - 1];
      var t := TrailingSpace(body);
      TrailingSpaceRun(body);
      assert t == |post|;
      assert body[..|body| - t] == x;
    }
  }

  /** Stripping twice is the same as stripping once. */
  lemma StripIdempotent(s: string)
    ensures Strip(Strip(s)) == Strip(s)
  {
    StripSplits(s);
    StripPadded([], Strip(s), []);
    assert [] + Strip(s) + [] == Strip(s);
  }

  /** Universal newlines, as Python applies them to a file read in text
      mode: "\r\n" and a lone "\r" both become "\n". */
  function Translate(text: string): (t: string)
    ensures |t| <= |text|
    ensures forall i :: 0 <= i < |t| ==> t[i] != '\r'
    decreases |text|
  {
    if text == [] then []
    else if text[0] == '\r' then
      "\n" + Translate(if |text| > 1 && text[1] == '\n' then text[2..] else text[1..])
    else [text[0]] + Translate(text[1..])
  }

  /** A text without carriage returns reads as itself. */
  lemma {:induction false} TranslateKeeps(text: string)
    requires forall i :: 0 <= i < |text| ==> text[i] != '\r'
    ensures Translate(text) == text
    decreases |text|
  {
    if text != [] {
      TranslateKeeps(text[1..]);
    }
  }

  /** Reading a file in text mode twice over changes nothing more. */
  lemma TranslateIdempotent(text: string)
    ensures Translate(Translate(text)) == Translate(text)
  {
    TranslateKeeps(Translate(text));
  }

  /** Index of the first "\n" in `s`, or |s| when there is none. */
  function LineEnd(s: string): (k: nat)
    ensures k <= |s| && (k < |s| ==> s[k] == '\n')
    ensures forall i :: 0 <= i < k ==> s[i] != '\n'
  {
    if s == [] || s[0] == '\n' then 0 else 1 + LineEnd(s[1..])
  }

  /** The text split after every "\n": each line but possibly the last
      keeps its "\n". */
  function SplitLines(t: string): seq<string>
    decreases |t|
  {
    if t == [] then []
    else
      var k := LineEnd(t);
      if k == |t| then [t] else [t[..k + 1]] + SplitLines(t[k + 1..])
  }

  function Concat(lines: seq<string>): string
  {
    if lines == [] then [] else lines[0] + Concat(lines[1..])
  }

  /** The lines put back together are the text; no line is empty, every
      line but the last ends with its only "\n", and the last has a "\n"
      only at its end. */
  lemma {:induction false} SplitLinesJoin(t: string)
    ensures Concat(SplitLines(t)) == t
    ensures forall j :: 0 <= j < |SplitLines(t)| ==> SplitLines(t)[j] != []
    ensures forall j, i :: 0 <= j < |SplitLines(t)| && 0 <= i < |SplitLines(t)[j]| - 1 ==> SplitLines(t)[j][i] != '\n'
    ensures forall j :: 0 <= j < |SplitLines(t)| - 1 ==> SplitLines(t)[j][|SplitLines(t)[j]| - 1] == '\n'
    decreases |t|
  {
    if t != [] {
      var k := LineEnd(t);
      if k < |t| {
        var rest := t[k + 1..];
        SplitLinesJoin(rest);
        var ls := SplitLines(t);
        assert ls == [t[..k + 1]] + SplitLines(rest);
        assert ls[1..] == SplitLines(rest);
        assert t[..k + 1] + rest == t;
        forall j | 1 <= j < |ls|
          ensures ls[j] == SplitLines(rest)[j - 1]
        {
        }
      }
    }
  }

  /** Python's `file.readlines()` on a file opened in text mode: the text
      after universal-newline translation, split after every "\n". */
  function ReadLines(text: string): (lines: seq<string>)
  {
    SplitLines(Translate(text))
  }

  /** `file.read()` on a file opened in text mode. */
  function ReadText(text: string): string
  {
    Translate(text)
  }

  /** Decimal digit character of d. */
  function DigitChar(d: nat): char
    requires d < 10
  {
    "0123456789"[d]
  }

  /** Value of a decimal digit character. */
  function DigitValue(c: char): nat
  {
    if '0' <= c <= '9' then (c as int - '0' as int) as nat else 0
  }

  /** Python's `str(n)` for a natural number. */
  function Decimal(n: nat): (s: string)
    ensures |s| >= 1
    ensures forall i :: 0 <= i < |s| ==> '0' <= s[i] <= '9'
  {
    if n < 10 then [DigitChar(n)] else Decimal(n / 10) + [DigitChar(n % 10)]
  }

  /** The number a string of decimal digits denotes. */
  function ParseDecimal(s: string): nat
  {
    if s == [] then 0 else 10 * ParseDecimal(s[..|s| - 1]) + DigitValue(s[|s| - 1])
  }

  /** Reading back the decimal rendering of n gives n. */
  lemma {:induction false} DecimalRoundTrip(n: nat)
    ensures ParseDecimal(Decimal(n)) == n
  {
    if n >= 10 {
      var s := Decimal(n);
      assert s[..|s| - 1] == Decimal(n / 10);
      DecimalRoundTrip(n / 10);
    }
  }
}
