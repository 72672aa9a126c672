/**
 * The Python string operations the conversation engine relies on:
 * `str.strip`, `str.split()` (no argument), `sep.join`, `str.lower`,
 * `str.replace` of one character and `str.title`.
 */
module Text {

  /** Python's `str.isspace`, the set `strip()` and `split()` cut on. */
  predicate IsSpace(c: char) {
    || c == ' '
    || ('\t' <= c <= '\r')
    || ('\U{1C}' <= c <= '\U{1F}')
    || c == '\U{85}' || c == '\U{A0}' || c == '\U{1680}'
    || ('\U{2000}' <= c <= '\U{200A}')
    || c == '\U{2028}' || c == '\U{2029}' || c == '\U{202F}'
    || c == '\U{205F}' || c == '\U{3000}'
  }

  predicate AllSpace(s: string) {
    forall k :: 0 <= k < |s| ==> IsSpace(s[k])
  }

  /** A word as `split()` yields it: non-empty, without whitespace. */
  predicate IsWord(w: string) {
    w != [] && forall k :: 0 <= k < |w| ==> !IsSpace(w[k])
  }

  // ---------------------------------------------------------------- strip

  /** `s.lstrip()`: the suffix of `s` left after its leading whitespace. */
  function LStrip(s: string): (r: string)
    ensures |r| <= |s| && r == s[|s| - |r|..]
    ensures r == [] || !IsSpace(r[0])
  {
    if s != [] && IsSpace(s[0]) then LStrip(s[1..]) else s
  }

  /** What `lstrip()` removes is whitespace. */
  lemma {:induction false} LStripRemovesSpace(s: string)
    ensures AllSpace(s[..|s| - |LStrip(s)|])
  {
    if s != [] && IsSpace(s[0]) {
      LStripRemovesSpace(s[1..]);
      assert s[..|s| - |LStrip(s)|] == [s[0]] + s[1..][..|s[1..]| - |LStrip(s[1..])|];
    }
  }

  /** `s.rstrip()`: the prefix of `s` left before its trailing whitespace. */
  function RStrip(s: string): (r: string)
    ensures |r| <= |s| && r == s[..|r|]
    ensures r == [] || !IsSpace(r[|r| - 1])
  {
    if s != [] && IsSpace(s[|s| - 1]) then RStrip(s[..|s| - 1]) else s
  }

  /** What `rstrip()` removes is whitespace. */
  lemma {:induction false} RStripRemovesSpace(s: string)
    ensures AllSpace(s[|RStrip(s)|..])
  {
    if s != [] && IsSpace(s[|s| - 1]) {
      var p := s[..|s| - 1];
      RStripRemovesSpace(p);
      assert s[|RStrip(s)|..] == p[|RStrip(p)|..] + [s[|s| - 1]];
    }
  }

  /** `s.strip()`. */
  function Strip(s: string): string {
    RStrip(LStrip(s))
  }

  lemma StripOfTrimmed(s: string)
    requires s == [] || (!IsSpace(s[0]) && !IsSpace(s[|s| - 1]))
    ensures Strip(s) == s
  {
  }

  /** Stripping twice is stripping once. */
  lemma StripIdempotent(s: string)
    ensures Strip(Strip(s)) == Strip(s)
  {
    var t := Strip(s);
    if t != [] {
      var l := LStrip(s);
      assert t == l[..|t|];
      assert t[0] == l[0];
    }
    StripOfTrimmed(t);
  }

  // ---------------------------------------------------------------- split

  /**
   * The number of words of `s` when the character before it was
   * whitespace (`afterSpace`) or not: a word is a maximal run of
   * non-whitespace characters, and one starts wherever a non-whitespace
   * character follows whitespace or the start.
   */
  function WordsFrom(s: string, afterSpace: bool): nat {
    if s == [] then 0
    else (if afterSpace && !IsSpace(s[0]) then 1 else 0) + WordsFrom(s[1..], IsSpace(s[0]))
  }

  /** `len(s.split())`. */
  function WordCount(s: string): nat {
    WordsFrom(s, true)
  }

  /** `sep.join(xs)`. */
  function Join(xs: seq<string>, sep: string): string {
    if |xs| == 0 then ""
    else if |xs| == 1 then xs[0]
    else xs[0] + sep + Join(xs[1..], sep)
  }

  lemma {:induction false} JoinAppend(xs: seq<string>, y: string, sep: string)
    requires xs != []
    ensures Join(xs + [y], sep) == Join(xs, sep) + sep + y
  {
    if |xs| == 1 {
      assert xs + [y] == [xs[0], y];
    } else {
      assert (xs + [y])[1..] == xs[1..] + [y];
      JoinAppend(xs[1..], y, sep);
    }
  }

  /** A word read in full counts once if a word may start there, and leaves no word open. */
  lemma {:induction false} WordsFromWord(w: string, rest: string, afterSpace: bool)
    requires IsWord(w)
    ensures WordsFrom(w + rest, afterSpace) == (if afterSpace then 1 else 0) + WordsFrom(rest, false)
    decreases |w|
  {
    assert (w + rest)[0] == w[0];
    assert (w + rest)[1..] == w[1..] + rest;
    if |w| > 1 {
      WordsFromWord(w[1..], rest, false);
    } else {
      assert w[1..] + rest == rest;
    }
  }

  /**
   * `len(" ".join(ws).split()) == len(ws)` for a list of words: the count
   * agrees with the words that were put together.
   */
  lemma {:induction false} WordCountOfJoin(ws: seq<string>)
    requires forall i :: 0 <= i < |ws| ==> IsWord(ws[i])
    ensures WordCount(Join(ws, " ")) == |ws|
  {
    if |ws| == 1 {
      WordsFromWord(ws[0], [], true);
      assert ws[0] + [] == ws[0];
    } else if |ws| > 1 {
      var rest := Join(ws[1..], " ");
      assert Join(ws, " ") == ws[0] + (" " + rest);
      WordsFromWord(ws[0], " " + rest, true);
      assert (" " + rest)[1..] == rest;
      WordCountOfJoin(ws[1..]);
    }
  }

  /** Leading whitespace is not counted. */
  lemma {:induction false} WordsFromLeadingSpace(sp: string, s: string)
    requires AllSpace(sp)
    ensures WordsFrom(sp + s, true) == WordsFrom(s, true)
    decreases |sp|
  {
    if sp != [] {
      assert (sp + s)[0] == sp[0];
      assert (sp + s)[1..] == sp[1..] + s;
      WordsFromLeadingSpace(sp[1..], s);
    } else {
      assert sp + s == s;
    }
  }

  /** Trailing whitespace is not counted. */
  lemma {:induction false} WordsFromTrailingSpace(s: string, sp: string, afterSpace: bool)
    requires AllSpace(sp)
    ensures WordsFrom(s + sp, afterSpace) == WordsFrom(s, afterSpace)
    decreases |s| + |sp|
  {
    if s == [] {
      assert s + sp == sp;
      if sp != [] {
        WordsFromTrailingSpace([], sp[1..], true);
        assert [] + sp[1..] == sp[1..];
      }
    } else {
      assert (s + sp)[0] == s[0];
      assert (s + sp)[1..] == s[1..] + sp;
      WordsFromTrailingSpace(s[1..], sp, IsSpace(s[0]));
    }
  }

  lemma WordCountOfLStrip(s: string)
    ensures WordCount(LStrip(s)) == WordCount(s)
  {
    var l := LStrip(s);
    var lead := s[..|s| - |l|];
    LStripRemovesSpace(s);
    assert s == lead + l;
    WordsFromLeadingSpace(lead, l);
  }

  lemma WordCountOfRStrip(s: string)
    ensures WordCount(RStrip(s)) == WordCount(s)
  {
    var r := RStrip(s);
    var trail := s[|r|..];
    RStripRemovesSpace(s);
    assert s == r + trail;
    WordsFromTrailingSpace(r, trail, true);
  }

  /** `len(s.strip().split()) == len(s.split())`. */
  lemma WordCountOfStrip(s: string)
    ensures WordCount(Strip(s)) == WordCount(s)
  {
    WordCountOfLStrip(s);
    WordCountOfRStrip(LStrip(s));
  }

  /** A string without words is all whitespace, and conversely. */
  lemma {:induction false} NoWordsIffAllSpace(s: string)
    ensures WordCount(s) == 0 <==> AllSpace(s)
  {
    if s != [] {
      NoWordsIffAllSpace(s[1..]);
      if IsSpace(s[0]) {
        assert AllSpace(s) <==> AllSpace(s[1..]);
      }
    }
  }

  // ------------------------------------------------------- case and title

  predicate IsUpper(c: char) { 'A' <= c <= 'Z' }
  predicate IsLower(c: char) { 'a' <= c <= 'z' }

  /** A cased character; only ASCII letters are modelled. */
  predicate IsCased(c: char) { IsUpper(c) || IsLower(c) }

  function LowerChar(c: char): char {
    if IsUpper(c) then (c as int + 32) as char else c
  }

  function UpperChar(c: char): char {
    if IsLower(c) then (c as int - 32) as char else c
  }

  /** `s.lower()`. */
  function Lower(s: string): (r: string)
    ensures |r| == |s|
  {
    seq(|s|, i requires 0 <= i < |s| => LowerChar(s[i]))
  }

  /**
   * `str.title` as CPython runs it: a character is upper-cased when the
   * character before it is not cased, lower-cased otherwise.
   */
  function TitleFrom(s: string, afterCased: bool): (r: string)
    ensures |r| == |s|
  {
    if s == [] then []
    else [if afterCased then LowerChar(s[0]) else UpperChar(s[0])]
         + TitleFrom(s[1..], IsCased(s[0]))
  }

  /** `s.title()`. */
  function Title(s: string): string {
    TitleFrom(s, false)
  }

  /** The expected character of `s.title()` at position `i`. */
  function TitleCharAt(s: string, i: nat): char
    requires i < |s|
  {
    if i == 0 || !IsCased(s[i - 1]) then UpperChar(s[i]) else LowerChar(s[i])
  }

  lemma {:induction false} TitleFromAt(s: string, afterCased: bool, i: nat)
    requires i < |s|
    ensures TitleFrom(s, afterCased)[i] ==
      if i == 0 then (if afterCased then LowerChar(s[0]) else UpperChar(s[0]))
      else TitleCharAt(s, i)
  {
    if i > 0 {
      TitleFromAt(s[1..], IsCased(s[0]), i - 1);
    }
  }

  /** Position by position, `Title` is the rule `TitleCharAt` states. */
  lemma TitleAt(s: string, i: nat)
    requires i < |s|
    ensures Title(s)[i] == TitleCharAt(s, i)
  {
    TitleFromAt(s, false, i);
  }

  /** Title-casing an already title-cased string changes nothing. */
  lemma TitleIdempotent(s: string)
    ensures Title(Title(s)) == Title(s)
  {
    var t := Title(s);
    forall i | 0 <= i < |s|
      ensures Title(t)[i] == t[i]
    {
      TitleAt(s, i);
      TitleAt(t, i);
      if i > 0 {
        TitleAt(s, i - 1);
      }
    }
  }

  /** `s.replace(old, new)` for single characters. */
  function ReplaceChar(s: string, from: char, to: char): (r: string)
    ensures |r| == |s|
  {
    seq(|s|, i requires 0 <= i < |s| => if s[i] == from then to else s[i])
  }

  /** `sub` occurs in `s` starting at index `i`. */
  predicate OccursAt(s: string, sub: string, i: int) {
    0 <= i <= |s| - |sub| && s[i..i + |sub|] == sub
  }

  /** `sub in s`. */
  predicate Contains(s: string, sub: string) {
    exists i | 0 <= i <= |s| - |sub| :: OccursAt(s, sub, i)
  }

  lemma PrefixOfAppend(a: string, b: string)
    ensures a <= a + b
  {
  }

  lemma PrefixOfNested(a: string, b: string, c: string, d: string, e: string)
    ensures a <= a + b + c + d + e
  {
    assert a + b + c + d + e == a + (b + c + d + e);
  }

  /** What stands between two texts occurs in their concatenation. */
  lemma ContainsMiddle(before: string, mid: string, after: string)
    ensures Contains(before + mid + after, mid)
  {
    assert OccursAt(before + mid + after, mid, |before|);
  }

  /** A substring stays a substring of any text that surrounds it. */
  lemma ContainsInContext(s: string, sub: string, before: string, after: string)
    requires Contains(s, sub)
    ensures Contains(before + s + after, sub)
  {
    var i :| 0 <= i <= |s| - |sub| && OccursAt(s, sub, i);
    var t := before + s + after;
    assert t[|before| + i..|before| + i + |sub|] == sub;
    assert OccursAt(t, sub, |before| + i);
  }
}
