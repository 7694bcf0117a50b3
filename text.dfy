/** The string primitives the services use: `str.split()`, `' '.join`,
    `str.strip()`, `str.lower()`, `str.title()`, `in` on strings,
    `str.split(sep)`, `re.split(r'[.!?]+', s)` and slicing. */
module Text {
  import opened Values

  /** `c.isspace()` in Python: the characters `str.split()` and `str.strip()` treat as blanks. */
  predicate IsSpace(c: char)
  {
    c == ' ' || ('\t' <= c <= '\r') || ('\U{1c}' <= c <= '\U{1f}')
    || c == '\U{85}' || c == '\U{a0}' || c == '\U{1680}' || ('\U{2000}' <= c <= '\U{200a}')
    || c == '\U{2028}' || c == '\U{2029}' || c == '\U{202f}' || c == '\U{205f}' || c == '\U{3000}'
  }

  /** Every character of `s` is blank (vacuously true of the empty string). */
  predicate AllSpace(s: string)
  {
    forall i :: 0 <= i < |s| ==> IsSpace(s[i])
  }

  /** A token of `str.split()`: non-empty and free of blanks. */
  predicate IsWord(w: string)
  {
    |w| > 0 && forall i :: 0 <= i < |w| ==> !IsSpace(w[i])
  }

  /** The first index from `i` on that holds no blank, or `|s|`. */
  function SkipSpace(s: string, i: nat): (j: nat)
    requires i <= |s|
    ensures i <= j <= |s|
    ensures j < |s| ==> !IsSpace(s[j])
    decreases |s| - i
  {
    if i == |s| || !IsSpace(s[i]) then i else SkipSpace(s, i + 1)
  }

  /** The first index from `i` on that holds a blank, or `|s|`. */
  function SkipWord(s: string, i: nat): (j: nat)
    requires i <= |s|
    ensures i <= j <= |s|
    ensures j < |s| ==> IsSpace(s[j])
    decreases |s| - i
  {
    if i == |s| || IsSpace(s[i]) then i else SkipWord(s, i + 1)
  }

  /** The index just past the last non-blank before `j`, or 0. */
  function SkipSpaceBack(s: string, j: nat): (i: nat)
    requires j <= |s|
    ensures i <= j
    ensures forall m :: i <= m < j ==> IsSpace(s[m])
    ensures i > 0 ==> !IsSpace(s[i - 1])
    decreases j
  {
    if j == 0 || !IsSpace(s[j - 1]) then j else SkipSpaceBack(s, j - 1)
  }

  /** The words of `s` from index `i` on. */
  function WordsFrom(s: string, i: nat): seq<string>
    requires i <= |s|
    decreases |s| - i
  {
    var a := SkipSpace(s, i);
    if a == |s| then []
    else
      var b := SkipWord(s, a);
      [s[a..b]] + WordsFrom(s, b)
  }

  /** `s.split()`: the maximal runs of non-blank characters, left to right. */
  function Words(s: string): seq<string>
  {
    WordsFrom(s, 0)
  }

  /** `sep.join(parts)`. */
  function Join(sep: string, parts: seq<string>): string
    decreases |parts|
  {
    if |parts| == 0 then ""
    else if |parts| == 1 then parts[0]
    else parts[0] + sep + Join(sep, parts[1..])
  }

  /** A string with no blank at either end: what `str.strip()` returns. */
  predicate Trimmed(s: string)
  {
    s == [] || (!IsSpace(s[0]) && !IsSpace(s[|s| - 1]))
  }

  /** `s.strip()`. */
  function Strip(s: string): (r: string)
    ensures Trimmed(r)
    ensures r == [] <==> AllSpace(s)
    ensures |r| <= |s|
  {
    var lo := SkipSpace(s, 0);
    SkipSpaceSpan(s, 0);
    if lo == |s| then ""
    else
      var hi := SkipSpaceBack(s, |s|);
      assert s[lo..hi][0] == s[lo] && s[lo..hi][hi - lo - 1] == s[hi - 1];
      s[lo..hi]
  }

  function LowerChar(c: char): char
  {
    if 'A' <= c <= 'Z' then (c as int + 32) as char else c
  }

  /** `s.lower()`, over ASCII letters. */
  function Lower(s: string): (r: string)
    ensures |r| == |s|
    ensures forall i :: 0 <= i < |s| ==> r[i] == LowerChar(s[i])
  {
    seq(|s|, i requires 0 <= i < |s| => LowerChar(s[i]))
  }

  predicate IsCased(c: char)
  {
    'A' <= c <= 'Z' || 'a' <= c <= 'z'
  }

  function UpperChar(c: char): char
  {
    if 'a' <= c <= 'z' then (c as int - 32) as char else c
  }

  /** `s.title()` from a position whose predecessor is (or is not) a cased letter. */
  function TitleFrom(s: string, afterCased: bool): (r: string)
    ensures |r| == |s|
    decreases |s|
  {
    if s == [] then []
    else [if afterCased then LowerChar(s[0]) else UpperChar(s[0])] + TitleFrom(s[1..], IsCased(s[0]))
  }

  /** `s.title()`, over ASCII letters: every letter that follows a non-letter is upper-cased, every other letter lower-cased. */
  function Title(s: string): (r: string)
    ensures |r| == |s|
  {
    TitleFrom(s, false)
  }

  /** `sub` occurs in `s` starting at index `i`. */
  predicate OccursAt(s: string, sub: string, i: int)
  {
    0 <= i && i + |sub| <= |s| && s[i..i + |sub|] == sub
  }

  /** `sub in s`. */
  predicate Contains(s: string, sub: string)
  {
    exists i :: 0 <= i <= |s| - |sub| && OccursAt(s, sub, i)
  }

  lemma OccursShift(s: string, sub: string, j: int)
    requires |s| >= 1 && j >= 0
    ensures OccursAt(s, sub, j + 1) <==> OccursAt(s[1..], sub, j)
  {
    if j + 1 + |sub| <= |s| {
      assert s[1..][j..j + |sub|] == s[j + 1..j + 1 + |sub|];
    }
  }

  /** `s.find(sep)`: the first index at which `sep` occurs in `s`. */
  function IndexOf(s: string, sep: string): (r: Option<nat>)
    requires |sep| > 0
    ensures r.Some? ==> OccursAt(s, sep, r.value)
    ensures r.Some? ==> forall j :: 0 <= j < r.value ==> !OccursAt(s, sep, j)
    ensures r.None? ==> forall j :: 0 <= j <= |s| - |sep| ==> !OccursAt(s, sep, j)
    decreases |s|
  {
    if |s| < |sep| then None
    else if s[..|sep|] == sep then Some(0)
    else
      match IndexOf(s[1..], sep)
      case None =>
        assert forall j :: 1 <= j <= |s| - |sep| ==> !OccursAt(s, sep, j) by {
          forall j | 1 <= j <= |s| - |sep| ensures !OccursAt(s, sep, j) { OccursShift(s, sep, j - 1); }
        }
        None
      case Some(j) =>
        OccursShift(s, sep, j);
        assert forall i :: 1 <= i < j + 1 ==> !OccursAt(s, sep, i) by {
          forall i | 1 <= i < j + 1 ensures !OccursAt(s, sep, i) { OccursShift(s, sep, i - 1); }
        }
        Some(j + 1)
  }

  /** `s.split(sep)` for a non-empty separator: occurrences are found left to right and never overlap. */
  function SplitOn(s: string, sep: string): (r: seq<string>)
    requires |sep| > 0
    ensures |r| >= 1
    decreases |s|
  {
    match IndexOf(s, sep)
    case None => [s]
    case Some(i) => [s[..i]] + SplitOn(s[i + |sep|..], sep)
  }

  /** A character of the sentence-terminator class `[.!?]`. */
  predicate IsTerminator(c: char)
  {
    c == '.' || c == '!' || c == '?'
  }

  function SpanNonTerminator(s: string): (n: nat)
    ensures n <= |s|
    ensures n < |s| ==> IsTerminator(s[n])
  {
    if s == [] || IsTerminator(s[0]) then 0 else 1 + SpanNonTerminator(s[1..])
  }

  function SpanTerminator(s: string): (n: nat)
    ensures n <= |s|
    ensures s != [] && IsTerminator(s[0]) ==> n >= 1
  {
    if s == [] || !IsTerminator(s[0]) then 0 else 1 + SpanTerminator(s[1..])
  }

  /** `re.split(r'[.!?]+', s)`: the pieces between maximal runs of terminators, empty pieces included. */
  function SplitSentences(s: string): (r: seq<string>)
    ensures |r| >= 1
    decreases |s|
  {
    var k := SpanNonTerminator(s);
    if k == |s| then [s]
    else [s[..k]] + SplitSentences(s[k + SpanTerminator(s[k..])..])
  }

  /** Python's index normalisation for a slice bound of a sequence of length `n`. */
  function SliceBound(x: int, n: nat): (b: nat)
    ensures b <= n
  {
    if x < 0 then (if x + n < 0 then 0 else x + n) else if x > n then n else x
  }

  /** Python's `s[a:b]`. */
  function PySlice<T>(s: seq<T>, a: int, b: int): (r: seq<T>)
    ensures 0 <= a <= b ==> |r| <= b - a
    ensures 0 <= a <= b <= |s| ==> r == s[a..b]
    ensures 0 <= a <= |s| <= b ==> r == s[a..]
  {
    var lo, hi := SliceBound(a, |s|), SliceBound(b, |s|);
    if lo < hi then s[lo..hi] else []
  }

  /** Python's `s[:k]`. */
  function Take<T>(s: seq<T>, k: int): (r: seq<T>)
    ensures |r| <= |s| && r == s[..|r|]
    ensures 0 <= k ==> r == s[..if k < |s| then k else |s|]
  {
    PySlice(s, 0, k)
  }

  function Reverse<T>(s: seq<T>): (r: seq<T>)
    ensures |r| == |s|
    ensures forall i :: 0 <= i < |s| ==> r[i] == s[|s| - 1 - i]
  {
    seq(|s|, i requires 0 <= i < |s| => s[|s| - 1 - i])
  }

  // ---------------------------------------------------------------------
  // Facts about the primitives

  lemma SplitLast<T>(s: seq<T>)
    requires |s| > 0
    ensures s == s[..|s| - 1] + [s[|s| - 1]]
  {
  }

  lemma ReverseCons<T>(x: T, s: seq<T>)
    ensures Reverse([x] + s) == Reverse(s) + [x]
  {
    var l, r := Reverse([x] + s), Reverse(s) + [x];
    forall i | 0 <= i < |l| ensures l[i] == r[i] {
      if i < |s| {
        assert l[i] == ([x] + s)[|s| - i] == s[|s| - 1 - i];
      }
    }
  }

  lemma SplitFirst<T>(s: seq<T>)
    requires |s| > 0
    ensures s == [s[0]] + s[1..]
  {
  }

  /** Everything `SkipSpace` steps over is blank. */
  lemma {:induction false} SkipSpaceSpan(s: string, i: nat)
    requires i <= |s|
    ensures forall m :: i <= m < SkipSpace(s, i) ==> IsSpace(s[m])
    decreases |s| - i
  {
    if i < |s| && IsSpace(s[i]) {
      SkipSpaceSpan(s, i + 1);
    }
  }

  /** Everything `SkipWord` steps over is non-blank. */
  lemma {:induction false} SkipWordSpan(s: string, i: nat)
    requires i <= |s|
    ensures forall m :: i <= m < SkipWord(s, i) ==> !IsSpace(s[m])
    decreases |s| - i
  {
    if i < |s| && !IsSpace(s[i]) {
      SkipWordSpan(s, i + 1);
    }
  }

  /** Skipping blanks in `s` from `k + m`, where `y` is the tail of `s` from `k`,
      is skipping them in `y` from `m`. */
  lemma {:induction false} SkipSpaceShift(s: string, k: nat, y: string, m: nat)
    requires k <= |s| && s[k..] == y && m <= |y|
    ensures SkipSpace(s, k + m) == k + SkipSpace(y, m)
    decreases |y| - m
  {
    if m < |y| {
      assert s[k + m] == y[m];
      if IsSpace(y[m]) {
        SkipSpaceShift(s, k, y, m + 1);
      }
    }
  }

  lemma {:induction false} SkipWordShift(s: string, k: nat, y: string, m: nat)
    requires k <= |s| && s[k..] == y && m <= |y|
    ensures SkipWord(s, k + m) == k + SkipWord(y, m)
    decreases |y| - m
  {
    if m < |y| {
      assert s[k + m] == y[m];
      if !IsSpace(y[m]) {
        SkipWordShift(s, k, y, m + 1);
      }
    }
  }

  /** A slice of the tail `y` of `s` from `k` is a slice of `s` shifted by `k`. */
  lemma SliceOfTail(s: string, k: nat, y: string, a: nat, b: nat)
    requires k <= |s| && s[k..] == y && a <= b <= |y|
    ensures s[k + a..k + b] == y[a..b]
  {
    forall n | 0 <= n < b - a
      ensures s[k + a..k + b][n] == y[a..b][n]
    {
      assert y[a + n] == s[k + a + n];
    }
  }

  /** `WordsShift` at one word, given the shift of the skips, of the word and of the rest. */
  lemma WordsShiftStep(s: string, k: nat, y: string, m: nat, a: nat, b: nat)
    requires k + m <= |s| && m <= |y|
    requires a == SkipSpace(y, m) && a < |y| && b == SkipWord(y, a) && k + b <= |s|
    requires SkipSpace(s, k + m) == k + a && SkipWord(s, k + a) == k + b
    requires s[k + a..k + b] == y[a..b]
    requires WordsFrom(s, k + b) == WordsFrom(y, b)
    ensures WordsFrom(s, k + m) == WordsFrom(y, m)
  {
  }

  /** The words of `s` after position `k + m` are those of its tail `y` after `m`. */
  lemma {:induction false} WordsShift(s: string, k: nat, y: string, m: nat)
    requires k <= |s| && s[k..] == y && m <= |y|
    ensures WordsFrom(s, k + m) == WordsFrom(y, m)
    decreases |y| - m
  {
    SkipSpaceShift(s, k, y, m);
    var a := SkipSpace(y, m);
    if a < |y| {
      SkipWordShift(s, k, y, a);
      var b := SkipWord(y, a);
      WordsShift(s, k, y, b);
      SliceOfTail(s, k, y, a, b);
      WordsShiftStep(s, k, y, m, a, b);
    }
  }

  /** A run of non-blanks ended by a blank or by the end of the string. */
  lemma {:induction false} SkipWordOfWord(w: string, t: string, i: nat)
    requires i <= |w|
    requires forall m :: 0 <= m < |w| ==> !IsSpace(w[m])
    requires t == [] || IsSpace(t[0])
    ensures SkipWord(w + t, i) == |w|
    decreases |w| - i
  {
    if i < |w| {
      assert (w + t)[i] == w[i];
      SkipWordOfWord(w, t, i + 1);
    } else if t != [] {
      assert (w + t)[i] == t[0];
    }
  }

  /** The words of a word followed by a blank-led (or empty) remainder. */
  lemma WordsOfWordThen(w: string, t: string)
    requires IsWord(w)
    requires t == [] || IsSpace(t[0])
    ensures Words(w + t) == [w] + Words(t)
  {
    var s := w + t;
    assert s[0] == w[0];
    SkipWordOfWord(w, t, 0);
    assert s[0..|w|] == w;
    assert s[|w|..] == t;
    WordsShift(s, |w|, t, 0);
  }

  /** A blank in front of a string does not change its words. */
  lemma WordsSkipSpace(c: char, s: string)
    requires IsSpace(c)
    ensures Words([c] + s) == Words(s)
  {
    assert ([c] + s)[0] == c;
    assert ([c] + s)[1..] == s;
    WordsShift([c] + s, 1, s, 0);
  }

  /** `' '.join` and `str.split()` are inverse on lists of words: splitting
      the text of a chunk gives back exactly the words it was built from. */
  lemma {:induction false} WordsOfJoin(ws: seq<string>)
    requires forall i :: 0 <= i < |ws| ==> IsWord(ws[i])
    ensures Words(Join(" ", ws)) == ws
    decreases |ws|
  {
    if |ws| == 0 {
    } else if |ws| == 1 {
      WordsOfWordThen(ws[0], "");
      assert ws[0] + "" == ws[0];
    } else {
      var rest := Join(" ", ws[1..]);
      assert Join(" ", ws) == ws[0] + ([' '] + rest);
      WordsOfWordThen(ws[0], [' '] + rest);
      WordsSkipSpace(' ', rest);
      WordsOfJoin(ws[1..]);
      assert ws == [ws[0]] + ws[1..];
    }
  }

  /** A string that is the blank-joined list of words `ws` splits back into `ws`. */
  lemma WordsOfJoinText(t: string, ws: seq<string>)
    requires t == Join(" ", ws)
    requires forall i :: 0 <= i < |ws| ==> IsWord(ws[i])
    ensures Words(t) == ws
  {
    WordsOfJoin(ws);
  }

  lemma {:induction false} SkipSpaceAll(s: string, i: nat)
    requires i <= |s|
    requires forall m :: i <= m < |s| ==> IsSpace(s[m])
    ensures SkipSpace(s, i) == |s|
    decreases |s| - i
  {
    if i < |s| {
      SkipSpaceAll(s, i + 1);
    }
  }

  /** A blank-only string has no words. */
  lemma WordsOfAllSpace(s: string)
    requires AllSpace(s)
    ensures Words(s) == []
  {
    SkipSpaceAll(s, 0);
  }

  /** Every token of `str.split()` is a word. */
  lemma {:induction false} WordsFromAreWords(s: string, i: nat)
    requires i <= |s|
    ensures forall k :: 0 <= k < |WordsFrom(s, i)| ==> IsWord(WordsFrom(s, i)[k])
    decreases |s| - i
  {
    var a := SkipSpace(s, i);
    if a < |s| {
      var b := SkipWord(s, a);
      SkipWordSpan(s, a);
      var w := s[a..b];
      assert s[a..b][0] == s[a];
      forall m | 0 <= m < |w| ensures !IsSpace(w[m]) { assert w[m] == s[a + m]; }
      WordsFromAreWords(s, b);
    }
  }

  lemma WordsAreWords(s: string)
    ensures forall k :: 0 <= k < |Words(s)| ==> IsWord(Words(s)[k])
  {
    WordsFromAreWords(s, 0);
  }

  /** A trimmed string is its own strip. */
  lemma StripTrimmed(s: string)
    requires Trimmed(s)
    ensures Strip(s) == s
  {
    if s != [] {
      assert SkipSpace(s, 0) == 0;
      assert SkipSpaceBack(s, |s|) == |s|;
      assert s[0..|s|] == s;
    }
  }

  /** Stripping a trimmed, non-empty string behind one blank removes just that blank. */
  lemma StripLeadingBlank(s: string)
    requires Trimmed(s) && s != []
    ensures Strip([' '] + s) == s
  {
    var t := [' '] + s;
    assert t[1] == s[0] && t[|t| - 1] == s[|s| - 1];
    assert SkipSpace(t, 1) == 1;
    assert SkipSpace(t, 0) == 1;
    assert SkipSpaceBack(t, |t|) == |t|;
    assert t[1..|t|] == s;
  }

  /** Lower-casing keeps an occurrence of a substring in place. */
  lemma LowerContains(s: string, sub: string)
    requires Contains(s, sub)
    ensures Contains(Lower(s), Lower(sub))
  {
    var i :| 0 <= i <= |s| - |sub| && OccursAt(s, sub, i);
    assert Lower(s)[i..i + |sub|] == Lower(sub);
    assert OccursAt(Lower(s), Lower(sub), i);
  }

  /** Lower-casing twice is lower-casing once. */
  lemma LowerIdempotent(s: string)
    ensures Lower(Lower(s)) == Lower(s)
  {
  }
}
