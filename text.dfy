/**
 * The handful of Python `str` operations the modelled code relies on:
 * `split()`, `split(sep)`, `sep.join(...)`, `strip()`, `rstrip()`, `in`
 * on strings and `str(n)` for a natural number.
 */
module Text {

  /** The characters Python's `str.split()` and `str.strip()` treat as whitespace. */
  predicate IsSpace(c: char) {
    || ('\t' <= c <= '\r')
    || ('\U{1C}' <= c <= ' ')
    || c == '\U{85}' || c == '\U{A0}' || c == '\U{1680}'
    || ('\U{2000}' <= c <= '\U{200A}')
    || c == '\U{2028}' || c == '\U{2029}' || c == '\U{202F}' || c == '\U{205F}' || c == '\U{3000}'
  }

  /** A word as `str.split()` produces it: non-empty, with no whitespace in it. */
  predicate IsWord(w: string) {
    |w| > 0 && forall i :: 0 <= i < |w| ==> !IsSpace(w[i])
  }

  /** `s.rstrip()` */
  function RStrip(s: string): (r: string)
    ensures |r| <= |s| && r == s[..|r|]
    ensures r == [] || !IsSpace(r[|r| - 1])
    ensures forall i :: |r| <= i < |s| ==> IsSpace(s[i])
  {
    if s != [] && IsSpace(s[|s| - 1]) then RStrip(s[..|s| - 1]) else s
  }

  /** `s.lstrip()` */
  function LStrip(s: string): (r: string)
    ensures |r| <= |s| && r == s[|s| - |r|..]
    ensures r == [] || !IsSpace(r[0])
    ensures forall i :: 0 <= i < |s| - |r| ==> IsSpace(s[i])
  {
    if s != [] && IsSpace(s[0]) then LStrip(s[1..]) else s
  }

  /** `s.strip()` */
  function Strip(s: string): (r: string)
    ensures r == [] || (!IsSpace(r[0]) && !IsSpace(r[|r| - 1]))
  {
    LStrip(RStrip(s))
  }

  /** The length of the longest prefix of `s` without whitespace. */
  function WordLength(s: string): (k: nat)
    ensures k <= |s|
  {
    if s == [] || IsSpace(s[0]) then 0 else 1 + WordLength(s[1..])
  }

  /** The first word ends at the first whitespace character. */
  lemma {:induction false} WordLengthSpec(s: string)
    ensures forall i :: 0 <= i < WordLength(s) ==> !IsSpace(s[i])
    ensures WordLength(s) < |s| ==> IsSpace(s[WordLength(s)])
    decreases |s|
  {
    if s != [] && !IsSpace(s[0]) {
      WordLengthSpec(s[1..]);
    }
  }

  /** `s.split()`: the maximal runs of non-whitespace characters, in order. */
  function Words(s: string): (ws: seq<string>)
    decreases |s|
  {
    if s == [] then []
    else if IsSpace(s[0]) then Words(s[1..])
    else
      var k := WordLength(s);
      [s[..k]] + Words(s[k..])
  }

  /** `sep.join(parts)` */
  function Join(parts: seq<string>, sep: string): (r: string)
  {
    if parts == [] then []
    else if |parts| == 1 then parts[0]
    else parts[0] + sep + Join(parts[1..], sep)
  }

  /** `s.split(sep)` for a one-character separator. */
  function SplitOn(s: string, sep: char): (parts: seq<string>)
    ensures |parts| >= 1
    decreases |s|
  {
    var k := IndexOf(s, sep);
    if k == |s| then [s] else [s[..k]] + SplitOn(s[k + 1..], sep)
  }

  /** The position of the first `c` in `s`, or `|s|` when there is none. */
  function IndexOf(s: string, c: char): (k: nat)
    ensures k <= |s|
    ensures forall i :: 0 <= i < k ==> s[i] != c
    ensures k < |s| ==> s[k] == c
  {
    if s == [] || s[0] == c then 0 else 1 + IndexOf(s[1..], c)
  }

  /** `sub in s` */
  predicate Contains(s: string, sub: string)
    decreases |s|
  {
    (|sub| <= |s| && s[..|sub|] == sub) || (s != [] && Contains(s[1..], sub))
  }

  /** `str(n)` */
  function NatToString(n: nat): (r: string)
    ensures |r| >= 1
    ensures forall i :: 0 <= i < |r| ==> '0' <= r[i] <= '9'
  {
    if n < 10 then [DigitChar(n)] else NatToString(n / 10) + [DigitChar(n % 10)]
  }

  function DigitChar(d: nat): (c: char)
    requires d < 10
    ensures '0' <= c <= '9'
  {
    ['0', '1', '2', '3', '4', '5', '6', '7', '8', '9'][d]
  }

  // ----- properties -----------------------------------------------------------

  /** Everything `split()` returns is a word. */
  lemma {:induction false} WordsAreWords(s: string)
    ensures forall i :: 0 <= i < |Words(s)| ==> IsWord(Words(s)[i])
    decreases |s|
  {
    if s == [] {
    } else if IsSpace(s[0]) {
      WordsAreWords(s[1..]);
    } else {
      var k := WordLength(s);
      WordLengthSpec(s);
      WordsAreWords(s[k..]);
    }
  }

  /** Leading whitespace does not change `split()`. */
  lemma {:induction false} WordsSkipsSpace(pre: string, s: string)
    requires forall i :: 0 <= i < |pre| ==> IsSpace(pre[i])
    ensures Words(pre + s) == Words(s)
    decreases |pre|
  {
    if pre != [] {
      assert (pre + s)[0] == pre[0];
      assert (pre + s)[1..] == pre[1..] + s;
      WordsSkipsSpace(pre[1..], s);
    } else {
      assert pre + s == s;
    }
  }

  /** A word followed by whitespace splits off as the first word. */
  lemma WordsOfWordThen(w: string, rest: string)
    requires IsWord(w)
    requires rest == [] || IsSpace(rest[0])
    ensures Words(w + rest) == [w] + Words(rest)
  {
    var s := w + rest;
    WordLengthOfWordThen(w, rest);
    assert s[..|w|] == w;
    assert s[|w|..] == rest;
  }

  lemma WordLengthOfWordThen(w: string, rest: string)
    requires forall i :: 0 <= i < |w| ==> !IsSpace(w[i])
    requires rest == [] || IsSpace(rest[0])
    ensures WordLength(w + rest) == |w|
  {
    WordLengthIs(w + rest, |w|);
  }

  /** The first word of `s` has length `k` when `s[..k]` has no whitespace and `s[k]` (if any) is whitespace. */
  lemma {:induction false} WordLengthIs(s: string, k: nat)
    requires k <= |s|
    requires forall i :: 0 <= i < k ==> !IsSpace(s[i])
    requires k == |s| || IsSpace(s[k])
    ensures WordLength(s) == k
    decreases k
  {
    if k > 0 {
      WordLengthIs(s[1..], k - 1);
    }
  }

  /** `split()` distributes over a concatenation that does not glue two words together. */
  lemma {:induction false} WordsAppend(a: string, b: string)
    requires a == [] || b == [] || IsSpace(a[|a| - 1]) || IsSpace(b[0])
    ensures Words(a + b) == Words(a) + Words(b)
    decreases |a|
  {
    if a == [] {
      assert a + b == b;
    } else if IsSpace(a[0]) {
      assert (a + b)[0] == a[0];
      assert (a + b)[1..] == a[1..] + b;
      WordsAppend(a[1..], b);
    } else {
      var k := WordLength(a);
      FirstWordOfAppend(a, b);
      WordsAppend(a[k..], b);
      WordsOfWordStart(a);
    }
  }

  /** `split()` of a string that starts with a word: that word, then the rest. */
  lemma WordsOfWordStart(s: string)
    requires s != [] && !IsSpace(s[0])
    ensures Words(s) == [s[..WordLength(s)]] + Words(s[WordLength(s)..])
  {
  }

  /** When `a` starts with a word not glued to `b`, `split()` of `a + b` takes that word first. */
  lemma FirstWordOfAppend(a: string, b: string)
    requires a != [] && !IsSpace(a[0])
    requires b == [] || IsSpace(a[|a| - 1]) || IsSpace(b[0])
    ensures Words(a + b) == [a[..WordLength(a)]] + Words(a[WordLength(a)..] + b)
  {
    var k := WordLength(a);
    WordLengthOfPrefix(a, b);
    assert (a + b)[0] == a[0];
    WordsOfWordStart(a + b);
    assert (a + b)[..k] == a[..k];
    assert (a + b)[k..] == a[k..] + b;
  }

  /** The first word of `a + b` is the first word of `a` when the two are not glued together. */
  lemma WordLengthOfPrefix(a: string, b: string)
    requires a != [] && (b == [] || IsSpace(a[|a| - 1]) || IsSpace(b[0]))
    ensures WordLength(a + b) == WordLength(a)
  {
    var k := WordLength(a);
    WordLengthSpec(a);
    if k == |a| {
      assert !IsSpace(a[|a| - 1]);
    }
    forall i | 0 <= i < k ensures !IsSpace((a + b)[i]) {
      assert (a + b)[i] == a[i];
    }
    if k < |a| {
      assert (a + b)[k] == a[k];
    } else if b != [] {
      assert (a + b)[k] == b[0];
    }
    WordLengthIs(a + b, k);
  }

  /** A string of whitespace has no words. */
  lemma NoWordsInSpace(sp: string)
    requires forall i :: 0 <= i < |sp| ==> IsSpace(sp[i])
    ensures Words(sp) == []
  {
    WordsSkipsSpace(sp, []);
    assert sp + [] == sp;
  }

  /** `rstrip()` keeps every word. */
  lemma RStripKeepsWords(s: string)
    ensures Words(RStrip(s)) == Words(s)
  {
    var r := RStrip(s);
    var sp := s[|r|..];
    assert s == r + sp;
    NoWordsInSpace(sp);
    WordsAppend(r, sp);
  }

  /** `lstrip()` keeps every word. */
  lemma LStripKeepsWords(s: string)
    ensures Words(LStrip(s)) == Words(s)
  {
    var l := LStrip(s);
    var sp := s[..|s| - |l|];
    assert s == sp + l;
    WordsSkipsSpace(sp, l);
  }

  /** `strip()` keeps every word. */
  lemma StripKeepsWords(s: string)
    ensures Words(Strip(s)) == Words(s)
  {
    RStripKeepsWords(s);
    LStripKeepsWords(RStrip(s));
  }

  /** The words of each string in `ps`, one list after the other. */
  function WordsOfAll(ps: seq<string>): seq<string>
  {
    if ps == [] then [] else Words(ps[0]) + WordsOfAll(ps[1..])
  }

  /** Joining with single spaces never merges or splits words. */
  lemma {:induction false} WordsOfSpaceJoin(ps: seq<string>)
    ensures Words(Join(ps, " ")) == WordsOfAll(ps)
  {
    if |ps| == 1 {
      assert WordsOfAll(ps[1..]) == [];
    } else if |ps| > 1 {
      var tail := Join(ps[1..], " ");
      WordsOfSpaceJoin(ps[1..]);
      assert ps[0] + " " + tail == ps[0] + (" " + tail);
      WordsAppend(ps[0], " " + tail);
      WordsSkipsSpace(" ", tail);
    }
  }

  /** Round trip: splitting words joined by single spaces gives the words back. */
  lemma {:induction false} WordsOfJoin(ws: seq<string>)
    requires forall i :: 0 <= i < |ws| ==> IsWord(ws[i])
    ensures Words(Join(ws, " ")) == ws
    decreases |ws|
  {
    if ws == [] {
    } else if |ws| == 1 {
      WordsOfWordThen(ws[0], []);
      assert ws[0] + [] == ws[0];
    } else {
      var tail := Join(ws[1..], " ");
      WordsOfJoin(ws[1..]);
      assert ws[0] + " " + tail == ws[0] + (" " + tail);
      WordsOfWordThen(ws[0], " " + tail);
      WordsSkipsSpace(" ", tail);
    }
  }

  /** Round trip: re-joining the pieces of `s.split(sep)` with `sep` gives `s` back. */
  lemma {:induction false} JoinSplitOn(s: string, sep: char)
    ensures Join(SplitOn(s, sep), [sep]) == s
    ensures forall i, j :: 0 <= i < |SplitOn(s, sep)| && 0 <= j < |SplitOn(s, sep)[i]| ==> SplitOn(s, sep)[i][j] != sep
    decreases |s|
  {
    var k := IndexOf(s, sep);
    if k < |s| {
      JoinSplitOn(s[k + 1..], sep);
      var parts := SplitOn(s, sep);
      assert parts == [s[..k]] + SplitOn(s[k + 1..], sep);
      assert s == s[..k] + [sep] + s[k + 1..];
    }
  }

  /** Right-stripping a word followed by one space removes exactly that space. */
  lemma RStripWordSpace(w: string)
    requires IsWord(w)
    ensures RStrip(w + " ") == w
  {
    var s := w + " ";
    assert s[..|s| - 1] == w;
  }

}
