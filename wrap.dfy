/**
 * `justified_print` (utilities/helpers.py): greedy line filling. Each
 * '\n'-separated line of the text is split into words, and words are added
 * to the current output line, each followed by one space, until the next one
 * would take the line past the threshold; then the line is emitted and a new
 * one started with that word. The last line of each input line is emitted
 * right-stripped, or empty when the input line has no words.
 *
 * The model returns the printed lines instead of printing them.
 */
module Helpers {
  import opened Text

  /** The words of `ws`, each followed by one space: how the source accumulates `current_line`. */
  function Trailing(ws: seq<string>): (s: string)
    ensures ws == [] <==> s == ""
    ensures ws != [] ==> s[|s| - 1] == ' '
    decreases |ws|
  {
    if ws == [] then "" else Trailing(ws[..|ws| - 1]) + ws[|ws| - 1] + " "
  }

  /** The output lines emitted so far, as groups of words, and the words of the line being filled. */
  datatype Filled = Filled(lines: seq<seq<string>>, current: seq<string>)

  /** Adding one word: a new line starts with it when it does not fit after the current one. */
  function Step(f: Filled, w: string, thr: int): Filled {
    if |Trailing(f.current)| + |w| + 1 > thr then Filled(f.lines + [f.current], [w])
    else Filled(f.lines, f.current + [w])
  }

  /** The greedy fill after the words of `words`, in order. */
  function Fill(words: seq<string>, thr: int): (f: Filled)
    ensures words != [] ==> f.current != []
    decreases |words|
  {
    if words == [] then Filled([], [])
    else Step(Fill(words[..|words| - 1], thr), words[|words| - 1], thr)
  }

  lemma TrailingSnoc(ws: seq<string>, w: string)
    ensures Trailing(ws + [w]) == Trailing(ws) + w + " "
  {
    assert (ws + [w])[..|ws|] == ws;
  }

  lemma RenderedSnoc(gs: seq<seq<string>>, g: seq<string>)
    ensures Rendered(gs + [g]) == Rendered(gs) + [Trailing(g)]
  {
  }

  /** The lines one input line prints, given what the inner loop produced for it. */
  lemma LineOutOf(line: string, thr: int, emitted: seq<string>, currentLine: string)
    requires emitted == Rendered(Fill(Words(line), thr).lines)
    requires currentLine == Trailing(Fill(Words(line), thr).current)
    ensures LineOut(line, thr) == emitted + [if currentLine != "" then RStrip(currentLine) else ""]
  {
  }

  lemma JustifiedLinesSnoc(lines: seq<string>, i: nat, thr: int)
    requires i < |lines|
    ensures JustifiedLines(lines[..i + 1], thr) == JustifiedLines(lines[..i], thr) + LineOut(lines[i], thr)
  {
    assert lines[..i + 1][..i] == lines[..i];
  }

  lemma FillSnoc(words: seq<string>, w: string, thr: int)
    ensures Fill(words + [w], thr) == Step(Fill(words, thr), w, thr)
  {
    assert (words + [w])[..|words|] == words;
  }

  /** Each group of words rendered as the source prints a line broken mid-paragraph. */
  function Rendered(gs: seq<seq<string>>): (r: seq<string>)
    ensures |r| == |gs| && forall i :: 0 <= i < |gs| ==> r[i] == Trailing(gs[i])
  {
    seq(|gs|, i requires 0 <= i < |gs| => Trailing(gs[i]))
  }

  /** The lines printed for one input line. */
  function LineOut(line: string, thr: int): (out: seq<string>)
    ensures |out| >= 1
  {
    var f := Fill(Words(line), thr);
    Rendered(f.lines) + [if f.current != [] then RStrip(Trailing(f.current)) else ""]
  }

  /** The lines printed for the input lines `lines`, in order. */
  function JustifiedLines(lines: seq<string>, thr: int): (out: seq<string>)
    ensures |out| >= |lines|
    decreases |lines|
  {
    if lines == [] then [] else JustifiedLines(lines[..|lines| - 1], thr) + LineOut(lines[|lines| - 1], thr)
  }

  /** Everything `justified_print(text, thr)` prints, line by line. */
  function Justified(text: string, thr: int): seq<string> {
    JustifiedLines(SplitOn(text, '\n'), thr)
  }

  /** `justified_print(text, length_thr)`, collecting the printed lines. */
  method JustifiedPrint(text: string, lengthThr: int) returns (output: seq<string>)
    ensures output == Justified(text, lengthThr)
  {
    var lines := SplitOn(text, '\n');
    output := [];
    var i := 0;
    while i < |lines|
      invariant 0 <= i <= |lines|
      invariant output == JustifiedLines(lines[..i], lengthThr)
    {
      var emitted, currentLine := FillLine(Words(lines[i]), lengthThr);
      LineOutOf(lines[i], lengthThr, emitted, currentLine);
      var last := if currentLine != "" then RStrip(currentLine) else "";
      JustifiedLinesSnoc(lines, i, lengthThr);
      output := output + (emitted + [last]);
      i := i + 1;
    }
    assert lines[..i] == lines;
  }

  /** The inner loop of `justified_print` over the words of one line. */
  method FillLine(words: seq<string>, lengthThr: int) returns (emitted: seq<string>, currentLine: string)
    ensures emitted == Rendered(Fill(words, lengthThr).lines)
    ensures currentLine == Trailing(Fill(words, lengthThr).current)
  {
    emitted := [];
    currentLine := "";
    var j := 0;
    while j < |words|
      invariant 0 <= j <= |words|
      invariant emitted == Rendered(Fill(words[..j], lengthThr).lines)
      invariant currentLine == Trailing(Fill(words[..j], lengthThr).current)
    {
      var word := words[j];
      FillLineStep(words, j, lengthThr);
      if |currentLine| + |word| + 1 > lengthThr {
        emitted := emitted + [currentLine];
        currentLine := word + " ";
      } else {
        currentLine := currentLine + word + " ";
      }
      j := j + 1;
    }
    assert words[..j] == words;
  }

  /** One word of the inner loop: what it does to the emitted lines and to `current_line`. */
  lemma FillLineStep(words: seq<string>, j: nat, thr: int)
    requires j < |words|
    ensures var f := Fill(words[..j], thr);
            var f' := Fill(words[..j + 1], thr);
            if |Trailing(f.current)| + |words[j]| + 1 > thr then
              Rendered(f'.lines) == Rendered(f.lines) + [Trailing(f.current)] && Trailing(f'.current) == words[j] + " "
            else
              Rendered(f'.lines) == Rendered(f.lines) && Trailing(f'.current) == Trailing(f.current) + words[j] + " "
  {
    var f := Fill(words[..j], thr);
    var w := words[j];
    assert words[..j + 1] == words[..j] + [w];
    FillSnoc(words[..j], w, thr);
    if |Trailing(f.current)| + |w| + 1 > thr {
      RenderedSnoc(f.lines, f.current);
      TrailingSnoc([], w);
    } else {
      TrailingSnoc(f.current, w);
    }
  }

  // ----- properties ----------------------------------------------------------------

  /** The words of the groups, in order. */
  function Flatten(gs: seq<seq<string>>): seq<string>
    decreases |gs|
  {
    if gs == [] then [] else Flatten(gs[..|gs| - 1]) + gs[|gs| - 1]
  }

  /** No word is lost, duplicated or reordered by the fill. */
  lemma {:induction false} FillKeepsWords(words: seq<string>, thr: int)
    ensures Flatten(Fill(words, thr).lines) + Fill(words, thr).current == words
    decreases |words|
  {
    if words != [] {
      var init := words[..|words| - 1];
      var w := words[|words| - 1];
      assert init + [w] == words;
      FillKeepsWords(init, thr);
      FillSnoc(init, w, thr);
      var f := Fill(init, thr);
      if |Trailing(f.current)| + |w| + 1 > thr {
        FlattenSnoc(f.lines, f.current);
      }
    }
  }

  lemma FlattenSnoc(gs: seq<seq<string>>, g: seq<string>)
    ensures Flatten(gs + [g]) == Flatten(gs) + g
  {
    assert (gs + [g])[..|gs|] == gs;
  }

  /**
   * The grouping is greedy: within a line every word fitted when it was added,
   * and every line after the first began because its first word did not fit
   * after the previous line.
   */
  ghost predicate Greedy(gs: seq<seq<string>>, thr: int) {
    && (forall i, j :: 0 <= i < |gs| && 0 < j < |gs[i]| ==> |Trailing(gs[i][..j])| + |gs[i][j]| + 1 <= thr)
    && (forall i :: 0 < i < |gs| ==> gs[i] != [] && |Trailing(gs[i - 1])| + |gs[i][0]| + 1 > thr)
  }

  lemma {:induction false} FillIsGreedy(words: seq<string>, thr: int)
    ensures Greedy(Fill(words, thr).lines + [Fill(words, thr).current], thr)
    decreases |words|
  {
    if words != [] {
      var init := words[..|words| - 1];
      FillIsGreedy(init, thr);
      StepIsGreedy(Fill(init, thr), words[|words| - 1], thr, init != []);
    }
  }

  /** One step of the fill keeps the grouping greedy. */
  lemma StepIsGreedy(f: Filled, w: string, thr: int, started: bool)
    requires Greedy(f.lines + [f.current], thr)
    requires started ==> f.current != []
    requires !started ==> f == Filled([], [])
    ensures Greedy(Step(f, w, thr).lines + [Step(f, w, thr).current], thr)
  {
    var gs := f.lines + [f.current];
    if |Trailing(f.current)| + |w| + 1 > thr {
      BreakIsGreedy(gs, w, thr);
      assert Step(f, w, thr).lines + [Step(f, w, thr).current] == gs + [[w]];
    } else {
      ExtendIsGreedy(f.lines, f.current, w, thr);
    }
  }

  lemma BreakIsGreedy(gs: seq<seq<string>>, w: string, thr: int)
    requires Greedy(gs, thr) && gs != []
    requires |Trailing(gs[|gs| - 1])| + |w| + 1 > thr
    ensures Greedy(gs + [[w]], thr)
  {
    var gs' := gs + [[w]];
    forall i, j | 0 <= i < |gs'| && 0 < j < |gs'[i]|
      ensures |Trailing(gs'[i][..j])| + |gs'[i][j]| + 1 <= thr
    {
      assert gs'[i] == gs[i];
    }
    forall i | 0 < i < |gs'|
      ensures gs'[i] != [] && |Trailing(gs'[i - 1])| + |gs'[i][0]| + 1 > thr
    {
      if i < |gs| {
        assert gs'[i] == gs[i] && gs'[i - 1] == gs[i - 1];
      }
    }
  }

  lemma ExtendIsGreedy(ls: seq<seq<string>>, cur: seq<string>, w: string, thr: int)
    requires Greedy(ls + [cur], thr)
    requires ls != [] ==> cur != []
    requires |Trailing(cur)| + |w| + 1 <= thr
    ensures Greedy(ls + [cur + [w]], thr)
  {
    var gs := ls + [cur];
    var last := cur + [w];
    var gs' := ls + [last];
    forall i, j | 0 <= i < |gs'| && 0 < j < |gs'[i]|
      ensures |Trailing(gs'[i][..j])| + |gs'[i][j]| + 1 <= thr
    {
      if i < |ls| {
        assert gs'[i] == gs[i];
      } else if j < |cur| {
        assert gs'[i][..j] == cur[..j] && gs'[i][j] == gs[i][j];
      } else {
        assert gs'[i][..j] == cur;
      }
    }
    forall i | 0 < i < |gs'|
      ensures gs'[i] != [] && |Trailing(gs'[i - 1])| + |gs'[i][0]| + 1 > thr
    {
      assert gs'[i - 1] == gs[i - 1];
      if i < |ls| {
        assert gs'[i] == gs[i];
      } else {
        assert gs'[i][0] == gs[i][0];
      }
    }
  }

  /** A greedy line holding at least two words fits within the threshold. */
  lemma GreedyLinesFit(gs: seq<seq<string>>, thr: int, i: nat)
    requires Greedy(gs, thr) && i < |gs| && |gs[i]| >= 2
    ensures |Trailing(gs[i])| <= thr
  {
    var g := gs[i];
    assert g[..|g| - 1 + 1] == g;
    assert |Trailing(g[..|g| - 1])| + |g[|g| - 1]| + 1 <= thr;
    assert Trailing(g) == Trailing(g[..|g| - 1]) + g[|g| - 1] + " ";
  }

  /** `split()` gives back the words of a rendered group. */
  lemma {:induction false} WordsOfTrailing(ws: seq<string>)
    requires forall i :: 0 <= i < |ws| ==> IsWord(ws[i])
    ensures Words(Trailing(ws)) == ws
    decreases |ws|
  {
    if ws != [] {
      var init := ws[..|ws| - 1];
      var w := ws[|ws| - 1];
      var t := Trailing(init);
      WordsOfTrailing(init);
      TrailingSnoc(init, w);
      assert init + [w] == ws;
      assert t + w + " " == t + (w + " ");
      WordsAppend(t, w + " ");
      WordOfWordSpace(w);
    }
  }

  /** A word followed by one space splits to that word alone. */
  lemma WordOfWordSpace(w: string)
    requires IsWord(w)
    ensures Words(w + " ") == [w]
  {
    WordsOfWordThen(w, " ");
    NoWordsInSpace(" ");
  }

  lemma {:induction false} WordsOfRendered(gs: seq<seq<string>>)
    requires forall i, j :: 0 <= i < |gs| && 0 <= j < |gs[i]| ==> IsWord(gs[i][j])
    ensures WordsOfAll(Rendered(gs)) == Flatten(gs)
    decreases |gs|
  {
    if gs != [] {
      var init := gs[..|gs| - 1];
      var g := gs[|gs| - 1];
      assert init + [g] == gs;
      WordsOfRendered(init);
      WordsOfTrailing(g);
      RenderedSnoc(init, g);
      WordsOfAllAppend(Rendered(init), [Trailing(g)]);
      WordsOfAllSingle(Trailing(g));
    }
  }

  lemma WordsOfAllSingle(s: string)
    ensures WordsOfAll([s]) == Words(s)
  {
    assert [s][1..] == [];
  }

  lemma {:induction false} WordsOfAllAppend(a: seq<string>, b: seq<string>)
    ensures WordsOfAll(a + b) == WordsOfAll(a) + WordsOfAll(b)
    decreases |a|
  {
    if a != [] {
      assert (a + b)[1..] == a[1..] + b;
      WordsOfAllAppend(a[1..], b);
    } else {
      assert a + b == b;
    }
  }

  lemma {:induction false} FlattenWords(gs: seq<seq<string>>, words: seq<string>, cur: seq<string>)
    requires Flatten(gs) + cur == words
    requires forall k :: 0 <= k < |words| ==> IsWord(words[k])
    ensures forall i, j :: 0 <= i < |gs| && 0 <= j < |gs[i]| ==> IsWord(gs[i][j])
    ensures forall j :: 0 <= j < |cur| ==> IsWord(cur[j])
    decreases |gs|
  {
    forall j | 0 <= j < |cur| ensures IsWord(cur[j]) {
      assert cur[j] == words[|Flatten(gs)| + j];
    }
    if gs != [] {
      var init := gs[..|gs| - 1];
      var g := gs[|gs| - 1];
      assert Flatten(init) + (g + cur) == words;
      FlattenWords(init, words, g + cur);
      forall i, j | 0 <= i < |gs| && 0 <= j < |gs[i]| ensures IsWord(gs[i][j]) {
        if i < |init| {
          assert gs[i] == init[i];
        } else {
          assert gs[i][j] == (g + cur)[j];
        }
      }
    }
  }

  /**
   * The printed lines of an input line hold exactly its words, in order: none
   * is lost, split or merged.
   */
  lemma LineKeepsWords(line: string, thr: int)
    ensures WordsOfAll(LineOut(line, thr)) == Words(line)
  {
    var words := Words(line);
    var f := Fill(words, thr);
    WordsAreWords(line);
    FillKeepsWords(words, thr);
    FlattenWords(f.lines, words, f.current);
    WordsOfRendered(f.lines);
    var last := if f.current != [] then RStrip(Trailing(f.current)) else "";
    WordsOfAllAppend(Rendered(f.lines), [last]);
    LastLineKeepsWords(f.current);
  }

  /** The last printed line of a paragraph, right-stripped, still holds the words of the current line. */
  lemma LastLineKeepsWords(cur: seq<string>)
    requires forall j :: 0 <= j < |cur| ==> IsWord(cur[j])
    ensures WordsOfAll([if cur != [] then RStrip(Trailing(cur)) else ""]) == cur
  {
    var last := if cur != [] then RStrip(Trailing(cur)) else "";
    WordsOfAllSingle(last);
    if cur != [] {
      RStripKeepsWords(Trailing(cur));
      WordsOfTrailing(cur);
    }
  }

  /**
   * Every printed line that holds two or more words fits within the threshold;
   * only a line of a single over-long word (or an empty one) can exceed it.
   */
  lemma LinesFit(line: string, thr: int, i: nat)
    requires i < |LineOut(line, thr)| && |Words(LineOut(line, thr)[i])| >= 2
    ensures |LineOut(line, thr)[i]| <= thr
  {
    var words := Words(line);
    var f := Fill(words, thr);
    var gs := f.lines + [f.current];
    WordsAreWords(line);
    FillKeepsWords(words, thr);
    FlattenWords(f.lines, words, f.current);
    FillIsGreedy(words, thr);
    var out := LineOut(line, thr);
    if i < |f.lines| {
      WordsOfTrailing(f.lines[i]);
      assert gs[i] == f.lines[i];
      GreedyLinesFit(gs, thr, i);
    } else {
      var o := out[i];
      assert f.current == [] ==> o == "";
      RStripKeepsWords(Trailing(f.current));
      WordsOfTrailing(f.current);
      assert gs[|f.lines|] == f.current;
      GreedyLinesFit(gs, thr, |f.lines|);
    }
  }

  /** An input line without words prints one empty line. */
  lemma BlankLine(line: string, thr: int)
    requires Words(line) == []
    ensures LineOut(line, thr) == [""]
  {
  }

  /** Lines broken mid-paragraph keep their trailing space; the last line of a paragraph does not end in whitespace. */
  lemma LineEndings(line: string, thr: int)
    ensures forall i :: 0 <= i < |LineOut(line, thr)| - 1 ==> LineOut(line, thr)[i] == "" || LineOut(line, thr)[i][|LineOut(line, thr)[i]| - 1] == ' '
    ensures var out := LineOut(line, thr); var last := out[|out| - 1]; last == "" || !IsSpace(last[|last| - 1])
  {
  }

  /** An over-long first word is preceded by an empty line: the empty current line is flushed before it. */
  lemma {:induction false} LongFirstWord(line: string, thr: int)
    requires Words(line) != [] && |Words(line)[0]| + 1 > thr
    ensures LineOut(line, thr)[0] == ""
  {
    var words := Words(line);
    FillStartsEmpty(words, thr);
  }

  lemma {:induction false} FillStartsEmpty(words: seq<string>, thr: int)
    requires words != [] && |words[0]| + 1 > thr
    ensures Fill(words, thr).lines != [] && Fill(words, thr).lines[0] == []
    decreases |words|
  {
    if |words| == 1 {
      assert words[..0] == [];
    } else {
      var init := words[..|words| - 1];
      FillStartsEmpty(init, thr);
    }
  }

  /** Every input line prints at least one line, so the output is never shorter than the input. */
  lemma EveryLineAnswered(text: string, thr: int)
    ensures |Justified(text, thr)| >= |SplitOn(text, '\n')| >= 1
  {
  }
}
