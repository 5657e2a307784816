/**
 * The deterministic chunker of the indexing pipeline (`get_chunks` in main.py).
 *
 * A message of `n` tokens is kept whole when that is at least as close to the
 * target length `B` as splitting into `round(n / B)` even segments would be.
 * Otherwise the tokens are cut at every multiple of `optimal = n // segments`,
 * each window widened by `V` overlap tokens on both sides (clamped to the
 * text), and a short trailing window is concatenated onto the one before it.
 */
module Chunker {
  import opened Wrappers
  import opened Tokenizer

  function Abs(x: int): nat { if x < 0 then -x else x }

  /**
   * Python's `round(n / b)` for n >= 0 and b > 0: the nearest integer to n / b,
   * ties going to the even neighbour.
   */
  function RoundHalfEven(n: nat, b: nat): (r: nat)
    requires b > 0
    ensures 2 * n <= 2 * r * b + b
    ensures 2 * r * b <= 2 * n + b
    ensures (2 * r * b == 2 * n + b || 2 * r * b + b == 2 * n) ==> r % 2 == 0
  {
    var q, rem := n / b, n % b;
    assert n == q * b + rem;
    DoubleProducts(q, b);
    if 2 * rem < b then q
    else if 2 * rem > b then q + 1
    else if q % 2 == 0 then q
    else q + 1
  }

  lemma DoubleProducts(q: nat, b: nat)
    ensures 2 * q * b == 2 * (q * b)
    ensures 2 * (q + 1) * b == 2 * (q * b) + 2 * b
  {
  }

  /** `n_segments = max(1, round(n_tokens / breaklimit))` */
  function SegmentCount(n: nat, b: nat): (s: nat)
    requires b > 0
    ensures s >= 1
  {
    var r := RoundHalfEven(n, b);
    if r < 1 then 1 else r
  }

  /**
   * `abs(n - B) <= abs(n / segments - B)`, both sides multiplied by the
   * (positive) segment count so that the comparison is exact.
   */
  predicate KeepsWhole(n: nat, b: nat)
    requires b > 0
  {
    var s := SegmentCount(n, b);
    Abs(n - b) * s <= Abs(n - b * s)
  }

  /** The token range `[start, end)` of the window whose stride begins at `i`. */
  function Window(i: nat, optimal: nat, overlap: nat, n: nat): (nat, nat) {
    (if i > overlap then i - overlap else 0,
     if i + optimal + overlap <= n then i + optimal + overlap else n)
  }

  /** The windows, as token slices, of the strides starting at i, i + optimal, ... below |tokens|. */
  function Strides<T>(tokens: seq<T>, i: nat, optimal: nat, overlap: nat): (segs: seq<seq<T>>)
    requires optimal > 0
    decreases |tokens| - i
  {
    if i >= |tokens| then []
    else
      var w := Window(i, optimal, overlap, |tokens|);
      [tokens[w.0..w.1]] + Strides(tokens, i + optimal, optimal, overlap)
  }

  /** A trailing segment shorter than `optimal` is concatenated onto the one before it and dropped. */
  function MergeTail<T>(segs: seq<seq<T>>, optimal: nat): (r: seq<seq<T>>)
    ensures |segs| > 1 && |segs[|segs| - 1]| < optimal ==>
      r == segs[..|segs| - 2] + [segs[|segs| - 2] + segs[|segs| - 1]]
    ensures !(|segs| > 1 && |segs[|segs| - 1]| < optimal) ==> r == segs
  {
    if |segs| > 1 && |segs[|segs| - 1]| < optimal then
      segs[..|segs| - 2] + [segs[|segs| - 2] + segs[|segs| - 1]]
    else segs
  }

  /** When the text is not kept whole, the segment count is at least 2 and at most n, so `optimal >= 1`. */
  lemma OptimalPositive(n: nat, b: nat)
    requires b > 0 && !KeepsWhole(n, b)
    ensures 2 <= SegmentCount(n, b) <= n
    ensures n / SegmentCount(n, b) >= 1
  {
    var s := SegmentCount(n, b);
    OneSegmentKeepsWhole(n, b);
    assert s == RoundHalfEven(n, b);
    CountAtMostTokens(n, b, s);
    QuotientPositive(n, s);
  }

  lemma OneSegmentKeepsWhole(n: nat, b: nat)
    requires b > 0
    ensures SegmentCount(n, b) == 1 ==> KeepsWhole(n, b)
  {
    assert Abs(n - b) * 1 == Abs(n - b * 1);
  }

  /** From `2*s*b <= 2*n + b` with b >= 1: s <= n. */
  lemma CountAtMostTokens(n: nat, b: nat, s: nat)
    requires b >= 1 && s >= 1 && 2 * s * b <= 2 * n + b
    ensures s <= n
  {
    assert b * (2 * s - 1) == 2 * s * b - b;
    MulMonotone(1, b, 2 * s - 1);
  }

  lemma QuotientPositive(n: nat, s: nat)
    requires 1 <= s <= n
    ensures n / s >= 1
  {
    assert n - n % s == (n / s) * s;
    assert n - n % s > 0;
  }

  lemma MulMonotone(a: nat, b: nat, c: nat)
    requires a <= b
    ensures a * c <= b * c
  {
  }

  /**
   * The chunking plan of the source over a token sequence: None when the text
   * is kept whole, otherwise the windows with the short tail merged.
   */
  function Split<T>(tokens: seq<T>, b: nat, overlap: nat): Option<seq<seq<T>>>
    requires b > 0
  {
    var n := |tokens|;
    if KeepsWhole(n, b) then None
    else
      OptimalPositive(n, b);
      var optimal := n / SegmentCount(n, b);
      Some(MergeTail(Strides(tokens, 0, optimal, overlap), optimal))
  }

  /** Decodes every segment; None as soon as one decode raises. */
  function DecodeAll(decode: Decoder, segs: seq<seq<Token>>): (r: Option<seq<string>>)
    ensures r.Some? <==> forall i :: 0 <= i < |segs| ==> decode(segs[i]).Some?
    ensures r.Some? ==> |r.value| == |segs| && forall i :: 0 <= i < |segs| ==> r.value[i] == decode(segs[i]).value
  {
    if segs == [] then Some([])
    else
      match decode(segs[0])
      case None => None
      case Some(s) =>
        match DecodeAll(decode, segs[1..])
        case None => None
        case Some(rest) => Some([s] + rest)
  }

  /**
   * `get_chunks` as a value. Any exception (tokenizing, a zero break length,
   * decoding) falls back to the whole message as the only chunk.
   */
  function ChunkText(encode: Encoder, decode: Decoder, text: string, b: nat, overlap: nat): (chunks: seq<string>)
  {
    if b == 0 then [text]
    else
      match encode(text)
      case None => [text]
      case Some(tokens) =>
        match Split(tokens, b, overlap)
        case None => [text]
        case Some(segs) =>
          match DecodeAll(decode, segs)
          case None => [text]
          case Some(chunks) => chunks
  }

  /** The windowing loop of `get_chunks` followed by the in-place merge of a short tail. */
  method SplitTokens<T>(tokens: seq<T>, b: nat, overlap: nat) returns (segments: Option<seq<seq<T>>>)
    requires b > 0
    ensures segments == Split(tokens, b, overlap)
  {
    var n := |tokens|;
    if KeepsWhole(n, b) {
      return None;
    }
    OptimalPositive(n, b);
    var optimal := n / SegmentCount(n, b);
    var segs := CutWindows(tokens, optimal, overlap);
    if |segs| > 1 && |segs[|segs| - 1]| < optimal {
      var last := segs[|segs| - 1];
      segs := segs[..|segs| - 2] + [segs[|segs| - 2] + last];
    }
    return Some(segs);
  }

  /** `for i in range(0, n_tokens, optimal)`: one overlapping window per stride. */
  method CutWindows<T>(tokens: seq<T>, optimal: nat, overlap: nat) returns (segs: seq<seq<T>>)
    requires optimal > 0
    ensures segs == Strides(tokens, 0, optimal, overlap)
  {
    var n := |tokens|;
    segs := [];
    var i := 0;
    while i < n
      invariant segs + Strides(tokens, i, optimal, overlap) == Strides(tokens, 0, optimal, overlap)
    {
      StridesUnfold(tokens, i, optimal, overlap);
      var start := if i > overlap then i - overlap else 0;
      var end := if i + optimal + overlap <= n then i + optimal + overlap else n;
      assert (segs + [tokens[start..end]]) + Strides(tokens, i + optimal, optimal, overlap)
          == segs + ([tokens[start..end]] + Strides(tokens, i + optimal, optimal, overlap));
      segs := segs + [tokens[start..end]];
      i := i + optimal;
    }
    assert segs + [] == segs;
  }

  /** `get_chunks`: tokenize, plan, decode, with the whole-text fallback on any exception. */
  method GetChunks(encode: Encoder, decode: Decoder, text: string, b: nat, overlap: nat) returns (chunks: seq<string>)
    ensures chunks == ChunkText(encode, decode, text, b, overlap)
    ensures |chunks| >= 1
  {
    if b == 0 {
      return [text];
    }
    var tokenized := encode(text);
    if tokenized.None? {
      return [text];
    }
    var plan := SplitTokens(tokenized.value, b, overlap);
    if plan.None? {
      return [text];
    }
    SplitNonEmpty(tokenized.value, b, overlap);
    var decoded := DecodeAll(decode, plan.value);
    chunks := if decoded.Some? then decoded.value else [text];
  }

  // ----- properties --------------------------------------------------------------

  /** The j-th stride after `i` begins at `start = i + j * optimal`: its window, and that there are that many strides. */
  lemma {:induction false} StridesAt<T>(tokens: seq<T>, i: nat, optimal: nat, overlap: nat, j: nat, start: nat)
    requires optimal > 0
    requires start == i + j * optimal && start < |tokens|
    ensures j < |Strides(tokens, i, optimal, overlap)|
    ensures var w := Window(start, optimal, overlap, |tokens|);
            w.0 <= w.1 <= |tokens| && Strides(tokens, i, optimal, overlap)[j] == tokens[w.0..w.1]
    decreases j
  {
    StridesUnfold(tokens, i, optimal, overlap);
    if j > 0 {
      MulPred(j, optimal);
      StridesAt(tokens, i + optimal, optimal, overlap, j - 1, start);
    }
  }

  /** One stride: its window first, then the strides after it. */
  lemma StridesUnfold<T>(tokens: seq<T>, i: nat, optimal: nat, overlap: nat)
    requires optimal > 0 && i < |tokens|
    ensures var w := Window(i, optimal, overlap, |tokens|);
            && w.0 <= w.1 <= |tokens|
            && Strides(tokens, i, optimal, overlap) == [tokens[w.0..w.1]] + Strides(tokens, i + optimal, optimal, overlap)
  {
  }

  /** Strides start at every multiple of `optimal` below n and at nothing else. */
  lemma {:induction false} StridesCount<T>(tokens: seq<T>, i: nat, optimal: nat, overlap: nat, j: nat)
    requires optimal > 0
    requires j < |Strides(tokens, i, optimal, overlap)|
    ensures i + j * optimal < |tokens|
    decreases j
  {
    if j > 0 {
      StridesUnfold(tokens, i, optimal, overlap);
      MulPred(j, optimal);
      StridesCount(tokens, i + optimal, optimal, overlap, j - 1);
      assert (i + optimal) + (j - 1) * optimal == i + j * optimal;
    }
  }

  lemma MulPred(j: nat, o: nat)
    requires j > 0
    ensures (j - 1) * o + o == j * o
  {
  }

  /**
   * Coverage: every token index k < n lies inside the window of stride
   * k // optimal, so the windows together cover the whole text.
   */
  lemma Coverage<T>(tokens: seq<T>, optimal: nat, overlap: nat, k: nat) returns (j: nat, p: nat)
    requires optimal > 0 && k < |tokens|
    ensures j == k / optimal
    ensures var w := Window(j * optimal, optimal, overlap, |tokens|);
            && j < |Strides(tokens, 0, optimal, overlap)|
            && w.0 <= k < w.1 <= |tokens|
            && Strides(tokens, 0, optimal, overlap)[j] == tokens[w.0..w.1]
            && p == k - w.0
    ensures p < |Strides(tokens, 0, optimal, overlap)[j]| && Strides(tokens, 0, optimal, overlap)[j][p] == tokens[k]
  {
    j := k / optimal;
    assert j * optimal <= k < j * optimal + optimal by {
      assert k == j * optimal + k % optimal;
    }
    StridesAt(tokens, 0, optimal, overlap, j, j * optimal);
    var w := Window(j * optimal, optimal, overlap, |tokens|);
    p := k - w.0;
  }

  function Flatten<T>(segs: seq<seq<T>>): seq<T> {
    if segs == [] then [] else Flatten(segs[..|segs| - 1]) + segs[|segs| - 1]
  }

  /** Merging the tail is concatenation: the flattened token stream is unchanged, overlap tokens included. */
  lemma MergeTailKeepsTokens<T>(segs: seq<seq<T>>, optimal: nat)
    ensures Flatten(MergeTail(segs, optimal)) == Flatten(segs)
    ensures |MergeTail(segs, optimal)| == |segs| || |MergeTail(segs, optimal)| == |segs| - 1
  {
    if |segs| > 1 && |segs[|segs| - 1]| < optimal {
      var m := |segs|;
      var r := MergeTail(segs, optimal);
      assert r[..m - 2] == segs[..m - 2];
      assert segs[..m - 1][..m - 2] == segs[..m - 2];
      assert r[..|r| - 1] == segs[..m - 2];
    }
  }

  /** A split plan always has at least one segment. */
  lemma SplitNonEmpty<T>(tokens: seq<T>, b: nat, overlap: nat)
    requires b > 0 && !KeepsWhole(|tokens|, b)
    ensures |Split(tokens, b, overlap).value| >= 1
  {
    OptimalPositive(|tokens|, b);
  }

  /** Merging the tail loses no element: each element of a segment is still found in the merged list. */
  lemma MergeTailKeepsElement<T>(segs: seq<seq<T>>, optimal: nat, j: nat, p: nat)
    requires j < |segs| && p < |segs[j]|
    ensures exists j', p' :: 0 <= j' < |MergeTail(segs, optimal)| && 0 <= p' < |MergeTail(segs, optimal)[j']|
              && MergeTail(segs, optimal)[j'][p'] == segs[j][p]
  {
    var plan := MergeTail(segs, optimal);
    var m := |segs|;
    if m > 1 && |segs[m - 1]| < optimal {
      if j < m - 2 {
        assert plan[j] == segs[j];
        assert plan[j][p] == segs[j][p];
      } else if j == m - 2 {
        assert plan[m - 2] == segs[m - 2] + segs[m - 1];
        assert plan[m - 2][p] == segs[j][p];
      } else {
        assert plan[m - 2] == segs[m - 2] + segs[m - 1];
        assert plan[m - 2][|segs[m - 2]| + p] == segs[j][p];
      }
    } else {
      assert plan[j][p] == segs[j][p];
    }
  }

  /**
   * Content is never dropped: when the text is split, every token of the
   * message occurs in some segment of the plan.
   */
  lemma SplitCoversEveryToken<T>(tokens: seq<T>, b: nat, overlap: nat, k: nat)
    requires b > 0 && k < |tokens| && !KeepsWhole(|tokens|, b)
    ensures exists j, p :: 0 <= j < |Split(tokens, b, overlap).value|
              && 0 <= p < |Split(tokens, b, overlap).value[j]|
              && Split(tokens, b, overlap).value[j][p] == tokens[k]
  {
    var n := |tokens|;
    OptimalPositive(n, b);
    var optimal := n / SegmentCount(n, b);
    var segs := Strides(tokens, 0, optimal, overlap);
    var plan := Split(tokens, b, overlap).value;
    assert plan == MergeTail(segs, optimal);
    var j, p := Coverage(tokens, optimal, overlap, k);
    MergeTailKeepsElement(segs, optimal, j, p);
    var j', p' :| 0 <= j' < |plan| && 0 <= p' < |plan[j']| && plan[j'][p'] == segs[j][p];
    assert plan[j'][p'] == tokens[k];
  }

  /** A message whose segment count is 1 (an empty one among them) is returned unchanged as its only chunk. */
  lemma SingleSegmentKeepsWhole(n: nat, b: nat)
    requires b > 0 && SegmentCount(n, b) == 1
    ensures KeepsWhole(n, b)
    ensures ChunkTextWhole(n, b)
  {
    assert Abs(n - b) * 1 == Abs(n - b * 1);
  }

  /** An empty message (no tokens) always has segment count 1. */
  lemma EmptyIsSingleSegment(b: nat)
    requires b > 0
    ensures SegmentCount(0, b) == 1
  {
  }

  /** Shorthand: every text of n tokens is returned unchanged as its only chunk. */
  ghost predicate ChunkTextWhole(n: nat, b: nat)
    requires b > 0
  {
    forall encode: Encoder, decode: Decoder, text: string, overlap: nat ::
      encode(text).Some? && |encode(text).value| == n ==> ChunkText(encode, decode, text, b, overlap) == [text]
  }

  /** With the default settings, a 512-token message is its own only chunk. */
  lemma ShortMessageIsOneChunk(encode: Encoder, decode: Decoder, text: string)
    requires encode(text).Some? && |encode(text).value| == 512
    ensures ChunkText(encode, decode, text, 1024, 128) == [text]
  {
    assert SegmentCount(512, 1024) == 1;
    SingleSegmentKeepsWhole(512, 1024);
  }

  /**
   * With the default settings, a 2050-token message becomes two windows,
   * [0, 1153) and [897, 2050), which share the 256 tokens [897, 1153).
   */
  lemma TwoWindowScenario<T>(tokens: seq<T>)
    requires |tokens| == 2050
    ensures Split(tokens, 1024, 128) == Some([tokens[0..1153], tokens[897..2050]])
  {
    assert RoundHalfEven(2050, 1024) == 2;
    assert SegmentCount(2050, 1024) == 2;
    assert !KeepsWhole(2050, 1024);
    var segs := Strides(tokens, 0, 1025, 128);
    assert Strides(tokens, 2050, 1025, 128) == [];
    assert Strides(tokens, 1025, 1025, 128) == [tokens[897..2050]];
    assert segs == [tokens[0..1153], tokens[897..2050]];
  }
}
