/**
 * The ranking half of `search` in main.py: the rows of the vector table
 * scored against the query, sorted by descending score (Python's `sorted` is
 * stable, so rows with equal scores keep their table order), and the distinct
 * conversation titles collected from them, at most SEARCH_LIMIT of them.
 */
module Ranking {
  import opened ChunkCache

  /** `(row["addresses"], row["hash"], score)` */
  datatype Row = Row(addresses: seq<Address>, hash: Hash, score: real)

  // ----- the stable descending sort ---------------------------------------------------

  /** Scores never increase along `rows`. */
  predicate Descending(rows: seq<Row>) {
    forall i, j :: 0 <= i < j < |rows| ==> rows[i].score >= rows[j].score
  }

  /** The rows scoring exactly `x`, in order. */
  function WithScore(rows: seq<Row>, x: real): seq<Row>
    decreases |rows|
  {
    if rows == [] then []
    else WithScore(rows[..|rows| - 1], x) + (if rows[|rows| - 1].score == x then [rows[|rows| - 1]] else [])
  }

  /** Place `r` after every row that scores at least as much, as a stable sort of a later row does. */
  function InsertRow(sorted: seq<Row>, r: Row): (res: seq<Row>)
    ensures multiset(res) == multiset(sorted) + multiset{r}
    decreases |sorted|
  {
    if sorted == [] then [r]
    else
      var last := sorted[|sorted| - 1];
      if last.score >= r.score then sorted + [r]
      else
        assert sorted == sorted[..|sorted| - 1] + [last];
        InsertRow(sorted[..|sorted| - 1], r) + [last]
  }

  /** Every row scores at least `x`. */
  predicate AtLeast(rows: seq<Row>, x: real) {
    forall i :: 0 <= i < |rows| ==> rows[i].score >= x
  }

  /** Inserting a row that scores at least `x` among rows that do keeps them all at least `x`. */
  lemma {:induction false} InsertRowAtLeast(sorted: seq<Row>, r: Row, x: real)
    requires AtLeast(sorted, x) && r.score >= x
    ensures AtLeast(InsertRow(sorted, r), x)
    decreases |sorted|
  {
    if sorted != [] && sorted[|sorted| - 1].score < r.score {
      var init := sorted[..|sorted| - 1];
      assert AtLeast(init, x);
      InsertRowAtLeast(init, r, x);
    }
  }

  /** Insertion keeps a descending sequence descending. */
  lemma {:induction false} InsertRowDescending(sorted: seq<Row>, r: Row)
    requires Descending(sorted)
    ensures Descending(InsertRow(sorted, r))
    decreases |sorted|
  {
    if sorted != [] {
      var last := sorted[|sorted| - 1];
      if last.score >= r.score {
        var res := sorted + [r];
        forall i, j | 0 <= i < j < |res| ensures res[i].score >= res[j].score {
          if j == |sorted| && i < |sorted| - 1 {
            assert sorted[i].score >= last.score;
          }
        }
      } else {
        var init := sorted[..|sorted| - 1];
        assert Descending(init);
        InsertRowDescending(init, r);
        assert AtLeast(init, last.score);
        InsertRowAtLeast(init, r, last.score);
        var front := InsertRow(init, r);
        var res := front + [last];
        forall i, j | 0 <= i < j < |res| ensures res[i].score >= res[j].score {
          if j == |front| {
            assert res[i] == front[i];
          }
        }
      }
    }
  }

  /** `sorted(data, key=lambda x: x[2], reverse=True)`: insertion of each row in table order. */
  function SortByScore(rows: seq<Row>): (ranked: seq<Row>)
    ensures multiset(ranked) == multiset(rows)
    ensures Descending(ranked)
    decreases |rows|
  {
    if rows == [] then []
    else
      var init := rows[..|rows| - 1];
      assert rows == init + [rows[|rows| - 1]];
      InsertRowDescending(SortByScore(init), rows[|rows| - 1]);
      InsertRow(SortByScore(init), rows[|rows| - 1])
  }

  // ----- collecting the titles ----------------------------------------------------------

  /** Append each title that is not yet in `acc`, in order. */
  function AddTitles(acc: seq<string>, titles: seq<string>): seq<string>
    decreases |titles|
  {
    if titles == [] then acc
    else
      var prev := AddTitles(acc, titles[..|titles| - 1]);
      var t := titles[|titles| - 1];
      if t in prev then prev else prev + [t]
  }

  function TitlesOf(addresses: seq<Address>): (ts: seq<string>)
    ensures |ts| == |addresses| && forall i :: 0 <= i < |ts| ==> ts[i] == addresses[i].title
  {
    if addresses == [] then [] else TitlesOf(addresses[..|addresses| - 1]) + [addresses[|addresses| - 1].title]
  }

  /** Every title of every row, in row order. */
  function AllTitles(rows: seq<Row>): seq<string>
    decreases |rows|
  {
    if rows == [] then [] else AllTitles(rows[..|rows| - 1]) + TitlesOf(rows[|rows| - 1].addresses)
  }

  /** The titles in first-seen order, each once. */
  function Dedup(ts: seq<string>): seq<string> {
    AddTitles([], ts)
  }

  /**
   * The collecting loop: each row adds its new titles; after a row, the loop
   * stops once at least `limit` titles are held.
   */
  function Collect(rows: seq<Row>, limit: nat): seq<string>
    decreases |rows|
  {
    if rows == [] then []
    else
      var prev := Collect(rows[..|rows| - 1], limit);
      if |rows| > 1 && |prev| >= limit then prev else AddTitles(prev, TitlesOf(rows[|rows| - 1].addresses))
  }

  function Take(s: seq<string>, n: nat): seq<string> {
    if |s| <= n then s else s[..n]
  }

  /** `result_addresses[:SEARCH_LIMIT]` over the rows in ranked order. */
  function SearchResults(ranked: seq<Row>, limit: nat): seq<string> {
    Take(Collect(ranked, limit), limit)
  }

  /** The loop of `search` that gathers titles from the ranked rows, then the final truncation. */
  method CollectTitles(ranked: seq<Row>, limit: nat) returns (titles: seq<string>)
    ensures titles == SearchResults(ranked, limit)
  {
    var acc: seq<string> := [];
    var i := 0;
    while i < |ranked|
      invariant 0 <= i <= |ranked|
      invariant acc == Collect(ranked[..i], limit)
      invariant i < |ranked| ==> (i == 0 || |acc| < limit)
      invariant i == |ranked| ==> acc == Collect(ranked, limit)
    {
      CollectStep(ranked, limit, i);
      acc := AddRowTitles(acc, ranked[i].addresses);
      i := i + 1;
      if |acc| >= limit {
        CollectStops(ranked, limit, i);
        break;
      }
    }
    if i == |ranked| {
      assert ranked[..i] == ranked;
    }
    titles := if |acc| <= limit then acc else acc[..limit];
  }

  /** The inner loop over one row's addresses: each title not held yet is appended. */
  method AddRowTitles(acc0: seq<string>, addresses: seq<Address>) returns (acc: seq<string>)
    ensures acc == AddTitles(acc0, TitlesOf(addresses))
  {
    acc := acc0;
    for j := 0 to |addresses|
      invariant acc == AddTitles(acc0, TitlesOf(addresses)[..j])
    {
      assert TitlesOf(addresses)[..j + 1][..j] == TitlesOf(addresses)[..j];
      if addresses[j].title !in acc {
        acc := acc + [addresses[j].title];
      }
    }
    assert TitlesOf(addresses)[..|addresses|] == TitlesOf(addresses);
  }

  // ----- properties ---------------------------------------------------------------------

  /** A row visited before the loop stops adds its titles. */
  lemma CollectStep(rows: seq<Row>, limit: nat, i: nat)
    requires i < |rows|
    requires i == 0 || |Collect(rows[..i], limit)| < limit
    ensures Collect(rows[..i + 1], limit) == AddTitles(Collect(rows[..i], limit), TitlesOf(rows[i].addresses))
  {
    assert rows[..i + 1][..i] == rows[..i];
  }

  /** Once the loop has stopped after `i` rows, later rows change nothing. */
  lemma {:induction false} CollectStops(rows: seq<Row>, limit: nat, i: nat)
    requires 1 <= i <= |rows|
    requires |Collect(rows[..i], limit)| >= limit
    ensures Collect(rows, limit) == Collect(rows[..i], limit)
    decreases |rows| - i
  {
    if i < |rows| {
      assert rows[..i + 1][..i] == rows[..i];
      CollectStops(rows, limit, i + 1);
    } else {
      assert rows[..i] == rows;
    }
  }

  lemma WithScoreSnoc(rows: seq<Row>, r: Row, x: real)
    ensures WithScore(rows + [r], x) == WithScore(rows, x) + (if r.score == x then [r] else [])
  {
    assert (rows + [r])[..|rows|] == rows;
  }

  /** `r` lands after every row of equal score. */
  lemma {:induction false} InsertRowStable(sorted: seq<Row>, r: Row, x: real)
    ensures WithScore(InsertRow(sorted, r), x) == WithScore(sorted, x) + (if r.score == x then [r] else [])
    decreases |sorted|
  {
    if sorted == [] {
      WithScoreSnoc([], r, x);
      assert [] + [r] == [r];
    } else {
      var last := sorted[|sorted| - 1];
      var init := sorted[..|sorted| - 1];
      assert sorted == init + [last];
      WithScoreSnoc(init, last, x);
      if last.score >= r.score {
        WithScoreSnoc(sorted, r, x);
      } else {
        InsertRowStable(init, r, x);
        WithScoreSnoc(InsertRow(init, r), last, x);
      }
    }
  }

  /**
   * The sort is stable: the rows of any one score come out in table order.
   * With `Descending` and the permutation this pins the ranking down completely.
   */
  lemma {:induction false} SortIsStable(rows: seq<Row>, x: real)
    ensures WithScore(SortByScore(rows), x) == WithScore(rows, x)
    decreases |rows|
  {
    if rows != [] {
      var init := rows[..|rows| - 1];
      SortIsStable(init, x);
      InsertRowStable(SortByScore(init), rows[|rows| - 1], x);
    }
  }

  /** `AddTitles` only appends, keeps titles distinct, and holds exactly the old and the offered titles. */
  lemma {:induction false} AddTitlesExtends(acc: seq<string>, ts: seq<string>)
    ensures |AddTitles(acc, ts)| >= |acc| && AddTitles(acc, ts)[..|acc|] == acc
    ensures Distinct(acc) ==> Distinct(AddTitles(acc, ts))
    ensures forall t :: t in AddTitles(acc, ts) <==> t in acc || t in ts
    decreases |ts|
  {
    if ts != [] {
      var init := ts[..|ts| - 1];
      AddTitlesExtends(acc, init);
      var prev := AddTitles(acc, init);
      var t := ts[|ts| - 1];
      assert ts == init + [t];
      if t !in prev {
        assert (prev + [t])[..|acc|] == prev[..|acc|];
        if Distinct(prev) {
          forall i, j | 0 <= i < j < |prev| + 1 ensures (prev + [t])[i] != (prev + [t])[j] {
            if j == |prev| {
              assert (prev + [t])[i] == prev[i];
            }
          }
        }
      }
    }
  }

  lemma {:induction false} AddTitlesAppend(acc: seq<string>, xs: seq<string>, ys: seq<string>)
    ensures AddTitles(acc, xs + ys) == AddTitles(AddTitles(acc, xs), ys)
    decreases |ys|
  {
    if ys == [] {
      assert xs + ys == xs;
    } else {
      assert (xs + ys)[..|xs + ys| - 1] == xs + ys[..|ys| - 1];
      AddTitlesAppend(acc, xs, ys[..|ys| - 1]);
    }
  }

  /**
   * What the loop has collected is a prefix of all titles in first-seen
   * order, and is all of them unless the loop stopped at the limit.
   */
  lemma {:induction false} CollectIsDedupPrefix(rows: seq<Row>, limit: nat)
    ensures var c := Collect(rows, limit);
            var d := Dedup(AllTitles(rows));
            && |c| <= |d| && d[..|c|] == c
            && (c == d || |c| >= limit)
    decreases |rows|
  {
    if rows != [] {
      var init := rows[..|rows| - 1];
      var ts := TitlesOf(rows[|rows| - 1].addresses);
      CollectIsDedupPrefix(init, limit);
      var c := Collect(init, limit);
      var d := Dedup(AllTitles(init));
      AddTitlesAppend([], AllTitles(init), ts);
      AddTitlesExtends(d, ts);
      if |rows| > 1 && |c| >= limit {
        assert AddTitles(d, ts)[..|c|] == d[..|c|];
      } else {
        assert c == d;
      }
    }
  }

  /**
   * Reference definition: the results are the first SEARCH_LIMIT distinct
   * titles of the ranked rows, in first-seen order.
   */
  lemma SearchResultsAreFirstSeen(ranked: seq<Row>, limit: nat)
    ensures SearchResults(ranked, limit) == Take(Dedup(AllTitles(ranked)), limit)
  {
    CollectIsDedupPrefix(ranked, limit);
    var c := Collect(ranked, limit);
    var d := Dedup(AllTitles(ranked));
    if c != d {
      assert d[..limit] == c[..limit];
    }
  }

  /** Every title of every row, found in the addresses. */
  lemma {:induction false} AllTitlesFrom(rows: seq<Row>, t: string)
    requires t in AllTitles(rows)
    ensures exists i, j :: 0 <= i < |rows| && 0 <= j < |rows[i].addresses| && rows[i].addresses[j].title == t
    decreases |rows|
  {
    var init := rows[..|rows| - 1];
    var last := rows[|rows| - 1].addresses;
    if t in AllTitles(init) {
      AllTitlesFrom(init, t);
      var i, j :| 0 <= i < |init| && 0 <= j < |init[i].addresses| && init[i].addresses[j].title == t;
      assert rows[i] == init[i];
    } else {
      var j :| 0 <= j < |last| && TitlesOf(last)[j] == t;
      assert rows[|rows| - 1].addresses[j].title == t;
    }
  }

  /**
   * The results are distinct conversation titles taken from the rows' addresses,
   * at most `limit` of them; when there are fewer, every title of every row is there.
   */
  lemma SearchResultsShape(ranked: seq<Row>, limit: nat)
    ensures var r := SearchResults(ranked, limit);
            && |r| <= limit
            && Distinct(r)
            && (forall t :: t in r ==> exists i, j :: 0 <= i < |ranked| && 0 <= j < |ranked[i].addresses|
                                                && ranked[i].addresses[j].title == t)
            && (|r| < limit ==> forall t :: t in AllTitles(ranked) ==> t in r)
  {
    SearchResultsAreFirstSeen(ranked, limit);
    var d := Dedup(AllTitles(ranked));
    AddTitlesExtends([], AllTitles(ranked));
    var r := SearchResults(ranked, limit);
    forall t | t in r
      ensures exists i, j :: 0 <= i < |ranked| && 0 <= j < |ranked[i].addresses| && ranked[i].addresses[j].title == t
    {
      assert t in d;
      AllTitlesFrom(ranked, t);
    }
    if |d| > limit {
      assert Distinct(d[..limit]) by {
        forall i, j | 0 <= i < j < limit ensures d[..limit][i] != d[..limit][j] {
          assert d[i] != d[j];
        }
      }
    }
  }
}
