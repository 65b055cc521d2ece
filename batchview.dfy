/** The batch table of the decision-support view (frontend/src/App.jsx):
    the scored batch is reordered by descending score before it is shown. */
module BatchView {
  import opened Scoring

  /** Places e before the first entry whose score is not higher, so among
      equal scores e comes first. */
  function InsertByScore(e: BatchEntry, es: seq<BatchEntry>): (r: seq<BatchEntry>)
    ensures |r| == |es| + 1
  {
    if es == [] || es[0].result.score <= e.result.score then [e] + es
    else [es[0]] + InsertByScore(e, es[1..])
  }

  /** `[...results].sort((a, b) => b.result.score - a.result.score)`: the
      stable sort by descending score. */
  function SortByScore(es: seq<BatchEntry>): (r: seq<BatchEntry>)
    ensures |r| == |es|
  {
    if es == [] then [] else InsertByScore(es[0], SortByScore(es[1..]))
  }

  /** Scores never increase along es. */
  predicate Descending(es: seq<BatchEntry>) {
    forall i, j :: 0 <= i < j < |es| ==> es[i].result.score >= es[j].result.score
  }

  /** The entries of es with score s, in their order. */
  function WithScore(es: seq<BatchEntry>, s: int): seq<BatchEntry> {
    if es == [] then []
    else (if es[0].result.score == s then [es[0]] else []) + WithScore(es[1..], s)
  }

  lemma {:induction false} InsertKeepsEntries(e: BatchEntry, es: seq<BatchEntry>)
    ensures multiset(InsertByScore(e, es)) == multiset(es) + multiset{e}
  {
    if es != [] && es[0].result.score > e.result.score {
      InsertKeepsEntries(e, es[1..]);
      assert es == [es[0]] + es[1..];
    }
  }

  lemma {:induction false} InsertDescending(e: BatchEntry, es: seq<BatchEntry>)
    requires Descending(es)
    ensures Descending(InsertByScore(e, es))
  {
    if es != [] && es[0].result.score > e.result.score {
      InsertDescending(e, es[1..]);
      InsertKeepsEntries(e, es[1..]);
      var r := InsertByScore(e, es[1..]);
      forall j | 0 <= j < |r|
        ensures es[0].result.score >= r[j].result.score
      {
        assert r[j] in multiset(es[1..]) + multiset{e};
        if r[j] != e {
          assert r[j] in es[1..];
        }
      }
    }
  }

  /** The entries skipped over by an insertion all score higher, so the
      entries of any one score keep their order, e first. */
  lemma {:induction false} InsertWithScore(e: BatchEntry, es: seq<BatchEntry>, s: int)
    ensures WithScore(InsertByScore(e, es), s) ==
      (if e.result.score == s then [e] else []) + WithScore(es, s)
  {
    if es != [] && es[0].result.score > e.result.score {
      InsertWithScore(e, es[1..], s);
      var r := InsertByScore(e, es);
      assert r[0] == es[0] && r[1..] == InsertByScore(e, es[1..]);
    }
  }

  /** The sort reorders the entries (none lost, none added) into
      non-increasing score. */
  lemma {:induction false} SortByScoreCorrect(es: seq<BatchEntry>)
    ensures multiset(SortByScore(es)) == multiset(es)
    ensures Descending(SortByScore(es))
  {
    if es != [] {
      SortByScoreCorrect(es[1..]);
      InsertKeepsEntries(es[0], SortByScore(es[1..]));
      InsertDescending(es[0], SortByScore(es[1..]));
      assert es == [es[0]] + es[1..];
    }
  }

  /** The sort is stable: entries with the same score stay in the order
      the batch returned them. */
  lemma {:induction false} SortByScoreStable(es: seq<BatchEntry>, s: int)
    ensures WithScore(SortByScore(es), s) == WithScore(es, s)
  {
    if es != [] {
      SortByScoreStable(es[1..], s);
      InsertWithScore(es[0], SortByScore(es[1..]), s);
    }
  }

  /** A row of the table: the claim's input with its score, priority and
      explanation. */
  datatype BatchRow = BatchRow(input: ClaimInput, score: int, priority: Priority, explanation: string)

  /** The rows shown after scoring a batch. */
  function ShownRows(results: seq<BatchEntry>): (r: seq<BatchRow>)
    ensures |r| == |results|
  {
    var sorted := SortByScore(results);
    seq(|sorted|, i requires 0 <= i < |sorted| =>
      BatchRow(sorted[i].input, sorted[i].result.score, sorted[i].result.priority, sorted[i].result.explanation))
  }

  /** Every shown row is one of the scored entries, and scores never
      increase down the table. */
  lemma ShownRowsFromResults(results: seq<BatchEntry>)
    ensures var rows := ShownRows(results);
      && (forall i, j :: 0 <= i < j < |rows| ==> rows[i].score >= rows[j].score)
      && (forall i :: 0 <= i < |rows| ==>
            (exists k :: 0 <= k < |results| && rows[i].input == results[k].input
                         && rows[i].score == results[k].result.score))
  {
    SortByScoreCorrect(results);
    var sorted := SortByScore(results);
    forall i | 0 <= i < |sorted|
      ensures sorted[i] in results
    {
      assert sorted[i] in multiset(results);
    }
  }

  /** The table after "Score batch" has one row per scored claim, highest
      score first, each row showing the score the backend gave its claim. */
  lemma ShownRowsRanked(claims: seq<ClaimInput>)
    ensures var rows := ShownRows(Entries(claims));
      && |rows| == |claims|
      && (forall i, j :: 0 <= i < j < |rows| ==> rows[i].score >= rows[j].score)
      && (forall i :: 0 <= i < |rows| ==> rows[i].input in claims && rows[i].score == ScoreOf(rows[i].input).score)
  {
    var results := Entries(claims);
    var rows := ShownRows(results);
    ShownRowsFromResults(results);
    EntriesScoreEachClaim(claims);
    forall i | 0 <= i < |rows|
      ensures rows[i].input in claims && rows[i].score == ScoreOf(rows[i].input).score
    {
      var k :| 0 <= k < |results| && rows[i].input == results[k].input && rows[i].score == results[k].result.score;
      assert results[k].input == claims[k];
    }
  }
}
