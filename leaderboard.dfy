/**
 * The leaderboard kept under the storage key `quiz_leaderboard`: an
 * append-only log of records in insertion order, and the ranked top-3 view
 * built from a stably sorted copy (frontend/script.js, submit handler and resetLeaderboard).
 */
module Leaderboard {
  import opened Wrappers

  /** One finished quiz: `{ name, score, total, category, difficulty }`. */
  datatype Record = Record(name: string, score: nat, total: nat, category: string, difficulty: string)

  /** `JSON.parse(localStorage.getItem("quiz_leaderboard") || "[]")`: an absent key reads as the empty log. */
  function ReadLog(stored: Option<seq<Record>>): seq<Record> {
    stored.GetOr([])
  }

  /** Ordered by score, highest first. */
  predicate SortedDesc(s: seq<Record>) {
    forall i, j :: 0 <= i < j < |s| ==> s[i].score >= s[j].score
  }

  /** The records with score `k`, in the order they appear. */
  function WithScore(s: seq<Record>, k: nat): seq<Record> {
    if s == [] then []
    else (if s[0].score == k then [s[0]] else []) + WithScore(s[1..], k)
  }

  lemma {:induction false} WithScoreAppend(s: seq<Record>, t: seq<Record>, k: nat)
    ensures WithScore(s + t, k) == WithScore(s, k) + WithScore(t, k)
  {
    if s == [] {
      assert s + t == t;
    } else {
      var head := if s[0].score == k then [s[0]] else [];
      WithScoreAppend(s[1..], t, k);
      assert (s + t)[0] == s[0] && (s + t)[1..] == s[1..] + t;
      calc {
        WithScore(s + t, k);
        head + WithScore(s[1..] + t, k);
        head + (WithScore(s[1..], k) + WithScore(t, k));
        (head + WithScore(s[1..], k)) + WithScore(t, k);
      }
    }
  }

  /** Inserts `x` after every record scoring at least as much: later records go after earlier ones of equal score. */
  function Insert(sorted: seq<Record>, x: Record): seq<Record> {
    if sorted == [] then [x]
    else if sorted[0].score >= x.score then [sorted[0]] + Insert(sorted[1..], x)
    else [x] + sorted
  }

  /** The comparator `(a, b) => b.score - a.score` under a stable sort, as an insertion sort in log order. */
  function SortByScore(log: seq<Record>): seq<Record> {
    if log == [] then [] else Insert(SortByScore(log[..|log| - 1]), log[|log| - 1])
  }

  /** Every record of `s` scores at most `b`. */
  predicate AllAtMost(s: seq<Record>, b: nat) {
    forall i :: 0 <= i < |s| ==> s[i].score <= b
  }

  /** Inserting adds `x` and loses nothing. */
  lemma {:induction false} InsertPermutes(sorted: seq<Record>, x: Record)
    ensures |Insert(sorted, x)| == |sorted| + 1
    ensures multiset(Insert(sorted, x)) == multiset(sorted) + multiset{x}
  {
    if sorted != [] && sorted[0].score >= x.score {
      InsertPermutes(sorted[1..], x);
      assert sorted == [sorted[0]] + sorted[1..];
    }
  }

  /** Inserting a record that scores at most `b` into records that do leaves a list that does. */
  lemma {:induction false} InsertBounded(s: seq<Record>, x: Record, b: nat)
    requires AllAtMost(s, b) && x.score <= b
    ensures AllAtMost(Insert(s, x), b)
  {
    if s != [] && s[0].score >= x.score {
      InsertBounded(s[1..], x, b);
    }
  }

  /** Inserting into a list sorted by score keeps it sorted. */
  lemma {:induction false} InsertSorted(sorted: seq<Record>, x: Record)
    requires SortedDesc(sorted)
    ensures SortedDesc(Insert(sorted, x))
  {
    if sorted != [] && sorted[0].score >= x.score {
      var rest := Insert(sorted[1..], x);
      InsertSorted(sorted[1..], x);
      InsertBounded(sorted[1..], x, sorted[0].score);
      assert Insert(sorted, x) == [sorted[0]] + rest;
    }
  }

  /** In a list sorted by score, no record scores `k` when the first one scores less. */
  lemma {:induction false} NoneWithScore(sorted: seq<Record>, k: nat)
    requires SortedDesc(sorted) && sorted != [] && sorted[0].score < k
    ensures WithScore(sorted, k) == []
  {
    if |sorted| > 1 {
      NoneWithScore(sorted[1..], k);
    }
  }

  /** The inserted record comes after every record of its score already there. */
  lemma {:induction false} InsertStable(sorted: seq<Record>, x: Record, k: nat)
    requires SortedDesc(sorted)
    ensures WithScore(Insert(sorted, x), k) == WithScore(sorted, k) + WithScore([x], k)
  {
    if sorted == [] {
    } else if sorted[0].score >= x.score {
      var head := if sorted[0].score == k then [sorted[0]] else [];
      var rest := Insert(sorted[1..], x);
      InsertStable(sorted[1..], x, k);
      assert Insert(sorted, x)[0] == sorted[0] && Insert(sorted, x)[1..] == rest;
      calc {
        WithScore(Insert(sorted, x), k);
        head + WithScore(rest, k);
        head + (WithScore(sorted[1..], k) + WithScore([x], k));
        (head + WithScore(sorted[1..], k)) + WithScore([x], k);
      }
    } else {
      WithScoreAppend([x], sorted, k);
      if x.score == k {
        NoneWithScore(sorted, k);
      }
    }
  }

  /** The sorted copy holds exactly the log's records. */
  lemma {:induction false} SortByScorePermutes(log: seq<Record>)
    ensures |SortByScore(log)| == |log|
    ensures multiset(SortByScore(log)) == multiset(log)
  {
    if log != [] {
      var n := |log| - 1;
      SortByScorePermutes(log[..n]);
      InsertPermutes(SortByScore(log[..n]), log[n]);
      assert log == log[..n] + [log[n]];
    }
  }

  /** The sorted copy is ordered by score, highest first. */
  lemma {:induction false} SortByScoreSorted(log: seq<Record>)
    ensures SortedDesc(SortByScore(log))
  {
    if log != [] {
      var n := |log| - 1;
      SortByScoreSorted(log[..n]);
      InsertSorted(SortByScore(log[..n]), log[n]);
    }
  }

  /** The sort is stable: the records of each score keep their insertion order. */
  lemma {:induction false} SortByScoreStable(log: seq<Record>, k: nat)
    ensures WithScore(SortByScore(log), k) == WithScore(log, k)
  {
    if log != [] {
      var n := |log| - 1;
      SortByScoreStable(log[..n], k);
      SortByScoreSorted(log[..n]);
      InsertStable(SortByScore(log[..n]), log[n], k);
      assert log == log[..n] + [log[n]];
      WithScoreAppend(log[..n], [log[n]], k);
    }
  }

  /** `[...allScores].sort((a, b) => b.score - a.score).slice(0, 3)`. */
  function TopThree(log: seq<Record>): seq<Record> {
    var sorted := SortByScore(log);
    sorted[..Min(3, |sorted|)]
  }

  /** The ranked view holds `min(3, |log|)` of the log's records, highest score first. */
  lemma TopThreeShape(log: seq<Record>)
    ensures |TopThree(log)| == Min(3, |log|)
    ensures SortedDesc(TopThree(log))
    ensures multiset(TopThree(log)) <= multiset(log)
  {
    var sorted := SortByScore(log);
    SortByScorePermutes(log);
    SortByScoreSorted(log);
    var m := Min(3, |sorted|);
    assert sorted == sorted[..m] + sorted[m..];
    assert multiset(sorted) == multiset(sorted[..m]) + multiset(sorted[m..]);
  }

  /** In a list sorted by score, nothing after position `m` scores more than anything before it. */
  lemma SortedSplit(sorted: seq<Record>, m: nat)
    requires SortedDesc(sorted) && m <= |sorted|
    ensures forall x, y :: x in sorted[m..] && y in sorted[..m] ==> x.score <= y.score
  {
  }

  /** No record left out of the ranked view scores more than a record shown in it. */
  lemma TopThreeHighest(log: seq<Record>)
    ensures forall x, y :: x in multiset(log) - multiset(TopThree(log)) && y in TopThree(log) ==> x.score <= y.score
  {
    var sorted := SortByScore(log);
    SortByScorePermutes(log);
    SortByScoreSorted(log);
    var m := Min(3, |sorted|);
    SortedSplit(sorted, m);
    assert sorted == sorted[..m] + sorted[m..];
    assert multiset(log) - multiset(sorted[..m]) == multiset(sorted[m..]);
  }

  /** Ties keep insertion order: the shown records of each score are the earliest ones of that score in the log. */
  lemma TopThreeStable(log: seq<Record>, k: nat)
    ensures WithScore(TopThree(log), k) <= WithScore(log, k)
  {
    var sorted := SortByScore(log);
    var m := Min(3, |sorted|);
    assert sorted == sorted[..m] + sorted[m..];
    SortByScoreStable(log, k);
    WithScoreAppend(sorted[..m], sorted[m..], k);
  }

  /** `allScores.push(record)`: the record goes at the end and every earlier record is kept as it was. */
  function Append(log: seq<Record>, record: Record): (log': seq<Record>)
    ensures |log'| == |log| + 1
    ensures log'[..|log|] == log && log'[|log|] == record
  {
    log + [record]
  }

  /** A removed key reads as the empty log, whose ranked view is empty; a present key reads as its list. */
  lemma ClearedBoardIsEmpty(stored: Option<seq<Record>>)
    ensures stored.Some? ==> ReadLog(stored) == stored.value
    ensures ReadLog(None) == [] && TopThree(ReadLog(None)) == []
  {
  }

  /**
   * Five records with scores 2, 5, 5, 1, 3 in that order: the ranked view is
   * the two records of score 5 in insertion order, then the one of score 3.
   */
  lemma TopThreeExample(a: Record, b: Record, c: Record, d: Record, e: Record)
    requires a.score == 2 && b.score == 5 && c.score == 5 && d.score == 1 && e.score == 3
    ensures TopThree([a, b, c, d, e]) == [b, c, e]
  {
    var log := [a, b, c, d, e];
    assert log[..4] == [a, b, c, d] && log[..4][..3] == [a, b, c];
    assert log[..4][..3][..2] == [a, b] && log[..4][..3][..2][..1] == [a];
    assert SortByScore([a]) == [a];
    assert SortByScore([a, b]) == [b, a];
    assert Insert([a], c) == [c, a];
    assert SortByScore([a, b, c]) == [b, c, a];
    assert Insert([a], d) == [a, d];
    assert Insert([c, a], d) == [c, a, d];
    assert SortByScore([a, b, c, d]) == [b, c, a, d];
    assert Insert([a, d], e) == [e, a, d];
    assert Insert([c, a, d], e) == [c, e, a, d];
    assert SortByScore(log) == [b, c, e, a, d];
  }
}
