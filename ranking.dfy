/** The order of the engine's output (backend/recommendation_algorithm.py): it
    sorts the records by a key of negated confidence, then course code. The
    order is specified by an insertion sort; what the engine relies on (the
    result is ranked and a permutation of its input) is proved about that. */
module Ranking {
  import opened Common

  /** `a` may come before `b`: its key (-confidence, course code) is not greater,
      that is a higher confidence, or an equal one and a code that is not greater. */
  predicate RanksBefore(a: Recommendation, b: Recommendation)
  {
    a.confidence > b.confidence || (a.confidence == b.confidence && LexLe(a.courseCode, b.courseCode))
  }

  lemma RanksBeforeTotal(a: Recommendation, b: Recommendation)
    ensures RanksBefore(a, b) || RanksBefore(b, a)
  {
    LexLeTotal(a.courseCode, b.courseCode);
  }

  lemma RanksBeforeTransitive(a: Recommendation, b: Recommendation, c: Recommendation)
    requires RanksBefore(a, b) && RanksBefore(b, c)
    ensures RanksBefore(a, c)
  {
    if a.confidence == b.confidence == c.confidence {
      LexLeTransitive(a.courseCode, b.courseCode, c.courseCode);
    }
  }

  /** Descending confidence, and ascending course code among equal confidences. */
  predicate Ranked(s: seq<Recommendation>)
  {
    forall i, j :: 0 <= i < j < |s| ==> RanksBefore(s[i], s[j])
  }

  /** Places `x` before the first element it ranks before (so before the elements
      of equal key, which came later in the input). */
  function Insert(x: Recommendation, s: seq<Recommendation>): (r: seq<Recommendation>)
    ensures |r| == |s| + 1
    ensures multiset(r) == multiset(s) + multiset{x}
  {
    if |s| == 0 then [x]
    else if RanksBefore(x, s[0]) then [x] + s
    else
      assert s == [s[0]] + s[1..];
      [s[0]] + Insert(x, s[1..])
  }

  lemma {:induction false} InsertKeepsRanked(x: Recommendation, s: seq<Recommendation>)
    requires Ranked(s)
    ensures Ranked(Insert(x, s))
  {
    if |s| == 0 {
    } else if RanksBefore(x, s[0]) {
      var r := Insert(x, s);
      forall i, j | 0 <= i < j < |r| ensures RanksBefore(r[i], r[j]) {
        if i == 0 && j > 1 {
          RanksBeforeTransitive(x, s[0], s[j - 1]);
        }
      }
    } else {
      RanksBeforeTotal(x, s[0]);
      var rest := Insert(x, s[1..]);
      InsertKeepsRanked(x, s[1..]);
      var r := Insert(x, s);
      assert r == [s[0]] + rest;
      forall i, j | 0 <= i < j < |r| ensures RanksBefore(r[i], r[j]) {
        if i == 0 {
          assert r[j] in multiset(rest);
          if r[j] != x {
            assert r[j] in multiset(s[1..]);
            var k :| 0 <= k < |s[1..]| && s[1..][k] == r[j];
            assert s[k + 1] == r[j];
          }
        } else {
          assert r[i] == rest[i - 1] && r[j] == rest[j - 1];
        }
      }
    }
  }

  /** The sort by rank, as an insertion sort. */
  function SortByRank(s: seq<Recommendation>): (r: seq<Recommendation>)
    ensures |r| == |s|
    ensures multiset(r) == multiset(s)
  {
    if |s| == 0 then []
    else
      assert s == [s[0]] + s[1..];
      Insert(s[0], SortByRank(s[1..]))
  }

  lemma {:induction false} SortByRankRanked(s: seq<Recommendation>)
    ensures Ranked(SortByRank(s))
  {
    if |s| > 0 {
      SortByRankRanked(s[1..]);
      InsertKeepsRanked(s[0], SortByRank(s[1..]));
    }
  }

  /** `s[:max(1, top_n)]` */
  function Top(s: seq<Recommendation>, topN: int): (r: seq<Recommendation>)
    ensures |r| == Min(|s|, Max(1, topN))
    ensures r == s[..|r|]
  {
    s[..Min(Max(1, topN), |s|)]
  }

  lemma RankedPrefix(s: seq<Recommendation>, n: nat)
    requires Ranked(s) && n <= |s|
    ensures Ranked(s[..n])
  {
  }

  /** The first `n` of a ranked list are drawn from it and rank before every
      element left over. */
  lemma RankedPrefixIsBest(s: seq<Recommendation>, n: nat)
    requires Ranked(s) && n <= |s|
    ensures multiset(s[..n]) <= multiset(s)
    ensures forall x, y :: x in s[..n] && y in multiset(s) - multiset(s[..n]) ==> RanksBefore(x, y)
  {
    LeftOutIsSuffix(s, n);
    forall x, y | x in s[..n] && y in multiset(s) - multiset(s[..n])
      ensures RanksBefore(x, y)
    {
      var i :| 0 <= i < n && s[i] == x;
      assert y in s[n..];
      var j :| 0 <= j < |s| - n && s[n..][j] == y;
      assert s[n + j] == y;
    }
  }

  /** Taking a prefix leaves out exactly the matching suffix. */
  lemma LeftOutIsSuffix<T>(s: seq<T>, n: nat)
    requires n <= |s|
    ensures multiset(s[..n]) <= multiset(s)
    ensures multiset(s) - multiset(s[..n]) == multiset(s[n..])
  {
    assert s == s[..n] + s[n..];
  }
}
