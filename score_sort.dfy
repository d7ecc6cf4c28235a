/**
 * `results.sort(key=lambda x: x["score"], reverse=True)`: a stable sort of
 * search hits by descending score. Python's sort keeps equal keys in their
 * original order even when `reverse=True`. SortByScore is the reference
 * definition (insertion of each hit after every hit whose score is at least
 * its own); the lemmas show it is ordered, a permutation, and stable.
 */
module ScoreSort {
  import opened Records

  /** Scores never increase from left to right. */
  ghost predicate SortedByScore(s: seq<Hit>) {
    forall i, j :: 0 <= i < j < |s| ==> s[i].score >= s[j].score
  }

  /** Every hit of `s` scores at most `b`. */
  ghost predicate ScoresAtMost(s: seq<Hit>, b: real) {
    forall i :: 0 <= i < |s| ==> s[i].score <= b
  }

  /** Inserts `h` after every hit of `s` whose score is at least `h`'s. */
  function InsertByScore(h: Hit, s: seq<Hit>): (r: seq<Hit>)
    ensures |r| == |s| + 1
  {
    if s == [] then [h]
    else if s[0].score < h.score then [h] + s
    else [s[0]] + InsertByScore(h, s[1..])
  }

  /** The stable descending sort: each hit in turn is inserted into the sorted prefix before it. */
  function SortByScore(s: seq<Hit>): (r: seq<Hit>)
    ensures |r| == |s|
  {
    if s == [] then []
    else InsertByScore(s[|s| - 1], SortByScore(s[..|s| - 1]))
  }

  /** The hits of `s` with score exactly `v`, in their order in `s`. */
  function WithScore(s: seq<Hit>, v: real): seq<Hit> {
    if s == [] then []
    else (if s[0].score == v then [s[0]] else []) + WithScore(s[1..], v)
  }

  lemma {:induction false} InsertPermutes(h: Hit, s: seq<Hit>)
    ensures multiset(InsertByScore(h, s)) == multiset(s) + multiset{h}
    decreases |s|
  {
    if s != [] && !(s[0].score < h.score) {
      InsertPermutes(h, s[1..]);
      assert s == [s[0]] + s[1..];
    }
  }

  /** The sort only rearranges: the result holds the same hits, each as often. */
  lemma {:induction false} SortByScorePermutes(s: seq<Hit>)
    ensures multiset(SortByScore(s)) == multiset(s)
    decreases |s|
  {
    if s != [] {
      var init := s[..|s| - 1];
      SortByScorePermutes(init);
      InsertPermutes(s[|s| - 1], SortByScore(init));
      assert s == init + [s[|s| - 1]];
    }
  }

  lemma {:induction false} InsertBounded(h: Hit, s: seq<Hit>, b: real)
    requires h.score <= b && ScoresAtMost(s, b)
    ensures ScoresAtMost(InsertByScore(h, s), b)
    decreases |s|
  {
    if s != [] && !(s[0].score < h.score) {
      InsertBounded(h, s[1..], b);
      var t := InsertByScore(h, s[1..]);
      assert forall i :: 0 < i < |t| + 1 ==> ([s[0]] + t)[i] == t[i - 1];
    }
  }

  lemma {:induction false} InsertKeepsSorted(h: Hit, s: seq<Hit>)
    requires SortedByScore(s)
    ensures SortedByScore(InsertByScore(h, s))
    decreases |s|
  {
    if s == [] {
    } else if s[0].score < h.score {
      var r := [h] + s;
      forall i, j | 0 <= i < j < |r| ensures r[i].score >= r[j].score {
        assert r[j] == s[j - 1];
        if i > 0 { assert r[i] == s[i - 1]; } else { assert s[0].score >= s[j - 1].score; }
      }
    } else {
      var t := InsertByScore(h, s[1..]);
      InsertKeepsSorted(h, s[1..]);
      InsertBounded(h, s[1..], s[0].score);
      var r := [s[0]] + t;
      forall i, j | 0 <= i < j < |r| ensures r[i].score >= r[j].score {
        assert r[j] == t[j - 1];
        if i > 0 { assert r[i] == t[i - 1]; }
      }
    }
  }

  /** The sort orders hits by non-increasing score. */
  lemma {:induction false} SortByScoreSorted(s: seq<Hit>)
    ensures SortedByScore(SortByScore(s))
    decreases |s|
  {
    if s != [] {
      SortByScoreSorted(s[..|s| - 1]);
      InsertKeepsSorted(s[|s| - 1], SortByScore(s[..|s| - 1]));
    }
  }

  lemma {:induction false} WithScoreAppend(a: seq<Hit>, b: seq<Hit>, v: real)
    ensures WithScore(a + b, v) == WithScore(a, v) + WithScore(b, v)
    decreases |a|
  {
    if a == [] {
      assert a + b == b;
    } else {
      assert (a + b)[1..] == a[1..] + b;
      WithScoreAppend(a[1..], b, v);
    }
  }

  lemma {:induction false} WithScoreNone(s: seq<Hit>, v: real)
    requires forall i :: 0 <= i < |s| ==> s[i].score < v
    ensures WithScore(s, v) == []
    decreases |s|
  {
    if s != [] {
      WithScoreNone(s[1..], v);
    }
  }

  lemma {:induction false} InsertStable(h: Hit, s: seq<Hit>, v: real)
    requires SortedByScore(s)
    ensures WithScore(InsertByScore(h, s), v) == WithScore(s, v) + (if h.score == v then [h] else [])
    decreases |s|
  {
    if s == [] {
    } else if s[0].score < h.score {
      var r := [h] + s;
      assert r[1..] == s;
      if h.score == v {
        assert forall i :: 0 <= i < |s| ==> s[0].score >= s[i].score;
        WithScoreNone(s, v);
      }
    } else {
      var t := InsertByScore(h, s[1..]);
      assert ([s[0]] + t)[1..] == t;
      InsertStable(h, s[1..], v);
    }
  }

  /**
   * Stability: for every score value, the hits with that score appear in the
   * sorted list in exactly the order they had before sorting.
   */
  lemma {:induction false} SortByScoreStable(s: seq<Hit>, v: real)
    ensures WithScore(SortByScore(s), v) == WithScore(s, v)
    decreases |s|
  {
    if s != [] {
      var init, last := s[..|s| - 1], s[|s| - 1];
      var hv := if last.score == v then [last] else [];
      SortByScoreSorted(init);
      InsertStable(last, SortByScore(init), v);
      SortByScoreStable(init, v);
      assert WithScore([last], v) == hv;
      assert s == init + [last];
      WithScoreAppend(init, [last], v);
    }
  }
}
