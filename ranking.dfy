/**
 * The keyword ranking of `SimpleKnowledgeBase.search` as functions: which
 * articles are hits, how each is scored and previewed, and how the hit list is
 * ordered and cut to `k`. The search method of the knowledge base is proved
 * to compute Ranked; the lemmas below state what Ranked guarantees.
 */
module Ranking {
  import opened Wrappers
  import opened Text
  import opened Records
  import opened ScoreSort

  /** Content longer than this is cut to a preview in a hit. */
  const PreviewLength: nat := 500

  /** Python's truthiness of `category`: None and "" filter nothing. */
  predicate FilterActive(category: Option<string>): (b: bool)
    ensures !b <==> category == None || category == Some("")
  {
    category.Some? && category.value != ""
  }

  /** `if category and item["category"] != category: continue`. */
  predicate PassesFilter(category: Option<string>, item: Item): (b: bool)
    ensures !FilterActive(category) ==> b
    ensures FilterActive(category) ==> (b <==> item.category == category.value)
  {
    !(FilterActive(category) && item.category != category.value)
  }

  /** `word in content_lower or word in title_lower`. */
  predicate WordMatches(word: string, titleLower: string, contentLower: string) {
    Contains(contentLower, word) || Contains(titleLower, word)
  }

  /**
   * The number of query words (repetitions included) that occur in the
   * lower-cased title or content.
   */
  function MatchCount(words: seq<string>, titleLower: string, contentLower: string): (r: nat)
    ensures r <= |words|
    ensures r > 0 <==> exists i :: 0 <= i < |words| && WordMatches(words[i], titleLower, contentLower)
  {
    if words == [] then 0
    else
      var init := words[..|words| - 1];
      var r := MatchCount(init, titleLower, contentLower)
        + (if WordMatches(words[|words| - 1], titleLower, contentLower) then 1 else 0);
      assert forall i :: 0 <= i < |init| ==> init[i] == words[i];
      r
  }

  function ItemMatches(item: Item, words: seq<string>): nat {
    MatchCount(words, Lower(item.title), Lower(item.content))
  }

  /** An article is a hit when it passes the category filter and at least one query word matches it. */
  predicate Selected(item: Item, words: seq<string>, category: Option<string>) {
    PassesFilter(category, item) && ItemMatches(item, words) > 0
  }

  /**
   * The hit built for a matching article: the content previewed at 500
   * characters, title, category and tags copied, and the score
   * `matches / len(query_words)`, which lies in (0, 1] (see Ratio).
   */
  function HitFor(item: Item, words: seq<string>): (h: Hit)
    requires ItemMatches(item, words) > 0
    ensures 0.0 < h.score <= 1.0
    ensures h.score == Ratio(ItemMatches(item, words), |words|)
  {
    Hit(Truncate(item.content, PreviewLength), Metadata(item.title, item.category, item.tags), Ratio(ItemMatches(item, words), |words|))
  }

  /** `matches / len(query_words)`: a count of matching words over the number of words, a ratio in (0, 1]. */
  function Ratio(m: nat, n: nat): (r: real)
    requires 0 < m <= n
    ensures 0.0 < r <= 1.0
    ensures r * n as real == m as real
  {
    m as real / n as real
  }

  /** The hits before sorting, in article order. */
  function Candidates(items: seq<Item>, words: seq<string>, category: Option<string>): (r: seq<Hit>)
    ensures |r| <= |items|
  {
    if items == [] then []
    else
      var init, last := items[..|items| - 1], items[|items| - 1];
      Candidates(init, words, category) + (if Selected(last, words, category) then [HitFor(last, words)] else [])
  }

  /** Python's `s[:k]`: a negative `k` drops the last `|k|` elements. */
  function PyPrefix<T>(s: seq<T>, k: int): (r: seq<T>)
    ensures |r| <= |s| && r == s[..|r|]
    ensures k >= 0 ==> |r| <= k
  {
    if k >= 0 then (if k <= |s| then s[..k] else s)
    else (if |s| + k >= 0 then s[..|s| + k] else [])
  }

  /**
   * The query words: the lower-cased query split on whitespace. They are
   * non-empty and whitespace-free, and there are none exactly when the query
   * is blank.
   */
  function QueryWords(query: string): (words: seq<string>)
    ensures forall w :: w in words ==> w != [] && NoSpace(w)
    ensures words == [] <==> AllSpace(query)
  {
    var lower := Lower(query);
    SplitEmptyIffBlank(lower);
    LowerKeepsSpace(query);
    Split(lower)
  }

  /**
   * The result of `search(query, k, category)` over `items`: never more hits
   * than articles, and never more than `k` for `k >= 0`.
   */
  function Ranked(items: seq<Item>, query: string, k: int, category: Option<string>): (r: seq<Hit>)
    ensures |r| <= |items|
    ensures k >= 0 ==> |r| <= k
  {
    PyPrefix(SortByScore(Candidates(items, QueryWords(query), category)), k)
  }

  // ---------------------------------------------------------------------------
  // What the ranking guarantees

  /** Every candidate is the hit of a selected article. */
  lemma {:induction false} CandidatesSound(items: seq<Item>, words: seq<string>, category: Option<string>)
    ensures forall h :: h in Candidates(items, words, category) ==>
              exists i :: 0 <= i < |items| && Selected(items[i], words, category) && h == HitFor(items[i], words)
    decreases |items|
  {
    if items != [] {
      var init := items[..|items| - 1];
      CandidatesSound(init, words, category);
      forall h | h in Candidates(items, words, category)
        ensures exists i :: 0 <= i < |items| && Selected(items[i], words, category) && h == HitFor(items[i], words)
      {
        if h in Candidates(init, words, category) {
          var i :| 0 <= i < |init| && Selected(init[i], words, category) && h == HitFor(init[i], words);
          assert items[i] == init[i];
        } else {
          assert Selected(items[|items| - 1], words, category);
        }
      }
    }
  }

  /** Every selected article contributes its hit. */
  lemma {:induction false} CandidatesComplete(items: seq<Item>, words: seq<string>, category: Option<string>)
    ensures forall i :: 0 <= i < |items| && Selected(items[i], words, category) ==>
              HitFor(items[i], words) in Candidates(items, words, category)
    decreases |items|
  {
    if items != [] {
      var init := items[..|items| - 1];
      CandidatesComplete(init, words, category);
      forall i | 0 <= i < |items| && Selected(items[i], words, category)
        ensures HitFor(items[i], words) in Candidates(items, words, category)
      {
        if i < |init| {
          assert items[i] == init[i];
        }
      }
    }
  }

  /** With no query words no article matches, so there are no candidates and no division by zero. */
  lemma {:induction false} NoWordsNoCandidates(items: seq<Item>, category: Option<string>)
    ensures Candidates(items, [], category) == []
    decreases |items|
  {
    if items != [] {
      NoWordsNoCandidates(items[..|items| - 1], category);
    }
  }

  /** A query that is empty or all whitespace returns nothing. */
  lemma BlankQueryNoResults(items: seq<Item>, query: string, k: int, category: Option<string>)
    requires AllSpace(query)
    ensures QueryWords(query) == []
    ensures Ranked(items, query, k, category) == []
  {
    assert AllSpace(Lower(query));
    SplitEmptyIffBlank(Lower(query));
    NoWordsNoCandidates(items, category);
  }

  /**
   * Every result is the hit of an article that passes the filter and matches
   * at least one query word: its score is `matches / len(query_words)` with
   * `0 < matches <= len(query_words)`, its content is the 500-character
   * preview, and its title, category and tags are the article's.
   */
  lemma RankedHitsAreSelected(items: seq<Item>, query: string, k: int, category: Option<string>)
    ensures forall h :: h in Ranked(items, query, k, category) ==>
              exists i :: 0 <= i < |items| && Selected(items[i], QueryWords(query), category)
                       && h == HitFor(items[i], QueryWords(query))
  {
    var words := QueryWords(query);
    var c := Candidates(items, words, category);
    CandidatesSound(items, words, category);
    SortKeepsMembers(c);
    var sorted := SortByScore(c);
    var r := Ranked(items, query, k, category);
    forall h | h in r
      ensures exists i :: 0 <= i < |items| && Selected(items[i], words, category) && h == HitFor(items[i], words)
    {
      var j :| 0 <= j < |r| && r[j] == h;
      assert sorted[j] == h;
      assert h in c;
    }
  }

  /** Sorting neither adds nor drops a hit. */
  lemma SortKeepsMembers(c: seq<Hit>)
    ensures forall h :: h in SortByScore(c) <==> h in c
  {
    SortByScorePermutes(c);
    forall h ensures h in SortByScore(c) <==> h in c {
      assert h in SortByScore(c) <==> h in multiset(SortByScore(c));
    }
  }

  /** Every returned score lies in (0, 1]. */
  lemma RankedScoresInRange(items: seq<Item>, query: string, k: int, category: Option<string>)
    ensures forall h :: h in Ranked(items, query, k, category) ==> 0.0 < h.score <= 1.0
  {
    RankedHitsAreSelected(items, query, k, category);
  }

  /** With a non-empty category filter every result belongs to that category. */
  lemma RankedRespectsCategory(items: seq<Item>, query: string, k: int, category: Option<string>)
    requires FilterActive(category)
    ensures forall h :: h in Ranked(items, query, k, category) ==> h.metadata.category == category.value
  {
    RankedHitsAreSelected(items, query, k, category);
  }

  /**
   * When `k` is at least the number of articles, every article that passes
   * the filter and matches a query word is returned; with no filter (None or
   * "") that is every matching article.
   */
  lemma RankedComplete(items: seq<Item>, query: string, k: int, category: Option<string>)
    requires k >= |items|
    ensures forall i :: 0 <= i < |items| && Selected(items[i], QueryWords(query), category) ==>
              HitFor(items[i], QueryWords(query)) in Ranked(items, query, k, category)
    ensures !FilterActive(category) ==>
              forall i :: 0 <= i < |items| && ItemMatches(items[i], QueryWords(query)) > 0 ==>
                HitFor(items[i], QueryWords(query)) in Ranked(items, query, k, category)
  {
    var words := QueryWords(query);
    var c := Candidates(items, words, category);
    CandidatesComplete(items, words, category);
    assert Ranked(items, query, k, category) == SortByScore(c);
    SortKeepsMembers(c);
  }

  /** The results come in non-increasing score order. */
  lemma RankedSorted(items: seq<Item>, query: string, k: int, category: Option<string>)
    ensures SortedByScore(Ranked(items, query, k, category))
  {
    var sorted := SortByScore(Candidates(items, QueryWords(query), category));
    var r := Ranked(items, query, k, category);
    SortByScoreSorted(Candidates(items, QueryWords(query), category));
    assert forall i :: 0 <= i < |r| ==> r[i] == sorted[i];
  }

  /**
   * The results are the top `k`: no hit that the cut leaves out scores higher
   * than a hit that is returned.
   */
  lemma RankedTopK(items: seq<Item>, query: string, k: int, category: Option<string>)
    ensures var c := SortByScore(Candidates(items, QueryWords(query), category));
            var r := Ranked(items, query, k, category);
            r == c[..|r|] &&
            forall i, j :: 0 <= i < |r| <= j < |c| ==> r[i].score >= c[j].score
  {
    SortByScoreSorted(Candidates(items, QueryWords(query), category));
  }

  /**
   * Ties keep article order (the sort is stable): for each score, the results
   * with that score are the leading candidates with that score, in the order
   * of their articles.
   */
  lemma RankedStable(items: seq<Item>, query: string, k: int, category: Option<string>, v: real)
    ensures WithScore(Ranked(items, query, k, category), v) <= WithScore(Candidates(items, QueryWords(query), category), v)
  {
    var c := Candidates(items, QueryWords(query), category);
    var sorted := SortByScore(c);
    var r := Ranked(items, query, k, category);
    SortByScoreStable(c, v);
    assert sorted == r + sorted[|r|..];
    WithScoreAppend(r, sorted[|r|..], v);
  }

  /**
   * For `k >= 0` the result holds `min(k, #hits)` elements (so `k = 0` gives
   * none); a negative `k` drops the last `|k|` hits, as a Python slice does.
   */
  lemma RankedLength(items: seq<Item>, query: string, k: int, category: Option<string>)
    ensures var n := |Candidates(items, QueryWords(query), category)|;
            |Ranked(items, query, k, category)| == if k >= 0 then (if k <= n then k else n)
                                                    else (if n + k >= 0 then n + k else 0)
    ensures k == 0 ==> Ranked(items, query, k, category) == []
  {
  }

  /** Each query word is counted on its own: repeating the query doubles the match count. */
  lemma {:induction false} MatchCountAppend(a: seq<string>, b: seq<string>, titleLower: string, contentLower: string)
    ensures MatchCount(a + b, titleLower, contentLower) == MatchCount(a, titleLower, contentLower) + MatchCount(b, titleLower, contentLower)
    decreases |b|
  {
    if b == [] {
      assert a + b == a;
    } else {
      var ab := a + b;
      assert ab[..|ab| - 1] == a + b[..|b| - 1];
      assert ab[|ab| - 1] == b[|b| - 1];
      MatchCountAppend(a, b[..|b| - 1], titleLower, contentLower);
    }
  }

  /** A query whose every word repeats keeps the same scores: the duplicates count in both numerator and denominator. */
  lemma DuplicatedQueryKeepsScore(item: Item, words: seq<string>)
    requires ItemMatches(item, words) > 0
    ensures ItemMatches(item, words + words) == 2 * ItemMatches(item, words)
    ensures HitFor(item, words + words).score == HitFor(item, words).score
  {
    var m, n := ItemMatches(item, words), |words|;
    MatchCountAppend(words, words, Lower(item.title), Lower(item.content));
    assert ItemMatches(item, words + words) == 2 * m;
    assert |words + words| == 2 * n;
    RatioScaled(m, n);
  }

  lemma RatioScaled(m: nat, n: nat)
    requires 0 < m <= n
    ensures Ratio(2 * m, 2 * n) == Ratio(m, n)
  {
  }
}
