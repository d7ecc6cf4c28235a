/**
 * The keyword knowledge base: `SimpleKnowledgeBase` (an append-only list of
 * support articles, seeded with five samples), the `KnowledgeBaseManager` that
 * delegates to it, and the mock vector store whose retriever returns the top
 * three search hits as documents.
 */
module KnowledgeBase {
  import opened Wrappers
  import opened Text
  import opened Records
  import opened ScoreSort
  import opened Ranking
  import opened SampleArticles

  /** The id `add_document` gives the article stored at position `n`: `f"doc_{n}"`. */
  function DocId(n: nat): (id: string)
    ensures |id| > 4 && id[..4] == "doc_"
  {
    "doc_" + ToDecimal(n)
  }

  /**
   * After the "doc_" prefix comes `str(n)`: decimal digits, without a leading
   * zero unless the position is 0, that read back as the position.
   */
  lemma DocIdReadsBack(n: nat)
    ensures forall i :: 4 <= i < |DocId(n)| ==> '0' <= DocId(n)[i] <= '9'
    ensures DocId(n)[4] == '0' ==> n == 0
    ensures ParseDecimal(DocId(n)[4..]) == n
  {
    var id := DocId(n);
    assert id[4..] == ToDecimal(n);
    ToDecimalDigits(n);
    assert forall i :: 4 <= i < |id| ==> id[i] == ToDecimal(n)[i - 4];
    ParseToDecimal(n);
  }

  /** Positions with different numbers get different ids. */
  lemma DocIdInjective(m: nat, n: nat)
    ensures DocId(m) == DocId(n) ==> m == n
  {
    if DocId(m) == DocId(n) {
      assert DocId(m)[4..] == ToDecimal(m);
      assert DocId(n)[4..] == ToDecimal(n);
      DecimalInjective(m, n);
    }
  }

  /** Every article that has an id carries the id of its own position. */
  ghost predicate IdsFollowPositions(items: seq<Item>) {
    forall i :: 0 <= i < |items| && items[i].id.Some? ==> items[i].id.value == DocId(i)
  }

  /** Article ids are unique within the store. */
  lemma IdsUnique(items: seq<Item>)
    requires IdsFollowPositions(items)
    ensures forall i, j :: 0 <= i < j < |items| && items[i].id.Some? && items[j].id.Some? ==>
              items[i].id != items[j].id
  {
    forall i, j | 0 <= i < j < |items| && items[i].id.Some? && items[j].id.Some?
      ensures items[i].id != items[j].id
    {
      DocIdInjective(i, j);
    }
  }

  /** The fields of a sample article other than its body. */
  datatype Heading = Heading(title: string, category: string, tags: seq<string>)

  /** A seeded article: no id, the heading's fields and the given body. */
  function SampleArticle(h: Heading, content: string): Item {
    Item(None, h.title, content, h.category, h.tags)
  }

  /** Title, category and tags of the five sample articles, in seeding order. */
  function SampleHeadings(): seq<Heading> {
    [
      Heading("How to Reset Password", "account", ["password", "reset", "login", "security"]),
      Heading("Product Return Policy", "returns", ["return", "refund", "policy", "shipping"]),
      Heading("Payment Methods", "payment", ["payment", "credit card", "paypal", "apple pay"]),
      Heading("Shipping Information", "shipping", ["shipping", "delivery", "tracking", "international"]),
      Heading("Account Security", "security", ["security", "password", "two-factor", "encryption"])
    ]
  }

  /** `s` holds the five sample articles in order: headings and bodies, without ids. */
  ghost predicate IsSampleData(s: seq<Item>) {
    |s| == |SampleHeadings()| &&
    forall i :: 0 <= i < |s| ==> s[i] == SampleArticle(SampleHeadings()[i], SampleBody(i))
  }

  /** `sample_data`: the five sample articles, each heading paired with its body, none with an id. */
  function SampleData(): (s: seq<Item>)
    ensures |s| == 5
    ensures forall i :: 0 <= i < |s| ==> s[i].id == None
  {
    var h := SampleHeadings();
    seq(|h|, i requires 0 <= i < |h| => SampleArticle(h[i], SampleBody(i)))
  }

  /** The seeding list holds exactly the sample articles. */
  lemma SampleDataIsSample()
    ensures IsSampleData(SampleData())
  {
  }

  /**
   * The hit as the retriever's document: `page_content` is the hit's
   * (already previewed) content and the metadata has all three keys.
   */
  function ToDocument(h: Hit): (d: Document)
    ensures d.pageContent == h.content
    ensures d.metadata.title == Some(h.metadata.title) && d.metadata.category == Some(h.metadata.category)
    ensures d.metadata.tags == Some(h.metadata.tags)
  {
    Document(h.content, DocMeta(Some(h.metadata.title), Some(h.metadata.category), Some(h.metadata.tags)))
  }

  /** Candidates grows one article at a time. */
  lemma CandidatesStep(items: seq<Item>, i: nat, words: seq<string>, category: Option<string>)
    requires i < |items|
    ensures Candidates(items[..i + 1], words, category) ==
            Candidates(items[..i], words, category) + (if Selected(items[i], words, category) then [HitFor(items[i], words)] else [])
  {
    assert items[..i + 1][..i] == items[..i];
  }

  /** The inner loop of `search`: how many query words occur in the title or the content. */
  method CountMatches(queryWords: seq<string>, titleLower: string, contentLower: string) returns (matches: nat)
    ensures matches == MatchCount(queryWords, titleLower, contentLower)
  {
    matches := 0;
    var j := 0;
    while j < |queryWords|
      invariant 0 <= j <= |queryWords|
      invariant matches == MatchCount(queryWords[..j], titleLower, contentLower)
    {
      assert queryWords[..j + 1][..j] == queryWords[..j];
      if Contains(contentLower, queryWords[j]) || Contains(titleLower, queryWords[j]) {
        matches := matches + 1;
      }
      j := j + 1;
    }
    assert queryWords[..j] == queryWords;
  }

  class SimpleKnowledgeBase {
    /** `knowledge_items`, in insertion order. */
    var items: seq<Item>

    ghost predicate Valid()
      reads this
    {
      IdsFollowPositions(items)
    }

    /** `__init__`: an empty list, then the sample articles. */
    constructor ()
      ensures Valid()
      ensures IsSampleData(items)
    {
      items := [];
      new;
      InitializeSampleData();
    }

    /** `initialize_sample_data`: appends the five sample articles in order. */
    method InitializeSampleData()
      requires Valid()
      modifies this
      ensures Valid()
      ensures |items| == |old(items)| + 5
      ensures items[..|old(items)|] == old(items)
      ensures IsSampleData(items[|old(items)|..])
    {
      var sampleData := SampleData();
      AppendAll(sampleData);
      SampleDataIsSample();
    }

    /** `for item in sample_data: self.knowledge_items.append(item)`, for articles without ids. */
    method AppendAll(data: seq<Item>)
      requires Valid()
      requires forall i :: 0 <= i < |data| ==> data[i].id == None
      modifies this
      ensures Valid()
      ensures items == old(items) + data
    {
      var n := 0;
      while n < |data|
        invariant 0 <= n <= |data|
        invariant items == old(items) + data[..n]
        invariant Valid()
      {
        items := items + [data[n]];
        assert data[..n + 1] == data[..n] + [data[n]];
        n := n + 1;
      }
      assert data[..n] == data;
    }

    /**
     * `search(query, k, category)`: the articles passing the category filter
     * that match at least one query word, scored, previewed, stably sorted by
     * descending score and cut to `k`.
     */
    method Search(query: string, k: int, category: Option<string>) returns (results: seq<Hit>)
      ensures results == Ranked(items, query, k, category)
    {
      var queryLower := Lower(query);
      var hits: seq<Hit> := [];
      var i := 0;
      while i < |items|
        invariant 0 <= i <= |items|
        invariant hits == Candidates(items[..i], QueryWords(query), category)
      {
        var item := items[i];
        CandidatesStep(items, i, QueryWords(query), category);
        if FilterActive(category) && item.category != category.value {
          i := i + 1;
          continue;
        }
        var contentLower := Lower(item.content);
        var titleLower := Lower(item.title);
        var queryWords := Split(queryLower);
        var matches := CountMatches(queryWords, titleLower, contentLower);
        if matches > 0 {
          var relevance := matches as real / |queryWords| as real;
          assert matches == ItemMatches(item, queryWords);
          hits := hits + [Hit(Truncate(item.content, PreviewLength), Metadata(item.title, item.category, item.tags), relevance)];
        }
        i := i + 1;
      }
      assert items[..i] == items;
      hits := SortByScore(hits);
      results := PyPrefix(hits, k);
    }

    /**
     * `add_document`: appends one article with id `doc_<old length>` (tags
     * default to []), leaves the earlier articles as they were, and returns
     * the id. Empty titles and contents are accepted.
     */
    method AddDocument(title: string, content: string, category: string, tags: Option<seq<string>>) returns (docId: string)
      requires Valid()
      modifies this
      ensures Valid()
      ensures docId == DocId(|old(items)|)
      ensures items == old(items) + [Item(Some(docId), title, content, category, tags.GetOr([]))]
    {
      docId := DocId(|items|);
      items := items + [Item(Some(docId), title, content, category, tags.GetOr([]))];
    }

    /** `get_all_documents`: the stored articles, in insertion order. */
    method GetAllDocuments() returns (docs: seq<Item>)
      ensures docs == items
    {
      docs := items;
    }
  }

  /** `MockRetriever`: the retrieval interface the conversational chain uses. */
  class MockRetriever {
    const knowledgeBase: SimpleKnowledgeBase

    constructor (kb: SimpleKnowledgeBase)
      ensures knowledgeBase == kb
    {
      knowledgeBase := kb;
    }

    /**
     * `get_relevant_documents`: the top three search hits for `query`, in
     * search order, each as a document with the hit's content and metadata.
     */
    method GetRelevantDocuments(query: string) returns (documents: seq<Document>)
      ensures var hits := Ranked(knowledgeBase.items, query, 3, None);
              |documents| == |hits| <= 3 &&
              forall i :: 0 <= i < |hits| ==> documents[i] == ToDocument(hits[i])
    {
      var results := knowledgeBase.Search(query, 3, None);
      documents := [];
      var i := 0;
      while i < |results|
        invariant 0 <= i <= |results|
        invariant |documents| == i
        invariant forall j :: 0 <= j < i ==> documents[j] == ToDocument(results[j])
      {
        documents := documents + [ToDocument(results[i])];
        i := i + 1;
      }
    }
  }

  /** `MockVectorStore`: hands out retrievers over one knowledge base. */
  class MockVectorStore {
    const knowledgeBase: SimpleKnowledgeBase

    constructor (kb: SimpleKnowledgeBase)
      ensures knowledgeBase == kb
    {
      knowledgeBase := kb;
    }

    /** `as_retriever`: the search options are ignored; the retriever always returns three hits. */
    method AsRetriever() returns (r: MockRetriever)
      ensures fresh(r) && r.knowledgeBase == knowledgeBase
    {
      r := new MockRetriever(knowledgeBase);
    }
  }

  /** `KnowledgeBaseManager`: one seeded knowledge base and a vector store over it. */
  class KnowledgeBaseManager {
    const simpleKb: SimpleKnowledgeBase
    const vectorstore: MockVectorStore

    ghost predicate Valid()
      reads this, simpleKb
    {
      simpleKb.Valid() && vectorstore.knowledgeBase == simpleKb
    }

    constructor ()
      ensures Valid() && fresh(simpleKb)
      ensures IsSampleData(simpleKb.items)
    {
      var kb := new SimpleKnowledgeBase();
      simpleKb := kb;
      vectorstore := new MockVectorStore(kb);
    }

    /** Delegates to the knowledge base's `add_document`. */
    method AddDocument(title: string, content: string, category: string, tags: Option<seq<string>>) returns (docId: string)
      requires Valid()
      modifies simpleKb
      ensures Valid()
      ensures docId == DocId(|old(simpleKb.items)|)
      ensures simpleKb.items == old(simpleKb.items) + [Item(Some(docId), title, content, category, tags.GetOr([]))]
    {
      docId := simpleKb.AddDocument(title, content, category, tags);
    }

    /** Delegates to the knowledge base's `search`. */
    method Search(query: string, k: int, category: Option<string>) returns (results: seq<Hit>)
      ensures results == Ranked(simpleKb.items, query, k, category)
    {
      results := simpleKb.Search(query, k, category);
    }

    /** Delegates to the knowledge base's `get_all_documents`. */
    method GetAllDocuments() returns (docs: seq<Item>)
      ensures docs == simpleKb.items
    {
      docs := simpleKb.GetAllDocuments();
    }
  }
}
