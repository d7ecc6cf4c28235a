/**
 * `CustomerSupportChatbot` around its language-model chain: the confidence
 * rule, the formatting of source documents, the reply with its exception
 * fallback, the conversation history, and the knowledge-base delegation.
 * The chain itself is an input: what it answered and which documents it
 * used, or that it raised.
 */
module Chatbot {
  import opened Wrappers
  import opened Text
  import opened Records
  import opened Ranking
  import opened KnowledgeBase
  import opened Conversations
  import opened Replies

  // ---------------------------------------------------------------------------
  // Confidence

  function MinReal(a: real, b: real): (r: real)
    ensures r <= a && r <= b && (r == a || r == b)
  {
    if b < a then b else a
  }

  /**
   * `set(s.lower().split())`: the lower-cased whitespace tokens of a text.
   * Each is non-empty and whitespace-free; a blank text has none.
   */
  function Tokens(s: string): (t: set<string>)
    ensures forall w :: w in t ==> w != [] && NoSpace(w)
    ensures t == {} <==> AllSpace(s)
  {
    var words := QueryWords(s);
    var t := set w | w in words;
    assert t == {} <==> words == [] by {
      if words != [] {
        assert words[0] in t;
      }
    }
    t
  }

  /**
   * `user_keywords.intersection(doc_keywords)` is non-empty: the document
   * shares a whole token with the message. No keywords, or a blank
   * document, is never relevant.
   */
  predicate Relevant(doc: Document, keywords: set<string>): (b: bool)
    ensures keywords == {} ==> !b
    ensures AllSpace(doc.pageContent) ==> !b
  {
    Tokens(doc.pageContent) * keywords != {}
  }

  /** The number of relevant documents. */
  function RelevantCount(docs: seq<Document>, keywords: set<string>): (r: nat)
    ensures r <= |docs|
    ensures r == 0 <==> forall i :: 0 <= i < |docs| ==> !Relevant(docs[i], keywords)
    ensures r == |docs| <==> forall i :: 0 <= i < |docs| ==> Relevant(docs[i], keywords)
  {
    if docs == [] then 0
    else
      var r := (if Relevant(docs[0], keywords) then 1 else 0) + RelevantCount(docs[1..], keywords);
      assert forall i :: 0 < i < |docs| ==> docs[i] == docs[1..][i - 1];
      r
  }

  /** `min(n * 0.1, 0.3)`: one tenth per source, saturating at three sources. */
  function SourceBonus(n: nat): (b: real)
    ensures 0.0 <= b <= 0.3
    ensures b == 0.3 <==> n >= 3
  {
    MinReal(n as real * 0.1, 0.3)
  }

  /** `min(relevant * 0.05, 0.1)`: one twentieth per relevant source, saturating at two. */
  function RelevanceBonus(rel: nat): (b: real)
    ensures 0.0 <= b <= 0.1
    ensures b == 0.1 <==> rel >= 2
  {
    MinReal(rel as real * 0.05, 0.1)
  }

  /**
   * `min(0.6 + source_bonus + relevance_bonus, 1.0)` for `n` sources of which
   * `rel` are relevant. The bonuses never exceed 0.4 together, so the cap
   * at 1.0 never changes the value (over exact arithmetic).
   */
  function ConfidenceFor(n: nat, rel: nat): (r: real)
    ensures r == 0.6 + SourceBonus(n) + RelevanceBonus(rel)
    ensures n >= 1 ==> 0.7 <= r <= 1.0
  {
    MinReal(0.6 + SourceBonus(n) + RelevanceBonus(rel), 1.0)
  }

  /**
   * `_calculate_confidence`: 0.3 with no source documents; otherwise the
   * rule above, which lies in [0.7, 1.0].
   */
  function Confidence(docs: seq<Document>, userMessage: string): (r: real)
    ensures docs == [] ==> r == 0.3
    ensures docs != [] ==> 0.7 <= r <= 1.0
  {
    if docs == [] then 0.3
    else ConfidenceFor(|docs|, RelevantCount(docs, Tokens(userMessage)))
  }

  /** With the number of sources fixed, more relevant sources never lower the confidence. */
  lemma ConfidenceMonotone(n: nat, rel1: nat, rel2: nat)
    requires rel1 <= rel2
    ensures ConfidenceFor(n, rel1) <= ConfidenceFor(n, rel2)
  {
  }

  /** Three or more sources with two or more relevant give full confidence. */
  lemma ConfidenceFull(n: nat, rel: nat)
    requires n >= 3 && rel >= 2
    ensures ConfidenceFor(n, rel) == 1.0
  {
  }

  /** Confidence is 1.0 exactly when both bonuses are saturated. */
  lemma ConfidenceOneIff(docs: seq<Document>, userMessage: string)
    requires docs != []
    ensures Confidence(docs, userMessage) == 1.0 <==> |docs| >= 3 && RelevantCount(docs, Tokens(userMessage)) >= 2
  {
  }

  /** A text without whitespace is a single token: the text lower-cased. */
  lemma {:induction false} OneWordTokens(w: string)
    requires w != [] && NoSpace(w)
    ensures Tokens(w) == {Lower(w)}
  {
    var lw := Lower(w);
    assert NoSpace(lw) by {
      forall i | 0 <= i < |lw| ensures !IsSpace(lw[i]) {
        assert lw[i] == LowerChar(w[i]);
      }
    }
    SplitWord(lw);
  }

  /**
   * Relevance compares whole tokens, not substrings: a one-word document is
   * relevant to a one-word message only when the two words are equal
   * ignoring case. So a document "password" is not relevant to the message
   * "pass", although "pass" occurs in "password".
   */
  lemma WholeTokensOnly(d: string, q: string, meta: DocMeta)
    requires d != [] && NoSpace(d) && q != [] && NoSpace(q)
    ensures Relevant(Document(d, meta), Tokens(q)) <==> Lower(d) == Lower(q)
  {
    OneWordTokens(d);
    OneWordTokens(q);
    if Lower(d) == Lower(q) {
      assert Lower(d) in Tokens(d) * Tokens(q);
    } else {
      assert Tokens(d) * Tokens(q) == {};
    }
  }

  // ---------------------------------------------------------------------------
  // Sources and replies

  /**
   * One entry of the sources list: title and category from the metadata,
   * "Unknown" where a key is missing, and the page content previewed at 200
   * characters.
   */
  function SourceOf(doc: Document): (s: Source)
    ensures doc.metadata.title.Some? ==> s.title == doc.metadata.title.value
    ensures doc.metadata.title.None? ==> s.title == "Unknown"
    ensures doc.metadata.category.Some? ==> s.category == doc.metadata.category.value
    ensures doc.metadata.category.None? ==> s.category == "Unknown"
    ensures |doc.pageContent| <= SourcePreviewLength ==> s.content == doc.pageContent
    ensures |doc.pageContent| > SourcePreviewLength ==>
              |s.content| == SourcePreviewLength + 3 && s.content == doc.pageContent[..SourcePreviewLength] + "..."
  {
    var content := Truncate(doc.pageContent, SourcePreviewLength);
    assert |doc.pageContent| > SourcePreviewLength ==> content == content[..SourcePreviewLength] + content[SourcePreviewLength..];
    Source(doc.metadata.title.GetOr("Unknown"), doc.metadata.category.GetOr("Unknown"), content)
  }

  /** The formatting loop of `get_response`: one source per document, in order. */
  method FormatSources(docs: seq<Document>) returns (sources: seq<Source>)
    ensures |sources| == |docs|
    ensures forall i :: 0 <= i < |docs| ==> sources[i] == SourceOf(docs[i])
  {
    sources := [];
    for i := 0 to |docs|
      invariant |sources| == i
      invariant forall j :: 0 <= j < i ==> sources[j] == SourceOf(docs[j])
    {
      sources := sources + [SourceOf(docs[i])];
    }
  }

  /**
   * What the retrieval chain returns when it does not raise: the answer and,
   * if the result has one, the list of source documents.
   */
  datatype ChainResult = ChainResult(answer: string, sourceDocuments: Option<seq<Document>>)

  /** `result.get("source_documents", [])`: the listed documents, or none when the key is missing. */
  function SourceDocuments(chain: ChainResult): (docs: seq<Document>)
    ensures chain.sourceDocuments.Some? ==> docs == chain.sourceDocuments.value
    ensures chain.sourceDocuments.None? ==> docs == []
  {
    chain.sourceDocuments.GetOr([])
  }

  /** The response text of every failed reply. */
  const ApologyText: string :=
    "I apologize, but I'm experiencing technical difficulties. Please try again or contact our support team."

  /** A history entry: role name and content (the timestamp is not modelled). */
  datatype HistoryEntry = HistoryEntry(role: string, content: string)

  class CustomerSupportChatbot {
    const kbManager: KnowledgeBaseManager

    ghost predicate Valid()
      reads this, kbManager, kbManager.simpleKb
    {
      kbManager.Valid()
    }

    /** The knowledge base is seeded; the language model, memory and chain are not modelled. */
    constructor ()
      ensures Valid() && fresh(kbManager) && fresh(kbManager.simpleKb)
      ensures IsSampleData(kbManager.simpleKb.items)
    {
      kbManager := new KnowledgeBaseManager();
    }

    /**
     * `get_response`. The conversation is found or created, the user message
     * stored, the chain asked (`chain` is what it returns; `fault ==
     * Some(Respond)` is the chain raising), its answer stored. The reply
     * carries the answer, the conversation id, one source per document and
     * the confidence. If a step raises (`fault`) or the conversation cannot
     * be created, the reply is the apology with no conversation id, no
     * sources and confidence 0.0, for the same session, and the store keeps
     * what the steps before the failure wrote.
     */
    method GetResponse(userMessage: string, sessionId: string, store: ConversationStore, freshId: string,
                       fault: Option<Stage>, chain: ChainResult) returns (reply: Reply)
      requires store.Valid()
      modifies store
      ensures store.Valid()
      ensures reply.sessionId == sessionId
      ensures var c := ConversationFor(old(store.conversationOf), old(store.messages), sessionId, freshId);
              store.conversationOf == ConversationsAfter(old(store.conversationOf), sessionId, c, fault) &&
              store.messages == MessagesAfter(old(store.messages), c, fault, userMessage, chain.answer)
      ensures var c := ConversationFor(old(store.conversationOf), old(store.messages), sessionId, freshId);
              Fails(c, fault) ==> reply == FailureReply(ApologyText, sessionId)
      ensures var c := ConversationFor(old(store.conversationOf), old(store.messages), sessionId, freshId);
              !Fails(c, fault) ==>
                reply.response == chain.answer && reply.conversationId == c.value &&
                |reply.sources| == |SourceDocuments(chain)| &&
                (forall i :: 0 <= i < |reply.sources| ==> reply.sources[i] == SourceOf(SourceDocuments(chain)[i])) &&
                reply.confidence == Confidence(SourceDocuments(chain), userMessage)
    {
      if fault == Some(OpenConversation) {
        return FailureReply(ApologyText, sessionId);
      }
      var conversationId := store.GetOrCreate(sessionId, freshId);
      if conversationId.None? {
        return FailureReply(ApologyText, sessionId);
      }
      var cid := conversationId.value;
      ghost var prior := old(store.MessagesOf(cid));
      if fault == Some(StoreUserMessage) {
        assert prior + [] == prior;
        return FailureReply(ApologyText, sessionId);
      }
      store.AddMessage(cid, User, userMessage);
      assert store.messages == old(store.messages)[cid := prior + [Message(User, userMessage)]];
      if fault == Some(Respond) {
        return FailureReply(ApologyText, sessionId);
      }
      var responseText := chain.answer;
      var sourceDocuments := SourceDocuments(chain);
      if fault == Some(StoreAssistantMessage) {
        return FailureReply(ApologyText, sessionId);
      }
      ghost var middle := store.messages;
      store.AddMessage(cid, Assistant, responseText);
      CompletedExchange(old(store.messages), middle, store.messages, cid, fault, userMessage, responseText);
      var sources := FormatSources(sourceDocuments);
      var confidence := Confidence(sourceDocuments, userMessage);
      reply := Reply(responseText, sessionId, cid, sources, confidence);
    }

    /**
     * `get_conversation_history`: nothing for a session without a
     * conversation; otherwise one entry per stored message, in store order,
     * with the role name and content.
     */
    method GetConversationHistory(sessionId: string, store: ConversationStore) returns (history: seq<HistoryEntry>)
      ensures sessionId !in store.conversationOf ==> history == []
      ensures sessionId in store.conversationOf ==>
                var msgs := store.MessagesOf(store.conversationOf[sessionId]);
                |history| == |msgs| &&
                forall i :: 0 <= i < |msgs| ==> history[i] == HistoryEntry(RoleName(msgs[i].role), msgs[i].content)
    {
      if sessionId !in store.conversationOf {
        return [];
      }
      var messages := store.GetConversationMessages(store.conversationOf[sessionId]);
      history := [];
      for i := 0 to |messages|
        invariant |history| == i
        invariant forall j :: 0 <= j < i ==> history[j] == HistoryEntry(RoleName(messages[j].role), messages[j].content)
      {
        history := history + [HistoryEntry(RoleName(messages[i].role), messages[i].content)];
      }
    }

    /** `add_knowledge_item`: the manager's `add_document`. */
    method AddKnowledgeItem(title: string, content: string, category: string, tags: Option<seq<string>>) returns (docId: string)
      requires Valid()
      modifies kbManager.simpleKb
      ensures Valid()
      ensures docId == DocId(|old(kbManager.simpleKb.items)|)
      ensures kbManager.simpleKb.items == old(kbManager.simpleKb.items) + [Item(Some(docId), title, content, category, tags.GetOr([]))]
    {
      docId := kbManager.AddDocument(title, content, category, tags);
    }

    /** `search_knowledge_base`: the manager's `search`. */
    method SearchKnowledgeBase(query: string, k: int, category: Option<string>) returns (results: seq<Hit>)
      ensures results == Ranked(kbManager.simpleKb.items, query, k, category)
    {
      results := kbManager.Search(query, k, category);
    }
  }
}
