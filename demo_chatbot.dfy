/**
 * `DemoChatbot`, the responder that works without a language model: six
 * keyword patterns tried in a fixed order, each with two canned answers one
 * of which is picked at random, then the top knowledge-base hit, then a
 * fixed apology. The random pick is a nondeterministic choice.
 */
module DemoChatbot {
  import opened Wrappers
  import opened Text
  import opened Records
  import opened Ranking
  import opened KnowledgeBase
  import opened Conversations
  import opened Replies

  /** A keyword and the answers a message containing it may get. */
  datatype Pattern = Pattern(key: string, responses: seq<string>)

  /** The keywords in the order the patterns are tried. */
  function PatternKeys(): seq<string> {
    ["password", "return", "shipping", "payment", "hello", "help"]
  }

  // The two canned answers of each pattern, exactly as the pattern table writes them.

  const PasswordAnswer1: string :=
    "To reset your password, go to the login page and click 'Forgot Password'. Enter your email and check for a reset link."
  const PasswordAnswer2: string :=
    "You can reset your password by visiting our login page and clicking the 'Forgot Password' link."
  const ReturnAnswer1: string :=
    "Our return policy allows returns within 30 days. Items must be in original condition with packaging."
  const ReturnAnswer2: string :=
    "You can return items within 30 days of purchase. Please ensure items are in original condition."
  const ShippingAnswer1: string :=
    "Standard shipping takes 3-5 business days and is free for orders over $50."
  const ShippingAnswer2: string :=
    "We offer standard shipping (3-5 days), express shipping (1-2 days), and overnight options."
  const PaymentAnswer1: string :=
    "We accept Visa, Mastercard, American Express, PayPal, Apple Pay, and Google Pay."
  const PaymentAnswer2: string :=
    "You can pay with major credit cards, digital wallets like PayPal and Apple Pay, or bank transfers for business accounts."
  const HelloAnswer1: string :=
    "Hello! How can I help you today? I can assist with password resets, returns, shipping, and payment questions."
  const HelloAnswer2: string :=
    "Hi there! I'm here to help with your customer service needs. What can I assist you with?"
  const HelpAnswer1: string :=
    "I can help you with password resets, return policies, shipping information, payment methods, and account security."
  const HelpAnswer2: string :=
    "I'm here to assist with various customer service topics. Just ask me about passwords, returns, shipping, or payments!"

  /** `self.patterns`: each keyword with its two answers, in the order the patterns are tried. */
  function PatternTable(): seq<Pattern> {
    [Pattern("password", [PasswordAnswer1, PasswordAnswer2]), Pattern("return", [ReturnAnswer1, ReturnAnswer2]),
     Pattern("shipping", [ShippingAnswer1, ShippingAnswer2]), Pattern("payment", [PaymentAnswer1, PaymentAnswer2]),
     Pattern("hello", [HelloAnswer1, HelloAnswer2]), Pattern("help", [HelpAnswer1, HelpAnswer2])]
  }

  /** A pattern table: the keywords in order, each with two answers, none of them empty. */
  predicate IsPatternTable(patterns: seq<Pattern>) {
    |patterns| == |PatternKeys()| &&
    (forall i :: 0 <= i < |patterns| ==> patterns[i].key == PatternKeys()[i] && |patterns[i].responses| == 2) &&
    NoEmptyAnswer(patterns)
  }

  predicate NoEmptyAnswer(patterns: seq<Pattern>) {
    forall i, j :: 0 <= i < |patterns| && 0 <= j < |patterns[i].responses| ==> patterns[i].responses[j] != ""
  }

  /** The table has the six keywords in order, two answers each, and no empty answer. */
  lemma PatternTableWellFormed()
    ensures IsPatternTable(PatternTable())
  {
  }

  /** Python's `not response`: no answer chosen, or an empty one. */
  predicate Falsy(response: Option<string>): (b: bool)
    ensures !b <==> response.Some? && |response.value| > 0
  {
    response.None? || response.value == ""
  }

  /** The first pattern at or after `start` whose keyword occurs in `text`. */
  function FirstMatchFrom(patterns: seq<Pattern>, text: string, start: nat): (r: Option<nat>)
    requires start <= |patterns|
    ensures r.Some? ==> start <= r.value < |patterns| && Contains(text, patterns[r.value].key) &&
                        forall j :: start <= j < r.value ==> !Contains(text, patterns[j].key)
    ensures r.None? ==> forall j :: start <= j < |patterns| ==> !Contains(text, patterns[j].key)
    decreases |patterns| - start
  {
    if start == |patterns| then None
    else if Contains(text, patterns[start].key) then Some(start)
    else FirstMatchFrom(patterns, text, start + 1)
  }

  /** The first pattern, in table order, whose keyword occurs in `text`. */
  function FirstMatch(patterns: seq<Pattern>, text: string): (r: Option<nat>)
    ensures r.Some? ==> r.value < |patterns| && Contains(text, patterns[r.value].key) &&
                        forall j :: 0 <= j < r.value ==> !Contains(text, patterns[j].key)
    ensures r.None? ==> forall j :: 0 <= j < |patterns| ==> !Contains(text, patterns[j].key)
  {
    FirstMatchFrom(patterns, text, 0)
  }

  /** The answer when there is no pattern answer. */
  const NoInfoText: string :=
    "I'm sorry, I don't have specific information about that. Please contact our support team for assistance."

  /** The response text of every failed reply. */
  const DemoApologyText: string := "I apologize, but I'm experiencing technical difficulties. Please try again."

  /**
   * Response and confidence without a pattern answer: the top hit's content
   * cut at 200 characters with "..." always appended, at the hit's score;
   * with no hits, the fixed answer at 0.3.
   */
  function KbFallback(kbResults: seq<Hit>): (r: (string, real))
    ensures kbResults != [] ==>
              var n := |r.0| - 3;
              |r.0| >= 3 && n == (if |kbResults[0].content| <= 200 then |kbResults[0].content| else 200) &&
              r.0[..n] == kbResults[0].content[..n] && r.0[n..] == "..." && r.1 == kbResults[0].score
    ensures kbResults == [] ==> r == (NoInfoText, 0.3)
  {
    if kbResults != [] then
      var preview := Take(kbResults[0].content, 200);
      assert (preview + "...")[..|preview|] == preview;
      (preview + "...", kbResults[0].score)
    else (NoInfoText, 0.3)
  }

  /**
   * What the decision may produce: for the first matching pattern, one of
   * its answers at 0.8 (an empty answer counts as none, as `not response`
   * does, and gives the fallback); with no match, the fallback.
   */
  ghost predicate Decided(patterns: seq<Pattern>, userMessage: string, kbResults: seq<Hit>,
                          response: string, confidence: real) {
    var m := FirstMatch(patterns, Lower(userMessage));
    (m.Some? ==>
       (response != "" && response in patterns[m.value].responses && confidence == 0.8) ||
       ("" in patterns[m.value].responses && (response, confidence) == KbFallback(kbResults))) &&
    (m.None? ==> (response, confidence) == KbFallback(kbResults))
  }

  /**
   * A decided answer is never empty, and its confidence is the pattern
   * confidence 0.8, the no-information confidence 0.3, or the top hit's score.
   */
  lemma DecidedReply(patterns: seq<Pattern>, userMessage: string, kbResults: seq<Hit>,
                     response: string, confidence: real)
    requires Decided(patterns, userMessage, kbResults, response, confidence)
    ensures response != ""
    ensures confidence == 0.8 || confidence == 0.3 || (kbResults != [] && confidence == kbResults[0].score)
  {
    assert |NoInfoText| > 0;
  }

  /**
   * The pattern loop of `get_response` and the fallbacks after it. Every
   * pattern needs an answer to choose from (`random.choice` of an empty list
   * raises).
   */
  method Decide(patterns: seq<Pattern>, userMessage: string, kbResults: seq<Hit>) returns (response: string, confidence: real)
    requires forall i :: 0 <= i < |patterns| ==> patterns[i].responses != []
    ensures Decided(patterns, userMessage, kbResults, response, confidence)
  {
    var userLower := Lower(userMessage);
    var chosen: Option<string> := None;
    confidence := 0.5;
    var i := 0;
    while i < |patterns|
      invariant 0 <= i <= |patterns|
      invariant chosen.None? && confidence == 0.5
      invariant forall j :: 0 <= j < i ==> !Contains(userLower, patterns[j].key)
    {
      if Contains(userLower, patterns[i].key) {
        assert patterns[i].responses[0] in patterns[i].responses;
        var r :| r in patterns[i].responses;
        chosen := Some(r);
        confidence := 0.8;
        break;
      }
      i := i + 1;
    }
    ghost var m := FirstMatch(patterns, userLower);
    assert chosen.Some? ==> m == Some(i) && chosen.value in patterns[i].responses;
    assert chosen.None? ==> m.None?;
    if Falsy(chosen) && kbResults != [] {
      response := Take(kbResults[0].content, 200) + "...";
      confidence := kbResults[0].score;
    } else if Falsy(chosen) {
      response := NoInfoText;
      confidence := 0.3;
    } else {
      response := chosen.value;
    }
  }

  /**
   * With answers that are all non-empty, a message containing a keyword gets
   * an answer of the first such pattern at confidence 0.8.
   */
  lemma MatchGivesCannedAnswer(patterns: seq<Pattern>, userMessage: string, kbResults: seq<Hit>,
                               response: string, confidence: real)
    requires NoEmptyAnswer(patterns)
    requires Decided(patterns, userMessage, kbResults, response, confidence)
    requires FirstMatch(patterns, Lower(userMessage)).Some?
    ensures var m := FirstMatch(patterns, Lower(userMessage)).value;
            response in patterns[m].responses && confidence == 0.8
  {
  }

  /**
   * Order decides between keywords: in the pattern table, a message that
   * contains the `i`-th keyword is answered by that pattern or an earlier one.
   * So "password" wins over every other keyword, and "hello" over "help".
   */
  lemma EarlierKeywordWins(patterns: seq<Pattern>, text: string, i: nat)
    requires IsPatternTable(patterns)
    requires i < |patterns| && Contains(text, PatternKeys()[i])
    ensures FirstMatch(patterns, text).Some? && FirstMatch(patterns, text).value <= i
  {
  }

  /**
   * One entry of the demo's sources list: the hit's title and category and
   * its content previewed at 200 characters.
   */
  function HitSource(h: Hit): (s: Source)
    ensures s.title == h.metadata.title && s.category == h.metadata.category
    ensures |h.content| <= SourcePreviewLength ==> s.content == h.content
    ensures |h.content| > SourcePreviewLength ==>
              |s.content| == SourcePreviewLength + 3 && s.content == h.content[..SourcePreviewLength] + "..."
  {
    var content := Truncate(h.content, SourcePreviewLength);
    assert |h.content| > SourcePreviewLength ==> content == content[..SourcePreviewLength] + content[SourcePreviewLength..];
    Source(h.metadata.title, h.metadata.category, content)
  }

  /** The sources loop: one entry per hit, in order. */
  method FormatHits(results: seq<Hit>) returns (sources: seq<Source>)
    ensures |sources| == |results|
    ensures forall i :: 0 <= i < |results| ==> sources[i] == HitSource(results[i])
  {
    sources := [];
    for i := 0 to |results|
      invariant |sources| == i
      invariant forall j :: 0 <= j < i ==> sources[j] == HitSource(results[j])
    {
      sources := sources + [HitSource(results[i])];
    }
  }

  class DemoChatbot {
    const kbManager: KnowledgeBaseManager
    const patterns: seq<Pattern>

    ghost predicate Valid()
      reads this, kbManager, kbManager.simpleKb
    {
      kbManager.Valid() && IsPatternTable(patterns)
    }

    /** A seeded knowledge base and the pattern table. */
    constructor ()
      ensures Valid() && fresh(kbManager) && fresh(kbManager.simpleKb)
      ensures IsSampleData(kbManager.simpleKb.items)
      ensures patterns == PatternTable()
    {
      kbManager := new KnowledgeBaseManager();
      patterns := PatternTable();
      PatternTableWellFormed();
    }

    /**
     * What a completed reply carries: the decision over the top two hits of
     * the knowledge base for the message, and those hits as sources. A
     * message containing a keyword gets one of the first such pattern's
     * answers at 0.8 (the table's answers are never empty, so the fallback
     * after a match cannot happen).
     */
    ghost predicate Answers(userMessage: string, response: string, confidence: real, sources: seq<Source>)
      reads this, kbManager, kbManager.simpleKb
    {
      var hits := Ranked(kbManager.simpleKb.items, userMessage, 2, None);
      var m := FirstMatch(patterns, Lower(userMessage));
      Decided(patterns, userMessage, hits, response, confidence) &&
      (m.Some? ==> response in patterns[m.value].responses && confidence == 0.8) &&
      |sources| == |hits| <= 2 &&
      forall i :: 0 <= i < |hits| ==> sources[i] == HitSource(hits[i])
    }

    /**
     * The answering steps of `get_response`: search the knowledge base for
     * two hits, decide the answer, and list the hits (`kb_results[:2]`) as
     * sources.
     */
    method Answer(userMessage: string) returns (response: string, confidence: real, sources: seq<Source>)
      requires Valid()
      ensures Answers(userMessage, response, confidence, sources)
    {
      var kbResults := kbManager.Search(userMessage, 2, None);
      response, confidence := Decide(patterns, userMessage, kbResults);
      if FirstMatch(patterns, Lower(userMessage)).Some? {
        MatchGivesCannedAnswer(patterns, userMessage, kbResults, response, confidence);
      }
      assert PyPrefix(kbResults, 2) == kbResults;
      sources := FormatHits(PyPrefix(kbResults, 2));
    }

    /**
     * `get_response`: the conversation is found or created, the user
     * message stored, the knowledge base searched for two hits, the answer
     * decided and stored; the reply carries the answer and its confidence,
     * the conversation id, and the hits as sources. If a step raises
     * (`fault`) or the conversation cannot be created, the reply is the
     * apology with no conversation id, no sources and confidence 0.0; the
     * store keeps what the steps before the failure wrote.
     */
    method GetResponse(userMessage: string, sessionId: string, store: ConversationStore, freshId: string,
                       fault: Option<Stage>) returns (reply: Reply)
      requires Valid() && store.Valid()
      modifies store
      ensures store.Valid()
      ensures reply.sessionId == sessionId
      ensures var c := ConversationFor(old(store.conversationOf), old(store.messages), sessionId, freshId);
              store.conversationOf == ConversationsAfter(old(store.conversationOf), sessionId, c, fault) &&
              store.messages == MessagesAfter(old(store.messages), c, fault, userMessage, reply.response)
      ensures var c := ConversationFor(old(store.conversationOf), old(store.messages), sessionId, freshId);
              Fails(c, fault) ==> reply == FailureReply(DemoApologyText, sessionId)
      ensures var c := ConversationFor(old(store.conversationOf), old(store.messages), sessionId, freshId);
              !Fails(c, fault) ==>
                reply.conversationId == c.value && Answers(userMessage, reply.response, reply.confidence, reply.sources)
    {
      if fault == Some(OpenConversation) {
        return FailureReply(DemoApologyText, sessionId);
      }
      var conversationId := store.GetOrCreate(sessionId, freshId);
      if conversationId.None? {
        return FailureReply(DemoApologyText, sessionId);
      }
      var cid := conversationId.value;
      ghost var prior := old(store.MessagesOf(cid));
      if fault == Some(StoreUserMessage) {
        assert prior + [] == prior;
        return FailureReply(DemoApologyText, sessionId);
      }
      store.AddMessage(cid, User, userMessage);
      assert store.messages == old(store.messages)[cid := prior + [Message(User, userMessage)]];
      if fault == Some(Respond) {
        return FailureReply(DemoApologyText, sessionId);
      }
      var response, confidence, sources := Answer(userMessage);
      if fault == Some(StoreAssistantMessage) {
        return FailureReply(DemoApologyText, sessionId);
      }
      ghost var middle := store.messages;
      store.AddMessage(cid, Assistant, response);
      CompletedExchange(old(store.messages), middle, store.messages, cid, fault, userMessage, response);
      reply := Reply(response, sessionId, cid, sources, confidence);
    }
  }
}
