/**
 * What both chatbots return for a message, and what a reply leaves in the
 * conversation store. Both `get_response` methods run the same steps inside
 * one `try`: open the conversation, store the user message, produce the
 * response, store the assistant message. An exception at any step ends in
 * the failure reply; the store keeps what the steps before it wrote.
 */
module Replies {
  import opened Wrappers
  import opened Conversations

  /** One entry of a reply's "sources" list. */
  datatype Source = Source(title: string, category: string, content: string)

  /** The reply dictionary: response, session and conversation ids, sources and confidence. */
  datatype Reply = Reply(response: string, sessionId: string, conversationId: string, sources: seq<Source>, confidence: real)

  /** The step of a reply that raises, in the order the steps run. */
  datatype Stage = OpenConversation | StoreUserMessage | Respond | StoreAssistantMessage

  /** Source previews are cut at this many characters. */
  const SourcePreviewLength: nat := 200

  /** The reply every exception turns into: no conversation id, no sources, confidence 0. */
  function FailureReply(text: string, sessionId: string): Reply {
    Reply(text, sessionId, "", [], 0.0)
  }

  /**
   * A reply fails when a step raises or the conversation cannot be opened
   * (`conversationId` is what get-or-create yields).
   */
  predicate Fails(conversationId: Option<string>, fault: Option<Stage>) {
    fault == Some(OpenConversation) || conversationId.None? || fault == Some(StoreUserMessage)
    || fault == Some(Respond) || fault == Some(StoreAssistantMessage)
  }

  /** A reply completes exactly when no step raises and the conversation opens. */
  lemma FailsIff(conversationId: Option<string>, fault: Option<Stage>)
    ensures !Fails(conversationId, fault) <==> fault.None? && conversationId.Some?
  {
    if fault.Some? {
      match fault.value
      case OpenConversation =>
      case StoreUserMessage =>
      case Respond =>
      case StoreAssistantMessage =>
    }
  }

  /**
   * The messages a reply appends to its opened conversation: none if storing
   * the user message raises, only the user message if producing the response
   * or storing it raises, otherwise the user message and then the response.
   */
  function Appended(fault: Option<Stage>, userMessage: string, response: string): (added: seq<Message>)
    ensures |added| <= 2
    ensures added != [] ==> added[0] == Message(User, userMessage)
    ensures fault.None? ==> added == [Message(User, userMessage), Message(Assistant, response)]
  {
    if fault == Some(StoreUserMessage) then []
    else if fault == Some(Respond) || fault == Some(StoreAssistantMessage) then [Message(User, userMessage)]
    else [Message(User, userMessage), Message(Assistant, response)]
  }

  /** The session-to-conversation map after a reply: the opened conversation is recorded. */
  function ConversationsAfter(conversationOf: map<string, string>, sessionId: string,
                              conversationId: Option<string>, fault: Option<Stage>): map<string, string> {
    if conversationId.None? || fault == Some(OpenConversation) then conversationOf
    else conversationOf[sessionId := conversationId.value]
  }

  /** The message lists after a reply: the opened conversation gets the messages Appended gives. */
  function MessagesAfter(messages: map<string, seq<Message>>, conversationId: Option<string>, fault: Option<Stage>,
                         userMessage: string, response: string): map<string, seq<Message>> {
    if conversationId.None? || fault == Some(OpenConversation) then messages
    else
      var id := conversationId.value;
      messages[id := (if id in messages then messages[id] else []) + Appended(fault, userMessage, response)]
  }

  /**
   * The store steps of a completed reply, one after the other: appending the
   * user message and then the response to conversation `id` gives the
   * message lists MessagesAfter describes.
   */
  lemma CompletedExchange(before: map<string, seq<Message>>, middle: map<string, seq<Message>>,
                          after: map<string, seq<Message>>, id: string, fault: Option<Stage>,
                          userMessage: string, response: string)
    requires !Fails(Some(id), fault)
    requires middle == before[id := (if id in before then before[id] else []) + [Message(User, userMessage)]]
    requires after == middle[id := middle[id] + [Message(Assistant, response)]]
    ensures after == MessagesAfter(before, Some(id), fault, userMessage, response)
  {
    FailsIff(Some(id), fault);
    var prior := if id in before then before[id] else [];
    assert prior + [Message(User, userMessage)] + [Message(Assistant, response)]
        == prior + [Message(User, userMessage), Message(Assistant, response)];
  }

  /**
   * A reply touches only its own session and conversation: every other
   * session keeps its conversation and every other conversation its
   * messages; when the conversation cannot be opened nothing changes.
   */
  lemma ReplyTouchesOnlyItsConversation(conversationOf: map<string, string>, messages: map<string, seq<Message>>,
                                        sessionId: string, conversationId: Option<string>, fault: Option<Stage>,
                                        userMessage: string, response: string)
    ensures var r := ConversationsAfter(conversationOf, sessionId, conversationId, fault);
            forall s :: s != sessionId ==> (s in r <==> s in conversationOf) && (s in r ==> r[s] == conversationOf[s])
    ensures var r := MessagesAfter(messages, conversationId, fault, userMessage, response);
            forall id :: (conversationId.None? || id != conversationId.value) ==>
              (id in r <==> id in messages) && (id in r ==> r[id] == messages[id])
    ensures conversationId.None? || fault == Some(OpenConversation) ==>
              ConversationsAfter(conversationOf, sessionId, conversationId, fault) == conversationOf &&
              MessagesAfter(messages, conversationId, fault, userMessage, response) == messages
    ensures conversationId.Some? && fault != Some(OpenConversation) ==>
              var r := ConversationsAfter(conversationOf, sessionId, conversationId, fault);
              sessionId in r && r[sessionId] == conversationId.value
  {
  }

  /**
   * A completed reply appends exactly two messages to its conversation, the
   * user's and then the returned response; a failed one appends at most the
   * user's message, and nothing when the conversation cannot be opened.
   */
  lemma {:induction false} ExchangeAppends(messages: map<string, seq<Message>>, conversationId: Option<string>,
                                           fault: Option<Stage>, userMessage: string, response: string)
    ensures var r := MessagesAfter(messages, conversationId, fault, userMessage, response);
            !Fails(conversationId, fault) ==>
              var id := conversationId.value;
              var prior := if id in messages then messages[id] else [];
              r[id] == prior + [Message(User, userMessage), Message(Assistant, response)]
    ensures var r := MessagesAfter(messages, conversationId, fault, userMessage, response);
            Fails(conversationId, fault) ==>
              forall id :: id in r ==> var prior := if id in messages then messages[id] else [];
                |prior| <= |r[id]| <= |prior| + 1 && r[id][..|prior|] == prior &&
                (|r[id]| == |prior| + 1 ==> r[id][|prior|] == Message(User, userMessage))
  {
    FailsIff(conversationId, fault);
    var r := MessagesAfter(messages, conversationId, fault, userMessage, response);
    if Fails(conversationId, fault) {
      forall id | id in r
        ensures var prior := if id in messages then messages[id] else [];
                |prior| <= |r[id]| <= |prior| + 1 && r[id][..|prior|] == prior &&
                (|r[id]| == |prior| + 1 ==> r[id][|prior|] == Message(User, userMessage))
      {
        var prior := if id in messages then messages[id] else [];
        if conversationId.Some? && fault != Some(OpenConversation) && id == conversationId.value {
          var added := Appended(fault, userMessage, response);
          assert |added| <= 1;
          assert r[id] == prior + added;
          assert r[id][..|prior|] == prior;
        } else {
          assert r[id] == prior;
        }
      }
    }
  }
}
