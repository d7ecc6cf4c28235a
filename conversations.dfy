/**
 * The conversation store both chatbots write to, as far as they use it:
 * conversations found by session id, and per conversation the messages in
 * the order they were added. The database behind it is reduced to two maps;
 * a conversation's id comes from the caller (`uuid4()` in the database layer).
 */
module Conversations {
  import opened Wrappers

  /** Who wrote a message: "user" or "assistant". */
  datatype Role = User | Assistant

  function RoleName(role: Role): string {
    match role
    case User => "user"
    case Assistant => "assistant"
  }

  /** A stored message; its timestamp is not modelled. */
  datatype Message = Message(role: Role, content: string)

  /**
   * The conversation id that get-or-create yields: the session's existing
   * conversation, else a new one with id `freshId`; None when `freshId` is
   * already a conversation id, where inserting the new conversation breaks
   * the primary key and raises.
   */
  function ConversationFor(conversationOf: map<string, string>, messages: map<string, seq<Message>>,
                           sessionId: string, freshId: string): (r: Option<string>)
    ensures sessionId in conversationOf ==> r == Some(conversationOf[sessionId])
    ensures r.None? <==> sessionId !in conversationOf && freshId in messages
    ensures sessionId !in conversationOf && freshId !in messages ==> r == Some(freshId)
  {
    if sessionId in conversationOf then Some(conversationOf[sessionId])
    else if freshId in messages then None
    else Some(freshId)
  }

  class ConversationStore {
    /** The conversation of each session that has one. */
    var conversationOf: map<string, string>
    /** The messages of each conversation, oldest first. */
    var messages: map<string, seq<Message>>

    /** Every session's conversation has a message list. */
    ghost predicate Valid()
      reads this
    {
      forall s :: s in conversationOf ==> conversationOf[s] in messages
    }

    /** The messages stored under `conversationId`, none if it has none. */
    function MessagesOf(conversationId: string): seq<Message>
      reads this
    {
      if conversationId in messages then messages[conversationId] else []
    }

    constructor ()
      ensures Valid()
      ensures conversationOf == map[] && messages == map[]
    {
      conversationOf := map[];
      messages := map[];
    }

    /**
     * `get_conversation` followed, when there is none, by
     * `create_conversation`: an existing conversation is reused and nothing
     * changes; otherwise a conversation with id `freshId` and no messages is
     * added for the session. A `freshId` already in use fails (None) and
     * changes nothing.
     */
    method GetOrCreate(sessionId: string, freshId: string) returns (conversationId: Option<string>)
      requires Valid()
      modifies this
      ensures Valid()
      ensures conversationId == ConversationFor(old(conversationOf), old(messages), sessionId, freshId)
      ensures conversationId.Some? ==> sessionId in conversationOf && conversationOf[sessionId] == conversationId.value
      ensures sessionId in old(conversationOf) || conversationId.None? ==>
                conversationOf == old(conversationOf) && messages == old(messages)
      ensures conversationId.Some? ==>
                conversationOf == old(conversationOf)[sessionId := conversationId.value] &&
                messages == old(messages)[conversationId.value := old(MessagesOf(conversationId.value))]
    {
      if sessionId in conversationOf {
        conversationId := Some(conversationOf[sessionId]);
      } else if freshId in messages {
        conversationId := None;
      } else {
        conversationOf := conversationOf[sessionId := freshId];
        messages := messages[freshId := []];
        conversationId := Some(freshId);
      }
    }

    /** `add_message`: appends one message to the conversation's list; nothing else changes. */
    method AddMessage(conversationId: string, role: Role, content: string)
      requires Valid()
      modifies this
      ensures Valid()
      ensures conversationOf == old(conversationOf)
      ensures messages == old(messages)[conversationId := old(MessagesOf(conversationId)) + [Message(role, content)]]
    {
      messages := messages[conversationId := MessagesOf(conversationId) + [Message(role, content)]];
    }

    /** `get_conversation_messages`: the conversation's messages in the order they were added. */
    method GetConversationMessages(conversationId: string) returns (msgs: seq<Message>)
      ensures msgs == MessagesOf(conversationId)
    {
      msgs := MessagesOf(conversationId);
    }
  }
}
