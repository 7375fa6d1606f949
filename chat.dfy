/**
  The backend's per-user chat state: an append-only log of role-tagged,
  timestamped messages, a free-form context and the time of the last change.
  The clock is a parameter: `now` is the instant the operation reads it.
*/
module ChatModel {
  import opened Schemas

  class ChatState {
    var messages: seq<ChatMessage>
    var context: map<string, string>
    var userId: string
    var lastUpdated: int

    /** A new state: no messages, an empty context. */
    constructor (userId: string, now: int)
      ensures this.userId == userId && messages == [] && context == map[] && lastUpdated == now
    {
      this.userId := userId;
      messages := [];
      context := map[];
      lastUpdated := now;
    }

    /** Appends one message with the given role and content, stamped `now`. */
    method AddMessage(role: string, content: string, now: int)
      modifies this
      ensures messages == old(messages) + [ChatMessage(role, content, now)]
      ensures lastUpdated == now
      ensures context == old(context) && userId == old(userId)
    {
      messages := messages + [ChatMessage(role, content, now)];
      lastUpdated := now;
    }

    /** All messages, in insertion order. */
    method GetMessages() returns (r: seq<ChatMessage>)
      ensures r == messages
    {
      return messages;
    }

    method ClearHistory(now: int)
      modifies this
      ensures messages == [] && lastUpdated == now
      ensures context == old(context) && userId == old(userId)
    {
      messages := [];
      lastUpdated := now;
    }
  }
}
