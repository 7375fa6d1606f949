/**
  The chat routes. Sessions live in a map from user id to chat state, created
  on first use. A request appends the user's message, sends the mode's system
  message followed by the whole log to the completion service, and appends the
  reply. The completion service is outside the model: each route returns the
  messages it sends and takes the service's answer to them as a parameter.
*/
module ChatRouter {
  import opened Wrappers
  import opened Errors
  import opened Schemas
  import opened ChatModel

  datatype ChatMode = Advisor | Partner

  const AdvisorPrompt: string := "You are an expert dating advisor helping users navigate relationships and dating."
  const PartnerPrompt: string := "You are simulating a potential dating partner engaging in conversation."

  /** The system message of each route; it is sent with every request and never stored. */
  function SystemPrompt(mode: ChatMode): string {
    match mode
    case Advisor => AdvisorPrompt
    case Partner => PartnerPrompt
  }

  /** A message as the completion service receives it. */
  datatype WireMessage = WireMessage(role: string, content: string)

  /** The completion service's answer. */
  datatype Completion = Completed(text: string) | Failed(reason: string)

  /** The role and content of every logged message, in order. */
  function WireOf(log: seq<ChatMessage>): (r: seq<WireMessage>)
    ensures |r| == |log|
    ensures forall i :: 0 <= i < |log| ==> r[i] == WireMessage(log[i].role, log[i].content)
  {
    if log == [] then [] else WireOf(log[..|log| - 1]) + [WireMessage(log[|log| - 1].role, log[|log| - 1].content)]
  }

  /** The messages sent for a log: the system message, then every logged message in order. */
  function Prompt(system: string, log: seq<ChatMessage>): (r: seq<WireMessage>)
    ensures |r| == |log| + 1
    ensures r[0] == WireMessage("system", system)
    ensures forall i :: 0 <= i < |log| ==> r[i + 1] == WireMessage(log[i].role, log[i].content)
  {
    [WireMessage("system", system)] + WireOf(log)
  }

  /**
    `get_groq_response` on the corrected request: the reply text, or a chat error
    wrapping the reason of any failure. `answer` is what the service returns for
    the request; the request itself is an output of the route (see `Chat`).
  */
  function GroqResponse(answer: Completion): (r: Result<string, ApiError>)
    ensures r.Success? <==> answer.Completed?
    ensures r.Success? ==> r.value == answer.text
    ensures r.Failure? ==> r.error == ChatException("Failed to get response from Groq: " + answer.reason)
  {
    match answer
    case Completed(text) => Success(text)
    case Failed(reason) => Failure(ChatException("Failed to get response from Groq: " + reason))
  }

  /**
    The log after one request on `log`: the user's message, stamped when it is
    logged (`asked`), then the assistant's reply, stamped when the service's
    answer is logged (`answered`); only the user's message when the call failed.
  */
  function NextLog(log: seq<ChatMessage>, text: string, asked: int, answered: int, answer: Completion): seq<ChatMessage> {
    var withUser := log + [ChatMessage("user", text, asked)];
    var reply := GroqResponse(answer);
    if reply.Success? then withUser + [ChatMessage("assistant", reply.value, answered)] else withUser
  }

  /** What the route answers for one request on `log`. */
  function Respond(log: seq<ChatMessage>, text: string, asked: int, answered: int, answer: Completion): Result<ChatResponse, ApiError> {
    var reply := GroqResponse(answer);
    if reply.Success? then Success(ChatResponse(reply.value, NextLog(log, text, asked, answered, answer)))
    else Failure(reply.error)
  }

  /**
    The request sent is the system message followed by the log including the new
    message. On success the log grows by exactly two entries, the user's text and
    then the reply, and the response carries the reply and the whole log; on
    failure the user's message stays, no reply is appended and a chat error is raised.
  */
  lemma RequestFlow(system: string, log: seq<ChatMessage>, text: string, asked: int, answered: int, answer: Completion)
    ensures var sent := Prompt(system, log + [ChatMessage("user", text, asked)]);
      && sent[0] == WireMessage("system", system)
      && (forall i :: 0 <= i < |log| ==> sent[i + 1] == WireMessage(log[i].role, log[i].content))
      && sent[|sent| - 1] == WireMessage("user", text)
      && |sent| == |log| + 2
    ensures var next := NextLog(log, text, asked, answered, answer);
      var response := Respond(log, text, asked, answered, answer);
      && next[..|log|] == log
      && next[|log|] == ChatMessage("user", text, asked)
      && (answer.Completed? ==>
            |next| == |log| + 2
            && next[|log| + 1] == ChatMessage("assistant", answer.text, answered)
            && response == Success(ChatResponse(answer.text, next))
            && response.value.message == next[|next| - 1].content)
      && (answer.Failed? ==>
            |next| == |log| + 1
            && response.Failure? && response.error.status == 400 && response.error.code == "CHAT_ERROR")
  {
    var withUser := log + [ChatMessage("user", text, asked)];
    assert forall i :: 0 <= i < |log| ==> withUser[i] == log[i];
  }

  /** The system message is never stored: a request appends only user and assistant entries. */
  lemma SystemMessageNeverStored(log: seq<ChatMessage>, text: string, asked: int, answered: int, answer: Completion)
    requires forall i :: 0 <= i < |log| ==> log[i].role != "system"
    ensures var next := NextLog(log, text, asked, answered, answer);
      forall i :: 0 <= i < |next| ==> next[i].role != "system"
  {
  }

  /** The chat request as `get_groq_response` builds it: the logged messages keep their `datetime` timestamps. */
  datatype Payload = Payload(role: string, content: string, timestamp: Option<int>)

  function PayloadOf(log: seq<ChatMessage>): (r: seq<Payload>)
    ensures |r| == |log|
    ensures forall i :: 0 <= i < |log| ==> r[i] == Payload(log[i].role, log[i].content, Some(log[i].timestamp))
  {
    if log == [] then [] else PayloadOf(log[..|log| - 1]) + [Payload(log[|log| - 1].role, log[|log| - 1].content, Some(log[|log| - 1].timestamp))]
  }

  /** `[system_message] + chat_state.get_messages()`: the system dict has no timestamp, every logged dict has one. */
  function PromptAsWritten(system: string, log: seq<ChatMessage>): seq<Payload> {
    [Payload("system", system, None)] + PayloadOf(log)
  }

  /**
    `get_groq_response` as written: the messages go to the request's JSON body,
    whose encoder rejects `datetime` values inside the `try`, so the call fails
    with a chat error before anything is sent when any message carries one.
  */
  function GroqResponseAsWritten(messages: seq<Payload>, answer: Completion): Result<string, ApiError> {
    if exists i :: 0 <= i < |messages| && messages[i].timestamp.Some? then
      Failure(ChatException("Failed to get response from Groq: Object of type datetime is not JSON serializable"))
    else
      GroqResponse(answer)
  }

  /** As written, every chat request fails: the log always holds at least the new user message, with its timestamp. */
  lemma EveryRequestFailsAsWritten(system: string, log: seq<ChatMessage>, text: string, asked: int, answer: Completion)
    ensures GroqResponseAsWritten(PromptAsWritten(system, log + [ChatMessage("user", text, asked)]), answer)
      == Failure(ChatException("Failed to get response from Groq: Object of type datetime is not JSON serializable"))
  {
    var sent := PromptAsWritten(system, log + [ChatMessage("user", text, asked)]);
    assert sent[|sent| - 1].timestamp.Some?;
  }

  /**
    The body the two routes share, on the caller's state: log the user's
    message, send the system message and the log, log the reply if there is one.
    The clock is read when the message is logged (`asked`) and again when the
    reply is logged (`answered`).
  */
  method Converse(state: ChatState, system: string, text: string, asked: int, answered: int, answer: Completion)
    returns (r: Result<ChatResponse, ApiError>, sent: seq<WireMessage>)
    modifies state
    ensures sent == Prompt(system, old(state.messages) + [ChatMessage("user", text, asked)])
    ensures state.messages == NextLog(old(state.messages), text, asked, answered, answer)
    ensures r == Respond(old(state.messages), text, asked, answered, answer)
    ensures state.userId == old(state.userId) && state.context == old(state.context)
    ensures state.lastUpdated == (if r.Success? then answered else asked)
  {
    state.AddMessage("user", text, asked);
    var log := state.GetMessages();
    sent := Prompt(system, log);
    var reply := GroqResponse(answer);
    if reply.Failure? {
      return Failure(reply.error), sent;
    }
    state.AddMessage("assistant", reply.value, answered);
    log := state.GetMessages();
    return Success(ChatResponse(reply.value, log)), sent;
  }

  /** The module-level `chat_states` map. */
  class ChatSessions {
    var states: map<string, ChatState>

    /** Each state belongs to its key's user; so no two users share a state. */
    ghost predicate Valid()
      reads this, states.Values
    {
      forall u :: u in states ==> states[u].userId == u
    }

    constructor ()
      ensures Valid() && states == map[]
    {
      states := map[];
    }

    /** `get_chat_state`: the user's state, created empty on first use and the same object afterwards. */
    method GetChatState(userId: string, now: int) returns (s: ChatState)
      requires Valid()
      modifies this
      ensures Valid()
      ensures userId in states && s == states[userId]
      ensures userId in old(states) ==> states == old(states)
      ensures userId !in old(states) ==>
        && fresh(s) && states == old(states)[userId := s]
        && s.userId == userId && s.messages == [] && s.context == map[] && s.lastUpdated == now
    {
      if userId !in states {
        var created := new ChatState(userId, now);
        states := states[userId := created];
      }
      s := states[userId];
    }

    /**
      `chat_with_advisor` and `chat_with_partner`: both routes use the caller's
      one session, whatever the mode, and leave every other session as it was.
      `sent` is the request handed to the completion service and `answer` what
      the service returned for it. A state created here and the user's message
      are stamped `asked`; the reply, logged after the service answers, `answered`.
    */
    method Chat(mode: ChatMode, request: ChatRequest, authUserId: string, asked: int, answered: int, answer: Completion)
      returns (r: Result<ChatResponse, ApiError>, sent: seq<WireMessage>)
      requires Valid()
      requires ChatModePatternAsWritten(request.chatMode)
      modifies this, states.Values
      ensures Valid()
      ensures authUserId in states
      ensures authUserId in old(states) ==> states == old(states)
      ensures authUserId !in old(states) ==> fresh(states[authUserId]) && states == old(states)[authUserId := states[authUserId]]
      ensures var before := if authUserId in old(states) then old(states[authUserId].messages) else [];
        && sent == Prompt(SystemPrompt(mode), before + [ChatMessage("user", request.message, asked)])
        && states[authUserId].messages == NextLog(before, request.message, asked, answered, answer)
        && r == Respond(before, request.message, asked, answered, answer)
      ensures states[authUserId].context == (if authUserId in old(states) then old(states[authUserId].context) else map[])
      ensures states[authUserId].lastUpdated == (if r.Success? then answered else asked)
      ensures forall u :: u in old(states) && u != authUserId ==>
        && states[u].messages == old(states[u].messages) && states[u].context == old(states[u].context)
        && states[u].lastUpdated == old(states[u].lastUpdated)
    {
      var state := GetChatState(authUserId, asked);
      assert forall u :: u in old(states) && u != authUserId ==> states[u] == old(states[u]) && states[u] != state;
      r, sent := Converse(state, SystemPrompt(mode), request.message, asked, answered, answer);
    }
  }
}
