/**
  The Streamlit client's own chat chain: a per-request state holding the
  message list sent to the model and the conversation context's recent
  topics; three steps (log the user's message and track topics, ask the model,
  convert the messages to the displayed history); and the rebuilding of that
  state from the displayed history on the next message. The two system prompt
  texts and the model's reply are parameters. The profile tab's comma-separated
  fields are parsed here too.
*/
module ClientChat {
  import opened Wrappers
  import opened Seqs
  import opened Text

  /** One entry of the message list: a role ("system", "user" or "assistant") and a text. */
  datatype Message = Message(role: string, content: string)

  /** The displayed history: the user's messages and the model's, without the system prompt. */
  datatype Entry = Human(content: string) | AI(content: string)

  /**
    What the model call gives: the reply's content, or an exception. `NoApiKey`:
    `GROQ_API_KEY` is unset, so `get_groq_client`, called before the `try`,
    reports the error and stops the script; no call is made.
  */
  datatype LlmReply = Answered(content: string) | Raised(reason: string) | NoApiKey

  /** The topics `add_message_to_state` looks for, in the order it tries them. */
  const Topics: seq<string> := ["date", "match", "profile", "advice", "relationship"]

  /** No more topics are added once this many are recorded. */
  const MaxTopics: nat := 5

  const Apology: string := "I'm having trouble connecting right now. Please try again in a moment."

  /** One topic of the loop: added when it occurs in the message, there is room and it is not recorded yet. */
  function TopicStep(recent: seq<string>, lowered: string, topic: string): seq<string> {
    if Contains(lowered, topic) && |recent| < MaxTopics && topic !in recent then recent + [topic] else recent
  }

  /** The recent topics after trying each of `topics`, in order, against the lower-cased message. */
  function TrackTopics(recent: seq<string>, lowered: string, topics: seq<string>): seq<string>
    decreases |topics|
  {
    if topics == [] then recent
    else TopicStep(TrackTopics(recent, lowered, topics[..|topics| - 1]), lowered, topics[|topics| - 1])
  }

  /** The `recent_topics` entry after a message; a context without it stays without it. */
  function UpdateTopics(recent: Option<seq<string>>, message: string): Option<seq<string>> {
    if recent.Some? then Some(TrackTopics(recent.value, Lower(message), Topics)) else None
  }

  /** `a` is `b` with some elements left out, the rest in their order. */
  predicate IsSubsequence(a: seq<string>, b: seq<string>)
    decreases |b|
  {
    if a == [] then true
    else if b == [] then false
    else if a[|a| - 1] == b[|b| - 1] then IsSubsequence(a[..|a| - 1], b[..|b| - 1])
    else IsSubsequence(a, b[..|b| - 1])
  }

  lemma {:induction false} SubsequenceExtend(a: seq<string>, b: seq<string>, x: string)
    requires IsSubsequence(a, b)
    ensures IsSubsequence(a, b + [x])
    decreases |b|, 1
  {
    if a != [] {
      assert (b + [x])[..|b|] == b;
      if a[|a| - 1] == x {
        SubsequenceDropLast(a, b);
      }
    }
  }

  lemma {:induction false} SubsequenceDropLast(a: seq<string>, b: seq<string>)
    requires a != [] && IsSubsequence(a, b)
    ensures IsSubsequence(a[..|a| - 1], b)
    decreases |b|, 0
  {
    var last := b[|b| - 1];
    assert b[..|b| - 1] + [last] == b;
    if a[|a| - 1] != last {
      SubsequenceDropLast(a, b[..|b| - 1]);
    }
    SubsequenceExtend(a[..|a| - 1], b[..|b| - 1], last);
  }

  /**
    Topic tracking only appends: the old topics stay first, and nothing is
    added once `MaxTopics` are recorded, so it never goes past that many.
  */
  lemma {:induction false} TopicsOnlyAppend(recent: seq<string>, lowered: string, topics: seq<string>)
    ensures var r := TrackTopics(recent, lowered, topics);
      && recent <= r
      && |r| <= (if |recent| >= MaxTopics then |recent| else MaxTopics)
      && (|recent| >= MaxTopics ==> r == recent)
    decreases |topics|
  {
    if topics != [] {
      TopicsOnlyAppend(recent, lowered, topics[..|topics| - 1]);
    }
  }

  /** Each added topic is one of `topics`, occurs in the lower-cased message and was not recorded before. */
  lemma {:induction false} TopicsAddedFromMessage(recent: seq<string>, lowered: string, topics: seq<string>)
    ensures var r := TrackTopics(recent, lowered, topics);
      forall i :: |recent| <= i < |r| ==> r[i] in topics && Contains(lowered, r[i]) && r[i] !in recent
    decreases |topics|
  {
    if topics != [] {
      var init := topics[..|topics| - 1];
      TopicsAddedFromMessage(recent, lowered, init);
      TopicsOnlyAppend(recent, lowered, init);
      var before := TrackTopics(recent, lowered, init);
      forall i | |recent| <= i < |before|
        ensures before[i] in topics
      {
        assert before[i] in init;
      }
    }
  }

  /** The added topics come in the order of `topics`. */
  lemma {:induction false} TopicsInListOrder(recent: seq<string>, lowered: string, topics: seq<string>)
    ensures var r := TrackTopics(recent, lowered, topics);
      |recent| <= |r| && IsSubsequence(r[|recent|..], topics)
    decreases |topics|
  {
    TopicsOnlyAppend(recent, lowered, topics);
    if topics != [] {
      var init := topics[..|topics| - 1];
      var t := topics[|topics| - 1];
      TopicsInListOrder(recent, lowered, init);
      TopicsOnlyAppend(recent, lowered, init);
      var before := TrackTopics(recent, lowered, init);
      var r := TrackTopics(recent, lowered, topics);
      assert init + [t] == topics;
      if r == before {
        SubsequenceExtend(before[|recent|..], init, t);
      } else {
        assert r[|recent|..] == before[|recent|..] + [t];
        assert (before[|recent|..] + [t])[..|before| - |recent|] == before[|recent|..];
      }
    }
  }

  /** A list of recent topics without duplicates stays without them. */
  lemma {:induction false} TopicsStayDistinct(recent: seq<string>, lowered: string, topics: seq<string>)
    requires NoDuplicates(recent)
    ensures NoDuplicates(TrackTopics(recent, lowered, topics))
    decreases |topics|
  {
    if topics != [] {
      TopicsStayDistinct(recent, lowered, topics[..|topics| - 1]);
    }
  }

  /** Every topic that occurs in the message ends up recorded, unless the list is full. */
  lemma {:induction false} TopicsComplete(recent: seq<string>, lowered: string, topics: seq<string>)
    ensures var r := TrackTopics(recent, lowered, topics);
      forall i :: 0 <= i < |topics| && Contains(lowered, topics[i]) ==> topics[i] in r || |r| >= MaxTopics
    decreases |topics|
  {
    if topics != [] {
      var init := topics[..|topics| - 1];
      TopicsComplete(recent, lowered, init);
      var before := TrackTopics(recent, lowered, init);
      var r := TrackTopics(recent, lowered, topics);
      assert before <= r;
      forall i | 0 <= i < |topics| && Contains(lowered, topics[i])
        ensures topics[i] in r || |r| >= MaxTopics
      {
        if i < |init| {
          assert topics[i] == init[i];
          if topics[i] in before {
            assert topics[i] == before[IndexIn(before, topics[i])];
            assert r[IndexIn(before, topics[i])] == topics[i];
          }
        }
      }
    }
  }

  /** The position of an element known to occur in `s`. */
  function IndexIn(s: seq<string>, x: string): (i: nat)
    requires x in s
    ensures i < |s| && s[i] == x
  {
    if s[0] == x then 0 else 1 + IndexIn(s[1..], x)
  }

  /** The per-request chain state: the message list and the context's `recent_topics`, absent as `None`. */
  class ChainState {
    var messages: seq<Message>
    var recentTopics: Option<seq<string>>

    constructor (messages: seq<Message>, recentTopics: Option<seq<string>>)
      ensures this.messages == messages && this.recentTopics == recentTopics
    {
      this.messages := messages;
      this.recentTopics := recentTopics;
    }
  }

  /** `add_message_to_state`: log the user's text, then try each topic against the lower-cased text. */
  method AddMessageToState(state: ChainState, message: string)
    modifies state
    ensures state.messages == old(state.messages) + [Message("user", message)]
    ensures state.recentTopics == UpdateTopics(old(state.recentTopics), message)
  {
    state.messages := state.messages + [Message("user", message)];
    if state.recentTopics.Some? {
      var lowered := Lower(message);
      var i := 0;
      while i < |Topics|
        invariant 0 <= i <= |Topics|
        invariant state.messages == old(state.messages) + [Message("user", message)]
        invariant state.recentTopics.Some?
        invariant state.recentTopics.value == TrackTopics(old(state.recentTopics).value, lowered, Topics[..i])
      {
        var topic := Topics[i];
        if Contains(lowered, topic) && |state.recentTopics.value| < MaxTopics {
          if topic !in state.recentTopics.value {
            state.recentTopics := Some(state.recentTopics.value + [topic]);
          }
        }
        assert Topics[..i + 1][..i] == Topics[..i];
        i := i + 1;
      }
      assert Topics[..|Topics|] == Topics;
    }
  }

  /** The text `generate_response` logs: the model's reply, or the fixed apology when the call raised. */
  function ReplyText(reply: LlmReply): string {
    if reply.Answered? then reply.content else Apology
  }

  /**
    `generate_response`: sends the whole message list and logs exactly one
    assistant message. `sent` is the list handed to the model; `None` when the
    script stops for want of an API key, leaving the messages as they were.
  */
  method GenerateResponse(state: ChainState, reply: LlmReply) returns (sent: Option<seq<Message>>)
    modifies state
    ensures reply.NoApiKey? ==> sent == None && state.messages == old(state.messages)
    ensures !reply.NoApiKey? ==>
      && sent == Some(old(state.messages))
      && state.messages == old(state.messages) + [Message("assistant", ReplyText(reply))]
    ensures state.recentTopics == old(state.recentTopics)
  {
    if reply.NoApiKey? {
      return None;
    }
    sent := Some(state.messages);
    if reply.Answered? {
      state.messages := state.messages + [Message("assistant", reply.content)];
    } else {
      state.messages := state.messages + [Message("assistant", Apology)];
    }
  }

  /** One message's contribution to the displayed history. */
  function EntryOf(m: Message): seq<Entry> {
    if m.role == "user" then [Human(m.content)]
    else if m.role == "assistant" then [AI(m.content)]
    else []
  }

  /** The displayed history of a message list: user and assistant messages in order, everything else dropped. */
  function HistoryOf(ms: seq<Message>): seq<Entry>
    decreases |ms|
  {
    if ms == [] then [] else HistoryOf(ms[..|ms| - 1]) + EntryOf(ms[|ms| - 1])
  }

  lemma {:induction false} HistoryOfAppend(a: seq<Message>, b: seq<Message>)
    ensures HistoryOf(a + b) == HistoryOf(a) + HistoryOf(b)
    decreases |b|
  {
    if b == [] {
      assert a + b == a;
    } else {
      var init, last := b[..|b| - 1], b[|b| - 1];
      assert (a + b)[..|a + b| - 1] == a + init;
      assert (a + b)[|a + b| - 1] == last;
      HistoryOfAppend(a, init);
    }
  }

  /**
    Conversion keeps exactly the user and assistant messages: the history is no
    longer than the list, and has the same length exactly when every message is
    a user or assistant one.
  */
  lemma {:induction false} HistoryKeepsConversation(ms: seq<Message>)
    ensures |HistoryOf(ms)| <= |ms|
    ensures |HistoryOf(ms)| == |ms| <==> forall i :: 0 <= i < |ms| ==> ms[i].role in {"user", "assistant"}
    decreases |ms|
  {
    if ms != [] {
      var init := ms[..|ms| - 1];
      HistoryKeepsConversation(init);
      if |HistoryOf(ms)| == |ms| {
        forall i | 0 <= i < |ms|
          ensures ms[i].role in {"user", "assistant"}
        {
          if i < |init| {
            assert ms[i] == init[i];
          }
        }
      }
    }
  }

  /** `save_to_session` and the chat tab's conversion loop. */
  method ToHistory(messages: seq<Message>) returns (history: seq<Entry>)
    ensures history == HistoryOf(messages)
  {
    history := [];
    var i := 0;
    while i < |messages|
      invariant 0 <= i <= |messages|
      invariant history == HistoryOf(messages[..i])
    {
      var msg := messages[i];
      if msg.role == "user" {
        history := history + [Human(msg.content)];
      } else if msg.role == "assistant" {
        history := history + [AI(msg.content)];
      }
      assert messages[..i + 1][..i] == messages[..i];
      i := i + 1;
    }
    assert messages[..|messages|] == messages;
  }

  /** The message a history entry is replayed as. */
  function MessageOf(e: Entry): Message {
    match e
    case Human(c) => Message("user", c)
    case AI(c) => Message("assistant", c)
  }

  function MessagesOf(h: seq<Entry>): (r: seq<Message>)
    ensures |r| == |h|
    decreases |h|
  {
    if h == [] then [] else MessagesOf(h[..|h| - 1]) + [MessageOf(h[|h| - 1])]
  }

  /** The rebuilt message list: the mode's system prompt, then the history replayed. */
  function Transcript(prompt: string, history: seq<Entry>): seq<Message> {
    [Message("system", prompt)] + MessagesOf(history)
  }

  /** The prompt for a chat mode: the partner prompt for "partner", the advisor prompt for anything else. */
  function PromptFor(mode: string, advisorPrompt: string, partnerPrompt: string): string {
    if mode == "partner" then partnerPrompt else advisorPrompt
  }

  /** Converting a rebuilt transcript back yields the history it was rebuilt from. */
  lemma {:induction false} TranscriptRoundTrip(prompt: string, history: seq<Entry>)
    ensures HistoryOf(Transcript(prompt, history)) == history
    decreases |history|
  {
    if history == [] {
      TranscriptEmpty(prompt);
    } else {
      TranscriptRoundTrip(prompt, history[..|history| - 1]);
      TranscriptStep(prompt, history);
    }
  }

  lemma TranscriptStep(prompt: string, history: seq<Entry>)
    requires history != []
    requires HistoryOf(Transcript(prompt, history[..|history| - 1])) == history[..|history| - 1]
    ensures HistoryOf(Transcript(prompt, history)) == history
  {
    var init, last := history[..|history| - 1], history[|history| - 1];
    TranscriptSnoc(prompt, history);
    HistoryOfSnoc(Transcript(prompt, init), MessageOf(last));
    assert EntryOf(MessageOf(last)) == [last];
    assert init + [last] == history;
  }

  lemma TranscriptSnoc(prompt: string, history: seq<Entry>)
    requires history != []
    ensures Transcript(prompt, history)
      == Transcript(prompt, history[..|history| - 1]) + [MessageOf(history[|history| - 1])]
  {
  }

  lemma HistoryOfSnoc(ms: seq<Message>, m: Message)
    ensures HistoryOf(ms + [m]) == HistoryOf(ms) + EntryOf(m)
  {
    assert (ms + [m])[..|ms|] == ms;
  }

  lemma TranscriptEmpty(prompt: string)
    ensures HistoryOf(Transcript(prompt, [])) == []
  {
    assert Transcript(prompt, []) == [Message("system", prompt)];
    HistoryOfSingle(Message("system", prompt));
  }

  lemma HistoryOfSingle(m: Message)
    ensures HistoryOf([m]) == EntryOf(m)
  {
    assert [m][..0] == [];
  }

  /**
    The chat tab's state for a new message: the system prompt alone for an empty
    history (`initialize_state`), otherwise the prompt followed by the history replayed.
  */
  method BuildState(prompt: string, history: seq<Entry>, recentTopics: Option<seq<string>>) returns (state: ChainState)
    ensures fresh(state)
    ensures state.messages == Transcript(prompt, history) && state.recentTopics == recentTopics
  {
    state := new ChainState([Message("system", prompt)], recentTopics);
    var i := 0;
    while i < |history|
      invariant 0 <= i <= |history|
      invariant state.messages == Transcript(prompt, history[..i]) && state.recentTopics == recentTopics
    {
      var msg := history[i];
      if msg.Human? {
        state.messages := state.messages + [Message("user", msg.content)];
      } else {
        state.messages := state.messages + [Message("assistant", msg.content)];
      }
      assert history[..i + 1][..i] == history[..i];
      i := i + 1;
    }
    assert history[..|history|] == history;
  }

  /**
    A message typed in the chat tab: the state is built from the displayed
    history, run through the three chain steps and converted back. The history
    grows by exactly the user's text and the reply (or the apology); the model
    sees the mode's prompt, the whole history and the new message; an empty
    input does nothing. Without an API key the script stops after the first
    step: the history is not saved, but the topics are, because the chain's
    context shares its `recent_topics` list with the session's context.
  */
  method ChatTurn(prompt: string, history: seq<Entry>, recentTopics: Option<seq<string>>,
                  userInput: string, reply: LlmReply)
    returns (newHistory: seq<Entry>, newTopics: Option<seq<string>>, sent: Option<seq<Message>>)
    ensures userInput == [] ==> newHistory == history && newTopics == recentTopics && sent == None
    ensures userInput != [] ==> newTopics == UpdateTopics(recentTopics, userInput)
    ensures userInput != [] && reply.NoApiKey? ==> newHistory == history && sent == None
    ensures userInput != [] && !reply.NoApiKey? ==>
      && newHistory == history + [Human(userInput), AI(ReplyText(reply))]
      && sent == Some(Transcript(prompt, history) + [Message("user", userInput)])
  {
    if userInput == [] {
      return history, recentTopics, None;
    }
    var state := BuildState(prompt, history, recentTopics);
    AddMessageToState(state, userInput);
    sent := GenerateResponse(state, reply);
    if sent == None {
      return history, state.recentTopics, None;
    }
    newHistory := ToHistory(state.messages);
    newTopics := state.recentTopics;
    TurnHistory(prompt, history, userInput, ReplyText(reply));
  }

  /** Replaying a history, then one exchange, and converting back gives the history plus that exchange. */
  lemma TurnHistory(prompt: string, history: seq<Entry>, userInput: string, text: string)
    ensures HistoryOf(Transcript(prompt, history) + [Message("user", userInput)] + [Message("assistant", text)])
      == history + [Human(userInput), AI(text)]
  {
    var t := Transcript(prompt, history);
    var u, a := Message("user", userInput), Message("assistant", text);
    TranscriptRoundTrip(prompt, history);
    HistoryOfAppend(t + [u], [a]);
    HistoryOfAppend(t, [u]);
    HistoryOfSingle(u);
    HistoryOfSingle(a);
    assert history + [Human(userInput)] + [AI(text)] == history + [Human(userInput), AI(text)];
  }

  /** The Streamlit session fields the chat tab reads and writes. */
  class ClientSession {
    var chatMode: string
    var profileName: string
    var advisorHistory: seq<Entry>
    var partnerHistory: seq<Entry>
    var recentTopics: Option<seq<string>>

    /** The start of a session: advisor mode, empty histories, no topics recorded yet. */
    constructor ()
      ensures chatMode == "advisor" && profileName == []
      ensures advisorHistory == [] && partnerHistory == [] && recentTopics == Some([])
    {
      chatMode := "advisor";
      profileName := [];
      advisorHistory := [];
      partnerHistory := [];
      recentTopics := Some([]);
    }

    /**
      `render_chat_tab` on a submitted message: advisor mode uses the advisor
      history, any other mode the partner one, which needs a profile name first;
      the prompt is the partner's only in "partner" mode. The other mode's
      history is left alone.
    */
    method SubmitChat(userInput: string, reply: LlmReply, advisorPrompt: string, partnerPrompt: string)
      returns (sent: Option<seq<Message>>)
      modifies this
      ensures chatMode == old(chatMode) && profileName == old(profileName)
      ensures old(chatMode) != "advisor" && old(profileName) == [] ==>
        && sent == None && advisorHistory == old(advisorHistory) && partnerHistory == old(partnerHistory)
        && recentTopics == old(recentTopics)
      ensures old(chatMode) == "advisor" || old(profileName) != [] ==>
        var before := if old(chatMode) == "advisor" then old(advisorHistory) else old(partnerHistory);
        var after := if userInput == [] || reply.NoApiKey? then before else before + [Human(userInput), AI(ReplyText(reply))];
        && (old(chatMode) == "advisor" ==> advisorHistory == after && partnerHistory == old(partnerHistory))
        && (old(chatMode) != "advisor" ==> partnerHistory == after && advisorHistory == old(advisorHistory))
        && recentTopics == (if userInput == [] then old(recentTopics) else UpdateTopics(old(recentTopics), userInput))
        && (userInput == [] || reply.NoApiKey? ==> sent == None)
        && (userInput != [] && !reply.NoApiKey? ==>
              sent == Some(Transcript(PromptFor(old(chatMode), advisorPrompt, partnerPrompt), before) + [Message("user", userInput)]))
    {
      if chatMode != "advisor" && profileName == [] {
        return None;
      }
      var history := if chatMode == "advisor" then advisorHistory else partnerHistory;
      var prompt := PromptFor(chatMode, advisorPrompt, partnerPrompt);
      var newHistory, newTopics;
      newHistory, newTopics, sent := ChatTurn(prompt, history, recentTopics, userInput, reply);
      if chatMode == "advisor" {
        advisorHistory := newHistory;
      } else {
        partnerHistory := newHistory;
      }
      recentTopics := newTopics;
    }
  }

  /** `[x.strip() for x in text.split(",") if x.strip()]`: a profile list field parsed from its comma-separated text. */
  function ParseCommaList(text: string): seq<string> {
    ParseList(text, ',')
  }

  /** Every parsed entry is non-empty, stripped and free of commas. */
  lemma CommaListEntriesClean(text: string)
    ensures CleanEntries(ParseCommaList(text), ',')
  {
    ParseListClean(text, ',');
  }

  /** Entries keep their order: parsing two comma-joined texts is parsing each. */
  lemma CommaListConcat(a: string, b: string)
    requires ',' !in a
    ensures ParseCommaList(a + "," + b) == ParseCommaList(a) + ParseCommaList(b)
  {
    assert a + "," + b == a + [','] + b;
    ParseListAppend(a, b, ',');
  }

  /**
    The profile tab shows a list as `", ".join(xs)`; saving it unedited gives
    back the same list whenever its entries are clean.
  */
  lemma CommaListRoundTrip(xs: seq<string>)
    requires CleanEntries(xs, ',')
    ensures ParseCommaList(Join(xs, ", ")) == xs
  {
    assert Glue(", ", ',') by {
      assert IsSpace(", "[1]);
    }
    ParseJoinRoundTrip(xs, ", ", ',');
  }
}
