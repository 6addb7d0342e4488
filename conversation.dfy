/**
 * The prompt turn (`handlePrompt`): look up the provider, clear the
 * transcript unless the conversation is continuous, record the user
 * message, dispatch, and record the assistant reply (registering a
 * stream reply in the stream registry first).
 */
module PromptTurn {
  import opened Wrappers
  import opened Types
  import opened Ids
  import opened Stores
  import opened Dispatcher

  /** What a turn can change: transcripts, stream registry and the current-error slot. */
  datatype State = State(
    transcripts: map<string, seq<Message>>,
    streams: map<string, StreamEntry>,
    currentError: Option<ErrorMessage>)

  /** The user's message: the prompt as content, under the conversation's user id for this turn. */
  function UserMessage(conversationId: string, prompt: string, clock: Clock): (m: Message)
    ensures m.role == User && m.content == prompt && !m.stream && m.dateTime == clock.userTime
    ensures forall t: nat :: m.id == UserMessageId(conversationId, t) <==> t == clock.userId
  {
    forall t: nat ensures UserMessageId(conversationId, t) == UserMessageId(conversationId, clock.userId) <==> t == clock.userId {
      UserIdsCollideIffSameTime(conversationId, t, clock.userId);
    }
    Message(UserMessageId(conversationId, clock.userId), User, prompt, false, clock.userTime)
  }

  /** The assistant message for a truthy response: text goes in `content`, a stream leaves it empty. */
  function AssistantMessage(conversationId: string, response: PromptResponse, clock: Clock): (m: Message)
    ensures m.role == Assistant && m.dateTime == clock.assistantTime
    ensures m.stream <==> response.Stream?
    ensures response.Text? ==> m.content == response.text
    ensures !response.Text? ==> m.content == ""
    ensures m.id == AssistantMessageId(conversationId, clock.assistantId)
    ensures forall t: nat :: m.id != UserMessageId(conversationId, t)
  {
    forall t: nat ensures UserMessageId(conversationId, t) != AssistantMessageId(conversationId, clock.assistantId) {
      UserAndAssistantIdsDiffer(conversationId, t, clock.assistantId);
    }
    Message(AssistantMessageId(conversationId, clock.assistantId), Assistant,
            if response.Text? then response.text else "", response.Stream?, clock.assistantTime)
  }

  /** The transcript a turn starts from: empty unless the conversation is continuous. */
  function StartingTranscript(s: State, conversation: Conversation): (r: seq<Message>)
    ensures conversation.conversationType != ContinuousMode ==> r == []
    ensures conversation.conversationType == ContinuousMode ==> r == Transcript(s.transcripts, conversation.id)
  {
    if conversation.conversationType != ContinuousMode then [] else Transcript(s.transcripts, conversation.id)
  }

  /** The history the dispatcher is given: read back after the user message is pushed. */
  function HistoryFor(s: State, conversation: Conversation, prompt: string, clock: Clock): (h: seq<Message>)
    ensures |h| == |StartingTranscript(s, conversation)| + 1
    ensures h[..|h| - 1] == StartingTranscript(s, conversation) && h[|h| - 1] == UserMessage(conversation.id, prompt, clock)
  {
    StartingTranscript(s, conversation) + [UserMessage(conversation.id, prompt, clock)]
  }

  /** What a response adds to the transcript: the assistant message exactly when the response is truthy. */
  function ReplyMessages(conversationId: string, response: PromptResponse, clock: Clock): (r: seq<Message>)
    ensures |r| <= 1
    ensures |r| == 1 <==> Truthy(response)
    ensures |r| == 1 ==> r[0] == AssistantMessage(conversationId, response, clock)
  {
    if Truthy(response) then [AssistantMessage(conversationId, response, clock)] else []
  }

  /** The stream registry after a response: a stream is registered under the conversation with the reply's id. */
  function StreamsAfter(streams: map<string, StreamEntry>, conversationId: string, response: PromptResponse, clock: Clock)
    : (r: map<string, StreamEntry>)
    ensures forall c :: c != conversationId ==> Lookup(r, c) == Lookup(streams, c)
    ensures response.Stream? ==>
      conversationId in r && r[conversationId] == StreamEntry(AssistantMessageId(conversationId, clock.assistantId), response.handle)
    ensures !response.Stream? ==> r == streams
  {
    if response.Stream?
    then streams[conversationId := StreamEntry(AssistantMessageId(conversationId, clock.assistantId), response.handle)]
    else streams
  }

  /** The state after the turn, once the provider has been found. */
  function TurnWith(s: State, provider: Provider, conversation: Conversation, prompt: string, clock: Clock): (r: State)
    ensures r.transcripts.Keys == s.transcripts.Keys + {conversation.id}
    ensures forall c :: c != conversation.id ==> Transcript(r.transcripts, c) == Transcript(s.transcripts, c)
    ensures r.streams.Keys <= s.streams.Keys + {conversation.id}
    ensures forall c :: c != conversation.id ==> Lookup(r.streams, c) == Lookup(s.streams, c)
    ensures var out := Dispatch(conversation, provider, prompt, HistoryFor(s, conversation, prompt, clock));
      && Transcript(r.transcripts, conversation.id) ==
           HistoryFor(s, conversation, prompt, clock) +
           (if Truthy(out.response) then [AssistantMessage(conversation.id, out.response, clock)] else [])
      && (r.streams != s.streams ==> out.response.Stream?)
      && (r.currentError != s.currentError ==> out.published.Some? && r.currentError == out.published)
  {
    var history := HistoryFor(s, conversation, prompt, clock);
    var out := Dispatch(conversation, provider, prompt, history);
    var reply := ReplyMessages(conversation.id, out.response, clock);
    var streams := StreamsAfter(s.streams, conversation.id, out.response, clock);
    var error := if out.published.Some? then out.published else s.currentError;
    State(s.transcripts[conversation.id := history + reply], streams, error)
  }

  /** `handlePrompt` as a state transition; a missing provider changes nothing. */
  function Turn(s: State, providers: map<string, Provider>, conversation: Conversation, prompt: string, clock: Clock): (r: State)
    ensures conversation.providerId !in providers ==> r == s
    ensures conversation.providerId in providers ==> r == TurnWith(s, providers[conversation.providerId], conversation, prompt, clock)
    ensures forall c :: c != conversation.id ==> Transcript(r.transcripts, c) == Transcript(s.transcripts, c)
  {
    match Lookup(providers, conversation.providerId)
    case None => s
    case Some(provider) => TurnWith(s, provider, conversation, prompt, clock)
  }

  /* ----- the imperative turn over the stores ----- */

  method HandlePrompt(
    providerStore: ProviderStore, messages: MessageStore, streams: StreamStore, ui: UiStore,
    conversation: Conversation, prompt: string, clock: Clock)
    modifies messages, streams, ui
    ensures unchanged(providerStore)
    ensures State(messages.transcripts, streams.streams, ui.currentErrorMessage) ==
      Turn(old(State(messages.transcripts, streams.streams, ui.currentErrorMessage)),
           old(providerStore.providers), conversation, prompt, clock)
  {
    ghost var s0 := State(messages.transcripts, streams.streams, ui.currentErrorMessage);
    var found := providerStore.GetProviderById(conversation.providerId);
    if found.None? {
      return;
    }
    var provider := found.value;
    ghost var expected := TurnWith(s0, provider, conversation, prompt, clock);
    assert Turn(s0, providerStore.providers, conversation, prompt, clock) == expected;

    if conversation.conversationType != ContinuousMode {
      messages.ClearMessagesByConversationId(conversation.id);
    }
    messages.PushMessageByConversationId(conversation.id, UserMessage(conversation.id, prompt, clock));
    var history := messages.GetMessagesByConversationId(conversation.id);
    assert history == HistoryFor(s0, conversation, prompt, clock);
    assert messages.transcripts == s0.transcripts[conversation.id := history];

    var response := CallProviderHandler(ui, conversation, provider, prompt, history);
    assert ui.currentErrorMessage == expected.currentError;
    RecordReply(messages, streams, conversation, response, clock);
    assert streams.streams == expected.streams;
    if !Truthy(response) {
      assert history + [] == history;
    }
    assert messages.transcripts == expected.transcripts;
  }

  /**
   * The tail of the turn: for a truthy response, register a stream response
   * under the conversation id, in an entry holding the assistant message id,
   * then append the assistant message.
   */
  method RecordReply(messages: MessageStore, streams: StreamStore, conversation: Conversation, response: PromptResponse, clock: Clock)
    modifies messages, streams
    ensures messages.transcripts ==
      if Truthy(response)
      then old(messages.transcripts)[conversation.id :=
             old(messages.GetMessagesByConversationId(conversation.id)) + ReplyMessages(conversation.id, response, clock)]
      else old(messages.transcripts)
    ensures streams.streams == StreamsAfter(old(streams.streams), conversation.id, response, clock)
  {
    if Truthy(response) {
      var messageId := AssistantMessageId(conversation.id, clock.assistantId);
      if response.Stream? {
        streams.SetStreamByConversationId(conversation.id, StreamEntry(messageId, response.handle));
      }
      messages.PushMessageByConversationId(conversation.id, AssistantMessage(conversation.id, response, clock));
    }
  }

  /* ----- properties of a turn ----- */

  /** With no provider registered under the conversation's provider id, nothing changes. */
  lemma NoProviderNoChange(s: State, providers: map<string, Provider>, conversation: Conversation, prompt: string, clock: Clock)
    requires conversation.providerId !in providers
    ensures Turn(s, providers, conversation, prompt, clock) == s
  {
  }

  /** A turn touches only its own conversation's transcript and stream entry. */
  lemma OtherConversationsUntouched(
    s: State, providers: map<string, Provider>, conversation: Conversation, prompt: string, clock: Clock, other: string)
    requires other != conversation.id
    ensures var r := Turn(s, providers, conversation, prompt, clock);
      Transcript(r.transcripts, other) == Transcript(s.transcripts, other) &&
      Lookup(r.streams, other) == Lookup(s.streams, other)
  {
  }

  /**
   * The transcript after a turn: the starting transcript, the user message,
   * then the assistant reply exactly when the response is truthy.
   */
  lemma TranscriptAfterTurn(s: State, provider: Provider, conversation: Conversation, prompt: string, clock: Clock)
    ensures var r := TurnWith(s, provider, conversation, prompt, clock);
      var t := Transcript(r.transcripts, conversation.id);
      var start := StartingTranscript(s, conversation);
      var response := Dispatch(conversation, provider, prompt, HistoryFor(s, conversation, prompt, clock)).response;
      && |t| == |start| + (if Truthy(response) then 2 else 1)
      && t[..|start|] == start
      && t[|start|] == UserMessage(conversation.id, prompt, clock)
      && (Truthy(response) ==> t[|start| + 1] == AssistantMessage(conversation.id, response, clock))
  {
  }

  /** Non-continuous modes keep no history: afterwards the transcript holds 1 or 2 messages, the first the user's. */
  lemma NonContinuousStartsAfresh(s: State, providers: map<string, Provider>, conversation: Conversation, prompt: string, clock: Clock)
    requires conversation.providerId in providers
    requires conversation.conversationType != ContinuousMode
    ensures var t := Transcript(Turn(s, providers, conversation, prompt, clock).transcripts, conversation.id);
      (|t| == 1 || |t| == 2) && t[0] == UserMessage(conversation.id, prompt, clock) &&
      (|t| == 2 <==> Truthy(Dispatch(conversation, providers[conversation.providerId], prompt, [t[0]]).response))
  {
    TranscriptAfterTurn(s, providers[conversation.providerId], conversation, prompt, clock);
  }

  /** Continuous mode keeps the old transcript as a prefix and grows it by one or two messages. */
  lemma ContinuousAccumulates(s: State, providers: map<string, Provider>, conversation: Conversation, prompt: string, clock: Clock)
    requires conversation.providerId in providers
    requires conversation.conversationType == ContinuousMode
    ensures var before := Transcript(s.transcripts, conversation.id);
      var t := Transcript(Turn(s, providers, conversation, prompt, clock).transcripts, conversation.id);
      (|t| == |before| + 1 || |t| == |before| + 2) && t[..|before|] == before &&
      t[|before|] == UserMessage(conversation.id, prompt, clock)
  {
    TranscriptAfterTurn(s, providers[conversation.providerId], conversation, prompt, clock);
  }

  /**
   * The history given to the dispatcher ends with the user's prompt, and in
   * continuous mode the hook receives exactly its `{role, content}` projection.
   */
  lemma ProviderSeesPrompt(s: State, provider: Provider, conversation: Conversation, prompt: string, clock: Clock)
    ensures var h := HistoryFor(s, conversation, prompt, clock);
      var p := Project(h);
      |p| == |h| && p[|p| - 1] == ChatMessage(User, prompt) &&
      p[..|p| - 1] == Project(StartingTranscript(s, conversation))
  {
    var start := StartingTranscript(s, conversation);
    ProjectAppend(start, [UserMessage(conversation.id, prompt, clock)]);
  }

  /** A non-empty text reply is stored as it is, not flagged as a stream, and registers no stream. */
  lemma TextReply(s: State, provider: Provider, conversation: Conversation, prompt: string, clock: Clock, text: string)
    requires Dispatch(conversation, provider, prompt, HistoryFor(s, conversation, prompt, clock)).response == Text(text)
    requires text != ""
    ensures var r := TurnWith(s, provider, conversation, prompt, clock);
      var t := Transcript(r.transcripts, conversation.id);
      |t| >= 2 && t[|t| - 1].role == Assistant && t[|t| - 1].content == text && !t[|t| - 1].stream &&
      r.streams == s.streams && r.currentError == s.currentError
  {
  }

  /** An empty-string reply is falsy: only the user message is recorded. */
  lemma EmptyTextReply(s: State, provider: Provider, conversation: Conversation, prompt: string, clock: Clock)
    requires Dispatch(conversation, provider, prompt, HistoryFor(s, conversation, prompt, clock)).response == Text("")
    ensures var r := TurnWith(s, provider, conversation, prompt, clock);
      Transcript(r.transcripts, conversation.id) == HistoryFor(s, conversation, prompt, clock) &&
      r.streams == s.streams
  {
  }

  /**
   * A stream reply is stored with empty content and the stream flag, and is
   * registered once under the conversation id with the stored reply's id.
   */
  lemma StreamReply(s: State, provider: Provider, conversation: Conversation, prompt: string, clock: Clock, h: StreamHandle)
    requires Dispatch(conversation, provider, prompt, HistoryFor(s, conversation, prompt, clock)).response == Stream(h)
    ensures var r := TurnWith(s, provider, conversation, prompt, clock);
      var t := Transcript(r.transcripts, conversation.id);
      |t| >= 2 && t[|t| - 1].role == Assistant && t[|t| - 1].content == "" && t[|t| - 1].stream &&
      r.streams == s.streams[conversation.id := StreamEntry(t[|t| - 1].id, h)] &&
      t[|t| - 1].id == AssistantMessageId(conversation.id, clock.assistantId)
  {
  }

  /**
   * A raised hook error is published in normalised form, replacing any
   * earlier error, and no reply or stream is recorded.
   */
  lemma RaisedErrorPublished(s: State, provider: Provider, conversation: Conversation, prompt: string, clock: Clock, e: RaisedError)
    requires Invoke(conversation, provider, prompt, HistoryFor(s, conversation, prompt, clock)) == Raised(e)
    ensures var r := TurnWith(s, provider, conversation, prompt, clock);
      r.currentError == Some(NormalizeError(e)) &&
      Transcript(r.transcripts, conversation.id) == HistoryFor(s, conversation, prompt, clock) &&
      r.streams == s.streams
  {
  }

  /** The error slot changes only when the hook raises. */
  lemma ErrorOnlyOnRaise(s: State, provider: Provider, conversation: Conversation, prompt: string, clock: Clock)
    requires !Invoke(conversation, provider, prompt, HistoryFor(s, conversation, prompt, clock)).Raised?
    ensures TurnWith(s, provider, conversation, prompt, clock).currentError == s.currentError
  {
  }

  /** The user message and the assistant reply of one turn never share an id. */
  lemma TurnIdsDistinct(s: State, provider: Provider, conversation: Conversation, prompt: string, clock: Clock)
    ensures var r := TurnWith(s, provider, conversation, prompt, clock);
      var t := Transcript(r.transcripts, conversation.id);
      var n := |StartingTranscript(s, conversation)|;
      |t| == n + 2 ==> t[n].id != t[n + 1].id && t[n].role == User && t[n + 1].role == Assistant
  {
    TranscriptAfterTurn(s, provider, conversation, prompt, clock);
    UserAndAssistantIdsDiffer(conversation.id, clock.userId, clock.assistantId);
  }
}
