/**
 * The provider dispatcher (`callProviderHandler`): it picks the capability
 * hook from the conversation mode, hands a continuous hook the history
 * reduced to `{role, content}`, and turns a raised error into the
 * normalised `{code, message}` it publishes in the current-error slot.
 */
module Dispatcher {
  import opened Wrappers
  import opened Types
  import opened Stores

  /* ----- history projection ----- */

  /** `historyMessages.map(m => ({role: m.role, content: m.content}))`. */
  function Project(history: seq<Message>): (r: seq<ChatMessage>)
    ensures |r| == |history|
    ensures forall i :: 0 <= i < |history| ==> r[i] == ChatMessage(history[i].role, history[i].content)
  {
    if history == [] then [] else [ChatMessage(history[0].role, history[0].content)] + Project(history[1..])
  }

  /** Projection distributes over concatenation of histories. */
  lemma {:induction false} ProjectAppend(a: seq<Message>, b: seq<Message>)
    ensures Project(a + b) == Project(a) + Project(b)
  {
    if a != [] {
      assert (a + b)[1..] == a[1..] + b;
      ProjectAppend(a[1..], b);
    }
  }

  /**
   * Ids, timestamps and stream flags do not reach the provider: histories
   * that agree on roles and contents project to the same messages, and
   * only those do.
   */
  lemma {:induction false} ProjectSeesOnlyRoleAndContent(h1: seq<Message>, h2: seq<Message>)
    ensures Project(h1) == Project(h2) <==>
      |h1| == |h2| && forall i :: 0 <= i < |h1| ==> h1[i].role == h2[i].role && h1[i].content == h2[i].content
  {
    if Project(h1) == Project(h2) {
      forall i | 0 <= i < |h1|
        ensures h1[i].role == h2[i].role && h1[i].content == h2[i].content
      {
        assert Project(h1)[i] == Project(h2)[i];
      }
    }
    if |h1| == |h2| && forall i :: 0 <= i < |h1| ==> h1[i].role == h2[i].role && h1[i].content == h2[i].content {
      assert Project(h1) == Project(h2);
    }
  }

  /* ----- the JavaScript `||` fallback chain ----- */

  /** A missing field or an empty string: what `||` passes over. */
  predicate Falsy(o: Option<string>)
  {
    o.None? || o.value == ""
  }

  /** Position `i` holds the first candidate `||` would stop at. */
  predicate IsFirstTruthy(candidates: seq<Option<string>>, i: int)
  {
    0 <= i < |candidates| && !Falsy(candidates[i]) &&
    forall j :: 0 <= j < i ==> Falsy(candidates[j])
  }

  /** `c0 || c1 || ... || default`. */
  function FirstTruthy(candidates: seq<Option<string>>, default: string): (r: string)
    ensures (forall i :: 0 <= i < |candidates| ==> Falsy(candidates[i])) ==> r == default
    ensures forall i :: IsFirstTruthy(candidates, i) ==> r == candidates[i].value
    ensures r == default || exists i :: 0 <= i < |candidates| && candidates[i] == Some(r)
    ensures default != "" ==> r != ""
  {
    if candidates == [] then default
    else if !Falsy(candidates[0]) then candidates[0].value
    else
      var rest := FirstTruthy(candidates[1..], default);
      assert forall i :: IsFirstTruthy(candidates, i) ==> IsFirstTruthy(candidates[1..], i - 1);
      rest
  }

  /* ----- error normalisation ----- */

  const DefaultErrorCode: string := "provider_error"
  const DefaultErrorMessage: string := "Unknown error"

  /** `cause?.code`: missing when the error carries no cause. */
  function CauseCode(e: RaisedError): (r: Option<string>)
    ensures e.cause.None? ==> r.None?
    ensures e.cause.Some? ==> r == e.cause.value.code
  {
    if e.cause.Some? then e.cause.value.code else None
  }

  /** `cause?.message`: missing when the error carries no cause. */
  function CauseMessage(e: RaisedError): (r: Option<string>)
    ensures e.cause.None? ==> r.None?
    ensures e.cause.Some? ==> r == e.cause.value.message
  {
    if e.cause.Some? then e.cause.value.message else None
  }

  /**
   * `code: cause?.code || 'provider_error'` and
   * `message: cause?.message || error.message || 'Unknown error'`.
   */
  function NormalizeError(e: RaisedError): (r: ErrorMessage)
    ensures r.code != "" && r.message != ""
    ensures !Falsy(CauseCode(e)) ==> r.code == CauseCode(e).value
    ensures Falsy(CauseCode(e)) ==> r.code == DefaultErrorCode
    ensures !Falsy(CauseMessage(e)) ==> r.message == CauseMessage(e).value
    ensures Falsy(CauseMessage(e)) && !Falsy(e.message) ==> r.message == e.message.value
    ensures Falsy(CauseMessage(e)) && Falsy(e.message) ==> r.message == DefaultErrorMessage
  {
    var code := FirstTruthy([CauseCode(e)], DefaultErrorCode);
    var message := FirstTruthy([CauseMessage(e), e.message], DefaultErrorMessage);
    assert !Falsy(CauseMessage(e)) ==> IsFirstTruthy([CauseMessage(e), e.message], 0);
    assert Falsy(CauseMessage(e)) && !Falsy(e.message) ==> IsFirstTruthy([CauseMessage(e), e.message], 1);
    ErrorMessage(code, message)
  }

  /** A raised error whose cause is a complete `{code, message}` record is published as exactly that record. */
  lemma StructuredCausePassesThrough(code: string, message: string, own: Option<string>)
    requires code != "" && message != ""
    ensures NormalizeError(RaisedError(Some(Cause(Some(code), Some(message))), own)) == ErrorMessage(code, message)
  {
  }

  /** A plain error with a message and no cause gets the default code and keeps its message. */
  lemma PlainErrorGetsDefaultCode(message: string)
    requires message != ""
    ensures NormalizeError(RaisedError(None, Some(message))) == ErrorMessage(DefaultErrorCode, message)
  {
  }

  /* ----- dispatch by mode ----- */

  /** The payload built for every hook call: the conversation id and the empty defaults. */
  function PayloadFor(conversation: Conversation): (p: HandlerPayload)
    ensures p.conversationId == conversation.id
    ensures p.conversationSettings == map[] && p.systemRole == "" && p.mockMessages == []
  {
    HandlerPayload(conversation.id, map[], "", [])
  }

  /** Optional call `hook?.(x, payload)`: an absent hook yields no response. */
  function CallHook<X>(hook: Option<(X, HandlerPayload) -> HookOutcome>, x: X, payload: HandlerPayload): (r: HookOutcome)
    ensures hook.None? ==> r == Returned(NoResponse)
    ensures hook.Some? ==> r == hook.value(x, payload)
    ensures r.Raised? ==> hook.Some?
  {
    if hook.Some? then hook.value(x, payload) else Returned(NoResponse)
  }

  /** What the hook chosen by the conversation mode yields; an unrecognised mode calls nothing. */
  function Invoke(conversation: Conversation, provider: Provider, prompt: string, history: seq<Message>): (r: HookOutcome)
    ensures var mode := conversation.conversationType;
      mode != SingleMode && mode != ContinuousMode && mode != ImageMode ==> r == Returned(NoResponse)
    ensures r.Raised? ==>
      (conversation.conversationType == SingleMode && provider.handleSinglePrompt.Some?) ||
      (conversation.conversationType == ContinuousMode && provider.handleContinuousPrompt.Some?) ||
      (conversation.conversationType == ImageMode && provider.handleImagePrompt.Some?)
  {
    var payload := PayloadFor(conversation);
    if conversation.conversationType == SingleMode then
      CallHook(provider.handleSinglePrompt, prompt, payload)
    else if conversation.conversationType == ContinuousMode then
      CallHook(provider.handleContinuousPrompt, Project(history), payload)
    else if conversation.conversationType == ImageMode then
      CallHook(provider.handleImagePrompt, prompt, payload)
    else
      Returned(NoResponse)
  }

  /** The outcome of one dispatch: the response returned and the error published, if any. */
  datatype Dispatched = Dispatched(response: PromptResponse, published: Option<ErrorMessage>)

  /** `callProviderHandler` as a value: it never re-raises. */
  function Dispatch(conversation: Conversation, provider: Provider, prompt: string, history: seq<Message>): (r: Dispatched)
    ensures r.published.Some? <==> Invoke(conversation, provider, prompt, history).Raised?
    ensures r.published.Some? ==> r.response == NoResponse
    ensures r.published.Some? ==> r.published.value == NormalizeError(Invoke(conversation, provider, prompt, history).error)
    ensures r.published.None? ==> r.response == Invoke(conversation, provider, prompt, history).response
  {
    match Invoke(conversation, provider, prompt, history)
    case Returned(response) => Dispatched(response, None)
    case Raised(e) => Dispatched(NoResponse, Some(NormalizeError(e)))
  }

  /**
   * Mode selects the capability: `single` and `image` pass the prompt to
   * their own hook, `continuous` passes the projected history, and any
   * other mode or an absent hook yields no response and publishes nothing.
   */
  lemma DispatchByMode(conversation: Conversation, provider: Provider, prompt: string, history: seq<Message>)
    ensures var mode, payload := conversation.conversationType, PayloadFor(conversation);
      && (mode == SingleMode && provider.handleSinglePrompt.Some? ==>
            Invoke(conversation, provider, prompt, history) == provider.handleSinglePrompt.value(prompt, payload))
      && (mode == ContinuousMode && provider.handleContinuousPrompt.Some? ==>
            Invoke(conversation, provider, prompt, history) == provider.handleContinuousPrompt.value(Project(history), payload))
      && (mode == ImageMode && provider.handleImagePrompt.Some? ==>
            Invoke(conversation, provider, prompt, history) == provider.handleImagePrompt.value(prompt, payload))
    ensures var mode := conversation.conversationType;
      ((mode == SingleMode && provider.handleSinglePrompt.None?) ||
       (mode == ContinuousMode && provider.handleContinuousPrompt.None?) ||
       (mode == ImageMode && provider.handleImagePrompt.None?) ||
       (mode != SingleMode && mode != ContinuousMode && mode != ImageMode)) ==>
      Dispatch(conversation, provider, prompt, history) == Dispatched(NoResponse, None)
  {
  }

  /**
   * The imperative dispatcher: one hook call at most, the error slot
   * overwritten exactly when that call raises.
   */
  method CallProviderHandler(ui: UiStore, conversation: Conversation, provider: Provider, prompt: string, history: seq<Message>)
    returns (response: PromptResponse)
    modifies ui
    ensures response == Dispatch(conversation, provider, prompt, history).response
    ensures ui.currentErrorMessage ==
      if Dispatch(conversation, provider, prompt, history).published.Some?
      then Dispatch(conversation, provider, prompt, history).published
      else old(ui.currentErrorMessage)
  {
    var payload := PayloadFor(conversation);
    var outcome := Returned(NoResponse);
    if conversation.conversationType == SingleMode {
      outcome := CallHook(provider.handleSinglePrompt, prompt, payload);
    } else if conversation.conversationType == ContinuousMode {
      var messages := Project(history);
      outcome := CallHook(provider.handleContinuousPrompt, messages, payload);
    } else if conversation.conversationType == ImageMode {
      outcome := CallHook(provider.handleImagePrompt, prompt, payload);
    }
    match outcome
    case Returned(r) =>
      response := r;
    case Raised(e) =>
      ui.SetCurrentErrorMessage(NormalizeError(e));
      response := NoResponse;
  }
}
