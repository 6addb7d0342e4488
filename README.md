# Prompt turn of a multi-provider chat front end

This project models, in Dafny, the prompt turn of a chat application that
routes a user's prompt to a pluggable provider backend. It covers
`src/logics/conversation.ts` and its two parts:

- **`handlePrompt`**, the turn orchestrator. It looks up the conversation's
  provider and does nothing if there is none. It clears the transcript
  unless the conversation mode is `continuous`. It then appends the user
  message and calls the dispatcher. Only for a truthy response does it
  append an assistant message. A stream response is first registered in
  the stream registry under the conversation id, in an entry that pairs
  the assistant message id with the stream.
- **`callProviderHandler`**, the dispatcher. The mode `single`, `continuous`
  or `image` picks the capability hook. For `continuous` the history is
  reduced to `{role, content}`. A hook that raises has its error reduced to
  a `{code, message}` record with JavaScript `||` defaults. That record
  overwrites the single current-error slot, and the dispatcher then
  returns nothing.

Layout:

- `wrappers.dfy` (`Wrappers`): `Option` and a map lookup.
- `types.dfy` (`Types`): conversations, messages, the `{role, content}` chat
  message, the response union `NoResponse | Text | Stream`, raised errors
  with an optional cause, providers as three optional hooks, and the
  clock readings a turn may take.
- `ids.dfy` (`Ids`): message ids `{conversationId}:user:{t}` and
  `{conversationId}:assistant:{t}`, with decimal rendering of `t`.
- `stores.dfy` (`Stores`): the external stores as classes over maps. These
  are the provider registry, the message store, the stream registry and
  the UI error slot. Each has only the operations the turn uses.
- `dispatcher.dfy` (`Dispatcher`): the projection, the `||` fallback chain,
  error normalisation, and dispatch by mode. The pure `Dispatch` is the
  specification. The imperative `CallProviderHandler` is proved against it.
- `conversation.dfy` (`PromptTurn`): a turn as a pure state transition
  `Turn`, and the imperative `HandlePrompt` over the four stores, proved to
  perform exactly `Turn`. It also holds the lemmas about what a turn does.

A provider is modelled as an oracle. Each hook is an optional total
function from its input and the handler payload to an outcome: a response
or a raised error. The clock readings are passed in. A turn reads
`Date.now()` and `new Date().getTime()` up to twice each: once for the
user message, and once more for the assistant message only when a reply
is recorded. When no reply is recorded the assistant fields of `Clock` are
unused, and when no provider is found no field is used.

## Model

| member | source | states |
|---|---|---|
| Stores.ProviderStore.GetProviderById | src/logics/conversation.ts:11 | a provider is found exactly when one is registered under the id, and it is the one registered there |
| Stores.MessageStore.GetMessagesByConversationId | src/logics/conversation.ts:33 | the history read back is the conversation's stored transcript, or empty for a conversation never written to |
| Stores.MessageStore.ClearMessagesByConversationId | src/logics/conversation.ts:14-15 | the conversation's transcript becomes empty; other conversations keep theirs |
| Stores.MessageStore.PushMessageByConversationId | src/logics/conversation.ts:22-27 | the message is appended at the end of that conversation's transcript and nothing else changes |
| Stores.StreamStore.SetStreamByConversationId | src/logics/conversation.ts:39-42 | the conversation's registry entry becomes the given message id and stream; other entries are kept |
| Stores.UiStore.SetCurrentErrorMessage | src/logics/conversation.ts:90-93 | the single error slot is overwritten: last write wins |
| Ids.Decimal | src/logics/conversation.ts:23 | the timestamp renders as the decimal numeral of `t`: non-empty digits that read back as `t`, with a leading zero only for 0 itself |
| Ids.DecimalInjective | src/logics/conversation.ts:23 | different timestamps render differently, because the rendering reads back |
| Ids.UserMessageIdReadsBack | src/logics/conversation.ts:23 | a user id is the conversation id, then `:user:`, then digits that read back as the clock reading |
| Ids.AssistantMessageIdReadsBack | src/logics/conversation.ts:37 | an assistant id is the conversation id, then `:assistant:`, then digits that read back as the clock reading |
| Ids.UserAndAssistantIdsDiffer | src/logics/conversation.ts:37 | an assistant id never equals a user id of the same conversation, whatever the timestamps |
| Ids.UserIdsCollideIffSameTime | src/logics/conversation.ts:23 | two user ids of one conversation are equal exactly when their millisecond readings are |
| Ids.AssistantIdsCollideIffSameTime | src/logics/conversation.ts:37 | two assistant ids of one conversation are equal exactly when their millisecond readings are |
| Dispatcher.Project | src/logics/conversation.ts:76-79 | the projection has the history's length and order, and each element keeps only role and content |
| Dispatcher.ProjectAppend | src/logics/conversation.ts:76-79 | projecting a concatenation is concatenating the projections |
| Dispatcher.ProjectSeesOnlyRoleAndContent | src/logics/conversation.ts:76-79 | two histories project alike exactly when they agree in length, roles and contents, so ids, timestamps and stream flags never reach the provider |
| Dispatcher.FirstTruthy | src/logics/conversation.ts:91-92 | a JavaScript `a \|\| b \|\| default` chain: the first candidate that is present and non-empty, else the default; never empty when the default is not |
| Dispatcher.CauseCode | src/logics/conversation.ts:91 | `cause?.code`: missing when the error has no cause, otherwise the cause's code |
| Dispatcher.CauseMessage | src/logics/conversation.ts:92 | `cause?.message`: missing when the error has no cause, otherwise the cause's message |
| Dispatcher.NormalizeError | src/logics/conversation.ts:86-94 | code is the cause's code, or `provider_error` if that is missing or empty; message is the cause's message, else the error's own message, else `Unknown error`; neither is ever empty |
| Dispatcher.StructuredCausePassesThrough | src/logics/conversation.ts:88-92 | a cause `{code, message}` with both fields non-empty is published unchanged |
| Dispatcher.PlainErrorGetsDefaultCode | src/logics/conversation.ts:91-92 | an error with a message and no cause is published as `{provider_error, message}` |
| Dispatcher.PayloadFor | src/logics/conversation.ts:64-70 | the handler payload carries the conversation id, empty conversation settings, empty system role and no mock messages |
| Dispatcher.CallHook | src/logics/conversation.ts:74-82 | optional call `hook?.(x, payload)`: an absent hook yields no response, a present one is called with exactly `x` and the payload, and only a present hook can raise |
| Dispatcher.Invoke | src/logics/conversation.ts:73-83 | an unrecognised mode calls nothing and yields no response; a raise can only come from the hook that matches the mode, and that hook must be present |
| Dispatcher.Dispatch | src/logics/conversation.ts:72-95 | an error is published exactly when the hook raises; the response is then nothing; otherwise it is what the hook returned |
| Dispatcher.DispatchByMode | src/logics/conversation.ts:73-85 | `single` and `image` pass the prompt to their own hook; `continuous` passes the projected history; an absent hook or an unrecognised mode gives no response and no error |
| Dispatcher.CallProviderHandler | src/logics/conversation.ts:61-96 | the imperative dispatcher returns `Dispatch`'s response; it overwrites the error slot only when `Dispatch` publishes one and otherwise leaves it alone |
| Types.Truthy | src/logics/conversation.ts:36 | a response is truthy unless it is nothing or the empty string |
| PromptTurn.UserMessage | src/logics/conversation.ts:22-27 | the user message has role user, the prompt as content, no stream flag and the user clock reading as dateTime; its id is the user id of this turn's reading and of no other |
| PromptTurn.AssistantMessage | src/logics/conversation.ts:44-50 | the assistant message has role assistant, the text as content for a text response and "" otherwise, the stream flag exactly for a stream, the assistant id, and an id no user message of the conversation can have |
| PromptTurn.StartingTranscript | src/logics/conversation.ts:14-15 | outside `continuous` mode the turn starts from an empty transcript; in `continuous` mode it starts from the stored one |
| PromptTurn.HistoryFor | src/logics/conversation.ts:33 | the history read back for the dispatcher is the starting transcript followed by exactly one message, the user message just pushed |
| PromptTurn.StreamsAfter | src/logics/conversation.ts:38-43 | a stream response sets the entry under the conversation id to the assistant message id paired with the stream; every other conversation's entry is kept; any other response leaves the registry as it was |
| PromptTurn.ReplyMessages | src/logics/conversation.ts:36-50 | a response adds at most one message, exactly one when it is truthy, and that one is the assistant message |
| PromptTurn.TurnWith | src/logics/conversation.ts:14-51 | once the provider is found, the conversation's transcript becomes the history followed by the reply; other conversations and their stream entries are unchanged; the stream registry changes only for a stream response; the error slot changes only to a published error |
| PromptTurn.Turn | src/logics/conversation.ts:10-52 | a missing provider changes nothing; otherwise the turn is `TurnWith` that provider; other conversations' transcripts never change |
| PromptTurn.HandlePrompt | src/logics/conversation.ts:10-52 | the imperative turn leaves the stores in exactly the state `Turn` gives and leaves the provider registry untouched |
| PromptTurn.RecordReply | src/logics/conversation.ts:36-51 | for a truthy response the assistant message is appended to the conversation's transcript, and for a stream response the stream is registered under the conversation id with the assistant id; a falsy response changes nothing |
| PromptTurn.NoProviderNoChange | src/logics/conversation.ts:11-12 | without a provider nothing changes: no clear, no message, no stream, no error |
| PromptTurn.OtherConversationsUntouched | src/logics/conversation.ts:14-50 | transcripts and stream entries of other conversations are unchanged |
| PromptTurn.TranscriptAfterTurn | src/logics/conversation.ts:14-51 | the transcript after a turn is the starting transcript, then the user message, then the assistant reply exactly when the response is truthy |
| PromptTurn.NonContinuousStartsAfresh | src/logics/conversation.ts:14-27 | outside `continuous` mode the transcript afterwards holds 1 or 2 messages, the user's first, and 2 exactly when the response is truthy |
| PromptTurn.ContinuousAccumulates | src/logics/conversation.ts:14-50 | in `continuous` mode the old transcript stays as a prefix, followed by the user message, and grows by 1 or 2 |
| PromptTurn.ProviderSeesPrompt | src/logics/conversation.ts:29-34 | the history given to the dispatcher is read after the push: its projection has the same length, ends with `{user, prompt}`, and starts with the projection of the starting transcript |
| PromptTurn.TextReply | src/logics/conversation.ts:47-48 | a non-empty text response is stored as the assistant's content with the stream flag false; no stream is registered and the error slot is untouched |
| PromptTurn.EmptyTextReply | src/logics/conversation.ts:36 | an empty-string response is falsy: only the user message is recorded and no stream is registered |
| PromptTurn.StreamReply | src/logics/conversation.ts:37-48 | a stream response is stored with empty content and the stream flag true, and registered once under the conversation id with that message's id |
| PromptTurn.RaisedErrorPublished | src/logics/conversation.ts:86-94 | when the hook raises, the slot holds the normalised error, and no reply or stream is recorded |
| PromptTurn.ErrorOnlyOnRaise | src/logics/conversation.ts:72-85 | a hook that does not raise leaves the error slot as it was |
| PromptTurn.TurnIdsDistinct | src/logics/conversation.ts:23-45 | when a reply is recorded, the user and assistant messages of the turn have distinct ids |

## Left out

- `async`/`await`: the hook call is modelled as resolving at once. The model does not cover two turns interleaving, the clear-versus-clear race between concurrent turns, or last-writer-wins on the error slot across conversations.
- Stream contents: a stream is an opaque handle that this code never reads or cancels.
- `getSettingsByProviderId` and the `globalSettings` field of the handler payload: these are opaque settings data. The payload keeps the conversation id and the constant empty defaults.
- `console.log` and `console.error`: pure output.
- The clock: the up to two `Date.now()` and two `new Date().getTime()` readings of a turn are parameters; the assistant pair is used only when a reply is recorded, and none is used when no provider is found. Ids colliding within one millisecond are characterised by `Ids.UserIdsCollideIffSameTime`, not prevented.
- The commented-out conversation rename block.
- The implementations of the stores: they are not part of this model. Clearing is modelled as mapping the conversation to an empty transcript; a conversation never written to reads as an empty transcript.
- The user message has no `stream` field in the source. It is modelled as `stream = false`, which is how that absent field reads.
- Runtime type tests: `instanceof ReadableStream` and `typeof === 'string'` become a tagged response union. A truthy response that is neither a string nor a stream cannot be represented.
- A thrown `null` or a non-object cause: the raised value is a record with optional `cause` and `message`, and the cause has optional `code` and `message`. The case where reading `error.message` itself throws inside the catch is not modelled.
- A `null` conversation (`conversation?.providerId`): conversations are always present.
