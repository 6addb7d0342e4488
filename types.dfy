/**
 * The entities the prompt turn reads and writes: conversations, stored
 * messages, the reduced chat messages a provider sees, provider responses,
 * raised errors and their normalised form, and providers as a set of
 * optional capability hooks.
 */
module Types {
  import opened Wrappers

  /** Conversation modes the dispatcher recognises; any other string is possible. */
  const SingleMode: string := "single"
  const ContinuousMode: string := "continuous"
  const ImageMode: string := "image"

  datatype Role = User | Assistant

  /** A conversation as the caller owns it; only read here. */
  datatype Conversation = Conversation(id: string, providerId: string, conversationType: string)

  /** A stored transcript entry. */
  datatype Message = Message(id: string, role: Role, content: string, stream: bool, dateTime: nat)

  /** The `{role, content}` shape handed to a continuous-prompt hook. */
  datatype ChatMessage = ChatMessage(role: Role, content: string)

  /** An opaque live response stream; this code never reads or cancels it. */
  datatype StreamHandle = StreamHandle(token: nat)

  /**
   * What a capability hook resolves to: nothing (`null`/`undefined`),
   * a string, or a stream.
   */
  datatype PromptResponse = NoResponse | Text(text: string) | Stream(handle: StreamHandle)

  /** JavaScript truthiness of a response: of the values a hook returns, only nothing and "" are falsy. */
  predicate Truthy(r: PromptResponse): (b: bool)
    ensures b <==> r != NoResponse && r != Text("")
  {
    match r
    case NoResponse => false
    case Text(s) => s != ""
    case Stream(_) => true
  }

  /** The normalised `{code, message}` shape published on failure. */
  datatype ErrorMessage = ErrorMessage(code: string, message: string)

  /** The `cause` a raised error may carry; either field may be missing. */
  datatype Cause = Cause(code: Option<string>, message: Option<string>)

  /** A raised value: an optional `cause` and an optional own `message`. */
  datatype RaisedError = RaisedError(cause: Option<Cause>, message: Option<string>)

  /** A hook call either resolves to a response or raises. */
  datatype HookOutcome = Returned(response: PromptResponse) | Raised(error: RaisedError)

  /**
   * The payload every hook receives. The per-provider global settings are
   * not part of this model; the other fields are the constant defaults.
   */
  datatype HandlerPayload = HandlerPayload(
    conversationId: string,
    conversationSettings: map<string, string>,
    systemRole: string,
    mockMessages: seq<ChatMessage>)

  type PromptHook = (string, HandlerPayload) -> HookOutcome
  type ChatHook = (seq<ChatMessage>, HandlerPayload) -> HookOutcome

  /** A provider: each capability hook is optional. */
  datatype Provider = Provider(
    handleSinglePrompt: Option<PromptHook>,
    handleContinuousPrompt: Option<ChatHook>,
    handleImagePrompt: Option<PromptHook>)

  /** A stream registry entry: the assistant message id joined to its live stream. */
  datatype StreamEntry = StreamEntry(messageId: string, stream: StreamHandle)

  /**
   * The clock readings a turn may take: `Date.now()` for the user id and
   * `getTime()` for the user's dateTime, then the same two for the
   * assistant only when a reply is recorded (otherwise those fields are
   * unused). A turn whose provider is missing reads no clock.
   */
  datatype Clock = Clock(userId: nat, userTime: nat, assistantId: nat, assistantTime: nat)
}
