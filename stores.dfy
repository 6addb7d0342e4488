/**
 * The external stores the turn talks to, as abstract state: the provider
 * registry, the per-conversation transcripts, the stream registry and the
 * single current-error slot. Each class offers exactly the operations the
 * turn uses.
 */
module Stores {
  import opened Wrappers
  import opened Types

  /** The transcript of a conversation; a conversation never written to has none. */
  function Transcript(transcripts: map<string, seq<Message>>, conversationId: string): (r: seq<Message>)
  {
    if conversationId in transcripts then transcripts[conversationId] else []
  }

  /** Provider registry: looked up by provider id, never changed by a turn. */
  class ProviderStore {
    var providers: map<string, Provider>

    constructor (providers: map<string, Provider>)
      ensures this.providers == providers
    {
      this.providers := providers;
    }

    function GetProviderById(providerId: string): (r: Option<Provider>)
      reads this
      ensures r.Some? <==> providerId in providers
      ensures r.Some? ==> r.value == providers[providerId]
    {
      Lookup(providers, providerId)
    }
  }

  /** Message store: one ordered transcript per conversation id. */
  class MessageStore {
    var transcripts: map<string, seq<Message>>

    constructor ()
      ensures transcripts == map[]
    {
      transcripts := map[];
    }

    /** The stored transcript, or an empty one for a conversation never written to. */
    function GetMessagesByConversationId(conversationId: string): (r: seq<Message>)
      reads this
      ensures conversationId in transcripts ==> r == transcripts[conversationId]
      ensures conversationId !in transcripts ==> r == []
    {
      Transcript(transcripts, conversationId)
    }

    method ClearMessagesByConversationId(conversationId: string)
      modifies this
      ensures transcripts == old(transcripts)[conversationId := []]
      ensures GetMessagesByConversationId(conversationId) == []
    {
      transcripts := transcripts[conversationId := []];
    }

    method PushMessageByConversationId(conversationId: string, message: Message)
      modifies this
      ensures transcripts == old(transcripts)[conversationId := old(GetMessagesByConversationId(conversationId)) + [message]]
    {
      transcripts := transcripts[conversationId := GetMessagesByConversationId(conversationId) + [message]];
    }
  }

  /** Stream registry: at most one live stream per conversation; a new registration replaces the old one. */
  class StreamStore {
    var streams: map<string, StreamEntry>

    constructor ()
      ensures streams == map[]
    {
      streams := map[];
    }

    method SetStreamByConversationId(conversationId: string, entry: StreamEntry)
      modifies this
      ensures streams == old(streams)[conversationId := entry]
    {
      streams := streams[conversationId := entry];
    }
  }

  /** UI store: the single process-wide current error; the last write wins. */
  class UiStore {
    var currentErrorMessage: Option<ErrorMessage>

    constructor ()
      ensures currentErrorMessage == None
    {
      currentErrorMessage := None;
    }

    method SetCurrentErrorMessage(error: ErrorMessage)
      modifies this
      ensures currentErrorMessage == Some(error)
    {
      currentErrorMessage := Some(error);
    }
  }
}
