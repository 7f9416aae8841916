/**
 * The bus events the agent loop consumes and produces, and the routing of
 * system messages back to the chat they came from.
 */
module Messages {
  import opened Strings

  /** A message received from a chat channel. */
  datatype InboundMessage = InboundMessage(
    channel: string,
    senderId: string,
    chatId: string,
    content: string,
    media: seq<string>,
    metadata: map<string, bool>)
  {
    /** The session a message belongs to: `"<channel>:<chat_id>"`. */
    function SessionKey(): string {
      channel + ":" + chatId
    }
  }

  /** A message to deliver on a chat channel. */
  datatype OutboundMessage = OutboundMessage(channel: string, chatId: string, content: string)

  /** The channel name that marks a subagent announcement. */
  const SystemChannel := "system"

  /**
   * Where a system message is routed: its chat id is `"<channel>:<chat_id>"`,
   * split at the first `:`, and a chat id without `:` falls back to the
   * `cli` channel with the whole chat id.
   */
  function ParseOrigin(chatId: string): (r: (string, string))
    ensures ':' in chatId ==> ':' !in r.0 && r.0 + ":" + r.1 == chatId
    ensures ':' !in chatId ==> r == ("cli", chatId)
  {
    if ':' in chatId then SplitFirst(chatId, ':') else ("cli", chatId)
  }

  /** The session key of the origin, `"<origin_channel>:<origin_chat_id>"`. */
  function OriginKey(chatId: string): string {
    var o := ParseOrigin(chatId);
    o.0 + ":" + o.1
  }

  /**
   * A well-formed origin round-trips: for a chat id that contains `:`, the
   * origin session key is the chat id itself, and the origin of
   * `channel + ":" + chat` is `(channel, chat)` whenever the channel holds no `:`.
   */
  lemma OriginRoundTrip(channel: string, chat: string)
    requires ':' !in channel
    ensures ParseOrigin(channel + ":" + chat) == (channel, chat)
    ensures OriginKey(channel + ":" + chat) == channel + ":" + chat
  {
    var id := channel + ":" + chat;
    assert id[..|channel|] == channel;
    FirstIndexUnique(id, ':', |channel|);
    assert id[|channel| + 1..] == chat;
  }

  /** A chat id with a `:` is its own origin key; one without is routed to `cli`. */
  lemma OriginKeyOf(chatId: string)
    ensures ':' in chatId ==> OriginKey(chatId) == chatId
    ensures ':' !in chatId ==> OriginKey(chatId) == "cli:" + chatId
  {
  }
}
