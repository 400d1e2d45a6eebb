/**
 * The chat-platform values the log helper handles. Only the attributes the
 * helper reads are kept: a channel's id and whether it is a thread, a
 * message's id, and the parts of an outgoing message the helper builds.
 */
module Discord {

  import opened Wrappers

  /** A Discord snowflake, a `ulong`. */
  type Id = x: int | 0 <= x < 0x1_0000_0000_0000_0000

  /** `DiscordChannel`: its id and its `IsThread` flag. */
  datatype Channel = Channel(id: Id, isThread: bool)

  /** `DiscordMessage` / `CachedDiscordMessage`: only the id and the text. */
  datatype Message = Message(id: Id, content: string)

  datatype Embed = Embed(description: string)

  /** A file attached to a message; the bytes are the UTF-8 of `text`. */
  datatype Attachment = Attachment(name: string, text: string)

  /** `DiscordMessageBuilder`: content, embeds and files. */
  datatype Payload = Payload(content: string, embeds: seq<Embed>, files: seq<Attachment>)

  /** `DiscordWebhookBuilder`: the message, the bot's name and avatar, an optional thread. */
  datatype WebhookPayload = WebhookPayload(message: Payload, username: string, avatarUrl: string, threadId: Option<Id>)

  /** A `DiscordWebhookClient` after `AddWebhookAsync(url)`. */
  datatype WebhookClient = WebhookClient(url: string)

  /** A `WebhookCache` value: the client and the webhook id parsed from its URL. */
  datatype Webhook = Webhook(client: WebhookClient, id: Id)
}
