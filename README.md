# Cliptok log channels, modelled in Dafny

This project models how the Cliptok moderation bot resolves its log
destinations and routes log messages to them (`Helpers/LogChannelHelper.cs`),
plus the silent-mode command check (`CommandChecks/SilentModeCheck.cs`).

- **Startup resolution** (`UnpackLogConfigAsync`). The helper fills two
  caches from the configuration. `ChannelCache` maps a key to a channel.
  `WebhookCache` maps a key to a webhook client and the webhook id parsed
  from its URL. The structured `LogChannels` entries come first. The eight
  legacy keys (`mod`, `users`, `home`, `investigations`, `support`, `dms`,
  `errors`, `secret`) come second, and a zero legacy id falls back to the
  home channel. A one-shot `ready` flag guards the whole thing.
  `LogResolution.Unpack` states the result as functions over values, and
  `Helpers.LogChannelHelper.UnpackLogConfig` is the imperative version with
  two `while` loops, proved equal to it. Lemmas about `Unpack` state the
  properties: nothing is overwritten, every legacy key resolves, a bad
  webhook URL aborts, and a per-key reading of the configuration agrees with
  the loops.
- **Routing.** `LogMessage` picks the webhook (aimed at the thread when the
  cached channel is a thread), else the channel, else nothing. It never
  throws. `GetLogChannelId` applies the same precedence, `Route`, to return
  an id.
- **Dumps.** Messages are put in id order by a stable sort (`OrderById`,
  proved to be the unique stable sort). The transcript is always attached,
  and the "View online" embed appears only after a successful paste upload.
- **Silent mode.** A member below trial moderator is refused while silent
  mode is on; everything else passes.

Calls to the outside world are passed in as functions:
- `Platform`: channel fetch, environment, webhook-URL parsing, webhook registration.
- `Transport`: webhook broadcast and channel send.
- The paste uploader and the transcript compiler.

A `None` from one of them stands for the call throwing.

The static fields of the C# class are the fields of one `LogChannelHelper`
object. `LogMessage` and `GetLogChannelId` have no `modifies` clause. So a
failed delivery for one key cannot affect a later delivery for another key.

Two behaviours of the source are easy to misread, and the model follows the
source:
- When a webhook entry names an environment variable, the variable's value
  is used even when it is empty. The literal URL is then never consulted.
  The choice depends on whether the variable's NAME is empty.
- The legacy loop's nonzero branch tests only `ChannelCache`. So a structured
  entry that only has a webhook does not shadow a nonzero legacy id for the
  same key (`WebhookEntryKeepsLegacyChannel`).

Three behaviours of the source are modelled explicitly:
- An unset environment variable gives a null URL, and matching it throws
  (`NullWebhookUrl`).
- `Dictionary.Add` throws on a key that is already present (`DuplicateKey`).
- A failed unpack keeps what it had added. So a second attempt throws on the
  first `Add` (`RetryAfterFailureHitsDuplicateKey`). This needs a failure
  that did not end the process: after `Environment.Exit(1)` there is no
  second attempt.

## Model

| member | source | states |
|---|---|---|
| `LogResolution.ChosenWebhookUrl` | Helpers/LogChannelHelper.cs:54-63 | a non-empty env-var name selects the variable's value (null when unset) and the literal URL is ignored; with an empty name the literal URL is used (empty means "no webhook") |
| `LogResolution.LegacyMapping` | Helpers/LogChannelHelper.cs:23-33 | the migration mapping lists exactly the eight legacy keys, in the dictionary's order, with distinct keys |
| `LogResolution.Unpack` | Helpers/LogChannelHelper.cs:35-99 | the structured entries, then the legacy mapping, stopping at the first failure; a webhook cache entry is only ever added under a structured entry's key, never for a legacy key alone |
| `LogResolution.StructuredLoopWebhookKeys` | Helpers/LogChannelHelper.cs:54-81 | the structured loop adds webhooks only under the keys of its entries |
| `LogResolution.LegacyLoopKeepsWebhooks` | Helpers/LogChannelHelper.cs:85-99 | the legacy loop leaves the webhook cache unchanged, whether it completes or fails |
| `LogResolution.StructuredLoopExtends` | Helpers/LogChannelHelper.cs:37-82 | the structured loop only adds entries and never replaces one, even when it fails part-way |
| `LogResolution.LegacyLoopExtends` | Helpers/LogChannelHelper.cs:85-99 | the legacy loop never overwrites an existing cache entry |
| `LogResolution.UnpackExtends` | Helpers/LogChannelHelper.cs:35-99 | a whole unpack run, successful or not, keeps every entry the caches held before it with its value |
| `LogResolution.LegacyLoopCovers` | Helpers/LogChannelHelper.cs:85-99 | when the legacy loop completes, every key it went over is in the channel cache or the webhook cache |
| `LogResolution.UnpackCoversLegacyKeys` | Helpers/LogChannelHelper.cs:85-101 | after a successful unpack each of the eight legacy keys is in one of the two caches; the home-channel fetch is part of the run |
| `LogResolution.StructuredLoopAt` | Helpers/LogChannelHelper.cs:37-82 | for fresh distinct keys, a completed structured loop gives a key the fetched channel exactly when its entry has a nonzero `ChannelId`, and gives it the webhook registered from its chosen URL |
| `LogResolution.LegacyLoopAt` | Helpers/LogChannelHelper.cs:85-99 | a completed legacy loop leaves the webhook cache unchanged; a legacy key already in `ChannelCache` keeps its channel; otherwise a nonzero id gets that channel, and a zero id gets the home channel unless the key has a webhook |
| `LogResolution.UnpackResolvesPerKey` | Helpers/LogChannelHelper.cs:35-99 | from the empty caches of process start, a successful unpack gives every key the channel and the webhook of the key-by-key reading of the configuration (`ExpectedChannel`, `ExpectedWebhook`) |
| `LogResolution.WebhookEntryShadowsHomeFallback` | Helpers/LogChannelHelper.cs:92-98 | a structured entry with no channel but a webhook keeps a legacy key with id zero from falling back to the home channel |
| `LogResolution.WebhookEntryKeepsLegacyChannel` | Helpers/LogChannelHelper.cs:87-91 | the same webhook-only entry does not stop a nonzero legacy id from adding that channel under the key too |
| `LogResolution.StructuredLoopRejectsBadWebhook` | Helpers/LogChannelHelper.cs:65-77 | the structured loop fails when any entry's chosen URL is null, fails the regex, or has an unparsable id |
| `LogResolution.UnpackRejectsBadWebhook` | Helpers/LogChannelHelper.cs:65-77 | such an entry makes the whole unpack fail, so `ready` is not set |
| `LogResolution.RetryAfterFailureHitsDuplicateKey` | Helpers/LogChannelHelper.cs:39-51 | after a failed unpack that did not exit the process and whose first entry had added its channel, running the unpack again on the left-over caches fails on the duplicate `Add` |
| `Helpers.Route` | Helpers/LogChannelHelper.cs:125-144 | the delivery precedence shared by `LogMessage` and `GetLogChannelId`: the webhook exactly when the key has one, aimed at the cached channel's id exactly when that channel is a thread; else the cached channel; not found exactly when neither cache has the key |
| `Helpers.LogChannelHelper.constructor` | Helpers/LogChannelHelper.cs:15-17 | both caches start empty and `ready` starts false |
| `Helpers.LogChannelHelper.UnpackLogConfig` | Helpers/LogChannelHelper.cs:19-102 | no change at all when already `ready`; otherwise the caches become exactly `Unpack`'s and `ready` is set exactly when it succeeds; old entries are kept; once ready, all legacy keys are cached |
| `Helpers.LogChannelHelper.LogMessage` | Helpers/LogChannelHelper.cs:118-155 | nothing is sent or logged when not ready; a webhook send carries the bot's name and avatar and the thread id exactly when the cached channel is a thread, and returns the first broadcast result; otherwise the send goes to the channel; a missing key or a failed send returns no message and logs once, under `LogChannelErrorID` exactly for "errors" |
| `Helpers.LogChannelHelper.GetLogChannelId` | Helpers/LogChannelHelper.cs:189-202 | uses the same precedence as `LogMessage`'s routing: the thread id, else the registered webhook's channel, else the cached channel's id; not-found exactly when neither cache has the key |
| `LogDump.Insert` | Helpers/LogChannelHelper.cs:159 | inserting into a sequence sorted by id keeps it sorted and adds exactly that message |
| `LogDump.OrderById` | Helpers/LogChannelHelper.cs:159 | the ordered messages are sorted ascending by id and are a permutation of the input |
| `LogDump.OrderByIdStable` | Helpers/LogChannelHelper.cs:159 | messages that share an id keep their input order (`OrderBy` is stable) |
| `LogDump.SortedDeterminedByIds` | Helpers/LogChannelHelper.cs:159 | two id-sorted sequences that agree on every id's messages are equal |
| `LogDump.OrderByIdUnique` | Helpers/LogChannelHelper.cs:159 | any sorted sequence that keeps each id's messages in input order is the `OrderById` result |
| `LogDump.OrderByIdIgnoresInputOrder` | Helpers/LogChannelHelper.cs:157-167 | inputs holding the same messages per id, in whatever overall order, are ordered identically |
| `LogDump.DumpMessageFromString` | Helpers/LogChannelHelper.cs:169-182 | the payload keeps the content and always attaches the transcript as `messages.txt`; it has the "View online" embed linking the paste URL exactly when the upload succeeded; the paste URL is returned either way |
| `LogDump.CreateDumpMessage` | Helpers/LogChannelHelper.cs:157-161 | the attached transcript is compiled from the messages in id order |
| `LogDump.CreateDumpMessageIgnoresInputOrder` | Helpers/LogChannelHelper.cs:157-167 | the composed dump does not depend on the order the messages were collected in |
| `CommandChecks.SilentModeCheck` | CommandChecks/SilentModeCheck.cs:7-15 | no member passes; silent mode off passes; otherwise the check refuses exactly when the level is below trial moderator, and the only refusal is the fixed silent-mode message |
| `CommandChecks.SilentModeCheckMonotone` | CommandChecks/SilentModeCheck.cs:12-14 | a member who passes still passes at any higher permission level |

## Left out

- Discord client I/O. `GetChannelAsync`, `AddWebhookAsync`,
  `BroadcastMessageAsync`, `SendMessageAsync` and the bot's `CurrentUser`
  are functions passed in. Their result is `None` when the call throws.
- `Environment.Exit(1)` after a failed structured channel fetch is the
  outcome `ProcessExit`. The logger call before it is not modelled.
- The webhook URL regex (`RegexConstants.webhook_rx`) and `ulong.TryParse`
  of its `id` group are not part of this model. They are one function from a
  URL to an optional id.
- The environment is a map from name to value. A name that is not in it
  reads as null.
- The logger and its text. Only the event id a failed delivery is logged
  under is kept.
- `CompileMessagesAsync` transcript formatting, the paste uploader, UTF-8
  encoding and `MemoryStream` are not modelled. The compiler and the
  uploader are functions passed in, and an attachment carries its text.
- The `List<DiscordMessage>` and `List<CachedDiscordMessage>` overloads of
  `CreateDumpMessageAsync` differ only in the element type. A message is
  modelled by its id and text.
- The three convenience overloads of `LogMessageAsync` only build a
  `DiscordMessageBuilder` from content and/or an embed.
  `LogDeletedMessagesAsync` only composes `CreateDumpMessage` with
  `LogMessage`. None of them is modelled separately.
- Async scheduling and concurrent delivery calls. Every operation is
  modelled as running to completion in sequence.
- `GetPermLevelAsync`: the member's permission level is an input, and
  `ServerPermLevel.TrialModerator` is an integer position in the same order.
- Helpers.LogChannelHelper.LogMessage: does not model an exception thrown
  while reading `CurrentUser` to build the webhook payload.
- Helpers.LogChannelHelper.GetLogChannelId: assumes `GetRegisteredWebhook`
  finds the webhook the client registered, so a null result is not modelled.
