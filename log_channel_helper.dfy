/**
 * `LogChannelHelper`: the two caches and the `ready` flag, the startup
 * unpack that fills them, and the two readers that route by key.
 * The source keeps these as static fields; here they are the fields of one
 * helper object created at startup.
 */
module Helpers {

  import opened Wrappers
  import opened Discord
  import opened LogResolution

  /** The event id a delivery failure is logged under. */
  datatype EventId = CliptokEventID | LogChannelErrorID

  /** `CurrentUser`: the name and avatar URL a webhook message is sent under. */
  datatype BotIdentity = BotIdentity(username: string, avatarUrl: string)

  /**
   * Delivery calls.
   * - broadcast: `BroadcastMessageAsync`, one message per webhook of the
   *   client; `None` when it throws.
   * - send: `SendMessageAsync` on a channel; `None` when it throws.
   */
  datatype Transport = Transport(
    broadcast: (WebhookClient, WebhookPayload) -> Option<seq<Message>>,
    send: (Channel, Payload) -> Option<Message>)

  /** Where a key's messages go, by the precedence both readers apply. */
  datatype Destination =
    | ViaWebhook(webhook: Webhook, threadId: Option<Id>)
    | ViaChannel(channel: Channel)
    | NotFound

  /**
   * The webhook when there is one, aimed at the cached channel when that
   * channel is a thread; else the cached channel; else nothing.
   */
  function Route(c: Caches, key: string): (d: Destination)
    ensures d.ViaWebhook? <==> key in c.webhooks
    ensures d.ViaWebhook? ==> d.webhook == c.webhooks[key]
    ensures d.ViaWebhook? ==> (d.threadId.Some? <==> key in c.channels && c.channels[key].isThread)
    ensures d.ViaWebhook? && d.threadId.Some? ==> d.threadId.value == c.channels[key].id
    ensures d.ViaChannel? <==> key !in c.webhooks && key in c.channels
    ensures d.ViaChannel? ==> d.channel == c.channels[key]
    ensures d.NotFound? <==> key !in c.webhooks && key !in c.channels
  {
    if key in c.webhooks then
      ViaWebhook(c.webhooks[key], if key in c.channels && c.channels[key].isThread then Some(c.channels[key].id) else None)
    else if key in c.channels then ViaChannel(c.channels[key])
    else NotFound
  }

  /** `GetLogChannelId`'s result; `LogChannelNotFound` stands for the exception. */
  datatype ChannelIdResult = Found(id: Id) | LogChannelNotFound

  class LogChannelHelper {
    var channelCache: map<string, Channel>
    var webhookCache: map<string, Webhook>
    var ready: bool

    /** The state at process start. */
    constructor()
      ensures channelCache == map[] && webhookCache == map[] && !ready
    {
      channelCache := map[];
      webhookCache := map[];
      ready := false;
    }

    function Snapshot(): Caches
      reads this
    {
      Caches(channelCache, webhookCache)
    }

    /**
     * `UnpackLogConfigAsync`. Does nothing once `ready`; otherwise fills the
     * caches as `Unpack` says and sets `ready` exactly when that succeeds.
     * On a failure the entries added before it stay in the caches.
     */
    method UnpackLogConfig(config: Config, p: Platform) returns (outcome: Outcome)
      modifies this
      ensures old(ready) ==> outcome == Done && unchanged(this)
      ensures !old(ready) ==>
                var s := Unpack(config, p, old(Snapshot()));
                Snapshot() == s.caches && outcome == s.outcome && ready == (outcome == Done)
      ensures Extends(old(Snapshot()), Snapshot())
      ensures !old(ready) && ready ==> forall k :: k in LegacyKeys ==> k in channelCache || k in webhookCache
    {
      if ready {
        return Done;
      }
      ghost var c0 := Snapshot();
      UnpackExtends(config, p, c0);

      if config.logChannels.Some? {
        var entries := config.logChannels.value;
        var i := 0;
        while i < |entries|
          invariant 0 <= i <= |entries|
          invariant !ready
          invariant StructuredLoop(c0, entries, p) == StructuredLoop(Snapshot(), entries[i..], p)
        {
          ghost var before := Snapshot();
          assert entries[i..][0] == entries[i] && entries[i..][1..] == entries[i + 1..];
          var (key, entry) := entries[i];
          if entry.channelId != 0 {
            var channel := p.getChannel(entry.channelId);
            if channel.None? {
              return Failed(ProcessExit);
            }
            if key in channelCache {
              return Failed(DuplicateKey);
            }
            channelCache := channelCache[key := channel.value];
          }
          assert Snapshot() == AddStructuredChannel(before, key, entry, p).caches;

          var webhookUrl: Option<string> := Some("");
          if entry.webhookEnvVar != "" {
            webhookUrl := Lookup(p.env, entry.webhookEnvVar);
          } else if entry.webhookUrl != "" {
            webhookUrl := Some(entry.webhookUrl);
          }
          if webhookUrl != Some("") {
            if webhookUrl.None? {
              return Failed(NullWebhookUrl);
            }
            var id := p.webhookId(webhookUrl.value);
            if id.None? {
              return Failed(InvalidWebhookUrl);
            }
            if !p.addWebhook(webhookUrl.value) {
              return Failed(WebhookRegistrationFailed);
            }
            if key in webhookCache {
              return Failed(DuplicateKey);
            }
            webhookCache := webhookCache[key := Webhook(WebhookClient(webhookUrl.value), id.value)];
          }
          i := i + 1;
        }
      }

      var mapping := LegacyMapping(config);
      var home := config.homeChannel;
      ghost var c1 := Snapshot();
      var j := 0;
      while j < |mapping|
        invariant 0 <= j <= |mapping|
        invariant !ready
        invariant LegacyLoop(c1, mapping, home, p) == LegacyLoop(Snapshot(), mapping[j..], home, p)
      {
        assert mapping[j..][0] == mapping[j] && mapping[j..][1..] == mapping[j + 1..];
        var (key, id) := mapping[j];
        if id != 0 && key !in channelCache {
          var channel := p.getChannel(id);
          if channel.None? {
            return Failed(ChannelFetchFailed);
          }
          channelCache := channelCache[key := channel.value];
        } else if id == 0 && key !in channelCache && key !in webhookCache {
          var channel := p.getChannel(home);
          if channel.None? {
            return Failed(ChannelFetchFailed);
          }
          channelCache := channelCache[key := channel.value];
        }
        j := j + 1;
      }

      assert mapping[j..] == [];
      UnpackCoversLegacyKeys(config, p, c0);
      ready := true;
      return Done;
    }

    /**
     * `LogMessageAsync(key, message)`. Never throws: a missing key or a
     * failed send gives no message and one logged error, under
     * `LogChannelErrorID` exactly when the key is "errors". Changes nothing.
     */
    method LogMessage(key: string, message: Payload, bot: BotIdentity, net: Transport)
      returns (sent: Option<Message>, logged: Option<EventId>)
      ensures !ready ==> sent.None? && logged.None?
      ensures ready ==>
                match Route(Snapshot(), key)
                case ViaWebhook(w, thread) =>
                  var results := net.broadcast(w.client, WebhookPayload(message, bot.username, bot.avatarUrl, thread));
                  && sent == (if results.Some? && |results.value| > 0 then Some(results.value[0]) else None)
                  && (logged.Some? <==> results.None?)
                case ViaChannel(ch) =>
                  sent == net.send(ch, message) && (logged.Some? <==> sent.None?)
                case NotFound =>
                  sent.None? && logged.Some?
      ensures logged.Some? ==> sent.None? && (logged.value == LogChannelErrorID <==> key == "errors")
    {
      if !ready {
        return None, None;
      }
      var failed := false;
      if key in webhookCache {
        var thread: Option<Id> := None;
        if key in channelCache && channelCache[key].isThread {
          thread := Some(channelCache[key].id);
        }
        var builder := WebhookPayload(message, bot.username, bot.avatarUrl, thread);
        var results := net.broadcast(webhookCache[key].client, builder);
        if results.None? {
          failed := true;
        } else if |results.value| > 0 {
          sent := Some(results.value[0]);
        } else {
          sent := None;
        }
      } else if key in channelCache {
        sent := net.send(channelCache[key], message);
        failed := sent.None?;
      } else {
        failed := true;
      }

      if failed {
        var eventId := CliptokEventID;
        if key == "errors" {
          eventId := LogChannelErrorID;
        }
        return None, Some(eventId);
      }
      logged := None;
    }

    /**
     * `GetLogChannelId`: the thread when the webhook posts into a thread, the
     * webhook's own channel when it does not, the cached channel when there is
     * no webhook; the same precedence as `Route`. It does not look at `ready`.
     * `registeredChannel` is the `ChannelId` of the webhook a client registered.
     */
    function GetLogChannelId(key: string, registeredChannel: (WebhookClient, Id) -> Id): (r: ChannelIdResult)
      reads this
      ensures r.LogChannelNotFound? <==> Route(Snapshot(), key).NotFound?
      ensures match Route(Snapshot(), key)
              case ViaWebhook(w, Some(thread)) => r == Found(thread)
              case ViaWebhook(w, None) => r == Found(registeredChannel(w.client, w.id))
              case ViaChannel(ch) => r == Found(ch.id)
              case NotFound => r == LogChannelNotFound
    {
      if key in webhookCache then
        if key in channelCache && channelCache[key].isThread then Found(channelCache[key].id)
        else Found(registeredChannel(webhookCache[key].client, webhookCache[key].id))
      else if key in channelCache then Found(channelCache[key].id)
      else LogChannelNotFound
    }
  }
}
