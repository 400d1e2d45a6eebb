/**
 * What `LogChannelHelper.UnpackLogConfigAsync` computes, as functions over
 * values: the structured `LogChannels` entries first, then the eight legacy
 * keys with their fall-back to the home channel. The imperative version,
 * which fills the two caches in place, is `Helpers.LogChannelHelper.UnpackLogConfig`
 * and is proved equal to `Unpack` below.
 *
 * Calls the helper makes to the outside world are fields of `Platform`:
 * fetching a channel, reading an environment variable, matching a webhook
 * URL against the webhook regex and registering it with a webhook client.
 */
module LogResolution {

  import opened Wrappers
  import opened Discord

  /** One value of the structured `LogChannels` dictionary. */
  datatype LogChannelConfig = LogChannelConfig(channelId: Id, webhookEnvVar: string, webhookUrl: string)

  /** No key occurs twice, as in a dictionary. */
  predicate DistinctKeys<V>(entries: seq<(string, V)>) {
    forall i, j :: 0 <= i < j < |entries| ==> entries[i].0 != entries[j].0
  }

  /** The `LogChannels` dictionary, in its enumeration (insertion) order. */
  type LogChannelMap = entries: seq<(string, LogChannelConfig)> | DistinctKeys(entries)

  /** The part of `ConfigJson` the helper reads: eight legacy ids and the optional structured map. */
  datatype Config = Config(
    logChannel: Id,
    userLogChannel: Id,
    homeChannel: Id,
    investigationsChannelId: Id,
    supportLogChannel: Id,
    dmLogChannelId: Id,
    errorLogChannelId: Id,
    mysteryLogChannelId: Id,
    logChannels: Option<LogChannelMap>)

  /**
   * The outside world as seen by the resolver.
   * - getChannel: `GetChannelAsync`; `None` when it throws.
   * - env: the process environment; a name that is absent reads as null.
   * - webhookId: a match of the webhook regex followed by `ulong.TryParse` of
   *   its `id` group; `None` when either fails.
   * - addWebhook: whether `AddWebhookAsync` completes without throwing.
   */
  datatype Platform = Platform(
    getChannel: Id -> Option<Channel>,
    env: map<string, string>,
    webhookId: string -> Option<Id>,
    addWebhook: string -> bool)

  /** How an unpack run can end early. */
  datatype Failure =
    | ProcessExit                // a structured channel fetch failed: `Environment.Exit(1)`
    | NullWebhookUrl             // the named environment variable is unset: `Regex.Match(null)` throws
    | InvalidWebhookUrl          // "Invalid webhook URL supplied."
    | WebhookRegistrationFailed  // `AddWebhookAsync` threw
    | ChannelFetchFailed         // a legacy or home channel fetch threw (not caught)
    | DuplicateKey               // `Dictionary.Add` on a key already present threw

  datatype Outcome = Done | Failed(failure: Failure)

  /** `ChannelCache` and `WebhookCache`. */
  datatype Caches = Caches(channels: map<string, Channel>, webhooks: map<string, Webhook>)

  /** The caches as they are when a run ends, and how it ended. */
  datatype Step = Step(caches: Caches, outcome: Outcome)

  const Empty := Caches(map[], map[])

  /** The first value stored under `k`. */
  function Find<V>(entries: seq<(string, V)>, k: string): (r: Option<V>)
    ensures r.Some? ==> exists i :: 0 <= i < |entries| && entries[i] == (k, r.value)
    ensures r.None? ==> forall i :: 0 <= i < |entries| ==> entries[i].0 != k
  {
    if entries == [] then None
    else if entries[0].0 == k then Some(entries[0].1)
    else
      var r := Find(entries[1..], k);
      assert r.Some? ==> exists i :: 0 <= i < |entries[1..]| && entries[1..][i] == (k, r.value);
      assert r.Some? ==> exists i :: 0 <= i < |entries| && entries[i] == (k, r.value);
      r
  }

  /**
   * The webhook URL an entry asks for: the environment variable when its
   * NAME is non-empty (the literal URL is then ignored, even when the variable
   * is empty or unset), the literal URL otherwise. `None` stands for null.
   */
  function ChosenWebhookUrl(e: LogChannelConfig, env: map<string, string>): (url: Option<string>)
    ensures e.webhookEnvVar != "" ==> url == Lookup(env, e.webhookEnvVar)
    ensures e.webhookEnvVar == "" ==> url == Some(e.webhookUrl)
  {
    if e.webhookEnvVar != "" then Lookup(env, e.webhookEnvVar)
    else if e.webhookUrl != "" then Some(e.webhookUrl)
    else Some("")
  }

  /** The channel half of one structured entry. */
  function AddStructuredChannel(c: Caches, key: string, e: LogChannelConfig, p: Platform): Step {
    if e.channelId == 0 then Step(c, Done)
    else match p.getChannel(e.channelId)
      case None => Step(c, Failed(ProcessExit))
      case Some(ch) =>
        if key in c.channels then Step(c, Failed(DuplicateKey))
        else Step(c.(channels := c.channels[key := ch]), Done)
  }

  /** The webhook half of one structured entry. */
  function AddStructuredWebhook(c: Caches, key: string, e: LogChannelConfig, p: Platform): Step {
    match ChosenWebhookUrl(e, p.env)
    case None => Step(c, Failed(NullWebhookUrl))
    case Some(url) =>
      if url == "" then Step(c, Done)
      else match p.webhookId(url)
        case None => Step(c, Failed(InvalidWebhookUrl))
        case Some(id) =>
          if !p.addWebhook(url) then Step(c, Failed(WebhookRegistrationFailed))
          else if key in c.webhooks then Step(c, Failed(DuplicateKey))
          else Step(c.(webhooks := c.webhooks[key := Webhook(WebhookClient(url), id)]), Done)
  }

  /** One iteration of the loop over the structured entries. */
  function StructuredStep(c: Caches, key: string, e: LogChannelConfig, p: Platform): Step {
    var s := AddStructuredChannel(c, key, e, p);
    if s.outcome.Failed? then s else AddStructuredWebhook(s.caches, key, e, p)
  }

  /** The loop over the structured entries, stopping at the first failure. */
  function StructuredLoop(c: Caches, entries: seq<(string, LogChannelConfig)>, p: Platform): Step
    decreases |entries|
  {
    if entries == [] then Step(c, Done)
    else
      var s := StructuredStep(c, entries[0].0, entries[0].1, p);
      if s.outcome.Failed? then s else StructuredLoop(s.caches, entries[1..], p)
  }

  /** The eight legacy keys, in the order the migration mapping enumerates them. */
  const LegacyKeys: seq<string> := ["mod", "users", "home", "investigations", "support", "dms", "errors", "secret"]

  /** The migration mapping from legacy keys to the flat configuration fields. */
  function LegacyMapping(config: Config): (m: seq<(string, Id)>)
    ensures |m| == |LegacyKeys|
    ensures forall i :: 0 <= i < |m| ==> m[i].0 == LegacyKeys[i]
    ensures DistinctKeys(m)
  {
    [ ("mod", config.logChannel),
      ("users", config.userLogChannel),
      ("home", config.homeChannel),
      ("investigations", config.investigationsChannelId),
      ("support", config.supportLogChannel),
      ("dms", config.dmLogChannelId),
      ("errors", config.errorLogChannelId),
      ("secret", config.mysteryLogChannelId) ]
  }

  /** The channel stored for a legacy key: `Some` of the fetch, `None` when it threw. */
  function FetchLegacy(c: Caches, key: string, id: Id, p: Platform): Step {
    match p.getChannel(id)
    case None => Step(c, Failed(ChannelFetchFailed))
    case Some(ch) => Step(c.(channels := c.channels[key := ch]), Done)
  }

  /** One iteration of the loop over the legacy keys. */
  function LegacyStep(c: Caches, key: string, id: Id, home: Id, p: Platform): Step {
    if id != 0 && key !in c.channels then FetchLegacy(c, key, id, p)
    else if id == 0 && key !in c.channels && key !in c.webhooks then FetchLegacy(c, key, home, p)
    else Step(c, Done)
  }

  /** The loop over the legacy keys, stopping at the first failure. */
  function LegacyLoop(c: Caches, mapping: seq<(string, Id)>, home: Id, p: Platform): Step
    decreases |mapping|
  {
    if mapping == [] then Step(c, Done)
    else
      var s := LegacyStep(c, mapping[0].0, mapping[0].1, home, p);
      if s.outcome.Failed? then s else LegacyLoop(s.caches, mapping[1..], home, p)
  }

  /**
   * `UnpackLogConfigAsync` once past its `ready` guard, from caches `c`.
   * Webhooks come only from structured entries: the legacy keys never get
   * one of their own.
   */
  function Unpack(config: Config, p: Platform, c: Caches): (r: Step)
    ensures forall k :: k in r.caches.webhooks ==> k in c.webhooks || StructuredEntry(config, k).Some?
  {
    var s := match config.logChannels
      case None => Step(c, Done)
      case Some(entries) => StructuredLoop(c, entries, p);
    if config.logChannels.Some? then
      StructuredLoopWebhookKeys(c, config.logChannels.value, p);
      if s.outcome.Failed? then s
      else
        LegacyLoopKeepsWebhooks(s.caches, LegacyMapping(config), config.homeChannel, p);
        LegacyLoop(s.caches, LegacyMapping(config), config.homeChannel, p)
    else
      LegacyLoopKeepsWebhooks(s.caches, LegacyMapping(config), config.homeChannel, p);
      LegacyLoop(s.caches, LegacyMapping(config), config.homeChannel, p)
  }

  /** The structured loop registers webhooks only under its own keys. */
  lemma {:induction false} StructuredLoopWebhookKeys(c: Caches, entries: seq<(string, LogChannelConfig)>, p: Platform)
    ensures forall k :: k in StructuredLoop(c, entries, p).caches.webhooks ==> k in c.webhooks || Find(entries, k).Some?
    decreases |entries|
  {
    if entries != [] {
      var s := StructuredStep(c, entries[0].0, entries[0].1, p);
      if !s.outcome.Failed? {
        StructuredLoopWebhookKeys(s.caches, entries[1..], p);
      }
    }
  }

  /** The legacy loop never touches the webhook cache, whether it completes or not. */
  lemma {:induction false} LegacyLoopKeepsWebhooks(c: Caches, mapping: seq<(string, Id)>, home: Id, p: Platform)
    ensures LegacyLoop(c, mapping, home, p).caches.webhooks == c.webhooks
    decreases |mapping|
  {
    if mapping != [] {
      var s := LegacyStep(c, mapping[0].0, mapping[0].1, home, p);
      if !s.outcome.Failed? {
        LegacyLoopKeepsWebhooks(s.caches, mapping[1..], home, p);
      }
    }
  }

  // ---------------------------------------------------------------------------
  // Nothing is overwritten

  /** Every entry of `c` is still in `c'` with the same value. */
  predicate Extends(c: Caches, c': Caches) {
    && (forall k :: k in c.channels ==> k in c'.channels && c'.channels[k] == c.channels[k])
    && (forall k :: k in c.webhooks ==> k in c'.webhooks && c'.webhooks[k] == c.webhooks[k])
  }

  lemma {:induction false} StructuredLoopExtends(c: Caches, entries: seq<(string, LogChannelConfig)>, p: Platform)
    ensures Extends(c, StructuredLoop(c, entries, p).caches)
    decreases |entries|
  {
    if entries != [] {
      var s := StructuredStep(c, entries[0].0, entries[0].1, p);
      if !s.outcome.Failed? {
        StructuredLoopExtends(s.caches, entries[1..], p);
      }
    }
  }

  lemma {:induction false} LegacyLoopExtends(c: Caches, mapping: seq<(string, Id)>, home: Id, p: Platform)
    ensures Extends(c, LegacyLoop(c, mapping, home, p).caches)
    decreases |mapping|
  {
    if mapping != [] {
      var s := LegacyStep(c, mapping[0].0, mapping[0].1, home, p);
      if !s.outcome.Failed? {
        LegacyLoopExtends(s.caches, mapping[1..], home, p);
      }
    }
  }

  /**
   * An unpack run never removes or replaces a cache entry, whether it
   * completes or fails half-way: structured entries only `Add`, and the
   * legacy loop only fills keys it has checked to be missing.
   */
  lemma UnpackExtends(config: Config, p: Platform, c: Caches)
    ensures Extends(c, Unpack(config, p, c).caches)
  {
    var s := match config.logChannels
      case None => Step(c, Done)
      case Some(entries) => StructuredLoop(c, entries, p);
    if config.logChannels.Some? {
      StructuredLoopExtends(c, config.logChannels.value, p);
    }
    if !s.outcome.Failed? {
      LegacyLoopExtends(s.caches, LegacyMapping(config), config.homeChannel, p);
    }
  }

  // ---------------------------------------------------------------------------
  // Every legacy key resolves

  lemma {:induction false} LegacyLoopCovers(c: Caches, mapping: seq<(string, Id)>, home: Id, p: Platform)
    requires LegacyLoop(c, mapping, home, p).outcome == Done
    ensures forall i :: 0 <= i < |mapping| ==>
              var r := LegacyLoop(c, mapping, home, p).caches;
              mapping[i].0 in r.channels || mapping[i].0 in r.webhooks
    decreases |mapping|
  {
    if mapping != [] {
      var s := LegacyStep(c, mapping[0].0, mapping[0].1, home, p);
      var r := LegacyLoop(s.caches, mapping[1..], home, p).caches;
      LegacyLoopCovers(s.caches, mapping[1..], home, p);
      LegacyLoopExtends(s.caches, mapping[1..], home, p);
      assert mapping[0].0 in s.caches.channels || mapping[0].0 in s.caches.webhooks;
      forall i | 1 <= i < |mapping|
        ensures mapping[i].0 in r.channels || mapping[i].0 in r.webhooks
      {
        assert mapping[i] == mapping[1..][i - 1];
      }
    }
  }

  /**
   * After a successful run each of the eight legacy keys is in one of the two
   * caches, whatever the caches held before. (The home channel's fetch is
   * part of the run, so success already says that it is configured.)
   */
  lemma UnpackCoversLegacyKeys(config: Config, p: Platform, c: Caches)
    requires Unpack(config, p, c).outcome == Done
    ensures forall k :: k in LegacyKeys ==>
              k in Unpack(config, p, c).caches.channels || k in Unpack(config, p, c).caches.webhooks
  {
    var s := match config.logChannels
      case None => Step(c, Done)
      case Some(entries) => StructuredLoop(c, entries, p);
    var m := LegacyMapping(config);
    LegacyLoopCovers(s.caches, m, config.homeChannel, p);
    forall k | k in LegacyKeys
      ensures k in Unpack(config, p, c).caches.channels || k in Unpack(config, p, c).caches.webhooks
    {
      var i :| 0 <= i < |LegacyKeys| && LegacyKeys[i] == k;
      assert m[i].0 == k;
    }
  }

  // ---------------------------------------------------------------------------
  // Key by key: the resolution read off the configuration

  /** The webhook a structured entry registers, when its chosen URL is non-empty and valid. */
  function EntryWebhook(e: LogChannelConfig, p: Platform): Option<Webhook> {
    match ChosenWebhookUrl(e, p.env)
    case None => None
    case Some(url) =>
      if url == "" then None
      else match p.webhookId(url)
        case None => None
        case Some(id) => Some(Webhook(WebhookClient(url), id))
  }

  function StructuredEntry(config: Config, k: string): Option<LogChannelConfig> {
    match config.logChannels
    case None => None
    case Some(entries) => Find(entries, k)
  }

  /** The webhook `k` ends up with: only a structured entry can give one. */
  function ExpectedWebhook(config: Config, p: Platform, k: string): Option<Webhook> {
    match StructuredEntry(config, k)
    case None => None
    case Some(e) => EntryWebhook(e, p)
  }

  /**
   * The channel `k` ends up with: the structured entry's channel when it names
   * one; otherwise, for a legacy key, its own legacy channel when that is
   * nonzero, and the home channel when it is zero and `k` has no webhook.
   */
  function ExpectedChannel(config: Config, p: Platform, k: string): Option<Channel> {
    var e := StructuredEntry(config, k);
    if e.Some? && e.value.channelId != 0 then p.getChannel(e.value.channelId)
    else match Find(LegacyMapping(config), k)
      case None => None
      case Some(id) =>
        if id != 0 then p.getChannel(id)
        else if ExpectedWebhook(config, p, k).Some? then None
        else p.getChannel(config.homeChannel)
  }

  lemma {:induction false} StructuredLoopAt(c: Caches, entries: seq<(string, LogChannelConfig)>, p: Platform, k: string)
    requires DistinctKeys(entries)
    requires forall i :: 0 <= i < |entries| ==> entries[i].0 !in c.channels && entries[i].0 !in c.webhooks
    requires StructuredLoop(c, entries, p).outcome == Done
    ensures var r := StructuredLoop(c, entries, p).caches;
            var e := Find(entries, k);
            && Lookup(r.channels, k) == (if e.Some? && e.value.channelId != 0 then p.getChannel(e.value.channelId) else Lookup(c.channels, k))
            && (e.Some? && e.value.channelId != 0 ==> k in r.channels)
            && Lookup(r.webhooks, k) == (if e.Some? then EntryWebhook(e.value, p) else Lookup(c.webhooks, k))
    decreases |entries|
  {
    if entries != [] {
      var (k0, e0) := entries[0];
      var s := StructuredStep(c, k0, e0, p);
      var rest := entries[1..];
      assert DistinctKeys(rest) by {
        forall i, j | 0 <= i < j < |rest| ensures rest[i].0 != rest[j].0 {
          assert rest[i] == entries[i + 1] && rest[j] == entries[j + 1];
        }
      }
      forall i | 0 <= i < |rest|
        ensures rest[i].0 !in s.caches.channels && rest[i].0 !in s.caches.webhooks
      {
        assert rest[i] == entries[i + 1];
      }
      StructuredLoopAt(s.caches, rest, p, k);
      if k == k0 {
        assert Find(rest, k).None? by {
          forall i | 0 <= i < |rest| ensures rest[i].0 != k {
            assert rest[i] == entries[i + 1];
          }
        }
      }
    }
  }

  lemma {:induction false} LegacyLoopAt(c: Caches, mapping: seq<(string, Id)>, home: Id, p: Platform, k: string)
    requires DistinctKeys(mapping)
    requires LegacyLoop(c, mapping, home, p).outcome == Done
    ensures var r := LegacyLoop(c, mapping, home, p).caches;
            && r.webhooks == c.webhooks
            && Lookup(r.channels, k) ==
                 match Find(mapping, k)
                 case None => Lookup(c.channels, k)
                 case Some(id) =>
                   if k in c.channels then Lookup(c.channels, k)
                   else if id != 0 then p.getChannel(id)
                   else if k in c.webhooks then None
                   else p.getChannel(home)
    decreases |mapping|
  {
    if mapping != [] {
      var (k0, id0) := mapping[0];
      var s := LegacyStep(c, k0, id0, home, p);
      var rest := mapping[1..];
      assert DistinctKeys(rest) by {
        forall i, j | 0 <= i < j < |rest| ensures rest[i].0 != rest[j].0 {
          assert rest[i] == mapping[i + 1] && rest[j] == mapping[j + 1];
        }
      }
      LegacyLoopAt(s.caches, rest, home, p, k);
      if k == k0 {
        assert Find(rest, k).None? by {
          forall i | 0 <= i < |rest| ensures rest[i].0 != k {
            assert rest[i] == mapping[i + 1];
          }
        }
      }
    }
  }

  /**
   * A successful unpack from the empty caches of process start leaves every
   * key exactly as `ExpectedChannel` and `ExpectedWebhook` say: the loops,
   * whose order and `ContainsKey` tests decide the outcome, agree with the
   * key-by-key reading of the configuration.
   */
  lemma UnpackResolvesPerKey(config: Config, p: Platform, k: string)
    requires Unpack(config, p, Empty).outcome == Done
    ensures Lookup(Unpack(config, p, Empty).caches.channels, k) == ExpectedChannel(config, p, k)
    ensures Lookup(Unpack(config, p, Empty).caches.webhooks, k) == ExpectedWebhook(config, p, k)
  {
    var s := match config.logChannels
      case None => Step(Empty, Done)
      case Some(entries) => StructuredLoop(Empty, entries, p);
    if config.logChannels.Some? {
      StructuredLoopAt(Empty, config.logChannels.value, p, k);
    }
    LegacyLoopAt(s.caches, LegacyMapping(config), config.homeChannel, p, k);
  }

  /**
   * A structured entry that names no channel but registers a webhook keeps a
   * legacy key whose legacy id is zero away from the home channel: the key
   * gets the webhook and no channel.
   */
  lemma WebhookEntryShadowsHomeFallback(config: Config, p: Platform, k: string, e: LogChannelConfig)
    requires Unpack(config, p, Empty).outcome == Done
    requires StructuredEntry(config, k) == Some(e) && e.channelId == 0 && EntryWebhook(e, p).Some?
    requires Find(LegacyMapping(config), k) == Some(0)
    ensures k !in Unpack(config, p, Empty).caches.channels
    ensures Lookup(Unpack(config, p, Empty).caches.webhooks, k) == EntryWebhook(e, p)
  {
    UnpackResolvesPerKey(config, p, k);
  }

  /**
   * The same entry does not shadow a nonzero legacy id: the legacy loop only
   * tests `ChannelCache`, so the key gets both the webhook and the legacy channel.
   */
  lemma WebhookEntryKeepsLegacyChannel(config: Config, p: Platform, k: string, e: LogChannelConfig, id: Id)
    requires Unpack(config, p, Empty).outcome == Done
    requires StructuredEntry(config, k) == Some(e) && e.channelId == 0 && EntryWebhook(e, p).Some?
    requires Find(LegacyMapping(config), k) == Some(id) && id != 0
    ensures Lookup(Unpack(config, p, Empty).caches.channels, k) == p.getChannel(id)
    ensures Lookup(Unpack(config, p, Empty).caches.webhooks, k) == EntryWebhook(e, p)
  {
    UnpackResolvesPerKey(config, p, k);
  }

  // ---------------------------------------------------------------------------
  // Failures

  /** The chosen URL is null, or non-empty and rejected by the regex or the id parse. */
  predicate BadWebhook(e: LogChannelConfig, p: Platform) {
    match ChosenWebhookUrl(e, p.env)
    case None => true
    case Some(url) => url != "" && p.webhookId(url).None?
  }

  lemma {:induction false} StructuredLoopRejectsBadWebhook(c: Caches, entries: seq<(string, LogChannelConfig)>, p: Platform, i: nat)
    requires i < |entries| && BadWebhook(entries[i].1, p)
    ensures StructuredLoop(c, entries, p).outcome.Failed?
    decreases i
  {
    var s := StructuredStep(c, entries[0].0, entries[0].1, p);
    if i > 0 && !s.outcome.Failed? {
      assert entries[1..][i - 1] == entries[i];
      StructuredLoopRejectsBadWebhook(s.caches, entries[1..], p, i - 1);
    }
  }

  /**
   * One structured entry with an unusable webhook URL makes the whole run
   * fail (so `ready` is never set), whatever the other entries hold.
   */
  lemma UnpackRejectsBadWebhook(config: Config, p: Platform, c: Caches, i: nat)
    requires config.logChannels.Some?
    requires i < |config.logChannels.value| && BadWebhook(config.logChannels.value[i].1, p)
    ensures Unpack(config, p, c).outcome.Failed?
  {
    StructuredLoopRejectsBadWebhook(c, config.logChannels.value, p, i);
  }

  /**
   * A failed run that did not end the process leaves what it added in the
   * caches. Running the unpack again (`ready` is still false) then throws on
   * the first `ChannelCache.Add` when the first structured entry names a channel.
   */
  lemma RetryAfterFailureHitsDuplicateKey(config: Config, p: Platform)
    requires config.logChannels.Some? && |config.logChannels.value| > 0
    requires config.logChannels.value[0].1.channelId != 0
    requires p.getChannel(config.logChannels.value[0].1.channelId).Some?
    requires Unpack(config, p, Empty).outcome.Failed?
    requires Unpack(config, p, Empty).outcome != Failed(ProcessExit)
    ensures Unpack(config, p, Unpack(config, p, Empty).caches).outcome == Failed(DuplicateKey)
  {
    var entries := config.logChannels.value;
    var (k0, e0) := entries[0];
    var added := AddStructuredChannel(Empty, k0, e0, p);
    assert k0 in added.caches.channels;
    var s := StructuredStep(Empty, k0, e0, p);
    assert Extends(added.caches, s.caches);
    var first := Unpack(config, p, Empty);
    if !s.outcome.Failed? {
      StructuredLoopExtends(s.caches, entries[1..], p);
      var t := StructuredLoop(s.caches, entries[1..], p);
      if !t.outcome.Failed? {
        LegacyLoopExtends(t.caches, LegacyMapping(config), config.homeChannel, p);
      }
    }
    assert k0 in first.caches.channels;
  }
}
