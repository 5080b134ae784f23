/**
 * The records of the Telegram-to-WhatsApp bridge server: its forwarding
 * configuration and statistics, the shallow merges that update them (the
 * config endpoint and the two start-up loads), and the message record built by
 * the forward endpoint.
 */
module BridgeModel {
  import opened Wrappers

  // ---------------------------------------------------------------------
  // Configuration

  datatype Config = Config(
    enabled: bool,
    targetNumbers: seq<string>,
    sourceChannels: seq<string>,
    messageTemplate: Option<string>,
    addTimestamp: bool,
    addChannelName: bool)

  /** The configuration the server starts from before `config.json` is read. */
  const DEFAULT_CONFIG := Config(false, [], [], None, true, true)

  /**
   * A JSON object merged into the configuration. A field that is `None` is
   * absent from the object; `messageTemplate: Some(None)` is an explicit `null`.
   */
  datatype ConfigPatch = ConfigPatch(
    enabled: Option<bool>,
    targetNumbers: Option<seq<string>>,
    sourceChannels: Option<seq<string>>,
    messageTemplate: Option<Option<string>>,
    addTimestamp: Option<bool>,
    addChannelName: Option<bool>)

  const NO_CONFIG_CHANGE := ConfigPatch(None, None, None, None, None, None)

  /** A patch that names every field: it determines the whole configuration. */
  predicate IsFullConfig(p: ConfigPatch) {
    p.enabled.Some? && p.targetNumbers.Some? && p.sourceChannels.Some?
    && p.messageTemplate.Some? && p.addTimestamp.Some? && p.addChannelName.Some?
  }

  /** `{ ...c, ...p }`: every field `p` supplies overwrites, every other keeps its value. */
  function MergeConfig(c: Config, p: ConfigPatch): (r: Config)
    ensures p == NO_CONFIG_CHANGE ==> r == c
    ensures p.enabled.None? ==> r.enabled == c.enabled
    ensures p.targetNumbers.None? ==> r.targetNumbers == c.targetNumbers
    ensures p.sourceChannels.None? ==> r.sourceChannels == c.sourceChannels
    ensures p.messageTemplate.None? ==> r.messageTemplate == c.messageTemplate
    ensures p.addTimestamp.None? ==> r.addTimestamp == c.addTimestamp
    ensures p.addChannelName.None? ==> r.addChannelName == c.addChannelName
    ensures p.enabled.Some? ==> r.enabled == p.enabled.value
    ensures p.targetNumbers.Some? ==> r.targetNumbers == p.targetNumbers.value
    ensures p.sourceChannels.Some? ==> r.sourceChannels == p.sourceChannels.value
    ensures p.messageTemplate.Some? ==> r.messageTemplate == p.messageTemplate.value
    ensures p.addTimestamp.Some? ==> r.addTimestamp == p.addTimestamp.value
    ensures p.addChannelName.Some? ==> r.addChannelName == p.addChannelName.value
  {
    Config(
      p.enabled.GetOr(c.enabled),
      p.targetNumbers.GetOr(c.targetNumbers),
      p.sourceChannels.GetOr(c.sourceChannels),
      p.messageTemplate.GetOr(c.messageTemplate),
      p.addTimestamp.GetOr(c.addTimestamp),
      p.addChannelName.GetOr(c.addChannelName))
  }

  /** `{ ...p, ...q }` on patches: the fields of `q` win. */
  function OverlayConfig(p: ConfigPatch, q: ConfigPatch): ConfigPatch {
    ConfigPatch(
      Override(p.enabled, q.enabled),
      Override(p.targetNumbers, q.targetNumbers),
      Override(p.sourceChannels, q.sourceChannels),
      Override(p.messageTemplate, q.messageTemplate),
      Override(p.addTimestamp, q.addTimestamp),
      Override(p.addChannelName, q.addChannelName))
  }

  /** Two successive updates are one update with the later values winning. */
  lemma MergeConfigCompose(c: Config, p: ConfigPatch, q: ConfigPatch)
    ensures MergeConfig(MergeConfig(c, p), q) == MergeConfig(c, OverlayConfig(p, q))
  {
  }

  /** An update that names every field replaces the whole configuration. */
  lemma MergeFullConfigIgnoresPrior(c1: Config, c2: Config, p: ConfigPatch)
    requires IsFullConfig(p)
    ensures MergeConfig(c1, p) == MergeConfig(c2, p)
  {
  }

  /** Posting the same update twice is posting it once. */
  lemma MergeConfigIdempotent(c: Config, p: ConfigPatch)
    ensures MergeConfig(MergeConfig(c, p), p) == MergeConfig(c, p)
  {
  }

  // ---------------------------------------------------------------------
  // Statistics

  datatype Stats = Stats(
    totalForwarded: nat,
    todayForwarded: nat,
    lastForwarded: Option<string>,
    errors: nat)

  const INITIAL_STATS := Stats(0, 0, None, 0)

  /** The content of `stats.json`, field by field; `lastForwarded: Some(None)` is a `null`. */
  datatype StatsPatch = StatsPatch(
    totalForwarded: Option<nat>,
    todayForwarded: Option<nat>,
    lastForwarded: Option<Option<string>>,
    errors: Option<nat>)

  /** `{ ...s, ...p }` on the statistics. */
  function MergeStats(s: Stats, p: StatsPatch): (r: Stats)
    ensures p == StatsPatch(None, None, None, None) ==> r == s
    ensures p.totalForwarded.None? ==> r.totalForwarded == s.totalForwarded
    ensures p.todayForwarded.None? ==> r.todayForwarded == s.todayForwarded
    ensures p.lastForwarded.None? ==> r.lastForwarded == s.lastForwarded
    ensures p.errors.None? ==> r.errors == s.errors
    ensures p.totalForwarded.Some? ==> r.totalForwarded == p.totalForwarded.value
    ensures p.todayForwarded.Some? ==> r.todayForwarded == p.todayForwarded.value
    ensures p.lastForwarded.Some? ==> r.lastForwarded == p.lastForwarded.value
    ensures p.errors.Some? ==> r.errors == p.errors.value
  {
    Stats(
      p.totalForwarded.GetOr(s.totalForwarded),
      p.todayForwarded.GetOr(s.todayForwarded),
      p.lastForwarded.GetOr(s.lastForwarded),
      p.errors.GetOr(s.errors))
  }

  /** `{ ...p, ...q }` on saved statistics: the fields of `q` win. */
  function OverlayStats(p: StatsPatch, q: StatsPatch): StatsPatch {
    StatsPatch(
      Override(p.totalForwarded, q.totalForwarded),
      Override(p.todayForwarded, q.todayForwarded),
      Override(p.lastForwarded, q.lastForwarded),
      Override(p.errors, q.errors))
  }

  /** Two successive statistics merges are one merge with the later values winning. */
  lemma MergeStatsCompose(s: Stats, p: StatsPatch, q: StatsPatch)
    ensures MergeStats(MergeStats(s, p), q) == MergeStats(s, OverlayStats(p, q))
  {
  }

  /** Merging the same saved statistics twice is merging them once. */
  lemma MergeStatsIdempotent(s: Stats, p: StatsPatch)
    ensures MergeStats(MergeStats(s, p), p) == MergeStats(s, p)
  {
  }

  // ---------------------------------------------------------------------
  // Messages

  /** The message record the engine queues, formats and forwards. */
  datatype MessageData = MessageData(
    text: string,
    channelName: Option<string>,
    channelId: Option<string>,
    messageId: Option<string>,
    timestamp: string)

  /** The JSON body of a forward request; `None` is an absent field. */
  datatype ForwardRequest = ForwardRequest(
    text: Option<string>,
    channelName: Option<string>,
    channelId: Option<string>,
    messageId: Option<string>,
    timestamp: Option<string>)

  datatype RequestError = TextRequired

  /**
   * The forward endpoint's input check: an absent or empty `text` is refused
   * (HTTP 400); otherwise the message is built, its timestamp defaulting to
   * `now` when absent or empty.
   */
  function ParseForwardRequest(req: ForwardRequest, now: string): (r: Result<MessageData, RequestError>)
    ensures r.Err? <==> req.text.None? || req.text.value == ""
    ensures r.Ok? ==> r.value.text == req.text.value && r.value.text != ""
    ensures r.Ok? ==> r.value.channelName == req.channelName && r.value.channelId == req.channelId
                      && r.value.messageId == req.messageId
    ensures r.Ok? ==> r.value.timestamp ==
                      (if req.timestamp.Some? && req.timestamp.value != "" then req.timestamp.value else now)
  {
    if req.text.None? || req.text.value == "" then Err(TextRequired)
    else
      var ts := if req.timestamp.Some? && req.timestamp.value != "" then req.timestamp.value else now;
      Ok(MessageData(req.text.value, req.channelName, req.channelId, req.messageId, ts))
  }
}
