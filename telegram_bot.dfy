/**
 * The Telegram side of the bridge (telegram-to-whatsapp/telegram_bot.py): the
 * enable and keyword filter, the length cut, the gatekeeping of a channel post
 * and the counters the bot keeps while it forwards posts to the bridge
 * server's forward endpoint. The HTTP exchange is the `HttpReply` input; the
 * clock is the `now` input.
 */
module TelegramBot {
  import opened Wrappers
  import opened Text
  import BridgeModel

  // ---------------------------------------------------------------------
  // Configuration and statistics

  datatype BotConfig = BotConfig(
    enabled: bool,
    monitoredChannels: seq<string>,
    keywordsFilter: seq<string>,
    messageDelay: int,
    maxMessageLength: int)

  /** The settings the bot starts from before `config.json` is read. */
  const DEFAULT_BOT_CONFIG := BotConfig(false, [], [], 1, 4000)

  /** The `telegram` section of `config.json`; `None` is an absent key. */
  datatype BotConfigPatch = BotConfigPatch(
    enabled: Option<bool>,
    monitoredChannels: Option<seq<string>>,
    keywordsFilter: Option<seq<string>>,
    messageDelay: Option<int>,
    maxMessageLength: Option<int>)

  /** What the bot reads of `config.json`: its own section, if there is one. */
  datatype ConfigFile = ConfigFile(telegram: Option<BotConfigPatch>)

  /** `dict.update`: the keys the section supplies overwrite, the others stay. */
  function MergeBotConfig(c: BotConfig, p: BotConfigPatch): (r: BotConfig)
    ensures p.enabled.None? ==> r.enabled == c.enabled
    ensures p.monitoredChannels.None? ==> r.monitoredChannels == c.monitoredChannels
    ensures p.keywordsFilter.None? ==> r.keywordsFilter == c.keywordsFilter
    ensures p.messageDelay.None? ==> r.messageDelay == c.messageDelay
    ensures p.maxMessageLength.None? ==> r.maxMessageLength == c.maxMessageLength
    ensures p.enabled.Some? ==> r.enabled == p.enabled.value
    ensures p.monitoredChannels.Some? ==> r.monitoredChannels == p.monitoredChannels.value
    ensures p.keywordsFilter.Some? ==> r.keywordsFilter == p.keywordsFilter.value
    ensures p.messageDelay.Some? ==> r.messageDelay == p.messageDelay.value
    ensures p.maxMessageLength.Some? ==> r.maxMessageLength == p.maxMessageLength.value
  {
    BotConfig(
      p.enabled.GetOr(c.enabled),
      p.monitoredChannels.GetOr(c.monitoredChannels),
      p.keywordsFilter.GetOr(c.keywordsFilter),
      p.messageDelay.GetOr(c.messageDelay),
      p.maxMessageLength.GetOr(c.maxMessageLength))
  }

  /** Two sections applied one after the other, as one section: the keys of `q` win. */
  function OverlayBotConfig(p: BotConfigPatch, q: BotConfigPatch): BotConfigPatch {
    BotConfigPatch(
      Override(p.enabled, q.enabled),
      Override(p.monitoredChannels, q.monitoredChannels),
      Override(p.keywordsFilter, q.keywordsFilter),
      Override(p.messageDelay, q.messageDelay),
      Override(p.maxMessageLength, q.maxMessageLength))
  }

  /** Two successive `update` calls are one update with the later keys winning. */
  lemma MergeBotConfigCompose(c: BotConfig, p: BotConfigPatch, q: BotConfigPatch)
    ensures MergeBotConfig(MergeBotConfig(c, p), q) == MergeBotConfig(c, OverlayBotConfig(p, q))
  {
  }

  /** Loading the same section twice is loading it once. */
  lemma MergeBotConfigIdempotent(c: BotConfig, p: BotConfigPatch)
    ensures MergeBotConfig(MergeBotConfig(c, p), p) == MergeBotConfig(c, p)
  {
  }

  datatype BotStats = BotStats(
    messagesReceived: nat,
    messagesForwarded: nat,
    messagesFiltered: nat,
    errors: nat,
    lastActivity: Option<string>)

  const INITIAL_BOT_STATS := BotStats(0, 0, 0, 0, None)

  /** The content of `telegram_stats.json`; `lastActivity: Some(None)` is a `null`. */
  datatype BotStatsPatch = BotStatsPatch(
    messagesReceived: Option<nat>,
    messagesForwarded: Option<nat>,
    messagesFiltered: Option<nat>,
    errors: Option<nat>,
    lastActivity: Option<Option<string>>)

  function MergeBotStats(s: BotStats, p: BotStatsPatch): (r: BotStats)
    ensures p.messagesReceived.None? ==> r.messagesReceived == s.messagesReceived
    ensures p.messagesForwarded.None? ==> r.messagesForwarded == s.messagesForwarded
    ensures p.messagesFiltered.None? ==> r.messagesFiltered == s.messagesFiltered
    ensures p.errors.None? ==> r.errors == s.errors
    ensures p.lastActivity.None? ==> r.lastActivity == s.lastActivity
    ensures p.messagesReceived.Some? ==> r.messagesReceived == p.messagesReceived.value
    ensures p.messagesForwarded.Some? ==> r.messagesForwarded == p.messagesForwarded.value
    ensures p.messagesFiltered.Some? ==> r.messagesFiltered == p.messagesFiltered.value
    ensures p.errors.Some? ==> r.errors == p.errors.value
    ensures p.lastActivity.Some? ==> r.lastActivity == p.lastActivity.value
  {
    BotStats(
      p.messagesReceived.GetOr(s.messagesReceived),
      p.messagesForwarded.GetOr(s.messagesForwarded),
      p.messagesFiltered.GetOr(s.messagesFiltered),
      p.errors.GetOr(s.errors),
      p.lastActivity.GetOr(s.lastActivity))
  }

  /** Two saved counter files applied one after the other, as one: the keys of `q` win. */
  function OverlayBotStats(p: BotStatsPatch, q: BotStatsPatch): BotStatsPatch {
    BotStatsPatch(
      Override(p.messagesReceived, q.messagesReceived),
      Override(p.messagesForwarded, q.messagesForwarded),
      Override(p.messagesFiltered, q.messagesFiltered),
      Override(p.errors, q.errors),
      Override(p.lastActivity, q.lastActivity))
  }

  /** Two successive counter loads are one load with the later values winning. */
  lemma MergeBotStatsCompose(s: BotStats, p: BotStatsPatch, q: BotStatsPatch)
    ensures MergeBotStats(MergeBotStats(s, p), q) == MergeBotStats(s, OverlayBotStats(p, q))
  {
  }

  /** Loading the same counters twice is loading them once. */
  lemma MergeBotStatsIdempotent(s: BotStats, p: BotStatsPatch)
    ensures MergeBotStats(MergeBotStats(s, p), p) == MergeBotStats(s, p)
  {
  }

  // ---------------------------------------------------------------------
  // Filtering and formatting

  /** `keyword.lower() in text.lower()` */
  predicate MatchesKeyword(text: string, keyword: string) {
    Contains(Lower(text), Lower(keyword))
  }

  /** The keyword loop: true at the first keyword found in the text. */
  function AnyKeyword(text: string, keywords: seq<string>): (r: bool)
    ensures r <==> exists k :: k in keywords && MatchesKeyword(text, k)
  {
    if keywords == [] then false
    else MatchesKeyword(text, keywords[0]) || AnyKeyword(text, keywords[1..])
  }

  /**
   * `should_forward_message`: nothing passes while disabled; with no keywords
   * everything passes; otherwise a post passes exactly when one of the
   * keywords occurs in it, ignoring case.
   */
  function ShouldForward(cfg: BotConfig, text: string): (r: bool)
    ensures !cfg.enabled ==> !r
    ensures cfg.enabled && cfg.keywordsFilter == [] ==> r
    ensures cfg.enabled && cfg.keywordsFilter != [] ==>
              (r <==> exists k :: k in cfg.keywordsFilter && MatchesKeyword(text, k))
  {
    if !cfg.enabled then false
    else if cfg.keywordsFilter != [] then AnyKeyword(text, cfg.keywordsFilter)
    else true
  }

  /** The filter does not see case: a post and its lower-cased form are treated alike. */
  lemma ShouldForwardIgnoresCase(cfg: BotConfig, text: string)
    ensures ShouldForward(cfg, Lower(text)) == ShouldForward(cfg, text)
  {
    LowerIdempotent(text);
  }

  /** While enabled, a post that consists of one of the keywords always passes. */
  lemma KeywordPassesItself(cfg: BotConfig, k: string)
    requires cfg.enabled && k in cfg.keywordsFilter
    ensures ShouldForward(cfg, k)
  {
    assert OccursAt(Lower(k), Lower(k), 0);
    ContainsIff(Lower(k), Lower(k));
  }

  /** Python's `s[:m]`: a negative `m` counts from the end. */
  function PyPrefix(s: string, m: int): (r: string)
    ensures |r| <= |s| && r == s[..|r|]
    ensures 0 <= m <= |s| ==> |r| == m
    ensures m < 0 ==> |r| == if |s| + m < 0 then 0 else |s| + m
    ensures m > |s| ==> r == s
  {
    if m >= 0 then (if m <= |s| then s[..m] else s)
    else if |s| + m >= 0 then s[..|s| + m]
    else []
  }

  const ELLIPSIS := "..."

  /**
   * `format_message`: a text longer than the limit keeps its first `maxLength`
   * characters and gets `...`; a shorter one is returned as it is.
   */
  function Truncate(text: string, maxLength: int): (r: string)
    ensures |text| <= maxLength ==> r == text
    ensures maxLength < |text| ==> |ELLIPSIS| <= |r| <= |text| + |ELLIPSIS| && r[|r| - |ELLIPSIS|..] == ELLIPSIS
                                   && r[..|r| - |ELLIPSIS|] == text[..|r| - |ELLIPSIS|]
    ensures 0 <= maxLength ==> |r| <= maxLength + |ELLIPSIS|
    ensures 0 <= maxLength < |text| ==> |r| == maxLength + |ELLIPSIS|
    ensures text != [] ==> r != []
  {
    if |text| > maxLength then PyPrefix(text, maxLength) + ELLIPSIS else text
  }

  /** With a non-negative limit, cutting an already cut text changes nothing. */
  lemma TruncateIdempotent(text: string, maxLength: int)
    requires 0 <= maxLength
    ensures Truncate(Truncate(text, maxLength), maxLength) == Truncate(text, maxLength)
  {
    if |text| > maxLength {
      var r := Truncate(text, maxLength);
      assert r[..maxLength] == text[..maxLength];
    }
  }

  // ---------------------------------------------------------------------
  // Channel posts

  /** The parts of a channel post the handler reads. */
  datatype ChannelPost = ChannelPost(
    chatId: int,
    title: Option<string>,
    text: Option<string>,
    caption: Option<string>,
    messageId: int)

  datatype Update = Update(channelPost: Option<ChannelPost>)

  const CHANNEL_WORD := "قناة "

  /** `str(chat.id)` */
  function ChannelId(post: ChannelPost): string {
    IntToDecimal(post.chatId)
  }

  /** `chat.title or f"قناة {channel_id}"` */
  function ChannelName(post: ChannelPost): (r: string)
    ensures r != []
    ensures post.title.Some? && post.title.value != "" ==> r == post.title.value
    ensures !(post.title.Some? && post.title.value != "") ==> r == CHANNEL_WORD + ChannelId(post)
  {
    if post.title.Some? && post.title.value != "" then post.title.value else CHANNEL_WORD + ChannelId(post)
  }

  /** `message.text or message.caption or ''` */
  function MessageText(post: ChannelPost): (r: string)
    ensures r == [] <==> (post.text.None? || post.text.value == "") && (post.caption.None? || post.caption.value == "")
    ensures post.text.Some? && post.text.value != "" ==> r == post.text.value
    ensures r != [] && (post.text.None? || post.text.value == "") ==> post.caption.Some? && r == post.caption.value
  {
    if post.text.Some? && post.text.value != "" then post.text.value
    else if post.caption.Some? && post.caption.value != "" then post.caption.value
    else ""
  }

  /** An empty monitored list watches every channel; otherwise only the listed ids. */
  predicate Monitored(cfg: BotConfig, post: ChannelPost) {
    cfg.monitoredChannels == [] || ChannelId(post) in cfg.monitoredChannels
  }

  /** The JSON body the bot posts to the forward endpoint. */
  datatype Payload = Payload(text: string, channelName: string, channelId: string, messageId: int, timestamp: string)

  /** Where a channel post ends up. */
  datatype Gate = NotMonitored | NoText | Filtered | Forward(payload: Payload)

  /**
   * The checks of `handle_channel_message`, in their order: the channel, then
   * the presence of text, then the filter; a post that passes all three is
   * cut to length and sent with its channel's name and id.
   */
  function Gatekeep(cfg: BotConfig, post: ChannelPost, now: string): (g: Gate)
    ensures g == NotMonitored <==> !Monitored(cfg, post)
    ensures g == NoText <==> Monitored(cfg, post) && MessageText(post) == ""
    ensures g == Filtered <==> Monitored(cfg, post) && MessageText(post) != "" && !ShouldForward(cfg, MessageText(post))
    ensures g.Forward? ==> cfg.enabled && Monitored(cfg, post) && ShouldForward(cfg, MessageText(post))
    ensures g.Forward? ==> g.payload.text == Truncate(MessageText(post), cfg.maxMessageLength) && g.payload.text != ""
    ensures g.Forward? ==> g.payload.channelName == ChannelName(post) && g.payload.channelId == ChannelId(post)
                           && g.payload.messageId == post.messageId && g.payload.timestamp == now
  {
    if !Monitored(cfg, post) then NotMonitored
    else if MessageText(post) == "" then NoText
    else if !ShouldForward(cfg, MessageText(post)) then Filtered
    else
      var text := MessageText(post);
      Forward(Payload(Truncate(text, cfg.maxMessageLength), ChannelName(post), ChannelId(post), post.messageId, now))
  }

  /** A monitored list names channels exactly: a listed id admits that one chat and no other. */
  lemma MonitoredExactly(cfg: BotConfig, a: ChannelPost, b: ChannelPost)
    requires cfg.monitoredChannels == [ChannelId(a)]
    ensures Monitored(cfg, b) <==> b.chatId == a.chatId
  {
    IntToDecimalInjective(a.chatId, b.chatId);
  }

  /**
   * The request the forward endpoint receives for a payload: every field is
   * present, and the message id arrives as its decimal rendering, which reads
   * back as the id.
   */
  function ToForwardRequest(p: Payload): (r: BridgeModel.ForwardRequest)
    ensures r.text == Some(p.text) && r.channelName == Some(p.channelName) && r.channelId == Some(p.channelId)
            && r.timestamp == Some(p.timestamp)
    ensures r.messageId.Some? && r.messageId.value != []
    ensures p.messageId >= 0 ==> AllDigits(r.messageId.value) && DecimalValue(r.messageId.value) == p.messageId
    ensures p.messageId < 0 ==> r.messageId.value[0] == '-' && AllDigits(r.messageId.value[1..])
                                && DecimalValue(r.messageId.value[1..]) == -p.messageId
  {
    var id := IntToDecimal(p.messageId);
    assert p.messageId >= 0 ==> DecimalValue(id) == p.messageId by {
      if p.messageId >= 0 {
        DecimalRoundTrip(p.messageId);
      }
    }
    assert p.messageId < 0 ==> DecimalValue(id[1..]) == -p.messageId by {
      if p.messageId < 0 {
        assert id[1..] == NatToDecimal(-p.messageId);
        DecimalRoundTrip(-p.messageId);
      }
    }
    BridgeModel.ForwardRequest(Some(p.text), Some(p.channelName), Some(p.channelId), Some(id), Some(p.timestamp))
  }

  /**
   * What the bot forwards is never refused by the forward endpoint for lack of
   * text, and arrives with the cut text and the channel's name.
   */
  lemma ForwardedPostAccepted(cfg: BotConfig, post: ChannelPost, now: string, serverNow: string)
    requires Gatekeep(cfg, post, now).Forward?
    ensures var p := Gatekeep(cfg, post, now).payload;
            var r := BridgeModel.ParseForwardRequest(ToForwardRequest(p), serverNow);
            && r.Ok?
            && r.value.text == Truncate(MessageText(post), cfg.maxMessageLength)
            && r.value.channelName == Some(ChannelName(post))
  {
  }

  // ---------------------------------------------------------------------
  // Counters

  /** The answer of the forward endpoint, or a failed connection. */
  datatype HttpReply = Reply(status: int, success: bool) | ConnectionFailed

  /** `response.status == 200 and result.get('success')` */
  predicate Delivered(reply: HttpReply) {
    reply.Reply? && reply.status == 200 && reply.success
  }

  /**
   * The counter effect of one channel post: one more received and the activity
   * stamp always; then one more filtered, forwarded or error according to
   * where the post ended up and how the endpoint answered.
   */
  function Bookkeep(s: BotStats, g: Gate, reply: HttpReply, now: string): (r: BotStats)
    ensures r.messagesReceived == s.messagesReceived + 1 && r.lastActivity == Some(now)
    ensures r.messagesFiltered == s.messagesFiltered + (if g == Filtered then 1 else 0)
    ensures r.messagesForwarded == s.messagesForwarded + (if g.Forward? && Delivered(reply) then 1 else 0)
    ensures r.errors == s.errors + (if g.Forward? && !Delivered(reply) then 1 else 0)
  {
    var received := s.(messagesReceived := s.messagesReceived + 1, lastActivity := Some(now));
    match g
    case NotMonitored => received
    case NoText => received
    case Filtered => received.(messagesFiltered := received.messagesFiltered + 1)
    case Forward(_) =>
      if Delivered(reply) then received.(messagesForwarded := received.messagesForwarded + 1)
      else received.(errors := received.errors + 1)
  }

  /** Filtered, forwarded and failed posts together never outnumber the received ones. */
  predicate Balanced(s: BotStats) {
    s.messagesFiltered + s.messagesForwarded + s.errors <= s.messagesReceived
  }

  /** Every post is counted as received and at most once more. */
  lemma BookkeepBalanced(s: BotStats, g: Gate, reply: HttpReply, now: string)
    requires Balanced(s)
    ensures Balanced(Bookkeep(s, g, reply, now))
    ensures var r := Bookkeep(s, g, reply, now);
            (r.messagesFiltered + r.messagesForwarded + r.errors)
            - (s.messagesFiltered + s.messagesForwarded + s.errors)
            == (if g == NotMonitored || g == NoText then 0 else 1)
  {
  }

  class TelegramForwardingBot {
    var config: BotConfig
    var stats: BotStats

    /** Start-up: the defaults, then `config.json` and `telegram_stats.json` if they can be read. */
    constructor (configFile: Option<ConfigFile>, statsFile: Option<BotStatsPatch>)
      ensures config == (if configFile.Some? && configFile.value.telegram.Some?
                         then MergeBotConfig(DEFAULT_BOT_CONFIG, configFile.value.telegram.value)
                         else DEFAULT_BOT_CONFIG)
      ensures stats == (if statsFile.Some? then MergeBotStats(INITIAL_BOT_STATS, statsFile.value) else INITIAL_BOT_STATS)
    {
      config := DEFAULT_BOT_CONFIG;
      stats := INITIAL_BOT_STATS;
      new;
      LoadConfig(configFile);
      LoadStats(statsFile);
    }

    /** `load_config`: only the `telegram` section is merged; a file without one changes nothing. */
    method LoadConfig(file: Option<ConfigFile>)
      modifies this
      ensures config == (if file.Some? && file.value.telegram.Some?
                         then MergeBotConfig(old(config), file.value.telegram.value)
                         else old(config))
      ensures stats == old(stats)
    {
      if file.Some? && file.value.telegram.Some? {
        config := MergeBotConfig(config, file.value.telegram.value);
      }
    }

    /** `load_stats`: the saved counters are merged over the current ones. */
    method LoadStats(file: Option<BotStatsPatch>)
      modifies this
      ensures stats == (if file.Some? then MergeBotStats(old(stats), file.value) else old(stats))
      ensures config == old(config)
    {
      if file.Some? {
        stats := MergeBotStats(stats, file.value);
      }
    }

    /**
     * `forward_to_whatsapp`: the payload is posted; a 200 answer reporting
     * success counts as forwarded, any other answer or a failed connection as
     * an error.
     */
    method ForwardToWhatsApp(payload: Payload, reply: HttpReply) returns (success: bool)
      modifies this
      ensures success <==> Delivered(reply)
      ensures success ==> stats == old(stats).(messagesForwarded := old(stats).messagesForwarded + 1)
      ensures !success ==> stats == old(stats).(errors := old(stats).errors + 1)
      ensures config == old(config)
    {
      match reply
      case Reply(status, ok) =>
        if status == 200 && ok {
          stats := stats.(messagesForwarded := stats.messagesForwarded + 1);
          return true;
        } else {
          stats := stats.(errors := stats.errors + 1);
          return false;
        }
      case ConnectionFailed =>
        stats := stats.(errors := stats.errors + 1);
        return false;
    }

    /**
     * `handle_channel_message`: an update without a channel post changes
     * nothing; any post is counted as received before it is checked, and the
     * payload it produces, if any, is returned.
     */
    method HandleChannelMessage(update: Update, now: string, reply: HttpReply) returns (forwarded: Option<Payload>)
      modifies this
      ensures config == old(config)
      ensures update.channelPost.None? ==> stats == old(stats) && forwarded.None?
      ensures update.channelPost.Some? ==>
                var g := Gatekeep(config, update.channelPost.value, now);
                && stats == Bookkeep(old(stats), g, reply, now)
                && (forwarded.Some? <==> g.Forward?)
                && (g.Forward? ==> forwarded.value == g.payload)
    {
      forwarded := None;
      if update.channelPost.None? {
        return;
      }
      var post := update.channelPost.value;
      stats := stats.(messagesReceived := stats.messagesReceived + 1, lastActivity := Some(now));

      var channelId := IntToDecimal(post.chatId);
      var channelName := if post.title.Some? && post.title.value != "" then post.title.value
                         else CHANNEL_WORD + channelId;
      if config.monitoredChannels != [] && channelId !in config.monitoredChannels {
        return;
      }
      var text := if post.text.Some? && post.text.value != "" then post.text.value
                  else if post.caption.Some? && post.caption.value != "" then post.caption.value
                  else "";
      if text == "" {
        return;
      }
      if !ShouldForward(config, text) {
        stats := stats.(messagesFiltered := stats.messagesFiltered + 1);
        return;
      }
      var payload := Payload(Truncate(text, config.maxMessageLength), channelName, channelId, post.messageId, now);
      var _ := ForwardToWhatsApp(payload, reply);
      forwarded := Some(payload);
    }
  }
}
