/**
 * How the bridge server turns a message into the text it sends, and how it
 * addresses a destination number (telegram-to-whatsapp/app.js, the formatting
 * block of forwardToWhatsApp and the chat-id derivation in its send loop).
 * Both clock readings of the source are the one `localTime` input, already
 * formatted as `DD/MM/YYYY HH:mm`.
 */
module Formatter {
  import opened Wrappers
  import opened Text
  import opened BridgeModel

  const CHANNEL_LABEL := "📢 من: "
  const TIME_LABEL := "⏰ "
  const UNNAMED_CHANNEL := "غير محدد"
  const CHAT_SUFFIX := "@c.us"

  const MESSAGE_SLOT := "{message}"
  const CHANNEL_SLOT := "{channel}"
  const TIME_SLOT := "{time}"

  /** The template in force: a configured non-empty string (an empty one is falsy). */
  function ActiveTemplate(cfg: Config): Option<string> {
    if cfg.messageTemplate.Some? && cfg.messageTemplate.value != "" then cfg.messageTemplate else None
  }

  /** A channel name is present when it is a non-empty string. */
  predicate HasChannelName(msg: MessageData) {
    msg.channelName.Some? && msg.channelName.value != ""
  }

  /** `channelName || 'غير محدد'` */
  function ChannelOrDefault(msg: MessageData): string {
    if HasChannelName(msg) then msg.channelName.value else UNNAMED_CHANNEL
  }

  /** The line put before the text when the channel name is to be shown. */
  function Header(msg: MessageData, cfg: Config): (r: string)
    ensures r == [] <==> !(cfg.addChannelName && HasChannelName(msg))
    ensures r != [] ==> StartsWith(r, CHANNEL_LABEL + msg.channelName.value)
    ensures r != [] ==> r == CHANNEL_LABEL + msg.channelName.value + "\n\n"
  {
    if cfg.addChannelName && HasChannelName(msg) then CHANNEL_LABEL + msg.channelName.value + "\n\n" else ""
  }

  /** The line put after the text when the timestamp is to be shown. */
  function Footer(cfg: Config, localTime: string): (r: string)
    ensures r == [] <==> !cfg.addTimestamp
    ensures r != [] ==> |localTime| < |r| && r[|r| - |localTime|..] == localTime
    ensures r != [] ==> r == "\n\n" + TIME_LABEL + localTime
  {
    if cfg.addTimestamp then "\n\n" + TIME_LABEL + localTime else ""
  }

  /**
   * The three placeholder replacements, each of the first occurrence, in this
   * order; a template without placeholders comes back unchanged.
   */
  function FillTemplate(template: string, text: string, channel: string, localTime: string): (r: string)
    ensures !Contains(template, MESSAGE_SLOT) && !Contains(template, CHANNEL_SLOT) && !Contains(template, TIME_SLOT)
            ==> r == template
  {
    ContainsIff(template, MESSAGE_SLOT);
    ContainsIff(template, CHANNEL_SLOT);
    ContainsIff(template, TIME_SLOT);
    ReplaceFirst(ReplaceFirst(ReplaceFirst(template, MESSAGE_SLOT, text), CHANNEL_SLOT, channel), TIME_SLOT, localTime)
  }

  /** A string without '{', where no placeholder can begin. */
  predicate NoBrace(s: string) {
    forall i :: 0 <= i < |s| ==> s[i] != '{'
  }

  /** A placeholder cannot occur inside a '{'-free prefix. */
  lemma NoSlotBefore(x: string, slot: string, y: string)
    requires NoBrace(x) && slot != [] && slot[0] == '{'
    ensures forall j :: 0 <= j < |x| ==> !OccursAt(x + slot + y, slot, j)
  {
    var s := x + slot + y;
    forall j | 0 <= j < |x|
      ensures !OccursAt(s, slot, j)
    {
      assert s[j..j + |slot|][0] == s[j] == x[j];
    }
  }

  /** After a '{'-free prefix, the placeholder is replaced where it stands. */
  lemma ReplaceSlot(x: string, slot: string, y: string, value: string)
    requires NoBrace(x) && slot != [] && slot[0] == '{'
    ensures ReplaceFirst(x + slot + y, slot, value) == x + value + y
  {
    NoSlotBefore(x, slot, y);
    ReplaceFirstAt(x, slot, y, value);
  }

  lemma NoBraceConcat(x: string, y: string)
    requires NoBrace(x) && NoBrace(y)
    ensures NoBrace(x + y)
  {
    forall i | 0 <= i < |x + y|
      ensures (x + y)[i] != '{'
    {
      if i >= |x| {
        assert (x + y)[i] == y[i - |x|];
      }
    }
  }

  /** Regrouping a concatenation of seven parts around the second and the fourth. */
  lemma Regroup(p: string, q: string, r: string, s: string, t: string, u: string, v: string)
    ensures p + q + r + s + t + u + v == p + q + (r + s + t + u + v)
    ensures p + q + r + s + t + u + v == p + q + r + s + (t + u + v)
  {
  }

  /**
   * A template with one of each placeholder, in order, whose literal parts,
   * message text and channel name hold no '{', is sent with each placeholder
   * replaced by its value.
   */
  lemma FillTemplateSubstitutes(a: string, b: string, c: string, d: string, text: string, channel: string, localTime: string)
    requires NoBrace(a) && NoBrace(b) && NoBrace(c) && NoBrace(text) && NoBrace(channel)
    ensures FillTemplate(a + MESSAGE_SLOT + b + CHANNEL_SLOT + c + TIME_SLOT + d, text, channel, localTime)
         == a + text + b + channel + c + localTime + d
  {
    Regroup(a, MESSAGE_SLOT, b, CHANNEL_SLOT, c, TIME_SLOT, d);
    ReplaceSlot(a, MESSAGE_SLOT, b + CHANNEL_SLOT + c + TIME_SLOT + d, text);

    Regroup(a, text, b, CHANNEL_SLOT, c, TIME_SLOT, d);
    var x1 := a + text + b;
    NoBraceConcat(a, text);
    NoBraceConcat(a + text, b);
    ReplaceSlot(x1, CHANNEL_SLOT, c + TIME_SLOT + d, channel);

    Regroup(a, text, b, channel, c, TIME_SLOT, d);
    var x2 := x1 + channel + c;
    NoBraceConcat(x1, channel);
    NoBraceConcat(x1 + channel, c);
    ReplaceSlot(x2, TIME_SLOT, d, localTime);
  }

  /**
   * The outgoing text. Without a template it is the text intact, preceded by
   * the channel line exactly when names are on and the message has one, and
   * followed by the time line exactly when timestamps are on. With a
   * template, the template filled with the ORIGINAL text, the channel or its
   * default, and the time.
   */
  function FormatMessage(msg: MessageData, cfg: Config, localTime: string): (r: string)
    ensures ActiveTemplate(cfg).None? ==> r == Header(msg, cfg) + msg.text + Footer(cfg, localTime)
    ensures ActiveTemplate(cfg).Some? ==>
              r == FillTemplate(ActiveTemplate(cfg).value, msg.text, ChannelOrDefault(msg), localTime)
  {
    var named := if cfg.addChannelName && HasChannelName(msg)
                 then CHANNEL_LABEL + msg.channelName.value + "\n\n" + msg.text
                 else msg.text;
    assert named == Header(msg, cfg) + msg.text by {
      if cfg.addChannelName && HasChannelName(msg) {
        assert CHANNEL_LABEL + msg.channelName.value + "\n\n" + msg.text
            == (CHANNEL_LABEL + msg.channelName.value + "\n\n") + msg.text;
      }
    }
    var stamped := if cfg.addTimestamp then named + "\n\n" + TIME_LABEL + localTime else named;
    assert stamped == named + Footer(cfg, localTime);
    match ActiveTemplate(cfg)
    case Some(template) => FillTemplate(template, msg.text, ChannelOrDefault(msg), localTime)
    case None => stamped
  }

  /**
   * With a template the result depends on the template, the ORIGINAL text,
   * the channel and the time only: the two decoration flags have no effect.
   */
  lemma TemplateOverridesFlags(msg: MessageData, cfg: Config, localTime: string, addTimestamp: bool, addChannelName: bool)
    requires ActiveTemplate(cfg).Some?
    ensures FormatMessage(msg, cfg, localTime)
         == FormatMessage(msg, cfg.(addTimestamp := addTimestamp, addChannelName := addChannelName), localTime)
         == FillTemplate(cfg.messageTemplate.value, msg.text, ChannelOrDefault(msg), localTime)
  {
  }

  /** A template without any placeholder is sent verbatim. */
  lemma TemplateWithoutPlaceholders(msg: MessageData, cfg: Config, localTime: string)
    requires ActiveTemplate(cfg).Some?
    requires !Contains(cfg.messageTemplate.value, MESSAGE_SLOT)
    requires !Contains(cfg.messageTemplate.value, CHANNEL_SLOT)
    requires !Contains(cfg.messageTemplate.value, TIME_SLOT)
    ensures FormatMessage(msg, cfg, localTime) == cfg.messageTemplate.value
  {
    var t := cfg.messageTemplate.value;
    ContainsIff(t, MESSAGE_SLOT);
    ContainsIff(t, CHANNEL_SLOT);
    ContainsIff(t, TIME_SLOT);
  }

  /** A message from channel "News" with names on and timestamps off. */
  lemma NamedMessageExample(localTime: string)
    ensures var msg := MessageData("hello", Some("News"), None, None, "");
            var cfg := Config(true, [], [], None, false, true);
            FormatMessage(msg, cfg, localTime) == "📢 من: News\n\nhello"
  {
  }

  /**
   * The replacements run one after the other on the growing result, so a
   * placeholder written in the message text itself is replaced as well: with
   * the template "{message}", a message reading "{channel}" is sent as the
   * channel's name.
   */
  lemma PlaceholderInTextIsReplaced(localTime: string)
    ensures var msg := MessageData("{channel}", Some("News"), None, None, "");
            var cfg := Config(true, [], [], Some("{message}"), true, true);
            FormatMessage(msg, cfg, localTime) == "News"
  {
    assert OccursAt(MESSAGE_SLOT, MESSAGE_SLOT, 0);
    assert ReplaceFirst(MESSAGE_SLOT, MESSAGE_SLOT, "{channel}") == "{channel}";
    assert OccursAt(CHANNEL_SLOT, CHANNEL_SLOT, 0);
    assert ReplaceFirst("{channel}", CHANNEL_SLOT, "News") == "News";
    assert forall j :: !OccursAt("News", TIME_SLOT, j);
  }

  // ---------------------------------------------------------------------
  // Addressing

  /** The chat id of a destination: its digits, in order, then `@c.us`. */
  function ChatId(number: string): (r: string)
    ensures |r| == |DigitsOnly(number)| + |CHAT_SUFFIX|
    ensures r[|r| - |CHAT_SUFFIX|..] == CHAT_SUFFIX
    ensures forall i :: 0 <= i < |r| - |CHAT_SUFFIX| ==> IsDigit(r[i])
    ensures r[..|r| - |CHAT_SUFFIX|] == DigitsOnly(number)
  {
    DigitsOnly(number) + CHAT_SUFFIX
  }

  /** Two numbers reach the same chat exactly when they have the same digits. */
  lemma ChatIdSameDigits(a: string, b: string)
    ensures ChatId(a) == ChatId(b) <==> DigitsOnly(a) == DigitsOnly(b)
  {
    if ChatId(a) == ChatId(b) {
      assert DigitsOnly(a) == ChatId(a)[..|DigitsOnly(a)|];
      assert DigitsOnly(b) == ChatId(b)[..|DigitsOnly(b)|];
    }
  }
}
