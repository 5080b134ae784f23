# Telegram → WhatsApp bridge, modelled in Dafny

The bridge has four parts:

- **Telegram bot** (`telegram_bot.py`). It watches channels. Each channel
  post is checked, in order, against:
  - the monitored-channel list;
  - the presence of text;
  - the enable switch and the keyword filter.

  A post that passes is cut to the length limit and posted to the bridge
  server's forward endpoint. The bot keeps counters of received, filtered,
  forwarded and failed posts.
- **Bridge server** (`app.js`). It keeps four things in process-wide
  variables: a readiness flag for the WhatsApp client, a forwarding
  configuration, forwarding statistics and a pending queue. A message that
  arrives while the client is not ready is queued. The queue is drained when
  the client reports ready. A message that arrives while the client is ready
  and forwarding is enabled goes through these steps:
  - it is decorated with the channel line and a timestamp, or filled into
    the configured template;
  - it is sent to every target number's chat (`<digits>@c.us`), one after
    the other;
  - each send is counted in the statistics.

  The config endpoint merges a posted object into the configuration. A
  midnight job resets the daily counter.
- **Dashboard** (`public/script.js`). It edits a copy of the configuration:
  target numbers, source channels, keywords and the template. It then posts
  the whole copy to the config endpoint. It also keeps an activity log of
  the newest fifty entries.
- **WhatsApp control panel** (`whatsapp-panel/public/script.js`). It tracks
  a connection flag from the server's socket events. It checks the
  test-message form before asking the server to send.

The modules follow that structure:

| file | module | what |
|---|---|---|
| `wrappers.dfy` | `Wrappers` | `Option`, `Result` |
| `text.dfy` | `Text` | JavaScript `trim`, regex character filters, `indexOf`/first-occurrence `replace`, Python `in`, ASCII `lower`, `str(int)` |
| `phone.dfy` | `Phone` | the dashboard's number normalisation and the keystroke sanitiser both pages install |
| `bridge_model.dfy` | `BridgeModel` | the server's configuration, statistics and message records; the shallow merges; the forward endpoint's input check |
| `formatter.dfy` | `Formatter` | the outgoing text and the chat id of a number |
| `accounting.dfy` | `Accounting` | the statistics effect of one send loop |
| `engine.dfy` | `Engine` | the class `ForwardingEngine` (server state, updated in place) and the class `Transport` (the WhatsApp client's send log) |
| `telegram_bot.dfy` | `TelegramBot` | the filter, the length cut, the gatekeeping of a post, the counters; the class `TelegramForwardingBot` |
| `dashboard.dfy` | `Dashboard` | the list edits, the template field, the activity log; the class `DashboardPage` |
| `panel.dfy` | `Panel` | the connection flag and the test-message submit check; the class `StatusPanel` |
| `pipeline.dfy` | `Pipeline` | how the bot's counters read the server's answer |

### Behaviour worth knowing

- **Channel line.** The server's channel line is `📢 من: ` followed by the
  channel name, then a blank line before the text.
- **Template placeholders.** `{message}`, `{channel}` and `{time}` are
  replaced with JavaScript's `replace` and a string pattern. That replaces
  the first occurrence only. The three replacements run one after another
  on the growing text, so a placeholder inside the message text is
  replaced too (`Formatter.PlaceholderInTextIsReplaced`).
- **Readiness comes first.** A message that arrives while the client is not
  ready is queued even when forwarding is disabled. A message that arrives
  while the client is ready and forwarding is disabled is dropped, not
  queued.
- **`success` in the forward endpoint's answer.** It is true for every send
  loop that ran, even one in which every send failed. It is false when the
  message was only queued, although the queue is sent later. So the bot
  counts a queued post as an error and an all-failed loop as forwarded
  (`Pipeline.BotCountsForwardOnlyWhenSent`,
  `Pipeline.FailedSendsCountAsForwarded`).
- **A '+' anywhere in a number.** A number typed with a leading '+' is
  stored as typed. The keystroke sanitiser lets '+' through anywhere. So
  two different stored numbers can name the same chat, and that chat then
  receives every message twice (`Dashboard.PlusNumbersCanShareChat`).

Clocks, the network and the WhatsApp client are inputs:

- `localTime` is the `DD/MM/YYYY HH:mm` rendering of the clock.
- `now` is the ISO timestamp.
- A `Transport` records every send and answers success or failure
  arbitrarily.
- An `HttpReply` is the forward endpoint's answer as the bot sees it.
- An `Option` stands for a file that may be missing or unreadable.

## Model

| member | source | states |
|---|---|---|
| Text.Filter | telegram-to-whatsapp/app.js:224 | the kept characters are at most as many as the input's and all pass the test; with Text.FilterSingle and Text.FilterConcat, a character is kept exactly when it passes, in its original order |
| Text.FilterSingle | telegram-to-whatsapp/app.js:224 | a single character is kept exactly when it passes the test |
| Text.FilterConcat | telegram-to-whatsapp/app.js:224 | filtering distributes over concatenation |
| Text.FilterIdentity | whatsapp-panel/public/script.js:210 | a string is left unchanged by a filter exactly when every character passes it |
| Text.FilterIdempotent | telegram-to-whatsapp/public/script.js:518 | filtering twice with the same regex is filtering once |
| Text.Trim | telegram-to-whatsapp/public/script.js:191 | the result is a contiguous middle of the input whose prefix and suffix outside it are all white space, and it has no white space at either end; it is empty exactly when the input is all white space; an input without white space comes back unchanged |
| Text.TrimUnchanged | telegram-to-whatsapp/public/script.js:191 | a non-empty string with no white space at its ends is its own trim |
| Text.TrimKeepsFiltered | whatsapp-panel/public/script.js:179-193 | trimming never changes what a white-space-free character filter keeps |
| Text.TrimKeepsDigits | telegram-to-whatsapp/public/script.js:191-200 | trimming keeps every digit, in order |
| Text.TrimKeepsPhoneChars | whatsapp-panel/public/script.js:179-193 | trimming keeps every digit and '+', in order |
| Text.IndexFrom | telegram-to-whatsapp/app.js:214-217 | the result is the first position at or after the start where the pattern occurs; none means no occurrence from there on |
| Text.ContainsIff | telegram-to-whatsapp/telegram_bot.py:120 | Python's `in` holds exactly when the pattern occurs at some position |
| Text.ReplaceFirst | telegram-to-whatsapp/app.js:214-217 | a text without the pattern is returned unchanged; otherwise the first occurrence, and only it, is replaced and the text around it kept |
| Text.ReplaceFirstAt | telegram-to-whatsapp/app.js:214-217 | when the pattern does not occur before a given occurrence, that occurrence is the one replaced |
| Text.Lower | telegram-to-whatsapp/telegram_bot.py:118-120 | the result has the input's length and no upper-case ASCII letter; every other character stays in place; each upper-case letter becomes the lower-case letter at the same alphabet position |
| Text.LowerIdempotent | telegram-to-whatsapp/telegram_bot.py:118-120 | lower-casing twice is lower-casing once |
| Text.NatToDecimal | telegram-to-whatsapp/telegram_bot.py:176 | the rendering is a non-empty digit string with no leading zero |
| Text.DecimalRoundTrip | telegram-to-whatsapp/telegram_bot.py:176 | reading the rendered digits back gives the number |
| Text.IntToDecimal | telegram-to-whatsapp/telegram_bot.py:176 | a non-negative id renders as digits, a negative one as '-' then digits |
| Text.IntToDecimalInjective | telegram-to-whatsapp/telegram_bot.py:176 | two chat ids render alike exactly when they are equal |
| Phone.Normalize | telegram-to-whatsapp/public/script.js:198-201 | the result starts with '+'; an input starting with '+' is kept as typed; any other becomes '+' followed by exactly its digits, in order |
| Phone.Sanitize | telegram-to-whatsapp/public/script.js:517-525 | the field is the typed value's digits and '+' signs, in order, with a '+' put in front unless that already starts it; it holds only digits and '+', starts with '+' when non-empty, is empty exactly when the typed value had no digit or '+', and keeps every digit in order |
| Phone.DigitsOfPhoneChars | whatsapp-panel/public/script.js:210 | keeping digits and '+' loses no digit and reorders none |
| Phone.SanitizeIdempotent | whatsapp-panel/public/script.js:209-218 | a sanitised field is left as it is by the next keystroke's sanitising |
| BridgeModel.MergeConfig | telegram-to-whatsapp/app.js:287 | every field the posted object supplies overwrites; every other keeps its value; an empty object changes nothing |
| BridgeModel.MergeConfigCompose | telegram-to-whatsapp/app.js:287 | two successive updates are one update with the later values winning |
| BridgeModel.MergeFullConfigIgnoresPrior | telegram-to-whatsapp/app.js:287 | an update naming every field sets the whole configuration, whatever it was |
| BridgeModel.MergeConfigIdempotent | telegram-to-whatsapp/app.js:287 | posting the same update twice is posting it once |
| BridgeModel.MergeStats | telegram-to-whatsapp/app.js:83 | every counter the saved file names overwrites the current one with the saved value; the others stay; an empty file changes nothing |
| BridgeModel.MergeStatsCompose | telegram-to-whatsapp/app.js:83 | merging two saved files one after the other is merging one file with the later values winning |
| BridgeModel.MergeStatsIdempotent | telegram-to-whatsapp/app.js:83 | merging the same file twice is merging it once |
| BridgeModel.ParseForwardRequest | telegram-to-whatsapp/app.js:301-313 | a request is refused exactly when its text is absent or empty; otherwise the message keeps the request's fields and its timestamp defaults to the current time |
| Formatter.Header | telegram-to-whatsapp/app.js:204-206 | the channel line is present exactly when names are on and the message has a non-empty name, and it is then exactly the label `📢 من: `, the name and a blank line |
| Formatter.Footer | telegram-to-whatsapp/app.js:208-211 | the time line is present exactly when timestamps are on, and it is then exactly a blank line, the label `⏰ ` and the local time |
| Formatter.FormatMessage | telegram-to-whatsapp/app.js:202-218 | without a template the text is sent intact between the optional channel line and the optional time line; with one, the template is filled with the text, the channel or its default, and the time |
| Formatter.FillTemplate | telegram-to-whatsapp/app.js:213-218 | a template without any of the three placeholders is returned unchanged |
| Formatter.ReplaceSlot | telegram-to-whatsapp/app.js:214-217 | a placeholder preceded only by brace-free text is replaced where it stands |
| Formatter.FillTemplateSubstitutes | telegram-to-whatsapp/app.js:213-218 | a template holding `{message}`, `{channel}` and `{time}` once each, in that order, with brace-free text and values around them, becomes the template with the three values in their places |
| Formatter.TemplateOverridesFlags | telegram-to-whatsapp/app.js:213-218 | with a template the two decoration flags have no effect; the template is filled with the original text, the channel or its default, and the time |
| Formatter.TemplateWithoutPlaceholders | telegram-to-whatsapp/app.js:213-218 | a template without placeholders is sent verbatim |
| Formatter.NamedMessageExample | telegram-to-whatsapp/app.js:202-206 | a message from "News" with names on and timestamps off is sent as the channel line, a blank line, and the text |
| Formatter.PlaceholderInTextIsReplaced | telegram-to-whatsapp/app.js:214-217 | a placeholder written in the message text is itself replaced by the next replacement |
| Formatter.ChatId | telegram-to-whatsapp/app.js:224-225 | the chat id is exactly the number's digits, in order, followed by `@c.us` |
| Formatter.ChatIdSameDigits | telegram-to-whatsapp/app.js:224-225 | two numbers reach the same chat exactly when they have the same digits |
| Accounting.SuccessCount | telegram-to-whatsapp/app.js:228-239 | the successes are at most the results and are zero exactly when every send failed |
| Accounting.RecordCounts | telegram-to-whatsapp/app.js:228-240 | one send adds exactly one to forwarded plus errors; forwarded grows exactly on success, the daily counter with it, and the stamp moves to the send's time exactly on success |
| Accounting.Account | telegram-to-whatsapp/app.js:228-240 | both forwarded counters grow by the successes, errors by the failures, and the last-forwarded stamp moves exactly when something went through |
| Accounting.AccountStep | telegram-to-whatsapp/app.js:227-241 | the statistics after one more send are that send's update of the previous statistics |
| Accounting.AccountConcat | telegram-to-whatsapp/app.js:175-182 | accounting two send loops one after the other is accounting their results together |
| Accounting.Successes | telegram-to-whatsapp/app.js:228-239 | the success flags are one per result, in order, each that result's flag |
| Accounting.SuccessCountIsAccepted | telegram-to-whatsapp/app.js:228-240 | the successful results are exactly as many as the delivered answers among their flags |
| Accounting.AccountByAnswers | telegram-to-whatsapp/app.js:228-240 | after a send loop both forwarded counters grow by the delivered answers and errors by the failed ones |
| Accounting.PartialFailureScenario | telegram-to-whatsapp/app.js:221-245 | three targets of which the second fails: two forwarded, one error, one result per target in order, and only the second marked failed |
| Engine.Transport.SendMessage | telegram-to-whatsapp/app.js:227 | every send is appended to the client's log, and the client's answer (delivered, or thrown) to its answer log |
| Engine.Fanout | telegram-to-whatsapp/app.js:222-227 | one send loop makes one attempt per target |
| Engine.FanoutAt | telegram-to-whatsapp/app.js:222-227 | attempt j of a send loop carries the formatted text to target j's chat |
| Engine.DrainSendsConcat | telegram-to-whatsapp/app.js:175-182 | draining two batches sends the first batch's attempts and then the second's |
| Engine.DrainSendsOrder | telegram-to-whatsapp/app.js:175-182 | everything message i sends comes after everything the earlier queued messages send and before everything the later ones send |
| Engine.DrainSendsLength | telegram-to-whatsapp/app.js:175-182 | while enabled, draining makes one attempt per queued message and target |
| Engine.DrainSendsDisabled | telegram-to-whatsapp/app.js:196-198 | while disabled, draining sends nothing |
| Engine.DrainStep | telegram-to-whatsapp/app.js:175-182 | after forwarding queued message i, the send log and the statistics account for the first i + 1 messages |
| Engine.DrainAnswersStep | telegram-to-whatsapp/app.js:175-182 | after forwarding queued message i, the client's new answers are the success flags of the first i + 1 messages' results |
| Engine.AnswerStep | telegram-to-whatsapp/app.js:227-239 | after the send to target i, the client's new answers are the success flags of the first i + 1 results |
| Engine.CountsByAnswers | telegram-to-whatsapp/app.js:228-240 | when the new answers are the results' flags, forwarded grows by the delivered answers and errors by the others |
| Engine.ForwardingEngine.constructor | telegram-to-whatsapp/app.js:32-53 | the server starts not ready, with the default configuration, zeroed statistics and an empty queue |
| Engine.ForwardingEngine.ForwardToWhatsApp | telegram-to-whatsapp/app.js:189-256 | not ready: the message is queued and nothing else changes; ready and disabled: nothing changes; otherwise exactly the fan-out of the formatted text is sent, one result per target in order, each result's success is the client's answer to that send, and forwarded grows by the delivered answers and errors by the failed ones |
| Engine.ForwardingEngine.SendToTargets | telegram-to-whatsapp/app.js:221-246 | the text goes to every target's chat in order, each result is that target's number with the client's answer, and the statistics account for exactly those results |
| Engine.ForwardingEngine.ProcessPendingMessages | telegram-to-whatsapp/app.js:170-186 | the queue is forwarded oldest first and then emptied; the send log grows by the drain's attempts, the client's answers are the success flags of all the outcomes' results, in order, and the statistics account for those results |
| Engine.ForwardingEngine.OnReady | telegram-to-whatsapp/app.js:133-149 | the client is marked ready and the queue is drained, with the send log, the client's answers and the statistics as ProcessPendingMessages states them |
| Engine.ForwardingEngine.OnDisconnected | telegram-to-whatsapp/app.js:152-157 | the client is marked not ready; configuration, statistics and queue stay |
| Engine.ForwardingEngine.UpdateConfig | telegram-to-whatsapp/app.js:285-292 | the configuration becomes the merge of the posted object, which is returned; nothing else changes |
| Engine.ForwardingEngine.LoadConfig | telegram-to-whatsapp/app.js:56-66 | a readable file is merged into the configuration; a missing one changes nothing |
| Engine.ForwardingEngine.LoadStats | telegram-to-whatsapp/app.js:79-88 | a readable file is merged into the statistics; a missing one changes nothing |
| Engine.ForwardingEngine.ResetDaily | telegram-to-whatsapp/app.js:371-375 | only the daily counter goes back to zero |
| Engine.ForwardingEngine.HandleForward | telegram-to-whatsapp/app.js:299-316 | a request without text is refused with nothing changed; any other is forwarded with the effects of ForwardToWhatsApp, so a ready server with forwarding off keeps its statistics, and an enabled one records one result per client answer, carrying that answer |
| TelegramBot.MergeBotConfig | telegram-to-whatsapp/telegram_bot.py:68-69 | every key the section supplies overwrites with the supplied value; the others stay |
| TelegramBot.MergeBotConfigCompose | telegram-to-whatsapp/telegram_bot.py:68-69 | merging two sections one after the other is merging one section with the later values winning |
| TelegramBot.MergeBotConfigIdempotent | telegram-to-whatsapp/telegram_bot.py:68-69 | merging the same section twice is merging it once |
| TelegramBot.MergeBotStats | telegram-to-whatsapp/telegram_bot.py:96-98 | every saved counter overwrites with the saved value; the others stay |
| TelegramBot.MergeBotStatsCompose | telegram-to-whatsapp/telegram_bot.py:96-98 | merging two saved counter files one after the other is merging one with the later values winning |
| TelegramBot.MergeBotStatsIdempotent | telegram-to-whatsapp/telegram_bot.py:96-98 | merging the same saved counters twice is merging them once |
| TelegramBot.AnyKeyword | telegram-to-whatsapp/telegram_bot.py:119-122 | the keyword loop answers true exactly when some keyword occurs in the text, ignoring case |
| TelegramBot.ShouldForward | telegram-to-whatsapp/telegram_bot.py:110-125 | nothing passes while disabled; everything passes with no keywords; otherwise a post passes exactly when one of the keywords occurs in it, ignoring case |
| TelegramBot.ShouldForwardIgnoresCase | telegram-to-whatsapp/telegram_bot.py:118-120 | a post and its lower-cased form are filtered alike |
| TelegramBot.KeywordPassesItself | telegram-to-whatsapp/telegram_bot.py:116-121 | while enabled, a post that is one of the keywords passes |
| TelegramBot.PyPrefix | telegram-to-whatsapp/telegram_bot.py:132 | the slice is a prefix of the text; a bound within the text gives exactly that many characters; a negative bound counts from the end; a bound past the end gives the whole text |
| TelegramBot.Truncate | telegram-to-whatsapp/telegram_bot.py:127-134 | a text within the limit is unchanged; a longer one is a prefix of it followed by `...`, exactly the limit plus three long for a non-negative limit; a non-empty text stays non-empty |
| TelegramBot.TruncateIdempotent | telegram-to-whatsapp/telegram_bot.py:127-134 | with a non-negative limit, cutting a cut text changes nothing |
| TelegramBot.ChannelName | telegram-to-whatsapp/telegram_bot.py:177 | a non-empty title is the name; without one the name is `قناة ` ("channel") followed by the chat id; the name is never empty |
| TelegramBot.MessageText | telegram-to-whatsapp/telegram_bot.py:186 | a non-empty text is used as it is; otherwise the caption; the result is empty exactly when both are absent or empty |
| TelegramBot.ToForwardRequest | telegram-to-whatsapp/telegram_bot.py:203-209 | the request carries the payload's text, channel name and id and timestamp, and a message id whose decimal digits read back as the post's id, with a '-' in front of a negative one |
| TelegramBot.Gatekeep | telegram-to-whatsapp/telegram_bot.py:179-209 | a post is dropped as unmonitored, as textless or as filtered exactly under those conditions, in that order; a forwarded post carries the cut text, the channel's name and id, the message id and the time |
| TelegramBot.MonitoredExactly | telegram-to-whatsapp/telegram_bot.py:176-181 | a monitored list naming one channel admits that chat and no other |
| TelegramBot.ForwardedPostAccepted | telegram-to-whatsapp/app.js:301-313 | a post the bot forwards is never refused by the forward endpoint for lack of text, and arrives with the cut text and the channel's name |
| TelegramBot.Bookkeep | telegram-to-whatsapp/telegram_bot.py:171-197 | every post counts as received and stamps the activity time; then a filtered post counts as filtered, a forwarded post as forwarded when the server reported success and as an error otherwise |
| TelegramBot.BookkeepBalanced | telegram-to-whatsapp/telegram_bot.py:148-197 | filtered, forwarded and failed posts never outnumber the received ones; each post adds at most one to them |
| TelegramBot.TelegramForwardingBot.constructor | telegram-to-whatsapp/telegram_bot.py:34-59 | the bot starts from the defaults and merges the saved section and counters when they can be read |
| TelegramBot.TelegramForwardingBot.LoadConfig | telegram-to-whatsapp/telegram_bot.py:61-72 | only the `telegram` section is merged; a file without one changes nothing |
| TelegramBot.TelegramForwardingBot.LoadStats | telegram-to-whatsapp/telegram_bot.py:93-100 | the saved counters are merged over the current ones |
| TelegramBot.TelegramForwardingBot.ForwardToWhatsApp | telegram-to-whatsapp/telegram_bot.py:136-160 | success exactly on a 200 answer reporting success, counted as forwarded; anything else, a failed connection included, counts as an error |
| TelegramBot.TelegramForwardingBot.HandleChannelMessage | telegram-to-whatsapp/telegram_bot.py:162-214 | an update without a channel post changes nothing; otherwise the counters follow the post's gate and the server's answer, and a payload is sent exactly when the gate forwards |
| Dashboard.AddUnique | telegram-to-whatsapp/public/script.js:212-217 | the entry is in the result; a known entry leaves the list unchanged; a new one is appended at the end; a duplicate-free list stays duplicate-free |
| Dashboard.RemoveAt | telegram-to-whatsapp/public/script.js:223-228 | an index holding a non-empty entry loses exactly that entry and the rest keep their order; any other index changes nothing |
| Dashboard.RemoveAtDistinct | telegram-to-whatsapp/public/script.js:223-228 | in a duplicate-free list the removed entry is gone and the rest stays duplicate-free |
| Dashboard.NumberToAdd | telegram-to-whatsapp/public/script.js:190-206 | a blank input is refused as empty; a normalised number shorter than ten characters is refused as invalid; any other is stored normalised, and one typed without '+' as '+' and its digits |
| Dashboard.SanitizedNumberStoredAsShown | telegram-to-whatsapp/public/script.js:517-525 | what the sanitised phone field shows is stored as it is, once it has ten characters |
| Dashboard.NormalizedWithoutPlusDistinctChats | telegram-to-whatsapp/public/script.js:198-201 | numbers typed without '+' reach the same chat exactly when they are stored as the same number |
| Dashboard.PlusValueStoredAsTyped | telegram-to-whatsapp/public/script.js:198-203 | a long enough value of digits and '+' that starts with '+' is left alone by the sanitiser and stored as typed |
| Dashboard.PlusNumberStoredAsTyped | telegram-to-whatsapp/public/script.js:198-203 | a long enough number that starts with '+' and ends in a digit or '+' is stored as typed |
| Dashboard.PlusNumbersCanShareChat | telegram-to-whatsapp/public/script.js:198-217 | for any digits, the number with an inner '+' and the one without are both stored as typed, differ, and name the same chat |
| Dashboard.EntryToAdd | telegram-to-whatsapp/public/script.js:231-236 | a channel or keyword input is refused exactly when it is blank; otherwise the trimmed, non-empty input is stored |
| Dashboard.TemplateFromInput | telegram-to-whatsapp/public/script.js:296 | the template is null exactly when the field is blank, and otherwise the trimmed field |
| Dashboard.SavedTemplateInForce | telegram-to-whatsapp/public/script.js:292-298 | after the server merges a saved configuration, the template in force is the trimmed template field, and none when the field was blank |
| Dashboard.PushLog | telegram-to-whatsapp/public/script.js:100-105 | the new entry goes first; below fifty entries nothing is lost; at fifty or more the oldest entry goes and the length stays |
| Dashboard.LogKeepsNewest | telegram-to-whatsapp/public/script.js:100-105 | starting empty, the log shows the newest fifty entries, newest first |
| Dashboard.DashboardPage.constructor | telegram-to-whatsapp/public/script.js:42 | the page starts with an empty configuration object and an empty log |
| Dashboard.DashboardPage.AddPhoneNumber | telegram-to-whatsapp/public/script.js:190-221 | a refused input changes nothing; otherwise the list is created if missing and the normalised number added unless already there, and the outcome says which |
| Dashboard.DashboardPage.RemovePhoneNumber | telegram-to-whatsapp/public/script.js:223-229 | the number list loses the entry at a valid non-empty index; nothing else changes |
| Dashboard.DashboardPage.AddChannel | telegram-to-whatsapp/public/script.js:231-251 | a blank input changes nothing; otherwise the trimmed id is added to the (created if missing) list unless already there |
| Dashboard.DashboardPage.RemoveChannel | telegram-to-whatsapp/public/script.js:253-259 | the channel list loses the entry at a valid non-empty index; nothing else changes |
| Dashboard.DashboardPage.AddKeyword | telegram-to-whatsapp/public/script.js:261-281 | a blank input changes nothing; otherwise the trimmed keyword is added to the (created if missing) list unless already there |
| Dashboard.DashboardPage.RemoveKeyword | telegram-to-whatsapp/public/script.js:283-289 | the keyword list loses the entry at a valid non-empty index; nothing else changes |
| Dashboard.DashboardPage.AddLogEntry | telegram-to-whatsapp/public/script.js:90-106 | the log becomes PushLog of the new entry and never grows past fifty |
| Dashboard.DashboardPage.SaveConfiguration | telegram-to-whatsapp/public/script.js:292-300 | the switch, the template and the two check boxes are written into the configuration object, which is the posted body; the lists are untouched |
| Panel.StatusUpdate | whatsapp-panel/public/script.js:95-149 | an event shows a connection exactly when it is a ready event or a status answer reporting a ready client; the lost-server, scan, disconnection, authentication and session events show none; the others leave the status alone |
| Panel.ConnectedOnlyAfterReady | whatsapp-panel/public/script.js:26-30 | the page is connected only when the last event that changed the status reported a connection, or when it started connected and no event changed the status |
| Panel.StatusPanel.constructor | whatsapp-panel/public/script.js:22-23 | the page starts disconnected with no client details |
| Panel.StatusPanel.UpdateStatus | whatsapp-panel/public/script.js:26-30 | the flag and the indicator text are set together; the client details stay |
| Panel.StatusPanel.HandleEvent | whatsapp-panel/public/script.js:95-149 | the flag and text follow the event's status update, and a ready or a disconnection sets the client details |
| Panel.ValidateSubmit | whatsapp-panel/public/script.js:176-206 | a blank field refuses first, then a disconnected page, then a cleaned number shorter than ten; a submit that passes sends the cleaned number and the trimmed, non-empty message |
| Panel.NoSendWhileDisconnected | whatsapp-panel/public/script.js:121-129 | after the client's disconnection nothing is sent until a later event reports it ready again |
| Panel.SanitizedFieldSentAsShown | whatsapp-panel/public/script.js:209-218 | a sanitised phone field of ten or more characters is sent exactly as it is shown |
| Pipeline.EndpointReply | telegram-to-whatsapp/app.js:303-316 | a request without text gets 400 and no success; the bot sees a delivery exactly when a send loop ran |
| Pipeline.BotCountsForwardOnlyWhenSent | telegram-to-whatsapp/telegram_bot.py:148-155 | the bot counts a forward exactly when the server was ready and forwarding enabled; a queued post counts as an error |
| Pipeline.FailedSendsCountAsForwarded | telegram-to-whatsapp/app.js:237-256 | a send loop whose every send failed counts as forwarded for the bot while the server counts only errors |

## Left out

- The WhatsApp client itself is not modelled. That covers creating it, QR login, `initialize`, destroying and restarting it (the restart endpoint), and the authentication-failure handler, which only emits an event. Readiness is the one flag its `ready` and `disconnected` events set.
- File, HTTP and socket I/O are not modelled: reading and writing `config.json`, `stats.json` and `telegram_stats.json`, the Express routes' JSON plumbing, the Socket.IO emits and aiohttp. Loaded files are `Option` inputs; `save_config`, `saveStats` and `save_stats` have no effect on the model.
- Delays are not modelled: the one-second pause between sends, the two-second pause between queued messages, and the bot's `message_delay` sleep.
- The midnight schedule is not modelled; its effect is the `ResetDaily` operation.
- Each call reads the clock once. The two readings of the template path and the per-send `lastForwarded` stamps are the one `localTime`/`now` input of that call. Engine.ForwardingEngine.ProcessPendingMessages and Engine.ForwardingEngine.OnReady take one `localTime`/`now` for the whole drain, where each forwarded message reads the clock afresh, two seconds or more after the previous one.
- The outer `catch` blocks are not modelled: app.js 258-263 (an exception outside the per-number sends), the 500 answers of the endpoints, and telegram_bot.py 229-232. Any of them needs an exception that the model's inputs cannot raise.
- Error and notification message texts are not modelled, and neither is DOM rendering (lists, QR section, login panel, notifications) or the private bot commands and Telegram error handler.
- Engine.ForwardingEngine.ProcessPendingMessages: requires the client to be ready. Its only caller is the `ready` handler. The model also treats the drain as uninterrupted, so a message queued while the drain is still running, and then dropped when the queue is cleared, is not captured.
- Engine.ForwardingEngine.ForwardToWhatsApp: omits the redundant `!whatsappClient` test. Once the client has reported ready it exists.
- Text.Lower: lower-cases ASCII letters only, where Python lower-cases all of Unicode.
- Text.ReplaceFirst: treats the replacement literally. JavaScript would interpret `$`-patterns such as `$&` in the message text or channel name.
- Dashboard.NumberToAdd, Dashboard.DashboardPage.AddPhoneNumber: measure the ten-character minimum in code points. JavaScript's `length` counts UTF-16 units, so a number containing characters outside the Basic Multilingual Plane would measure differently.
- TelegramBot.ToForwardRequest: sends the message id as its decimal rendering. The server passes it through untouched.
- The `keywords_filter` key that the dashboard posts is carried by the server's merge but is not part of the server configuration record: the server never reads it. The page keeps it in its own field.
- The dashboard's page state only follows its own edits. Its reassignment of `currentConfig` from the server's status and update events is not modelled.
- Extra JSON keys and values of unexpected types are not modelled. Every field has the type the code uses.
- whatsapp-panel/server.js, telegram-to-whatsapp/demo.js, whatsapp-panel/demo.js, bot.py and demo.py are not part of this model.
