/**
 * The two halves of the bridge together: what the forward endpoint of the
 * server (telegram-to-whatsapp/app.js) answers the Telegram bot
 * (telegram-to-whatsapp/telegram_bot.py), and how the bot's counters read
 * that answer.
 */
module Pipeline {
  import opened Wrappers
  import opened BridgeModel
  import opened Accounting
  import Engine
  import TelegramBot

  /**
   * The HTTP answer of the forward endpoint: 400 for a request without text;
   * otherwise 200 with the `success` of forwardToWhatsApp, which is true for a
   * send loop that ran, whatever its individual results.
   */
  function EndpointReply(response: Engine.ForwardResponse): (r: TelegramBot.HttpReply)
    ensures r.Reply?
    ensures response.BadRequest? ==> r.status == 400 && !r.success
    ensures TelegramBot.Delivered(r) <==> response.Forwarded? && response.outcome.Delivered?
  {
    match response
    case BadRequest(_) => TelegramBot.Reply(400, false)
    case Forwarded(outcome) => TelegramBot.Reply(200, outcome.Delivered?)
  }

  /**
   * For a post the bot forwards, the bot counts a forward exactly when the
   * server was ready and forwarding was enabled; it counts an error when the
   * server only queued the message, although the queue is sent later.
   */
  lemma BotCountsForwardOnlyWhenSent(o: Engine.ForwardOutcome, ready: bool, cfg: Config)
    requires !ready ==> o == Engine.Queued
    requires ready ==> Engine.ReadyOutcome(o, cfg)
    ensures TelegramBot.Delivered(EndpointReply(Engine.Forwarded(o))) <==> ready && cfg.enabled
  {
  }

  /**
   * A send loop counts as one forwarded post on the bot's side even when
   * every individual send failed and the server counted only errors.
   */
  lemma FailedSendsCountAsForwarded(s: TelegramBot.BotStats, p: TelegramBot.Payload, results: seq<DeliveryResult>,
                                    stats: Stats, now: string)
    requires results != [] && forall i :: 0 <= i < |results| ==> !results[i].success
    ensures var r := TelegramBot.Bookkeep(s, TelegramBot.Forward(p), EndpointReply(Engine.Forwarded(Engine.Delivered(results))), now);
            r.messagesForwarded == s.messagesForwarded + 1 && r.errors == s.errors
    ensures var a := Account(stats, results, now);
            a.totalForwarded == stats.totalForwarded && a.errors == stats.errors + |results|
  {
  }
}
