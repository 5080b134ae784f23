/**
 * The forwarding engine of the bridge server (telegram-to-whatsapp/app.js):
 * the process-wide readiness flag, configuration, statistics and pending
 * queue, updated in place by forwardToWhatsApp, processPendingMessages, the
 * config endpoint, the forward endpoint, the two start-up loads and the
 * midnight job. The WhatsApp client is a Transport object that logs every send
 * and answers success or failure unpredictably.
 */
module Engine {
  import opened Wrappers
  import opened BridgeModel
  import opened Formatter
  import opened Accounting

  /** One `sendMessage(chatId, text)` call. */
  datatype Attempt = Attempt(chatId: string, text: string)

  /**
   * The delivery side of the WhatsApp client: it records every send attempt
   * and, as a ghost log, every answer it gave (true when `sendMessage`
   * resolved, false when it threw).
   */
  class Transport {
    var sent: seq<Attempt>
    ghost var answers: seq<bool>

    constructor ()
      ensures sent == [] && answers == []
    {
      sent := [];
      answers := [];
    }

    /** Sends `text` to `chatId`; the answer is the outcome the client reports. */
    method SendMessage(chatId: string, text: string) returns (ok: bool)
      modifies this
      ensures sent == old(sent) + [Attempt(chatId, text)]
      ensures answers == old(answers) + [ok]
    {
      sent := sent + [Attempt(chatId, text)];
      ok :| true;
      answers := answers + [ok];
    }
  }

  /** What one send loop addresses: every target's chat, in order, with the same text. */
  function Fanout(targets: seq<string>, text: string): (r: seq<Attempt>)
    ensures |r| == |targets|
  {
    if targets == [] then []
    else Fanout(targets[..|targets| - 1], text) + [Attempt(ChatId(targets[|targets| - 1]), text)]
  }

  /** Attempt `j` of a send loop is the text to target `j`'s chat. */
  lemma {:induction false} FanoutAt(targets: seq<string>, text: string, j: nat)
    requires j < |targets|
    ensures Fanout(targets, text)[j] == Attempt(ChatId(targets[j]), text)
  {
    if j < |targets| - 1 {
      FanoutAt(targets[..|targets| - 1], text, j);
    }
  }

  lemma FanoutStep(targets: seq<string>, i: nat, text: string)
    requires i < |targets|
    ensures Fanout(targets[..i + 1], text) == Fanout(targets[..i], text) + [Attempt(ChatId(targets[i]), text)]
  {
    assert targets[..i + 1][..i] == targets[..i];
  }

  /** What forwarding one message sends while the client is ready. */
  function Sends(msg: MessageData, cfg: Config, localTime: string): seq<Attempt> {
    if cfg.enabled then Fanout(cfg.targetNumbers, FormatMessage(msg, cfg, localTime)) else []
  }

  /** What forwarding the messages one after the other sends. */
  function DrainSends(msgs: seq<MessageData>, cfg: Config, localTime: string): seq<Attempt> {
    if msgs == [] then []
    else DrainSends(msgs[..|msgs| - 1], cfg, localTime) + Sends(msgs[|msgs| - 1], cfg, localTime)
  }

  /** Forwarding two batches one after the other sends the first batch's attempts, then the second's. */
  lemma {:induction false} DrainSendsConcat(a: seq<MessageData>, b: seq<MessageData>, cfg: Config, localTime: string)
    ensures DrainSends(a + b, cfg, localTime) == DrainSends(a, cfg, localTime) + DrainSends(b, cfg, localTime)
    decreases |b|
  {
    if b == [] {
      assert a + b == a;
    } else {
      var b' := b[..|b| - 1];
      assert (a + b)[..|a + b| - 1] == a + b';
      DrainSendsConcat(a, b', cfg, localTime);
    }
  }

  /**
   * Draining is ordered message by message: everything message `i` sends
   * comes after everything the earlier messages send and before everything
   * the later ones send.
   */
  lemma DrainSendsOrder(msgs: seq<MessageData>, cfg: Config, localTime: string, i: nat)
    requires i < |msgs|
    ensures DrainSends(msgs, cfg, localTime)
         == DrainSends(msgs[..i], cfg, localTime) + Sends(msgs[i], cfg, localTime)
            + DrainSends(msgs[i + 1..], cfg, localTime)
  {
    assert msgs == msgs[..i] + [msgs[i]] + msgs[i + 1..];
    DrainSendsConcat(msgs[..i] + [msgs[i]], msgs[i + 1..], cfg, localTime);
    DrainSendsConcat(msgs[..i], [msgs[i]], cfg, localTime);
    assert DrainSends([msgs[i]], cfg, localTime) == Sends(msgs[i], cfg, localTime) by {
      assert [msgs[i]][..0] == [];
    }
  }

  /** While enabled, draining makes one attempt per message and target. */
  lemma {:induction false} DrainSendsLength(msgs: seq<MessageData>, cfg: Config, localTime: string)
    requires cfg.enabled
    ensures |DrainSends(msgs, cfg, localTime)| == |msgs| * |cfg.targetNumbers|
  {
    if msgs != [] {
      DrainSendsLength(msgs[..|msgs| - 1], cfg, localTime);
      assert (|msgs| - 1) * |cfg.targetNumbers| + |cfg.targetNumbers| == |msgs| * |cfg.targetNumbers|;
    }
  }

  /** While disabled, draining sends nothing. */
  lemma {:induction false} DrainSendsDisabled(msgs: seq<MessageData>, cfg: Config, localTime: string)
    requires !cfg.enabled
    ensures DrainSends(msgs, cfg, localTime) == []
  {
    if msgs != [] {
      DrainSendsDisabled(msgs[..|msgs| - 1], cfg, localTime);
    }
  }

  /** Appending a batch to a log that already holds `drained` after `base`. */
  lemma LogStep<T>(base: seq<T>, before: seq<T>, after: seq<T>, drained: seq<T>, step: seq<T>)
    requires before == base + drained && after == before + step
    ensures after == base + (drained + step)
  {
  }

  /**
   * One turn of the send loop: after the send to target `i` the send log, the
   * results and the statistics account for the first `i + 1` targets.
   */
  lemma SendStep(targets: seq<string>, i: nat, text: string, now: string,
                 base: seq<Attempt>, sentBefore: seq<Attempt>, sentAfter: seq<Attempt>,
                 initial: Stats, results: seq<DeliveryResult>, result: DeliveryResult, statsBefore: Stats)
    requires i < |targets| && result.number == targets[i]
    requires Conforms(results, targets[..i])
    requires sentBefore == base + Fanout(targets[..i], text)
    requires sentAfter == sentBefore + [Attempt(ChatId(targets[i]), text)]
    requires statsBefore == Account(initial, results, now)
    ensures Conforms(results + [result], targets[..i + 1])
    ensures sentAfter == base + Fanout(targets[..i + 1], text)
    ensures Record(statsBefore, result, now) == Account(initial, results + [result], now)
  {
    FanoutStep(targets, i, text);
    LogStep(base, sentBefore, sentAfter, Fanout(targets[..i], text), [Attempt(ChatId(targets[i]), text)]);
    AccountStep(initial, results, result, now);
    ConformsStep(results, targets, i, result);
  }

  /** One turn of the send loop, answer side: the new result carries the client's new answer. */
  lemma AnswerStep(base: seq<bool>, before: seq<bool>, after: seq<bool>,
                   results: seq<DeliveryResult>, result: DeliveryResult)
    requires before == base + Successes(results)
    requires after == before + [result.success]
    ensures after == base + Successes(results + [result])
  {
    assert (results + [result])[..|results|] == results;
    LogStep(base, before, after, Successes(results), [result.success]);
  }

  /** After a send loop, the counters grow by the client's new answers: forwarded by the delivered ones, errors by the others. */
  lemma CountsByAnswers(s: Stats, results: seq<DeliveryResult>, now: string, base: seq<bool>, answers: seq<bool>)
    requires answers == base + Successes(results)
    ensures var answered := answers[|base|..];
            && Account(s, results, now).totalForwarded == s.totalForwarded + Accepted(answered)
            && Account(s, results, now).errors == s.errors + (|answered| - Accepted(answered))
  {
    assert answers[|base|..] == Successes(results);
    AccountByAnswers(s, results, now);
  }

  /** What `forwardToWhatsApp` reports. */
  datatype ForwardOutcome =
    | Queued                                   // not ready: put on the pending queue
    | Disabled                                 // ready, but forwarding is switched off
    | Delivered(results: seq<DeliveryResult>)  // ready and enabled: one result per target

  /** The outcome a ready forward produces under `cfg`. */
  predicate ReadyOutcome(o: ForwardOutcome, cfg: Config) {
    if cfg.enabled then o.Delivered? && Conforms(o.results, cfg.targetNumbers) else o == Disabled
  }

  /** Every outcome is one a ready forward produces under `cfg`. */
  predicate AllReady(outcomes: seq<ForwardOutcome>, cfg: Config) {
    forall k :: 0 <= k < |outcomes| ==> ReadyOutcome(outcomes[k], cfg)
  }

  lemma AllReadyAppend(outcomes: seq<ForwardOutcome>, o: ForwardOutcome, cfg: Config)
    requires AllReady(outcomes, cfg) && ReadyOutcome(o, cfg)
    ensures AllReady(outcomes + [o], cfg)
  {
  }

  /** The delivery results of a sequence of outcomes, one batch after another. */
  function AllResults(outcomes: seq<ForwardOutcome>): seq<DeliveryResult> {
    if outcomes == [] then []
    else AllResults(outcomes[..|outcomes| - 1])
         + (match outcomes[|outcomes| - 1] case Delivered(rs) => rs case _ => [])
  }

  /**
   * One turn of the drain loop: after forwarding message `i` the send log and
   * the statistics account for the first `i + 1` messages.
   */
  lemma DrainStep(queue: seq<MessageData>, i: nat, cfg: Config, localTime: string, now: string,
                  base: seq<Attempt>, sentBefore: seq<Attempt>, sentAfter: seq<Attempt>,
                  initial: Stats, outcomes: seq<ForwardOutcome>, o: ForwardOutcome, statsBefore: Stats, statsAfter: Stats)
    requires i < |queue| && |outcomes| == i
    requires sentBefore == base + DrainSends(queue[..i], cfg, localTime)
    requires sentAfter == sentBefore + Sends(queue[i], cfg, localTime)
    requires statsBefore == Account(initial, AllResults(outcomes), now)
    requires AllReady(outcomes, cfg) && ReadyOutcome(o, cfg)
    requires !cfg.enabled ==> statsAfter == statsBefore
    requires cfg.enabled ==> statsAfter == Account(statsBefore, o.results, now)
    ensures sentAfter == base + DrainSends(queue[..i + 1], cfg, localTime)
    ensures statsAfter == Account(initial, AllResults(outcomes + [o]), now)
    ensures AllReady(outcomes + [o], cfg)
  {
    assert queue[..i + 1][..i] == queue[..i];
    LogStep(base, sentBefore, sentAfter, DrainSends(queue[..i], cfg, localTime), Sends(queue[i], cfg, localTime));
    DrainStatsStep(initial, outcomes, o, cfg, now, statsBefore, statsAfter);
    AllReadyAppend(outcomes, o, cfg);
  }

  /** The statistics half of one turn of the drain loop. */
  lemma DrainStatsStep(initial: Stats, outcomes: seq<ForwardOutcome>, o: ForwardOutcome, cfg: Config, now: string,
                       statsBefore: Stats, statsAfter: Stats)
    requires statsBefore == Account(initial, AllResults(outcomes), now)
    requires ReadyOutcome(o, cfg)
    requires !cfg.enabled ==> statsAfter == statsBefore
    requires cfg.enabled ==> statsAfter == Account(statsBefore, o.results, now)
    ensures statsAfter == Account(initial, AllResults(outcomes + [o]), now)
  {
    var batch := if o.Delivered? then o.results else [];
    AllResultsAppend(outcomes, o);
    AccountConcat(initial, AllResults(outcomes), batch, now);
  }

  /** The answer half of one turn of the drain loop. */
  lemma DrainAnswersStep(base: seq<bool>, outcomes: seq<ForwardOutcome>, o: ForwardOutcome, cfg: Config,
                         before: seq<bool>, after: seq<bool>)
    requires before == base + Successes(AllResults(outcomes))
    requires ReadyOutcome(o, cfg)
    requires !cfg.enabled ==> after == before
    requires cfg.enabled ==> after == before + Successes(o.results)
    ensures after == base + Successes(AllResults(outcomes + [o]))
  {
    AllResultsAppend(outcomes, o);
    if cfg.enabled {
      LogStep(base, before, after, Successes(AllResults(outcomes)), Successes(o.results));
      SuccessesConcat(AllResults(outcomes), o.results);
    } else {
      assert AllResults(outcomes) + [] == AllResults(outcomes);
    }
  }

  lemma AllResultsAppend(outcomes: seq<ForwardOutcome>, o: ForwardOutcome)
    ensures AllResults(outcomes + [o]) == AllResults(outcomes) + (if o.Delivered? then o.results else [])
  {
    assert (outcomes + [o])[..|outcomes|] == outcomes;
  }

  /** What the forward endpoint answers. */
  datatype ForwardResponse = BadRequest(error: RequestError) | Forwarded(outcome: ForwardOutcome)

  class ForwardingEngine {
    var ready: bool
    var config: Config
    var stats: Stats
    var pending: seq<MessageData>

    /** The state before `config.json` and `stats.json` are loaded and before the client is ready. */
    constructor ()
      ensures !ready && config == DEFAULT_CONFIG && stats == INITIAL_STATS && pending == []
    {
      ready := false;
      config := DEFAULT_CONFIG;
      stats := INITIAL_STATS;
      pending := [];
    }

    /**
     * Readiness is checked first: a message that arrives while the client is
     * not ready is queued, whether forwarding is enabled or not, and nothing
     * else changes. When ready and disabled nothing changes at all. Otherwise
     * the formatted text goes to every target in order, one result per target,
     * and the statistics account for exactly those results.
     */
    method ForwardToWhatsApp(msg: MessageData, localTime: string, now: string, transport: Transport)
      returns (outcome: ForwardOutcome)
      modifies this, transport
      ensures ready == old(ready) && config == old(config)
      ensures !ready ==> outcome == Queued && pending == old(pending) + [msg]
                         && stats == old(stats) && transport.sent == old(transport.sent)
      ensures ready ==> pending == old(pending) && ReadyOutcome(outcome, config)
                        && transport.sent == old(transport.sent) + Sends(msg, config, localTime)
      ensures ready && !config.enabled ==> stats == old(stats)
      ensures ready && config.enabled ==> stats == Account(old(stats), outcome.results, now)
      ensures !(ready && config.enabled) ==> transport.answers == old(transport.answers)
      ensures ready && config.enabled ==> transport.answers == old(transport.answers) + Successes(outcome.results)
      ensures ready && config.enabled ==>
                var answered := transport.answers[|old(transport.answers)|..];
                && stats.totalForwarded == old(stats.totalForwarded) + Accepted(answered)
                && stats.errors == old(stats.errors) + (|answered| - Accepted(answered))
    {
      if !ready {
        pending := pending + [msg];
        return Queued;
      }
      if !config.enabled {
        return Disabled;
      }
      var text := FormatMessage(msg, config, localTime);
      var results := SendToTargets(text, now, transport);
      outcome := Delivered(results);
      CountsByAnswers(old(stats), results, now, old(transport.answers), transport.answers);
    }

    /**
     * The send loop of a ready, enabled forward: the text goes to every target
     * in order, each answer of the client becomes that target's result, and
     * each result is counted in the statistics.
     */
    method SendToTargets(text: string, now: string, transport: Transport) returns (results: seq<DeliveryResult>)
      modifies this, transport
      ensures ready == old(ready) && config == old(config) && pending == old(pending)
      ensures Conforms(results, config.targetNumbers)
      ensures transport.sent == old(transport.sent) + Fanout(config.targetNumbers, text)
      ensures transport.answers == old(transport.answers) + Successes(results)
      ensures stats == Account(old(stats), results, now)
    {
      var targets := config.targetNumbers;
      results := [];
      var i := 0;
      while i < |targets|
        invariant 0 <= i <= |targets|
        invariant ready == old(ready) && config == old(config) && pending == old(pending)
        invariant Conforms(results, targets[..i])
        invariant transport.sent == old(transport.sent) + Fanout(targets[..i], text)
        invariant stats == Account(old(stats), results, now)
        invariant transport.answers == old(transport.answers) + Successes(results)
      {
        ghost var sentBefore, answersBefore := transport.sent, transport.answers;
        var ok := transport.SendMessage(ChatId(targets[i]), text);
        var result := DeliveryResult(targets[i], ok);
        SendStep(targets, i, text, now, old(transport.sent), sentBefore, transport.sent,
                 old(stats), results, result, stats);
        AnswerStep(old(transport.answers), answersBefore, transport.answers, results, result);
        results := results + [result];
        stats := Record(stats, result, now);
        i := i + 1;
      }
      assert targets[..i] == targets;
    }

    /**
     * Forwards every pending message, oldest first, then empties the queue,
     * whatever the individual outcomes: nothing is queued again. `outcomes`
     * are the reports of the individual forwards.
     */
    method ProcessPendingMessages(localTime: string, now: string, transport: Transport)
      returns (ghost outcomes: seq<ForwardOutcome>)
      requires ready
      modifies this, transport
      ensures ready && config == old(config) && pending == []
      ensures |outcomes| == |old(pending)|
      ensures AllReady(outcomes, config)
      ensures transport.sent == old(transport.sent) + DrainSends(old(pending), config, localTime)
      ensures stats == Account(old(stats), AllResults(outcomes), now)
      ensures transport.answers == old(transport.answers) + Successes(AllResults(outcomes))
    {
      outcomes := [];
      if |pending| == 0 {
        return;
      }
      var queue := pending;
      var i := 0;
      while i < |queue|
        invariant 0 <= i <= |queue|
        invariant ready && config == old(config) && pending == queue
        invariant |outcomes| == i
        invariant AllReady(outcomes, config)
        invariant transport.sent == old(transport.sent) + DrainSends(queue[..i], config, localTime)
        invariant stats == Account(old(stats), AllResults(outcomes), now)
        invariant transport.answers == old(transport.answers) + Successes(AllResults(outcomes))
      {
        ghost var sentBefore, statsBefore, answersBefore := transport.sent, stats, transport.answers;
        var o := ForwardToWhatsApp(queue[i], localTime, now, transport);
        DrainStep(queue, i, config, localTime, now, old(transport.sent), sentBefore, transport.sent,
                  old(stats), outcomes, o, statsBefore, stats);
        DrainAnswersStep(old(transport.answers), outcomes, o, config, answersBefore, transport.answers);
        outcomes := outcomes + [o];
        i := i + 1;
      }
      assert queue[..i] == queue;
      pending := [];
    }

    /** The client became ready: record it, then drain the queue. */
    method OnReady(localTime: string, now: string, transport: Transport)
      returns (ghost outcomes: seq<ForwardOutcome>)
      modifies this, transport
      ensures ready && config == old(config) && pending == []
      ensures |outcomes| == |old(pending)|
      ensures AllReady(outcomes, config)
      ensures transport.sent == old(transport.sent) + DrainSends(old(pending), config, localTime)
      ensures stats == Account(old(stats), AllResults(outcomes), now)
      ensures transport.answers == old(transport.answers) + Successes(AllResults(outcomes))
    {
      ready := true;
      outcomes := ProcessPendingMessages(localTime, now, transport);
    }

    /** The client disconnected: later messages are queued; nothing else changes. */
    method OnDisconnected()
      modifies this
      ensures !ready && config == old(config) && stats == old(stats) && pending == old(pending)
    {
      ready := false;
    }

    /** The config endpoint: a shallow merge of the posted object; the new configuration is returned. */
    method UpdateConfig(patch: ConfigPatch) returns (updated: Config)
      modifies this
      ensures config == MergeConfig(old(config), patch) && updated == config
      ensures ready == old(ready) && stats == old(stats) && pending == old(pending)
    {
      config := MergeConfig(config, patch);
      updated := config;
    }

    /** Start-up load of `config.json`; `None` is a missing or unreadable file. */
    method LoadConfig(file: Option<ConfigPatch>)
      modifies this
      ensures config == (if file.Some? then MergeConfig(old(config), file.value) else old(config))
      ensures ready == old(ready) && stats == old(stats) && pending == old(pending)
    {
      if file.Some? {
        config := MergeConfig(config, file.value);
      }
    }

    /** Start-up load of `stats.json`; `None` is a missing or unreadable file. */
    method LoadStats(file: Option<StatsPatch>)
      modifies this
      ensures stats == (if file.Some? then MergeStats(old(stats), file.value) else old(stats))
      ensures ready == old(ready) && config == old(config) && pending == old(pending)
    {
      if file.Some? {
        stats := MergeStats(stats, file.value);
      }
    }

    /** The midnight job: only the daily counter goes back to zero. */
    method ResetDaily()
      modifies this
      ensures stats == old(stats).(todayForwarded := 0)
      ensures ready == old(ready) && config == old(config) && pending == old(pending)
    {
      stats := stats.(todayForwarded := 0);
    }

    /**
     * The forward endpoint: a request without text is refused before anything
     * changes; any other is built into a message and forwarded.
     */
    method HandleForward(req: ForwardRequest, now: string, localTime: string, transport: Transport)
      returns (response: ForwardResponse)
      modifies this, transport
      ensures ready == old(ready) && config == old(config)
      ensures ParseForwardRequest(req, now).Err? ==>
                response == BadRequest(TextRequired) && pending == old(pending)
                && stats == old(stats) && transport.sent == old(transport.sent)
                && transport.answers == old(transport.answers)
      ensures ParseForwardRequest(req, now).Ok? ==>
                var msg := ParseForwardRequest(req, now).value;
                && response.Forwarded?
                && (!ready ==> response.outcome == Queued && pending == old(pending) + [msg]
                               && stats == old(stats) && transport.sent == old(transport.sent))
                && (ready ==> pending == old(pending) && ReadyOutcome(response.outcome, config)
                              && transport.sent == old(transport.sent) + Sends(msg, config, localTime))
                && (ready && !config.enabled ==> stats == old(stats))
                && (ready && config.enabled ==> stats == Account(old(stats), response.outcome.results, now))
                && (!(ready && config.enabled) ==> transport.answers == old(transport.answers))
                && (ready && config.enabled ==>
                      transport.answers == old(transport.answers) + Successes(response.outcome.results))
    {
      match ParseForwardRequest(req, now)
      case Err(e) =>
        response := BadRequest(e);
      case Ok(msg) =>
        var outcome := ForwardToWhatsApp(msg, localTime, now, transport);
        response := Forwarded(outcome);
    }
  }
}
