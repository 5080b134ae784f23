/**
 * The statistics bookkeeping of one forwarding call on the bridge server:
 * every successful send adds one to both forwarded counters and stamps
 * `lastForwarded`, every failed one adds one to `errors`
 * (telegram-to-whatsapp/app.js, the send loop of forwardToWhatsApp).
 */
module Accounting {
  import opened Wrappers
  import opened BridgeModel

  /** One entry of the `results` array: the number as configured and whether the send went through. */
  datatype DeliveryResult = DeliveryResult(number: string, success: bool)

  /** The results line up with the targets: one entry per number, in the same order. */
  predicate Conforms(results: seq<DeliveryResult>, targets: seq<string>) {
    |results| == |targets| && forall i :: 0 <= i < |targets| ==> results[i].number == targets[i]
  }

  function SuccessCount(results: seq<DeliveryResult>): (n: nat)
    ensures n <= |results|
    ensures n == 0 <==> forall i :: 0 <= i < |results| ==> !results[i].success
  {
    if results == [] then 0
    else SuccessCount(results[..|results| - 1]) + (if results[|results| - 1].success then 1 else 0)
  }

  /** The counter updates of one send. */
  function Record(s: Stats, result: DeliveryResult, now: string): Stats
  {
    if result.success
    then s.(totalForwarded := s.totalForwarded + 1,
            todayForwarded := s.todayForwarded + 1,
            lastForwarded := Some(now))
    else s.(errors := s.errors + 1)
  }

  /**
   * One send counts once: as forwarded, on both counters and with the stamp
   * moved to `now`, when it went through, and as an error otherwise.
   */
  lemma RecordCounts(s: Stats, result: DeliveryResult, now: string)
    ensures var r := Record(s, result, now);
            && r.totalForwarded + r.errors == s.totalForwarded + s.errors + 1
            && r.totalForwarded == s.totalForwarded + (if result.success then 1 else 0)
            && r.todayForwarded - s.todayForwarded == r.totalForwarded - s.totalForwarded
            && r.lastForwarded == (if result.success then Some(now) else s.lastForwarded)
  {
  }

  /**
   * The statistics after the sends that produced `results`, starting from `s`:
   * both forwarded counters grow by the successes, `errors` by the failures,
   * and `lastForwarded` moves to `now` exactly when something went through.
   */
  function Account(s: Stats, results: seq<DeliveryResult>, now: string): (r: Stats)
    ensures r.totalForwarded == s.totalForwarded + SuccessCount(results)
    ensures r.todayForwarded == s.todayForwarded + SuccessCount(results)
    ensures r.errors == s.errors + (|results| - SuccessCount(results))
    ensures r.lastForwarded == if SuccessCount(results) > 0 then Some(now) else s.lastForwarded
  {
    if results == [] then s
    else Record(Account(s, results[..|results| - 1], now), results[|results| - 1], now)
  }

  lemma AccountStep(s: Stats, results: seq<DeliveryResult>, result: DeliveryResult, now: string)
    ensures Account(s, results + [result], now) == Record(Account(s, results, now), result, now)
  {
    assert (results + [result])[..|results|] == results;
  }

  lemma ConformsStep(results: seq<DeliveryResult>, targets: seq<string>, i: nat, result: DeliveryResult)
    requires i < |targets| && Conforms(results, targets[..i]) && result.number == targets[i]
    ensures Conforms(results + [result], targets[..i + 1])
  {
  }

  /** Accounting two batches one after the other is accounting them together. */
  lemma {:induction false} AccountConcat(s: Stats, a: seq<DeliveryResult>, b: seq<DeliveryResult>, now: string)
    ensures Account(s, a + b, now) == Account(Account(s, a, now), b, now)
    decreases |b|
  {
    if b == [] {
      assert a + b == a;
    } else {
      var b' := b[..|b| - 1];
      assert (a + b)[..|a + b| - 1] == a + b';
      AccountConcat(s, a, b', now);
    }
  }

  /** The success flags of the results, in order. */
  function Successes(results: seq<DeliveryResult>): (r: seq<bool>)
    ensures |r| == |results|
    ensures forall j :: 0 <= j < |results| ==> r[j] == results[j].success
  {
    if results == [] then [] else Successes(results[..|results| - 1]) + [results[|results| - 1].success]
  }

  lemma SuccessesConcat(a: seq<DeliveryResult>, b: seq<DeliveryResult>)
    ensures Successes(a + b) == Successes(a) + Successes(b)
  {
  }

  /** How many of the client's answers report a delivery. */
  function Accepted(answers: seq<bool>): (n: nat)
    ensures n <= |answers|
  {
    if answers == [] then 0 else Accepted(answers[..|answers| - 1]) + (if answers[|answers| - 1] then 1 else 0)
  }

  /** Counting successful results is counting the delivered answers they carry. */
  lemma {:induction false} SuccessCountIsAccepted(results: seq<DeliveryResult>)
    ensures SuccessCount(results) == Accepted(Successes(results))
  {
    if results != [] {
      var init := results[..|results| - 1];
      SuccessCountIsAccepted(init);
      assert Successes(results)[..|results| - 1] == Successes(init);
    }
  }

  /**
   * The counters after a send loop, read against the client's answers: forwarded
   * grows by the delivered answers, errors by the others.
   */
  lemma AccountByAnswers(s: Stats, results: seq<DeliveryResult>, now: string)
    ensures Account(s, results, now).totalForwarded == s.totalForwarded + Accepted(Successes(results))
    ensures Account(s, results, now).todayForwarded == s.todayForwarded + Accepted(Successes(results))
    ensures Account(s, results, now).errors == s.errors + (|results| - Accepted(Successes(results)))
  {
    SuccessCountIsAccepted(results);
  }

  /**
   * Three targets of which the second fails: two more forwarded, one more
   * error, and exactly one failed entry, the second.
   */
  lemma PartialFailureScenario(s: Stats, a: string, b: string, c: string, now: string)
    ensures var results := [DeliveryResult(a, true), DeliveryResult(b, false), DeliveryResult(c, true)];
            var r := Account(s, results, now);
            && Conforms(results, [a, b, c])
            && r.totalForwarded == s.totalForwarded + 2
            && r.todayForwarded == s.todayForwarded + 2
            && r.errors == s.errors + 1
            && r.lastForwarded == Some(now)
            && (forall i :: 0 <= i < 3 && !results[i].success ==> i == 1)
  {
    var results := [DeliveryResult(a, true), DeliveryResult(b, false), DeliveryResult(c, true)];
    assert results[..2] == [DeliveryResult(a, true), DeliveryResult(b, false)];
    assert results[..2][..1] == [DeliveryResult(a, true)];
  }
}
