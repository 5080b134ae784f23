/**
 * The configuration editing of the bridge's dashboard
 * (telegram-to-whatsapp/public/script.js): the page keeps `currentConfig`, a
 * JSON object whose keys may be missing, and edits its target numbers, source
 * channels and keywords in place before posting the whole object to the
 * config endpoint; an activity log keeps the newest fifty entries.
 */
module Dashboard {
  import opened Wrappers
  import opened Text
  import opened Phone
  import opened BridgeModel
  import Formatter

  // ---------------------------------------------------------------------
  // Lists without duplicates

  predicate NoDuplicates(xs: seq<string>) {
    forall i, j :: 0 <= i < j < |xs| ==> xs[i] != xs[j]
  }

  /** `if (!list.includes(x)) list.push(x)`: a new entry goes to the end, a known one is refused. */
  function AddUnique(xs: seq<string>, x: string): (r: seq<string>)
    ensures x in r
    ensures x in xs ==> r == xs
    ensures x !in xs ==> |r| == |xs| + 1 && r[..|xs|] == xs && r[|xs|] == x
    ensures NoDuplicates(xs) ==> NoDuplicates(r)
  {
    if x in xs then xs else xs + [x]
  }

  /**
   * `if (list[index]) list.splice(index, 1)`: an index that holds a non-empty
   * entry loses exactly that entry, the others keep their order; any other
   * index changes nothing.
   */
  function RemoveAt(xs: seq<string>, index: int): (r: seq<string>)
    ensures !(0 <= index < |xs| && xs[index] != "") ==> r == xs
    ensures 0 <= index < |xs| && xs[index] != "" ==>
              && |r| == |xs| - 1
              && (forall k :: 0 <= k < index ==> r[k] == xs[k])
              && (forall k :: index <= k < |r| ==> r[k] == xs[k + 1])
              && multiset(r) + multiset{xs[index]} == multiset(xs)
  {
    if 0 <= index < |xs| && xs[index] != "" then
      assert xs == xs[..index] + [xs[index]] + xs[index + 1..];
      xs[..index] + xs[index + 1..]
    else xs
  }

  /** In a list without duplicates, a removed entry is gone and the rest stays duplicate-free. */
  lemma RemoveAtDistinct(xs: seq<string>, index: int)
    requires NoDuplicates(xs) && 0 <= index < |xs| && xs[index] != ""
    ensures xs[index] !in RemoveAt(xs, index)
    ensures NoDuplicates(RemoveAt(xs, index))
  {
    var r := RemoveAt(xs, index);
    forall k | 0 <= k < |r|
      ensures r[k] != xs[index]
    {
      if k < index {
        assert r[k] == xs[k];
      } else {
        assert r[k] == xs[k + 1];
      }
    }
    forall i, j | 0 <= i < j < |r|
      ensures r[i] != r[j]
    {
      var i' := if i < index then i else i + 1;
      var j' := if j < index then j else j + 1;
      assert r[i] == xs[i'] && r[j] == xs[j'];
    }
  }

  // ---------------------------------------------------------------------
  // Input checks

  datatype AddOutcome = Added | EmptyInput | InvalidNumber | AlreadyPresent

  /**
   * The number `addPhoneNumber` would store for a typed input: refused when
   * blank, normalised otherwise, and refused when the normalised form is
   * shorter than ten characters.
   */
  function NumberToAdd(input: string): (r: Result<string, AddOutcome>)
    ensures r == Err(EmptyInput) <==> Trim(input) == ""
    ensures r == Err(InvalidNumber) <==> Trim(input) != "" && |Normalize(Trim(input))| < MIN_NUMBER_LENGTH
    ensures r.Ok? ==> r.value == Normalize(Trim(input)) && |r.value| >= MIN_NUMBER_LENGTH
    ensures r.Ok? && !StartsWith(Trim(input), "+") ==> r.value == "+" + DigitsOnly(input)
  {
    var number := Trim(input);
    if number == "" then Err(EmptyInput)
    else
      var formatted := Normalize(number);
      if |formatted| < MIN_NUMBER_LENGTH then
        Err(InvalidNumber)
      else
        if !StartsWith(number, "+") then
          TrimKeepsDigits(input);
          Ok(formatted)
        else Ok(formatted)
  }

  /** What the sanitised phone field shows is stored as it is, once it is long enough. */
  lemma SanitizedNumberStoredAsShown(value: string)
    requires |Sanitize(value)| >= MIN_NUMBER_LENGTH
    ensures NumberToAdd(Sanitize(value)) == Ok(Sanitize(value))
  {
    var s := Sanitize(value);
    PlusNumberStoredAsTyped(s);
  }

  /** Numbers typed without '+' reach distinct chats exactly when they are stored as distinct numbers. */
  lemma NormalizedWithoutPlusDistinctChats(a: string, b: string)
    requires NumberToAdd(a).Ok? && NumberToAdd(b).Ok?
    requires !StartsWith(Trim(a), "+") && !StartsWith(Trim(b), "+")
    ensures Formatter.ChatId(NumberToAdd(a).value) == Formatter.ChatId(NumberToAdd(b).value)
        <==> NumberToAdd(a).value == NumberToAdd(b).value
  {
    var na, nb := NumberToAdd(a).value, NumberToAdd(b).value;
    DigitsWithPlus(DigitsOnly(a));
    DigitsWithPlus(DigitsOnly(b));
    FilterIdempotent(a, IsDigit);
    FilterIdempotent(b, IsDigit);
    Formatter.ChatIdSameDigits(na, nb);
  }

  /** A string made of digits and '+' only. */
  predicate PhoneCharsOnlyIn(s: string) {
    forall i :: 0 <= i < |s| ==> IsPhoneChar(s[i])
  }

  /** Long enough, a '+' first, and nothing but digits and '+'. */
  predicate PlusNumberShape(s: string) {
    |s| >= MIN_NUMBER_LENGTH && s[0] == '+' && PhoneCharsOnlyIn(s)
  }

  /** The phone field's sanitiser leaves `s` alone and `addPhoneNumber` stores it unchanged. */
  predicate StoredAsTyped(s: string) {
    Sanitize(s) == s && NumberToAdd(s) == Ok(s)
  }

  /**
   * A value that starts with '+', holds nothing but digits and '+' and is
   * long enough is left alone by the sanitiser and stored as it is.
   */
  lemma PlusValueStoredAsTyped(s: string)
    requires PlusNumberShape(s)
    ensures StoredAsTyped(s)
  {
    FilterIdentity(s, IsPhoneChar);
    PlusNumberStoredAsTyped(s);
  }

  /** A long enough number that starts with '+' and ends in a digit or '+' is stored as typed. */
  lemma PlusNumberStoredAsTyped(s: string)
    requires |s| >= MIN_NUMBER_LENGTH && s[0] == '+' && IsPhoneChar(s[|s| - 1])
    ensures NumberToAdd(s) == Ok(s)
  {
    assert StartsWith(s, "+") by {
      assert s[..1] == "+";
    }
    assert !IsJsWhitespace(s[0]) && !IsJsWhitespace(s[|s| - 1]);
    TrimUnchanged(s);
  }

  /**
   * A '+' may be typed anywhere, and a number that starts with one is stored
   * as typed, so two different stored numbers can name the same chat (for
   * instance "+12+34567890" and "+1234567890"): both have the shape that
   * survives the phone field's sanitiser and is stored as typed
   * (`PlusValueStoredAsTyped`), both pass the duplicate check, and that chat
   * receives every message twice.
   */
  lemma PlusNumbersCanShareChat(d1: string, d2: string)
    requires AllDigits(d1) && AllDigits(d2) && |d1| + |d2| >= MIN_NUMBER_LENGTH - 1
    ensures var a, b := "+" + d1 + "+" + d2, "+" + d1 + d2;
            && PlusNumberShape(a) && PlusNumberShape(b) && a != b
            && Formatter.ChatId(a) == Formatter.ChatId(b)
  {
    var a, b := "+" + d1 + "+" + d2, "+" + d1 + d2;
    PlusDigitsArePhoneChars(d1, "+", d2);
    assert b == "+" + d1 + "" + d2;
    PlusDigitsArePhoneChars(d1, "", d2);
    assert Formatter.ChatId(a) == Formatter.ChatId(b) by {
      assert a == ("+" + d1) + "+" + d2 && b == ("+" + d1) + "" + d2;
      DigitsAroundPlus("+" + d1, "+", d2);
      DigitsAroundPlus("+" + d1, "", d2);
      Formatter.ChatIdSameDigits(a, b);
    }
  }

  /** Digits are all the chat id sees: an extra '+' between two parts does not change them. */
  lemma DigitsAroundPlus(x: string, mid: string, y: string)
    requires mid == "+" || mid == ""
    ensures DigitsOnly(x + mid + y) == DigitsOnly(x + y)
  {
    FilterConcat(x + mid, y, IsDigit);
    FilterConcat(x, mid, IsDigit);
    FilterConcat(x, y, IsDigit);
  }

  lemma PlusDigitsArePhoneChars(d1: string, mid: string, d2: string)
    requires AllDigits(d1) && AllDigits(d2) && (mid == "+" || mid == "")
    ensures PhoneCharsOnlyIn("+" + d1 + mid + d2)
  {
    var s := "+" + d1 + mid + d2;
    forall i | 0 <= i < |s|
      ensures IsPhoneChar(s[i])
    {
      if 1 <= i < 1 + |d1| {
        assert s[i] == d1[i - 1];
      } else if 1 + |d1| + |mid| <= i {
        assert s[i] == d2[i - 1 - |d1| - |mid|];
      }
    }
  }

  /** The entry `addChannel` and `addKeyword` would store: the trimmed input, refused when blank. */
  function EntryToAdd(input: string): (r: Result<string, AddOutcome>)
    ensures r.Err? <==> AllWhitespace(input)
    ensures r.Err? ==> r.error == EmptyInput
    ensures r.Ok? ==> r.value == Trim(input) && r.value != [] && |r.value| <= |input|
  {
    var entry := Trim(input);
    if entry == "" then Err(EmptyInput) else Ok(entry)
  }

  /** `messageTemplate.value.trim() || null` */
  function TemplateFromInput(value: string): (r: Option<string>)
    ensures r.None? <==> AllWhitespace(value)
    ensures r.Some? ==> r.value == Trim(value) && r.value != ""
  {
    if Trim(value) == "" then None else Some(Trim(value))
  }

  /**
   * After the server merges a saved configuration, the template in force is
   * the trimmed template field, and none at all when the field was blank.
   */
  lemma SavedTemplateInForce(c: Config, body: ConfigPatch, value: string)
    requires body.messageTemplate == Some(TemplateFromInput(value))
    ensures Formatter.ActiveTemplate(MergeConfig(c, body)) == TemplateFromInput(value)
  {
  }

  // ---------------------------------------------------------------------
  // Activity log

  const LOG_CAPACITY := 50

  datatype LogEntry = LogEntry(time: string, message: string)

  /** One `addLogEntry`: the entry goes first, and the last one goes when there are more than fifty. */
  function PushLog(log: seq<LogEntry>, e: LogEntry): (r: seq<LogEntry>)
    ensures r != [] && r[0] == e
    ensures |log| < LOG_CAPACITY ==> r == [e] + log
    ensures |log| >= LOG_CAPACITY ==> |r| == |log| && r[1..] == log[..|log| - 1]
  {
    var grown := [e] + log;
    if |grown| > LOG_CAPACITY then grown[..|grown| - 1] else grown
  }

  function Reverse(s: seq<LogEntry>): (r: seq<LogEntry>)
    ensures |r| == |s|
    ensures forall i :: 0 <= i < |s| ==> r[i] == s[|s| - 1 - i]
  {
    if s == [] then [] else [s[|s| - 1]] + Reverse(s[..|s| - 1])
  }

  /** The log after the given entries were added one after the other. */
  function PushAll(log: seq<LogEntry>, es: seq<LogEntry>): seq<LogEntry> {
    if es == [] then log else PushLog(PushAll(log, es[..|es| - 1]), es[|es| - 1])
  }

  function Min(a: int, b: int): int {
    if a < b then a else b
  }

  /** Starting from an empty log, the log shows the newest fifty entries, newest first. */
  lemma {:induction false} LogKeepsNewest(es: seq<LogEntry>)
    ensures PushAll([], es) == Reverse(es)[..Min(|es|, LOG_CAPACITY)]
  {
    if es != [] {
      var init, e := es[..|es| - 1], es[|es| - 1];
      LogKeepsNewest(init);
      var before := Reverse(init)[..Min(|init|, LOG_CAPACITY)];
      assert Reverse(es) == [e] + Reverse(init);
      if |init| < LOG_CAPACITY {
        assert before == Reverse(init);
      } else {
        assert ([e] + Reverse(init))[..LOG_CAPACITY] == [e] + before[..|before| - 1];
      }
    }
  }

  // ---------------------------------------------------------------------
  // The page state

  class DashboardPage {
    /** The keys of `currentConfig` the bridge reads; `None` is a missing key. */
    var current: ConfigPatch
    /** `currentConfig.keywords_filter` */
    var keywordsFilter: Option<seq<string>>
    var log: seq<LogEntry>

    /** `currentConfig = {}` and an empty log. */
    constructor ()
      ensures current == NO_CONFIG_CHANGE && keywordsFilter == None && log == []
    {
      current := NO_CONFIG_CHANGE;
      keywordsFilter := None;
      log := [];
    }

    /**
     * `addPhoneNumber`: a blank or too short input changes nothing; otherwise
     * the list is created if missing and the normalised number appended
     * unless already there.
     */
    method AddPhoneNumber(input: string) returns (outcome: AddOutcome)
      modifies this
      ensures NumberToAdd(input).Err? ==> outcome == NumberToAdd(input).error && current == old(current)
      ensures NumberToAdd(input).Ok? ==>
                var n := NumberToAdd(input).value;
                var xs := old(current).targetNumbers.GetOr([]);
                && outcome == (if n in xs then AlreadyPresent else Added)
                && current == old(current).(targetNumbers := Some(AddUnique(xs, n)))
      ensures keywordsFilter == old(keywordsFilter) && log == old(log)
    {
      var number := Trim(input);
      if number == "" {
        return EmptyInput;
      }
      var formatted := number;
      if !StartsWith(formatted, "+") {
        formatted := "+" + DigitsOnly(formatted);
      }
      if |formatted| < MIN_NUMBER_LENGTH {
        return InvalidNumber;
      }
      if current.targetNumbers.None? {
        current := current.(targetNumbers := Some([]));
      }
      var xs := current.targetNumbers.value;
      if formatted in xs {
        return AlreadyPresent;
      }
      current := current.(targetNumbers := Some(xs + [formatted]));
      outcome := Added;
    }

    /** `removePhoneNumber` */
    method RemovePhoneNumber(index: int)
      modifies this
      ensures current == old(current).(targetNumbers :=
                if old(current).targetNumbers.Some? then Some(RemoveAt(old(current).targetNumbers.value, index))
                else None)
      ensures keywordsFilter == old(keywordsFilter) && log == old(log)
    {
      if current.targetNumbers.Some? {
        var xs := current.targetNumbers.value;
        if 0 <= index < |xs| && xs[index] != "" {
          current := current.(targetNumbers := Some(xs[..index] + xs[index + 1..]));
        }
      }
    }

    /** `addChannel`: the trimmed id is appended unless blank or already listed. */
    method AddChannel(input: string) returns (outcome: AddOutcome)
      modifies this
      ensures EntryToAdd(input).Err? ==> outcome == EmptyInput && current == old(current)
      ensures EntryToAdd(input).Ok? ==>
                var id := EntryToAdd(input).value;
                var xs := old(current).sourceChannels.GetOr([]);
                && outcome == (if id in xs then AlreadyPresent else Added)
                && current == old(current).(sourceChannels := Some(AddUnique(xs, id)))
      ensures keywordsFilter == old(keywordsFilter) && log == old(log)
    {
      var channelId := Trim(input);
      if channelId == "" {
        return EmptyInput;
      }
      if current.sourceChannels.None? {
        current := current.(sourceChannels := Some([]));
      }
      var xs := current.sourceChannels.value;
      if channelId in xs {
        return AlreadyPresent;
      }
      current := current.(sourceChannels := Some(xs + [channelId]));
      outcome := Added;
    }

    /** `removeChannel` */
    method RemoveChannel(index: int)
      modifies this
      ensures current == old(current).(sourceChannels :=
                if old(current).sourceChannels.Some? then Some(RemoveAt(old(current).sourceChannels.value, index))
                else None)
      ensures keywordsFilter == old(keywordsFilter) && log == old(log)
    {
      if current.sourceChannels.Some? {
        var xs := current.sourceChannels.value;
        if 0 <= index < |xs| && xs[index] != "" {
          current := current.(sourceChannels := Some(xs[..index] + xs[index + 1..]));
        }
      }
    }

    /** `addKeyword`: the trimmed keyword is appended unless blank or already listed. */
    method AddKeyword(input: string) returns (outcome: AddOutcome)
      modifies this
      ensures EntryToAdd(input).Err? ==> outcome == EmptyInput && keywordsFilter == old(keywordsFilter)
      ensures EntryToAdd(input).Ok? ==>
                var k := EntryToAdd(input).value;
                var xs := old(keywordsFilter).GetOr([]);
                && outcome == (if k in xs then AlreadyPresent else Added)
                && keywordsFilter == Some(AddUnique(xs, k))
      ensures current == old(current) && log == old(log)
    {
      var keyword := Trim(input);
      if keyword == "" {
        return EmptyInput;
      }
      if keywordsFilter.None? {
        keywordsFilter := Some([]);
      }
      var xs := keywordsFilter.value;
      if keyword in xs {
        return AlreadyPresent;
      }
      keywordsFilter := Some(xs + [keyword]);
      outcome := Added;
    }

    /** `removeKeyword` */
    method RemoveKeyword(index: int)
      modifies this
      ensures keywordsFilter == (if old(keywordsFilter).Some? then Some(RemoveAt(old(keywordsFilter).value, index))
                                 else None)
      ensures current == old(current) && log == old(log)
    {
      if keywordsFilter.Some? {
        var xs := keywordsFilter.value;
        if 0 <= index < |xs| && xs[index] != "" {
          keywordsFilter := Some(xs[..index] + xs[index + 1..]);
        }
      }
    }

    /** `addLogEntry`; `time` is the rendered clock reading. */
    method AddLogEntry(time: string, message: string)
      modifies this
      ensures log == PushLog(old(log), LogEntry(time, message))
      ensures |old(log)| <= LOG_CAPACITY ==> |log| <= LOG_CAPACITY
      ensures current == old(current) && keywordsFilter == old(keywordsFilter)
    {
      log := [LogEntry(time, message)] + log;
      if |log| > LOG_CAPACITY {
        log := log[..|log| - 1];
      }
    }

    /**
     * `saveConfiguration`: the form's switch, template and two check boxes are
     * written into `currentConfig`, which is then the body posted to the
     * config endpoint; the lists go as they are.
     */
    method SaveConfiguration(enabledChecked: bool, templateInput: string, addChannelNameChecked: bool,
                             addTimestampChecked: bool)
      returns (body: ConfigPatch)
      modifies this
      ensures body == current
      ensures current == old(current).(enabled := Some(enabledChecked),
                                       messageTemplate := Some(TemplateFromInput(templateInput)),
                                       addChannelName := Some(addChannelNameChecked),
                                       addTimestamp := Some(addTimestampChecked))
      ensures keywordsFilter == old(keywordsFilter) && log == old(log)
    {
      var template := Trim(templateInput);
      current := current.(enabled := Some(enabledChecked),
                          messageTemplate := Some(if template == "" then None else Some(template)),
                          addChannelName := Some(addChannelNameChecked),
                          addTimestamp := Some(addTimestampChecked));
      body := current;
    }
  }
}
