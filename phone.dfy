/**
 * Phone-number handling shared by the two browser front ends: the
 * normalisation `addPhoneNumber` applies before storing a destination, and the
 * keystroke sanitiser both phone inputs install.
 */
module Phone {
  import opened Text

  /** Shortest number (in characters, the '+' included) either form accepts. */
  const MIN_NUMBER_LENGTH := 10

  /**
   * Normalisation of an already trimmed input: kept as typed when it starts
   * with '+', otherwise '+' followed by its digits only.
   */
  function Normalize(trimmed: string): (r: string)
    ensures StartsWith(r, "+")
    ensures StartsWith(trimmed, "+") ==> r == trimmed
    ensures !StartsWith(trimmed, "+") ==>
              |r| == 1 + |DigitsOnly(trimmed)| && forall i :: 1 <= i < |r| ==> IsDigit(r[i])
    ensures !StartsWith(trimmed, "+") ==> DigitsOnly(r) == DigitsOnly(trimmed)
  {
    if StartsWith(trimmed, "+") then trimmed
    else
      DigitsWithPlus(DigitsOnly(trimmed));
      FilterIdempotent(trimmed, IsDigit);
      "+" + DigitsOnly(trimmed)
  }

  /**
   * The `input` listener on a phone field: keep digits and '+', then put a
   * '+' in front of a non-empty value that lacks one.
   */
  function Sanitize(value: string): (r: string)
    ensures forall i :: 0 <= i < |r| ==> IsPhoneChar(r[i])
    ensures r == [] <==> PhoneCharsOnly(value) == []
    ensures r != [] ==> r[0] == '+'
    ensures DigitsOnly(r) == DigitsOnly(value)
    ensures r == PhoneCharsOnly(value) || r == "+" + PhoneCharsOnly(value)
    ensures PhoneCharsOnly(value) != [] && PhoneCharsOnly(value)[0] == '+' ==> r == PhoneCharsOnly(value)
  {
    var kept := PhoneCharsOnly(value);
    DigitsOfPhoneChars(value);
    if kept != [] && kept[0] != '+' then
      DigitsWithPlus(kept);
      "+" + kept
    else kept
  }

  lemma DigitsWithPlus(s: string)
    ensures DigitsOnly("+" + s) == DigitsOnly(s)
  {
    assert ("+" + s)[0] == '+' && ("+" + s)[1..] == s;
  }

  /** Dropping everything but digits and '+' loses no digit, nor reorders them. */
  lemma {:induction false} DigitsOfPhoneChars(s: string)
    ensures DigitsOnly(PhoneCharsOnly(s)) == DigitsOnly(s)
  {
    if s != [] {
      DigitsOfPhoneChars(s[1..]);
      var head := if IsPhoneChar(s[0]) then [s[0]] else [];
      assert PhoneCharsOnly(s) == head + PhoneCharsOnly(s[1..]);
      FilterConcat(head, PhoneCharsOnly(s[1..]), IsDigit);
    }
  }

  /** A sanitised value is left as it is by the sanitiser. */
  lemma SanitizeIdempotent(value: string)
    ensures Sanitize(Sanitize(value)) == Sanitize(value)
  {
    var r := Sanitize(value);
    FilterIdentity(r, IsPhoneChar);
  }
}
