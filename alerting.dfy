/** BID_THRESHOLD, the threshold test `bid_amount > BID_THRESHOLD`, the text
    of a high-bid alert, and the e-mail sender as the callback sees it. */
module Alerting {
  import opened Payload

  const BidThreshold: int := 800

  function BoolToInt(b: bool): int
  {
    if b then 1 else 0
  }

  /** Python's `value > threshold` for an int threshold: numbers compare by
      value, a bool compares as 0 or 1, anything else raises TypeError. */
  function GreaterThan(value: Json, threshold: int): (r: Result<bool>)
    ensures r.Ok? <==> value.JNumber? || value.JBool?
    ensures r.Err? ==> r.fault == TypeError
    ensures r == Ok(true) <==> (value.JNumber? && value.value > threshold as real)
                               || (value.JBool? && BoolToInt(value.b) > threshold)
  {
    match value
    case JNumber(v, _) => Ok(v > threshold as real)
    case JBool(b) => Ok(BoolToInt(b) > threshold)
    case _ => Err(TypeError)
  }

  /** The threshold test is strict and never fires for a bool. */
  lemma ThresholdIsStrict(value: Json)
    ensures value.JNumber? && value.value == BidThreshold as real ==> GreaterThan(value, BidThreshold) == Ok(false)
    ensures value.JBool? ==> GreaterThan(value, BidThreshold) == Ok(false)
    ensures GreaterThan(value, BidThreshold) == Ok(true) ==> value.JNumber? && value.value > BidThreshold as real
  {
  }

  function Upper(c: char): char
  {
    if 'a' <= c <= 'z' then (c as int - 32) as char else c
  }

  function Lower(c: char): char
  {
    if 'A' <= c <= 'Z' then (c as int + 32) as char else c
  }

  /** `str.capitalize()` on ASCII text: first character upper case, the rest lower case. */
  function Capitalize(s: string): (r: string)
    ensures |r| == |s|
    ensures |s| > 0 ==> r[0] == Upper(s[0])
    ensures forall i :: 0 < i < |s| ==> r[i] == Lower(s[i])
  {
    if s == [] then [] else [Upper(s[0])] + seq(|s| - 1, i requires 0 <= i < |s| - 1 => Lower(s[i + 1]))
  }

  predicate IsLowerWord(s: string)
  {
    forall i :: 0 <= i < |s| ==> 'a' <= s[i] <= 'z'
  }

  /** A word already in lower case is its own capitalization but for its
      first letter, which becomes `expected[0]`. */
  lemma {:induction false} CapitalizeLowerWord(s: string, expected: string)
    requires s != [] && IsLowerWord(s)
    requires expected == [Upper(s[0])] + s[1..]
    ensures Capitalize(s) == expected
  {
    var r := Capitalize(s);
    assert forall i :: 0 < i < |s| ==> r[i] == s[i];
  }

  lemma CapitalizedCategories()
    ensures Capitalize("electronics") == "Electronics"
    ensures Capitalize("furniture") == "Furniture"
    ensures Capitalize("art") == "Art"
  {
    CapitalizeLowerWord("electronics", "Electronics");
    CapitalizeLowerWord("furniture", "Furniture");
    CapitalizeLowerWord("art", "Art");
  }

  /** What the callback hands to the mailer for one high bid. */
  datatype Alert = HighBidAlert(category: string, bidAmount: Json, timestamp: Json)

  /** `f"High Bid Alert: {item_type.capitalize()} - ${bid_amount}"` */
  function Subject(a: Alert): string
    requires IsScalar(a.bidAmount)
  {
    "High Bid Alert: " + Capitalize(a.category) + " - $" + Str(a.bidAmount)
  }

  /** `f"A high bid of ${bid_amount} was placed on {item_type} at {timestamp}."` */
  function Body(a: Alert): string
    requires IsScalar(a.bidAmount) && IsScalar(a.timestamp)
  {
    "A high bid of $" + Str(a.bidAmount) + " was placed on " + a.category + " at " + Str(a.timestamp) + "."
  }

  /** How an attempt to e-mail an alert ends: sent, or failed at one of the
      three stages whose exceptions the sender catches and prints. */
  datatype Transport = Sent | SecretsOrMessageError | ConnectOrTlsError | LoginOrSendError

  datatype Attempt = Attempt(alert: Alert, transport: Transport)

  /** createAndSendEmailAlert, as an append-only log of attempts. */
  class Mailer {
    var attempts: seq<Attempt>

    constructor ()
      ensures attempts == []
    {
      attempts := [];
    }

    /** Every failure is caught inside the sender, so a call that
        terminates returns normally, whatever `transport` says happened. */
    method CreateAndSendEmailAlert(alert: Alert, transport: Transport)
      modifies this
      ensures attempts == old(attempts) + [Attempt(alert, transport)]
    {
      attempts := attempts + [Attempt(alert, transport)];
    }
  }
}
