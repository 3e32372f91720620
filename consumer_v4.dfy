/** consumer_v4.0.py: consumer_v3.0.py plus the threshold alert. The append
    happens before the comparison, so a stored message whose amount cannot
    be compared with the threshold stays in its window and is rejected. */
module ConsumerV4 {
  import opened Payload
  import opened Routing
  import opened Window
  import opened Alerting
  import opened Broker
  import opened Pipeline
  import ConsumerV3

  /** The mailer attempts one effect produces. */
  function Attempts(alert: Option<Alert>, transport: Transport): seq<Attempt>
  {
    if alert.Some? then [Attempt(alert.value, transport)] else []
  }

  /** What `callback` does with one message, as a value. */
  function Step(windows: Windows, routingKey: string, decoded: Option<Json>): (e: Effect)
    // json.loads raised: rejected, nothing stored, no alert
    ensures decoded.None? ==> e == Effect(Nack(false, JsonDecodeError), windows, None)
    // reading bid_amount or timestamp raised: rejected before the append
    ensures decoded.Some? && !HasBidFields(decoded.value) ==>
              e == Effect(Nack(false, FieldFault(decoded.value)), windows, None)
    // only a stored message changes a window, and only its own category's
    ensures !Stores(windows, routingKey, decoded) ==> e.windows == windows && e.alert.None?
    ensures Stores(windows, routingKey, decoded) ==>
              e.windows == windows[Route(routingKey) := Appended(windows[Route(routingKey)], decoded.value)]
    // a stored message whose amount cannot be compared stays stored and is rejected
    ensures Stores(windows, routingKey, decoded) && GreaterThan(BidAmount(decoded.value), BidThreshold).Err? ==>
              e.outcome == Nack(false, TypeError)
    // acknowledged exactly when both reads succeed and the comparison, if reached, does not raise
    ensures e.outcome.Ack? <==>
              decoded.Some? && HasBidFields(decoded.value) &&
              (Route(routingKey) !in windows || GreaterThan(BidAmount(decoded.value), BidThreshold).Ok?)
    ensures e.outcome.Nack? ==> !e.outcome.requeue
    // an alert fires exactly for a stored message whose amount is strictly above the threshold
    ensures e.alert.Some? <==>
              Stores(windows, routingKey, decoded) && GreaterThan(BidAmount(decoded.value), BidThreshold) == Ok(true)
    ensures e.alert.Some? ==>
              && e.outcome == Ack
              && e.alert.value == HighBidAlert(Route(routingKey), BidAmount(decoded.value), Timestamp(decoded.value))
              && e.alert.value.bidAmount.JNumber? && e.alert.value.bidAmount.value > BidThreshold as real
  {
    match decoded
    case None => Effect(Nack(false, JsonDecodeError), windows, None)
    case Some(message) =>
      var itemType := Route(routingKey);
      match Subscript(message, "bid_amount")
      case Err(f) => Effect(Nack(false, f), windows, None)
      case Ok(bidAmount) =>
        match Subscript(message, "timestamp")
        case Err(f) => Effect(Nack(false, f), windows, None)
        case Ok(timestamp) =>
          if itemType !in windows then
            Effect(Ack, windows, None)
          else
            var stored := windows[itemType := Appended(windows[itemType], message)];
            match GreaterThan(bidAmount, BidThreshold)
            case Err(f) => Effect(Nack(false, f), stored, None)
            case Ok(high) =>
              Effect(Ack, stored, if high then Some(HighBidAlert(itemType, bidAmount, timestamp)) else None)
  }

  /** `callback(ch, method, properties, body)` with `body` already decoded:
      updates ROLLING_WINDOWS in place, hands a high bid to the mailer, and
      sends exactly one ack or nack. `transport` is how the e-mail attempt
      ends; nothing the callback does depends on it. */
  method Callback(store: WindowStore, ch: Channel, mailer: Mailer, deliveryTag: nat,
                  routingKey: string, decoded: Option<Json>, transport: Transport)
    requires store.Valid()
    modifies store, ch, mailer
    ensures store.Valid()
    ensures store.windows == Step(old(store.windows), routingKey, decoded).windows
    ensures ch.log == old(ch.log) + [Resolve(deliveryTag, Step(old(store.windows), routingKey, decoded).outcome)]
    ensures mailer.attempts ==
              old(mailer.attempts) + Attempts(Step(old(store.windows), routingKey, decoded).alert, transport)
  {
    if decoded.None? {
      ch.BasicNack(deliveryTag, false);
      return;
    }
    var message := decoded.value;
    var itemType := Route(routingKey);
    var bidAmount := Subscript(message, "bid_amount");
    if bidAmount.Err? {
      ch.BasicNack(deliveryTag, false);
      return;
    }
    var timestamp := Subscript(message, "timestamp");
    if timestamp.Err? {
      ch.BasicNack(deliveryTag, false);
      return;
    }
    if itemType in store.windows {
      store.Append(itemType, message);
      var high := GreaterThan(bidAmount.value, BidThreshold);
      if high.Err? {
        ch.BasicNack(deliveryTag, false);
        return;
      }
      if high.value {
        mailer.CreateAndSendEmailAlert(HighBidAlert(itemType, bidAmount.value, timestamp.value), transport);
      }
    }
    ch.BasicAck(deliveryTag);
  }

  /** The text the mailer receives for an alert: the subject names the
      capitalized category and the amount as Python prints it; the body
      names the amount, the category in lower case and the timestamp. */
  lemma AlertText(windows: Windows, routingKey: string, decoded: Option<Json>)
    requires windows.Keys == Categories
    requires Step(windows, routingKey, decoded).alert.Some?
    ensures var a := Step(windows, routingKey, decoded).alert.value;
            var amount := BidAmount(decoded.value).text;
            && IsScalar(a.bidAmount)
            && Subject(a) == "High Bid Alert: " + Capitalize(Route(routingKey)) + " - $" + amount
            && Capitalize(Route(routingKey)) in {"Electronics", "Furniture", "Art"}
            && (IsScalar(a.timestamp) ==>
                  Body(a) == "A high bid of $" + amount + " was placed on " + Route(routingKey)
                             + " at " + Str(Timestamp(decoded.value)) + ".")
            && (Timestamp(decoded.value).JString? ==>
                  Body(a) == "A high bid of $" + amount + " was placed on " + Route(routingKey)
                             + " at " + Timestamp(decoded.value).s + ".")
  {
    var a := Step(windows, routingKey, decoded).alert.value;
    assert a == HighBidAlert(Route(routingKey), BidAmount(decoded.value), Timestamp(decoded.value));
    CapitalizedCategories();
  }

  /** v4 stores exactly what v3 stores: adding the alert changed no window. */
  lemma StoresLikeV3(windows: Windows, routingKey: string, decoded: Option<Json>)
    ensures Step(windows, routingKey, decoded).windows == ConsumerV3.Step(windows, routingKey, decoded).windows
  {
  }

  /** The two versions disagree on the verdict exactly for a stored message
      whose amount cannot be compared with the threshold: v3 acknowledges
      it, v4 rejects it after storing it. */
  lemma VerdictDiffersFromV3(windows: Windows, routingKey: string, decoded: Option<Json>)
    ensures var v3 := ConsumerV3.Step(windows, routingKey, decoded).outcome;
            var v4 := Step(windows, routingKey, decoded).outcome;
            && (v3 != v4 <==> Stores(windows, routingKey, decoded)
                              && GreaterThan(BidAmount(decoded.value), BidThreshold).Err?)
            && (v3 != v4 ==> v3 == Ack && v4 == Nack(false, TypeError))
  {
  }

  /** The state after a sequence of deliveries, each run through `callback`
      in delivery order, with the verdicts and the alerts in that order. */
  datatype Trace = Trace(windows: Windows, outcomes: seq<Outcome>, alerts: seq<Alert>)

  function AlertList(alert: Option<Alert>): seq<Alert>
  {
    if alert.Some? then [alert.value] else []
  }

  function Run(windows: Windows, deliveries: seq<Delivery>): (t: Trace)
    // the key set never changes and no window outgrows its maxlen
    ensures t.windows.Keys == windows.Keys
    ensures Bounded(windows) ==> Bounded(t.windows)
    // one verdict per delivery, never a requeue
    ensures |t.outcomes| == |deliveries|
    ensures forall i :: 0 <= i < |t.outcomes| && t.outcomes[i].Nack? ==> !t.outcomes[i].requeue
    ensures |t.alerts| <= |deliveries|
    decreases |deliveries|
  {
    if deliveries == [] then Trace(windows, [], [])
    else
      var e := Step(windows, deliveries[0].routingKey, deliveries[0].decoded);
      var rest := Run(e.windows, deliveries[1..]);
      Trace(rest.windows, [e.outcome] + rest.outcomes, AlertList(e.alert) + rest.alerts)
  }

  /** One callback changes the window of `category` only by appending the
      message it stores there. */
  lemma StepWindow(windows: Windows, d: Delivery, category: string)
    requires category in windows
    ensures var e := Step(windows, d.routingKey, d.decoded);
            && category in e.windows
            && e.windows[category] ==
                 if StoredInto(category, d)
                 then Appended(windows[category], d.decoded.value)
                 else windows[category]
  {
  }

  /** After any sequence of deliveries, a category's window holds the last
      Capacity messages among its old contents and the messages stored into
      it since, oldest first. */
  lemma {:induction false} WindowIsNewestStored(windows: Windows, deliveries: seq<Delivery>, category: string)
    requires category in windows && |windows[category]| <= Capacity
    ensures category in Run(windows, deliveries).windows
    ensures Run(windows, deliveries).windows[category]
            == LastN(windows[category] + StoredMessages(category, deliveries), Capacity)
    decreases |deliveries|
  {
    if deliveries == [] {
      assert windows[category] + [] == windows[category];
    } else {
      var d := deliveries[0];
      var e := Step(windows, d.routingKey, d.decoded);
      var rest := deliveries[1..];
      var w := windows[category];
      StepWindow(windows, d, category);
      WindowIsNewestStored(e.windows, rest, category);
      assert Run(windows, deliveries).windows == Run(e.windows, rest).windows;
      if StoredInto(category, d) {
        var m := d.decoded.value;
        var later := StoredMessages(category, rest);
        AppendedThenMore(w, m, later);
        assert StoredMessages(category, deliveries) == [m] + later;
      } else {
        assert StoredMessages(category, deliveries) == StoredMessages(category, rest);
      }
    }
  }
}
