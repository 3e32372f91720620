/** consumer_v3.0.py: decode, route, read the two fields for the log line,
    append to the category's window, acknowledge. No alerting. */
module ConsumerV3 {
  import opened Payload
  import opened Routing
  import opened Window
  import opened Broker
  import opened Pipeline

  /** What `callback` does with one message, as a value. */
  function Step(windows: Windows, routingKey: string, decoded: Option<Json>): (e: Effect)
    // json.loads raised: rejected, nothing stored
    ensures decoded.None? ==> e == Effect(Nack(false, JsonDecodeError), windows, None)
    // a field read in the log line raised: rejected before the append
    ensures decoded.Some? && !HasBidFields(decoded.value) ==>
              e == Effect(Nack(false, FieldFault(decoded.value)), windows, None)
    // only a stored message changes a window, and only its own category's
    ensures !Stores(windows, routingKey, decoded) ==> e.windows == windows
    ensures Stores(windows, routingKey, decoded) ==>
              e.windows == windows[Route(routingKey) := Appended(windows[Route(routingKey)], decoded.value)]
    // acknowledged exactly when both reads succeed, whatever the category or the amount's type
    ensures e.outcome.Ack? <==> decoded.Some? && HasBidFields(decoded.value)
    ensures e.outcome.Nack? ==> !e.outcome.requeue
    ensures e.alert.None?
  {
    match decoded
    case None => Effect(Nack(false, JsonDecodeError), windows, None)
    case Some(message) =>
      var itemType := Route(routingKey);
      match Subscript(message, "bid_amount")
      case Err(f) => Effect(Nack(false, f), windows, None)
      case Ok(_) =>
        match Subscript(message, "timestamp")
        case Err(f) => Effect(Nack(false, f), windows, None)
        case Ok(_) =>
          if itemType in windows then
            Effect(Ack, windows[itemType := Appended(windows[itemType], message)], None)
          else
            Effect(Ack, windows, None)
  }

  /** `callback(ch, method, properties, body)` with `body` already decoded:
      updates ROLLING_WINDOWS in place and sends one ack or nack. */
  method Callback(store: WindowStore, ch: Channel, deliveryTag: nat, routingKey: string, decoded: Option<Json>)
    requires store.Valid()
    modifies store, ch
    ensures store.Valid()
    ensures store.windows == Step(old(store.windows), routingKey, decoded).windows
    ensures ch.log == old(ch.log) + [Resolve(deliveryTag, Step(old(store.windows), routingKey, decoded).outcome)]
  {
    if decoded.None? {
      ch.BasicNack(deliveryTag, false);
      return;
    }
    var message := decoded.value;
    var itemType := Route(routingKey);
    var bidAmount := Subscript(message, "bid_amount");
    if bidAmount.Err? {
      ch.BasicNack(deliveryTag, false);
      return;
    }
    var timestamp := Subscript(message, "timestamp");
    if timestamp.Err? {
      ch.BasicNack(deliveryTag, false);
      return;
    }
    if itemType in store.windows {
      store.Append(itemType, message);
    }
    ch.BasicAck(deliveryTag);
  }
}
