/** What both consumer versions share: the effect of one callback on the
    windows, and which messages end up in which window. */
module Pipeline {
  import opened Payload
  import opened Routing
  import opened Window
  import opened Alerting
  import opened Broker

  /** The result of one callback: its verdict, the windows afterwards and
      the alert it handed to the mailer, if any. */
  datatype Effect = Effect(outcome: Outcome, windows: Windows, alert: Option<Alert>)

  /** One delivered message: the queue it came on and what json.loads made
      of its body (None when json.loads raised). */
  datatype Delivery = Delivery(routingKey: string, decoded: Option<Json>)

  /** Both field reads of the callback succeed on the decoded body. */
  predicate Storable(decoded: Option<Json>)
  {
    decoded.Some? && HasBidFields(decoded.value)
  }

  /** The message reaches the append: it decoded, both field reads
      succeeded, and its queue routes to a category that has a window. */
  predicate Stores(windows: Windows, routingKey: string, decoded: Option<Json>)
  {
    Storable(decoded) && Route(routingKey) in windows
  }

  /** A callback on `d` appends its message to the window of `category`
      (when that category has one). */
  predicate StoredInto(category: string, d: Delivery)
  {
    Route(d.routingKey) == category && Storable(d.decoded)
  }

  /** The messages of `deliveries` that a callback appends to the window of
      `category`, in delivery order. */
  function StoredMessages(category: string, deliveries: seq<Delivery>): (r: seq<Json>)
    ensures |r| <= |deliveries|
  {
    if deliveries == [] then []
    else
      var d := deliveries[0];
      var here := if StoredInto(category, d) then [d.decoded.value] else [];
      here + StoredMessages(category, deliveries[1..])
  }

  /** Some delivery routed to `category` with both fields carries `message`. */
  ghost predicate DeliveredInto(category: string, deliveries: seq<Delivery>, message: Json)
  {
    exists i :: 0 <= i < |deliveries| && StoredInto(category, deliveries[i]) && deliveries[i].decoded == Some(message)
  }

  /** The stored messages are exactly the messages of the deliveries routed
      to the category with both fields: every stored message comes from such
      a delivery, and every such delivery contributes its message. */
  lemma {:induction false} StoredMessagesSelect(category: string, deliveries: seq<Delivery>)
    ensures forall m :: m in StoredMessages(category, deliveries) ==> DeliveredInto(category, deliveries, m)
    ensures forall i :: 0 <= i < |deliveries| && StoredInto(category, deliveries[i]) ==>
              deliveries[i].decoded.value in StoredMessages(category, deliveries)
    decreases |deliveries|
  {
    if deliveries == [] {
      assert StoredMessages(category, deliveries) == [];
    } else {
      var d := deliveries[0];
      var rest := deliveries[1..];
      StoredMessagesSelect(category, rest);
      var here := if StoredInto(category, d) then [d.decoded.value] else [];
      var r := StoredMessages(category, deliveries);
      assert r == here + StoredMessages(category, rest);
      forall m | m in r
        ensures DeliveredInto(category, deliveries, m)
      {
        if m in here {
          assert StoredInto(category, deliveries[0]) && deliveries[0].decoded == Some(m);
        } else {
          assert DeliveredInto(category, rest, m);
          var i :| 0 <= i < |rest| && StoredInto(category, rest[i]) && rest[i].decoded == Some(m);
          assert deliveries[i + 1] == rest[i];
        }
      }
      forall i | 0 <= i < |deliveries| && StoredInto(category, deliveries[i])
        ensures deliveries[i].decoded.value in r
      {
        if i > 0 {
          assert deliveries[i] == rest[i - 1];
        }
      }
    }
  }

  /** Storing is selection in delivery order: the stored messages of a
      concatenation are those of the first part followed by those of the second. */
  lemma {:induction false} StoredMessagesInOrder(category: string, first: seq<Delivery>, second: seq<Delivery>)
    ensures StoredMessages(category, first + second) == StoredMessages(category, first) + StoredMessages(category, second)
    decreases |first|
  {
    if first == [] {
      assert first + second == second;
    } else {
      var d := first[0];
      var here := if StoredInto(category, d) then [d.decoded.value] else [];
      assert (first + second)[0] == d;
      assert (first + second)[1..] == first[1..] + second;
      StoredMessagesInOrder(category, first[1..], second);
      calc {
        StoredMessages(category, first + second);
        here + StoredMessages(category, first[1..] + second);
        here + (StoredMessages(category, first[1..]) + StoredMessages(category, second));
        (here + StoredMessages(category, first[1..])) + StoredMessages(category, second);
      }
    }
  }
}
