/** QUEUE_CONFIG: the fixed table from the queue a message arrived on to the
    item category it belongs to. */
module Routing {

  const Unknown: string := "unknown"

  const QueueConfig: map<string, string> := map[
    "auction_queue_electronics" := "electronics",
    "auction_queue_furniture" := "furniture",
    "auction_queue_art" := "art"
  ]

  /** `QUEUE_CONFIG.get(routing_key, 'unknown')`: total, never fails. */
  function Route(routingKey: string): (itemType: string)
    ensures routingKey == "auction_queue_electronics" ==> itemType == "electronics"
    ensures routingKey == "auction_queue_furniture" ==> itemType == "furniture"
    ensures routingKey == "auction_queue_art" ==> itemType == "art"
    ensures itemType == Unknown <==> routingKey !in QueueConfig
    ensures itemType in {"electronics", "furniture", "art", Unknown}
  {
    if routingKey in QueueConfig then QueueConfig[routingKey] else Unknown
  }

  /** The producer's table from category to queue name. */
  const ProducerQueues: map<string, string> := map[
    "electronics" := "auction_queue_electronics",
    "furniture" := "auction_queue_furniture",
    "art" := "auction_queue_art"
  ]

  /** A bid the producer publishes for a category is routed back to that
      category, and every queue the consumer knows is the producer's queue
      for the category it routes to. */
  lemma ProducerTableInvertsRouting()
    ensures forall c :: c in ProducerQueues ==> Route(ProducerQueues[c]) == c
    ensures forall k :: k in QueueConfig ==> Route(k) in ProducerQueues && ProducerQueues[Route(k)] == k
  {
    forall k | k in QueueConfig
      ensures Route(k) in ProducerQueues && ProducerQueues[Route(k)] == k
    {
      assert k == "auction_queue_electronics" || k == "auction_queue_furniture" || k == "auction_queue_art";
    }
  }
}
