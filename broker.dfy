/** The broker side of one delivery: the callback's verdict and the
    channel calls that report it. */
module Broker {
  import opened Payload

  /** How processing one message ends. Every rejection in the consumer is
      issued with requeue=False; `fault` is the exception that caused it. */
  datatype Outcome = Ack | Nack(requeue: bool, fault: Fault)

  /** What the broker is told about one delivery tag. */
  datatype Resolution = Acked(deliveryTag: nat) | Nacked(deliveryTag: nat, requeue: bool)

  function Resolve(deliveryTag: nat, outcome: Outcome): (r: Resolution)
    ensures r.deliveryTag == deliveryTag
    ensures r.Acked? <==> outcome.Ack?
    ensures r.Nacked? ==> r.requeue == outcome.requeue
  {
    match outcome
    case Ack => Acked(deliveryTag)
    case Nack(requeue, _) => Nacked(deliveryTag, requeue)
  }

  /** The pika channel, reduced to the log of acks and nacks it has sent. */
  class Channel {
    var log: seq<Resolution>

    constructor ()
      ensures log == []
    {
      log := [];
    }

    /** `ch.basic_ack(delivery_tag=...)` */
    method BasicAck(deliveryTag: nat)
      modifies this
      ensures log == old(log) + [Acked(deliveryTag)]
    {
      log := log + [Acked(deliveryTag)];
    }

    /** `ch.basic_nack(delivery_tag=..., requeue=...)` */
    method BasicNack(deliveryTag: nat, requeue: bool)
      modifies this
      ensures log == old(log) + [Nacked(deliveryTag, requeue)]
    {
      log := log + [Nacked(deliveryTag, requeue)];
    }
  }
}
