/** The Kafka producer as the core sees it: a log of the messages handed to it. */
module Kafka {
  import opened Wrappers

  datatype PersistenceStatus = NotPersisted | PossiblyPersisted | Persisted

  /** The log position of a published record (`TopicPartitionOffset` without the topic). */
  datatype TopicPartitionOffset = TopicPartitionOffset(partition: int, offset: int)

  /** The delivery receipt `ProduceAsync` returns. */
  datatype DeliveryResult = DeliveryResult(status: PersistenceStatus, position: TopicPartitionOffset)

  /** The receipt reports a durably appended record. */
  predicate IsPersisted(answer: Fallible<DeliveryResult>) {
    answer.Completed? && answer.value.status == Persisted
  }

  /**
   * `IKafkaProducerService<M>`. `published` is every message handed to `ProduceAsync`,
   * in order. The broker is outside the model: `broker(n)` is its answer to the n-th
   * message (a receipt, or a fault when `ProduceAsync` throws), fixed but arbitrary.
   */
  class Producer<M> {
    var published: seq<M>
    const broker: nat -> Fallible<DeliveryResult>

    constructor (broker: nat -> Fallible<DeliveryResult>)
      ensures published == [] && this.broker == broker
    {
      published := [];
      this.broker := broker;
    }

    /** `ProduceAsync(message, headers)`. */
    method Produce(message: M) returns (answer: Fallible<DeliveryResult>)
      modifies this
      ensures published == old(published) + [message]
      ensures answer == broker(|old(published)|)
    {
      answer := broker(|published|);
      published := published + [message];
    }
  }
}
