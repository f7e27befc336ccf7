/**
 * The command pipeline every mutating operation runs: a validity gate, then
 * publish the command, treat any status but `Persisted` as a failure, wait on the
 * channel derived from the message and its log position, and map a missing reply
 * to "processing". The source repeats the publish-and-await steps in each
 * operation; here they are one method proved against one function.
 */
module Pipeline {
  import opened Wrappers
  import opened Kafka
  import opened Responses

  /** The outcome of the checks that come before publishing. */
  datatype Gate<+R> =
    | Admitted          // every check passed: the command is published
    | Rejected(result: R)  // an early `return`
    | Aborted           // an exception was thrown before publishing

  /** What happened from `ProduceAsync` on. */
  datatype Dispatched<+R> =
    | ProduceFaulted
    | NotPersisted
    | Awaited(subscription: Subscription, reply: Fallible<Option<R>>)
  {
    function Subscribed(): seq<Subscription> {
      if Awaited? then [subscription] else []
    }
  }

  /**
   * Publish-and-await as a function of the broker's answer and of what the ledger
   * publishes: a reply is awaited exactly when the record was persisted, on the
   * channel of its log position, for the default 5000 ms.
   */
  function Dispatch<R>(pattern: string, answer: Fallible<DeliveryResult>, arrivals: map<string, Arrival<R>>, render: Renderer)
    : (d: Dispatched<R>)
    ensures d.ProduceFaulted? <==> answer.Faulted?
    ensures d.Awaited? <==> IsPersisted(answer)
    ensures d.Awaited? ==> d.subscription.channel == BuildResponseChannel(pattern, answer.value.position, render)
    ensures d.Awaited? ==> d.subscription.waitMs == DefaultTimeoutMilliseconds
    ensures d.Awaited? ==> d.reply == AwaitReply(Lookup(arrivals, d.subscription.channel), DefaultTimeoutMilliseconds)
  {
    match answer
    case Faulted => ProduceFaulted
    case Completed(delivery) =>
      if delivery.status != Persisted then Dispatched.NotPersisted
      else
        var channel := BuildResponseChannel(pattern, delivery.position, render);
        var wait := WaitMilliseconds(None);
        Awaited(Subscription(channel, wait), AwaitReply(Lookup(arrivals, channel), wait))
  }

  /** What handing the next message to `producer` would lead to, with replies read from `responses`. */
  function NextDispatch<M, R>(producer: Producer<M>, responses: ResponseService<R>, pattern: string): Dispatched<R>
    reads producer
  {
    Dispatch(pattern, producer.broker(|producer.published|), responses.arrivals, responses.render)
  }

  /**
   * The result of an admitted request once its message has been handed to the producer:
   * a throw surfaces, a record that was not persisted gives `notPersisted`, and the reply
   * is returned unchanged, or `processing` when none came in time.
   */
  function Conclude<R>(d: Dispatched<R>, notPersisted: R, processing: R): (r: Fallible<R>)
    ensures r.Faulted? <==> d.ProduceFaulted? || (d.Awaited? && d.reply.Faulted?)
    ensures d.NotPersisted? ==> r == Completed(notPersisted)
    ensures d.Awaited? && d.reply == Completed(None) ==> r == Completed(processing)
    ensures d.Awaited? && d.reply.Completed? && d.reply.value.Some? ==> r == Completed(d.reply.value.value)
  {
    match d
    case ProduceFaulted => Faulted
    case NotPersisted => Completed(notPersisted)
    case Awaited(_, reply) =>
      match reply
      case Faulted => Faulted
      case Completed(o) => Completed(o.GetOr(processing))
  }

  /** The observable effect of one request: messages published, channels awaited, result. */
  datatype Trace<M, R> = Trace(published: seq<M>, subscribed: seq<Subscription>, result: R)

  /**
   * One request through the pipeline. A rejected or aborted request publishes nothing
   * and awaits nothing; an admitted one publishes its message once, awaits only a
   * persisted record, and returns the reply unchanged or `processing` when none came.
   * Exceptions surface as `Faulted`.
   */
  function Run<M, R>(gate: Gate<R>, message: M, d: Dispatched<R>, notPersisted: R, processing: R)
    : (t: Trace<M, Fallible<R>>)
    ensures t.published == if gate.Admitted? then [message] else []
    ensures t.subscribed == if gate.Admitted? then d.Subscribed() else []
    ensures gate.Rejected? ==> t.result == Completed(gate.result)
    ensures gate.Admitted? && d.NotPersisted? ==> t.result == Completed(notPersisted)
    ensures gate.Admitted? && d.Awaited? && d.reply == Completed(None) ==> t.result == Completed(processing)
    ensures gate.Admitted? && d.Awaited? && d.reply.Completed? && d.reply.value.Some? ==>
              t.result == Completed(d.reply.value.value)
    ensures t.result.Faulted? <==>
              gate.Aborted? || (gate.Admitted? && (d.ProduceFaulted? || (d.Awaited? && d.reply.Faulted?)))
  {
    match gate
    case Rejected(r) => Trace([], [], Completed(r))
    case Aborted => Trace([], [], Faulted)
    case Admitted => Trace([message], d.Subscribed(), Conclude(d, notPersisted, processing))
  }

  /** The publish-and-await steps: `ProduceAsync`, the status check, `GetResponse`. */
  method PublishAndAwait<M, R>(producer: Producer<M>, responses: ResponseService<R>, message: M, pattern: string)
    returns (d: Dispatched<R>)
    modifies producer, responses
    ensures producer.published == old(producer.published) + [message]
    ensures d == Dispatch(pattern, producer.broker(|old(producer.published)|), responses.arrivals, responses.render)
    ensures responses.subscriptions == old(responses.subscriptions) + d.Subscribed()
  {
    var messageDelivery := producer.Produce(message);
    match messageDelivery
    case Faulted =>
      d := ProduceFaulted;
    case Completed(delivery) =>
      if delivery.status != Persisted {
        d := Dispatched.NotPersisted;
      } else {
        var response := responses.GetResponse(pattern, delivery.position, None);
        var channel := BuildResponseChannel(pattern, delivery.position, responses.render);
        d := Awaited(Subscription(channel, WaitMilliseconds(None)), response);
      }
  }
}
