/**
 * `ResponseService`: the name of the Redis channel a reply is awaited on, and the
 * outcome of the wait. The race between the subscription and the timer is modelled
 * by the time at which the reply (or a fault) arrives, measured from the subscription.
 */
module Responses {
  import opened Wrappers
  import opened Kafka

  /** The wait when the caller supplies no timeout. */
  const DefaultTimeoutMilliseconds: int := 5000

  /** A wait in whole milliseconds that `Task.Delay` accepts without throwing. */
  type Milliseconds = ms: int | 0 <= ms <= 0x7FFF_FFFF

  /**
   * How the Kafka client renders a partition and an offset as text inside an
   * interpolated string. The client library is not part of this model.
   */
  datatype Renderer = Renderer(partition: int -> string, offset: int -> string)

  ghost predicate Injective(f: int -> string) {
    forall a, b :: f(a) == f(b) ==> a == b
  }

  /** `BuildResponseChannel`: `"{pattern}:{partition}:{offset}"`. */
  function BuildResponseChannel(pattern: string, position: TopicPartitionOffset, render: Renderer): string {
    pattern + ":" + render.partition(position.partition) + ":" + render.offset(position.offset)
  }

  /** The position of the first ':' in `s`. */
  function IndexOfColon(s: string): (r: Option<nat>)
    ensures r.None? <==> ':' !in s
    ensures r.Some? ==> r.value < |s| && s[r.value] == ':' && ':' !in s[..r.value]
  {
    if s == [] then None
    else if s[0] == ':' then Some(0)
    else
      match IndexOfColon(s[1..])
      case None => None
      case Some(i) =>
        assert s[..i + 1] == [s[0]] + s[1..][..i];
        Some(i + 1)
  }

  /**
   * Reads a channel name back into its rendered partition and offset: the text
   * between the pattern's ':' and the next ':' is the partition, the rest the offset.
   */
  function SplitResponseChannel(pattern: string, channel: string): (parts: Option<(string, string)>)
    ensures parts.Some? ==> ':' !in parts.value.0
    ensures parts.Some? ==> channel == pattern + ":" + parts.value.0 + ":" + parts.value.1
  {
    var prefix := pattern + ":";
    if |channel| < |prefix| || channel[..|prefix|] != prefix then None
    else
      var rest := channel[|prefix|..];
      match IndexOfColon(rest)
      case None => None
      case Some(i) =>
        assert rest == rest[..i] + ":" + rest[i + 1..];
        assert channel == prefix + rest;
        Some((rest[..i], rest[i + 1..]))
  }

  lemma ColonAfterColonFree(a: string, b: string)
    requires ':' !in a
    ensures IndexOfColon(a + ":" + b) == Some(|a|)
  {
    var s := a + ":" + b;
    assert s[|a|] == ':';
    assert forall k :: 0 <= k < |a| ==> s[k] == a[k];
    assert forall n :: |a| < n <= |s| ==> s[..n][|a|] == ':';
  }

  /** Splitting a built channel gives back the rendered partition and offset. */
  lemma SplitBuildsBack(pattern: string, position: TopicPartitionOffset, render: Renderer)
    requires ':' !in render.partition(position.partition)
    ensures SplitResponseChannel(pattern, BuildResponseChannel(pattern, position, render))
         == Some((render.partition(position.partition), render.offset(position.offset)))
  {
    var p, o := render.partition(position.partition), render.offset(position.offset);
    var prefix := pattern + ":";
    var channel := BuildResponseChannel(pattern, position, render);
    assert channel == prefix + (p + ":" + o);
    assert channel[..|prefix|] == prefix;
    assert channel[|prefix|..] == p + ":" + o;
    ColonAfterColonFree(p, o);
    assert (p + ":" + o)[..|p|] == p;
    assert (p + ":" + o)[|p| + 1..] == o;
  }

  /**
   * For one pattern, a channel names a single log position: two positions whose
   * channels coincide are the same position, given injective renderings and a
   * partition rendering without ':'.
   */
  lemma ChannelIdentifiesPosition(pattern: string, p1: TopicPartitionOffset, p2: TopicPartitionOffset, render: Renderer)
    requires Injective(render.partition) && Injective(render.offset)
    requires ':' !in render.partition(p1.partition) && ':' !in render.partition(p2.partition)
    requires BuildResponseChannel(pattern, p1, render) == BuildResponseChannel(pattern, p2, render)
    ensures p1 == p2
  {
    SplitBuildsBack(pattern, p1, render);
    SplitBuildsBack(pattern, p2, render);
  }

  /** The wait in `GetResponse`: the supplied timeout, or 5000 ms when there is none. */
  function WaitMilliseconds(timeout: Option<Milliseconds>): Milliseconds {
    match timeout
    case Some(ms) => ms
    case None => DefaultTimeoutMilliseconds
  }

  /** What the ledger publishes on a channel: after how many milliseconds, and the reply or a fault. */
  datatype Arrival<+T> = Arrival(afterMs: nat, payload: Fallible<T>)

  /**
   * The outcome of racing the subscription against a timer of `waitMs`: the reply if it
   * arrives first (a fault is rethrown), `default` (None) if the timer fires first.
   */
  function AwaitReply<T>(arrival: Option<Arrival<T>>, waitMs: int): (r: Fallible<Option<T>>)
    ensures r == Completed(None) <==> arrival.None? || arrival.value.afterMs >= waitMs
    ensures r.Faulted? <==> arrival.Some? && arrival.value.afterMs < waitMs && arrival.value.payload.Faulted?
    ensures r.Completed? && r.value.Some? ==> arrival.Some? && arrival.value.payload == Completed(r.value.value)
  {
    match arrival
    case None => Completed(None)
    case Some(a) =>
      if a.afterMs < waitMs then
        match a.payload
        case Completed(v) => Completed(Some(v))
        case Faulted => Faulted
      else Completed(None)
  }

  /** With no timeout supplied, a reply is taken if and only if it arrives within 5000 ms. */
  lemma DefaultWaitIsFiveSeconds<T>(afterMs: nat, reply: T)
    ensures AwaitReply(Some(Arrival(afterMs, Completed(reply))), WaitMilliseconds(None))
         == if afterMs < 5000 then Completed(Some(reply)) else Completed(None)
  {
  }

  function Lookup<T>(arrivals: map<string, Arrival<T>>, channel: string): Option<Arrival<T>> {
    if channel in arrivals then Some(arrivals[channel]) else None
  }

  /** One `SingleObserveChannel` call: the channel observed and the wait raced against it. */
  datatype Subscription = Subscription(channel: string, waitMs: Milliseconds)

  /**
   * `ResponseService`. `subscriptions` records every channel subscribed to; `arrivals`
   * is what the ledger publishes on each channel (outside this model, fixed but arbitrary).
   */
  class ResponseService<T> {
    var subscriptions: seq<Subscription>
    const arrivals: map<string, Arrival<T>>
    const render: Renderer

    constructor (arrivals: map<string, Arrival<T>>, render: Renderer)
      ensures subscriptions == [] && this.arrivals == arrivals && this.render == render
    {
      subscriptions := [];
      this.arrivals := arrivals;
      this.render := render;
    }

    /**
     * `GetResponse<T>(message, offset, timeout)`: subscribes to the channel built from the
     * message's pattern and log position alone, and returns the reply or `default`.
     */
    method GetResponse(pattern: string, position: TopicPartitionOffset, timeout: Option<Milliseconds>)
      returns (r: Fallible<Option<T>>)
      modifies this
      ensures var channel := BuildResponseChannel(pattern, position, render);
              subscriptions == old(subscriptions) + [Subscription(channel, WaitMilliseconds(timeout))] &&
              r == AwaitReply(Lookup(arrivals, channel), WaitMilliseconds(timeout))
    {
      var channel := BuildResponseChannel(pattern, position, render);
      var timeoutMilliseconds := WaitMilliseconds(timeout);
      subscriptions := subscriptions + [Subscription(channel, timeoutMilliseconds)];
      r := AwaitReply(Lookup(arrivals, channel), timeoutMilliseconds);
    }
  }
}
