/**
 * The interfaces the core talks to (locarc/events.py): the event delivered
 * by a backend, the event provider, the HTTP client. None of them is
 * implemented here. `Backend` is a recording double: each call the core
 * makes to the outside world appends one `Effect` to its `log`, and
 * whatever the outside world answers is a parameter of the caller.
 */
module Events {
  import opened Wrappers
  import opened Models

  newtype byte = x: int | 0 <= x < 256

  /** A decoded JSON document. */
  datatype Json =
    | JNull
    | JBool(b: bool)
    | JNumber(n: int)
    | JString(s: string)
    | JArray(items: seq<Json>)
    | JObject(members: seq<(string, Json)>)

  /**
   * A delivered message: its backend id (what `ack` acknowledges), its raw
   * bytes, and its payload decoded as JSON, None when the bytes are not
   * valid JSON (decoding belongs to the backend's event wrapper).
   */
  datatype Event = Event(messageId: string, data: seq<byte>, json: Option<Json>)

  /**
   * A callback as the startup code builds it: the raw destination id it is
   * given, tagged with the factory it goes to.
   */
  datatype Sink = ServiceSink(serviceId: string) | TopicSink(topicId: string)

  /** What the provider returns for a running listener; see `Backend.ListenSubscription`. */
  datatype Handle = Handle(ticket: nat)

  /** How waiting on a listener ends: it returns, or raises one of three kinds of exception. */
  datatype JoinOutcome = Completed | Cancelled | TimedOut | Failed

  /** An HTTP answer: a status code, or no answer at all (the request itself raised). */
  datatype Response = Status(code: int) | TransportFailure

  /** One call from the core to the outside world, with the arguments it passes. */
  datatype Effect =
    | CreateTopic(provider: EventProvider, topicId: string)
    | CreateSubscription(provider: EventProvider, subscriptionId: string, topicId: string)
    | Listen(provider: EventProvider, subscription: Subscription, sinks: seq<Sink>)
    | Wait(handle: Handle, timeout: Option<Duration>)
    | Request(baseUrl: string, verb: ServiceMethod, path: string, body: Json)
    | Ack(messageId: string)
    | Publish(provider: EventProvider, topicId: string, data: seq<byte>)

  class Backend {
    /** Every call made so far, oldest first. */
    var log: seq<Effect>

    constructor ()
      ensures log == []
    {
      log := [];
    }

    method CreateTopic(provider: EventProvider, topicId: string)
      modifies this
      ensures log == old(log) + [Effect.CreateTopic(provider, topicId)]
    {
      log := log + [Effect.CreateTopic(provider, topicId)];
    }

    method CreateSubscription(provider: EventProvider, subscriptionId: string, topicId: string)
      modifies this
      ensures log == old(log) + [Effect.CreateSubscription(provider, subscriptionId, topicId)]
    {
      log := log + [Effect.CreateSubscription(provider, subscriptionId, topicId)];
    }

    /** Starts a listener; its handle is the position of the `Listen` entry in the log, so no two listeners share one. */
    method ListenSubscription(provider: EventProvider, subscription: Subscription, sinks: seq<Sink>)
      returns (h: Handle)
      modifies this
      ensures log == old(log) + [Listen(provider, subscription, sinks)]
      ensures h == Handle(|old(log)|)
    {
      h := Handle(|log|);
      log := log + [Listen(provider, subscription, sinks)];
    }

    method Wait(h: Handle, timeout: Option<Duration>)
      modifies this
      ensures log == old(log) + [Effect.Wait(h, timeout)]
    {
      log := log + [Effect.Wait(h, timeout)];
    }

    method Request(baseUrl: string, verb: ServiceMethod, path: string, body: Json)
      modifies this
      ensures log == old(log) + [Effect.Request(baseUrl, verb, path, body)]
    {
      log := log + [Effect.Request(baseUrl, verb, path, body)];
    }

    method Ack(event: Event)
      modifies this
      ensures log == old(log) + [Effect.Ack(event.messageId)]
    {
      log := log + [Effect.Ack(event.messageId)];
    }

    /** Publishes the event's raw bytes to the topic's id. */
    method PublishEvent(provider: EventProvider, topic: Topic, event: Event)
      modifies this
      ensures log == old(log) + [Publish(provider, topic.id, event.data)]
    {
      log := log + [Publish(provider, topic.id, event.data)];
    }
  }

  predicate IsRequest(e: Effect) { e.Request? }
  predicate IsAck(e: Effect) { e.Ack? }
  predicate IsPublish(e: Effect) { e.Publish? }

  /** How many entries of `log` satisfy `p`. */
  function Count(log: seq<Effect>, p: Effect -> bool): (n: nat)
    ensures n <= |log|
    ensures n == 0 <==> forall i :: 0 <= i < |log| ==> !p(log[i])
  {
    if log == [] then 0 else (if p(log[0]) then 1 else 0) + Count(log[1..], p)
  }
}
