/**
 * The two callback factories (locarc/callbacks.py). A factory binds a
 * resolved record to a transport and returns a handler; invoking the
 * handler on an event is a short sequence of calls to the outside world,
 * recorded on a `Backend`. What the outside world answers (the HTTP
 * response) is a parameter.
 */
module Callbacks {
  import opened Models
  import opened Events

  /** The HTTP client a service callback captures. */
  datatype Client = Client(baseUrl: string)

  /** What `ServiceCallback(service)` closes over. */
  datatype ServiceHandler = ServiceHandler(client: Client, service: Service)

  /** What `TopicCallback(topic)` closes over. */
  datatype TopicHandler = TopicHandler(provider: EventProvider, topic: Topic)

  /** Why a callback invocation raised. */
  datatype CallbackError = InvalidJson | TransportError | HttpStatusError(code: int)

  /** How a callback invocation ends: it returns, or it raises. */
  datatype Outcome = Returned | Raised(error: CallbackError)

  /** The statuses for which `raise_for_status` does not raise. */
  predicate IsSuccess(code: int) {
    200 <= code < 300
  }

  /** Builds a service callback: a client whose base URL is the service's URL, and the service itself. */
  function ServiceCallback(service: Service): (h: ServiceHandler)
    ensures h.client.baseUrl == service.url
    ensures h.service == service
  {
    ServiceHandler(Client(service.url), service)
  }

  /** Builds a topic callback: the provider named by the topic, and the topic itself. */
  function TopicCallback(topic: Topic): (h: TopicHandler)
    ensures h.provider == topic.provider
    ensures h.topic == topic
  {
    TopicHandler(topic.provider, topic)
  }

  /**
   * The calls one service-callback invocation makes: the JSON body is
   * decoded first (an undecodable payload stops everything), then one
   * request, then an acknowledgement only when the response is a success.
   */
  function ServiceEffects(h: ServiceHandler, event: Event, response: Response): seq<Effect> {
    match event.json
    case None => []
    case Some(body) =>
      [Request(h.client.baseUrl, h.service.httpMethod, h.service.path, body)] +
      (if response.Status? && IsSuccess(response.code) then [Ack(event.messageId)] else [])
  }

  /** How one service-callback invocation ends. */
  function ServiceOutcome(event: Event, response: Response): Outcome {
    match event.json
    case None => Raised(InvalidJson)
    case Some(_) =>
      match response
      case TransportFailure => Raised(TransportError)
      case Status(code) => if IsSuccess(code) then Returned else Raised(HttpStatusError(code))
  }

  /** The calls one topic-callback invocation makes: a single publish of the event's bytes. */
  function TopicEffects(h: TopicHandler, event: Event): seq<Effect> {
    [Publish(h.provider, h.topic.id, event.data)]
  }

  /** Invokes a service callback on one event. */
  method RunServiceCallback(h: ServiceHandler, event: Event, response: Response, b: Backend)
    returns (outcome: Outcome)
    modifies b
    ensures b.log == old(b.log) + ServiceEffects(h, event, response)
    ensures outcome == ServiceOutcome(event, response)
  {
    if event.json.None? {
      return Raised(InvalidJson);
    }
    b.Request(h.client.baseUrl, h.service.httpMethod, h.service.path, event.json.value);
    if response.TransportFailure? {
      return Raised(TransportError);
    }
    if !IsSuccess(response.code) {
      return Raised(HttpStatusError(response.code));
    }
    b.Ack(event);
    outcome := Returned;
  }

  /** Invokes a topic callback on one event; it never acknowledges. */
  method RunTopicCallback(h: TopicHandler, event: Event, b: Backend)
    returns (outcome: Outcome)
    modifies b
    ensures b.log == old(b.log) + TopicEffects(h, event)
    ensures outcome == Returned
  {
    b.PublishEvent(h.provider, h.topic, event);
    outcome := Returned;
  }

  /**
   * A service callback built for `service` issues exactly one request when
   * the payload decodes, first, with the service's URL, verb, path and the
   * decoded body; and none when it does not.
   */
  lemma ServiceCallbackRequestsOnce(service: Service, event: Event, response: Response)
    ensures var effects := ServiceEffects(ServiceCallback(service), event, response);
      Count(effects, IsRequest) == (if event.json.Some? then 1 else 0) &&
      (event.json.Some? ==>
        effects[0] == Request(service.url, service.httpMethod, service.path, event.json.value))
  {
    var effects := ServiceEffects(ServiceCallback(service), event, response);
    if event.json.Some? {
      assert effects[1..] == [] || effects[1..] == [Ack(event.messageId)];
    }
  }

  /**
   * A service callback acknowledges at most once, exactly when the payload
   * decodes and the status is 2xx, and then only after its request; it
   * returns normally in exactly that case, and raises otherwise.
   */
  lemma ServiceCallbackAcksOnSuccess(service: Service, event: Event, response: Response)
    ensures var effects := ServiceEffects(ServiceCallback(service), event, response);
      var ok := event.json.Some? && response.Status? && IsSuccess(response.code);
      Count(effects, IsAck) == (if ok then 1 else 0) &&
      (ok ==> effects == [Request(service.url, service.httpMethod, service.path, event.json.value),
                          Ack(event.messageId)]) &&
      (ServiceOutcome(event, response) == Returned <==> ok)
  {
    var effects := ServiceEffects(ServiceCallback(service), event, response);
    if event.json.Some? {
      assert effects[1..] == [] || effects[1..] == [Ack(event.messageId)];
    }
  }

  /**
   * A topic callback built for `topic` publishes the event's bytes once, to
   * that topic's id through the provider the topic names, and never acknowledges.
   */
  lemma TopicCallbackPublishesOnly(topic: Topic, event: Event)
    ensures var effects := TopicEffects(TopicCallback(topic), event);
      Count(effects, IsPublish) == 1 && Count(effects, IsAck) == 0 &&
      effects[0] == Publish(topic.provider, topic.id, event.data)
  {
    var effects := TopicEffects(TopicCallback(topic), event);
    assert effects[1..] == [];
  }
}
