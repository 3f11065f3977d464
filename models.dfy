/**
 * The topology records of an arc file and the two id lookups on it
 * (locarc/models.py). The records are immutable values; the lookups are
 * first-match searches that change nothing.
 */
module Models {
  import opened Wrappers

  /** The only event backend the enumeration declares. */
  datatype EventProvider = Pubsub

  /** The only HTTP verb the enumeration declares. */
  datatype ServiceMethod = Post

  /** A duration in seconds; only its presence and identity matter here. */
  type Duration = real

  datatype Topic = Topic(id: string, provider: EventProvider)

  /** An HTTP sink; its verb (`method` in the source, a keyword here) and path default to POST and "/". */
  datatype Service = Service(
    id: string,
    url: string,
    httpMethod: ServiceMethod := Post,
    path: string := "/")

  /** Ids of the services and of the topics a subscription forwards to; both default to absent. */
  datatype SubscriptionDestinations = SubscriptionDestinations(
    services: Option<seq<string>> := None,
    topics: Option<seq<string>> := None)

  /** A subscription; its timeout defaults to absent. */
  datatype Subscription = Subscription(
    id: string,
    destinations: SubscriptionDestinations,
    provider: EventProvider,
    timeout: Option<Duration> := None,
    topic: string)

  /**
   * The whole topology. `topics` is a required list, so it has no absent
   * case; services and subscriptions may be absent.
   */
  datatype Arc = Arc(
    services: Option<seq<Service>> := None,
    subscriptions: Option<seq<Subscription>> := None,
    topics: seq<Topic>)
  {
    /** The first declared service with this id, or None (also when no services are declared). */
    function GetServiceById(serviceId: string): (r: Option<Service>)
      ensures services.None? ==> r.None?
      ensures services.Some? ==> IsFirstMatch(services.value, (s: Service) => s.id, serviceId, r)
    {
      match services
      case None => None
      case Some(ss) => FindFirst(ss, (s: Service) => s.id, serviceId)
    }

    /** The first declared topic with this id, or None. */
    function GetTopicById(topicId: string): (r: Option<Topic>)
      ensures IsFirstMatch(topics, (t: Topic) => t.id, topicId, r)
    {
      FindFirst(topics, (t: Topic) => t.id, topicId)
    }
  }

  /**
   * `r` is what a first-match search for `id` over `xs` must answer: None
   * exactly when no element has that key, otherwise the element at the
   * earliest position whose key is `id`.
   */
  ghost predicate IsFirstMatch<T>(xs: seq<T>, key: T -> string, id: string, r: Option<T>) {
    match r
    case None => forall i :: 0 <= i < |xs| ==> key(xs[i]) != id
    case Some(x) =>
      exists k :: 0 <= k < |xs| && xs[k] == x && key(xs[k]) == id &&
        forall j :: 0 <= j < k ==> key(xs[j]) != id
  }

  /** Linear search with early return, in list order. */
  function FindFirst<T>(xs: seq<T>, key: T -> string, id: string): (r: Option<T>)
    ensures IsFirstMatch(xs, key, id, r)
    decreases |xs|
  {
    if |xs| == 0 then None
    else if key(xs[0]) == id then Some(xs[0])
    else
      var r := FindFirst(xs[1..], key, id);
      assert r.Some? ==> (exists k :: 1 <= k < |xs| && xs[k] == r.value && key(xs[k]) == id &&
                           forall j :: 0 <= j < k ==> key(xs[j]) != id) by {
        if r.Some? {
          var k :| 0 <= k < |xs| - 1 && xs[1..][k] == r.value && key(xs[1..][k]) == id &&
            forall j :: 0 <= j < k ==> key(xs[1..][j]) != id;
          forall j | 0 <= j < k + 1 ensures key(xs[j]) != id {
            if j > 0 { assert xs[j] == xs[1..][j - 1]; }
          }
        }
      }
      r
  }

  /** The defaults of a service: method POST and path "/". */
  lemma ServiceDefaults(id: string, url: string)
    ensures Service(id, url).httpMethod == Post && Service(id, url).path == "/"
  {
  }

  /** The optional fields of destinations and subscriptions default to absent. */
  lemma SubscriptionDefaults(id: string, d: SubscriptionDestinations, p: EventProvider, topic: string)
    ensures SubscriptionDestinations().services.None? && SubscriptionDestinations().topics.None?
    ensures Subscription(id, d, p, topic := topic).timeout.None?
  {
  }

  /** A returned service is declared and carries the id asked for (that it is the first such one is `GetServiceById`'s own contract). */
  lemma {:induction false} ServiceLookupSound(arc: Arc, serviceId: string)
    requires arc.GetServiceById(serviceId).Some?
    ensures arc.services.Some?
    ensures arc.GetServiceById(serviceId).value in arc.services.value
    ensures arc.GetServiceById(serviceId).value.id == serviceId
  {
  }

  /** The service lookup is None exactly when no declared service has that id. */
  lemma ServiceLookupNone(arc: Arc, serviceId: string)
    ensures arc.GetServiceById(serviceId).None? <==>
      (arc.services.None? || forall s :: s in arc.services.value ==> s.id != serviceId)
  {
  }

  /** The topic lookup is None exactly when no declared topic has that id. */
  lemma TopicLookupNone(arc: Arc, topicId: string)
    ensures arc.GetTopicById(topicId).None? <==> forall t :: t in arc.topics ==> t.id != topicId
  {
  }
}
