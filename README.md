# locarc startup and callbacks, modelled in Dafny

locarc runs an event topology described in an arc file: topics, HTTP
services, and subscriptions that forward a topic's events to services and to
other topics. This project models the three parts of locarc that make
decisions:

- **Models** (`models.dfy`, locarc/models.py): the topology records with their
  defaults, and the two first-match lookups `get_service_by_id` and
  `get_topic_by_id`, as recursive functions over `seq`.
- **Main** (`main.dfy`, locarc/main.py): `parse_event_subscription_callback`,
  which builds a subscription's callback list in two loops, and
  `entrypoint`, which
  - creates every topic;
  - aborts when the subscription list is absent;
  - for each subscription in order, checks its topic (aborting at the first
    undeclared one), creates it and starts a listener, and stores the listener
    in the `futures` dictionary;
  - waits on each listener with its effective timeout, swallowing the
    exception of a wait that raises.

  These are methods with loops over a `Backend`, a recording double whose
  `log` holds every call made to the messaging provider. They are proved
  against specification functions: `CallbacksOf`, `StartupLog` (topic
  creations, then registrations, then waits) and `StartupResult`.
- **Callbacks** (`callbacks.dfy`, locarc/callbacks.py): the `ServiceCallback` and
  `TopicCallback` factories as functions, and their inner `_callback` bodies as
  methods appending to the log. The bodies are request, status check, ack, or
  publish only; the HTTP response is a parameter.
- **StartupProperties** (`startup_properties.dfy`): the ordering and abort
  properties of `StartupLog`:
  - topics first;
  - aborts that happen after the earlier subscriptions have started;
  - create before listen;
  - every listen before every wait;
  - each wait on the listener of its subscription;
  - join exceptions never escaping.
- `wrappers.dfy` holds `Option`; `events.dfy` holds the event, sink, handle,
  effect and `Backend` types, as the interfaces of locarc/events.py and the
  provider calls.

Outside answers are parameters:
- how each wait ends: `settle(handle, timeout)`, which returns `Completed`, `Cancelled`, `TimedOut` or `Failed`;
- the HTTP response: a status code or a transport failure;
- the decoded JSON of an event.

A listener handle is the position of its `Listen` entry in the log. This gives each listener a distinct handle, so a wait can be traced back to the listener it waits on.

The `futures` dictionary is an association list of (subscription, handle)
entries in insertion order. Assigning to an existing key keeps its place and
replaces the handle, as a Python dict does. In the model subscriptions are plain
values, so two equal subscriptions share one entry (the code could not run
this line at all, see "## Left out"). `TableEntries` shows that each entry
holds the listener of the **last** occurrence.

Two behaviours of the code shape the model:
- Joins:
  - the code waits on the listeners one after another;
  - its `try` encloses the whole loop, so the first wait that raises ends the join phase;
  - an exception of class `Exception` raised there (cancellation, timeout or any other error) is swallowed, and `entrypoint` returns normally.
- Acknowledgement: each service callback acknowledges on its own, after its own 2xx response. There is no acknowledgement after all of a subscription's sinks have run.

## Model

| member | source | states |
|---|---|---|
| Models.FindFirst | locarc/models.py:49-52 | the result is None exactly when no element has the id; otherwise it is the element at the earliest position with that id |
| Models.Arc.GetServiceById | locarc/models.py:46-52 | None when `services` is absent; otherwise the first declared service whose id matches, or None when none matches |
| Models.Arc.GetTopicById | locarc/models.py:54-60 | the first declared topic whose id matches, or None when none matches |
| Models.ServiceDefaults | locarc/models.py:24-25 | a service built without method and path has method POST and path "/" |
| Models.SubscriptionDefaults | locarc/models.py:29-37 | destinations default to absent service and topic lists; a subscription's timeout defaults to absent |
| Models.ServiceLookupSound | locarc/models.py:49-51 | a returned service is a member of the declared services and has the id asked for |
| Models.ServiceLookupNone | locarc/models.py:46-52 | the service lookup is None if and only if services are absent or no declared service has the id |
| Models.TopicLookupNone | locarc/models.py:54-60 | the topic lookup is None if and only if no declared topic has the id |
| Main.CallbacksOf | locarc/main.py:52-59 | the callback list has one entry per declared service id plus one per declared topic id |
| Main.CallbacksOfSpec | locarc/main.py:53-58 | position i holds the sink of service id i; position (number of services + j) holds the sink of topic id j |
| Main.ParseEventSubscriptionCallback | locarc/main.py:49-59 | the list built by the two append loops is exactly the specified callback list |
| Main.SinkKindAt | locarc/main.py:53-58 | the callback at a position is a service callback if and only if the position is below the number of services |
| Main.ServicesBeforeTopics | locarc/main.py:53-58 | every service callback comes before every topic callback |
| Main.NoDestinationsNoCallbacks | locarc/main.py:52-59 | with both destination lists absent the callback list is empty |
| Main.TopicCreations | locarc/main.py:79-82 | one topic creation per declared topic, in declaration order, through that topic's provider |
| Main.Registration | locarc/main.py:92-100 | definition (no contract): the two calls registering one subscription, its creation on its topic and then its listener with its callback list; `RegistrationPair` states them |
| Main.Registrations | locarc/main.py:87-100 | registering n subscriptions makes 2n calls |
| Main.RegistrationsAt | locarc/main.py:92-100 | call 2i creates subscription i on its topic and call 2i+1 starts its listener with its callback list |
| Main.FirstUndeclared | locarc/main.py:87-91 | the abort position never exceeds the number of subscriptions |
| Main.FirstUndeclaredSpec | locarc/main.py:87-91 | every subscription before the abort position names a declared topic, and the one at it names an undeclared topic |
| Main.Insert | locarc/main.py:95 | definition (no contract) of `futures[s] = h` on the entry list: an existing key keeps its place and takes the new handle, a new key goes last; `InsertKeys`, `InsertEntry` state this |
| Main.InsertKeys | locarc/main.py:95 | assigning to a present key keeps the key order; assigning to a new key appends it |
| Main.InsertDistinct | locarc/main.py:95 | assignment keeps the dictionary's keys distinct |
| Main.InsertEntry | locarc/main.py:95 | after `futures[s] = h` an entry is present if and only if it is (s, h) or an earlier entry for another key |
| Main.InsertEntries | locarc/main.py:95 | the same for all entries at once |
| Main.LastIndex | locarc/main.py:87-100 | the position returned holds the subscription, and no later position does |
| Main.TableOf | locarc/main.py:86-100 | definition (no contract): the dictionary after assigning each subscription in turn the handle of its listen; `TableKeys`, `TableEntry`, `TableOrderDistinct` state what it holds |
| Main.TableKeys | locarc/main.py:86-100 | the filled dictionary's keys are distinct and are exactly the subscriptions |
| Main.TableEntry | locarc/main.py:86-100 | an entry is in the filled dictionary if and only if it maps a subscription to the listener started for its last occurrence |
| Main.TableEntries | locarc/main.py:86-100 | the same for all entries at once |
| Main.TableOrderDistinct | locarc/main.py:86-102 | without repeated subscriptions the dictionary iterates in declaration order |
| Main.EffectiveTimeout | locarc/main.py:103-105 | the subscription's own timeout when present, else the default |
| Main.Waits | locarc/main.py:102-106 | one wait per entry, in order, on the entry's handle with its effective timeout |
| Main.FirstRaised | locarc/main.py:101-113 | the position of the first raising wait is at most the number of entries |
| Main.FirstRaisedSpec | locarc/main.py:101-113 | every wait before that position completes, and the one at it raises |
| Main.Joins | locarc/main.py:101-113 | definition (no contract): the waits up to and including the first that raises; `JoinsStopAtFirstRaise` states this |
| Main.StartupResult | locarc/main.py:83-113 | definition (no contract) of how the entry point ends; `StartupResultOk` states when it is `Ok` |
| Main.Started | locarc/main.py:87-100 | definition (no contract): the subscriptions started before the first undeclared topic; `StartedPrefix` and `UndeclaredTopicAborts` state it |
| Main.JoinPhase | locarc/main.py:101-113 | definition (no contract): no waits after an abort, otherwise the joins over the filled dictionary; `JoinPhaseKinds` and `StartupLogAccepted` state it |
| Main.StartupLog | locarc/main.py:78-113 | definition (no contract): topic creations, then registrations of the started subscriptions, then the join phase; the StartupProperties lemmas state its properties |
| Main.CreateTopics | locarc/main.py:79-82 | the loop appends exactly the topic creations |
| Main.StartSubscription | locarc/main.py:92-100 | one subscription's create and listen are appended, and its handle names the listen |
| Main.StartSubscriptions | locarc/main.py:86-100 | accepted if and only if every topic is declared; appended: the registrations of the subscriptions before the first undeclared one; on acceptance, the dictionary is the one filled by the assignments |
| Main.JoinFutures | locarc/main.py:101-113 | the loop appends the waits, in dictionary order, up to and including the first that raises |
| Main.Entrypoint | locarc/main.py:78-113 | the result is the specified outcome and the appended calls are exactly the startup log |
| StartupProperties.RegistrationKinds | locarc/main.py:94-100 | registrations make only subscription creations and listens |
| StartupProperties.JoinPhaseKinds | locarc/main.py:101-106 | the join phase makes only waits |
| StartupProperties.KindInShape | locarc/main.py:79-106 | in creations, then registrations, then waits: topic creations are exactly the first entries, and waits are exactly the entries after the registrations |
| StartupProperties.RegistrationPair | locarc/main.py:92-100 | the create and the listen of registration j, with its callback list |
| StartupProperties.RegistrationsInShape | locarc/main.py:79-100 | the registrations sit right after the topic creations |
| StartupProperties.RegistrationInShape | locarc/main.py:79-100 | subscription j's create and listen are at positions (topics + 2j) and (topics + 2j + 1) |
| StartupProperties.ListenAt | locarc/main.py:95-100 | a handle for a subscription's last registration points at that subscription's listen |
| StartupProperties.TopicsCreatedFirst | locarc/main.py:79-82 | the log starts with one creation per topic, in order, and creates no topic later |
| StartupProperties.NoSubscriptionsAborts | locarc/main.py:83-85 | without subscriptions: the validation error, and the log holds only the topic creations |
| StartupProperties.StartedPrefix | locarc/main.py:87-94 | the started subscriptions are a prefix of the declared ones, each naming a declared topic |
| StartupProperties.SubscriptionsStartedInOrder | locarc/main.py:87-100 | each started subscription is created and then listened to, in declaration order, right after the topic creations |
| StartupProperties.UndeclaredTopicAborts | locarc/main.py:87-91 | when subscription k names an undeclared topic: the validation error, nothing started from k on (exactly the first k when k is the first offender), and no wait |
| StartupProperties.ListensBeforeWaits | locarc/main.py:94-106 | an entry is a wait if and only if it comes after every creation and listen |
| StartupProperties.StartupResultOk | locarc/main.py:83-113 | the entry point returns normally if and only if subscriptions are present and all name declared topics, whatever the waits do |
| StartupProperties.JoinsStopAtFirstRaise | locarc/main.py:101-113 | the waits follow the dictionary with effective timeouts; all but the last completed; an early stop follows a raising wait; with no raise every entry is waited on |
| StartupProperties.StartupLogAccepted | locarc/main.py:86-106 | on normal return every subscription started, and the log is creations, registrations, then the joins over the filled dictionary |
| StartupProperties.TableSoundAt | locarc/main.py:95-100 | a dictionary entry's key is a subscription, and its handle names that subscription's last listen |
| StartupProperties.JoinAt | locarc/main.py:102-106 | wait j is on entry j with its effective timeout |
| StartupProperties.WaitInShape | locarc/main.py:95-106 | in such a log, a wait on an entry whose handle names its last listen sits after the registrations and points at that listen |
| StartupProperties.WaitTargetsListener | locarc/main.py:95-106 | wait j of the join phase is on dictionary entry j with its effective timeout, and that handle points at an earlier listen of the entry's own subscription |
| Callbacks.ServiceCallback | locarc/callbacks.py:13-14 | the client's base URL is the service's URL, and the handler keeps the service |
| Callbacks.TopicCallback | locarc/callbacks.py:28-29 | the handler uses the provider the topic names, and keeps the topic |
| Callbacks.IsSuccess | locarc/callbacks.py:22 | definition (no contract): the statuses 200 to 299, for which `raise_for_status` does not raise |
| Callbacks.ServiceEffects | locarc/callbacks.py:16-23 | definition (no contract): no call on an undecodable payload, else the request followed by an ack only on success; `ServiceCallbackRequestsOnce` and `ServiceCallbackAcksOnSuccess` state it |
| Callbacks.ServiceOutcome | locarc/callbacks.py:16-23 | definition (no contract): how an invocation ends on each path; `ServiceCallbackAcksOnSuccess` states when it returns |
| Callbacks.TopicEffects | locarc/callbacks.py:31-32 | definition (no contract): the single publish; `TopicCallbackPublishesOnly` states it |
| Callbacks.RunServiceCallback | locarc/callbacks.py:16-23 | the calls and the outcome of one invocation are the specified ones |
| Callbacks.RunTopicCallback | locarc/callbacks.py:31-32 | one invocation appends the specified publish and returns normally |
| Callbacks.ServiceCallbackRequestsOnce | locarc/callbacks.py:17-21 | exactly one request when the payload decodes (first, with the service's URL, method, path and the decoded body), none otherwise |
| Callbacks.ServiceCallbackAcksOnSuccess | locarc/callbacks.py:22-23 | one ack, after the request, exactly when the payload decodes and the status is 2xx; none otherwise; normal return in exactly that case |
| Callbacks.TopicCallbackPublishesOnly | locarc/callbacks.py:29-32 | one publish of the event's bytes to the topic's id through the topic's provider, and no ack |

## Left out

- Arc loading and the command line (`safe_load_arc_file`, the typer options and `run`, locarc/main.py:29-46, 62-77, 116-117): YAML and pydantic parsing and I/O. The arc is a parameter of `Entrypoint`.
- The Google Pub/Sub provider (locarc/providers/pubsub.py) is not part of this model. Its create, publish and listen operations are entries of the effect log.
- `get_event_provider` (locarc/providers/__init__.py) is not modelled as a cache. Each call carries the provider enumeration value. Its `ValueError` branch is unreachable because the enumeration has only PUBSUB.
- Signal handling (locarc/utils.py): operating-system plumbing.
- Concurrency and real time: concurrent delivery, cancellation, and what `Future.result(timeout=...)` does in time. A wait is one log entry carrying its timeout, and how it ends is the `settle` parameter. The three `except` clauses all do nothing, so `Cancelled`, `TimedOut` and `Failed` are treated alike.
- Exceptions outside `Exception` (`KeyboardInterrupt`, `SystemExit` and other `BaseException` subclasses) raised during a wait escape `entrypoint` (locarc/main.py:108-113 catch only `Exception` and its subclasses). `settle` has no outcome for them, so the model does not represent that escape.
- Provider call failures: `create_topic`, `create_subscription` and `listen_subscription` (locarc/main.py:82, 94, 96-99) and `publish_event` (locarc/callbacks.py:32) have no `try` around them, so an exception they raise ends `entrypoint` or the topic callback. An example is the backend reporting on a rerun that a topic already exists. Every `Backend` call in the model succeeds, and this failure is not represented.
- StartupProperties.StartupResultOk: its "if" direction (declared topics imply a normal return) holds only because the provider calls above cannot fail in the model.
- Callbacks.RunTopicCallback: its `outcome == Returned` holds only because `publish_event` cannot fail in the model.
- Message dispatch inside the provider (one subscriber per callback): callbacks are modelled per invocation, so there is no all-or-nothing ack after every sink.
- Logging calls (`LOGGER.warning`, `LOGGER.error`): no effect on control flow.
- Runtime type mismatches in locarc/main.py. The model follows the evident intent:
  - Id strings are passed to the callback factories, which expect records (lines 55, 58). Sinks carry the raw ids. The factories in `Callbacks` take resolved records, and the model never connects the two.
  - `create_subscription` is called with `(id, topic)` although the provider takes a `Subscription` (line 94): modelled as one creation with the ids and provider.
  - `create_topic` is called with the topic's id (line 82) although the provider takes a `Topic` (locarc/providers/pubsub.py:94-105). It is modelled as one creation with the id and provider.
  - The listener is stored as a one-element tuple (lines 95-100), on which `.result` would raise. `listen_subscription` itself returns a list of futures, one per callback (locarc/providers/pubsub.py:120-136). The model stores one handle, the listen's position in the log.
  - `futures[subscription]` (line 95) uses a pydantic `Subscription` as a dictionary key. That model is not frozen, so it is unhashable and the assignment would raise `TypeError`. The model gives the dictionary the evident intent: keys are subscription values, and equal subscriptions share one entry.
- The `arc.topics is None` tests (locarc/models.py:55-56, locarc/main.py:79): `topics` is a required list, so these branches cannot be taken and have no counterpart.
- Models.Arc.GetServiceById: the promise that a lookup leaves the `Arc` unchanged is stated by its form and not as a contract. Both lookups are functions of an immutable value.
- A service's `method` field is named `httpMethod`, because `method` is a Dafny keyword. URLs and paths are plain strings, with no URL validation or joining.
- Event payloads: JSON decoding belongs to the backend's event wrapper, so `Event.json` is given (None when the bytes are not valid JSON). Publishing carries the raw bytes.
- The entry point is one method that calls phase methods (`CreateTopics`, `StartSubscriptions`, `JoinFutures`); the phases share its local state as parameters and results.
- StartupProperties.WaitTargetsListener: states the per-wait property of a log made of the creations, the registrations and the joins, one wait at a time. It is not stated directly on `StartupLog`. `StartupLogAccepted` shows that on a normal return `StartupLog` is that log.
