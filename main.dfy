/**
 * Startup of an arc (locarc/main.py): the callback list of a subscription,
 * and the entry point that creates every topic, registers and starts every
 * subscription in order, aborting on the first undeclared topic, and then
 * waits on each listener with its effective timeout, swallowing every
 * exception the wait raises.
 *
 * The calls the entry point makes are recorded on a `Backend`; the way each
 * wait ends is a parameter (`settle`). `StartupLog` and `StartupResult` say,
 * as functions of the arc, what the entry point does; the lemmas at the end
 * state the ordering and abort properties of that log.
 */
module Main {
  import opened Wrappers
  import opened Models
  import opened Events

  /** How the entry point ends: normally, or with the arc validation error. */
  datatype Outcome = Ok | ValidationError

  /**
   * The listeners started so far: a dictionary from subscription to handle,
   * held as its entries in insertion order (what `futures.items()` yields).
   */
  type Futures = seq<(Subscription, Handle)>

  const NoFutures: Futures := []

  function OrEmpty(ids: Option<seq<string>>): seq<string> {
    ids.GetOr([])
  }

  // ---------------------------------------------------------------------------
  // Callback list

  function ServiceSinks(ids: seq<string>): (r: seq<Sink>)
    ensures |r| == |ids| && forall i :: 0 <= i < |ids| ==> r[i] == ServiceSink(ids[i])
  {
    seq(|ids|, i requires 0 <= i < |ids| => ServiceSink(ids[i]))
  }

  function TopicSinks(ids: seq<string>): (r: seq<Sink>)
    ensures |r| == |ids| && forall i :: 0 <= i < |ids| ==> r[i] == TopicSink(ids[i])
  {
    seq(|ids|, i requires 0 <= i < |ids| => TopicSink(ids[i]))
  }

  /**
   * The callbacks of a subscription with destinations `d`: one per declared
   * service id, in list order, followed by one per declared topic id, in
   * list order.
   */
  function CallbacksOf(d: SubscriptionDestinations): (r: seq<Sink>)
    ensures |r| == |OrEmpty(d.services)| + |OrEmpty(d.topics)|
  {
    ServiceSinks(OrEmpty(d.services)) + TopicSinks(OrEmpty(d.topics))
  }

  /** The callback at each position: the services' first, in list order, then the topics'. */
  lemma CallbacksOfSpec(d: SubscriptionDestinations)
    ensures forall i :: 0 <= i < |OrEmpty(d.services)| ==>
      CallbacksOf(d)[i] == ServiceSink(OrEmpty(d.services)[i])
    ensures forall j :: 0 <= j < |OrEmpty(d.topics)| ==>
      CallbacksOf(d)[|OrEmpty(d.services)| + j] == TopicSink(OrEmpty(d.topics)[j])
  {
  }

  /** Builds the callback list of a subscription by appending in two loops. */
  method ParseEventSubscriptionCallback(subscription: Subscription) returns (callbacks: seq<Sink>)
    ensures callbacks == CallbacksOf(subscription.destinations)
  {
    var d := subscription.destinations;
    callbacks := [];
    if d.services.Some? {
      var services := d.services.value;
      for i := 0 to |services|
        invariant callbacks == ServiceSinks(services[..i])
      {
        assert services[..i + 1] == services[..i] + [services[i]];
        callbacks := callbacks + [ServiceSink(services[i])];
      }
      assert services[..|services|] == services;
    }
    ghost var serviceSinks := callbacks;
    assert serviceSinks == ServiceSinks(OrEmpty(d.services));
    if d.topics.Some? {
      var topics := d.topics.value;
      for i := 0 to |topics|
        invariant callbacks == serviceSinks + TopicSinks(topics[..i])
      {
        assert topics[..i + 1] == topics[..i] + [topics[i]];
        callbacks := callbacks + [TopicSink(topics[i])];
      }
      assert topics[..|topics|] == topics;
    }
  }

  /** The callback at position `k` is a service callback exactly when `k` is below the number of services. */
  lemma SinkKindAt(d: SubscriptionDestinations, k: nat)
    requires k < |CallbacksOf(d)|
    ensures CallbacksOf(d)[k].ServiceSink? <==> k < |OrEmpty(d.services)|
  {
    var services, topics := ServiceSinks(OrEmpty(d.services)), TopicSinks(OrEmpty(d.topics));
    if k < |services| {
      assert CallbacksOf(d)[k] == services[k];
    } else {
      assert CallbacksOf(d)[k] == topics[k - |services|];
    }
  }

  /** Every service callback precedes every topic callback. */
  lemma ServicesBeforeTopics(d: SubscriptionDestinations)
    ensures forall i, j ::
      0 <= i < |CallbacksOf(d)| && 0 <= j < |CallbacksOf(d)| &&
      CallbacksOf(d)[i].ServiceSink? && CallbacksOf(d)[j].TopicSink?
      ==> i < j
  {
    forall i, j | 0 <= i < |CallbacksOf(d)| && 0 <= j < |CallbacksOf(d)| &&
                  CallbacksOf(d)[i].ServiceSink? && CallbacksOf(d)[j].TopicSink?
      ensures i < j
    {
      SinkKindAt(d, i);
      SinkKindAt(d, j);
    }
  }

  /** With neither destination list present, the callback list is empty. */
  lemma NoDestinationsNoCallbacks(d: SubscriptionDestinations)
    requires d.services.None? && d.topics.None?
    ensures CallbacksOf(d) == []
  {
  }

  // ---------------------------------------------------------------------------
  // Specification of the startup log

  /** One `create_topic` per declared topic, in declaration order, through that topic's provider. */
  function TopicCreations(topics: seq<Topic>): (r: seq<Effect>)
    ensures |r| == |topics|
    ensures forall i :: 0 <= i < |topics| ==> r[i] == CreateTopic(topics[i].provider, topics[i].id)
  {
    seq(|topics|, i requires 0 <= i < |topics| => CreateTopic(topics[i].provider, topics[i].id))
  }

  /** The two calls that register and start one subscription. */
  function Registration(s: Subscription): seq<Effect> {
    [CreateSubscription(s.provider, s.id, s.topic), Listen(s.provider, s, CallbacksOf(s.destinations))]
  }

  /** The registrations of `subs`, in order: create, then listen, for each. */
  function Registrations(subs: seq<Subscription>): (r: seq<Effect>)
    ensures |r| == 2 * |subs|
    decreases |subs|
  {
    if subs == [] then [] else Registration(subs[0]) + Registrations(subs[1..])
  }

  /** The registrations hold a create-then-listen pair per subscription, in order. */
  lemma {:induction false} RegistrationsAt(subs: seq<Subscription>)
    ensures forall i :: 0 <= i < |subs| ==>
      Registrations(subs)[2 * i] == CreateSubscription(subs[i].provider, subs[i].id, subs[i].topic) &&
      Registrations(subs)[2 * i + 1] == Listen(subs[i].provider, subs[i], CallbacksOf(subs[i].destinations))
    decreases |subs|
  {
    if subs != [] {
      RegistrationsAt(subs[1..]);
      var r := Registrations(subs);
      forall i | 1 <= i < |subs|
        ensures r[2 * i] == CreateSubscription(subs[i].provider, subs[i].id, subs[i].topic)
        ensures r[2 * i + 1] == Listen(subs[i].provider, subs[i], CallbacksOf(subs[i].destinations))
      {
        assert subs[i] == subs[1..][i - 1];
        assert r[2 * i] == Registrations(subs[1..])[2 * (i - 1)];
        assert r[2 * i + 1] == Registrations(subs[1..])[2 * (i - 1) + 1];
      }
    }
  }

  /** Registering `a` then `b` is registering `a + b`. */
  lemma {:induction false} RegistrationsAppend(a: seq<Subscription>, b: seq<Subscription>)
    ensures Registrations(a + b) == Registrations(a) + Registrations(b)
    decreases |a|
  {
    if a == [] {
      assert a + b == b;
    } else {
      assert (a + b)[1..] == a[1..] + b;
      RegistrationsAppend(a[1..], b);
    }
  }

  /**
   * The position of the first subscription whose topic is not declared, or
   * `|subs|` when every topic is declared.
   */
  function FirstUndeclared(arc: Arc, subs: seq<Subscription>): (k: nat)
    ensures k <= |subs|
    decreases |subs|
  {
    if subs == [] then 0
    else if arc.GetTopicById(subs[0].topic).None? then 0
    else 1 + FirstUndeclared(arc, subs[1..])
  }

  /** Every subscription before that position names a declared topic; the one at it does not. */
  lemma {:induction false} FirstUndeclaredSpec(arc: Arc, subs: seq<Subscription>)
    ensures forall j :: 0 <= j < FirstUndeclared(arc, subs) ==> arc.GetTopicById(subs[j].topic).Some?
    ensures FirstUndeclared(arc, subs) < |subs| ==> arc.GetTopicById(subs[FirstUndeclared(arc, subs)].topic).None?
    decreases |subs|
  {
    if subs != [] && arc.GetTopicById(subs[0].topic).Some? {
      FirstUndeclaredSpec(arc, subs[1..]);
      assert forall j :: 1 <= j < |subs| ==> subs[j] == subs[1..][j - 1];
    }
  }

  /** The keys of a dictionary, in insertion order. */
  function Keys(f: Futures): (r: seq<Subscription>)
    ensures |r| == |f|
    decreases |f|
  {
    if f == [] then [] else [f[0].0] + Keys(f[1..])
  }

  /** The `i`-th key is the key of the `i`-th entry. */
  lemma {:induction false} KeysAt(f: Futures)
    ensures forall i :: 0 <= i < |f| ==> Keys(f)[i] == f[i].0
    decreases |f|
  {
    if f != [] {
      KeysAt(f[1..]);
      forall i | 1 <= i < |f| ensures Keys(f)[i] == f[i].0 {
        assert Keys(f)[i] == Keys(f[1..])[i - 1];
      }
    }
  }

  /** No element occurs twice (the invariant of a dictionary's keys). */
  ghost predicate Distinct<T>(xs: seq<T>) {
    forall i, j :: 0 <= i < j < |xs| ==> xs[i] != xs[j]
  }

  /** `futures[s] = h`: an existing key keeps its place and takes the new handle; a new key goes last. */
  function Insert(f: Futures, s: Subscription, h: Handle): Futures
    decreases |f|
  {
    if f == [] then [(s, h)]
    else if f[0].0 == s then [(s, h)] + f[1..]
    else [f[0]] + Insert(f[1..], s, h)
  }

  /** Assignment leaves the key order alone when `s` is present and appends `s` otherwise. */
  lemma {:induction false} InsertKeys(f: Futures, s: Subscription, h: Handle)
    ensures s in Keys(f) ==> Keys(Insert(f, s, h)) == Keys(f)
    ensures s !in Keys(f) ==> Keys(Insert(f, s, h)) == Keys(f) + [s]
    decreases |f|
  {
    if f != [] {
      var t := f[1..];
      var r := Insert(f, s, h);
      if f[0].0 == s {
        assert r == [(s, h)] + t;
        assert r[1..] == t;
      } else {
        InsertKeys(t, s, h);
        var u := Insert(t, s, h);
        assert r == [f[0]] + u;
        assert r[1..] == u;
        assert s in Keys(f) <==> s in Keys(t);
        if s !in Keys(t) {
          assert Keys(r) == [f[0].0] + (Keys(t) + [s]);
        }
      }
    }
  }

  /** Assignment keeps the keys distinct. */
  lemma InsertDistinct(f: Futures, s: Subscription, h: Handle)
    requires Distinct(Keys(f))
    ensures Distinct(Keys(Insert(f, s, h)))
  {
    InsertKeys(f, s, h);
  }

  /** After assignment the entry `e` is present exactly when it is `(s, h)` or an earlier entry for another key. */
  lemma {:induction false} InsertEntry(f: Futures, s: Subscription, h: Handle, e: (Subscription, Handle))
    requires Distinct(Keys(f))
    ensures e in Insert(f, s, h) <==> e == (s, h) || (e in f && e.0 != s)
    decreases |f|
  {
    if f != [] {
      var t := f[1..];
      assert Keys(t) == Keys(f)[1..];
      assert e in f <==> e == f[0] || e in t;
      if f[0].0 == s {
        if e in t {
          KeysAt(f);
          var i :| 0 <= i < |t| && t[i] == e;
          assert Keys(f)[i + 1] == e.0 && Keys(f)[0] == s;
        }
      } else {
        InsertEntry(t, s, h, e);
      }
    }
  }

  /** After assignment `s` maps to `h` and every other entry is as before. */
  lemma InsertEntries(f: Futures, s: Subscription, h: Handle)
    requires Distinct(Keys(f))
    ensures forall e :: e in Insert(f, s, h) <==> e == (s, h) || (e in f && e.0 != s)
  {
    forall e ensures e in Insert(f, s, h) <==> e == (s, h) || (e in f && e.0 != s) {
      InsertEntry(f, s, h, e);
    }
  }

  /** The position of the last occurrence of `s` in `subs`. */
  function LastIndex(subs: seq<Subscription>, s: Subscription): (i: nat)
    requires s in subs
    ensures i < |subs| && subs[i] == s
    ensures forall j :: i < j < |subs| ==> subs[j] != s
    decreases |subs|
  {
    var n := |subs| - 1;
    if subs[n] == s then n
    else
      assert s in subs[..n] by {
        var i :| 0 <= i < |subs| && subs[i] == s;
        assert subs[..n][i] == s;
      }
      var i := LastIndex(subs[..n], s);
      assert subs[i] == subs[..n][i];
      i
  }

  /** The last occurrence in `subs` is its final element or the last occurrence in the rest. */
  lemma LastIndexFront(subs: seq<Subscription>, s: Subscription)
    requires subs != []
    ensures s == subs[|subs| - 1] ==> LastIndex(subs, s) == |subs| - 1
    ensures s != subs[|subs| - 1] ==> (s in subs <==> s in subs[..|subs| - 1])
    ensures s != subs[|subs| - 1] && s in subs ==> LastIndex(subs, s) == LastIndex(subs[..|subs| - 1], s)
  {
    assert subs == subs[..|subs| - 1] + [subs[|subs| - 1]];
  }

  /**
   * The dictionary after assigning `futures[subs[i]]` for each `i` in turn,
   * where the listener of `subs[i]` was started at log position
   * `pos + 2 * i + 1`.
   */
  function TableOf(subs: seq<Subscription>, pos: nat): Futures
    decreases |subs|
  {
    if subs == [] then NoFutures
    else
      var n := |subs| - 1;
      Insert(TableOf(subs[..n], pos), subs[n], Handle(pos + 2 * n + 1))
  }

  /** The dictionary's keys are the subscriptions, each once. */
  lemma {:induction false} TableKeys(subs: seq<Subscription>, pos: nat)
    ensures Distinct(Keys(TableOf(subs, pos)))
    ensures forall t :: t in Keys(TableOf(subs, pos)) <==> t in subs
    decreases |subs|
  {
    if subs != [] {
      var n := |subs| - 1;
      var front := subs[..n];
      TableKeys(front, pos);
      InsertKeys(TableOf(front, pos), subs[n], Handle(pos + 2 * n + 1));
      InsertDistinct(TableOf(front, pos), subs[n], Handle(pos + 2 * n + 1));
      assert subs == front + [subs[n]];
    }
  }

  /**
   * An entry is in the dictionary exactly when it maps a subscription to the
   * listener started for that subscription's LAST occurrence in `subs`.
   */
  lemma {:induction false} TableEntry(subs: seq<Subscription>, pos: nat, e: (Subscription, Handle))
    ensures e in TableOf(subs, pos) <==>
      e.0 in subs && e.1 == Handle(pos + 2 * LastIndex(subs, e.0) + 1)
    decreases |subs|
  {
    if subs != [] {
      var n := |subs| - 1;
      var front, t, h := subs[..n], subs[n], Handle(pos + 2 * n + 1);
      assert TableOf(subs, pos) == Insert(TableOf(front, pos), t, h);
      TableEntry(front, pos, e);
      assert Distinct(Keys(TableOf(front, pos))) by { TableKeys(front, pos); }
      InsertEntry(TableOf(front, pos), t, h, e);
      LastIndexFront(subs, e.0);
    }
  }

  /** Every subscription has an entry, and every entry is a subscription's last listener. */
  lemma TableEntries(subs: seq<Subscription>, pos: nat)
    ensures forall e :: e in TableOf(subs, pos) <==>
      e.0 in subs && e.1 == Handle(pos + 2 * LastIndex(subs, e.0) + 1)
  {
    forall e ensures e in TableOf(subs, pos) <==>
      e.0 in subs && e.1 == Handle(pos + 2 * LastIndex(subs, e.0) + 1)
    {
      TableEntry(subs, pos, e);
    }
  }

  /** Without repeated subscriptions, the dictionary's order is the declaration order. */
  lemma {:induction false} TableOrderDistinct(subs: seq<Subscription>, pos: nat)
    requires Distinct(subs)
    ensures Keys(TableOf(subs, pos)) == subs
    decreases |subs|
  {
    if subs != [] {
      var n := |subs| - 1;
      var front := subs[..n];
      TableOrderDistinct(front, pos);
      InsertKeys(TableOf(front, pos), subs[n], Handle(pos + 2 * n + 1));
      assert subs[n] !in front by {
        forall i | 0 <= i < n ensures front[i] != subs[n] {
          assert front[i] == subs[i];
        }
      }
      assert subs == front + [subs[n]];
    }
  }

  /** One more subscription registered after `log`. */
  lemma RegistrationsStep(log: seq<Effect>, subs: seq<Subscription>, i: nat)
    requires i < |subs|
    ensures log + Registrations(subs[..i + 1]) == log + Registrations(subs[..i]) + Registration(subs[i])
  {
    assert subs[..i + 1] == subs[..i] + [subs[i]];
    RegistrationsAppend(subs[..i], [subs[i]]);
    assert Registrations([subs[i]]) == Registration(subs[i]);
  }

  /** One step of filling the dictionary, at position `i` of `subs`. */
  lemma TableStep(subs: seq<Subscription>, i: nat, pos: nat)
    requires i < |subs|
    ensures TableOf(subs[..i + 1], pos) == Insert(TableOf(subs[..i], pos), subs[i], Handle(pos + 2 * i + 1))
  {
    assert subs[..i + 1][..i] == subs[..i];
  }

  /** The timeout a wait uses: the subscription's own when present, else the default. */
  function EffectiveTimeout(own: Option<Duration>, default: Option<Duration>): (t: Option<Duration>)
    ensures own.Some? ==> t == own
    ensures own.None? ==> t == default
  {
    if own.Some? then own else default
  }

  /** A wait on every entry of `items`, in order, each with its effective timeout. */
  function Waits(items: Futures, default: Option<Duration>): (r: seq<Effect>)
    ensures |r| == |items|
    ensures forall i :: 0 <= i < |items| ==>
      r[i] == Wait(items[i].1, EffectiveTimeout(items[i].0.timeout, default))
  {
    seq(|items|, i requires 0 <= i < |items| => Wait(items[i].1, EffectiveTimeout(items[i].0.timeout, default)))
  }

  /** One more wait. */
  lemma WaitsStep(items: Futures, j: nat, default: Option<Duration>)
    requires j < |items|
    ensures Waits(items[..j + 1], default) ==
      Waits(items[..j], default) + [Wait(items[j].1, EffectiveTimeout(items[j].0.timeout, default))]
  {
    assert Waits(items[..j + 1], default) ==
      Waits(items[..j], default) + [Wait(items[j].1, EffectiveTimeout(items[j].0.timeout, default))];
  }

  /** The position of the first entry whose wait raises, or `|items|` when none does. */
  function FirstRaised(items: Futures, default: Option<Duration>,
                       settle: (Handle, Option<Duration>) -> JoinOutcome): (k: nat)
    ensures k <= |items|
    decreases |items|
  {
    if items == [] then 0
    else if settle(items[0].1, EffectiveTimeout(items[0].0.timeout, default)) != Completed then 0
    else 1 + FirstRaised(items[1..], default, settle)
  }

  /** Every wait before that position completes; the one at it raises. */
  lemma {:induction false} FirstRaisedSpec(items: Futures, default: Option<Duration>,
                                           settle: (Handle, Option<Duration>) -> JoinOutcome)
    ensures forall i :: 0 <= i < FirstRaised(items, default, settle) ==>
      settle(items[i].1, EffectiveTimeout(items[i].0.timeout, default)) == Completed
    ensures FirstRaised(items, default, settle) < |items| ==>
      settle(items[FirstRaised(items, default, settle)].1,
             EffectiveTimeout(items[FirstRaised(items, default, settle)].0.timeout, default)) != Completed
    decreases |items|
  {
    if items != [] && settle(items[0].1, EffectiveTimeout(items[0].0.timeout, default)) == Completed {
      FirstRaisedSpec(items[1..], default, settle);
      assert forall j :: 1 <= j < |items| ==> items[j] == items[1..][j - 1];
    }
  }

  /**
   * The waits of the join phase: every entry in order up to and including
   * the first whose wait raises; the exception ends the phase.
   */
  function Joins(items: Futures, default: Option<Duration>,
                 settle: (Handle, Option<Duration>) -> JoinOutcome): seq<Effect>
  {
    var k := FirstRaised(items, default, settle);
    Waits(items[..if k < |items| then k + 1 else k], default)
  }

  /** How the entry point ends on `arc`. */
  function StartupResult(arc: Arc): Outcome {
    match arc.subscriptions
    case None => ValidationError
    case Some(subs) => if FirstUndeclared(arc, subs) < |subs| then ValidationError else Ok
  }

  /** The subscriptions the entry point registers and starts: those before the first undeclared topic. */
  function Started(arc: Arc): seq<Subscription> {
    match arc.subscriptions
    case None => []
    case Some(subs) => subs[..FirstUndeclared(arc, subs)]
  }

  /**
   * The waits of the join phase, for a log that held `base` entries before
   * the entry point ran; none when the entry point stops before it.
   */
  function JoinPhase(arc: Arc, default: Option<Duration>,
                     settle: (Handle, Option<Duration>) -> JoinOutcome, base: nat): seq<Effect>
  {
    match arc.subscriptions
    case None => []
    case Some(subs) =>
      if FirstUndeclared(arc, subs) < |subs| then []
      else Joins(TableOf(subs, base + |arc.topics|), default, settle)
  }

  /**
   * The calls the entry point makes on `arc`, appended to a log that already
   * held `base` entries (listener handles are log positions): the topic
   * creations, the registrations of the started subscriptions, the waits.
   */
  function StartupLog(arc: Arc, default: Option<Duration>,
                      settle: (Handle, Option<Duration>) -> JoinOutcome, base: nat): seq<Effect>
  {
    TopicCreations(arc.topics) + Registrations(Started(arc)) + JoinPhase(arc, default, settle, base)
  }

  // ---------------------------------------------------------------------------
  // The entry point

  /** Appending to a log in steps is appending the steps' concatenation. */
  lemma AppendSteps(log: seq<Effect>, a: seq<Effect>, b: seq<Effect>, c: seq<Effect>)
    ensures log + a + b + c == log + (a + b + c)
  {
  }

  /** The join phase of an arc whose subscriptions all name declared topics walks the whole dictionary. */
  lemma JoinPhaseJoined(arc: Arc, subs: seq<Subscription>, default: Option<Duration>,
                        settle: (Handle, Option<Duration>) -> JoinOutcome, base: nat)
    requires arc.subscriptions == Some(subs)
    requires FirstUndeclared(arc, subs) == |subs|
    ensures JoinPhase(arc, default, settle, base) == Joins(TableOf(subs, base + |arc.topics|), default, settle)
  {
  }

  /** Creates every declared topic, in declaration order, through the topic's provider. */
  method CreateTopics(topics: seq<Topic>, b: Backend)
    modifies b
    ensures b.log == old(b.log) + TopicCreations(topics)
  {
    for i := 0 to |topics|
      invariant b.log == old(b.log) + TopicCreations(topics[..i])
    {
      b.CreateTopic(topics[i].provider, topics[i].id);
      assert TopicCreations(topics[..i + 1]) == TopicCreations(topics[..i]) + [CreateTopic(topics[i].provider, topics[i].id)];
    }
    assert topics[..|topics|] == topics;
  }

  /** Builds the callbacks of `subscription`, creates it and starts its listener. */
  method StartSubscription(subscription: Subscription, b: Backend) returns (handle: Handle)
    modifies b
    ensures b.log == old(b.log) + Registration(subscription)
    ensures handle == Handle(|old(b.log)| + 1)
  {
    var callbacks := ParseEventSubscriptionCallback(subscription);
    b.CreateSubscription(subscription.provider, subscription.id, subscription.topic);
    handle := b.ListenSubscription(subscription.provider, subscription, callbacks);
  }

  /**
   * For each subscription in order: checks that its topic is declared
   * (stopping at the first that is not), starts it and records the
   * listener's handle.
   */
  method StartSubscriptions(arc: Arc, subs: seq<Subscription>, b: Backend)
    returns (accepted: bool, futures: Futures)
    modifies b
    ensures accepted <==> FirstUndeclared(arc, subs) == |subs|
    ensures b.log == old(b.log) + Registrations(subs[..FirstUndeclared(arc, subs)])
    ensures accepted ==> futures == TableOf(subs, |old(b.log)|)
  {
    ghost var k := FirstUndeclared(arc, subs);
    FirstUndeclaredSpec(arc, subs);
    ghost var start := |b.log|;
    futures := NoFutures;
    for i := 0 to |subs|
      invariant i <= k
      invariant b.log == old(b.log) + Registrations(subs[..i])
      invariant futures == TableOf(subs[..i], start)
    {
      var subscription := subs[i];
      var topic := arc.GetTopicById(subscription.topic);
      if topic.None? {
        assert i == k;
        return false, futures;
      }
      assert i < k;
      RegistrationsStep(old(b.log), subs, i);
      ghost var before := |b.log|;
      assert before == start + 2 * i;
      var handle := StartSubscription(subscription, b);
      assert handle == Handle(start + 2 * i + 1);
      TableStep(subs, i, start);
      futures := Insert(futures, subscription, handle);
    }
    assert subs[..|subs|] == subs;
    accepted := true;
  }

  /**
   * Waits on each listener in dictionary order with its effective timeout;
   * the first wait that raises ends the phase and its exception is swallowed.
   */
  method JoinFutures(futures: Futures, defaultTimeout: Option<Duration>,
                     settle: (Handle, Option<Duration>) -> JoinOutcome, b: Backend)
    modifies b
    ensures b.log == old(b.log) + Joins(futures, defaultTimeout, settle)
  {
    var items := futures;
    ghost var k := FirstRaised(items, defaultTimeout, settle);
    FirstRaisedSpec(items, defaultTimeout, settle);
    var j := 0;
    while j < |items|
      invariant j <= k
      invariant b.log == old(b.log) + Waits(items[..j], defaultTimeout)
    {
      var (subscription, handle) := items[j];
      var timeout := subscription.timeout;
      if timeout.None? {
        timeout := defaultTimeout;
      }
      b.Wait(handle, timeout);
      WaitsStep(items, j, defaultTimeout);
      if settle(handle, timeout) != Completed {
        // The exception leaves the loop and is swallowed.
        assert j == k;
        return;
      }
      j := j + 1;
    }
    assert j == k && items[..j] == items;
  }

  /**
   * Runs an arc against the backend `b`: the loaded arc is a parameter (file
   * loading is not modelled), `settle` says how waiting on each listener
   * ends.
   */
  method Entrypoint(arc: Arc, defaultTimeout: Option<Duration>,
                    settle: (Handle, Option<Duration>) -> JoinOutcome, b: Backend)
    returns (result: Outcome)
    modifies b
    ensures result == StartupResult(arc)
    ensures b.log == old(b.log) + StartupLog(arc, defaultTimeout, settle, |old(b.log)|)
  {
    ghost var base := |b.log|;
    ghost var creations := TopicCreations(arc.topics);
    CreateTopics(arc.topics, b);
    if arc.subscriptions.None? {
      assert Registrations([]) == [];
      return ValidationError;
    }
    var subs := arc.subscriptions.value;
    var accepted, futures := StartSubscriptions(arc, subs, b);
    ghost var registered := Registrations(Started(arc));
    if !accepted {
      AppendSteps(old(b.log), creations, registered, []);
      return ValidationError;
    }
    ghost var joins := Joins(futures, defaultTimeout, settle);
    JoinFutures(futures, defaultTimeout, settle, b);
    assert b.log == old(b.log) + creations + registered + joins;
    JoinPhaseJoined(arc, subs, defaultTimeout, settle, base);
    assert StartupLog(arc, defaultTimeout, settle, base) == creations + registered + joins;
    AppendSteps(old(b.log), creations, registered, joins);
    result := Ok;
  }
}
