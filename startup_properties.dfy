/**
 * Properties of the startup sequence of locarc/main.py, stated on the calls
 * the entry point makes (`Main.StartupLog`) and on how it ends
 * (`Main.StartupResult`): topics first, aborts on a missing subscription
 * list or an undeclared topic after the earlier subscriptions have started,
 * create before listen, every listen before every join, each join on the
 * listener of its subscription with its effective timeout, and every join
 * exception swallowed.
 */
module StartupProperties {
  import opened Wrappers
  import opened Models
  import opened Events
  import opened Main

  /** Every entry of a registration sequence is a subscription creation or a listen. */
  lemma {:induction false} RegistrationKinds(subs: seq<Subscription>)
    ensures forall q :: 0 <= q < |Registrations(subs)| ==>
      Registrations(subs)[q].CreateSubscription? || Registrations(subs)[q].Listen?
    decreases |subs|
  {
    if subs != [] {
      RegistrationKinds(subs[1..]);
      var r := Registrations(subs);
      forall q | 2 <= q < |r| ensures r[q].CreateSubscription? || r[q].Listen? {
        assert r[q] == Registrations(subs[1..])[q - 2];
      }
    }
  }

  /** Every entry of the join phase is a wait. */
  lemma JoinPhaseKinds(arc: Arc, default: Option<Duration>,
                       settle: (Handle, Option<Duration>) -> JoinOutcome, base: nat)
    ensures forall q :: 0 <= q < |JoinPhase(arc, default, settle, base)| ==>
      JoinPhase(arc, default, settle, base)[q].Wait?
  {
  }

  /** Indexing into a log made of three phases. */
  lemma PhaseAt<T>(a: seq<T>, b: seq<T>, c: seq<T>, q: nat)
    requires q < |a| + |b| + |c|
    ensures q < |a| ==> (a + b + c)[q] == a[q]
    ensures |a| <= q < |a| + |b| ==> (a + b + c)[q] == b[q - |a|]
    ensures |a| + |b| <= q ==> (a + b + c)[q] == c[q - |a| - |b|]
  {
  }

  /** The pair of entries at positions `2 * k` and `2 * k + 1` of the middle phase. */
  lemma PhasePair<T>(a: seq<T>, b: seq<T>, c: seq<T>, n: nat, k: nat, x: T, y: T)
    requires n == |a| && 2 * k + 1 < |b|
    requires b[2 * k] == x && b[2 * k + 1] == y
    ensures (a + b + c)[n + 2 * k] == x && (a + b + c)[n + 2 * k + 1] == y
  {
  }

  /** An entry of the first part of a log made of two parts. */
  lemma PrefixAt<T>(a: seq<T>, c: seq<T>, q: nat)
    requires q < |a|
    ensures (a + c)[q] == a[q]
  {
  }

  /** An entry of the second part of a log made of two parts. */
  lemma SuffixAt<T>(a: seq<T>, c: seq<T>, n: nat, k: nat)
    requires n == |a| && k < |c|
    ensures (a + c)[n + k] == c[k]
  {
  }

  // The shape of a log made of topic creations, then registrations, then waits.

  /** The kind of the entry at each position of such a log. */
  lemma KindInShape(topics: seq<Topic>, started: seq<Subscription>, joins: seq<Effect>, q: nat)
    requires forall p :: 0 <= p < |joins| ==> joins[p].Wait?
    requires q < |TopicCreations(topics) + Registrations(started) + joins|
    ensures var e := (TopicCreations(topics) + Registrations(started) + joins)[q];
      (q < |topics| ==> e == CreateTopic(topics[q].provider, topics[q].id)) &&
      (e.CreateTopic? <==> q < |topics|) && (e.Wait? <==> q >= |topics| + 2 * |started|)
  {
    RegistrationKinds(started);
    PhaseAt(TopicCreations(topics), Registrations(started), joins, q);
  }

  /** The two entries registering subscription `j`. */
  lemma RegistrationPair(subs: seq<Subscription>, j: nat)
    requires j < |subs|
    ensures Registrations(subs)[2 * j] == CreateSubscription(subs[j].provider, subs[j].id, subs[j].topic)
    ensures Registrations(subs)[2 * j + 1] == Listen(subs[j].provider, subs[j], CallbacksOf(subs[j].destinations))
  {
    RegistrationsAt(subs);
  }

  /** The registration entries of such a log sit right after the topic creations. */
  lemma RegistrationsInShape(topics: seq<Topic>, started: seq<Subscription>, joins: seq<Effect>, j: nat)
    requires j < |started|
    ensures (TopicCreations(topics) + Registrations(started) + joins)[|topics| + 2 * j] ==
      Registrations(started)[2 * j]
    ensures (TopicCreations(topics) + Registrations(started) + joins)[|topics| + 2 * j + 1] ==
      Registrations(started)[2 * j + 1]
  {
    PhasePair(TopicCreations(topics), Registrations(started), joins, |topics|, j,
              Registrations(started)[2 * j], Registrations(started)[2 * j + 1]);
  }

  /** The two entries registering subscription `j` of such a log. */
  lemma RegistrationInShape(topics: seq<Topic>, started: seq<Subscription>, joins: seq<Effect>, j: nat)
    requires j < |started|
    ensures (TopicCreations(topics) + Registrations(started) + joins)[|topics| + 2 * j] ==
      CreateSubscription(started[j].provider, started[j].id, started[j].topic)
    ensures (TopicCreations(topics) + Registrations(started) + joins)[|topics| + 2 * j + 1] ==
      Listen(started[j].provider, started[j], CallbacksOf(started[j].destinations))
  {
    RegistrationsInShape(topics, started, joins, j);
    RegistrationPair(started, j);
  }

  /**
   * A handle naming the listen of the last registration of a subscription
   * points, within the topic creations and registrations, at that listen.
   */
  lemma ListenAt(topics: seq<Topic>, subs: seq<Subscription>, s: Subscription, h: Handle, base: nat)
    requires s in subs && h == Handle(base + |topics| + 2 * LastIndex(subs, s) + 1)
    ensures var registered := TopicCreations(topics) + Registrations(subs);
      base + |topics| <= h.ticket < base + |registered| &&
      registered[h.ticket - base] == Listen(s.provider, s, CallbacksOf(s.destinations))
  {
    var i := LastIndex(subs, s);
    RegistrationPair(subs, i);
    assert (TopicCreations(topics) + Registrations(subs))[|topics| + 2 * i + 1] == Registrations(subs)[2 * i + 1];
  }

  // The startup log

  /**
   * The first entries create every declared topic, once each and in
   * declaration order, through the topic's provider; no topic is created
   * after them.
   */
  lemma TopicsCreatedFirst(arc: Arc, default: Option<Duration>,
                           settle: (Handle, Option<Duration>) -> JoinOutcome, base: nat)
    ensures |arc.topics| <= |StartupLog(arc, default, settle, base)|
    ensures forall i :: 0 <= i < |arc.topics| ==>
      StartupLog(arc, default, settle, base)[i] == CreateTopic(arc.topics[i].provider, arc.topics[i].id)
    ensures forall q :: |arc.topics| <= q < |StartupLog(arc, default, settle, base)| ==>
      !StartupLog(arc, default, settle, base)[q].CreateTopic?
  {
    JoinPhaseKinds(arc, default, settle, base);
    var log := StartupLog(arc, default, settle, base);
    forall q | 0 <= q < |log|
      ensures q < |arc.topics| ==> log[q] == CreateTopic(arc.topics[q].provider, arc.topics[q].id)
      ensures (log[q].CreateTopic? <==> q < |arc.topics|)
    {
      KindInShape(arc.topics, Started(arc), JoinPhase(arc, default, settle, base), q);
    }
  }

  /**
   * Without a subscription list the entry point ends with the validation
   * error right after creating the topics: no subscription is created, no
   * listener started, nothing joined.
   */
  lemma NoSubscriptionsAborts(arc: Arc, default: Option<Duration>,
                              settle: (Handle, Option<Duration>) -> JoinOutcome, base: nat)
    requires arc.subscriptions.None?
    ensures StartupResult(arc) == ValidationError
    ensures |StartupLog(arc, default, settle, base)| == |arc.topics|
    ensures forall q :: 0 <= q < |StartupLog(arc, default, settle, base)| ==>
      StartupLog(arc, default, settle, base)[q].CreateTopic?
  {
  }

  /**
   * The started subscriptions are a prefix of the declared ones, and each
   * names a declared topic.
   */
  lemma StartedPrefix(arc: Arc)
    ensures arc.subscriptions.None? ==> Started(arc) == []
    ensures arc.subscriptions.Some? ==> Started(arc) <= arc.subscriptions.value
    ensures forall j :: 0 <= j < |Started(arc)| ==> arc.GetTopicById(Started(arc)[j].topic).Some?
  {
    if arc.subscriptions.Some? {
      var subs := arc.subscriptions.value;
      FirstUndeclaredSpec(arc, subs);
      forall j | 0 <= j < |Started(arc)| ensures arc.GetTopicById(Started(arc)[j].topic).Some? {
        assert Started(arc)[j] == subs[j];
      }
    }
  }

  /**
   * Right after the topic creations, each started subscription is created
   * and then listened to, in declaration order, with its callback list.
   */
  lemma SubscriptionsStartedInOrder(arc: Arc, default: Option<Duration>,
                                    settle: (Handle, Option<Duration>) -> JoinOutcome, base: nat)
    ensures |arc.topics| + 2 * |Started(arc)| <= |StartupLog(arc, default, settle, base)|
    ensures forall j :: 0 <= j < |Started(arc)| ==>
      var s := Started(arc)[j];
      StartupLog(arc, default, settle, base)[|arc.topics| + 2 * j] == CreateSubscription(s.provider, s.id, s.topic) &&
      StartupLog(arc, default, settle, base)[|arc.topics| + 2 * j + 1] == Listen(s.provider, s, CallbacksOf(s.destinations))
  {
    forall j | 0 <= j < |Started(arc)| {
      RegistrationInShape(arc.topics, Started(arc), JoinPhase(arc, default, settle, base), j);
    }
  }

  /**
   * When subscription `k` names an undeclared topic the entry point ends
   * with the validation error; it started at most the `k` subscriptions
   * before it (exactly those when `k` is the first offender), started
   * nothing from `k` on, and joined nothing.
   */
  lemma UndeclaredTopicAborts(arc: Arc, subs: seq<Subscription>, k: nat, default: Option<Duration>,
                              settle: (Handle, Option<Duration>) -> JoinOutcome, base: nat)
    requires arc.subscriptions == Some(subs)
    requires k < |subs| && arc.GetTopicById(subs[k].topic).None?
    ensures StartupResult(arc) == ValidationError
    ensures Started(arc) <= subs[..k]
    ensures (forall j :: 0 <= j < k ==> arc.GetTopicById(subs[j].topic).Some?) ==> Started(arc) == subs[..k]
    ensures StartupLog(arc, default, settle, base) == TopicCreations(arc.topics) + Registrations(Started(arc))
  {
    FirstUndeclaredSpec(arc, subs);
    var first := FirstUndeclared(arc, subs);
    assert first <= k;
    if forall j :: 0 <= j < k ==> arc.GetTopicById(subs[j].topic).Some? {
      assert first == k;
    }
  }

  /** Every topic creation, subscription creation and listen comes before every wait. */
  lemma ListensBeforeWaits(arc: Arc, default: Option<Duration>,
                           settle: (Handle, Option<Duration>) -> JoinOutcome, base: nat)
    ensures forall q :: 0 <= q < |StartupLog(arc, default, settle, base)| ==>
      (StartupLog(arc, default, settle, base)[q].Wait? <==> q >= |arc.topics| + 2 * |Started(arc)|)
  {
    JoinPhaseKinds(arc, default, settle, base);
    var log := StartupLog(arc, default, settle, base);
    forall q | 0 <= q < |log| ensures (log[q].Wait? <==> q >= |arc.topics| + 2 * |Started(arc)|) {
      KindInShape(arc.topics, Started(arc), JoinPhase(arc, default, settle, base), q);
    }
  }

  /**
   * The entry point returns normally exactly when the subscription list is
   * present and every subscription names a declared topic, whatever the
   * joins do: no join exception escapes.
   */
  lemma StartupResultOk(arc: Arc)
    ensures StartupResult(arc) == Ok <==>
      arc.subscriptions.Some? &&
      forall s :: s in arc.subscriptions.value ==> arc.GetTopicById(s.topic).Some?
  {
    if arc.subscriptions.Some? {
      var subs := arc.subscriptions.value;
      FirstUndeclaredSpec(arc, subs);
      if FirstUndeclared(arc, subs) < |subs| {
        assert subs[FirstUndeclared(arc, subs)] in subs;
      } else {
        forall s | s in subs ensures arc.GetTopicById(s.topic).Some? {
          var j :| 0 <= j < |subs| && subs[j] == s;
        }
      }
    }
  }

  /**
   * The join phase waits on the entries in order, each with its effective
   * timeout; every wait but the last completed; it stops early only right
   * after a wait that raised, and when no wait raises it waits on every
   * entry.
   */
  lemma {:induction false} JoinsStopAtFirstRaise(items: Futures, default: Option<Duration>,
                                                 settle: (Handle, Option<Duration>) -> JoinOutcome)
    ensures |Joins(items, default, settle)| <= |items|
    ensures forall j :: 0 <= j < |Joins(items, default, settle)| ==>
      Joins(items, default, settle)[j] == Wait(items[j].1, EffectiveTimeout(items[j].0.timeout, default))
    ensures forall j :: 0 <= j < |Joins(items, default, settle)| - 1 ==>
      settle(items[j].1, EffectiveTimeout(items[j].0.timeout, default)) == Completed
    ensures |Joins(items, default, settle)| < |items| ==>
      var last := |Joins(items, default, settle)| - 1;
      0 <= last && settle(items[last].1, EffectiveTimeout(items[last].0.timeout, default)) != Completed
    ensures (forall j :: 0 <= j < |items| ==> settle(items[j].1, EffectiveTimeout(items[j].0.timeout, default)) == Completed) ==>
      |Joins(items, default, settle)| == |items|
  {
    FirstRaisedSpec(items, default, settle);
    var k := FirstRaised(items, default, settle);
    var m := if k < |items| then k + 1 else k;
    assert |Joins(items, default, settle)| == m;
    forall j | 0 <= j < m
      ensures Joins(items, default, settle)[j] == Wait(items[j].1, EffectiveTimeout(items[j].0.timeout, default))
    {
      assert items[..m][j] == items[j];
    }
  }

  /**
   * When the entry point returns normally all subscriptions were started
   * and the join phase walks the whole dictionary.
   */
  lemma StartupLogAccepted(arc: Arc, subs: seq<Subscription>, default: Option<Duration>,
                           settle: (Handle, Option<Duration>) -> JoinOutcome, base: nat)
    requires arc.subscriptions == Some(subs) && StartupResult(arc) == Ok
    ensures Started(arc) == subs
    ensures StartupLog(arc, default, settle, base) ==
      TopicCreations(arc.topics) + Registrations(subs) + Joins(TableOf(subs, base + |arc.topics|), default, settle)
  {
    assert subs[..|subs|] == subs;
    JoinPhaseJoined(arc, subs, default, settle, base);
  }

  /** The forward half of TableEntry, at one position of the dictionary. */
  lemma TableSoundAt(subs: seq<Subscription>, pos: nat, j: nat)
    requires j < |TableOf(subs, pos)|
    ensures TableOf(subs, pos)[j].0 in subs
    ensures TableOf(subs, pos)[j].1 == Handle(pos + 2 * LastIndex(subs, TableOf(subs, pos)[j].0) + 1)
  {
    TableEntry(subs, pos, TableOf(subs, pos)[j]);
  }

  /** One wait of the join phase: the entry it waits on, with that entry's effective timeout. */
  lemma JoinAt(items: Futures, default: Option<Duration>,
               settle: (Handle, Option<Duration>) -> JoinOutcome, j: nat)
    requires j < |Joins(items, default, settle)|
    ensures j < |items|
    ensures Joins(items, default, settle)[j] == Wait(items[j].1, EffectiveTimeout(items[j].0.timeout, default))
  {
    JoinsStopAtFirstRaise(items, default, settle);
  }

  /**
   * In a log made of the topic creations, the registrations of `subs` and
   * then waits, a wait on a table entry whose handle names the listen of
   * the last registration of its subscription waits on that listener.
   */
  lemma WaitInShape(topics: seq<Topic>, subs: seq<Subscription>, t: Futures, joins: seq<Effect>,
                    log: seq<Effect>, default: Option<Duration>, base: nat, j: nat)
    requires log == TopicCreations(topics) + Registrations(subs) + joins
    requires j < |joins| && j < |t| && joins[j] == Wait(t[j].1, EffectiveTimeout(t[j].0.timeout, default))
    requires t[j].0 in subs && t[j].1 == Handle(base + |topics| + 2 * LastIndex(subs, t[j].0) + 1)
    ensures var start := |topics| + 2 * |subs|;
      log[start + j] == Wait(t[j].1, EffectiveTimeout(t[j].0.timeout, default)) &&
      base <= t[j].1.ticket < base + start &&
      log[t[j].1.ticket - base] == Listen(t[j].0.provider, t[j].0, CallbacksOf(t[j].0.destinations))
  {
    var registered := TopicCreations(topics) + Registrations(subs);
    SuffixAt(registered, joins, |topics| + 2 * |subs|, j);
    ListenAt(topics, subs, t[j].0, t[j].1, base);
    PrefixAt(registered, joins, t[j].1.ticket - base);
  }

  /**
   * Wait `j` of the join phase that follows the topic creations and the
   * registrations of `subs` in a log that held `base` earlier entries: it
   * waits on dictionary entry `j` with that entry's effective timeout, and
   * the entry's handle points at the listen started for its subscription.
   */
  lemma WaitTargetsListener(topics: seq<Topic>, subs: seq<Subscription>, default: Option<Duration>,
                            settle: (Handle, Option<Duration>) -> JoinOutcome, base: nat, j: nat)
    requires j < |Joins(TableOf(subs, base + |topics|), default, settle)|
    ensures var t := TableOf(subs, base + |topics|);
      var log := TopicCreations(topics) + Registrations(subs) + Joins(t, default, settle);
      var start := |topics| + 2 * |subs|;
      j < |t| &&
      log[start + j] == Wait(t[j].1, EffectiveTimeout(t[j].0.timeout, default)) &&
      base <= t[j].1.ticket < base + start &&
      log[t[j].1.ticket - base] == Listen(t[j].0.provider, t[j].0, CallbacksOf(t[j].0.destinations))
  {
    var t := TableOf(subs, base + |topics|);
    JoinAt(t, default, settle, j);
    TableSoundAt(subs, base + |topics|, j);
    WaitInShape(topics, subs, t, Joins(t, default, settle),
                TopicCreations(topics) + Registrations(subs) + Joins(t, default, settle), default, base, j);
  }
}
