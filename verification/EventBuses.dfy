/**
  The in-process event bus. Publishers snapshot the handlers of one event at a time and offer each
  job to the workers, or run it themselves when the queue is full. Any number of publishers,
  subscriptions and workers interleave.
 */
module EventBuses {
  import opened MapSums
  import opened Crews

  datatype Event = Event(name: string, id: nat)

  /** A handler is known by an identity and the event name it listens to; "*" listens to all. */
  datatype Handler = Handler(id: nat, name: string)

  datatype Job = Job(handler: Handler, event: Event)

  /** A call of Publish: the events it has not looked at, the jobs of the current one, and the one it runs itself. */
  datatype Publisher = Publisher(events: seq<Event>, jobs: seq<Job>, inline: seq<Job>)

  datatype State = State(
    handlers: map<string, seq<Handler>>,
    publishers: map<nat, Publisher>,
    crew: Crew<Job>,
    ran: multiset<Job>,   // history: jobs that publishers ran themselves
    owed: multiset<Job>)  // history: the jobs of every snapshot

  function HandlersOf(handlers: map<string, seq<Handler>>, name: string): seq<Handler>
  {
    if name in handlers then handlers[name] else []
  }

  /** The handlers that an event reaches: the named ones, then the wildcard ones. */
  function Matching(handlers: map<string, seq<Handler>>, event: Event): seq<Handler>
  {
    HandlersOf(handlers, event.name) + HandlersOf(handlers, "*")
  }

  function JobsOf(matching: seq<Handler>, event: Event): (jobs: seq<Job>)
    ensures |jobs| == |matching|
  {
    seq(|matching|, i requires 0 <= i < |matching| => Job(matching[i], event))
  }

  datatype Action =
    | Subscribe(handler: Handler)
    | BeginPublish(p: nat, events: seq<Event>)
    | Snapshot(p: nat)
    | Offer(p: nat)     // the non-blocking send succeeds
    | Inline(p: nat)    // the non-blocking send fails
    | InlineEnd(p: nat)
    | EndPublish(p: nat)
    | Spawn | Receive | Finish(job: Job) | Exit | Close

  predicate Enabled(s: State, a: Action)
  {
    match a
    case Subscribe(_) => true
    case BeginPublish(p, _) => p !in s.publishers
    case Snapshot(p) =>
      && p in s.publishers && s.publishers[p].jobs == [] && s.publishers[p].inline == [] && s.publishers[p].events != []
    case Offer(p) => p in s.publishers && s.publishers[p].jobs != [] && s.publishers[p].inline == [] && s.crew.Room()
    case Inline(p) => p in s.publishers && s.publishers[p].jobs != [] && s.publishers[p].inline == [] && s.crew.Full()
    case InlineEnd(p) => p in s.publishers && s.publishers[p].inline != []
    case EndPublish(p) => p in s.publishers && s.publishers[p] == Publisher([], [], [])
    case Spawn => !s.crew.closed
    case Receive => s.crew.CanReceive()
    case Finish(job) => s.crew.CanFinish(job)
    case Exit => s.crew.CanExit()
    case Close => !s.crew.closed
  }

  function Apply(s: State, a: Action): State
    requires Enabled(s, a)
  {
    match a
    case Subscribe(h) => s.(handlers := s.handlers[h.name := HandlersOf(s.handlers, h.name) + [h]])
    case BeginPublish(p, events) => s.(publishers := s.publishers[p := Publisher(events, [], [])])
    case Snapshot(p) =>
      var pub := s.publishers[p];
      var jobs := JobsOf(Matching(s.handlers, pub.events[0]), pub.events[0]);
      s.(publishers := s.publishers[p := Publisher(pub.events[1..], jobs, [])], owed := s.owed + multiset(jobs))
    case Offer(p) =>
      var pub := s.publishers[p];
      s.(publishers := s.publishers[p := pub.(jobs := pub.jobs[1..])], crew := s.crew.Send(pub.jobs[0]))
    case Inline(p) =>
      var pub := s.publishers[p];
      s.(publishers := s.publishers[p := pub.(jobs := pub.jobs[1..], inline := [pub.jobs[0]])])
    case InlineEnd(p) =>
      var pub := s.publishers[p];
      s.(publishers := s.publishers[p := pub.(inline := [])], ran := s.ran + multiset(pub.inline))
    case EndPublish(p) => s.(publishers := s.publishers - {p})
    case Spawn => s.(crew := s.crew.Spawn())
    case Receive => s.(crew := s.crew.Receive())
    case Finish(job) => s.(crew := s.crew.Finish(job))
    case Exit => s.(crew := s.crew.Exit())
    case Close => s.(crew := s.crew.Close())
  }

  function NewBus(queueSize: int): State
  {
    State(map[], map[], Empty(if queueSize < 0 then 0 else queueSize), multiset{}, multiset{})
  }

  /** The callers' side of the contract: nobody publishes from Stop on, and Stop waits for nobody publishing. */
  predicate Orderly(s: State, a: Action)
  {
    match a
    case BeginPublish(_, _) => !s.crew.closed
    case Close => s.publishers == map[]
    case _ => true
  }

  ghost predicate OrderlyRuns(s: State, actions: seq<Action>, t: State)
    decreases |actions|
  {
    if actions == [] then s == t
    else
      && Enabled(s, actions[0]) && Orderly(s, actions[0])
      && OrderlyRuns(Apply(s, actions[0]), actions[1..], t)
  }

  // ---------- Jobs in the hands of publishers ----------

  function InHand(pub: Publisher): multiset<Job>
  {
    multiset(pub.jobs) + multiset(pub.inline)
  }

  function Hands(publishers: map<nat, Publisher>): map<nat, multiset<Job>>
  {
    map p | p in publishers :: InHand(publishers[p])
  }

  ghost function AllInHand(publishers: map<nat, Publisher>): multiset<Job>
  {
    Merged(Hands(publishers))
  }

  lemma TakeFromHand(publishers: map<nat, Publisher>, p: nat)
    requires p in publishers
    ensures AllInHand(publishers) == InHand(publishers[p]) + AllInHand(publishers - {p})
  {
    MergedRemove(Hands(publishers), p);
    assert Hands(publishers) - {p} == Hands(publishers - {p});
  }

  lemma ChangeHand(publishers: map<nat, Publisher>, p: nat, pub: Publisher)
    ensures AllInHand(publishers[p := pub]) == InHand(pub) + AllInHand(publishers - {p})
  {
    TakeFromHand(publishers[p := pub], p);
    assert publishers[p := pub] - {p} == publishers - {p};
  }

  /** Every owed job is with its publisher, queued, running or dispatched, exactly as often as it is owed. */
  ghost predicate Inv(s: State)
  {
    && s.crew.Valid()
    && s.owed == AllInHand(s.publishers) + s.crew.sent + s.ran
    && (s.crew.closed ==> s.publishers == map[])
  }

  lemma SnapshotKeepsInv(s: State, p: nat)
    requires Inv(s) && Enabled(s, Snapshot(p))
    ensures Inv(Apply(s, Snapshot(p)))
  {
    var pub := s.publishers[p];
    var jobs := JobsOf(Matching(s.handlers, pub.events[0]), pub.events[0]);
    TakeFromHand(s.publishers, p);
    ChangeHand(s.publishers, p, Publisher(pub.events[1..], jobs, []));
    assert InHand(Publisher(pub.events[1..], jobs, [])) == multiset(jobs);
    assert InHand(pub) == multiset{};
  }

  lemma TakeJob(publishers: map<nat, Publisher>, p: nat, pub: Publisher, job: Job)
    requires p in publishers && publishers[p].inline == pub.inline && publishers[p].jobs == [job] + pub.jobs
    ensures AllInHand(publishers) == multiset{job} + AllInHand(publishers[p := pub])
  {
    TakeFromHand(publishers, p);
    ChangeHand(publishers, p, pub);
    assert InHand(publishers[p]) == multiset{job} + InHand(pub);
  }

  lemma OfferKeepsInv(s: State, p: nat)
    requires Inv(s) && Enabled(s, Offer(p))
    ensures Inv(Apply(s, Offer(p)))
  {
    var pub := s.publishers[p];
    TakeJob(s.publishers, p, pub.(jobs := pub.jobs[1..]), pub.jobs[0]);
    SendKeeps(s.crew, pub.jobs[0]);
  }

  lemma SameHand(publishers: map<nat, Publisher>, p: nat, pub: Publisher)
    requires p in publishers && InHand(publishers[p]) == InHand(pub)
    ensures AllInHand(publishers) == AllInHand(publishers[p := pub])
  {
    TakeFromHand(publishers, p);
    ChangeHand(publishers, p, pub);
  }

  lemma InlineKeepsInv(s: State, p: nat)
    requires Inv(s) && Enabled(s, Inline(p))
    ensures Inv(Apply(s, Inline(p)))
  {
    var pub := s.publishers[p];
    assert pub.jobs == [pub.jobs[0]] + pub.jobs[1..];
    SameHand(s.publishers, p, pub.(jobs := pub.jobs[1..], inline := [pub.jobs[0]]));
  }

  lemma FinishInline(publishers: map<nat, Publisher>, p: nat)
    requires p in publishers
    ensures var pub := publishers[p];
            AllInHand(publishers) == multiset(pub.inline) + AllInHand(publishers[p := pub.(inline := [])])
  {
    var pub := publishers[p];
    TakeFromHand(publishers, p);
    ChangeHand(publishers, p, pub.(inline := []));
    assert InHand(pub) == InHand(pub.(inline := [])) + multiset(pub.inline);
  }

  lemma InlineEndKeepsInv(s: State, p: nat)
    requires Inv(s) && Enabled(s, InlineEnd(p))
    ensures Inv(Apply(s, InlineEnd(p)))
  {
    FinishInline(s.publishers, p);
  }

  lemma BeginKeepsInv(s: State, p: nat, events: seq<Event>)
    requires Inv(s) && Enabled(s, BeginPublish(p, events)) && Orderly(s, BeginPublish(p, events))
    ensures Inv(Apply(s, BeginPublish(p, events)))
  {
    ChangeHand(s.publishers, p, Publisher(events, [], []));
    assert s.publishers - {p} == s.publishers;
    assert InHand(Publisher(events, [], [])) == multiset{};
  }

  lemma EndKeepsInv(s: State, p: nat)
    requires Inv(s) && Enabled(s, EndPublish(p))
    ensures Inv(Apply(s, EndPublish(p)))
  {
    TakeFromHand(s.publishers, p);
    assert InHand(s.publishers[p]) == multiset{};
  }

  lemma StepKeepsInv(s: State, a: Action)
    requires Inv(s) && Enabled(s, a) && Orderly(s, a)
    ensures Inv(Apply(s, a))
  {
    match a {
      case Subscribe(_) =>
      case BeginPublish(p, events) => BeginKeepsInv(s, p, events);
      case EndPublish(p) => EndKeepsInv(s, p);
      case Snapshot(p) => SnapshotKeepsInv(s, p);
      case Offer(p) => OfferKeepsInv(s, p);
      case Inline(p) => InlineKeepsInv(s, p);
      case InlineEnd(p) => InlineEndKeepsInv(s, p);
      case Spawn =>
      case Receive => ReceiveKeeps(s.crew);
      case Finish(job) => FinishKeeps(s.crew, job);
      case Exit => ExitKeeps(s.crew);
      case Close =>
    }
  }

  /**
    Delivery: in every orderly run each job of each snapshot is delivered exactly once, whether by
    a worker or by its publisher, or is still on its way; no publisher sends on the closed channel;
    and once a started bus has stopped, everything owed has been dispatched.
   */
  lemma {:induction false} EveryJobIsDelivered(s: State, actions: seq<Action>, t: State)
    requires Inv(s) && OrderlyRuns(s, actions, t)
    ensures Inv(t)
    ensures t.owed == AllInHand(t.publishers) + multiset(t.crew.queue) + t.crew.running + t.crew.done + t.ran
    ensures t.publishers != map[] ==> !t.crew.closed
    ensures t.publishers == map[] && t.crew.spawned > 0 && t.crew.Alive() == 0 ==> t.owed == t.crew.done + t.ran
    decreases |actions|
  {
    if actions != [] {
      StepKeepsInv(s, actions[0]);
      EveryJobIsDelivered(Apply(s, actions[0]), actions[1..], t);
    } else if s.publishers == map[] && s.crew.spawned > 0 && s.crew.Alive() == 0 {
      ReturnedMeansDrained(s.crew);
    }
  }

  /** The jobs of a snapshot: each named handler once per subscription, and each wildcard handler. */
  lemma SnapshotOwesMatching(s: State, p: nat, h: Handler)
    requires Enabled(s, Snapshot(p))
    ensures var event := s.publishers[p].events[0];
            Apply(s, Snapshot(p)).owed[Job(h, event)]
              == s.owed[Job(h, event)] + multiset(HandlersOf(s.handlers, event.name))[h]
                 + multiset(HandlersOf(s.handlers, "*"))[h]
  {
    var event := s.publishers[p].events[0];
    JobsCount(Matching(s.handlers, event), event, h);
  }

  lemma {:induction false} JobsCount(matching: seq<Handler>, event: Event, h: Handler)
    ensures multiset(JobsOf(matching, event))[Job(h, event)] == multiset(matching)[h]
  {
    if matching != [] {
      var init, last := matching[..|matching| - 1], matching[|matching| - 1];
      JobsCount(init, event, h);
      assert matching == init + [last];
      assert JobsOf(matching, event) == JobsOf(init, event) + [Job(last, event)];
    }
  }

  // ---------- From publication to dispatch ----------

  /** The events that the callers of Publish have handed over. */
  function Published(actions: seq<Action>): multiset<Event>
  {
    if actions == [] then multiset{}
    else (if actions[0].BeginPublish? then multiset(actions[0].events) else multiset{}) + Published(actions[1..])
  }

  function Unseen(publishers: map<nat, Publisher>): map<nat, multiset<Event>>
  {
    map p | p in publishers :: multiset(publishers[p].events)
  }

  /** The events that are still waiting for their snapshot. */
  ghost function AllUnseen(publishers: map<nat, Publisher>): multiset<Event>
  {
    Merged(Unseen(publishers))
  }

  lemma TakeUnseen(publishers: map<nat, Publisher>, p: nat)
    requires p in publishers
    ensures AllUnseen(publishers) == multiset(publishers[p].events) + AllUnseen(publishers - {p})
  {
    MergedRemove(Unseen(publishers), p);
    assert Unseen(publishers) - {p} == Unseen(publishers - {p});
  }

  lemma PutUnseen(publishers: map<nat, Publisher>, p: nat, pub: Publisher)
    ensures AllUnseen(publishers[p := pub]) == multiset(pub.events) + AllUnseen(publishers - {p})
  {
    TakeUnseen(publishers[p := pub], p);
    assert publishers[p := pub] - {p} == publishers - {p};
  }

  lemma UnseenChange(publishers: map<nat, Publisher>, p: nat, pub: Publisher)
    ensures AllUnseen(publishers[p := pub]) == multiset(pub.events) + AllUnseen(publishers - {p})
    ensures p in publishers ==> AllUnseen(publishers) == multiset(publishers[p].events) + AllUnseen(publishers - {p})
    ensures p !in publishers ==> publishers - {p} == publishers
  {
    PutUnseen(publishers, p, pub);
    if p in publishers {
      TakeUnseen(publishers, p);
    }
  }

  /** The event that a step takes a snapshot for, if it is a snapshot. */
  function Seen(s: State, a: Action): multiset<Event>
    requires Enabled(s, a)
  {
    if a.Snapshot? then multiset{s.publishers[a.p].events[0]} else multiset{}
  }

  /** A step neither loses an event nor looks at one twice. */
  lemma StepSees(s: State, a: Action)
    requires Enabled(s, a)
    ensures AllUnseen(s.publishers) + (if a.BeginPublish? then multiset(a.events) else multiset{})
         == Seen(s, a) + AllUnseen(Apply(s, a).publishers)
  {
    if a.BeginPublish? {
      UnseenChange(s.publishers, a.p, Publisher(a.events, [], []));
    } else if a.Snapshot? {
      SnapshotSees(s, a.p);
    } else if a.Offer? || a.Inline? || a.InlineEnd? {
      UnseenChange(s.publishers, a.p, Apply(s, a).publishers[a.p]);
    } else if a.EndPublish? {
      UnseenChange(s.publishers, a.p, s.publishers[a.p]);
    }
  }

  lemma SnapshotSees(s: State, p: nat)
    requires Enabled(s, Snapshot(p))
    ensures AllUnseen(s.publishers) == Seen(s, Snapshot(p)) + AllUnseen(Apply(s, Snapshot(p)).publishers)
  {
    var events := s.publishers[p].events;
    var pub := Apply(s, Snapshot(p)).publishers[p];
    TakeUnseen(s.publishers, p);
    PutUnseen(s.publishers, p, pub);
    FirstAndRest(events, AllUnseen(s.publishers - {p}));
    assert Apply(s, Snapshot(p)).publishers == s.publishers[p := pub];
  }

  lemma FirstAndRest<T>(events: seq<T>, others: multiset<T>)
    requires events != []
    ensures multiset(events) + others == multiset{events[0]} + (multiset(events[1..]) + others)
  {
    assert events == [events[0]] + events[1..];
  }

  /** What a step adds to the jobs owed: those of the event it sees, one for each subscription at that moment. */
  lemma StepOwes(s: State, a: Action, event: Event, h: Handler)
    requires Enabled(s, a)
    ensures Apply(s, a).owed[Job(h, event)] == s.owed[Job(h, event)]
              + if a.Snapshot? && s.publishers[a.p].events[0] == event then Subscriptions(s.handlers, event, h) else 0
  {
    if a.Snapshot? {
      SnapshotOwes(s, a.p, event, h);
    }
  }

  lemma SeenTimes(s: State, a: Action, event: Event, k: nat)
    requires Enabled(s, a)
    ensures Seen(s, a)[event] * k == if a.Snapshot? && s.publishers[a.p].events[0] == event then k else 0
  {
    assert 1 * k == k && 0 * k == 0;
  }

  lemma SnapshotOwes(s: State, p: nat, event: Event, h: Handler)
    requires Enabled(s, Snapshot(p))
    ensures Apply(s, Snapshot(p)).owed[Job(h, event)] == s.owed[Job(h, event)]
              + if s.publishers[p].events[0] == event then Subscriptions(s.handlers, event, h) else 0
  {
    OneOwes(s.handlers, s.publishers[p].events[0], event, h);
  }

  /** Subscribing gives the handler one subscription more to the events of its name, and to all for the wildcard. */
  lemma SubscribeReaches(s: State, x: Handler, event: Event, h: Handler)
    ensures Subscriptions(Apply(s, Subscribe(x)).handlers, event, h)
         == Subscriptions(s.handlers, event, h)
            + (if h == x && x.name == event.name then 1 else 0) + (if h == x && x.name == "*" then 1 else 0)
  {
  }

  ghost predicate NoSubscribe(actions: seq<Action>)
  {
    forall i :: 0 <= i < |actions| ==> !actions[i].Subscribe?
  }

  /** The events that a run takes snapshots for. */
  function SeenBy(s: State, actions: seq<Action>): multiset<Event>
    decreases |actions|
  {
    if actions == [] || !Enabled(s, actions[0]) then multiset{}
    else Seen(s, actions[0]) + SeenBy(Apply(s, actions[0]), actions[1..])
  }

  /** Over a run every published event is seen once, or still waits. */
  lemma {:induction false} RunSees(s: State, actions: seq<Action>, t: State)
    requires OrderlyRuns(s, actions, t)
    ensures AllUnseen(s.publishers) + Published(actions) == SeenBy(s, actions) + AllUnseen(t.publishers)
    decreases |actions|
  {
    if actions != [] {
      var s1 := Apply(s, actions[0]);
      StepSees(s, actions[0]);
      RunSees(s1, actions[1..], t);
      Chain(AllUnseen(s.publishers), if actions[0].BeginPublish? then multiset(actions[0].events) else multiset{},
            Published(actions[1..]), Seen(s, actions[0]), AllUnseen(s1.publishers), SeenBy(s1, actions[1..]),
            AllUnseen(t.publishers));
    } else {
      assert Published(actions) == multiset{} && SeenBy(s, actions) == multiset{};
    }
  }

  /** The books of one step and of the rest of a run make those of the run. */
  lemma Chain<T>(before: multiset<T>, came: multiset<T>, later: multiset<T>, seen: multiset<T>, between: multiset<T>,
                 seenLater: multiset<T>, after: multiset<T>)
    requires before + came == seen + between && between + later == seenLater + after
    ensures before + (came + later) == (seen + seenLater) + after
  {
    assert before + (came + later) == (before + came) + later;
    assert (seen + between) + later == seen + (between + later);
    assert seen + (seenLater + after) == (seen + seenLater) + after;
  }

  /** Over a run without new subscriptions each event seen owes one job for each of the k subscriptions. */
  lemma {:induction false} RunOwes(s: State, actions: seq<Action>, t: State, event: Event, h: Handler, k: nat)
    requires OrderlyRuns(s, actions, t) && NoSubscribe(actions) && k == Subscriptions(s.handlers, event, h)
    ensures t.owed[Job(h, event)] == s.owed[Job(h, event)] + SeenBy(s, actions)[event] * k
    decreases |actions|
  {
    if actions != [] {
      var s1 := Apply(s, actions[0]);
      StepOwes(s, actions[0], event, h);
      StepKeepsHandlers(s, actions[0]);
      RestHasNoSubscribe(actions);
      RunOwes(s1, actions[1..], t, event, h, k);
      SeenFirst(s, actions, event);
      SeenTimes(s, actions[0], event, k);
      AddTimes(s.owed[Job(h, event)], s1.owed[Job(h, event)], t.owed[Job(h, event)],
               Seen(s, actions[0])[event], SeenBy(s1, actions[1..])[event], SeenBy(s, actions)[event], k);
    }
  }

  lemma SeenFirst(s: State, actions: seq<Action>, event: Event)
    requires actions != [] && Enabled(s, actions[0])
    ensures SeenBy(s, actions)[event] == Seen(s, actions[0])[event] + SeenBy(Apply(s, actions[0]), actions[1..])[event]
  {
  }

  lemma StepKeepsHandlers(s: State, a: Action)
    requires Enabled(s, a) && !a.Subscribe?
    ensures Apply(s, a).handlers == s.handlers
  {
  }

  lemma RestHasNoSubscribe(actions: seq<Action>)
    requires actions != [] && NoSubscribe(actions)
    ensures !actions[0].Subscribe? && NoSubscribe(actions[1..])
  {
    forall i | 0 <= i < |actions[1..]| ensures !actions[1..][i].Subscribe? {
      assert actions[1..][i] == actions[i + 1];
    }
  }

  lemma AddTimes(x: nat, y: nat, z: nat, a: nat, b: nat, n: nat, k: nat)
    requires y == x + a * k && z == y + b * k && n == a + b
    ensures z == x + n * k
  {
    assert (a + b) * k == a * k + b * k;
  }

  lemma AllIsSeen(s: State, actions: seq<Action>, t: State)
    requires OrderlyRuns(s, actions, t) && s.publishers == map[] && t.publishers == map[]
    ensures SeenBy(s, actions) == Published(actions)
  {
    RunSees(s, actions, t);
    NothingUnseen(s.publishers);
    NothingUnseen(t.publishers);
    Alone(Published(actions), SeenBy(s, actions), AllUnseen(s.publishers), AllUnseen(t.publishers));
  }

  lemma Alone<T>(a: multiset<T>, b: multiset<T>, none: multiset<T>, nothing: multiset<T>)
    requires none == multiset{} && nothing == multiset{} && none + a == b + nothing
    ensures a == b
  {
    assert none + a == a;
    assert b + nothing == b;
  }

  lemma NothingUnseen(publishers: map<nat, Publisher>)
    requires publishers == map[]
    ensures AllUnseen(publishers) == multiset{}
  {
    assert Unseen(publishers) == map[];
  }

  /**
    From publication to dispatch: when a started bus without a publisher has stopped, each event that
    was published has been dispatched to each handler once for each of its subscriptions, if the
    subscriptions were made before, as bootstrap does.
   */
  lemma PublishedIsDispatched(s: State, actions: seq<Action>, t: State, event: Event, h: Handler)
    requires Inv(s) && OrderlyRuns(s, actions, t) && NoSubscribe(actions)
    requires s.publishers == map[] && s.owed == multiset{}
    requires t.publishers == map[] && t.crew.spawned > 0 && t.crew.Alive() == 0
    ensures (t.crew.done + t.ran)[Job(h, event)] == Published(actions)[event] * Subscriptions(s.handlers, event, h)
  {
    AllIsSeen(s, actions, t);
    RunOwes(s, actions, t, event, h, Subscriptions(s.handlers, event, h));
    EveryJobIsDelivered(s, actions, t);
  }

  // ---------- Starting ----------

  lemma {:induction false} SpawnRuns(s: State, workers: nat) returns (actions: seq<Action>)
    requires !s.crew.closed
    ensures OrderlyRuns(s, actions, s.(crew := s.crew.(idle := s.crew.idle + workers,
                                                       spawned := s.crew.spawned + workers)))
    decreases workers
  {
    actions := [];
    if workers > 0 {
      var rest := SpawnRuns(Apply(s, Spawn), workers - 1);
      actions := [Spawn] + rest;
      assert actions[1..] == rest;
    }
  }

  /** After Start has run to its end. */
  function Started(workers: int, queueSize: int): State
  {
    var s := NewBus(queueSize);
    var n := if workers < 1 then 1 else workers;
    s.(crew := s.crew.(idle := n, spawned := n))
  }

  lemma StartRuns(workers: int, queueSize: int) returns (actions: seq<Action>)
    ensures OrderlyRuns(NewBus(queueSize), actions, Started(workers, queueSize))
    ensures Inv(NewBus(queueSize)) && Inv(Started(workers, queueSize))
  {
    assert Hands(map[]) == map[];
    actions := SpawnRuns(NewBus(queueSize), if workers < 1 then 1 else workers);
  }

  // ---------- The methods ----------

  class InProcessBus {
    var handlers: map<string, seq<Handler>>
    var crew: Crew<Job>
    var ran: multiset<Job>

    constructor (queueSize: int)
      ensures handlers == map[] && crew == Empty(if queueSize < 0 then 0 else queueSize) && crew.Valid()
          && ran == multiset{}
    {
      handlers, ran := map[], multiset{};
      crew := Empty(if queueSize < 0 then 0 else queueSize);
    }

    /**
      From now on exactly the events of the handler's name, or all of them for "*", reach it too:
      after the handlers that were there before it, and named handlers before wildcard ones.
     */
    method Subscribe(handler: Handler)
      modifies this`handlers
      ensures forall event: Event ::
                Matching(handlers, event) ==
                  HandlersOf(old(handlers), event.name) + (if event.name == handler.name then [handler] else [])
                  + HandlersOf(old(handlers), "*") + (if handler.name == "*" then [handler] else [])
      ensures forall name: string ::
                multiset(HandlersOf(handlers, name))[handler]
                  == multiset(HandlersOf(old(handlers), name))[handler] + (if name == handler.name then 1 else 0)
    {
      handlers := handlers[handler.name := HandlersOf(handlers, handler.name) + [handler]];
    }

    method Start(workers: int)
      requires crew.Valid() && !crew.closed && crew.spawned == 0
      modifies this`crew
      ensures crew.Valid() && crew.spawned == (if workers < 1 then 1 else workers)
      ensures crew.sent == old(crew).sent && crew.done == old(crew).done && !crew.closed
    {
      for i := 0 to if workers < 1 then 1 else workers
        invariant crew.Valid() && !crew.closed && crew.spawned == i
        invariant crew.sent == old(crew).sent && crew.done == old(crew).done
      {
        crew := crew.Spawn();
      }
    }

    /** The workers get as far as they happen to get. */
    method Yield()
      requires crew.Valid()
      modifies this`crew
      ensures crew.Valid() && crew.sent == old(crew).sent && crew.closed == old(crew).closed
          && crew.spawned == old(crew).spawned
      ensures crew.Work() <= old(crew).Work()
    {
      var more := *;
      while more && (crew.CanReceive() || |crew.running| > 0)
        invariant crew.Valid() && crew.sent == old(crew).sent && crew.closed == old(crew).closed
            && crew.spawned == old(crew).spawned
        invariant crew.Work() <= old(crew).Work()
        decreases crew.Work()
      {
        var receive := *;
        if crew.CanReceive() && (receive || |crew.running| == 0) {
          ReceiveKeeps(crew);
          crew := crew.Receive();
        } else {
          assert crew.running != multiset{};
          var x :| x in crew.running;
          FinishKeeps(crew, x);
          crew := crew.Finish(x);
        }
        more := *;
      }
    }

    /**
      The select of Publish: queued while there is space, and run here otherwise. With a full
      buffer a worker that happens to be parked takes the job.
     */
    method Offer(job: Job)
      requires crew.Valid() && !crew.closed
      modifies this`crew, this`ran
      ensures crew.Valid() && !crew.closed && crew.spawned == old(crew).spawned
      ensures crew.sent + ran == old(crew).sent + old(ran) + multiset{job}
      ensures if crew == old(crew) then old(crew).Full() && ran == old(ran) + multiset{job}
              else old(crew).Room() && crew == old(crew).Send(job) && ran == old(ran)
    {
      var taken := |crew.queue| < crew.capacity;
      if !taken && crew.Room() {
        taken := *;
      }
      if taken {
        SendKeeps(crew, job);
        crew := crew.Send(job);
      } else {
        ran := ran + multiset{job};
      }
    }

    /** One event offered to each of its handlers. */
    method OfferAll(event: Event, dispatched: seq<Handler>)
      requires crew.Valid() && !crew.closed
      modifies this`crew, this`ran
      ensures crew.Valid() && !crew.closed && crew.spawned == old(crew).spawned
      ensures crew.sent + ran == old(crew).sent + old(ran) + multiset(JobsOf(dispatched, event))
    {
      ghost var jobs := JobsOf(dispatched, event);
      for j := 0 to |dispatched|
        invariant crew.Valid() && !crew.closed && crew.spawned == old(crew).spawned
        invariant crew.sent + ran == old(crew).sent + old(ran) + multiset(jobs[..j])
      {
        Yield();
        OneMore(jobs, j);
        Offer(Job(dispatched[j], event));
      }
      assert jobs[..|dispatched|] == jobs;
    }

    /** Publish with workers running beside it: every matching handler gets its job. */
    method Publish(events: seq<Event>)
      requires crew.Valid() && !crew.closed
      modifies this`crew, this`ran
      ensures crew.Valid() && !crew.closed && crew.spawned == old(crew).spawned
      ensures crew.sent + ran == old(crew).sent + old(ran) + Owed(handlers, events)
      ensures forall event: Event, h: Handler ::
                (crew.sent + ran)[Job(h, event)] == (old(crew).sent + old(ran))[Job(h, event)]
                  + multiset(events)[event] * Subscriptions(handlers, event, h)
    {
      for i := 0 to |events|
        invariant crew.Valid() && !crew.closed && crew.spawned == old(crew).spawned
        invariant crew.sent + ran == old(crew).sent + old(ran) + Owed(handlers, events[..i])
      {
        OfferAll(events[i], Matching(handlers, events[i]));
        assert events[..i + 1][..i] == events[..i];
      }
      assert events[..|events|] == events;
      forall event: Event, h: Handler
        ensures Owed(handlers, events)[Job(h, event)] == multiset(events)[event] * Subscriptions(handlers, event, h)
      {
        OwedCounts(handlers, events, event, h);
      }
    }

    /**
      The first call closes the channel and waits for the workers, if there are any; a bus that was
      never started keeps its queue. Later calls change nothing.
     */
    method Stop()
      requires crew.Valid()
      modifies this`crew
      ensures crew.Valid()
      ensures if old(crew).closed then crew == old(crew)
              else if old(crew).spawned == 0 then crew == old(crew).Close()
              else
                && crew.closed && crew.sent == old(crew).sent && crew.queue == [] && crew.running == multiset{}
                && crew.done == crew.sent
    {
      if crew.closed {
        return;
      }
      crew := crew.Close();
      if crew.spawned == 0 {
        return;
      }
      while crew.Alive() > 0
        invariant crew.Valid() && crew.closed && crew.sent == old(crew).sent && crew.spawned > 0
        decreases crew.Work()
      {
        Yield();
        if crew.CanExit() {
          ExitKeeps(crew);
          crew := crew.Exit();
        } else if crew.CanReceive() {
          ReceiveKeeps(crew);
          crew := crew.Receive();
        } else if |crew.running| > 0 {
          assert crew.running != multiset{};
          var x :| x in crew.running;
          FinishKeeps(crew, x);
          crew := crew.Finish(x);
        }
      }
      ReturnedMeansDrained(crew);
    }
  }

  lemma OneMore<T>(s: seq<T>, j: nat)
    requires j < |s|
    ensures multiset(s[..j + 1]) == multiset(s[..j]) + multiset{s[j]}
  {
    assert s[..j + 1] == s[..j] + [s[j]];
  }

  /** The jobs that a sequence of events owes to the given handlers. */
  function Owed(handlers: map<string, seq<Handler>>, events: seq<Event>): multiset<Job>
  {
    if events == [] then multiset{}
    else
      var last := events[|events| - 1];
      Owed(handlers, events[..|events| - 1]) + multiset(JobsOf(Matching(handlers, last), last))
  }

  /** How often a handler is subscribed to an event: under its name and under the wildcard. */
  function Subscriptions(handlers: map<string, seq<Handler>>, event: Event, h: Handler): nat
  {
    multiset(HandlersOf(handlers, event.name))[h] + multiset(HandlersOf(handlers, "*"))[h]
  }

  /** Every event owes its jobs, */
  lemma {:induction false} OwedAddsUp(handlers: map<string, seq<Handler>>, a: seq<Event>, b: seq<Event>)
    ensures Owed(handlers, a + b) == Owed(handlers, a) + Owed(handlers, b)
    decreases |b|
  {
    if b == [] {
      assert a + b == a;
    } else {
      assert (a + b)[..|a + b| - 1] == a + b[..|b| - 1];
      OwedAddsUp(handlers, a, b[..|b| - 1]);
    }
  }

  /** one for each subscription of each handler, as often as the event occurs. */
  lemma {:induction false} OwedCounts(handlers: map<string, seq<Handler>>, events: seq<Event>, event: Event, h: Handler)
    ensures Owed(handlers, events)[Job(h, event)] == multiset(events)[event] * Subscriptions(handlers, event, h)
  {
    if events != [] {
      var init, last := events[..|events| - 1], events[|events| - 1];
      OwedCounts(handlers, init, event, h);
      OneOwes(handlers, last, event, h);
      CountsLast(events, event);
      AddTimes(0, Owed(handlers, init)[Job(h, event)], Owed(handlers, events)[Job(h, event)],
               multiset(init)[event], if last == event then 1 else 0, multiset(events)[event],
               Subscriptions(handlers, event, h));
    }
  }

  lemma OneOwes(handlers: map<string, seq<Handler>>, one: Event, event: Event, h: Handler)
    ensures multiset(JobsOf(Matching(handlers, one), one))[Job(h, event)]
         == if one == event then Subscriptions(handlers, event, h) else 0
  {
    JobsCount(Matching(handlers, one), one, h);
    OtherJobs(Matching(handlers, one), one, Job(h, event));
  }

  lemma CountsLast<T>(s: seq<T>, x: T)
    requires s != []
    ensures multiset(s)[x] == multiset(s[..|s| - 1])[x] + (if s[|s| - 1] == x then 1 else 0)
  {
    assert s == s[..|s| - 1] + [s[|s| - 1]];
  }

  /** The jobs of an event are jobs for that event only. */
  lemma OtherJobs(matching: seq<Handler>, event: Event, job: Job)
    ensures job.event != event ==> multiset(JobsOf(matching, event))[job] == 0
  {
    if job in multiset(JobsOf(matching, event)) {
      var i :| 0 <= i < |matching| && JobsOf(matching, event)[i] == job;
    }
  }
}
