/**
  Shutdown: the order pool, the event bus, the dispatcher and the websocket hub side by side, stopped
  one after the other once the HTTP server has drained. Requests submit tasks and publish events;
  running event handlers enqueue notifications and broadcast. The component rules (no publish into or
  past the bus's Stop, no enqueue into or past the dispatcher's, no broadcast into or past the hub's)
  are not assumed here: they follow from the order of stops.
 */
module Shutdown {
  import opened Crews
  import Pools
  import Bus = EventBuses
  import Notes = Dispatchers
  import Ws = Hubs

  datatype Stage =
    | Serving | HttpDrained
    | StoppingPool | PoolStopped
    | StoppingBus | BusStopped
    | StoppingDispatcher | DispatcherStopped
    | Stopped // the hub has been told to stop; its goroutine returns on its own

  datatype App = App(
    requests: nat,      // HTTP requests being served
    pool: Pools.State,
    bus: Bus.State,
    notes: Notes.State,
    hub: Ws.State,
    stage: Stage)
  {
    /** Requests that are inside Submit or Publish. A request is in one of them at a time. */
    function Engaged(): nat {
      |pool.callers| + |bus.publishers|
    }

    /**
      Handlers that are running, in a bus worker or in a publisher. Each
      enqueues or broadcasts one thing at a time.
     */
    function Handling(): nat {
      |bus.crew.running| + |InliningOf(bus.publishers)|
    }
  }

  function InliningOf(publishers: map<nat, Bus.Publisher>): set<nat>
  {
    set p | p in publishers && publishers[p].inline != []
  }

  datatype Action =
    | BeginRequest
    | EndRequest
    | PoolStep(pool: Pools.Action)
    | BusStep(bus: Bus.Action)
    | NoteStep(note: Notes.Action)
    | HubStep(hub: Ws.Action)
    | DrainHttp
    | StopPool | PoolIsStopped
    | StopBus | BusIsStopped
    | StopDispatcher | DispatcherIsStopped
    | StopHub

  /** Steps of the components that the application controls, rather than leaves to chance. */
  predicate Driven(a: Action)
  {
    match a
    case PoolStep(p) => p.RequestStop?
    case BusStep(b) => b.Close? || b.Spawn?
    case NoteStep(n) => n.Close? || n.Spawn?
    case HubStep(h) => h.Stop?
    case _ => false
  }

  predicate Enabled(s: App, a: Action)
  {
    !Driven(a) &&
    match a
    case BeginRequest => s.stage == Serving
    case EndRequest => s.Engaged() < s.requests
    case PoolStep(p) => Pools.Enabled(s.pool, p) && (p.Enter? ==> s.Engaged() < s.requests)
    case BusStep(b) =>
      && Bus.Enabled(s.bus, b)
      && (b.BeginPublish? ==> s.Engaged() < s.requests)
      && (b.Finish? || b.InlineEnd? ==> |s.notes.offering| < s.Handling())
    case NoteStep(n) => Notes.Enabled(s.notes, n) && (n.Persist? ==> |s.notes.offering| < s.Handling())
    case HubStep(h) => Ws.Enabled(s.hub, h) && (h.Broadcast? ==> |s.notes.offering| < s.Handling())
    case DrainHttp => s.stage == Serving && s.requests == 0
    case StopPool => s.stage == HttpDrained && Pools.Enabled(s.pool, Pools.RequestStop)
    case PoolIsStopped => s.stage == StoppingPool && s.pool.stop == Pools.Returned
    case StopBus => s.stage == PoolStopped && Bus.Enabled(s.bus, Bus.Close)
    case BusIsStopped => s.stage == StoppingBus && s.bus.crew.Alive() == 0
    case StopDispatcher => s.stage == BusStopped && Notes.Enabled(s.notes, Notes.Close)
    case DispatcherIsStopped => s.stage == StoppingDispatcher && s.notes.crew.Alive() == 0
    case StopHub => s.stage == DispatcherStopped
  }

  function Apply(s: App, a: Action): App
    requires Enabled(s, a)
  {
    match a
    case BeginRequest => s.(requests := s.requests + 1)
    case EndRequest => s.(requests := s.requests - 1)
    case PoolStep(p) => s.(pool := Pools.Apply(s.pool, p))
    case BusStep(b) => s.(bus := Bus.Apply(s.bus, b))
    case NoteStep(n) => s.(notes := Notes.Apply(s.notes, n))
    case HubStep(h) => s.(hub := Ws.Apply(s.hub, h))
    case DrainHttp => s.(stage := HttpDrained)
    case StopPool => s.(stage := StoppingPool, pool := Pools.Apply(s.pool, Pools.RequestStop))
    case PoolIsStopped => s.(stage := PoolStopped)
    case StopBus => s.(stage := StoppingBus, bus := Bus.Apply(s.bus, Bus.Close))
    case BusIsStopped => s.(stage := BusStopped)
    case StopDispatcher => s.(stage := StoppingDispatcher, notes := Notes.Apply(s.notes, Notes.Close))
    case DispatcherIsStopped => s.(stage := DispatcherStopped)
    case StopHub => s.(stage := Stopped, hub := Ws.Apply(s.hub, Ws.Stop))
  }

  ghost predicate Runs(s: App, actions: seq<Action>, t: App)
    decreases |actions|
  {
    if actions == [] then s == t
    else Enabled(s, actions[0]) && Runs(Apply(s, actions[0]), actions[1..], t)
  }

  /** As bootstrap leaves it: every component started, nothing requested yet. */
  ghost predicate Booted(s: App)
  {
    && s.requests == 0 && s.stage == Serving
    && Pools.Served(s.pool) && s.pool.stop == Pools.NotCalled && s.pool.callers == multiset{}
    && Bus.Inv(s.bus) && !s.bus.crew.closed && s.bus.crew.spawned > 0 && s.bus.publishers == map[]
    && Notes.Inv(s.notes) && !s.notes.crew.closed && s.notes.crew.spawned > 0 && s.notes.offering == {}
    && s.hub == Ws.NEW_HUB
  }

  function Rank(stage: Stage): nat
  {
    match stage
    case Serving => 0
    case HttpDrained => 1
    case StoppingPool => 2
    case PoolStopped => 3
    case StoppingBus => 4
    case BusStopped => 5
    case StoppingDispatcher => 6
    case DispatcherStopped => 7
    case Stopped => 8
  }

  /** How far the shutdown is, in terms of the components. */
  ghost predicate StageOk(s: App)
  {
    && (Rank(s.stage) >= 1 ==> s.requests == 0)
    && (s.pool.stop == Pools.NotCalled <==> Rank(s.stage) < 2)
    && (Rank(s.stage) >= 3 ==> s.pool.stop == Pools.Returned)
    && (s.bus.crew.closed <==> Rank(s.stage) >= 4)
    && (Rank(s.stage) >= 5 ==> s.bus.crew.Alive() == 0)
    && (s.notes.crew.closed <==> Rank(s.stage) >= 6)
    && (Rank(s.stage) >= 7 ==> s.notes.crew.Alive() == 0)
    && (s.hub.done <==> Rank(s.stage) >= 8)
  }

  ghost predicate Inv(s: App)
  {
    && Pools.Served(s.pool)
    && Bus.Inv(s.bus) && s.bus.crew.spawned > 0
    && Notes.Inv(s.notes) && s.notes.crew.spawned > 0
    && Ws.Inv(s.hub)
    && s.Engaged() <= s.requests && |s.notes.offering| <= s.Handling()
    && StageOk(s)
  }

  lemma NobodyIsPublishing(s: App)
    requires s.Engaged() <= s.requests && s.requests == 0
    ensures s.bus.publishers == map[] && s.pool.callers == multiset{}
  {
    assert |s.bus.publishers| == 0;
    assert |s.pool.callers| == 0;
  }

  lemma NobodyIsEnqueuing(s: App)
    requires Inv(s) && Rank(s.stage) >= 5
    ensures s.notes.offering == {} && s.Handling() == 0
  {
    NobodyIsPublishing(s);
    assert |s.bus.crew.running| == 0;
    assert InliningOf(s.bus.publishers) == {};
    assert |s.notes.offering| == 0;
  }

  // ---------- Component steps ----------

  lemma PoolStepKeepsInv(s: App, p: Pools.Action)
    requires Inv(s) && Enabled(s, PoolStep(p))
    ensures Inv(Apply(s, PoolStep(p)))
  {
    Pools.StepKeepsServed(s.pool, p);
    CallersChange(s.pool, p);
    var pool := Pools.Apply(s.pool, p);
    assert pool.stop == Pools.Returned ==> Rank(s.stage) >= 2 by {
      PoolStopChange(s.pool, p);
    }
    PoolStopChange(s.pool, p);
  }

  lemma CallersChange(s: Pools.State, p: Pools.Action)
    requires Pools.Enabled(s, p)
    ensures |Pools.Apply(s, p).callers| <= |s.callers| + (if p.Enter? then 1 else 0)
  {
    if p.Send? || p.Refuse? {
      assert s.callers == (s.callers - multiset{p.call}) + multiset{p.call};
    }
  }

  lemma PoolStopChange(s: Pools.State, p: Pools.Action)
    requires Pools.Enabled(s, p) && !p.RequestStop?
    ensures Pools.Apply(s, p).stop == Pools.NotCalled <==> s.stop == Pools.NotCalled
    ensures s.stop == Pools.Returned ==> Pools.Apply(s, p).stop == Pools.Returned
  {
  }

  lemma PublisherCount(publishers: map<nat, Bus.Publisher>, p: nat, pub: Bus.Publisher)
    ensures |publishers[p := pub]| == |publishers| + (if p in publishers then 0 else 1)
  {
    assert publishers[p := pub].Keys == publishers.Keys + {p};
  }

  lemma PublisherChange(publishers: map<nat, Bus.Publisher>, p: nat, pub: Bus.Publisher)
    ensures InliningOf(publishers[p := pub])
         == if pub.inline != [] then InliningOf(publishers) + {p} else InliningOf(publishers) - {p}
  {
    var next := publishers[p := pub];
    forall q: nat
      ensures q in InliningOf(next) <==> if q == p then pub.inline != [] else q in InliningOf(publishers)
    {
      assert q in next <==> q == p || q in publishers;
    }
  }

  /** How a publisher's step changes the number of publishers and of running handlers. */
  lemma PublisherStepCounts(s: Bus.State, b: Bus.Action)
    requires Bus.Enabled(s, b) && (b.BeginPublish? || b.Snapshot? || b.Offer? || b.Inline? || b.InlineEnd?
                                   || b.EndPublish?)
    ensures |Bus.Apply(s, b).publishers| <= |s.publishers| + (if b.BeginPublish? then 1 else 0)
    ensures |InliningOf(Bus.Apply(s, b).publishers)| >= |InliningOf(s.publishers)| - (if b.InlineEnd? then 1 else 0)
  {
    if b.EndPublish? {
      assert (s.publishers - {b.p}).Keys == s.publishers.Keys - {b.p};
      assert InliningOf(s.publishers - {b.p}) == InliningOf(s.publishers);
    } else {
      PublisherCount(s.publishers, b.p, Bus.Apply(s, b).publishers[b.p]);
      PublisherChange(s.publishers, b.p, Bus.Apply(s, b).publishers[b.p]);
      assert Bus.Apply(s, b).publishers == s.publishers[b.p := Bus.Apply(s, b).publishers[b.p]];
      if b.p !in InliningOf(s.publishers) {
        assert InliningOf(s.publishers) - {b.p} == InliningOf(s.publishers);
      }
    }
  }

  lemma BusCounts(s: Bus.State, b: Bus.Action)
    requires Bus.Enabled(s, b) && !b.Close? && !b.Spawn?
    ensures var t := Bus.Apply(s, b);
            && |t.publishers| <= |s.publishers| + (if b.BeginPublish? then 1 else 0)
            && |t.crew.running| + |InliningOf(t.publishers)|
                 >= |s.crew.running| + |InliningOf(s.publishers)| - (if b.Finish? || b.InlineEnd? then 1 else 0)
            && t.crew.closed == s.crew.closed && t.crew.spawned == s.crew.spawned
  {
    if b.BeginPublish? || b.Snapshot? || b.Offer? || b.Inline? || b.InlineEnd? || b.EndPublish? {
      PublisherStepCounts(s, b);
    } else if b.Finish? {
      assert s.crew.running == (s.crew.running - multiset{b.job}) + multiset{b.job};
    }
  }

  /** A crew whose goroutines have all returned stays that way. */
  lemma BusStaysStopped(s: Bus.State, b: Bus.Action)
    requires Bus.Inv(s) && Bus.Enabled(s, b) && !b.Spawn? && s.crew.Alive() == 0 && s.publishers == map[]
    requires !b.BeginPublish?
    ensures Bus.Apply(s, b).crew.Alive() == 0
  {
  }

  lemma BusStepKeepsInv(s: App, b: Bus.Action)
    requires Inv(s) && Enabled(s, BusStep(b))
    ensures Inv(Apply(s, BusStep(b)))
  {
    if Rank(s.stage) >= 1 {
      NobodyIsPublishing(s);
    }
    assert Bus.Orderly(s.bus, b);
    Bus.StepKeepsInv(s.bus, b);
    BusCounts(s.bus, b);
    if Rank(s.stage) >= 5 {
      BusStaysStopped(s.bus, b);
    }
    var t := Apply(s, BusStep(b));
    assert StageOk(t);
  }

  lemma NoteCounts(s: Notes.State, n: Notes.Action)
    requires Notes.Enabled(s, n) && !n.Close? && !n.Spawn?
    ensures var t := Notes.Apply(s, n);
            && |t.offering| <= |s.offering| + (if n.Persist? then 1 else 0)
            && t.crew.closed == s.crew.closed && t.crew.spawned == s.crew.spawned
    ensures s.crew.Alive() == 0 && s.offering == {} ==> Notes.Apply(s, n).crew.Alive() == 0
  {
    if n.Offer? || n.Leave? {
      assert s.offering == (s.offering - {n.id}) + {n.id};
    }
  }

  lemma NoteStepKeepsInv(s: App, n: Notes.Action)
    requires Inv(s) && Enabled(s, NoteStep(n))
    ensures Inv(Apply(s, NoteStep(n)))
  {
    if Rank(s.stage) >= 5 {
      NobodyIsEnqueuing(s);
    }
    assert Notes.Orderly(s.notes, n);
    Notes.StepKeepsInv(s.notes, n);
    NoteCounts(s.notes, n);
    var t := Apply(s, NoteStep(n));
    assert StageOk(t);
  }

  lemma HubStepKeepsInv(s: App, h: Ws.Action)
    requires Inv(s) && Enabled(s, HubStep(h))
    ensures Inv(Apply(s, HubStep(h)))
  {
    Ws.StepKeepsInv(s.hub, h);
    assert Ws.Apply(s.hub, h).done == s.hub.done;
    var t := Apply(s, HubStep(h));
    assert t.pool == s.pool && t.bus == s.bus && t.notes == s.notes;
    assert StageOk(t);
  }

  lemma StopHubKeepsInv(s: App)
    requires Inv(s) && Enabled(s, StopHub)
    ensures Inv(Apply(s, StopHub))
  {
    Ws.StepKeepsInv(s.hub, Ws.Stop);
  }

  lemma StopPoolKeepsInv(s: App)
    requires Inv(s) && Enabled(s, StopPool)
    ensures Inv(Apply(s, StopPool))
  {
    Pools.StepKeepsServed(s.pool, Pools.RequestStop);
  }

  lemma StopBusKeepsInv(s: App)
    requires Inv(s) && Enabled(s, StopBus)
    ensures Inv(Apply(s, StopBus))
  {
    NobodyIsPublishing(s);
    Bus.StepKeepsInv(s.bus, Bus.Close);
  }

  lemma StopDispatcherKeepsInv(s: App)
    requires Inv(s) && Enabled(s, StopDispatcher)
    ensures Inv(Apply(s, StopDispatcher))
  {
    NobodyIsEnqueuing(s);
    Notes.StepKeepsInv(s.notes, Notes.Close);
  }

  /** Requests that come and go, and stops that have returned. */
  lemma OtherStepKeepsInv(s: App, a: Action)
    requires Inv(s) && Enabled(s, a)
    requires a.BeginRequest? || a.EndRequest? || a.DrainHttp? || a.PoolIsStopped? || a.BusIsStopped?
        || a.DispatcherIsStopped?
    ensures Inv(Apply(s, a))
  {
    var t := Apply(s, a);
    assert t.pool == s.pool && t.bus == s.bus && t.notes == s.notes;
    assert StageOk(t);
  }

  lemma StepKeepsInv(s: App, a: Action)
    requires Inv(s) && Enabled(s, a)
    ensures Inv(Apply(s, a))
  {
    match a {
      case PoolStep(p) => PoolStepKeepsInv(s, p);
      case BusStep(b) => BusStepKeepsInv(s, b);
      case NoteStep(n) => NoteStepKeepsInv(s, n);
      case HubStep(h) => HubStepKeepsInv(s, h);
      case StopHub => StopHubKeepsInv(s);
      case StopPool => StopPoolKeepsInv(s);
      case StopBus => StopBusKeepsInv(s);
      case StopDispatcher => StopDispatcherKeepsInv(s);
      case _ => OtherStepKeepsInv(s, a);
    }
  }

  lemma {:induction false} RunsKeepInv(s: App, actions: seq<Action>, t: App)
    requires Inv(s) && Runs(s, actions, t)
    ensures Inv(t)
    decreases |actions|
  {
    if actions != [] {
      StepKeepsInv(s, actions[0]);
      RunsKeepInv(Apply(s, actions[0]), actions[1..], t);
    }
  }

  /**
    In every run, at every point of the shutdown, nobody is about to send on a closed channel: not on
    the pool's, the bus's, the dispatcher's or any client's, and nobody broadcasts once the hub is stopped.
   */
  lemma NoSendOnClosed(s: App, actions: seq<Action>, t: App)
    requires Booted(s) && Runs(s, actions, t)
    ensures t.pool.callers != multiset{} ==> !t.pool.crew.closed
    ensures t.bus.publishers != map[] ==> !t.bus.crew.closed
    ensures t.notes.offering != {} ==> !t.notes.crew.closed
    ensures forall c :: c in t.hub.todo ==> c in t.hub.clients && t.hub.clients[c].closes == 0
    ensures forall msg, taken :: Enabled(t, HubStep(Ws.Broadcast(msg, taken))) ==> !t.hub.done && taken
  {
    RunsKeepInv(s, actions, t);
    OfferedAreOpen(t.hub);
    BroadcastsAreTaken(t);
  }

  lemma OfferedAreOpen(h: Ws.State)
    requires Ws.Inv(h)
    ensures forall c :: c in h.todo ==> c in h.clients && h.clients[c].closes == 0
  {
    forall c | c in h.todo ensures c in h.clients && h.clients[c].closes == 0 {
      assert Ws.ClientOk(h, c);
    }
  }

  lemma BroadcastsAreTaken(t: App)
    requires Inv(t)
    ensures forall msg, taken :: Enabled(t, HubStep(Ws.Broadcast(msg, taken))) ==> !t.hub.done && taken
  {
    if t.hub.done {
      NobodyIsEnqueuing(t);
    }
  }

  /**
    Every accepted order task has run, every job that an event owed to a handler has been dispatched,
    every notification that was queued has been handed over once, and if the hub has returned, every
    client's channel has been closed once.
   */
  ghost predicate AllDone(t: App)
  {
    && t.pool.Drained()
    && t.bus.owed == t.bus.crew.done + t.bus.ran
    && (forall id :: id in t.notes.rows && id !in t.notes.left ==> t.notes.handed[id] == 1 && id in t.notes.outcomes)
    && (t.hub.returned ==> forall c :: c in t.hub.clients ==> t.hub.clients[c].closes == 1)
  }

  /**
    When the last Stop has returned, everything is done, and the hub's goroutine, if it has not yet
    returned, can finish its current round or return.
   */
  lemma ShutdownDrains(s: App, actions: seq<Action>, t: App)
    requires Booted(s) && Runs(s, actions, t) && t.stage == Stopped
    ensures AllDone(t)
    ensures t.hub.returned || Ws.Enabled(t.hub, Ws.Return) || exists c :: Ws.Enabled(t.hub, Ws.Offer(c))
  {
    RunsKeepInv(s, actions, t);
    StoppedIsDone(t);
    HubMovesOn(t.hub);
  }

  lemma StoppedIsDone(t: App)
    requires Inv(t) && t.stage == Stopped
    ensures AllDone(t)
  {
    ReturnedMeansDrained(t.pool.crew);
    NobodyIsPublishing(t);
    Bus.EveryJobIsDelivered(t.bus, [], t.bus);
    NobodyIsEnqueuing(t);
    ReturnedMeansDrained(t.notes.crew);
    forall id | id in t.notes.rows && id !in t.notes.left
      ensures t.notes.handed[id] == 1 && id in t.notes.outcomes
    {
      assert Notes.Placed(t.notes, id);
    }
    HubMovesOn(t.hub);
  }

  lemma HubMovesOn(h: Ws.State)
    requires Ws.Inv(h) && h.done
    ensures h.returned || Ws.Enabled(h, Ws.Return) || exists c :: Ws.Enabled(h, Ws.Offer(c))
    ensures h.returned ==> forall c :: c in h.clients ==> h.clients[c].closes == 1
  {
    if h.todo != {} {
      var c :| c in h.todo;
      assert Ws.Enabled(h, Ws.Offer(c));
    }
    forall c | c in h.clients && h.returned ensures h.clients[c].closes == 1 {
      assert Ws.ClientOk(h, c);
    }
  }

  // ---------- Booting ----------

  /** Creating the components and running their Start methods leads to a booted application. */
  lemma BootedIsReached(poolWorkers: int, poolQueue: int, busWorkers: int, busQueue: int,
                        noteWorkers: int, noteQueue: int)
    returns (pool: seq<Pools.Action>, bus: seq<Bus.Action>, notes: seq<Notes.Action>)
    ensures Booted(App(0, Pools.Started(poolWorkers, poolQueue), Bus.Started(busWorkers, busQueue),
                       Notes.Started(noteWorkers, noteQueue), Ws.NEW_HUB, Serving))
    ensures Pools.Runs(Pools.NewPool(poolWorkers, poolQueue), pool, Pools.Started(poolWorkers, poolQueue))
    ensures Bus.OrderlyRuns(Bus.NewBus(busQueue), bus, Bus.Started(busWorkers, busQueue))
    ensures Notes.OrderlyRuns(Notes.NewDispatcher(noteQueue), notes, Notes.Started(noteWorkers, noteQueue))
  {
    pool := Pools.StartRuns(poolWorkers, poolQueue);
    bus := Bus.StartRuns(busWorkers, busQueue);
    notes := Notes.StartRuns(noteWorkers, noteQueue);
  }
}
