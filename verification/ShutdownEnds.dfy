/**
  Once the HTTP server has drained, the shutdown comes to its end: at every point some step can be
  taken that drives it on, each such step brings the end nearer, and no other step takes it further
  away. So it ends in every run in which the component that is being stopped gets its turn.
 */
module ShutdownEnds {
  import opened Results
  import opened Crews
  import Pools
  import Bus = EventBuses
  import Notes = Dispatchers
  import Ws = Hubs
  import opened Shutdown

  /** Every component has stopped, and the hub's goroutine has returned. */
  predicate Finished(s: App)
  {
    s.stage == Stopped && s.hub.returned
  }

  /** The steps of the component that is being stopped, and of the shutdown itself. */
  predicate Drives(s: App, a: Action)
  {
    match s.stage
    case Serving => false
    case HttpDrained => a.StopPool?
    case StoppingPool => a.PoolIsStopped? || (a.PoolStep? && Pools.Draining(a.pool))
    case PoolStopped => a.StopBus?
    case StoppingBus => a.BusIsStopped? || (a.BusStep? && (a.bus.Receive? || a.bus.Finish? || a.bus.Exit?))
    case BusStopped => a.StopDispatcher?
    case StoppingDispatcher =>
      a.DispatcherIsStopped? || (a.NoteStep? && (a.note.Receive? || a.note.Process? || a.note.Exit?))
    case DispatcherStopped => a.StopHub?
    case Stopped => a.HubStep? && (a.hub.Offer? || a.hub.Return?)
  }

  /** The end of an Enqueue call, for which a running handler may be waiting. */
  predicate Unblocks(s: App, a: Action)
  {
    s.stage == StoppingBus && a.NoteStep? && (a.note.Offer? || a.note.Leave?)
  }

  // ---------- How far the end is: stage, work and what is left of the current round ----------

  function StagesLeft(s: App): nat
  {
    Rank(Stopped) - Rank(s.stage)
  }

  function WorkLeft(s: App): nat
  {
    match s.stage
    case StoppingPool => Pools.Measure(s.pool)
    case StoppingBus => s.bus.crew.Work()
    case StoppingDispatcher => s.notes.crew.Work()
    case Stopped => |s.hub.broadcast| + (if s.hub.returned then 0 else 1)
    case _ => 0
  }

  function RoundLeft(s: App): nat
  {
    if s.stage == Stopped then |s.hub.todo| else 0
  }

  predicate Nearer(t: App, s: App)
  {
    || StagesLeft(t) < StagesLeft(s)
    || (StagesLeft(t) == StagesLeft(s) && WorkLeft(t) < WorkLeft(s))
    || (StagesLeft(t) == StagesLeft(s) && WorkLeft(t) == WorkLeft(s) && RoundLeft(t) < RoundLeft(s))
  }

  predicate NoFarther(t: App, s: App)
  {
    Nearer(t, s) || (StagesLeft(t) == StagesLeft(s) && WorkLeft(t) == WorkLeft(s) && RoundLeft(t) == RoundLeft(s))
  }

  // ---------- Some driving step can be taken ----------

  lemma PoolCanMove(s: App) returns (a: Action)
    requires Inv(s) && s.stage == StoppingPool
    ensures Enabled(s, a) && Drives(s, a)
  {
    if s.pool.stop == Pools.Returned {
      a := PoolIsStopped;
    } else {
      Pools.DrainingMoves(s.pool);
      var p :| Pools.Draining(p) && Pools.Enabled(s.pool, p);
      a := PoolStep(p);
    }
  }

  lemma BusCanMove(s: App) returns (a: Action)
    requires Inv(s) && s.stage == StoppingBus
    ensures Enabled(s, a) && (Drives(s, a) || Unblocks(s, a))
  {
    if s.bus.crew.Alive() == 0 {
      a := BusIsStopped;
    } else {
      ClosedCrewMoves(s.bus.crew);
      if s.bus.crew.CanReceive() {
        a := BusStep(Bus.Receive);
      } else if s.bus.crew.CanExit() {
        a := BusStep(Bus.Exit);
      } else {
        var job :| s.bus.crew.CanFinish(job);
        if |s.notes.offering| < s.Handling() {
          a := BusStep(Bus.Finish(job));
        } else {
          SomeoneIsRunning(s.bus.crew, job);
          var id :| id in s.notes.offering;
          a := if s.notes.crew.Room() then NoteStep(Notes.Offer(id)) else NoteStep(Notes.Leave(id));
        }
      }
    }
  }

  lemma SomeoneIsRunning<T>(c: Crew<T>, x: T)
    requires x in c.running
    ensures |c.running| > 0
  {
    assert c.running == (c.running - multiset{x}) + multiset{x};
  }

  lemma DispatcherCanMove(s: App) returns (a: Action)
    requires Inv(s) && s.stage == StoppingDispatcher
    ensures Enabled(s, a) && Drives(s, a)
  {
    if s.notes.crew.Alive() == 0 {
      a := DispatcherIsStopped;
    } else {
      ClosedCrewMoves(s.notes.crew);
      if s.notes.crew.CanReceive() {
        a := NoteStep(Notes.Receive);
      } else if s.notes.crew.CanExit() {
        a := NoteStep(Notes.Exit);
      } else {
        var id :| s.notes.crew.CanFinish(id);
        a := NoteStep(Notes.Process(id, Notes.Delivered(true)));
      }
    }
  }

  lemma HubCanMove(s: App) returns (a: Action)
    requires Inv(s) && s.stage == Stopped && !s.hub.returned
    ensures Enabled(s, a) && Drives(s, a)
  {
    if s.hub.todo != {} {
      var c :| c in s.hub.todo;
      a := HubStep(Ws.Offer(c));
    } else {
      a := HubStep(Ws.Return);
    }
  }

  /**
    From the moment HTTP has drained until the end, a step is enabled
    that drives the shutdown or unblocks a handler.
   */
  lemma ShutdownCanMove(s: App) returns (a: Action)
    requires Inv(s) && s.stage != Serving && !Finished(s)
    ensures Enabled(s, a) && (Drives(s, a) || Unblocks(s, a))
  {
    match s.stage {
      case HttpDrained => a := StopPool;
      case StoppingPool => a := PoolCanMove(s);
      case PoolStopped => a := StopBus;
      case StoppingBus => a := BusCanMove(s);
      case BusStopped => a := StopDispatcher;
      case StoppingDispatcher => a := DispatcherCanMove(s);
      case DispatcherStopped => a := StopHub;
      case Stopped => a := HubCanMove(s);
    }
  }

  // ---------- Driving steps bring the end nearer, and no step takes it away ----------

  lemma PoolStepNears(s: App, p: Pools.Action)
    requires Inv(s) && s.stage == StoppingPool && Enabled(s, PoolStep(p))
    ensures NoFarther(Apply(s, PoolStep(p)), s)
    ensures Pools.Draining(p) ==> Nearer(Apply(s, PoolStep(p)), s)
  {
    if Pools.Draining(p) {
      Pools.DrainingDecreases(s.pool, p);
    } else {
      Pools.OtherStepsAreIdle(s.pool, p);
    }
  }

  lemma BusStepNears(s: App, b: Bus.Action)
    requires Inv(s) && s.stage == StoppingBus && Enabled(s, BusStep(b))
    ensures NoFarther(Apply(s, BusStep(b)), s)
    ensures b.Receive? || b.Finish? || b.Exit? ==> Nearer(Apply(s, BusStep(b)), s)
  {
    NobodyIsPublishing(s);
    BusWorkShrinks(s.bus, b);
  }

  lemma BusWorkShrinks(s: Bus.State, b: Bus.Action)
    requires s.crew.Valid() && Bus.Enabled(s, b) && s.publishers == map[] && !b.BeginPublish? && !b.Spawn? && !b.Close?
    ensures Bus.Apply(s, b).crew.Work() <= s.crew.Work()
    ensures b.Receive? || b.Finish? || b.Exit? ==> Bus.Apply(s, b).crew.Work() < s.crew.Work()
  {
    if b.Receive? {
      ReceiveKeeps(s.crew);
    } else if b.Finish? {
      FinishKeeps(s.crew, b.job);
    } else if b.Exit? {
      ExitKeeps(s.crew);
    }
  }

  lemma NoteStepNears(s: App, n: Notes.Action)
    requires Inv(s) && s.stage == StoppingDispatcher && Enabled(s, NoteStep(n))
    ensures NoFarther(Apply(s, NoteStep(n)), s)
    ensures n.Receive? || n.Process? || n.Exit? ==> Nearer(Apply(s, NoteStep(n)), s)
  {
    NobodyIsEnqueuing(s);
    NoteWorkShrinks(s.notes, n);
  }

  lemma NoteWorkShrinks(s: Notes.State, n: Notes.Action)
    requires s.crew.Valid() && Notes.Enabled(s, n) && s.offering == {} && !n.Persist? && !n.Spawn? && !n.Close?
    ensures Notes.Apply(s, n).crew.Work() < s.crew.Work()
  {
    if n.Receive? {
      ReceiveKeeps(s.crew);
    } else if n.Process? {
      FinishKeeps(s.crew, n.id);
    } else {
      ExitKeeps(s.crew);
    }
  }

  lemma HubStepNears(s: App, h: Ws.Action)
    requires Inv(s) && s.stage == Stopped && Enabled(s, HubStep(h))
    ensures NoFarther(Apply(s, HubStep(h)), s)
    ensures h.Offer? || h.Return? ==> Nearer(Apply(s, HubStep(h)), s)
  {
    NobodyIsEnqueuing(s);
    if h.Offer? {
      assert s.hub.todo == (s.hub.todo - {h.c}) + {h.c};
    }
  }

  /** Steps of components that are not being stopped, and requests that can no longer come or go. */
  lemma OtherStepNears(s: App, a: Action)
    requires Inv(s) && s.stage != Serving && Enabled(s, a)
    requires !(a.PoolStep? && s.stage == StoppingPool) && !(a.BusStep? && s.stage == StoppingBus)
    requires !(a.NoteStep? && s.stage == StoppingDispatcher) && !(a.HubStep? && s.stage == Stopped)
    ensures NoFarther(Apply(s, a), s)
    ensures Drives(s, a) ==> Nearer(Apply(s, a), s)
  {
  }

  lemma StepNears(s: App, a: Action)
    requires Inv(s) && s.stage != Serving && Enabled(s, a)
    ensures Inv(Apply(s, a)) && Apply(s, a).stage != Serving && NoFarther(Apply(s, a), s)
    ensures Drives(s, a) ==> Nearer(Apply(s, a), s)
  {
    StepKeepsInv(s, a);
    if a.PoolStep? && s.stage == StoppingPool {
      PoolStepNears(s, a.pool);
    } else if a.BusStep? && s.stage == StoppingBus {
      BusStepNears(s, a.bus);
    } else if a.NoteStep? && s.stage == StoppingDispatcher {
      NoteStepNears(s, a.note);
    } else if a.HubStep? && s.stage == Stopped {
      HubStepNears(s, a.hub);
    } else {
      OtherStepNears(s, a);
    }
  }

  // ---------- Endless runs ----------

  /** In step n of an endless run an action is taken, or nothing happens. */
  ghost predicate Step(trace: nat -> App, acts: nat -> Option<Action>, n: nat)
  {
    match acts(n)
    case None => trace(n + 1) == trace(n)
    case Some(a) => Enabled(trace(n), a) && trace(n + 1) == Apply(trace(n), a)
  }

  ghost predicate DrivenAt(trace: nat -> App, acts: nat -> Option<Action>, n: nat)
  {
    acts(n).Some? && Drives(trace(n), acts(n).value)
  }

  /** Some step could drive the shutdown on, or unblock a handler. */
  ghost predicate CanMove(s: App)
  {
    exists a :: Enabled(s, a) && (Drives(s, a) || Unblocks(s, a))
  }

  ghost predicate TurnComes(trace: nat -> App, acts: nat -> Option<Action>, n: nat)
  {
    CanMove(trace(n)) ==> exists m: nat :: n <= m && DrivenAt(trace, acts, m)
  }

  /**
    The component that is being stopped gets its turn: tasks and handlers
    end, and enabled steps are not put off for ever.
   */
  ghost predicate Fair(trace: nat -> App, acts: nat -> Option<Action>)
  {
    forall n: nat :: TurnComes(trace, acts, n)
  }

  ghost predicate Endless(trace: nat -> App, acts: nat -> Option<Action>)
  {
    forall n: nat :: Step(trace, acts, n)
  }

  lemma {:induction false} NeverFarther(trace: nat -> App, acts: nat -> Option<Action>, n: nat, m: nat)
    requires Endless(trace, acts) && n <= m && Inv(trace(n)) && trace(n).stage != Serving
    ensures Inv(trace(m)) && trace(m).stage != Serving && NoFarther(trace(m), trace(n))
    decreases m - n
  {
    if n < m {
      assert Step(trace, acts, n);
      if acts(n).Some? {
        StepNears(trace(n), acts(n).value);
      }
      NeverFarther(trace, acts, n + 1, m);
    }
  }

  /** Until the end, a nearer point comes. */
  lemma NearerComes(trace: nat -> App, acts: nat -> Option<Action>, n: nat) returns (m: nat)
    requires Endless(trace, acts) && Fair(trace, acts) && Inv(trace(n)) && trace(n).stage != Serving
    requires !Finished(trace(n))
    ensures m > n && Inv(trace(m)) && trace(m).stage != Serving && Nearer(trace(m), trace(n))
  {
    var k := NextDrive(trace, acts, n);
    NeverFarther(trace, acts, n, k);
    DrivenStepNears(trace, acts, k);
    NearerStill(trace(k + 1), trace(k), trace(n));
    m := k + 1;
  }

  lemma DrivenStepNears(trace: nat -> App, acts: nat -> Option<Action>, k: nat)
    requires Endless(trace, acts) && DrivenAt(trace, acts, k) && Inv(trace(k)) && trace(k).stage != Serving
    ensures Inv(trace(k + 1)) && trace(k + 1).stage != Serving && Nearer(trace(k + 1), trace(k))
  {
    assert Step(trace, acts, k);
    StepNears(trace(k), acts(k).value);
  }

  lemma NearerStill(u: App, t: App, s: App)
    requires Nearer(u, t) && NoFarther(t, s)
    ensures Nearer(u, s)
  {
  }

  lemma NextDrive(trace: nat -> App, acts: nat -> Option<Action>, n: nat) returns (k: nat)
    requires Fair(trace, acts) && Inv(trace(n)) && trace(n).stage != Serving && !Finished(trace(n))
    ensures k >= n && DrivenAt(trace, acts, k)
  {
    var a := ShutdownCanMove(trace(n));
    assert CanMove(trace(n));
    assert TurnComes(trace, acts, n);
    k :| n <= k && DrivenAt(trace, acts, k);
  }

  /**
    The shutdown ends: in every fair endless run, from any point after HTTP has drained, a point comes
    at which all components have stopped and the hub has returned, and then everything that was
    accepted has been done and every client's channel has been closed once.
   */
  lemma {:induction false} ShutdownFinishes(trace: nat -> App, acts: nat -> Option<Action>, n: nat) returns (end: nat)
    requires Endless(trace, acts) && Fair(trace, acts) && Inv(trace(n)) && trace(n).stage != Serving
    ensures end >= n && Finished(trace(end)) && AllDone(trace(end))
    decreases StagesLeft(trace(n)), WorkLeft(trace(n)), RoundLeft(trace(n))
  {
    if Finished(trace(n)) {
      StoppedIsDone(trace(n));
      end := n;
    } else {
      var m := NearerComes(trace, acts, n);
      end := ShutdownFinishes(trace, acts, m);
    }
  }
}
