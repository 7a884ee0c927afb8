/**
  The order worker pool: a read-write lock around a channel with a crew of workers. Start, any
  number of Submit and TrySubmit calls, the workers and Stop interleave as steps; the class has
  the same methods as single uninterrupted calls.
 */
module Pools {
  import opened Results
  import opened Crews

  /** A submission that holds the read lock and has found the pool not stopped. */
  datatype Call = Call(task: nat, blocking: bool)

  datatype StopPhase =
    | NotCalled
    | Waiting              // for the write lock; new readers queue up behind it
    | Closed(joins: bool)  // the channel is closed; joins: Start had set started, so Stop waits for the workers
    | Returned

  datatype State = State(
    workers: nat,
    started: bool,
    stopped: bool,
    added: bool,           // Start has raised the wait group's counter
    toSpawn: nat,          // workers counted but not yet running
    callers: multiset<Call>,
    stop: StopPhase,
    crew: Crew<nat>)
  {
    /** The wait group's counter. */
    function Outstanding(): nat {
      toSpawn + crew.Alive()
    }

    /** Every task accepted so far has run, once for each time it was accepted. */
    predicate Drained() {
      crew.queue == [] && crew.running == multiset{} && crew.done == crew.sent
    }

    /** Start has completed, as bootstrap makes sure before it serves. */
    predicate Launched() {
      started && added && toSpawn == 0
    }
  }

  datatype Action =
    | StartLock | StartAdd | Spawn
    | Enter(call: Call) | Send(call: Call) | Refuse(call: Call)
    | Receive | Finish(task: nat) | Exit
    | RequestStop | StopClose | StopReturn

  predicate Enabled(s: State, a: Action)
  {
    match a
    case StartLock => s.callers == multiset{}
    case StartAdd => s.started && !s.added
    case Spawn => s.toSpawn > 0
    case Enter(_) => s.stop != Waiting
    case Send(c) => c in s.callers && s.crew.Room()
    case Refuse(c) => c in s.callers && !c.blocking && s.crew.Full()
    case Receive => s.crew.CanReceive()
    case Finish(t) => s.crew.CanFinish(t)
    case Exit => s.crew.CanExit()
    case RequestStop => s.stop == NotCalled
    case StopClose => s.stop == Waiting && s.callers == multiset{}
    case StopReturn => s.stop.Closed? && (s.stop.joins ==> s.Outstanding() == 0)
  }

  function Apply(s: State, a: Action): State
    requires Enabled(s, a)
  {
    match a
    case StartLock => if s.started || s.stopped then s else s.(started := true)
    case StartAdd => s.(added := true, toSpawn := s.workers)
    case Spawn => s.(toSpawn := s.toSpawn - 1, crew := s.crew.Spawn())
    case Enter(c) => if s.stopped then s else s.(callers := s.callers + multiset{c})
    case Send(c) => s.(callers := s.callers - multiset{c}, crew := s.crew.Send(c.task))
    case Refuse(c) => s.(callers := s.callers - multiset{c})
    case Receive => s.(crew := s.crew.Receive())
    case Finish(t) => s.(crew := s.crew.Finish(t))
    case Exit => s.(crew := s.crew.Exit())
    case RequestStop => s.(stop := Waiting)
    case StopClose => s.(stop := Closed(s.started), stopped := true, crew := s.crew.Close())
    case StopReturn => s.(stop := Returned)
  }

  function NewPool(workers: int, queueSize: int): State
  {
    State(if workers < 1 then 1 else workers, false, false, false, 0, multiset{}, NotCalled,
          Empty(if queueSize < 0 then 0 else queueSize))
  }

  ghost predicate Runs(s: State, actions: seq<Action>, t: State)
    decreases |actions|
  {
    if actions == [] then s == t
    else Enabled(s, actions[0]) && Runs(Apply(s, actions[0]), actions[1..], t)
  }

  ghost predicate Inv(s: State)
  {
    && s.workers >= 1 && s.crew.Valid()
    && s.stopped == s.crew.closed == (s.stop.Closed? || s.stop.Returned?)
    && (s.stopped ==> s.callers == multiset{})
    && (s.added ==> s.started)
    && s.toSpawn + s.crew.spawned == (if s.added then s.workers else 0)
    && (s.stop.Closed? ==> s.stop.joins == s.started)
  }

  lemma StepKeepsInv(s: State, a: Action)
    requires Inv(s) && Enabled(s, a)
    ensures Inv(Apply(s, a))
  {
    match a {
      case Send(c) => SendKeeps(s.crew, c.task);
      case Receive => ReceiveKeeps(s.crew);
      case Finish(t) => FinishKeeps(s.crew, t);
      case Exit => ExitKeeps(s.crew);
      case _ =>
    }
  }

  /**
    In every run of a new pool, with any capacity, every accepted task is queued, running or done
    exactly as often as it was accepted, and no call ever sends on the closed channel.
   */
  lemma {:induction false} RunsKeepInv(s: State, actions: seq<Action>, t: State)
    requires Inv(s) && Runs(s, actions, t)
    ensures Inv(t)
    ensures t.crew.sent == multiset(t.crew.queue) + t.crew.running + t.crew.done
    ensures forall c :: c in t.callers ==> !t.crew.closed
    ensures s.Launched() ==> t.Launched()
    decreases |actions|
  {
    if actions != [] {
      StepKeepsInv(s, actions[0]);
      RunsKeepInv(Apply(s, actions[0]), actions[1..], t);
    }
  }

  /** The tasks that the calls of a run have handed over: one for each send. */
  function SentBy(actions: seq<Action>): multiset<nat>
  {
    if actions == [] then multiset{}
    else (if actions[0].Send? then multiset{actions[0].call.task} else multiset{}) + SentBy(actions[1..])
  }

  lemma StepSends(s: State, a: Action)
    requires Inv(s) && Enabled(s, a)
    ensures Apply(s, a).crew.sent == s.crew.sent + (if a.Send? then multiset{a.call.task} else multiset{})
  {
    if a.Send? {
      SendKeeps(s.crew, a.call.task);
    }
  }

  /** What counts as accepted is exactly what was sent, each task as often as it was sent. */
  lemma {:induction false} AcceptedIsSent(s: State, actions: seq<Action>, t: State)
    requires Inv(s) && Runs(s, actions, t)
    ensures t.crew.sent == s.crew.sent + SentBy(actions)
    decreases |actions|
  {
    if actions != [] {
      StepSends(s, actions[0]);
      StepKeepsInv(s, actions[0]);
      AcceptedIsSent(Apply(s, actions[0]), actions[1..], t);
    }
  }

  /**
    At the moment Stop returns, every accepted task has run iff Start had raised the wait group's
    counter, or nothing was ever accepted. (Start raises it after releasing the lock.)
   */
  lemma StopDrainsIffLaunched(workers: int, queueSize: int, actions: seq<Action>, t: State)
    requires Runs(NewPool(workers, queueSize), actions, t) && Enabled(t, StopReturn)
    ensures Apply(t, StopReturn).Drained() <==> t.added || t.crew.sent == multiset{}
  {
    RunsKeepInv(NewPool(workers, queueSize), actions, t);
    if !t.added {
      NothingRunsBeforeAdd(NewPool(workers, queueSize), actions, t);
    }
    AtReturn(t);
  }

  lemma AtReturn(t: State)
    requires Inv(t) && Enabled(t, StopReturn) && (t.added || t.crew.done == multiset{})
    ensures Apply(t, StopReturn).Drained() <==> t.added || t.crew.sent == multiset{}
  {
    if t.added {
      ReturnedMeansDrained(t.crew);
    } else {
      NothingSentNothingHeld(t.crew);
    }
  }

  lemma NothingSentNothingHeld(c: Crew<nat>)
    requires c.Valid() && c.done == multiset{}
    ensures c.sent == multiset{} <==> c.queue == [] && c.running == multiset{}
  {
    if c.queue != [] {
      assert c.queue[0] in multiset(c.queue);
    }
  }

  /** The failing case: one task accepted, Start between its lock and its counter, and Stop returns at once. */
  lemma StopCanOvertakeStart()
    ensures exists actions, t ::
              Runs(NewPool(1, 1), actions, t) && t.started && Enabled(t, StopReturn) && !Apply(t, StopReturn).Drained()
  {
    var t := Overtaken(OneQueued());
    var rest := StartAndStop(OneQueued());
    var actions := AcceptOneThen(rest, t);
    StopsUndrained(t);
    assert Runs(NewPool(1, 1), actions, t);
  }

  function Overtaken(s: State): State
  {
    s.(started := true, stop := Closed(true), stopped := true, crew := s.crew.Close())
  }

  function OneQueued(): State
  {
    NewPool(1, 1).(crew := Empty(1).(queue := [7], sent := multiset{7}))
  }

  lemma AcceptOneThen(rest: seq<Action>, t: State) returns (actions: seq<Action>)
    requires Runs(OneQueued(), rest, t)
    ensures Runs(NewPool(1, 1), actions, t)
  {
    var c := Call(7, true);
    var s1 := NewPool(1, 1).(callers := multiset{c});
    assert Apply(NewPool(1, 1), Enter(c)) == s1;
    assert multiset{c} - multiset{c} == multiset{};
    assert Apply(s1, Send(c)) == OneQueued();
    assert ([Send(c)] + rest)[1..] == rest;
    assert Runs(s1, [Send(c)] + rest, t);
    actions := [Enter(c)] + ([Send(c)] + rest);
    assert actions[1..] == [Send(c)] + rest;
  }

  lemma StopsUndrained(t: State)
    requires t.stop == Closed(true) && t.toSpawn == 0 && t.crew.idle == 0 && t.crew.running == multiset{}
    requires t.crew.queue != []
    ensures Enabled(t, StopReturn) && !Apply(t, StopReturn).Drained()
  {
  }

  lemma StartAndStop(s: State) returns (rest: seq<Action>)
    requires s.callers == multiset{} && !s.started && !s.stopped && s.stop == NotCalled
    ensures Runs(s, rest, Overtaken(s))
  {
    var s3 := s.(started := true);
    var s4 := s3.(stop := Waiting);
    assert Runs(Overtaken(s), [], Overtaken(s));
    assert [StopClose][1..] == [];
    assert Runs(s4, [StopClose], Overtaken(s));
    assert [RequestStop, StopClose][1..] == [StopClose];
    assert Runs(s3, [RequestStop, StopClose], Overtaken(s));
    rest := [StartLock, RequestStop, StopClose];
    assert rest[1..] == [RequestStop, StopClose];
  }

  lemma {:induction false} NothingRunsBeforeAdd(s: State, actions: seq<Action>, t: State)
    requires Inv(s) && Runs(s, actions, t) && !t.added && s.crew.done == multiset{}
    ensures t.crew.done == multiset{}
    decreases |actions|
  {
    if actions != [] {
      StepKeepsInv(s, actions[0]);
      if s.added {
        AddedStays(s, actions, t);
      }
      NothingRunsBeforeAdd(Apply(s, actions[0]), actions[1..], t);
    }
  }

  lemma {:induction false} AddedStays(s: State, actions: seq<Action>, t: State)
    requires Runs(s, actions, t) && s.added
    ensures t.added
    decreases |actions|
  {
    if actions != [] {
      AddedStays(Apply(s, actions[0]), actions[1..], t);
    }
  }

  /** Start completed before Stop was called. */
  ghost predicate Served(s: State)
  {
    Inv(s) && s.Launched() && (s.stop.Returned? ==> s.crew.Alive() == 0)
  }

  lemma StepKeepsServed(s: State, a: Action)
    requires Served(s) && Enabled(s, a)
    ensures Served(Apply(s, a))
  {
    StepKeepsInv(s, a);
  }

  /** If Start completed before, then after Stop has returned every accepted task has run, now and later. */
  lemma {:induction false} StopDrains(s: State, actions: seq<Action>, t: State)
    requires Served(s) && Runs(s, actions, t)
    ensures Served(t)
    ensures t.stop == Returned ==> t.Drained()
    decreases |actions|
  {
    if actions != [] {
      StepKeepsServed(s, actions[0]);
      StopDrains(Apply(s, actions[0]), actions[1..], t);
    } else if s.stop == Returned {
      ReturnedMeansDrained(s.crew);
    }
  }

  /** A pool on which Start has run to its end. */
  function Started(workers: int, queueSize: int): State
  {
    var s := NewPool(workers, queueSize);
    s.(started := true, added := true, crew := s.crew.(idle := s.workers, spawned := s.workers))
  }

  lemma {:induction false} SpawnAll(s: State) returns (actions: seq<Action>)
    requires s.added
    ensures Runs(s, actions, s.(toSpawn := 0, crew := s.crew.(idle := s.crew.idle + s.toSpawn,
                                                              spawned := s.crew.spawned + s.toSpawn)))
    decreases s.toSpawn
  {
    actions := [];
    if s.toSpawn > 0 {
      var rest := SpawnAll(Apply(s, Spawn));
      actions := [Spawn] + rest;
      assert actions[1..] == rest;
    }
  }

  lemma StartRuns(workers: int, queueSize: int) returns (actions: seq<Action>)
    ensures Runs(NewPool(workers, queueSize), actions, Started(workers, queueSize))
    ensures Served(Started(workers, queueSize))
  {
    var s1 := Apply(NewPool(workers, queueSize), StartLock);
    var s2 := Apply(s1, StartAdd);
    var spawns := SpawnAll(s2);
    assert ([StartAdd] + spawns)[1..] == spawns;
    assert Runs(s1, [StartAdd] + spawns, Started(workers, queueSize));
    actions := [StartLock] + ([StartAdd] + spawns);
    assert actions[1..] == [StartAdd] + spawns;
  }

  // ---------- Stop terminates ----------

  /** The steps that remain once Stop has been called: tasks end, and nobody new gets the lock. */
  predicate Draining(a: Action)
  {
    a.Send? || a.Refuse? || a.Receive? || a.Finish? || a.Exit? || a.StopClose? || a.StopReturn?
  }

  function Measure(s: State): nat
  {
    3 * |s.callers| + s.crew.Work()
      + match s.stop case NotCalled => 3 case Waiting => 2 case Closed(_) => 1 case Returned => 0
  }

  lemma LessWorkDecreases(s: State, crew: Crew<nat>)
    requires crew.Work() < s.crew.Work()
    ensures Measure(s.(crew := crew)) < Measure(s)
  {
  }

  lemma CrewStepDecreases(s: State, a: Action)
    requires Inv(s) && Enabled(s, a) && (a.Receive? || a.Finish? || a.Exit?)
    ensures Measure(Apply(s, a)) < Measure(s)
  {
    if a.Receive? {
      ReceiveKeeps(s.crew);
      LessWorkDecreases(s, s.crew.Receive());
    } else if a.Finish? {
      FinishKeeps(s.crew, a.task);
      LessWorkDecreases(s, s.crew.Finish(a.task));
    } else {
      ExitKeeps(s.crew);
      LessWorkDecreases(s, s.crew.Exit());
    }
  }

  lemma FewerCallersDecrease(s: State, c: Call, crew: Crew<nat>)
    requires c in s.callers && crew.Work() <= s.crew.Work() + 2
    ensures Measure(s.(callers := s.callers - multiset{c}, crew := crew)) < Measure(s)
  {
    assert |s.callers - multiset{c}| == |s.callers| - 1;
  }

  lemma CallerStepDecreases(s: State, a: Action)
    requires Inv(s) && Enabled(s, a) && (a.Send? || a.Refuse?)
    ensures Measure(Apply(s, a)) < Measure(s)
  {
    if a.Send? {
      SendKeeps(s.crew, a.call.task);
      FewerCallersDecrease(s, a.call, s.crew.Send(a.call.task));
    } else {
      FewerCallersDecrease(s, a.call, s.crew);
    }
  }

  lemma DrainingDecreases(s: State, a: Action)
    requires Inv(s) && Enabled(s, a) && Draining(a)
    ensures Measure(Apply(s, a)) < Measure(s)
  {
    if a.Send? || a.Refuse? {
      CallerStepDecreases(s, a);
    } else if a.Receive? || a.Finish? || a.Exit? {
      CrewStepDecreases(s, a);
    }
  }

  /** Every other step changes nothing any more. */
  lemma OtherStepsAreIdle(s: State, a: Action)
    requires Inv(s) && s.Launched() && s.stop != NotCalled && Enabled(s, a) && !Draining(a)
    ensures Apply(s, a) == s
  {
  }

  /** Until Stop has returned, some draining step can be taken. */
  lemma DrainingMoves(s: State)
    requires Inv(s) && s.Launched() && (s.stop == Waiting || s.stop.Closed?)
    ensures exists a :: Draining(a) && Enabled(s, a)
  {
    if s.stop.Closed? {
      if s.crew.Alive() == 0 {
        assert Enabled(s, StopReturn);
      } else {
        ClosedCrewMoves(s.crew);
        if s.crew.CanReceive() {
          assert Enabled(s, Receive);
        } else if s.crew.CanExit() {
          assert Enabled(s, Exit);
        } else {
          var x :| s.crew.CanFinish(x);
          assert Enabled(s, Finish(x));
        }
      }
    } else if s.callers == multiset{} {
      assert Enabled(s, StopClose);
    } else {
      var c :| c in s.callers;
      if s.crew.Room() {
        assert Enabled(s, Send(c));
      } else if s.crew.idle > 0 {
        assert Enabled(s, Receive);
      } else {
        assert s.crew.running != multiset{};
        var x :| x in s.crew.running;
        assert Enabled(s, Finish(x));
      }
    }
  }

  /** How many of the actions are draining steps. */
  function Drains(actions: seq<Action>): nat
  {
    if actions == [] then 0 else (if Draining(actions[0]) then 1 else 0) + Drains(actions[1..])
  }

  /**
    Once Stop has been called on a launched pool, it returns: in any run from there at most Measure
    draining steps are possible, and when none is enabled any more Stop has returned with all tasks run.
   */
  lemma {:induction false} StopReturns(s: State, actions: seq<Action>, t: State)
    requires Served(s) && s.stop != NotCalled && Runs(s, actions, t)
    ensures Drains(actions) + Measure(t) <= Measure(s)
    ensures (forall a :: Draining(a) ==> !Enabled(t, a)) ==> t.stop == Returned && t.Drained()
    decreases |actions|
  {
    if actions != [] {
      StepKeepsServed(s, actions[0]);
      if Draining(actions[0]) {
        DrainingDecreases(s, actions[0]);
      } else {
        OtherStepsAreIdle(s, actions[0]);
      }
      StopStaysCalled(s, actions[0]);
      StopReturns(Apply(s, actions[0]), actions[1..], t);
    } else if s.stop != Returned {
      DrainingMoves(s);
    } else {
      ReturnedMeansDrained(s.crew);
    }
  }

  lemma StopStaysCalled(s: State, a: Action)
    requires s.stop != NotCalled && Enabled(s, a)
    ensures Apply(s, a).stop != NotCalled
  {
  }

  /** A Submit that blocks before Start holds the lock that Start needs: the pool then never starts. */
  lemma {:induction false} EarlySubmitBlocksStart(s: State, actions: seq<Action>, t: State, task: nat)
    requires Inv(s) && Runs(s, actions, t) && !s.started
    requires Call(task, true) in s.callers && s.crew.Full()
    ensures !t.started && Call(task, true) in t.callers
    decreases |actions|
  {
    if actions != [] {
      StepKeepsInv(s, actions[0]);
      EarlySubmitBlocksStart(Apply(s, actions[0]), actions[1..], t, task);
    }
  }

  // ---------- The methods ----------

  /**
    Each method is one call that runs until it returns or has to wait. A call that waits says so,
    and leaves the state in which it waits: for the lock, or on the channel with the read lock held.
   */

  class Pool {
    const workers: nat
    var started: bool
    var stopped: bool
    var added: bool
    var toSpawn: nat
    var callers: multiset<Call>
    var stop: StopPhase
    var crew: Crew<nat>

    function View(): State
      reads this
    {
      State(workers, started, stopped, added, toSpawn, callers, stop, crew)
    }

    constructor (workers: int, queueSize: int)
      ensures View() == NewPool(workers, queueSize) && Inv(View())
      ensures this.workers == (if workers < 1 then 1 else workers)
      ensures crew.capacity == (if queueSize < 0 then 0 else queueSize) && crew.queue == [] && crew.spawned == 0
    {
      this.workers := if workers < 1 then 1 else workers;
      started, stopped, added, toSpawn, callers, stop := false, false, false, 0, multiset{}, NotCalled;
      crew := Empty(if queueSize < 0 then 0 else queueSize);
    }

    /** A writer can take the lock at once. */
    predicate LockFree()
      reads this
    {
      callers == multiset{} && stop != Waiting
    }

    method Start() returns (waits: bool)
      requires Inv(View())
      modifies this
      ensures Inv(View()) && waits == !old(LockFree())
      ensures if waits || old(started) || old(stopped) then View() == old(View())
              else Launched() && crew == old(crew).(idle := workers, spawned := workers) && !stopped
    {
      waits := !LockFree();
      if waits || started || stopped {
        return;
      }
      started := true;
      added, toSpawn := true, workers;
      for i := 0 to workers
        invariant started && added && !stopped && toSpawn == workers - i
        invariant callers == multiset{} && stop == old(stop)
        invariant crew == old(crew).(idle := i, spawned := i)
        invariant Inv(View())
      {
        toSpawn, crew := toSpawn - 1, crew.Spawn();
      }
    }

    predicate Launched()
      reads this
    {
      View().Launched()
    }

    /** No task is no submission, and no error. With no room the call waits inside the read lock. */
    method Submit(task: Option<nat>) returns (err: Option<ErrorKind>, waits: bool)
      requires Inv(View())
      modifies this
      ensures Inv(View())
      ensures waits <==> task.Some? && (old(stop) == Waiting || (!old(stopped) && !old(crew).Room()))
      ensures err == if task.Some? && old(stopped) then Some(Unavailable) else None
      ensures if task.None? || old(stopped) || old(stop) == Waiting then View() == old(View())
              else if waits then View() == old(View()).(callers := old(callers) + multiset{Call(task.value, true)})
              else View() == old(View()).(crew := old(crew).Send(task.value))
    {
      err, waits := None, false;
      if task.None? {
        return;
      }
      if stop == Waiting {
        waits := true;
      } else if stopped {
        err := Some(Unavailable);
      } else if crew.Room() {
        SendKeeps(crew, task.value);
        crew := crew.Send(task.value);
      } else {
        waits, callers := true, callers + multiset{Call(task.value, true)};
      }
    }

    /** TrySubmit waits only for the lock; with a full buffer it succeeds only if a receiver happens to be parked. */
    method TrySubmit(task: Option<nat>) returns (ok: bool, waits: bool)
      requires Inv(View())
      modifies this
      ensures Inv(View())
      ensures waits <==> task.Some? && old(stop) == Waiting
      ensures ok ==> task.Some? && !waits && !old(stopped) && old(crew).Room()
      ensures !ok && !waits ==> task.None? || old(stopped) || old(crew).Full()
      ensures View() == if ok then old(View()).(crew := old(crew).Send(task.value)) else old(View())
    {
      ok, waits := false, task.Some? && stop == Waiting;
      if waits || task.None? || stopped {
        return;
      }
      ok := |crew.queue| < crew.capacity;
      if !ok && crew.Room() {
        ok := *;
      }
      if ok {
        SendKeeps(crew, task.value);
        crew := crew.Send(task.value);
      }
    }

    /** Some worker of a closed pool takes its next step. */
    method WorkerMove(c: Crew<nat>) returns (d: Crew<nat>)
      requires c.Valid() && c.closed && c.Alive() > 0
      ensures d.Valid() && d.closed && d.sent == c.sent && d.spawned == c.spawned && d.Work() < c.Work()
    {
      ClosedCrewMoves(c);
      if c.CanReceive() && (|c.running| == 0 || c.idle > 1) {
        ReceiveKeeps(c);
        d := c.Receive();
      } else if |c.running| > 0 {
        assert c.running != multiset{};
        var x :| x in c.running;
        FinishKeeps(c, x);
        d := c.Finish(x);
      } else {
        ExitKeeps(c);
        d := c.Exit();
      }
    }

    /**
      The first call waits for the lock while somebody holds it, and otherwise closes the channel;
      the loop is its wait for the workers, who run in any order. Later calls wait for the first.
     */
    method Stop() returns (waits: bool)
      requires Inv(View())
      modifies this
      ensures Inv(View())
      ensures match old(stop)
              case NotCalled =>
                && waits == (old(callers) != multiset{})
                && if waits then View() == old(View()).(stop := Waiting)
                   else
                     && stopped && stop == Returned && crew.sent == old(crew).sent
                     && (old(added) ==> View().Drained())
                     && (!old(added) ==> crew == old(crew).Close())
              case Returned => !waits && View() == old(View())
              case _ => waits && View() == old(View())
    {
      waits := stop == Waiting || stop.Closed? || (stop == NotCalled && callers != multiset{});
      if stop != NotCalled {
        return;
      }
      if waits {
        stop := Waiting;
        return;
      }
      stopped, crew, stop := true, crew.Close(), Closed(started);
      if started {
        WaitForWorkers();
      }
      stop := Returned;
    }

    /** The wait group's Wait; goroutines that were counted but do not run yet start meanwhile. */
    method WaitForWorkers()
      requires Inv(View()) && stop == Closed(true)
      modifies this`crew, this`toSpawn
      ensures Inv(View()) && crew.sent == old(crew).sent
      ensures if added then View().Drained() else crew == old(crew)
    {
      if !added {
        return;
      }
      while toSpawn + crew.Alive() > 0
        invariant Inv(View()) && crew.sent == old(crew).sent
        decreases 2 * toSpawn + crew.Work()
      {
        if toSpawn > 0 {
          toSpawn, crew := toSpawn - 1, crew.Spawn();
        } else {
          crew := WorkerMove(crew);
        }
      }
      ReturnedMeansDrained(crew);
    }
  }
}
