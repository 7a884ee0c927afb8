/**
  The notification dispatcher: Enqueue persists a notification and offers it to the workers, or
  leaves the row for a later sweep; a worker hands it to the sender once and records the outcome.
 */
module Dispatchers {
  import opened Results
  import opened Notifications
  import opened Crews

  /** How handing one notification to the sender goes, and whether the row update then succeeds. */
  datatype Outcome = Delivered(stored: bool) | SendFailed(text: string, stored: bool) | Panicked

  /** The notification in memory after process, and the row it writes, if it writes one. */
  function ProcessNote(n: NoteData, outcome: Outcome): (NoteData, Option<NoteData>)
  {
    var tried := n.(attempts := n.attempts + 1);
    match outcome
    case Panicked => (tried, None)
    case Delivered(stored) =>
      (match SentNote(tried)
       case Err(_) => (tried, None)
       case Ok(after) => (after, if stored then Some(after) else None))
    case SendFailed(text, stored) =>
      (match FailedNote(tried, text)
       case Err(_) => (tried, None)
       case Ok(after) => (after, if stored then Some(after) else None))
  }

  datatype State = State(
    rows: map<nat, NoteData>,       // persisted notifications
    offering: set<nat>,             // Enqueue calls between persisting and the non-blocking send
    left: set<nat>,                 // history: refused by a full queue
    crew: Crew<nat>,
    handed: multiset<nat>,          // history: notifications given to the sender
    outcomes: map<nat, Outcome>)    // history: how that went

  datatype Action =
    | Persist(id: nat)
    | Offer(id: nat)
    | Leave(id: nat)
    | Spawn | Receive | Process(id: nat, outcome: Outcome) | Exit | Close

  predicate Enabled(s: State, a: Action)
  {
    match a
    case Persist(id) => id !in s.rows
    case Offer(id) => id in s.offering && s.crew.Room()
    case Leave(id) => id in s.offering && s.crew.Full()
    case Spawn => !s.crew.closed
    case Receive => s.crew.CanReceive()
    case Process(id, _) => s.crew.CanFinish(id)
    case Exit => s.crew.CanExit()
    case Close => !s.crew.closed
  }

  function Stored(rows: map<nat, NoteData>, id: nat, outcome: Outcome): map<nat, NoteData>
  {
    match ProcessNote(FRESH, outcome).1
    case None => rows
    case Some(row) => if id in rows then rows[id := row] else rows
  }

  function Apply(s: State, a: Action): State
    requires Enabled(s, a)
  {
    match a
    case Persist(id) => s.(rows := s.rows[id := FRESH], offering := s.offering + {id})
    case Offer(id) => s.(offering := s.offering - {id}, crew := s.crew.Send(id))
    case Leave(id) => s.(offering := s.offering - {id}, left := s.left + {id})
    case Spawn => s.(crew := s.crew.Spawn())
    case Receive => s.(crew := s.crew.Receive())
    case Process(id, outcome) =>
      s.(crew := s.crew.Finish(id), rows := Stored(s.rows, id, outcome),
         handed := s.handed + multiset{id}, outcomes := s.outcomes[id := outcome])
    case Exit => s.(crew := s.crew.Exit())
    case Close => s.(crew := s.crew.Close())
  }

  function NewDispatcher(queueSize: int): State
  {
    State(map[], {}, {}, Empty(if queueSize < 0 then 0 else queueSize), multiset{}, map[])
  }

  /** The callers' side of the contract: no Enqueue runs into or past Stop. */
  predicate Orderly(s: State, a: Action)
  {
    match a
    case Persist(_) => !s.crew.closed
    case Close => s.offering == {}
    case _ => true
  }

  ghost predicate OrderlyRuns(s: State, actions: seq<Action>, t: State)
    decreases |actions|
  {
    if actions == [] then s == t
    else
      && Enabled(s, actions[0]) && Orderly(s, actions[0])
      && OrderlyRuns(Apply(s, actions[0]), actions[1..], t)
  }

  /** The row of a notification, as its history says it must be. */
  predicate RowTells(s: State, id: nat)
    requires id in s.rows
  {
    if id in s.outcomes then
      s.rows[id] == match ProcessNote(FRESH, s.outcomes[id]).1 case None => FRESH case Some(row) => row
    else s.rows[id] == FRESH
  }

  /** Each persisted notification is being offered, was left, or was queued, once. */
  ghost predicate Placed(s: State, id: nat)
  {
    if id !in s.rows then s.crew.sent[id] == 0 && id !in s.offering && id !in s.left
    else if id in s.offering then s.crew.sent[id] == 0 && id !in s.left
    else s.crew.sent[id] == if id in s.left then 0 else 1
  }

  ghost predicate Inv(s: State)
  {
    && s.crew.Valid()
    && s.handed == s.crew.done
    && (forall id: nat :: Placed(s, id))
    && (forall id :: id in s.rows ==> RowTells(s, id))
    && (forall id :: id in s.outcomes <==> id in s.crew.done)
    && (s.crew.closed ==> s.offering == {})
  }

  /** A message in hand was sent once, so it has not been handled before. */
  lemma RunningIsNew(s: State, id: nat)
    requires Inv(s) && id in s.crew.running
    ensures id in s.rows && id !in s.offering && id !in s.left && id !in s.crew.done && id !in s.outcomes
  {
    assert Placed(s, id);
    assert s.crew.sent[id] >= s.crew.running[id] + s.crew.done[id];
  }

  /** Finishing a message moves it from running to done and changes nothing that was sent. */
  lemma ProcessKeepsPlaces(s: State, id: nat, outcome: Outcome)
    requires Inv(s) && Enabled(s, Process(id, outcome)) && id in s.rows
    ensures var t := Apply(s, Process(id, outcome));
            && t.rows.Keys == s.rows.Keys && forall j: nat :: Placed(t, j)
  {
    var t := Apply(s, Process(id, outcome));
    assert t.crew.sent == s.crew.sent && t.rows.Keys == s.rows.Keys;
    forall j: nat ensures Placed(t, j) {
      assert Placed(s, j);
    }
  }

  lemma ProcessKeepsRows(s: State, id: nat, outcome: Outcome)
    requires Enabled(s, Process(id, outcome)) && id in s.rows && id !in s.outcomes
    requires forall j :: j in s.rows ==> RowTells(s, j)
    ensures forall j :: j in s.rows ==> RowTells(Apply(s, Process(id, outcome)), j)
  {
    assert RowTells(s, id);
    forall j | j in s.rows ensures RowTells(Apply(s, Process(id, outcome)), j) {
      assert RowTells(s, j);
    }
  }

  lemma ProcessKeepsInv(s: State, id: nat, outcome: Outcome)
    requires Inv(s) && Enabled(s, Process(id, outcome))
    ensures Inv(Apply(s, Process(id, outcome)))
  {
    RunningIsNew(s, id);
    FinishKeeps(s.crew, id);
    ProcessKeepsPlaces(s, id, outcome);
    ProcessKeepsRows(s, id, outcome);
  }

  lemma OfferKeepsInv(s: State, a: Action)
    requires Inv(s) && Enabled(s, a) && Orderly(s, a) && (a.Persist? || a.Offer? || a.Leave?)
    ensures Inv(Apply(s, a))
  {
    assert Placed(s, a.id);
    if a.Offer? {
      SendKeeps(s.crew, a.id);
    }
    var t := Apply(s, a);
    forall j: nat ensures Placed(t, j) {
      assert Placed(s, j);
    }
    forall j | j in t.rows ensures RowTells(t, j) {
      assert j in s.rows ==> RowTells(s, j);
      assert s.crew.done[j] <= s.crew.sent[j];
    }
  }

  lemma CrewStepKeepsInv(s: State, a: Action)
    requires Inv(s) && Enabled(s, a) && Orderly(s, a) && (a.Spawn? || a.Receive? || a.Exit? || a.Close?)
    ensures Inv(Apply(s, a))
  {
    if a.Receive? {
      ReceiveKeeps(s.crew);
    } else if a.Exit? {
      ExitKeeps(s.crew);
    }
    var t := Apply(s, a);
    assert t.crew.sent == s.crew.sent && t.crew.done == s.crew.done;
    forall j: nat ensures Placed(t, j) {
      assert Placed(s, j);
    }
    forall j | j in t.rows ensures RowTells(t, j) {
      assert RowTells(s, j);
    }
  }

  lemma StepKeepsInv(s: State, a: Action)
    requires Inv(s) && Enabled(s, a) && Orderly(s, a)
    ensures Inv(Apply(s, a))
  {
    if a.Process? {
      ProcessKeepsInv(s, a.id, a.outcome);
    } else if a.Persist? || a.Offer? || a.Leave? {
      OfferKeepsInv(s, a);
    } else {
      CrewStepKeepsInv(s, a);
    }
  }

  lemma {:induction false} RunsKeepInv(s: State, actions: seq<Action>, t: State)
    requires Inv(s) && OrderlyRuns(s, actions, t)
    ensures Inv(t)
    decreases |actions|
  {
    if actions != [] {
      StepKeepsInv(s, actions[0]);
      RunsKeepInv(Apply(s, actions[0]), actions[1..], t);
    }
  }

  /**
    In every orderly run no notification is handed to the sender twice and none is sent on the closed
    channel. One that a full queue refused is never handed over and its row still says queued, no
    attempt. Once a started dispatcher has stopped, every other one has been handed over exactly once.
   */
  lemma HandedOverOnce(queueSize: int, actions: seq<Action>, t: State, id: nat)
    requires OrderlyRuns(NewDispatcher(queueSize), actions, t) && id in t.rows
    ensures t.handed[id] <= 1
    ensures id in t.left ==> t.handed[id] == 0 && t.rows[id] == NoteData(Queued, 0, "")
    ensures id in t.offering ==> !t.crew.closed
    ensures t.crew.spawned > 0 && t.crew.Alive() == 0 && id !in t.left ==> t.handed[id] == 1 && id in t.outcomes
    ensures id in t.outcomes ==> RowTells(t, id)
  {
    RunsKeepInv(NewDispatcher(queueSize), actions, t);
    assert Placed(t, id) && RowTells(t, id);
    assert t.crew.done[id] <= t.crew.sent[id];
    if t.crew.spawned > 0 && t.crew.Alive() == 0 {
      ReturnedMeansDrained(t.crew);
    }
  }

  /**
    The row after a handover. Without a panic or a failed update it says sent or failed with one
    attempt, except that a send error without a text leaves the row as it was: queued, no attempt.
   */
  lemma HandoverIsRecordedIff(outcome: Outcome)
    ensures var row := ProcessNote(FRESH, outcome).1;
            && (row.Some? <==> match outcome
                  case Panicked => false
                  case Delivered(stored) => stored
                  case SendFailed(text, stored) => stored && text != "")
            && (row.Some? ==>
                  && row.value.attempts == 1
                  && row.value.status == (if outcome.Delivered? then Sent else Failed)
                  && row.value.failureReason == (if outcome.Delivered? then "" else outcome.text))
  {
  }

  lemma {:induction false} SpawnRuns(s: State, workers: nat) returns (actions: seq<Action>)
    requires !s.crew.closed
    ensures OrderlyRuns(s, actions, s.(crew := s.crew.(idle := s.crew.idle + workers,
                                                       spawned := s.crew.spawned + workers)))
    decreases workers
  {
    actions := [];
    if workers > 0 {
      var rest := SpawnRuns(Apply(s, Spawn), workers - 1);
      actions := [Spawn] + rest;
      assert actions[1..] == rest;
    }
  }

  /** After Start has run to its end. */
  function Started(workers: int, queueSize: int): State
  {
    var s := NewDispatcher(queueSize);
    var n := if workers < 1 then 1 else workers;
    s.(crew := s.crew.(idle := n, spawned := n))
  }

  lemma StartRuns(workers: int, queueSize: int) returns (actions: seq<Action>)
    ensures OrderlyRuns(NewDispatcher(queueSize), actions, Started(workers, queueSize))
    ensures Inv(NewDispatcher(queueSize)) && Inv(Started(workers, queueSize))
  {
    actions := SpawnRuns(NewDispatcher(queueSize), if workers < 1 then 1 else workers);
  }

  // ---------- The methods ----------

  class Dispatcher {
    var rows: map<nat, NoteData>
    var nextId: nat
    var crew: Crew<nat>
    ghost var left: set<nat>
    ghost var outcomes: map<nat, Outcome>

    ghost function View(): State
      reads this
    {
      State(rows, {}, left, crew, crew.done, outcomes)
    }

    ghost predicate Valid()
      reads this
    {
      Inv(View()) && forall id :: id in rows ==> id < nextId
    }

    constructor (queueSize: int)
      ensures Valid() && View() == NewDispatcher(queueSize)
      ensures crew.capacity == (if queueSize < 0 then 0 else queueSize) && crew.spawned == 0 && rows == map[]
    {
      rows, nextId, crew := map[], 1, Empty(if queueSize < 0 then 0 else queueSize);
      left, outcomes := {}, map[];
    }

    method Start(workers: int)
      requires Valid() && !crew.closed && crew.spawned == 0
      modifies this`crew
      ensures Valid() && !crew.closed && crew.spawned == (if workers < 1 then 1 else workers)
      ensures View() == old(View()).(crew := crew) && crew.sent == old(crew).sent
    {
      for i := 0 to if workers < 1 then 1 else workers
        invariant Valid() && !crew.closed && crew.spawned == i
        invariant View() == old(View()).(crew := crew) && crew.sent == old(crew).sent
      {
        StepKeepsInv(View(), Action.Spawn);
        crew := crew.Spawn();
      }
    }

    /** Persist a fresh notification, then offer it; a full queue is no error. */
    method Enqueue(createFails: bool) returns (r: Result<nat>)
      requires Valid() && !crew.closed
      modifies this
      ensures Valid() && !crew.closed
      ensures r.Err? <==> createFails
      ensures r.Err? ==> View() == old(View())
      ensures r.Ok? ==>
                && r.value !in old(rows) && rows == old(rows)[r.value := FRESH]
                && if r.value in left then crew == old(crew) && old(crew).Full() && left == old(left) + {r.value}
                   else left == old(left) && crew.sent == old(crew).sent + multiset{r.value}
    {
      if createFails {
        return Err(Internal);
      }
      var id := nextId;
      assert Placed(View(), id);
      StepKeepsInv(View(), Persist(id));
      ghost var offered := Apply(View(), Persist(id));
      nextId, rows := nextId + 1, rows[id := FRESH];
      if |crew.queue| < crew.capacity {
        StepKeepsInv(offered, Offer(id));
        crew := crew.Send(id);
        assert View() == Apply(offered, Offer(id));
      } else {
        StepKeepsInv(offered, Leave(id));
        left := left + {id};
        assert View() == Apply(offered, Leave(id));
      }
      r := Ok(id);
    }

    /** One attempt and its outcome marked on the notification: the row to write, if one is written. */
    method Attempt(outcome: Outcome) returns (row: Option<NoteData>)
      ensures row == ProcessNote(FRESH, outcome).1
    {
      var n := new Notification(FRESH, [NotificationQueued]);
      n.IncrementAttempt();
      row := None;
      match outcome {
        case Panicked =>
        case SendFailed(text, stored) =>
          var err := n.MarkFailed(text);
          if err.None? && stored {
            row := Some(n.Data());
          }
        case Delivered(stored) =>
          var err := n.MarkSent();
          if err.None? && stored {
            row := Some(n.Data());
          }
      }
    }

    method Update(id: nat, row: NoteData)
      modifies this`rows
      ensures rows == old(rows)[id := row]
    {
      rows := rows[id := row];
    }

    /** The worker is done with the message. */
    method Finish(id: nat, outcome: Outcome)
      requires id in crew.running
      modifies this`crew, this`outcomes
      ensures crew == old(crew).Finish(id) && outcomes == old(outcomes)[id := outcome]
    {
      crew, outcomes := crew.Finish(id), outcomes[id := outcome];
    }

    /** process: the attempt, and the update of the row. */
    method Process(id: nat, outcome: Outcome)
      requires Valid() && id in crew.running
      modifies this
      ensures Valid() && nextId == old(nextId) && left == old(left)
      ensures rows == Stored(old(rows), id, outcome) && rows.Keys == old(rows).Keys
      ensures crew == old(crew).Finish(id) && outcomes == old(outcomes)[id := outcome]
    {
      var row := Attempt(outcome);
      ghost var after := AfterProcess(id, outcome, row);
      if row.Some? {
        Update(id, row.value);
      }
      Finish(id, outcome);
      assert View() == after;
    }

    /** The state after process has written the given row, if any; it keeps the invariant. */
    ghost function AfterProcess(id: nat, outcome: Outcome, row: Option<NoteData>): (after: State)
      requires Valid() && id in crew.running && row == ProcessNote(FRESH, outcome).1
      reads this
      ensures Inv(after) && id in rows && after.rows == Stored(rows, id, outcome) && after.rows.Keys == rows.Keys
      ensures after.rows == if row.Some? then rows[id := row.value] else rows
      ensures after == State(after.rows, {}, left, crew.Finish(id), crew.Finish(id).done, outcomes[id := outcome])
    {
      RunningIsNew(View(), id);
      ProcessKeepsInv(View(), id, outcome);
      Apply(View(), Action.Process(id, outcome))
    }

    /** One worker of a closed dispatcher receives or returns. */
    method ReceiveOrExit()
      requires Valid() && crew.closed && crew.idle > 0
      modifies this`crew
      ensures Valid() && crew.closed && crew.spawned == old(crew).spawned && crew.Work() < old(crew).Work()
    {
      if crew.CanReceive() {
        ReceiveKeeps(crew);
        CrewStepKeepsInv(View(), Action.Receive);
        crew := crew.Receive();
      } else {
        ExitKeeps(crew);
        CrewStepKeepsInv(View(), Action.Exit);
        crew := crew.Exit();
      }
    }

    /** One worker of a closed dispatcher does one thing. */
    method WorkerStep(sends: nat -> Outcome)
      requires Valid() && crew.closed && crew.Alive() > 0
      modifies this
      ensures Valid() && crew.closed && crew.spawned == old(crew).spawned && crew.Work() < old(crew).Work()
      ensures rows.Keys == old(rows).Keys && left == old(left)
      ensures forall id :: id in outcomes && id !in old(outcomes) ==> outcomes[id] == sends(id)
      ensures forall id :: id in old(outcomes) ==> id in outcomes && outcomes[id] == old(outcomes)[id]
    {
      if |crew.running| > 0 {
        assert crew.running != multiset{};
        var id :| id in crew.running;
        assert id !in outcomes by {
          RunningIsNew(View(), id);
        }
        assert crew.Finish(id).Work() < crew.Work() by {
          FinishKeeps(crew, id);
        }
        Process(id, sends(id));
      } else {
        ReceiveOrExit();
      }
    }

    /**
      The first call closes the channel, and the workers, if there are any, handle what is left, as
      sends(id) turns out; a dispatcher that was never started keeps its queue. Later calls change nothing.
     */
    method Stop(sends: nat -> Outcome)
      requires Valid()
      modifies this
      ensures Valid() && rows.Keys == old(rows).Keys && left == old(left)
      ensures if old(crew).closed then View() == old(View())
              else if old(crew).spawned == 0 then View() == old(View()).(crew := old(crew).Close())
              else
                && crew.closed
                && (forall id :: id in rows && id !in left ==> id in outcomes && RowTells(View(), id))
                && (forall id :: id in outcomes && id !in old(outcomes) ==> outcomes[id] == sends(id))
    {
      if crew.closed {
        return;
      }
      StepKeepsInv(View(), Action.Close);
      crew := crew.Close();
      if crew.spawned == 0 {
        return;
      }
      while crew.Alive() > 0
        invariant Valid() && crew.closed && crew.spawned > 0 && rows.Keys == old(rows).Keys && left == old(left)
        invariant forall id :: id in outcomes && id !in old(outcomes) ==> outcomes[id] == sends(id)
        invariant forall id :: id in old(outcomes) ==> id in outcomes
        decreases crew.Work()
      {
        WorkerStep(sends);
      }
      ReturnedMeansDrained(crew);
      forall id | id in rows && id !in left ensures id in outcomes && RowTells(View(), id) {
        assert Placed(View(), id);
      }
    }
  }
}
