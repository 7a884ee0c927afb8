/**
  A channel and the fixed crew of goroutines that range over it, as the order pool, the event bus
  and the notification dispatcher use them. Contents are counted as multisets, so two equal
  messages are two messages.
 */
module Crews {

  datatype Crew<T> = Crew(
    capacity: nat,
    queue: seq<T>,        // the channel's buffer
    closed: bool,
    idle: nat,            // goroutines waiting to receive
    running: multiset<T>, // messages in the hands of a goroutine
    spawned: nat,         // goroutines ever started
    sent: multiset<T>,    // history: every message sent on the channel
    done: multiset<T>)    // history: every message that was handled to the end
  {
    /** The goroutines that have not returned: the wait group's counter. */
    function Alive(): nat {
      idle + |running|
    }

    /** A send would not block: there is buffer space, or a receiver to hand the message to. */
    predicate Room() {
      |queue| < capacity || (queue == [] && idle > 0)
    }

    /** A non-blocking send may fail: the buffer is full, and no receiver need be parked yet. */
    predicate Full() {
      |queue| >= capacity
    }

    function Send(x: T): Crew<T>
      requires Room()
    {
      if |queue| < capacity then this.(queue := queue + [x], sent := sent + multiset{x})
      else this.(idle := idle - 1, running := running + multiset{x}, sent := sent + multiset{x})
    }

    predicate CanReceive() {
      queue != [] && idle > 0
    }

    function Receive(): Crew<T>
      requires CanReceive()
    {
      this.(queue := queue[1..], idle := idle - 1, running := running + multiset{queue[0]})
    }

    predicate CanFinish(x: T) {
      x in running
    }

    function Finish(x: T): Crew<T>
      requires CanFinish(x)
    {
      this.(running := running - multiset{x}, idle := idle + 1, done := done + multiset{x})
    }

    /** The range loop ends once the channel is closed and empty. */
    predicate CanExit() {
      closed && queue == [] && idle > 0
    }

    function Exit(): Crew<T>
      requires CanExit()
    {
      this.(idle := idle - 1)
    }

    function Close(): Crew<T> {
      this.(closed := true)
    }

    function Spawn(): Crew<T> {
      this.(idle := idle + 1, spawned := spawned + 1)
    }

    /** Nothing is lost or duplicated, and goroutines only leave a closed, empty channel. */
    ghost predicate Valid() {
      && sent == multiset(queue) + running + done
      && |queue| <= capacity
      && Alive() <= spawned
      && (Alive() < spawned ==> closed && queue == [])
    }

    /** What is left to do until every goroutine has returned. */
    function Work(): nat {
      2 * |queue| + 2 * |running| + idle
    }
  }

  /** NewX: a buffer, and no goroutine yet. */
  function Empty<T>(capacity: nat): Crew<T>
  {
    Crew(capacity, [], false, 0, multiset{}, 0, multiset{}, multiset{})
  }

  lemma SendKeeps<T>(c: Crew<T>, x: T)
    requires c.Valid() && c.Room() && !c.closed
    ensures c.Send(x).Valid() && c.Send(x).Work() <= c.Work() + 2
    ensures c.Send(x).Alive() == c.Alive()
    ensures c.Send(x).sent == c.sent + multiset{x} && c.Send(x).done == c.done
  {
  }

  lemma ReceiveKeeps<T>(c: Crew<T>)
    requires c.Valid() && c.CanReceive()
    ensures c.Receive().Valid() && c.Receive().Work() < c.Work() && c.Receive().Alive() == c.Alive()
    ensures c.Receive().sent == c.sent && c.Receive().done == c.done
    ensures c.queue == [c.queue[0]] + c.Receive().queue && c.Receive().running == c.running + multiset{c.queue[0]}
  {
    assert c.queue == [c.queue[0]] + c.queue[1..];
    assert multiset(c.queue) == multiset{c.queue[0]} + multiset(c.queue[1..]);
  }

  lemma FinishKeeps<T>(c: Crew<T>, x: T)
    requires c.Valid() && c.CanFinish(x)
    ensures c.Finish(x).Valid() && c.Finish(x).Work() < c.Work() && c.Finish(x).Alive() == c.Alive()
    ensures c.Finish(x).sent == c.sent && c.Finish(x).done == c.done + multiset{x} && c.Finish(x).queue == c.queue
  {
    assert c.running == (c.running - multiset{x}) + multiset{x};
  }

  lemma ExitKeeps<T>(c: Crew<T>)
    requires c.Valid() && c.CanExit()
    ensures c.Exit().Valid() && c.Exit().Work() < c.Work() && c.Exit().Alive() == c.Alive() - 1
    ensures c.Exit().sent == c.sent && c.Exit().done == c.done
  {
  }

  /** Once every goroutine of a started crew has returned, every message sent has been handled. */
  lemma ReturnedMeansDrained<T>(c: Crew<T>)
    requires c.Valid() && c.spawned > 0 && c.Alive() == 0
    ensures c.closed && c.queue == [] && c.running == multiset{} && c.done == c.sent
  {
    assert c.running == multiset{};
  }

  /** While a goroutine of a closed crew is alive, one of them can take a step. */
  lemma ClosedCrewMoves<T>(c: Crew<T>)
    requires c.closed && c.Alive() > 0
    ensures c.CanReceive() || c.CanExit() || exists x :: c.CanFinish(x)
  {
    if c.idle == 0 {
      assert c.running != multiset{};
      var x :| x in c.running;
      assert c.CanFinish(x);
    }
  }
}
