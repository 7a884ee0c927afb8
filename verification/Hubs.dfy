/**
  The websocket hub: one goroutine owns the client set and handles registrations, removals and
  broadcasts, while each client's write pump empties its buffer at its own pace.
 */
module Hubs {
  import opened Results

  const SEND_BUFFER: nat := 256

  type Message = nat

  /** A client's send channel, and where its stay in the sequence of handled broadcasts began and ended. */
  datatype Client = Client(start: nat, end: Option<nat>, buffer: seq<Message>, delivered: seq<Message>, closes: nat)

  datatype State = State(
    active: set<nat>,             // the hub's client set
    clients: map<nat, Client>,    // every client ever registered
    broadcast: seq<Message>,      // the broadcast channel's buffer
    accepted: seq<Message>,       // history: messages sent on the broadcast channel
    handled: seq<Message>,        // history: messages taken from it
    todo: set<nat>,               // clients that the broadcast in progress has not reached yet
    done: bool,                   // Stop was called
    returned: bool)               // Run has returned

  datatype Action =
    | Register(c: nat)
    | Unregister(c: nat)
    | Broadcast(msg: Message, taken: bool) // once Stop was called, a message may be dropped instead
    | Take
    | Offer(c: nat)
    | Deliver(c: nat)
    | Stop
    | Return

  /** Each client registers once: ServeWS makes a new one for every connection. */
  predicate Enabled(s: State, a: Action)
  {
    match a
    case Register(c) => !s.returned && s.todo == {} && c !in s.clients
    case Unregister(c) => !s.returned && s.todo == {} && c in s.clients
    case Broadcast(_, taken) => if taken then |s.broadcast| < SEND_BUFFER else s.done
    case Take => !s.returned && s.todo == {} && s.broadcast != []
    case Offer(c) => c in s.todo && c in s.clients && s.handled != []
    case Deliver(c) => c in s.clients && s.clients[c].buffer != []
    case Stop => true
    case Return => s.done && !s.returned && s.todo == {}
  }

  /** The client leaves the set and its channel is closed, after the first `at` broadcasts. */
  function Removed(x: Client, at: nat): Client
  {
    x.(end := Some(at), closes := x.closes + 1)
  }

  /** The select in the broadcast loop: buffer the message, or close the channel when it is full. */
  function Offered(x: Client, msg: Message, at: nat): Client
  {
    if |x.buffer| < SEND_BUFFER then x.(buffer := x.buffer + [msg]) else Removed(x, at)
  }

  function Apply(s: State, a: Action): State
    requires Enabled(s, a)
  {
    match a
    case Register(c) =>
      s.(active := s.active + {c}, clients := s.clients[c := Client(|s.handled|, None, [], [], 0)])
    case Unregister(c) =>
      if c in s.active then
        s.(active := s.active - {c}, clients := s.clients[c := Removed(s.clients[c], |s.handled|)])
      else s
    case Broadcast(msg, taken) =>
      if taken then s.(broadcast := s.broadcast + [msg], accepted := s.accepted + [msg]) else s
    case Take => s.(broadcast := s.broadcast[1..], handled := s.handled + [s.broadcast[0]], todo := s.active)
    case Offer(c) =>
      var x := Offered(s.clients[c], s.handled[|s.handled| - 1], |s.handled| - 1);
      s.(todo := s.todo - {c}, clients := s.clients[c := x], active := if x.end.Some? then s.active - {c} else s.active)
    case Deliver(c) =>
      var x := s.clients[c];
      s.(clients := s.clients[c := x.(buffer := x.buffer[1..], delivered := x.delivered + [x.buffer[0]])])
    case Stop => s.(done := true)
    case Return =>
      s.(active := {}, returned := true,
         clients := map c | c in s.clients ::
                      if c in s.active then Removed(s.clients[c], |s.handled|) else s.clients[c])
  }

  const NEW_HUB: State := State({}, map[], [], [], [], {}, false, false)

  ghost predicate Runs(s: State, actions: seq<Action>, t: State)
    decreases |actions|
  {
    if actions == [] then s == t
    else Enabled(s, actions[0]) && Runs(Apply(s, actions[0]), actions[1..], t)
  }

  /** The handled broadcasts that a client has been offered; the last one may be still to come. */
  function EndOf(x: Client, pending: bool, handled: nat): int
  {
    match x.end
    case Some(n) => n
    case None => handled - (if pending then 1 else 0)
  }

  function End(s: State, c: nat): int
    requires c in s.clients
  {
    EndOf(s.clients[c], c in s.todo, |s.handled|)
  }

  ghost predicate Fits(x: Client, active: bool, pending: bool, handled: seq<Message>)
  {
    && (active <==> x.end.None?)
    && x.closes == (if active then 0 else 1)
    && x.start <= EndOf(x, pending, |handled|) <= |handled|
    && |x.buffer| <= SEND_BUFFER
    && x.delivered + x.buffer == handled[x.start..EndOf(x, pending, |handled|)]
  }

  ghost predicate ClientOk(s: State, c: nat)
    requires c in s.clients
  {
    Fits(s.clients[c], c in s.active, c in s.todo, s.handled)
  }

  ghost predicate Inv(s: State)
  {
    && s.todo <= s.active && s.active <= s.clients.Keys
    && (s.todo != {} ==> s.handled != [])
    && s.handled + s.broadcast == s.accepted
    && (s.returned ==> s.done && s.active == {})
    && forall c :: c in s.clients ==> ClientOk(s, c)
  }

  /** An offer either extends the client's piece by the last broadcast or ends it just before. */
  lemma OfferFits(x: Client, handled: seq<Message>)
    requires Fits(x, true, true, handled) && handled != []
    ensures var n := |handled| - 1;
            var y := Offered(x, handled[n], n);
            Fits(y, y.end.None?, false, handled) && (y.end.None? <==> |x.buffer| < SEND_BUFFER)
  {
    var n := |handled| - 1;
    if |x.buffer| < SEND_BUFFER {
      assert x.delivered + (x.buffer + [handled[n]]) == (x.delivered + x.buffer) + [handled[n]];
      assert handled[x.start..n + 1] == handled[x.start..n] + [handled[n]];
    }
  }

  lemma OfferKeepsInv(s: State, c: nat)
    requires Inv(s) && Enabled(s, Offer(c))
    ensures Inv(Apply(s, Offer(c)))
  {
    var t := Apply(s, Offer(c));
    forall d | d in t.clients ensures ClientOk(t, d) {
      assert ClientOk(s, d);
      if d == c {
        OfferFits(s.clients[c], s.handled);
      }
    }
  }

  lemma DeliverKeepsInv(s: State, c: nat)
    requires Inv(s) && Enabled(s, Deliver(c))
    ensures Inv(Apply(s, Deliver(c)))
  {
    var t := Apply(s, Deliver(c));
    forall d | d in t.clients ensures ClientOk(t, d) {
      assert ClientOk(s, d);
      if d == c {
        var x := s.clients[c];
        assert x.buffer == [x.buffer[0]] + x.buffer[1..];
        assert (x.delivered + [x.buffer[0]]) + x.buffer[1..] == x.delivered + x.buffer;
      }
    }
  }

  lemma TakeKeepsInv(s: State)
    requires Inv(s) && Enabled(s, Take)
    ensures Inv(Apply(s, Take))
  {
    var t := Apply(s, Take);
    assert s.broadcast == [s.broadcast[0]] + s.broadcast[1..];
    forall d | d in t.clients ensures ClientOk(t, d) {
      assert ClientOk(s, d);
      assert End(t, d) == End(s, d);
      assert t.handled[s.clients[d].start..End(s, d)] == s.handled[s.clients[d].start..End(s, d)];
    }
  }

  lemma ClientSetKeepsInv(s: State, a: Action)
    requires Inv(s) && Enabled(s, a) && (a.Register? || a.Unregister? || a.Return?)
    ensures Inv(Apply(s, a))
  {
    var t := Apply(s, a);
    forall d | d in t.clients ensures ClientOk(t, d) {
      if d in s.clients {
        assert ClientOk(s, d);
      }
    }
  }

  lemma StepKeepsInv(s: State, a: Action)
    requires Inv(s) && Enabled(s, a)
    ensures Inv(Apply(s, a))
  {
    match a {
      case Offer(c) => OfferKeepsInv(s, c);
      case Deliver(c) => DeliverKeepsInv(s, c);
      case Take => TakeKeepsInv(s);
      case Register(_) => ClientSetKeepsInv(s, a);
      case Unregister(_) => ClientSetKeepsInv(s, a);
      case Return => ClientSetKeepsInv(s, a);
      case Broadcast(_, _) => QuietStepKeepsInv(s, a);
      case Stop => QuietStepKeepsInv(s, a);
    }
  }

  lemma QuietStepKeepsInv(s: State, a: Action)
    requires Inv(s) && Enabled(s, a) && (a.Broadcast? || a.Stop?)
    ensures Inv(Apply(s, a))
  {
    var t := Apply(s, a);
    forall d | d in t.clients ensures ClientOk(t, d) {
      assert ClientOk(s, d);
    }
  }

  lemma {:induction false} RunsKeepInv(s: State, actions: seq<Action>, t: State)
    requires Inv(s) && Runs(s, actions, t)
    ensures Inv(t)
    decreases |actions|
  {
    if actions != [] {
      StepKeepsInv(s, actions[0]);
      RunsKeepInv(Apply(s, actions[0]), actions[1..], t);
    }
  }

  /**
    Gap-free delivery: in every run, what a client has received followed by its buffer is exactly the
    contiguous piece of the handled broadcasts from its registration to its removal (or to now); a
    client's channel is closed once if it has been removed and else not, and messages are only ever
    put into open channels; the handled broadcasts are the accepted ones in order.
   */
  lemma DeliveryHasNoGaps(actions: seq<Action>, t: State, c: nat)
    requires Runs(NEW_HUB, actions, t) && c in t.clients
    ensures var x := t.clients[c];
            && x.start <= End(t, c) <= |t.handled|
            && x.delivered + x.buffer == t.handled[x.start..End(t, c)]
            && x.closes == (if c in t.active then 0 else 1)
            && (x.end.Some? <==> c !in t.active)
    ensures c in t.todo ==> t.clients[c].closes == 0
    ensures t.handled <= t.accepted
  {
    RunsKeepInv(NEW_HUB, actions, t);
    assert ClientOk(t, c);
    assert t.handled == t.accepted[..|t.handled|];
  }

  /** The messages that the calls of Broadcast in a run got accepted, in order. */
  function TakenBy(actions: seq<Action>): seq<Message>
  {
    if actions == [] then []
    else (if actions[0].Broadcast? && actions[0].taken then [actions[0].msg] else []) + TakenBy(actions[1..])
  }

  lemma {:induction false} AcceptedGrows(s: State, actions: seq<Action>, t: State)
    requires Runs(s, actions, t)
    ensures t.accepted == s.accepted + TakenBy(actions)
    decreases |actions|
  {
    if actions != [] {
      StepAccepts(s, actions[0]);
      AcceptedGrows(Apply(s, actions[0]), actions[1..], t);
      Regroup(s.accepted, if actions[0].Broadcast? && actions[0].taken then [actions[0].msg]
          else [], TakenBy(actions[1..]));
    }
  }

  lemma Regroup<T>(a: seq<T>, b: seq<T>, c: seq<T>)
    ensures (a + b) + c == a + (b + c)
  {
  }

  /** What the hub has handled, and still has to handle, is exactly what was accepted, in order. */
  lemma AcceptedIsTaken(actions: seq<Action>, t: State)
    requires Runs(NEW_HUB, actions, t)
    ensures t.handled + t.broadcast == TakenBy(actions)
  {
    AcceptedGrows(NEW_HUB, actions, t);
    RunsKeepInv(NEW_HUB, actions, t);
  }

  lemma StepAccepts(s: State, a: Action)
    requires Enabled(s, a)
    ensures Apply(s, a).accepted == s.accepted + (if a.Broadcast? && a.taken then [a.msg] else [])
  {
  }

  /** A client leaves the set only by unregistering, by a full buffer of 256 messages, or when the hub returns. */
  lemma LeavesOnlyWhenFull(s: State, a: Action, c: nat)
    requires Inv(s) && Enabled(s, a) && c in s.active && c !in Apply(s, a).active
    ensures c in s.clients && (a == Unregister(c) || a == Return || (a == Offer(c) && |s.clients[c].buffer| == 256))
  {
    assert ClientOk(s, c);
  }

  /** The loop of a broadcast, with `todo` still to come: clients with space get the message, the others are removed. */
  ghost predicate PartlyOffered(active: set<nat>, clients: map<nat, Client>, todo: set<nat>, msg: Message, at: nat,
                                active': set<nat>, clients': map<nat, Client>)
  {
    && active <= clients.Keys && clients'.Keys == clients.Keys
    && (forall c: nat :: c in active' <==> c in active && (c in todo || |clients[c].buffer| < SEND_BUFFER))
    && forall c :: c in clients ==>
         clients'[c] == if c in active && c !in todo then Offered(clients[c], msg, at) else clients[c]
  }

  ghost predicate BroadcastDone(active: set<nat>, clients: map<nat, Client>, msg: Message, at: nat,
                                active': set<nat>, clients': map<nat, Client>)
  {
    PartlyOffered(active, clients, {}, msg, at, active', clients')
  }

  lemma OfferOneMore(active: set<nat>, clients: map<nat, Client>, todo: set<nat>, msg: Message, at: nat,
                     active': set<nat>, clients': map<nat, Client>, c: nat)
    requires PartlyOffered(active, clients, todo, msg, at, active', clients') && c in todo && c in active
    ensures c in clients' && clients'[c] == clients[c]
    ensures PartlyOffered(active, clients, todo - {c}, msg, at,
                          if |clients[c].buffer| < SEND_BUFFER then active' else active' - {c},
                          clients'[c := Offered(clients[c], msg, at)])
  {
  }

  /** A whole broadcast keeps the invariant, as its single offers do. */
  lemma BroadcastKeepsInv(s: State, t: State)
    requires Inv(s) && s.todo == s.active && s.handled != []
    requires BroadcastDone(s.active, s.clients, s.handled[|s.handled| - 1], |s.handled| - 1, t.active, t.clients)
    requires t == s.(active := t.active, clients := t.clients, todo := {})
    ensures Inv(t)
  {
    forall d | d in t.clients ensures ClientOk(t, d) {
      assert ClientOk(s, d);
      if d in s.active {
        OfferFits(s.clients[d], s.handled);
      }
    }
  }

  /** Taking the head message and offering it to everyone. */
  lemma RoundKeepsInv(s: State, active: set<nat>, clients: map<nat, Client>)
    requires Inv(s) && Enabled(s, Take)
    requires BroadcastDone(s.active, s.clients, s.broadcast[0], |s.handled|, active, clients)
    ensures Inv(s.(active := active, clients := clients, broadcast := s.broadcast[1..],
                   handled := s.handled + [s.broadcast[0]], todo := {}))
  {
    TakeKeepsInv(s);
    var taken := Apply(s, Take);
    BroadcastKeepsInv(taken, taken.(active := active, clients := clients, todo := {}));
  }

  /** The loop of the last round, with the clients of `active'` still to come. */
  ghost predicate PartlyClosed(active: set<nat>, clients: map<nat, Client>, at: nat, active': set<nat>,
                               clients': map<nat, Client>)
  {
    && active' <= active <= clients.Keys && clients'.Keys == clients.Keys
    && forall c :: c in clients ==>
         clients'[c] == if c in active && c !in active' then Removed(clients[c], at) else clients[c]
  }

  lemma CloseOneMore(active: set<nat>, clients: map<nat, Client>, at: nat, active': set<nat>,
                     clients': map<nat, Client>, c: nat)
    requires PartlyClosed(active, clients, at, active', clients') && c in active'
    ensures c in clients' && clients'[c] == clients[c]
    ensures PartlyClosed(active, clients, at, active' - {c}, clients'[c := Removed(clients[c], at)])
  {
  }

  lemma AllClosed(s: State, clients': map<nat, Client>)
    requires Inv(s) && Enabled(s, Return) && PartlyClosed(s.active, s.clients, |s.handled|, {}, clients')
    ensures s.(active := {}, clients := clients', returned := true) == Apply(s, Return)
    ensures Inv(Apply(s, Return))
  {
    ClientSetKeepsInv(s, Return);
    assert clients' == Apply(s, Return).clients;
  }

  // ---------- The methods ----------

  class Hub {
    var active: set<nat>
    var clients: map<nat, Client>
    var broadcast: seq<Message>
    ghost var accepted: seq<Message>
    var handled: seq<Message>
    var done: bool
    var returned: bool

    ghost function View(): State
      reads this
    {
      State(active, clients, broadcast, accepted, handled, {}, done, returned)
    }

    constructor ()
      ensures View() == NEW_HUB && Inv(View())
    {
      active, clients, broadcast, done, returned := {}, map[], [], false, false;
      accepted, handled := [], [];
    }

    /** With a full buffer the call waits until the hub takes a message or is stopped. */
    method Broadcast(msg: Message) returns (taken: bool, waits: bool)
      requires Inv(View())
      modifies this`broadcast, this`accepted
      ensures Inv(View())
      ensures waits <==> |old(broadcast)| >= SEND_BUFFER && !done
      ensures !taken && !waits ==> done
      ensures if taken then
                && !waits && |old(broadcast)| < SEND_BUFFER
                && broadcast == old(broadcast) + [msg] && accepted == old(accepted) + [msg]
              else View() == old(View())
    {
      taken, waits := |broadcast| < SEND_BUFFER, |broadcast| >= SEND_BUFFER && !done;
      if waits {
        return;
      }
      if taken && done {
        taken := *;
      }
      QuietStepKeepsInv(View(), Action.Broadcast(msg, taken));
      if taken {
        broadcast, accepted := broadcast + [msg], accepted + [msg];
      }
    }

    /** Takes the client out of the set and closes its channel. */
    method Remove(c: nat, at: nat)
      requires c in clients
      modifies this`active, this`clients
      ensures active == old(active) - {c} && clients == old(clients)[c := Removed(old(clients)[c], at)]
    {
      active := active - {c};
      clients := clients[c := clients[c].(end := Some(at), closes := clients[c].closes + 1)];
    }

    method Offer(c: nat, msg: Message, at: nat)
      requires c in clients
      modifies this`active, this`clients
      ensures active == if |old(clients)[c].buffer| < SEND_BUFFER then old(active) else old(active) - {c}
      ensures clients == old(clients)[c := Offered(old(clients)[c], msg, at)]
    {
      var x := clients[c];
      if |x.buffer| < SEND_BUFFER {
        clients := clients[c := x.(buffer := x.buffer + [msg])];
      } else {
        Remove(c, at);
      }
    }

    /** The loop over the client set, in whatever order the map yields it. */
    method OfferToAll(msg: Message)
      requires active <= clients.Keys && handled != []
      modifies this`active, this`clients
      ensures BroadcastDone(old(active), old(clients), msg, |handled| - 1, active, clients)
    {
      var todo := active;
      var at := |handled| - 1;
      while todo != {}
        invariant todo <= old(active)
        invariant PartlyOffered(old(active), old(clients), todo, msg, at, active, clients)
        decreases |todo|
      {
        var c :| c in todo;
        OfferOneMore(old(active), old(clients), todo, msg, at, active, clients, c);
        Offer(c, msg, at);
        todo := todo - {c};
      }
    }

    /**
      One round of the broadcast case of Run: the head message goes to
      every client that has space, and the others go.
     */
    method HandleBroadcast()
      requires Inv(View()) && !returned && broadcast != []
      modifies this
      ensures Inv(View()) && broadcast == old(broadcast)[1..] && handled == old(handled) + [old(broadcast)[0]]
      ensures BroadcastDone(old(active), old(clients), old(broadcast)[0], |old(handled)|, active, clients)
      ensures forall c :: c in old(active) ==>
                && c in clients && (c in active <==> |old(clients)[c].buffer| < 256)
                && (c in active ==> clients[c].buffer == old(clients)[c].buffer + [old(broadcast)[0]])
    {
      ghost var before := View();
      var msg := broadcast[0];
      broadcast, handled := broadcast[1..], handled + [msg];
      OfferToAll(msg);
      RoundKeepsInv(before, active, clients);
    }

    method HandleRegister(c: nat)
      requires Inv(View()) && !returned && c !in clients
      modifies this
      ensures Inv(View()) && View() == Apply(old(View()), Register(c))
    {
      StepKeepsInv(View(), Register(c));
      active, clients := active + {c}, clients[c := Client(|handled|, None, [], [], 0)];
    }

    method HandleUnregister(c: nat)
      requires Inv(View()) && !returned && c in clients
      modifies this`active, this`clients
      ensures Inv(View()) && View() == Apply(old(View()), Unregister(c))
    {
      StepKeepsInv(View(), Unregister(c));
      if c in active {
        Remove(c, |handled|);
      }
    }

    /** The last round of Run, after Stop: every client still in the set is removed. */
    method CloseAll()
      requires Inv(View()) && done && !returned
      modifies this`active, this`clients, this`returned
      ensures Inv(View()) && View() == Apply(old(View()), Return)
    {
      ghost var before := View();
      while active != {}
        invariant PartlyClosed(before.active, before.clients, |handled|, active, clients)
        decreases |active|
      {
        var c :| c in active;
        CloseOneMore(before.active, before.clients, |handled|, active, clients, c);
        Remove(c, |handled|);
      }
      returned := true;
      AllClosed(before, clients);
    }
  }
}
