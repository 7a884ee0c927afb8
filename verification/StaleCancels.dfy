/**
  Why the ledger needs its conditions: a second cancellation of one order, from a reading that is no
  longer true, gives back units that other orders hold. A worker that has already charged for such
  an order is then refused.
 */
module StaleCancels {
  import opened Results
  import opened MoneyModel
  import opened Inventories
  import opened Orders
  import opened Gateways
  import opened Stores
  import opened PlaceOrders
  import opened Protocol
  import opened Conservation
  import opened Ledger
  import opened Guarantees
  import opened ChargedOrders
  import P = Payments

  // ---------- Two cancellations of one order ----------

  /** Other reserved orders hold the order's units once more. */
  ghost predicate HeldTwice(s: Store, items: seq<Item>)
  {
    forall p: nat :: Lines(items, p) > 0 ==> 2 * Qty(items, p) <= Booked(s.orders, Reserved, p)
  }

  function TwoCancels(c: nat, d: nat, id: nat, reason: string): seq<Action>
  {
    [ReadForCancel(c, id), ReadForCancel(d, id), CancelRead(c, reason), CancelRead(d, reason)]
  }

  /** Both cancellations have read the order. */
  function BothRead(w: World, c: nat, d: nat, id: nat): World
    requires id in w.store.orders
  {
    w.(cancels := w.cancels[c := Reading(id, w.store.orders[id])][d := Reading(id, w.store.orders[id])])
  }

  /** What a committed cancellation of a reserved order does to stock, rows and the rest. */
  ghost predicate Released(before: World, id: nat, items: seq<Item>, after: World)
  {
    && StockMoved(Release, before.store.stock, items, after.store.stock)
    && id in before.store.orders && id in after.store.orders && after.store.orders[id].status == Cancelled
    && SameOrder(before.store.orders[id], after.store.orders[id])
    && (forall i :: i in before.store.orders && i != id ==>
          i in after.store.orders && after.store.orders[i] == before.store.orders[i])
    && after.store.payments == before.store.payments
    && after.workers == before.workers && after.memo == before.memo && after.maxAttempts == before.maxAttempts
  }

  lemma BothReadKeepsBase(w: World, c: nat, d: nat, id: nat)
    requires Base(w) && id in w.store.orders
    ensures Base(BothRead(w, c, d, id))
  {
    ReadKeepsBase(w, c, id);
    ReadKeepsBase(w.(cancels := w.cancels[c := Reading(id, w.store.orders[id])]), d, id);
  }

  /** The first cancellation commits and keeps the ledger. */
  lemma FirstCancel(w: World, c: nat, d: nat, id: nat, reason: string) returns (v: World)
    requires Base(w) && Balanced(w.store) && id in w.store.orders && w.store.orders[id].status == Reserved && c != d
    requires Covers(Release, w.store.stock, w.store.orders[id].items)
    ensures c in BothRead(w, c, d, id).cancels && v == AfterCancel(BothRead(w, c, d, id), c, reason)
    ensures Base(v) && Balanced(v.store) && Released(w, id, w.store.orders[id].items, v)
    ensures d in v.cancels && v.cancels[d] == Reading(id, w.store.orders[id])
  {
    BothReadKeepsBase(w, c, d, id);
    v := CancelCommits(BothRead(w, c, d, id), c, reason);
  }

  /**
    A cancellation of a reserved reading, covered by the reserved counts,
    commits; the ledger survives iff it was true.
   */
  lemma CancelCommits(w: World, c: nat, reason: string) returns (v: World)
    requires Base(w) && Balanced(w.store) && c in w.cancels && w.cancels[c].order.status == Reserved
    requires Covers(Release, w.store.stock, w.cancels[c].order.items)
    ensures v == AfterCancel(w, c, reason) && Base(v) && Released(w, w.cancels[c].id, w.cancels[c].order.items, v)
    ensures v.cancels == w.cancels - {c}
    ensures Balanced(v.store) <==> w.store.orders[w.cancels[c].id].status == Reserved
  {
    var id, o := w.cancels[c].id, w.cancels[c].order;
    CancelTxExact(w.store, id, o, reason);
    CancelStep(w, c, reason);
    v := AfterCancel(w, c, reason);
    CancelledKeepsBase(w, c, v);
    CommittedReleases(w, c, v);
    CancelKeepsLedgerIff(w.store, id, o, reason);
  }

  lemma CommittedReleases(w: World, c: nat, v: World)
    requires RowsOk(w.store) && CancelCommitted(w, c, v) && w.cancels[c].order.status == Reserved
    ensures Released(w, w.cancels[c].id, w.cancels[c].order.items, v)
  {
    CancelledRows(w, c, v);
  }

  /** The second commits iff the units are held twice, and then the ledger is broken. */
  lemma SecondCancel(w: World, w3: World, d: nat, id: nat, reason: string) returns (v: World)
    requires Balanced(w.store) && Base(w3) && Balanced(w3.store) && id in w.store.orders
    requires w.store.orders[id].status == Reserved && RowsPositive(w.store.orders)
    requires Released(w, id, w.store.orders[id].items, w3)
    requires d in w3.cancels && w3.cancels[d] == Reading(id, w.store.orders[id])
    ensures v == AfterCancel(w3, d, reason)
    ensures Balanced(v.store) <==> !HeldTwice(w.store, w.store.orders[id].items)
    ensures !Balanced(v.store) ==> Base(v) && Released(w3, id, w.store.orders[id].items, v)
  {
    TwiceIsCovered(w, w3, id);
    if HeldTwice(w.store, w.store.orders[id].items) {
      v := CancelCommits(w3, d, reason);
    } else {
      CancelTxExact(w3.store, id, w.store.orders[id], reason);
      v := AfterCancel(w3, d, reason);
    }
  }

  lemma TwiceIsCovered(w: World, w3: World, id: nat)
    requires Balanced(w.store) && id in w.store.orders
    requires RowsPositive(w.store.orders) && Released(w, id, w.store.orders[id].items, w3)
    ensures Covers(Release, w3.store.stock, w.store.orders[id].items)
        <==> HeldTwice(w.store, w.store.orders[id].items)
  {
    var items := w.store.orders[id].items;
    forall p: nat | Lines(items, p) > 0
      ensures p in w3.store.stock ==> w3.store.stock[p].reserved == Booked(w.store.orders, Reserved, p) - Qty(items, p)
      ensures p !in w3.store.stock ==> Booked(w.store.orders, Reserved, p) == 0 && Qty(items, p) > 0
    {
      assert Held(w.store.stock, p) == Booked(w.store.orders, Reserved, p);
      QtyNonNegative(items, p);
    }
  }

  /** Both cancellations of order id have committed. */
  ghost predicate ReleasedTwice(w: World, id: nat, v: World)
    requires id in w.store.orders
  {
    && v.store.stock.Keys == w.store.stock.Keys
    && (forall p :: p in w.store.stock ==>
          v.store.stock[p].reserved == w.store.stock[p].reserved - 2 * Qty(w.store.orders[id].items, p))
    && (forall i :: i in w.store.orders && i != id ==> i in v.store.orders && v.store.orders[i] == w.store.orders[i])
    && v.store.payments == w.store.payments
    && v.workers == w.workers && v.memo == w.memo && v.maxAttempts == w.maxAttempts
  }

  lemma TwoReleases(w: World, id: nat, w3: World, v: World)
    requires id in w.store.orders
    requires Released(w, id, w.store.orders[id].items, w3) && Released(w3, id, w.store.orders[id].items, v)
    ensures ReleasedTwice(w, id, v)
  {
  }

  lemma FourSteps(w: World, a: Action, w1: World, b: Action, w2: World, c: Action, w3: World, d: Action, v: World)
    requires Enabled(w, a) && w1 == Apply(w, a) && Enabled(w1, b) && w2 == Apply(w1, b)
    requires Enabled(w2, c) && w3 == Apply(w2, c) && Enabled(w3, d) && v == Apply(w3, d)
    ensures Runs(w, [a, b, c, d], v)
  {
    assert Runs(v, [], v);
    assert Runs(w3, [d], v);
    assert [c, d][1..] == [d];
    assert Runs(w2, [c, d], v);
    assert [b, c, d][1..] == [c, d];
    assert Runs(w1, [b, c, d], v);
    assert [a, b, c, d][1..] == [b, c, d];
  }

  lemma TwoCancelsRun(w: World, c: nat, d: nat, id: nat, reason: string, w3: World, v: World)
    requires c !in w.cancels && d !in w.cancels && c != d && id in w.store.orders
    requires w3 == AfterCancel(BothRead(w, c, d, id), c, reason) && d in w3.cancels && v == AfterCancel(w3, d, reason)
    ensures Runs(w, TwoCancels(c, d, id, reason), v)
  {
    var w1 := w.(cancels := w.cancels[c := Reading(id, w.store.orders[id])]);
    FourSteps(w, ReadForCancel(c, id), w1, ReadForCancel(d, id), BothRead(w, c, d, id), CancelRead(c, reason), w3,
              CancelRead(d, reason), v);
  }

  /**
    Cancelling a reserved order twice, from two readings taken before either cancellation: the run
    ends with the ledger broken iff other reserved orders hold the order's units once more, and then
    the units have been given back twice.
   */
  lemma DoubledCancelBreaksLedgerIff(w: World, c: nat, d: nat, id: nat, reason: string) returns (v: World)
    requires Strong(w) && id in w.store.orders && w.store.orders[id].status == Reserved
    requires c !in w.cancels && d !in w.cancels && c != d
    ensures Runs(w, TwoCancels(c, d, id, reason), v)
    ensures !Balanced(v.store) <==> HeldTwice(w.store, w.store.orders[id].items)
    ensures !Balanced(v.store) ==> Base(v) && ReleasedTwice(w, id, v)
  {
    ReservedOrderIsHeld(w, id);
    var w3 := FirstCancel(w, c, d, id, reason);
    v := SecondCancel(w, w3, d, id, reason);
    TwoCancelsRun(w, c, d, id, reason, w3, v);
    if !Balanced(v.store) {
      TwoReleases(w, id, w3, v);
    }
  }

  // ---------- The worker that has charged ----------

  /** Worker k has charged for another order, and two releases of order id leave too few units for it. */
  ghost predicate Starved(w: World, id: nat, k: nat)
    requires id in w.store.orders
  {
    && k in w.workers && w.workers[k].phase.Settling? && w.workers[k].phase.charge.Charged?
    && w.workers[k].phase.pay.orderId != id
    && exists p :: ShortOf(w, id, w.workers[k].order.items, p)
  }

  ghost predicate ShortOf(w: World, id: nat, items: seq<Item>, p: nat)
    requires id in w.store.orders
  {
    Lines(items, p) > 0 && Booked(w.store.orders, Reserved, p) - 2 * Qty(w.store.orders[id].items, p) < Qty(items, p)
  }

  /** The charge of worker k has been refused by transaction two: charged, no payment, order still reserved. */
  predicate ChargedForNothing(v: World, k: nat, id: nat)
  {
    && k in v.workers && v.workers[k].phase == Over(Some(id), Some(Unsettled(Conflict)))
    && id in v.store.orders && v.store.orders[id].status == Reserved
    && id !in v.store.payments && v.store.orders[id].key in v.memo
  }

  /** Worker k is about to announce its order and its payment as paid, and to be refused. */
  predicate AnnouncesFalsely(v: World, k: nat)
  {
    && k in v.workers && v.workers[k].phase.Settling?
    && var x := v.workers[k];
    && SettleTx(v.store, x.phase.pay.orderId, x.order, x.phase.pay, x.phase.charge).Err?
    && SettleEvents(v.store, x.phase.pay.orderId, x.order, x.phase.pay, x.phase.charge)
         == ([OrderPaid], [P.PaymentSucceeded])
  }

  lemma StarvedIsRefused(w: World, id: nat, k: nat, v: World)
    requires Strong(w) && id in w.store.orders && Starved(w, id, k)
    requires ReleasedTwice(w, id, v)
    ensures ChargedForNothing(AfterSettle(v, k), k, w.workers[k].phase.pay.orderId)
    ensures AfterSettle(v, k).store == v.store
    ensures AnnouncesFalsely(v, k)
  {
    var x := w.workers[k];
    CarriedOrder(w, k);
    var p :| ShortOf(w, id, x.order.items, p);
    assert Held(w.store.stock, p) == Booked(w.store.orders, Reserved, p);
    UncoveredIsConflict(v.store, x.order, x.phase.pay, x.phase.charge, p);
    SettleOutcome(v, k);
    FalseAnnouncementIff(v.store, x.phase.pay.orderId, x.order, x.phase.pay, x.phase.charge);
  }

  /** A charge in a worker's hands is that of a reserved order with no payment in its way. */
  lemma CarriedOrder(w: World, k: nat)
    requires Strong(w) && k in w.workers && w.workers[k].phase.Settling? && w.workers[k].phase.charge.Charged?
    ensures var x := w.workers[k];
            var pay := x.phase.pay;
            && pay.orderId in w.store.orders && w.store.orders[pay.orderId].status == Reserved
            && w.store.orders[pay.orderId].key in w.memo
            && x.order.status == Reserved && PositiveLines(x.order.items) && pay.status == P.Pending
            && Answered(x.phase.charge)
            && pay.orderId !in w.store.payments && !PaymentKeyTaken(w.store.payments, pay.key)
  {
    assert LiveOk(w.store.orders, w.memo, w.workers[k]);
    assert WorkerOk(w.store.orders, Attempts(w.maxAttempts), w.workers[k]);
    SettleIsNeverRefused(w, k);
  }

  /** With no payment in the way, an uncovered product makes transaction two fail with a conflict. */
  lemma UncoveredIsConflict(s: Store, o: OrderData, pay: P.PaymentData, charge: Charge, p: nat)
    requires o.status == Reserved && PositiveLines(o.items) && pay.status == P.Pending && charge.Charged?
        && Answered(charge)
    requires pay.orderId !in s.payments && !PaymentKeyTaken(s.payments, pay.key)
    requires Lines(o.items, p) > 0 && (p in s.stock ==> s.stock[p].reserved < Qty(o.items, p))
    ensures SettleTx(s, pay.orderId, o, pay, charge) == Err(Conflict)
  {
    StepLinesExact(Commit, s.stock, o.items);
  }

  // ---------- Reaching such a world ----------

  function PlaceAndCharge(k: nat, id: nat, o: OrderData, ref: string): seq<Action>
  {
    [Submit(k, o), Place(k, id), BeginCharge(k), EndCharge(k, Approve(ref))]
  }

  /** The order can be placed, and charging for it will be the gateway's first charge under its key. */
  ghost predicate Acceptable(w: World, k: nat, id: nat, o: OrderData, ref: string)
  {
    && k !in w.workers && Placeable(o) && o.total.amount != 0 && ref != ""
    && id != 0 && id !in w.store.orders && !KeyTaken(w.store.orders, o.key)
    && Covers(Reserve, w.store.stock, o.items)
  }

  /** Worker k has reserved and charged for order id, and is about to settle. */
  ghost predicate ChargedWorld(w: World, k: nat, id: nat, o: OrderData, ref: string, v: World)
  {
    && StockMoved(Reserve, w.store.stock, o.items, v.store.stock)
    && v.store.orders == w.store.orders[id := o.(status := Reserved)] && v.store.payments == w.store.payments
    && v.memo == w.memo[o.key := ref]
    && v.workers == w.workers[k := Worker(o.(status := Reserved),
         Settling(P.PaymentData(id, o.key, o.total, P.Pending, "mock", "", 1, ""), Charged(ref)))]
    && v.cancels == w.cancels
  }

  lemma PlaceAndChargeEffect(w: World, k: nat, id: nat, o: OrderData, ref: string)
      returns (w1: World, w2: World, w3: World, v: World)
    requires Acceptable(w, k, id, o, ref) && o.key !in w.memo
    ensures w1 == w.(workers := w.workers[k := Worker(o, Queued)])
    ensures Enabled(w1, Place(k, id)) && w2 == AfterReserve(w1, k, id)
    ensures Enabled(w2, BeginCharge(k)) && w3 == AfterBeginCharge(w2, k)
    ensures Enabled(w3, EndCharge(k, Approve(ref))) && v == AfterEndCharge(w3, k, Approve(ref))
    ensures ChargedWorld(w, k, id, o, ref, v)
  {
    w1 := w.(workers := w.workers[k := Worker(o, Queued)]);
    ReserveTxExact(w.store, id, o);
    ReserveOutcome(w1, k, id);
    w2 := AfterReserve(w1, k, id);
    w3 := AfterBeginCharge(w2, k);
    v := AfterEndCharge(w3, k, Approve(ref));
  }

  lemma PlaceAndChargeRuns(w: World, k: nat, id: nat, o: OrderData, ref: string) returns (v: World)
    requires Strong(w) && Acceptable(w, k, id, o, ref)
    ensures DisciplinedRuns(w, PlaceAndCharge(k, id, o, ref), v)
    ensures Strong(v) && ChargedWorld(w, k, id, o, ref, v)
  {
    var w1, w2, w3, u := PlaceAndChargeEffect(w, k, id, o, ref);
    v := u;
    FourDisciplinedSteps(w, Submit(k, o), w1, Place(k, id), w2, BeginCharge(k), w3,
                         EndCharge(k, Approve(ref)), v);
    DisciplinedRunsKeepStrong(w, PlaceAndCharge(k, id, o, ref), v);
  }

  lemma FourDisciplinedSteps(w: World, a: Action, w1: World, b: Action, w2: World, c: Action, w3: World, d: Action,
                             v: World)
    requires Enabled(w, a) && Disciplined(w, a) && w1 == Apply(w, a)
    requires Enabled(w1, b) && Disciplined(w1, b) && w2 == Apply(w1, b)
    requires Enabled(w2, c) && Disciplined(w2, c) && w3 == Apply(w2, c)
    requires Enabled(w3, d) && Disciplined(w3, d) && v == Apply(w3, d)
    ensures DisciplinedRuns(w, [a, b, c, d], v)
  {
    ThreeSteps(w1, b, w2, c, w3, d, v);
    assert [a, b, c, d][1..] == [b, c, d];
  }

  // ---------- A run from the start ----------

  lemma {:induction false} DisciplinedAppend(w: World, a: seq<Action>, v: World, b: seq<Action>, u: World)
    requires DisciplinedRuns(w, a, v) && DisciplinedRuns(v, b, u)
    ensures DisciplinedRuns(w, a + b, u)
    decreases |a|
  {
    if a == [] {
      assert a + b == b;
    } else {
      DisciplinedAppend(Apply(w, a[0]), a[1..], v, b, u);
      assert (a + b)[1..] == a[1..] + b;
    }
  }

  lemma {:induction false} RunsAfterDisciplined(w: World, a: seq<Action>, v: World, b: seq<Action>, u: World)
    requires DisciplinedRuns(w, a, v) && Runs(v, b, u)
    ensures Runs(w, a + b, u)
    decreases |a|
  {
    if a == [] {
      assert a + b == b;
    } else {
      RunsAfterDisciplined(Apply(w, a[0]), a[1..], v, b, u);
      assert (a + b)[1..] == a[1..] + b;
    }
  }

  lemma {:induction false} RunsAppend(w: World, a: seq<Action>, v: World, b: seq<Action>, u: World)
    requires Runs(w, a, v) && Runs(v, b, u)
    ensures Runs(w, a + b, u)
    decreases |a|
  {
    if a == [] {
      assert a + b == b;
    } else {
      RunsAppend(Apply(w, a[0]), a[1..], v, b, u);
      assert (a + b)[1..] == a[1..] + b;
    }
  }

  lemma OneDisciplinedStep(w: World, a: Action)
    requires Enabled(w, a) && Disciplined(w, a)
    ensures DisciplinedRuns(w, [a], Apply(w, a))
  {
    assert DisciplinedRuns(Apply(w, a), [], Apply(w, a));
  }

  /** An order of one unit of product 1. */
  function OneUnit(key: string): OrderData
  {
    OrderData(key, [Item(1, Money(100, "USD"), 1)], Money(100, "USD"), Pending, "")
  }

  lemma OneUnitLines(key: string)
    requires key != ""
    ensures Placeable(OneUnit(key))
    ensures forall p: nat :: Lines(OneUnit(key).items, p) == Qty(OneUnit(key).items, p) == (if p == 1 then 1 else 0)
  {
    forall p: nat
      ensures Lines(OneUnit(key).items, p) == Qty(OneUnit(key).items, p) == (if p == 1 then 1 else 0)
    {
      OneLine(Item(1, Money(100, "USD"), 1), p);
    }
  }

  /** Two units of product 1 are in stock, and nothing else has happened. */
  lemma Stocked(w: World) returns (w1: World)
    requires Initial(w)
    ensures DisciplinedRuns(w, [AddProduct(1, 2)], w1) && Strong(w1)
    ensures w1.store.stock == map[1 := Row(2, 0, 0)] && w1.store.orders == map[]
    ensures w1.workers == map[] && w1.memo == map[] && w1.cancels == map[]
  {
    InitialIsStrong(w);
    w1 := Apply(w, AddProduct(1, 2));
    OneDisciplinedStep(w, AddProduct(1, 2));
    StepKeepsStrong(w, AddProduct(1, 2));
  }

  /** The first order's worker charges for it and then stops. */
  lemma FirstOrder(w1: World) returns (actions: seq<Action>, w3: World)
    requires Strong(w1) && w1.store.stock == map[1 := Row(2, 0, 0)] && w1.store.orders == map[]
    requires w1.workers == map[] && w1.cancels == map[]
    ensures DisciplinedRuns(w1, actions, w3) && Strong(w3)
    ensures w3.store.stock == map[1 := Row(1, 1, 1)] && w3.store.orders == map[1 := OneUnit("a").(status := Reserved)]
    ensures w3.workers.Keys == {1} && w3.cancels == map[]
  {
    var place := PlaceAndCharge(1, 1, OneUnit("a"), "r1");
    FirstAcceptable(w1);
    var w2 := PlaceAndChargeRuns(w1, 1, 1, OneUnit("a"), "r1");
    FirstCharged(w1, w2);
    w3 := Stops(w2, 1);
    actions := place + [Abort(1)];
    DisciplinedAppend(w1, place, w2, [Abort(1)], w3);
  }

  lemma FirstAcceptable(w1: World)
    requires w1.store.stock == map[1 := Row(2, 0, 0)] && w1.store.orders == map[] && w1.workers == map[]
    ensures Acceptable(w1, 1, 1, OneUnit("a"), "r1")
  {
    OneUnitLines("a");
  }

  lemma FirstCharged(w1: World, w2: World)
    requires w1.store.stock == map[1 := Row(2, 0, 0)] && w1.store.orders == map[] && w1.workers == map[]
    requires ChargedWorld(w1, 1, 1, OneUnit("a"), "r1", w2)
    ensures w2.store.stock == map[1 := Row(1, 1, 1)] && w2.store.orders == map[1 := OneUnit("a").(status := Reserved)]
    ensures w2.workers.Keys == {1}
  {
    OneUnitReserved(w1.store.stock, w2.store.stock, "a");
    OneRow(w1.store.orders, OneUnit("a").(status := Reserved));
    OneRow(w1.workers, w2.workers[1]);
  }

  lemma OneRow<T>(m: map<nat, T>, x: T)
    requires m == map[]
    ensures m[1 := x] == map[1 := x] && m[1 := x].Keys == {1}
  {
  }

  lemma OneUnitReserved(before: map<nat, Row>, after: map<nat, Row>, key: string)
    requires before == map[1 := Row(2, 0, 0)] && key != ""
    requires StockMoved(Reserve, before, OneUnit(key).items, after)
    ensures after == map[1 := Row(1, 1, 1)]
  {
    OneUnitLines(key);
    assert 1 in before;
    assert after[1] == Moved(Reserve, before[1], 1, 1);
  }

  /** A worker that carries a charge is stopped. */
  lemma Stops(w2: World, k: nat) returns (w3: World)
    requires Strong(w2) && k in w2.workers && Drops(w2, Abort(k))
    ensures DisciplinedRuns(w2, [Abort(k)], w3) && Strong(w3)
    ensures w3.store == w2.store && w3.workers.Keys == w2.workers.Keys && w3.cancels == w2.cancels
  {
    AbortEffect(w2, k);
    w3 := Apply(w2, Abort(k));
    OneDisciplinedStep(w2, Abort(k));
    StepKeepsStrong(w2, Abort(k));
  }

  lemma SecondOrder(w3: World) returns (v: World)
    requires Strong(w3)
    requires w3.store.stock == map[1 := Row(1, 1, 1)] && w3.store.orders == map[1 := OneUnit("a").(status := Reserved)]
    requires w3.workers.Keys == {1} && w3.cancels == map[]
    ensures DisciplinedRuns(w3, PlaceAndCharge(2, 2, OneUnit("b"), "r2"), v) && Strong(v)
    ensures v.cancels == map[] && 1 in v.store.orders && v.store.orders[1] == OneUnit("a").(status := Reserved)
    ensures HeldTwice(v.store, OneUnit("a").items) && Starved(v, 1, 2) && v.workers[2].phase.pay.orderId == 2
    ensures 2 in v.store.orders && v.store.orders[2].items == OneUnit("a").items
  {
    SecondAcceptable(w3);
    v := PlaceAndChargeRuns(w3, 2, 2, OneUnit("b"), "r2");
    SecondCharged(w3, v);
  }

  lemma SecondAcceptable(w3: World)
    requires w3.store.stock == map[1 := Row(1, 1, 1)] && w3.store.orders == map[1 := OneUnit("a").(status := Reserved)]
    requires w3.workers.Keys == {1}
    ensures Acceptable(w3, 2, 2, OneUnit("b"), "r2")
  {
    OneUnitLines("b");
  }

  lemma SecondCharged(w3: World, v: World)
    requires w3.store.orders == map[1 := OneUnit("a").(status := Reserved)]
    requires ChargedWorld(w3, 2, 2, OneUnit("b"), "r2", v)
    ensures 1 in v.store.orders && v.store.orders[1] == OneUnit("a").(status := Reserved)
    ensures HeldTwice(v.store, OneUnit("a").items) && Starved(v, 1, 2)
    ensures 2 in v.store.orders && v.store.orders[2].items == OneUnit("a").items
  {
    OneUnitLines("a");
    OneUnitLines("b");
    TwoUnitsBooked(v.store.orders);
    assert ShortOf(v, 1, v.workers[2].order.items, 1);
  }

  lemma TwoUnitsBooked(orders: map<nat, OrderData>)
    requires orders == map[1 := OneUnit("a").(status := Reserved)][2 := OneUnit("b").(status := Reserved)]
    ensures Booked(orders, Reserved, 1) == 2
  {
    var one := map[1 := OneUnit("a").(status := Reserved)];
    assert map[][1 := OneUnit("a").(status := Reserved)] == one;
    assert Bookings(map[], Reserved, 1) == map[];
    OneUnitLines("a");
    OneUnitLines("b");
    BookedUpdate(map[], 1, OneUnit("a").(status := Reserved), Reserved, 1);
    BookedUpdate(one, 2, OneUnit("b").(status := Reserved), Reserved, 1);
  }

  /** A disciplined run that reaches a worker that has charged, and an order that can be cancelled twice beside it. */
  lemma ChargedWorkerIsReached(w: World) returns (actions: seq<Action>, v: World)
    requires Initial(w)
    ensures DisciplinedRuns(w, actions, v) && Strong(v)
    ensures v.cancels == map[] && 1 in v.store.orders && v.store.orders[1].status == Reserved
    ensures HeldTwice(v.store, v.store.orders[1].items) && Starved(v, 1, 2) && v.workers[2].phase.pay.orderId == 2
    ensures 2 in v.store.orders && v.store.orders[2].items == v.store.orders[1].items
  {
    var w1 := Stocked(w);
    var first, w3 := FirstOrder(w1);
    v := SecondOrder(w3);
    actions := [AddProduct(1, 2)] + (first + PlaceAndCharge(2, 2, OneUnit("b"), "r2"));
    DisciplinedAppend(w1, first, w3, PlaceAndCharge(2, 2, OneUnit("b"), "r2"), v);
    DisciplinedAppend(w, [AddProduct(1, 2)], w1, first + PlaceAndCharge(2, 2, OneUnit("b"), "r2"), v);
  }

  /**
    The ledger is false with overlapping cancellations: a run from the start in which one order is
    cancelled twice, after which the reserved counts no longer match the reserved orders. The worker
    of another order, which has charged, is then refused by transaction two, and announces its order
    and its payment as paid all the same.
   */
  lemma LedgerCanBreak(w: World) returns (actions: seq<Action>, v: World)
    requires Initial(w)
    ensures Runs(w, actions, v) && !Balanced(v.store)
    ensures Enabled(v, Settle(2)) && AnnouncesFalsely(v, 2) && ChargedForNothing(Apply(v, Settle(2)), 2, 2)
  {
    var prefix, reached := ChargedWorkerIsReached(w);
    v := DoubledCancelBreaksLedgerIff(reached, 1, 2, 1, "twice");
    StarvedIsRefused(reached, 1, 2, v);
    actions := prefix + TwoCancels(1, 2, 1, "twice");
    RunsAfterDisciplined(w, prefix, reached, TwoCancels(1, 2, 1, "twice"), v);
  }

  lemma LastStep(w: World, a: Action)
    requires Enabled(w, a)
    ensures Runs(w, [a], Apply(w, a))
  {
    assert Runs(Apply(w, a), [], Apply(w, a));
  }
}
