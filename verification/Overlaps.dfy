/**
  The other two ways to break the ledger, each with its exact condition and a run from the start: a
  cancellation that overlaps the live worker of its order, and a status that is moved by hand. When
  the overlap does not break the ledger, it costs the order its charge.
 */
module Overlaps {
  import opened Results
  import opened Inventories
  import opened Orders
  import opened Gateways
  import opened Stores
  import opened PlaceOrders
  import opened Protocol
  import opened Conservation
  import opened Ledger
  import opened Guarantees
  import opened ChargedOrders
  import opened StaleCancels
  import P = Payments

  // ---------- A cancellation during the work on the order ----------

  /** A step of the charge-retry loop of worker k. */
  predicate ChargeStep(a: Action, k: nat)
  {
    (a.BeginCharge? || a.EndCharge?) && a.w == k
  }

  ghost predicate ChargeSteps(actions: seq<Action>, k: nat)
  {
    forall i :: 0 <= i < |actions| ==> ChargeStep(actions[i], k)
  }

  /** The worker's charge, if it has one in hand, is in the memo. */
  predicate ChargeInMemo(x: Worker, memo: Memo)
  {
    x.phase.Settling? && x.phase.charge.Charged? ==> x.order.key in memo
  }

  /** The worker is past transaction one and before transaction two. */
  predicate Working(w: World, k: nat, id: nat)
  {
    k in w.workers && w.workers[k].Live() && w.workers[k].Row() == Some(id) && ChargeInMemo(w.workers[k], w.memo)
  }

  lemma BeginKeepsStore(w: World, k: nat, id: nat)
    requires Enabled(w, BeginCharge(k)) && Working(w, k, id)
    ensures var v := AfterBeginCharge(w, k);
            && v.store == w.store && Working(v, k, id) && v.workers[k].order == w.workers[k].order
  {
  }

  lemma EndKeepsStore(w: World, k: nat, reply: Reply, id: nat)
    requires Enabled(w, EndCharge(k, reply)) && Working(w, k, id)
    ensures var v := AfterEndCharge(w, k, reply);
            && v.store == w.store && Working(v, k, id) && v.workers[k].order == w.workers[k].order
  {
  }

  lemma ChargeStepKeepsStore(w: World, a: Action, k: nat, id: nat)
    requires Enabled(w, a) && ChargeStep(a, k) && Working(w, k, id)
    ensures var v := Apply(w, a);
            && v.store == w.store && Working(v, k, id) && v.workers[k].order == w.workers[k].order
  {
    if a.BeginCharge? {
      BeginKeepsStore(w, k, id);
    } else {
      EndKeepsStore(w, k, a.reply, id);
    }
  }

  lemma {:induction false} ChargeStepsKeepStore(w: World, actions: seq<Action>, v: World, k: nat, id: nat)
    requires Base(w) && Runs(w, actions, v) && ChargeSteps(actions, k) && Working(w, k, id)
    ensures Base(v) && v.store == w.store && Working(v, k, id) && v.workers[k].order == w.workers[k].order
    decreases |actions|
  {
    if actions != [] {
      assert ChargeStep(actions[0], k);
      ChargeStepKeepsStore(w, actions[0], k, id);
      StepKeepsBase(w, actions[0]);
      forall i | 0 <= i < |actions[1..]| ensures ChargeStep(actions[1..][i], k) {
        assert actions[1..][i] == actions[i + 1];
      }
      ChargeStepsKeepStore(Apply(w, actions[0]), actions[1..], v, k, id);
    }
  }

  /** What a live worker's order looks like while everything agrees. */
  lemma LiveOrder(w: World, k: nat, id: nat)
    requires Strong(w) && k in w.workers && w.workers[k].Live() && w.workers[k].Row() == Some(id)
    ensures id in w.store.orders && w.store.orders[id].status == Reserved
    ensures SameOrder(w.store.orders[id], w.workers[k].order) && Working(w, k, id)
    ensures id !in w.store.payments && !PaymentKeyTaken(w.store.payments, w.store.orders[id].key)
  {
    assert LiveOk(w.store.orders, w.memo, w.workers[k]);
    assert WorkerOk(w.store.orders, Attempts(w.maxAttempts), w.workers[k]);
    assert RowSettled(w.store.payments, w.memo, Attempts(w.maxAttempts), id, w.store.orders[id]);
    KeysApart(w.store.orders, id);
  }

  /** A worker about to settle an order that was cancelled under it, while the ledger still holds. */
  ghost predicate Late(v: World, k: nat, id: nat)
  {
    && k in v.workers && v.workers[k].phase.Settling? && v.workers[k].phase.pay.orderId == id
    && var x := v.workers[k];
    && x.order.status == Reserved && x.order.items != [] && PositiveLines(x.order.items)
    && x.phase.pay.status == P.Pending && Answered(x.phase.charge)
    && id in v.store.orders && SameOrder(v.store.orders[id], x.order) && v.store.orders[id].status == Cancelled
    && Balanced(v.store) && id !in v.store.payments && !PaymentKeyTaken(v.store.payments, x.phase.pay.key)
  }

  lemma SettlingIsLate(v: World, k: nat, id: nat)
    requires Base(v) && Balanced(v.store) && Working(v, k, id) && v.workers[k].phase.Settling?
    requires id in v.store.orders && v.store.orders[id].status == Cancelled
    requires id !in v.store.payments && !PaymentKeyTaken(v.store.payments, v.workers[k].order.key)
    ensures Late(v, k, id)
  {
    assert WorkerOk(v.store.orders, Attempts(v.maxAttempts), v.workers[k]);
  }

  /** Covered, transaction two commits and breaks the ledger. */
  lemma LateCommit(v: World, k: nat, id: nat, u: World)
    requires Late(v, k, id) && u == AfterSettle(v, k) && Covers(Release, v.store.stock, v.workers[k].order.items)
    ensures !Balanced(u.store) && id in u.store.orders && !(k in u.workers && u.workers[k].phase.Over?
              && u.workers[k].phase.outcome == Some(Unsettled(Conflict)))
    ensures u.store.orders[id].status == (if v.workers[k].phase.charge.Charged? then Fulfilled else Failed)
  {
    var x := v.workers[k];
    LateCommitStore(v.store, id, x.order, x.phase.pay, x.phase.charge);
    SettleOutcome(v, k);
  }

  lemma LateCommitStore(s: Store, id: nat, o: OrderData, pay: P.PaymentData, charge: Charge)
    requires o.status == Reserved && o.items != [] && PositiveLines(o.items)
    requires pay.status == P.Pending && Answered(charge)
    requires id in s.orders && SameOrder(s.orders[id], o) && s.orders[id].status == Cancelled && Balanced(s)
    requires pay.orderId !in s.payments && !PaymentKeyTaken(s.payments, pay.key) && Covers(Release, s.stock, o.items)
    ensures SettleTx(s, id, o, pay, charge).Ok?
    ensures var after := SettleTx(s, id, o, pay, charge).value;
            && !Balanced(after) && id in after.orders
            && after.orders[id].status == (if charge.Charged? then Fulfilled else Failed)
  {
    SettleTxExact(s, id, o, pay, charge);
    SettleKeepsLedgerIff(s, id, o, pay, charge);
  }

  /** Not covered, it is refused, and changes nothing but the worker. */
  lemma LateRefusal(v: World, k: nat, id: nat, u: World)
    requires Late(v, k, id) && u == AfterSettle(v, k) && !Covers(Release, v.store.stock, v.workers[k].order.items)
    ensures u.store == v.store && u.memo == v.memo
    ensures k in u.workers && u.workers[k].phase == Over(Some(id), Some(Unsettled(Conflict)))
  {
    var x := v.workers[k];
    RefusedWithConflict(v.store, id, x.order, x.phase.pay, x.phase.charge);
    SettleOutcome(v, k);
  }

  lemma RefusedWithConflict(s: Store, id: nat, o: OrderData, pay: P.PaymentData, charge: Charge)
    requires o.status == Reserved && PositiveLines(o.items) && pay.status == P.Pending && Answered(charge)
    requires pay.orderId !in s.payments && !PaymentKeyTaken(s.payments, pay.key)
    requires !Covers(Release, s.stock, o.items)
    ensures SettleTx(s, id, o, pay, charge) == Err(Conflict)
  {
    StepLinesExact(SettleOp(charge), s.stock, o.items);
  }

  /** The cancellation reads the order of a live worker and commits; the ledger still holds. */
  lemma CancelDuringWork(w: World, k: nat, id: nat, c: nat, reason: string) returns (w2: World)
    requires Strong(w) && k in w.workers && w.workers[k].Live() && w.workers[k].Row() == Some(id) && c !in w.cancels
    ensures Runs(w, [ReadForCancel(c, id), CancelRead(c, reason)], w2)
    ensures id in w.store.orders && Base(w2) && Balanced(w2.store) && Working(w2, k, id)
    ensures Released(w, id, w.store.orders[id].items, w2)
  {
    LiveOrder(w, k, id);
    var w1 := w.(cancels := w.cancels[c := Reading(id, w.store.orders[id])]);
    ReadKeepsBase(w, c, id);
    ReservedOrderIsHeld(w, id);
    w2 := CancelCommits(w1, c, reason);
    TwoSteps(w, ReadForCancel(c, id), w1, CancelRead(c, reason), w2);
  }

  lemma TwoSteps(w: World, a: Action, w1: World, b: Action, v: World)
    requires Enabled(w, a) && w1 == Apply(w, a) && Enabled(w1, b) && v == Apply(w1, b)
    ensures Runs(w, [a, b], v)
  {
    assert Runs(v, [], v);
    assert Runs(w1, [b], v);
    assert [a, b][1..] == [b];
  }

  /** Worker k has charged, or been declined, for a cancelled order, and transaction two was refused. */
  predicate RefusedAfterCancel(u: World, k: nat, id: nat, charge: Charge)
  {
    && k in u.workers && u.workers[k].phase == Over(Some(id), Some(Unsettled(Conflict)))
    && id in u.store.orders && u.store.orders[id].status == Cancelled && id !in u.store.payments
    && (charge.Charged? ==> u.store.orders[id].key in u.memo)
  }

  /**
    How transaction two ends when the order was cancelled under the
    worker: the ledger breaks, or the charge is lost.
   */
  ghost predicate EndsAfterCancel(w: World, id: nat, k: nat, charge: Charge, u: World)
    requires id in w.store.orders
  {
    && (!Balanced(u.store) <==> HeldTwice(w.store, w.store.orders[id].items))
    && (!Balanced(u.store) ==>
          id in u.store.orders && u.store.orders[id].status == (if charge.Charged? then Fulfilled else Failed))
    && (Balanced(u.store) <==> RefusedAfterCancel(u, k, id, charge))
  }

  lemma SettleEnds(w: World, id: nat, v: World, k: nat)
    requires id in w.store.orders && Late(v, k, id) && ChargeInMemo(v.workers[k], v.memo)
    requires Covers(Release, v.store.stock, v.workers[k].order.items)
             <==> HeldTwice(w.store, w.store.orders[id].items)
    ensures EndsAfterCancel(w, id, k, v.workers[k].phase.charge, AfterSettle(v, k))
  {
    if Covers(Release, v.store.stock, v.workers[k].order.items) {
      LateCommit(v, k, id, AfterSettle(v, k));
    } else {
      LateRefusal(v, k, id, AfterSettle(v, k));
    }
  }

  /**
    A cancellation that overlaps the live worker of its order, at any point between the worker's two
    transactions, with any charge steps of the worker after it. Transaction two then breaks the ledger,
    settling a cancelled order, iff other reserved orders hold the order's units once more; otherwise
    it is refused, and a charge that was made is lost.
   */
  lemma OverlappingCancelIff(w: World, k: nat, id: nat, c: nat, reason: string, w2: World, charges: seq<Action>,
                             v: World)
    requires Strong(w) && k in w.workers && w.workers[k].Live() && w.workers[k].Row() == Some(id) && c !in w.cancels
    requires Runs(w, [ReadForCancel(c, id), CancelRead(c, reason)], w2)
    requires Runs(w2, charges, v) && ChargeSteps(charges, k) && k in v.workers && v.workers[k].phase.Settling?
    ensures id in w.store.orders && Enabled(v, Settle(k))
    ensures Runs(w, [ReadForCancel(c, id), CancelRead(c, reason)] + (charges + [Settle(k)]), Apply(v, Settle(k)))
    ensures EndsAfterCancel(w, id, k, v.workers[k].phase.charge, Apply(v, Settle(k)))
  {
    var same := CancelDuringWork(w, k, id, c, reason);
    SameEnd(w, [ReadForCancel(c, id), CancelRead(c, reason)], w2, same);
    ChargeStepsKeepStore(w2, charges, v, k, id);
    LiveOrder(w, k, id);
    CancelledOrderOf(w, w2, v, k, id);
    TwiceIsCovered(w, w2, id);
    SettlingIsLate(v, k, id);
    SettleEnds(w, id, v, k);
    SettleIsLast(w, [ReadForCancel(c, id), CancelRead(c, reason)], w2, charges, v, k);
  }

  lemma SettleIsLast(w: World, first: seq<Action>, w2: World, charges: seq<Action>, v: World, k: nat)
    requires Runs(w, first, w2) && Runs(w2, charges, v) && k in v.workers && v.workers[k].phase.Settling?
    ensures Runs(w, first + (charges + [Settle(k)]), Apply(v, Settle(k)))
    ensures Apply(v, Settle(k)) == AfterSettle(v, k)
  {
    LastStep(v, Settle(k));
    RunsAppend(w2, charges, v, [Settle(k)], Apply(v, Settle(k)));
    RunsAppend(w, first, w2, charges + [Settle(k)], Apply(v, Settle(k)));
  }

  /** The worker still works on the order as it was, which the cancellation has only given a new status. */
  lemma CancelledOrderOf(w: World, w2: World, v: World, k: nat, id: nat)
    requires id in w.store.orders && k in w.workers && SameOrder(w.store.orders[id], w.workers[k].order)
    requires Released(w, id, w.store.orders[id].items, w2) && v.store == w2.store
    requires k in v.workers && v.workers[k].order == w2.workers[k].order
    ensures v.workers[k].order.items == w.store.orders[id].items
    ensures id in v.store.orders && v.store.orders[id].status == Cancelled
    ensures v.store.orders[id].key == w.store.orders[id].key == v.workers[k].order.key
    ensures v.store.payments == w.store.payments
  {
  }

  lemma {:induction false} SameEnd(w: World, actions: seq<Action>, u: World, v: World)
    requires Runs(w, actions, u) && Runs(w, actions, v)
    ensures u == v
    decreases |actions|
  {
    if actions != [] {
      SameEnd(Apply(w, actions[0]), actions[1..], u, v);
    }
  }

  // ---------- A status moved by hand ----------

  /** The targets that a reserved order can be moved to by hand. */
  predicate LeavesReserved(target: Status)
  {
    target == Paid || target == Cancelled || target == Failed
  }

  /**
    An administrator's change of an order, read and carried out with nothing in between, breaks the
    ledger iff it takes a reserved order to paid, cancelled or failed.
   */
  lemma StatusByHandBreaksLedgerIff(w: World, c: nat, id: nat, target: Status) returns (v: World)
    requires Strong(w) && id in w.store.orders && c !in w.changes
    ensures Runs(w, [ReadForChange(c, id), ChangeRead(c, target)], v)
    ensures !Balanced(v.store) <==> w.store.orders[id].status == Reserved && LeavesReserved(target)
  {
    var w1 := w.(changes := w.changes[c := Reading(id, w.store.orders[id])]);
    v := AfterChange(w1, c, target);
    TwoSteps(w, ReadForChange(c, id), w1, ChangeRead(c, target), v);
    assert RowSettled(w.store.payments, w.memo, Attempts(w.maxAttempts), id, w.store.orders[id]);
    ChangeTxEffect(w.store, id, target);
    if StatusTx(w.store, id, w.store.orders[id], target).Ok? {
      StatusChangeKeepsLedgerIff(w.store, id, w.store.orders[id], target);
    }
  }

  lemma ChangeTxEffect(s: Store, id: nat, target: Status)
    requires id in s.orders && s.orders[id].status != Pending && s.orders[id].status != Paid
    ensures StatusTx(s, id, s.orders[id], target).Ok? <==> s.orders[id].status == Reserved && LeavesReserved(target)
  {
  }

  // ---------- Runs from the start ----------

  /** A run in which a cancellation overlaps a worker that has charged, and the ledger breaks. */
  lemma OverlapCanBreak(w: World) returns (actions: seq<Action>, u: World)
    requires Initial(w)
    ensures Runs(w, actions, u) && !Balanced(u.store)
    ensures 2 in u.store.orders && u.store.orders[2].status == Fulfilled
  {
    var prefix, reached := ChargedWorkerIsReached(w);
    var rest: seq<Action>;
    rest, u := OverlapFrom(reached, 2, 2, 1);
    actions := prefix + rest;
    RunsAfterDisciplined(w, prefix, reached, rest, u);
  }

  /** The worker of order id has its charge in hand; a cancellation runs, and then transaction two. */
  lemma OverlapFrom(w: World, k: nat, id: nat, c: nat) returns (rest: seq<Action>, u: World)
    requires Strong(w) && k in w.workers && w.workers[k].phase.Settling? && w.workers[k].phase.charge.Charged?
    requires w.workers[k].phase.pay.orderId == id && c !in w.cancels
    ensures Runs(w, rest, u) && id in w.store.orders
    ensures !Balanced(u.store) <==> HeldTwice(w.store, w.store.orders[id].items)
    ensures !Balanced(u.store) ==> id in u.store.orders && u.store.orders[id].status == Fulfilled
    ensures Balanced(u.store) ==> RefusedAfterCancel(u, k, id, w.workers[k].phase.charge)
  {
    var v := CancelDuringWork(w, k, id, c, "late");
    assert Runs(v, [], v);
    OverlappingCancelIff(w, k, id, c, "late", v, [], v);
    u := Apply(v, Settle(k));
    rest := [ReadForCancel(c, id), CancelRead(c, "late")] + ([] + [Settle(k)]);
  }

  /**
    A run in which no worker is stopped and the ledger holds, and yet a charge is lost: the order was
    cancelled while its worker had charged, and transaction two is refused.
   */
  lemma ChargeCanBeLost(w: World) returns (actions: seq<Action>, u: World)
    requires Initial(w)
    ensures Runs(w, actions, u) && Balanced(u.store)
    ensures RefusedAfterCancel(u, 1, 1, Charged("r1"))
  {
    var w1 := Stocked(w);
    FirstAcceptable(w1);
    var w2 := PlaceAndChargeRuns(w1, 1, 1, OneUnit("a"), "r1");
    FirstCharged(w1, w2);
    OneUnitBooked(w2.store);
    var rest: seq<Action>;
    rest, u := OverlapFrom(w2, 1, 1, 1);
    RunsAfterDisciplined(w1, PlaceAndCharge(1, 1, OneUnit("a"), "r1"), w2, rest, u);
    RunsAfterDisciplined(w, [AddProduct(1, 2)], w1, PlaceAndCharge(1, 1, OneUnit("a"), "r1") + rest, u);
    actions := [AddProduct(1, 2)] + (PlaceAndCharge(1, 1, OneUnit("a"), "r1") + rest);
  }

  lemma OneUnitBooked(s: Store)
    requires s.orders == map[1 := OneUnit("a").(status := Reserved)]
    ensures 1 in s.orders && !HeldTwice(s, s.orders[1].items)
  {
    OneUnitLines("a");
    OneRow(map[], OneUnit("a").(status := Reserved));
    assert Bookings(map[], Reserved, 1) == map[];
    BookedUpdate(map[], 1, OneUnit("a").(status := Reserved), Reserved, 1);
    assert Lines(s.orders[1].items, 1) == 1 && Booked(s.orders, Reserved, 1) == 1;
  }

  lemma {:induction false} NoChangesRead(w: World, actions: seq<Action>, v: World)
    requires DisciplinedRuns(w, actions, v) && w.changes == map[]
    ensures v.changes == map[]
    decreases |actions|
  {
    if actions != [] {
      ChangesAsBefore(w, actions[0]);
      NoChangesRead(Apply(w, actions[0]), actions[1..], v);
    }
  }

  lemma ChangesAsBefore(w: World, a: Action)
    requires Enabled(w, a) && !a.ReadForChange? && !a.ChangeRead?
    ensures Apply(w, a).changes == w.changes
  {
    if a.Place? {
      ReserveOutcome(w, a.w, a.id);
    } else if a.Settle? {
      SettleOutcome(w, a.w);
    }
  }

  /** A run in which an administrator fails a reserved order by hand, and the ledger breaks. */
  lemma StatusByHandCanBreak(w: World) returns (actions: seq<Action>, v: World)
    requires Initial(w)
    ensures Runs(w, actions, v) && !Balanced(v.store)
  {
    var prefix, reached := ChargedWorkerIsReached(w);
    NoChangesRead(w, prefix, reached);
    v := StatusByHandBreaksLedgerIff(reached, 1, 1, Failed);
    actions := prefix + [ReadForChange(1, 1), ChangeRead(1, Failed)];
    RunsAfterDisciplined(w, prefix, reached, [ReadForChange(1, 1), ChangeRead(1, Failed)], v);
  }
}
