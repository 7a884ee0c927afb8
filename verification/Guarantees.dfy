/**
  The guarantees of order processing, for every disciplined run: what the ledger, the payments and
  the gateway agree on, and exactly when a single transaction breaks the ledger.
 */
module Guarantees {
  import opened Results
  import opened Inventories
  import opened Orders
  import opened Gateways
  import opened Stores
  import opened PlaceOrders
  import opened Protocol
  import opened Conservation
  import opened Ledger
  import P = Payments

  /**
    In every world that a disciplined run reaches, stops and crashes included: a product's reserved
    count is the sum over the reserved orders, its available count is what was supplied less what
    reserved and fulfilled orders took, and no committed order is pending or paid.
   */
  lemma ReservationLedger(w: World, actions: seq<Action>, v: World)
    requires Initial(w) && DisciplinedRuns(w, actions, v)
    ensures forall p :: p in v.store.stock ==>
              && v.store.stock[p].reserved == Booked(v.store.orders, Reserved, p) >= 0
              && v.store.stock[p].available
                   == Count(v.supplied, p) - Booked(v.store.orders, Reserved, p) - Booked(v.store.orders, Fulfilled, p)
              && v.store.stock[p].available >= 0
    ensures forall p :: p !in v.store.stock ==> Booked(v.store.orders, Reserved, p) == 0
    ensures forall i :: i in v.store.orders ==> !v.store.orders[i].status.Pending? && !v.store.orders[i].status.Paid?
  {
    InitialIsStrong(w);
    DisciplinedRunsKeepStrong(w, actions, v);
    forall p ensures Held(v.store.stock, p) == Booked(v.store.orders, Reserved, p)
                  && Count(v.sold, p) == Booked(v.store.orders, Fulfilled, p) {
    }
    forall i | i in v.store.orders ensures !v.store.orders[i].status.Pending? && !v.store.orders[i].status.Paid? {
      assert RowSettled(v.store.payments, v.memo, Attempts(v.maxAttempts), i, v.store.orders[i]);
    }
  }

  /**
    A fulfilled order has its one payment, succeeded, for its key and total, with the reference the
    gateway stored; a failed order has a failed payment and no charge; other orders have no payment;
    and a charge belongs to an order that is fulfilled, still reserved, or cancelled.
   */
  ghost predicate ChargesMatch(orders: map<nat, OrderData>, payments: map<nat, P.PaymentData>, memo: Memo)
  {
    && (forall i :: i in orders && orders[i].status == Fulfilled ==>
          && i in payments && payments[i].status == P.Succeeded
          && payments[i].key == orders[i].key && payments[i].amount == orders[i].total
          && orders[i].key in memo && payments[i].providerRef == memo[orders[i].key] != "")
    && (forall i :: i in orders && orders[i].status == Failed ==>
          i in payments && payments[i].status == P.Failed && orders[i].key !in memo)
    && (forall i :: i in payments ==> i in orders && (orders[i].status == Fulfilled || orders[i].status == Failed))
    && (forall key :: key in memo ==> ChargedOrder(orders, key))
  }

  predicate ChargedOrder(orders: map<nat, OrderData>, key: string)
  {
    exists i :: i in orders && orders[i].key == key
      && (orders[i].status == Fulfilled || orders[i].status == Reserved || orders[i].status == Cancelled)
  }

  /**
    Charges, payments and orders match in every world that a disciplined run reaches. That every charge
    ends in a fulfilled order needs a condition more: see ChargedOrders.ChargedIffFulfilled.
   */
  lemma ChargedWhenFulfilled(w: World, actions: seq<Action>, v: World)
    requires Initial(w) && DisciplinedRuns(w, actions, v)
    ensures ChargesMatch(v.store.orders, v.store.payments, v.memo)
  {
    InitialIsStrong(w);
    DisciplinedRunsKeepStrong(w, actions, v);
    RowsSettledMeans(v.store.orders, v.store.payments, v.memo, Attempts(v.maxAttempts));
  }

  lemma RowsSettledMeans(orders: map<nat, OrderData>, payments: map<nat, P.PaymentData>, memo: Memo, attempts: nat)
    requires RowsSettled(orders, payments, memo, attempts) && MemoKnown(memo, orders)
    requires forall i :: i in payments ==> i in orders
    requires forall key :: key in memo ==> memo[key] != ""
    ensures ChargesMatch(orders, payments, memo)
  {
    forall i | i in orders ensures RowSettled(payments, memo, attempts, i, orders[i]) {
    }
    forall key | key in memo ensures ChargedOrder(orders, key) {
      ChargeHasOrder(orders, payments, memo, attempts, key);
    }
  }

  lemma ChargeHasOrder(orders: map<nat, OrderData>, payments: map<nat, P.PaymentData>, memo: Memo, attempts: nat,
                       key: string)
    requires RowsSettled(orders, payments, memo, attempts) && MemoKnown(memo, orders) && key in memo
    ensures ChargedOrder(orders, key)
  {
    assert KeyTaken(orders, key);
    var i :| i in orders && orders[i].key == key;
    assert RowSettled(payments, memo, attempts, i, orders[i]);
  }

  /** Transaction two of worker k has moved its own order and its own units, and nothing else. */
  ghost predicate SettledAlone(v: World, k: nat, next: World)
    requires k in v.workers && v.workers[k].phase.Settling?
  {
    var x := v.workers[k];
    var id, charged := x.phase.pay.orderId, x.phase.charge.Charged?;
    && k in next.workers
    && next.workers[k].phase == Over(Some(id), Some(if charged then Completed else PaymentDeclined))
    && id in v.store.orders && id in next.store.orders && v.store.orders[id].items == x.order.items
    && next.store.orders[id].status == (if charged then Fulfilled else Failed)
    && (forall i :: i in v.store.orders && i != id ==>
        i in next.store.orders && next.store.orders[i] == v.store.orders[i])
    && (forall p :: p in v.store.stock ==>
          && p in next.store.stock
          && next.store.stock[p].reserved == v.store.stock[p].reserved - Qty(x.order.items, p)
          && next.store.stock[p].available
               == v.store.stock[p].available + (if charged then 0 else Qty(x.order.items, p)))
  }

  lemma CommittedSettlesAlone(v: World, k: nat, next: World)
    requires SettleCommitted(v, k, next)
    ensures SettledAlone(v, k, next)
  {
    var x := v.workers[k];
    forall p | p in v.store.stock
      ensures p in next.store.stock
      ensures next.store.stock[p] == Moved(SettleOp(x.phase.charge), v.store.stock[p], Qty(x.order.items, p),
                                           Lines(x.order.items, p))
    {
    }
  }

  /**
    A live worker's transaction two always commits in a disciplined run, also when one product
    fills several lines; it takes its own units out of the reserved counts and no other order's.
   */
  lemma SettlingCompletes(w: World, actions: seq<Action>, v: World, k: nat)
    requires Initial(w) && DisciplinedRuns(w, actions, v)
    requires k in v.workers && v.workers[k].phase.Settling?
    ensures SettledAlone(v, k, Apply(v, Settle(k)))
    ensures v.store.orders[v.workers[k].phase.pay.orderId].status == Reserved
  {
    InitialIsStrong(w);
    DisciplinedRunsKeepStrong(w, actions, v);
    SettleIsNeverRefused(v, k);
    SettleStep(v, k);
    CommittedSettlesAlone(v, k, AfterSettle(v, k));
    assert LiveOk(v.store.orders, v.memo, v.workers[k]);
  }

  /** In any run whatsoever, what a settling worker announces beyond what it does, and exactly when. */
  lemma SettlingAnnouncesIff(w: World, actions: seq<Action>, v: World, k: nat)
    requires Initial(w) && Runs(w, actions, v)
    requires k in v.workers && v.workers[k].phase.Settling?
    ensures var x := v.workers[k];
            var pay, charge := x.phase.pay, x.phase.charge;
            var refused := SettleTx(v.store, pay.orderId, x.order, pay, charge).Err?;
            var (published, payments) := SettleEvents(v.store, pay.orderId, x.order, pay, charge);
            && (refused && published != [] <==>
                  && charge.Charged? && pay.orderId !in v.store.payments && !PaymentKeyTaken(v.store.payments, pay.key)
                  && !Covers(Commit, v.store.stock, x.order.items))
            && (refused && payments != [] <==> !CanSettle(v, k))
  {
    RunsKeepBase(w, actions, v);
    var x := v.workers[k];
    assert WorkerOk(v.store.orders, Attempts(v.maxAttempts), x);
    FalseAnnouncementIff(v.store, x.phase.pay.orderId, x.order, x.phase.pay, x.phase.charge);
  }

  /** In disciplined runs the events of a settling worker tell what its order row and its payment row say. */
  lemma SettlingTellsTheRows(w: World, actions: seq<Action>, v: World, k: nat)
    requires Initial(w) && DisciplinedRuns(w, actions, v)
    requires k in v.workers && v.workers[k].phase.Settling?
    ensures var x := v.workers[k];
            var pay, charge := x.phase.pay, x.phase.charge;
            var next := Apply(v, Settle(k)).store;
            var (published, payments) := SettleEvents(v.store, pay.orderId, x.order, pay, charge);
            && pay.orderId in next.orders && next.orders[pay.orderId].status == Replay(Reserved, published)
            && pay.orderId in next.payments
            && payments == if next.payments[pay.orderId].status == P.Succeeded then [P.PaymentSucceeded]
                           else [P.Event.PaymentFailed(next.payments[pay.orderId].failureReason)]
  {
    InitialIsStrong(w);
    DisciplinedRunsKeepStrong(w, actions, v);
    SettleIsNeverRefused(v, k);
    SettleStep(v, k);
    var x := v.workers[k];
    assert WorkerOk(v.store.orders, Attempts(v.maxAttempts), x);
    CommittedTellsTheRows(v, k, AfterSettle(v, k));
  }

  lemma CommittedTellsTheRows(v: World, k: nat, next: World)
    requires SettleCommitted(v, k, next) && CanSettle(v, k)
    ensures var x := v.workers[k];
            var id := x.phase.pay.orderId;
            var (published, payments) := SettleEvents(v.store, id, x.order, x.phase.pay, x.phase.charge);
            && id in next.store.orders && next.store.orders[id].status == Replay(Reserved, published)
            && id in next.store.payments
            && payments == if next.store.payments[id].status == P.Succeeded then [P.PaymentSucceeded]
                           else [P.Event.PaymentFailed(next.store.payments[id].failureReason)]
  {
    var x := v.workers[k];
    SettleTxExact(v.store, x.phase.pay.orderId, x.order, x.phase.pay, x.phase.charge);
    FalseAnnouncementIff(v.store, x.phase.pay.orderId, x.order, x.phase.pay, x.phase.charge);
  }

  // ---------- Where the ledger's conditions come from ----------

  /** Rewriting order id, and perhaps giving its units back, keeps the balance exactly under this condition. */
  lemma BalanceAfterRewrite(s: Store, id: nat, o: OrderData, after: Store, moved: bool)
    requires Balanced(s) && id in s.orders && s.orders[id].items == o.items && PositiveLines(o.items) && o.items != []
    requires after.orders == UpdateOrder(s, id, o).orders
    requires if moved then after.stock.Keys == s.stock.Keys && Covers(Release, s.stock, o.items)
                           && forall p :: p in s.stock ==>
                               after.stock[p].reserved == s.stock[p].reserved - Qty(o.items, p)
             else after.stock == s.stock
    requires moved ==> o.status != Reserved
    ensures Balanced(after) <==> if moved then s.orders[id].status == Reserved
                                 else (s.orders[id].status == Reserved) == (o.status == Reserved)
  {
    var row := s.orders[id].(status := o.status, total := o.total, failureReason := o.failureReason);
    forall p: nat
      ensures Booked(after.orders, Reserved, p)
           == Booked(s.orders, Reserved, p) - Booking(s.orders[id], Reserved, p) + Booking(row, Reserved, p)
      ensures Held(after.stock, p) == Held(s.stock, p) - (if moved then Qty(o.items, p) else 0)
    {
      BookedUpdate(s.orders, id, row, Reserved, p);
      QtyNonNegative(o.items, p);
      assert Lines(o.items, p) > 0 && moved ==> p in s.stock;
    }
    var p0 := o.items[0].productId;
    QtyNonNegative(o.items, p0);
    assert Lines(o.items, p0) > 0;
    assert Qty(o.items, p0) > 0;
    assert Held(s.stock, p0) == Booked(s.orders, Reserved, p0);
    if Balanced(after) {
      assert Held(after.stock, p0) == Booked(after.orders, Reserved, p0);
    }
    if if moved then s.orders[id].status == Reserved else (s.orders[id].status == Reserved) == (o.status == Reserved) {
      forall p: nat ensures Held(after.stock, p) == Booked(after.orders, Reserved, p) {
        assert Held(s.stock, p) == Booked(s.orders, Reserved, p);
      }
    }
  }

  /**
    A cancellation that commits keeps the ledger iff it gave units back exactly when the row held
    some: it read a status that holds stock, and the row is still reserved, or neither.
   */
  lemma CancelKeepsLedgerIff(s: Store, id: nat, o: OrderData, reason: string)
    requires Balanced(s) && id in s.orders && SameOrder(s.orders[id], o) && PositiveLines(o.items) && o.items != []
    requires CancelTx(s, id, o, reason).Ok?
    ensures Balanced(CancelTx(s, id, o, reason).value) <==> (s.orders[id].status == Reserved <==> o.status != Pending)
  {
    CancelTxExact(s, id, o, reason);
    BalanceAfterRewrite(s, id, o.(status := Cancelled), CancelTx(s, id, o, reason).value, o.status != Pending);
  }

  /** Transaction two, run from an order held in memory as reserved, keeps the ledger iff the row is still reserved. */
  lemma SettleKeepsLedgerIff(s: Store, id: nat, o: OrderData, pay: P.PaymentData, charge: Charge)
    requires Balanced(s) && id in s.orders && SameOrder(s.orders[id], o) && PositiveLines(o.items) && o.items != []
    requires o.status == Reserved && pay.status == P.Pending && Answered(charge) && SettleTx(s, id, o, pay, charge).Ok?
    ensures Balanced(SettleTx(s, id, o, pay, charge).value) <==> s.orders[id].status == Reserved
  {
    SettleTxExact(s, id, o, pay, charge);
    assert Covers(Release, s.stock, o.items) <==> Covers(Commit, s.stock, o.items);
    BalanceAfterRewrite(s, id, SettledOrder(o, charge), SettleTx(s, id, o, pay, charge).value, true);
  }

  /** A status change by hand moves no stock, so it keeps the ledger iff it does not enter or leave status reserved. */
  lemma StatusChangeKeepsLedgerIff(s: Store, id: nat, o: OrderData, target: Status)
    requires Balanced(s) && id in s.orders && SameOrder(s.orders[id], o) && PositiveLines(o.items) && o.items != []
    requires StatusTx(s, id, o, target).Ok?
    ensures Balanced(StatusTx(s, id, o, target).value) <==> (s.orders[id].status == Reserved <==> target == Reserved)
  {
    BalanceAfterRewrite(s, id, MoveData(o, StatusMove(target).value).value, StatusTx(s, id, o, target).value, false);
  }
}
