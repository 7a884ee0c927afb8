/**
  What holds in every interleaving whatsoever, including stale and doubled cancellations and
  status changes by hand: units are neither created nor lost, and no count is negative.
 */
module Conservation {
  import opened Results
  import opened Inventories
  import opened Orders
  import opened Gateways
  import opened Stores
  import opened PlaceOrders
  import opened Protocol
  import P = Payments

  /** For each product the units on hand, held and sold are the units supplied; none is negative. */
  ghost predicate Conserved(stock: map<nat, Row>, sold: map<nat, int>, supplied: map<nat, int>)
  {
    && (forall p :: p in stock ==>
          && stock[p].available >= 0 && stock[p].reserved >= 0 && Count(sold, p) >= 0
          && stock[p].available + stock[p].reserved + Count(sold, p) == Count(supplied, p))
    && (forall p :: p !in stock ==> Count(sold, p) == 0 && Count(supplied, p) == 0)
  }

  /** The columns of an order row that no statement ever changes. */
  predicate SameOrder(a: OrderData, b: OrderData)
  {
    a.key == b.key && a.items == b.items && a.total == b.total
  }

  /** Rows are added, never removed, and keep those columns. */
  ghost predicate Grown(before: map<nat, OrderData>, after: map<nat, OrderData>)
  {
    forall i :: i in before ==> i in after && SameOrder(before[i], after[i])
  }

  ghost predicate KeysUnique(orders: map<nat, OrderData>)
  {
    forall i, j :: i in orders && j in orders && orders[i].key == orders[j].key ==> i == j
  }

  /** What NewOrder and transaction one make sure of: lines, positive ones, a key, and no row left pending. */
  ghost predicate RowsPositive(orders: map<nat, OrderData>)
  {
    forall i :: i in orders ==>
      && orders[i].items != [] && PositiveLines(orders[i].items) && orders[i].key != "" && orders[i].status != Pending
  }

  ghost predicate PaymentsMatch(orders: map<nat, OrderData>, payments: map<nat, P.PaymentData>)
  {
    forall i :: i in payments ==> i in orders && payments[i].key == orders[i].key
  }

  ghost predicate RowsOk(s: Store)
  {
    KeysUnique(s.orders) && RowsPositive(s.orders) && PaymentsMatch(s.orders, s.payments)
  }

  /** A payment in the hands of a worker that has passed transaction one. */
  predicate Charges(o: OrderData, pay: P.PaymentData)
  {
    && o.status == Reserved
    && pay.status == P.Pending && pay.key == o.key && pay.amount == o.total && o.total.amount != 0
    && pay.providerRef == "" && pay.failureReason == ""
  }

  predicate PhaseOk(x: Worker, attempts: nat)
  {
    match x.phase
    case Queued => x.order.status == Pending
    case Charging(pay) => Charges(x.order, pay) && pay.attempts < attempts
    case Calling(pay) => Charges(x.order, pay) && 1 <= pay.attempts <= attempts && pay.provider == "mock"
    case Settling(pay, charge) =>
      Charges(x.order, pay) && Answered(charge) && 1 <= pay.attempts <= attempts && pay.provider == "mock"
    case Over(_, _) => true
  }

  ghost predicate WorkerOk(orders: map<nat, OrderData>, attempts: nat, x: Worker)
  {
    && x.order.items != [] && PositiveLines(x.order.items) && x.order.key != ""
    && (x.Row().Some? ==> x.Row().value in orders && SameOrder(orders[x.Row().value], x.order))
    && PhaseOk(x, attempts)
  }

  /** Every worker is sound, and no two, past or present, have created the same row. */
  ghost predicate CrewOk(orders: map<nat, OrderData>, attempts: nat, workers: map<nat, Worker>)
  {
    && (forall k :: k in workers ==> WorkerOk(orders, attempts, workers[k]))
    && (forall j, k :: j in workers && k in workers && j != k && workers[j].Row().Some? ==>
          workers[j].Row() != workers[k].Row())
  }

  ghost predicate ReadingsOk(orders: map<nat, OrderData>, readings: map<nat, Reading>)
  {
    forall c :: c in readings ==> readings[c].id in orders && SameOrder(orders[readings[c].id], readings[c].order)
  }

  ghost predicate Base(w: World)
  {
    && Conserved(w.store.stock, w.sold, w.supplied)
    && RowsOk(w.store)
    && CrewOk(w.store.orders, Attempts(w.maxAttempts), w.workers)
    && ReadingsOk(w.store.orders, w.cancels) && ReadingsOk(w.store.orders, w.changes)
    && (forall k :: k in w.memo ==> w.memo[k] != "")
  }

  // ---------- Preservation, part by part ----------

  lemma GrowthKeepsCrew(before: map<nat, OrderData>, after: map<nat, OrderData>, attempts: nat,
                        workers: map<nat, Worker>)
    requires Grown(before, after) && CrewOk(before, attempts, workers)
    ensures CrewOk(after, attempts, workers)
  {
  }

  lemma GrowthKeepsReadings(before: map<nat, OrderData>, after: map<nat, OrderData>, readings: map<nat, Reading>)
    requires Grown(before, after) && ReadingsOk(before, readings)
    ensures ReadingsOk(after, readings)
  {
  }

  lemma AdvanceKeepsCrew(orders: map<nat, OrderData>, attempts: nat, workers: map<nat, Worker>, k: nat, x: Worker)
    requires CrewOk(orders, attempts, workers) && WorkerOk(orders, attempts, x)
    requires x.Row().Some? ==>
               forall j :: j in workers && j != k ==> workers[j].Row() != x.Row()
    ensures CrewOk(orders, attempts, workers[k := x])
  {
  }

  /** Moving covered lines keeps every count non-negative, and a + r unless the units are sold. */
  lemma MoveConserves(op: StockOp, before: map<nat, Row>, items: seq<Item>, after: map<nat, Row>,
                      sold: map<nat, int>, supplied: map<nat, int>)
    requires op != Restock && PositiveLines(items) && Covers(op, before, items) && StockMoved(op, before, items, after)
    requires Conserved(before, sold, supplied)
    ensures Conserved(after, if op == Commit then AddLines(sold, before, items) else sold, supplied)
  {
    forall p | p in before
      ensures after[p].available >= 0 && after[p].reserved >= 0 && Qty(items, p) >= 0
      ensures after[p].available + after[p].reserved
           == before[p].available + before[p].reserved - (if op == Commit then Qty(items, p) else 0)
    {
      QtyNonNegative(items, p);
      assert after[p] == Moved(op, before[p], Qty(items, p), Lines(items, p));
    }
  }

  /** Writing an order back under its id changes neither keys nor lines. */
  lemma UpdateKeepsRows(s: Store, id: nat, o: OrderData)
    requires RowsOk(s) && id in s.orders && SameOrder(s.orders[id], o) && o.status != Pending
    ensures UpdateOrder(s, id, o).orders
         == s.orders[id := s.orders[id].(status := o.status, failureReason := o.failureReason)]
    ensures Grown(s.orders, UpdateOrder(s, id, o).orders)
    ensures KeysUnique(UpdateOrder(s, id, o).orders) && RowsPositive(UpdateOrder(s, id, o).orders)
    ensures PaymentsMatch(UpdateOrder(s, id, o).orders, s.payments)
  {
  }

  lemma NewRowKeepsRows(s: Store, id: nat, o: OrderData)
    requires RowsOk(s) && id !in s.orders && !KeyTaken(s.orders, o.key)
    requires o.items != [] && PositiveLines(o.items) && o.key != "" && o.status != Pending
    ensures RowsOk(s.(orders := s.orders[id := o])) && Grown(s.orders, s.orders[id := o])
  {
  }

  /** A step that changes the store, one worker and the readings keeps Base if its parts do. */
  lemma PartsMakeBase(w: World, v: World, k: nat, x: Worker)
    requires Base(w)
    requires v.maxAttempts == w.maxAttempts && v.memo == w.memo && v.workers == w.workers[k := x]
    requires Conserved(v.store.stock, v.sold, v.supplied) && RowsOk(v.store) && Grown(w.store.orders, v.store.orders)
    requires WorkerOk(v.store.orders, Attempts(v.maxAttempts), x)
    requires x.Row().Some? ==> forall j :: j in w.workers && j != k ==> w.workers[j].Row() != x.Row()
    requires v.cancels == w.cancels && v.changes == w.changes
    ensures Base(v)
  {
    GrowthKeepsCrew(w.store.orders, v.store.orders, Attempts(w.maxAttempts), w.workers);
    AdvanceKeepsCrew(v.store.orders, Attempts(w.maxAttempts), w.workers, k, x);
    GrowthKeepsReadings(w.store.orders, v.store.orders, w.cancels);
    GrowthKeepsReadings(w.store.orders, v.store.orders, w.changes);
  }

  /** The same for the steps of cancellations and status changes, which touch no worker. */
  lemma ReaderPartsMakeBase(w: World, v: World)
    requires Base(w)
    requires v.maxAttempts == w.maxAttempts && v.memo == w.memo && v.workers == w.workers
    requires v.sold == w.sold && v.supplied == w.supplied && Conserved(v.store.stock, w.sold, w.supplied)
    requires RowsOk(v.store) && Grown(w.store.orders, v.store.orders)
    requires forall c :: c in v.cancels ==> c in w.cancels && v.cancels[c] == w.cancels[c]
    requires forall c :: c in v.changes ==> c in w.changes && v.changes[c] == w.changes[c]
    ensures Base(v)
  {
    GrowthKeepsCrew(w.store.orders, v.store.orders, Attempts(w.maxAttempts), w.workers);
    GrowthKeepsReadings(w.store.orders, v.store.orders, w.cancels);
    GrowthKeepsReadings(w.store.orders, v.store.orders, w.changes);
  }

  /** Transaction one of worker k has committed in w and led to v. */
  ghost predicate ReserveCommitted(w: World, k: nat, id: nat, v: World)
  {
    && k in w.workers && id !in w.store.orders && id != 0
    && var o := w.workers[k].order;
    && o.items != [] && PositiveLines(o.items) && o.key != "" && o.status == Pending
    && !KeyTaken(w.store.orders, o.key) && Covers(Reserve, w.store.stock, o.items)
    && StockMoved(Reserve, w.store.stock, o.items, v.store.stock)
    && v.store.orders == w.store.orders[id := o.(status := Reserved)] && v.store.payments == w.store.payments
    && v.workers == w.workers[k := Worker(o.(status := Reserved),
         if o.total.amount == 0 then Over(Some(id), Some(Unpaid(Validation)))
         else Charging(P.PaymentData(id, o.key, o.total, P.Pending, "", "", 0, "")))]
    && v == w.(store := v.store, workers := v.workers)
  }

  lemma ReserveStep(w: World, k: nat, id: nat)
    requires Base(w) && Enabled(w, Place(k, id))
    ensures var v := AfterReserve(w, k, id);
            if ReserveTx(w.store, id, w.workers[k].order).Ok? then ReserveCommitted(w, k, id, v)
            else v == Advance(w, k, v.workers[k].phase) && v.workers[k].phase.Over? && v.workers[k].Row().None?
  {
    var x := w.workers[k];
    assert WorkerOk(w.store.orders, Attempts(w.maxAttempts), x);
    ReserveTxExact(w.store, id, x.order);
    ReserveOutcome(w, k, id);
  }

  /** The step in terms of the transaction. */
  lemma ReserveOutcome(w: World, k: nat, id: nat)
    requires Enabled(w, Place(k, id))
    ensures var o := w.workers[k].order;
            var tx := ReserveTx(w.store, id, o);
            var v := AfterReserve(w, k, id);
            if tx.Ok? then
              v == w.(store := tx.value, workers := w.workers[k := Worker(o.(status := Reserved),
                match P.NewPaymentData(id, o.key, o.total)
                case Err(e) => Over(Some(id), Some(Unpaid(e)))
                case Ok(pay) => Charging(pay))])
            else v == Advance(w, k, Over(None, Some(Rejected(tx.error))))
  {
  }

  lemma ReservedKeepsBase(w: World, k: nat, id: nat, v: World)
    requires Base(w) && ReserveCommitted(w, k, id, v)
    ensures Base(v)
  {
    var o := w.workers[k].order;
    MoveConserves(Reserve, w.store.stock, o.items, v.store.stock, w.sold, w.supplied);
    NewRowKeepsRows(w.store, id, o.(status := Reserved));
    assert v.store == w.store.(orders := v.store.orders, stock := v.store.stock);
    PartsMakeBase(w, v, k, v.workers[k]);
  }

  /** Worker k has moved on without touching the database. */
  lemma AdvanceKeepsBase(w: World, k: nat, phase: Phase)
    requires Base(w) && k in w.workers
    requires PhaseOk(w.workers[k].(phase := phase), Attempts(w.maxAttempts))
    requires Worker(w.workers[k].order, phase).Row().None?
          || Worker(w.workers[k].order, phase).Row() == w.workers[k].Row()
    ensures Base(Advance(w, k, phase))
  {
    assert WorkerOk(w.store.orders, Attempts(w.maxAttempts), w.workers[k]);
    PartsMakeBase(w, Advance(w, k, phase), k, w.workers[k].(phase := phase));
  }

  /** Transaction two of worker k has committed in w and led to v. */
  ghost predicate SettleCommitted(w: World, k: nat, v: World)
  {
    && k in w.workers && w.workers[k].phase.Settling?
    && var x := w.workers[k];
    && var pay, charge := x.phase.pay, x.phase.charge;
    && var id := pay.orderId;
    && id in w.store.orders && SameOrder(w.store.orders[id], x.order)
    && PositiveLines(x.order.items) && Charges(x.order, pay) && Answered(charge)
    && Covers(SettleOp(charge), w.store.stock, x.order.items)
    && StockMoved(SettleOp(charge), w.store.stock, x.order.items, v.store.stock)
    && v.store.orders == UpdateOrder(w.store, id, SettledOrder(x.order, charge)).orders
    && v.store.payments == w.store.payments[id := SettledPayment(pay, charge)]
    && v.sold == (if charge.Charged? then AddLines(w.sold, w.store.stock, x.order.items) else w.sold)
    && v.workers == w.workers[k := Worker(x.order,
         Over(Some(id), Some(if charge.Charged? then Completed else PaymentDeclined)))]
    && v == w.(store := v.store, workers := v.workers, sold := v.sold)
  }

  /** Transaction two of worker k commits exactly when no payment and no guard stands in its way. */
  ghost predicate CanSettle(w: World, k: nat)
    requires k in w.workers && w.workers[k].phase.Settling?
  {
    SettleAllowed(w.store, w.workers[k].order, w.workers[k].phase.pay, w.workers[k].phase.charge)
  }

  lemma SettleStep(w: World, k: nat)
    requires Base(w) && Enabled(w, Settle(k))
    ensures var v := AfterSettle(w, k);
            if CanSettle(w, k) then SettleCommitted(w, k, v)
            else
              && v == Advance(w, k, v.workers[k].phase) && v.workers[k].phase.Over?
              && v.workers[k].Row() == w.workers[k].Row()
  {
    var x := w.workers[k];
    assert WorkerOk(w.store.orders, Attempts(w.maxAttempts), x);
    SettleTxExact(w.store, x.phase.pay.orderId, x.order, x.phase.pay, x.phase.charge);
    assert CanSettle(w, k) <==> SettleTx(w.store, x.phase.pay.orderId, x.order, x.phase.pay, x.phase.charge).Ok?;
    SettleOutcome(w, k);
    if CanSettle(w, k) {
      CommitIsSettle(w, k, AfterSettle(w, k));
    }
  }

  lemma CommitIsSettle(w: World, k: nat, v: World)
    requires Enabled(w, Settle(k)) && CanSettle(w, k) && WorkerOk(w.store.orders, Attempts(w.maxAttempts), w.workers[k])
    requires var x := w.workers[k];
             var tx := SettleTx(w.store, x.phase.pay.orderId, x.order, x.phase.pay, x.phase.charge);
             tx.Ok? && v == w.(store := tx.value,
               sold := if x.phase.charge.Charged? then AddLines(w.sold, w.store.stock, x.order.items) else w.sold,
               workers := w.workers[k := Worker(x.order, Over(Some(x.phase.pay.orderId),
                 Some(if x.phase.charge.Charged? then Completed else PaymentDeclined)))])
    ensures SettleCommitted(w, k, v)
  {
    var x := w.workers[k];
    SettleTxExact(w.store, x.phase.pay.orderId, x.order, x.phase.pay, x.phase.charge);
  }

  /** The step in terms of the transaction. */
  lemma SettleOutcome(w: World, k: nat)
    requires Enabled(w, Settle(k))
    ensures var x := w.workers[k];
            var tx := SettleTx(w.store, x.phase.pay.orderId, x.order, x.phase.pay, x.phase.charge);
            var v := AfterSettle(w, k);
            if tx.Ok? then
              v == w.(store := tx.value,
                      sold := if x.phase.charge.Charged? then AddLines(w.sold, w.store.stock, x.order.items)
                              else w.sold,
                      workers := w.workers[k := Worker(x.order, Over(Some(x.phase.pay.orderId),
                        Some(if x.phase.charge.Charged? then Completed else PaymentDeclined)))])
            else v == Advance(w, k, Over(Some(x.phase.pay.orderId), Some(Unsettled(tx.error))))
  {
  }

  lemma SettledKeepsBase(w: World, k: nat, v: World)
    requires Base(w) && SettleCommitted(w, k, v)
    ensures Base(v)
  {
    var x := w.workers[k];
    var pay, charge := x.phase.pay, x.phase.charge;
    MoveConserves(SettleOp(charge), w.store.stock, x.order.items, v.store.stock, w.sold, w.supplied);
    UpdateKeepsRows(w.store, pay.orderId, SettledOrder(x.order, charge));
    assert RowsOk(v.store);
    PartsMakeBase(w, v, k, v.workers[k]);
  }

  /** The cancelling transaction of reading c has committed in w and led to v. */
  ghost predicate CancelCommitted(w: World, c: nat, v: World)
  {
    && c in w.cancels
    && var id, o := w.cancels[c].id, w.cancels[c].order;
    && id in w.store.orders && SameOrder(w.store.orders[id], o) && PositiveLines(o.items) && o.status.CanCancel()
    && (if o.status == Pending then v.store.stock == w.store.stock
        else Covers(Release, w.store.stock, o.items)
             && StockMoved(Release, w.store.stock, o.items, v.store.stock))
    && v.store.orders == UpdateOrder(w.store, id, o.(status := Cancelled)).orders
    && (o.status == Paid ==> id in w.store.payments && w.store.payments[id].status == P.Succeeded)
    && v.store.payments == (if o.status == Paid
         then w.store.payments[id := w.store.payments[id].(status := P.Refunded)] else w.store.payments)
    && v == w.(store := v.store, cancels := w.cancels - {c})
  }

  lemma CancelStep(w: World, c: nat, reason: string)
    requires Base(w) && Enabled(w, CancelRead(c, reason))
    ensures var v := AfterCancel(w, c, reason);
            CancelCommitted(w, c, v) || v == w.(cancels := w.cancels - {c})
    ensures var v := AfterCancel(w, c, reason);
            CancelTx(w.store, w.cancels[c].id, w.cancels[c].order, reason).Ok? ==> CancelCommitted(w, c, v)
  {
    CancelTxExact(w.store, w.cancels[c].id, w.cancels[c].order, reason);
  }

  lemma CancelledKeepsBase(w: World, c: nat, v: World)
    requires Base(w) && CancelCommitted(w, c, v)
    ensures Base(v)
  {
    var read := w.cancels[c];
    if read.order.status != Pending {
      MoveConserves(Release, w.store.stock, read.order.items, v.store.stock, w.sold, w.supplied);
    }
    UpdateKeepsRows(w.store, read.id, read.order.(status := Cancelled));
    assert RowsOk(v.store);
    ReaderPartsMakeBase(w, v);
  }

  lemma DropKeepsBase(w: World, cancels: map<nat, Reading>, changes: map<nat, Reading>)
    requires Base(w)
    requires forall c :: c in cancels ==> c in w.cancels && cancels[c] == w.cancels[c]
    requires forall c :: c in changes ==> c in w.changes && changes[c] == w.changes[c]
    ensures Base(w.(cancels := cancels, changes := changes))
  {
  }

  lemma CancelKeepsBase(w: World, c: nat, reason: string)
    requires Base(w) && Enabled(w, CancelRead(c, reason))
    ensures Base(AfterCancel(w, c, reason))
  {
    CancelStep(w, c, reason);
    if CancelCommitted(w, c, AfterCancel(w, c, reason)) {
      CancelledKeepsBase(w, c, AfterCancel(w, c, reason));
    } else {
      DropKeepsBase(w, w.cancels - {c}, w.changes);
    }
  }

  /** The order with the given status and reason has been written back to its row. */
  lemma ChangedKeepsBase(w: World, c: nat, o: OrderData, v: World)
    requires Base(w) && c in w.changes && SameOrder(w.changes[c].order, o) && o.status != Pending
    requires v == w.(store := UpdateOrder(w.store, w.changes[c].id, o), changes := w.changes - {c})
    ensures Base(v)
  {
    UpdateKeepsRows(w.store, w.changes[c].id, o);
    ReaderPartsMakeBase(w, v);
  }

  /** The step in terms of the transaction: an accepted status change writes the moved order back. */
  lemma ChangeOutcome(w: World, c: nat, target: Status) returns (o: OrderData)
    requires Enabled(w, ChangeRead(c, target))
    requires StatusTx(w.store, w.changes[c].id, w.changes[c].order, target).Ok?
    ensures SameOrder(w.changes[c].order, o) && o.status != Pending
    ensures AfterChange(w, c, target)
         == w.(store := UpdateOrder(w.store, w.changes[c].id, o), changes := w.changes - {c})
  {
    o := MoveData(w.changes[c].order, StatusMove(target).value).value;
  }

  lemma ChangeKeepsBase(w: World, c: nat, target: Status)
    requires Base(w) && Enabled(w, ChangeRead(c, target))
    ensures Base(AfterChange(w, c, target))
  {
    var read := w.changes[c];
    if StatusTx(w.store, read.id, read.order, target).Ok? {
      var o := ChangeOutcome(w, c, target);
      ChangedKeepsBase(w, c, o, AfterChange(w, c, target));
    } else {
      DropKeepsBase(w, w.cancels, w.changes - {c});
    }
  }

  lemma EndChargeKeepsBase(w: World, k: nat, reply: Reply)
    requires Base(w) && Enabled(w, EndCharge(k, reply))
    ensures Base(AfterEndCharge(w, k, reply))
  {
    assert WorkerOk(w.store.orders, Attempts(w.maxAttempts), w.workers[k]);
    var v := AfterEndCharge(w, k, reply);
    AdvanceKeepsBase(w, k, v.workers[k].phase);
    assert v == Advance(w, k, v.workers[k].phase).(memo := v.memo);
  }

  lemma ReserveKeepsBase(w: World, k: nat, id: nat)
    requires Base(w) && Enabled(w, Place(k, id))
    ensures Base(AfterReserve(w, k, id))
  {
    ReserveStep(w, k, id);
    if ReserveCommitted(w, k, id, AfterReserve(w, k, id)) {
      ReservedKeepsBase(w, k, id, AfterReserve(w, k, id));
    } else {
      AdvanceKeepsBase(w, k, AfterReserve(w, k, id).workers[k].phase);
    }
  }

  lemma SettleKeepsBase(w: World, k: nat)
    requires Base(w) && Enabled(w, Settle(k))
    ensures Base(AfterSettle(w, k))
  {
    SettleStep(w, k);
    if CanSettle(w, k) {
      SettledKeepsBase(w, k, AfterSettle(w, k));
    } else {
      AdvanceKeepsBase(w, k, AfterSettle(w, k).workers[k].phase);
    }
  }

  lemma BeginChargeKeepsBase(w: World, k: nat)
    requires Base(w) && Enabled(w, BeginCharge(k))
    ensures Base(AfterBeginCharge(w, k))
  {
    assert WorkerOk(w.store.orders, Attempts(w.maxAttempts), w.workers[k]);
    AdvanceKeepsBase(w, k, AfterBeginCharge(w, k).workers[k].phase);
  }

  lemma WorkerStepKeepsBase(w: World, a: Action)
    requires Base(w) && Enabled(w, a)
    requires a.Place? || a.BeginCharge? || a.EndCharge? || a.Settle? || a.Abort?
    ensures Base(Apply(w, a))
  {
    if a.Place? {
      ReserveKeepsBase(w, a.w, a.id);
    } else if a.BeginCharge? {
      BeginChargeKeepsBase(w, a.w);
    } else if a.EndCharge? {
      EndChargeKeepsBase(w, a.w, a.reply);
    } else if a.Settle? {
      SettleKeepsBase(w, a.w);
    } else {
      AdvanceKeepsBase(w, a.w, Over(w.workers[a.w].Row(), None));
    }
  }

  lemma SubmitKeepsBase(w: World, k: nat, o: OrderData)
    requires Base(w) && Placeable(o)
    requires k !in w.workers
    ensures Base(w.(workers := w.workers[k := Worker(o, Queued)]))
  {
    PartsMakeBase(w, w.(workers := w.workers[k := Worker(o, Queued)]), k, Worker(o, Queued));
  }

  lemma SupplyKeepsBase(w: World, p: nat, units: int, row: Row)
    requires Base(w) && units >= 0
    requires p in w.store.stock ==>
               row.available == w.store.stock[p].available + units && row.reserved == w.store.stock[p].reserved
    requires p !in w.store.stock ==> row.available == units && row.reserved == 0
    ensures Base(Supply(w, p, units, row))
  {
    SupplyConserves(w.store.stock, w.sold, w.supplied, p, units, row);
  }

  lemma SupplyConserves(stock: map<nat, Row>, sold: map<nat, int>, supplied: map<nat, int>, p: nat, units: int,
                        row: Row)
    requires Conserved(stock, sold, supplied) && units >= 0
    requires p in stock ==> row.available == stock[p].available + units && row.reserved == stock[p].reserved
    requires p !in stock ==> row.available == units && row.reserved == 0
    ensures Conserved(stock[p := row], sold, supplied[p := Count(supplied, p) + units])
  {
  }

  lemma ReadKeepsBase(w: World, c: nat, id: nat)
    requires Base(w) && id in w.store.orders
    ensures Base(w.(cancels := w.cancels[c := Reading(id, w.store.orders[id])]))
    ensures Base(w.(changes := w.changes[c := Reading(id, w.store.orders[id])]))
  {
    ReadingAdded(w.store.orders, w.cancels, c, id);
    ReadingAdded(w.store.orders, w.changes, c, id);
  }

  lemma ReadingAdded(orders: map<nat, OrderData>, readings: map<nat, Reading>, c: nat, id: nat)
    requires ReadingsOk(orders, readings) && id in orders
    ensures ReadingsOk(orders, readings[c := Reading(id, orders[id])])
  {
  }

  lemma SupplyStepKeepsBase(w: World, a: Action)
    requires Base(w) && Enabled(w, a) && (a.AddProduct? || a.RestockProduct?)
    ensures Base(Apply(w, a))
  {
    var row := if a.AddProduct? then Row(a.units, 0, 0) else RowStep(Restock, w.store.stock[a.p], a.units).value;
    assert Apply(w, a) == Supply(w, a.p, a.units, row);
    SupplyKeepsBase(w, a.p, a.units, row);
  }

  lemma ReaderStepKeepsBase(w: World, a: Action)
    requires Base(w) && Enabled(w, a)
    requires a.ReadForCancel? || a.CancelRead? || a.DropCancel? || a.ReadForChange? || a.ChangeRead?
    ensures Base(Apply(w, a))
  {
    if a.CancelRead? {
      CancelKeepsBase(w, a.c, a.reason);
    } else if a.ChangeRead? {
      ChangeKeepsBase(w, a.c, a.target);
    } else if a.DropCancel? {
      DropKeepsBase(w, w.cancels - {a.c}, w.changes);
    } else {
      ReadKeepsBase(w, a.c, a.id);
    }
  }

  lemma StepKeepsBase(w: World, a: Action)
    requires Base(w) && Enabled(w, a)
    ensures Base(Apply(w, a))
  {
    if a.Submit? {
      SubmitKeepsBase(w, a.w, a.order);
    } else if a.AddProduct? || a.RestockProduct? {
      SupplyStepKeepsBase(w, a);
    } else if a.Place? || a.BeginCharge? || a.EndCharge? || a.Settle? || a.Abort? {
      WorkerStepKeepsBase(w, a);
    } else {
      ReaderStepKeepsBase(w, a);
    }
  }

  lemma {:induction false} RunsKeepBase(w: World, actions: seq<Action>, v: World)
    requires Base(w) && Runs(w, actions, v)
    ensures Base(v)
    decreases |actions|
  {
    if actions != [] {
      StepKeepsBase(w, actions[0]);
      RunsKeepBase(Apply(w, actions[0]), actions[1..], v);
    }
  }

  /** In every reachable world each product's units add up, so no more are sold than were supplied. */
  lemma UnitsAreConserved(w: World, actions: seq<Action>, v: World)
    requires Initial(w) && Runs(w, actions, v)
    ensures forall p :: p in v.store.stock ==>
              && v.store.stock[p].available >= 0 && v.store.stock[p].reserved >= 0
              && v.store.stock[p].available + v.store.stock[p].reserved + Count(v.sold, p) == Count(v.supplied, p)
    ensures forall p :: 0 <= Count(v.sold, p) <= Count(v.supplied, p)
  {
    RunsKeepBase(w, actions, v);
  }

  /**
    The assumption under which ProcessOutcomes is stated holds in every reachable world, and no
    committed order is ever pending.
   */
  lemma StoresAreSound(w: World, actions: seq<Action>, v: World)
    requires Initial(w) && Runs(w, actions, v)
    ensures Sound(v.store)
    ensures forall i :: i in v.store.orders ==> v.store.orders[i].status != Pending
  {
    RunsKeepBase(w, actions, v);
  }

  /** At most one worker per idempotency key ever commits transaction one, however requests race. */
  lemma OneWorkerPerKey(w: World, actions: seq<Action>, v: World, j: nat, k: nat)
    requires Initial(w) && Runs(w, actions, v)
    requires j in v.workers && v.workers[j].Row().Some?
    requires k in v.workers && v.workers[k].Row().Some?
    requires v.workers[j].order.key == v.workers[k].order.key
    ensures j == k
  {
    RunsKeepBase(w, actions, v);
  }
}
