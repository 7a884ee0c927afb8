/**
  Charged exactly when fulfilled: the half that needs a condition. In a disciplined run every charge
  is that of a fulfilled order, or is about to be settled by its worker, iff no worker was stopped
  between its charge and transaction two. A charge whose worker was stopped there stays orphaned.
 */
module ChargedOrders {
  import opened Results
  import opened Inventories
  import opened Orders
  import opened Gateways
  import opened Stores
  import opened PlaceOrders
  import opened Protocol
  import opened Conservation
  import opened Ledger
  import P = Payments

  /** The worker has charged for order i and is about to run transaction two. */
  predicate Carries(x: Worker, i: nat)
  {
    x.phase.Settling? && x.phase.charge.Charged? && x.phase.pay.orderId == i
  }

  ghost predicate InHand(workers: map<nat, Worker>, i: nat)
  {
    exists k :: k in workers && Carries(workers[k], i)
  }

  /** The charge under this key is that of a fulfilled order, or of one that its worker will settle. */
  ghost predicate Tended(orders: map<nat, OrderData>, workers: map<nat, Worker>, key: string)
  {
    exists i :: i in orders && orders[i].key == key && (orders[i].status == Fulfilled || InHand(workers, i))
  }

  ghost predicate ChargesTended(w: World)
  {
    forall key :: key in w.memo ==> Tended(w.store.orders, w.workers, key)
  }

  /** The action stops a worker between its charge and transaction two. */
  predicate Drops(w: World, a: Action)
  {
    && a.Abort? && a.w in w.workers
    && w.workers[a.w].phase.Settling? && w.workers[a.w].phase.charge.Charged?
  }

  ghost predicate NoneDropped(w: World, actions: seq<Action>)
    decreases |actions|
  {
    actions == []
    || (!Drops(w, actions[0]) && (Enabled(w, actions[0]) ==> NoneDropped(Apply(w, actions[0]), actions[1..])))
  }

  // ---------- Charges that stay tended ----------

  ghost predicate StaysFulfilled(before: map<nat, OrderData>, after: map<nat, OrderData>)
  {
    && Grown(before, after)
    && forall i :: i in before && before[i].status == Fulfilled ==> after[i].status == Fulfilled
  }

  /** The charge for order i is still in the worker's hands, or the order is fulfilled now. */
  predicate Onward(orders: map<nat, OrderData>, x: Worker, i: nat)
  {
    Carries(x, i) || (i in orders && orders[i].status == Fulfilled)
  }

  /** Fulfilled orders stay fulfilled, and every charge in hand stays there or becomes a fulfilled order. */
  ghost predicate KeepsTending(orders: map<nat, OrderData>, workers: map<nat, Worker>,
                               orders': map<nat, OrderData>, workers': map<nat, Worker>)
  {
    && StaysFulfilled(orders, orders')
    && forall k, i :: k in workers && Carries(workers[k], i) ==> k in workers' && Onward(orders', workers'[k], i)
  }

  lemma TendedCarriesOver(orders: map<nat, OrderData>, workers: map<nat, Worker>,
                          orders': map<nat, OrderData>, workers': map<nat, Worker>, key: string)
    requires Tended(orders, workers, key) && KeepsTending(orders, workers, orders', workers')
    ensures Tended(orders', workers', key)
  {
    var i :| i in orders && orders[i].key == key && (orders[i].status == Fulfilled || InHand(workers, i));
    assert i in orders' && orders'[i].key == key;
    if orders[i].status != Fulfilled && orders'[i].status != Fulfilled {
      var k :| k in workers && Carries(workers[k], i);
      assert k in workers' && Carries(workers'[k], i);
    }
  }

  lemma OneWorkerMoves(orders: map<nat, OrderData>, workers: map<nat, Worker>, orders': map<nat, OrderData>,
                       k: nat, x: Worker)
    requires StaysFulfilled(orders, orders')
    requires forall i :: k in workers && Carries(workers[k], i) ==> Onward(orders', x, i)
    ensures KeepsTending(orders, workers, orders', workers[k := x])
  {
  }

  lemma ReserveKeepsTending(w: World, k: nat, id: nat)
    requires Enabled(w, Place(k, id))
    ensures var v := AfterReserve(w, k, id);
            v.memo == w.memo && KeepsTending(w.store.orders, w.workers, v.store.orders, v.workers)
  {
    var v := AfterReserve(w, k, id);
    ReserveRow(w, k, id);
    OneWorkerMoves(w.store.orders, w.workers, v.store.orders, k, v.workers[k]);
  }

  /** Transaction one moves one queued worker, and adds a row or leaves the rows alone. */
  lemma ReserveRow(w: World, k: nat, id: nat)
    requires Enabled(w, Place(k, id))
    ensures var v := AfterReserve(w, k, id);
            && k in v.workers && v.workers == w.workers[k := v.workers[k]]
            && v.memo == w.memo && v.cancels == w.cancels
            && (v.workers[k].Row().Some? ==> v.workers[k].Row() == Some(id))
            && v.store.orders.Keys >= w.store.orders.Keys
            && forall i :: i in w.store.orders ==> v.store.orders[i] == w.store.orders[i]
  {
    ReserveOutcome(w, k, id);
    var o := w.workers[k].order;
    if ReserveTx(w.store, id, o).Ok? {
      ReservedRows(w.store, id, o);
    }
  }

  lemma ReservedRows(s: Store, id: nat, o: OrderData)
    requires ReserveTx(s, id, o).Ok? && id !in s.orders
    ensures ReserveTx(s, id, o).value.orders.Keys >= s.orders.Keys
    ensures forall i :: i in s.orders ==> ReserveTx(s, id, o).value.orders[i] == s.orders[i]
  {
  }

  lemma SettleKeepsTending(w: World, k: nat)
    requires Strong(w) && Enabled(w, Settle(k))
    ensures var v := AfterSettle(w, k);
            v.memo == w.memo && KeepsTending(w.store.orders, w.workers, v.store.orders, v.workers)
  {
    SettleIsNeverRefused(w, k);
    SettleStep(w, k);
    var v := AfterSettle(w, k);
    assert LiveOk(w.store.orders, w.memo, w.workers[k]);
    SettledRows(w, k, v);
    OneWorkerMoves(w.store.orders, w.workers, v.store.orders, k, v.workers[k]);
  }

  /** A committed transaction two rewrites its own row only. */
  lemma SettledRows(w: World, k: nat, v: World)
    requires RowsOk(w.store) && SettleCommitted(w, k, v)
    requires w.store.orders[w.workers[k].phase.pay.orderId].status == Reserved
    ensures StaysFulfilled(w.store.orders, v.store.orders)
    ensures forall i :: i in w.store.orders && i != w.workers[k].phase.pay.orderId ==>
              i in v.store.orders && v.store.orders[i] == w.store.orders[i]
    ensures forall i :: Carries(w.workers[k], i) ==> i in v.store.orders && v.store.orders[i].status == Fulfilled
    ensures k in v.workers && v.workers == w.workers[k := v.workers[k]] && !v.workers[k].Live()
    ensures v.memo == w.memo && v.cancels == w.cancels
  {
    UpdateKeepsRows(w.store, w.workers[k].phase.pay.orderId,
                    SettledOrder(w.workers[k].order, w.workers[k].phase.charge));
  }

  lemma CancelKeepsTending(w: World, c: nat, reason: string)
    requires Strong(w) && Enabled(w, CancelRead(c, reason))
    ensures var v := AfterCancel(w, c, reason);
            v.memo == w.memo && KeepsTending(w.store.orders, w.workers, v.store.orders, v.workers)
  {
    var v := AfterCancel(w, c, reason);
    CancelStep(w, c, reason);
    if CancelCommitted(w, c, v) {
      CancelledWasReserved(w, c, v);
      CancelledKeepsTending(w, c, v);
    }
  }

  lemma CancelledKeepsTending(w: World, c: nat, v: World)
    requires RowsOk(w.store) && CancelCommitted(w, c, v) && w.store.orders[w.cancels[c].id].status == Reserved
    ensures v.memo == w.memo && KeepsTending(w.store.orders, w.workers, v.store.orders, v.workers)
  {
    CancelledRows(w, c, v);
    RowsMove(w.store.orders, v.store.orders, w.cancels[c].id, w.workers);
  }

  /** One order row that is not fulfilled is rewritten, and no worker moves. */
  lemma RowsMove(orders: map<nat, OrderData>, orders': map<nat, OrderData>, id: nat, workers: map<nat, Worker>)
    requires Grown(orders, orders') && id in orders && orders[id].status != Fulfilled
    requires forall i :: i in orders && i != id ==> orders'[i] == orders[i]
    ensures KeepsTending(orders, workers, orders', workers)
  {
  }

  lemma CancelledWasReserved(w: World, c: nat, v: World)
    requires Agreed(w) && CancelCommitted(w, c, v)
    ensures w.store.orders[w.cancels[c].id].status == Reserved
  {
    var id := w.cancels[c].id;
    assert RowSettled(w.store.payments, w.memo, Attempts(w.maxAttempts), id, w.store.orders[id]);
  }

  /** A committed cancellation rewrites its own row only. */
  lemma CancelledRows(w: World, c: nat, v: World)
    requires RowsOk(w.store) && CancelCommitted(w, c, v)
    ensures forall i :: i in w.store.orders && i != w.cancels[c].id ==>
              i in v.store.orders && v.store.orders[i] == w.store.orders[i]
    ensures w.cancels[c].id in v.store.orders && v.store.orders[w.cancels[c].id].status == Cancelled
    ensures Grown(w.store.orders, v.store.orders) && v.workers == w.workers && v.memo == w.memo
  {
    UpdateKeepsRows(w.store, w.cancels[c].id, w.cancels[c].order.(status := Cancelled));
  }

  /** A worker without a charge in hand takes up another phase. */
  lemma AdvanceKeepsTending(orders: map<nat, OrderData>, workers: map<nat, Worker>, k: nat, x: Worker)
    requires k in workers ==> !(workers[k].phase.Settling? && workers[k].phase.charge.Charged?)
    ensures KeepsTending(orders, workers, orders, workers[k := x])
  {
    OneWorkerMoves(orders, workers, orders, k, x);
  }

  lemma EndChargeKeepsTended(w: World, k: nat, reply: Reply)
    requires Strong(w) && ChargesTended(w) && Enabled(w, EndCharge(k, reply))
    ensures ChargesTended(AfterEndCharge(w, k, reply))
  {
    var v := AfterEndCharge(w, k, reply);
    EndChargeEffect(w, k, reply);
    AdvanceKeepsTending(w.store.orders, w.workers, k, v.workers[k]);
    forall key | key in v.memo ensures Tended(v.store.orders, v.workers, key) {
      if key in w.memo {
        TendedCarriesOver(w.store.orders, w.workers, v.store.orders, v.workers, key);
      } else {
        assert Carries(v.workers[k], w.workers[k].phase.pay.orderId);
      }
    }
  }

  /** A key that enters the memo is that of the calling worker's order, and the charge is in its hands. */
  lemma EndChargeEffect(w: World, k: nat, reply: Reply)
    requires Strong(w) && Enabled(w, EndCharge(k, reply))
    ensures var v := AfterEndCharge(w, k, reply);
            var id := w.workers[k].phase.pay.orderId;
            && v.store == w.store && k in v.workers && v.workers == w.workers[k := v.workers[k]]
            && forall key :: key in v.memo && key !in w.memo ==>
                 id in w.store.orders && w.store.orders[id].key == key && Carries(v.workers[k], id)
  {
    assert WorkerOk(w.store.orders, Attempts(w.maxAttempts), w.workers[k]);
  }

  /** Every disciplined step but a drop leaves all charges tended. */
  lemma StepKeepsTended(w: World, a: Action)
    requires Strong(w) && ChargesTended(w) && Enabled(w, a) && Disciplined(w, a) && !Drops(w, a)
    ensures ChargesTended(Apply(w, a))
  {
    if a.EndCharge? {
      EndChargeKeepsTended(w, a.w, a.reply);
    } else {
      var v := Apply(w, a);
      QuietStepKeepsTending(w, a, v);
      forall key | key in v.memo ensures Tended(v.store.orders, v.workers, key) {
        TendedCarriesOver(w.store.orders, w.workers, v.store.orders, v.workers, key);
      }
    }
  }

  lemma QuietStepKeepsTending(w: World, a: Action, v: World)
    requires Strong(w) && Enabled(w, a) && Disciplined(w, a) && !Drops(w, a) && !a.EndCharge? && v == Apply(w, a)
    ensures v.memo == w.memo && KeepsTending(w.store.orders, w.workers, v.store.orders, v.workers)
  {
    if a.Place? {
      ReserveKeepsTending(w, a.w, a.id);
    } else if a.Settle? {
      SettleKeepsTending(w, a.w);
    } else if a.CancelRead? {
      CancelKeepsTending(w, a.c, a.reason);
    } else {
      RowsAsBefore(w, a);
      if a.BeginCharge? || a.Abort? || a.Submit? {
        AdvanceKeepsTending(w.store.orders, w.workers, a.w, v.workers[a.w]);
      }
    }
  }

  /** The steps that write no order row. */
  lemma RowsAsBefore(w: World, a: Action)
    requires Enabled(w, a)
    requires !a.Place? && !a.Settle? && !a.CancelRead? && !a.ChangeRead? && !a.EndCharge?
    ensures var v := Apply(w, a);
            && v.memo == w.memo && v.store.orders == w.store.orders
            && if a.BeginCharge? || a.Abort? || a.Submit? then
                 && a.w in v.workers && v.workers == w.workers[a.w := v.workers[a.w]]
                 && (a.Submit? ==> v.workers[a.w].Row().None?)
                 && (!a.Submit? ==> v.workers[a.w].Row() == w.workers[a.w].Row() && w.workers[a.w].Live())
               else v.workers == w.workers
  {
  }

  // ---------- Charges that are orphaned ----------

  /** Order i has been charged for, is not fulfilled, and has no worker any more. */
  ghost predicate Orphaned(w: World, i: nat)
  {
    && i in w.store.orders && (w.store.orders[i].status == Reserved || w.store.orders[i].status == Cancelled)
    && w.store.orders[i].key in w.memo && Unworked(w.workers, i)
  }

  lemma DropOrphans(w: World, k: nat)
    requires Strong(w) && Enabled(w, Abort(k)) && Drops(w, Abort(k))
    ensures Orphaned(Apply(w, Abort(k)), w.workers[k].phase.pay.orderId)
  {
    StoppedIsStrong(w, k);
    AbortEffect(w, k);
  }

  lemma AbortEffect(w: World, k: nat)
    requires Enabled(w, Abort(k)) && Drops(w, Abort(k))
    ensures Apply(w, Abort(k)) == Advance(w, k, Over(Some(w.workers[k].phase.pay.orderId), None))
  {
  }

  /** After its worker has stopped, an order with a charge is reserved, free of workers and not being cancelled. */
  lemma StoppedIsStrong(w: World, k: nat)
    requires Strong(w) && Drops(w, Abort(k))
    ensures var id := w.workers[k].phase.pay.orderId;
            var w1 := Advance(w, k, Over(Some(id), None));
            && Strong(w1) && Unworked(w1.workers, id)
            && id in w1.store.orders && w1.store.orders[id].status == Reserved && w1.store.orders[id].key in w1.memo
            && forall d :: d in w1.cancels ==> w1.cancels[d].id != id
  {
    var x := w.workers[k];
    var id := x.phase.pay.orderId;
    assert LiveOk(w.store.orders, w.memo, x);
    assert WorkerOk(w.store.orders, Attempts(w.maxAttempts), x);
    AdvanceKeepsStrong(w, k, Over(Some(id), None));
    assert forall d :: d in w.cancels ==> Unworked(w.workers, w.cancels[d].id);
    RowsApart(w, k);
  }

  lemma UnworkedAfterMove(workers: map<nat, Worker>, k: nat, x: Worker, i: nat)
    requires Unworked(workers, i) && (x.Live() ==> x.Row() != Some(i))
    ensures Unworked(workers[k := x], i)
  {
  }

  lemma OrphanOutlivesReserve(w: World, k: nat, id: nat, i: nat)
    requires Enabled(w, Place(k, id)) && Orphaned(w, i)
    ensures Orphaned(AfterReserve(w, k, id), i)
  {
    ReserveRow(w, k, id);
    UnworkedAfterMove(w.workers, k, AfterReserve(w, k, id).workers[k], i);
  }

  lemma OrphanOutlivesSettle(w: World, k: nat, i: nat)
    requires Strong(w) && Enabled(w, Settle(k)) && Orphaned(w, i)
    ensures Orphaned(AfterSettle(w, k), i)
  {
    var v := AfterSettle(w, k);
    SettleIsNeverRefused(w, k);
    SettleStep(w, k);
    assert LiveOk(w.store.orders, w.memo, w.workers[k]);
    SettledRows(w, k, v);
    UnworkedAfterMove(w.workers, k, v.workers[k], i);
  }

  lemma OrphanOutlivesCancel(w: World, c: nat, reason: string, i: nat)
    requires Base(w) && Enabled(w, CancelRead(c, reason)) && Orphaned(w, i)
    ensures Orphaned(AfterCancel(w, c, reason), i)
  {
    CancelStep(w, c, reason);
    if CancelCommitted(w, c, AfterCancel(w, c, reason)) {
      CancelledRows(w, c, AfterCancel(w, c, reason));
    }
  }

  lemma OrphanStays(w: World, a: Action, i: nat)
    requires Strong(w) && Enabled(w, a) && Disciplined(w, a) && Orphaned(w, i)
    ensures Orphaned(Apply(w, a), i)
  {
    if a.Place? {
      OrphanOutlivesReserve(w, a.w, a.id, i);
    } else if a.Settle? {
      OrphanOutlivesSettle(w, a.w, i);
    } else if a.CancelRead? {
      OrphanOutlivesCancel(w, a.c, a.reason, i);
    } else {
      OrphanOutlivesQuiet(w, a, i);
    }
  }

  lemma OrphanOutlivesQuiet(w: World, a: Action, i: nat)
    requires Strong(w) && Enabled(w, a) && Disciplined(w, a) && Orphaned(w, i)
    requires !a.Place? && !a.Settle? && !a.CancelRead?
    ensures Orphaned(Apply(w, a), i)
  {
    var v := Apply(w, a);
    if a.EndCharge? {
      EndChargeGrowsMemo(w, a.w, a.reply);
      UnworkedAfterMove(w.workers, a.w, v.workers[a.w], i);
    } else {
      RowsAsBefore(w, a);
      if a.BeginCharge? || a.Abort? || a.Submit? {
        UnworkedAfterMove(w.workers, a.w, v.workers[a.w], i);
      }
    }
  }

  lemma EndChargeGrowsMemo(w: World, k: nat, reply: Reply)
    requires Enabled(w, EndCharge(k, reply))
    ensures var v := AfterEndCharge(w, k, reply);
            && v.store == w.store && k in v.workers && v.workers == w.workers[k := v.workers[k]]
            && v.workers[k].Row() == w.workers[k].Row() && w.workers[k].Live()
            && forall key :: key in w.memo ==> key in v.memo
  {
  }

  lemma {:induction false} OrphanStaysForGood(w: World, actions: seq<Action>, v: World, i: nat)
    requires Strong(w) && DisciplinedRuns(w, actions, v) && Orphaned(w, i)
    ensures Orphaned(v, i) && Strong(v)
    decreases |actions|
  {
    if actions != [] {
      StepKeepsStrong(w, actions[0]);
      OrphanStays(w, actions[0], i);
      OrphanStaysForGood(Apply(w, actions[0]), actions[1..], v, i);
    }
  }

  lemma OrphanIsNotTended(w: World, i: nat)
    requires Base(w) && Orphaned(w, i)
    ensures !ChargesTended(w)
  {
    var key := w.store.orders[i].key;
    KeysApart(w.store.orders, i);
    assert !Tended(w.store.orders, w.workers, key);
  }

  // ---------- An orphaned charge can end up on a cancelled order ----------

  lemma ThreeSteps(w: World, a: Action, w1: World, b: Action, w2: World, c: Action, v: World)
    requires Enabled(w, a) && Disciplined(w, a) && w1 == Apply(w, a)
    requires Enabled(w1, b) && Disciplined(w1, b) && w2 == Apply(w1, b)
    requires Enabled(w2, c) && Disciplined(w2, c) && v == Apply(w2, c)
    ensures DisciplinedRuns(w, [a, b, c], v)
  {
    assert DisciplinedRuns(v, [], v);
    assert DisciplinedRuns(w2, [c], v);
    assert [b, c][1..] == [c];
    assert DisciplinedRuns(w1, [b, c], v);
    assert [a, b, c][1..] == [b, c];
  }

  /** The charge of order id has no payment row, and the order is cancelled. */
  predicate ChargeOrphaned(v: World, id: nat)
  {
    && id in v.store.orders && v.store.orders[id].status == Cancelled
    && id !in v.store.payments && v.store.orders[id].key in v.memo
  }

  lemma CancelOrphans(w: World, c: nat, reason: string)
    requires Strong(w) && c in w.cancels && w.cancels[c].order.status == Reserved
    requires w.cancels[c].order.key in w.memo
    ensures ChargeOrphaned(AfterCancel(w, c, reason), w.cancels[c].id)
  {
    var id, o := w.cancels[c].id, w.cancels[c].order;
    assert RowSettled(w.store.payments, w.memo, Attempts(w.maxAttempts), id, w.store.orders[id]);
    ReservedOrderIsHeld(w, id);
    CancelTxExact(w.store, id, o, reason);
    CancelStep(w, c, reason);
  }

  /**
    A worker that stops between its charge and transaction two leaves a charge that nothing settles:
    the order can then be cancelled, within the discipline, and the gateway keeps the charge while
    no payment row exists.
   */
  lemma StoppedChargeCanBeCancelled(w: World, k: nat, c: nat, reason: string)
    requires Strong(w) && Drops(w, Abort(k)) && c !in w.cancels
    ensures exists v ::
              && DisciplinedRuns(w, [Abort(k), ReadForCancel(c, w.workers[k].phase.pay.orderId),
                                     CancelRead(c, reason)], v)
              && ChargeOrphaned(v, w.workers[k].phase.pay.orderId)
  {
    var x := w.workers[k];
    var id := x.phase.pay.orderId;
    var w1 := Advance(w, k, Over(Some(id), None));
    StoppedIsStrong(w, k);
    var w2 := w1.(cancels := w1.cancels[c := Reading(id, w1.store.orders[id])]);
    ReadKeepsStrong(w1, c, id);
    CancelOrphans(w2, c, reason);
    ThreeSteps(w, Abort(k), w1, ReadForCancel(c, id), w2, CancelRead(c, reason), AfterCancel(w2, c, reason));
  }

  // ---------- The theorem ----------

  lemma {:induction false} TendedIffNoneDropped(w: World, actions: seq<Action>, v: World)
    requires Strong(w) && ChargesTended(w) && DisciplinedRuns(w, actions, v)
    ensures ChargesTended(v) <==> NoneDropped(w, actions)
    decreases |actions|
  {
    if actions != [] {
      StepKeepsStrong(w, actions[0]);
      if Drops(w, actions[0]) {
        DropOrphans(w, actions[0].w);
        var i := w.workers[actions[0].w].phase.pay.orderId;
        OrphanStaysForGood(Apply(w, actions[0]), actions[1..], v, i);
        OrphanIsNotTended(v, i);
      } else {
        StepKeepsTended(w, actions[0]);
        TendedIffNoneDropped(Apply(w, actions[0]), actions[1..], v);
      }
    }
  }

  /** The order under this key is fulfilled and paid, by the reference that the gateway stored. */
  ghost predicate FulfilledAndPaid(s: Store, memo: Memo, key: string)
  {
    exists i :: FulfilledRow(s, memo, key, i)
  }

  predicate FulfilledRow(s: Store, memo: Memo, key: string, i: nat)
  {
    && i in s.orders && s.orders[i].key == key && s.orders[i].status == Fulfilled
    && i in s.payments && s.payments[i].status == P.Succeeded && s.payments[i].amount == s.orders[i].total
    && key in memo && s.payments[i].providerRef == memo[key]
  }

  ghost predicate NobodyCarries(workers: map<nat, Worker>)
  {
    forall k :: k in workers ==> !(workers[k].phase.Settling? && workers[k].phase.charge.Charged?)
  }

  lemma TendedMeansFulfilled(w: World, key: string)
    requires Strong(w) && NobodyCarries(w.workers)
    ensures Tended(w.store.orders, w.workers, key) <==> FulfilledAndPaid(w.store, w.memo, key)
  {
    forall i | i in w.store.orders
      ensures RowSettled(w.store.payments, w.memo, Attempts(w.maxAttempts), i, w.store.orders[i])
    {
    }
    if Tended(w.store.orders, w.workers, key) {
      var i :| i in w.store.orders && w.store.orders[i].key == key
               && (w.store.orders[i].status == Fulfilled || InHand(w.workers, i));
      assert FulfilledRow(w.store, w.memo, key, i);
    }
  }

  /**
    Charged exactly when fulfilled. In every world that a disciplined run reaches, once no worker is
    between its charge and transaction two: the keys that have been charged are exactly those of
    fulfilled orders with their succeeded payment, iff the run never stopped a worker there.
   */
  lemma ChargedIffFulfilled(w: World, actions: seq<Action>, v: World)
    requires Initial(w) && DisciplinedRuns(w, actions, v)
    ensures ChargesTended(v) <==> NoneDropped(w, actions)
    ensures NobodyCarries(v.workers) ==>
              ((forall key :: key in v.memo <==> FulfilledAndPaid(v.store, v.memo, key)) <==> NoneDropped(w, actions))
  {
    InitialIsStrong(w);
    DisciplinedRunsKeepStrong(w, actions, v);
    TendedIffNoneDropped(w, actions, v);
    if NobodyCarries(v.workers) {
      forall key ensures Tended(v.store.orders, v.workers, key) <==> FulfilledAndPaid(v.store, v.memo, key) {
        TendedMeansFulfilled(v, key);
      }
    }
  }
}
