/**
  What holds in addition as long as cancellations do not overlap live work on the same order and
  nobody moves statuses by hand: stock, orders, payments and the gateway's memo agree.
 */
module Ledger {
  import opened Results
  import opened Inventories
  import opened Orders
  import opened Gateways
  import opened Stores
  import opened PlaceOrders
  import opened Protocol
  import opened Conservation
  import P = Payments

  function Held(stock: map<nat, Row>, p: nat): int
  {
    if p in stock then stock[p].reserved else 0
  }

  /** The reserved count of each product is what the reserved orders book of it. */
  ghost predicate Balanced(s: Store)
  {
    forall p: nat :: Held(s.stock, p) == Booked(s.orders, Reserved, p)
  }

  ghost predicate SalesBalanced(sold: map<nat, int>, orders: map<nat, OrderData>)
  {
    forall p: nat :: Count(sold, p) == Booked(orders, Fulfilled, p)
  }

  predicate PaymentFor(i: nat, o: OrderData, pay: P.PaymentData, attempts: nat)
  {
    && pay.orderId == i && pay.key == o.key && pay.amount == o.total && pay.provider == "mock"
    && 1 <= pay.attempts <= attempts
  }

  /** What the payments and the memo say about a committed order row. */
  predicate RowSettled(payments: map<nat, P.PaymentData>, memo: Memo, attempts: nat, i: nat, o: OrderData)
  {
    match o.status
    case Pending => false
    case Paid => false
    case Reserved => i !in payments
    case Cancelled => i !in payments
    case Fulfilled =>
      && i in payments && PaymentFor(i, o, payments[i], attempts) && payments[i].status == P.Succeeded
      && o.key in memo && payments[i].providerRef == memo[o.key]
    case Failed =>
      && i in payments && PaymentFor(i, o, payments[i], attempts) && payments[i].status == P.Failed
      && o.key !in memo
  }

  ghost predicate RowsSettled(orders: map<nat, OrderData>, payments: map<nat, P.PaymentData>, memo: Memo, attempts: nat)
  {
    forall i :: i in orders ==> RowSettled(payments, memo, attempts, i, orders[i])
  }

  /** A live worker past transaction one: its row is still reserved, and the memo fits its phase. */
  predicate LiveOk(orders: map<nat, OrderData>, memo: Memo, x: Worker)
  {
    x.Live() && x.Row().Some? ==>
      && x.Row().value in orders && orders[x.Row().value].status == Reserved
      && (if x.phase.Settling? && x.phase.charge.Charged?
          then x.order.key in memo && memo[x.order.key] == x.phase.charge.ref
          else x.order.key !in memo)
  }

  ghost predicate CrewLive(orders: map<nat, OrderData>, memo: Memo, workers: map<nat, Worker>)
  {
    forall k :: k in workers ==> LiveOk(orders, memo, workers[k])
  }

  /** No live worker has created row id. */
  ghost predicate Unworked(workers: map<nat, Worker>, id: nat)
  {
    forall k :: k in workers && workers[k].Live() ==> workers[k].Row() != Some(id)
  }

  /** A pending cancellation has an order to itself, and what it has read is still true. */
  ghost predicate CancelsFresh(orders: map<nat, OrderData>, workers: map<nat, Worker>, cancels: map<nat, Reading>)
  {
    && (forall c :: c in cancels ==>
          cancels[c].id in orders && orders[cancels[c].id] == cancels[c].order && Unworked(workers, cancels[c].id))
    && (forall c, d :: c in cancels && d in cancels && c != d ==> cancels[c].id != cancels[d].id)
  }

  ghost predicate MemoKnown(memo: Memo, orders: map<nat, OrderData>)
  {
    forall k :: k in memo ==> KeyTaken(orders, k)
  }

  /** Everything but the balances and Base. */
  ghost predicate Agreed(w: World)
  {
    && RowsSettled(w.store.orders, w.store.payments, w.memo, Attempts(w.maxAttempts))
    && CrewLive(w.store.orders, w.memo, w.workers)
    && CancelsFresh(w.store.orders, w.workers, w.cancels)
    && MemoKnown(w.memo, w.store.orders)
  }

  ghost predicate Strong(w: World)
  {
    && Base(w) && Agreed(w)
    && Balanced(w.store) && SalesBalanced(w.sold, w.store.orders)
  }

  // ---------- One row, one worker: the parts ----------

  lemma RowsAfterWrite(orders: map<nat, OrderData>, payments: map<nat, P.PaymentData>, memo: Memo, attempts: nat,
                       id: nat, o: OrderData, paid: map<nat, P.PaymentData>)
    requires RowsSettled(orders, payments, memo, attempts) && RowSettled(paid, memo, attempts, id, o)
    requires forall i :: i != id ==> (i in paid <==> i in payments) && (i in paid ==> paid[i] == payments[i])
    ensures RowsSettled(orders[id := o], paid, memo, attempts)
  {
    var next := orders[id := o];
    forall i | i in next ensures RowSettled(paid, memo, attempts, i, next[i]) {
      if i != id {
        assert RowSettled(payments, memo, attempts, i, orders[i]);
      }
    }
  }

  lemma CrewAfterWrite(orders: map<nat, OrderData>, memo: Memo, workers: map<nat, Worker>,
                       id: nat, o: OrderData, k: nat, x: Worker)
    requires CrewLive(orders, memo, workers) && LiveOk(orders[id := o], memo, x)
    requires forall j :: j in workers && j != k && workers[j].Live() ==> workers[j].Row() != Some(id)
    ensures CrewLive(orders[id := o], memo, workers[k := x])
  {
    var next := workers[k := x];
    forall j | j in next ensures LiveOk(orders[id := o], memo, next[j]) {
      assert j != k ==> LiveOk(orders, memo, workers[j]);
    }
  }

  lemma CancelsAfterWrite(orders: map<nat, OrderData>, workers: map<nat, Worker>, cancels: map<nat, Reading>,
                          id: nat, o: OrderData, k: nat, x: Worker)
    requires CancelsFresh(orders, workers, cancels)
    requires forall c :: c in cancels ==> cancels[c].id != id
    requires x.Live() ==> x.Row() == None || x.Row() == Some(id)
    ensures CancelsFresh(orders[id := o], workers[k := x], cancels)
  {
    forall c | c in cancels ensures Unworked(workers[k := x], cancels[c].id) {
      assert Unworked(workers, cancels[c].id);
    }
  }

  lemma MemoAfterGrowth(memo: Memo, before: map<nat, OrderData>, after: map<nat, OrderData>)
    requires MemoKnown(memo, before) && Grown(before, after)
    ensures MemoKnown(memo, after)
  {
    forall key | key in memo ensures KeyTaken(after, key) {
      var i :| i in before && before[i].key == key;
      assert i in after && after[i].key == key;
    }
  }

  lemma RowsApart(w: World, k: nat)
    requires Base(w) && k in w.workers && w.workers[k].Row().Some?
    ensures forall j :: j in w.workers && j != k ==> w.workers[j].Row() != w.workers[k].Row()
  {
  }

  lemma KeysApart(orders: map<nat, OrderData>, id: nat)
    requires KeysUnique(orders) && id in orders
    ensures forall i :: i in orders && i != id ==> orders[i].key != orders[id].key
  {
  }

  // ---------- The balances, step by step ----------

  lemma ReserveBalances(w: World, k: nat, id: nat, v: World)
    requires Balanced(w.store) && SalesBalanced(w.sold, w.store.orders) && ReserveCommitted(w, k, id, v)
    ensures Balanced(v.store) && SalesBalanced(v.sold, v.store.orders)
  {
    var o := w.workers[k].order;
    forall p: nat
      ensures Held(v.store.stock, p) == Booked(v.store.orders, Reserved, p)
      ensures Count(v.sold, p) == Booked(v.store.orders, Fulfilled, p)
    {
      BookedUpdate(w.store.orders, id, o.(status := Reserved), Reserved, p);
      BookedUpdate(w.store.orders, id, o.(status := Reserved), Fulfilled, p);
      QtyNonNegative(o.items, p);
    }
  }

  /** Moving the lines of order id out of the reserved counts, and the order out of status reserved. */
  lemma ReleaseBalances(s: Store, id: nat, o: OrderData, op: StockOp, after: map<nat, Row>)
    requires Balanced(s) && id in s.orders && s.orders[id].status == Reserved && o.status != Reserved
    requires PositiveLines(o.items) && s.orders[id].items == o.items
    requires op == Release || op == Commit
    requires Covers(op, s.stock, o.items) && StockMoved(op, s.stock, o.items, after)
    ensures Balanced(s.(stock := after, orders := UpdateOrder(s, id, o).orders))
  {
    var row := s.orders[id].(status := o.status, total := o.total, failureReason := o.failureReason);
    forall p: nat
      ensures Held(after, p) == Booked(s.orders[id := row], Reserved, p)
    {
      BookedUpdate(s.orders, id, row, Reserved, p);
      QtyNonNegative(o.items, p);
    }
  }

  lemma SalesAfterSettle(stock: map<nat, Row>, sold: map<nat, int>, orders: map<nat, OrderData>, id: nat,
                         o: OrderData, op: StockOp)
    requires SalesBalanced(sold, orders) && id in orders && orders[id].status == Reserved
    requires PositiveLines(o.items) && orders[id].items == o.items && Covers(op, stock, o.items)
    requires forall p :: p !in stock ==> Count(sold, p) == 0
    requires o.status == if op == Commit then Fulfilled else Failed
    ensures SalesBalanced(if op == Commit then AddLines(sold, stock, o.items) else sold, orders[id := o])
  {
    var after := if op == Commit then AddLines(sold, stock, o.items) else sold;
    forall p: nat ensures Count(after, p) == Booked(orders[id := o], Fulfilled, p) {
      BookedUpdate(orders, id, o, Fulfilled, p);
      QtyNonNegative(o.items, p);
      if p !in stock {
        assert Lines(o.items, p) == 0;
      }
    }
  }

  lemma SettleBalances(w: World, k: nat, v: World)
    requires Balanced(w.store) && SalesBalanced(w.sold, w.store.orders) && SettleCommitted(w, k, v)
    requires Conserved(w.store.stock, w.sold, w.supplied)
    requires w.store.orders[w.workers[k].phase.pay.orderId].status == Reserved
    ensures Balanced(v.store) && SalesBalanced(v.sold, v.store.orders)
  {
    var x := w.workers[k];
    var id, charge := x.phase.pay.orderId, x.phase.charge;
    var o := SettledOrder(x.order, charge);
    ReleaseBalances(w.store, id, o, SettleOp(charge), v.store.stock);
    SalesAfterSettle(w.store.stock, w.sold, w.store.orders, id, UpdateOrder(w.store, id, o).orders[id],
                     SettleOp(charge));
  }

  lemma CancelBalances(w: World, c: nat, v: World)
    requires Balanced(w.store) && SalesBalanced(w.sold, w.store.orders) && CancelCommitted(w, c, v)
    requires w.store.orders[w.cancels[c].id].status == Reserved == w.cancels[c].order.status
    ensures Balanced(v.store) && SalesBalanced(v.sold, v.store.orders)
  {
    var id, o := w.cancels[c].id, w.cancels[c].order.(status := Cancelled);
    ReleaseBalances(w.store, id, o, Release, v.store.stock);
    var row := w.store.orders[id].(status := o.status, total := o.total, failureReason := o.failureReason);
    forall p: nat ensures Count(v.sold, p) == Booked(v.store.orders, Fulfilled, p) {
      BookedUpdate(w.store.orders, id, row, Fulfilled, p);
    }
  }

  // ---------- Preservation ----------

  /** A step that writes one order row and moves one worker keeps agreement if the row and the worker fit. */
  lemma AgreedAfterWrite(w: World, v: World, id: nat, o: OrderData, k: nat, x: Worker)
    requires Agreed(w) && v.memo == w.memo && v.cancels == w.cancels && v.maxAttempts == w.maxAttempts
    requires v.store.orders == w.store.orders[id := o] && Grown(w.store.orders, v.store.orders)
    requires v.workers == w.workers[k := x]
    requires RowSettled(v.store.payments, w.memo, Attempts(w.maxAttempts), id, o)
    requires forall i :: i != id ==>
               (i in v.store.payments <==> i in w.store.payments)
               && (i in v.store.payments ==> v.store.payments[i] == w.store.payments[i])
    requires LiveOk(v.store.orders, w.memo, x) && (x.Live() ==> x.Row() == None || x.Row() == Some(id))
    requires forall j :: j in w.workers && j != k && w.workers[j].Live() ==> w.workers[j].Row() != Some(id)
    requires forall c :: c in w.cancels ==> w.cancels[c].id != id
    ensures Agreed(v)
  {
    RowsAfterWrite(w.store.orders, w.store.payments, w.memo, Attempts(w.maxAttempts), id, o, v.store.payments);
    CrewAfterWrite(w.store.orders, w.memo, w.workers, id, o, k, x);
    CancelsAfterWrite(w.store.orders, w.workers, w.cancels, id, o, k, x);
    MemoAfterGrowth(w.memo, w.store.orders, v.store.orders);
  }

  lemma ReserveKeepsAgreed(w: World, k: nat, id: nat, v: World)
    requires Base(w) && Agreed(w) && ReserveCommitted(w, k, id, v)
    ensures Agreed(v)
  {
    var o := w.workers[k].order.(status := Reserved);
    assert o.key !in w.memo;
    assert forall j :: j in w.workers ==> WorkerOk(w.store.orders, Attempts(w.maxAttempts), w.workers[j]);
    NewRowKeepsRows(w.store, id, o);
    AgreedAfterWrite(w, v, id, o, k, v.workers[k]);
  }

  /** A live worker's transaction two is never refused: no payment is in its way, and its own units are held. */
  lemma SettleIsNeverRefused(w: World, k: nat)
    requires Strong(w) && Enabled(w, Settle(k))
    ensures CanSettle(w, k)
  {
    var x := w.workers[k];
    var id := x.phase.pay.orderId;
    assert LiveOk(w.store.orders, w.memo, x);
    assert WorkerOk(w.store.orders, Attempts(w.maxAttempts), x);
    assert RowSettled(w.store.payments, w.memo, Attempts(w.maxAttempts), id, w.store.orders[id]);
    forall p: nat | Lines(x.order.items, p) > 0
      ensures p in w.store.stock && Qty(x.order.items, p) <= w.store.stock[p].reserved
    {
      QtyNonNegative(x.order.items, p);
      BookedCoversOrder(w.store.orders, id, Reserved, p);
      assert Held(w.store.stock, p) == Booked(w.store.orders, Reserved, p);
    }
  }

  lemma SettledRow(w: World, k: nat, v: World)
    requires Base(w) && Agreed(w) && SettleCommitted(w, k, v)
    ensures var id := w.workers[k].phase.pay.orderId;
            && id in v.store.orders && v.store.orders == w.store.orders[id := v.store.orders[id]]
            && RowSettled(v.store.payments, w.memo, Attempts(w.maxAttempts), id, v.store.orders[id])
  {
    assert LiveOk(w.store.orders, w.memo, w.workers[k]);
    assert WorkerOk(w.store.orders, Attempts(w.maxAttempts), w.workers[k]);
  }

  /** No other worker and no cancellation has to do with the row of a live worker. */
  lemma RowIsItsOwn(w: World, k: nat)
    requires Base(w) && Agreed(w) && k in w.workers && w.workers[k].Live() && w.workers[k].Row().Some?
    ensures forall j :: j in w.workers && j != k ==> w.workers[j].Row() != w.workers[k].Row()
    ensures forall c :: c in w.cancels ==> Some(w.cancels[c].id) != w.workers[k].Row()
  {
    RowsApart(w, k);
    assert forall c :: c in w.cancels ==> Unworked(w.workers, w.cancels[c].id);
  }

  lemma SettleKeepsAgreed(w: World, k: nat, v: World)
    requires Base(w) && Agreed(w) && SettleCommitted(w, k, v)
    ensures Agreed(v)
  {
    var x := w.workers[k];
    var pay, charge, id := x.phase.pay, x.phase.charge, x.phase.pay.orderId;
    SettledRow(w, k, v);
    UpdateKeepsRows(w.store, id, SettledOrder(x.order, charge));
    RowIsItsOwn(w, k);
    AgreedAfterWrite(w, v, id, v.store.orders[id], k, v.workers[k]);
  }

  lemma CancelKeepsAgreed(w: World, c: nat, v: World)
    requires Base(w) && Agreed(w) && CancelCommitted(w, c, v)
    ensures Agreed(v)
    ensures w.store.orders[w.cancels[c].id].status == Reserved
  {
    var id := w.cancels[c].id;
    assert RowSettled(w.store.payments, w.memo, Attempts(w.maxAttempts), id, w.store.orders[id]);
    UpdateKeepsRows(w.store, id, w.cancels[c].order.(status := Cancelled));
    var o := v.store.orders[id];
    assert v.store.orders == w.store.orders[id := o];
    RowsAfterWrite(w.store.orders, w.store.payments, w.memo, Attempts(w.maxAttempts), id, o, v.store.payments);
    assert Unworked(w.workers, id);
    CancelAloneKeepsCrew(w.store.orders, w.memo, w.workers, id, o);
    MemoAfterGrowth(w.memo, w.store.orders, v.store.orders);
    assert CancelsFresh(v.store.orders, v.workers, v.cancels);
  }

  lemma CancelAloneKeepsCrew(orders: map<nat, OrderData>, memo: Memo, workers: map<nat, Worker>, id: nat, o: OrderData)
    requires CrewLive(orders, memo, workers) && Unworked(workers, id)
    ensures CrewLive(orders[id := o], memo, workers)
  {
    forall j | j in workers ensures LiveOk(orders[id := o], memo, workers[j]) {
      assert LiveOk(orders, memo, workers[j]);
    }
  }

  /** Worker k has moved on, the database and the memo have not. */
  lemma AdvanceKeepsAgreed(w: World, k: nat, phase: Phase)
    requires Agreed(w) && k in w.workers && w.workers[k].Live()
    requires LiveOk(w.store.orders, w.memo, w.workers[k].(phase := phase))
    requires Worker(w.workers[k].order, phase).Row().None?
          || Worker(w.workers[k].order, phase).Row() == w.workers[k].Row()
    ensures Agreed(Advance(w, k, phase))
  {
    var v := Advance(w, k, phase);
    assert CrewLive(v.store.orders, v.memo, v.workers);
    forall c | c in v.cancels ensures Unworked(v.workers, v.cancels[c].id) {
      assert Unworked(w.workers, w.cancels[c].id);
    }
  }

  /** A key enters the memo while the only order with that key is reserved. */
  lemma RecordKeepsRows(orders: map<nat, OrderData>, payments: map<nat, P.PaymentData>, memo: Memo, attempts: nat,
                        id: nat, ref: string)
    requires KeysUnique(orders) && id in orders && orders[id].status == Reserved && orders[id].key !in memo
    requires RowsSettled(orders, payments, memo, attempts)
    ensures RowsSettled(orders, payments, memo[orders[id].key := ref], attempts)
  {
    forall i | i in orders ensures RowSettled(payments, memo[orders[id].key := ref], attempts, i, orders[i]) {
      assert RowSettled(payments, memo, attempts, i, orders[i]);
      assert i == id || orders[i].key != orders[id].key;
    }
  }

  /** The gateway approves the sleeping call of worker k: the key enters the memo. */
  lemma ApproveKeepsAgreed(w: World, k: nat, ref: string)
    requires Base(w) && Agreed(w) && k in w.workers && w.workers[k].phase.Calling?
    ensures w.workers[k].order.key !in w.memo
    ensures Agreed(w.(memo := w.memo[w.workers[k].order.key := ref],
                      workers := w.workers[k := w.workers[k].(phase :=
                                                                Settling(w.workers[k].phase.pay, Charged(ref)))]))
  {
    var x := w.workers[k];
    var key, id := x.order.key, x.phase.pay.orderId;
    assert LiveOk(w.store.orders, w.memo, x);
    assert WorkerOk(w.store.orders, Attempts(w.maxAttempts), x);
    RecordKeepsRows(w.store.orders, w.store.payments, w.memo, Attempts(w.maxAttempts), id, ref);
    AdvanceKeepsAgreed(w, k, Calling(x.phase.pay));
    var workers := w.workers[k := x.(phase := Settling(x.phase.pay, Charged(ref)))];
    RowsApart(w, k);
    KeysApart(w.store.orders, id);
    forall j | j in workers ensures LiveOk(w.store.orders, w.memo[key := ref], workers[j]) {
      if j != k {
        assert LiveOk(w.store.orders, w.memo, w.workers[j]);
        assert WorkerOk(w.store.orders, Attempts(w.maxAttempts), w.workers[j]);
      }
    }
    forall c | c in w.cancels ensures Unworked(workers, w.cancels[c].id) {
      assert Unworked(w.workers, w.cancels[c].id);
    }
    assert w.store.orders[id].key == key;
  }

  lemma ReserveKeepsStrong(w: World, k: nat, id: nat)
    requires Strong(w) && Enabled(w, Place(k, id))
    ensures Strong(AfterReserve(w, k, id))
  {
    ReserveStep(w, k, id);
    var v := AfterReserve(w, k, id);
    if ReserveCommitted(w, k, id, v) {
      ReservedKeepsBase(w, k, id, v);
      ReserveKeepsAgreed(w, k, id, v);
      ReserveBalances(w, k, id, v);
    } else {
      AdvanceKeepsStrong(w, k, v.workers[k].phase);
    }
  }

  lemma AdvanceKeepsStrong(w: World, k: nat, phase: Phase)
    requires Strong(w) && k in w.workers && w.workers[k].Live()
    requires PhaseOk(w.workers[k].(phase := phase), Attempts(w.maxAttempts))
    requires LiveOk(w.store.orders, w.memo, w.workers[k].(phase := phase))
    requires Worker(w.workers[k].order, phase).Row().None?
          || Worker(w.workers[k].order, phase).Row() == w.workers[k].Row()
    ensures Strong(Advance(w, k, phase))
  {
    AdvanceKeepsBase(w, k, phase);
    AdvanceKeepsAgreed(w, k, phase);
  }

  lemma EndChargeKeepsStrong(w: World, k: nat, reply: Reply)
    requires Strong(w) && Enabled(w, EndCharge(k, reply))
    ensures Strong(AfterEndCharge(w, k, reply))
  {
    var x := w.workers[k];
    assert LiveOk(w.store.orders, w.memo, x);
    assert WorkerOk(w.store.orders, Attempts(w.maxAttempts), x);
    EndChargeKeepsBase(w, k, reply);
    match reply {
      case Approve(ref) =>
        ApproveKeepsAgreed(w, k, ref);
        assert AfterEndCharge(w, k, reply) ==
          w.(memo := w.memo[x.order.key := ref],
             workers := w.workers[k := x.(phase := Settling(x.phase.pay, Charged(ref)))]);
      case Refuse(reason) =>
        AdvanceKeepsStrong(w, k, AfterEndCharge(w, k, reply).workers[k].phase);
    }
  }

  lemma SettleKeepsStrong(w: World, k: nat)
    requires Strong(w) && Enabled(w, Settle(k))
    ensures Strong(AfterSettle(w, k))
  {
    SettleIsNeverRefused(w, k);
    SettleStep(w, k);
    var v := AfterSettle(w, k);
    assert LiveOk(w.store.orders, w.memo, w.workers[k]);
    SettledKeepsBase(w, k, v);
    SettleKeepsAgreed(w, k, v);
    SettleBalances(w, k, v);
  }

  lemma WorkerStepKeepsStrong(w: World, a: Action)
    requires Strong(w) && Enabled(w, a)
    requires a.Place? || a.BeginCharge? || a.EndCharge? || a.Settle? || a.Abort?
    ensures Strong(Apply(w, a))
  {
    assert LiveOk(w.store.orders, w.memo, w.workers[a.w]);
    assert WorkerOk(w.store.orders, Attempts(w.maxAttempts), w.workers[a.w]);
    if a.Place? {
      ReserveKeepsStrong(w, a.w, a.id);
    } else if a.BeginCharge? {
      AdvanceKeepsStrong(w, a.w, AfterBeginCharge(w, a.w).workers[a.w].phase);
    } else if a.EndCharge? {
      EndChargeKeepsStrong(w, a.w, a.reply);
    } else if a.Settle? {
      SettleKeepsStrong(w, a.w);
    } else {
      AdvanceKeepsStrong(w, a.w, Over(w.workers[a.w].Row(), None));
    }
  }

  lemma CancelKeepsStrong(w: World, c: nat, reason: string)
    requires Strong(w) && Enabled(w, CancelRead(c, reason))
    ensures Strong(AfterCancel(w, c, reason))
  {
    CancelStep(w, c, reason);
    var v := AfterCancel(w, c, reason);
    if CancelCommitted(w, c, v) {
      CancelledKeepsBase(w, c, v);
      CancelKeepsAgreed(w, c, v);
      CancelBalances(w, c, v);
    } else {
      DropKeepsStrong(w, c);
    }
  }

  lemma DropKeepsStrong(w: World, c: nat)
    requires Strong(w)
    ensures Strong(w.(cancels := w.cancels - {c}))
  {
    DropKeepsBase(w, w.cancels - {c}, w.changes);
  }

  lemma SupplyKeepsStrong(w: World, p: nat, units: int, row: Row)
    requires Strong(w) && units >= 0
    requires p in w.store.stock ==>
               row.available == w.store.stock[p].available + units && row.reserved == w.store.stock[p].reserved
    requires p !in w.store.stock ==> row.available == units && row.reserved == 0
    ensures Strong(Supply(w, p, units, row))
  {
    SupplyKeepsBase(w, p, units, row);
    var stock := w.store.stock[p := row];
    forall q: nat ensures Held(stock, q) == Booked(w.store.orders, Reserved, q) {
      assert Held(w.store.stock, q) == Booked(w.store.orders, Reserved, q);
    }
  }

  lemma SubmitKeepsStrong(w: World, k: nat, o: OrderData)
    requires Strong(w) && Placeable(o) && k !in w.workers
    ensures Strong(w.(workers := w.workers[k := Worker(o, Queued)]))
  {
    SubmitKeepsBase(w, k, o);
    SubmitKeepsParts(w.store.orders, w.memo, w.workers, w.cancels, k, o);
  }

  lemma SubmitKeepsParts(orders: map<nat, OrderData>, memo: Memo, workers: map<nat, Worker>,
                         cancels: map<nat, Reading>, k: nat, o: OrderData)
    requires CrewLive(orders, memo, workers) && CancelsFresh(orders, workers, cancels)
    ensures CrewLive(orders, memo, workers[k := Worker(o, Queued)])
    ensures CancelsFresh(orders, workers[k := Worker(o, Queued)], cancels)
  {
    forall c | c in cancels ensures Unworked(workers[k := Worker(o, Queued)], cancels[c].id) {
      assert Unworked(workers, cancels[c].id);
    }
  }

  lemma ReadKeepsFresh(orders: map<nat, OrderData>, workers: map<nat, Worker>, cancels: map<nat, Reading>, c: nat,
                       id: nat)
    requires CancelsFresh(orders, workers, cancels) && c !in cancels && id in orders && Unworked(workers, id)
    requires forall d :: d in cancels ==> cancels[d].id != id
    ensures CancelsFresh(orders, workers, cancels[c := Reading(id, orders[id])])
  {
  }

  lemma ReadKeepsStrong(w: World, c: nat, id: nat)
    requires Strong(w) && c !in w.cancels && id in w.store.orders && Unworked(w.workers, id)
    requires forall d :: d in w.cancels ==> w.cancels[d].id != id
    ensures Strong(w.(cancels := w.cancels[c := Reading(id, w.store.orders[id])]))
  {
    ReadKeepsBase(w, c, id);
    ReadKeepsFresh(w.store.orders, w.workers, w.cancels, c, id);
  }

  lemma SupplyStepKeepsStrong(w: World, a: Action)
    requires Strong(w) && Enabled(w, a) && (a.AddProduct? || a.RestockProduct?)
    ensures Strong(Apply(w, a))
  {
    var row := if a.AddProduct? then Row(a.units, 0, 0) else RowStep(Restock, w.store.stock[a.p], a.units).value;
    assert Apply(w, a) == Supply(w, a.p, a.units, row);
    SupplyKeepsStrong(w, a.p, a.units, row);
  }

  lemma StepKeepsStrong(w: World, a: Action)
    requires Strong(w) && Enabled(w, a) && Disciplined(w, a)
    ensures Strong(Apply(w, a))
  {
    if a.CancelRead? {
      CancelKeepsStrong(w, a.c, a.reason);
    } else if a.Submit? {
      SubmitKeepsStrong(w, a.w, a.order);
    } else if a.ReadForCancel? {
      ReadKeepsStrong(w, a.c, a.id);
    } else if a.DropCancel? {
      DropKeepsStrong(w, a.c);
    } else if a.AddProduct? || a.RestockProduct? {
      SupplyStepKeepsStrong(w, a);
    } else {
      WorkerStepKeepsStrong(w, a);
    }
  }

  lemma {:induction false} DisciplinedRunsKeepStrong(w: World, actions: seq<Action>, v: World)
    requires Strong(w) && DisciplinedRuns(w, actions, v)
    ensures Strong(v)
    decreases |actions|
  {
    if actions != [] {
      StepKeepsStrong(w, actions[0]);
      DisciplinedRunsKeepStrong(Apply(w, actions[0]), actions[1..], v);
    }
  }

  lemma ReservedOrderIsHeld(w: World, id: nat)
    requires Strong(w) && id in w.store.orders && w.store.orders[id].status == Reserved
    ensures Covers(Release, w.store.stock, w.store.orders[id].items)
  {
    var items := w.store.orders[id].items;
    forall p: nat | Lines(items, p) > 0
      ensures p in w.store.stock && Qty(items, p) <= w.store.stock[p].reserved
    {
      QtyNonNegative(items, p);
      BookedCoversOrder(w.store.orders, id, Reserved, p);
      assert Held(w.store.stock, p) == Booked(w.store.orders, Reserved, p);
    }
  }

  lemma InitialIsStrong(w: World)
    requires Initial(w)
    ensures Strong(w)
  {
    forall p: nat, status: Status ensures Booked(w.store.orders, status, p) == 0 {
      assert Bookings(w.store.orders, status, p) == map[];
    }
  }
}
