/**
  The shared database as a value: stock rows, order rows and payment rows, the repository
  operations on them, and the three transactions that the order commands run.
 */
module Stores {
  import opened Results
  import opened MapSums
  import opened MoneyModel
  import opened Inventories
  import opened Orders
  import opened Gateways
  import P = Payments

  /** Payments are keyed by their order, which the unique index on order_id allows. */
  datatype Store = Store(
    stock: map<nat, Row>,
    orders: map<nat, OrderData>,
    payments: map<nat, P.PaymentData>)

  // ---------- Order lines against stock ----------

  /** The quantity of product p over all lines, however often the product is repeated. */
  function Qty(items: seq<Item>, p: nat): int
  {
    if items == [] then 0
    else (if items[0].productId == p then items[0].quantity else 0) + Qty(items[1..], p)
  }

  function Lines(items: seq<Item>, p: nat): nat
  {
    if items == [] then 0
    else (if items[0].productId == p then 1 else 0) + Lines(items[1..], p)
  }

  predicate PositiveLines(items: seq<Item>)
  {
    forall i :: 0 <= i < |items| ==> items[i].quantity > 0
  }

  function StepProduct(op: StockOp, stock: map<nat, Row>, p: nat, qty: int): Option<map<nat, Row>>
  {
    if p !in stock then None
    else
      match RowStep(op, stock[p], qty)
      case None => None
      case Some(row) => Some(stock[p := row])
  }

  /** One guarded update for each line in turn; None as soon as one matches no row. */
  function StepLines(op: StockOp, stock: map<nat, Row>, items: seq<Item>): Option<map<nat, Row>>
    decreases |items|
  {
    if items == [] then Some(stock)
    else
      match StepProduct(op, stock, items[0].productId, items[0].quantity)
      case None => None
      case Some(next) => StepLines(op, next, items[1..])
  }

  /** The count that guards an operation. */
  function Guarded(op: StockOp, row: Row): int
  {
    if op == Reserve then row.available else row.reserved
  }

  /** Every product has a row whose guarded count is at least the summed quantity of its lines. */
  ghost predicate Covers(op: StockOp, stock: map<nat, Row>, items: seq<Item>)
  {
    forall p: nat :: Lines(items, p) > 0 ==> p in stock && Qty(items, p) <= Guarded(op, stock[p])
  }

  /** The row after q units on n lines have been moved. */
  function Moved(op: StockOp, row: Row, q: int, n: nat): Row
  {
    match op
    case Reserve => Row(row.available - q, row.reserved + q, row.version + n)
    case Release => Row(row.available + q, row.reserved - q, row.version)
    case Commit => Row(row.available, row.reserved - q, row.version)
    case Restock => Row(row.available + q, row.reserved, row.version + n)
  }

  lemma {:induction false} QtyNonNegative(items: seq<Item>, p: nat)
    requires PositiveLines(items)
    ensures Lines(items, p) <= Qty(items, p)
    ensures Lines(items, p) == 0 ==> Qty(items, p) == 0
  {
    if items != [] {
      QtyNonNegative(items[1..], p);
    }
  }

  /** Both stores have the same products, and each row of the second is the first one moved. */
  ghost predicate StockMoved(op: StockOp, before: map<nat, Row>, items: seq<Item>, after: map<nat, Row>)
  {
    && after.Keys == before.Keys
    && forall p :: p in before ==> after[p] == Moved(op, before[p], Qty(items, p), Lines(items, p))
  }

  lemma {:induction false} StepLinesAccepted(op: StockOp, stock: map<nat, Row>, items: seq<Item>)
    requires op != Restock && PositiveLines(items)
    ensures StepLines(op, stock, items).Some? <==> Covers(op, stock, items)
    decreases |items|
  {
    if items != [] {
      var step := StepProduct(op, stock, items[0].productId, items[0].quantity);
      if step.None? {
        QtyNonNegative(items[1..], items[0].productId);
        assert Lines(items, items[0].productId) > 0;
      } else {
        StepLinesAccepted(op, step.value, items[1..]);
        CoversStep(op, stock, step.value, items);
      }
    }
  }

  lemma {:induction false} StepLinesMoved(op: StockOp, stock: map<nat, Row>, items: seq<Item>)
    requires StepLines(op, stock, items).Some?
    ensures StockMoved(op, stock, items, StepLines(op, stock, items).value)
    decreases |items|
  {
    if items != [] {
      var p0, q0, rest := items[0].productId, items[0].quantity, items[1..];
      var next := StepProduct(op, stock, p0, q0).value;
      StepLinesMoved(op, next, rest);
      var last := StepLines(op, next, rest).value;
      forall p | p in stock ensures last[p] == Moved(op, stock[p], Qty(items, p), Lines(items, p)) {
        assert last[p] == Moved(op, next[p], Qty(rest, p), Lines(rest, p));
      }
    }
  }

  /**
    A loop of guarded updates goes through exactly when the summed quantities are covered,
    also with repeated products, and then moves exactly those sums.
   */
  lemma StepLinesExact(op: StockOp, stock: map<nat, Row>, items: seq<Item>)
    requires op != Restock && PositiveLines(items)
    ensures StepLines(op, stock, items).Some? <==> Covers(op, stock, items)
    ensures StepLines(op, stock, items).Some? ==> StockMoved(op, stock, items, StepLines(op, stock, items).value)
  {
    StepLinesAccepted(op, stock, items);
    if StepLines(op, stock, items).Some? {
      StepLinesMoved(op, stock, items);
    }
  }

  lemma CoversStep(op: StockOp, stock: map<nat, Row>, next: map<nat, Row>, items: seq<Item>)
    requires op != Restock && PositiveLines(items) && items != []
    requires StepProduct(op, stock, items[0].productId, items[0].quantity) == Some(next)
    ensures Covers(op, next, items[1..]) <==> Covers(op, stock, items)
  {
    var p0, rest := items[0].productId, items[1..];
    assert forall p: nat :: Lines(items, p) == Lines(rest, p) + (if p == p0 then 1 else 0);
    assert forall p: nat :: Qty(items, p) == Qty(rest, p) + (if p == p0 then items[0].quantity else 0);
    QtyNonNegative(rest, p0);
    if Covers(op, next, rest) {
      forall p: nat | Lines(items, p) > 0
        ensures p in stock && Qty(items, p) <= Guarded(op, stock[p])
      {
        if p != p0 {
          assert Lines(rest, p) > 0;
        } else if Lines(rest, p) == 0 {
          assert Qty(rest, p) == 0;
        }
      }
    }
    if Covers(op, stock, items) {
      forall p: nat | Lines(rest, p) > 0
        ensures p in next && Qty(rest, p) <= Guarded(op, next[p])
      {
        assert Lines(items, p) > 0;
      }
    }
  }

  lemma {:induction false} QtyAppend(a: seq<Item>, b: seq<Item>, p: nat)
    ensures Qty(a + b, p) == Qty(a, p) + Qty(b, p)
    ensures Lines(a + b, p) == Lines(a, p) + Lines(b, p)
  {
    if a == [] {
      assert a + b == b;
    } else {
      assert (a + b)[1..] == a[1..] + b;
      QtyAppend(a[1..], b, p);
    }
  }

  /** One line counts for its own product, with its quantity. */
  lemma OneLine(item: Item, p: nat)
    ensures Lines([item], p) == if item.productId == p then 1 else 0
    ensures Qty([item], p) == if item.productId == p then item.quantity else 0
  {
    assert [item][1..] == [];
    assert Lines([], p) == 0 && Qty([], p) == 0;
  }

  lemma WithoutOne(b: seq<Item>, j: nat, p: nat) returns (c: seq<Item>)
    requires j < |b|
    ensures |c| == |b| - 1 && multiset(c) == multiset(b) - multiset{b[j]}
    ensures Qty(b, p) == Qty([b[j]], p) + Qty(c, p) && Lines(b, p) == Lines([b[j]], p) + Lines(c, p)
  {
    c := b[..j] + b[j + 1..];
    QtyAppend(b[..j], b[j + 1..], p);
    assert b == b[..j] + [b[j]] + b[j + 1..];
    QtyAppend(b[..j] + [b[j]], b[j + 1..], p);
    QtyAppend(b[..j], [b[j]], p);
  }

  lemma {:induction false} QtyOfPermutation(a: seq<Item>, b: seq<Item>, p: nat)
    requires multiset(a) == multiset(b)
    ensures Qty(a, p) == Qty(b, p) && Lines(a, p) == Lines(b, p)
    decreases |a|
  {
    if a == [] {
      assert |multiset(b)| == 0;
    } else {
      var j := PositionOf(a[0], a, b);
      var c := WithoutOne(b, j, p);
      var d := WithoutOne(a, 0, p);
      QtyOfPermutation(d, c, p);
    }
  }

  lemma PositionOf(x: Item, a: seq<Item>, b: seq<Item>) returns (j: nat)
    requires multiset(a) == multiset(b) && x in a
    ensures j < |b| && b[j] == x
  {
    assert x in multiset(b);
    j :| 0 <= j < |b| && b[j] == x;
  }

  /** Neither the verdict of a loop over lines nor its effect depends on the order of the lines. */
  lemma LineOrderIsIrrelevant(op: StockOp, stock: map<nat, Row>, a: seq<Item>, b: seq<Item>)
    requires op != Restock && PositiveLines(a) && multiset(a) == multiset(b)
    ensures StepLines(op, stock, a) == StepLines(op, stock, b)
  {
    forall i | 0 <= i < |b| ensures b[i].quantity > 0 {
      assert b[i] in multiset(b);
      assert b[i] in multiset(a);
    }
    forall p: nat ensures Qty(a, p) == Qty(b, p) && Lines(a, p) == Lines(b, p) {
      QtyOfPermutation(a, b, p);
    }
    StepLinesExact(op, stock, a);
    StepLinesExact(op, stock, b);
    assert Covers(op, stock, a) <==> Covers(op, stock, b);
    if Covers(op, stock, a) {
      assert StepLines(op, stock, a).value == StepLines(op, stock, b).value;
    }
  }

  // ---------- Rows of orders and payments ----------

  predicate KeyTaken(orders: map<nat, OrderData>, key: string)
  {
    exists i :: i in orders && orders[i].key == key
  }

  predicate PaymentKeyTaken(payments: map<nat, P.PaymentData>, key: string)
  {
    exists i :: i in payments && payments[i].key == key
  }

  /** INSERT of an order: the unique index refuses a second row with the same idempotency key. */
  function CreateOrder(s: Store, id: nat, o: OrderData): Result<Store>
  {
    if KeyTaken(s.orders, o.key) then Err(Internal) else Ok(s.(orders := s.orders[id := o]))
  }

  /** UPDATE of an order: status, total and reason only, and no error when the row is missing. */
  function UpdateOrder(s: Store, id: nat, o: OrderData): Store
  {
    if id !in s.orders then s
    else
      var row := s.orders[id].(status := o.status, total := o.total, failureReason := o.failureReason);
      s.(orders := s.orders[id := row])
  }

  /** INSERT of a payment: unique per order and per idempotency key. */
  function CreatePayment(s: Store, p: P.PaymentData): Result<Store>
  {
    if p.orderId in s.payments || PaymentKeyTaken(s.payments, p.key) then Err(Internal)
    else Ok(s.(payments := s.payments[p.orderId := p]))
  }

  function MoveLines(op: StockOp, s: Store, items: seq<Item>, refusal: ErrorKind): Result<Store>
  {
    match StepLines(op, s.stock, items)
    case None => Err(refusal)
    case Some(stock) => Ok(s.(stock := stock))
  }

  function MoveOrder(o: OrderData, move: Move): Result<OrderData>
  {
    match MoveData(o, move)
    case None => Err(Conflict)
    case Some(after) => Ok(after)
  }

  /** What MustMoney panics on. */
  predicate BadMoney(m: Money)
  {
    NewMoney(m.amount, m.currency).Err?
  }

  /** The first item that cannot be rebuilt decides the error: a panic over its price, or its quantity. */
  function ItemsFault(items: seq<Item>): Option<ErrorKind>
  {
    if items == [] then None
    else if BadMoney(items[0].unitPrice) then Some(Internal)
    else if items[0].quantity <= 0 then Some(Validation)
    else ItemsFault(items[1..])
  }

  /** Why a row cannot be rebuilt as an order, if it cannot. A panic is an internal error to the caller. */
  function Fault(o: OrderData): Option<ErrorKind>
  {
    match ItemsFault(o.items)
    case Some(e) => Some(e)
    case None => if BadMoney(o.total) then Some(Internal) else None
  }

  predicate Readable(o: OrderData)
  {
    Fault(o).None?
  }

  predicate GoodPrice(item: Item)
  {
    item.unitPrice.amount >= 0 && |item.unitPrice.currency| == 3
  }

  /** Items can be rebuilt iff all are in order; else the first that is not decides the error. */
  lemma {:induction false} ItemsFaultExact(items: seq<Item>)
    ensures ItemsFault(items).None? <==>
              PositiveLines(items) && forall i :: 0 <= i < |items| ==> GoodPrice(items[i])
    ensures ItemsFault(items).Some? ==>
              exists i :: 0 <= i < |items|
                && (forall j :: 0 <= j < i ==> GoodPrice(items[j]) && items[j].quantity > 0)
                && !(GoodPrice(items[i]) && items[i].quantity > 0)
                && ItemsFault(items) == Some(if GoodPrice(items[i]) then Validation else Internal)
  {
    if items != [] {
      ItemsFaultExact(items[1..]);
      assert forall i :: 1 <= i < |items| ==> items[i] == items[1..][i - 1];
      assert forall i :: 0 <= i < |items| - 1 ==> items[1..][i] == items[i + 1];
      if GoodPrice(items[0]) && items[0].quantity > 0 && ItemsFault(items[1..]).Some? {
        var i :| 0 <= i < |items[1..]|
          && (forall j :: 0 <= j < i ==> GoodPrice(items[1..][j]) && items[1..][j].quantity > 0)
          && !(GoodPrice(items[1..][i]) && items[1..][i].quantity > 0)
          && ItemsFault(items[1..]) == Some(if GoodPrice(items[1..][i]) then Validation else Internal);
        assert items[i + 1] == items[1..][i];
        assert forall j :: 0 <= j < i + 1 ==> GoodPrice(items[j]) && items[j].quantity > 0;
      } else if !(GoodPrice(items[0]) && items[0].quantity > 0) {
        assert ItemsFault(items) == Some(if GoodPrice(items[0]) then Validation else Internal);
      }
    }
  }

  /**
    A row written for a new order can be read back iff its items can and the exact total modulo 2^64
    is below 2^63. An order whose total wraps to a negative amount is committed all the same, and then
    every command that reads it fails.
   */
  lemma ReadableIffTotalFits(o: OrderData)
    requires o.items != [] && o.total == NewTotal(o.items)
    ensures Readable(o) <==> ItemsFault(o.items).None? && ExactTotal(o.items) % TWO_64 < TWO_63
    ensures ItemsFault(o.items).None? && !Readable(o) ==> Fault(o) == Some(Internal)
  {
    ItemsFaultExact(o.items);
    WrapSign(ExactTotal(o.items));
  }

  lemma WrapSign(x: int)
    ensures Wrap(x) >= 0 <==> x % TWO_64 < TWO_63
  {
    WrapIsResidue(x % TWO_64, x / TWO_64);
    assert x == x % TWO_64 + x / TWO_64 * TWO_64;
  }

  // ---------- The transactions ----------

  /** Transaction one of placing an order: create it, reserve every line, mark it reserved. */
  function ReserveTx(s: Store, id: nat, o: OrderData): Result<Store>
  {
    var created :- CreateOrder(s, id, o);
    var held :- MoveLines(Reserve, created, o.items, OutOfStock);
    var after :- MoveOrder(o, MarkReserved);
    Ok(UpdateOrder(held, id, after))
  }

  /** Transaction two: record the payment, then commit and fulfil, or release and fail. */
  function SettleTx(s: Store, id: nat, o: OrderData, p: P.PaymentData, charge: Charge): Result<Store>
  {
    match charge
    case Declined(reason) =>
      var failed :- P.FailedWith(p, reason);
      var paid :- CreatePayment(s, failed);
      var released :- MoveLines(Release, paid, o.items, Conflict);
      var after :- MoveOrder(o, Fail("payment failed"));
      Ok(UpdateOrder(released, id, after))
    case Charged(ref) =>
      var succeeded :- P.SucceededWith(p, ref);
      var paid :- CreatePayment(s, succeeded);
      var mid :- MoveOrder(o, MarkPaid);
      var committed :- MoveLines(Commit, paid, o.items, Conflict);
      var after :- MoveOrder(mid, MarkFulfilled);
      Ok(UpdateOrder(committed, id, after))
  }

  function RefundPayment(s: Store, id: nat): Result<Store>
  {
    if id !in s.payments then Err(NotFound)
    else if BadMoney(s.payments[id].amount) then Err(Internal)
    else
      var refunded :- P.RefundOf(s.payments[id]);
      Ok(s.(payments := s.payments[id := refunded]))
  }

  /** The cancelling transaction, run from an order that was read before it began. */
  function CancelTx(s: Store, id: nat, o: OrderData, reason: string): Result<Store>
  {
    var released :- if o.status == Reserved || o.status == Paid then MoveLines(Release, s, o.items, Conflict)
        else Ok(s);
    var refunded :- if o.status == Paid then RefundPayment(released, id) else Ok(released);
    var after :- MoveOrder(o, Cancel(reason));
    Ok(UpdateOrder(refunded, id, after))
  }

  /** The administrator's status change: it moves the status and no stock. */
  function StatusMove(target: Status): Option<Move>
  {
    match target
    case Reserved => Some(MarkReserved)
    case Paid => Some(MarkPaid)
    case Fulfilled => Some(MarkFulfilled)
    case Cancelled => Some(Cancel("status updated by administrator"))
    case Failed => Some(Fail("status updated by administrator"))
    case Pending => None
  }

  function StatusTx(s: Store, id: nat, o: OrderData, target: Status): Result<Store>
  {
    match StatusMove(target)
    case None => Err(Validation)
    case Some(move) =>
      var after :- MoveOrder(o, move);
      Ok(UpdateOrder(s, id, after))
  }

  // ---------- What the transactions do ----------

  /**
    Transaction one commits exactly when the key is new and every product covers the sum of its
    lines; then it moves those sums and adds one reserved order, and nothing else.
   */
  lemma ReserveTxExact(s: Store, id: nat, o: OrderData)
    requires o.status == Pending && PositiveLines(o.items) && id !in s.orders
    ensures ReserveTx(s, id, o).Ok? <==> !KeyTaken(s.orders, o.key) && Covers(Reserve, s.stock, o.items)
    ensures ReserveTx(s, id, o).Err? ==>
              ReserveTx(s, id, o).error == if KeyTaken(s.orders, o.key) then Internal else OutOfStock
    ensures ReserveTx(s, id, o).Ok? ==>
              var after := ReserveTx(s, id, o).value;
              && StockMoved(Reserve, s.stock, o.items, after.stock)
              && after.orders == s.orders[id := o.(status := Reserved)]
              && after.payments == s.payments
  {
    StepLinesExact(Reserve, s.stock, o.items);
  }

  /** The operation and the final status that a gateway answer calls for. */
  function SettleOp(charge: Charge): StockOp
  {
    if charge.Charged? then Commit else Release
  }

  function SettledOrder(o: OrderData, charge: Charge): OrderData
  {
    match charge
    case Charged(_) => o.(status := Fulfilled)
    case Declined(_) => o.(status := Failed, failureReason := "payment failed")
  }

  function SettledPayment(p: P.PaymentData, charge: Charge): P.PaymentData
  {
    match charge
    case Charged(ref) => p.(status := P.Succeeded, providerRef := ref, failureReason := "")
    case Declined(reason) => p.(status := P.Failed, failureReason := reason)
  }

  predicate Answered(charge: Charge)
  {
    match charge
    case Charged(ref) => ref != ""
    case Declined(reason) => reason != ""
  }

  /** No payment stands in the way, and the reserved counts cover the order. */
  ghost predicate SettleAllowed(s: Store, o: OrderData, p: P.PaymentData, charge: Charge)
  {
    && p.orderId !in s.payments && !PaymentKeyTaken(s.payments, p.key)
    && Covers(SettleOp(charge), s.stock, o.items)
  }

  /**
    Transaction two, run from a reserved order and a pending payment: it commits exactly when no
    payment stands in its way and the reserved counts cover the order.
   */
  lemma SettleTxExact(s: Store, id: nat, o: OrderData, p: P.PaymentData, charge: Charge)
    requires o.status == Reserved && PositiveLines(o.items)
    requires p.status == P.Pending && Answered(charge)
    ensures SettleTx(s, id, o, p, charge).Ok? <==> SettleAllowed(s, o, p, charge)
    ensures SettleTx(s, id, o, p, charge).Err? ==>
              SettleTx(s, id, o, p, charge).error ==
                if p.orderId in s.payments || PaymentKeyTaken(s.payments, p.key) then Internal else Conflict
    ensures SettleTx(s, id, o, p, charge).Ok? ==>
              var after := SettleTx(s, id, o, p, charge).value;
              && StockMoved(SettleOp(charge), s.stock, o.items, after.stock)
              && after.orders == UpdateOrder(s, id, SettledOrder(o, charge)).orders
              && after.payments == s.payments[p.orderId := SettledPayment(p, charge)]
  {
    StepLinesExact(SettleOp(charge), s.stock, o.items);
  }

  /**
    The cancelling transaction commits exactly when the order was read in a cancellable status,
    the reserved counts cover it if it held stock, and its payment can be refunded if it was paid.
   */
  lemma CancelTxExact(s: Store, id: nat, o: OrderData, reason: string)
    requires PositiveLines(o.items)
    ensures CancelTx(s, id, o, reason).Ok? <==>
              && o.status.CanCancel()
              && (o.status != Pending ==> Covers(Release, s.stock, o.items))
              && (o.status == Paid ==>
                    id in s.payments && s.payments[id].status == P.Succeeded && !BadMoney(s.payments[id].amount))
    ensures CancelTx(s, id, o, reason).Ok? ==>
              var after := CancelTx(s, id, o, reason).value;
              && (if o.status == Pending then after.stock == s.stock
                  else StockMoved(Release, s.stock, o.items, after.stock))
              && after.orders == UpdateOrder(s, id, o.(status := Cancelled)).orders
              && after.payments == if o.status == Paid then s.payments[id := s.payments[id].(status := P.Refunded)]
                                   else s.payments
  {
    StepLinesExact(Release, s.stock, o.items);
  }

  /** The error of a cancellation that does not commit, by what stands in its way first. */
  lemma CancelErrorExact(s: Store, id: nat, o: OrderData, reason: string)
    requires PositiveLines(o.items) && CancelTx(s, id, o, reason).Err?
    ensures CancelTx(s, id, o, reason).error ==
              if o.status == Paid && Covers(Release, s.stock, o.items) && id !in s.payments then NotFound
              else if o.status == Paid && Covers(Release, s.stock, o.items) && BadMoney(s.payments[id].amount)
                  then Internal
              else Conflict
  {
    StepLinesExact(Release, s.stock, o.items);
  }

  /**
    A manual change of a row, as it was read, is accepted iff the diagram has that edge, or from paid
    to failed. Then the row has the target status and, for a failure, its reason; nothing else changes.
   */
  lemma StatusTxExact(s: Store, id: nat, target: Status)
    requires id in s.orders
    ensures var o := s.orders[id];
            && (StatusTx(s, id, o, target).Ok? <==>
                DiagramEdge(o.status, target) || (o.status == Paid && target == Failed))
            && (StatusTx(s, id, o, target).Err? ==>
                  StatusTx(s, id, o, target).error == if target == Pending then Validation else Conflict)
            && (StatusTx(s, id, o, target).Ok? ==>
                  StatusTx(s, id, o, target).value == s.(orders := s.orders[id :=
                    if target == Failed
                    then o.(status := Failed, failureReason := "status updated by administrator")
                    else o.(status := target)]))
  {
  }

  // ---------- Units booked by orders ----------

  function Booking(o: OrderData, status: Status, p: nat): int
  {
    if o.status == status then Qty(o.items, p) else 0
  }

  function Bookings(orders: map<nat, OrderData>, status: Status, p: nat): map<nat, int>
  {
    map i | i in orders :: Booking(orders[i], status, p)
  }

  /** The units of product p over all orders in the given status. */
  ghost function Booked(orders: map<nat, OrderData>, status: Status, p: nat): int
  {
    Total(Bookings(orders, status, p))
  }

  lemma BookedUpdate(orders: map<nat, OrderData>, id: nat, o: OrderData, status: Status, p: nat)
    ensures Booked(orders[id := o], status, p)
         == Booked(orders, status, p) - (if id in orders then Booking(orders[id], status, p) else 0)
            + Booking(o, status, p)
  {
    TotalUpdate(Bookings(orders, status, p), id, Booking(o, status, p));
    assert Bookings(orders, status, p)[id := Booking(o, status, p)] == Bookings(orders[id := o], status, p);
  }

  lemma BookedCoversOrder(orders: map<nat, OrderData>, id: nat, status: Status, p: nat)
    requires id in orders && orders[id].status == status
    requires forall i :: i in orders ==> PositiveLines(orders[i].items)
    ensures Qty(orders[id].items, p) <= Booked(orders, status, p)
  {
    var m := Bookings(orders, status, p);
    forall i | i in m ensures m[i] >= 0 {
      QtyNonNegative(orders[i].items, p);
    }
    TotalBoundsEntry(m, id);
  }
}
