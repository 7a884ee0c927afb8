/** The database as the repositories see it: tables changed in place, one statement at a time. */
module Databases {
  import opened Results
  import opened Inventories
  import opened Orders
  import opened Stores
  import P = Payments

  class Database {
    var stock: map<nat, Row>
    var orders: map<nat, OrderData>
    var payments: map<nat, P.PaymentData>
    /** The sequence behind order ids. It is not transactional: a rollback leaves it advanced. */
    var nextId: nat

    ghost predicate Valid()
      reads this
    {
      nextId > 0 && forall i :: i in orders ==> 0 < i < nextId
    }

    function Rows(): Store
      reads this
    {
      Store(stock, orders, payments)
    }

    constructor (stock: map<nat, Row>)
      ensures Valid() && Rows() == Store(stock, map[], map[])
    {
      this.stock, orders, payments, nextId := stock, map[], map[], 1;
    }

    /** Undoes every statement since the given rows were current. */
    method Rollback(saved: Store)
      requires forall i :: i in saved.orders ==> 0 < i < nextId
      modifies this`stock, this`orders, this`payments
      ensures Valid() <== nextId > 0
      ensures Rows() == saved
    {
      stock, orders, payments := saved.stock, saved.orders, saved.payments;
    }

    method Reserve(p: nat, qty: int) returns (ok: bool)
      modifies this`stock
      ensures match StepProduct(StockOp.Reserve, old(stock), p, qty)
              case Some(next) => ok && stock == next
              case None => !ok && stock == old(stock)
    {
      ok := p in stock && stock[p].available >= qty;
      if ok {
        var row := stock[p];
        stock := stock[p := row.(available := row.available - qty, reserved := row.reserved + qty,
                                 version := row.version + 1)];
      }
    }

    method Release(p: nat, qty: int) returns (err: Option<ErrorKind>)
      modifies this`stock
      ensures match StepProduct(StockOp.Release, old(stock), p, qty)
              case Some(next) => err.None? && stock == next
              case None => err == Some(Conflict) && stock == old(stock)
    {
      if p !in stock || stock[p].reserved < qty {
        return Some(Conflict);
      }
      var row := stock[p];
      stock := stock[p := row.(available := row.available + qty, reserved := row.reserved - qty)];
      err := None;
    }

    method Commit(p: nat, qty: int) returns (err: Option<ErrorKind>)
      modifies this`stock
      ensures match StepProduct(StockOp.Commit, old(stock), p, qty)
              case Some(next) => err.None? && stock == next
              case None => err == Some(Conflict) && stock == old(stock)
    {
      if p !in stock || stock[p].reserved < qty {
        return Some(Conflict);
      }
      stock := stock[p := stock[p].(reserved := stock[p].reserved - qty)];
      err := None;
    }

    /** Unlike the others it reports no error when there is no such row. */
    method Restock(p: nat, qty: int)
      modifies this`stock
      ensures match StepProduct(StockOp.Restock, old(stock), p, qty)
              case Some(next) => stock == next
              case None => stock == old(stock)
    {
      if p in stock {
        var row := stock[p];
        stock := stock[p := row.(available := row.available + qty, version := row.version + 1)];
      }
    }

    /** The loop over an order's lines that the commands run: one statement each, until one fails. */
    method ReserveLines(items: seq<Item>) returns (ok: bool)
      modifies this`stock
      ensures match StepLines(StockOp.Reserve, old(stock), items)
              case Some(next) => ok && stock == next
              case None => !ok
    {
      assert items[0..] == items;
      for i := 0 to |items|
        invariant StepLines(StockOp.Reserve, old(stock), items) == StepLines(StockOp.Reserve, stock, items[i..])
      {
        ok := Reserve(items[i].productId, items[i].quantity);
        assert items[i..][1..] == items[i + 1..];
        if !ok {
          return;
        }
      }
      ok := true;
    }

    /** The loop over an order's lines that the commands run: one statement each, until one fails. */
    method ReleaseLines(items: seq<Item>) returns (err: Option<ErrorKind>)
      modifies this`stock
      ensures match StepLines(StockOp.Release, old(stock), items)
              case Some(next) => err.None? && stock == next
              case None => err == Some(Conflict)
    {
      assert items[0..] == items;
      for i := 0 to |items|
        invariant StepLines(StockOp.Release, old(stock), items) == StepLines(StockOp.Release, stock, items[i..])
      {
        err := Release(items[i].productId, items[i].quantity);
        assert items[i..][1..] == items[i + 1..];
        if err.Some? {
          return;
        }
      }
      err := None;
    }

    /** The loop over an order's lines that the commands run: one statement each, until one fails. */
    method CommitLines(items: seq<Item>) returns (err: Option<ErrorKind>)
      modifies this`stock
      ensures match StepLines(StockOp.Commit, old(stock), items)
              case Some(next) => err.None? && stock == next
              case None => err == Some(Conflict)
    {
      assert items[0..] == items;
      for i := 0 to |items|
        invariant StepLines(StockOp.Commit, old(stock), items) == StepLines(StockOp.Commit, stock, items[i..])
      {
        err := Commit(items[i].productId, items[i].quantity);
        assert items[i..][1..] == items[i + 1..];
        if err.Some? {
          return;
        }
      }
      err := None;
    }

    method CreateOrder(ord: Order) returns (err: Option<ErrorKind>)
      requires Valid() && ord.id == 0
      modifies this`orders, this`nextId, ord`id
      ensures Valid() && nextId == old(nextId) + 1
      ensures match Stores.CreateOrder(old(Rows()), old(nextId), ord.Data())
              case Ok(after) => err.None? && Rows() == after && ord.id == old(nextId)
              case Err(e) => err == Some(e) && Rows() == old(Rows()) && ord.id == 0
    {
      var id := nextId;
      nextId := nextId + 1;
      if KeyTaken(orders, ord.key) {
        return Some(Internal);
      }
      orders := orders[id := ord.Data()];
      ord.AssignId(id);
      err := None;
    }

    method UpdateOrder(ord: Order)
      requires Valid()
      modifies this`orders
      ensures Valid() && Rows() == Stores.UpdateOrder(old(Rows()), ord.id, ord.Data())
      ensures orders.Keys == old(orders).Keys
      ensures forall i :: i in orders && i != ord.id ==> orders[i] == old(orders)[i]
      ensures ord.id in orders ==>
                var before := old(orders)[ord.id];
                orders[ord.id] == OrderData(before.key, before.items, ord.total, ord.status, ord.failureReason)
    {
      if ord.id in orders {
        orders := orders[ord.id := orders[ord.id].(status := ord.status, total := ord.total,
                                                   failureReason := ord.failureReason)];
      }
    }

    method CreatePayment(pay: P.Payment) returns (err: Option<ErrorKind>)
      modifies this`payments
      ensures match Stores.CreatePayment(old(Rows()), pay.Data())
              case Ok(after) => err.None? && Rows() == after
              case Err(e) => err == Some(e) && Rows() == old(Rows())
    {
      if pay.orderId in payments || PaymentKeyTaken(payments, pay.key) {
        return Some(Internal);
      }
      payments, err := payments[pay.orderId := pay.Data()], None;
    }

    method FindOrder(id: nat) returns (r: Result<Order>)
      ensures r.Ok? <==> id in orders && Readable(orders[id])
      ensures r.Ok? ==>
                fresh(r.value) && r.value.Data() == orders[id] && r.value.id == id && r.value.pending == []
      ensures r.Err? ==> r.error == if id in orders then Fault(orders[id]).value else NotFound
    {
      if id !in orders {
        return Err(NotFound);
      }
      var fault := Fault(orders[id]);
      if fault.Some? {
        return Err(fault.value);
      }
      var o := new Order.Reconstitute(id, orders[id]);
      r := Ok(o);
    }

    method FindPayment(orderId: nat) returns (r: Result<P.Payment>)
      ensures r.Ok? <==> orderId in payments && !BadMoney(payments[orderId].amount)
      ensures r.Ok? ==> fresh(r.value) && r.value.Data() == payments[orderId]
      ensures r.Err? ==> r.error == if orderId in payments then Internal else NotFound
    {
      if orderId !in payments {
        return Err(NotFound);
      }
      if BadMoney(payments[orderId].amount) {
        return Err(Internal);
      }
      var p := new P.Payment(payments[orderId], []);
      r := Ok(p);
    }

    method UpdatePayment(orderId: nat, pay: P.Payment)
      modifies this`payments
      ensures payments == old(payments)[orderId := pay.Data()]
    {
      payments := payments[orderId := pay.Data()];
    }
  }
}
