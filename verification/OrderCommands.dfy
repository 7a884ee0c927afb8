/** Cancelling an order and changing its status, statement by statement. */
module OrderCommands {
  import opened Results
  import opened Inventories
  import opened Orders
  import opened Stores
  import opened Databases
  import P = Payments

  class CancelOrder {
    const db: Database

    constructor (db: Database)
      ensures this.db == db
    {
      this.db := db;
    }

    /** The statements of the transaction, for an order that was read before it began. */
    method Statements(ord: Order, wasReserved: bool, wasPaid: bool, reason: string) returns (err: Option<ErrorKind>)
      requires db.Valid()
      requires wasReserved == (ord.status == Reserved) && wasPaid == (ord.status == Paid)
      modifies db`stock, db`orders, db`payments, ord
      ensures db.Valid()
      ensures match CancelTx(old(db.Rows()), old(ord.id), old(ord.Data()), reason)
              case Ok(after) => err.None? && db.Rows() == after
              case Err(e) => err == Some(e)
      ensures err.None? ==> CancelledNow(old(ord.Data()), old(ord.pending), reason, ord.Data(), ord.pending)
    {
      if wasReserved || wasPaid {
        err := db.ReleaseLines(ord.items);
        if err.Some? {
          return;
        }
      }
      if wasPaid {
        var found := db.FindPayment(ord.id);
        if found.Err? {
          return Some(found.error);
        }
        err := found.value.Refund();
        if err.Some? {
          return;
        }
        db.UpdatePayment(ord.id, found.value);
      }
      err := ord.Cancel(reason);
      if err.Some? {
        return;
      }
      db.UpdateOrder(ord);
    }

    /** What cancelling leaves in memory: the order in its new status, and one event more. */
    ghost predicate CancelledNow(before: OrderData, outbox: seq<Event>, reason: string,
                              after: OrderData, pending: seq<Event>)
    {
      after == before.(status := Cancelled) && pending == outbox + [OrderCancelled(reason)]
    }

    /** The transaction: all of its statements or none. */
    method CancelFrom(ord: Order, reason: string) returns (err: Option<ErrorKind>)
      requires db.Valid()
      modifies db`stock, db`orders, db`payments, ord
      ensures db.Valid()
      ensures match CancelTx(old(db.Rows()), old(ord.id), old(ord.Data()), reason)
              case Ok(after) => err.None? && db.Rows() == after
              case Err(e) => err == Some(e) && db.Rows() == old(db.Rows())
      ensures err.None? ==> CancelledNow(old(ord.Data()), old(ord.pending), reason, ord.Data(), ord.pending)
    {
      var saved := db.Rows();
      err := Statements(ord, ord.status == Reserved, ord.status == Paid, reason);
      if err.Some? {
        db.Rollback(saved);
      }
    }

    /** The request: a read, the transaction, and after it the order's events. */
    method Handle(orderId: nat, reason: string) returns (r: Result<OrderData>, published: seq<Event>)
      requires db.Valid()
      modifies db`stock, db`orders, db`payments
      ensures db.Valid()
      ensures orderId !in old(db.orders) ==> r == Err(NotFound)
      ensures orderId in old(db.orders) && Fault(old(db.orders)[orderId]).Some? ==>
                r == Err(Fault(old(db.orders)[orderId]).value)
      ensures r.Err? ==> db.Rows() == old(db.Rows()) && published == []
      ensures orderId in old(db.orders) && Readable(old(db.orders)[orderId]) ==>
                match CancelTx(old(db.Rows()), orderId, old(db.orders)[orderId], reason)
                case Ok(after) =>
                  && db.Rows() == after && r == Ok(old(db.orders)[orderId].(status := Cancelled))
                  && published == [OrderCancelled(reason)]
                case Err(e) => r == Err(e)
    {
      published := [];
      var found := db.FindOrder(orderId);
      if found.Err? {
        return Err(found.error), [];
      }
      var err := CancelFrom(found.value, reason);
      if err.Some? {
        return Err(err.value), [];
      }
      published := found.value.PullEvents();
      r := Ok(found.value.Data());
    }
  }

  class UpdateOrderStatus {
    const db: Database

    constructor (db: Database)
      ensures this.db == db
    {
      this.db := db;
    }

    method Transition(o: Order, target: Status) returns (err: Option<ErrorKind>)
      modifies o
      ensures o.id == old(o.id)
      ensures match StatusMove(target)
              case None => err == Some(Validation) && o.Data() == old(o.Data())
              case Some(move) =>
                match MoveOrder(old(o.Data()), move)
                case Ok(after) => err.None? && o.Data() == after
                case Err(e) => err == Some(e) && o.Data() == old(o.Data())
    {
      match target {
        case Reserved => err := o.MarkReserved();
        case Paid => err := o.MarkPaid();
        case Fulfilled => err := o.MarkFulfilled();
        case Cancelled => err := o.Cancel("status updated by administrator");
        case Failed => err := o.Fail("status updated by administrator");
        case Pending => err := Some(Validation);
      }
    }

    method Handle(orderId: nat, target: Status) returns (err: Option<ErrorKind>)
      requires db.Valid()
      modifies db`orders
      ensures db.Valid()
      ensures err.Some? ==> db.Rows() == old(db.Rows())
      ensures orderId in old(db.orders) && Readable(old(db.orders)[orderId]) ==>
                match StatusTx(old(db.Rows()), orderId, old(db.orders)[orderId], target)
                case Ok(after) => err.None? && db.Rows() == after
                case Err(e) => err == Some(e)
      ensures orderId !in old(db.orders) ==> err == Some(NotFound)
      ensures orderId in old(db.orders) && !Readable(old(db.orders)[orderId]) ==> err == Fault(old(db.orders)[orderId])
    {
      var found := db.FindOrder(orderId);
      if found.Err? {
        return Some(found.error);
      }
      err := Transition(found.value, target);
      if err.None? {
        db.UpdateOrder(found.value);
      }
    }
  }
}
