/**
  The order aggregate: its items and total, and the status machine with the events it records.
 */
module Orders {
  import opened Results
  import opened MoneyModel

  datatype Status = Pending | Reserved | Paid | Fulfilled | Cancelled | Failed {

    predicate IsTerminal() {
      Fulfilled? || Cancelled? || Failed?
    }

    predicate CanCancel() {
      Pending? || Reserved? || Paid?
    }
  }

  datatype Item = Item(productId: nat, unitPrice: Money, quantity: int) {

    function Subtotal(): Money {
      unitPrice.Mul(quantity)
    }
  }

  function NewItem(productId: nat, unitPrice: Money, quantity: int): Result<Item>
  {
    if quantity <= 0 then Err(Validation) else Ok(Item(productId, unitPrice, quantity))
  }

  /** The part of an order that is persisted, and that a reader gets back. */
  datatype OrderData = OrderData(key: string, items: seq<Item>, total: Money, status: Status, failureReason: string)

  datatype Event =
    | OrderPlaced(total: Money)
    | OrderReserved
    | OrderPaid
    | OrderFulfilled
    | OrderCancelled(reason: string)
    | OrderFailed(reason: string)

  // ---------- The total ----------

  /** The total as arithmetic defines it: no wrap-around. */
  function ExactTotal(items: seq<Item>): int
  {
    if items == [] then 0
    else ExactTotal(items[..|items| - 1]) + items[|items| - 1].unitPrice.amount * items[|items| - 1].quantity
  }

  /** The total that NewOrder computes: exact up to wrapping, in the currency of the first item. */
  function NewTotal(items: seq<Item>): Money
    requires items != []
  {
    Money(Wrap(ExactTotal(items)), items[0].unitPrice.currency)
  }

  /** The total adds up over the lines, */
  lemma {:induction false} TotalAddsUp(a: seq<Item>, b: seq<Item>)
    ensures ExactTotal(a + b) == ExactTotal(a) + ExactTotal(b)
    decreases |b|
  {
    if b == [] {
      assert a + b == a;
    } else {
      var init, last := b[..|b| - 1], b[|b| - 1];
      assert (a + b)[..|a + b| - 1] == a + init;
      TotalAddsUp(a, init);
    }
  }

  /** and one line costs its unit price times its quantity, modulo 2^64 as an order's total. */
  lemma TotalOfOneLine(x: Item)
    ensures ExactTotal([x]) == x.unitPrice.amount * x.quantity
    ensures NewTotal([x]) == x.Subtotal() == x.unitPrice.Mul(x.quantity)
    ensures (NewTotal([x]).amount - x.unitPrice.amount * x.quantity) % TWO_64 == 0
  {
    assert [x][..0] == [];
    WrapIsResidue(x.unitPrice.amount * x.quantity, 0);
  }

  predicate OneCurrency(items: seq<Item>)
  {
    forall i :: 0 <= i < |items| ==> items[i].unitPrice.currency == items[0].unitPrice.currency
  }

  lemma {:induction false} ExactTotalNonNegative(items: seq<Item>)
    requires forall i :: 0 <= i < |items| ==> items[i].unitPrice.amount >= 0 && items[i].quantity > 0
    ensures ExactTotal(items) >= 0
  {
    if items != [] {
      ExactTotalNonNegative(items[..|items| - 1]);
    }
  }

  /**
    When the int64 total can be trusted. With non-negative prices and positive quantities the
    wrapped total is the exact total precisely when the exact total is below 2^63, and the order
    looks free precisely when the exact total is a multiple of 2^64.
   */
  lemma TotalIsExactIffItFits(items: seq<Item>)
    requires forall i :: 0 <= i < |items| ==> items[i].unitPrice.amount >= 0 && items[i].quantity > 0
    ensures Wrap(ExactTotal(items)) == ExactTotal(items) <==> ExactTotal(items) < TWO_63
    ensures Wrap(ExactTotal(items)) == 0 <==> ExactTotal(items) % TWO_64 == 0
  {
    ExactTotalNonNegative(items);
    WrapIsResidue(ExactTotal(items), 0);
  }

  // ---------- The status machine ----------

  /** A call on an order that may move its status. */
  datatype Move = MarkReserved | MarkPaid | MarkFulfilled | Cancel(reason: string) | Fail(reason: string)

  /** The status a call leads to, or None when the call is rejected. */
  function Target(s: Status, move: Move): Option<Status>
  {
    match move
    case MarkReserved => if s == Pending then Some(Reserved) else None
    case MarkPaid => if s == Reserved then Some(Paid) else None
    case MarkFulfilled => if s == Paid then Some(Fulfilled) else None
    case Cancel(_) => if s.CanCancel() then Some(Cancelled) else None
    case Fail(_) => if s.IsTerminal() then None else Some(Failed)
  }

  function EventFor(move: Move): Event
  {
    match move
    case MarkReserved => OrderReserved
    case MarkPaid => OrderPaid
    case MarkFulfilled => OrderFulfilled
    case Cancel(reason) => OrderCancelled(reason)
    case Fail(reason) => OrderFailed(reason)
  }

  function MoveData(o: OrderData, move: Move): Option<OrderData>
  {
    match Target(o.status, move)
    case None => None
    case Some(s) => Some(o.(status := s, failureReason := if move.Fail? then move.reason else o.failureReason))
  }

  class Order {
    const items: seq<Item>
    const total: Money
    const key: string
    var id: nat
    var status: Status
    var failureReason: string
    var pending: seq<Event>

    function Data(): OrderData
      reads this
    {
      OrderData(key, items, total, status, failureReason)
    }

    constructor (items: seq<Item>, total: Money, key: string)
      ensures Data() == OrderData(key, items, total, Pending, "") && id == 0
      ensures pending == [OrderPlaced(total)]
    {
      this.items, this.total, this.key := items, total, key;
      id, status, failureReason := 0, Pending, "";
      pending := [OrderPlaced(total)];
    }

    /** Rebuilds an order from its row; nothing is recorded. */
    constructor Reconstitute(id: nat, data: OrderData)
      ensures Data() == data && this.id == id && pending == []
    {
      items, total, key := data.items, data.total, data.key;
      this.id, status, failureReason := id, data.status, data.failureReason;
      pending := [];
    }

    /** The answer err to the given move, from the given data and outbox. */
    ghost predicate Answers(move: Move, before: OrderData, outbox: seq<Event>, err: Option<ErrorKind>)
      reads this
    {
      match MoveData(before, move)
      case Some(after) => err.None? && Data() == after && pending == outbox + [EventFor(move)]
      case None => err == Some(Conflict) && Data() == before && pending == outbox
    }

    method AssignId(newId: nat)
      modifies this`id
      ensures id == if old(id) == 0 then newId else old(id)
    {
      if id == 0 {
        id := newId;
      }
    }

    method MarkReserved() returns (err: Option<ErrorKind>)
      modifies this`status, this`pending
      ensures Answers(Move.MarkReserved, old(Data()), old(pending), err)
    {
      if status != Pending {
        return Some(Conflict);
      }
      status, pending, err := Reserved, pending + [OrderReserved], None;
    }

    method MarkPaid() returns (err: Option<ErrorKind>)
      modifies this`status, this`pending
      ensures Answers(Move.MarkPaid, old(Data()), old(pending), err)
    {
      if status != Reserved {
        return Some(Conflict);
      }
      status, pending, err := Paid, pending + [OrderPaid], None;
    }

    method MarkFulfilled() returns (err: Option<ErrorKind>)
      modifies this`status, this`pending
      ensures Answers(Move.MarkFulfilled, old(Data()), old(pending), err)
    {
      if status != Paid {
        return Some(Conflict);
      }
      status, pending, err := Fulfilled, pending + [OrderFulfilled], None;
    }

    method Cancel(reason: string) returns (err: Option<ErrorKind>)
      modifies this`status, this`pending
      ensures Answers(Move.Cancel(reason), old(Data()), old(pending), err)
    {
      if !status.CanCancel() {
        return Some(Conflict);
      }
      status, pending, err := Cancelled, pending + [OrderCancelled(reason)], None;
    }

    method Fail(reason: string) returns (err: Option<ErrorKind>)
      modifies this`status, this`failureReason, this`pending
      ensures Answers(Move.Fail(reason), old(Data()), old(pending), err)
    {
      if status.IsTerminal() {
        return Some(Conflict);
      }
      status, failureReason := Failed, reason;
      pending, err := pending + [OrderFailed(reason)], None;
    }

    method PullEvents() returns (events: seq<Event>)
      modifies this`pending
      ensures events == old(pending) && pending == []
    {
      events, pending := pending, [];
    }
  }

  method NewOrder(items: seq<Item>, key: string) returns (r: Result<Order>)
    ensures r.Ok? <==> items != [] && key != "" && OneCurrency(items)
    ensures r.Err? ==> r.error == Validation
    ensures r.Ok? ==>
              && fresh(r.value) && r.value.id == 0
              && r.value.Data() == OrderData(key, items, NewTotal(items), Pending, "")
              && r.value.pending == [OrderPlaced(r.value.total)]
  {
    if |items| < 1 || key == "" {
      return Err(Validation);
    }
    var currency := items[0].unitPrice.currency;
    var total := Money(0, currency);
    for i := 0 to |items|
      invariant OneCurrency(items[..i])
      invariant total == Money(Wrap(ExactTotal(items[..i])), currency)
    {
      if items[i].unitPrice.currency != currency {
        return Err(Validation);
      }
      WrapSum(ExactTotal(items[..i]), items[i].unitPrice.amount * items[i].quantity);
      assert items[..i + 1][..i] == items[..i];
      var sum := total.Add(items[i].Subtotal());
      total := sum.value;
    }
    assert items[..|items|] == items;
    var o := new Order(items, total, key);
    r := Ok(o);
  }

  // ---------- Runs of calls on one order ----------

  /** The status that a reader of the recorded events would compute. */
  function Replay(start: Status, events: seq<Event>): Status
  {
    if events == [] then start
    else match events[|events| - 1]
      case OrderPlaced(_) => Pending
      case OrderReserved => Reserved
      case OrderPaid => Paid
      case OrderFulfilled => Fulfilled
      case OrderCancelled(_) => Cancelled
      case OrderFailed(_) => Failed
  }

  lemma ReplayInTwo(start: Status, a: seq<Event>, b: seq<Event>)
    ensures Replay(start, a + b) == Replay(Replay(start, a), b)
  {
  }

  datatype Run = Run(status: Status, events: seq<Event>, accepted: nat)

  function RunMoves(run: Run, moves: seq<Move>): Run
    decreases |moves|
  {
    if moves == [] then run
    else
      match Target(run.status, moves[0])
      case None => RunMoves(run, moves[1..])
      case Some(s) => RunMoves(Accepted(run, moves[0], s), moves[1..])
  }

  function Rank(s: Status): nat
  {
    match s
    case Pending => 0
    case Reserved => 1
    case Paid => 2
    case _ => 3
  }

  function Accepted(run: Run, move: Move, s: Status): Run
  {
    Run(s, run.events + [EventFor(move)], run.accepted + 1)
  }

  /** One accepted call: its event replays to the new status, which has a higher rank. */
  lemma MoveRaisesRank(start: Status, run: Run, move: Move)
    requires Target(run.status, move).Some?
    ensures var s := Target(run.status, move).value;
            Replay(start, Accepted(run, move, s).events) == s && Rank(run.status) < Rank(s) && !run.status.IsTerminal()
  {
  }

  /**
    Any series of calls: the recorded events replay to the status, every accepted call raises
    the rank (so at most three succeed from pending), and a terminal status never changes.
   */
  lemma {:induction false} RunsFollowTheMachine(start: Status, run: Run, moves: seq<Move>)
    requires run.status == Replay(start, run.events)
    ensures var end := RunMoves(run, moves);
            && end.status == Replay(start, end.events)
            && run.accepted <= end.accepted
            && |end.events| - |run.events| == end.accepted - run.accepted
            && Rank(run.status) + (end.accepted - run.accepted) <= Rank(end.status) <= 3
            && (run.status.IsTerminal() ==> end == run)
    decreases |moves|
  {
    if moves != [] {
      match Target(run.status, moves[0]) {
        case None => RunsFollowTheMachine(start, run, moves[1..]);
        case Some(s) =>
          MoveRaisesRank(start, run, moves[0]);
          RunsFollowTheMachine(start, Accepted(run, moves[0], s), moves[1..]);
      }
    }
  }

  /** The transitions drawn in the state diagram of the documentation. */
  predicate DiagramEdge(s: Status, t: Status)
  {
    match s
    case Pending => t == Reserved || t == Failed || t == Cancelled
    case Reserved => t == Paid || t == Failed || t == Cancelled
    case Paid => t == Fulfilled || t == Cancelled
    case _ => false
  }

  /** The code follows the diagram except for one extra transition: a paid order can be failed. */
  lemma CodeAllowsOneMoreEdge(s: Status, t: Status)
    ensures (exists m :: Target(s, m) == Some(t)) <==> DiagramEdge(s, t) || (s == Paid && t == Failed)
  {
    assert Target(s, MarkReserved) == if s == Pending then Some(Reserved) else None;
    assert Target(s, MarkPaid) == if s == Reserved then Some(Paid) else None;
    assert Target(s, MarkFulfilled) == if s == Paid then Some(Fulfilled) else None;
    assert Target(s, Cancel("")) == if s.CanCancel() then Some(Cancelled) else None;
    assert Target(s, Fail("")) == if s.IsTerminal() then None else Some(Failed);
  }
}
