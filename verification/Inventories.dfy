/**
  Stock of one product, twice: as the domain aggregate and as the database row that the
  repository changes with guarded updates. The row form refines the aggregate, and the
  aggregate's recorded events explain its counts.
 */
module Inventories {
  import opened Results

  datatype StockOp = Reserve | Release | Commit | Restock

  datatype Row = Row(available: int, reserved: int, version: int)

  /** The guarded UPDATE of the repository: None when no row matches the WHERE clause. */
  function RowStep(op: StockOp, row: Row, qty: int): Option<Row>
  {
    match op
    case Reserve =>
      if row.available >= qty then Some(Row(row.available - qty, row.reserved + qty, row.version + 1)) else None
    case Release =>
      if row.reserved >= qty then Some(Row(row.available + qty, row.reserved - qty, row.version)) else None
    case Commit =>
      if row.reserved >= qty then Some(Row(row.available, row.reserved - qty, row.version)) else None
    case Restock =>
      Some(Row(row.available + qty, row.reserved, row.version + 1))
  }

  /** The aggregate's method: it also checks the sign of the quantity and names the error. */
  function AggregateStep(op: StockOp, row: Row, qty: int): Result<Row>
  {
    if qty <= 0 then Err(Validation)
    else match op
      case Reserve =>
        if row.available < qty then Err(OutOfStock)
        else Ok(row.(available := row.available - qty, reserved := row.reserved + qty, version := row.version + 1))
      case Release =>
        if row.reserved < qty then Err(Validation)
        else Ok(row.(reserved := row.reserved - qty, available := row.available + qty))
      case Commit =>
        if row.reserved < qty then Err(Validation) else Ok(row.(reserved := row.reserved - qty))
      case Restock =>
        Ok(row.(available := row.available + qty, version := row.version + 1))
  }

  datatype StockEvent =
    | InventoryReserved(quantity: int)
    | InventoryReleased(quantity: int)
    | InventoryCommitted(quantity: int)
    | InventoryRestocked(quantity: int)

  function StockEventFor(op: StockOp, qty: int): StockEvent
  {
    match op
    case Reserve => InventoryReserved(qty)
    case Release => InventoryReleased(qty)
    case Commit => InventoryCommitted(qty)
    case Restock => InventoryRestocked(qty)
  }

  function ReplayStockOne(row: Row, event: StockEvent): Row
  {
    match event
    case InventoryReserved(q) => Row(row.available - q, row.reserved + q, row.version + 1)
    case InventoryReleased(q) => Row(row.available + q, row.reserved - q, row.version)
    case InventoryCommitted(q) => Row(row.available, row.reserved - q, row.version)
    case InventoryRestocked(q) => Row(row.available + q, row.reserved, row.version + 1)
  }

  /** What a reader of the event stream knows about the counts, starting from a known row. */
  function ReplayStock(start: Row, events: seq<StockEvent>): Row
  {
    if events == [] then start
    else ReplayStockOne(ReplayStock(start, events[..|events| - 1]), events[|events| - 1])
  }

  /** The domain aggregate. The ghost fields remember where it started and which events left it. */
  class Inventory {
    var available: int
    var reserved: int
    var version: int
    var pending: seq<StockEvent>
    ghost var opening: Row
    ghost var pulled: seq<StockEvent>

    ghost predicate Valid()
      reads this
    {
      && 0 <= available && 0 <= reserved
      && Counts() == ReplayStock(opening, pulled + pending)
    }

    function Counts(): Row
      reads this
    {
      Row(available, reserved, version)
    }

    constructor (available: int)
      requires available >= 0
      ensures Valid() && Counts() == Row(available, 0, 0) && pending == [] && pulled == []
    {
      this.available, reserved, version, pending := available, 0, 0, [];
      opening, pulled := Row(available, 0, 0), [];
    }

    /** The call (op, qty) was answered by err, from the given counts and outbox. */
    ghost predicate Outcome(op: StockOp, qty: int, counts: Row, outbox: seq<StockEvent>, err: Option<ErrorKind>)
      reads this
    {
      match AggregateStep(op, counts, qty)
      case Ok(row) => err.None? && Counts() == row && pending == outbox + [StockEventFor(op, qty)]
      case Err(e) => err == Some(e) && Counts() == counts && pending == outbox
    }

    method Record(event: StockEvent)
      modifies this`pending
      ensures pending == old(pending) + [event]
      ensures ReplayStock(opening, pulled + pending)
          == ReplayStockOne(ReplayStock(opening, pulled + old(pending)), event)
    {
      pending := pending + [event];
      assert pulled + pending == (pulled + old(pending)) + [event];
    }

    method Reserve(qty: int) returns (err: Option<ErrorKind>)
      requires Valid()
      modifies this
      ensures Valid() && opening == old(opening) && pulled == old(pulled)
      ensures Outcome(StockOp.Reserve, qty, old(Counts()), old(pending), err)
    {
      if qty <= 0 {
        return Some(Validation);
      }
      if available < qty {
        return Some(OutOfStock);
      }
      available, reserved, version := available - qty, reserved + qty, version + 1;
      Record(StockEventFor(StockOp.Reserve, qty));
      err := None;
    }

    method Release(qty: int) returns (err: Option<ErrorKind>)
      requires Valid()
      modifies this
      ensures Valid() && opening == old(opening) && pulled == old(pulled)
      ensures Outcome(StockOp.Release, qty, old(Counts()), old(pending), err)
    {
      if qty <= 0 {
        return Some(Validation);
      }
      if reserved < qty {
        return Some(Validation);
      }
      reserved, available := reserved - qty, available + qty;
      Record(StockEventFor(StockOp.Release, qty));
      err := None;
    }

    method Commit(qty: int) returns (err: Option<ErrorKind>)
      requires Valid()
      modifies this
      ensures Valid() && opening == old(opening) && pulled == old(pulled)
      ensures Outcome(StockOp.Commit, qty, old(Counts()), old(pending), err)
    {
      if qty <= 0 {
        return Some(Validation);
      }
      if reserved < qty {
        return Some(Validation);
      }
      reserved := reserved - qty;
      Record(StockEventFor(StockOp.Commit, qty));
      err := None;
    }

    method Restock(qty: int) returns (err: Option<ErrorKind>)
      requires Valid()
      modifies this
      ensures Valid() && opening == old(opening) && pulled == old(pulled)
      ensures Outcome(StockOp.Restock, qty, old(Counts()), old(pending), err)
    {
      if qty <= 0 {
        return Some(Validation);
      }
      available, version := available + qty, version + 1;
      Record(StockEventFor(StockOp.Restock, qty));
      err := None;
    }

    method PullEvents() returns (events: seq<StockEvent>)
      requires Valid()
      modifies this
      ensures Valid() && Counts() == old(Counts()) && opening == old(opening)
      ensures events == old(pending) && pending == [] && pulled == old(pulled) + events
    {
      events := pending;
      pending := [];
      pulled := pulled + events;
      assert pulled + pending == old(pulled + pending);
    }
  }

  /** NewInventory: the only way to obtain a fresh aggregate. */
  method NewInventory(productId: nat, available: int, reorderLevel: int) returns (r: Result<Inventory>)
    ensures r.Ok? <==> productId != 0 && available >= 0 && reorderLevel >= 0
    ensures r.Err? ==> r.error == Validation
    ensures r.Ok? ==> fresh(r.value) && r.value.Valid() && r.value.Counts() == Row(available, 0, 0)
  {
    if productId == 0 || available < 0 || reorderLevel < 0 {
      return Err(Validation);
    }
    var inv := new Inventory(available);
    r := Ok(inv);
  }

  /** Which error a rejected call gets: a bad quantity first, then short stock by its own kind. */
  lemma RejectionsAreExact(op: StockOp, row: Row, qty: int)
    ensures AggregateStep(op, row, qty) == Err(OutOfStock) <==> op == Reserve && qty > 0 && row.available < qty
    ensures AggregateStep(op, row, qty) == Err(Validation) <==>
              qty <= 0 || ((op == Release || op == Commit) && row.reserved < qty)
    ensures AggregateStep(op, row, qty).Err? ==>
              AggregateStep(op, row, qty).error == OutOfStock || AggregateStep(op, row, qty).error == Validation
  {
  }

  /** Units only move between the two counts, leave by a commit or come by a restock; a release undoes a reservation. */
  lemma UnitsMove(op: StockOp, row: Row, qty: int)
    requires AggregateStep(op, row, qty).Ok?
    ensures var next := AggregateStep(op, row, qty).value;
            && next.available + next.reserved == row.available + row.reserved
                 + (if op == Restock then qty else if op == Commit then -qty else 0)
            && next.available == row.available
                 + (if op == Reserve then -qty else if op == Commit then 0 else qty)
            && (op == Reserve && row.reserved >= 0 ==>
                  AggregateStep(Release, next, qty) == Ok(row.(version := row.version + 1)))
            && next.version == row.version + (if op == Reserve || op == Restock then 1 else 0)
  {
  }

  // ---------- Runs of calls on one aggregate or one row ----------

  /** A call on the aggregate: a stock operation, or the outbox being emptied. */
  datatype Call = Op(op: StockOp, qty: int) | Pull

  datatype Aggregate = Aggregate(row: Row, pending: seq<StockEvent>, pulled: seq<StockEvent>)

  function CallStep(a: Aggregate, call: Call): Aggregate
  {
    match call
    case Pull => Aggregate(a.row, [], a.pulled + a.pending)
    case Op(op, qty) =>
      match AggregateStep(op, a.row, qty)
      case Ok(row) => Aggregate(row, a.pending + [StockEventFor(op, qty)], a.pulled)
      case Err(_) => a
  }

  function RunCalls(a: Aggregate, calls: seq<Call>): Aggregate
    decreases |calls|
  {
    if calls == [] then a else RunCalls(CallStep(a, calls[0]), calls[1..])
  }

  /** One call keeps the replay of all events so far equal to the counts. */
  lemma CallKeepsReplay(start: Row, a: Aggregate, call: Call)
    requires a.row == ReplayStock(start, a.pulled + a.pending)
    requires a.row.available >= 0 && a.row.reserved >= 0
    ensures var b := CallStep(a, call);
            && b.row == ReplayStock(start, b.pulled + b.pending)
            && b.row.available >= 0 && b.row.reserved >= 0
  {
    var b := CallStep(a, call);
    match call {
      case Pull => assert b.pulled + b.pending == a.pulled + a.pending;
      case Op(op, qty) =>
        if b != a {
          assert b.pulled + b.pending == (a.pulled + a.pending) + [StockEventFor(op, qty)];
        }
    }
  }

  lemma {:induction false} EventsExplainCountsFrom(start: Row, a: Aggregate, calls: seq<Call>)
    requires a.row == ReplayStock(start, a.pulled + a.pending)
    requires a.row.available >= 0 && a.row.reserved >= 0
    ensures var b := RunCalls(a, calls);
            && b.row == ReplayStock(start, b.pulled + b.pending)
            && b.row.available >= 0 && b.row.reserved >= 0
    decreases |calls|
  {
    if calls != [] {
      CallKeepsReplay(start, a, calls[0]);
      EventsExplainCountsFrom(start, CallStep(a, calls[0]), calls[1..]);
    }
  }

  /** Wherever the outbox is emptied, the events recorded so far replay to the current counts. */
  lemma EventsExplainCounts(start: Row, calls: seq<Call>)
    requires start.available >= 0 && start.reserved >= 0
    ensures var b := RunCalls(Aggregate(start, [], []), calls);
            && b.row == ReplayStock(start, b.pulled + b.pending)
            && b.row.available >= 0 && b.row.reserved >= 0
  {
    EventsExplainCountsFrom(start, Aggregate(start, [], []), calls);
  }

  /** The row after a series of guarded updates, and which of them matched. */
  function RunRow(row: Row, ops: seq<(StockOp, int)>): (Row, seq<bool>)
    decreases |ops|
  {
    if ops == [] then (row, [])
    else
      match RowStep(ops[0].0, row, ops[0].1)
      case Some(next) => var (last, oks) := RunRow(next, ops[1..]); (last, [true] + oks)
      case None => var (last, oks) := RunRow(row, ops[1..]); (last, [false] + oks)
  }

  /** The aggregate after the same series, and which calls returned no error. */
  function RunAggregate(row: Row, ops: seq<(StockOp, int)>): (Row, seq<bool>)
    decreases |ops|
  {
    if ops == [] then (row, [])
    else
      match AggregateStep(ops[0].0, row, ops[0].1)
      case Ok(next) => var (last, oks) := RunAggregate(next, ops[1..]); (last, [true] + oks)
      case Err(_) => var (last, oks) := RunAggregate(row, ops[1..]); (last, [false] + oks)
  }

  /** The repository refines the aggregate: same operations accepted, same counts and version. */
  lemma {:induction false} RowRefinesAggregate(row: Row, ops: seq<(StockOp, int)>)
    requires forall i :: 0 <= i < |ops| ==> ops[i].1 > 0
    ensures RunRow(row, ops) == RunAggregate(row, ops)
    decreases |ops|
  {
    if ops != [] {
      match RowStep(ops[0].0, row, ops[0].1) {
        case Some(next) => RowRefinesAggregate(next, ops[1..]);
        case None => RowRefinesAggregate(row, ops[1..]);
      }
    }
  }

  /**
    The repository does not check the sign, so the two agree on one call exactly when the
    quantity is positive: every other quantity is refused by the aggregate and taken by the row.
   */
  lemma AgreementNeedsPositiveQuantity(op: StockOp, row: Row, qty: int)
    requires row.available >= 0 && row.reserved >= 0
    ensures RowStep(op, row, qty).Some? == AggregateStep(op, row, qty).Ok? <==> qty > 0
  {
  }
}
