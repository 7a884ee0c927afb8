/**
  Order processing as a step system: any number of workers, cancellations and status changes
  interleave over one database and one gateway, and any of them may stop at any point.
  A transaction is one step, because it only writes rows it has locked and rolls back on error;
  the reads that the commands make outside their transactions are steps of their own.
 */
module Protocol {
  import opened Results
  import opened Inventories
  import opened Orders
  import opened Gateways
  import opened Stores
  import opened PlaceOrders
  import P = Payments

  datatype Phase =
    | Queued                                      // waiting for a pool worker
    | Charging(pay: P.PaymentData)                // transaction one has committed; about to call the gateway
    | Calling(pay: P.PaymentData)                 // asleep in the gateway
    | Settling(pay: P.PaymentData, charge: Charge) // about to run transaction two
    | Over(row: Option<nat>, outcome: Option<Outcome>) // returned, or stopped without an outcome

  /** One execution of process: the order it holds in memory, and how far it is. */
  datatype Worker = Worker(order: OrderData, phase: Phase) {

    /** The order row that transaction one of this worker has committed. */
    function Row(): Option<nat>
    {
      match phase
      case Queued => None
      case Charging(pay) => Some(pay.orderId)
      case Calling(pay) => Some(pay.orderId)
      case Settling(pay, _) => Some(pay.orderId)
      case Over(row, _) => row
    }

    predicate Live() {
      !phase.Over?
    }
  }

  /** An order as a command read it before its transaction. */
  datatype Reading = Reading(id: nat, order: OrderData)

  datatype World = World(
    store: Store,
    memo: Memo,
    workers: map<nat, Worker>,
    cancels: map<nat, Reading>,
    changes: map<nat, Reading>,
    maxAttempts: int,
    supplied: map<nat, int>,   // history: units that products were created or restocked with
    sold: map<nat, int>)       // history: units that settling transactions committed

  datatype Action =
    | Submit(w: nat, order: OrderData)
    | Place(w: nat, id: nat)
    | BeginCharge(w: nat)
    | EndCharge(w: nat, reply: Reply)
    | Settle(w: nat)
    | Abort(w: nat)
    | ReadForCancel(c: nat, id: nat)
    | CancelRead(c: nat, reason: string)
    | DropCancel(c: nat)
    | ReadForChange(c: nat, id: nat)
    | ChangeRead(c: nat, target: Status)
    | AddProduct(p: nat, units: int)
    | RestockProduct(p: nat, units: int)

  predicate Enabled(w: World, a: Action)
  {
    match a
    case Submit(k, o) => k !in w.workers && Placeable(o)
    case Place(k, id) => k in w.workers && w.workers[k].phase.Queued? && id != 0 && id !in w.store.orders
    case BeginCharge(k) => k in w.workers && w.workers[k].phase.Charging?
    case EndCharge(k, reply) =>
      && k in w.workers && w.workers[k].phase.Calling?
      && (match reply case Approve(ref) => ref != "" case Refuse(reason) => reason != "")
    case Settle(k) => k in w.workers && w.workers[k].phase.Settling?
    case Abort(k) => k in w.workers && w.workers[k].Live()
    case ReadForCancel(c, id) => c !in w.cancels && id in w.store.orders
    case CancelRead(c, _) => c in w.cancels
    case DropCancel(c) => c in w.cancels
    case ReadForChange(c, id) => c !in w.changes && id in w.store.orders
    case ChangeRead(c, _) => c in w.changes
    case AddProduct(p, units) => p !in w.store.stock && units >= 0
    case RestockProduct(p, units) => p in w.store.stock && units > 0
  }

  function Advance(w: World, k: nat, phase: Phase): World
    requires k in w.workers
  {
    w.(workers := w.workers[k := w.workers[k].(phase := phase)])
  }

  function Count(m: map<nat, int>, p: nat): int
  {
    if p in m then m[p] else 0
  }

  function AddLines(m: map<nat, int>, stock: map<nat, Row>, items: seq<Item>): map<nat, int>
  {
    map p | p in stock :: Count(m, p) + Qty(items, p)
  }

  function AfterReserve(w: World, k: nat, id: nat): World
    requires Enabled(w, Place(k, id))
  {
    var o := w.workers[k].order;
    match ReserveTx(w.store, id, o)
    case Err(e) => Advance(w, k, Over(None, Some(Rejected(e))))
    case Ok(after) =>
      var phase := match P.NewPaymentData(id, o.key, o.total)
                   case Err(e) => Over(Some(id), Some(Unpaid(e)))
                   case Ok(pay) => Charging(pay);
      w.(store := after, workers := w.workers[k := Worker(o.(status := Reserved), phase)])
  }

  function AfterBeginCharge(w: World, k: nat): World
    requires Enabled(w, BeginCharge(k))
  {
    var pay := w.workers[k].phase.pay;
    var tried := pay.(attempts := pay.attempts + 1, provider := "mock");
    var key := w.workers[k].order.key;
    Advance(w, k, if key in w.memo then Settling(tried, Charged(w.memo[key])) else Calling(tried))
  }

  function AfterEndCharge(w: World, k: nat, reply: Reply): World
    requires Enabled(w, EndCharge(k, reply))
  {
    var pay := w.workers[k].phase.pay;
    var key := w.workers[k].order.key;
    match reply
    case Refuse(reason) =>
      Advance(w, k, if pay.attempts == Attempts(w.maxAttempts) then Settling(pay, Declined(reason)) else Charging(pay))
    case Approve(ref) =>
      var memo := Record(w.memo, key, ref);
      Advance(w, k, Settling(pay, Charged(memo[key]))).(memo := memo)
  }

  function AfterSettle(w: World, k: nat): World
    requires Enabled(w, Settle(k))
  {
    var x := w.workers[k];
    var pay, charge := x.phase.pay, x.phase.charge;
    match SettleTx(w.store, pay.orderId, x.order, pay, charge)
    case Err(e) => Advance(w, k, Over(Some(pay.orderId), Some(Unsettled(e))))
    case Ok(after) =>
      var outcome := if charge.Charged? then Completed else PaymentDeclined;
      Advance(w, k, Over(Some(pay.orderId), Some(outcome))).(
        store := after,
        sold := if charge.Charged? then AddLines(w.sold, w.store.stock, x.order.items) else w.sold)
  }

  function AfterCancel(w: World, c: nat, reason: string): World
    requires Enabled(w, CancelRead(c, reason))
  {
    var read := w.cancels[c];
    var rest := w.(cancels := w.cancels - {c});
    match CancelTx(w.store, read.id, read.order, reason)
    case Err(_) => rest
    case Ok(after) => rest.(store := after)
  }

  function AfterChange(w: World, c: nat, target: Status): World
    requires Enabled(w, ChangeRead(c, target))
  {
    var read := w.changes[c];
    var rest := w.(changes := w.changes - {c});
    match StatusTx(w.store, read.id, read.order, target)
    case Err(_) => rest
    case Ok(after) => rest.(store := after)
  }

  function Supply(w: World, p: nat, units: int, row: Row): World
  {
    w.(store := w.store.(stock := w.store.stock[p := row]), supplied := w.supplied[p := Count(w.supplied, p) + units])
  }

  function Apply(w: World, a: Action): World
    requires Enabled(w, a)
  {
    match a
    case Submit(k, o) => w.(workers := w.workers[k := Worker(o, Queued)])
    case Place(k, id) => AfterReserve(w, k, id)
    case BeginCharge(k) => AfterBeginCharge(w, k)
    case EndCharge(k, reply) => AfterEndCharge(w, k, reply)
    case Settle(k) => AfterSettle(w, k)
    case Abort(k) => Advance(w, k, Over(w.workers[k].Row(), None))
    case ReadForCancel(c, id) => w.(cancels := w.cancels[c := Reading(id, w.store.orders[id])])
    case CancelRead(c, reason) => AfterCancel(w, c, reason)
    case DropCancel(c) => w.(cancels := w.cancels - {c})
    case ReadForChange(c, id) => w.(changes := w.changes[c := Reading(id, w.store.orders[id])])
    case ChangeRead(c, target) => AfterChange(w, c, target)
    case AddProduct(p, units) => Supply(w, p, units, Row(units, 0, 0))
    case RestockProduct(p, units) => Supply(w, p, units, RowStep(Restock, w.store.stock[p], units).value)
  }

  /** Nothing sold, nothing running, no products yet. */
  predicate Initial(w: World)
  {
    && w.store == Store(map[], map[], map[]) && w.memo == map[]
    && w.workers == map[] && w.cancels == map[] && w.changes == map[]
    && w.supplied == map[] && w.sold == map[]
  }

  /** The actions can be taken one after the other from w, and lead to v. */
  ghost predicate Runs(w: World, actions: seq<Action>, v: World)
    decreases |actions|
  {
    if actions == [] then w == v
    else Enabled(w, actions[0]) && Runs(Apply(w, actions[0]), actions[1..], v)
  }

  /**
    The conditions under which the ledger holds: a cancellation does not overlap a live worker or
    another cancellation of the same order, and no administrator moves a status by hand.
   */
  predicate Disciplined(w: World, a: Action)
  {
    match a
    case ReadForCancel(_, id) =>
      && (forall k :: k in w.workers && w.workers[k].Live() ==> w.workers[k].Row() != Some(id))
      && (forall c :: c in w.cancels ==> w.cancels[c].id != id)
    case ReadForChange(_, _) => false
    case ChangeRead(_, _) => false
    case _ => true
  }

  ghost predicate DisciplinedRuns(w: World, actions: seq<Action>, v: World)
    decreases |actions|
  {
    if actions == [] then w == v
    else
      && Enabled(w, actions[0]) && Disciplined(w, actions[0])
      && DisciplinedRuns(Apply(w, actions[0]), actions[1..], v)
  }
}
