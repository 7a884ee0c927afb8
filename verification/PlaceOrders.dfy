/**
  Placing an order: two transactions with a bounded charge-retry loop between them.
  The class runs them statement by statement; Process states their joint effect as a function,
  and ProcessOutcomes says what that effect is.
 */
module PlaceOrders {
  import opened Results
  import opened MoneyModel
  import opened Inventories
  import opened Orders
  import opened Gateways
  import opened Stores
  import opened Databases
  import P = Payments

  datatype Outcome =
    | Rejected(error: ErrorKind)
    | Unpaid(error: ErrorKind)
    | Completed
    | PaymentDeclined
    | Unsettled(error: ErrorKind)

  function Attempts(maxAttempts: int): nat
    ensures Attempts(maxAttempts) >= 1
  {
    if maxAttempts < 1 then 1 else maxAttempts
  }

  /** The retry loop from the given attempt on; replies(n) is how the sleep of attempt n would end. */
  function ChargeLoop(memo: Memo, key: string, replies: nat -> Reply, attempt: nat, last: nat): (Memo, Charge, nat)
    requires 1 <= attempt <= last
    decreases last - attempt
  {
    var (next, charge) := ChargeOnce(memo, key, replies(attempt));
    if charge.Charged? || attempt == last then (next, charge, attempt)
    else ChargeLoop(next, key, replies, attempt + 1, last)
  }

  /** The charges and transaction two, for a reserved order and its new payment. */
  function Finish(s: Store, memo: Memo, id: nat, o: OrderData, p: P.PaymentData, maxAttempts: int,
                  replies: nat -> Reply)
    : (Store, Memo, Outcome)
  {
    var (next, charge, n) := ChargeLoop(memo, o.key, replies, 1, Attempts(maxAttempts));
    match SettleTx(s, id, o, p.(provider := "mock", attempts := n), charge)
    case Err(e) => (s, next, Unsettled(e))
    case Ok(after) => (after, next, if charge.Charged? then Completed else PaymentDeclined)
  }

  function Process(s: Store, memo: Memo, id: nat, o: OrderData, maxAttempts: int, replies: nat -> Reply)
    : (Store, Memo, Outcome)
  {
    match ReserveTx(s, id, o)
    case Err(e) => (s, memo, Rejected(e))
    case Ok(held) =>
      match P.NewPaymentData(id, o.key, o.total)
      case Err(e) => (held, memo, Unpaid(e))
      case Ok(p) => Finish(held, memo, id, o.(status := Reserved), p, maxAttempts, replies)
  }

  // ---------- What processing one order does ----------

  /** The attempt would succeed: the gateway knows the key, or approves. */
  predicate Succeeds(memo: Memo, key: string, reply: Reply)
  {
    key in memo || reply.Approve?
  }

  /** The n-th attempt is the first of the given range that would succeed. */
  predicate FirstSuccess(memo: Memo, key: string, replies: nat -> Reply, attempt: nat, n: nat)
  {
    && attempt <= n && Succeeds(memo, key, replies(n))
    && forall j: nat :: attempt <= j < n ==> !Succeeds(memo, key, replies(j))
  }

  /** The loop stops at the first success, and otherwise uses up its attempts without a trace in the memo. */
  lemma {:induction false} ChargeLoopExact(memo: Memo, key: string, replies: nat -> Reply, attempt: nat, last: nat)
    requires 1 <= attempt <= last
    ensures var (next, charge, n) := ChargeLoop(memo, key, replies, attempt, last);
            && attempt <= n <= last
            && (charge.Charged? <==> exists j :: attempt <= j <= last && Succeeds(memo, key, replies(j)))
            && (charge.Charged? ==> FirstSuccess(memo, key, replies, attempt, n))
            && (charge.Charged? ==> next == Record(memo, key, charge.ref) && next[key] == charge.ref)
            && (charge.Charged? && key !in memo ==> charge.ref == replies(n).ref)
            && (charge.Declined? ==> n == last && next == memo && key !in memo && replies(n) == Refuse(charge.reason))
    decreases last - attempt
  {
    var (next, charge) := ChargeOnce(memo, key, replies(attempt));
    if !charge.Charged? && attempt != last {
      ChargeLoopExact(next, key, replies, attempt + 1, last);
    }
  }

  /** What every reachable store satisfies (Conservation.StoresAreSound). */
  ghost predicate Sound(s: Store)
  {
    && (forall p :: p in s.stock ==> s.stock[p].available >= 0 && s.stock[p].reserved >= 0)
    && (forall i :: i in s.payments ==> i in s.orders && s.payments[i].key == s.orders[i].key)
  }

  /** The gateway gives references and error texts that are not empty. */
  ghost predicate Talks(memo: Memo, replies: nat -> Reply)
  {
    && (forall k :: k in memo ==> memo[k] != "")
    && (forall n :: match replies(n) case Approve(ref) => ref != "" case Refuse(reason) => reason != "")
  }

  /** An order as NewOrder makes it. */
  predicate Placeable(o: OrderData)
  {
    o.status == Pending && o.items != [] && PositiveLines(o.items) && o.key != "" && o.failureReason == ""
  }

  /** Every product keeps its row; available falls by the units taken, reserved is as before. */
  ghost predicate StockTaken(before: map<nat, Row>, after: map<nat, Row>, items: seq<Item>, taken: bool)
  {
    && after.Keys == before.Keys
    && forall p :: p in before ==>
         after[p] == Row(before[p].available - (if taken then Qty(items, p) else 0), before[p].reserved,
                         before[p].version + Lines(items, p))
  }

  /** The rows a settled order leaves behind. */
  ghost predicate Settled(s: Store, after: Store, id: nat, o: OrderData, attempts: nat, charge: Charge)
  {
    && StockTaken(s.stock, after.stock, o.items, charge.Charged?)
    && after.orders == s.orders[id :=
         match charge
         case Charged(_) => o.(status := Fulfilled)
         case Declined(_) => o.(status := Failed, failureReason := "payment failed")]
    && after.payments == s.payments[id :=
         match charge
         case Charged(ref) => P.PaymentData(id, o.key, o.total, P.Succeeded, "mock", ref, attempts, "")
         case Declined(reason) => P.PaymentData(id, o.key, o.total, P.Failed, "mock", "", attempts, reason)]
  }

  lemma ReservedStockCovers(before: map<nat, Row>, items: seq<Item>, held: map<nat, Row>, charge: Charge)
    requires PositiveLines(items) && Covers(Reserve, before, items) && StockMoved(Reserve, before, items, held)
    requires forall p :: p in before ==> before[p].reserved >= 0
    ensures Covers(SettleOp(charge), held, items)
  {
  }

  lemma NoPaymentInTheWay(s: Store, id: nat, key: string)
    requires Sound(s) && id !in s.orders && !KeyTaken(s.orders, key)
    ensures id !in s.payments && !PaymentKeyTaken(s.payments, key)
  {
  }

  /** Right after transaction one, transaction two cannot be refused, whatever the gateway said. */
  lemma SettlesAfterReserve(s: Store, id: nat, o: OrderData, attempts: nat, charge: Charge)
    requires Sound(s) && Placeable(o) && Answered(charge) && id != 0 && id !in s.orders
    requires ReserveTx(s, id, o).Ok? && o.total.amount != 0
    ensures var p := P.NewPaymentData(id, o.key, o.total).value.(provider := "mock", attempts := attempts);
            var result := SettleTx(ReserveTx(s, id, o).value, id, o.(status := Reserved), p, charge);
            result.Ok? && Settled(s, result.value, id, o, attempts, charge)
  {
    var held := ReserveTx(s, id, o).value;
    var p := P.NewPaymentData(id, o.key, o.total).value.(provider := "mock", attempts := attempts);
    ReserveTxExact(s, id, o);
    ReservedStockCovers(s.stock, o.items, held.stock, charge);
    NoPaymentInTheWay(s, id, o.key);
    SettleTxExact(held, id, o.(status := Reserved), p, charge);
    var after := SettleTx(held, id, o.(status := Reserved), p, charge).value;
    assert after.orders == s.orders[id := SettledOrder(o, charge)];
    assert after.payments == s.payments[id := SettledPayment(p, charge)];
    MovedTwice(s.stock, held.stock, after.stock, o.items, charge);
  }

  /** Reserving the lines and then settling them: what two passes over the stock come to. */
  lemma MovedTwice(before: map<nat, Row>, held: map<nat, Row>, after: map<nat, Row>, items: seq<Item>, charge: Charge)
    requires StockMoved(Reserve, before, items, held) && StockMoved(SettleOp(charge), held, items, after)
    ensures StockTaken(before, after, items, charge.Charged?)
  {
    forall x | x in before
      ensures after[x] == Row(before[x].available - (if charge.Charged? then Qty(items, x) else 0),
                              before[x].reserved, before[x].version + Lines(items, x))
    {
      assert held[x] == Moved(Reserve, before[x], Qty(items, x), Lines(items, x));
    }
  }

  /**
    Placing an order with nobody else at work ends in exactly one of four ways, each with its
    condition on the start: rejected without a trace; reserved and never charged, because the
    total is zero; fulfilled; or failed with the stock given back. The recorded attempts are the
    number of the first attempt that succeeds, else all of them.
   */
  lemma ProcessOutcomes(s: Store, memo: Memo, id: nat, o: OrderData, maxAttempts: int, replies: nat -> Reply)
    requires Sound(s) && Talks(memo, replies) && Placeable(o) && id != 0 && id !in s.orders
    ensures var (after, next, outcome) := Process(s, memo, id, o, maxAttempts, replies);
            var accepted := !KeyTaken(s.orders, o.key) && Covers(Reserve, s.stock, o.items);
            var charged := exists j :: 1 <= j <= Attempts(maxAttempts) && Succeeds(memo, o.key, replies(j));
            && (outcome.Rejected? <==> !accepted)
            && (outcome.Unpaid? <==> accepted && o.total.amount == 0)
            && (outcome.Completed? <==> accepted && o.total.amount != 0 && charged)
            && (outcome.PaymentDeclined? <==> accepted && o.total.amount != 0 && !charged)
            && (outcome.Rejected? ==> after == s && next == memo)
            && (outcome.Unpaid? ==>
                  && StockMoved(Reserve, s.stock, o.items, after.stock)
                  && after.orders == s.orders[id := o.(status := Reserved)]
                  && after.payments == s.payments && next == memo)
            && (outcome.Completed? ==>
                  && o.key in next && next == Record(memo, o.key, next[o.key])
                  && exists n: nat :: 1 <= n <= Attempts(maxAttempts) && FirstSuccess(memo, o.key, replies, 1, n)
                       && Settled(s, after, id, o, n, Charged(next[o.key])))
            && (outcome.PaymentDeclined? ==>
                  && o.key !in next && next == memo
                  && replies(Attempts(maxAttempts)).Refuse?
                  && Settled(s, after, id, o, Attempts(maxAttempts), Declined(replies(Attempts(maxAttempts)).reason)))
  {
    ReserveTxExact(s, id, o);
    if ReserveTx(s, id, o).Ok? && o.total.amount != 0 {
      ChargeLoopExact(memo, o.key, replies, 1, Attempts(maxAttempts));
      var (next, charge, n) := ChargeLoop(memo, o.key, replies, 1, Attempts(maxAttempts));
      SettlesAfterReserve(s, id, o, n, charge);
    }
  }

  /**
    How many attempts there are: a new order with stock and a total is completed iff the gateway knows
    its key, or one of the first maxAttempts answers approves, the first one counting also when
    maxAttempts is below 1. The payment row tells how many attempts were made.
   */
  lemma EveryAttemptIsMade(s: Store, memo: Memo, id: nat, o: OrderData, maxAttempts: int, replies: nat -> Reply)
    requires Sound(s) && Talks(memo, replies) && Placeable(o) && id != 0 && id !in s.orders
    requires !KeyTaken(s.orders, o.key) && Covers(Reserve, s.stock, o.items) && o.total.amount != 0
    ensures var (after, next, outcome) := Process(s, memo, id, o, maxAttempts, replies);
            && (outcome.Completed? <==>
                  || o.key in memo || replies(1).Approve?
                  || exists j: nat :: 1 <= j <= maxAttempts && replies(j).Approve?)
            && (outcome.Completed? || outcome.PaymentDeclined?) && id in after.payments
            && (outcome.PaymentDeclined? ==>
                  after.payments[id].attempts == if maxAttempts < 1 then 1 else maxAttempts)
            && (outcome.Completed? && o.key in memo ==> after.payments[id].attempts == 1)
            && (outcome.Completed? && o.key !in memo ==>
                  && replies(after.payments[id].attempts).Approve?
                  && forall j: nat :: 1 <= j < after.payments[id].attempts ==> replies(j).Refuse?)
  {
    ProcessOutcomes(s, memo, id, o, maxAttempts, replies);
    assert Succeeds(memo, o.key, replies(1)) <==> o.key in memo || replies(1).Approve?;
    if exists j: nat :: 1 <= j <= maxAttempts && replies(j).Approve? {
      var j: nat :| 1 <= j <= maxAttempts && replies(j).Approve?;
      assert Succeeds(memo, o.key, replies(j));
    }
    AttemptsWithin(memo, o.key, replies, maxAttempts);
  }

  lemma AttemptsWithin(memo: Memo, key: string, replies: nat -> Reply, maxAttempts: int)
    ensures (exists j :: 1 <= j <= Attempts(maxAttempts) && Succeeds(memo, key, replies(j))) <==>
              || key in memo || replies(1).Approve?
              || exists j: nat :: 1 <= j <= maxAttempts && replies(j).Approve?
  {
    if key in memo || replies(1).Approve? {
      assert Succeeds(memo, key, replies(1));
    } else if exists j: nat :: 1 <= j <= maxAttempts && replies(j).Approve? {
      var j: nat :| 1 <= j <= maxAttempts && replies(j).Approve?;
      assert Succeeds(memo, key, replies(j));
    } else if exists j :: 1 <= j <= Attempts(maxAttempts) && Succeeds(memo, key, replies(j)) {
      var j :| 1 <= j <= Attempts(maxAttempts) && Succeeds(memo, key, replies(j));
      assert replies(j).Approve?;
    }
  }

  // ---------- The request ----------

  datatype Product = Product(price: Money, active: bool)

  datatype RequestLine = RequestLine(productId: nat, quantity: int)

  function BuildItem(products: map<nat, Product>, line: RequestLine): Result<Item>
  {
    if line.productId !in products then Err(NotFound)
    else if !products[line.productId].active then Err(Validation)
    else NewItem(line.productId, products[line.productId].price, line.quantity)
  }

  /** The order lines with the prices of the moment, or the error of the first bad line. */
  function BuildItems(products: map<nat, Product>, lines: seq<RequestLine>): Result<seq<Item>>
  {
    if lines == [] then Ok([])
    else
      var item :- BuildItem(products, lines[0]);
      var rest :- BuildItems(products, lines[1..]);
      Ok([item] + rest)
  }

  predicate GoodLine(products: map<nat, Product>, line: RequestLine)
  {
    line.quantity > 0 && line.productId in products && products[line.productId].active
  }

  /**
    Items come out line by line, with the asked quantity and the current price of an active product.
    Otherwise the first bad line decides the error: not found for an unknown product, else validation.
   */
  lemma {:induction false} BuildItemsExact(products: map<nat, Product>, lines: seq<RequestLine>)
    ensures BuildItems(products, lines).Ok? <==> forall i :: 0 <= i < |lines| ==> GoodLine(products, lines[i])
    ensures BuildItems(products, lines).Ok? ==>
              var items := BuildItems(products, lines).value;
              && |items| == |lines| && PositiveLines(items)
              && forall i :: 0 <= i < |lines| ==>
                   && items[i].productId == lines[i].productId && items[i].quantity == lines[i].quantity
                   && items[i].unitPrice == products[lines[i].productId].price
    ensures BuildItems(products, lines).Err? ==>
              exists i :: 0 <= i < |lines| && FirstBadLine(products, lines, i)
                && BuildItems(products, lines).error == if lines[i].productId in products then Validation else NotFound
  {
    if lines != [] {
      BuildItemsExact(products, lines[1..]);
      assert forall i :: 0 <= i < |lines| - 1 ==> lines[1..][i] == lines[i + 1];
      assert forall i :: 1 <= i < |lines| ==> lines[i] == lines[1..][i - 1];
      if !GoodLine(products, lines[0]) {
        assert FirstBadLine(products, lines, 0);
      } else if BuildItems(products, lines[1..]).Err? {
        var i :| 0 <= i < |lines[1..]| && FirstBadLine(products, lines[1..], i)
          && BuildItems(products, lines[1..]).error == if lines[1..][i].productId in products then Validation
              else NotFound;
        assert FirstBadLine(products, lines, i + 1);
      }
    }
  }

  ghost predicate FirstBadLine(products: map<nat, Product>, lines: seq<RequestLine>, i: nat)
    requires i < |lines|
  {
    !GoodLine(products, lines[i]) && forall j :: 0 <= j < i ==> GoodLine(products, lines[j])
  }

  /** The error that ends a request before it reaches the pool, if one does. */
  function EarlyError(products: map<nat, Product>, lines: seq<RequestLine>, key: string, poolStopped: bool)
    : Option<ErrorKind>
  {
    match BuildItems(products, lines)
    case Err(e) => Some(e)
    case Ok(items) =>
      if items == [] || key == "" || !OneCurrency(items) then Some(Validation)
      else if poolStopped then Some(Unavailable)
      else None
  }

  /** A request reaches the pool iff its lines are good and in one currency, it has a key, and the pool takes tasks. */
  lemma EarlyErrorExact(products: map<nat, Product>, lines: seq<RequestLine>, key: string, poolStopped: bool)
    ensures var good := forall i :: 0 <= i < |lines| ==> GoodLine(products, lines[i]);
            var accepted := good && lines != [] && key != ""
              && forall i :: 0 <= i < |lines| ==>
                   products[lines[i].productId].price.currency == products[lines[0].productId].price.currency;
            var e := EarlyError(products, lines, key, poolStopped);
            && (e.None? <==> accepted && !poolStopped)
            && (e == Some(Unavailable) <==> accepted && poolStopped)
            && (e == Some(NotFound) <==>
                  exists i :: 0 <= i < |lines| && FirstBadLine(products, lines, i) && lines[i].productId !in products)
            && (e.Some? ==> e.value == Unavailable || e.value == NotFound || e.value == Validation)
  {
    BuildItemsExact(products, lines);
  }

  // ---------- The events ----------

  /** What transaction two adds to the outboxes in memory, also when it is then rolled back. */
  function SettleEvents(s: Store, id: nat, o: OrderData, p: P.PaymentData, charge: Charge)
    : (seq<Event>, seq<P.Event>)
  {
    var settled := SettleTx(s, id, o, p, charge).Ok?;
    match charge
    case Declined(reason) =>
      (if settled then [OrderFailed("payment failed")] else [],
       if P.FailedWith(p, reason).Ok? then [P.Event.PaymentFailed(reason)] else [])
    case Charged(ref) =>
      var marked := P.SucceededWith(p, ref);
      (if settled then [OrderPaid, OrderFulfilled]
       else if marked.Ok? && CreatePayment(s, marked.value).Ok? && o.status == Reserved then [OrderPaid] else [],
       if marked.Ok? then [P.PaymentSucceeded] else [])
  }

  function FinishEvents(s: Store, memo: Memo, id: nat, o: OrderData, p: P.PaymentData, maxAttempts: int,
                        replies: nat -> Reply)
    : (seq<Event>, seq<P.Event>)
  {
    var (next, charge, n) := ChargeLoop(memo, o.key, replies, 1, Attempts(maxAttempts));
    SettleEvents(s, id, o, p.(provider := "mock", attempts := n), charge)
  }

  /** What is published after Process: the order's and then the payment's events. */
  function Announced(s: Store, memo: Memo, id: nat, o: OrderData, maxAttempts: int, replies: nat -> Reply)
    : (seq<Event>, seq<P.Event>)
  {
    match ReserveTx(s, id, o)
    case Err(_) => ([OrderPlaced(o.total)], [])
    case Ok(held) =>
      match P.NewPaymentData(id, o.key, o.total)
      case Err(_) => ([OrderPlaced(o.total), OrderReserved], [])
      case Ok(p) =>
        var events := FinishEvents(held, memo, id, o.(status := Reserved), p, maxAttempts, replies);
        ([OrderPlaced(o.total), OrderReserved] + events.0, [P.PaymentInitiated] + events.1)
  }

  /**
    Transaction two announces what it does not do exactly in these cases: an order as paid, when only
    the reserved counts stand in the way of the commit; a payment, whenever it is refused.
   */
  lemma FalseAnnouncementIff(s: Store, id: nat, o: OrderData, p: P.PaymentData, charge: Charge)
    requires o.status == Reserved && PositiveLines(o.items) && p.status == P.Pending && Answered(charge)
    ensures var refused := SettleTx(s, id, o, p, charge).Err?;
            var (published, payments) := SettleEvents(s, id, o, p, charge);
            && (refused && published != [] <==>
                  && charge.Charged? && p.orderId !in s.payments && !PaymentKeyTaken(s.payments, p.key)
                  && !Covers(Commit, s.stock, o.items))
            && (refused && published != [] ==> published == [OrderPaid])
            && payments == (match charge case Charged(_) => [P.PaymentSucceeded]
                                         case Declined(reason) => [P.Event.PaymentFailed(reason)])
            && (refused && payments != [] <==> !SettleAllowed(s, o, p, charge))
  {
    SettleTxExact(s, id, o, p, charge);
  }

  /** A row of one of the order's products has a negative reserved count. */
  ghost predicate NegativeReserve(stock: map<nat, Row>, items: seq<Item>)
  {
    exists p :: Lines(items, p) > 0 && p in stock && stock[p].reserved < 0
  }

  predicate PaymentInTheWay(s: Store, id: nat, key: string)
  {
    id in s.payments || PaymentKeyTaken(s.payments, key)
  }

  lemma HeldCoversIff(before: map<nat, Row>, items: seq<Item>, held: map<nat, Row>, charge: Charge)
    requires PositiveLines(items) && Covers(Reserve, before, items) && StockMoved(Reserve, before, items, held)
    ensures Covers(SettleOp(charge), held, items) <==> !NegativeReserve(before, items)
  {
    forall p: nat | p in before ensures held[p].reserved == before[p].reserved + Qty(items, p) {
    }
  }

  /** An order that is charged for: its transaction one has committed and it has a total to pay. */
  predicate Chargeable(s: Store, id: nat, o: OrderData)
  {
    ReserveTx(s, id, o).Ok? && P.NewPaymentData(id, o.key, o.total).Ok?
  }

  /**
    Who listens to an order's events knows its row's status, for any store, with two exceptions. A
    rejected order has no row and is announced all the same. An order is announced as paid while its
    row says reserved iff it has been charged for, no payment is in its way, and one of its products
    already had a negative reserved count. A payment is announced but not recorded iff there was an
    answer to record and a payment or a negative count is in the way.
   */
  lemma EventsTellTheRow(s: Store, memo: Memo, id: nat, o: OrderData, maxAttempts: int, replies: nat -> Reply)
    requires o.status == Pending && PositiveLines(o.items) && id !in s.orders
    ensures var (after, next, outcome) := Process(s, memo, id, o, maxAttempts, replies);
            var (published, payments) := Announced(s, memo, id, o, maxAttempts, replies);
            var charge := ChargeLoop(memo, o.key, replies, 1, Attempts(maxAttempts)).1;
            var told := Replay(Pending, published);
            && (outcome.Rejected? <==> id !in after.orders)
            && (outcome.Rejected? ==> told == Pending)
            && (!outcome.Rejected? && told != Paid ==> told == after.orders[id].status)
            && (told == Paid ==> outcome.Unsettled? && after.orders[id].status == Reserved)
            && (told == Paid <==>
                  && Chargeable(s, id, o) && charge.Charged? && Answered(charge)
                  && !PaymentInTheWay(s, id, o.key) && NegativeReserve(s.stock, o.items))
            && (outcome.Unsettled? ==> after.payments == s.payments)
            && (outcome.Unsettled? && |payments| == 2 <==>
                  && Chargeable(s, id, o) && Answered(charge)
                  && (PaymentInTheWay(s, id, o.key) || NegativeReserve(s.stock, o.items)))
  {
    ReserveTxExact(s, id, o);
    if Chargeable(s, id, o) {
      var held := ReserveTx(s, id, o).value;
      var p := P.NewPaymentData(id, o.key, o.total).value;
      var charge := ChargeLoop(memo, o.key, replies, 1, Attempts(maxAttempts)).1;
      HeldCoversIff(s.stock, o.items, held.stock, charge);
      FinishTellsTheRow(held, memo, id, o.(status := Reserved), p, maxAttempts, replies);
      ReplayInTwo(Pending, [OrderPlaced(o.total), OrderReserved],
                  FinishEvents(held, memo, id, o.(status := Reserved), p, maxAttempts, replies).0);
    }
  }

  lemma FinishTellsTheRow(s: Store, memo: Memo, id: nat, o: OrderData, p: P.PaymentData, maxAttempts: int,
                          replies: nat -> Reply)
    requires o.status == Reserved && PositiveLines(o.items) && id in s.orders && s.orders[id].status == Reserved
    requires p.status == P.Pending
    ensures var (after, next, outcome) := Finish(s, memo, id, o, p, maxAttempts, replies);
            var (published, payments) := FinishEvents(s, memo, id, o, p, maxAttempts, replies);
            var charge := ChargeLoop(memo, o.key, replies, 1, Attempts(maxAttempts)).1;
            var told := Replay(Reserved, published);
            var inTheWay := p.orderId in s.payments || PaymentKeyTaken(s.payments, p.key);
            && !outcome.Rejected? && !outcome.Unpaid? && id in after.orders
            && (told != Paid ==> told == after.orders[id].status)
            && (told == Paid ==> outcome.Unsettled? && after.orders[id].status == Reserved)
            && (told == Paid <==>
                  charge.Charged? && Answered(charge) && !inTheWay && !Covers(Commit, s.stock, o.items))
            && (outcome.Unsettled? ==> after.payments == s.payments)
            && (outcome.Unsettled? && |payments| == 1 <==>
                  Answered(charge) && (inTheWay || !Covers(SettleOp(charge), s.stock, o.items)))
  {
    var (next, charge, n) := ChargeLoop(memo, o.key, replies, 1, Attempts(maxAttempts));
    SettledRowStatus(s, id, o, p.(provider := "mock", attempts := n), charge);
    if Answered(charge) {
      FalseAnnouncementIff(s, id, o, p.(provider := "mock", attempts := n), charge);
    }
  }

  /** The events of transaction two against the row it leaves. */
  lemma SettledRowStatus(s: Store, id: nat, o: OrderData, p: P.PaymentData, charge: Charge)
    requires o.status == Reserved && id in s.orders && p.status == P.Pending
    ensures var (published, payments) := SettleEvents(s, id, o, p, charge);
            var told := Replay(Reserved, published);
            && |payments| == (if Answered(charge) then 1 else 0)
            && match SettleTx(s, id, o, p, charge)
               case Ok(after) => id in after.orders && after.orders[id].status == told && told != Paid
               case Err(_) =>
                 && told == (if published == [] then Reserved else Paid)
                 && (!Answered(charge) ==> told == Reserved)
  {
  }

  /** In a sound store, with a gateway that talks, the outcome decides what is published. */
  lemma EventsTellOutcome(s: Store, memo: Memo, id: nat, o: OrderData, maxAttempts: int, replies: nat -> Reply)
    requires Sound(s) && Talks(memo, replies) && Placeable(o) && id != 0 && id !in s.orders
    ensures var outcome := Process(s, memo, id, o, maxAttempts, replies).2;
            var (published, payments) := Announced(s, memo, id, o, maxAttempts, replies);
            match outcome
            case Rejected(_) => published == [OrderPlaced(o.total)] && payments == []
            case Unpaid(_) => published == [OrderPlaced(o.total), OrderReserved] && payments == []
            case Completed =>
              && published == [OrderPlaced(o.total), OrderReserved, OrderPaid, OrderFulfilled]
              && payments == [P.PaymentInitiated, P.PaymentSucceeded]
            case PaymentDeclined =>
              && published == [OrderPlaced(o.total), OrderReserved, OrderFailed("payment failed")]
              && replies(Attempts(maxAttempts)).Refuse?
              && payments == [P.PaymentInitiated, P.Event.PaymentFailed(replies(Attempts(maxAttempts)).reason)]
            case Unsettled(_) => false
  {
    if ReserveTx(s, id, o).Ok? && o.total.amount != 0 {
      ChargeLoopExact(memo, o.key, replies, 1, Attempts(maxAttempts));
      var (next, charge, n) := ChargeLoop(memo, o.key, replies, 1, Attempts(maxAttempts));
      SettlesAfterReserve(s, id, o, n, charge);
      assert [OrderPlaced(o.total), OrderReserved] + [OrderPaid, OrderFulfilled]
          == [OrderPlaced(o.total), OrderReserved, OrderPaid, OrderFulfilled];
      assert [OrderPlaced(o.total), OrderReserved] + [OrderFailed("payment failed")]
          == [OrderPlaced(o.total), OrderReserved, OrderFailed("payment failed")];
    }
  }

  class PlaceOrder {
    const db: Database
    const gateway: MockGateway
    const maxAttempts: int

    constructor (db: Database, gateway: MockGateway, maxAttempts: int)
      ensures this.db == db && this.gateway == gateway && this.maxAttempts == maxAttempts
    {
      this.db, this.gateway, this.maxAttempts := db, gateway, maxAttempts;
    }

    /** Transaction one. */
    method ReserveOrder(ord: Order) returns (err: Option<ErrorKind>)
      requires db.Valid() && ord.id == 0 && ord.status == Pending
      modifies db, ord
      ensures db.Valid() && db.nextId == old(db.nextId) + 1
      ensures match ReserveTx(old(db.Rows()), old(db.nextId), old(ord.Data()))
              case Ok(after) =>
                && err.None? && db.Rows() == after && ord.id == old(db.nextId)
                && ord.Data() == old(ord.Data()).(status := Reserved)
                && ord.pending == old(ord.pending) + [OrderReserved]
              case Err(e) => err == Some(e) && db.Rows() == old(db.Rows()) && ord.pending == old(ord.pending)
    {
      var saved := db.Rows();
      err := db.CreateOrder(ord);
      if err.Some? {
        return;
      }
      var ok := db.ReserveLines(ord.items);
      if !ok {
        db.Rollback(saved);
        return Some(OutOfStock);
      }
      err := ord.MarkReserved();
      db.UpdateOrder(ord);
    }

    /** The charge-retry loop, with no transaction open. */
    method ChargeWithRetry(ord: Order, pay: P.Payment, replies: nat -> Reply) returns (charge: Charge)
      requires pay.attempts == 0
      modifies gateway, pay
      ensures var (memo, result, n) := ChargeLoop(old(gateway.results), ord.key, replies, 1, Attempts(maxAttempts));
              && gateway.results == memo && charge == result
              && pay.Data() == old(pay.Data()).(provider := "mock", attempts := n)
      ensures pay.pending == old(pay.pending)
    {
      var attempts := maxAttempts;
      if attempts < 1 {
        attempts := 1;
      }
      var attempt: nat := 1;
      while true
        invariant 1 <= attempt <= attempts
        invariant pay.Data() == old(pay.Data()).(provider := pay.provider, attempts := attempt - 1)
        invariant pay.pending == old(pay.pending)
        invariant ChargeLoop(old(gateway.results), ord.key, replies, 1, attempts)
               == ChargeLoop(gateway.results, ord.key, replies, attempt, attempts)
        decreases attempts - attempt
      {
        var _ := pay.RecordAttempt("mock");
        charge := gateway.Charge(ord.key, replies(attempt), []);
        if charge.Charged? || attempt == attempts {
          return;
        }
        attempt := attempt + 1;
      }
    }

    /** The statements of transaction two after a decline. */
    method FailOrder(ord: Order, pay: P.Payment, reason: string) returns (err: Option<ErrorKind>)
      requires db.Valid()
      modifies db`stock, db`orders, db`payments, ord, pay
      ensures db.Valid()
      ensures match SettleTx(old(db.Rows()), old(ord.id), old(ord.Data()), old(pay.Data()), Declined(reason))
              case Ok(after) => err.None? && db.Rows() == after
              case Err(e) => err == Some(e) && forall i :: i in db.orders ==> i in old(db.orders)
      ensures err.None? ==> ord.Data() == SettledOrder(old(ord.Data()), Declined(reason))
      ensures var events := SettleEvents(old(db.Rows()), old(ord.id), old(ord.Data()), old(pay.Data()),
                                         Declined(reason));
              ord.pending == old(ord.pending) + events.0 && pay.pending == old(pay.pending) + events.1
    {
      err := pay.MarkFailed(reason);
      if err.Some? {
        return;
      }
      err := db.CreatePayment(pay);
      if err.Some? {
        return;
      }
      err := db.ReleaseLines(ord.items);
      if err.Some? {
        return;
      }
      err := ord.Fail("payment failed");
      if err.Some? {
        return;
      }
      db.UpdateOrder(ord);
    }

    /** The statements of transaction two after a successful charge. */
    method FulfilOrder(ord: Order, pay: P.Payment, ref: string) returns (err: Option<ErrorKind>)
      requires db.Valid()
      modifies db`stock, db`orders, db`payments, ord, pay
      ensures db.Valid()
      ensures match SettleTx(old(db.Rows()), old(ord.id), old(ord.Data()), old(pay.Data()), Charged(ref))
              case Ok(after) => err.None? && db.Rows() == after
              case Err(e) => err == Some(e) && forall i :: i in db.orders ==> i in old(db.orders)
      ensures err.None? ==> ord.Data() == SettledOrder(old(ord.Data()), Charged(ref))
      ensures var events := SettleEvents(old(db.Rows()), old(ord.id), old(ord.Data()), old(pay.Data()), Charged(ref));
              ord.pending == old(ord.pending) + events.0 && pay.pending == old(pay.pending) + events.1
    {
      err := pay.MarkSucceeded(ref);
      if err.Some? {
        return;
      }
      err := db.CreatePayment(pay);
      if err.Some? {
        return;
      }
      err := CommitOrder(ord);
    }

    /** The statements about the order and its stock, after the payment's. */
    method CommitOrder(ord: Order) returns (err: Option<ErrorKind>)
      requires db.Valid()
      modifies db`stock, db`orders, ord
      ensures db.Valid() && ord.id == old(ord.id)
      ensures if old(ord.status) != Reserved then
                && err == Some(Conflict) && db.Rows() == old(db.Rows())
                && ord.Data() == old(ord.Data()) && ord.pending == old(ord.pending)
              else
                match StepLines(Commit, old(db.stock), ord.items)
                case None =>
                  && err == Some(Conflict) && db.orders == old(db.orders)
                  && ord.pending == old(ord.pending) + [OrderPaid]
                case Some(stock) =>
                  && err.None? && ord.Data() == old(ord.Data()).(status := Fulfilled)
                  && db.Rows() == UpdateOrder(old(db.Rows()).(stock := stock), ord.id, ord.Data())
                  && ord.pending == old(ord.pending) + [OrderPaid, OrderFulfilled]
    {
      err := ord.MarkPaid();
      if err.Some? {
        return;
      }
      err := db.CommitLines(ord.items);
      if err.Some? {
        return;
      }
      err := ord.MarkFulfilled();
      if err.Some? {
        return;
      }
      db.UpdateOrder(ord);
    }

    /** Transaction two: its statements, undone together when one of them fails. */
    method SettleOrder(ord: Order, pay: P.Payment, charge: Charge) returns (err: Option<ErrorKind>)
      requires db.Valid()
      modifies db`stock, db`orders, db`payments, ord, pay
      ensures db.Valid()
      ensures match SettleTx(old(db.Rows()), old(ord.id), old(ord.Data()), old(pay.Data()), charge)
              case Ok(after) => err.None? && db.Rows() == after
              case Err(e) => err == Some(e) && db.Rows() == old(db.Rows())
      ensures err.None? ==> ord.Data() == SettledOrder(old(ord.Data()), charge)
      ensures var events := SettleEvents(old(db.Rows()), old(ord.id), old(ord.Data()), old(pay.Data()), charge);
              ord.pending == old(ord.pending) + events.0 && pay.pending == old(pay.pending) + events.1
    {
      var saved := db.Rows();
      if charge.Declined? {
        err := FailOrder(ord, pay, charge.reason);
      } else {
        err := FulfilOrder(ord, pay, charge.ref);
      }
      if err.Some? {
        db.Rollback(saved);
      }
    }

    method Run(ord: Order, replies: nat -> Reply) returns (pay: Option<P.Payment>, err: Option<ErrorKind>)
      requires db.Valid() && ord.id == 0 && ord.status == Pending && ord.key != ""
          && ord.pending == [OrderPlaced(ord.total)]
      modifies db, gateway, ord
      ensures db.Valid()
      ensures var (rows, memo, outcome) :=
                Process(old(db.Rows()), old(gateway.results), old(db.nextId), old(ord.Data()), maxAttempts, replies);
              && db.Rows() == rows && gateway.results == memo
              && match outcome
                 case Rejected(e) => pay.None? && err == Some(e)
                 case Unpaid(e) => pay.None? && err == Some(e)
                 case Completed => pay.Some? && err.None? && ord.Data() == old(ord.Data()).(status := Fulfilled)
                 case PaymentDeclined => pay.Some? && err == Some(ErrorKind.PaymentFailed)
                 case Unsettled(e) => pay.Some? && err == Some(e)
      ensures pay.Some? ==> fresh(pay.value)
      ensures (ord.pending, if pay.Some? then pay.value.pending else []) ==
                Announced(old(db.Rows()), old(gateway.results), old(db.nextId), old(ord.Data()), maxAttempts, replies)
    {
      err := ReserveOrder(ord);
      if err.Some? {
        return None, err;
      }
      assert ord.pending == [OrderPlaced(ord.total), OrderReserved];
      var created := P.NewPayment(ord.id, ord.key, ord.total);
      if created.Err? {
        return None, Some(created.error);
      }
      err := FinishOrder(ord, created.value, replies);
      pay := Some(created.value);
    }

    /** The charge-retry loop and transaction two. */
    method FinishOrder(ord: Order, pay: P.Payment, replies: nat -> Reply) returns (err: Option<ErrorKind>)
      requires db.Valid() && pay.attempts == 0
      modifies db, gateway, ord, pay
      ensures db.Valid()
      ensures var (rows, memo, outcome) :=
                Finish(old(db.Rows()), old(gateway.results), old(ord.id), old(ord.Data()), old(pay.Data()),
                       maxAttempts, replies);
              && db.Rows() == rows && gateway.results == memo
              && match outcome
                 case Completed => err.None? && ord.Data() == old(ord.Data()).(status := Fulfilled)
                 case PaymentDeclined => err == Some(ErrorKind.PaymentFailed)
                 case Unsettled(e) => err == Some(e)
                 case _ => false
      ensures var events :=
                FinishEvents(old(db.Rows()), old(gateway.results), old(ord.id), old(ord.Data()), old(pay.Data()),
                             maxAttempts, replies);
              ord.pending == old(ord.pending) + events.0 && pay.pending == old(pay.pending) + events.1
    {
      var charge := ChargeWithRetry(ord, pay, replies);
      err := SettleOrder(ord, pay, charge);
      if err.None? && charge.Declined? {
        err := Some(ErrorKind.PaymentFailed);
      }
    }

    /** Items from request lines; the first bad line decides the error. */
    method CollectItems(products: map<nat, Product>, lines: seq<RequestLine>) returns (r: Result<seq<Item>>)
      ensures r == BuildItems(products, lines)
    {
      var items: seq<Item> := [];
      assert lines[0..] == lines;
      assert BuildItems(products, lines).Ok? ==>
          [] + BuildItems(products, lines).value == BuildItems(products, lines).value;
      for i := 0 to |lines|
        invariant BuildItems(products, lines) ==
                    match BuildItems(products, lines[i..]) case Ok(rest) => Ok(items + rest) case Err(e) => Err(e)
      {
        assert lines[i..][1..] == lines[i + 1..];
        var item := BuildItem(products, lines[i]);
        if item.Err? {
          return Err(item.error);
        }
        ghost var tail := BuildItems(products, lines[i + 1..]);
        assert tail.Ok? ==> items + ([item.value] + tail.value) == (items + [item.value]) + tail.value;
        items := items + [item.value];
      }
      assert items + [] == items;
      r := Ok(items);
    }

    /**
      The request. lookupFails: the idempotency lookup returns an error, which the code ignores;
      poolStopped: the worker pool takes no more tasks. Whatever happens, a key that already has
      an order leaves rows and charges alone, and a new key is charged by one undisturbed Process.
     */
    method Handle(products: map<nat, Product>, lines: seq<RequestLine>, key: string,
                  lookupFails: bool, poolStopped: bool, replies: nat -> Reply)
      returns (r: Result<OrderData>, published: seq<Event>, payments: seq<P.Event>)
      requires db.Valid()
      modifies db, gateway
      ensures db.Valid()
      ensures KeyTaken(old(db.orders), key) ==> db.Rows() == old(db.Rows()) && gateway.results == old(gateway.results)
      ensures KeyTaken(old(db.orders), key) && !lookupFails ==>
                exists i :: i in db.orders && db.orders[i].key == key
                  && match Fault(db.orders[i])
                     case None => r == Ok(db.orders[i]) && published == [] && payments == []
                     case Some(Internal) => r == Err(Internal) && published == [] && payments == []
                     case Some(_) => // an error of the lookup, and the request goes on to fail
                       r == Err(EarlyError(products, lines, key, poolStopped).UnwrapOr(Internal))
      ensures KeyTaken(old(db.orders), key) && lookupFails ==>
                && r == Err(EarlyError(products, lines, key, poolStopped).UnwrapOr(Internal)) && payments == []
                && published == if EarlyError(products, lines, key, poolStopped).Some? then []
                                else [OrderPlaced(NewTotal(BuildItems(products, lines).value))]
      ensures !KeyTaken(old(db.orders), key) ==>
                match EarlyError(products, lines, key, poolStopped)
                case Some(e) =>
                  && r == Err(e) && published == [] && payments == []
                  && db.Rows() == old(db.Rows()) && gateway.results == old(gateway.results)
                case None =>
                  var items := BuildItems(products, lines).value;
                  var o := OrderData(key, items, NewTotal(items), Pending, "");
                  var (rows, memo, outcome) :=
                    Process(old(db.Rows()), old(gateway.results), old(db.nextId), o, maxAttempts, replies);
                  && db.Rows() == rows && gateway.results == memo
                  && (match outcome
                      case Completed => r == Ok(o.(status := Fulfilled))
                      case PaymentDeclined => r == Err(ErrorKind.PaymentFailed)
                      case Rejected(e) => r == Err(e)
                      case Unpaid(e) => r == Err(e)
                      case Unsettled(e) => r == Err(e))
                  && (published, payments) ==
                       Announced(old(db.Rows()), old(gateway.results), old(db.nextId), o, maxAttempts, replies)
    {
      if !lookupFails && KeyTaken(db.orders, key) {
        var id :| id in db.orders && db.orders[id].key == key;
        var fault := Fault(db.orders[id]);
        if fault.None? {
          return Ok(db.orders[id]), [], [];
        }
        if fault.value == Internal {
          return Err(Internal), [], [];
        }
      }
      BuildItemsExact(products, lines);
      var items := CollectItems(products, lines);
      if items.Err? {
        return Err(items.error), [], [];
      }
      var created := NewOrder(items.value, key);
      if created.Err? {
        return Err(created.error), [], [];
      }
      if poolStopped {
        return Err(Unavailable), [], [];
      }
      r, published, payments := Place(created.value, replies);
    }

    /** The task in the pool and the publication after it. */
    method Place(ord: Order, replies: nat -> Reply)
      returns (r: Result<OrderData>, published: seq<Event>, payments: seq<P.Event>)
      requires db.Valid() && ord.id == 0 && ord.status == Pending && ord.key != ""
          && ord.pending == [OrderPlaced(ord.total)]
      modifies db, gateway, ord
      ensures db.Valid()
      ensures var (rows, memo, outcome) :=
                Process(old(db.Rows()), old(gateway.results), old(db.nextId), old(ord.Data()), maxAttempts, replies);
              && db.Rows() == rows && gateway.results == memo
              && match outcome
                 case Completed => r == Ok(old(ord.Data()).(status := Fulfilled))
                 case PaymentDeclined => r == Err(ErrorKind.PaymentFailed)
                 case Rejected(e) => r == Err(e)
                 case Unpaid(e) => r == Err(e)
                 case Unsettled(e) => r == Err(e)
      ensures (published, payments) ==
                Announced(old(db.Rows()), old(gateway.results), old(db.nextId), old(ord.Data()), maxAttempts, replies)
    {
      var pay, err := Run(ord, replies);
      published := ord.PullEvents();
      payments := [];
      if pay.Some? {
        payments := pay.value.PullEvents();
      }
      r := match err case None => Ok(ord.Data()) case Some(e) => Err(e);
    }
  }
}
