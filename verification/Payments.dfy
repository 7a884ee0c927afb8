/** The payment aggregate. */
module Payments {
  import opened Results
  import opened MoneyModel

  datatype Status = Pending | Succeeded | Failed | Refunded

  datatype PaymentData = PaymentData(
    orderId: nat,
    key: string,
    amount: Money,
    status: Status,
    provider: string,
    providerRef: string,
    attempts: nat,
    failureReason: string)

  function NewPaymentData(orderId: nat, key: string, amount: Money): Result<PaymentData>
  {
    if orderId == 0 || key == "" || amount.IsZero() then Err(Validation)
    else Ok(PaymentData(orderId, key, amount, Pending, "", "", 0, ""))
  }

  function AttemptRecorded(p: PaymentData, provider: string): Result<PaymentData>
  {
    if provider == "" then Err(Validation) else Ok(p.(attempts := p.attempts + 1, provider := provider))
  }

  function SucceededWith(p: PaymentData, ref: string): Result<PaymentData>
  {
    if p.status != Pending then Err(Conflict)
    else if ref == "" then Err(Validation)
    else Ok(p.(status := Succeeded, providerRef := ref, failureReason := ""))
  }

  function FailedWith(p: PaymentData, reason: string): Result<PaymentData>
  {
    if p.status != Pending then Err(Conflict)
    else if reason == "" then Err(Validation)
    else Ok(p.(status := Failed, failureReason := reason))
  }

  function RefundOf(p: PaymentData): Result<PaymentData>
  {
    if p.status != Succeeded then Err(Conflict) else Ok(p.(status := Refunded))
  }

  datatype Event =
    | PaymentInitiated
    | PaymentSucceeded
    | PaymentFailed(reason: string)
    | PaymentRefunded

  class Payment {
    const orderId: nat
    const key: string
    const amount: Money
    var status: Status
    var provider: string
    var providerRef: string
    var attempts: nat
    var failureReason: string
    var pending: seq<Event>

    function Data(): PaymentData
      reads this
    {
      PaymentData(orderId, key, amount, status, provider, providerRef, attempts, failureReason)
    }

    /** Rebuilds a payment from its data, with the given outbox. */
    constructor (data: PaymentData, pending: seq<Event>)
      ensures Data() == data && this.pending == pending
    {
      orderId, key, amount := data.orderId, data.key, data.amount;
      status, provider, providerRef := data.status, data.provider, data.providerRef;
      attempts, failureReason, this.pending := data.attempts, data.failureReason, pending;
    }

    /** A rejected call changes nothing; an accepted one has the given data and records the events. */
    ghost predicate Answers(answer: Result<PaymentData>, events: seq<Event>,
                            before: PaymentData, outbox: seq<Event>, err: Option<ErrorKind>)
      reads this
    {
      match answer
      case Ok(after) => err.None? && Data() == after && pending == outbox + events
      case Err(e) => err == Some(e) && Data() == before && pending == outbox
    }

    method RecordAttempt(name: string) returns (err: Option<ErrorKind>)
      modifies this`attempts, this`provider
      ensures Answers(AttemptRecorded(old(Data()), name), [], old(Data()), old(pending), err)
    {
      if name == "" {
        return Some(Validation);
      }
      attempts, provider, err := attempts + 1, name, None;
    }

    method MarkSucceeded(ref: string) returns (err: Option<ErrorKind>)
      modifies this
      ensures Answers(SucceededWith(old(Data()), ref), [PaymentSucceeded], old(Data()), old(pending), err)
    {
      if status != Pending {
        return Some(Conflict);
      }
      if ref == "" {
        return Some(Validation);
      }
      status, providerRef, failureReason := Succeeded, ref, "";
      pending, err := pending + [PaymentSucceeded], None;
    }

    method MarkFailed(reason: string) returns (err: Option<ErrorKind>)
      modifies this
      ensures Answers(FailedWith(old(Data()), reason), [Event.PaymentFailed(reason)], old(Data()), old(pending), err)
    {
      if status != Pending {
        return Some(Conflict);
      }
      if reason == "" {
        return Some(Validation);
      }
      status, failureReason := Failed, reason;
      pending, err := pending + [Event.PaymentFailed(reason)], None;
    }

    method Refund() returns (err: Option<ErrorKind>)
      modifies this
      ensures Answers(RefundOf(old(Data())), [PaymentRefunded], old(Data()), old(pending), err)
    {
      if status != Succeeded {
        return Some(Conflict);
      }
      status, pending, err := Refunded, pending + [PaymentRefunded], None;
    }

    method PullEvents() returns (events: seq<Event>)
      modifies this`pending
      ensures events == old(pending) && pending == []
    {
      events, pending := pending, [];
    }
  }

  method NewPayment(orderId: nat, key: string, amount: Money) returns (r: Result<Payment>)
    ensures r.Ok? <==> orderId != 0 && key != "" && amount.amount != 0
    ensures r.Ok? ==> r.value.Data() == PaymentData(orderId, key, amount, Pending, "", "", 0, "")
    ensures r.Err? ==> r.error == Validation
    ensures match NewPaymentData(orderId, key, amount)
            case Ok(data) => r.Ok? && fresh(r.value) && r.value.Data() == data && r.value.pending == [PaymentInitiated]
            case Err(e) => r == Err(e)
  {
    if orderId == 0 || key == "" || amount.IsZero() {
      return Err(Validation);
    }
    var p := new Payment(PaymentData(orderId, key, amount, Pending, "", "", 0, ""), [PaymentInitiated]);
    r := Ok(p);
  }

  // ---------- Runs of calls on one payment ----------

  datatype Call = Attempt(name: string) | Succeed(ref: string) | Fail(reason: string) | RefundIt

  function AnswerTo(p: PaymentData, call: Call): Result<PaymentData>
  {
    match call
    case Attempt(name) => AttemptRecorded(p, name)
    case Succeed(ref) => SucceededWith(p, ref)
    case Fail(reason) => FailedWith(p, reason)
    case RefundIt => RefundOf(p)
  }

  function RunCalls(p: PaymentData, calls: seq<Call>): PaymentData
    decreases |calls|
  {
    if calls == [] then p
    else RunCalls(match AnswerTo(p, calls[0]) case Ok(after) => after case Err(_) => p, calls[1..])
  }

  /** The calls that record an attempt: those that name a provider, whatever the status. */
  function AttemptsIn(calls: seq<Call>): nat
  {
    if calls == [] then 0
    else (if calls[0].Attempt? && calls[0].name != "" then 1 else 0) + AttemptsIn(calls[1..])
  }

  /** A payment has a reference iff it ever succeeded, and a reason iff it failed. */
  predicate Consistent(p: PaymentData)
  {
    && (p.providerRef != "" <==> p.status == Succeeded || p.status == Refunded)
    && (p.failureReason != "" <==> p.status == Failed)
  }

  /** Which calls are refused, and with what error. */
  lemma RefusalsAreExact(p: PaymentData, call: Call)
    ensures AnswerTo(p, call) == Err(Conflict) <==>
              ((call.Succeed? || call.Fail?) && p.status != Pending) || (call.RefundIt? && p.status != Succeeded)
    ensures AnswerTo(p, call) == Err(Validation) <==>
              (call == Attempt("")) || (p.status == Pending && (call == Succeed("") || call == Fail("")))
    ensures AnswerTo(p, call).Err? ==> AnswerTo(p, call).error == Conflict || AnswerTo(p, call).error == Validation
  {
  }

  lemma CallKeepsConsistent(p: PaymentData, call: Call)
    requires Consistent(p) && AnswerTo(p, call).Ok?
    ensures var after := AnswerTo(p, call).value;
            && Consistent(after)
            && after.orderId == p.orderId && after.key == p.key && after.amount == p.amount
            && after.attempts == p.attempts + (if call.Attempt? then 1 else 0)
            && (p.status != Pending ==> after.providerRef == p.providerRef && after.failureReason == p.failureReason)
            && (after.status == p.status <==> call.Attempt?)
            && (p.status == Failed || p.status == Refunded ==> after.status == p.status)
            && (p.status == Succeeded ==> after.status == Succeeded || after.status == Refunded)
  {
  }

  /**
    Any series of calls: attempts are counted one by one, what the payment is for never changes,
    reference and reason fit the status, and a settled payment stays settled with them.
   */
  lemma {:induction false} RunsSettleOnce(p: PaymentData, calls: seq<Call>)
    requires Consistent(p)
    ensures var end := RunCalls(p, calls);
            && Consistent(end)
            && end.orderId == p.orderId && end.key == p.key && end.amount == p.amount
            && end.attempts == p.attempts + AttemptsIn(calls)
            && (p.status != Pending ==> end.providerRef == p.providerRef && end.failureReason == p.failureReason)
            && (p.status == Failed || p.status == Refunded ==> end.status == p.status)
            && (p.status == Succeeded ==> end.status == Succeeded || end.status == Refunded)
    decreases |calls|
  {
    if calls != [] {
      match AnswerTo(p, calls[0]) {
        case Ok(after) =>
          CallKeepsConsistent(p, calls[0]);
          RunsSettleOnce(after, calls[1..]);
        case Err(_) =>
          RefusalsAreExact(p, calls[0]);
          RunsSettleOnce(p, calls[1..]);
      }
    }
  }
}
