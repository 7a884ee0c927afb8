/**
  One worker on its own: how many steps it can take in any company, and that undisturbed it does
  exactly what Process says.
 */
module LoneWorkers {
  import opened Results
  import opened Orders
  import opened Gateways
  import opened Stores
  import opened PlaceOrders
  import opened Protocol
  import opened Conservation
  import P = Payments

  // ---------- In any company: a worker takes finitely many steps ----------

  /** The action is a step of worker k. */
  predicate By(a: Action, k: nat)
  {
    match a
    case Place(j, _) => j == k
    case BeginCharge(j) => j == k
    case EndCharge(j, _) => j == k
    case Settle(j) => j == k
    case Abort(j) => j == k
    case _ => false
  }

  /** At most this many steps are left to a worker. */
  function Remaining(phase: Phase, attempts: nat): int
  {
    match phase
    case Queued => 2 * attempts + 2
    case Charging(pay) => 2 * (attempts - pay.attempts) + 1
    case Calling(pay) => 2 * (attempts - pay.attempts) + 2
    case Settling(_, _) => 1
    case Over(_, _) => 0
  }

  function StepsOf(actions: seq<Action>, k: nat): nat
  {
    if actions == [] then 0 else (if By(actions[0], k) then 1 else 0) + StepsOf(actions[1..], k)
  }

  /** The phase that follows in a worker's life, and how much it leaves. */
  predicate Follows(x: Phase, y: Phase, attempts: nat)
  {
    match x
    case Queued => y.Over? || (y.Charging? && y.pay.attempts == 0)
    case Charging(pay) => y.Over? || y.Settling? || (y.Calling? && y.pay.attempts == pay.attempts + 1)
    case Calling(pay) =>
      y.Over? || y.Settling? || (y.Charging? && y.pay.attempts == pay.attempts && pay.attempts != attempts)
    case Settling(_, _) => y.Over?
    case Over(_, _) => false
  }

  lemma ReserveFollows(w: World, k: nat, id: nat)
    requires Enabled(w, Place(k, id))
    ensures Follows(w.workers[k].phase, AfterReserve(w, k, id).workers[k].phase, Attempts(w.maxAttempts))
  {
    ReserveOutcome(w, k, id);
  }

  lemma SettleFollows(w: World, k: nat)
    requires Enabled(w, Settle(k))
    ensures Follows(w.workers[k].phase, AfterSettle(w, k).workers[k].phase, Attempts(w.maxAttempts))
  {
    SettleOutcome(w, k);
  }

  lemma OwnStepFollows(w: World, a: Action, k: nat)
    requires Enabled(w, a) && By(a, k)
    ensures k in w.workers && k in Apply(w, a).workers
    ensures Follows(w.workers[k].phase, Apply(w, a).workers[k].phase, Attempts(w.maxAttempts))
  {
    if a.Place? {
      ReserveFollows(w, k, a.id);
    } else if a.Settle? {
      SettleFollows(w, k);
    }
  }

  lemma FollowingUsesOne(x: Phase, y: Phase, attempts: nat)
    requires Follows(x, y, attempts)
    requires x.Charging? ==> x.pay.attempts < attempts
    requires x.Calling? ==> x.pay.attempts <= attempts
    ensures Remaining(y, attempts) < Remaining(x, attempts)
  {
  }

  lemma OwnStepUsesOne(w: World, a: Action, k: nat)
    requires Base(w) && Enabled(w, a) && By(a, k)
    ensures k in w.workers && k in Apply(w, a).workers
    ensures Remaining(Apply(w, a).workers[k].phase, Attempts(w.maxAttempts))
          < Remaining(w.workers[k].phase, Attempts(w.maxAttempts))
  {
    OwnStepFollows(w, a, k);
    assert WorkerOk(w.store.orders, Attempts(w.maxAttempts), w.workers[k]);
    FollowingUsesOne(w.workers[k].phase, Apply(w, a).workers[k].phase, Attempts(w.maxAttempts));
  }

  lemma OtherStepsLeaveWorker(w: World, a: Action, k: nat)
    requires Enabled(w, a) && !By(a, k) && k in w.workers
    ensures k in Apply(w, a).workers && Apply(w, a).workers[k] == w.workers[k]
  {
    if a.Place? {
      ReserveOutcome(w, a.w, a.id);
    } else if a.Settle? {
      SettleOutcome(w, a.w);
    }
  }

  /** In every run, whoever else is at work, a queued worker takes at most 2 * attempts + 2 steps. */
  lemma {:induction false} StepsAreBounded(w: World, actions: seq<Action>, v: World, k: nat)
    requires Base(w) && Runs(w, actions, v) && k in w.workers
    ensures k in v.workers
    ensures StepsOf(actions, k) + Remaining(v.workers[k].phase, Attempts(w.maxAttempts))
         <= Remaining(w.workers[k].phase, Attempts(w.maxAttempts))
    ensures Remaining(v.workers[k].phase, Attempts(w.maxAttempts)) >= 0
    decreases |actions|
  {
    if actions != [] {
      if By(actions[0], k) {
        OwnStepUsesOne(w, actions[0], k);
      } else {
        OtherStepsLeaveWorker(w, actions[0], k);
      }
      StepKeepsBase(w, actions[0]);
      SameLimit(w, actions[0]);
      StepsAreBounded(Apply(w, actions[0]), actions[1..], v, k);
    } else {
      assert WorkerOk(w.store.orders, Attempts(w.maxAttempts), w.workers[k]);
    }
  }

  lemma SameLimit(w: World, a: Action)
    requires Enabled(w, a)
    ensures Apply(w, a).maxAttempts == w.maxAttempts
  {
    if a.Place? {
      ReserveOutcome(w, a.w, a.id);
    } else if a.Settle? {
      SettleOutcome(w, a.w);
    }
  }

  // ---------- Alone ----------

  /** The next step of worker k, if it takes row id and the gateway answers attempt n with replies(n). */
  function Next(x: Worker, k: nat, id: nat, replies: nat -> Reply): Option<Action>
  {
    match x.phase
    case Queued => Some(Place(k, id))
    case Charging(_) => Some(BeginCharge(k))
    case Calling(pay) => Some(EndCharge(k, replies(pay.attempts)))
    case Settling(_, _) => Some(Settle(k))
    case Over(_, _) => None
  }

  /** The next step can be taken. */
  predicate Ready(w: World, k: nat, id: nat, replies: nat -> Reply)
    requires k in w.workers
  {
    match w.workers[k].phase
    case Queued => id != 0 && id !in w.store.orders
    case Calling(pay) =>
      (match replies(pay.attempts) case Approve(ref) => ref != "" case Refuse(reason) => reason != "")
    case Over(_, _) => false
    case _ => true
  }

  function After(w: World, k: nat, id: nat, replies: nat -> Reply): World
    requires k in w.workers && Ready(w, k, id, replies)
  {
    match w.workers[k].phase
    case Queued => AfterReserve(w, k, id)
    case Charging(_) => AfterBeginCharge(w, k)
    case Calling(pay) => AfterEndCharge(w, k, replies(pay.attempts))
    case Settling(_, _) => AfterSettle(w, k)
  }

  /** Ready and After speak of the step system's next step. */
  lemma NextIsAfter(w: World, k: nat, id: nat, replies: nat -> Reply)
    requires k in w.workers
    ensures Ready(w, k, id, replies) <==>
              Next(w.workers[k], k, id, replies).Some? && Enabled(w, Next(w.workers[k], k, id, replies).value)
    ensures Ready(w, k, id, replies) ==>
              Apply(w, Next(w.workers[k], k, id, replies).value) == After(w, k, id, replies)
  {
  }

  /** A run that consists of worker k's own steps. */
  ghost predicate LoneRun(w: World, k: nat, id: nat, replies: nat -> Reply, actions: seq<Action>, v: World)
    decreases |actions|
  {
    && k in w.workers
    && if actions == [] then w == v
       else
         && Ready(w, k, id, replies) && Next(w.workers[k], k, id, replies) == Some(actions[0])
         && LoneRun(After(w, k, id, replies), k, id, replies, actions[1..], v)
  }

  /** Worker k at its next phase, with the memo and the attempts so far. */
  function At(w: World, k: nat, memo: Memo, phase: Phase): World
    requires k in w.workers
  {
    w.(memo := memo, workers := w.workers[k := w.workers[k].(phase := phase)])
  }

  function Tried(w: World, k: nat, n: nat): P.PaymentData
    requires k in w.workers && w.workers[k].phase.Charging?
  {
    w.workers[k].phase.pay.(provider := "mock", attempts := n)
  }

  /** Where the charge-retry loop leaves worker k. */
  function Looped(w: World, k: nat, replies: nat -> Reply, attempt: nat): World
    requires k in w.workers && w.workers[k].phase.Charging? && 1 <= attempt <= Attempts(w.maxAttempts)
  {
    var (memo, charge, n) := ChargeLoop(w.memo, w.workers[k].order.key, replies, attempt, Attempts(w.maxAttempts));
    At(w, k, memo, Settling(Tried(w, k, n), charge))
  }

  lemma LoopedAfterMiss(w: World, k: nat, replies: nat -> Reply, attempt: nat)
    requires k in w.workers && w.workers[k].phase.Charging? && 1 <= attempt < Attempts(w.maxAttempts)
    requires w.workers[k].order.key !in w.memo && replies(attempt).Refuse?
    ensures Looped(At(w, k, w.memo, Charging(Tried(w, k, attempt))), k, replies, attempt + 1)
        == Looped(w, k, replies, attempt)
  {
    var w1 := At(w, k, w.memo, Charging(Tried(w, k, attempt)));
    var (memo, charge, n) := ChargeLoop(w.memo, w.workers[k].order.key, replies, attempt, Attempts(w.maxAttempts));
    assert At(w1, k, memo, Settling(Tried(w1, k, n), charge)) == At(w, k, memo, Settling(Tried(w, k, n), charge));
  }

  lemma HitEffect(w: World, k: nat)
    requires k in w.workers && w.workers[k].phase.Charging? && w.workers[k].order.key in w.memo
    ensures AfterBeginCharge(w, k) ==
              At(w, k, w.memo, Settling(Tried(w, k, w.workers[k].phase.pay.attempts + 1),
                                        Charged(w.memo[w.workers[k].order.key])))
  {
    assert AfterBeginCharge(w, k) == At(w, k, w.memo, AfterBeginCharge(w, k).workers[k].phase);
  }

  lemma MissEffect(w: World, k: nat, reply: Reply)
    requires k in w.workers && w.workers[k].phase.Charging? && w.workers[k].order.key !in w.memo
    requires match reply case Approve(ref) => ref != "" case Refuse(reason) => reason != ""
    ensures var n := w.workers[k].phase.pay.attempts + 1;
            var (memo, charge) := ChargeOnce(w.memo, w.workers[k].order.key, reply);
            AfterEndCharge(AfterBeginCharge(w, k), k, reply)
              == At(w, k, memo, if charge.Charged? || n == Attempts(w.maxAttempts) then Settling(Tried(w, k, n), charge)
                                else Charging(Tried(w, k, n)))
  {
    var (memo, charge) := ChargeOnce(w.memo, w.workers[k].order.key, reply);
    var w2 := AfterEndCharge(AfterBeginCharge(w, k), k, reply);
    assert w2 == At(w, k, memo, w2.workers[k].phase);
  }

  /** The world in which a worker that nobody disturbs ends. */
  function Alone(w: World, k: nat, id: nat, replies: nat -> Reply): World
    requires Enabled(w, Place(k, id))
  {
    var w1 := AfterReserve(w, k, id);
    if w1.workers[k].phase.Charging? then AfterSettle(Looped(w1, k, replies, 1), k) else w1
  }

  /** The world v agrees with a result of Process about worker k. */
  ghost predicate EndsWith(w: World, k: nat, v: World, row: Option<nat>, result: (Store, Memo, Outcome))
  {
    && v.store == result.0 && v.memo == result.1
    && k in v.workers && v.workers[k].phase == Over(row, Some(result.2))
    && forall j :: j in w.workers && j != k ==> j in v.workers && v.workers[j] == w.workers[j]
  }

  /** The loop and transaction two of a worker do what Finish says. */
  lemma LoopThenSettle(w: World, k: nat, replies: nat -> Reply)
    requires k in w.workers && w.workers[k].phase.Charging?
    ensures var x := w.workers[k];
            EndsWith(w, k, AfterSettle(Looped(w, k, replies, 1), k), Some(x.phase.pay.orderId),
                     Finish(w.store, w.memo, x.phase.pay.orderId, x.order, x.phase.pay, w.maxAttempts, replies))
  {
  }

  lemma RejectedAlone(w: World, k: nat, id: nat, replies: nat -> Reply)
    requires Enabled(w, Place(k, id)) && !AfterReserve(w, k, id).workers[k].phase.Charging?
    ensures var result := Process(w.store, w.memo, id, w.workers[k].order, w.maxAttempts, replies);
            EndsWith(w, k, AfterReserve(w, k, id), if result.2.Rejected? then None else Some(id), result)
  {
    ReserveOutcome(w, k, id);
  }

  lemma ChargedAlone(w: World, k: nat, id: nat, replies: nat -> Reply)
    requires Enabled(w, Place(k, id)) && AfterReserve(w, k, id).workers[k].phase.Charging?
    ensures var w1 := AfterReserve(w, k, id);
            var x := w1.workers[k];
            && x.phase.pay.orderId == id && w1.memo == w.memo && w1.maxAttempts == w.maxAttempts
            && Process(w.store, w.memo, id, w.workers[k].order, w.maxAttempts, replies)
               == Finish(w1.store, w1.memo, id, x.order, x.phase.pay, w1.maxAttempts, replies)
            && forall j :: j in w.workers && j != k ==> j in w1.workers && w1.workers[j] == w.workers[j]
  {
    ReserveOutcome(w, k, id);
  }

  lemma AloneIsProcess(w: World, k: nat, id: nat, replies: nat -> Reply)
    requires Enabled(w, Place(k, id)) && w.workers[k].order.status == Pending
    ensures var result := Process(w.store, w.memo, id, w.workers[k].order, w.maxAttempts, replies);
            EndsWith(w, k, Alone(w, k, id, replies), if result.2.Rejected? then None else Some(id), result)
  {
    if AfterReserve(w, k, id).workers[k].phase.Charging? {
      ChargedAlone(w, k, id, replies);
      LoopThenSettle(AfterReserve(w, k, id), k, replies);
    } else {
      RejectedAlone(w, k, id, replies);
    }
  }

  // ---------- Every run of its own steps ----------

  lemma FinishedRun(w: World, k: nat, id: nat, replies: nat -> Reply, actions: seq<Action>, v: World)
    requires k in w.workers && !w.workers[k].Live() && LoneRun(w, k, id, replies, actions, v)
    ensures v == w
  {
  }

  lemma SettlingRun(w: World, k: nat, id: nat, replies: nat -> Reply, actions: seq<Action>, v: World)
    requires k in w.workers && w.workers[k].phase.Settling? && LoneRun(w, k, id, replies, actions, v)
    requires k in v.workers && !v.workers[k].Live()
    ensures v == AfterSettle(w, k)
  {
    FinishedRun(AfterSettle(w, k), k, id, replies, actions[1..], v);
  }

  lemma BeginsWithCall(w: World, k: nat, id: nat, replies: nat -> Reply, actions: seq<Action>, v: World)
    requires k in w.workers && w.workers[k].phase.Charging? && LoneRun(w, k, id, replies, actions, v)
    requires k in v.workers && !v.workers[k].Live()
    ensures |actions| > 0 && LoneRun(AfterBeginCharge(w, k), k, id, replies, actions[1..], v)
  {
  }

  lemma BeginsWithReply(w: World, k: nat, id: nat, replies: nat -> Reply, actions: seq<Action>, v: World)
    requires k in w.workers && w.workers[k].phase.Calling? && LoneRun(w, k, id, replies, actions, v)
    requires k in v.workers && !v.workers[k].Live()
    ensures var reply := replies(w.workers[k].phase.pay.attempts);
            && |actions| > 0 && Enabled(w, EndCharge(k, reply))
            && LoneRun(AfterEndCharge(w, k, reply), k, id, replies, actions[1..], v)
  {
  }

  lemma HitRun(w: World, k: nat, id: nat, replies: nat -> Reply, actions: seq<Action>, v: World)
    returns (rest: seq<Action>)
    requires k in w.workers && w.workers[k].phase.Charging? && LoneRun(w, k, id, replies, actions, v)
    requires w.workers[k].phase.pay.attempts < Attempts(w.maxAttempts) && w.workers[k].order.key in w.memo
    requires k in v.workers && !v.workers[k].Live()
    ensures LoneRun(Looped(w, k, replies, w.workers[k].phase.pay.attempts + 1), k, id, replies, rest, v)
  {
    BeginsWithCall(w, k, id, replies, actions, v);
    HitEffect(w, k);
    rest := actions[1..];
  }

  /** Worker k is in the charge-retry loop, which will leave it in the given world. */
  predicate Looping(w: World, k: nat, replies: nat -> Reply, end: World)
  {
    && k in w.workers && w.workers[k].phase.Charging?
    && w.workers[k].phase.pay.attempts < Attempts(w.maxAttempts)
    && end == Looped(w, k, replies, w.workers[k].phase.pay.attempts + 1)
  }

  /** Running the charge-retry loop: what is left of the run starts where the loop leaves the worker. */
  lemma {:induction false} ChargingRun(w: World, k: nat, id: nat, replies: nat -> Reply, actions: seq<Action>, v: World,
                                       end: World)
    returns (rest: seq<Action>)
    requires Looping(w, k, replies, end) && LoneRun(w, k, id, replies, actions, v)
    requires k in v.workers && !v.workers[k].Live()
    ensures LoneRun(end, k, id, replies, rest, v)
    decreases |actions|
  {
    if w.workers[k].order.key in w.memo {
      rest := HitRun(w, k, id, replies, actions, v);
    } else {
      var w2 := FirstMiss(w, k, id, replies, actions, v);
      if Looping(w2, k, replies, end) {
        rest := ChargingRun(w2, k, id, replies, actions[2..], v, end);
      } else {
        rest := actions[2..];
      }
    }
  }

  /** The world after an attempt that the memo does not answer: charging again, or at the end of the loop. */
  lemma FirstMiss(w: World, k: nat, id: nat, replies: nat -> Reply, actions: seq<Action>, v: World) returns (w2: World)
    requires k in w.workers && w.workers[k].phase.Charging? && LoneRun(w, k, id, replies, actions, v)
    requires w.workers[k].phase.pay.attempts < Attempts(w.maxAttempts) && w.workers[k].order.key !in w.memo
    requires k in v.workers && !v.workers[k].Live()
    ensures var n := w.workers[k].phase.pay.attempts + 1;
            && |actions| >= 2 && LoneRun(w2, k, id, replies, actions[2..], v)
            && (Looping(w2, k, replies, Looped(w, k, replies, n)) || w2 == Looped(w, k, replies, n))
  {
    var n := w.workers[k].phase.pay.attempts + 1;
    var w1 := AfterBeginCharge(w, k);
    BeginsWithCall(w, k, id, replies, actions, v);
    BeginsWithReply(w1, k, id, replies, actions[1..], v);
    assert actions[1..][1..] == actions[2..];
    w2 := MissThenLoop(w, k, replies);
  }

  lemma MissThenLoop(w: World, k: nat, replies: nat -> Reply) returns (w2: World)
    requires k in w.workers && w.workers[k].phase.Charging? && w.workers[k].order.key !in w.memo
    requires w.workers[k].phase.pay.attempts < Attempts(w.maxAttempts)
    requires Enabled(AfterBeginCharge(w, k), EndCharge(k, replies(w.workers[k].phase.pay.attempts + 1)))
    ensures var n := w.workers[k].phase.pay.attempts + 1;
            && w2 == AfterEndCharge(AfterBeginCharge(w, k), k, replies(n)) && k in w2.workers
            && if w2.workers[k].phase.Charging? then
                 && w2.workers[k].phase.pay.attempts == n < Attempts(w2.maxAttempts)
                 && Looped(w2, k, replies, n + 1) == Looped(w, k, replies, n)
               else w2 == Looped(w, k, replies, n)
  {
    var n := w.workers[k].phase.pay.attempts + 1;
    MissEffect(w, k, replies(n));
    w2 := AfterEndCharge(AfterBeginCharge(w, k), k, replies(n));
    if w2.workers[k].phase.Charging? {
      LoopedAfterMiss(w, k, replies, n);
    }
  }

  lemma QueuedRun(w: World, k: nat, id: nat, replies: nat -> Reply, actions: seq<Action>, v: World)
    requires Enabled(w, Place(k, id)) && LoneRun(w, k, id, replies, actions, v)
    requires k in v.workers && !v.workers[k].Live()
    ensures v == Alone(w, k, id, replies)
  {
    var w1 := AfterReserve(w, k, id);
    ReserveOutcome(w, k, id);
    if w1.workers[k].phase.Charging? {
      var rest := ChargingRun(w1, k, id, replies, actions[1..], v, Looped(w1, k, replies, 1));
      SettlingRun(Looped(w1, k, replies, 1), k, id, replies, rest, v);
    } else {
      FinishedRun(w1, k, id, replies, actions[1..], v);
    }
  }

  /** Lone runs are runs of the step system, so all its laws hold of them; and all steps are the worker's. */
  lemma {:induction false} LoneRunRuns(w: World, k: nat, id: nat, replies: nat -> Reply, actions: seq<Action>, v: World)
    requires k in w.workers && LoneRun(w, k, id, replies, actions, v)
    ensures Runs(w, actions, v) && StepsOf(actions, k) == |actions|
    decreases |actions|
  {
    if actions != [] {
      NextIsAfter(w, k, id, replies);
      LoneRunRuns(After(w, k, id, replies), k, id, replies, actions[1..], v);
    }
  }

  /**
    Every run of a queued worker's own steps is at most 2 * attempts + 2 steps long, and once no
    step is left it has ended with the store, memo and outcome of Process, every other worker being
    where it was. Until then the next step can be taken.
   */
  lemma AloneWorkerRunsProcess(w: World, k: nat, id: nat, replies: nat -> Reply, actions: seq<Action>, v: World)
    requires Base(w) && Enabled(w, Place(k, id)) && LoneRun(w, k, id, replies, actions, v)
    ensures |actions| <= 2 * Attempts(w.maxAttempts) + 2
    ensures k in v.workers
    ensures !v.workers[k].Live() ==>
              var result := Process(w.store, w.memo, id, w.workers[k].order, w.maxAttempts, replies);
              EndsWith(w, k, v, if result.2.Rejected? then None else Some(id), result)
    ensures v.workers[k].Live() && Talks(w.memo, replies) ==>
              Next(v.workers[k], k, id, replies).Some? && Enabled(v, Next(v.workers[k], k, id, replies).value)
  {
    LoneRunRuns(w, k, id, replies, actions, v);
    StepsAreBounded(w, actions, v, k);
    if !v.workers[k].Live() {
      assert WorkerOk(w.store.orders, Attempts(w.maxAttempts), w.workers[k]);
      QueuedRun(w, k, id, replies, actions, v);
      AloneIsProcess(w, k, id, replies);
    } else if v.workers[k].phase.Queued? {
      StillQueued(w, k, id, replies, actions, v);
    }
  }

  lemma {:induction false} LeftQueue(w: World, k: nat, id: nat, replies: nat -> Reply, actions: seq<Action>, v: World)
    requires k in w.workers && !w.workers[k].phase.Queued? && LoneRun(w, k, id, replies, actions, v)
    ensures k in v.workers && !v.workers[k].phase.Queued?
    decreases |actions|
  {
    if actions != [] {
      NextIsAfter(w, k, id, replies);
      OwnStepFollows(w, actions[0], k);
      LeftQueue(After(w, k, id, replies), k, id, replies, actions[1..], v);
    }
  }

  lemma StillQueued(w: World, k: nat, id: nat, replies: nat -> Reply, actions: seq<Action>, v: World)
    requires Enabled(w, Place(k, id)) && LoneRun(w, k, id, replies, actions, v)
    requires k in v.workers && v.workers[k].phase.Queued?
    ensures v == w
  {
    if actions != [] {
      ReserveOutcome(w, k, id);
      LeftQueue(AfterReserve(w, k, id), k, id, replies, actions[1..], v);
    }
  }
}
