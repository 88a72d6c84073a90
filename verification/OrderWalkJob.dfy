/** What every event of the order walk keeps of one job: its own count of fills against the
    broker's truth, which orders may still be open, and how many cancels each order got. */
module OrderWalkJob {
  import opened Optionals
  import opened WalkSchedule
  import opened OrderWalk

  /** The fills counted on these steps. */
  function CountedOn(steps: seq<Step>): nat {
    if steps == [] then 0 else CountedOn(steps[..|steps| - 1]) + steps[|steps| - 1].filled
  }

  /** What the broker really filled on these orders. */
  function TrueFills(orders: seq<BrokerOrder>): nat {
    if orders == [] then 0 else TrueFills(orders[..|orders| - 1]) + orders[|orders| - 1].filled
  }

  /** The executor's cancels of an order are at most one, and noted on its step first. */
  predicate Matched(request: WorkRequest, step: Step, order: BrokerOrder) {
    && step.price == order.price && step.quantity == order.quantity
    && step.filled <= order.filled
    && order.cancels <= 1 && (order.cancels == 1 ==> step.cancelSent)
    && Sound(request, order)
  }

  predicate Sound(request: WorkRequest, order: BrokerOrder) {
    && order.filled <= order.quantity
    && (Closing(request) ==> order.price <= request.worstPrice)
  }

  /** The order is closed at the broker and all its fills are counted. */
  predicate Settled(step: Step, order: BrokerOrder) {
    order.closed && step.filled == order.filled && Terminal(step.status)
  }

  /** Every earlier order is settled. */
  predicate PastOk(request: WorkRequest, steps: seq<Step>, orders: seq<BrokerOrder>) {
    && |steps| == |orders|
    && forall i :: 0 <= i < |steps| ==> Matched(request, steps[i], orders[i]) && Settled(steps[i], orders[i])
  }

  /** Between two steps, or ended with a known outcome: no order can be open. */
  predicate Idle(pc: Pc) {
    pc.Ready? || pc.Preparing? || pc.WaitingLock? || pc.Locked? || pc.Cleared? || (pc.Ended? && !pc.status.JobUnknown?)
  }

  /** A placed step is being watched, cancelled, or salvaged. */
  predicate InStep(pc: Pc) {
    pc.Polling? || pc.Mismatched? || pc.Dispatching? || pc.CancelSent? || pc.Confirming?
    || pc.SalvageDispatching? || pc.SalvageSent? || pc.SalvageConfirming?
  }

  predicate LastOk(job: Job, step: Step, order: BrokerOrder) {
    && Matched(job.request, step, order)
    && (step.filled == 0 || Settled(step, order))
    && (Idle(job.pc) ==> Settled(step, order))
    && (InStep(job.pc) ==> step.known && step.filled == 0)
    && (job.pc.Dispatching? || job.pc.SalvageDispatching? ==> order.cancels == 0 && step.cancelSent)
  }

  /** The job's steps against the orders it forwarded: all but the last are settled, and the
      last asks for no more than the others left. */
  predicate Orders(job: Job) {
    var n, m := |job.orders|, |job.steps|;
    if n == 0 then m == 0 && job.filled == 0 && !InStep(job.pc) && !job.pc.Placing?
    else
      && (m == n || m == n - 1)
      && PastOk(job.request, job.steps[..n - 1], job.orders[..n - 1])
      && CountedOn(job.steps[..n - 1]) + job.orders[n - 1].quantity <= job.request.quantity
      && (if m == n then
            && !job.pc.Placing?
            && job.filled == CountedOn(job.steps[..n - 1]) + job.steps[n - 1].filled
            && LastOk(job, job.steps[n - 1], job.orders[n - 1])
          else
            && (job.pc.Placing? || job.pc == Ended(JobUnknown))
            && job.filled == CountedOn(job.steps[..n - 1])
            && job.orders[n - 1].cancels == 0
            && Sound(job.request, job.orders[n - 1]))
  }

  predicate Walking(job: Job) {
    && Planned(job.request, job.prices)
    && job.next <= |job.prices|
    && job.request.quantity > 0
    && (job.pc.Preparing? || job.pc.WaitingLock? || job.pc.Locked? || job.pc.Cleared? ==>
          job.next > 0 && job.Remaining() > 0)
  }

  /** An end status says how much was filled. */
  predicate EndedRight(job: Job) {
    job.pc.Ended? ==>
      match job.pc.status
      case JobFilled => job.filled == job.request.quantity
      case JobPartlyFilled => 0 < job.filled < job.request.quantity
      case JobCancelled => job.filled == 0
      case JobStopped => job.filled < job.request.quantity
      case JobUnknown => true
  }

  predicate JobInv(job: Job) {
    Walking(job) && Orders(job) && EndedRight(job)
  }

  // ---- What the invariant means ------------------------------------------------------------

  lemma {:induction false} TrueFillsOfPast(request: WorkRequest, steps: seq<Step>, orders: seq<BrokerOrder>)
    requires PastOk(request, steps, orders)
    ensures TrueFills(orders) == CountedOn(steps)
  {
    if steps != [] { TrueFillsOfPast(request, steps[..|steps| - 1], orders[..|orders| - 1]); }
  }

  /** No over-trading: in every state of a job, what its orders really filled is at most
      what was requested, and at least what the job counted. */
  lemma NeverOverTrades(job: Job)
    requires JobInv(job)
    ensures job.filled <= TrueFills(job.orders) <= job.request.quantity
    ensures job.filled == CountedOn(job.steps)
  {
    var n := |job.orders|;
    if n > 0 {
      TrueFillsOfPast(job.request, job.steps[..n - 1], job.orders[..n - 1]);
      if |job.steps| == n - 1 { assert job.steps[..n - 1] == job.steps; }
    }
  }

  /** The counted fills plus the whole quantity of the one unsettled order never exceed the
      request, and every other order is closed. */
  lemma ExposureBound(job: Job)
    requires JobInv(job) && (InStep(job.pc) || job.pc.Placing?)
    ensures |job.orders| > 0
    ensures job.filled + job.orders[|job.orders| - 1].quantity <= job.request.quantity
    ensures forall i :: 0 <= i < |job.orders| - 1 ==> job.orders[i].closed
  {
    var n := |job.orders|;
    forall i | 0 <= i < n - 1 ensures job.orders[i].closed { EarlierClosed(job, i); }
  }

  lemma EarlierClosed(job: Job, i: nat)
    requires JobInv(job) && i < |job.orders| - 1
    ensures i < |job.steps| && Settled(job.steps[i], job.orders[i])
    ensures Matched(job.request, job.steps[i], job.orders[i])
  {
    var n := |job.orders|;
    assert job.orders[..n - 1][i] == job.orders[i] && job.steps[..n - 1][i] == job.steps[i];
  }

  /** Only the last order of a job can be open, and none when the outcome is known. */
  lemma OpenOnlyLast(job: Job, i: nat)
    requires JobInv(job) && i < |job.orders| && !job.orders[i].closed
    ensures i == |job.orders| - 1 && !Idle(job.pc)
  {
    if i < |job.orders| - 1 { EarlierClosed(job, i); }
  }

  /** No order gets a second cancel from the executor. */
  lemma CancelledAtMostOnce(job: Job, i: nat)
    requires JobInv(job) && i < |job.orders|
    ensures job.orders[i].cancels <= 1
  {
    if i < |job.orders| - 1 { EarlierClosed(job, i); }
  }

  // ---- Every event keeps the job's invariant -------------------------------------------------

  /** Only the last step, the last order, and the place change. */
  predicate SamePast(job: Job, later: Job) {
    && later.request == job.request && later.prices == job.prices
    && |later.orders| == |job.orders| > 0 && |later.steps| == |job.steps| <= |job.orders|
    && |job.steps| >= |job.orders| - 1
    && later.orders[..|job.orders| - 1] == job.orders[..|job.orders| - 1]
    && later.steps[..|job.orders| - 1] == job.steps[..|job.orders| - 1]
  }

  lemma PastExtends(request: WorkRequest, steps: seq<Step>, orders: seq<BrokerOrder>)
    requires |steps| == |orders| > 0
    requires PastOk(request, steps[..|steps| - 1], orders[..|orders| - 1])
    requires Matched(request, steps[|steps| - 1], orders[|orders| - 1])
    requires Settled(steps[|steps| - 1], orders[|orders| - 1])
    ensures PastOk(request, steps, orders)
  {
    var n := |steps| - 1;
    forall i | 0 <= i < |steps|
      ensures Matched(request, steps[i], orders[i]) && Settled(steps[i], orders[i])
    {
      if i < n { assert steps[..n][i] == steps[i] && orders[..n][i] == orders[i]; }
    }
  }

  lemma KeptByPc(job: Job, pc: Pc)
    requires JobInv(job)
    requires pc == Ended(JobUnknown)
             || (InStep(job.pc) && InStep(pc) && !pc.Dispatching? && !pc.SalvageDispatching?)
             || (job.pc.Dispatching? && pc.Dispatching?)
    ensures JobInv(job.(pc := pc))
  { }

  lemma KeptByStatus(job: Job, status: OrderStatus)
    requires JobInv(job) && InStep(job.pc)
    ensures JobInv(WithStatus(job, status))
  {
    assert SamePast(job, WithStatus(job, status));
  }

  lemma KeptByCancelSent(job: Job, sent: bool, pc: Pc)
    requires JobInv(job) && InStep(job.pc) && job.orders[|job.orders| - 1].cancels == 0
    requires pc == Ended(JobUnknown) || (InStep(pc) && (pc.Dispatching? || pc.SalvageDispatching? ==> sent))
    ensures JobInv(WithCancelSent(job, sent).(pc := pc))
  {
    assert SamePast(job, WithCancelSent(job, sent).(pc := pc));
  }

  lemma KeptByCancelForwarded(job: Job, pc: Pc)
    requires JobInv(job) && (job.pc.Dispatching? || job.pc.SalvageDispatching?)
    requires pc.CancelSent? || pc.SalvageSent?
    ensures JobInv(WithCancelForwarded(job).(pc := pc))
  {
    assert SamePast(job, WithCancelForwarded(job).(pc := pc));
  }

  /** Counting a true terminal read settles the last step. */
  lemma KeptByCounting(job: Job, seen: Observation, strict: bool, pc: Pc)
    requires JobInv(job) && InStep(job.pc)
    requires Terminal(seen.status) && Honest(seen, job.orders[|job.orders| - 1])
    requires Countable(seen, job.steps[|job.steps| - 1], strict)
    requires pc.Ready? || pc == Ended(JobUnknown) || pc == Ended(Counted(job, seen).Final())
    ensures JobInv(Counted(job, seen).(pc := pc))
  {
    var c := Counted(job, seen).(pc := pc);
    assert SamePast(job, c);
  }

  lemma KeptByAfterSettle(job: Job, seen: Observation, strict: bool)
    requires JobInv(job) && InStep(job.pc)
    requires Terminal(seen.status) && Honest(seen, job.orders[|job.orders| - 1])
    ensures JobInv(AfterSettle(job, seen, strict))
  {
    var noted := WithStatus(job, seen.status);
    KeptByStatus(job, seen.status);
    if Countable(seen, noted.steps[|noted.steps| - 1], strict) {
      KeptByCounting(noted, seen, strict, if strict then Ready else Ended(JobUnknown));
    } else {
      KeptByPc(noted, Ended(JobUnknown));
    }
  }

  lemma KeptByUnacceptedCancel(job: Job, seen: Observation)
    requires JobInv(job) && InStep(job.pc)
    requires Terminal(seen.status) && Honest(seen, job.orders[|job.orders| - 1])
    ensures JobInv(AfterUnacceptedCancel(job, seen))
  {
    if Countable(seen, job.steps[|job.steps| - 1], true) {
      KeptByCounting(job, seen, true, Ended(Counted(job, seen).Final()));
    } else {
      KeptByPc(job, Ended(JobUnknown));
    }
  }

  lemma KeptByAfterSalvage(job: Job, seen: Observation)
    requires JobInv(job) && InStep(job.pc)
    requires Terminal(seen.status) && Honest(seen, job.orders[|job.orders| - 1])
    ensures JobInv(AfterSalvage(job, seen))
  {
    if Countable(seen, job.steps[|job.steps| - 1], true) {
      KeptByCounting(job, seen, true, Ended(JobUnknown));
    } else {
      KeptByPc(job, Ended(JobUnknown));
    }
  }

  function Forwarded(job: Job): Job
    requires 0 < job.next <= |job.prices|
  {
    job.(pc := Placing,
         orders := job.orders + [BrokerOrder(job.prices[job.next - 1], job.Remaining(), 0, false, 0, 0)])
  }

  lemma KeptByForward(job: Job)
    requires JobInv(job) && job.pc.Cleared?
    ensures JobInv(Forwarded(job))
  {
    var placed := Forwarded(job);
    var n := |job.orders|;
    if n > 0 { PastExtends(job.request, job.steps, job.orders); }
    assert placed.orders[..n] == job.orders && placed.steps[..n] == job.steps;
    assert job.filled == CountedOn(job.steps) by { NeverOverTrades(job); }
  }

  /** The place's answer becomes the job's next step. */
  lemma KeptByAnswer(job: Job, step: Step, pc: Pc)
    requires JobInv(job) && job.pc.Placing?
    requires step.price == job.orders[|job.orders| - 1].price
    requires step.quantity == job.orders[|job.orders| - 1].quantity
    requires step.filled == 0 && !step.cancelSent
    requires pc == Ended(JobUnknown) || ((pc.Polling? || pc.Mismatched?) && step.known)
    ensures JobInv(job.(pc := pc, steps := job.steps + [step]))
  {
    var next := job.(pc := pc, steps := job.steps + [step]);
    var n := |job.orders|;
    assert next.steps[..n - 1] == job.steps[..n - 1];
  }

  lemma KeptBetweenSteps(job: Job, pc: Pc, next: nat)
    requires JobInv(job) && Idle(job.pc) && Idle(pc)
    requires next <= |job.prices|
    requires pc.Preparing? || pc.WaitingLock? || pc.Locked? || pc.Cleared? ==> next > 0 && job.Remaining() > 0
    requires EndedRight(job.(pc := pc))
    ensures JobInv(job.(pc := pc, next := next))
  { }

  /** Ending with a status the code may choose there. */
  lemma KeptByEnd(job: Job, status: JobStatus)
    requires JobInv(job) && MayEnd(job, status)
    ensures JobInv(job.(pc := Ended(status)))
  {
    NeverOverTrades(job);
    KeptBetweenSteps(job, Ended(status), job.next);
  }

  /** While a place is in flight every recorded step is settled. */
  lemma PlacingHasNoWorkingStep(job: Job)
    requires JobInv(job)
    ensures job.pc.Placing? || Idle(job.pc) ==> !job.MayBeWorking()
  {
    if job.pc.Placing? && |job.steps| > 0 { EarlierClosed(job, |job.steps| - 1); }
  }

  /** A crash keeps the record, and asks for a salvage only of an order never cancelled. */
  lemma KeptByCrash(job: Job)
    requires JobInv(job) && job.Active() && !job.Salvaging()
    ensures JobInv(if job.MayBeWorking() && !job.steps[|job.steps| - 1].cancelSent
                   then WithCancelSent(job, true).(pc := SalvageDispatching)
                   else job.(pc := Ended(JobUnknown)))
  {
    if job.MayBeWorking() && !job.steps[|job.steps| - 1].cancelSent {
      PlacingHasNoWorkingStep(job);
      KeptByCancelSent(job, true, SalvageDispatching);
    } else {
      KeptByPc(job, Ended(JobUnknown));
    }
  }

  lemma BetweenStepsKeeps(s: RunState, e: Event)
    requires e.BeginStep? || e.AskForLock? || e.AcquireLock? || e.PassGate?
    requires JobEnabled(s, e) && JobInv(s.jobs[e.j])
    ensures JobInv(JobAfter(s, e))
  {
    var job := s.jobs[e.j];
    match e
    case BeginStep(_) => KeptBetweenSteps(job, Preparing, job.next + 1);
    case AskForLock(_) => KeptBetweenSteps(job, WaitingLock, job.next);
    case AcquireLock(_) => KeptBetweenSteps(job, Locked, job.next);
    case PassGate(_, cash) => KeptBetweenSteps(job, Cleared(cash), job.next);
  }

  lemma PlaceOrEndKeeps(s: RunState, e: Event)
    requires e.ForwardPlace? || e.End?
    requires JobEnabled(s, e) && JobInv(s.jobs[e.j])
    ensures JobInv(JobAfter(s, e))
  {
    var job := s.jobs[e.j];
    match e
    case ForwardPlace(_) => KeptByForward(job);
    case End(_, status) => KeptByEnd(job, status);
  }

  lemma PlaceNotedKeeps(s: RunState, e: Event)
    requires e.PlaceAnswered? || e.PlaceUnknown?
    requires JobEnabled(s, e) && JobInv(s.jobs[e.j])
    ensures JobInv(JobAfter(s, e))
  {
    var job := s.jobs[e.j];
    var order := job.orders[|job.orders| - 1];
    match e
    case PlaceAnswered(_, seen) =>
      KeptByAnswer(job, Step(order.price, order.quantity, true, seen.status, 0, false),
                   if PlacedMatches(seen, order.price, order.quantity) then Polling else Mismatched);
    case PlaceUnknown(_) =>
      KeptByAnswer(job, Step(order.price, order.quantity, false, StatusUnknown, 0, false), Ended(JobUnknown));
  }

  lemma ReadKeeps(s: RunState, e: Event)
    requires e.Poll? || e.Settle?
    requires JobEnabled(s, e) && JobInv(s.jobs[e.j])
    ensures JobInv(JobAfter(s, e))
  {
    var job := s.jobs[e.j];
    match e
    case Poll(_, seen) => KeptByStatus(job, seen.status);
    case Settle(_, seen) => KeptByAfterSettle(job, seen, job.pc.Polling?);
  }

  lemma CancelKeeps(s: RunState, e: Event)
    requires e.StartCancel? || e.CancelUnsent? || e.ForwardCancel?
    requires JobEnabled(s, e) && JobInv(s.jobs[e.j])
    ensures JobInv(JobAfter(s, e))
  {
    var job := s.jobs[e.j];
    match e
    case StartCancel(_) => KeptByCancelSent(job, true, Dispatching(s.Stopping(), job.pc.Polling?));
    case CancelUnsent(_, refused) =>
      if !job.pc.stopping && s.Stopping() {
        KeptByPc(job, Dispatching(true, job.pc.strict));
      } else {
        KeptByCancelSent(job, false, if refused then Ended(JobUnknown) else Confirming(false, job.pc.strict));
      }
    case ForwardCancel(_) => KeptByCancelForwarded(job, CancelSent(job.pc.strict));
  }

  lemma CancelNotedKeeps(s: RunState, e: Event)
    requires e.CancelAnswered? || e.Confirm? || e.GiveUp?
    requires JobEnabled(s, e) && JobInv(s.jobs[e.j])
    ensures JobInv(JobAfter(s, e))
  {
    var job := s.jobs[e.j];
    match e
    case CancelAnswered(_, ok) => KeptByPc(job, Confirming(ok, job.pc.strict));
    case Confirm(_, seen) =>
      if job.pc.accepted { KeptByAfterSettle(job, seen, job.pc.strict); }
      else { KeptByUnacceptedCancel(job, seen); }
    case GiveUp(_) => KeptByPc(job, Ended(JobUnknown));
  }

  lemma CrashKeeps(s: RunState, e: Event)
    requires e.Crash? || e.SalvageForward? || e.SalvageConfirm?
    requires JobEnabled(s, e) && JobInv(s.jobs[e.j])
    ensures JobInv(JobAfter(s, e))
  {
    var job := s.jobs[e.j];
    match e
    case Crash(_, _) => KeptByCrash(job);
    case SalvageForward(_) => KeptByCancelForwarded(job, SalvageSent);
    case SalvageConfirm(_, seen) => KeptByAfterSalvage(job, seen);
  }

  lemma SalvageKeeps(s: RunState, e: Event)
    requires e.SalvageUnsent? || e.SalvageAnswered? || e.SalvageGiveUp?
    requires JobEnabled(s, e) && JobInv(s.jobs[e.j])
    ensures JobInv(JobAfter(s, e))
  {
    KeptByPc(s.jobs[e.j], if e.SalvageGiveUp? then Ended(JobUnknown) else SalvageConfirming);
  }

  lemma JobEventKeeps(s: RunState, e: Event)
    requires JobEvent(e) && JobEnabled(s, e) && JobInv(s.jobs[e.j])
    ensures JobInv(JobAfter(s, e))
  {
    if e.BeginStep? || e.AskForLock? || e.AcquireLock? || e.PassGate? { BetweenStepsKeeps(s, e); }
    else if e.ForwardPlace? || e.End? { PlaceOrEndKeeps(s, e); }
    else if e.PlaceAnswered? || e.PlaceUnknown? { PlaceNotedKeeps(s, e); }
    else if e.Poll? || e.Settle? { ReadKeeps(s, e); }
    else if e.StartCancel? || e.CancelUnsent? || e.ForwardCancel? { CancelKeeps(s, e); }
    else if e.CancelAnswered? || e.Confirm? || e.GiveUp? { CancelNotedKeeps(s, e); }
    else if e.Crash? || e.SalvageForward? || e.SalvageConfirm? { CrashKeeps(s, e); }
    else { SalvageKeeps(s, e); }
  }

  lemma PastWithSettled(request: WorkRequest, steps: seq<Step>, orders: seq<BrokerOrder>, i: nat, order: BrokerOrder)
    requires PastOk(request, steps, orders) && i < |orders|
    requires Matched(request, steps[i], order) && Settled(steps[i], order)
    ensures PastOk(request, steps, orders[i := order])
  { }

  /** What happens at the broker, fills and closes of an open order and the agent's own
      cancels, keeps the job's invariant. */
  lemma BrokerKeeps(job: Job, i: nat, order: BrokerOrder)
    requires JobInv(job) && i < |job.orders|
    requires order.price == job.orders[i].price && order.quantity == job.orders[i].quantity
    requires order.cancels == job.orders[i].cancels
    requires job.orders[i].filled <= order.filled <= order.quantity
    requires job.orders[i].closed ==> order.closed && order.filled == job.orders[i].filled
    ensures JobInv(job.(orders := job.orders[i := order]))
  {
    var later := job.(orders := job.orders[i := order]);
    var n := |job.orders|;
    if i < n - 1 {
      EarlierClosed(job, i);
      PastWithSettled(job.request, job.steps[..n - 1], job.orders[..n - 1], i, order);
      assert later.orders[..n - 1] == job.orders[..n - 1][i := order];
    } else {
      assert SamePast(job, later);
    }
  }
}
