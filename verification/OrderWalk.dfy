/** The code-run order walk as a protocol (`agent/order_walk.py` with the checks of
    `agent/hooks.py` and `agent/proxy.py` around it).

    A state is the whole run: the flags every job reads, the placement lock, the admitted
    reservations, the orders of the tick's earlier runs the ledger cannot resolve, and one
    record per job holding both what the job knows (its steps) and what is true at the broker
    (its orders). An event is the code between two `await`s, or finer. Broker answers, clocks,
    denials, crashes, and the order in which jobs run are free choices; the one thing assumed of
    the broker is that a terminal order read is true (`Honest`). */
module OrderWalk {
  import opened Optionals
  import opened OrderConcurrency
  import opened WalkSchedule

  // ---- What a job works with ---------------------------------------------------------------

  datatype WorkRequest = WorkRequest(
    optionId: OptionId, side: Side, quantity: nat, startPrice: nat, worstPrice: nat)

  datatype OrderStatus =
    | NotPlaced | Placed | PartlyFilled | Filled | Cancelled | Rejected | Expired | StatusUnknown

  predicate Terminal(status: OrderStatus) {
    status.Filled? || status.Cancelled? || status.Rejected? || status.Expired?
  }

  datatype JobStatus =
    | JobFilled | JobPartlyFilled | JobCancelled | JobStopped | JobUnknown

  /** What one broker answer says of an order. `legsMatch`: its one leg is the request's. */
  datatype Observation = Observation(
    status: OrderStatus, quantity: int, processed: int, limitPrice: Option<nat>, legsMatch: bool)

  /** The job's own record of one step (`WalkStep`). `known`: the broker order ID is set. */
  datatype Step = Step(
    price: nat, quantity: nat, known: bool, status: OrderStatus, filled: nat, cancelSent: bool)

  /** The broker's truth about one order the executor forwarded: `cancels` counts the
      executor's cancels that reached it, `agentCancels` the agent's own. */
  datatype BrokerOrder = BrokerOrder(
    price: nat, quantity: nat, filled: nat, closed: bool, cancels: nat, agentCancels: nat)

  /** Where a job is suspended, or (`Cleared`) between the checks of its place and the send, a
      stretch of code that only the stop latch and the broker can enter. `stopping`: the
      after-stop form of the cancel is being sent. `strict`: the placed order matched the
      request. */
  datatype Pc =
    | Ready
    | Preparing
    | WaitingLock
    | Locked
    | Cleared(snapshotCash: int)
    | Placing
    | Polling
    | Mismatched
    | Dispatching(stopping: bool, strict: bool)
    | CancelSent(strict: bool)
    | Confirming(accepted: bool, strict: bool)
    | SalvageDispatching
    | SalvageSent
    | SalvageConfirming
    | Ended(status: JobStatus)

  /** `next` is the number of price steps begun. `orders[i]` is the i-th place forwarded. */
  datatype Job = Job(
    id: nat, request: WorkRequest, prices: seq<nat>, next: nat, pc: Pc,
    steps: seq<Step>, filled: nat, orders: seq<BrokerOrder>)
  {
    predicate Active() { !pc.Ended? }

    predicate Salvaging() { pc.SalvageDispatching? || pc.SalvageSent? || pc.SalvageConfirming? }

    function Remaining(): nat {
      if filled <= request.quantity then request.quantity - filled else 0
    }

    /** `_final`. */
    function Final(): JobStatus {
      if filled >= request.quantity then JobFilled
      else if filled > 0 then JobPartlyFilled
      else JobCancelled
    }

    /** `working_order_id` is set: the last step's order may still be working. */
    predicate MayBeWorking() {
      |steps| > 0 && steps[|steps| - 1].known && !Terminal(steps[|steps| - 1].status)
    }

    /** Some order of this job is still open at the broker. */
    predicate HasOpenOrder() {
      exists i :: 0 <= i < |orders| && !orders[i].closed
    }

    /** The job still counts: unfinished, or an order of it is still open. */
    predicate Live() { Active() || HasOpenOrder() }
  }

  datatype Reservation = Reservation(id: nat, request: WorkRequest)

  /** `unresolved` is what the ledger shows of the tick's earlier runs; `earlier` is the same orders
      with what is really left of each. */
  datatype RunState = RunState(
    stop: bool, halted: bool, placementEnded: bool, lockHolder: Option<nat>,
    reserved: seq<Reservation>, jobs: seq<Job>, multipliers: Multipliers, cash: int,
    unresolved: seq<WorkingPlacement>, earlier: seq<WorkingPlacement>)
  {
    predicate Stopping() { halted || stop }

    /** A place has passed its checks and is about to be sent. */
    predicate Sending() {
      lockHolder.Some? && lockHolder.value < |jobs| && jobs[lockHolder.value].pc.Cleared?
    }

    function Put(j: nat, job: Job): RunState
      requires j < |jobs|
    {
      this.(jobs := jobs[j := job])
    }
  }

  // ---- The checks a placement passes -------------------------------------------------------

  function Closing(request: WorkRequest): bool { request.side.BuyToClose? }

  function WorkItem(id: nat, request: WorkRequest, remaining: nat): WorkingPlacement {
    WorkingPlacement(id, Some(request.optionId), Closing(request), Some(remaining), Some(request.worstPrice))
  }

  /** The unfinished jobs but the one asking, at their worst price. */
  function ActiveItems(jobs: seq<Job>, exclude: Option<nat>): seq<WorkingPlacement> {
    if jobs == [] then []
    else
      var n := |jobs| - 1;
      ActiveItems(jobs[..n], exclude)
      + if jobs[n].Active() && exclude != Some(n)
        then [WorkItem(jobs[n].id, jobs[n].request, jobs[n].Remaining())] else []
  }

  function ReservedItems(reserved: seq<Reservation>): seq<WorkingPlacement> {
    if reserved == [] then []
    else
      var n := |reserved| - 1;
      ReservedItems(reserved[..n]) + [WorkItem(reserved[n].id, reserved[n].request, reserved[n].request.quantity)]
  }

  /** `active_jobs`: this run's own other work. */
  function ActiveWork(s: RunState, exclude: Option<nat>): seq<WorkingPlacement> {
    ActiveItems(s.jobs, exclude) + ReservedItems(s.reserved)
  }

  /** `placement_state`: the unresolved orders of the tick's earlier runs, and this run's work. */
  function OtherWork(s: RunState, exclude: Option<nat>): seq<WorkingPlacement> {
    s.unresolved + ActiveWork(s, exclude)
  }

  function Placement(request: WorkRequest, price: nat, quantity: nat): NewPlacement {
    NewPlacement([PlacementLeg(request.optionId, Closing(request))], Some(quantity), Some(price))
  }

  /** The concurrency check lets this placement join the work in progress. */
  predicate MayJoin(s: RunState, exclude: Option<nat>, request: WorkRequest, price: nat, quantity: nat, cash: int) {
    Admissible(Placement(request, price, quantity), OtherWork(s, exclude), 0, s.multipliers, Some(cash))
  }

  /** The planned prices of a request: some, and none past the worst price of a close. */
  predicate Planned(request: WorkRequest, prices: seq<nat>) {
    && prices != []
    && (Closing(request) ==> forall i :: 0 <= i < |prices| ==> prices[i] <= request.worstPrice)
  }

  // ---- Broker answers ----------------------------------------------------------------------

  /** A terminal order read is true: the order is closed and its fills are final. */
  predicate Honest(seen: Observation, order: BrokerOrder) {
    Terminal(seen.status) ==> order.closed && seen.processed == order.filled
  }

  /** `_placed_matches`. */
  predicate PlacedMatches(seen: Observation, price: nat, quantity: nat) {
    && seen.legsMatch
    && seen.quantity == quantity
    && (seen.limitPrice.Some? ==> seen.limitPrice.value == price)
  }

  /** The condition under which `_settle` counts a terminal order's fills. */
  predicate Countable(seen: Observation, step: Step, strict: bool) {
    && 0 <= seen.processed <= step.quantity
    && (strict ==> seen.quantity == step.quantity)
    && (seen.status.Filled? ==> seen.processed == seen.quantity)
    && (seen.status.Cancelled? ==> seen.processed != seen.quantity)
  }

  /** `_settle` on the last step, when the fills are countable. */
  function Counted(job: Job, seen: Observation): Job
    requires |job.steps| > 0 && seen.processed >= 0
  {
    var k := |job.steps| - 1;
    if job.steps[k].filled > 0 then job
    else job.(steps := job.steps[k := job.steps[k].(status := seen.status, filled := seen.processed)],
              filled := job.filled + seen.processed)
  }

  function WithStatus(job: Job, status: OrderStatus): Job
    requires |job.steps| > 0
  {
    var k := |job.steps| - 1;
    job.(steps := job.steps[k := job.steps[k].(status := status)])
  }

  function WithCancelSent(job: Job, sent: bool): Job
    requires |job.steps| > 0
  {
    var k := |job.steps| - 1;
    job.(steps := job.steps[k := job.steps[k].(cancelSent := sent)])
  }

  function WithCancelForwarded(job: Job): Job
    requires |job.orders| > 0
  {
    var k := |job.orders| - 1;
    job.(orders := job.orders[k := job.orders[k].(cancels := job.orders[k].cancels + 1)])
  }

  /** The last step ends on a terminal read: its fills are counted and the walk goes on, or
      the job ends unknown because the fills are inconsistent or the order was not ours. */
  function AfterSettle(job: Job, seen: Observation, strict: bool): Job
    requires |job.steps| > 0
  {
    var noted := WithStatus(job, seen.status);
    if !Countable(seen, noted.steps[|noted.steps| - 1], strict) then noted.(pc := Ended(JobUnknown))
    else Counted(noted, seen).(pc := if strict then Ready else Ended(JobUnknown))
  }

  /** The reads found the order terminal although its cancel was not accepted. */
  function AfterUnacceptedCancel(job: Job, seen: Observation): Job
    requires |job.steps| > 0
  {
    if !Countable(seen, job.steps[|job.steps| - 1], true) then job.(pc := Ended(JobUnknown))
    else var counted := Counted(job, seen); counted.(pc := Ended(counted.Final()))
  }

  function AfterSalvage(job: Job, seen: Observation): Job
    requires |job.steps| > 0
  {
    (if Countable(seen, job.steps[|job.steps| - 1], true) then Counted(job, seen) else job)
    .(pc := Ended(JobUnknown))
  }

  // ---- Events --------------------------------------------------------------------------------

  datatype Event =
    // The session, the agent, and the broker.
    | RequestStop
    | Halt
    | Admit(id: nat, request: WorkRequest, snapshotCash: int)
    | Release(id: nat)
    | Start(id: nat, prices: seq<nat>)
    | BrokerFill(j: nat, i: nat, contracts: nat)
    | BrokerClose(j: nat, i: nat)
    | AgentCancel(j: nat, i: nat)
    | EarlierFill(i: nat, remaining: nat)
    | EarlierRead(i: nat, remaining: nat)
    | EarlierResolved(i: nat)
    // Job `j`.
    | BeginStep(j: nat)
    | AskForLock(j: nat)
    | AcquireLock(j: nat)
    | PassGate(j: nat, snapshotCash: int)
    | ForwardPlace(j: nat)
    | PlaceAnswered(j: nat, seen: Observation)
    | PlaceUnknown(j: nat)
    | Poll(j: nat, seen: Observation)
    | Settle(j: nat, seen: Observation)
    | StartCancel(j: nat)
    | CancelUnsent(j: nat, refused: bool)
    | ForwardCancel(j: nat)
    | CancelAnswered(j: nat, ok: bool)
    | Confirm(j: nat, seen: Observation)
    | GiveUp(j: nat)
    | End(j: nat, status: JobStatus)
    | Crash(j: nat, failure: bool)
    | SalvageForward(j: nat)
    | SalvageUnsent(j: nat)
    | SalvageAnswered(j: nat)
    | SalvageConfirm(j: nat, seen: Observation)
    | SalvageGiveUp(j: nat)

  /** The events of one job's own task. */
  predicate JobEvent(e: Event) {
    !(e.RequestStop? || e.Halt? || e.Admit? || e.Release? || e.Start?
      || e.BrokerFill? || e.BrokerClose? || e.AgentCancel?
      || e.EarlierFill? || e.EarlierRead? || e.EarlierResolved?)
  }

  predicate IdTaken(s: RunState, id: nat) {
    || (exists r :: 0 <= r < |s.reserved| && s.reserved[r].id == id)
    || (exists j :: 0 <= j < |s.jobs| && s.jobs[j].id == id)
  }

  /** The job's task may end with this status where it now is. */
  predicate MayEnd(job: Job, status: JobStatus) {
    match job.pc
    case Ready =>
      || status == job.Final()
      || (status.JobStopped? && job.filled < job.request.quantity)
      || (status.JobPartlyFilled? && 0 < job.filled < job.request.quantity)
    case Preparing => status.JobStopped? || status == job.Final()
    case WaitingLock => status.JobStopped? || status == job.Final()
    case Locked => status.JobStopped?
    case Cleared(_) => status.JobStopped?
    case _ => false
  }

  /** The part of an event's condition that reads only the job and the answer it got. */
  predicate JobEnabled(s: RunState, e: Event)
    requires JobEvent(e)
  {
    && e.j < |s.jobs| && (s.Sending() ==> s.lockHolder == Some(e.j))
    && var job := s.jobs[e.j];
       match e
       case BeginStep(_) => job.pc.Ready? && job.next < |job.prices| && job.Remaining() > 0
                            && !s.Stopping() && !s.placementEnded
       case AskForLock(_) => job.pc.Preparing?
       case AcquireLock(_) => job.pc.WaitingLock? && s.lockHolder.None? && !s.Stopping() && !s.placementEnded
       case PassGate(_, cash) =>
         && job.pc.Locked? && 0 < job.next <= |job.prices| && !s.stop && !s.placementEnded
         && MayJoin(s, Some(e.j), job.request, job.prices[job.next - 1], job.Remaining(), cash)
       case ForwardPlace(_) => job.pc.Cleared? && 0 < job.next <= |job.prices|
       case PlaceAnswered(_, seen) => job.pc.Placing? && |job.orders| > 0
                                      && Honest(seen, job.orders[|job.orders| - 1])
       case PlaceUnknown(_) => job.pc.Placing? && |job.orders| > 0
       case Poll(_, seen) => job.pc.Polling? && |job.steps| > 0 && !Terminal(seen.status)
       case Settle(_, seen) => (job.pc.Polling? || job.pc.Mismatched?) && |job.steps| > 0 && |job.orders| > 0
                               && Terminal(seen.status) && Honest(seen, job.orders[|job.orders| - 1])
       case StartCancel(_) => (job.pc.Polling? || job.pc.Mismatched?) && job.MayBeWorking()
                              && !job.steps[|job.steps| - 1].cancelSent
       case CancelUnsent(_, _) => job.pc.Dispatching? && |job.steps| > 0
       case ForwardCancel(_) => job.pc.Dispatching? && |job.orders| > 0 && (s.stop ==> job.pc.stopping)
       case CancelAnswered(_, _) => job.pc.CancelSent?
       case Confirm(_, seen) => job.pc.Confirming? && |job.steps| > 0 && |job.orders| > 0
                                && Terminal(seen.status) && Honest(seen, job.orders[|job.orders| - 1])
       case GiveUp(_) => job.pc.Confirming?
       case End(_, status) => MayEnd(job, status)
       case Crash(_, _) => job.Active() && !job.Salvaging()
       case SalvageForward(_) => job.pc.SalvageDispatching? && |job.orders| > 0
       case SalvageUnsent(_) => job.pc.SalvageDispatching?
       case SalvageAnswered(_) => job.pc.SalvageSent?
       case SalvageConfirm(_, seen) => job.pc.SalvageConfirming? && |job.steps| > 0 && |job.orders| > 0
                                       && Terminal(seen.status) && Honest(seen, job.orders[|job.orders| - 1])
       case SalvageGiveUp(_) => job.Salvaging()
  }

  predicate SharedEnabled(s: RunState, e: Event)
    requires !JobEvent(e)
  {
    match e
    case RequestStop => true
    case Halt => !s.Sending()
    case Admit(id, request, cash) =>
      && !s.Sending() && !s.stop && !s.placementEnded && request.quantity > 0 && !IdTaken(s, id)
      && MayJoin(s, None, request, request.startPrice, request.quantity, cash)
    case Release(id) => !s.Sending()
    case Start(id, prices) =>
      && !s.Sending()
      && (exists r :: 0 <= r < |s.reserved| && s.reserved[r].id == id
                      && Planned(s.reserved[r].request, prices))
      && !(exists j :: 0 <= j < |s.jobs| && s.jobs[j].id == id)
    case BrokerFill(j, i, n) =>
      && j < |s.jobs| && i < |s.jobs[j].orders| && !s.jobs[j].orders[i].closed
      && s.jobs[j].orders[i].filled + n <= s.jobs[j].orders[i].quantity
    case BrokerClose(j, i) => j < |s.jobs| && i < |s.jobs[j].orders|
    case AgentCancel(j, i) =>
      // The hooks' checks on the agent's own cancel: no job holds the order, none is placing.
      && j < |s.jobs| && i < |s.jobs[j].orders| && !s.stop && s.lockHolder.None?
      && !(s.jobs[j].Active() && i < |s.jobs[j].steps| && s.jobs[j].steps[i].known)
    case EarlierFill(i, remaining) =>
      i < |s.earlier| && s.earlier[i].remaining.Some? && remaining <= s.earlier[i].remaining.value
    case EarlierRead(i, remaining) =>
      // Fills read, or fills no longer consistent: the full quantity counts again.
      && !s.Sending() && i < |s.unresolved| && i < |s.earlier| && s.unresolved[i].remaining.Some?
      && s.earlier[i].remaining.Some? && s.earlier[i].remaining.value <= remaining
    case EarlierResolved(i) => !s.Sending() && i < |s.unresolved| && i < |s.earlier|
  }

  predicate Enabled(s: RunState, e: Event) {
    if JobEvent(e) then JobEnabled(s, e) else SharedEnabled(s, e)
  }

  function WithoutReservation(reserved: seq<Reservation>, id: nat): seq<Reservation> {
    if reserved == [] then []
    else
      var n := |reserved| - 1;
      WithoutReservation(reserved[..n], id) + if reserved[n].id == id then [] else [reserved[n]]
  }

  function NewJob(id: nat, request: WorkRequest, prices: seq<nat>): Job {
    Job(id, request, prices, 0, Ready, [], 0, [])
  }

  function RequestOf(reserved: seq<Reservation>, id: nat): (request: WorkRequest)
    requires exists r :: 0 <= r < |reserved| && reserved[r].id == id
    ensures exists r :: 0 <= r < |reserved| && reserved[r].id == id && reserved[r].request == request
  {
    var n := |reserved| - 1;
    if reserved[n].id == id then reserved[n].request else RequestOf(reserved[..n], id)
  }

  /** The job's record after its own event. */
  function JobAfter(s: RunState, e: Event): Job
    requires JobEvent(e) && JobEnabled(s, e)
  {
    var job := s.jobs[e.j];
    match e
    case BeginStep(_) => job.(pc := Preparing, next := job.next + 1)
    case AskForLock(_) => job.(pc := WaitingLock)
    case AcquireLock(_) => job.(pc := Locked)
    case PassGate(_, cash) => job.(pc := Cleared(cash))
    case ForwardPlace(_) =>
      job.(pc := Placing,
           orders := job.orders + [BrokerOrder(job.prices[job.next - 1], job.Remaining(), 0, false, 0, 0)])
    case PlaceAnswered(_, seen) =>
      var order := job.orders[|job.orders| - 1];
      job.(pc := if PlacedMatches(seen, order.price, order.quantity) then Polling else Mismatched,
           steps := job.steps + [Step(order.price, order.quantity, true, seen.status, 0, false)])
    case PlaceUnknown(_) =>
      var order := job.orders[|job.orders| - 1];
      job.(pc := Ended(JobUnknown),
           steps := job.steps + [Step(order.price, order.quantity, false, StatusUnknown, 0, false)])
    case Poll(_, seen) => WithStatus(job, seen.status)
    case Settle(_, seen) => AfterSettle(job, seen, job.pc.Polling?)
    case StartCancel(_) => WithCancelSent(job, true).(pc := Dispatching(s.Stopping(), job.pc.Polling?))
    case CancelUnsent(_, refused) =>
      // Sent again only as the after-stop cancel, when the latch fell before the first left.
      if !job.pc.stopping && s.Stopping() then job.(pc := Dispatching(true, job.pc.strict))
      else WithCancelSent(job, false).(pc := if refused then Ended(JobUnknown)
                                             else Confirming(false, job.pc.strict))
    case ForwardCancel(_) => WithCancelForwarded(job).(pc := CancelSent(job.pc.strict))
    case CancelAnswered(_, ok) => job.(pc := Confirming(ok, job.pc.strict))
    case Confirm(_, seen) =>
      if job.pc.accepted then AfterSettle(job, seen, job.pc.strict) else AfterUnacceptedCancel(job, seen)
    case GiveUp(_) => job.(pc := Ended(JobUnknown))
    case End(_, status) => job.(pc := Ended(status))
    case Crash(_, _) =>
      if job.MayBeWorking() && !job.steps[|job.steps| - 1].cancelSent
      then WithCancelSent(job, true).(pc := SalvageDispatching)
      else job.(pc := Ended(JobUnknown))
    case SalvageForward(_) => WithCancelForwarded(job).(pc := SalvageSent)
    case SalvageUnsent(_) => job.(pc := SalvageConfirming)
    case SalvageAnswered(_) => job.(pc := SalvageConfirming)
    case SalvageConfirm(_, seen) => AfterSalvage(job, seen)
    case SalvageGiveUp(_) => job.(pc := Ended(JobUnknown))
  }

  /** Whether the event's end of the job ends placement for the run. */
  predicate EndsPlacement(s: RunState, e: Event)
    requires JobEvent(e) && JobEnabled(s, e)
  {
    || e.Crash?
    || (JobAfter(s, e).pc == Ended(JobUnknown))
    || (e.Confirm? && !s.jobs[e.j].pc.accepted)
  }

  function JobApply(s: RunState, e: Event): RunState
    requires JobEvent(e) && JobEnabled(s, e)
  {
    s.Put(e.j, JobAfter(s, e)).(
      stop := s.stop || (e.Crash? && e.failure),
      placementEnded := s.placementEnded || EndsPlacement(s, e),
      lockHolder := if e.AcquireLock? then Some(e.j)
                    else if s.lockHolder == Some(e.j) && !e.PassGate? && !e.ForwardPlace? then None
                    else s.lockHolder,
      cash := if e.ForwardPlace? && OtherWork(s, Some(e.j)) != [] then s.jobs[e.j].pc.snapshotCash else s.cash)
  }

  function SharedApply(s: RunState, e: Event): RunState
    requires !JobEvent(e) && SharedEnabled(s, e)
  {
    match e
    case RequestStop => s.(stop := true)
    case Halt => s.(halted := true)
    case Admit(id, request, _) => s.(reserved := s.reserved + [Reservation(id, request)])
    case Release(id) => s.(reserved := WithoutReservation(s.reserved, id))
    case Start(id, prices) =>
      s.(reserved := WithoutReservation(s.reserved, id),
         jobs := s.jobs + [NewJob(id, RequestOf(s.reserved, id), prices)])
    case BrokerFill(j, i, n) =>
      var order := s.jobs[j].orders[i];
      s.Put(j, s.jobs[j].(orders := s.jobs[j].orders[i := order.(filled := order.filled + n)]))
    case BrokerClose(j, i) =>
      s.Put(j, s.jobs[j].(orders := s.jobs[j].orders[i := s.jobs[j].orders[i].(closed := true)]))
    case AgentCancel(j, i) =>
      var order := s.jobs[j].orders[i];
      s.Put(j, s.jobs[j].(orders := s.jobs[j].orders[i := order.(agentCancels := order.agentCancels + 1)]))
    case EarlierRead(i, remaining) =>
      s.(unresolved := s.unresolved[i := s.unresolved[i].(remaining := Some(remaining))])
    case EarlierFill(i, remaining) =>
      s.(earlier := s.earlier[i := s.earlier[i].(remaining := Some(remaining))])
    case EarlierResolved(i) =>
      s.(unresolved := s.unresolved[..i] + s.unresolved[i + 1..],
         earlier := s.earlier[..i] + s.earlier[i + 1..])
  }

  function Apply(s: RunState, e: Event): RunState
    requires Enabled(s, e)
  {
    if JobEvent(e) then JobApply(s, e) else SharedApply(s, e)
  }

  /** A run: each event enabled in the state the ones before it left. */
  predicate Legal(s: RunState, events: seq<Event>)
    decreases |events|
  {
    events == [] || (Enabled(s, events[0]) && Legal(Apply(s, events[0]), events[1..]))
  }

  function After(s: RunState, events: seq<Event>): RunState
    requires Legal(s, events)
    decreases |events|
  {
    if events == [] then s else After(Apply(s, events[0]), events[1..])
  }

  /** The state a run starts in, with what the tick's earlier runs left unresolved. */
  function Fresh(multipliers: Multipliers, unresolved: seq<WorkingPlacement>, earlier: seq<WorkingPlacement>): RunState {
    RunState(false, false, false, None, [], [], multipliers, 0, unresolved, earlier)
  }

  /** The same orders, and of each no more is left than the ledger shows. */
  predicate Shows(unresolved: seq<WorkingPlacement>, earlier: seq<WorkingPlacement>) {
    && |unresolved| == |earlier|
    && forall i :: 0 <= i < |earlier| ==>
         && earlier[i] == unresolved[i].(remaining := earlier[i].remaining)
         && earlier[i].remaining.Some? && earlier[i].remaining.value >= 0
         && (unresolved[i].remaining.Some? ==> earlier[i].remaining.value <= unresolved[i].remaining.value)
  }

  predicate IsFresh(s: RunState) {
    s == Fresh(s.multipliers, s.unresolved, s.earlier) && Shows(s.unresolved, s.earlier)
  }
}
