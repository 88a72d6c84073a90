/** The order walk as `OrderWorkRunner` runs it: one job's task, with its loops, its clock, and
    its calls, in front of any broker and beside any other tasks.

    The runner's fields are the source's; `State()` is their value in the protocol. Each method
    changes them only by events the protocol enables, so its proof is that this control flow is
    one of the protocol's interleavings. `Await` stands for every suspension: other tasks run,
    and the job may rely on no more than `Rely`. Answers, clocks, and signals are free choices.
    Times are in milliseconds. */
module WalkRunner {
  import opened Optionals
  import opened Arithmetic
  import opened OrderConcurrency
  import opened WalkSchedule
  import opened OrderWalk
  import opened WalkScript
  import opened WalkReasons
  import opened OrderWalkJob
  import opened OrderWalkSafety
  import opened OrderWalkRuns

  /** How a method of the job's task returned: the job goes on, has ended, or an exception is
      on its way to `_run`. */
  datatype Flow = Going | Over | Thrown(failure: bool)

  /** What a step reads before its placement. */
  function Quotes(side: Side): seq<CallKind> {
    if side.SellToOpen? then [QuoteRead, UnderlyingQuoteRead] else [QuoteRead]
  }

  function Preparation(side: Side): seq<CallKind> { Quotes(side) + [Review] }

  /** The most executor calls one price step makes: two quotes, the review, the account, the
      place, the cancel and its one resend, the polls, and the confirming reads. */
  function StepCalls(timing: WalkTiming): nat
    requires timing.poll > 0
  {
    7 + CeilDiv(timing.stepWait, timing.poll) + ConfirmReads(timing)
  }

  function ConfirmReads(timing: WalkTiming): nat
    requires timing.poll > 0
  {
    CeilDiv(CONFIRM, timing.poll) + 1
  }

  /** What a placement's checks read: whether the others permit it, and what the run has of the
      account for the concurrency check. */
  datatype ConcurrencyView = ConcurrencyView(
    permitted: bool, account: Option<AccountSnapshot>, maxAge: AgeRule, now: int)

  /** The placement may work beside the run's other work. */
  ghost predicate Joins(
    s: RunState, exclude: Option<nat>, request: WorkRequest, price: nat, quantity: nat, view: ConcurrencyView)
  {
    MayWork(Placement(request, price, quantity), OtherWork(s, exclude), 0, s.multipliers, view.account, view.maxAge,
            view.now)
  }

  /** The job's orders are the places its task sent. */
  predicate OrdersAre(orders: seq<BrokerOrder>, places: seq<Place>) {
    && |orders| == |places|
    && forall i :: 0 <= i < |orders| ==> places[i] == Place(orders[i].price, orders[i].quantity)
  }

  /** One job's task (`WalkJob.window_end`, and what the task has read and done so far). */
  class Task {
    const windowEnd: int
    ghost const cfg: Config
    ghost var log: seq<Fact>
    ghost var walks: seq<Walk>
    ghost var walk: Walk

    /** Everything it read and did is what the script accepts. */
    ghost predicate Valid()
      reads this
    {
      cfg.windowEnd == windowEnd && Leads(cfg, log, walks) && walk == walks[|log|]
    }

    constructor (ghost cfg: Config, windowEnd: int)
      requires cfg.windowEnd == windowEnd
      ensures Valid() && log == [] && walk == StartOf(cfg) && this.cfg == cfg
    {
      this.windowEnd, this.cfg, log, walks, walk := windowEnd, cfg, [], [StartOf(cfg)], StartOf(cfg);
    }

    method Note(ghost fact: Fact)
      requires Valid() && NextWalk(cfg, walk, fact).Some?
      modifies this
      ensures Valid() && log == old(log) + [fact] && Some(walk) == NextWalk(cfg, old(walk), fact)
    {
      walk := NextWalk(cfg, walk, fact).value;
      log, walks := log + [fact], walks + [walk];
    }

    method NoteBegan(ghost price: nat)
      requires Valid() && OnBegan(cfg, walk, price).Some?
      modifies this
      ensures Valid() && log == old(log) + [Began(price)] && Some(walk) == OnBegan(cfg, old(walk), price)
    {
      Note(Began(price));
    }

    method NoteForwarded(ghost price: nat, ghost quantity: nat)
      requires Valid() && OnForwarded(cfg, walk, price, quantity).Some?
      modifies this
      ensures Valid() && log == old(log) + [PlaceForwarded(price, quantity)]
      ensures Some(walk) == OnForwarded(cfg, old(walk), price, quantity)
    {
      Note(PlaceForwarded(price, quantity));
    }

    method NoteSettles()
      requires Valid() && OnSettles(cfg, walk).Some?
      modifies this
      ensures Valid() && log == old(log) + [Settles] && Some(walk) == OnSettles(cfg, old(walk))
    {
      Note(Settles);
    }
  }

  class OrderWorkRunner {
    const timing: WalkTiming
    const partialFillStops: bool
    var stopRequested: bool
    var halted: bool
    var placementEnded: bool
    var lockHolder: Option<nat>
    var reserved: seq<Reservation>
    var jobs: seq<Job>
    var multipliers: Multipliers
    var checkedCash: int
    var unresolved: seq<WorkingPlacement>
    var earlier: seq<WorkingPlacement>
    // The events so far, from the state the session began in, and this task's own calls.
    ghost var trace: seq<Event>
    ghost const origin: RunState
    ghost var calls: nat
    // The reads and reviews before placements, by kind.
    ghost var prepared: seq<CallKind>

    function State(): RunState
      reads this
    {
      RunState(stopRequested, halted, placementEnded, lockHolder, reserved, jobs, multipliers, checkedCash, unresolved,
               earlier)
    }

    /** The fields are where some legal run of the protocol leads. */
    ghost predicate Sound()
      reads this
    {
      timing.poll > 0 && Reached(origin, trace, State())
    }

    /** Nobody is between the checks of a place and its send: no task is suspended there. */
    ghost predicate Valid()
      reads this
    {
      Sound() && !State().Sending()
    }

    /** What every state of a legal run has. */
    lemma JobIsSound(j: nat)
      requires Valid() && j < |jobs|
      ensures JobInv(jobs[j])
    {
      ReachedLegally(origin, trace, State());
    }

    /** A job in a step has its step's order. */
    lemma InItsStep(j: nat)
      requires Valid() && j < |jobs| && InStep(jobs[j].pc)
      ensures HasStep(jobs[j])
    {
      JobIsSound(j);
    }

    lemma WithinRequest(j: nat)
      requires Valid() && j < |jobs|
      ensures 0 < jobs[j].request.quantity && jobs[j].next <= |jobs[j].prices|
      ensures jobs[j].pc.Preparing? || jobs[j].pc.WaitingLock? || jobs[j].pc.Locked? ==>
                0 < jobs[j].next && jobs[j].filled < jobs[j].request.quantity
    {
      JobIsSound(j);
    }

    constructor (timing: WalkTiming, partialFillStops: bool, multipliers: Multipliers,
                 unresolved: seq<WorkingPlacement>, earlier: seq<WorkingPlacement>)
      requires timing.poll > 0 && Shows(unresolved, earlier)
      ensures Valid() && State() == Fresh(multipliers, unresolved, earlier) && trace == [] && calls == 0
      ensures this.timing == timing
    {
      this.timing, this.partialFillStops := timing, partialFillStops;
      stopRequested, halted, placementEnded, lockHolder := false, false, false, None;
      reserved, jobs, this.multipliers, checkedCash := [], [], multipliers, 0;
      this.unresolved, this.earlier := unresolved, earlier;
      trace, calls, origin, prepared := [], 0, Fresh(multipliers, unresolved, earlier), [];
      new;
      ReachedAtFirst(origin);
    }

    function Stopping(): bool
      reads this
    {
      halted || stopRequested
    }

    /** One event of the protocol happens to the fields. */
    method Move(e: Event)
      requires Sound() && Enabled(State(), e)
      modifies this`stopRequested, this`halted, this`placementEnded, this`lockHolder, this`reserved,
               this`jobs, this`multipliers, this`checkedCash, this`unresolved, this`earlier, this`trace
      ensures Sound() && State() == Apply(old(State()), e) && trace == old(trace) + [e]
    {
      ReachedNext(origin, trace, State(), e);
      Become(Apply(State(), e), e);
    }

    method Become(next: RunState, ghost e: Event)
      requires Sound() && Reached(origin, trace + [e], next)
      modifies this`stopRequested, this`halted, this`placementEnded, this`lockHolder, this`reserved,
               this`jobs, this`multipliers, this`checkedCash, this`unresolved, this`earlier, this`trace
      ensures Sound() && State() == next && trace == old(trace) + [e]
    {
      Assign(next);
      trace := trace + [e];
    }

    method Assign(next: RunState)
      modifies this`stopRequested, this`halted, this`placementEnded, this`lockHolder, this`reserved,
               this`jobs, this`multipliers, this`checkedCash, this`unresolved, this`earlier
      ensures State() == next
    {
      stopRequested, halted, placementEnded := next.stop, next.halted, next.placementEnded;
      lockHolder, reserved, jobs := next.lockHolder, next.reserved, next.jobs;
      multipliers, checkedCash, unresolved, earlier := next.multipliers, next.cash, next.unresolved, next.earlier;
    }

    /** Any event but a place that passes its checks. */
    method Take(e: Event)
      requires Valid() && Enabled(State(), e) && !e.PassGate?
      modifies this`stopRequested, this`halted, this`placementEnded, this`lockHolder, this`reserved,
               this`jobs, this`multipliers, this`checkedCash, this`unresolved, this`earlier, this`trace
      ensures Valid() && State() == Apply(old(State()), e) && trace == old(trace) + [e]
    {
      ReachedLegally(origin, trace, State());
      OnlyTheGateOpensTheWindow(State(), e);
      Move(e);
    }

    /** An event of job `j`'s own task leaves the job as `next`, which follows its task. */
    method TakeTo(j: nat, e: Event, ghost next: Job, task: Task)
      requires Valid() && Tracks(j, task) && JobEvent(e) && e.j == j && !e.PassGate? && !e.ForwardPlace?
      requires JobEnabled(State(), e) && JobAfter(State(), e) == next && Follows(next, task.cfg, task.walk)
      modifies this`stopRequested, this`halted, this`placementEnded, this`lockHolder, this`reserved,
               this`jobs, this`multipliers, this`checkedCash, this`unresolved, this`earlier, this`trace
      ensures Valid() && old(trace) <= trace && Tracks(j, task) && jobs[j] == next
      ensures next.pc == Ended(JobUnknown) ==> placementEnded
    {
      SharedAfter(State(), e);
      Take(e);
    }

    /** The event that counts a terminal order's fills. */
    method TakeSettled(j: nat, e: Event, ghost next: Job, task: Task)
      requires Valid() && Tracks(j, task) && JobEvent(e) && e.j == j && !e.PassGate? && !e.ForwardPlace?
      requires JobEnabled(State(), e) && JobAfter(State(), e) == next
      requires var w := OnSettles(task.cfg, task.walk); w.Some? && Follows(next, task.cfg, w.value)
      modifies this, task
      ensures Valid() && old(trace) <= trace && calls == old(calls)
      ensures Tracks(j, task) && jobs[j] == next && Some(task.walk) == OnSettles(task.cfg, old(task.walk))
      ensures next.pc == Ended(JobUnknown) ==> placementEnded
    {
      SharedAfter(State(), e);
      Take(e);
      task.NoteSettles();
    }

    /** The task ends the job. */
    method EndJob(j: nat, status: JobStatus, task: Task)
      requires Valid() && Tracks(j, task) && MayEnd(jobs[j], status)
      modifies this
      ensures Valid() && old(trace) <= trace && calls == old(calls) && prepared == old(prepared)
      ensures Tracks(j, task) && jobs[j] == old(jobs[j]).(pc := Ended(status))
    {
      TakeTo(j, End(j, status), jobs[j].(pc := Ended(status)), task);
    }

    /** A suspension of job `j`'s task: anything else may run meanwhile. */
    method Await(j: nat)
      requires Valid() && j < |jobs|
      modifies this`stopRequested, this`halted, this`placementEnded, this`lockHolder, this`reserved,
               this`jobs, this`multipliers, this`checkedCash, this`unresolved, this`earlier, this`trace
      ensures Valid() && Rely(old(State()), State(), j) && old(trace) <= trace
    {
      Signal(j);
    }

    /** The stop latch may be set from a signal handler or another thread at any moment. */
    method Signal(j: nat)
      requires Valid() && j < |jobs|
      modifies this`stopRequested, this`halted, this`placementEnded, this`lockHolder, this`reserved,
               this`jobs, this`multipliers, this`checkedCash, this`unresolved, this`earlier, this`trace
      ensures Valid() && old(trace) <= trace
      ensures State() == old(State()).(stop := stopRequested) && (old(stopRequested) ==> stopRequested)
    {
      if * { Take(RequestStop); }
    }


    // ---- What the task reads ---------------------------------------------------------------

    /** The job is where its task's facts put it. */
    ghost predicate Tracks(j: nat, task: Task)
      reads this, task
    {
      && task.Valid() && j < |jobs| && Follows(jobs[j], task.cfg, task.walk)
      && task.cfg.timing == timing && task.cfg.partialFillStops == partialFillStops
    }

    method SeeStop(j: nat, task: Task) returns (stopping: bool)
      requires Tracks(j, task) && OnStop(task.cfg, task.walk, Stopping()).Some?
      modifies task
      ensures Tracks(j, task) && stopping == Stopping() && Some(task.walk) == OnStop(task.cfg, old(task.walk), stopping)
    {
      stopping := Stopping();
      ReadsKeepCounts(task.cfg, task.walk, StopSeen(stopping));
      task.Note(StopSeen(stopping));
    }

    method SeeEnded(j: nat, task: Task) returns (ended: bool)
      requires Tracks(j, task) && OnEnded(task.cfg, task.walk, placementEnded).Some?
      modifies task
      ensures Tracks(j, task) && ended == placementEnded && Some(task.walk) == OnEnded(task.cfg, old(task.walk), ended)
    {
      ended := placementEnded;
      ReadsKeepCounts(task.cfg, task.walk, EndedSeen(ended));
      task.Note(EndedSeen(ended));
    }

    /** `self._clock()`. */
    method SeeClock(j: nat, task: Task) returns (now: int)
      requires Tracks(j, task) && forall t :: OnClock(task.cfg, task.walk, t).Some?
      modifies task
      ensures Tracks(j, task) && Some(task.walk) == OnClock(task.cfg, old(task.walk), now)
    {
      now := *;
      ReadsKeepCounts(task.cfg, task.walk, ClockSeen(now));
      task.Note(ClockSeen(now));
    }

    /** Other work of the run, beside this job's. */
    method SeeWork(j: nat, task: Task) returns (beside: bool)
      requires Tracks(j, task) && task.walk.at.LockWork?
      modifies task
      ensures Tracks(j, task) && beside == (ActiveWork(State(), Some(j)) != [])
      ensures Some(task.walk) == OnWork(task.cfg, old(task.walk), beside)
    {
      beside := ActiveWork(State(), Some(j)) != [];
      ReadsKeepCounts(task.cfg, task.walk, WorkSeen(beside));
      task.Note(WorkSeen(beside));
    }

    /** The checks of a place: the run's own flags, and what the others said. */
    method SeeGate(j: nat, task: Task, permitted: bool, joins: bool) returns (passed: bool)
      requires Tracks(j, task) && task.walk.at.AtGate?
      modifies task
      ensures Tracks(j, task) && passed == (permitted && !stopRequested && !placementEnded && joins)
      ensures Some(task.walk) == OnGate(task.cfg, old(task.walk), permitted, stopRequested, placementEnded, joins)
    {
      passed := permitted && !stopRequested && !placementEnded && joins;
      ReadsKeepCounts(task.cfg, task.walk, GateSeen(permitted, stopRequested, placementEnded, joins));
      task.Note(GateSeen(permitted, stopRequested, placementEnded, joins));
    }

    /** A quote or the review. */
    method SeeAnswer(j: nat, task: Task, kind: CallKind, answer: Answer)
      requires Tracks(j, task) && OnAnswer(task.cfg, task.walk, kind, answer).Some?
      modifies task
      ensures Tracks(j, task) && Some(task.walk) == OnAnswer(task.cfg, old(task.walk), kind, answer)
    {
      ReadsKeepCounts(task.cfg, task.walk, Answered(kind, answer));
      task.Note(Answered(kind, answer));
    }

    /** The live quote. */
    method SeeQuote(j: nat, task: Task, bid: nat, ask: nat)
      requires Tracks(j, task) && OnQuote(task.cfg, task.walk, bid, ask).Some?
      modifies task
      ensures Tracks(j, task) && Some(task.walk) == OnQuote(task.cfg, old(task.walk), bid, ask)
    {
      ReadsKeepCounts(task.cfg, task.walk, QuoteSeen(bid, ask));
      task.Note(QuoteSeen(bid, ask));
    }

    /** The placement lock. */
    method SeeLock(j: nat, task: Task, free: bool)
      requires Tracks(j, task) && OnLock(task.cfg, task.walk, free).Some?
      modifies task
      ensures Tracks(j, task) && Some(task.walk) == OnLock(task.cfg, old(task.walk), free)
    {
      ReadsKeepCounts(task.cfg, task.walk, LockSeen(free));
      task.Note(LockSeen(free));
    }

    /** The account read. */
    method SeeAccount(j: nat, task: Task, answer: Answer)
      requires Tracks(j, task) && OnAccount(task.cfg, task.walk, answer).Some?
      modifies task
      ensures Tracks(j, task) && Some(task.walk) == OnAccount(task.cfg, old(task.walk), answer)
    {
      ReadsKeepCounts(task.cfg, task.walk, AccountAnswered(answer));
      task.Note(AccountAnswered(answer));
    }

    /** A place or its record raised before it was sent. */
    method SeeGateRaised(j: nat, task: Task)
      requires Tracks(j, task) && task.walk.at.AtGate?
      modifies task
      ensures Tracks(j, task) && task.walk.at == Raising(true, false)
    {
      ReadsKeepCounts(task.cfg, task.walk, GateRaised);
      task.Note(GateRaised);
    }

    /** What came back for a place. */
    method SeePlace(j: nat, task: Task, place: PlaceAnswer)
      requires Tracks(j, task) && OnPlace(task.cfg, task.walk, place).Some?
      modifies task
      ensures Tracks(j, task) && Some(task.walk) == OnPlace(task.cfg, old(task.walk), place)
    {
      ReadsKeepCounts(task.cfg, task.walk, PlaceHeard(place));
      task.Note(PlaceHeard(place));
    }

    /** An order read. */
    method SeeOrder(j: nat, task: Task, order: OrderAnswer)
      requires Tracks(j, task) && OnOrder(task.cfg, task.walk, order).Some?
      modifies task
      ensures Tracks(j, task) && Some(task.walk) == OnOrder(task.cfg, old(task.walk), order)
    {
      ReadsKeepCounts(task.cfg, task.walk, OrderHeard(order));
      task.Note(OrderHeard(order));
    }

    /** What became of a cancel. */
    method SeeTried(j: nat, task: Task, sending: Sending)
      requires Tracks(j, task) && OnTried(task.cfg, task.walk, sending).Some?
      modifies task
      ensures Tracks(j, task) && Some(task.walk) == OnTried(task.cfg, old(task.walk), sending)
    {
      ReadsKeepCounts(task.cfg, task.walk, CancelTried(sending));
      task.Note(CancelTried(sending));
    }

    /** What came back for a cancel. */
    method SeeCancel(j: nat, task: Task, cancel: CancelAnswer)
      requires Tracks(j, task) && OnCancel(task.cfg, task.walk, cancel).Some?
      modifies task
      ensures Tracks(j, task) && Some(task.walk) == OnCancel(task.cfg, old(task.walk), cancel)
    {
      ReadsKeepCounts(task.cfg, task.walk, CancelHeard(cancel));
      task.Note(CancelHeard(cancel));
    }

    /** An exception reached the handler. */
    method SeeCrash(j: nat, task: Task)
      requires Tracks(j, task) && OnCrash(task.cfg, task.walk).Some?
      modifies task
      ensures Tracks(j, task) && Some(task.walk) == OnCrash(task.cfg, old(task.walk))
    {
      ReadsKeepCounts(task.cfg, task.walk, Crashed);
      task.Note(Crashed);
    }

    /** `_seconds_left` is not enough for another step. */
    method SeeShort(j: nat, task: Task) returns (short: bool)
      requires Tracks(j, task) && (task.walk.at.HeadTime? || task.walk.at.LockTime?)
      modifies task
      ensures Tracks(j, task)
      ensures var w := old(task.walk);
              task.walk.at == if short then Quit(EndStatus(task.cfg, w.filled))
                              else if w.at.HeadTime? then Beginning else LockWork(w.at.started)
    {
      var now := SeeClock(j, task);
      short := task.windowEnd - now < timing.poll + CANCEL_RESERVE;
    }

    /** A suspension of the task. */
    method Pause(j: nat, task: Task)
      requires Valid() && Tracks(j, task)
      modifies this`stopRequested, this`halted, this`placementEnded, this`lockHolder, this`reserved,
               this`jobs, this`multipliers, this`checkedCash, this`unresolved, this`earlier, this`trace
      ensures Valid() && Rely(old(State()), State(), j) && old(trace) <= trace && Tracks(j, task)
    {
      Await(j);
      RelyFollows(old(jobs[j]), jobs[j], task.cfg, task.walk);
    }

    /** `_nap`: sleep in chunks of at most a second, waking soon after a stop. */
    method Nap(j: nat, duration: int, task: Task)
      requires Valid() && Tracks(j, task)
      modifies this`stopRequested, this`halted, this`placementEnded, this`lockHolder, this`reserved,
               this`jobs, this`multipliers, this`checkedCash, this`unresolved, this`earlier, this`trace
      ensures Valid() && Rely(old(State()), State(), j) && old(trace) <= trace && Tracks(j, task)
    {
      var left := if duration > 0 then duration else 0;
      while left > 0 && !Stopping()
        invariant Valid() && Rely(old(State()), State(), j) && old(trace) <= trace && Tracks(j, task)
      {
        var chunk := if left < 1000 then left else 1000;
        ghost var before := State();
        Pause(j, task);
        RelyChains(old(State()), before, State(), j);
        left := left - chunk;
      }
    }

    // ---- Calls -----------------------------------------------------------------------------

    /** An executor call other than an order read, a place, or a cancel. */
    method Call(j: nat, task: Task) returns (answer: Answer)
      requires Valid() && Tracks(j, task)
      modifies this
      ensures Valid() && Rely(old(State()), State(), j) && old(trace) <= trace && Tracks(j, task)
      ensures calls == old(calls) + 1 && prepared == old(prepared)
    {
      calls := calls + 1;
      Pause(j, task);
      answer := *;
    }

    /** `_read_order` of the job's current order; a terminal answer is true. */
    method ReadOrder(j: nat, task: Task) returns (answer: OrderAnswer)
      requires Valid() && Tracks(j, task) && |jobs[j].orders| > 0
      requires task.walk.at.WatchRead? || task.walk.at.ConfirmRead?
      modifies this, task
      ensures Valid() && Rely(old(State()), State(), j) && old(trace) <= trace && calls == old(calls) + 1
      ensures |jobs[j].orders| > 0 && (answer.Seen? ==> Honest(answer.seen, LastOrder(jobs[j])))
      ensures Tracks(j, task) && Some(task.walk) == OnOrder(task.cfg, old(task.walk), answer)
    {
      calls := calls + 1;
      Pause(j, task);
      answer := HearOrder(j, task);
    }

    method HearOrder(j: nat, task: Task) returns (answer: OrderAnswer)
      requires Tracks(j, task) && |jobs[j].orders| > 0
      requires task.walk.at.WatchRead? || task.walk.at.ConfirmRead?
      modifies task
      ensures answer.Seen? ==> Honest(answer.seen, LastOrder(jobs[j]))
      ensures Tracks(j, task) && Some(task.walk) == OnOrder(task.cfg, old(task.walk), answer)
    {
      answer := BrokerAnswer(LastOrder(jobs[j]));
      SeeOrder(j, task, answer);
    }

    /** What the broker says of an order, if it says anything. */
    method BrokerAnswer(order: BrokerOrder) returns (answer: OrderAnswer)
      ensures answer.Seen? ==> Honest(answer.seen, order)
    {
      answer := *;
      if answer.Seen? && !Honest(answer.seen, order) {
        answer := Unseen;
      }
    }

    /** Send the job's cancel: the hooks admit it and the proxy forwards it, or nothing
        leaves, or a record fails and it raises. Once stopped, only the after-stop form is
        forwarded. */
    method SendCancel(j: nat, task: Task) returns (sending: Sending)
      requires Valid() && InStepOf(j, task) && Cancelling(jobs[j], task.walk.at)
      modifies this, task
      ensures Valid() && old(trace) <= trace && calls == old(calls) + 1 && InStepOf(j, task)
      ensures CancelTriedAs(old(jobs[j]), jobs[j], sending, task.walk.at)
      ensures sending.NotSent? ==> jobs == old(jobs)
    {
      calls := calls + 1;
      Signal(j);
      var forwarded: bool := *;
      if !forwarded || (stopRequested && !jobs[j].pc.stopping) {
        sending := KeepCancel(j, task);
      } else {
        sending := ForwardAndWait(j, task);
      }
    }

    /** The cancel does not leave: it is refused or not forwarded, or a record of it raised. */
    method KeepCancel(j: nat, task: Task) returns (sending: Sending)
      requires InStepOf(j, task) && Cancelling(jobs[j], task.walk.at)
      modifies task
      ensures InStepOf(j, task) && CancelTriedAs(jobs[j], jobs[j], sending, task.walk.at)
    {
      var refused: bool, raised: bool := *, *;
      sending := if raised then SendRaised(true) else NotSent(refused);
      SeeTried(j, task, sending);
    }

    /** The forwarded cancel runs to its recorded outcome, whatever happens meanwhile. */
    method ForwardAndWait(j: nat, task: Task) returns (sending: Sending)
      requires Valid() && InStepOf(j, task) && Cancelling(jobs[j], task.walk.at)
      requires stopRequested ==> jobs[j].pc.stopping
      modifies this, task
      ensures Valid() && old(trace) <= trace && calls == old(calls) && InStepOf(j, task)
      ensures CancelTriedAs(old(jobs[j]), jobs[j], sending, task.walk.at) && !sending.NotSent?
    {
      ghost var was := jobs[j];
      ForwardNow(j, task);
      sending := HearOfCancel(j, task, was.pc.stopping);
      ForwardedIsTried(was, jobs[j], sending, task.walk.at);
    }

    /** The cancel leaves. */
    method ForwardNow(j: nat, task: Task)
      requires Valid() && InStepOf(j, task) && Cancelling(jobs[j], task.walk.at)
      requires stopRequested ==> jobs[j].pc.stopping
      modifies this, task
      ensures Valid() && old(trace) <= trace && calls == old(calls) && InStepOf(j, task)
      ensures jobs[j] == old(WithCancelForwarded(jobs[j]).(pc := CancelSent(jobs[j].pc.strict)))
      ensures task.walk.at == CancelHear(old(jobs[j].pc.strict), old(jobs[j].pc.stopping))
    {
      InItsStep(j);
      ghost var next := WithCancelForwarded(jobs[j]).(pc := CancelSent(jobs[j].pc.strict));
      ForwardedFollows(jobs[j], next.pc, task.cfg, task.walk);
      SeeTried(j, task, Sending.Sent);
      TakeTo(j, ForwardCancel(j), next, task);
    }

    /** What comes back for the job's cancel. */
    method HearOfCancel(j: nat, task: Task, ghost stopping: bool) returns (sending: Sending)
      requires Valid() && InStepOf(j, task) && jobs[j].pc.CancelSent?
      requires task.walk.at == CancelHear(jobs[j].pc.strict, stopping)
      modifies this, task
      ensures Valid() && old(trace) <= trace && calls == old(calls) && InStepOf(j, task)
      ensures SameStep(old(jobs[j]), jobs[j]) && LastCancels(jobs[j]) == old(LastCancels(jobs[j]))
      ensures CancelHeardAs(jobs[j], old(jobs[j].pc.strict), stopping, sending, task.walk.at)
    {
      Pause(j, task);
      var raised: bool, failure: bool, ok: bool := *, *, *;
      if raised {
        SeeCancel(j, task, CancelRaised(failure));
        return SendRaised(failure);
      }
      SeeCancel(j, task, Heard(ok));
      TakeTo(j, CancelAnswered(j, ok), jobs[j].(pc := Confirming(ok, jobs[j].pc.strict)), task);
      return Sending.Sent;
    }

    /** `_confirm`: read the order until it is terminal, bounded by time and by count. */
    method ConfirmByReads(j: nat, duration: nat, task: Task) returns (answer: OrderAnswer)
      requires Valid() && Tracks(j, task) && |jobs[j].orders| > 0
      requires task.walk.at.ConfirmStart? && task.walk.at.c.duration == duration
      modifies this, task
      ensures Valid() && Rely(old(State()), State(), j) && old(trace) <= trace && Tracks(j, task)
      ensures calls <= old(calls) + CeilDiv(duration, timing.poll) + 1
      ensures |jobs[j].orders| > 0 && ReadTerminal(answer, LastOrder(jobs[j]))
      ensures task.walk.at == ConfirmedAt(old(task.walk.at.c), answer)
      ensures task.walk.filled == old(task.walk.filled)
    {
      var started := SeeClock(j, task);
      answer := ReadUntilTerminal(j, started + duration, CeilDiv(duration, timing.poll) + 1, task);
    }

    /** The rounds of `_confirm`. */
    method ReadUntilTerminal(j: nat, deadline: int, reads_: nat, task: Task) returns (answer: OrderAnswer)
      requires Valid() && Tracks(j, task) && |jobs[j].orders| > 0 && reads_ > 0
      requires task.walk.at.ConfirmTime? && task.walk.at == ConfirmTime(task.walk.at.c, deadline, reads_)
      modifies this, task
      ensures Valid() && Rely(old(State()), State(), j) && old(trace) <= trace && Tracks(j, task)
      ensures calls <= old(calls) + reads_ && task.walk.filled == old(task.walk.filled)
      ensures |jobs[j].orders| > 0 && ReadTerminal(answer, LastOrder(jobs[j]))
      ensures task.walk.at == ConfirmedAt(old(task.walk.at.c), answer)
    {
      var readsLeft := reads_;
      var done := false;
      answer := Unseen;
      while !done && readsLeft > 0
        invariant Valid() && Rely(old(State()), State(), j) && old(trace) <= trace && Tracks(j, task)
        invariant 0 <= readsLeft && calls + readsLeft <= old(calls) + reads_ && task.walk.filled == old(task.walk.filled)
        invariant |jobs[j].orders| > 0 && ReadTerminal(answer, LastOrder(jobs[j]))
        invariant !done ==> answer.Unseen?
        invariant task.walk.at == ReadingAt(old(task.walk.at.c), deadline, readsLeft, done, answer)
      {
        ghost var before := State();
        done, answer := ConfirmOnce(j, deadline, readsLeft, task);
        RelyChains(old(State()), before, State(), j);
        readsLeft := readsLeft - 1;
      }
    }

    /** One round of `_confirm`. */
    method ConfirmOnce(j: nat, deadline: int, readsLeft: nat, task: Task) returns (done: bool, answer: OrderAnswer)
      requires Valid() && Tracks(j, task) && |jobs[j].orders| > 0 && readsLeft > 0
      requires task.walk.at.ConfirmTime? && task.walk.at == ConfirmTime(task.walk.at.c, deadline, readsLeft)
      modifies this, task
      ensures Valid() && Rely(old(State()), State(), j) && old(trace) <= trace && Tracks(j, task)
      ensures calls <= old(calls) + 1 && task.walk.filled == old(task.walk.filled)
      ensures |jobs[j].orders| > 0 && ReadTerminal(answer, LastOrder(jobs[j])) && (!done ==> answer.Unseen?)
      ensures task.walk.at == ReadingAt(old(task.walk.at.c), deadline, readsLeft - 1, done, answer)
    {
      answer := Unseen;
      done := TimeIsUp(j, deadline, task);
      if !done {
        done, answer := ReadAndNap(j, deadline, readsLeft - 1, task);
      }
    }

    /** The read of a round, and its sleep. */
    method ReadAndNap(j: nat, deadline: int, readsLeft: nat, task: Task) returns (done: bool, answer: OrderAnswer)
      requires Valid() && Tracks(j, task) && |jobs[j].orders| > 0
      requires task.walk.at.ConfirmRead? && task.walk.at == ConfirmRead(task.walk.at.c, deadline, readsLeft)
      modifies this, task
      ensures Valid() && Rely(old(State()), State(), j) && old(trace) <= trace && Tracks(j, task)
      ensures calls == old(calls) + 1 && task.walk.filled == old(task.walk.filled)
      ensures |jobs[j].orders| > 0 && ReadTerminal(answer, LastOrder(jobs[j])) && (!done ==> answer.Unseen?)
      ensures task.walk.at == ReadingAt(old(task.walk.at.c), deadline, readsLeft, done, answer)
    {
      answer := ReadOrder(j, task);
      done := answer.ReadRaised? || (answer.Seen? && Terminal(answer.seen.status));
      if !done {
        answer := Unseen;
        done := NapBeforeRead(j, deadline, readsLeft, task);
      }
    }

    /** The clock against the deadline of the reads. */
    method TimeIsUp(j: nat, deadline: int, task: Task) returns (up: bool)
      requires Tracks(j, task) && (task.walk.at.ConfirmTime? || task.walk.at.ConfirmNap?)
      requires task.walk.at.deadline == deadline && (task.walk.at.ConfirmTime? ==> task.walk.at.left > 0)
      modifies task
      ensures Tracks(j, task) && task.walk.filled == old(task.walk.filled)
      ensures var at := old(task.walk.at);
              task.walk.at == if up then Quit(JobUnknown)
                              else if at.ConfirmTime? then ConfirmRead(at.c, deadline, at.left - 1)
                              else ConfirmTimeOr(at.c, deadline, at.left)
    {
      var now := SeeClock(j, task);
      up := deadline - now <= 0;
    }

    /** Not terminal yet: sleep, unless the time is up. */
    method NapBeforeRead(j: nat, deadline: int, readsLeft: nat, task: Task) returns (done: bool)
      requires Valid() && Tracks(j, task)
      requires task.walk.at.ConfirmNap? && task.walk.at == ConfirmNap(task.walk.at.c, deadline, readsLeft)
      modifies this, task
      ensures Valid() && Rely(old(State()), State(), j) && old(trace) <= trace && Tracks(j, task)
      ensures calls == old(calls) && task.walk.filled == old(task.walk.filled)
      ensures task.walk.at == if done then Quit(JobUnknown) else ConfirmTimeOr(old(task.walk.at.c), deadline, readsLeft)
    {
      done := TimeIsUp(j, deadline, task);
      if !done {
        Pause(j, task);
      }
    }

    // ---- One step --------------------------------------------------------------------------

    /** A job is watching its placed order, last seen with this answer. */
    ghost predicate Watching(j: nat, order: Observation)
      reads this
    {
      j < |jobs| && Watches(jobs[j], order)
    }

    /** The job's last order, and so its step, is for what was left when it was placed. */
    ghost predicate InStepOf(j: nat, task: Task)
      reads this, task
    {
      Tracks(j, task) && ForWhatIsLeft(jobs[j], task.cfg, task.walk)
    }

    /** One poll of `_wait_for_fill`: nap, then read the order unless stopping. */
    method PollOnce(j: nat, order: Observation, duration: int, ghost watcher: Watcher, task: Task)
      returns (flow: Flow, next: Observation, watching: bool)
      requires Valid() && Watching(j, order) && !Terminal(order.status) && InStepOf(j, task)
      requires watcher.seen == order && task.walk.at == NapStop(watcher)
      modifies this, task
      ensures Valid() && old(trace) <= trace && calls <= old(calls) + 1 && InStepOf(j, task)
      ensures Watching(j, next) && SameWalk(old(jobs[j]), jobs[j])
      ensures WatchedAs(flow, next, watching, watcher, task.walk.at)
    {
      NapWatching(j, order, duration, task);
      var stopping := SeeStop(j, task);
      if stopping {
        return Going, order, false;
      }
      flow, next, watching := ReadWatched(j, order, watcher, task);
    }

    method NapWatching(j: nat, order: Observation, duration: int, task: Task)
      requires Valid() && Watching(j, order) && InStepOf(j, task)
      modifies this
      ensures Valid() && old(trace) <= trace && calls == old(calls) && InStepOf(j, task)
      ensures Watching(j, order) && SameWalk(old(jobs[j]), jobs[j])
    {
      Nap(j, duration, task);
    }

    /** The read of a watched order. */
    method ReadWatched(j: nat, order: Observation, ghost watcher: Watcher, task: Task)
      returns (flow: Flow, next: Observation, watching: bool)
      requires Valid() && Watching(j, order) && !Terminal(order.status) && InStepOf(j, task)
      requires watcher.seen == order && task.walk.at == WatchRead(watcher)
      modifies this, task
      ensures Valid() && old(trace) <= trace && calls <= old(calls) + 1 && InStepOf(j, task)
      ensures Watching(j, next) && SameWalk(old(jobs[j]), jobs[j])
      ensures WatchedAs(flow, next, watching, watcher, task.walk.at)
    {
      next := order;
      var answer := ReadOrder(j, task);
      if answer.ReadRaised? {
        return Thrown(answer.failure), next, false;
      }
      if answer.Seen? {
        next := answer.seen;
        NoteRead(j, next, task);
      }
      return Going, next, !Terminal(next.status);
    }

    /** A read answer that is not terminal becomes the step's status. */
    method NoteRead(j: nat, next: Observation, task: Task)
      requires Valid() && InStepOf(j, task) && jobs[j].pc.Polling? && |jobs[j].steps| == |jobs[j].orders|
      requires !LastStep(jobs[j]).cancelSent && Honest(next, LastOrder(jobs[j]))
      modifies this
      ensures Valid() && old(trace) <= trace && calls == old(calls) && InStepOf(j, task)
      ensures Watching(j, next) && SameWalk(old(jobs[j]), jobs[j])
    {
      if !Terminal(next.status) {
        TakeTo(j, Poll(j, next), WithStatus(jobs[j], next.status), task);
      }
    }

    /** `_wait_for_fill`: the last answer once the order is terminal, the step's time or read
        count is used up, or a stop is requested. */
    method WaitForFill(j: nat, placed: Observation, started: int, task: Task) returns (flow: Flow, order: Observation)
      requires Valid() && Watching(j, placed) && InStepOf(j, task)
      requires task.walk.at == WatchAt(placed, CeilDiv(timing.stepWait, timing.poll), StepEnd(task.cfg, started))
      modifies this, task
      ensures Valid() && old(trace) <= trace && InStepOf(j, task)
      ensures calls <= old(calls) + CeilDiv(timing.stepWait, timing.poll)
      ensures !flow.Over? && Watching(j, order) && SameWalk(old(jobs[j]), jobs[j])
      ensures flow.Going? ==> task.walk.at == UnwatchedAt(order)
      ensures flow.Thrown? ==> task.walk.at == Raising(flow.failure, true) && !Terminal(order.status)
    {
      order := placed;
      var own, window := started + timing.stepWait, task.windowEnd - CANCEL_RESERVE;
      var stepEnd := if own <= window then own else window;
      var readsLeft := CeilDiv(timing.stepWait, timing.poll);
      var watching := !Terminal(order.status);
      flow := Going;
      while watching
        invariant Valid() && old(trace) <= trace && Watching(j, order) && SameWalk(old(jobs[j]), jobs[j])
        invariant InStepOf(j, task) && !flow.Over?
        invariant 0 <= readsLeft && calls + readsLeft <= old(calls) + CeilDiv(timing.stepWait, timing.poll)
        invariant watching ==> flow.Going? && !Terminal(order.status)
        invariant watching ==> task.walk.at == Watch(Watcher(order, readsLeft, stepEnd))
        invariant !watching && flow.Going? ==> task.walk.at == UnwatchedAt(order)
        invariant flow.Thrown? ==> task.walk.at == Raising(flow.failure, true) && !Terminal(order.status)
        decreases readsLeft, watching
      {
        flow, order, watching := WatchOnce(j, order, readsLeft, stepEnd, task);
        readsLeft := if watching then readsLeft - 1 else 0;
      }
    }

    /** One round of `_wait_for_fill`. */
    method WatchOnce(j: nat, order: Observation, readsLeft: nat, stepEnd: int, task: Task)
      returns (flow: Flow, next: Observation, watching: bool)
      requires Valid() && Watching(j, order) && !Terminal(order.status) && InStepOf(j, task)
      requires task.walk.at == Watch(Watcher(order, readsLeft, stepEnd))
      modifies this, task
      ensures Valid() && old(trace) <= trace && calls <= old(calls) + (if readsLeft > 0 then 1 else 0) && InStepOf(j, task)
      ensures Watching(j, next) && SameWalk(old(jobs[j]), jobs[j])
      ensures watching ==> readsLeft > 0
      ensures var watcher := Watcher(order, if readsLeft > 0 then readsLeft - 1 else 0, stepEnd);
              WatchedAs(flow, next, watching, watcher, task.walk.at)
    {
      var left := TimeToWatch(j, readsLeft, stepEnd, task);
      if left <= 0 {
        return Going, order, false;
      }
      flow, next, watching := PollOnce(j, order, if timing.poll < left then timing.poll else left,
                                       Watcher(order, readsLeft - 1, stepEnd), task);
    }

    /** The time left for another poll: none once stopping, or when the reads or the step's time
        are used up. */
    method TimeToWatch(j: nat, readsLeft: nat, stepEnd: int, task: Task) returns (left: int)
      requires Tracks(j, task) && task.walk.at.Watch?
      requires task.walk.at.watcher.left == readsLeft && task.walk.at.watcher.end == stepEnd
      modifies task
      ensures Tracks(j, task) && task.walk.filled == old(task.walk.filled)
      ensures left > 0 ==> readsLeft > 0
      ensures var watcher := old(task.walk.at.watcher);
              task.walk.at == if left <= 0 then CancelStop(true) else NapStop(watcher.(left := watcher.left - 1))
    {
      var stopping := SeeStop(j, task);
      if stopping || readsLeft == 0 {
        return 0;
      }
      var now := SeeClock(j, task);
      left := stepEnd - now;
    }

    /** The cancel's first send and, when the stop latch fell before it left, its one resend
        in the after-stop form. `stopping`: the form last sent. */
    method SendOrResend(j: nat, task: Task) returns (flow: Flow, stopping: bool)
      requires Valid() && InStepOf(j, task) && Cancelling(jobs[j], task.walk.at)
      modifies this, task
      ensures Valid() && old(trace) <= trace && calls <= old(calls) + 2 && InStepOf(j, task)
      ensures CancelLeaves(old(jobs[j]), jobs[j], flow, stopping, task.walk.at)
    {
      stopping := jobs[j].pc.stopping;
      var again;
      flow, again := SendOnce(j, task);
      if again {
        stopping := true;
        flow, again := SendOnce(j, task);
      }
    }

    /** One send of the cancel. `again`: it was not sent, and the latch has fallen since. */
    method SendOnce(j: nat, task: Task) returns (flow: Flow, again: bool)
      requires Valid() && InStepOf(j, task) && Cancelling(jobs[j], task.walk.at)
      modifies this, task
      ensures Valid() && old(trace) <= trace && calls == old(calls) + 1 && InStepOf(j, task)
      ensures if again then ToBeSentAgain(old(jobs[j]), jobs[j], task.walk.at)
              else CancelLeaves(old(jobs[j]), jobs[j], flow, old(jobs[j].pc.stopping), task.walk.at)
    {
      var sending := SendCancel(j, task);
      if sending.NotSent? {
        flow, again := NoteUnsent(j, sending.refused, task);
      } else {
        flow, again := if sending.SendRaised? then Thrown(sending.failure) else Going, false;
      }
    }

    /** Nothing was sent: send again, go on to the reads, or end unknown. */
    method NoteUnsent(j: nat, refused: bool, task: Task) returns (flow: Flow, again: bool)
      requires Valid() && InStepOf(j, task) && Held(jobs[j])
      requires task.walk.at == UnsentAt(jobs[j].pc.strict, refused, jobs[j].pc.stopping)
      modifies this, task
      ensures Valid() && old(trace) <= trace && calls == old(calls) && InStepOf(j, task)
      ensures if again then ToBeSentAgain(old(jobs[j]), jobs[j], task.walk.at)
              else CancelLeaves(old(jobs[j]), jobs[j], flow, old(jobs[j].pc.stopping), task.walk.at)
    {
      again := StoppedSince(j, refused, task);
      UnsentLeaves(jobs[j], refused, again);
      TakeTo(j, CancelUnsent(j, refused), UnsentJob(jobs[j], refused, again), task);
      flow := if !again && refused then Over else Going;
    }

    /** Whether the latch fell while the cancel was not sent. */
    method StoppedSince(j: nat, refused: bool, task: Task) returns (again: bool)
      requires InStepOf(j, task) && jobs[j].pc.Dispatching?
      requires task.walk.at == UnsentAt(jobs[j].pc.strict, refused, jobs[j].pc.stopping)
      modifies task
      ensures InStepOf(j, task) && again == (!jobs[j].pc.stopping && Stopping())
      ensures task.walk.at == UnsentNext(jobs[j].pc.strict, refused, jobs[j].pc.stopping, again)
    {
      again := false;
      if !jobs[j].pc.stopping {
        again := SeeStop(j, task);
      }
    }

    /** `_cancel` with its `_confirm`, and the settling that follows it. Going: the step is
        settled and the walk goes on. */
    method CancelStep(j: nat, task: Task) returns (flow: Flow)
      requires Valid() && InStepOf(j, task) && (jobs[j].pc.Polling? || jobs[j].pc.Mismatched?)
      requires jobs[j].MayBeWorking() && !LastStep(jobs[j]).cancelSent
      requires task.walk.at == CancelStop(jobs[j].pc.Polling?)
      modifies this, task
      ensures Valid() && old(trace) <= trace && calls <= old(calls) + 2 + ConfirmReads(timing)
      ensures Tracks(j, task) && StepEnds(old(jobs[j]), jobs[j], flow) && ScriptEnds(jobs[j], task.cfg, task.walk, flow)
    {
      BeginCancel(j, task);
      flow := SendAndConfirm(j, task);
    }

    method SendAndConfirm(j: nat, task: Task) returns (flow: Flow)
      requires Valid() && InStepOf(j, task) && Cancelling(jobs[j], task.walk.at)
      modifies this, task
      ensures Valid() && old(trace) <= trace && calls <= old(calls) + 2 + ConfirmReads(timing)
      ensures Tracks(j, task) && StepEnds(old(jobs[j]), jobs[j], flow) && ScriptEnds(jobs[j], task.cfg, task.walk, flow)
    {
      var stopping;
      flow, stopping := SendOrResend(j, task);
      if flow.Going? {
        flow := ConfirmAndSettle(j, stopping, task);
      }
    }

    /** The step's cancel is marked as sent before it is. */
    method BeginCancel(j: nat, task: Task)
      requires Valid() && InStepOf(j, task) && (jobs[j].pc.Polling? || jobs[j].pc.Mismatched?)
      requires jobs[j].MayBeWorking() && !LastStep(jobs[j]).cancelSent
      requires task.walk.at == CancelStop(jobs[j].pc.Polling?)
      modifies this, task
      ensures Valid() && old(trace) <= trace && calls == old(calls) && InStepOf(j, task)
      ensures SameRequest(old(jobs[j]), jobs[j]) && Cancelling(jobs[j], task.walk.at)
      ensures jobs[j].pc.strict == old(jobs[j].pc.Polling?)
    {
      ghost var next := WithCancelSent(jobs[j], true).(pc := Dispatching(Stopping(), jobs[j].pc.Polling?));
      var stopping := SeeStop(j, task);
      TakeTo(j, StartCancel(j), next, task);
      InItsStep(j);
    }

    /** The confirming reads after a cancel, and what they settle. */
    method ConfirmAndSettle(j: nat, stopping: bool, task: Task) returns (flow: Flow)
      requires Valid() && InStepOf(j, task) && ConfirmsCancel(jobs[j], task.walk.at, Duration(stopping))
      modifies this, task
      ensures Valid() && old(trace) <= trace && calls <= old(calls) + ConfirmReads(timing)
      ensures Tracks(j, task) && StepEnds(old(jobs[j]), jobs[j], flow) && ScriptEnds(jobs[j], task.cfg, task.walk, flow)
    {
      var answer := ConfirmByReads(j, Duration(stopping), task);
      if answer.ReadRaised? {
        return Thrown(answer.failure);
      }
      flow := NoteConfirmed(j, answer, task);
    }

    /** What the reads found. */
    method NoteConfirmed(j: nat, answer: OrderAnswer, task: Task) returns (flow: Flow)
      requires Valid() && InStepOf(j, task) && jobs[j].pc.Confirming? && !answer.ReadRaised?
      requires answer.Seen? ==> Terminal(answer.seen.status) && Honest(answer.seen, LastOrder(jobs[j]))
      requires task.walk.at == match answer
                               case Seen(seen) => if jobs[j].pc.accepted then Settling(seen, jobs[j].pc.strict)
                                                  else SettlingUnaccepted(seen)
                               case _ => Quit(JobUnknown)
      modifies this, task
      ensures Valid() && old(trace) <= trace && calls == old(calls) && !flow.Thrown?
      ensures Tracks(j, task) && StepEnds(old(jobs[j]), jobs[j], flow) && ScriptEnds(jobs[j], task.cfg, task.walk, flow)
    {
      if answer.Seen? {
        flow := SettleConfirmed(j, answer.seen, task);
      } else {
        TakeTo(j, GiveUp(j), jobs[j].(pc := Ended(JobUnknown)), task);
        flow := Over;
      }
    }

    /** The order was read terminal after its cancel: `_settle`. */
    method SettleConfirmed(j: nat, seen: Observation, task: Task) returns (flow: Flow)
      requires Valid() && InStepOf(j, task) && jobs[j].pc.Confirming? && Terminal(seen.status)
      requires Honest(seen, LastOrder(jobs[j]))
      requires task.walk.at == if jobs[j].pc.accepted then Settling(seen, jobs[j].pc.strict) else SettlingUnaccepted(seen)
      modifies this, task
      ensures Valid() && old(trace) <= trace && calls == old(calls) && !flow.Thrown?
      ensures Tracks(j, task) && StepEnds(old(jobs[j]), jobs[j], flow) && ScriptEnds(jobs[j], task.cfg, task.walk, flow)
    {
      InItsStep(j);
      ghost var was := jobs[j];
      ghost var next := if was.pc.accepted then AfterSettle(was, seen, was.pc.strict) else AfterUnacceptedCancel(was, seen);
      if was.pc.accepted {
        SettleFollows(was, seen, was.pc.strict, task.cfg, task.walk);
      } else {
        UnacceptedFollows(was, seen, task.cfg, task.walk);
      }
      TakeSettled(j, Confirm(j, seen), next, task);
      flow := if jobs[j].pc.Ended? then Over else Going;
    }

    /** The placed order is terminal: `_settle`. */
    method SettleStep(j: nat, order: Observation, task: Task) returns (flow: Flow)
      requires Valid() && InStepOf(j, task) && (jobs[j].pc.Polling? || jobs[j].pc.Mismatched?)
      requires |jobs[j].steps| > 0 && Terminal(order.status) && Honest(order, LastOrder(jobs[j]))
      requires task.walk.at == Settling(order, jobs[j].pc.Polling?)
      modifies this, task
      ensures Valid() && old(trace) <= trace && calls == old(calls)
      ensures Tracks(j, task) && StepEnds(old(jobs[j]), jobs[j], flow) && !flow.Thrown?
      ensures ScriptEnds(jobs[j], task.cfg, task.walk, flow)
      ensures var strict, step := old(jobs[j].pc.Polling?), old(LastStep(jobs[j]));
              && (flow.Going? <==> strict && Countable(order, step, true))
              && jobs[j].filled == old(jobs[j].filled) + (if Countable(order, step, strict) then order.processed else 0)
      ensures flow.Over? ==> jobs[j].pc == Ended(JobUnknown) && placementEnded
    {
      InItsStep(j);
      ghost var was := jobs[j];
      SettleFollows(was, order, was.pc.Polling?, task.cfg, task.walk);
      TakeSettled(j, Settle(j, order), AfterSettle(was, order, was.pc.Polling?), task);
      flow := if jobs[j].pc.Ended? then Over else Going;
    }

    // ---- Placing ---------------------------------------------------------------------------

    /** Wait for the placement lock. False: the task was cancelled while waiting. */
    method WaitForLock(j: nat, task: Task) returns (free: bool)
      requires Valid() && Tracks(j, task) && task.walk.at.Locking?
      modifies this, task
      ensures Valid() && Rely(old(State()), State(), j) && old(trace) <= trace && calls == old(calls)
      ensures free ==> lockHolder.None?
      ensures Tracks(j, task)
      ensures task.walk.at == if free then LockStop(old(task.walk.at.started)) else Raising(false, false)
    {
      Pause(j, task);
      free := lockHolder.None?;
      SeeLock(j, task, free);
    }

    /** `_place` up to its place call, under the lock: the stop, placement, and time checks,
        and the account read beside other work. */
    method EnterPlacement(j: nat, task: Task) returns (flow: Flow)
      requires Valid() && Tracks(j, task) && jobs[j].pc.WaitingLock? && task.walk.at.Locking?
      modifies this, task
      ensures Valid() && old(trace) <= trace && calls <= old(calls) + 1
      ensures Tracks(j, task) && SameWalk(old(jobs[j]), jobs[j])
      ensures flow.Going? ==> jobs[j].pc.Locked? && task.walk.at == AtGate(old(task.walk.at.started))
      ensures flow.Over? ==> jobs[j].pc.Ended? && task.walk.at == Quit(jobs[j].pc.status)
      ensures flow.Thrown? ==> jobs[j].pc.WaitingLock? || jobs[j].pc.Locked?
      ensures flow.Thrown? ==> task.walk.at == Raising(flow.failure, false)
    {
      var free := WaitForLock(j, task);
      if !free {
        return Thrown(false);
      }
      flow := CheckUnderLock(j, task);
      if flow.Going? {
        flow := ReadAccount(j, task);
      }
    }

    /** The checks that come first under the lock. */
    method CheckUnderLock(j: nat, task: Task) returns (flow: Flow)
      requires Valid() && Tracks(j, task) && jobs[j].pc.WaitingLock? && task.walk.at.LockStop? && lockHolder.None?
      modifies this, task
      ensures Valid() && old(trace) <= trace && calls == old(calls)
      ensures Tracks(j, task) && SameWalk(old(jobs[j]), jobs[j]) && !flow.Thrown?
      ensures flow.Going? ==> jobs[j].pc.Locked? && task.walk.at == LockWork(old(task.walk.at.started))
      ensures flow.Over? ==> jobs[j].pc.Ended? && task.walk.at == Quit(jobs[j].pc.status)
    {
      WithinRequest(j);
      var open := CheckOpen(j, task);
      if open {
        TakeTo(j, AcquireLock(j), jobs[j].(pc := Locked), task);
        flow := Going;
      } else {
        flow := Over;
      }
    }

    /** The checks before a step and again under the lock: the job ends on a stop, once
        placement has ended, and when too little of the window is left. */
    method CheckOpen(j: nat, task: Task) returns (open: bool)
      requires Valid() && Tracks(j, task) && jobs[j].filled < jobs[j].request.quantity
      requires (jobs[j].pc.Ready? && task.walk.at.HeadStop?) || (jobs[j].pc.WaitingLock? && task.walk.at.LockStop?)
      modifies this, task
      ensures Valid() && old(trace) <= trace && Tracks(j, task) && calls == old(calls)
      ensures open ==> jobs == old(jobs) && lockHolder == old(lockHolder) && !Stopping() && !placementEnded
      ensures open ==> task.walk.at == CheckedAt(old(task.walk.at))
      ensures !open ==> Closed(old(jobs[j]), jobs[j], task.walk.at)
    {
      open := CheckFlags(j, task);
      if open {
        open := CheckTime(j, task);
      }
    }

    /** `_stopping()` and `_check_placement_open`. */
    method CheckFlags(j: nat, task: Task) returns (open: bool)
      requires Valid() && Tracks(j, task) && jobs[j].filled < jobs[j].request.quantity
      requires (jobs[j].pc.Ready? && task.walk.at.HeadStop?) || (jobs[j].pc.WaitingLock? && task.walk.at.LockStop?)
      modifies this, task
      ensures Valid() && old(trace) <= trace && Tracks(j, task) && calls == old(calls)
      ensures open ==> jobs == old(jobs) && lockHolder == old(lockHolder) && !Stopping() && !placementEnded
      ensures open ==> task.walk.at == if jobs[j].pc.Ready? then HeadTime else LockTime(old(task.walk.at.started))
      ensures !open ==> Closed(old(jobs[j]), jobs[j], task.walk.at)
    {
      var stopping := SeeStop(j, task);
      if stopping {
        EndJob(j, JobStopped, task);
        return false;
      }
      var ended := SeeEnded(j, task);
      if ended {
        EndJob(j, JobStopped, task);
      }
      open := !ended;
    }

    /** No time for another step: the window ends the job. */
    method CheckTime(j: nat, task: Task) returns (open: bool)
      requires Valid() && Tracks(j, task) && jobs[j].filled < jobs[j].request.quantity
      requires (jobs[j].pc.Ready? && task.walk.at.HeadTime?) || (jobs[j].pc.WaitingLock? && task.walk.at.LockTime?)
      modifies this, task
      ensures Valid() && old(trace) <= trace && Tracks(j, task) && calls == old(calls)
      ensures open ==> jobs == old(jobs) && lockHolder == old(lockHolder)
                       && halted == old(halted) && stopRequested == old(stopRequested)
                       && placementEnded == old(placementEnded)
      ensures open ==> task.walk.at == if jobs[j].pc.Ready? then Beginning else LockWork(old(task.walk.at.started))
      ensures !open ==> Closed(old(jobs[j]), jobs[j], task.walk.at)
    {
      var short := SeeShort(j, task);
      if short {
        FinalIs(jobs[j], task.cfg);
        EndJob(j, jobs[j].Final(), task);
      }
      open := !short;
    }

    /** Beside other work, a fresh account snapshot is read first. */
    method ReadAccount(j: nat, task: Task) returns (flow: Flow)
      requires Valid() && Tracks(j, task) && jobs[j].pc.Locked? && task.walk.at.LockWork?
      modifies this, task
      ensures Valid() && old(trace) <= trace && calls <= old(calls) + 1
      ensures Tracks(j, task) && SameWalk(old(jobs[j]), jobs[j]) && !flow.Over? && jobs[j].pc.Locked?
      ensures flow.Going? ==> task.walk.at == AtGate(old(task.walk.at.started))
      ensures flow.Thrown? ==> task.walk.at == Raising(flow.failure, false)
    {
      var beside := SeeWork(j, task);
      if beside {
        var answer := Call(j, task);
        SeeAccount(j, task, answer);
        if answer.Raised? {
          return Thrown(answer.failure);
        }
      }
      return Going;
    }

    /** The hooks' admission of the place and the proxy's decision to forward it: it passes exactly
        when the other checks permit it, the latch has not fallen, placement has not ended, and it
        may work beside the run's other work. */
    method GatePlace(j: nat, task: Task) returns (passed: bool, snapshotCash: int, ghost check: ConcurrencyView)
      requires Valid() && Tracks(j, task) && jobs[j].pc.Locked? && task.walk.at.AtGate?
      modifies this, task
      ensures Valid() && old(trace) <= trace && calls == old(calls) && Tracks(j, task)
      ensures State() == old(State()).(stop := stopRequested)
      ensures 0 < jobs[j].next <= |jobs[j].prices|
      ensures passed <==> && check.permitted && !stopRequested && !placementEnded
                          && Joins(State(), Some(j), jobs[j].request, jobs[j].prices[jobs[j].next - 1],
                                   jobs[j].Remaining(), check)
      ensures passed ==> JobEnabled(State(), PassGate(j, snapshotCash))
      ensures task.walk.at == if passed then AtSend(old(task.walk.at.started)) else Quit(JobStopped)
    {
      Signal(j);
      WithinRequest(j);
      var job := jobs[j];
      var view := OtherChecks();
      check := view;
      var joins;
      joins, snapshotCash := MayJoinNow(Some(j), job.request, job.prices[job.next - 1], job.Remaining(), view);
      passed := SeeGate(j, task, view.permitted, joins);
    }

    /** The hooks' and the proxy's other checks and records, and what the run has of the account. */
    method OtherChecks() returns (view: ConcurrencyView) { view := *; }

    /** The concurrency check of `PretradeGate`, against whatever snapshot the run has. */
    method MayJoinNow(exclude: Option<nat>, request: WorkRequest, price: nat, quantity: nat, view: ConcurrencyView)
      returns (joins: bool, snapshotCash: int)
      requires Valid()
      ensures joins <==> Joins(State(), exclude, request, price, quantity, view)
      ensures joins ==> MayJoin(State(), exclude, request, price, quantity, snapshotCash)
    {
      var denial := CheckConcurrency(Placement(request, price, quantity), OtherWork(State(), exclude), 0,
                                     multipliers, view.account, view.maxAge, view.now);
      var cash := Cash(view.account, view.maxAge, view.now);
      return denial.None?, if cash.Some? then cash.value else 0;
    }

    /** The place call under the lock: refused, not sent, raised before it was sent, or forwarded
        and answered. */
    method SendPlace(j: nat, task: Task) returns (flow: Flow, placed: Observation)
      requires Valid() && Tracks(j, task) && jobs[j].pc.Locked? && task.walk.at.AtGate?
      modifies this, task
      ensures Valid() && old(trace) <= trace && calls == old(calls) + 1
      ensures Tracks(j, task) && SameRequest(old(jobs[j]), jobs[j])
      ensures flow.Going? ==> PlacedNow(jobs[j], placed) && InStepOf(j, task)
      ensures flow.Going? ==> task.walk.at == PlacedAt(task.cfg, old(task.walk.at.started), placed, jobs[j].pc.Polling?)
      ensures flow.Over? ==> jobs[j].pc.Ended? && task.walk.at == Quit(jobs[j].pc.status)
      ensures flow.Thrown? ==> jobs[j].pc.Placing? || jobs[j].pc.Locked?
      ensures flow.Thrown? ==> task.walk.at == Raising(flow.failure, false)
    {
      calls := calls + 1;
      var raised: bool := *;
      if raised {
        SeeGateRaised(j, task);
        placed := *;
        return Thrown(true), placed;
      }
      flow := PassOrEnd(j, task);
      if flow.Going? {
        flow, placed := HearOfPlace(j, task);
      } else {
        placed := *;
      }
    }

    /** The place passes its checks and is sent, or the job is stopped. */
    method PassOrEnd(j: nat, task: Task) returns (flow: Flow)
      requires Valid() && Tracks(j, task) && jobs[j].pc.Locked? && task.walk.at.AtGate?
      modifies this, task
      ensures Valid() && old(trace) <= trace && calls == old(calls)
      ensures Tracks(j, task) && SameRequest(old(jobs[j]), jobs[j]) && !flow.Thrown?
      ensures flow.Going? ==> InStepOf(j, task) && jobs[j].pc.Placing? && LastPrice(jobs[j], task.cfg, task.walk)
      ensures flow.Going? ==> task.walk.at == Hearing(old(task.walk.at.started))
      ensures flow.Over? ==> jobs[j].pc.Ended? && task.walk.at == Quit(jobs[j].pc.status)
    {
      var passed, snapshotCash;
      ghost var check;
      passed, snapshotCash, check := GatePlace(j, task);
      if passed {
        ForwardPassed(j, snapshotCash, task);
        flow := Going;
      } else {
        EndJob(j, JobStopped, task);
        flow := Over;
      }
    }

    /** The proxy's record of the place and its send: a stop latch that falls after the proxy's
        check does not stop the send. The order is the step's price for all that is left. */
    method ForwardPassed(j: nat, snapshotCash: int, task: Task)
      requires Valid() && JobEnabled(State(), PassGate(j, snapshotCash))
      requires Tracks(j, task) && task.walk.at.AtSend?
      modifies this, task
      ensures Valid() && old(trace) <= trace && calls == old(calls) && InStepOf(j, task) && jobs[j].pc.Placing?
      ensures SameRequest(old(jobs[j]), jobs[j]) && LastPrice(jobs[j], task.cfg, task.walk)
      ensures task.walk.at == Hearing(old(task.walk.at.started))
    {
      ghost var was := jobs[j];
      SendPassed(j, snapshotCash);
      task.NoteForwarded(was.prices[was.next - 1], was.Remaining());
    }

    /** The passed place is sent. */
    method SendPassed(j: nat, snapshotCash: int)
      requires Valid() && j < |jobs| && JobEnabled(State(), PassGate(j, snapshotCash))
      modifies this
      ensures Valid() && old(trace) <= trace && calls == old(calls)
      ensures 0 < old(jobs[j]).next <= |old(jobs[j]).prices| && jobs == old(jobs)[j := Forwarded(old(jobs[j]))]
    {
      PassTheGate(j, snapshotCash);
      SendCleared(j);
    }

    method SendCleared(j: nat)
      requires Sound() && j < |jobs| && jobs[j].pc.Cleared? && 0 < jobs[j].next <= |jobs[j].prices|
      modifies this
      ensures Valid() && old(trace) <= trace && calls == old(calls)
      ensures jobs == old(jobs)[j := Forwarded(old(jobs[j]))]
    {
      ReachedLegally(origin, trace, State());
      SendClosesTheWindow(State(), j);
      Move(ForwardPlace(j));
    }

    /** The proxy has checked the latch, which may fall from here on. */
    method PassTheGate(j: nat, snapshotCash: int)
      requires Valid() && JobEnabled(State(), PassGate(j, snapshotCash))
      modifies this
      ensures Sound() && old(trace) <= trace && calls == old(calls)
      ensures jobs == old(jobs)[j := old(jobs[j]).(pc := Cleared(snapshotCash))]
    {
      Move(PassGate(j, snapshotCash));
      var signalled: bool := *;
      if signalled {
        Move(RequestStop);
      }
    }

    /** What came back for a forwarded place. */
    method HearOfPlace(j: nat, task: Task) returns (flow: Flow, placed: Observation)
      requires Valid() && InStepOf(j, task) && jobs[j].pc.Placing? && task.walk.at.Hearing?
      requires LastPrice(jobs[j], task.cfg, task.walk)
      modifies this, task
      ensures Valid() && old(trace) <= trace && calls == old(calls)
      ensures Tracks(j, task) && SameRequest(old(jobs[j]), jobs[j])
      ensures flow.Going? ==> PlacedNow(jobs[j], placed) && InStepOf(j, task)
      ensures flow.Going? ==> task.walk.at == PlacedAt(task.cfg, old(task.walk.at.started), placed, jobs[j].pc.Polling?)
      ensures flow.Over? ==> jobs[j].pc.Ended? && task.walk.at == Quit(jobs[j].pc.status)
      ensures flow.Thrown? ==> jobs[j].pc.Placing? && task.walk.at == Raising(flow.failure, false)
    {
      Pause(j, task);
      placed := *;
      var raised: bool, failure: bool, known: bool := *, *, *;
      if raised {
        SeePlace(j, task, PlaceRaised(failure));
        return Thrown(failure), placed;
      }
      if known && Honest(placed, LastOrder(jobs[j])) {
        NotePlaced(j, placed, task);
        flow := Going;
      } else {
        NoteLost(j, task);
        flow := Over;
      }
    }

    /** The broker's order becomes the step. */
    method NotePlaced(j: nat, placed: Observation, task: Task)
      requires Valid() && InStepOf(j, task) && jobs[j].pc.Placing? && task.walk.at.Hearing?
      requires LastPrice(jobs[j], task.cfg, task.walk) && Honest(placed, LastOrder(jobs[j]))
      modifies this, task
      ensures Valid() && old(trace) <= trace && calls == old(calls) && InStepOf(j, task)
      ensures SameRequest(old(jobs[j]), jobs[j]) && PlacedNow(jobs[j], placed)
      ensures task.walk.at == PlacedAt(task.cfg, old(task.walk.at.started), placed, jobs[j].pc.Polling?)
    {
      ghost var next := PlacedJob(jobs[j], placed);
      PlacingIsUnnoted(j, placed);
      MatchesAlike(placed, LastOrder(jobs[j]).price, LastOrder(jobs[j]).quantity);
      SeePlace(j, task, Acknowledged(placed));
      TakeTo(j, PlaceAnswered(j, placed), next, task);
    }

    lemma PlacingIsUnnoted(j: nat, placed: Observation)
      requires Valid() && j < |jobs| && jobs[j].pc.Placing? && |jobs[j].orders| > 0 && Honest(placed, LastOrder(jobs[j]))
      ensures PlacedNow(PlacedJob(jobs[j], placed), placed)
    {
      JobIsSound(j);
    }

    /** The place's outcome is unknown. */
    method NoteLost(j: nat, task: Task)
      requires Valid() && InStepOf(j, task) && jobs[j].pc.Placing? && task.walk.at.Hearing? && 0 < jobs[j].next
      requires LastPrice(jobs[j], task.cfg, task.walk)
      modifies this, task
      ensures Valid() && old(trace) <= trace && calls == old(calls) && Tracks(j, task)
      ensures SameRequest(old(jobs[j]), jobs[j]) && jobs[j].pc == Ended(JobUnknown) && task.walk.at == Quit(JobUnknown)
    {
      SeePlace(j, task, Lost);
      TakeTo(j, PlaceUnknown(j), LostJob(jobs[j]), task);
    }

    // ---- The walk --------------------------------------------------------------------------

    /** The reads before a placement: the quote, the underlying's quote for a sale, and the
        review, in that order. The job goes on only with the step's price within the live quote.
        `started` is the step's start. */
    method Prepare(j: nat, task: Task) returns (flow: Flow, bid: nat, ask: nat, started: int)
      requires Valid() && Tracks(j, task) && jobs[j].pc.Preparing? && task.walk.at == Quoting
      modifies this, task
      ensures Valid() && old(trace) <= trace && calls <= old(calls) + 3
      ensures Tracks(j, task) && SameWalk(old(jobs[j]), jobs[j])
      ensures flow.Going? ==> jobs[j].pc.WaitingLock? && task.walk.at == Locking(started)
      ensures flow.Going? ==> && 0 < jobs[j].next <= |jobs[j].prices|
                              && bid <= jobs[j].prices[jobs[j].next - 1] <= ask
      ensures flow.Going? ==> prepared == old(prepared) + Preparation(jobs[j].request.side)
      ensures flow.Over? ==> jobs[j].pc.Ended? && task.walk.at == Quit(jobs[j].pc.status)
      ensures flow.Thrown? ==> jobs[j].pc.Preparing? && task.walk.at == Raising(flow.failure, false)
    {
      started := 0;
      flow, bid, ask := QuoteAndCheck(j, task);
      if flow.Going? {
        started := SeeClock(j, task);
        flow := ReviewAndAsk(j, task);
      }
    }

    /** The review, and then the lock is asked for. */
    method ReviewAndAsk(j: nat, task: Task) returns (flow: Flow)
      requires Valid() && Tracks(j, task) && jobs[j].pc.Preparing? && task.walk.at.Reviewing?
      modifies this, task
      ensures Valid() && old(trace) <= trace && calls == old(calls) + 1
      ensures Tracks(j, task) && SameWalk(old(jobs[j]), jobs[j]) && prepared == old(prepared) + [Review]
      ensures flow.Going? ==> jobs[j].pc.WaitingLock? && task.walk.at == Locking(old(task.walk.at.started))
      ensures flow.Over? ==> jobs[j].pc.Ended? && task.walk.at == Quit(jobs[j].pc.status)
      ensures flow.Thrown? ==> jobs[j].pc.Preparing? && task.walk.at == Raising(flow.failure, false)
    {
      flow := PrepareCall(j, Review, task);
      if flow.Going? {
        AskForTurn(j, task);
      }
    }

    method AskForTurn(j: nat, task: Task)
      requires Valid() && Tracks(j, task) && jobs[j].pc.Preparing?
      modifies this
      ensures Valid() && old(trace) <= trace && calls == old(calls) && prepared == old(prepared)
      ensures Tracks(j, task) && jobs[j] == old(jobs[j]).(pc := WaitingLock)
    {
      TakeTo(j, AskForLock(j), jobs[j].(pc := WaitingLock), task);
    }

    method QuoteAndCheck(j: nat, task: Task) returns (flow: Flow, bid: nat, ask: nat)
      requires Valid() && Tracks(j, task) && jobs[j].pc.Preparing? && task.walk.at == Quoting
      modifies this, task
      ensures Valid() && old(trace) <= trace && calls <= old(calls) + 2
      ensures Tracks(j, task) && SameWalk(old(jobs[j]), jobs[j])
      ensures flow.Going? ==> && 0 < jobs[j].next <= |jobs[j].prices|
                              && bid <= jobs[j].prices[jobs[j].next - 1] <= ask
      ensures flow.Going? ==> prepared == old(prepared) + Quotes(jobs[j].request.side) && task.walk.at == StepClock
      ensures flow.Over? ==> jobs[j].pc.Ended? && task.walk.at == Quit(jobs[j].pc.status)
      ensures !flow.Over? ==> jobs[j].pc.Preparing?
      ensures flow.Thrown? ==> task.walk.at == Raising(flow.failure, false)
    {
      flow := ReadQuotes(j, task);
      bid, ask := *, *;
      if flow.Going? {
        flow := CheckBounds(j, bid, ask, task);
      }
    }

    /** `within_bounds`: a step priced outside the live quote ends the job. */
    method CheckBounds(j: nat, bid: nat, ask: nat, task: Task) returns (flow: Flow)
      requires Valid() && Tracks(j, task) && jobs[j].pc.Preparing? && task.walk.at == Bounding
      modifies this, task
      ensures Valid() && old(trace) <= trace && calls == old(calls) && prepared == old(prepared)
      ensures Tracks(j, task) && SameWalk(old(jobs[j]), jobs[j]) && 0 < jobs[j].next <= |jobs[j].prices|
      ensures flow == if bid <= jobs[j].prices[jobs[j].next - 1] <= ask then Going else Over
      ensures if flow.Going? then jobs[j].pc.Preparing? else jobs[j].pc.Ended?
      ensures task.walk.at == if flow.Going? then StepClock else Quit(jobs[j].pc.status)
    {
      WithinRequest(j);
      var price := jobs[j].prices[jobs[j].next - 1];
      SeeQuote(j, task, bid, ask);
      if price < bid || price > ask {
        FinalIs(jobs[j], task.cfg);
        EndJob(j, jobs[j].Final(), task);
        return Over;
      }
      return Going;
    }

    /** `_quote`. */
    method ReadQuotes(j: nat, task: Task) returns (flow: Flow)
      requires Valid() && Tracks(j, task) && jobs[j].pc.Preparing? && task.walk.at == Quoting
      modifies this, task
      ensures Valid() && old(trace) <= trace && calls <= old(calls) + 2
      ensures Tracks(j, task) && SameWalk(old(jobs[j]), jobs[j])
      ensures flow.Going? ==> prepared == old(prepared) + Quotes(jobs[j].request.side) && task.walk.at == Bounding
      ensures flow.Over? ==> jobs[j].pc.Ended? && task.walk.at == Quit(jobs[j].pc.status)
      ensures !flow.Over? ==> jobs[j].pc.Preparing?
      ensures flow.Thrown? ==> task.walk.at == Raising(flow.failure, false)
    {
      flow := PrepareCall(j, QuoteRead, task);
      if flow.Going? && jobs[j].request.side.SellToOpen? {
        ghost var before := prepared;
        flow := PrepareCall(j, UnderlyingQuoteRead, task);
        assert prepared == old(prepared) + ([QuoteRead] + [UnderlyingQuoteRead]);
      }
    }

    /** One read or review: an unusable answer or a refusal stops the job. */
    method PrepareCall(j: nat, kind: CallKind, task: Task) returns (flow: Flow)
      requires Valid() && Tracks(j, task) && jobs[j].pc.Preparing? && PreparesAt(task.walk.at, kind)
      modifies this, task
      ensures Valid() && old(trace) <= trace && calls == old(calls) + 1
      ensures prepared == old(prepared) + [kind]
      ensures Tracks(j, task) && SameWalk(old(jobs[j]), jobs[j])
      ensures flow.Going? ==> task.walk.at == UsableAt(task.cfg, old(task.walk.at))
      ensures flow.Over? ==> jobs[j].pc.Ended? && task.walk.at == Quit(jobs[j].pc.status)
      ensures !flow.Over? ==> jobs[j].pc.Preparing?
      ensures flow.Thrown? ==> task.walk.at == Raising(flow.failure, false)
    {
      prepared := prepared + [kind];
      var answer := Call(j, task);
      SeeAnswer(j, task, kind, answer);
      match answer
      case Raised(failure) => flow := Thrown(failure);
      case Unusable =>
        EndJob(j, JobStopped, task);
        flow := Over;
      case Usable => flow := Going;
    }

    /** One price step of `_walk`, from its first read to its settled order. */
    method WalkStep(j: nat, task: Task) returns (flow: Flow)
      requires Valid() && Tracks(j, task) && jobs[j].pc.Preparing? && task.walk.at == Quoting
      modifies this, task
      ensures Valid() && old(trace) <= trace && calls <= old(calls) + StepCalls(timing)
      ensures Tracks(j, task) && StepEnds(old(jobs[j]), jobs[j], flow) && ScriptEnds(jobs[j], task.cfg, task.walk, flow)
    {
      var bid, ask, started;
      flow, bid, ask, started := Prepare(j, task);
      if flow.Going? {
        flow := PlaceAndFollow(j, started, task);
      } else if flow.Thrown? {
        NothingWorksYet(j);
      }
    }

    /** Before its order is noted, a job has no working step. */
    lemma NothingWorksYet(j: nat)
      requires Valid() && j < |jobs|
      requires jobs[j].pc.Preparing? || jobs[j].pc.WaitingLock? || jobs[j].pc.Locked? || jobs[j].pc.Placing?
      ensures !NeedsSalvage(jobs[j])
    {
      JobIsSound(j);
      PlacingHasNoWorkingStep(jobs[j]);
    }

    /** The rest of a step, from the wait for the lock. */
    method PlaceAndFollow(j: nat, started: int, task: Task) returns (flow: Flow)
      requires Valid() && Tracks(j, task) && jobs[j].pc.WaitingLock? && task.walk.at == Locking(started)
      modifies this, task
      ensures Valid() && old(trace) <= trace
      ensures calls <= old(calls) + 4 + CeilDiv(timing.stepWait, timing.poll) + ConfirmReads(timing)
      ensures Tracks(j, task) && StepEnds(old(jobs[j]), jobs[j], flow) && ScriptEnds(jobs[j], task.cfg, task.walk, flow)
    {
      var placed;
      flow, placed := EnterAndPlace(j, task);
      if flow.Going? {
        flow := FollowOrder(j, placed, started, task);
      } else if flow.Thrown? {
        NothingWorksYet(j);
      }
    }

    /** `_place`. */
    method EnterAndPlace(j: nat, task: Task) returns (flow: Flow, placed: Observation)
      requires Valid() && Tracks(j, task) && jobs[j].pc.WaitingLock? && task.walk.at.Locking?
      modifies this, task
      ensures Valid() && old(trace) <= trace && calls <= old(calls) + 2
      ensures Tracks(j, task) && SameRequest(old(jobs[j]), jobs[j])
      ensures flow.Going? ==> PlacedNow(jobs[j], placed) && InStepOf(j, task)
      ensures flow.Going? ==> task.walk.at == PlacedAt(task.cfg, old(task.walk.at.started), placed, jobs[j].pc.Polling?)
      ensures flow.Over? ==> jobs[j].pc.Ended? && task.walk.at == Quit(jobs[j].pc.status)
      ensures flow.Thrown? ==> jobs[j].pc.WaitingLock? || jobs[j].pc.Locked? || jobs[j].pc.Placing?
      ensures flow.Thrown? ==> task.walk.at == Raising(flow.failure, false)
    {
      flow := EnterPlacement(j, task);
      if flow.Going? {
        flow, placed := SendPlace(j, task);
      } else {
        placed := *;
      }
    }

    /** The placed order is watched while it is ours, then cancelled if it may still work,
        and settled. */
    method FollowOrder(j: nat, placed: Observation, started: int, task: Task) returns (flow: Flow)
      requires Valid() && InStepOf(j, task) && PlacedNow(jobs[j], placed)
      requires task.walk.at == PlacedAt(task.cfg, started, placed, jobs[j].pc.Polling?)
      modifies this, task
      ensures Valid() && old(trace) <= trace
      ensures calls <= old(calls) + CeilDiv(timing.stepWait, timing.poll) + 2 + ConfirmReads(timing)
      ensures Tracks(j, task) && StepEnds(old(jobs[j]), jobs[j], flow) && ScriptEnds(jobs[j], task.cfg, task.walk, flow)
    {
      var order := placed;
      flow := Going;
      if jobs[j].pc.Polling? {
        flow, order := WaitForFill(j, placed, started, task);
      }
      if flow.Going? {
        flow := CloseOrder(j, order, task);
      } else {
        InItsStep(j);
      }
    }

    /** The order is settled if it is over, else cancelled first. */
    method CloseOrder(j: nat, order: Observation, task: Task) returns (flow: Flow)
      requires Valid() && InStepOf(j, task) && (jobs[j].pc.Polling? || jobs[j].pc.Mismatched?)
      requires |jobs[j].steps| > 0 && !LastStep(jobs[j]).cancelSent
      requires !Terminal(order.status) ==> !Terminal(LastStep(jobs[j]).status)
      requires Honest(order, LastOrder(jobs[j]))
      requires task.walk.at == if IsOver(order) then Settling(order, jobs[j].pc.Polling?) else CancelStop(jobs[j].pc.Polling?)
      modifies this, task
      ensures Valid() && old(trace) <= trace && calls <= old(calls) + 2 + ConfirmReads(timing)
      ensures Tracks(j, task) && StepEnds(old(jobs[j]), jobs[j], flow) && ScriptEnds(jobs[j], task.cfg, task.walk, flow)
    {
      InItsStep(j);
      if Terminal(order.status) {
        flow := SettleStep(j, order, task);
      } else {
        flow := CancelStep(j, task);
      }
    }

    /** The checks of `_walk` after a settled step that end the job. */
    method AfterStep(j: nat, rejected: bool, task: Task) returns (flow: Flow)
      requires Valid() && Tracks(j, task) && jobs[j].pc.Ready?
      requires task.walk.at == AfterAt(task.cfg, task.walk.filled, rejected)
      modifies this, task
      ensures Valid() && old(trace) <= trace && calls == old(calls)
      ensures Tracks(j, task) && SameWalk(old(jobs[j]), jobs[j]) && !flow.Thrown?
      ensures flow.Over? ==> jobs[j].pc.Ended? && task.walk.at == Quit(jobs[j].pc.status)
      ensures flow.Going? ==> jobs[j].pc.Ready? && jobs[j].filled < jobs[j].request.quantity
      ensures flow.Going? ==> task.walk.at == NextAt(task.cfg, task.walk)
    {
      flow := Over;
      if jobs[j].filled >= jobs[j].request.quantity {
        EndJob(j, jobs[j].Final(), task);
      } else if rejected {
        EndJob(j, JobStopped, task);
      } else {
        flow := StopOrGoOn(j, task);
      }
    }

    /** The stop and the partial fill after a step. */
    method StopOrGoOn(j: nat, task: Task) returns (flow: Flow)
      requires Valid() && Tracks(j, task) && jobs[j].pc.Ready? && jobs[j].filled < jobs[j].request.quantity
      requires task.walk.at == AfterStop
      modifies this, task
      ensures Valid() && old(trace) <= trace && calls == old(calls)
      ensures Tracks(j, task) && SameWalk(old(jobs[j]), jobs[j]) && !flow.Thrown?
      ensures flow.Over? ==> jobs[j].pc.Ended? && task.walk.at == Quit(jobs[j].pc.status)
      ensures flow.Going? ==> jobs[j].pc.Ready? && task.walk.at == NextAt(task.cfg, task.walk)
    {
      flow := Over;
      var stopping := SeeStop(j, task);
      if stopping {
        EndJob(j, JobStopped, task);
      } else if jobs[j].filled > 0 && partialFillStops {
        EndJob(j, JobPartlyFilled, task);
      } else {
        flow := Going;
      }
    }

    /** The head of `_walk`'s loop: begin the next price step, or end the job. */
    method BeginOrEnd(j: nat, task: Task) returns (flow: Flow)
      requires Valid() && Tracks(j, task) && jobs[j].pc.Ready? && jobs[j].next < |jobs[j].prices|
      requires jobs[j].filled < jobs[j].request.quantity && task.walk.at == HeadStop
      modifies this, task
      ensures Valid() && old(trace) <= trace && calls == old(calls) && Tracks(j, task) && !flow.Thrown?
      ensures flow.Over? ==> jobs[j].pc.Ended? && task.walk.at == Quit(jobs[j].pc.status)
      ensures flow.Going? ==> jobs[j] == old(jobs[j]).(pc := Preparing, next := old(jobs[j]).next + 1)
      ensures flow.Going? ==> task.walk.at == Quoting
      ensures SameJob(old(jobs[j]), jobs[j])
    {
      var open := CheckOpen(j, task);
      if open {
        BeginNext(j, task);
        flow := Going;
      } else {
        flow := Over;
      }
    }

    /** The next price step is begun. */
    method BeginNext(j: nat, task: Task)
      requires Valid() && Tracks(j, task) && jobs[j].pc.Ready? && jobs[j].next < |jobs[j].prices|
      requires jobs[j].filled < jobs[j].request.quantity && task.walk.at == Beginning && !Stopping() && !placementEnded
      modifies this, task
      ensures Valid() && old(trace) <= trace && calls == old(calls) && Tracks(j, task)
      ensures jobs[j] == old(jobs[j]).(pc := Preparing, next := old(jobs[j]).next + 1) && task.walk.at == Quoting
    {
      Take(BeginStep(j));
      task.NoteBegan(jobs[j].prices[jobs[j].next - 1]);
    }

    /** One round of `_walk`'s loop. */
    method WalkRound(j: nat, task: Task) returns (flow: Flow)
      requires Valid() && Tracks(j, task) && AtHead(jobs[j], task.cfg, task.walk) && jobs[j].next < |jobs[j].prices|
      modifies this, task
      ensures Valid() && old(trace) <= trace && calls <= old(calls) + StepCalls(timing) && Tracks(j, task)
      ensures StepsDone(jobs[j], task.cfg, task.walk, flow)
      ensures flow.Going? ==> jobs[j].prices == old(jobs[j].prices) && jobs[j].next == old(jobs[j].next) + 1
    {
      flow := BeginOrEnd(j, task);
      if flow.Going? {
        flow := TakeStep(j, task);
      }
    }

    /** A begun step, and the checks after it. */
    method TakeStep(j: nat, task: Task) returns (flow: Flow)
      requires Valid() && Tracks(j, task) && jobs[j].pc.Preparing? && task.walk.at == Quoting
      modifies this, task
      ensures Valid() && old(trace) <= trace && calls <= old(calls) + StepCalls(timing) && Tracks(j, task)
      ensures StepsDone(jobs[j], task.cfg, task.walk, flow) && SameRequest(old(jobs[j]), jobs[j])
    {
      flow := WalkStep(j, task);
      if flow.Going? {
        flow := AfterStep(j, LastStep(jobs[j]).status.Rejected?, task);
      }
    }

    /** `_walk`: every price step in turn. The clock bounds nothing here: the steps, the
        polls, and the confirming reads are all counted. */
    method Walk(j: nat, task: Task) returns (flow: Flow)
      requires Valid() && Tracks(j, task) && jobs[j].pc.Ready? && jobs[j].next == 0 && task.walk == StartOf(task.cfg)
      requires jobs[j].filled < jobs[j].request.quantity
      modifies this, task
      ensures Valid() && old(trace) <= trace && Tracks(j, task) && !flow.Going?
      ensures ScriptEnds(jobs[j], task.cfg, task.walk, flow)
      ensures flow.Thrown? ==> jobs[j].Active() && !jobs[j].Salvaging()
      ensures calls <= old(calls) + old(|jobs[j].prices|) * StepCalls(timing)
    {
      flow := WalkSteps(j, task);
      if flow.Going? {
        flow := EndWalk(j, task);
      }
    }

    method WalkSteps(j: nat, task: Task) returns (flow: Flow)
      requires Valid() && Tracks(j, task) && AtHead(jobs[j], task.cfg, task.walk) && jobs[j].next == 0
      modifies this, task
      ensures Valid() && old(trace) <= trace && Tracks(j, task)
      ensures StepsDone(jobs[j], task.cfg, task.walk, flow)
      ensures flow.Going? ==> jobs[j].next >= |jobs[j].prices|
      ensures calls <= old(calls) + |task.cfg.prices| * StepCalls(timing)
    {
      ghost var round, spent := 0, 0;
      flow := Going;
      while flow.Going? && jobs[j].next < |jobs[j].prices|
        invariant Valid() && old(trace) <= trace && Tracks(j, task) && StepsDone(jobs[j], task.cfg, task.walk, flow)
        invariant round <= |task.cfg.prices| && (flow.Going? ==> round == jobs[j].next)
        invariant spent == round * StepCalls(timing) && calls <= old(calls) + spent
        decreases flow.Going?, |task.cfg.prices| - round
      {
        AnotherRound(round, StepCalls(timing));
        round, spent := round + 1, spent + StepCalls(timing);
        flow := WalkRound(j, task);
      }
      MulMonotone(round, |task.cfg.prices|, StepCalls(timing));
    }

    /** The last price step ended. */
    method EndWalk(j: nat, task: Task) returns (flow: Flow)
      requires Valid() && Tracks(j, task) && jobs[j].pc.Ready? && jobs[j].next >= |jobs[j].prices|
      requires task.walk.at == NextAt(task.cfg, task.walk)
      modifies this
      ensures Valid() && old(trace) <= trace && Tracks(j, task) && calls == old(calls)
      ensures flow == Over && ScriptEnds(jobs[j], task.cfg, task.walk, flow)
    {
      WithinRequest(j);
      FinalIs(jobs[j], task.cfg);
      EndJob(j, jobs[j].Final(), task);
      flow := Over;
    }

    // ---- The task --------------------------------------------------------------------------

    /** `_salvage`: one cancel of the working step, then bounded reads; whatever it finds, the
        job ends unknown. */
    method Salvage(j: nat, task: Task)
      requires Valid() && InStepOf(j, task) && jobs[j].pc.SalvageDispatching? && task.walk.at == SalvageSend
      modifies this, task
      ensures Valid() && old(trace) <= trace && Tracks(j, task) && jobs[j].pc == Ended(JobUnknown)
      ensures task.walk.at == Quit(JobUnknown)
      ensures calls <= old(calls) + 1 + ConfirmReads(timing)
      ensures old(LastCancels(jobs[j])) == 0 && LastCancels(jobs[j]) <= 1
    {
      var asked := SalvageCancel(j, task);
      if asked {
        ReadForSalvage(j, task);
      }
    }

    /** The salvage's confirming reads. */
    method ReadForSalvage(j: nat, task: Task)
      requires Valid() && InStepOf(j, task) && jobs[j].pc.SalvageConfirming? && task.walk.at == SalvageReads()
      modifies this, task
      ensures Valid() && old(trace) <= trace && Tracks(j, task) && jobs[j].pc == Ended(JobUnknown)
      ensures task.walk.at == Quit(JobUnknown)
      ensures calls <= old(calls) + ConfirmReads(timing) && LastCancels(jobs[j]) == old(LastCancels(jobs[j]))
    {
      var answer := ConfirmByReads(j, LATCH_CANCEL, task);
      EndSalvage(j, answer, task);
    }

    /** What the salvage's reads found is counted if it is consistent. */
    method EndSalvage(j: nat, answer: OrderAnswer, task: Task)
      requires Valid() && InStepOf(j, task) && jobs[j].pc.SalvageConfirming?
      requires answer.Seen? ==> Terminal(answer.seen.status) && Honest(answer.seen, LastOrder(jobs[j]))
      requires task.walk.at == if answer.Seen? then SettlingSalvage(answer.seen) else Quit(JobUnknown)
      modifies this, task
      ensures Valid() && old(trace) <= trace && Tracks(j, task) && jobs[j].pc == Ended(JobUnknown)
      ensures task.walk.at == Quit(JobUnknown)
      ensures calls == old(calls) && LastCancels(jobs[j]) == old(LastCancels(jobs[j]))
    {
      if answer.Seen? {
        InItsStep(j);
        SalvageFollows(jobs[j], answer.seen, task.cfg, task.walk);
        TakeSettled(j, SalvageConfirm(j, answer.seen), AfterSalvage(jobs[j], answer.seen), task);
      } else {
        GiveUpSalvage(j, task);
      }
    }

    method GiveUpSalvage(j: nat, task: Task)
      requires Valid() && Tracks(j, task) && jobs[j].Salvaging()
      modifies this
      ensures Valid() && old(trace) <= trace && Tracks(j, task) && calls == old(calls)
      ensures jobs[j] == old(jobs[j]).(pc := Ended(JobUnknown))
    {
      TakeTo(j, SalvageGiveUp(j), jobs[j].(pc := Ended(JobUnknown)), task);
    }

    /** The salvage's cancel; false when it was refused or raised and the job is over. */
    method SalvageCancel(j: nat, task: Task) returns (asked: bool)
      requires Valid() && InStepOf(j, task) && jobs[j].pc.SalvageDispatching? && task.walk.at == SalvageSend
      modifies this, task
      ensures Valid() && old(trace) <= trace && Tracks(j, task) && calls == old(calls) + 1
      ensures if asked then jobs[j].pc.SalvageConfirming? && InStepOf(j, task) else jobs[j].pc == Ended(JobUnknown)
      ensures task.walk.at == if asked then SalvageReads() else Quit(JobUnknown)
      ensures old(LastCancels(jobs[j])) == 0 && LastCancels(jobs[j]) <= 1
    {
      calls := calls + 1;
      InItsStep(j);
      var forwarded: bool := *;
      if forwarded {
        asked := ForwardSalvage(j, task);
      } else {
        asked := SkipSalvage(j, task);
      }
    }

    /** Nothing was sent: refused, raised, or not forwarded and still read. */
    method SkipSalvage(j: nat, task: Task) returns (asked: bool)
      requires Valid() && InStepOf(j, task) && jobs[j].pc.SalvageDispatching? && task.walk.at == SalvageSend
      modifies this, task
      ensures Valid() && old(trace) <= trace && Tracks(j, task) && calls == old(calls)
      ensures if asked then jobs[j].pc.SalvageConfirming? && InStepOf(j, task) else jobs[j].pc == Ended(JobUnknown)
      ensures task.walk.at == if asked then SalvageReads() else Quit(JobUnknown)
      ensures LastCancels(jobs[j]) == old(LastCancels(jobs[j]))
    {
      var refused: bool, raised: bool := *, *;
      asked := !refused && !raised;
      SeeTried(j, task, if raised then SendRaised(true) else NotSent(refused));
      ReadOrGiveUp(j, asked, task);
    }

    /** The salvage goes on to its reads, or gives up. */
    method ReadOrGiveUp(j: nat, asked: bool, task: Task)
      requires Valid() && InStepOf(j, task) && (jobs[j].pc.SalvageDispatching? || jobs[j].pc.SalvageSent?)
      modifies this
      ensures Valid() && old(trace) <= trace && InStepOf(j, task) && calls == old(calls)
      ensures jobs[j] == old(jobs[j]).(pc := if asked then SalvageConfirming else Ended(JobUnknown))
    {
      if asked {
        TakeTo(j, if jobs[j].pc.SalvageSent? then SalvageAnswered(j) else SalvageUnsent(j),
               jobs[j].(pc := SalvageConfirming), task);
      } else {
        GiveUpSalvage(j, task);
      }
    }

    method ForwardSalvage(j: nat, task: Task) returns (asked: bool)
      requires Valid() && InStepOf(j, task) && jobs[j].pc.SalvageDispatching? && task.walk.at == SalvageSend
      modifies this, task
      ensures Valid() && old(trace) <= trace && Tracks(j, task) && calls == old(calls)
      ensures if asked then jobs[j].pc.SalvageConfirming? && InStepOf(j, task) else jobs[j].pc == Ended(JobUnknown)
      ensures task.walk.at == if asked then SalvageReads() else Quit(JobUnknown)
      ensures LastCancels(jobs[j]) == old(LastCancels(jobs[j])) + 1
    {
      LeaveSalvage(j, task);
      asked := HearOfSalvage(j, task);
    }

    /** The salvage's cancel leaves. */
    method LeaveSalvage(j: nat, task: Task)
      requires Valid() && InStepOf(j, task) && jobs[j].pc.SalvageDispatching? && task.walk.at == SalvageSend
      modifies this, task
      ensures Valid() && old(trace) <= trace && calls == old(calls) && InStepOf(j, task)
      ensures jobs[j].pc.SalvageSent? && LastCancels(jobs[j]) == old(LastCancels(jobs[j])) + 1
      ensures task.walk.at == SalvageHear
    {
      ghost var next := WithCancelForwarded(jobs[j]).(pc := SalvageSent);
      ForwardedFollows(jobs[j], SalvageSent, task.cfg, task.walk);
      SeeTried(j, task, Sending.Sent);
      TakeTo(j, SalvageForward(j), next, task);
    }

    method HearOfSalvage(j: nat, task: Task) returns (asked: bool)
      requires Valid() && InStepOf(j, task) && jobs[j].pc.SalvageSent? && task.walk.at == SalvageHear
      modifies this, task
      ensures Valid() && old(trace) <= trace && Tracks(j, task) && calls == old(calls)
      ensures if asked then jobs[j].pc.SalvageConfirming? && InStepOf(j, task) else jobs[j].pc == Ended(JobUnknown)
      ensures task.walk.at == if asked then SalvageReads() else Quit(JobUnknown)
      ensures LastCancels(jobs[j]) == old(LastCancels(jobs[j]))
    {
      Pause(j, task);
      asked := *;
      SeeCancel(j, task, if asked then Heard(true) else CancelRaised(true));
      ReadOrGiveUp(j, asked, task);
    }

    /** `_run`: whatever the broker answers, the clock says, other tasks do, or raises, the
        job ends, after a bounded number of executor calls; its events are a legal run of the
        protocol, so every claim about runs holds of it. What it does, it does for what it reads:
        its facts are the script's, it ends as the script ends, and a job that ends neither filled
        nor at its last price ends on one of the source's reasons. Its orders are one for each price
        begun, in the ladder's order and at its prices, but for a last one kept from being sent. */
    method Run(j: nat, accepted: int) returns (task: Task)
      requires Valid() && j < |jobs| && jobs[j] == NewJob(jobs[j].id, jobs[j].request, jobs[j].prices)
      modifies this
      ensures Valid() && old(trace) <= trace && j < |jobs| && jobs[j].pc.Ended?
      ensures calls <= old(calls) + old(|jobs[j].prices|) * StepCalls(timing) + 1 + ConfirmReads(timing)
      ensures fresh(task) && task.cfg == ConfigOf(old(jobs[j]), timing, partialFillStops, accepted + timing.window)
      ensures Tracks(j, task) && Fold(task.cfg, task.log) == Some(task.walk) && task.walk.at == Quit(jobs[j].pc.status)
      ensures jobs[j].next < |jobs[j].prices| && jobs[j].filled < jobs[j].request.quantity ==>
                EndsOnAReason(task.cfg, task.log, jobs[j].next)
      ensures OrdersUpTheLadder(jobs[j], task.cfg, task.log)
    {
      task := RunTask(j, accepted);
      LeadsToFold(task.cfg, task.log, task.walks);
      EndsAsItReads(jobs[j], task.cfg, task.log, task.walk);
    }

    method RunTask(j: nat, accepted: int) returns (task: Task)
      requires Valid() && j < |jobs| && jobs[j] == NewJob(jobs[j].id, jobs[j].request, jobs[j].prices)
      modifies this
      ensures Valid() && old(trace) <= trace && j < |jobs| && jobs[j].pc.Ended?
      ensures calls <= old(calls) + old(|jobs[j].prices|) * StepCalls(timing) + 1 + ConfirmReads(timing)
      ensures fresh(task) && task.cfg == ConfigOf(old(jobs[j]), timing, partialFillStops, accepted + timing.window)
      ensures Tracks(j, task) && task.walk.at == Quit(jobs[j].pc.status)
    {
      WithinRequest(j);
      ghost var cfg := ConfigOf(jobs[j], timing, partialFillStops, accepted + timing.window);
      task := new Task(cfg, accepted + timing.window);
      var flow := Walk(j, task);
      if flow.Thrown? {
        EndCrashed(j, flow.failure, task);
      }
    }

    /** The exception handler of `_run`. */
    method EndCrashed(j: nat, failure: bool, task: Task)
      requires Valid() && Tracks(j, task) && jobs[j].Active() && !jobs[j].Salvaging()
      requires ScriptEnds(jobs[j], task.cfg, task.walk, Thrown(failure))
      modifies this, task
      ensures Valid() && old(trace) <= trace && Tracks(j, task) && jobs[j].pc == Ended(JobUnknown)
      ensures task.walk.at == Quit(JobUnknown) && calls <= old(calls) + 1 + ConfirmReads(timing)
    {
      var salvages := CrashJob(j, failure, task);
      if salvages {
        Salvage(j, task);
      }
    }

    /** The crash is noted: placement ends, and the step's order is to be cancelled if it may work. */
    method CrashJob(j: nat, failure: bool, task: Task) returns (salvages: bool)
      requires Valid() && Tracks(j, task) && jobs[j].Active() && !jobs[j].Salvaging()
      requires ScriptEnds(jobs[j], task.cfg, task.walk, Thrown(failure))
      modifies this, task
      ensures Valid() && old(trace) <= trace && Tracks(j, task) && calls == old(calls)
      ensures salvages ==> InStepOf(j, task) && jobs[j].pc.SalvageDispatching? && task.walk.at == SalvageSend
      ensures !salvages ==> jobs[j].pc == Ended(JobUnknown) && task.walk.at == Quit(JobUnknown)
    {
      ghost var was := jobs[j];
      salvages := NeedsSalvage(jobs[j]);
      SeeCrash(j, task);
      ghost var next := if salvages then WithCancelSent(was, true).(pc := SalvageDispatching)
                        else was.(pc := Ended(JobUnknown));
      TakeTo(j, Crash(j, failure), next, task);
    }

    // ---- What the session and the hooks call -----------------------------------------------

    /** The hooks' `check_work` and `reserve`: a request is admitted, and counts as work at
        once, or nothing changes. */
    method AdmitWork(id: nat, request: WorkRequest) returns (admitted: bool, ghost check: ConcurrencyView)
      requires Valid() && request.quantity > 0 && !IdTaken(State(), id)
      modifies this
      ensures Valid() && old(trace) <= trace && calls == old(calls)
      ensures reserved == old(reserved) + (if admitted then [Reservation(id, request)] else [])
      ensures State() == old(State()).(reserved := reserved)
      ensures admitted <==> && check.permitted && !stopRequested && !placementEnded
                            && Joins(old(State()), None, request, request.startPrice, request.quantity, check)
    {
      var view := OtherChecks();
      check := view;
      var joins, snapshotCash := MayJoinNow(None, request, request.startPrice, request.quantity, view);
      admitted := view.permitted && joins && !stopRequested && !placementEnded;
      if admitted {
        Take(Admit(id, request, snapshotCash));
      }
    }

    /** `start`: the reservation becomes a job that walks the planned prices, or is dropped. */
    method StartWork(id: nat, request: WorkRequest, maxSteps: int, ticks: TickSchedule) returns (started: bool)
      requires Valid() && ticks.Valid()
      modifies this
      ensures Valid() && old(trace) <= trace && calls == old(calls)
      ensures reserved == WithoutReservation(old(reserved), id)
      ensures !started ==> jobs == old(jobs)
      ensures started <==>
                && (exists r :: 0 <= r < |old(reserved)| && old(reserved)[r] == Reservation(id, request))
                && !(exists j :: 0 <= j < |old(jobs)| && old(jobs)[j].id == id)
                && Plannable(request.startPrice, request.worstPrice, maxSteps, request.side, ticks)
      ensures started ==> && |jobs| == |old(jobs)| + 1 && jobs[..|old(jobs)|] == old(jobs)
                          && jobs[|old(jobs)|] == NewJob(id, request, jobs[|old(jobs)|].prices)
                          && request.quantity > 0 && |jobs[|old(jobs)|].prices| <= maxSteps
                          && Ladder(jobs[|old(jobs)|].prices, request.startPrice, request.worstPrice, request.side, ticks)
    {
      var known := exists r :: 0 <= r < |reserved| && reserved[r].id == id && reserved[r].request == request;
      var again := exists j :: 0 <= j < |jobs| && jobs[j].id == id;
      var prices := StepPrices(request.startPrice, request.worstPrice, maxSteps, request.side, ticks);
      if again || !known || prices.None? {
        Take(Release(id));
        return false;
      }
      LadderIsPlanned(request, prices.value, ticks);
      StartJob(id, request, prices.value);
      return true;
    }

    method StartJob(id: nat, request: WorkRequest, prices: seq<nat>)
      requires Valid() && Planned(request, prices)
      requires exists r :: 0 <= r < |reserved| && reserved[r].id == id && reserved[r].request == request
      requires !exists j :: 0 <= j < |jobs| && jobs[j].id == id
      modifies this
      ensures Valid() && old(trace) <= trace && calls == old(calls)
      ensures reserved == WithoutReservation(old(reserved), id)
      ensures jobs == old(jobs) + [NewJob(id, request, prices)] && request.quantity > 0
    {
      ReachedLegally(origin, trace, State());
      ghost var r :| 0 <= r < |reserved| && reserved[r].id == id && reserved[r].request == request;
      ReservationOf(State(), id, r);
      Take(Start(id, prices));
    }

    /** `halt`: the session has ended. */
    method HaltJobs()
      requires Valid()
      modifies this
      ensures Valid() && State() == old(State()).(halted := true)
    {
      Take(Halt);
    }
  }

  lemma OnlyTheGateOpensTheWindow(s: RunState, e: Event)
    requires Enabled(s, e) && Inv(s) && !s.Sending() && !e.PassGate?
    ensures !Apply(s, e).Sending()
  {
    if JobEvent(e) {
      SharedAfter(s, e);
      OnlyTheGateClears(s, e);
      NoneCleared(s, JobApply(s, e), e);
    } else {
      NotSendingKept(s, e);
    }
  }

  /** The send closes the window. */
  lemma SendClosesTheWindow(s: RunState, j: nat)
    requires Inv(s) && j < |s.jobs| && s.jobs[j].pc.Cleared?
    ensures Enabled(s, ForwardPlace(j)) && !Apply(s, ForwardPlace(j)).Sending()
    ensures Apply(s, ForwardPlace(j)).jobs == s.jobs[j := Forwarded(s.jobs[j])]
  {
    assert JobInv(s.jobs[j]) && s.lockHolder == Some(j);
    SharedAfter(s, ForwardPlace(j));
  }

  lemma AnotherRound(round: nat, cost: nat)
    ensures (round + 1) * cost == round * cost + cost
  { }

  function LastOrder(job: Job): BrokerOrder
    requires |job.orders| > 0
  {
    job.orders[|job.orders| - 1]
  }

  function LastStep(job: Job): Step
    requires |job.steps| > 0
  {
    job.steps[|job.steps| - 1]
  }

  /** The same walk of the same job: only the current step and the orders moved. */
  predicate SameWalk(a: Job, b: Job) {
    && SameRequest(a, b)
    && b.filled == a.filled && |b.steps| == |a.steps| && |b.orders| == |a.orders|
  }

  predicate SameRequest(a: Job, b: Job) {
    b.request == a.request && b.prices == a.prices && b.next == a.next
  }

  predicate SameStep(a: Job, b: Job) { SameWalk(a, b) && b.steps == a.steps }

  /** The same job, but for where it is and which step it is at. */
  predicate SameJob(a: Job, b: Job) {
    b.request == a.request && b.prices == a.prices && b.filled == a.filled && b.steps == a.steps
  }

  /** The executor's cancels of the job's last order that reached the broker. */
  function LastCancels(job: Job): nat { if |job.orders| > 0 then LastOrder(job).cancels else 0 }

  predicate LastSent(job: Job) { |job.steps| > 0 && LastStep(job).cancelSent }

  /** A crash of the job now would be followed by a salvage. */
  predicate NeedsSalvage(job: Job) { job.MayBeWorking() && !LastSent(job) }

  /** The job's last step is its last order's, is known to the broker, and has counted nothing. */
  predicate HasStep(job: Job) {
    && |job.steps| == |job.orders| > 0
    && LastStep(job).known && LastStep(job).filled == 0 && LastStep(job).quantity == LastOrder(job).quantity
    && (job.pc.Dispatching? || job.pc.SalvageDispatching? ==> LastCancels(job) == 0 && LastSent(job))
  }

  /** A job whose place was just answered. */
  predicate PlacedNow(job: Job, placed: Observation) {
    && (job.pc.Polling? || job.pc.Mismatched?)
    && |job.steps| == |job.orders| > 0
    && LastStep(job).status == placed.status && LastStep(job).known && !LastStep(job).cancelSent
    && Honest(placed, LastOrder(job))
  }

  predicate Watches(job: Job, order: Observation) {
    && job.pc.Polling? && |job.steps| == |job.orders| > 0 && !LastStep(job).cancelSent
    && Honest(order, LastOrder(job))
    && (!Terminal(order.status) ==> !Terminal(LastStep(job).status))
  }

  /** How a step leaves the job: settled and going on, ended, or with an exception raised
      while it was still running. */
  predicate StepEnds(a: Job, b: Job, flow: Flow) {
    && SameRequest(a, b)
    && (flow.Going? ==> b.pc.Ready? && |b.steps| > 0)
    && (flow.Over? ==> b.pc.Ended?)
    && (flow.Thrown? ==> b.Active() && !b.Salvaging())
  }

  // ---- The job and its script ---------------------------------------------------------------

  function ConfigOf(job: Job, timing: WalkTiming, partialFillStops: bool, windowEnd: int): Config {
    Config(job.prices, job.request.side, job.request.quantity, timing, partialFillStops, windowEnd)
  }

  predicate Follows(job: Job, cfg: Config, w: Walk) {
    && cfg.prices == job.prices && cfg.side == job.request.side && cfg.quantity == job.request.quantity
    && w.k == job.next && w.filled == job.filled && OrdersAre(job.orders, w.places)
  }

  lemma RelyFollows(a: Job, b: Job, cfg: Config, w: Walk)
    requires SameRecord(a, b) && Follows(a, cfg, w)
    ensures Follows(b, cfg, w)
  { }

  lemma ReadsKeepCounts(cfg: Config, w: Walk, fact: Fact)
    requires NextWalk(cfg, w, fact).Some? && !fact.Began? && !fact.PlaceForwarded? && !fact.Settles?
    ensures var next := NextWalk(cfg, w, fact).value; next.k == w.k && next.filled == w.filled && next.places == w.places
  { }

  lemma ForwardedFollows(job: Job, pc: Pc, cfg: Config, w: Walk)
    requires |job.orders| > 0 && Follows(job, cfg, w)
    ensures Follows(WithCancelForwarded(job).(pc := pc), cfg, w)
    ensures LastCancels(WithCancelForwarded(job).(pc := pc)) == LastCancels(job) + 1
  { }

  lemma FinalIs(job: Job, cfg: Config)
    requires cfg.quantity == job.request.quantity
    ensures job.Final() == EndStatus(cfg, job.filled)
  { }

  /** The last order is for what was left when it was placed. */
  predicate ForWhatIsLeft(job: Job, cfg: Config, w: Walk) {
    |job.orders| > 0 && LastOrder(job).quantity == Left(cfg, w.filled)
  }

  /** The last order is the step's price. */
  predicate LastPrice(job: Job, cfg: Config, w: Walk) {
    && |job.orders| > 0 && 0 < w.k <= |cfg.prices|
    && LastOrder(job).price == cfg.prices[w.k - 1]
  }

  /** The checks before a step are passed. */
  function CheckedAt(at: At): At { if at.LockStop? then LockWork(at.started) else Beginning }

  /** The job was ended where it was, as its task was. */
  predicate Closed(a: Job, b: Job, at: At) { b.pc.Ended? && b == a.(pc := b.pc) && at == Quit(b.pc.status) }

  /** After a step that did not end the job. */
  function NextAt(cfg: Config, w: Walk): At {
    if w.k == |cfg.prices| then Quit(EndStatus(cfg, w.filled)) else HeadStop
  }

  /** Between two steps, not filled. */
  predicate AtHead(job: Job, cfg: Config, w: Walk) {
    job.pc.Ready? && job.filled < job.request.quantity && w.at == NextAt(cfg, w)
  }

  /** After some steps: between two, or done. */
  predicate StepsDone(job: Job, cfg: Config, w: Walk, flow: Flow) {
    if flow.Going? then AtHead(job, cfg, w)
    else ScriptEnds(job, cfg, w, flow) && (flow.Thrown? ==> job.Active() && !job.Salvaging())
  }

  function ConfirmTimeOr(c: Confirmation, deadline: int, left: nat): At {
    if left > 0 then ConfirmTime(c, deadline, left) else Quit(JobUnknown)
  }

  /** The script's part of how a step leaves the job. */
  predicate ScriptEnds(job: Job, cfg: Config, w: Walk, flow: Flow) {
    match flow
    case Going => |job.steps| > 0 && w.at == AfterAt(cfg, w.filled, LastStep(job).status.Rejected?)
    case Over => job.pc.Ended? && w.at == Quit(job.pc.status)
    case Thrown(failure) =>
      && w.at == Raising(failure, NeedsSalvage(job))
      && (NeedsSalvage(job) ==> ForWhatIsLeft(job, cfg, w))
  }

  /** One order for each price begun, in the ladder's order, at its price, and for no more than the
      request; only the last may be missing, and then the last fact kept it from being sent. */
  predicate OrdersUpTheLadder(job: Job, cfg: Config, log: seq<Fact>) {
    && |job.orders| <= job.next <= |job.prices|
    && (forall i :: 0 <= i < |job.orders| ==>
          job.orders[i].price == job.prices[i] && job.orders[i].quantity <= job.request.quantity)
    && (|job.orders| < job.next ==>
          |job.orders| == job.next - 1 && log != [] && KeepsFromSending(cfg, log[|log| - 1], job.next))
  }

  lemma EndsAsItReads(job: Job, cfg: Config, log: seq<Fact>, w: Walk)
    requires Follows(job, cfg, w) && Fold(cfg, log) == Some(w) && w.at.Quit?
    ensures job.next < |job.prices| && job.filled < job.request.quantity ==> EndsOnAReason(cfg, log, job.next)
    ensures OrdersUpTheLadder(job, cfg, log)
  {
    BegunPricesAreSent(cfg, log);
    if job.next < |job.prices| && job.filled < job.request.quantity {
      EndsForAReason(cfg, log);
    }
    forall i | 0 <= i < |job.orders|
      ensures job.orders[i].price == job.prices[i] && job.orders[i].quantity <= job.request.quantity
    {
      assert w.places[i] == Place(job.orders[i].price, job.orders[i].quantity);
    }
  }

  // ---- A cancel ------------------------------------------------------------------------------

  /** What the watch of an order comes to after a poll. */
  predicate WatchedAs(flow: Flow, next: Observation, watching: bool, watcher: Watcher, at: At) {
    && !flow.Over? && (watching ==> flow.Going? && !Terminal(next.status))
    && (flow.Thrown? ==> at == Raising(flow.failure, true) && !Terminal(next.status))
    && (flow.Going? ==> at == if watching then Watch(watcher.(seen := next)) else UnwatchedAt(next))
  }

  /** A terminal read of this order, an exception, or nothing. */
  predicate ReadTerminal(answer: OrderAnswer, order: BrokerOrder) {
    answer.Seen? ==> Terminal(answer.seen.status) && Honest(answer.seen, order)
  }

  function ReadingAt(c: Confirmation, deadline: int, left: nat, done: bool, answer: OrderAnswer): At {
    if done then ConfirmedAt(c, answer) else ConfirmTimeOr(c, deadline, left)
  }

  /** The job's cancel is marked as sent, and is not yet. */
  predicate Held(job: Job) {
    job.pc.Dispatching? && job.MayBeWorking() && LastSent(job) && LastCancels(job) == 0
  }

  predicate Cancelling(job: Job, at: At) { Held(job) && at == CancelSend(job.pc.strict, job.pc.stopping) }

  /** The cancel came back, and the order is read next. */
  predicate HeardOf(job: Job, strict: bool, stopping: bool, at: At) {
    && job.pc.Confirming? && job.pc.strict == strict
    && at == ConfirmStart(Confirmation(if job.pc.accepted then Accepted else Unaccepted(true), strict, Duration(stopping)))
  }

  predicate CancelHeardAs(b: Job, strict: bool, stopping: bool, sending: Sending, at: At) {
    match sending
    case NotSent(_) => false
    case Sent => HeardOf(b, strict, stopping, at)
    case SendRaised(failure) => b.pc.CancelSent? && at == Raising(failure, false)
  }

  lemma ForwardedIsTried(a: Job, c: Job, sending: Sending, at: At)
    requires Held(a) && |a.orders| > 0
    requires var b := WithCancelForwarded(a).(pc := CancelSent(a.pc.strict));
             SameStep(b, c) && LastCancels(c) == LastCancels(b)
    requires CancelHeardAs(c, a.pc.strict, a.pc.stopping, sending, at)
    ensures CancelTriedAs(a, c, sending, at)
  { }

  /** The cancel was not sent, and the latch has fallen since: it goes out in the after-stop form. */
  predicate ToBeSentAgain(a: Job, b: Job, at: At) {
    && a.pc.Dispatching? && SameStep(a, b) && !a.pc.stopping && LastCancels(a) == 0
    && Cancelling(b, at) && b.pc.stopping && b.pc.strict == a.pc.strict
  }

  /** What a try to send the cancel leaves. */
  predicate CancelTriedAs(a: Job, b: Job, sending: Sending, at: At) {
    && a.pc.Dispatching? && SameStep(a, b)
    && match sending
       case NotSent(refused) => at == UnsentAt(a.pc.strict, refused, a.pc.stopping)
       case Sent => HeardOf(b, a.pc.strict, a.pc.stopping, at) && LastCancels(b) == LastCancels(a) + 1
       case SendRaised(failure) =>
         && at == Raising(failure, false) && (b.pc.CancelSent? || b.pc.Dispatching?)
         && LastCancels(b) == LastCancels(a) + if b.pc.CancelSent? then 1 else 0
  }

  /** The job reads its order after its cancel, for the cause its record says. */
  predicate ConfirmsCancel(job: Job, at: At, duration: nat) {
    && job.pc.Confirming? && job.MayBeWorking() && (job.pc.accepted ==> LastSent(job))
    && at == ConfirmStart(Confirmation(if job.pc.accepted then Accepted else Unaccepted(LastSent(job)),
                                       job.pc.strict, duration))
  }

  /** What the cancel's sends leave: at most one reached the broker. */
  predicate CancelLeaves(a: Job, b: Job, flow: Flow, stopping: bool, at: At) {
    && a.pc.Dispatching? && SameWalk(a, b) && LastCancels(a) == 0 && LastCancels(b) <= 1
    && match flow
       case Going => b.pc.Confirming? && b.pc.strict == a.pc.strict && ConfirmsCancel(b, at, Duration(stopping))
       case Over => b.pc == Ended(JobUnknown) && at == Quit(JobUnknown) && LastCancels(b) == 0
       case Thrown(failure) =>
         && (b.pc.CancelSent? || b.pc.Dispatching?) && at == Raising(failure, false) && LastSent(b)
         && (b.pc.Dispatching? ==> LastCancels(b) == 0)
  }

  /** The job after a cancel that was not sent; `again`: the latch fell meanwhile. */
  function UnsentJob(job: Job, refused: bool, again: bool): Job
    requires Held(job)
  {
    if again then job.(pc := Dispatching(true, job.pc.strict))
    else WithCancelSent(job, false).(pc := if refused then Ended(JobUnknown) else Confirming(false, job.pc.strict))
  }

  function UnsentNext(strict: bool, refused: bool, stopping: bool, again: bool): At {
    if again then CancelSend(strict, true)
    else if refused then Quit(JobUnknown)
    else ConfirmStart(Confirmation(Unaccepted(false), strict, Duration(stopping)))
  }

  lemma UnsentLeaves(job: Job, refused: bool, again: bool)
    requires Held(job)
    ensures var next, at := UnsentJob(job, refused, again), UnsentNext(job.pc.strict, refused, job.pc.stopping, again);
            if again then !job.pc.stopping ==> ToBeSentAgain(job, next, at)
            else CancelLeaves(job, next, if refused then Over else Going, job.pc.stopping, at)
  { }

  // ---- What an answer makes of the job and of its script ------------------------------------

  lemma MatchesAlike(seen: Observation, price: nat, quantity: nat)
    ensures PlacedMatches(seen, price, quantity) <==> Ours(seen, price, quantity)
  { }

  function PlacedJob(job: Job, placed: Observation): Job
    requires |job.orders| > 0
  {
    var order := LastOrder(job);
    job.(pc := if PlacedMatches(placed, order.price, order.quantity) then Polling else Mismatched,
         steps := job.steps + [Step(order.price, order.quantity, true, placed.status, 0, false)])
  }

  function LostJob(job: Job): Job
    requires |job.orders| > 0
  {
    var order := LastOrder(job);
    job.(pc := Ended(JobUnknown),
         steps := job.steps + [Step(order.price, order.quantity, false, StatusUnknown, 0, false)])
  }

  /** The protocol counts a terminal order's fills as the script does. */
  lemma SettlesAlike(job: Job, cfg: Config, w: Walk, seen: Observation, strict: bool)
    requires HasStep(job) && ForWhatIsLeft(job, cfg, w)
    ensures Countable(seen, LastStep(job), strict) <==> FillsAgree(seen, Left(cfg, w.filled), strict)
  { }

  lemma SettleFollows(job: Job, seen: Observation, strict: bool, cfg: Config, w: Walk)
    requires HasStep(job) && ForWhatIsLeft(job, cfg, w) && Follows(job, cfg, w) && w.at == Settling(seen, strict)
    ensures OnSettles(cfg, w).Some?
    ensures var next, then_ := AfterSettle(job, seen, strict), OnSettles(cfg, w).value;
            && Follows(next, cfg, then_)
            && (next.pc.Ready? <==> strict && Countable(seen, LastStep(job), true))
            && StepEnds(job, next, if next.pc.Ready? then Going else Over)
            && ScriptEnds(next, cfg, then_, if next.pc.Ready? then Going else Over)
            && next.filled == job.filled + (if Countable(seen, LastStep(job), strict) then seen.processed else 0)
            && (!next.pc.Ready? ==> next.pc == Ended(JobUnknown))
  {
    SettlesAlike(job, cfg, w, seen, strict);
  }

  lemma UnacceptedFollows(job: Job, seen: Observation, cfg: Config, w: Walk)
    requires HasStep(job) && ForWhatIsLeft(job, cfg, w) && Follows(job, cfg, w) && w.at == SettlingUnaccepted(seen)
    ensures OnSettles(cfg, w).Some?
    ensures var next, then_ := AfterUnacceptedCancel(job, seen), OnSettles(cfg, w).value;
            && Follows(next, cfg, then_) && SameRequest(job, next)
            && next.pc.Ended? && then_.at == Quit(next.pc.status)
  {
    SettlesAlike(job, cfg, w, seen, true);
  }

  lemma SalvageFollows(job: Job, seen: Observation, cfg: Config, w: Walk)
    requires HasStep(job) && ForWhatIsLeft(job, cfg, w) && Follows(job, cfg, w) && w.at == SettlingSalvage(seen)
    ensures OnSettles(cfg, w).Some?
    ensures var next, then_ := AfterSalvage(job, seen), OnSettles(cfg, w).value;
            && Follows(next, cfg, then_) && next.orders == job.orders
            && next.pc == Ended(JobUnknown) && then_.at == Quit(JobUnknown)
  {
    SettlesAlike(job, cfg, w, seen, true);
  }
}
