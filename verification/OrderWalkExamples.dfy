/** Runs that show what the order walk's documented rules do not give, each reached from a fresh
    run with one request to buy one contract back. */
module OrderWalkExamples {
  import opened Optionals
  import opened OrderConcurrency
  import opened WalkSchedule
  import opened OrderWalk
  import opened OrderWalkRuns

  // ---- Putting runs together ---------------------------------------------------------------

  predicate Leads(s: RunState, events: seq<Event>, t: RunState) {
    Legal(s, events) && After(s, events) == t
  }

  predicate Goes(s: RunState, e: Event, t: RunState) { Enabled(s, e) && Apply(s, e) == t }

  lemma LeadsFirst(s: RunState, e: Event, t: RunState, events: seq<Event>, u: RunState)
    requires Goes(s, e, t) && Leads(t, events, u)
    ensures Leads(s, [e] + events, u)
  {
    assert ([e] + events)[1..] == events;
  }

  lemma {:induction false} LeadsOn(s: RunState, a: seq<Event>, t: RunState, b: seq<Event>, u: RunState)
    requires Leads(s, a, t) && Leads(t, b, u)
    ensures Leads(s, a + b, u)
    decreases |a|
  {
    if a == [] {
      assert a + b == b;
    } else {
      assert (a + b)[1..] == a[1..] + b;
      LeadsOn(Apply(s, a[0]), a[1..], t, b, u);
    }
  }

  lemma LeadsNowhere(s: RunState)
    ensures Leads(s, [], s)
  { }

  // ---- One job on its way to its place -----------------------------------------------------

  const BUYBACK := WorkRequest(7, BuyToClose, 1, 100, 100)

  const START := Fresh(map[], [], [])

  const PLACED_ORDER := BrokerOrder(100, 1, 0, false, 0, 0)

  const CONFIRMED := Observation(Placed, 1, 0, Some(100), true)

  function JobAt(pc: Pc, steps: seq<Step>, orders: seq<BrokerOrder>): Job {
    Job(0, BUYBACK, [100], 1, pc, steps, 0, orders)
  }

  function StepSent(cancelSent: bool): Step { Step(100, 1, true, Placed, 0, cancelSent) }

  function Holding(job: Job): RunState { START.(jobs := [job], lockHolder := Some(0)) }

  function Running(job: Job): RunState { START.(jobs := [job]) }

  const LOCKS := Holding(JobAt(Locked, [], []))

  const TO_THE_LOCK := [Admit(0, BUYBACK, 0), Start(0, [100]), BeginStep(0), AskForLock(0), AcquireLock(0)]

  const RESERVED := START.(reserved := [Reservation(0, BUYBACK)])

  lemma Admits()
    ensures Goes(START, Admit(0, BUYBACK, 0), RESERVED)
  { }

  lemma Starts()
    ensures Goes(RESERVED, Start(0, [100]), Running(NewJob(0, BUYBACK, [100])))
  {
    assert RESERVED.reserved[0].id == 0 && Planned(RESERVED.reserved[0].request, [100]);
    assert RESERVED.reserved[..0] == [];
    assert WithoutReservation(RESERVED.reserved, 0) == [];
  }

  lemma Begins()
    ensures Goes(Running(NewJob(0, BUYBACK, [100])), BeginStep(0), Running(JobAt(Preparing, [], [])))
  { }

  lemma Asks()
    ensures Goes(Running(JobAt(Preparing, [], [])), AskForLock(0), Running(JobAt(WaitingLock, [], [])))
  { }

  lemma TakesTheLock()
    ensures Goes(Running(JobAt(WaitingLock, [], [])), AcquireLock(0), LOCKS)
  { }

  lemma ReachesTheLock()
    ensures Leads(START, TO_THE_LOCK, LOCKS)
  {
    TakesTheLock(); Asks(); Begins(); Starts(); Admits();
    LeadsNowhere(LOCKS);
    LeadsFirst(Running(JobAt(WaitingLock, [], [])), AcquireLock(0), LOCKS, [], LOCKS);
    LeadsFirst(Running(JobAt(Preparing, [], [])), AskForLock(0), Running(JobAt(WaitingLock, [], [])),
               [AcquireLock(0)], LOCKS);
    LeadsFirst(Running(NewJob(0, BUYBACK, [100])), BeginStep(0), Running(JobAt(Preparing, [], [])),
               [AskForLock(0), AcquireLock(0)], LOCKS);
    LeadsFirst(RESERVED, Start(0, [100]), Running(NewJob(0, BUYBACK, [100])),
               [BeginStep(0), AskForLock(0), AcquireLock(0)], LOCKS);
    LeadsFirst(START, Admit(0, BUYBACK, 0), RESERVED,
               [Start(0, [100]), BeginStep(0), AskForLock(0), AcquireLock(0)], LOCKS);
  }

  lemma GatePasses(s: RunState)
    requires s == LOCKS.(halted := s.halted)
    ensures Goes(s, PassGate(0, 0), s.(jobs := [JobAt(Cleared(0), [], [])]))
  {
    assert s.jobs[..0] == [];
    assert OtherWork(s, Some(0)) == [];
  }

  lemma PlaceLeaves(s: RunState)
    requires s == Holding(JobAt(Cleared(0), [], [])).(halted := s.halted, stop := s.stop)
    ensures Goes(s, ForwardPlace(0), s.(jobs := [JobAt(Placing, [], [PLACED_ORDER])]))
  {
    assert s.jobs[..0] == [];
    assert OtherWork(s, Some(0)) == [];
    assert JobAfter(s, ForwardPlace(0)) == JobAt(Placing, [], [PLACED_ORDER]);
  }

  // ---- A place after the end of the session, and after the stop latch ------------------------

  lemma ReachesTheHalt()
    ensures Leads(START, TO_THE_LOCK + [Halt], LOCKS.(halted := true))
  {
    var halted := LOCKS.(halted := true);
    ReachesTheLock();
    LeadsNowhere(halted);
    LeadsFirst(LOCKS, Halt, halted, [], halted);
    LeadsOn(START, TO_THE_LOCK, LOCKS, [Halt], halted);
  }

  lemma PlacesAfterTheHalt()
    ensures var halted := LOCKS.(halted := true);
            Leads(halted, [PassGate(0, 0), ForwardPlace(0)], halted.(jobs := [JobAt(Placing, [], [PLACED_ORDER])]))
  {
    var halted := LOCKS.(halted := true);
    var cleared := halted.(jobs := [JobAt(Cleared(0), [], [])]);
    var placed := halted.(jobs := [JobAt(Placing, [], [PLACED_ORDER])]);
    GatePasses(halted); PlaceLeaves(cleared);
    LeadsNowhere(placed);
    LeadsFirst(cleared, ForwardPlace(0), placed, [], placed);
    LeadsFirst(halted, PassGate(0, 0), cleared, [ForwardPlace(0)], placed);
  }

  /** `halt` does not keep a job from placing anything more: the one that holds the lock places. */
  lemma HaltLetsOnePlaceLeave()
    ensures Leads(START, TO_THE_LOCK + [Halt], LOCKS.(halted := true))
    ensures Legal(LOCKS.(halted := true), [PassGate(0, 0), ForwardPlace(0)])
    ensures CountPlaces([PassGate(0, 0), ForwardPlace(0)]) == 1
  {
    ReachesTheHalt();
    PlacesAfterTheHalt();
    assert [PassGate(0, 0), ForwardPlace(0)][1..] == [ForwardPlace(0)];
  }

  /** The stop latch set between the checks of a place and its send does not stop the send. */
  lemma StopLetsOnePlaceLeave()
    ensures var s := Holding(JobAt(Cleared(0), [], [])).(stop := true);
            && Leads(START, TO_THE_LOCK + [PassGate(0, 0), RequestStop], s)
            && Legal(s, [ForwardPlace(0)]) && CountPlaces([ForwardPlace(0)]) == 1
  {
    var cleared := Holding(JobAt(Cleared(0), [], []));
    var stopped := cleared.(stop := true);
    var placed := stopped.(jobs := [JobAt(Placing, [], [PLACED_ORDER])]);
    ReachesTheLock();
    GatePasses(LOCKS);
    LeadsNowhere(stopped);
    LeadsFirst(cleared, RequestStop, stopped, [], stopped);
    LeadsFirst(LOCKS, PassGate(0, 0), cleared, [RequestStop], stopped);
    LeadsOn(START, TO_THE_LOCK, LOCKS, [PassGate(0, 0), RequestStop], stopped);
    PlaceLeaves(stopped);
    LeadsNowhere(placed);
    LeadsFirst(stopped, ForwardPlace(0), placed, [], placed);
  }

  // ---- A working order and its cancels -----------------------------------------------------

  const WATCHED := Running(JobAt(Polling, [StepSent(false)], [PLACED_ORDER]))

  const TO_THE_ORDER := TO_THE_LOCK + [PassGate(0, 0), ForwardPlace(0), PlaceAnswered(0, CONFIRMED)]

  lemma Answers()
    ensures Goes(Holding(JobAt(Placing, [], [PLACED_ORDER])), PlaceAnswered(0, CONFIRMED), WATCHED)
  {
    var s := Holding(JobAt(Placing, [], [PLACED_ORDER]));
    assert JobAfter(s, PlaceAnswered(0, CONFIRMED)) == JobAt(Polling, [StepSent(false)], [PLACED_ORDER]);
  }

  lemma ReachesTheOrder()
    ensures Leads(START, TO_THE_ORDER, WATCHED)
  {
    var cleared := Holding(JobAt(Cleared(0), [], []));
    var placing := Holding(JobAt(Placing, [], [PLACED_ORDER]));
    ReachesTheLock();
    GatePasses(LOCKS); PlaceLeaves(cleared); Answers();
    LeadsNowhere(WATCHED);
    LeadsFirst(placing, PlaceAnswered(0, CONFIRMED), WATCHED, [], WATCHED);
    LeadsFirst(cleared, ForwardPlace(0), placing, [PlaceAnswered(0, CONFIRMED)], WATCHED);
    LeadsFirst(LOCKS, PassGate(0, 0), cleared, [ForwardPlace(0), PlaceAnswered(0, CONFIRMED)], WATCHED);
    LeadsOn(START, TO_THE_LOCK, LOCKS, [PassGate(0, 0), ForwardPlace(0), PlaceAnswered(0, CONFIRMED)], WATCHED);
  }

  const TO_CANCEL := Running(JobAt(Dispatching(false, true), [StepSent(true)], [PLACED_ORDER]))

  lemma StartsCancel()
    ensures Goes(WATCHED, StartCancel(0), TO_CANCEL)
  {
    assert JobAfter(WATCHED, StartCancel(0)) == TO_CANCEL.jobs[0];
  }

  const UNSENT := Running(JobAt(Ended(JobUnknown), [StepSent(true)], [PLACED_ORDER])).(placementEnded := true)

  lemma Crashes()
    ensures Goes(TO_CANCEL, Crash(0, false), UNSENT)
  {
    assert JobAfter(TO_CANCEL, Crash(0, false)) == UNSENT.jobs[0];
  }

  /** A crashed job's working order does not always get its one cancel: here the cancel raised
      before it left, and the salvage took it for sent. */
  lemma CrashLeavesOrderUncancelled()
    ensures Leads(START, TO_THE_ORDER + [StartCancel(0), Crash(0, false)], UNSENT)
    ensures UNSENT.jobs[0].MayBeWorking() && !UNSENT.jobs[0].orders[0].closed && UNSENT.jobs[0].orders[0].cancels == 0
  {
    ReachesTheOrder();
    StartsCancel(); Crashes();
    LeadsNowhere(UNSENT);
    LeadsFirst(TO_CANCEL, Crash(0, false), UNSENT, [], UNSENT);
    LeadsFirst(WATCHED, StartCancel(0), TO_CANCEL, [Crash(0, false)], UNSENT);
    LeadsOn(START, TO_THE_ORDER, WATCHED, [StartCancel(0), Crash(0, false)], UNSENT);
  }

  const CANCELLED_ONCE := PLACED_ORDER.(cancels := 1)

  const CANCEL_OUT := Running(JobAt(CancelSent(true), [StepSent(true)], [CANCELLED_ONCE]))

  const CANCEL_HEARD := Running(JobAt(Confirming(true, true), [StepSent(true)], [CANCELLED_ONCE]))

  const GIVEN_UP := Running(JobAt(Ended(JobUnknown), [StepSent(true)], [CANCELLED_ONCE])).(placementEnded := true)

  lemma CancelLeaves()
    ensures Goes(TO_CANCEL, ForwardCancel(0), CANCEL_OUT)
  {
    assert JobAfter(TO_CANCEL, ForwardCancel(0)) == CANCEL_OUT.jobs[0];
  }

  lemma CancelIsHeard()
    ensures Goes(CANCEL_OUT, CancelAnswered(0, true), CANCEL_HEARD)
  { }

  lemma GivesUp()
    ensures Goes(CANCEL_HEARD, GiveUp(0), GIVEN_UP)
  { }

  const TO_THE_END := [StartCancel(0), ForwardCancel(0), CancelAnswered(0, true), GiveUp(0)]

  lemma CancelledAndGivenUp()
    ensures Leads(WATCHED, TO_THE_END, GIVEN_UP)
  {
    StartsCancel(); CancelLeaves(); CancelIsHeard(); GivesUp();
    LeadsNowhere(GIVEN_UP);
    LeadsFirst(CANCEL_HEARD, GiveUp(0), GIVEN_UP, [], GIVEN_UP);
    LeadsFirst(CANCEL_OUT, CancelAnswered(0, true), CANCEL_HEARD, [GiveUp(0)], GIVEN_UP);
    LeadsFirst(TO_CANCEL, ForwardCancel(0), CANCEL_OUT, [CancelAnswered(0, true), GiveUp(0)], GIVEN_UP);
    LeadsFirst(WATCHED, StartCancel(0), TO_CANCEL, [ForwardCancel(0), CancelAnswered(0, true), GiveUp(0)], GIVEN_UP);
  }

  const TWICE := GIVEN_UP.(jobs := [GIVEN_UP.jobs[0].(orders := [CANCELLED_ONCE.(agentCancels := 1)])])

  lemma AgentIsLetIn()
    ensures Goes(GIVEN_UP, AgentCancel(0, 0), TWICE)
  {
    assert SharedApply(GIVEN_UP, AgentCancel(0, 0)).jobs[0] == TWICE.jobs[0];
  }

  /** One order can get two cancels: the executor's own, and the agent's after the job ended. */
  lemma AgentCancelsAgain()
    ensures Leads(START, TO_THE_ORDER + TO_THE_END + [AgentCancel(0, 0)], TWICE)
    ensures TWICE.jobs[0].orders[0].cancels == 1 && TWICE.jobs[0].orders[0].agentCancels == 1
  {
    ReachesTheOrder(); CancelledAndGivenUp(); AgentIsLetIn();
    LeadsOn(START, TO_THE_ORDER, WATCHED, TO_THE_END, GIVEN_UP);
    LeadsNowhere(TWICE);
    LeadsFirst(GIVEN_UP, AgentCancel(0, 0), TWICE, [], TWICE);
    LeadsOn(START, TO_THE_ORDER + TO_THE_END, GIVEN_UP, [AgentCancel(0, 0)], TWICE);
  }
}
