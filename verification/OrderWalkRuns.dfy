/** The safety claims of the order walk over whole runs: any number of jobs, any
    interleaving, any broker answers, stops, crashes, and lost responses. */
module OrderWalkRuns {
  import opened Optionals
  import opened OrderConcurrency
  import opened WalkSchedule
  import opened OrderWalk
  import opened OrderWalkJob
  import opened OrderWalkSafety

  /** Every state of every run keeps the invariant. */
  lemma {:induction false} RunKeepsInv(s: RunState, events: seq<Event>)
    requires Legal(s, events) && Inv(s)
    ensures Inv(After(s, events))
    decreases |events|
  {
    if events != [] {
      EventKeepsInv(s, events[0]);
      RunKeepsInv(Apply(s, events[0]), events[1..]);
    }
  }

  lemma ReachedInv(origin: RunState, events: seq<Event>)
    requires IsFresh(origin) && Legal(origin, events)
    ensures Inv(After(origin, events))
  {
    RunKeepsInv(origin, events);
  }

  // ---- No over-trading and no order left behind -------------------------------------------

  /** No job ever trades more than it was asked to: not by its own count, and not at the
      broker, whatever was lost, filled late, or filled during a cancel. */
  lemma NoRunOverTrades(origin: RunState, events: seq<Event>, j: nat)
    requires IsFresh(origin) && Legal(origin, events) && j < |After(origin, events).jobs|
    ensures var job := After(origin, events).jobs[j];
            job.filled <= TrueFills(job.orders) <= job.request.quantity
  {
    ReachedInv(origin, events);
    NeverOverTrades(After(origin, events).jobs[j]);
  }

  /** A job that ended with a known outcome left no order open, counted every fill, and its
      status says how much was filled. */
  lemma KnownEndLeavesNothing(origin: RunState, events: seq<Event>, j: nat)
    requires IsFresh(origin) && Legal(origin, events) && j < |After(origin, events).jobs|
    requires var pc := After(origin, events).jobs[j].pc; pc.Ended? && !pc.status.JobUnknown?
    ensures var job := After(origin, events).jobs[j];
            && !job.HasOpenOrder()
            && job.filled == TrueFills(job.orders)
            && (job.pc.status.JobFilled? ==> job.filled == job.request.quantity)
            && (job.pc.status.JobPartlyFilled? ==> 0 < job.filled < job.request.quantity)
            && (job.pc.status.JobCancelled? ==> job.filled == 0)
            && (job.pc.status.JobStopped? ==> job.filled < job.request.quantity)
  {
    ReachedInv(origin, events);
    var job := After(origin, events).jobs[j];
    NeverOverTrades(job);
    if job.HasOpenOrder() {
      var i :| 0 <= i < |job.orders| && !job.orders[i].closed;
      OpenOnlyLast(job, i);
    }
    IdleCountsAll(job);
  }

  lemma IdleCountsAll(job: Job)
    requires JobInv(job) && Idle(job.pc)
    ensures job.filled == TrueFills(job.orders)
  {
    var n := |job.orders|;
    if n > 0 { TrueFillsOfPast(job.request, job.steps[..n - 1], job.orders[..n - 1]); }
  }

  /** An order the run left open belongs to a job still running, or to one that ended
      unknown after ending placement for the run. */
  lemma OpenOrderIsReported(origin: RunState, events: seq<Event>, j: nat)
    requires IsFresh(origin) && Legal(origin, events) && j < |After(origin, events).jobs|
    requires After(origin, events).jobs[j].HasOpenOrder()
    ensures var s := After(origin, events);
            s.jobs[j].Active() || (s.jobs[j].pc == Ended(JobUnknown) && s.placementEnded)
  {
    ReachedInv(origin, events);
    var job := After(origin, events).jobs[j];
    var i :| 0 <= i < |job.orders| && !job.orders[i].closed;
    OpenOnlyLast(job, i);
  }

  /** A job ends once: after that no event of its own is possible, and its record of what it
      did never changes. */
  lemma {:induction false} EndsOnce(s: RunState, events: seq<Event>, j: nat)
    requires Legal(s, events) && j < |s.jobs| && s.jobs[j].pc.Ended?
    ensures |After(s, events).jobs| >= |s.jobs|
    ensures After(s, events).jobs[j].(orders := s.jobs[j].orders) == s.jobs[j]
    decreases |events|
  {
    if events != [] {
      EndedStays(s, events[0], j);
      EndsOnce(Apply(s, events[0]), events[1..], j);
    }
  }

  lemma EndedStays(s: RunState, e: Event, j: nat)
    requires Enabled(s, e) && j < |s.jobs| && s.jobs[j].pc.Ended?
    ensures |Apply(s, e).jobs| >= |s.jobs|
    ensures Apply(s, e).jobs[j].(orders := s.jobs[j].orders) == s.jobs[j]
  {
    if JobEvent(e) { SharedAfter(s, e); }
  }

  // ---- The shut-off of placement -----------------------------------------------------------

  function CountPlaces(events: seq<Event>): nat {
    if events == [] then 0 else (if events[0].ForwardPlace? then 1 else 0) + CountPlaces(events[1..])
  }

  /** The places that have passed their checks and are not sent yet. */
  function InTheWindow(s: RunState): nat { if s.Sending() then 1 else 0 }

  predicate ShutOff(s: RunState) { s.stop || s.placementEnded }

  /** After the shut-off nothing passes the checks, and only what has passed them is sent. */
  lemma JobShrinksWindow(s: RunState, e: Event)
    requires JobEvent(e) && JobEnabled(s, e) && LockInv(s) && ShutOff(s)
    ensures InTheWindow(JobApply(s, e)) + (if e.ForwardPlace? then 1 else 0) <= InTheWindow(s)
  {
    SharedAfter(s, e);
    OnlyTheGateClears(s, e);
    NoneCleared(s, JobApply(s, e), e);
  }

  lemma WindowShrinks(s: RunState, e: Event)
    requires Enabled(s, e) && LockInv(s) && ShutOff(s)
    ensures ShutOff(Apply(s, e))
    ensures InTheWindow(Apply(s, e)) + (if e.ForwardPlace? then 1 else 0) <= InTheWindow(s)
  {
    if JobEvent(e) {
      SharedAfter(s, e);
      JobShrinksWindow(s, e);
    } else if !s.Sending() {
      NotSendingKept(s, e);
    }
  }

  /** Once the stop latch is set, or placement has ended, no place passes its checks any more:
      at most the one that had passed them already is sent, and none is once placement has
      ended. */
  lemma {:induction false} NoPlaceAfterShutOff(s: RunState, events: seq<Event>)
    requires Legal(s, events) && Inv(s) && ShutOff(s)
    ensures CountPlaces(events) <= InTheWindow(s) <= 1
    ensures !s.Sending() || s.placementEnded ==> CountPlaces(events) == 0
    decreases |events|
  {
    if events != [] {
      WindowShrinks(s, events[0]);
      EventKeepsInv(s, events[0]);
      NoPlaceAfterShutOff(Apply(s, events[0]), events[1..]);
    }
  }

  /** Exactly when a stopped run can still place: a place had passed its checks before the latch. */
  lemma PlacesAfterStopExactlyWhen(s: RunState)
    requires Inv(s) && s.stop
    ensures (exists events :: Legal(s, events) && CountPlaces(events) == 1) <==> s.Sending()
  {
    if s.Sending() {
      ClearedPlaceLeaves(s, s.lockHolder.value);
    } else {
      forall events | Legal(s, events) ensures CountPlaces(events) == 0 { NoPlaceAfterShutOff(s, events); }
    }
  }

  lemma PlacementHasEnded(s: RunState, events: seq<Event>)
    requires Legal(s, events) && Inv(s) && s.placementEnded
    ensures CountPlaces(events) == 0
  {
    NoPlaceAfterShutOff(s, events);
  }

  lemma UnknownEndsPlacement(s: RunState, e: Event)
    requires JobEvent(e) && JobEnabled(s, e)
    requires e.PlaceUnknown? || e.Crash? || e.GiveUp? || JobAfter(s, e).pc == Ended(JobUnknown)
    ensures Apply(s, e).placementEnded
  { }

  /** After any order action with an unknown outcome, or a crash, in one job, no job of the
      run ever forwards another place. */
  lemma NoPlaceAfterUnknown(s: RunState, e: Event, events: seq<Event>)
    requires Inv(s) && Enabled(s, e) && JobEvent(e) && Legal(Apply(s, e), events)
    requires e.PlaceUnknown? || e.Crash? || e.GiveUp? || JobAfter(s, e).pc == Ended(JobUnknown)
    ensures CountPlaces(events) == 0
  {
    UnknownEndsPlacement(s, e);
    EventKeepsInv(s, e);
    PlacementHasEnded(Apply(s, e), events);
  }

  /** How many places may still be forwarded after `halt`: the one whose job passed the
      checks under the lock before it. */
  function HaltedRoom(s: RunState): nat {
    if s.lockHolder.Some? && s.lockHolder.value < |s.jobs| && PastHalt(s.jobs[s.lockHolder.value].pc) then 1 else 0
  }

  /** Past the last check of `halt`, and its place not sent yet. */
  predicate PastHalt(pc: Pc) { pc.Locked? || pc.Cleared? }

  /** No job passes the checks under the lock after `halt`. */
  lemma NonePassesHalt(s: RunState, e: Event)
    requires JobEvent(e) && JobEnabled(s, e) && s.halted
    ensures PastHalt(JobAfter(s, e).pc) ==> e.PassGate?
    ensures e.ForwardPlace? || e.PassGate? ==> PastHalt(s.jobs[e.j].pc)
  { }

  lemma HaltedRoomShrinks(s: RunState, e: Event)
    requires Enabled(s, e) && LockInv(s) && s.halted
    ensures HaltedRoom(Apply(s, e)) + (if e.ForwardPlace? then 1 else 0) <= HaltedRoom(s)
  {
    if JobEvent(e) {
      NonePassesHalt(s, e);
      SharedAfter(s, e);
    }
  }

  /** After `halt`, at most one more place is forwarded run-wide, and none unless a job held
      the placement lock past its checks at that moment. */
  lemma {:induction false} AtMostOnePlaceAfterHalt(s: RunState, events: seq<Event>)
    requires Legal(s, events) && Inv(s) && s.halted
    ensures CountPlaces(events) <= HaltedRoom(s) <= 1
    decreases |events|
  {
    if events != [] {
      HaltedRoomShrinks(s, events[0]);
      EventKeepsInv(s, events[0]);
      AtMostOnePlaceAfterHalt(Apply(s, events[0]), events[1..]);
    }
  }

  lemma {:induction false} ListedIsAJob(jobs: seq<Job>, exclude: Option<nat>, w: WorkingPlacement)
    requires w in ActiveItems(jobs, exclude)
    ensures exists k :: 0 <= k < |jobs| && jobs[k].Active() && exclude != Some(k)
                        && w == WorkItem(jobs[k].id, jobs[k].request, jobs[k].Remaining())
  {
    var n := |jobs| - 1;
    if w in ActiveItems(jobs[..n], exclude) {
      ListedIsAJob(jobs[..n], exclude, w);
      var k :| 0 <= k < n && jobs[..n][k].Active() && exclude != Some(k)
               && w == WorkItem(jobs[..n][k].id, jobs[..n][k].request, jobs[..n][k].Remaining());
      assert jobs[k] == jobs[..n][k];
    }
  }

  lemma {:induction false} ListedIsReserved(reserved: seq<Reservation>, w: WorkingPlacement)
    requires w in ReservedItems(reserved)
    ensures exists r :: 0 <= r < |reserved|
                        && w == WorkItem(reserved[r].id, reserved[r].request, reserved[r].request.quantity)
  {
    var n := |reserved| - 1;
    if w in ReservedItems(reserved[..n]) {
      ListedIsReserved(reserved[..n], w);
      var r :| 0 <= r < n && w == WorkItem(reserved[..n][r].id, reserved[..n][r].request, reserved[..n][r].request.quantity);
      assert reserved[r] == reserved[..n][r];
    }
  }

  /** Work that may coexist with a request can be priced beside it. */
  lemma ApartIsApartFrom(a: WorkRequest, b: WorkRequest, id: nat, left: nat, multipliers: Multipliers)
    requires Apart(a, b, multipliers) || Apart(b, a, multipliers)
    ensures ApartFrom(WorkItem(id, a, left), b, multipliers)
  { }

  /** All other work may coexist with a running job. */
  lemma OthersAreApart(s: RunState, j: nat, w: WorkingPlacement)
    requires ApartInv(s) && EarlierInv(s) && j < |s.jobs| && s.jobs[j].Active() && w in OtherWork(s, Some(j))
    ensures ApartFrom(w, s.jobs[j].request, s.multipliers)
  {
    if w in s.unresolved {
      var u :| 0 <= u < |s.unresolved| && s.unresolved[u] == w;
    } else if w in ActiveItems(s.jobs, Some(j)) {
      ListedIsAJob(s.jobs, Some(j), w);
      var k :| 0 <= k < |s.jobs| && s.jobs[k].Active() && Some(j) != Some(k)
               && w == WorkItem(s.jobs[k].id, s.jobs[k].request, s.jobs[k].Remaining());
      ApartIsApartFrom(s.jobs[k].request, s.jobs[j].request, s.jobs[k].id, s.jobs[k].Remaining(), s.multipliers);
    } else {
      ListedIsReserved(s.reserved, w);
      var r :| 0 <= r < |s.reserved|
               && w == WorkItem(s.reserved[r].id, s.reserved[r].request, s.reserved[r].request.quantity);
      ApartIsApartFrom(s.reserved[r].request, s.jobs[j].request, s.reserved[r].id, s.reserved[r].request.quantity,
                       s.multipliers);
    }
  }

  /** A job that holds the lock lacks nothing but cash: some snapshot lets its place join. */
  lemma JoinsForSomeCash(s: RunState, j: nat)
    requires Inv(s) && j < |s.jobs| && s.jobs[j].pc.Locked?
    ensures exists cash :: Joining(s, j, cash)
  {
    assert JobInv(s.jobs[j]);
    var work, new_ := OtherWork(s, Some(j)), Asked(s, j);
    forall i | 0 <= i < |work| ensures ApartFrom(work[i], s.jobs[j].request, s.multipliers) {
      OthersAreApart(s, j, work[i]);
    }
    var cash := WorkingTotal(work, s.multipliers) + LegsTotal(new_, new_.legs, s.multipliers);
    AllApartAdmits(new_, work, s.jobs[j].request, s.multipliers, cash);
    assert Joining(s, j, cash);
  }

  lemma AllApartAdmits(new_: NewPlacement, work: seq<WorkingPlacement>, request: WorkRequest,
                       multipliers: Multipliers, cash: int)
    requires forall i :: 0 <= i < |work| ==> ApartFrom(work[i], request, multipliers)
    requires new_.legs == [PlacementLeg(request.optionId, Closing(request))]
    requires new_.quantity.Some? && new_.limitPrice.Some?
    requires cash == WorkingTotal(work, multipliers) + LegsTotal(new_, new_.legs, multipliers)
    ensures Admissible(new_, work, 0, multipliers, Some(cash))
  { }

  /** A place of the lock's holder can still leave: it has passed its checks, or it is under the
      lock and neither stopped nor shut off. */
  predicate PlaceMayLeave(s: RunState) {
    s.Sending() || (HaltedRoom(s) == 1 && !s.stop && !s.placementEnded)
  }

  lemma ClearedPlaceLeaves(s: RunState, j: nat)
    requires Inv(s) && s.lockHolder == Some(j) && j < |s.jobs| && s.jobs[j].pc.Cleared?
    ensures Legal(s, [ForwardPlace(j)]) && CountPlaces([ForwardPlace(j)]) == 1
  {
    assert JobInv(s.jobs[j]);
    assert [ForwardPlace(j)][1..] == [];
  }

  lemma LockedPlaceLeaves(s: RunState, j: nat, cash: int)
    requires Inv(s) && !s.stop && !s.placementEnded && s.lockHolder == Some(j)
    requires Joining(s, j, cash) && s.jobs[j].pc.Locked?
    ensures Legal(s, [PassGate(j, cash), ForwardPlace(j)])
    ensures CountPlaces([PassGate(j, cash), ForwardPlace(j)]) == 1
  {
    assert Enabled(s, PassGate(j, cash));
    EventKeepsInv(s, PassGate(j, cash));
    ClearedPlaceLeaves(Apply(s, PassGate(j, cash)), j);
    assert [PassGate(j, cash), ForwardPlace(j)][1..] == [ForwardPlace(j)];
  }

  /** Exactly when a halted run can still place: a job held the lock past its checks, and the
      stop latch and the end of placement have not shut it off. */
  lemma PlacesAfterHaltExactlyWhen(s: RunState)
    requires Inv(s) && s.halted
    ensures (exists events :: Legal(s, events) && CountPlaces(events) == 1) <==> PlaceMayLeave(s)
  {
    if PlaceMayLeave(s) {
      var j := s.lockHolder.value;
      if s.Sending() {
        ClearedPlaceLeaves(s, j);
      } else {
        JoinsForSomeCash(s, j);
        var cash :| Joining(s, j, cash);
        LockedPlaceLeaves(s, j, cash);
      }
    } else {
      forall events | Legal(s, events) ensures CountPlaces(events) == 0 {
        AtMostOnePlaceAfterHalt(s, events);
        if ShutOff(s) { NoPlaceAfterShutOff(s, events); }
      }
    }
  }

  /** Placements never overlap: no place is forwarded while another job's is in flight. */
  lemma PlacementsNeverOverlap(origin: RunState, events: seq<Event>, i: nat, j: nat)
    requires IsFresh(origin) && Legal(origin, events)
    requires i < |After(origin, events).jobs| && j < |After(origin, events).jobs|
    requires HasLock(After(origin, events).jobs[i]) && HasLock(After(origin, events).jobs[j])
    ensures i == j
  {
    ReachedInv(origin, events);
  }

  // ---- One cancel --------------------------------------------------------------------------

  /** The executor's cancels of job `j` that reached the broker. */
  function CountCancels(events: seq<Event>, j: nat): nat {
    if events == [] then 0
    else (if SendsCancel(events[0]) && events[0].j == j then 1 else 0)
         + CountCancels(events[1..], j)
  }

  /** In every run, each order is cancelled by the executor at most once, the latch's resend
      and the crash salvage included. */
  lemma OneCancelPerOrder(origin: RunState, events: seq<Event>, j: nat, i: nat)
    requires IsFresh(origin) && Legal(origin, events)
    requires j < |After(origin, events).jobs| && i < |After(origin, events).jobs[j].orders|
    ensures After(origin, events).jobs[j].orders[i].cancels <= 1
  {
    ReachedInv(origin, events);
    CancelledAtMostOnce(After(origin, events).jobs[j], i);
  }

  /** The cancels a job may still send once nothing passes the checks of a place: one, for its
      last order, or for the one already past them. */
  function CancelRoom(job: Job): nat {
    if job.pc.Cleared? || (|job.orders| > 0 && job.orders[|job.orders| - 1].cancels == 0) then 1 else 0
  }

  predicate SendsCancel(e: Event) { e.ForwardCancel? || e.SalvageForward? }

  /** A cancel of a job leaves for its last order, which had none; after the stop latch only a
      place past its checks adds an order. */
  lemma CancelRoomOfJob(s: RunState, e: Event)
    requires JobEvent(e) && JobEnabled(s, e) && JobInv(s.jobs[e.j]) && s.stop
    ensures CancelRoom(JobAfter(s, e)) + (if SendsCancel(e) then 1 else 0) <= CancelRoom(s.jobs[e.j])
  { }

  /** Nothing outside a job's task counts as a cancel of the executor. */
  lemma SharedKeepsCancelRoom(s: RunState, e: Event, j: nat)
    requires !JobEvent(e) && SharedEnabled(s, e) && JobsInv(s) && j < |s.jobs|
    ensures j < |SharedApply(s, e).jobs|
    ensures CancelRoom(SharedApply(s, e).jobs[j]) == CancelRoom(s.jobs[j])
  {
    if BrokerEvent(e) { BrokerEventIs(s, e); }
  }

  lemma CancelRoomShrinks(s: RunState, e: Event, j: nat)
    requires Enabled(s, e) && JobsInv(s) && s.stop && j < |s.jobs|
    ensures j < |Apply(s, e).jobs|
    ensures CancelRoom(Apply(s, e).jobs[j]) + (if SendsCancel(e) && e.j == j then 1 else 0) <= CancelRoom(s.jobs[j])
  {
    if JobEvent(e) {
      SharedAfter(s, e);
      CancelRoomOfJob(s, e);
    } else {
      SharedKeepsCancelRoom(s, e, j);
    }
  }

  /** After the stop latch each job forwards at most one more cancel. */
  lemma {:induction false} OneCancelAfterStop(s: RunState, events: seq<Event>, j: nat)
    requires Legal(s, events) && Inv(s) && s.stop && j < |s.jobs|
    ensures CountCancels(events, j) <= CancelRoom(s.jobs[j]) <= 1
    decreases |events|
  {
    if events != [] {
      CancelRoomShrinks(s, events[0], j);
      EventKeepsInv(s, events[0]);
      OneCancelAfterStop(Apply(s, events[0]), events[1..], j);
    }
  }

  // ---- No working order is left without its cancel ------------------------------------------

  /** The job's order may still be working, nothing more of the job will cancel it, and no
      cancel of it was forwarded. */
  predicate Uncancelled(job: Job) {
    && |job.orders| > 0 && job.MayBeWorking() && job.orders[|job.orders| - 1].cancels == 0
    && (job.pc.Ended? || job.pc.Confirming? || job.pc.SalvageConfirming?)
  }

  /** The cancel was refused or not forwarded, or raised before it was sent. */
  predicate Unsends(s: RunState, e: Event, j: nat) {
    && j < |s.jobs| && JobEvent(e) && e.j == j
    && (e.CancelUnsent? || e.SalvageUnsent? || (e.SalvageGiveUp? && s.jobs[j].pc.SalvageDispatching?)
        || (e.Crash? && s.jobs[j].pc.Dispatching?))
  }

  /** What became of the last cancel tried of a job's last order. */
  datatype CancelTry = NotTried | ReachedBroker | NeverLeft

  function TryAfter(s: RunState, e: Event, j: nat, last: CancelTry): CancelTry {
    if !JobEvent(e) || e.j != j then last
    else if e.ForwardPlace? then NotTried
    else if SendsCancel(e) then ReachedBroker
    else if Unsends(s, e, j) then NeverLeft
    else last
  }

  /** `TryAfter` over a run. */
  function LastTry(s: RunState, events: seq<Event>, j: nat, last: CancelTry): CancelTry
    requires Legal(s, events)
    decreases |events|
  {
    if events == [] then last
    else LastTry(Apply(s, events[0]), events[1..], j, TryAfter(s, events[0], j, last))
  }

  /** A watched order has no cancel yet, and one whose cancel is on its way has one. */
  predicate CancelInv(job: Job) {
    |job.orders| > 0 ==>
      && (job.pc.CancelSent? || job.pc.SalvageSent? ==> job.orders[|job.orders| - 1].cancels > 0)
      && (|job.steps| > 0 && (job.pc.Polling? || job.pc.Mismatched?) ==> !job.steps[|job.steps| - 1].cancelSent)
  }

  predicate CancelsInv(s: RunState) { forall j :: 0 <= j < |s.jobs| ==> CancelInv(s.jobs[j]) }

  lemma JobKeepsCancelInv(s: RunState, e: Event)
    requires JobEvent(e) && JobEnabled(s, e) && CancelInv(s.jobs[e.j])
    ensures CancelInv(JobAfter(s, e))
  { }

  lemma JobEventKeepsCancelsInv(s: RunState, e: Event)
    requires JobEvent(e) && JobEnabled(s, e) && CancelsInv(s)
    ensures CancelsInv(JobApply(s, e))
  {
    SharedAfter(s, e);
    JobKeepsCancelInv(s, e);
  }

  lemma SharedEventKeepsCancelsInv(s: RunState, e: Event)
    requires !JobEvent(e) && SharedEnabled(s, e) && JobsInv(s) && CancelsInv(s)
    ensures CancelsInv(SharedApply(s, e))
  {
    if BrokerEvent(e) { BrokerEventIs(s, e); }
  }

  lemma EventKeepsCancelsInv(s: RunState, e: Event)
    requires Enabled(s, e) && JobsInv(s) && CancelsInv(s)
    ensures CancelsInv(Apply(s, e))
  {
    if JobEvent(e) { JobEventKeepsCancelsInv(s, e); } else { SharedEventKeepsCancelsInv(s, e); }
  }

  lemma JobUncancelledOnlyUnsent(s: RunState, e: Event)
    requires JobEvent(e) && JobEnabled(s, e) && JobInv(s.jobs[e.j]) && CancelInv(s.jobs[e.j])
    requires !Uncancelled(s.jobs[e.j]) && Uncancelled(JobAfter(s, e))
    ensures Unsends(s, e, e.j)
  {
    PlacingHasNoWorkingStep(s.jobs[e.j]);
  }

  /** The last order has a cancel exactly when the last try reached the broker, and one given
      up without a cancel had a try that never left. */
  predicate TryInv(job: Job, last: CancelTry) {
    |job.orders| > 0 ==>
      && (last.ReachedBroker? <==> job.orders[|job.orders| - 1].cancels > 0)
      && (Uncancelled(job) ==> last.NeverLeft?)
  }

  lemma CancelsFollowTries(s: RunState, e: Event, last: CancelTry)
    requires JobEvent(e) && JobEnabled(s, e) && JobInv(s.jobs[e.j]) && TryInv(s.jobs[e.j], last)
    ensures var job := JobAfter(s, e); |job.orders| > 0 ==>
              (TryAfter(s, e, e.j, last).ReachedBroker? <==> job.orders[|job.orders| - 1].cancels > 0)
  { }

  lemma JobKeepsTry(s: RunState, e: Event, last: CancelTry)
    requires JobEvent(e) && JobEnabled(s, e) && JobInv(s.jobs[e.j]) && CancelInv(s.jobs[e.j])
    requires TryInv(s.jobs[e.j], last)
    ensures TryInv(JobAfter(s, e), TryAfter(s, e, e.j, last))
  {
    CancelsFollowTries(s, e, last);
    if !Uncancelled(s.jobs[e.j]) && Uncancelled(JobAfter(s, e)) { JobUncancelledOnlyUnsent(s, e); }
  }

  lemma BrokerKeepsTry(job: Job, i: nat, order: BrokerOrder, last: CancelTry)
    requires i < |job.orders| && BrokerMoves(job.orders[i], order) && TryInv(job, last)
    ensures TryInv(job.(orders := job.orders[i := order]), last)
  { }

  lemma SharedKeepsTry(s: RunState, e: Event, j: nat, last: CancelTry)
    requires !JobEvent(e) && SharedEnabled(s, e) && JobsInv(s)
    requires j < |s.jobs| ==> TryInv(s.jobs[j], last)
    ensures j < |SharedApply(s, e).jobs| ==> TryInv(SharedApply(s, e).jobs[j], last)
  {
    if BrokerEvent(e) {
      BrokerEventIs(s, e);
      if e.j == j { BrokerKeepsTry(s.jobs[j], e.i, SharedApply(s, e).jobs[j].orders[e.i], last); }
    } else if !e.Start? {
      assert SharedApply(s, e).jobs == s.jobs;
    }
  }

  /** A try is of the job's own task. */
  lemma OnlyItsOwnTry(s: RunState, e: Event, j: nat, last: CancelTry)
    requires Enabled(s, e) && (JobEvent(e) ==> e.j != j)
    ensures TryAfter(s, e, j, last) == last
    ensures JobEvent(e) ==> |Apply(s, e).jobs| == |s.jobs| && (j < |s.jobs| ==> Apply(s, e).jobs[j] == s.jobs[j])
  {
    if JobEvent(e) { SharedAfter(s, e); }
  }

  lemma JobKeepsItsTry(s: RunState, e: Event, last: CancelTry)
    requires JobEvent(e) && JobEnabled(s, e) && JobsInv(s) && CancelsInv(s) && TryInv(s.jobs[e.j], last)
    ensures |Apply(s, e).jobs| == |s.jobs| && TryInv(Apply(s, e).jobs[e.j], TryAfter(s, e, e.j, last))
  {
    SharedAfter(s, e);
    JobKeepsTry(s, e, last);
  }

  lemma KeepsTry(s: RunState, e: Event, j: nat, last: CancelTry)
    requires Enabled(s, e) && JobsInv(s) && CancelsInv(s)
    requires j < |s.jobs| ==> TryInv(s.jobs[j], last)
    ensures j < |Apply(s, e).jobs| ==> TryInv(Apply(s, e).jobs[j], TryAfter(s, e, j, last))
  {
    if JobEvent(e) && e.j == j {
      JobKeepsItsTry(s, e, last);
    } else {
      OnlyItsOwnTry(s, e, j, last);
      if !JobEvent(e) { SharedKeepsTry(s, e, j, last); }
    }
  }

  lemma {:induction false} TriesTellCancels(s: RunState, events: seq<Event>, j: nat, last: CancelTry)
    requires Legal(s, events) && Inv(s) && CancelsInv(s)
    requires j < |s.jobs| ==> TryInv(s.jobs[j], last)
    ensures j < |After(s, events).jobs| ==> TryInv(After(s, events).jobs[j], LastTry(s, events, j, last))
    decreases |events|
  {
    if events != [] {
      EventKeepsInv(s, events[0]);
      EventKeepsCancelsInv(s, events[0]);
      KeepsTry(s, events[0], j, last);
      TriesTellCancels(Apply(s, events[0]), events[1..], j, TryAfter(s, events[0], j, last));
    }
  }

  /** A job that ends with an order it knows may be working has had its one cancel of it
      forwarded, or the last cancel it tried of that order was refused, was not forwarded, or
      raised before it was sent: exactly then the order is left without one. */
  lemma WorkingOrderWasCancelled(origin: RunState, events: seq<Event>, j: nat)
    requires IsFresh(origin) && Legal(origin, events) && j < |After(origin, events).jobs|
    requires var job := After(origin, events).jobs[j]; job.pc.Ended? && job.MayBeWorking()
    ensures var job := After(origin, events).jobs[j];
            && |job.orders| > 0
            && (job.orders[|job.orders| - 1].cancels == 0 <==> LastTry(origin, events, j, NotTried) == NeverLeft)
            && (job.orders[|job.orders| - 1].cancels == 1 <==> LastTry(origin, events, j, NotTried) == ReachedBroker)
  {
    ReachedInv(origin, events);
    var job := After(origin, events).jobs[j];
    assert JobInv(job);
    CancelledAtMostOnce(job, |job.orders| - 1);
    TriesTellCancels(origin, events, j, NotTried);
  }

  /** One way it is left: a cancel that raises before it is sent is marked as sent, so the crash
      salvage does not send it again, and the open order is left with none. */
  lemma RaisedSendLeavesOrder(s: RunState, j: nat, failure: bool)
    requires j < |s.jobs| && !s.Sending() && JobInv(s.jobs[j]) && s.jobs[j].pc.Dispatching? && OpenAtBroker(s.jobs[j])
    ensures Enabled(s, Crash(j, failure))
    ensures var job := Apply(s, Crash(j, failure)).jobs[j];
            job.pc == Ended(JobUnknown) && OpenAtBroker(job) && job.orders[|job.orders| - 1].cancels == 0
  { }

  /** The agent's own cancel never reaches an order of a running job, and that is all the
      code asks: before the stop latch and with no placement in flight it passes for every
      order of an ended job, also one whose cancel the executor already sent. "At most one
      cancel per order" is a rule for the executor only. */
  lemma AgentCancelsExactlyEnded(origin: RunState, events: seq<Event>, j: nat, i: nat)
    requires IsFresh(origin) && Legal(origin, events)
    requires j < |After(origin, events).jobs| && i < |After(origin, events).jobs[j].orders|
    ensures var s := After(origin, events);
            && (SharedEnabled(s, AgentCancel(j, i)) <==> !s.jobs[j].Active() && !s.stop && s.lockHolder.None?)
            && (s.jobs[j].Active() ==> s.jobs[j].orders[i].agentCancels == 0)
  {
    ReachedInv(origin, events);
    var s := After(origin, events);
    if SharedEnabled(s, AgentCancel(j, i)) { AgentCancelsOnlyEnded(s, j, i); }
  }

  // ---- What may coexist, and its funding ---------------------------------------------------

  /** In every state of every run, any two pieces of work (reservations, unfinished jobs, and
      ended jobs whose order is still open) are closes on different contracts, and none of them
      stands beside an unresolved order of the tick's earlier runs but as such a close. */
  lemma OnlyClosesCoexist(origin: RunState, events: seq<Event>)
    requires IsFresh(origin) && Legal(origin, events)
    ensures ApartInv(After(origin, events)) && EarlierInv(After(origin, events))
  {
    ReachedInv(origin, events);
  }

  /** Whenever an order of this run is open at the broker beside another one, or beside an
      unresolved order of an earlier run, what they all would still cost at their limit prices is
      within the settled cash of the snapshot the last place beside other work was checked
      against. */
  lemma OpenOrdersAreFunded(origin: RunState, events: seq<Event>)
    requires IsFresh(origin) && Legal(origin, events)
    ensures var s, m := After(origin, events), origin.multipliers;
            OpenCount(s.jobs) >= 2 || (OpenCount(s.jobs) == 1 && s.earlier != [])
            ==> TotalOpen(s.jobs, m, None) + WorkingTotal(s.earlier, m) <= s.cash
  {
    ReachedInv(origin, events);
    MultipliersFixed(origin, events);
  }

  lemma {:induction false} MultipliersFixed(s: RunState, events: seq<Event>)
    requires Legal(s, events)
    ensures After(s, events).multipliers == s.multipliers
    decreases |events|
  {
    if events != [] {
      if JobEvent(events[0]) { SharedAfter(s, events[0]); }
      MultipliersFixed(Apply(s, events[0]), events[1..]);
    }
  }

  /** The ladder `step_prices` plans is what the protocol asks of a job's prices. */
  lemma LadderIsPlanned(request: WorkRequest, prices: seq<nat>, ticks: TickSchedule)
    requires ticks.Valid() && Ladder(prices, request.startPrice, request.worstPrice, request.side, ticks)
    ensures Planned(request, prices)
  { }

  // ---- What one job may rely on while it waits ---------------------------------------------

  /** The same record of a job, with its orders moved on only by the broker and the agent. */
  predicate SameRecord(a: Job, b: Job) {
    && b == a.(orders := b.orders) && |b.orders| == |a.orders|
    && forall i :: 0 <= i < |a.orders| ==>
         && b.orders[i].price == a.orders[i].price && b.orders[i].quantity == a.orders[i].quantity
         && b.orders[i].cancels == a.orders[i].cancels
         && (a.orders[i].closed ==> b.orders[i].closed && b.orders[i].filled == a.orders[i].filled)
  }

  /** What job `j` may rely on across an `await`: its record and its lock are its own, and
      latches never clear. */
  predicate Rely(s: RunState, t: RunState, j: nat) {
    && j < |s.jobs| <= |t.jobs|
    && SameRecord(s.jobs[j], t.jobs[j])
    && (s.lockHolder == Some(j) <==> t.lockHolder == Some(j))
    && (s.stop ==> t.stop) && (s.halted ==> t.halted) && (s.placementEnded ==> t.placementEnded)
  }

  lemma RelyChains(s: RunState, t: RunState, u: RunState, j: nat)
    requires Rely(s, t, j) && Rely(t, u, j)
    ensures Rely(s, u, j)
  { }

  lemma OthersKeepRely(s: RunState, e: Event, j: nat)
    requires Enabled(s, e) && j < |s.jobs| && LockInv(s) && (JobEvent(e) ==> e.j != j)
    ensures Rely(s, Apply(s, e), j)
  {
    if JobEvent(e) { OtherJobsKeepRely(s, e, j); } else { SharedKeepsRely(s, e, j); }
  }

  lemma OtherJobsKeepRely(s: RunState, e: Event, j: nat)
    requires JobEvent(e) && JobEnabled(s, e) && j < |s.jobs| && LockInv(s) && e.j != j
    ensures Rely(s, JobApply(s, e), j)
  {
    SharedAfter(s, e);
  }

  lemma SharedKeepsRely(s: RunState, e: Event, j: nat)
    requires !JobEvent(e) && SharedEnabled(s, e) && j < |s.jobs|
    ensures Rely(s, SharedApply(s, e), j)
  { }

  /** Whatever the other tasks, the session, the agent, and the broker do in any order, a
      waiting job finds what it relies on. */
  lemma {:induction false} WaitingIsSafe(s: RunState, events: seq<Event>, j: nat)
    requires Legal(s, events) && Inv(s) && j < |s.jobs|
    requires forall k :: 0 <= k < |events| && JobEvent(events[k]) ==> events[k].j != j
    ensures Rely(s, After(s, events), j)
    decreases |events|
  {
    if events != [] {
      OthersKeepRely(s, events[0], j);
      EventKeepsInv(s, events[0]);
      WaitingIsSafe(Apply(s, events[0]), events[1..], j);
    }
  }

  /** A run extended by one event. */
  /** A run by the states it passes through, one before each event and one after the last. */
  ghost predicate Passes(states: seq<RunState>, events: seq<Event>) {
    && |states| == |events| + 1
    && forall i {:trigger events[i]} :: 0 <= i < |events| ==>
         Enabled(states[i], events[i]) && states[i + 1] == Apply(states[i], events[i])
  }

  /** A run from a fresh state leads here. */
  ghost predicate Reached(origin: RunState, events: seq<Event>, s: RunState) {
    IsFresh(origin) && exists states :: Passes(states, events) && states[0] == origin && states[|events|] == s
  }

  lemma {:induction false} PassesLegally(states: seq<RunState>, events: seq<Event>)
    requires Passes(states, events)
    ensures Legal(states[0], events) && After(states[0], events) == states[|events|]
    decreases |events|
  {
    if events != [] {
      assert events[0] == events[0];
      assert forall i {:trigger events[1..][i]} :: 0 <= i < |events| - 1 ==> events[1..][i] == events[i + 1];
      PassesLegally(states[1..], events[1..]);
    }
  }

  /** Such a run is legal, and its state has the run's invariant. */
  lemma ReachedLegally(origin: RunState, events: seq<Event>, s: RunState)
    requires Reached(origin, events, s)
    ensures Legal(origin, events) && After(origin, events) == s && Inv(s)
  {
    var states :| Passes(states, events) && states[0] == origin && states[|events|] == s;
    PassesLegally(states, events);
    ReachedInv(origin, events);
  }

  lemma ReachedAtFirst(origin: RunState)
    requires IsFresh(origin)
    ensures Reached(origin, [], origin)
  {
    assert Passes([origin], []);
  }

  lemma ReachedNext(origin: RunState, events: seq<Event>, s: RunState, e: Event)
    requires Reached(origin, events, s) && Enabled(s, e)
    ensures Reached(origin, events + [e], Apply(s, e))
  {
    var states :| Passes(states, events) && states[0] == origin && states[|events|] == s;
    var next := states + [Apply(s, e)];
    assert Passes(next, events + [e]);
  }
}
