/** What every interleaving of the jobs keeps of the whole run: one placement at a time,
    which work may coexist, what the open orders cost together, and who may cancel. */
module OrderWalkSafety {
  import opened Optionals
  import opened Arithmetic
  import opened OrderConcurrency
  import opened WalkSchedule
  import opened OrderWalk
  import opened OrderWalkJob

  // ---- The run's invariant -----------------------------------------------------------------

  predicate HasLock(job: Job) { job.pc.Locked? || job.pc.Cleared? || job.pc.Placing? }

  /** The lock's holder, and nobody else, is about to place or placing. */
  predicate LockInv(s: RunState) {
    && (s.lockHolder.Some? ==> s.lockHolder.value < |s.jobs| && HasLock(s.jobs[s.lockHolder.value]))
    && (forall j :: 0 <= j < |s.jobs| && HasLock(s.jobs[j]) ==> s.lockHolder == Some(j))
  }

  /** A job that ended unknown, or is being salvaged, has ended placement for the run. */
  predicate EndInv(s: RunState) {
    forall j :: 0 <= j < |s.jobs| && (s.jobs[j].pc == Ended(JobUnknown) || s.jobs[j].Salvaging())
      ==> s.placementEnded
  }

  predicate ReservationInv(s: RunState) {
    && (forall r :: 0 <= r < |s.reserved| ==> s.reserved[r].request.quantity > 0)
    && DistinctIds(s.reserved)
  }

  predicate DistinctIds(reserved: seq<Reservation>) {
    forall r, q :: 0 <= r < q < |reserved| ==> reserved[r].id != reserved[q].id
  }

  /** Two pieces of work that may coexist: both close, on different contracts, and both can be
      priced. */
  predicate Apart(a: WorkRequest, b: WorkRequest, multipliers: Multipliers) {
    && Closing(a) && Closing(b) && a.optionId != b.optionId
    && a.optionId in multipliers && b.optionId in multipliers
  }

  /** Whatever counts as work of this run (a reservation, an unfinished job, or a job whose order
      is still open) may coexist with all its other work. */
  predicate ApartInv(s: RunState) {
    && (forall i, k :: 0 <= i < k < |s.jobs| && s.jobs[i].Live() && s.jobs[k].Live()
          ==> Apart(s.jobs[i].request, s.jobs[k].request, s.multipliers))
    && (forall i, r :: 0 <= i < |s.jobs| && 0 <= r < |s.reserved| && s.jobs[i].Live()
          ==> Apart(s.jobs[i].request, s.reserved[r].request, s.multipliers))
    && (forall r, q :: 0 <= r < q < |s.reserved| ==> Apart(s.reserved[r].request, s.reserved[q].request, s.multipliers))
  }

  /** An unresolved order of an earlier run that some work may coexist with. */
  predicate ApartFrom(w: WorkingPlacement, a: WorkRequest, multipliers: Multipliers) {
    && w.closing && Closing(a) && w.optionId != Some(a.optionId)
    && WorkingDebit(w, multipliers).Some? && a.optionId in multipliers
  }

  /** Whatever counts as work of this run may coexist with every unresolved earlier order. */
  predicate EarlierInv(s: RunState) {
    && (forall i, u :: 0 <= i < |s.jobs| && 0 <= u < |s.unresolved| && s.jobs[i].Live()
          ==> ApartFrom(s.unresolved[u], s.jobs[i].request, s.multipliers))
    && (forall r, u :: 0 <= r < |s.reserved| && 0 <= u < |s.unresolved|
          ==> ApartFrom(s.unresolved[u], s.reserved[r].request, s.multipliers))
  }

  /** A place past its checks still passes them, but for the stop latch. */
  predicate GateInv(s: RunState) {
    s.Sending() ==> !s.placementEnded && Joining(s, s.lockHolder.value, s.jobs[s.lockHolder.value].pc.snapshotCash)
  }

  /** Job `j` is about to forward a place that the concurrency check lets join. */
  predicate Joining(s: RunState, j: nat, cash: int) {
    && j < |s.jobs| && 0 < s.jobs[j].next <= |s.jobs[j].prices|
    && MayJoin(s, Some(j), s.jobs[j].request, s.jobs[j].prices[s.jobs[j].next - 1], s.jobs[j].Remaining(), cash)
  }

  /** A running job's steps all have their order IDs, and the agent cancelled none of them. */
  predicate AgentInv(s: RunState) {
    forall j :: 0 <= j < |s.jobs| && s.jobs[j].Active() ==> Untouched(s.jobs[j])
  }

  predicate Untouched(job: Job) {
    && (forall i :: 0 <= i < |job.steps| ==> job.steps[i].known)
    && (forall i :: 0 <= i < |job.orders| ==> job.orders[i].agentCancels == 0)
  }

  predicate OpenAtBroker(job: Job) {
    |job.orders| > 0 && !job.orders[|job.orders| - 1].closed
  }

  /** What the open order of a job would still cost at its limit price. */
  function OpenDebit(job: Job, multipliers: Multipliers): nat {
    if OpenAtBroker(job) then
      var order := job.orders[|job.orders| - 1];
      var left: nat := if order.filled <= order.quantity then order.quantity - order.filled else 0;
      order.price * Amount(MultiplierOf(multipliers, Some(job.request.optionId))) * left
    else 0
  }

  function TotalOpen(jobs: seq<Job>, multipliers: Multipliers, exclude: Option<nat>): nat {
    if jobs == [] then 0
    else
      var n := |jobs| - 1;
      TotalOpen(jobs[..n], multipliers, exclude)
      + if exclude == Some(n) then 0 else OpenDebit(jobs[n], multipliers)
  }

  function OpenCount(jobs: seq<Job>): nat {
    if jobs == [] then 0
    else OpenCount(jobs[..|jobs| - 1]) + if OpenAtBroker(jobs[|jobs| - 1]) then 1 else 0
  }

  /** An open order of this run beside another one, or beside an earlier run's. */
  predicate Together(s: RunState) {
    OpenCount(s.jobs) >= 2 || (OpenCount(s.jobs) == 1 && s.earlier != [])
  }

  /** Orders open together are funded together by the snapshot the last of them was checked
      against, the earlier runs' at what is really left of them. */
  predicate FundsInv(s: RunState) {
    Together(s) ==> TotalOpen(s.jobs, s.multipliers, None) + WorkingTotal(s.earlier, s.multipliers) <= s.cash
  }

  predicate JobsInv(s: RunState) {
    forall j :: 0 <= j < |s.jobs| ==> JobInv(s.jobs[j])
  }

  predicate Inv(s: RunState) {
    && JobsInv(s) && LockInv(s) && EndInv(s) && ReservationInv(s)
    && ApartInv(s) && EarlierInv(s) && Shows(s.unresolved, s.earlier)
    && GateInv(s) && AgentInv(s) && FundsInv(s)
  }

  // ---- Sums over the jobs ------------------------------------------------------------------

  lemma {:induction false} TotalPut(jobs: seq<Job>, j: nat, job: Job, multipliers: Multipliers)
    requires j < |jobs|
    ensures TotalOpen(jobs[j := job], multipliers, None)
            == TotalOpen(jobs, multipliers, Some(j)) + OpenDebit(job, multipliers)
    ensures TotalOpen(jobs[j := job], multipliers, Some(j)) == TotalOpen(jobs, multipliers, Some(j))
  {
    var n := |jobs| - 1;
    if j == n {
      assert jobs[j := job][..n] == jobs[..n];
      TotalExcludeNone(jobs[..n], n, multipliers);
    } else {
      assert jobs[j := job][..n] == jobs[..n][j := job];
      TotalPut(jobs[..n], j, job, multipliers);
    }
  }

  lemma {:induction false} TotalExcludeNone(jobs: seq<Job>, j: nat, multipliers: Multipliers)
    requires |jobs| <= j
    ensures TotalOpen(jobs, multipliers, Some(j)) == TotalOpen(jobs, multipliers, None)
  {
    if jobs != [] { TotalExcludeNone(jobs[..|jobs| - 1], j, multipliers); }
  }

  lemma {:induction false} CountPut(jobs: seq<Job>, j: nat, job: Job)
    requires j < |jobs|
    ensures OpenCount(jobs[j := job]) + (if OpenAtBroker(jobs[j]) then 1 else 0)
            == OpenCount(jobs) + (if OpenAtBroker(job) then 1 else 0)
  {
    var n := |jobs| - 1;
    if j == n {
      assert jobs[j := job][..n] == jobs[..n];
    } else {
      assert jobs[j := job][..n] == jobs[..n][j := job];
      CountPut(jobs[..n], j, job);
    }
  }

  lemma {:induction false} CountOnlyOne(jobs: seq<Job>, j: nat)
    requires forall k :: 0 <= k < |jobs| && k != j ==> !OpenAtBroker(jobs[k])
    ensures OpenCount(jobs) <= if j < |jobs| then 1 else 0
  {
    if jobs != [] { CountOnlyOne(jobs[..|jobs| - 1], j); }
  }

  /** A change of one job that opens nothing and costs no more keeps the funding bound. */
  lemma FundsKeptByPut(s: RunState, j: nat, job: Job)
    requires j < |s.jobs| && FundsInv(s)
    requires OpenAtBroker(job) ==> OpenAtBroker(s.jobs[j])
    requires OpenDebit(job, s.multipliers) <= OpenDebit(s.jobs[j], s.multipliers)
    ensures FundsInv(s.Put(j, job))
  {
    TotalPut(s.jobs, j, job, s.multipliers);
    TotalPut(s.jobs, j, s.jobs[j], s.multipliers);
    assert s.jobs[j := s.jobs[j]] == s.jobs;
    CountPut(s.jobs, j, job);
  }

  // ---- What the concurrency check sees -----------------------------------------------------

  lemma {:induction false} JobIsListed(jobs: seq<Job>, exclude: Option<nat>, k: nat)
    requires k < |jobs| && jobs[k].Active() && exclude != Some(k)
    ensures WorkItem(jobs[k].id, jobs[k].request, jobs[k].Remaining()) in ActiveItems(jobs, exclude)
  {
    var n := |jobs| - 1;
    if k < n { JobIsListed(jobs[..n], exclude, k); }
  }

  lemma {:induction false} ReservationIsListed(reserved: seq<Reservation>, r: nat)
    requires r < |reserved|
    ensures WorkItem(reserved[r].id, reserved[r].request, reserved[r].request.quantity) in ReservedItems(reserved)
  {
    var n := |reserved| - 1;
    if r < n { ReservationIsListed(reserved[..n], r); }
  }

  /** A placement let in beside some working item may coexist with it. */
  lemma JoinsBeside(s: RunState, exclude: Option<nat>, request: WorkRequest, price: nat, quantity: nat, cash: int,
                    w: WorkingPlacement)
    requires MayJoin(s, exclude, request, price, quantity, cash) && w in OtherWork(s, exclude)
    ensures ApartFrom(w, request, s.multipliers)
  {
    var work := OtherWork(s, exclude);
    var i :| 0 <= i < |work| && work[i] == w;
    var placement := Placement(request, price, quantity);
    assert !OnContractOf(work[i], placement) && work[i].closing;
    assert placement.legs[0].closing && placement.legs[0].optionId == request.optionId;
    assert LegDebit(placement, placement.legs[0], s.multipliers).Some?;
  }

  lemma JoinsApart(s: RunState, exclude: Option<nat>, request: WorkRequest, price: nat, quantity: nat,
                   cash: int, other: WorkRequest, id: nat, left: nat)
    requires MayJoin(s, exclude, request, price, quantity, cash)
    requires WorkItem(id, other, left) in ActiveWork(s, exclude)
    ensures Apart(request, other, s.multipliers)
  {
    JoinsBeside(s, exclude, request, price, quantity, cash, WorkItem(id, other, left));
  }

  /** While placement is open, the work that counts is exactly what the check lists. */
  lemma LiveIsActive(s: RunState, k: nat)
    requires JobsInv(s) && EndInv(s) && !s.placementEnded && k < |s.jobs|
    ensures s.jobs[k].Live() <==> s.jobs[k].Active()
    ensures OpenAtBroker(s.jobs[k]) ==> s.jobs[k].Active()
  {
    var job := s.jobs[k];
    if !job.Active() && job.HasOpenOrder() {
      var i :| 0 <= i < |job.orders| && !job.orders[i].closed;
      OpenOnlyLast(job, i);
    }
    if OpenAtBroker(job) { OpenOnlyLast(job, |job.orders| - 1); }
  }

  // ---- Funding of a placement --------------------------------------------------------------

  lemma {:induction false} WorkingTotalAppend(a: seq<WorkingPlacement>, b: seq<WorkingPlacement>, multipliers: Multipliers)
    ensures WorkingTotal(a + b, multipliers) == WorkingTotal(a, multipliers) + WorkingTotal(b, multipliers)
  {
    if b == [] {
      assert a + b == a;
    } else {
      assert (a + b)[..|a + b| - 1] == a + b[..|b| - 1];
      WorkingTotalAppend(a, b[..|b| - 1], multipliers);
    }
  }

  /** An open close of a job costs no more than the job counts for in the check: its worst
      price, and all it has left. */
  lemma OpenWithinWorst(job: Job, multipliers: Multipliers)
    requires JobInv(job) && Closing(job.request)
    requires OpenAtBroker(job) ==> job.Active()
    requires WorkingDebit(WorkItem(job.id, job.request, job.Remaining()), multipliers).Some?
    ensures OpenDebit(job, multipliers)
            <= Amount(WorkingDebit(WorkItem(job.id, job.request, job.Remaining()), multipliers))
  {
    if OpenAtBroker(job) {
      var order := job.orders[|job.orders| - 1];
      OpenOnlyLast(job, |job.orders| - 1);
      ExposureBound(job);
      var m := Amount(MultiplierOf(multipliers, Some(job.request.optionId)));
      MulMonotone(order.price, job.request.worstPrice, m);
      MulMonotone(order.quantity - order.filled, job.Remaining(), order.price * m);
      MulMonotone(order.price * m, job.request.worstPrice * m, job.Remaining());
    }
  }

  /** The job is a close the check can price at its worst. */
  predicate PricedClose(job: Job, multipliers: Multipliers) {
    && Closing(job.request)
    && WorkingDebit(WorkItem(job.id, job.request, job.Remaining()), multipliers).Some?
  }

  lemma {:induction false} OthersWithinCheck(jobs: seq<Job>, j: nat, multipliers: Multipliers)
    requires forall k :: 0 <= k < |jobs| ==> JobInv(jobs[k])
    requires forall k :: 0 <= k < |jobs| && OpenAtBroker(jobs[k]) ==> jobs[k].Active()
    requires forall k :: 0 <= k < |jobs| && k != j && jobs[k].Active() ==> PricedClose(jobs[k], multipliers)
    ensures TotalOpen(jobs, multipliers, Some(j)) <= WorkingTotal(ActiveItems(jobs, Some(j)), multipliers)
  {
    if jobs != [] {
      var n := |jobs| - 1;
      OthersWithinCheck(jobs[..n], j, multipliers);
      if jobs[n].Active() && Some(j) != Some(n) {
        var item := WorkItem(jobs[n].id, jobs[n].request, jobs[n].Remaining());
        OpenWithinWorst(jobs[n], multipliers);
        var items := ActiveItems(jobs[..n], Some(j)) + [item];
        assert items[..|items| - 1] == ActiveItems(jobs[..n], Some(j));
        assert ActiveItems(jobs, Some(j)) == items;
      } else {
        assert ActiveItems(jobs, Some(j)) == ActiveItems(jobs[..n], Some(j));
      }
    }
  }

  lemma ListedIsPriced(s: RunState, j: nat, cash: int, k: nat)
    requires Joining(s, j, cash) && k < |s.jobs| && k != j && s.jobs[k].Active()
    ensures PricedClose(s.jobs[k], s.multipliers)
  {
    var job := s.jobs[k];
    JobIsListed(s.jobs, Some(j), k);
    var item := WorkItem(job.id, job.request, job.Remaining());
    assert item in ActiveWork(s, Some(j));
    JoinsBeside(s, Some(j), s.jobs[j].request, s.jobs[j].prices[s.jobs[j].next - 1], s.jobs[j].Remaining(), cash, item);
    JoinsApart(s, Some(j), s.jobs[j].request, s.jobs[j].prices[s.jobs[j].next - 1], s.jobs[j].Remaining(),
               cash, job.request, job.id, job.Remaining());
  }

  /** A place forwarded alone leaves one open order. */
  lemma AloneLeavesOne(s: RunState, j: nat, after: Job)
    requires JobsInv(s) && EndInv(s) && !s.placementEnded && j < |s.jobs|
    requires OtherWork(s, Some(j)) == []
    ensures OpenCount(s.jobs[j := after]) <= 1 && s.unresolved == []
  {
    assert ActiveWork(s, Some(j)) == [];
    forall k | 0 <= k < |s.jobs| && k != j ensures !OpenAtBroker(s.jobs[k]) {
      LiveIsActive(s, k);
      if s.jobs[k].Active() { JobIsListed(s.jobs, Some(j), k); }
    }
    CountOnlyOne(s.jobs[j := after], j);
  }

  /** A place forwarded beside other work leaves all open orders, the earlier runs' included, within
      the cash of the snapshot it was checked against. */
  lemma BesideOthersFits(s: RunState, j: nat, cash: int)
    requires JobsInv(s) && EndInv(s) && !s.placementEnded && Joining(s, j, cash)
    requires Shows(s.unresolved, s.earlier) && OtherWork(s, Some(j)) != []
    ensures TotalOpen(s.jobs[j := Forwarded(s.jobs[j])], s.multipliers, None) + WorkingTotal(s.earlier, s.multipliers)
            <= cash
  {
    forall k | 0 <= k < |s.jobs| ensures OpenAtBroker(s.jobs[k]) ==> s.jobs[k].Active() { LiveIsActive(s, k); }
    forall k | 0 <= k < |s.jobs| && k != j && s.jobs[k].Active() ensures PricedClose(s.jobs[k], s.multipliers) {
      ListedIsPriced(s, j, cash, k);
    }
    OthersWithinCheck(s.jobs, j, s.multipliers);
    FitsWhenOthersFit(s, j, cash);
    forall u | 0 <= u < |s.unresolved| ensures WorkingDebit(s.unresolved[u], s.multipliers).Some? {
      assert s.unresolved[u] in OtherWork(s, Some(j));
      JoinsBeside(s, Some(j), s.jobs[j].request, s.jobs[j].prices[s.jobs[j].next - 1], s.jobs[j].Remaining(), cash,
                  s.unresolved[u]);
    }
    LeftWithinShown(s.unresolved, s.earlier, s.multipliers);
  }

  /** What is really left of the earlier runs' orders costs no more than what the ledger shows. */
  lemma {:induction false} LeftWithinShown(unresolved: seq<WorkingPlacement>, earlier: seq<WorkingPlacement>,
                                           multipliers: Multipliers)
    requires Shows(unresolved, earlier)
    requires forall u :: 0 <= u < |unresolved| ==> WorkingDebit(unresolved[u], multipliers).Some?
    ensures WorkingTotal(earlier, multipliers) <= WorkingTotal(unresolved, multipliers)
  {
    if earlier != [] {
      var n := |earlier| - 1;
      LeftWithinShown(unresolved[..n], earlier[..n], multipliers);
      LessCostsLess(unresolved[n], earlier[n].remaining.value, multipliers);
    }
  }

  /** An item with less left of it costs no more. */
  lemma LessCostsLess(w: WorkingPlacement, remaining: nat, multipliers: Multipliers)
    requires w.remaining.Some? && remaining <= w.remaining.value
    ensures Amount(WorkingDebit(w.(remaining := Some(remaining)), multipliers)) <= Amount(WorkingDebit(w, multipliers))
  {
    var m := MultiplierOf(multipliers, w.optionId);
    if w.limitPrice.Some? && m.Some? { MulMonotone(remaining, w.remaining.value, w.limitPrice.value * m.value); }
  }

  /** The placement job `j` asks for. */
  function Asked(s: RunState, j: nat): NewPlacement
    requires j < |s.jobs| && 0 < s.jobs[j].next <= |s.jobs[j].prices|
  {
    Placement(s.jobs[j].request, s.jobs[j].prices[s.jobs[j].next - 1], s.jobs[j].Remaining())
  }

  /** The check compares the other work and the new order with the cash. */
  lemma CheckedTotal(s: RunState, j: nat, cash: int)
    requires Joining(s, j, cash) && OtherWork(s, Some(j)) != []
    ensures WorkingTotal(OtherWork(s, Some(j)), s.multipliers)
            + LegsTotal(Asked(s, j), Asked(s, j).legs, s.multipliers) <= cash
  { }

  lemma OthersWithinTotal(s: RunState, j: nat)
    ensures WorkingTotal(s.unresolved, s.multipliers) + WorkingTotal(ActiveItems(s.jobs, Some(j)), s.multipliers)
            <= WorkingTotal(OtherWork(s, Some(j)), s.multipliers)
  {
    WorkingTotalAppend(s.unresolved, ActiveWork(s, Some(j)), s.multipliers);
    WorkingTotalAppend(ActiveItems(s.jobs, Some(j)), ReservedItems(s.reserved), s.multipliers);
  }

  lemma FitsWhenOthersFit(s: RunState, j: nat, cash: int)
    requires Joining(s, j, cash) && OtherWork(s, Some(j)) != []
    requires TotalOpen(s.jobs, s.multipliers, Some(j)) <= WorkingTotal(ActiveItems(s.jobs, Some(j)), s.multipliers)
    ensures TotalOpen(s.jobs[j := Forwarded(s.jobs[j])], s.multipliers, None) + WorkingTotal(s.unresolved, s.multipliers)
            <= cash
  {
    TotalPut(s.jobs, j, Forwarded(s.jobs[j]), s.multipliers);
    OthersWithinTotal(s, j);
    OwnDebit(s, j, cash);
    CheckedTotal(s, j, cash);
  }

  /** The check counts the new order at exactly what it will cost. */
  lemma OwnDebit(s: RunState, j: nat, cash: int)
    requires Joining(s, j, cash) && OtherWork(s, Some(j)) != []
    ensures LegsTotal(Asked(s, j), Asked(s, j).legs, s.multipliers) == OpenDebit(Forwarded(s.jobs[j]), s.multipliers)
  {
    var placement := Asked(s, j);
    assert placement.legs[..0] == [];
    assert LegDebit(placement, placement.legs[0], s.multipliers).Some?;
  }

  lemma FundsKeptByForward(s: RunState, e: Event)
    requires JobsInv(s) && EndInv(s) && LockInv(s) && GateInv(s) && e.ForwardPlace? && JobEnabled(s, e)
    requires Shows(s.unresolved, s.earlier)
    ensures FundsInv(JobApply(s, e))
  {
    assert JobAfter(s, e) == Forwarded(s.jobs[e.j]);
    assert s.lockHolder == Some(e.j) && s.Sending();
    if OtherWork(s, Some(e.j)) == [] { AloneLeavesOne(s, e.j, JobAfter(s, e)); }
    else { BesideOthersFits(s, e.j, s.jobs[e.j].pc.snapshotCash); }
  }

  // ---- Job events keep the run's invariant -------------------------------------------------

  /** No event but a place changes what an order costs or whether it is open. */
  lemma OrdersCostTheSame(s: RunState, e: Event)
    requires JobEvent(e) && JobEnabled(s, e) && !e.ForwardPlace? && JobInv(s.jobs[e.j])
    ensures OpenAtBroker(JobAfter(s, e)) <==> OpenAtBroker(s.jobs[e.j])
    ensures OpenDebit(JobAfter(s, e), s.multipliers) == OpenDebit(s.jobs[e.j], s.multipliers)
    ensures JobAfter(s, e).request == s.jobs[e.j].request
  { }

  /** A job holds the lock from acquiring it to its place's answer. */
  lemma LockOnlyToPlace(s: RunState, e: Event)
    requires JobEvent(e) && JobEnabled(s, e)
    ensures HasLock(JobAfter(s, e)) <==> e.AcquireLock? || e.PassGate? || e.ForwardPlace?
    ensures e.AcquireLock? ==> s.lockHolder.None?
    ensures e.PassGate? || e.ForwardPlace? ==> HasLock(s.jobs[e.j])
  { }

  lemma LockPut(s: RunState, t: RunState, j: nat, takes: bool, keeps: bool)
    requires LockInv(s) && j < |s.jobs| && |t.jobs| == |s.jobs|
    requires forall k :: 0 <= k < |s.jobs| && k != j ==> t.jobs[k] == s.jobs[k]
    requires HasLock(t.jobs[j]) <==> takes || keeps
    requires takes ==> s.lockHolder.None?
    requires keeps ==> HasLock(s.jobs[j])
    requires t.lockHolder == if takes then Some(j)
                             else if s.lockHolder == Some(j) && !keeps then None else s.lockHolder
    ensures LockInv(t)
  { }

  lemma LockKept(s: RunState, e: Event)
    requires JobEvent(e) && JobEnabled(s, e) && LockInv(s)
    ensures LockInv(JobApply(s, e))
  {
    LockOnlyToPlace(s, e);
    SharedAfter(s, e);
    LockPut(s, JobApply(s, e), e.j, e.AcquireLock?, e.PassGate? || e.ForwardPlace?);
  }

  lemma StepsStayKnown(s: RunState, e: Event)
    requires JobEvent(e) && JobEnabled(s, e) && JobInv(s.jobs[e.j]) && Untouched(s.jobs[e.j])
    ensures JobAfter(s, e).Active() ==> Untouched(JobAfter(s, e))
  { }

  /** The shared part of the state after a job's event. */
  lemma SharedAfter(s: RunState, e: Event)
    requires JobEvent(e) && JobEnabled(s, e)
    ensures var t := JobApply(s, e);
            && t.jobs == s.jobs[e.j := JobAfter(s, e)]
            && t.reserved == s.reserved && t.multipliers == s.multipliers && t.halted == s.halted
            && t.unresolved == s.unresolved && t.earlier == s.earlier
            && (s.placementEnded ==> t.placementEnded) && (s.stop ==> t.stop)
            && (EndsPlacement(s, e) ==> t.placementEnded)
            && (!e.ForwardPlace? ==> t.cash == s.cash)
    ensures s.jobs[e.j].Active()
    ensures JobAfter(s, e).request == s.jobs[e.j].request && JobAfter(s, e).id == s.jobs[e.j].id
    ensures JobAfter(s, e).Salvaging() ==> s.jobs[e.j].Salvaging() || e.Crash?
  { }

  lemma EndKept(s: RunState, e: Event)
    requires JobEvent(e) && JobEnabled(s, e) && EndInv(s)
    ensures EndInv(JobApply(s, e))
  {
    SharedAfter(s, e);
  }

  lemma ApartKept(s: RunState, t: RunState, j: nat)
    requires ApartInv(s) && j < |s.jobs| && s.jobs[j].Live()
    requires t.reserved == s.reserved && |t.jobs| == |s.jobs| && t.multipliers == s.multipliers
    requires forall k :: 0 <= k < |s.jobs| && k != j ==> t.jobs[k] == s.jobs[k]
    requires t.jobs[j].request == s.jobs[j].request
    ensures ApartInv(t)
  { }

  lemma EarlierKept(s: RunState, t: RunState, j: nat)
    requires EarlierInv(s) && j < |s.jobs| && s.jobs[j].Live()
    requires t.reserved == s.reserved && |t.jobs| == |s.jobs| && t.multipliers == s.multipliers
    requires t.unresolved == s.unresolved
    requires forall k :: 0 <= k < |s.jobs| && k != j ==> t.jobs[k] == s.jobs[k]
    requires t.jobs[j].request == s.jobs[j].request
    ensures EarlierInv(t)
  { }

  lemma {:induction false} SameItems(a: seq<Job>, b: seq<Job>, exclude: Option<nat>)
    requires |a| == |b|
    requires forall k :: 0 <= k < |a| && exclude != Some(k) ==>
               a[k].id == b[k].id && a[k].request == b[k].request && a[k].Remaining() == b[k].Remaining()
               && a[k].Active() == b[k].Active()
    ensures ActiveItems(a, exclude) == ActiveItems(b, exclude)
  {
    if a != [] { SameItems(a[..|a| - 1], b[..|b| - 1], exclude); }
  }

  /** Passing the gate is joining, and stays so. */
  lemma StillJoining(s: RunState, t: RunState, j: nat, cash: int)
    requires Joining(s, j, cash) && |t.jobs| == |s.jobs| && t.reserved == s.reserved
    requires t.unresolved == s.unresolved && t.multipliers == s.multipliers
    requires forall k :: 0 <= k < |s.jobs| ==>
               && t.jobs[k].id == s.jobs[k].id && t.jobs[k].request == s.jobs[k].request
               && t.jobs[k].Remaining() == s.jobs[k].Remaining() && (k != j ==> t.jobs[k].Active() == s.jobs[k].Active())
    requires t.jobs[j].prices == s.jobs[j].prices && t.jobs[j].next == s.jobs[j].next
    ensures Joining(t, j, cash)
  {
    SameItems(s.jobs, t.jobs, Some(j));
  }

  lemma OnlyTheGateClears(s: RunState, e: Event)
    requires JobEvent(e) && JobEnabled(s, e) && !e.PassGate?
    ensures !JobAfter(s, e).pc.Cleared?
  { }

  lemma GateKept(s: RunState, e: Event)
    requires JobEvent(e) && JobEnabled(s, e) && LockInv(s) && GateInv(s)
    ensures GateInv(JobApply(s, e))
  {
    SharedAfter(s, e);
    if e.PassGate? {
      GatePassed(s, e);
    } else {
      OnlyTheGateClears(s, e);
      NoneCleared(s, JobApply(s, e), e);
    }
  }

  lemma GatePassed(s: RunState, e: Event)
    requires e.PassGate? && JobEnabled(s, e) && LockInv(s)
    ensures GateInv(JobApply(s, e))
  {
    var t := JobApply(s, e);
    assert s.lockHolder == Some(e.j) && t.lockHolder == Some(e.j);
    StillJoining(s, t, e.j, e.snapshotCash);
  }

  lemma NoneCleared(s: RunState, t: RunState, e: Event)
    requires JobEvent(e) && JobEnabled(s, e) && t == JobApply(s, e) && t.jobs == s.jobs[e.j := JobAfter(s, e)]
    requires !JobAfter(s, e).pc.Cleared? && LockInv(s)
    ensures !t.Sending()
  {
    assert t.lockHolder != Some(e.j) && t.Sending() ==> s.Sending();
  }

  lemma FundsKept(s: RunState, e: Event)
    requires JobEvent(e) && JobEnabled(s, e) && JobsInv(s) && EndInv(s) && LockInv(s) && GateInv(s) && FundsInv(s)
    requires Shows(s.unresolved, s.earlier)
    ensures FundsInv(JobApply(s, e))
  {
    if e.ForwardPlace? {
      FundsKeptByForward(s, e);
    } else {
      OrdersCostTheSame(s, e);
      FundsKeptByPut(s, e.j, JobAfter(s, e));
      SharedAfter(s, e);
    }
  }

  lemma AgentKept(s: RunState, e: Event)
    requires JobEvent(e) && JobEnabled(s, e) && JobInv(s.jobs[e.j]) && AgentInv(s)
    ensures AgentInv(JobApply(s, e))
  {
    SharedAfter(s, e);
    StepsStayKnown(s, e);
  }

  lemma JobsKept(s: RunState, e: Event)
    requires JobEvent(e) && JobEnabled(s, e) && JobsInv(s)
    ensures JobsInv(JobApply(s, e))
  {
    SharedAfter(s, e);
    JobEventKeeps(s, e);
  }

  lemma WorkKept(s: RunState, e: Event)
    requires JobEvent(e) && JobEnabled(s, e) && ReservationInv(s) && ApartInv(s) && EarlierInv(s)
    ensures ReservationInv(JobApply(s, e)) && ApartInv(JobApply(s, e)) && EarlierInv(JobApply(s, e))
  {
    SharedAfter(s, e);
    ApartKept(s, JobApply(s, e), e.j);
    EarlierKept(s, JobApply(s, e), e.j);
  }

  lemma JobEventKeepsInv(s: RunState, e: Event)
    requires JobEvent(e) && JobEnabled(s, e) && Inv(s)
    ensures Inv(JobApply(s, e))
  {
    JobsKept(s, e);
    LockKept(s, e);
    EndKept(s, e);
    GateKept(s, e);
    AgentKept(s, e);
    FundsKept(s, e);
    WorkKept(s, e);
    SharedAfter(s, e);
  }

  // ---- Admission, reservation, and start ---------------------------------------------------

  lemma {:induction false} WithoutIs(reserved: seq<Reservation>, id: nat)
    ensures forall x :: x in WithoutReservation(reserved, id) <==> x in reserved && x.id != id
  {
    if reserved != [] { WithoutIs(reserved[..|reserved| - 1], id); }
  }

  lemma {:induction false} WithoutDistinct(reserved: seq<Reservation>, id: nat)
    requires DistinctIds(reserved)
    ensures DistinctIds(WithoutReservation(reserved, id))
  {
    if reserved != [] {
      var n := |reserved| - 1;
      WithoutDistinct(reserved[..n], id);
      WithoutIs(reserved[..n], id);
      var before := WithoutReservation(reserved[..n], id);
      forall r | 0 <= r < |before| ensures before[r].id != reserved[n].id {
        assert before[r] in before;
        var k :| 0 <= k < n && reserved[k] == before[r];
      }
    }
  }

  lemma ReservedApart(s: RunState, a: Reservation, b: Reservation)
    requires ReservationInv(s) && ApartInv(s) && a in s.reserved && b in s.reserved && a.id != b.id
    ensures Apart(a.request, b.request, s.multipliers)
  {
    var r :| 0 <= r < |s.reserved| && s.reserved[r] == a;
    var q :| 0 <= q < |s.reserved| && s.reserved[q] == b;
  }

  lemma ReleaseKeeps(s: RunState, id: nat)
    requires ReservationInv(s) && ApartInv(s)
    ensures var t := s.(reserved := WithoutReservation(s.reserved, id)); ReservationInv(t) && ApartInv(t)
  {
    var w := WithoutReservation(s.reserved, id);
    WithoutIs(s.reserved, id);
    WithoutDistinct(s.reserved, id);
    forall r | 0 <= r < |w| ensures w[r] in s.reserved { assert w[r] in w; }
    forall r, q | 0 <= r < q < |w| ensures Apart(w[r].request, w[q].request, s.multipliers) {
      assert w[r] in w && w[q] in w;
      ReservedApart(s, w[r], w[q]);
    }
  }

  lemma ReleaseKeepsEarlier(s: RunState, id: nat)
    requires EarlierInv(s)
    ensures EarlierInv(s.(reserved := WithoutReservation(s.reserved, id)))
  {
    var w := WithoutReservation(s.reserved, id);
    WithoutIs(s.reserved, id);
    forall r | 0 <= r < |w| ensures w[r] in s.reserved { assert w[r] in w; }
  }

  lemma AdmittedApartFromJob(s: RunState, e: Event, k: nat)
    requires e.Admit? && SharedEnabled(s, e) && JobsInv(s) && EndInv(s)
    requires k < |s.jobs| && s.jobs[k].Live()
    ensures Apart(s.jobs[k].request, e.request, s.multipliers)
  {
    LiveIsActive(s, k);
    JobIsListed(s.jobs, None, k);
    JoinsApart(s, None, e.request, e.request.startPrice, e.request.quantity, e.snapshotCash,
               s.jobs[k].request, s.jobs[k].id, s.jobs[k].Remaining());
  }

  lemma AdmittedApartFromReserved(s: RunState, e: Event, r: nat)
    requires e.Admit? && SharedEnabled(s, e) && r < |s.reserved|
    ensures Apart(s.reserved[r].request, e.request, s.multipliers)
  {
    ReservationIsListed(s.reserved, r);
    JoinsApart(s, None, e.request, e.request.startPrice, e.request.quantity, e.snapshotCash,
               s.reserved[r].request, s.reserved[r].id, s.reserved[r].request.quantity);
  }

  lemma ReservingKeeps(s: RunState, id: nat, request: WorkRequest)
    requires ReservationInv(s) && ApartInv(s) && request.quantity > 0 && !IdTaken(s, id)
    requires forall k :: 0 <= k < |s.jobs| && s.jobs[k].Live() ==> Apart(s.jobs[k].request, request, s.multipliers)
    requires forall r :: 0 <= r < |s.reserved| ==> Apart(s.reserved[r].request, request, s.multipliers)
    ensures var t := s.(reserved := s.reserved + [Reservation(id, request)]); ReservationInv(t) && ApartInv(t)
  { }

  /** An admitted request may coexist with everything of this run that counts as work. */
  lemma AdmitKeeps(s: RunState, e: Event)
    requires e.Admit? && SharedEnabled(s, e)
    requires JobsInv(s) && EndInv(s) && ReservationInv(s) && ApartInv(s)
    ensures ReservationInv(SharedApply(s, e)) && ApartInv(SharedApply(s, e))
  {
    forall k | 0 <= k < |s.jobs| && s.jobs[k].Live() ensures Apart(s.jobs[k].request, e.request, s.multipliers) {
      AdmittedApartFromJob(s, e, k);
    }
    forall r | 0 <= r < |s.reserved| ensures Apart(s.reserved[r].request, e.request, s.multipliers) {
      AdmittedApartFromReserved(s, e, r);
    }
    ReservingKeeps(s, e.id, e.request);
  }

  /** An admitted request may coexist with every unresolved order of the tick's earlier runs. */
  lemma AdmitKeepsEarlier(s: RunState, e: Event)
    requires e.Admit? && SharedEnabled(s, e) && EarlierInv(s)
    ensures EarlierInv(SharedApply(s, e))
  {
    forall u | 0 <= u < |s.unresolved| ensures ApartFrom(s.unresolved[u], e.request, s.multipliers) {
      assert s.unresolved[u] in OtherWork(s, None);
      JoinsBeside(s, None, e.request, e.request.startPrice, e.request.quantity, e.snapshotCash, s.unresolved[u]);
    }
  }

  lemma {:induction false} TotalsOfNew(jobs: seq<Job>, job: Job, multipliers: Multipliers)
    requires job.orders == []
    ensures TotalOpen(jobs + [job], multipliers, None) == TotalOpen(jobs, multipliers, None)
    ensures OpenCount(jobs + [job]) == OpenCount(jobs)
  {
    assert (jobs + [job])[..|jobs|] == jobs;
  }

  /** The one reservation with this id. */
  lemma ReservationOf(s: RunState, id: nat, r: nat)
    requires ReservationInv(s) && r < |s.reserved| && s.reserved[r].id == id
    ensures RequestOf(s.reserved, id) == s.reserved[r].request
  {
    var q :| 0 <= q < |s.reserved| && s.reserved[q].id == id && s.reserved[q].request == RequestOf(s.reserved, id);
    assert q == r;
  }

  /** A reservation that becomes a job keeps its place among the work. */
  lemma StartedIsApart(s: RunState, id: nat, r: nat, job: Job)
    requires ReservationInv(s) && ApartInv(s) && r < |s.reserved| && s.reserved[r].id == id
    requires job.request == s.reserved[r].request
    ensures ApartInv(s.(reserved := WithoutReservation(s.reserved, id), jobs := s.jobs + [job]))
  {
    ReleaseKeeps(s, id);
    WithoutIs(s.reserved, id);
    var w := WithoutReservation(s.reserved, id);
    forall q | 0 <= q < |w| ensures Apart(job.request, w[q].request, s.multipliers) {
      assert w[q] in w;
      ReservedApart(s, s.reserved[r], w[q]);
    }
  }

  lemma StartedKeepsEarlier(s: RunState, id: nat, r: nat, job: Job)
    requires EarlierInv(s) && r < |s.reserved| && job.request == s.reserved[r].request
    ensures EarlierInv(s.(reserved := WithoutReservation(s.reserved, id), jobs := s.jobs + [job]))
  {
    ReleaseKeepsEarlier(s, id);
  }

  /** A new job has no lock, no end, no step, and no order. */
  lemma NewJobKeeps(s: RunState, t: RunState, job: Job)
    requires JobsInv(s) && LockInv(s) && EndInv(s) && AgentInv(s)
    requires t.jobs == s.jobs + [job] && t.lockHolder == s.lockHolder && t.placementEnded == s.placementEnded
    requires JobInv(job) && job.pc.Ready? && job.steps == [] && job.orders == []
    ensures JobsInv(t) && LockInv(t) && EndInv(t) && AgentInv(t)
  { }

  /** Outside a job's own task no place passes its checks. */
  lemma NotSendingKept(s: RunState, e: Event)
    requires !JobEvent(e) && SharedEnabled(s, e) && LockInv(s) && !s.Sending()
    ensures !SharedApply(s, e).Sending()
  {
    if s.lockHolder.Some? { assert s.lockHolder.value < |s.jobs|; }
  }

  lemma StartKeepsInv(s: RunState, e: Event)
    requires e.Start? && SharedEnabled(s, e) && Inv(s)
    ensures Inv(SharedApply(s, e))
  {
    var r :| 0 <= r < |s.reserved| && s.reserved[r].id == e.id && Planned(s.reserved[r].request, e.prices);
    ReservationOf(s, e.id, r);
    var job := NewJob(e.id, s.reserved[r].request, e.prices);
    var t := SharedApply(s, e);
    assert t == s.(reserved := WithoutReservation(s.reserved, e.id), jobs := s.jobs + [job]);
    assert JobInv(job);
    StartedIsApart(s, e.id, r, job);
    StartedKeepsEarlier(s, e.id, r, job);
    ReleaseKeeps(s, e.id);
    TotalsOfNew(s.jobs, job, s.multipliers);
    NewJobKeeps(s, t, job);
    NotSendingKept(s, e);
  }

  // ---- The broker, the agent, and the earlier runs' orders -----------------------------------

  predicate BrokerEvent(e: Event) { e.BrokerFill? || e.BrokerClose? || e.AgentCancel? }

  /** The broker closes or fills an open order, or the agent's cancel reaches one. */
  predicate BrokerMoves(before: BrokerOrder, after: BrokerOrder) {
    && after.price == before.price && after.quantity == before.quantity && after.cancels == before.cancels
    && before.filled <= after.filled <= after.quantity
    && (before.closed ==> after.closed && after.filled == before.filled)
  }

  lemma OpenDebitShrinks(job: Job, i: nat, order: BrokerOrder, multipliers: Multipliers)
    requires JobInv(job) && i < |job.orders| && BrokerMoves(job.orders[i], order)
    ensures var later := job.(orders := job.orders[i := order]);
            && (OpenAtBroker(later) ==> OpenAtBroker(job))
            && OpenDebit(later, multipliers) <= OpenDebit(job, multipliers)
  {
    var n := |job.orders| - 1;
    if i == n && !order.closed {
      var m := Amount(MultiplierOf(multipliers, Some(job.request.optionId)));
      MulMonotone(order.quantity - order.filled, order.quantity - job.orders[n].filled, order.price * m);
    }
  }

  lemma FilledWithinQuantity(job: Job, i: nat)
    requires JobInv(job) && i < |job.orders|
    ensures job.orders[i].filled <= job.orders[i].quantity
  {
    if i < |job.orders| - 1 { EarlierClosed(job, i); }
  }

  lemma BrokerEventIs(s: RunState, e: Event)
    requires BrokerEvent(e) && SharedEnabled(s, e) && JobInv(s.jobs[e.j])
    ensures e.i < |SharedApply(s, e).jobs[e.j].orders|
    ensures var job, order := s.jobs[e.j], SharedApply(s, e).jobs[e.j].orders[e.i];
            && SharedApply(s, e) == s.Put(e.j, job.(orders := job.orders[e.i := order]))
            && BrokerMoves(job.orders[e.i], order)
            && order.agentCancels == job.orders[e.i].agentCancels + (if e.AgentCancel? then 1 else 0)
  {
    FilledWithinQuantity(s.jobs[e.j], e.i);
  }

  /** The agent's own cancel reaches an order only after its job has ended. */
  lemma AgentCancelsOnlyEnded(s: RunState, j: nat, i: nat)
    requires Inv(s) && SharedEnabled(s, AgentCancel(j, i))
    ensures !s.jobs[j].Active()
  {
    var job := s.jobs[j];
    assert JobInv(job) && (job.Active() ==> Untouched(job));
    assert HasLock(job) ==> s.lockHolder.Some?;
  }

  lemma BrokerKeepsAgentInv(s: RunState, e: Event)
    requires BrokerEvent(e) && SharedEnabled(s, e) && Inv(s)
    ensures AgentInv(SharedApply(s, e))
  {
    if e.AgentCancel? { AgentCancelsOnlyEnded(s, e.j, e.i); }
  }

  lemma BrokerKeepsFlags(s: RunState, j: nat, job: Job)
    requires LockInv(s) && EndInv(s) && ReservationInv(s) && j < |s.jobs| && job.pc == s.jobs[j].pc
    ensures var t := s.Put(j, job); LockInv(t) && EndInv(t) && ReservationInv(t)
  { }

  lemma BrokerKeepsGate(s: RunState, j: nat, job: Job)
    requires LockInv(s) && GateInv(s) && j < |s.jobs| && job == s.jobs[j].(orders := job.orders)
    ensures GateInv(s.Put(j, job))
  {
    var t := s.Put(j, job);
    if s.Sending() {
      StillJoining(s, t, s.lockHolder.value, s.jobs[s.lockHolder.value].pc.snapshotCash);
    }
  }

  lemma BrokerEventKeepsInv(s: RunState, e: Event)
    requires BrokerEvent(e) && SharedEnabled(s, e) && Inv(s)
    ensures Inv(SharedApply(s, e))
  {
    BrokerEventIs(s, e);
    BrokerKeepsAgentInv(s, e);
    var order := SharedApply(s, e).jobs[e.j].orders[e.i];
    BrokerPutKeeps(s, e.j, e.i, order);
    BrokerKeepsFlags(s, e.j, s.jobs[e.j].(orders := s.jobs[e.j].orders[e.i := order]));
    BrokerKeepsGate(s, e.j, s.jobs[e.j].(orders := s.jobs[e.j].orders[e.i := order]));
  }

  lemma BrokerPutKeeps(s: RunState, j: nat, i: nat, order: BrokerOrder)
    requires JobsInv(s) && ApartInv(s) && EarlierInv(s) && FundsInv(s)
    requires j < |s.jobs| && i < |s.jobs[j].orders| && BrokerMoves(s.jobs[j].orders[i], order)
    ensures var t := s.Put(j, s.jobs[j].(orders := s.jobs[j].orders[i := order]));
            JobsInv(t) && ApartInv(t) && EarlierInv(t) && FundsInv(t)
  {
    var later := s.jobs[j].(orders := s.jobs[j].orders[i := order]);
    BrokerKeeps(s.jobs[j], i, order);
    FundsKeptByPut(s, j, later) by { OpenDebitShrinks(s.jobs[j], i, order, s.multipliers); }
    BrokerNeverRevives(s, s.Put(j, later), j);
    BrokerKeepsApart(s, s.Put(j, later), j);
  }

  lemma BrokerNeverRevives(s: RunState, t: RunState, j: nat)
    requires j < |s.jobs| && |t.jobs| == |s.jobs| && t.jobs[j].pc == s.jobs[j].pc
    requires |t.jobs[j].orders| == |s.jobs[j].orders|
    requires forall i :: 0 <= i < |s.jobs[j].orders| && s.jobs[j].orders[i].closed ==> t.jobs[j].orders[i].closed
    ensures t.jobs[j].Live() ==> s.jobs[j].Live()
  {
    if t.jobs[j].HasOpenOrder() {
      var i :| 0 <= i < |t.jobs[j].orders| && !t.jobs[j].orders[i].closed;
      assert !s.jobs[j].orders[i].closed;
    }
  }

  lemma BrokerKeepsApart(s: RunState, t: RunState, j: nat)
    requires ApartInv(s) && EarlierInv(s) && j < |s.jobs| && t.reserved == s.reserved && |t.jobs| == |s.jobs|
    requires t.unresolved == s.unresolved && t.multipliers == s.multipliers
    requires forall k :: 0 <= k < |s.jobs| && k != j ==> t.jobs[k] == s.jobs[k]
    requires t.jobs[j].request == s.jobs[j].request && (t.jobs[j].Live() ==> s.jobs[j].Live())
    ensures ApartInv(t) && EarlierInv(t)
  { }

  predicate EarlierEvent(e: Event) { e.EarlierFill? || e.EarlierRead? || e.EarlierResolved? }

  lemma {:induction false} WorkingTotalPut(working: seq<WorkingPlacement>, i: nat, w: WorkingPlacement,
                                           multipliers: Multipliers)
    requires i < |working| && Amount(WorkingDebit(w, multipliers)) <= Amount(WorkingDebit(working[i], multipliers))
    ensures WorkingTotal(working[i := w], multipliers) <= WorkingTotal(working, multipliers)
  {
    var n := |working| - 1;
    if i < n {
      assert working[i := w][..n] == working[..n][i := w];
      WorkingTotalPut(working[..n], i, w, multipliers);
    } else {
      assert working[i := w][..n] == working[..n];
    }
  }

  /** What is really left of the earlier runs' orders costs no more than before, the ledger still
      shows at least that, and the same work may coexist with them. */
  predicate EarlierKeeps(s: RunState, t: RunState) {
    && WorkingTotal(t.earlier, s.multipliers) <= WorkingTotal(s.earlier, s.multipliers)
    && (t.earlier != [] ==> s.earlier != [])
    && Shows(t.unresolved, t.earlier) && EarlierInv(t)
  }

  lemma FillKeepsEarlier(s: RunState, e: Event)
    requires e.EarlierFill? && SharedEnabled(s, e) && EarlierInv(s) && Shows(s.unresolved, s.earlier)
    ensures EarlierKeeps(s, SharedApply(s, e))
  {
    var later := s.earlier[e.i].(remaining := Some(e.remaining));
    LessCostsLess(s.earlier[e.i], e.remaining, s.multipliers);
    WorkingTotalPut(s.earlier, e.i, later, s.multipliers);
  }

  /** A read of an earlier order may show more again, never less than is left. */
  lemma ReadKeepsEarlier(s: RunState, e: Event)
    requires e.EarlierRead? && SharedEnabled(s, e) && EarlierInv(s) && Shows(s.unresolved, s.earlier)
    ensures EarlierKeeps(s, SharedApply(s, e))
  {
    var t := SharedApply(s, e);
    forall a | ApartFrom(s.unresolved[e.i], a, s.multipliers) ensures ApartFrom(t.unresolved[e.i], a, s.multipliers) { }
  }

  function Without(working: seq<WorkingPlacement>, i: nat): (rest: seq<WorkingPlacement>)
    requires i < |working|
    ensures |rest| == |working| - 1
    ensures forall u :: 0 <= u < |rest| ==> rest[u] == working[if u < i then u else u + 1]
  {
    working[..i] + working[i + 1..]
  }

  lemma WithoutShows(unresolved: seq<WorkingPlacement>, earlier: seq<WorkingPlacement>, i: nat)
    requires Shows(unresolved, earlier) && i < |earlier|
    ensures Shows(Without(unresolved, i), Without(earlier, i))
  { }

  lemma WithoutKeepsEarlierInv(s: RunState, t: RunState, i: nat)
    requires EarlierInv(s) && i < |s.unresolved| && t.unresolved == Without(s.unresolved, i)
    requires t.jobs == s.jobs && t.reserved == s.reserved && t.multipliers == s.multipliers
    ensures EarlierInv(t)
  { }

  lemma ResolvedKeepsEarlier(s: RunState, e: Event)
    requires e.EarlierResolved? && SharedEnabled(s, e) && EarlierInv(s) && Shows(s.unresolved, s.earlier)
    ensures EarlierKeeps(s, SharedApply(s, e))
  {
    TotalWithout(s.earlier, e.i, s.multipliers);
    WithoutShows(s.unresolved, s.earlier, e.i);
    WithoutKeepsEarlierInv(s, SharedApply(s, e), e.i);
  }

  /** Fills of an earlier run's order, reads of it that show fewer or more contracts left, and its
      being resolved. */
  lemma EarlierEventKeepsInv(s: RunState, e: Event)
    requires EarlierEvent(e) && SharedEnabled(s, e) && Inv(s)
    ensures Inv(SharedApply(s, e))
  {
    if e.EarlierFill? { FillKeepsEarlier(s, e); }
    else if e.EarlierRead? { ReadKeepsEarlier(s, e); }
    else { ResolvedKeepsEarlier(s, e); }
    if e.EarlierFill? { FillKeepsGate(s, e); } else { NotSendingKept(s, e); }
  }

  lemma FillKeepsGate(s: RunState, e: Event)
    requires e.EarlierFill? && SharedEnabled(s, e) && LockInv(s) && GateInv(s)
    ensures GateInv(SharedApply(s, e))
  {
    if s.Sending() {
      StillJoining(s, SharedApply(s, e), s.lockHolder.value, s.jobs[s.lockHolder.value].pc.snapshotCash);
    }
  }

  // ---- Every event --------------------------------------------------------------------------

  lemma AdmitKeepsInv(s: RunState, e: Event)
    requires e.Admit? && SharedEnabled(s, e) && Inv(s)
    ensures Inv(SharedApply(s, e))
  {
    AdmitKeeps(s, e);
    AdmitKeepsEarlier(s, e);
    NotSendingKept(s, e);
  }

  lemma ReleaseKeepsInv(s: RunState, e: Event)
    requires e.Release? && SharedEnabled(s, e) && Inv(s)
    ensures Inv(SharedApply(s, e))
  {
    ReleaseKeeps(s, e.id);
    ReleaseKeepsEarlier(s, e.id);
    NotSendingKept(s, e);
  }

  lemma FlagKeepsInv(s: RunState, e: Event)
    requires (e.RequestStop? || e.Halt?) && SharedEnabled(s, e) && Inv(s)
    ensures Inv(SharedApply(s, e))
  {
    var t := SharedApply(s, e);
    if s.Sending() {
      StillJoining(s, t, s.lockHolder.value, s.jobs[s.lockHolder.value].pc.snapshotCash);
    }
  }

  lemma SharedEventKeepsInv(s: RunState, e: Event)
    requires !JobEvent(e) && SharedEnabled(s, e) && Inv(s)
    ensures Inv(SharedApply(s, e))
  {
    if BrokerEvent(e) { BrokerEventKeepsInv(s, e); }
    else if EarlierEvent(e) { EarlierEventKeepsInv(s, e); }
    else if e.Start? { StartKeepsInv(s, e); }
    else if e.Admit? { AdmitKeepsInv(s, e); }
    else if e.Release? { ReleaseKeepsInv(s, e); }
    else { FlagKeepsInv(s, e); }
  }

  /** Every event of every interleaving keeps the invariant. */
  lemma EventKeepsInv(s: RunState, e: Event)
    requires Enabled(s, e) && Inv(s)
    ensures Inv(Apply(s, e))
  {
    if JobEvent(e) { JobEventKeepsInv(s, e); } else { SharedEventKeepsInv(s, e); }
  }
}
