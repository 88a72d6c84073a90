# The trading agent's protocols, modelled and proved in Dafny

The repository is an agent that trades options through a broker. Code, not the model, walks each
order's price; hooks and a proxy stand between every call and the broker; a run's record is
assembled deterministically from what was recorded. This project models those parts and proves
what they are for. `dafny verify dfyconfig.toml` checks everything.

**The order walk** (`OrderConcurrency`, `WalkSchedule`, `OrderWalk`, `OrderWalkJob`,
`OrderWalkSafety`, `OrderWalkRuns`, `OrderWalkExamples`, `WalkScript`, `WalkReasons`, `WalkRunner`).
`OrderWalk` is the whole run
as a state machine: any number of jobs, the placement lock, reservations, the unresolved orders of
the tick's earlier runs, the stop latch, `halt`, the run-wide end of placement, and the broker's own
truth about every forwarded order. An event is the code between two `await`s or less; the proxy's
check of a place and its send are two events, and only the stop latch and the broker act between
them. Broker answers, clocks, denials, crashes, and the order of events are free. Each safety claim
is a statement about all runs; where a documented rule fails, `OrderWalkExamples` has a run from a
fresh state that breaks it. `WalkRunner` is the source's class with its fields and loops; every
method changes the fields only by events the protocol enables, so its control flow is one of the
interleavings, and every claim about runs holds of it. Between its steps it relies only on what
`WaitingIsSafe` shows no other task can disturb. `WalkScript` says what one task does for what it
reads: each test of the clock and of a flag, each answer, and each call is a fact, noted where the
runner reads or makes it, and after every fact one next thing may be read or done. The runner is
proved to follow that script, and `WalkReasons` proves what the facts of a whole task then say.

**Record assembly** (`AssemblyEvents`, `Assembly`, `DryRun`, `Priorities`, `DryPlans`, and `Sorting`
for their orders). The event index, the two-pass association of recorded calls with decisions against
one declarative rule, the partition of all recorded actions, and the greedy dry-run reservations over
the decisions in priority order, with their conservation law.

**The simulated broker and its second overlay** (`SimulatedBroker`, `StartProbe`), **the session's
turns** (`RepairLoop`), **the proxied call** with everything that records an outcome of it, over all
runs of its books (`ProxyBooks`, `ProxyRuns`, `ProxyDispatch`), **the model's view of evidence**
(`ModelView`, `EnvelopeView`), and **OCC option symbols** (`OccSymbol`, `Numerals`).

Prices, amounts, and quantities are scaled integers (strikes are reals), times are milliseconds, and
identifiers are numbers. `x := *` in a method is a free choice: an answer, a clock, a signal, or a
failure of something outside the model. Of the broker it is assumed that a terminal order read is true
(`OrderWalk.Honest`), and that the fills the ledger has of an earlier run's order happened
(`OrderWalk.Shows`).

## Where the code and its documentation differ

- `domain/order_walk.py` says the last step is exactly on the worst price; with `max_steps = 1` it
  is the start price (`OneStepStopsAtStart`; `StepPrices` has the exact condition).
- "One cancel per order" holds of the executor. The agent may cancel an order of an ended job again
  (`AgentCancelsExactlyEnded`, reached in `AgentCancelsAgain`).
- `agent/start_probe.py` says its overlay is the simulated broker's. The two differ for a contract
  the real read lists as a closed row and the run then sells to open (`ClosedRowHidesAFill`), and for
  a contract with fills whose short row the mapper counts and the broker does not read: its quantity
  is a decimal text such as `2.0000`, or its id is in another letter case (`DecimalRowHidesAFill`;
  exactly these two: `OverlaysAgreeExactlyWhen`). Such a row also makes the broker refuse a close of
  the contract (`DecimalRowRefusesClose`).
- `agent/order_walk.py` documents `halt` as ending placement; one place already past its checks under
  the lock may still go (`HaltLetsOnePlaceLeave`; exactly when: `PlacesAfterHaltExactlyWhen`).
- `agent/order_walk.py` says that on the stop latch a job places nothing more. The proxy reads the
  latch once, before the order's intent is written; set between that check and the send, it lets
  that one action leave (`OrderLeavesAfterStop`, `StopLetsOnePlaceLeave`; no other:
  `OnlyTheClearedAfterStop`, `PlacesAfterStopExactlyWhen`).
- The executor's crash handling is described as one cancel of a working step that has none. A step
  whose cancel raised before it was sent is already marked and gets none
  (`CrashLeavesOrderUncancelled`; exactly when an order is left without its cancel:
  `WorkingOrderWasCancelled`).
- "FAILED only when nothing reached the broker" holds of the proxy's records
  (`ProxyFailedExactlyWhenNotSent`). `agent/hooks.py` says of a call the proxy has not claimed that it
  never reached the server; it may reach it afterwards (`FailedOrderIsSent`). `agent/session.py` calls
  the `unknown` of the session's end exact; it is also recorded for calls that were never sent
  (`UnsentOrderIsUnknown`). From what holds when each record is written, `FailureHookRecord`,
  `UnknownRecord`, `DenialRecord`, and `RegistrationRecord` say exactly when it stays right.
- A printed symbol keeps two digits of the year, so the round trip is exact only for 2000 to 2099
  (`RoundTripExactlyWhen`), and `\d` accepts other Unicode digits, which print as ASCII.

## Model

| member | source | states |
|---|---|---|
| OrderConcurrency.CheckConcurrency | src/wheelta_robinhood_agent/domain/order_concurrency.py:93-163 | no denial exactly when nothing is in flight and the placement is alone, or is one of closes on different contracts whose debits, every one known, together fit the settled cash of a verified snapshot that is no older than the rule allows; each denial exactly under its own condition, in the checks' order |
| OrderConcurrency.AdmissibleExactlyWhen | src/wheelta_robinhood_agent/domain/order_concurrency.py:76-163 | the recursive totals and the usable cash come to that condition on the recorded fields, both ways |
| OrderConcurrency.SumDebits | src/wheelta_robinhood_agent/domain/order_concurrency.py:127-150 | the total and the gaps the two loops accumulate: the debits of all other work and of the new legs, a gap for each one that cannot be priced |
| OrderConcurrency.AdmissibleWithout | src/wheelta_robinhood_agent/domain/order_concurrency.py:93-163 | counting a finished order as still working can only deny, never admit: admissibility is kept when any one working item goes |
| WalkSchedule.RoundToTickFavorsTrader | src/wheelta_robinhood_agent/domain/order_walk.py:69-80 | a rounded price is on a valid tick and never worse for the trader than what it rounds |
| WalkSchedule.RoundToTickNearest | src/wheelta_robinhood_agent/domain/order_walk.py:49-80 | when the cutoff lies on both ticks, rounding succeeds and gives the nearest valid price on the trader's side |
| WalkSchedule.StepPrices | src/wheelta_robinhood_agent/domain/order_walk.py:105-137 | a ladder starts at the start price and moves strictly toward the worst price over valid ticks, in at most `max_steps` prices; its prices are exactly those of the steps that go further than every step before; it ends on the worst price exactly when more than one step is allowed or the endpoints are equal; none exactly when an endpoint is bad or some step has no valid price, which never happens with aligned ticks |
| WalkSchedule.StepPriceIsNearest | src/wheelta_robinhood_agent/domain/order_walk.py:120-135 | with aligned ticks each step's price is, of the valid prices on the trader's side of the line between the ends, the nearest to it |
| WalkSchedule.OneStepStopsAtStart | src/wheelta_robinhood_agent/domain/order_walk.py:105-137 | the documented last step exactly on the worst price fails for a one-step walk between different endpoints |
| OrderWalkJob.NeverOverTrades | src/wheelta_robinhood_agent/agent/order_walk.py:802-903 | a job's counted fills never exceed its orders' true fills, which never exceed the requested quantity |
| OrderWalkJob.ExposureBound | src/wheelta_robinhood_agent/agent/order_walk.py:802-903 | counted fills plus the whole quantity of the one unsettled order never exceed the requested quantity |
| OrderWalkJob.OpenOnlyLast | src/wheelta_robinhood_agent/agent/order_walk.py:802-852 | only the last order of a job can still be open, and only while the job's record says it may be: a next one is forwarded after the previous is read terminal and settled |
| OrderWalkJob.CancelledAtMostOnce | src/wheelta_robinhood_agent/agent/order_walk.py:952-1018 | no order of a job in its invariant has had more than one cancel of the executor |
| OrderWalkJob.JobEventKeeps | src/wheelta_robinhood_agent/agent/order_walk.py:595-1043 | every step of a job's own task, under any answer, keeps the job's invariant |
| OrderWalkJob.BrokerKeeps | src/wheelta_robinhood_agent/agent/order_walk.py:802-1043 | fills and closes at the broker, at any moment, keep the job's invariant |
| OrderWalkSafety.BesideOthersFits | src/wheelta_robinhood_agent/domain/order_concurrency.py:127-163 | a place forwarded beside other work leaves all open orders at their limit prices, with what is really left of the tick's earlier orders, within the cash of the snapshot it was checked against |
| OrderWalkSafety.AgentCancelsOnlyEnded | src/wheelta_robinhood_agent/agent/hooks.py:1077-1090 | the agent's own cancel passes the hooks only for an order of a job that has ended |
| OrderWalkSafety.AdmitKeeps | src/wheelta_robinhood_agent/agent/hooks.py:969-995 | an admitted request may coexist with every reservation, unfinished job, and job whose order is still open |
| OrderWalkSafety.AdmitKeepsEarlier | src/wheelta_robinhood_agent/agent/session.py:1424-1472 | an admitted request, and so everything that becomes of it, may coexist with every unresolved order of the tick's earlier runs |
| OrderWalkSafety.EarlierEventKeepsInv | src/wheelta_robinhood_agent/agent/pretrade_gate.py:96-117 | fills of an earlier run's order, reads of it that show fewer contracts left or, once its fills are inconsistent, the full quantity again, and its being resolved, keep the run's invariant |
| OrderWalkSafety.StartKeepsInv | src/wheelta_robinhood_agent/agent/order_walk.py:554-577 | a reservation that becomes a job keeps its place among the work; nothing is dropped from the count between the two |
| OrderWalkSafety.EventKeepsInv | src/wheelta_robinhood_agent/agent/order_walk.py:488-1043 | every enabled event of every interleaving keeps the run's invariant: jobs, lock, placement end, reservations, coexistence (with earlier runs' orders too), a passed place still passing, agent cancels, funding |
| OrderWalkRuns.NoRunOverTrades | src/wheelta_robinhood_agent/agent/order_walk.py:802-903 | over whole runs, whatever is lost, filled late, or filled during a cancel, no job trades more than it was asked to, by its own count or at the broker |
| OrderWalkRuns.KnownEndLeavesNothing | src/wheelta_robinhood_agent/agent/order_walk.py:595-671 | a job that ended in any status but unknown left no order open, counted every fill, and its status says how much was filled |
| OrderWalkRuns.OpenOrderIsReported | src/wheelta_robinhood_agent/agent/order_walk.py:595-658 | an order left open belongs to a running job, or to one that ended unknown after placement ended for the run |
| OrderWalkRuns.EndsOnce | src/wheelta_robinhood_agent/agent/order_walk.py:660-671 | a job ends once, and its record never changes afterwards |
| OrderWalkRuns.NoPlaceAfterShutOff | src/wheelta_robinhood_agent/agent/proxy.py:311-330 | once the stop latch is set no place passes the proxy's check, so at most the one that had passed it is sent, and none when none had; once placement has ended none is sent at all |
| OrderWalkRuns.PlacesAfterStopExactlyWhen | src/wheelta_robinhood_agent/agent/proxy.py:311-330 | from a stopped state some continuation forwards a place exactly when one had passed the proxy's check before the latch |
| OrderWalkExamples.StopLetsOnePlaceLeave | src/wheelta_robinhood_agent/orchestrator/signals.py:27-38 | the failing case, reached from a fresh run: the latch set between the proxy's check of a place and its send does not stop the send |
| OrderWalkRuns.NoPlaceAfterUnknown | src/wheelta_robinhood_agent/agent/order_walk.py:605-626 | after a place, a cancel, or a crash with an unknown outcome in one job, no job forwards another place |
| OrderWalkRuns.AtMostOnePlaceAfterHalt | src/wheelta_robinhood_agent/agent/order_walk.py:539-542 | after `halt` at most one more place is forwarded run-wide, and only by the job already past its checks under the lock |
| OrderWalkRuns.PlacesAfterHaltExactlyWhen | src/wheelta_robinhood_agent/agent/order_walk.py:863-877 | from a halted state some continuation forwards a place exactly when a place is past the proxy's check, or a job holds the lock past its `halt` check with neither the stop latch set nor placement ended |
| OrderWalkRuns.JoinsForSomeCash | src/wheelta_robinhood_agent/domain/order_concurrency.py:93-163 | a job that holds the lock is denied by the concurrency check for want of cash only: some snapshot lets its place join |
| OrderWalkExamples.HaltLetsOnePlaceLeave | src/wheelta_robinhood_agent/agent/order_walk.py:539-542 | the failing case of `halt`, reached from a fresh run: the job that holds the lock places after it |
| OrderWalkRuns.PlacementsNeverOverlap | src/wheelta_robinhood_agent/agent/order_walk.py:863-890 | two jobs are never between taking the placement lock and their place's answer at once |
| OrderWalkRuns.OneCancelPerOrder | src/wheelta_robinhood_agent/agent/order_walk.py:633-658 | in every run the executor cancels each order at most once, the latch's resend and the crash salvage included |
| OrderWalkRuns.WorkingOrderWasCancelled | src/wheelta_robinhood_agent/agent/order_walk.py:952-1018 | a job that ends with a known order that may still work has had its one cancel of it forwarded exactly when the last cancel it tried of that order reached the broker, and none exactly when that try was refused, not forwarded, or raised before it was sent |
| OrderWalkRuns.RaisedSendLeavesOrder | src/wheelta_robinhood_agent/agent/order_walk.py:633-641 | a cancel that raises before it is sent counts as sent for the salvage, so the open order is left with none |
| OrderWalkExamples.CrashLeavesOrderUncancelled | src/wheelta_robinhood_agent/agent/order_walk.py:633-641 | that case reached from a fresh run: one placed order, its cancel raising before it is sent, and the job over |
| OrderWalkRuns.OneCancelAfterStop | src/wheelta_robinhood_agent/agent/order_walk.py:952-1018 | after the stop latch each job forwards at most one more cancel, also of a place that leaves in the latch's window |
| OrderWalkRuns.AgentCancelsExactlyEnded | src/wheelta_robinhood_agent/agent/hooks.py:1077-1090 | of the hooks' checks, those on the stop latch and on the executor's work let the agent's cancel pass exactly for orders of ended jobs, before the latch and with no placement in flight (the output gate, the role check, and the kill switch are not among them); it never reaches a running job's order |
| OrderWalkExamples.AgentCancelsAgain | src/wheelta_robinhood_agent/agent/hooks.py:1077-1090 | reached from a fresh run: an order with one cancel of the executor and one of the agent |
| OrderWalkRuns.OnlyClosesCoexist | src/wheelta_robinhood_agent/agent/session.py:1424-1472 | in every state of every run, any two of reservations, unfinished jobs, and ended jobs with an open order are closes on different contracts that can be priced, and so is each of them with every unresolved order of the tick's earlier runs |
| OrderWalkRuns.OpenOrdersAreFunded | src/wheelta_robinhood_agent/domain/order_concurrency.py:127-163 | whenever an order of the run is open beside another, or beside an unresolved order of an earlier run, what they all would still cost for the contracts really left is within the settled cash of the snapshot the last place beside other work was checked against |
| OrderWalkRuns.WaitingIsSafe | src/wheelta_robinhood_agent/agent/order_walk.py:673-679 | whatever other tasks, the session, the agent, and the broker do in any order, a waiting job finds its record, its lock, and the latches as it relies on |
| WalkRunner.OrderWorkRunner.Run | src/wheelta_robinhood_agent/agent/order_walk.py:595-626 | the task ends for any answers, clock, signals, and exceptions, after at most prices x (7 + ceil(step wait / poll) + ceil(30 s / poll) + 1) calls plus the salvage's 1 + ceil(30 s / poll) + 1; its events are a legal run of the protocol; it reads and does what the script says and ends with the script's status; a job that ends neither filled nor with every price begun ends on one of the source's reasons, as the last thing it read; and its orders are one for each price begun, in the ladder's order and at its prices, but for a last one that its last fact kept from being sent |
| WalkReasons.EndsForAReason | src/wheelta_robinhood_agent/agent/order_walk.py:802-1043 | a task of the script that ends before it has begun every price or filled its request has read one of the reasons last: a stop, placement ended, too little time, an unusable read or review, a price outside the quote, a refused, unsent, or unknown place, a rejected, inconsistent, or foreign order, a partial fill that stops, a cancel that was refused, not accepted, or not confirmed, or an exception |
| WalkReasons.BegunPricesAreSent | src/wheelta_robinhood_agent/agent/order_walk.py:802-890 | every price a task begins is sent before it begins the next, in the ladder's order, at its own price and for no more than the request; the last one too, unless the task ends on a reason that comes before a place |
| WalkRunner.EndsAsItReads | src/wheelta_robinhood_agent/agent/order_walk.py:802-1043 | the two theorems of the script's facts are theorems of the job's own orders and counts |
| WalkRunner.OrderWorkRunner.Walk | src/wheelta_robinhood_agent/agent/order_walk.py:802-852 | the price steps in turn, each a bounded number of calls counted by steps and reads, never by the clock; the task reads, begins, places, and ends as the script does, and an exception leaves it where the script says a salvage is due |
| WalkRunner.OrderWorkRunner.Prepare | src/wheelta_robinhood_agent/agent/order_walk.py:814-832 | before a placement the quote, for a sale the underlying's quote, and the review are read in that order, and the step's price is within the live quote; otherwise the job ends, for what was read, or an exception is on its way |
| WalkRunner.OrderWorkRunner.WaitForFill | src/wheelta_robinhood_agent/agent/order_walk.py:903-930 | the last answer read of the placed order, after at most ceil(step wait / poll) reads |
| WalkRunner.OrderWorkRunner.ConfirmByReads | src/wheelta_robinhood_agent/agent/order_walk.py:932-950 | a terminal order read, or none, after at most ceil(seconds / poll) + 1 reads |
| WalkRunner.OrderWorkRunner.SendOrResend | src/wheelta_robinhood_agent/agent/order_walk.py:952-1000 | the cancel's first send and its one resend when the latch fell before the first left: at most two calls, of which at most one reaches the broker, and none when the job ends there or its send raised before leaving |
| WalkRunner.OrderWorkRunner.CancelStep | src/wheelta_robinhood_agent/agent/order_walk.py:952-1018 | the cancel, its confirming reads, and what they settle: the step settled, the job ended, or an exception with the job still salvageable |
| WalkRunner.OrderWorkRunner.SettleStep | src/wheelta_robinhood_agent/agent/order_walk.py:1020-1043 | a terminal order's fills are counted once exactly when they are consistent; the walk goes on exactly when they are and the order was ours, else the job ends unknown and placement ends |
| WalkRunner.OrderWorkRunner.EnterPlacement | src/wheelta_robinhood_agent/agent/order_walk.py:863-877 | the checks under the placement lock: the job holds the lock, has ended, or an exception is on its way |
| WalkRunner.OrderWorkRunner.GatePlace | src/wheelta_robinhood_agent/agent/pretrade_gate.py:244-282 | a place passes exactly when the other checks permit it, neither the latch nor the run's end of placement is set, and it may work beside the run's other work; only the latch may change meanwhile |
| WalkRunner.OrderWorkRunner.ForwardPassed | src/wheelta_robinhood_agent/agent/proxy.py:311-330 | a place that passed is sent even if the stop latch falls after the check |
| WalkRunner.OrderWorkRunner.Salvage | src/wheelta_robinhood_agent/agent/order_walk.py:633-658 | after a crash: the working order, which had no cancel, gets at most one, then the bounded reads, and the job ends unknown |
| WalkRunner.OrderWorkRunner.AdmitWork | src/wheelta_robinhood_agent/agent/hooks.py:969-995 | a request is admitted exactly when the other checks permit it, the run is neither stopped nor shut off, and it may work beside the run's other work; then it is reserved at once and nothing else changes, and nothing at all when it is refused |
| WalkRunner.OrderWorkRunner.StartWork | src/wheelta_robinhood_agent/agent/order_walk.py:554-577 | a job is started exactly when the id is reserved with this request, has no job yet, and its prices can be planned: one new job with a ladder of its request; otherwise no job changes; the reservation goes either way |
| WalkRunner.OrderWorkRunner.HaltJobs | src/wheelta_robinhood_agent/agent/order_walk.py:539-542 | `halt` sets the run's flag and nothing else |
| AssemblyEvents.OrdersByPlaceCall | src/wheelta_robinhood_agent/domain/assembly_events.py:93-113 | an order record attaches to a place call exactly when all records naming the call are equal, whatever their order |
| AssemblyEvents.RecordCancellations | src/wheelta_robinhood_agent/domain/assembly_events.py:309-330 | for each cancel call, the listed cancellation exactly when all listings of it agree |
| AssemblyEvents.RebuildIsRight | src/wheelta_robinhood_agent/domain/assembly_events.py:222-274 | a rebuilt cancellation is confirmed exactly when the listings agree on a confirmed one, its order is terminal, the cancel was dispatched, and every listed read is a successful order read completed after that; undispatched, it is unknown |
| AssemblyEvents.AttemptIsRight | src/wheelta_robinhood_agent/domain/assembly_events.py:116-219 | over the recorded fields: a place's attempt is not placed exactly when the broker has no order of it and the call was denied or its order was last seen so, and then nothing is filled; it is placed when the call succeeded with a broker order and nothing is seen yet, else what was last seen, else unknown; its fills are the order's; each reason is listed exactly under its own condition, in the order they are found |
| AssemblyEvents.AttemptIsDetermined | src/wheelta_robinhood_agent/domain/assembly_events.py:116-219 | the records of a place call admit one attempt only |
| AssemblyEvents.IndexIgnoresOrder | src/wheelta_robinhood_agent/domain/assembly_events.py:277-375 | the same tool calls in any order, with the same order projections, give the same index |
| AssemblyEvents.BuildEventIndex | src/wheelta_robinhood_agent/domain/assembly_events.py:277-375 | the run's calls in order of request time, SDK id, and identity, whatever order they came in; every place and every cancel call of the run exactly once, in that order, with the order, the attempt, the status, and the copied fields that the rules above require of the recorded fields; a cancel's owner is the place of the order its listings agree on |
| Assembly.Associate | src/wheelta_robinhood_agent/domain/assembly.py:459-542 | the two passes attach to each leg exactly the recorded place calls that belong to it, each once: named in the whole output by that decision only and once, of the leg's side, and of its contract by instrument when both have one, else by symbol; and they select exactly the cancels the rule selects |
| Assembly.AssociatedExactlyWhen | src/wheelta_robinhood_agent/domain/assembly.py:544-622 | what resolving, claiming, and fitting come to, over the references, the recorded calls, and each action's own contracts and sides |
| Assembly.BoundIsAssociated | src/wheelta_robinhood_agent/domain/assembly.py:583-620 | what one decision's selection binds is the rule: selected exactly once in the whole output, a place call, and side, role, and contract fit the leg |
| Assembly.AssociationIgnoresOrder | src/wheelta_robinhood_agent/domain/assembly.py:459-542 | the same selections in another order associate and select the same calls |
| Assembly.Run | src/wheelta_robinhood_agent/domain/assembly.py:1034-1089 | every recorded place call is an attempt of exactly the leg it belongs to or unassociated, and every recorded cancel is kept or unassociated, each exactly once; a cancel is kept exactly when the output names it, once, or its order's place is an attempt of some leg |
| Assembly.PlacesPartition | src/wheelta_robinhood_agent/domain/assembly.py:1066-1079 | attempts and unassociated places together are the index's places, as multisets |
| DryRun.FloorDivIsLargest | src/wheelta_robinhood_agent/domain/assembly.py:194-197 | the floored quotient bounds exactly the counts whose use fits the amount; none but zero fits an amount that is not positive |
| DryRun.DrySim.Simulate | src/wheelta_robinhood_agent/domain/assembly.py:699-721 | the quantity is the largest that fits every remaining amount and the fact set's cap; none with an amount unknown, or with the use unknown after a reservation |
| DryRun.DrySim.Reserve | src/wheelta_robinhood_agent/domain/assembly.py:723-732 | each known amount falls by the quantity times its use, and no other changes |
| DryRun.DrySim.DryAttempt | src/wheelta_robinhood_agent/domain/assembly.py:835-906 | a leg's outcome is what the amounts left require; only an unconditional attempt reserves |
| DryRun.RunDry | src/wheelta_robinhood_agent/domain/assembly.py:1043-1053 | over the legs in the order given, each outcome is what the earlier ones left requires |
| DryRun.NeverOverReserves | src/wheelta_robinhood_agent/domain/assembly.py:699-732 | for every resource, the reserving attempts together use at most the baseline, and nothing when the baseline is not positive |
| DryRun.NothingOfUnknown | src/wheelta_robinhood_agent/domain/assembly.py:699-721 | no attempt is made on a resource whose baseline is unknown |
| DryRun.UnknownUseComesFirst | src/wheelta_robinhood_agent/domain/assembly.py:703-712 | an attempt with unknown resource use comes before every other reserving attempt |
| DryRun.SimulationIsDetermined | src/wheelta_robinhood_agent/domain/assembly.py:835-906 | the rule fixes every outcome: same baseline and order, same attempts |
| DryPlans.RunPlans | src/wheelta_robinhood_agent/domain/assembly.py:1043-1054 | the attempts of every decision are those of the simulation in priority order: closes and rolls, ranked opens, then the plans without a priority, each leg against what the earlier ones left, and put back with the decision it came from |
| DryPlans.SimulatedOnce | src/wheelta_robinhood_agent/domain/assembly.py:1051-1053 | every decision is simulated exactly once |
| DryPlans.RecordNeverOverReserves | src/wheelta_robinhood_agent/domain/assembly.py:1043-1054 | over the record in array order, whatever order the priorities gave, all reserving attempts together use at most the baseline of every resource, and nothing when it is not positive |
| DryPlans.RecordIsDetermined | src/wheelta_robinhood_agent/domain/assembly.py:1043-1054 | the plans and the baseline fix the simulation order and every attempt |
| Priorities.Prioritize | src/wheelta_robinhood_agent/domain/assembly.py:643-670 | closes and rolls first in array order, then the opens sorted by key and index, or in array order when any open lacks its key |
| Priorities.PrioritizedOnce | src/wheelta_robinhood_agent/domain/assembly.py:643-670 | every plan that closes, rolls, or opens has exactly one place in the order, and no other plan has one |
| Priorities.OrderIsDetermined | src/wheelta_robinhood_agent/domain/assembly.py:643-670 | the rule admits exactly one order |
| Priorities.OrderedByRule | src/wheelta_robinhood_agent/domain/assembly.py:643-670 | each place in the order comes before the next: closes and rolls before opens and in array order; opens by the first difference of their keys, and in array order between equal ones, if every open has a key, else in array order |
| SimulatedBroker.SimulatedBroker.Place | src/wheelta_robinhood_agent/agent/simulated_broker.py:229-360 | refused exactly for arguments that cannot be read, a side other than sell-to-open and buy-to-close, or a close beyond the known short; a repeated `ref_id` changes nothing; an accepted order has the contract, quantity, and price asked for and its premium, moves its contract's short by its quantity, no other's, and a close leaves it non-negative; the books stay: short change equals sold minus bought over the orders, every order filled |
| SimulatedBroker.SimulatedBroker.PlaceTwice | src/wheelta_robinhood_agent/agent/simulated_broker.py:294-300 | the same place again with its `ref_id` answers the same and leaves the broker as it was |
| SimulatedBroker.SimulatedBroker.Cancel | src/wheelta_robinhood_agent/agent/simulated_broker.py:362-386 | accepted exactly for a working real order read in this tick and not yet cancelled here; never for a simulated order |
| SimulatedBroker.SimulatedBroker.ObserveReal | src/wheelta_robinhood_agent/agent/simulated_broker.py:416-433 | a working real order cancelled here reads cancelled; every other reads as it is |
| SimulatedBroker.SimulatedBroker.OverlayPositions | src/wheelta_robinhood_agent/agent/simulated_broker.py:471-511 | the overlaid rows and the remembered real shorts, for any rows and page |
| SimulatedBroker.OverlaidTotal | src/wheelta_robinhood_agent/agent/simulated_broker.py:471-511 | for each contract, what the mapper counts of a first-page read after the overlay: the real short plus the fills, when positive, except a contract listed only with nothing short, or whose short row the broker does not read |
| StartProbe.OverlaySimulated | src/wheelta_robinhood_agent/agent/start_probe.py:185-215 | never fails on a broker's own books, and holds for each contract the real short plus the fills, when positive |
| StartProbe.OverlaysAgreeExactlyWhen | src/wheelta_robinhood_agent/agent/start_probe.py:185-215 | the two overlays of one complete read show the same shorts exactly when no contract listed with nothing short was sold to open in simulation, and no contract with fills has a short row the broker does not read (a decimal quantity text, or an id in another letter case) |
| StartProbe.OverlaysAgreeOnReadRows | src/wheelta_robinhood_agent/agent/start_probe.py:139-153 | they agree on every read whose rows are positive shorts that the broker reads, for every fill history |
| StartProbe.ClosedRowHidesAFill | src/wheelta_robinhood_agent/agent/simulated_broker.py:482-505 | the failing case: a closed row of a contract sold in simulation stays at zero in the broker's own read |
| StartProbe.DecimalRowHidesAFill | src/wheelta_robinhood_agent/agent/robinhood_mappers.py:595-600 | the other failing case: a short row of `2.0000` stays at 2 in the broker's own read after one more is sold, and the probe counts 3 |
| StartProbe.CloseAfterRead | src/wheelta_robinhood_agent/agent/simulated_broker.py:294-306 | after one read a new broker accepts a close exactly when the last row it reads of the contract shows that many short |
| StartProbe.DecimalRowRefusesClose | src/wheelta_robinhood_agent/agent/simulated_broker.py:482-505 | after such a read the broker knows no short of the contract and refuses its close |
| StartProbe.SimulatedDebits | src/wheelta_robinhood_agent/agent/start_probe.py:169-182 | simulated debits are price times quantity times multiplier over the accepted closes |
| RepairLoop.OutputRepairGate.Restrict | src/wheelta_robinhood_agent/agent/hooks.py:417-421 | the gate only narrows: what it permits afterwards is what it permitted and what is named |
| RepairLoop.Session.Converse | src/wheelta_robinhood_agent/agent/session.py:1161-1305 | for any replies everything read, sent, and ended on obeys the rule of the loop's facts; at most ten turns are sent, cleanups before repairs before reference turns; it ends as stopped only with the latch set, as exhausted only after every repair, and on an accepting, restoring, or giving-up exit the effective output is the last of the accepted chain if a valid one was seen; with no reply it is, unless an order-work report came after it |
| RepairLoop.EndsOnAReply | src/wheelta_robinhood_agent/agent/session.py:1161-1305 | a session that never saw the latch set and got a reply to every turn ends accepted, restored, or exhausted, each under its own condition |
| RepairLoop.CleanupComesFirst | src/wheelta_robinhood_agent/agent/session.py:1267-1282 | a reply is looked at as an output only when the orders were found resolved just before, the cleanup turns are used up, or a repair of either kind has been sent |
| RepairLoop.UnresolvedIsCleanedUp | src/wheelta_robinhood_agent/agent/session.py:1267-1278 | after orders are found unresolved the next thing is a cleanup turn |
| RepairLoop.UnparsedIsRepaired | src/wheelta_robinhood_agent/agent/session.py:1296-1305 | after a reply that does not parse, with nothing accepted and repairs left, the next thing is a repair turn |
| RepairLoop.IssuesAreReturned | src/wheelta_robinhood_agent/agent/session.py:1282-1295 | after an accepted reply with issues and reference turns left, the next thing is a reference turn |
| RepairLoop.NextIsDetermined | src/wheelta_robinhood_agent/agent/session.py:1161-1305 | but for what is read, the facts so far leave one next step |
| RepairLoop.Session.Judge | src/wheelta_robinhood_agent/agent/session.py:1278-1290 | the first valid output stands; a later one replaces the last exactly when the check has never failed and it improves on it |
| RepairLoop.Session.Restore | src/wheelta_robinhood_agent/agent/session.py:1331-1339 | the last valid output is effective again, with its own issues |
| RepairLoop.Session.Turn | src/wheelta_robinhood_agent/agent/session.py:1252-1305 | a repair or reference turn needs every tool denied, and a cleanup turn all but the cleanup tools |
| RepairLoop.LastIsBest | src/wheelta_robinhood_agent/agent/session.py:1316-1328 | along the accepted chain the issues strictly decrease and the decision actions stay the first output's |
| ProxyBooks.RecordedBeforeSent | src/wheelta_robinhood_agent/agent/proxy.py:300-340 | every upstream send has its own earlier requested and dispatched records, of the same tool and arguments up to the account substitution |
| ProxyBooks.SentOnce | src/wheelta_robinhood_agent/agent/proxy_dispatch.py:65-79 | no call is sent twice |
| ProxyBooks.ProxyOutcomeIsFinal | src/wheelta_robinhood_agent/agent/proxy_dispatch.py:65-87 | once the proxy has recorded an outcome of a call, nothing more of it is sent |
| ProxyBooks.ProxyFailedExactlyWhenNotSent | src/wheelta_robinhood_agent/agent/proxy.py:408-440 | the proxy's own record of an order action is failed exactly when nothing of it was sent, before the record or ever after |
| ProxyRuns.LeavesExactlyWhen | src/wheelta_robinhood_agent/agent/proxy.py:300-330 | some run still sends an action exactly when it waits and the stop latch does not hold it back, or its use id is not registered and the latch would not hold back every call of its tool |
| ProxyRuns.FailureHookRecord | src/wheelta_robinhood_agent/agent/hooks.py:1788-1815 | the failure hook's failed record of an unclaimed action is right when written, and right in every continuation exactly when the stop latch is set by then |
| ProxyRuns.RegistrationRecord | src/wheelta_robinhood_agent/agent/hooks.py:1188-1209 | the failed record of a second registration of a use id stays right exactly when the first one's call waits and is not the executor's own cancel, or was held back by the proxy; otherwise it is wrong at once and for good |
| ProxyRuns.DenialRecord | src/wheelta_robinhood_agent/agent/hooks.py:1140-1180 | a denied record stays right exactly when its use id is not registered and the latch holds back every later call of its tool, or an earlier registration of it waits with the latch against it or was held back; it is wrong at once and for good exactly when an earlier one was claimed and not held back |
| ProxyRuns.UnknownRecord | src/wheelta_robinhood_agent/agent/session.py:1653-1674 | the unknown record of the result hook, the session's end, or recovery is right, when written and for good, exactly when the call was claimed and not held back; of a waiting call it is wrong when written, and for good exactly when the latch holds the call back; of one held back without a record it is wrong for good |
| ProxyRuns.StatesOnlyAdvance | src/wheelta_robinhood_agent/agent/proxy_dispatch.py:65-87 | in every run a call's state moves only from pending to claimed to completed, its registration never changes, records stay, and what was sent stays sent |
| ProxyDispatch.UnsentOrderIsUnknown | src/wheelta_robinhood_agent/agent/session.py:1653-1674 | the session's end records unknown for an order the proxy never received, so never sent |
| ProxyDispatch.FailedOrderIsSent | src/wheelta_robinhood_agent/agent/hooks.py:1788-1815 | the failure hook records an order the proxy has not received as failed; the proxy then receives and sends it |
| ProxyBooks.OnlyTheClearedAfterStop | src/wheelta_robinhood_agent/agent/proxy.py:311-330 | after the stop latch an action but the executor's own cancel leaves only if it had passed the proxy's checks just before the latch; with none there, none leaves |
| ProxyBooks.AtMostOneAfterStop | src/wheelta_robinhood_agent/agent/proxy.py:311-330 | of any two actions that leave after the stop latch one is the executor's own cancel |
| ProxyDispatch.OrderLeavesAfterStop | src/wheelta_robinhood_agent/orchestrator/signals.py:27-38 | an order whose checks passed just before the latch leaves after it |
| ProxyDispatch.ValidatingProxy.Admit | src/wheelta_robinhood_agent/agent/hooks.py:1833-1893 | requested, checked, dispatched, and registered in that order; admitted exactly when every record is written, the checks permit it, its use id is not registered yet, and the run is not stopped, or the call neither acts nor is of tier D, or is the executor's after-stop cancel; it then waits with its own arguments, dispatched as asked; nothing is sent, and the books go on by moves of the runs above |
| ProxyDispatch.ValidatingProxy.Check | src/wheelta_robinhood_agent/agent/proxy.py:234-317 | a call passes exactly when pending, received from its own side with the tool and arguments dispatched, not held back by the stop latch, and not of a filing known to be unavailable; one that does not pass was not sent and never is; which of the refusals set the latch |
| ProxyDispatch.ValidatingProxy.Send | src/wheelta_robinhood_agent/agent/proxy.py:318-334 | a call past its checks is sent, once, exactly when its intent is written, whatever the latch says by then; else nothing of it is ever sent, it failed, and the run stops |
| ProxyDispatch.ValidatingProxy.NotForwarded | src/wheelta_robinhood_agent/agent/proxy.py:426-440 | a call not forwarded is recorded failed in every tier, or the run stops; nothing of it was sent, and nothing ever is |
| ProxyDispatch.ValidatingProxy.Finish | src/wheelta_robinhood_agent/agent/proxy.py:331-424 | a call that was sent stays sent once; the record is succeeded exactly for a valid envelope, else unknown for an action and failed for a read, or nothing and the run is stopped; a filing without content is remembered |
| ProxyDispatch.ValidatingProxy.FailureReported | src/wheelta_robinhood_agent/agent/hooks.py:1768-1831 | the failure hook records failed exactly for a call the proxy has not claimed, leaves a claimed one to the proxy, and does not tell the dispatch; nothing is sent, and the record of an action stays right exactly when the latch is set |
| ProxyDispatch.ValidatingProxy.ResultReported | src/wheelta_robinhood_agent/agent/hooks.py:1394-1440 | a result the proxy did not produce stops the run, and is recorded unresolved exactly when the proxy has not answered; of an action that stays right exactly when the call was claimed and not held back |
| ProxyDispatch.ValidatingProxy.CloseUnresolved | src/wheelta_robinhood_agent/agent/session.py:1653-1674 | after the session's end every dispatched call has an outcome, and after recovery every call; no dispatch state changes |
| ModelView.TrimKeepsValue | src/wheelta_robinhood_agent/agent/model_view.py:119-120 | a decimal string keeps its numeric value when its trailing zeros go |
| ModelView.DecimalExactlyWhen | src/wheelta_robinhood_agent/agent/model_view.py:52 | a decimal string is an optional sign, digits, a point, and digits |
| ModelView.TrimTwice | src/wheelta_robinhood_agent/agent/model_view.py:119-120 | a trimmed decimal string is not trimmed again |
| ModelView.StripIsIdempotentExactlyWhen | src/wheelta_robinhood_agent/agent/model_view.py:105-121 | stripping twice is stripping once, for every value, exactly when neither the call id nor the retrieval time is the trimmed form of another decimal string |
| ModelView.UndotFlattenExactlyWhen | src/wheelta_robinhood_agent/agent/model_view.py:128-137 | a row is rebuilt from its dotted keys, in whatever order it was flattened, exactly when none of its own keys has a point |
| ModelView.FlatExactlyWhen | src/wheelta_robinhood_agent/agent/model_view.py:124-137 | a flat row has each field of the row itself, but those of a non-empty object of plain values one by one, under the two keys with a point between, and nothing else |
| ModelView.MakeTable | src/wheelta_robinhood_agent/agent/model_view.py:155-163 | the rows are rebuilt from `common`, `columns`, and `rows`, in order; a field is common exactly when every row has the same value of it |
| ModelView.Tabulate | src/wheelta_robinhood_agent/agent/model_view.py:144-163 | a table of the flat rows when those have the same keys, else of the rows when these have, else none |
| ModelView.TableIsLossless | src/wheelta_robinhood_agent/agent/model_view.py:144-163 | the nested rows are rebuilt from a table of flat rows, in order, when no key has a point |
| EnvelopeView.View | src/wheelta_robinhood_agent/agent/model_view.py:55-96 | the whole view: an envelope without mapped evidence, or that is a view already, unchanged; else every category that is not empty, stripped and then tabulated from two objects on, and no other field touched |
| EnvelopeView.ViewedTwice | src/wheelta_robinhood_agent/agent/model_view.py:55-96 | the view of a view is that view, and no field but `data` differs from the envelope |
| EnvelopeView.CategoryReadsBackExactlyWhen | src/wheelta_robinhood_agent/agent/model_view.py:144-163 | a reader who rebuilds the rows of a category gets its stripped rows exactly when it stayed a list or no key of its rows has a point |
| EnvelopeView.ViewIsLossless | src/wheelta_robinhood_agent/agent/model_view.py:55-96 | over the whole view: every non-empty list of evidence is in it and is read back as it was stripped, under that exact condition, and an empty one is not in it |
| OccSymbol.ValidDateExactlyWhen | src/wheelta_robinhood_agent/domain/options.py:38-54 | the dates accepted are the calendar's, month lengths and leap years included |
| OccSymbol.ValidRootExactlyWhen | src/wheelta_robinhood_agent/domain/options.py:12-36 | a root is one to six capital letters and digits, the first a letter |
| OccSymbol.MatchIsUnique | src/wheelta_robinhood_agent/domain/options.py:12-14 | a text matches the symbol pattern in one way only, even with a root that ends in digits and no padding |
| OccSymbol.MatchIsParsed | src/wheelta_robinhood_agent/domain/options.py:38-54 | a text that matches parses to its own parts |
| OccSymbol.RoundTripExactlyWhen | src/wheelta_robinhood_agent/domain/options.py:56-61 | parsing the printed form gives the symbol back exactly for expirations of 2000 to 2099 |
| OccSymbol.ParsedPrints | src/wheelta_robinhood_agent/domain/options.py:38-61 | printing a parsed padded or compact text gives the same parts, padded, in ASCII digits |
| OccSymbol.CanonicalExactlyWhen | src/wheelta_robinhood_agent/domain/options.py:38-61 | a parsed text is its own printed form exactly when it has 21 characters and ASCII digits |
| OccSymbol.ParsedYear | src/wheelta_robinhood_agent/domain/options.py:38-54 | every parsed symbol is valid, can be printed, and expires in 2000 to 2099 |

## Left out

- WalkRunner.OrderWorkRunner.Await: stands for any other tasks by its contract; its body is one of the behaviours the contract allows. `WaitingIsSafe` shows that the contract covers all of them.
- WalkRunner.OrderWorkRunner.PrepareCall: why a read or the review is unusable (a refusal, no quote or an old one, an unknown underlying, an alert or a mismatch in the review) is not told apart; it is one answer.
- WalkRunner.OrderWorkRunner.Nap: how long the task sleeps is not among its facts; the calls between its clock tests are.
- WalkRunner.OrderWorkRunner.WaitForLock: waiting for the placement lock ends with the lock free or the task cancelled; fairness of the lock is not modelled.
- OrderWalk: order ids are positions in a job's list, so the case-insensitive matching of `holds` is not modelled; multipliers are fixed for a run; what is left of an earlier run's order only falls, and the ledger never shows less than that; role and pre-trade checks other than concurrency are free denials.
- OrderWalk: exceptions inside a synchronous stretch are modelled at its awaits, and one between a passed check and its send as raised before the check; what is sent is what the proxy hands to the upstream client; timeouts have no length; an event sink that fails is a free stop request.
- WalkSchedule and OrderConcurrency: Decimal context rounding (28 digits) is not modelled; values are exact.
- AssemblyEvents.BuildEventIndex: the fields of a place's attempt that are only copied (requested values, references, ids of reviews, cancels, and fills) and findings are not modelled; the quantity an order's fills agree on is given; request times and ids are compared as numbers.
- Assembly.Run: findings, proposals, facts, gaps, the likely-owner hint, and the review-call branch (which only adds a finding) are not modelled; plans come already resolved.
- DryPlans.RunPlans: takes one entry per proposed leg of each plan, with its ranking key given; snapshot findings and records are not modelled; subtraction and division are exact.
- Priorities.Prioritize: ranking keys are given; the library's sort is modelled as insertion, which gives the only order the rule admits.
- SimulatedBroker.SimulatedBroker.Place: new order ids are given and unused; timestamps and response JSON are not modelled; the branch of a cancel that updates a working simulated order is unreachable and left out.
- SimulatedBroker.SimulatedBroker.OverlayPositions: a row's quantity is a whole number, as plain digits or as a decimal text; the ids of fills are canonical; rows that are not objects pass through and are left out.
- SimulatedBroker.SimulatedBroker.ObserveReal: the listing of simulated orders and its filters (`_overlay_orders`, `_matches`) are not modelled.
- StartProbe.ShortRows: the mapper that refuses long and duplicate rows is a precondition; the multiplier of a row is given.
- RepairLoop.Session.Converse: a session cut off by its budget or an interrupt in the middle of a turn is not an exit of the loop and is not modelled; `best` and `repairs`, locals of the loop, are fields here.
- RepairLoop.Session.Converse: after a stop, or when no reply came to an order-work report sent after a valid output, the effective output may be an unjudged reply.
- ProxyRuns.LeavesExactlyWhen: a use id is any name, so another call may take one that is not registered; the program's own callers take a new one each time.
- ProxyDispatch.ValidatingProxy.Finish: delivered output and the result validator's own checks are not modelled; an outcome record that fails leaves the call without one and stops the run.
- ProxyDispatch.ValidatingProxy.CloseUnresolved: the later outcomes of a workspace creation found again by its key (`ledger/workspace.py`), and the calls of the in-process servers, which no proxy forwards, are not modelled.
- ProxyDispatch.ValidatingProxy.Admit: the hooks' individual checks are a free denial, except the stop latch.
- ModelView.ListKeys: the order of a table's columns (identifying ones first, then sorted) is not modelled; the rows are rebuilt for every order.
- ModelView.Strip: keys of an object are unordered, and number texts are kept as they are.
- OccSymbol.Parse: strikes are exact reals, and digits come from a table of all decimal digits.
- MCP, HTTP, authentication, SDK plumbing, Postgres, result mappers, schemas, prompts, settings, redaction, and research reports: I/O or field checks without state to prove things about.
- Size budgets of scans and catalogs, one-line latches, and run scheduling: only easy members.
