/** What one order-walk task does, given what it reads (`agent/order_walk.py`, `_run`, `_walk`,
    `_place`, `_wait_for_fill`, `_cancel`, `_confirm`, `_settle`, and `_salvage`).

    A fact is one thing the task reads (the clock, the stop flags, an answer) or does, in the
    order it happens. `NextWalk` is where the task is after one more fact: a fact it does not accept
    there is none the task may read or do. Times are in milliseconds. */
module WalkScript {
  import opened Optionals
  import opened WalkSchedule
  import opened OrderWalk

  const CANCEL_RESERVE := 5000
  const CONFIRM := 30000
  const LATCH_CANCEL := 30000

  datatype WalkTiming = WalkTiming(window: nat, stepWait: nat, poll: nat)

  /** An executor call that only reads: what it told the job, or the exception it raised
      (`failure`: not a cancellation of the task). */
  datatype Answer = Usable | Unusable | Raised(failure: bool)

  datatype OrderAnswer = Seen(seen: Observation) | Unseen | ReadRaised(failure: bool)

  datatype PlaceAnswer = Acknowledged(seen: Observation) | Lost | PlaceRaised(failure: bool)

  datatype CancelAnswer = Heard(ok: bool) | CancelRaised(failure: bool)

  datatype CallKind = QuoteRead | UnderlyingQuoteRead | Review

  datatype Sending = Sent | NotSent(refused: bool) | SendRaised(failure: bool)

  /** The least whole number of `b` that covers `a`. */
  function CeilDiv(a: nat, b: nat): (r: nat)
    requires b > 0
    ensures a <= r * b && r * b < a + b
  {
    (a + b - 1) / b
  }

  datatype Config = Config(
    prices: seq<nat>, side: Side, quantity: nat, timing: WalkTiming, partialFillStops: bool, windowEnd: int)

  datatype Fact =
    | StopSeen(stopping: bool)
    | EndedSeen(ended: bool)
    | ClockSeen(now: int)
    | Began(price: nat)
    | Answered(kind: CallKind, answer: Answer)
    | QuoteSeen(bid: nat, ask: nat)
    | LockSeen(free: bool)
    | WorkSeen(beside: bool)
    | AccountAnswered(answer: Answer)
    | GateSeen(permitted: bool, stopped: bool, ended: bool, joins: bool)
    | GateRaised
    | PlaceForwarded(price: nat, quantity: nat)
    | PlaceHeard(place: PlaceAnswer)
    | OrderHeard(order: OrderAnswer)
    | CancelTried(sending: Sending)
    | CancelHeard(cancel: CancelAnswer)
    | Settles
    | Crashed

  /** Why an order is read after its cancel. `Unaccepted`: whether the cancel was sent at all. */
  datatype Cause = Accepted | Unaccepted(sent: bool) | Salvaged

  datatype Confirmation = Confirmation(cause: Cause, strict: bool, duration: nat)

  /** A placed order as last seen, the reads left, and the end of its step. */
  datatype Watcher = Watcher(seen: Observation, left: nat, end: int)

  /** Where the task is: what it reads or does next. */
  datatype At =
    | HeadStop | HeadEnded | HeadTime | Beginning
    | Quoting | QuotingUnderlying | Bounding | StepClock | Reviewing(started: int)
    | Locking(started: int) | LockStop(started: int) | LockEnded(started: int) | LockTime(started: int)
    | LockWork(started: int) | LockAccount(started: int) | AtGate(started: int) | AtSend(started: int)
    | Hearing(started: int)
    | Watch(watcher: Watcher) | WatchTime(watcher: Watcher) | NapStop(watcher: Watcher) | WatchRead(watcher: Watcher)
    | CancelStop(strict: bool) | CancelSend(strict: bool, stopping: bool) | CancelRecheck(strict: bool, refused: bool)
    | CancelHear(strict: bool, stopping: bool)
    | ConfirmStart(c: Confirmation) | ConfirmTime(c: Confirmation, deadline: int, left: nat)
    | ConfirmRead(c: Confirmation, deadline: int, left: nat) | ConfirmNap(c: Confirmation, deadline: int, left: nat)
    | Settling(seen: Observation, strict: bool) | SettlingUnaccepted(seen: Observation)
    | SettlingSalvage(seen: Observation)
    | AfterStop
    | Raising(failure: bool, working: bool) | SalvageSend | SalvageHear
    | Quit(status: JobStatus)

  datatype Place = Place(price: nat, quantity: nat)

  /** `k` prices are begun, `filled` contracts are counted, and `places` were sent, in order. */
  datatype Walk = Walk(k: nat, filled: nat, places: seq<Place>, at: At)

  // ---- What it decides from what it reads ---------------------------------------------------

  function Left(cfg: Config, filled: nat): nat { if filled < cfg.quantity then cfg.quantity - filled else 0 }

  function EndStatus(cfg: Config, filled: nat): JobStatus {
    if filled == 0 && cfg.quantity > 0 then JobCancelled else if filled < cfg.quantity then JobPartlyFilled else JobFilled
  }

  predicate Short(cfg: Config, now: int) { cfg.windowEnd - now < cfg.timing.poll + CANCEL_RESERVE }

  predicate IsOver(seen: Observation) {
    seen.status in {OrderStatus.Filled, OrderStatus.Cancelled, OrderStatus.Rejected, OrderStatus.Expired}
  }

  /** The broker's order is the one that was sent. */
  predicate Ours(seen: Observation, price: nat, quantity: nat) {
    seen.legsMatch && seen.quantity == quantity && seen.limitPrice in {None, Some(price)}
  }

  /** A terminal order's fills are consistent with it and with what was asked. */
  predicate FillsAgree(seen: Observation, quantity: nat, strict: bool) {
    && 0 <= seen.processed && seen.processed <= quantity
    && (strict ==> seen.quantity == quantity)
    && !(seen.status == OrderStatus.Filled && seen.processed != seen.quantity)
    && !(seen.status == OrderStatus.Cancelled && seen.processed == seen.quantity)
  }

  /** The end of a step's wait: its own, and before the window's reserve for a cancel. */
  function StepEnd(cfg: Config, started: int): int {
    var own, window := started + cfg.timing.stepWait, cfg.windowEnd - CANCEL_RESERVE;
    if own <= window then own else window
  }

  function Duration(stopping: bool): nat { if stopping then LATCH_CANCEL else CONFIRM }

  function Go(w: Walk, at: At): Option<Walk> { Some(w.(at := at)) }

  /** The watch of an order, or its settling. */
  function WatchAt(seen: Observation, left: nat, end: int): At {
    if IsOver(seen) then Settling(seen, true) else Watch(Watcher(seen, left, end))
  }

  /** The watch is over, with this last answer. */
  function UnwatchedAt(order: Observation): At { if IsOver(order) then Settling(order, true) else CancelStop(true) }

  /** A placed order is watched if it is ours; another one is settled or cancelled. */
  function PlacedAt(cfg: Config, started: int, seen: Observation, ours: bool): At
    requires cfg.timing.poll > 0
  {
    if ours then WatchAt(seen, CeilDiv(cfg.timing.stepWait, cfg.timing.poll), StepEnd(cfg, started))
    else if IsOver(seen) then Settling(seen, false) else CancelStop(false)
  }

  /** The cancel was not sent: read the stop flag again, or end, or read the order. */
  function UnsentAt(strict: bool, refused: bool, stopping: bool): At {
    if !stopping then CancelRecheck(strict, refused)
    else if refused then Quit(JobUnknown)
    else ConfirmStart(Confirmation(Unaccepted(false), strict, LATCH_CANCEL))
  }

  function SalvageReads(): At { ConfirmStart(Confirmation(Salvaged, true, LATCH_CANCEL)) }

  /** How the reads after a cancel end. */
  function ConfirmedAt(c: Confirmation, answer: OrderAnswer): At {
    match answer
    case ReadRaised(failure) =>
      if c.cause.Salvaged? then Quit(JobUnknown) else Raising(failure, c.cause == Unaccepted(false))
    case Unseen => Quit(JobUnknown)
    case Seen(seen) =>
      match c.cause
      case Accepted => Settling(seen, c.strict)
      case Unaccepted(_) => SettlingUnaccepted(seen)
      case Salvaged => SettlingSalvage(seen)
  }

  /** After a settled step: done, rejected, or on to the stop flag. */
  function AfterAt(cfg: Config, filled: nat, rejected: bool): At {
    if filled >= cfg.quantity then Quit(JobFilled) else if rejected then Quit(JobStopped) else AfterStop
  }

  function Count(w: Walk, seen: Observation): Walk {
    if seen.processed >= 0 then w.(filled := w.filled + seen.processed) else w
  }

  // ---- The steps -----------------------------------------------------------------------------

  function StartOf(cfg: Config): Walk {
    Walk(0, 0, [], if cfg.prices == [] then Quit(EndStatus(cfg, 0)) else HeadStop)
  }

  /** `_stopping()`, wherever it is read. */
  function OnStop(cfg: Config, w: Walk, stopping: bool): Option<Walk> {
    match w.at
    case HeadStop => Go(w, if stopping then Quit(JobStopped) else HeadEnded)
    case LockStop(started) => Go(w, if stopping then Quit(JobStopped) else LockEnded(started))
    case Watch(watcher) => Go(w, if stopping || watcher.left == 0 then CancelStop(true) else WatchTime(watcher))
    case NapStop(watcher) => Go(w, if stopping then CancelStop(true) else WatchRead(watcher))
    case CancelStop(strict) => Go(w, CancelSend(strict, stopping))
    case CancelRecheck(strict, refused) =>
      Go(w, if stopping then CancelSend(strict, true)
            else if refused then Quit(JobUnknown)
            else ConfirmStart(Confirmation(Unaccepted(false), strict, CONFIRM)))
    case AfterStop =>
      Go(w, if stopping then Quit(JobStopped)
            else if w.filled > 0 && cfg.partialFillStops then Quit(JobPartlyFilled)
            else if w.k == |cfg.prices| then Quit(EndStatus(cfg, w.filled)) else HeadStop)
    case _ => None
  }

  /** `placement_ended`. */
  function OnEnded(cfg: Config, w: Walk, ended: bool): Option<Walk> {
    match w.at
    case HeadEnded => Go(w, if ended then Quit(JobStopped) else HeadTime)
    case LockEnded(started) => Go(w, if ended then Quit(JobStopped) else LockTime(started))
    case _ => None
  }

  /** The clock. */
  function OnClock(cfg: Config, w: Walk, now: int): Option<Walk> {
    match w.at
    case HeadTime => Go(w, if Short(cfg, now) then Quit(EndStatus(cfg, w.filled)) else Beginning)
    case StepClock => Go(w, Reviewing(now))
    case LockTime(started) => Go(w, if Short(cfg, now) then Quit(EndStatus(cfg, w.filled)) else LockWork(started))
    case WatchTime(watcher) =>
      if watcher.left == 0 then None
      else Go(w, if watcher.end - now <= 0 then CancelStop(true) else NapStop(watcher.(left := watcher.left - 1)))
    case ConfirmStart(c) =>
      if cfg.timing.poll == 0 then None
      else Go(w, ConfirmTime(c, now + c.duration, CeilDiv(c.duration, cfg.timing.poll) + 1))
    case ConfirmTime(c, deadline, left) =>
      if left == 0 then None
      else Go(w, if deadline - now <= 0 then Quit(JobUnknown) else ConfirmRead(c, deadline, left - 1))
    case ConfirmNap(c, deadline, left) =>
      Go(w, if deadline - now <= 0 || left == 0 then Quit(JobUnknown) else ConfirmTime(c, deadline, left))
    case _ => None
  }

  /** The next price step is begun. */
  function OnBegan(cfg: Config, w: Walk, price: nat): Option<Walk> {
    if w.at.Beginning? && w.k < |cfg.prices| && price == cfg.prices[w.k]
    then Some(w.(k := w.k + 1, at := Quoting)) else None
  }

  /** A quote or the review. */
  function OnAnswer(cfg: Config, w: Walk, kind: CallKind, answer: Answer): Option<Walk> {
    if !PreparesAt(w.at, kind) then None
    else
      Go(w, match answer
            case Raised(failure) => Raising(failure, false)
            case Unusable => Quit(JobStopped)
            case Usable => UsableAt(cfg, w.at))
  }

  /** On to the next read, the quote's bounds, or the lock. */
  function UsableAt(cfg: Config, at: At): At {
    match at
    case Quoting => if cfg.side.SellToOpen? then QuotingUnderlying else Bounding
    case QuotingUnderlying => Bounding
    case Reviewing(started) => Locking(started)
    case _ => at
  }

  predicate PreparesAt(at: At, kind: CallKind) {
    match kind
    case QuoteRead => at.Quoting?
    case UnderlyingQuoteRead => at.QuotingUnderlying?
    case Review => at.Reviewing?
  }

  /** `within_bounds`. */
  function OnQuote(cfg: Config, w: Walk, bid: nat, ask: nat): Option<Walk> {
    if !w.at.Bounding? || !(0 < w.k <= |cfg.prices|) then None
    else Go(w, if bid <= cfg.prices[w.k - 1] <= ask then StepClock else Quit(EndStatus(cfg, w.filled)))
  }

  /** The placement lock: free, or the task was cancelled while it waited. */
  function OnLock(cfg: Config, w: Walk, free: bool): Option<Walk> {
    if w.at.Locking? then Go(w, if free then LockStop(w.at.started) else Raising(false, false)) else None
  }

  /** Whether there is other work of the run. */
  function OnWork(cfg: Config, w: Walk, beside: bool): Option<Walk> {
    if w.at.LockWork? then Go(w, if beside then LockAccount(w.at.started) else AtGate(w.at.started)) else None
  }

  function OnAccount(cfg: Config, w: Walk, answer: Answer): Option<Walk> {
    if w.at.LockAccount?
    then Go(w, if answer.Raised? then Raising(answer.failure, false) else AtGate(w.at.started)) else None
  }

  /** The hooks' and the proxy's checks of the place. */
  function OnGate(cfg: Config, w: Walk, permitted: bool, stopped: bool, ended: bool, joins: bool): Option<Walk> {
    if w.at.AtGate? then Go(w, if permitted && !stopped && !ended && joins then AtSend(w.at.started) else Quit(JobStopped))
    else None
  }

  /** The place is sent: the step's price, for all that is left. */
  function OnForwarded(cfg: Config, w: Walk, price: nat, quantity: nat): Option<Walk> {
    if w.at.AtSend? && 0 < w.k <= |cfg.prices| && price == cfg.prices[w.k - 1] && quantity == Left(cfg, w.filled)
    then Some(w.(places := w.places + [Place(price, quantity)], at := Hearing(w.at.started))) else None
  }

  /** What comes back for the place. */
  function OnPlace(cfg: Config, w: Walk, place: PlaceAnswer): Option<Walk> {
    if !w.at.Hearing? || !(0 < w.k <= |cfg.prices|) || cfg.timing.poll == 0 then None
    else
      match place
      case PlaceRaised(failure) => Go(w, Raising(failure, false))
      case Lost => Go(w, Quit(JobUnknown))
      case Acknowledged(seen) =>
        Go(w, PlacedAt(cfg, w.at.started, seen, Ours(seen, cfg.prices[w.k - 1], Left(cfg, w.filled))))
  }

  /** An order read: of a watched order, or to confirm a cancel. */
  function OnOrder(cfg: Config, w: Walk, order: OrderAnswer): Option<Walk> {
    match w.at
    case WatchRead(watcher) =>
      Go(w, match order
            case ReadRaised(failure) => Raising(failure, true)
            case Unseen => Watch(watcher)
            case Seen(seen) => WatchAt(seen, watcher.left, watcher.end))
    case ConfirmRead(c, deadline, left) =>
      Go(w, if order.ReadRaised? || (order.Seen? && IsOver(order.seen)) then ConfirmedAt(c, order)
            else ConfirmNap(c, deadline, left))
    case _ => None
  }

  /** A cancel is tried. */
  function OnTried(cfg: Config, w: Walk, sending: Sending): Option<Walk> {
    match w.at
    case CancelSend(strict, stopping) =>
      Go(w, match sending
            case SendRaised(failure) => Raising(failure, false)
            case Sent => CancelHear(strict, stopping)
            case NotSent(refused) => UnsentAt(strict, refused, stopping))
    case SalvageSend =>
      Go(w, match sending
            case SendRaised(_) => Quit(JobUnknown)
            case Sent => SalvageHear
            case NotSent(refused) => if refused then Quit(JobUnknown) else SalvageReads())
    case _ => None
  }

  /** What comes back for a cancel. */
  function OnCancel(cfg: Config, w: Walk, cancel: CancelAnswer): Option<Walk> {
    match w.at
    case CancelHear(strict, stopping) =>
      Go(w, match cancel
            case CancelRaised(failure) => Raising(failure, false)
            case Heard(ok) =>
              ConfirmStart(Confirmation(if ok then Accepted else Unaccepted(true), strict, Duration(stopping))))
    case SalvageHear => Go(w, if cancel.CancelRaised? then Quit(JobUnknown) else SalvageReads())
    case _ => None
  }

  /** `_settle`, and what follows it. */
  function OnSettles(cfg: Config, w: Walk): Option<Walk> {
    match w.at
    case Settling(seen, strict) =>
      if !FillsAgree(seen, Left(cfg, w.filled), strict) then Go(w, Quit(JobUnknown))
      else
        var counted := Count(w, seen);
        Go(counted, if strict then AfterAt(cfg, counted.filled, seen.status.Rejected?) else Quit(JobUnknown))
    case SettlingUnaccepted(seen) =>
      if !FillsAgree(seen, Left(cfg, w.filled), true) then Go(w, Quit(JobUnknown))
      else var counted := Count(w, seen); Go(counted, Quit(EndStatus(cfg, counted.filled)))
    case SettlingSalvage(seen) =>
      Go(if FillsAgree(seen, Left(cfg, w.filled), true) then Count(w, seen) else w, Quit(JobUnknown))
    case _ => None
  }

  /** The exception handler: one salvage of a working step without a cancel. */
  function OnCrash(cfg: Config, w: Walk): Option<Walk> {
    if w.at.Raising? then Go(w, if w.at.working then SalvageSend else Quit(JobUnknown)) else None
  }

  /** Where the task is after one more fact. */
  function NextWalk(cfg: Config, w: Walk, fact: Fact): Option<Walk> {
    match fact
    case StopSeen(stopping) => OnStop(cfg, w, stopping)
    case EndedSeen(ended) => OnEnded(cfg, w, ended)
    case ClockSeen(now) => OnClock(cfg, w, now)
    case Began(price) => OnBegan(cfg, w, price)
    case Answered(kind, answer) => OnAnswer(cfg, w, kind, answer)
    case QuoteSeen(bid, ask) => OnQuote(cfg, w, bid, ask)
    case LockSeen(free) => OnLock(cfg, w, free)
    case WorkSeen(beside) => OnWork(cfg, w, beside)
    case AccountAnswered(answer) => OnAccount(cfg, w, answer)
    case GateSeen(permitted, stopped, ended, joins) => OnGate(cfg, w, permitted, stopped, ended, joins)
    case GateRaised => if w.at.AtGate? then Go(w, Raising(true, false)) else None
    case PlaceForwarded(price, quantity) => OnForwarded(cfg, w, price, quantity)
    case PlaceHeard(place) => OnPlace(cfg, w, place)
    case OrderHeard(order) => OnOrder(cfg, w, order)
    case CancelTried(sending) => OnTried(cfg, w, sending)
    case CancelHeard(cancel) => OnCancel(cfg, w, cancel)
    case Settles => OnSettles(cfg, w)
    case Crashed => OnCrash(cfg, w)
  }

  /** Where the task is after these facts; None if it could not read or do them. */
  function Fold(cfg: Config, log: seq<Fact>): Option<Walk> {
    if log == [] then Some(StartOf(cfg))
    else
      var before := Fold(cfg, log[..|log| - 1]);
      if before.None? then None else NextWalk(cfg, before.value, log[|log| - 1])
  }

  /** The walks these facts lead through, one by one. */
  ghost predicate Leads(cfg: Config, log: seq<Fact>, walks: seq<Walk>) {
    && |walks| == |log| + 1 && walks[0] == StartOf(cfg)
    && forall i {:trigger log[i]} :: 0 <= i < |log| ==> NextWalk(cfg, walks[i], log[i]) == Some(walks[i + 1])
  }

  lemma {:induction false} LeadsToFold(cfg: Config, log: seq<Fact>, walks: seq<Walk>)
    requires Leads(cfg, log, walks)
    ensures Fold(cfg, log) == Some(walks[|log|])
  {
    if log != [] {
      var n := |log| - 1;
      assert forall i {:trigger log[..n][i]} :: 0 <= i < n ==> log[..n][i] == log[i];
      LeadsToFold(cfg, log[..n], walks[..|log|]);
      assert NextWalk(cfg, walks[n], log[n]) == Some(walks[n + 1]);
    }
  }
}
