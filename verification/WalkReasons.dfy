/** What the facts of one order-walk task say: why it ended, and that every price it began was
    sent to the broker, in the ladder's order, before the next. */
module WalkReasons {
  import opened Optionals
  import opened WalkSchedule
  import opened OrderWalk
  import opened WalkScript

  // ---- What happened in the step at hand ----------------------------------------------------

  /** A cancel was tried since the last price was begun. */
  predicate Tried(log: seq<Fact>) {
    log != [] && (log[|log| - 1].CancelTried? || (!log[|log| - 1].Began? && Tried(log[..|log| - 1])))
  }

  /** A cancel was accepted since the last price was begun. */
  predicate CancelAccepted(log: seq<Fact>) {
    log != [] && (|| log[|log| - 1] == CancelHeard(Heard(true))
                  || (!log[|log| - 1].Began? && CancelAccepted(log[..|log| - 1])))
  }

  /** The broker's order, as its place call returned it, since the last price was begun. */
  function PlacedIn(log: seq<Fact>): Option<Observation> {
    if log == [] || log[|log| - 1].Began? then None
    else if log[|log| - 1].PlaceHeard? && log[|log| - 1].place.Acknowledged? then Some(log[|log| - 1].place.seen)
    else PlacedIn(log[..|log| - 1])
  }

  /** The answer that the last fact brought of an order. */
  predicate Tells(log: seq<Fact>, seen: Observation) {
    log != [] && (log[|log| - 1] == PlaceHeard(Acknowledged(seen)) || log[|log| - 1] == OrderHeard(Seen(seen)))
  }

  lemma OneMore(log: seq<Fact>, fact: Fact)
    ensures Tried(log + [fact]) <==> fact.CancelTried? || (!fact.Began? && Tried(log))
    ensures CancelAccepted(log + [fact]) <==> fact == CancelHeard(Heard(true)) || (!fact.Began? && CancelAccepted(log))
    ensures PlacedIn(log + [fact]) ==
            if fact.Began? then None
            else if fact.PlaceHeard? && fact.place.Acknowledged? then Some(fact.place.seen) else PlacedIn(log)
  {
    assert (log + [fact])[..|log|] == log;
  }

  // ---- Why a task ends ----------------------------------------------------------------------

  /** The reasons a task may end for, with this last fact: `k` prices begun, and `was` contracts
      counted before it. */
  ghost predicate IsReason(cfg: Config, log: seq<Fact>, k: nat, was: nat) {
    log != [] &&
    match log[|log| - 1]
    case StopSeen(stopping) => stopping || (was > 0 && cfg.partialFillStops) || RefusedCancel(log[..|log| - 1])
    case EndedSeen(ended) => ended
    case ClockSeen(now) => cfg.windowEnd - now < cfg.timing.poll + CANCEL_RESERVE || Tried(log)
    case Answered(_, answer) => answer.Unusable?
    case QuoteSeen(bid, ask) => 0 < k <= |cfg.prices| && (cfg.prices[k - 1] < bid || cfg.prices[k - 1] > ask)
    case GateSeen(permitted, stopped, ended, joins) => !permitted || stopped || ended || !joins
    case PlaceHeard(place) => place.Lost?
    case OrderHeard(order) => order.ReadRaised? && Crashed in log
    case CancelTried(sending) => sending == NotSent(true) || (sending.SendRaised? && Crashed in log)
    case CancelHeard(cancel) => cancel.CancelRaised? && Crashed in log
    case Settles => exists seen :: Tells(log[..|log| - 1], seen) && SettlesForGood(cfg, log, seen, k, was)
    case Crashed => Raises(log[..|log| - 1])
    case _ => false
  }

  /** The last of these facts is a reason to end, with what was counted before it. */
  ghost predicate EndsOnAReason(cfg: Config, log: seq<Fact>, k: nat) {
    && log != [] && Fold(cfg, log[..|log| - 1]).Some?
    && IsReason(cfg, log, k, Fold(cfg, log[..|log| - 1]).value.filled)
  }

  /** The last fact raised an exception, or was the task's cancellation. */
  predicate Raises(log: seq<Fact>) {
    log != [] &&
    match log[|log| - 1]
    case Answered(_, answer) => answer.Raised?
    case LockSeen(free) => !free
    case AccountAnswered(answer) => answer.Raised?
    case GateRaised => true
    case PlaceHeard(place) => place.PlaceRaised?
    case OrderHeard(order) => order.ReadRaised?
    case CancelTried(sending) => sending.SendRaised?
    case CancelHeard(cancel) => cancel.CancelRaised?
    case _ => false
  }

  predicate RefusedCancel(log: seq<Fact>) { log != [] && log[|log| - 1] == CancelTried(NotSent(true)) }

  /** A settled order ends the task: rejected, with fills that do not agree, not the order that was
      sent, or after a cancel that was not accepted or a crash. */
  predicate SettlesForGood(cfg: Config, log: seq<Fact>, seen: Observation, k: nat, was: nat) {
    || seen.status == OrderStatus.Rejected
    || seen.processed < 0 || seen.processed > Left(cfg, was) || seen.quantity != Left(cfg, was)
    || (seen.status == OrderStatus.Filled && seen.processed != seen.quantity)
    || (seen.status == OrderStatus.Cancelled && seen.processed == seen.quantity)
    || (0 < k <= |cfg.prices| && PlacedIn(log).Some? && !Ours(PlacedIn(log).value, cfg.prices[k - 1], Left(cfg, was)))
    || (Tried(log) && !CancelAccepted(log))
    || Crashed in log
  }

  // ---- What each place in the script knows --------------------------------------------------

  function CauseAt(at: At): Option<Cause> {
    match at
    case ConfirmStart(c) => Some(c.cause)
    case ConfirmTime(c, _, _) => Some(c.cause)
    case ConfirmRead(c, _, _) => Some(c.cause)
    case ConfirmNap(c, _, _) => Some(c.cause)
    case SettlingUnaccepted(_) => Some(Unaccepted(true))
    case SettlingSalvage(_) => Some(Salvaged)
    case _ => None
  }

  predicate Unsettled(at: At) { CauseAt(at).Some? || at.CancelRecheck? || at.CancelHear? || at.SalvageHear? }

  /** Before any cancel is accepted. */
  predicate NotYetAccepted(at: At) {
    || at.Quoting? || at.QuotingUnderlying? || at.Bounding? || at.StepClock? || at.Reviewing? || at.Locking?
    || at.LockStop? || at.LockEnded? || at.LockTime? || at.LockWork? || at.LockAccount? || at.AtGate? || at.AtSend?
    || at.Hearing? || at.Watch? || at.WatchTime? || at.NapStop? || at.WatchRead?
    || at.CancelStop? || at.CancelSend? || at.CancelRecheck? || at.CancelHear?
    || (CauseAt(at).Some? && CauseAt(at).value.Unaccepted?)
  }

  /** The placed order was found not to be ours. */
  predicate NotStrict(at: At) {
    match at
    case CancelStop(strict) => !strict
    case CancelSend(strict, _) => !strict
    case CancelRecheck(strict, _) => !strict
    case CancelHear(strict, _) => !strict
    case ConfirmStart(c) => !c.strict
    case ConfirmTime(c, _, _) => !c.strict
    case ConfirmRead(c, _, _) => !c.strict
    case ConfirmNap(c, _, _) => !c.strict
    case Settling(_, strict) => !strict
    case _ => false
  }

  predicate AfterCrash(at: At) { at.SalvageSend? || at.SalvageHear? || CauseAt(at) == Some(Salvaged) }

  function SettledBy(at: At): Option<Observation> {
    match at
    case Settling(seen, _) => Some(seen)
    case SettlingUnaccepted(seen) => Some(seen)
    case SettlingSalvage(seen) => Some(seen)
    case _ => None
  }

  predicate RefusedAt(at: At) { at.CancelRecheck? && at.refused }

  predicate NotOurs(cfg: Config, log: seq<Fact>, w: Walk) {
    && 0 < w.k <= |cfg.prices| && PlacedIn(log).Some?
    && !Ours(PlacedIn(log).value, cfg.prices[w.k - 1], Left(cfg, w.filled))
  }

  predicate Knows(cfg: Config, log: seq<Fact>, w: Walk) {
    && (Unsettled(w.at) ==> Tried(log))
    && (NotYetAccepted(w.at) ==> !CancelAccepted(log))
    && (NotStrict(w.at) ==> NotOurs(cfg, log, w))
    && (AfterCrash(w.at) ==> Crashed in log)
    && (SettledBy(w.at).Some? ==> Tells(log, SettledBy(w.at).value))
    && (RefusedAt(w.at) ==> RefusedCancel(log))
    && (w.at.Raising? ==> Raises(log))
  }

  lemma UnsettledNext(cfg: Config, w: Walk, fact: Fact)
    requires NextWalk(cfg, w, fact).Some? && Unsettled(NextWalk(cfg, w, fact).value.at)
    ensures fact.CancelTried? || (!fact.Began? && Unsettled(w.at))
  { }

  lemma NotYetAcceptedNext(cfg: Config, w: Walk, fact: Fact)
    requires NextWalk(cfg, w, fact).Some? && NotYetAccepted(NextWalk(cfg, w, fact).value.at)
    ensures fact != CancelHeard(Heard(true)) && (fact.Began? || NotYetAccepted(w.at))
  { }

  lemma NotStrictNext(cfg: Config, w: Walk, fact: Fact)
    requires NextWalk(cfg, w, fact).Some? && NotStrict(NextWalk(cfg, w, fact).value.at)
    ensures var next := NextWalk(cfg, w, fact).value;
            && !fact.Began? && next.k == w.k && next.filled == w.filled
            && if fact.PlaceHeard? then
                 && fact.place.Acknowledged? && 0 < w.k <= |cfg.prices|
                 && !Ours(fact.place.seen, cfg.prices[w.k - 1], Left(cfg, w.filled))
               else NotStrict(w.at)
  { }

  lemma AfterCrashNext(cfg: Config, w: Walk, fact: Fact)
    requires NextWalk(cfg, w, fact).Some? && AfterCrash(NextWalk(cfg, w, fact).value.at)
    ensures fact == Crashed || AfterCrash(w.at)
  { }

  lemma SettledByNext(cfg: Config, w: Walk, fact: Fact)
    requires NextWalk(cfg, w, fact).Some? && SettledBy(NextWalk(cfg, w, fact).value.at).Some?
    ensures Tells([fact], SettledBy(NextWalk(cfg, w, fact).value.at).value)
  { }

  lemma RefusedNext(cfg: Config, w: Walk, fact: Fact)
    requires NextWalk(cfg, w, fact).Some? && RefusedAt(NextWalk(cfg, w, fact).value.at)
    ensures fact == CancelTried(NotSent(true))
  { }

  lemma RaisingNext(cfg: Config, w: Walk, fact: Fact)
    requires NextWalk(cfg, w, fact).Some? && NextWalk(cfg, w, fact).value.at.Raising?
    ensures Raises([fact])
  { }

  lemma KnowsNext(cfg: Config, log: seq<Fact>, w: Walk, fact: Fact)
    requires Knows(cfg, log, w) && NextWalk(cfg, w, fact).Some?
    ensures Knows(cfg, log + [fact], NextWalk(cfg, w, fact).value)
  {
    OneMore(log, fact);
    var at := NextWalk(cfg, w, fact).value.at;
    if Unsettled(at) { UnsettledNext(cfg, w, fact); }
    if NotYetAccepted(at) { NotYetAcceptedNext(cfg, w, fact); }
    if NotStrict(at) { NotStrictNext(cfg, w, fact); }
    if AfterCrash(at) { AfterCrashNext(cfg, w, fact); }
    if SettledBy(at).Some? { SettledByNext(cfg, w, fact); }
    if RefusedAt(at) { RefusedNext(cfg, w, fact); }
    if at.Raising? { RaisingNext(cfg, w, fact); }
  }

  lemma {:induction false} FoldKnows(cfg: Config, log: seq<Fact>)
    requires Fold(cfg, log).Some?
    ensures Knows(cfg, log, Fold(cfg, log).value)
  {
    if log != [] {
      var n := |log| - 1;
      FoldKnows(cfg, log[..n]);
      assert log == log[..n] + [log[n]];
      KnowsNext(cfg, log[..n], Fold(cfg, log[..n]).value, log[n]);
    }
  }

  predicate EndsEarly(cfg: Config, w: Walk) { w.at.Quit? && w.k < |cfg.prices| && w.filled < cfg.quantity }

  /** The stop flags, placement's end, and the clock. */
  lemma FlagIsReason(cfg: Config, log: seq<Fact>, w: Walk, fact: Fact)
    requires Knows(cfg, log, w) && (fact.StopSeen? || fact.EndedSeen? || fact.ClockSeen?)
    requires NextWalk(cfg, w, fact).Some? && EndsEarly(cfg, NextWalk(cfg, w, fact).value)
    ensures IsReason(cfg, log + [fact], w.k, w.filled)
  {
    OneMore(log, fact);
    assert (log + [fact])[..|log|] == log;
  }

  /** What the reads, the checks, and the place brought. */
  lemma AnswerIsReason(cfg: Config, log: seq<Fact>, w: Walk, fact: Fact)
    requires Knows(cfg, log, w) && !fact.StopSeen? && !fact.EndedSeen? && !fact.ClockSeen? && !fact.Settles?
    requires NextWalk(cfg, w, fact).Some? && EndsEarly(cfg, NextWalk(cfg, w, fact).value)
    ensures IsReason(cfg, log + [fact], w.k, w.filled)
  {
    assert AfterCrash(w.at) ==> Crashed in log + [fact];
    assert (log + [fact])[..|log|] == log;
  }

  /** What was settled. */
  lemma SettlingIsReason(cfg: Config, log: seq<Fact>, w: Walk)
    requires Knows(cfg, log, w)
    requires NextWalk(cfg, w, Settles).Some? && EndsEarly(cfg, NextWalk(cfg, w, Settles).value)
    ensures IsReason(cfg, log + [Settles], w.k, w.filled)
  {
    OneMore(log, Settles);
    assert (log + [Settles])[..|log|] == log;
    var seen := SettledBy(w.at).value;
    assert Tells(log, seen);
    assert SettlesForGood(cfg, log + [Settles], seen, w.k, w.filled);
  }

  lemma StepForAReason(cfg: Config, log: seq<Fact>, w: Walk, fact: Fact)
    requires Knows(cfg, log, w)
    requires NextWalk(cfg, w, fact).Some? && EndsEarly(cfg, NextWalk(cfg, w, fact).value)
    ensures IsReason(cfg, log + [fact], w.k, w.filled) && NextWalk(cfg, w, fact).value.k == w.k
  {
    if fact.StopSeen? || fact.EndedSeen? || fact.ClockSeen? {
      FlagIsReason(cfg, log, w, fact);
    } else if fact.Settles? {
      SettlingIsReason(cfg, log, w);
    } else {
      AnswerIsReason(cfg, log, w, fact);
    }
  }

  /** A task that ends before it has begun every price, and before its request is filled, ends on
      one of the reasons, as its last fact. */
  lemma EndsForAReason(cfg: Config, log: seq<Fact>)
    requires Fold(cfg, log).Some? && EndsEarly(cfg, Fold(cfg, log).value)
    ensures EndsOnAReason(cfg, log, Fold(cfg, log).value.k)
  {
    var n := |log| - 1;
    FoldKnows(cfg, log[..n]);
    assert log == log[..n] + [log[n]];
    StepForAReason(cfg, log[..n], Fold(cfg, log[..n]).value, log[n]);
  }

  // ---- What was begun, and what was sent ---------------------------------------------------

  /** The prices begun and the places sent, as they happened. */
  function Marks(log: seq<Fact>): seq<Fact> {
    if log == [] then []
    else Marks(log[..|log| - 1]) + if log[|log| - 1].Began? || log[|log| - 1].PlaceForwarded? then [log[|log| - 1]] else []
  }

  /** Each price begun in the ladder's order, and its place sent before the next is begun. */
  function Rungs(prices: seq<nat>, places: seq<Place>): seq<Fact>
    requires |places| <= |prices|
  {
    if places == [] then []
    else
      var n := |places| - 1;
      Rungs(prices, places[..n]) + [Began(prices[n]), PlaceForwarded(prices[n], places[n].quantity)]
  }

  /** Between a price's beginning and its place. */
  predicate Unsent(at: At) {
    || at.Quoting? || at.QuotingUnderlying? || at.Bounding? || at.StepClock? || at.Reviewing? || at.Locking?
    || at.LockStop? || at.LockEnded? || at.LockTime? || at.LockWork? || at.LockAccount? || at.AtGate? || at.AtSend?
  }

  /** With no price begun and unsent. */
  predicate IsSent(at: At) { !Unsent(at) && !at.Quit? && !(at.Raising? && !at.working) }

  /** So far every price but the last begun was sent, in turn, each place at its price. */
  predicate UpTheLadder(cfg: Config, log: seq<Fact>, w: Walk) {
    && w.k <= |cfg.prices| && |w.places| <= w.k <= |w.places| + 1
    && Marks(log) == Rungs(cfg.prices, w.places) + (if |w.places| < w.k then [Began(cfg.prices[w.k - 1])] else [])
    && (forall i :: 0 <= i < |w.places| ==> w.places[i].price == cfg.prices[i] && w.places[i].quantity <= cfg.quantity)
    && (Unsent(w.at) ==> |w.places| == w.k - 1)
    && (IsSent(w.at) ==> |w.places| == w.k)
  }

  lemma MarksOn(log: seq<Fact>, fact: Fact)
    ensures Marks(log + [fact]) == Marks(log) + if fact.Began? || fact.PlaceForwarded? then [fact] else []
  {
    assert (log + [fact])[..|log|] == log;
  }

  lemma {:induction false} RungsPrefix(prices: seq<nat>, places: seq<Place>, place: Place)
    requires |places| < |prices|
    ensures Rungs(prices, places + [place]) ==
            Rungs(prices, places) + [Began(prices[|places|]), PlaceForwarded(prices[|places|], place.quantity)]
  {
    assert (places + [place])[..|places|] == places;
  }

  lemma BegunNext(cfg: Config, log: seq<Fact>, w: Walk, price: nat)
    requires UpTheLadder(cfg, log, w) && OnBegan(cfg, w, price).Some?
    ensures UpTheLadder(cfg, log + [Began(price)], OnBegan(cfg, w, price).value)
  {
    MarksOn(log, Began(price));
  }

  lemma SentNext(cfg: Config, log: seq<Fact>, w: Walk, price: nat, quantity: nat)
    requires UpTheLadder(cfg, log, w) && OnForwarded(cfg, w, price, quantity).Some?
    ensures UpTheLadder(cfg, log + [PlaceForwarded(price, quantity)], OnForwarded(cfg, w, price, quantity).value)
  {
    MarksOn(log, PlaceForwarded(price, quantity));
    RungsPrefix(cfg.prices, w.places, Place(price, quantity));
  }

  lemma OtherFactsKeep(cfg: Config, w: Walk, fact: Fact)
    requires NextWalk(cfg, w, fact).Some? && !fact.Began? && !fact.PlaceForwarded?
    ensures var next := NextWalk(cfg, w, fact).value;
            && next.k == w.k && next.places == w.places
            && (Unsent(next.at) ==> Unsent(w.at)) && (IsSent(next.at) ==> IsSent(w.at))
  { }

  lemma LadderNext(cfg: Config, log: seq<Fact>, w: Walk, fact: Fact)
    requires UpTheLadder(cfg, log, w) && NextWalk(cfg, w, fact).Some?
    ensures UpTheLadder(cfg, log + [fact], NextWalk(cfg, w, fact).value)
  {
    if fact.Began? {
      BegunNext(cfg, log, w, fact.price);
    } else if fact.PlaceForwarded? {
      SentNext(cfg, log, w, fact.price, fact.quantity);
    } else {
      OtherFactsKeep(cfg, w, fact);
      MarksOn(log, fact);
    }
  }

  lemma {:induction false} FoldUpTheLadder(cfg: Config, log: seq<Fact>)
    requires Fold(cfg, log).Some?
    ensures UpTheLadder(cfg, log, Fold(cfg, log).value)
  {
    if log == [] {
      assert Rungs(cfg.prices, []) == [];
    } else {
      var n := |log| - 1;
      FoldUpTheLadder(cfg, log[..n]);
      assert log == log[..n] + [log[n]];
      LadderNext(cfg, log[..n], Fold(cfg, log[..n]).value, log[n]);
    }
  }

  /** The reasons a begun price may not be sent for, with this last fact. */
  predicate KeepsFromSending(cfg: Config, fact: Fact, k: nat) {
    match fact
    case StopSeen(stopping) => stopping
    case EndedSeen(ended) => ended
    case ClockSeen(now) => cfg.windowEnd - now < cfg.timing.poll + CANCEL_RESERVE
    case Answered(_, answer) => answer.Unusable?
    case QuoteSeen(bid, ask) => 0 < k <= |cfg.prices| && (cfg.prices[k - 1] < bid || cfg.prices[k - 1] > ask)
    case GateSeen(permitted, stopped, ended, joins) => !permitted || stopped || ended || !joins
    case Crashed => true
    case _ => false
  }

  lemma UnsentForAReason(cfg: Config, w: Walk, fact: Fact)
    requires NextWalk(cfg, w, fact).Some? && NextWalk(cfg, w, fact).value.at.Quit? && !IsSent(w.at)
    ensures KeepsFromSending(cfg, fact, w.k) && !fact.Began? && NextWalk(cfg, w, fact).value.places == w.places
    ensures NextWalk(cfg, w, fact).value.k == w.k
  { }

  /** Every price a task begins is sent before it begins the next, at its own price and in the
      ladder's order; an ended task sent its last begun price too, unless it ends on one of the
      reasons that come before a place. */
  lemma BegunPricesAreSent(cfg: Config, log: seq<Fact>)
    requires Fold(cfg, log).Some?
    ensures UpTheLadder(cfg, log, Fold(cfg, log).value)
    ensures var w := Fold(cfg, log).value;
            w.at.Quit? && |w.places| < w.k ==> log != [] && KeepsFromSending(cfg, log[|log| - 1], w.k)
  {
    FoldUpTheLadder(cfg, log);
    if log != [] && Fold(cfg, log).value.at.Quit? {
      var n := |log| - 1;
      FoldUpTheLadder(cfg, log[..n]);
      UnsentAtItsEnd(cfg, log[..n], Fold(cfg, log[..n]).value, log[n]);
    }
  }

  lemma UnsentAtItsEnd(cfg: Config, log: seq<Fact>, w: Walk, fact: Fact)
    requires UpTheLadder(cfg, log, w) && NextWalk(cfg, w, fact).Some? && NextWalk(cfg, w, fact).value.at.Quit?
    ensures var next := NextWalk(cfg, w, fact).value; |next.places| < next.k ==> KeepsFromSending(cfg, fact, next.k)
  {
    if IsSent(w.at) {
      OtherFactsKeep(cfg, w, fact);
    } else {
      UnsentForAReason(cfg, w, fact);
    }
  }
}
