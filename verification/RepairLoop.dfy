/** The session's turns (`agent/session.py`, `_converse`, `_improves`, `_restore`): order-work
    reports, order cleanups, output repairs, and reference repairs, under a tool gate that only
    narrows (`agent/hooks.py`, `OutputRepairGate`). The model's replies, the stop latch, the
    jobs, the ledger, and the reference check may answer anything. */
module RepairLoop {
  import opened Optionals

  const MAX_OUTPUT_REPAIRS := 2
  const MAX_REFERENCE_REPAIRS := 2
  const MAX_ORDER_WORK_TURNS := 3
  const MAX_ORDER_CLEANUPS := 2

  type ToolName = nat
  type Action = nat
  type Issue = nat

  /** A reply, and the decision actions it parses to, if it parses. */
  datatype Text = Text(raw: nat, parsed: Option<seq<Action>>)

  /** A valid output with the reference issues found in it. */
  datatype Best = Best(text: Text, issues: seq<Issue>) {
    function Actions(): seq<Action> { if text.parsed.Some? then text.parsed.value else [] }
  }

  datatype TurnKind = StartTurn | OrderWorkTurn | CleanupTurn | RepairTurn | ReferenceTurn

  datatype Exit = Stopped | NoReply | AcceptedOutput | Restored | Exhausted

  datatype Next = Continue(text: Option<Text>) | Done(exit: Exit)

  class OutputRepairGate {
    /** None: no restriction. */
    var permitted: Option<set<ToolName>>

    constructor ()
      ensures permitted.None?
    {
      permitted := None;
    }

    predicate Permits(tool: ToolName)
      reads this
    {
      permitted.None? || tool in permitted.value
    }

    predicate Closed()
      reads this
    {
      permitted == Some({})
    }

    /** `restrict`: never widens. */
    method Restrict(tools: set<ToolName>)
      modifies this
      ensures forall t :: Permits(t) <==> old(Permits(t)) && t in tools
      ensures old(Closed()) ==> Closed()
    {
      if permitted.Some? && permitted.value == {} { return; }
      permitted := Some(if permitted.None? then tools else permitted.value * tools);
    }

    /** `close`. */
    method Close()
      modifies this
      ensures Closed()
    {
      permitted := Some({});
    }
  }

  // ---- What the accepted outputs satisfy ---------------------------------------------------

  /** `_improves`, the part that compares outputs. */
  predicate Improves(before: Best, after: Best) {
    before.Actions() == after.Actions() && |after.issues| < |before.issues|
  }

  predicate Improving(chain: seq<Best>) {
    && (forall i :: 0 <= i < |chain| ==> chain[i].text.parsed.Some?)
    && forall i :: 0 <= i < |chain| - 1 ==> Improves(chain[i], chain[i + 1])
  }

  /** The last accepted output has the fewest issues of all, and the first one's actions. */
  lemma {:induction false} LastIsBest(chain: seq<Best>, i: nat)
    requires Improving(chain) && i < |chain|
    ensures |chain[|chain| - 1].issues| + (|chain| - 1 - i) <= |chain[i].issues|
    ensures chain[|chain| - 1].Actions() == chain[i].Actions()
  {
    var n := |chain| - 1;
    if i < n {
      LastIsBest(chain[..n], i);
      assert Improves(chain[n - 1], chain[n]);
    }
  }

  /** The order of turns: no cleanup once an output is repaired, and no repair once a valid output
      is being improved. */
  predicate InOrder(sent: seq<TurnKind>) {
    && (forall i, j :: 0 <= i < j < |sent| && (sent[i].RepairTurn? || sent[i].ReferenceTurn?) ==> !sent[j].CleanupTurn?)
    && forall i, j :: 0 <= i < j < |sent| && sent[i].ReferenceTurn? ==> !sent[j].RepairTurn?
  }

  function Count(sent: seq<TurnKind>, kind: TurnKind): nat {
    if sent == [] then 0
    else Count(sent[..|sent| - 1], kind) + if sent[|sent| - 1] == kind then 1 else 0
  }

  lemma {:induction false} CountedOnce(sent: seq<TurnKind>)
    ensures |sent| == Count(sent, StartTurn) + Count(sent, OrderWorkTurn) + Count(sent, CleanupTurn)
                      + Count(sent, RepairTurn) + Count(sent, ReferenceTurn)
  {
    if sent != [] { CountedOnce(sent[..|sent| - 1]); }
  }

  lemma {:induction false} CountNone(sent: seq<TurnKind>, kind: TurnKind)
    requires Count(sent, kind) == 0
    ensures forall i :: 0 <= i < |sent| ==> sent[i] != kind
  {
    if sent != [] { CountNone(sent[..|sent| - 1], kind); }
  }

  // ---- What a session reads and does, in order -----------------------------------------------

  /** `left`: jobs still running; `busy`: those, or jobs not started yet. `failed`: the reference
      check has failed once. */
  datatype Fact =
    | Sent(kind: TurnKind)
    | Reply(text: Text)
    | Silence
    | StopRead(stop: bool)
    | JobsRead(busy: bool, left: bool)
    | OrdersRead(unresolved: bool)
    | Looked(text: Text)
    | Judged(reply: Best, failed: bool)
    | Exited(exit: Exit)

  /** The turns sent. */
  function Kinds(log: seq<Fact>): seq<TurnKind> {
    if log == [] then []
    else Kinds(log[..|log| - 1]) + if log[|log| - 1].Sent? then [log[|log| - 1].kind] else []
  }

  function Turns(log: seq<Fact>, kind: TurnKind): nat { Count(Kinds(log), kind) }

  /** A judged reply is accepted when it is the first, or the check has never failed and it improves
      on the last accepted one. */
  predicate Accepts(chain: seq<Best>, reply: Best, failed: bool) {
    chain == [] || (!failed && Improves(chain[|chain| - 1], reply))
  }

  function Accepted(log: seq<Fact>): seq<Best> {
    if log == [] then []
    else
      var chain, last := Accepted(log[..|log| - 1]), log[|log| - 1];
      if last.Judged? && Accepts(chain, last.reply, last.failed) then chain + [last.reply] else chain
  }

  /** What a turn brings. */
  function Heard(text: Option<Text>): Fact { if text.Some? then Reply(text.value) else Silence }

  function LastReply(log: seq<Fact>): Option<Text> {
    if log == [] then None
    else if log[|log| - 1].Reply? then Some(log[|log| - 1].text) else LastReply(log[..|log| - 1])
  }

  function Last(log: seq<Fact>): Fact
    requires log != []
  {
    log[|log| - 1]
  }

  /** The fact before the last. */
  predicate Before(log: seq<Fact>, fact: Fact) { |log| >= 2 && log[|log| - 2] == fact }

  predicate RepairsBegan(log: seq<Fact>) { Turns(log, RepairTurn) > 0 || Turns(log, ReferenceTurn) > 0 }

  /** A cleanup turn may still be sent. */
  predicate CleanupLeft(log: seq<Fact>) { !RepairsBegan(log) && Turns(log, CleanupTurn) < MAX_ORDER_CLEANUPS }

  predicate ReportLeft(log: seq<Fact>) { Turns(log, OrderWorkTurn) < MAX_ORDER_WORK_TURNS }

  /** No job is busy, or the busy ones were waited for, the run goes on, and there is nothing to
      report or no report left. */
  predicate PastJobs(log: seq<Fact>) {
    && log != []
    && (|| (Last(log).JobsRead? && !Last(log).busy)
        || (Last(log) == StopRead(false) && Before(log, JobsRead(true, false)))
        || (Last(log) == StopRead(false) && Before(log, JobsRead(true, true)) && !ReportLeft(log)))
  }

  /** The last reply is unparsed, and is looked at. */
  predicate Unparsed(log: seq<Fact>) { log != [] && Last(log).Looked? && Last(log).text.parsed.None? }

  predicate JustAccepted(log: seq<Fact>) {
    log != [] && Last(log).Judged? && Accepts(Accepted(log[..|log| - 1]), Last(log).reply, Last(log).failed)
  }

  /** An order-work report came since the last output was accepted. */
  predicate Reported(log: seq<Fact>) {
    log != [] && (Last(log) == Sent(OrderWorkTurn) || (!JustAccepted(log) && Reported(log[..|log| - 1])))
  }

  /** What may be read after these facts, and when a reply is looked at and judged. */
  predicate MayRead(log: seq<Fact>, fact: Fact)
    requires log != [] && !fact.Sent? && !fact.Exited?
  {
    match fact
    case Reply(_) => Last(log).Sent?
    case Silence => Last(log).Sent?
    case StopRead(_) => Last(log).Reply? || (Last(log).JobsRead? && Last(log).busy)
    case JobsRead(busy, left) => Last(log) == StopRead(false) && |log| >= 2 && log[|log| - 2].Reply? && (left ==> busy)
    case OrdersRead(_) => PastJobs(log) && CleanupLeft(log)
    case Looked(text) => LastReply(log) == Some(text) && PastCleanup(log)
    case Judged(reply, _) => Last(log) == Looked(reply.text) && reply.text.parsed.Some?
  }

  /** Nothing is unresolved, or no cleanup turn may be sent any more. */
  predicate PastCleanup(log: seq<Fact>)
    requires log != []
  {
    Last(log) == OrdersRead(false) || (PastJobs(log) && !CleanupLeft(log))
  }

  /** What the session sends after these facts. */
  predicate MaySend(log: seq<Fact>, kind: TurnKind) {
    match kind
    case StartTurn => log == []
    case OrderWorkTurn => log != [] && Last(log) == StopRead(false) && Before(log, JobsRead(true, true)) && ReportLeft(log)
    case CleanupTurn => log != [] && Last(log) == OrdersRead(true)
    case RepairTurn => Unparsed(log) && Accepted(log) == [] && Turns(log, RepairTurn) < MAX_OUTPUT_REPAIRS
    case ReferenceTurn =>
      JustAccepted(log) && Last(log).reply.issues != [] && Turns(log, ReferenceTurn) < MAX_REFERENCE_REPAIRS
  }

  /** How the session ends after these facts. */
  predicate MayExit(log: seq<Fact>, exit: Exit)
    requires log != []
  {
    match exit
    case Stopped => Last(log) == StopRead(true)
    case NoReply => Last(log) == Silence
    case AcceptedOutput =>
      JustAccepted(log) && (Last(log).reply.issues == [] || Turns(log, ReferenceTurn) >= MAX_REFERENCE_REPAIRS)
    case Restored => Accepted(log) != [] && (Unparsed(log) || (Last(log).Judged? && !JustAccepted(log)))
    case Exhausted => Unparsed(log) && Accepted(log) == [] && Turns(log, RepairTurn) >= MAX_OUTPUT_REPAIRS
  }

  /** The session's rule: what may come after these facts. */
  predicate May(log: seq<Fact>, fact: Fact) {
    match fact
    case Sent(kind) => MaySend(log, kind)
    case Exited(exit) => log != [] && MayExit(log, exit)
    case _ => log != [] && MayRead(log, fact)
  }

  predicate Ruled(log: seq<Fact>) {
    log == [] || (Ruled(log[..|log| - 1]) && May(log[..|log| - 1], log[|log| - 1]))
  }

  lemma RuledOn(log: seq<Fact>, fact: Fact)
    requires Ruled(log) && May(log, fact)
    ensures Ruled(log + [fact])
  {
    assert (log + [fact])[..|log|] == log;
  }

  lemma FactAdded(log: seq<Fact>, fact: Fact)
    ensures Kinds(log + [fact]) == if fact.Sent? then Kinds(log) + [fact.kind] else Kinds(log)
    ensures Accepted(log + [fact])
            == if fact.Judged? && Accepts(Accepted(log), fact.reply, fact.failed) then Accepted(log) + [fact.reply]
               else Accepted(log)
    ensures LastReply(log + [fact]) == if fact.Reply? then Some(fact.text) else LastReply(log)
    ensures Last(log + [fact]) == fact && (log != [] ==> Before(log + [fact], Last(log)))
    ensures !fact.Judged? ==> (Reported(log + [fact]) <==> fact == Sent(OrderWorkTurn) || Reported(log))
  {
    assert (log + [fact])[..|log|] == log;
  }

  lemma {:induction false} RuledAt(log: seq<Fact>, k: nat)
    requires Ruled(log) && k < |log|
    ensures May(log[..k], log[k])
  {
    var n := |log| - 1;
    if k < n {
      RuledAt(log[..n], k);
      assert log[..n][..k] == log[..k];
    }
  }

  // ---- What the rule implies ---------------------------------------------------------------------

  lemma KindAdded(sent: seq<TurnKind>, kind: TurnKind, k: TurnKind)
    ensures Count(sent + [kind], k) == Count(sent, k) + if k == kind then 1 else 0
  {
    assert (sent + [kind])[..|sent|] == sent;
  }

  lemma TurnAdded(log: seq<Fact>, fact: Fact, kind: TurnKind)
    ensures Turns(log + [fact], kind) == Turns(log, kind) + if fact == Sent(kind) then 1 else 0
  {
    FactAdded(log, fact);
    if fact.Sent? { KindAdded(Kinds(log), fact.kind, kind); }
  }

  /** A reference turn follows an accepted output. */
  lemma {:induction false} ReferencesFollowAccepted(log: seq<Fact>)
    requires Ruled(log) && Turns(log, ReferenceTurn) > 0
    ensures Accepted(log) != []
  {
    var before, last := log[..|log| - 1], log[|log| - 1];
    assert log == before + [last];
    if Turns(before, ReferenceTurn) > 0 { ReferencesFollowAccepted(before); }
    ReferenceFollows(before, last);
  }

  lemma ReferenceFollows(log: seq<Fact>, fact: Fact)
    requires Turns(log + [fact], ReferenceTurn) > 0 && May(log, fact)
    requires Turns(log, ReferenceTurn) > 0 ==> Accepted(log) != []
    ensures Accepted(log + [fact]) != []
  {
    TurnAdded(log, fact, ReferenceTurn);
    FactAdded(log, fact);
    if fact == Sent(ReferenceTurn) { AcceptedNow(log); }
  }

  lemma AcceptedNow(log: seq<Fact>)
    requires JustAccepted(log)
    ensures Accepted(log) != []
  { }

  predicate Limited(log: seq<Fact>) {
    && Turns(log, StartTurn) == (if log == [] then 0 else 1)
    && Turns(log, OrderWorkTurn) <= MAX_ORDER_WORK_TURNS && Turns(log, CleanupTurn) <= MAX_ORDER_CLEANUPS
    && Turns(log, RepairTurn) <= MAX_OUTPUT_REPAIRS && Turns(log, ReferenceTurn) <= MAX_REFERENCE_REPAIRS
  }

  /** Each kind of turn keeps its limit, and a session starts once. */
  lemma {:induction false} TurnsAreLimited(log: seq<Fact>)
    requires Ruled(log)
    ensures Limited(log)
  {
    if log != [] {
      var before, last := log[..|log| - 1], log[|log| - 1];
      TurnsAreLimited(before);
      if last.Sent? { SentIsLimited(before, last.kind); } else { ReadIsLimited(before, last); }
      assert log == before + [last];
    }
  }

  lemma SentIsLimited(log: seq<Fact>, kind: TurnKind)
    requires Ruled(log) && Limited(log) && MaySend(log, kind)
    ensures Limited(log + [Sent(kind)])
  {
    forall k ensures Turns(log + [Sent(kind)], k) == Turns(log, k) + if k == kind then 1 else 0 {
      TurnAdded(log, Sent(kind), k);
    }
    if kind.CleanupTurn? { CleanupWasLeft(log); }
  }

  lemma ReadIsLimited(log: seq<Fact>, fact: Fact)
    requires Limited(log) && log != [] && !fact.Sent?
    ensures Limited(log + [fact])
  {
    forall k ensures Turns(log + [fact], k) == Turns(log, k) { TurnAdded(log, fact, k); }
  }

  lemma CleanupWasLeft(log: seq<Fact>)
    requires Ruled(log) && log != [] && Last(log) == OrdersRead(true)
    ensures CleanupLeft(log)
  {
    var before := log[..|log| - 1];
    assert log == before + [OrdersRead(true)];
    FactAdded(before, OrdersRead(true));
  }

  lemma OrderKept(sent: seq<TurnKind>, kind: TurnKind)
    requires InOrder(sent)
    requires kind.CleanupTurn? ==> Count(sent, RepairTurn) == 0 && Count(sent, ReferenceTurn) == 0
    requires kind.RepairTurn? ==> Count(sent, ReferenceTurn) == 0
    ensures InOrder(sent + [kind])
  {
    if kind.CleanupTurn? { CountNone(sent, RepairTurn); CountNone(sent, ReferenceTurn); }
    if kind.RepairTurn? { CountNone(sent, ReferenceTurn); }
  }

  /** No cleanup is sent once an output is repaired, and no repair once a valid one is improved. */
  lemma {:induction false} TurnsAreInOrder(log: seq<Fact>)
    requires Ruled(log)
    ensures InOrder(Kinds(log))
  {
    if log != [] {
      var before, last := log[..|log| - 1], log[|log| - 1];
      TurnsAreInOrder(before);
      FactAdded(before, last);
      if last.Sent? { SentIsInOrder(before, last.kind); }
      assert log == before + [last];
    }
  }

  lemma SentIsInOrder(log: seq<Fact>, kind: TurnKind)
    requires Ruled(log) && InOrder(Kinds(log)) && MaySend(log, kind)
    ensures InOrder(Kinds(log) + [kind])
  {
    if kind.CleanupTurn? { CleanupWasLeft(log); }
    if kind.RepairTurn? && Turns(log, ReferenceTurn) > 0 { ReferencesFollowAccepted(log); }
    OrderKept(Kinds(log), kind);
  }

  /** At most ten turns. */
  lemma TenTurns(log: seq<Fact>)
    requires Ruled(log)
    ensures |Kinds(log)| <= 1 + MAX_ORDER_WORK_TURNS + MAX_ORDER_CLEANUPS + MAX_OUTPUT_REPAIRS + MAX_REFERENCE_REPAIRS == 10
  {
    TurnsAreLimited(log);
    CountedOnce(Kinds(log));
  }

  /** Along the accepted outputs the issues strictly decrease and the actions stay. */
  lemma {:induction false} AcceptedImprove(log: seq<Fact>)
    requires Ruled(log)
    ensures Improving(Accepted(log))
  {
    if log != [] {
      AcceptedImprove(log[..|log| - 1]);
      var chain, last := Accepted(log[..|log| - 1]), log[|log| - 1];
      if last.Judged? && Accepts(chain, last.reply, last.failed) {
        assert Accepted(log) == chain + [last.reply];
      }
    }
  }

  /** With the stop latch never read as set and every turn answered, a session ends only on a judged
      or an unparsed reply: accepted, restored, or exhausted, each under its own condition. */
  lemma EndsOnAReply(log: seq<Fact>)
    requires Ruled(log) && log != [] && Last(log).Exited?
    requires StopRead(true) !in log && Silence !in log
    ensures |log| >= 2 && (log[|log| - 2].Looked? || log[|log| - 2].Judged?)
    ensures Last(log).exit.AcceptedOutput? || Last(log).exit.Restored? || Last(log).exit.Exhausted?
  {
    var before := log[..|log| - 1];
    assert May(before, Last(log));
    if before != [] { assert Last(before) in log; }
  }

  /** A reply is looked at as the final output only when nothing was unresolved just before, the
      cleanup turns are used up, or a repair has been sent. */
  lemma CleanupComesFirst(log: seq<Fact>, k: nat)
    requires Ruled(log) && k < |log| && log[k].Looked?
    ensures k > 0
    ensures || log[k - 1] == OrdersRead(false)
            || Turns(log[..k], CleanupTurn) >= MAX_ORDER_CLEANUPS
            || Turns(log[..k], RepairTurn) > 0 || Turns(log[..k], ReferenceTurn) > 0
  {
    RuledAt(log, k);
  }

  /** Unresolved orders are asked to be cleaned up, at once. */
  lemma UnresolvedIsCleanedUp(log: seq<Fact>, next: Fact)
    requires May(log, next) && log != [] && Last(log) == OrdersRead(true)
    ensures next == Sent(CleanupTurn)
  { }

  /** An unparsed output is asked to be repaired while there was no valid one and repairs are left. */
  lemma UnparsedIsRepaired(log: seq<Fact>, next: Fact)
    requires May(log, next) && Unparsed(log) && Accepted(log) == [] && Turns(log, RepairTurn) < MAX_OUTPUT_REPAIRS
    ensures next == Sent(RepairTurn)
  { }

  /** The issues of an accepted output are returned while reference turns are left. */
  lemma IssuesAreReturned(log: seq<Fact>, next: Fact)
    requires May(log, next) && JustAccepted(log) && Last(log).reply.issues != []
    requires Turns(log, ReferenceTurn) < MAX_REFERENCE_REPAIRS
    ensures next == Sent(ReferenceTurn)
  { }

  /** What a session does next differs only in what it reads. */
  predicate SameStep(a: Fact, b: Fact) {
    || a == b
    || ((a.Reply? || a.Silence?) && (b.Reply? || b.Silence?))
    || (a.StopRead? && b.StopRead?) || (a.JobsRead? && b.JobsRead?) || (a.OrdersRead? && b.OrdersRead?)
    || (a.Judged? && b.Judged? && a.reply.text == b.reply.text)
  }

  /** After the same facts every session does the same next. */
  lemma NextIsDetermined(log: seq<Fact>, a: Fact, b: Fact)
    requires May(log, a) && May(log, b)
    ensures SameStep(a, b)
  { }

  class Session {
    const gate: OutputRepairGate
    const cleanupTools: set<ToolName>
    /** `run_control.stop_requested`: never cleared, and set while the session awaits. */
    var stopRequested: bool
    var rawOutputs: seq<Text>
    var referenceIssues: Option<seq<Issue>>
    var checkFailed: bool
    var orderWorkTurns: nat
    var orderCleanups: nat
    var referenceRepairs: nat
    var repairs: nat
    var best: Option<Best>
    ghost var log: seq<Fact>

    constructor (cleanupTools: set<ToolName>)
      ensures fresh(gate) && gate.permitted.None? && Fresh()
    {
      gate := new OutputRepairGate();
      this.cleanupTools := cleanupTools;
      rawOutputs, referenceIssues, checkFailed := [], None, false;
      orderWorkTurns, orderCleanups, referenceRepairs, repairs, best := 0, 0, 0, 0, None;
      stopRequested, log := *, [];
    }

    ghost predicate Fresh()
      reads this
    {
      && rawOutputs == [] && best.None? && log == [] && !checkFailed
      && orderWorkTurns == orderCleanups == referenceRepairs == repairs == 0
    }

    /** The outputs accepted so far. */
    ghost function Chain(): seq<Best>
      reads this
    {
      Accepted(log)
    }

    /** Everything so far obeys the rule, and the counters are the turns sent. */
    ghost predicate Counted()
      reads this
    {
      && Ruled(log) && Limited(log)
      && orderWorkTurns == Turns(log, OrderWorkTurn) && orderCleanups == Turns(log, CleanupTurn)
      && repairs == Turns(log, RepairTurn) && referenceRepairs == Turns(log, ReferenceTurn)
    }

    ghost predicate Judged()
      reads this
    {
      && (best.None? ==> Chain() == [])
      && (best.Some? ==> Chain() != [] && best.value == Chain()[|Chain()| - 1])
    }

    /** The effective output is the last valid one. */
    ghost predicate Effective()
      reads this
    {
      Chain() != [] && rawOutputs != [] && rawOutputs[|rawOutputs| - 1] == Chain()[|Chain()| - 1].text
    }

    ghost predicate GateClosed()
      reads this, gate
    {
      repairs > 0 || referenceRepairs > 0 ==> gate.Closed()
    }

    /** A read that is noted changes nothing else. */
    method Note(ghost fact: Fact)
      requires Counted() && log != [] && !fact.Sent? && !fact.Exited? && !fact.Judged? && MayRead(log, fact)
      modifies `log
      ensures Counted() && log == old(log) + [fact] && Last(log) == fact && Chain() == old(Chain())
      ensures Before(log, Last(old(log)))
      ensures LastReply(log) == if fact.Reply? then Some(fact.text) else LastReply(old(log))
      ensures Kinds(log) == Kinds(old(log)) && Reported(log) == Reported(old(log))
    {
      RuledOn(log, fact);
      FactAdded(log, fact);
      ReadIsLimited(log, fact);
      log := log + [fact];
    }

    /** The latch may be set while the session waits. */
    method Await()
      modifies `stopRequested
      ensures old(stopRequested) ==> stopRequested
    {
      var signalled: bool := *;
      stopRequested := stopRequested || signalled;
    }

    method ReadStop() returns (stop: bool)
      requires Counted() && log != [] && (Last(log).Reply? || (Last(log).JobsRead? && Last(log).busy))
      modifies `log
      ensures Counted() && stop == stopRequested && log == old(log) + [StopRead(stop)] && Last(log) == StopRead(stop)
      ensures Chain() == old(Chain()) && Before(log, Last(old(log))) && LastReply(log) == LastReply(old(log))
      ensures Kinds(log) == Kinds(old(log)) && Reported(log) == Reported(old(log))
    {
      stop := stopRequested;
      Note(StopRead(stop));
    }

    /** `runner.active()` and `runner.pending()`. */
    method ReadJobs() returns (busy: bool, left: bool)
      requires Counted() && |log| >= 2 && Last(log) == StopRead(false) && log[|log| - 2].Reply?
      modifies `log
      ensures Counted() && log == old(log) + [JobsRead(busy, left)] && Last(log) == JobsRead(busy, left) && (left ==> busy)
      ensures Chain() == old(Chain()) && LastReply(log) == LastReply(old(log)) && Kinds(log) == Kinds(old(log))
      ensures Reported(log) == Reported(old(log))
    {
      left, busy := *, *;
      busy := busy || left;
      Note(JobsRead(busy, left));
    }

    /** `cleanup_candidates`. */
    method ReadOrders() returns (unresolved: bool)
      requires Counted() && PastJobs(log) && CleanupLeft(log)
      modifies `log
      ensures Counted() && log == old(log) + [OrdersRead(unresolved)] && Last(log) == OrdersRead(unresolved)
      ensures Chain() == old(Chain()) && LastReply(log) == LastReply(old(log)) && Kinds(log) == Kinds(old(log))
      ensures Reported(log) == Reported(old(log))
    {
      unresolved := *;
      Note(OrdersRead(unresolved));
    }

    /** One turn, during which the watcher may narrow the gate: a repair of either kind is sent only
        with every tool denied, a cleanup only with the cleanup tools. */
    method Turn(kind: TurnKind) returns (text: Option<Text>)
      requires kind.RepairTurn? || kind.ReferenceTurn? ==> gate.Closed()
      requires kind.CleanupTurn? ==> forall t :: gate.Permits(t) ==> t in cleanupTools
      requires Ruled(log) && Limited(log) && MaySend(log, kind)
      modifies `log, `stopRequested, gate
      ensures old(gate.Closed()) ==> gate.Closed()
      ensures Ruled(log) && Limited(log) && log == old(log) + [Sent(kind), Heard(text)] && Last(log) == Heard(text)
      ensures Chain() == old(Chain()) && (old(stopRequested) ==> stopRequested)
      ensures Reported(log) <==> kind.OrderWorkTurn? || Reported(old(log))
      ensures forall k :: Turns(log, k) == Turns(old(log), k) + if k == kind then 1 else 0
    {
      Await();
      text := *;
      TurnNoted(log, kind, text);
      log := log + [Sent(kind)] + [Heard(text)];
      var windingDown: bool := *;
      if windingDown { gate.Restrict(cleanupTools); }
    }

    /** `_reference_issues`: no issues without a check, or once it has failed; else the check's
        answer (None: it raised, and has failed). */
    method ReferenceIssues(hasCheck: bool) returns (issues: seq<Issue>, ghost answer: Option<seq<Issue>>)
      modifies `referenceIssues, `checkFailed, `stopRequested
      ensures old(stopRequested) ==> stopRequested
      ensures !hasCheck || old(checkFailed) ==>
                issues == [] && referenceIssues == old(referenceIssues) && checkFailed == old(checkFailed)
      ensures hasCheck && !old(checkFailed) ==>
                && (checkFailed <==> answer.None?) && issues == (if answer.Some? then answer.value else [])
                && referenceIssues == if answer.Some? then answer else old(referenceIssues)
    {
      answer := None;
      if !hasCheck || checkFailed { return [], None; }
      var found := AskCheck();
      answer := found;
      if found.None? {
        checkFailed := true;
        return [], None;
      }
      issues := found.value;
      referenceIssues := Some(issues);
    }

    /** The reference check, which may raise. */
    method AskCheck() returns (answer: Option<seq<Issue>>)
      modifies `stopRequested
      ensures old(stopRequested) ==> stopRequested
    {
      Await();
      answer := *;
    }

    /** `_restore`. */
    method Restore()
      requires best.Some? && Judged()
      modifies `rawOutputs, `referenceIssues
      ensures Effective() && referenceIssues == Some(best.value.issues)
      ensures |rawOutputs| == |old(rawOutputs)| + 1
    {
      rawOutputs := rawOutputs + [best.value.text];
      referenceIssues := Some(best.value.issues);
    }

    function IssuesNow(): seq<Issue>
      reads this
    {
      if referenceIssues.Some? then referenceIssues.value else []
    }

    method NoteJudged(reply: Best)
      requires Counted() && log != [] && Last(log) == Looked(reply.text) && reply.text.parsed.Some?
      modifies `log
      ensures Counted() && log == old(log) + [Fact.Judged(reply, checkFailed)] && Kinds(log) == Kinds(old(log))
      ensures JustAccepted(log) <==> Accepts(old(Chain()), reply, checkFailed)
      ensures Chain() == if JustAccepted(log) then old(Chain()) + [reply] else old(Chain())
    {
      JudgedNoted(log, reply, checkFailed);
      log := log + [Fact.Judged(reply, checkFailed)];
    }

    /** The reply, with the issues the check finds in it. */
    method JudgeReply(text: Text, hasCheck: bool) returns (reply: Best)
      requires text.parsed.Some? && referenceIssues.None?
      requires Counted() && log != [] && Last(log) == Looked(text)
      modifies `referenceIssues, `checkFailed, `log, `stopRequested
      ensures Counted() && (old(stopRequested) ==> stopRequested)
      ensures reply == Best(text, IssuesNow()) && (hasCheck && !checkFailed ==> referenceIssues == Some(reply.issues))
      ensures log == old(log) + [Fact.Judged(reply, checkFailed)] && Kinds(log) == Kinds(old(log))
      ensures JustAccepted(log) <==> Accepts(old(Chain()), reply, checkFailed)
      ensures Chain() == if JustAccepted(log) then old(Chain()) + [reply] else old(Chain())
    {
      var issues;
      ghost var answer;
      issues, answer := ReferenceIssues(hasCheck);
      reply := Best(text, issues);
      NoteJudged(reply);
    }

    /** A parsed reply: the first valid output stands; a later one replaces the last exactly when
        the check has never failed and it improves on it. */
    method Judge(text: Text, hasCheck: bool) returns (accepted: bool)
      requires text.parsed.Some? && Judged() && referenceIssues.None?
      requires Counted() && log != [] && Last(log) == Looked(text)
      modifies `referenceIssues, `checkFailed, `best, `log, `stopRequested
      ensures Counted() && Judged() && (old(stopRequested) ==> stopRequested)
      ensures log == old(log) + [Fact.Judged(Best(text, IssuesNow()), checkFailed)] && Kinds(log) == Kinds(old(log))
      ensures accepted ==> && best == Some(Best(text, IssuesNow())) && Chain() == old(Chain()) + [best.value]
                           && (hasCheck && !checkFailed ==> referenceIssues == Some(best.value.issues))
      ensures !accepted ==> best == old(best) && Chain() == old(Chain()) && best.Some?
      ensures accepted <==> old(best).None? || (!checkFailed && Improves(old(best).value, Best(text, IssuesNow())))
      ensures accepted <==> JustAccepted(log)
    {
      var reply := JudgeReply(text, hasCheck);
      if best.Some? && (checkFailed || !Improves(best.value, reply)) {
        return false;
      }
      best := Some(reply);
      return true;
    }

    /** Order work first: waits for running jobs, then reports them while report turns are left.
        None: nothing to report, so the output is checked. */
    method ReportJobs() returns (reply: Option<Option<Text>>, stopped: bool)
      requires Counted() && GateClosed() && |log| >= 2 && Last(log) == StopRead(false) && log[|log| - 2].Reply?
      modifies `orderWorkTurns, `log, `stopRequested, gate
      ensures Counted() && GateClosed() && Chain() == old(Chain()) && log != []
      ensures stopped ==> reply.None? && Last(log) == StopRead(true) && stopRequested
      ensures reply.None? && !stopped ==> PastJobs(log) && LastReply(log) == LastReply(old(log))
      ensures reply.None? ==> orderWorkTurns == old(orderWorkTurns) && Reported(log) == Reported(old(log))
      ensures reply.Some? ==> orderWorkTurns == old(orderWorkTurns) + 1 && Reported(log) && Last(log) == Heard(reply.value)
    {
      var busy, left := ReadJobs();
      if !busy { return None, false; }
      reply, stopped := WaitForJobs(left);
    }

    /** `wait_all`, and the report of the jobs that were running. */
    method WaitForJobs(left: bool) returns (reply: Option<Option<Text>>, stopped: bool)
      requires Counted() && GateClosed() && log != [] && Last(log) == JobsRead(true, left)
      modifies `orderWorkTurns, `log, `stopRequested, gate
      ensures Counted() && GateClosed() && Chain() == old(Chain()) && log != []
      ensures stopped ==> reply.None? && Last(log) == StopRead(true) && stopRequested
      ensures reply.None? && !stopped ==> PastJobs(log) && LastReply(log) == LastReply(old(log))
      ensures reply.None? ==> orderWorkTurns == old(orderWorkTurns) && Reported(log) == Reported(old(log))
      ensures reply.Some? ==> orderWorkTurns == old(orderWorkTurns) + 1 && Reported(log) && Last(log) == Heard(reply.value)
    {
      Await();
      stopped := ReadStop();
      if stopped { return None, true; }
      if left && orderWorkTurns < MAX_ORDER_WORK_TURNS {
        var text := SendReport();
        return Some(text), false;
      }
      gate.Restrict(cleanupTools);
      return None, false;
    }

    method SendReport() returns (text: Option<Text>)
      requires Counted() && GateClosed() && orderWorkTurns < MAX_ORDER_WORK_TURNS
      requires log != [] && Last(log) == StopRead(false) && Before(log, JobsRead(true, true))
      modifies `orderWorkTurns, `log, `stopRequested, gate
      ensures Counted() && GateClosed() && Chain() == old(Chain()) && log != []
      ensures orderWorkTurns == old(orderWorkTurns) + 1 && Reported(log) && Last(log) == Heard(text)
    {
      orderWorkTurns := orderWorkTurns + 1;
      text := Turn(OrderWorkTurn);
    }

    /** Unresolved orders get their cleanup turns before anything is repaired. */
    method CleanUp() returns (reply: Option<Option<Text>>)
      requires Counted() && GateClosed() && PastJobs(log)
      modifies `orderCleanups, `log, `stopRequested, gate
      ensures Counted() && GateClosed() && Chain() == old(Chain()) && log != []
      ensures reply.None? ==> LastReply(log) == LastReply(old(log)) && orderCleanups == old(orderCleanups)
      ensures reply.None? ==> PastCleanup(log)
      ensures Reported(log) == Reported(old(log))
      ensures reply.Some? ==> && orderCleanups == old(orderCleanups) + 1 && referenceRepairs == 0
                              && Last(log) == Heard(reply.value)
    {
      if repairs != 0 || referenceRepairs != 0 || orderCleanups >= MAX_ORDER_CLEANUPS { return None; }
      var unresolved := ReadOrders();
      if !unresolved { return None; }
      var text := SendCleanup();
      return Some(text);
    }

    method SendCleanup() returns (text: Option<Text>)
      requires Counted() && GateClosed() && log != [] && Last(log) == OrdersRead(true)
      modifies `orderCleanups, `log, `stopRequested, gate
      ensures Counted() && GateClosed() && Chain() == old(Chain()) && log != []
      ensures orderCleanups == old(orderCleanups) + 1 && Last(log) == Heard(text)
      ensures Reported(log) == Reported(old(log))
    {
      orderCleanups := orderCleanups + 1;
      gate.Restrict(cleanupTools);
      text := Turn(CleanupTurn);
    }

    method AskForReferences() returns (text: Option<Text>)
      requires Counted() && GateClosed() && referenceRepairs < MAX_REFERENCE_REPAIRS
      requires JustAccepted(log) && Last(log).reply.issues != []
      modifies `referenceRepairs, `log, `stopRequested, gate
      ensures Counted() && GateClosed() && Chain() == old(Chain())
      ensures referenceRepairs == old(referenceRepairs) + 1 && log != [] && Last(log) == Heard(text)
      ensures Reported(log) == Reported(old(log))
    {
      referenceRepairs := referenceRepairs + 1;
      gate.Close();
      text := Turn(ReferenceTurn);
    }

    method AskForRepair() returns (text: Option<Text>)
      requires Counted() && GateClosed() && repairs < MAX_OUTPUT_REPAIRS
      requires Unparsed(log) && Chain() == []
      modifies `repairs, `log, `stopRequested, gate
      ensures Counted() && GateClosed() && Chain() == old(Chain())
      ensures repairs == old(repairs) + 1 && log != [] && Last(log) == Heard(text)
      ensures Reported(log) == Reported(old(log))
    {
      repairs := repairs + 1;
      gate.Close();
      text := Turn(RepairTurn);
    }

    /** The loop's state between turns. */
    ghost predicate BetweenTurns()
      reads this, gate
    {
      && Counted() && Judged() && GateClosed()
      && (best.Some? ==> referenceRepairs == |Chain()|)
      && (best.Some? && !Reported(log) ==> Effective())
    }

    /** What the session leaves: if any valid output was seen, the effective one is the last of
        the accepted ones; with none, the loop ended on an invalid reply after every repair. */
    ghost predicate Outcome(exit: Exit, hasCheck: bool)
      reads this
    {
      match exit
      case Stopped => stopRequested
      case NoReply => Chain() != [] && !Reported(log) ==> Effective()
      case AcceptedOutput =>
        && Effective()
        && (Chain()[|Chain()| - 1].issues == [] || referenceRepairs == MAX_REFERENCE_REPAIRS)
        && (hasCheck && !checkFailed ==> referenceIssues == Some(Chain()[|Chain()| - 1].issues))
      case Restored => Effective() && referenceIssues == Some(Chain()[|Chain()| - 1].issues)
      case Exhausted => Chain() == [] && repairs == MAX_OUTPUT_REPAIRS && rawOutputs != []
                        && rawOutputs[|rawOutputs| - 1].parsed.None?
    }

    /** The facts so far allow what comes next: the next turn's reply, or the end. */
    ghost predicate Ready(next: Next)
      reads this
    {
      match next
      case Continue(text) => log != [] && Last(log) == Heard(text)
      case Done(exit) => log != [] && MayExit(log, exit)
    }

    /** The reply as a final output: accepted, improved, repaired, or given up. */
    method CheckOutput(text: Text, hasCheck: bool) returns (next: Next)
      requires Counted() && Judged() && GateClosed() && (best.Some? ==> referenceRepairs == |Chain()|)
      requires rawOutputs != [] && rawOutputs[|rawOutputs| - 1] == text && referenceIssues.None?
      requires log != [] && LastReply(log) == Some(text) && PastCleanup(log)
      modifies this, gate
      ensures Counted() && Judged() && Ready(next)
      ensures next.Continue? ==> BetweenTurns() && Budget() < old(Budget())
      ensures next.Done? ==> !next.exit.NoReply? && Outcome(next.exit, hasCheck)
    {
      Note(Looked(text));
      if text.parsed.Some? {
        next := JudgeOutput(text, hasCheck);
      } else {
        next := RepairOutput(text, hasCheck);
      }
    }

    /** A reply that does not parse: the last valid one is restored, or it is repaired or given up. */
    method RepairOutput(text: Text, hasCheck: bool) returns (next: Next)
      requires Counted() && Judged() && GateClosed() && (best.Some? ==> referenceRepairs == |Chain()|)
      requires rawOutputs != [] && rawOutputs[|rawOutputs| - 1] == text && text.parsed.None?
      requires log != [] && Last(log) == Looked(text)
      modifies this, gate
      ensures Counted() && Judged() && Ready(next)
      ensures next.Continue? ==> BetweenTurns() && Budget() < old(Budget())
      ensures next.Done? ==> !next.exit.NoReply? && Outcome(next.exit, hasCheck)
    {
      if best.Some? {
        Restore();
        next := Done(Restored);
      } else if repairs >= MAX_OUTPUT_REPAIRS {
        next := Done(Exhausted);
      } else {
        var reply := AskForRepair();
        next := Continue(reply);
      }
    }

    /** A parsed reply: accepted, improved on, or given up for the last valid one. */
    method JudgeOutput(text: Text, hasCheck: bool) returns (next: Next)
      requires Counted() && Judged() && GateClosed() && (best.Some? ==> referenceRepairs == |Chain()|)
      requires rawOutputs != [] && rawOutputs[|rawOutputs| - 1] == text && referenceIssues.None?
      requires text.parsed.Some? && log != [] && Last(log) == Looked(text)
      modifies this, gate
      ensures Counted() && Judged() && Ready(next)
      ensures next.Continue? ==> BetweenTurns() && Budget() < old(Budget())
      ensures next.Done? ==> !next.exit.NoReply? && Outcome(next.exit, hasCheck)
    {
      NoReferencesYet();
      var accepted := Judge(text, hasCheck);
      if accepted {
        next := KeepOutput(hasCheck);
      } else {
        Restore();
        next := Done(Restored);
      }
    }

    lemma NoReferencesYet()
      requires Counted() && Judged()
      ensures best.None? ==> referenceRepairs == 0
    {
      if best.None? && referenceRepairs > 0 { ReferencesFollowAccepted(log); }
    }

    /** A reply that was just accepted: final, or its issues are returned. */
    method KeepOutput(hasCheck: bool) returns (next: Next)
      requires Counted() && Judged() && GateClosed() && best.Some? && referenceRepairs + 1 == |Chain()| && Effective()
      requires JustAccepted(log) && Last(log).reply == best.value
      requires hasCheck && !checkFailed ==> referenceIssues == Some(best.value.issues)
      modifies `referenceRepairs, `log, `stopRequested, gate
      ensures Counted() && Judged() && Ready(next)
      ensures next.Continue? ==> BetweenTurns() && Budget() < old(Budget())
      ensures next.Done? ==> !next.exit.NoReply? && Outcome(next.exit, hasCheck)
    {
      if best.value.issues == [] || referenceRepairs >= MAX_REFERENCE_REPAIRS { return Done(AcceptedOutput); }
      var reply := AskForReferences();
      return Continue(reply);
    }

    /** What comes before the reply is looked at: the stop latch, the jobs, the open orders. */
    method BeforeCheck(text: Text) returns (next: Option<Next>)
      requires Counted() && GateClosed() && log != [] && Last(log) == Reply(text)
      modifies `orderWorkTurns, `orderCleanups, `log, `stopRequested, gate
      ensures Counted() && GateClosed() && Chain() == old(Chain()) && log != []
      ensures next.None? ==> && Budget() == old(Budget()) && Reported(log) == Reported(old(log))
                             && LastReply(log) == Some(text) && PastCleanup(log)
      ensures next.Some? ==> Ready(next.value)
      ensures next.Some? && next.value.Done? ==> next.value.exit.Stopped? && stopRequested
      ensures next.Some? && next.value.Continue? ==>
                && Budget() < old(Budget())
                && (Reported(log) || (Reported(log) == Reported(old(log)) && referenceRepairs == 0))
    {
      var stop := ReadStop();
      if stop { return Some(Done(Stopped)); }
      var report, stopped := ReportJobs();
      if stopped { return Some(Done(Stopped)); }
      if report.Some? { return Some(Continue(report.value)); }
      var cleanup := CleanUp();
      return if cleanup.Some? then Some(Continue(cleanup.value)) else None;
    }

    /** One pass of the loop. */
    method Respond(text: Text, hasCheck: bool) returns (next: Next)
      requires BetweenTurns() && log != [] && Last(log) == Reply(text)
      modifies this, gate
      ensures Counted() && Judged() && Ready(next)
      ensures next.Continue? ==> BetweenTurns() && Budget() < old(Budget())
      ensures next.Done? ==> !next.exit.NoReply? && Outcome(next.exit, hasCheck)
    {
      rawOutputs := rawOutputs + [text];
      referenceIssues := None;
      var before := BeforeCheck(text);
      if before.Some? { return before.value; }
      next := CheckOutput(text, hasCheck);
    }

    /** `_converse`: ends for any replies, after at most ten turns, and everything it reads, sends,
        and ends on obeys the rule. */
    method Converse(hasCheck: bool) returns (exit: Exit)
      requires Fresh()
      modifies this, gate
      ensures Ruled(log) && log != [] && Last(log) == Exited(exit)
      ensures Outcome(exit, hasCheck)
      ensures |Kinds(log)| <= 1 + MAX_ORDER_WORK_TURNS + MAX_ORDER_CLEANUPS + MAX_OUTPUT_REPAIRS + MAX_REFERENCE_REPAIRS == 10
      ensures InOrder(Kinds(log)) && Improving(Chain())
    {
      exit := Talk(hasCheck);
      NoteExit(exit, hasCheck);
      RuledLogs(log);
    }

    /** The turns, until one pass ends the loop or a turn brings no reply. */
    method Talk(hasCheck: bool) returns (exit: Exit)
      requires Fresh()
      modifies this, gate
      ensures Ruled(log) && log != [] && MayExit(log, exit) && Outcome(exit, hasCheck)
    {
      var text := Turn(StartTurn);
      exit := NoReply;
      while text.Some?
        invariant Counted() && Judged()
        invariant text.Some? ==> BetweenTurns() && exit.NoReply? && log != [] && Last(log) == Reply(text.value)
        invariant text.None? ==> Outcome(exit, hasCheck) && log != [] && MayExit(log, exit)
        invariant Budget() >= 0
        decreases if text.Some? then Budget() + 1 else 0
      {
        var next := Respond(text.value, hasCheck);
        if next.Continue? {
          text := next.text;
        } else {
          text, exit := None, next.exit;
        }
      }
    }

    method NoteExit(ghost exit: Exit, ghost hasCheck: bool)
      requires Ruled(log) && log != [] && MayExit(log, exit) && Outcome(exit, hasCheck)
      modifies `log
      ensures Outcome(exit, hasCheck)
      ensures Ruled(log) && log == old(log) + [Exited(exit)] && Last(log) == Exited(exit) && Chain() == old(Chain())
      ensures Reported(log) == Reported(old(log))
    {
      RuledOn(log, Exited(exit));
      FactAdded(log, Exited(exit));
      log := log + [Exited(exit)];
    }

    function Budget(): int
      reads this
    {
      MAX_ORDER_WORK_TURNS + MAX_ORDER_CLEANUPS + MAX_OUTPUT_REPAIRS + MAX_REFERENCE_REPAIRS
      - orderWorkTurns - orderCleanups - repairs - referenceRepairs
    }
  }

  lemma RuledLogs(log: seq<Fact>)
    requires Ruled(log)
    ensures |Kinds(log)| <= 1 + MAX_ORDER_WORK_TURNS + MAX_ORDER_CLEANUPS + MAX_OUTPUT_REPAIRS + MAX_REFERENCE_REPAIRS == 10
    ensures InOrder(Kinds(log)) && Improving(Accepted(log))
  {
    TenTurns(log);
    TurnsAreInOrder(log);
    AcceptedImprove(log);
  }

  lemma TurnNoted(log: seq<Fact>, kind: TurnKind, text: Option<Text>)
    requires Ruled(log) && Limited(log) && MaySend(log, kind)
    ensures var after := log + [Sent(kind)] + [Heard(text)];
            && Ruled(after) && Limited(after) && Last(after) == Heard(text) && Accepted(after) == Accepted(log)
            && (Reported(after) <==> kind.OrderWorkTurn? || Reported(log))
            && forall k :: Turns(after, k) == Turns(log, k) + if k == kind then 1 else 0
  {
    var sent := log + [Sent(kind)];
    RuledOn(log, Sent(kind));
    FactAdded(log, Sent(kind));
    SentIsLimited(log, kind);
    RuledOn(sent, Heard(text));
    FactAdded(sent, Heard(text));
    ReadIsLimited(sent, Heard(text));
    forall k ensures Turns(sent + [Heard(text)], k) == Turns(log, k) + if k == kind then 1 else 0 {
      TurnAdded(log, Sent(kind), k);
    }
  }

  lemma JudgedNoted(log: seq<Fact>, reply: Best, failed: bool)
    requires Ruled(log) && Limited(log) && log != [] && Last(log) == Looked(reply.text) && reply.text.parsed.Some?
    ensures var after := log + [Judged(reply, failed)];
            && Ruled(after) && Limited(after) && Kinds(after) == Kinds(log)
            && (JustAccepted(after) <==> Accepts(Accepted(log), reply, failed))
            && Accepted(after) == if JustAccepted(after) then Accepted(log) + [reply] else Accepted(log)
  {
    RuledOn(log, Judged(reply, failed));
    FactAdded(log, Judged(reply, failed));
    ReadIsLimited(log, Judged(reply, failed));
    assert (log + [Judged(reply, failed)])[..|log|] == log;
  }
}
