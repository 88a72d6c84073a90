/** The validating proxy's side of a call, the hooks that register it and report on it, and the
    session's end and recovery (`agent/proxy_dispatch.py`, `agent/proxy.py`, `agent/hooks.py`). A
    method is one stretch of code that no other task enters; the stop latch alone is set from a
    signal handler, at any moment. Each method changes the books by moves of `ProxyRuns` only. */
module ProxyDispatch {
  import opened Optionals
  import opened ProxyBooks
  import opened ProxyRuns

  class ValidatingProxy {
    const account: nat
    var log: seq<Event>
    var nextId: CallId
    var entries: Entries
    /** The call between its checks and its send. */
    var checked: Option<UseId>
    /** The filings answered "content not available" in this run. */
    var unavailable: set<nat>
    /** The model's calls the hooks still await a result of. */
    var awaited: set<UseId>

    function Books(): Book
      reads this
    {
      Book(log, nextId, entries, checked)
    }

    ghost predicate Valid()
      reads this
    {
      Good(account, Books())
    }

    constructor (account: nat)
      ensures Valid() && Books() == Book([], 0, map[], None) && unavailable == {} && awaited == {}
    {
      this.account := account;
      log, nextId, entries, checked, unavailable, awaited := [], 0, map[], None, {}, {};
      new;
      assert Sound(account, Books(), map[]);
    }

    /** The stop latch. */
    predicate Stopped()
      reads this
    {
      StoppedIn(log)
    }

    predicate Known(u: UseId)
      reads this
    {
      Registered(Books(), u)
    }

    /** One move of the books. */
    method Do(m: Move)
      requires Valid() && Can(account, Books(), m)
      modifies `log, `nextId, `entries, `checked
      ensures Valid() && Books() == Next(account, old(Books()), m) && GoesOn(account, old(Books()), Books())
      ensures !m.Transmit? ==> Quiet(old(Books()), Books())
    {
      MoveKeepsGood(account, Books(), m);
      GoesOnByOne(account, Books(), m, Next(account, Books(), m));
      if !m.Transmit? { OnlyTransmitSends(account, Books(), m); }
      Set(Next(account, Books(), m));
    }

    method Set(next: Book)
      modifies `log, `nextId, `entries, `checked
      ensures Books() == next
    {
      log, nextId, entries, checked := next.log, next.nextId, next.entries, next.checked;
    }

    /** `request_stop`, from a signal handler or any failure: at any moment. */
    method RequestStop()
      requires Valid()
      modifies `log, `nextId, `entries, `checked
      ensures Valid() && Books() == Latched(old(Books()))
      ensures GoesOn(account, old(Books()), Books()) && Quiet(old(Books()), Books())
    {
      Do(Latch);
    }

    method RequestStopIf(stop: bool)
      requires Valid()
      modifies `log, `nextId, `entries, `checked
      ensures Valid() && Books() == if stop then Latched(old(Books())) else old(Books())
      ensures GoesOn(account, old(Books()), Books()) && Quiet(old(Books()), Books())
    {
      if stop { Do(Latch); } else { StaysPut(account, Books()); }
    }

    /** An outcome the hooks or the session record, if the write succeeds. */
    method Record(e: Event, recorded: bool)
      requires Valid() && Can(account, Books(), Move.Note(e))
      modifies `log, `nextId, `entries, `checked
      ensures Valid() && Books() == Noted(old(Books()), e, recorded)
      ensures GoesOn(account, old(Books()), Books()) && Quiet(old(Books()), Books())
    {
      if recorded { Do(Move.Note(e)); } else { Do(Latch); }
    }

    /** The requested record: the identity of the use id, which an earlier request may have. */
    method Request(u: UseId, tool: Tool, recorded: bool) returns (named: bool)
      requires Valid() && checked.None?
      modifies `log, `nextId, `entries, `checked
      ensures Valid() && named == MayName(old(Books()), u, tool, recorded)
      ensures Books() == if named then Named(old(Books()), u, tool) else Latched(old(Books()))
      ensures named ==> ToolOf(log, entries[u].id) == Some(tool)
      ensures GoesOn(account, old(Books()), Books()) && Quiet(old(Books()), Books())
    {
      named := MayName(Books(), u, tool, recorded);
      if !named {
        Do(Latch);
      } else if u !in entries {
        RequestIsRecorded(account, Books(), u, tool);
        Do(Move.Request(u, tool));
      } else {
        StaysPut(account, Books());
      }
    }

    /** The dispatched record, then `register`, which takes a use id once. What a second
        registration records of the first one's call is right exactly as `RegistrationRecord`
        says. */
    method Enlist(u: UseId, call: ProxyCall, dispatchRecorded: bool, outcomeRecorded: bool) returns (admitted: bool)
      requires Valid() && checked.None? && u in entries && call.id == entries[u].id
      requires CallFits(call, account) && ToolOf(log, call.id) == Some(call.tool)
      modifies `log, `nextId, `entries, `checked
      ensures Valid() && Books() == Enlisted(old(Books()), u, call, dispatchRecorded, outcomeRecorded)
      ensures admitted <==> dispatchRecorded && !old(Known(u))
      ensures GoesOn(account, old(Books()), Books()) && Quiet(old(Books()), Books())
    {
      admitted := dispatchRecorded && !Known(u);
      if admitted {
        Do(Register(u, call));
        return;
      }
      if !dispatchRecorded || call.byExecutor {
        Do(Latch);
      } else {
        RecordAndStop(u, Outcome(call.id, Failed, Registration), outcomeRecorded);
      }
    }

    /** An outcome, if the write succeeds, and the stop latch. */
    method RecordAndStop(u: UseId, e: Event, recorded: bool)
      requires Valid() && checked.None? && u in entries && e == Outcome(entries[u].id, Failed, Registration)
      modifies `log, `nextId, `entries, `checked
      ensures Valid() && Books() == Latched(Noted(old(Books()), e, recorded))
      ensures GoesOn(account, old(Books()), Books()) && Quiet(old(Books()), Books())
    {
      CanNote(account, Books(), u, e);
      Record(e, recorded);
      ghost var noted := Books();
      Do(Latch);
      GoesOnTwice(account, old(Books()), noted, Books());
    }

    /** `pre_tool_use` and `admit`: requested, checked, dispatched, and registered, in that order.
        Given are which records are written and what the other checks say. Nothing is sent. */
    method Admit(u: UseId, asked: Asked, w: Written) returns (admitted: bool)
      requires Valid() && checked.None?
      modifies `log, `nextId, `entries, `checked, `awaited
      ensures Valid() && GoesOn(account, old(Books()), Books()) && Quiet(old(Books()), Books())
      ensures admitted <==> && MayName(old(Books()), u, asked.tool, w.request) && asked.permitted && w.dispatch
                            && !old(Known(u)) && PastTheLatch(old(log), asked)
      ensures admitted ==> var named := Named(old(Books()), u, asked.tool);
                           Books() == Enlisted(named, u, asked.Call(named.entries[u].id, account), true, w.outcome)
      ensures admitted ==>
                && u in entries && entries[u].state == Pending
                && entries[u].call == Some(ProxyCall(entries[u].id, asked.tool, asked.args,
                                                     Substituted(asked.args, asked.accountArg, account), asked.byExecutor,
                                                     asked.byExecutor && asked.afterStopCancel && asked.tool == CancelTool))
                && log != [] && log[|log| - 1] == Dispatched(entries[u].id, asked.args)
      ensures awaited == if admitted && !asked.byExecutor then old(awaited) + {u} else old(awaited)
      ensures !admitted ==> forall v :: v in old(entries) ==> v in entries && entries[v] == old(entries)[v]
    {
      admitted := RequestAndDecide(u, asked, w);
      if admitted && !asked.byExecutor { awaited := awaited + {u}; }
    }

    method RequestAndDecide(u: UseId, asked: Asked, w: Written) returns (admitted: bool)
      requires Valid() && checked.None?
      modifies `log, `nextId, `entries, `checked
      ensures Valid() && GoesOn(account, old(Books()), Books()) && Quiet(old(Books()), Books())
      ensures admitted <==> && MayName(old(Books()), u, asked.tool, w.request) && asked.permitted && w.dispatch
                            && !old(Known(u)) && PastTheLatch(old(log), asked)
      ensures admitted ==> var named := Named(old(Books()), u, asked.tool);
                           Books() == Enlisted(named, u, asked.Call(named.entries[u].id, account), true, w.outcome)
      ensures !admitted ==> forall v :: v in old(entries) ==> v in entries && entries[v] == old(entries)[v]
    {
      NamedKeeps(Books(), u, asked.tool);
      var named := Request(u, asked.tool, w.request);
      if !named { return false; }
      ghost var b := Books();
      admitted := Decide(u, asked, w);
      GoesOnTwice(account, old(Books()), b, Books());
    }

    /** The checks of a requested call, and its admission. */
    method Decide(u: UseId, asked: Asked, w: Written) returns (admitted: bool)
      requires Valid() && checked.None? && u in entries && ToolOf(log, entries[u].id) == Some(asked.tool)
      modifies `log, `nextId, `entries, `checked
      ensures Valid() && GoesOn(account, old(Books()), Books()) && Quiet(old(Books()), Books())
      ensures admitted <==> asked.permitted && w.dispatch && !old(Known(u)) && PastTheLatch(old(log), asked)
      ensures admitted ==> Books() == Enlisted(old(Books()), u, asked.Call(old(entries)[u].id, account), true, w.outcome)
      ensures !admitted ==> entries == old(entries)
    {
      HeldExactlyWhen(log, asked);
      if !asked.permitted || (Stopped() && asked.HeldByStop()) {
        var e := Outcome(entries[u].id, Denied, Gate);
        CanNote(account, Books(), u, e);
        Record(e, w.outcome);
        return false;
      }
      admitted := Enlist(u, asked.Call(entries[u].id, account), w.dispatch, w.outcome);
    }

    /** `_not_forwarded`: nothing reached the server, so the call failed, in every tier. If the
        record cannot be written the call stays claimed without one. Nothing of it is sent, ever. */
    method NotForwarded(u: UseId, recorded: bool)
      requires Valid() && Can(account, Books(), Hold(u))
      modifies `log, `nextId, `entries, `checked
      ensures Valid() && Books() == Refused(old(Books()), u, recorded)
      ensures GoesOn(account, old(Books()), Books()) && Quiet(old(Books()), Books())
      ensures SentOf(Books(), u) == 0 && !MayLeave(Books(), u)
    {
      NotSentYet(account, Books(), u);
      if recorded {
        Do(Hold(u));
      } else {
        LoseCall(u);
      }
    }

    /** A claimed call is left without a record, and the run stops. */
    method LoseCall(u: UseId)
      requires Valid() && Can(account, Books(), Lose(u))
      modifies `log, `nextId, `entries, `checked
      ensures Valid() && Books() == Latched(Drop(old(Books()), u))
      ensures GoesOn(account, old(Books()), Books()) && Quiet(old(Books()), Books())
    {
      Do(Lose(u));
      ghost var b := Books();
      Do(Latch);
      GoesOnTwice(account, old(Books()), b, Books());
    }

    /** The same after the stop latch was set. */
    method StopAndRefuse(u: UseId, stop: bool, recorded: bool)
      requires Valid() && Can(account, Books(), Hold(u))
      modifies `log, `nextId, `entries, `checked
      ensures Valid() && Books() == Refused(if stop then Latched(old(Books())) else old(Books()), u, recorded)
      ensures GoesOn(account, old(Books()), Books()) && Quiet(old(Books()), Books())
      ensures SentOf(Books(), u) == 0 && !MayLeave(Books(), u)
    {
      RequestStopIf(stop);
      ghost var b := Books();
      NotForwarded(u, recorded);
      GoesOnTwice(account, old(Books()), b, Books());
    }

    /** `claim`, and the checks of `call_tool`, `execute`, and `_handle`, the stop latch's among
        them. A filing known to be unavailable is refused without setting the latch; so is an
        action after it. What does not pass is never sent. */
    method Check(u: UseId, arrival: Arrival, outcomeRecorded: bool) returns (cleared: bool)
      requires Valid() && checked.None?
      modifies `log, `nextId, `entries, `checked
      ensures Valid() && GoesOn(account, old(Books()), Books()) && Quiet(old(Books()), Books())
      ensures cleared <==> MayPass(old(Books()), u, arrival, unavailable)
      ensures Books() == if !old(Claimable(Books(), u)) then Latched(old(Books()))
                         else AfterChecks(old(Books()), u, arrival, unavailable, outcomeRecorded)
      ensures old(Claimable(Books(), u)) ==> SentOf(Books(), u) == 0 && (MayLeave(Books(), u) <==> cleared)
    {
      cleared := Claimable(Books(), u) && Passes(Books(), u, arrival, unavailable);
      PassesExactlyWhen(Books(), u, arrival, unavailable);
      if !Claimable(Books(), u) { Do(Latch); return; }
      PendingWaits(account, Books(), u);
      NotSentYet(account, Books(), u);
      if cleared {
        Do(Pass(u));
      } else if WrongSide(entries[u].call.value, arrival) {
        LoseCall(u);
      } else {
        StopAndRefuse(u, !Matches(entries[u].call.value, arrival), outcomeRecorded);
      }
    }

    /** The write of the order's intent, and the upstream call. The stop latch is not read again:
        the call is sent exactly when its intent is written, and otherwise never. */
    method Send(intentRecorded: bool, outcomeRecorded: bool)
      requires Valid() && checked.Some?
      modifies `log, `nextId, `entries, `checked
      ensures Valid() && GoesOn(account, old(Books()), Books())
      ensures Books() == if intentRecorded then OnTheWire(old(Books()), old(checked.value))
                         else Refused(Latched(old(Books())), old(checked.value), outcomeRecorded)
      ensures SentOf(Books(), old(checked.value)) == (if intentRecorded then 1 else 0)
      ensures !MayLeave(Books(), old(checked.value))
    {
      var u := checked.value;
      CheckedPasses(account, Books());
      NotSentYet(account, Books(), u);
      if intentRecorded {
        SendCounts(account, Books(), u);
        Do(Transmit(u));
      } else {
        StopAndRefuse(u, true, outcomeRecorded);
      }
    }

    /** The rest of `_handle`, when the upstream answers: what was sent is never recorded as an
        action that failed. Without a record the call stays claimed. */
    method Finish(u: UseId, answer: Answer, recorded: bool)
      requires Valid() && checked.None? && Known(u) && entries[u].phase.OnWire?
      modifies `log, `nextId, `entries, `checked, `unavailable
      ensures Valid() && Books() == Finished(old(Books()), u, answer, recorded)
      ensures recorded && !answer.Mismatched? ==>
                log == old(log) + [Outcome(old(entries)[u].id,
                                           if answer.Envelope? && answer.valid then Succeeded
                                           else if old(entries)[u].call.value.Acts() then UnknownOutcome else Failed,
                                           Proxy)]
      ensures unavailable == old(unavailable) + Found(old(entries)[u].call, answer)
      ensures GoesOn(account, old(Books()), Books()) && Quiet(old(Books()), Books())
      ensures SentOf(Books(), u) == 1 && !MayLeave(Books(), u)
      ensures old(entries[u].call.value.Acts()) ==>
                forall e :: e in log[|old(log)|..] ==>
                  e.Stop? || (e.Outcome? && (e.status.Succeeded? || e.status.UnknownOutcome?))
    {
      unavailable := unavailable + Found(entries[u].call, answer);
      WireIsSent(account, Books(), u);
      if answer.Mismatched? || !recorded {
        LoseCall(u);
      } else {
        Do(Move.Answer(u, StatusOf(answer, entries[u].call.value.tool)));
      }
    }

    /** `post_tool_use_failure`: an unclaimed call "never reached the server", so it failed; the
        dispatch is not told. The record of an action stays right in every continuation exactly when
        the stop latch is set. */
    method FailureReported(u: UseId, recorded: bool)
      requires Valid() && checked.None?
      modifies `log, `nextId, `entries, `checked, `awaited
      ensures Valid() && awaited == old(awaited) - {u}
      ensures Books() == if u !in old(awaited) || !old(Known(u)) then Latched(old(Books()))
                         else if !recorded then Latched(old(Books()))
                         else if old(entries)[u].state.Pending? then Noted(old(Books()), HookFailure(old(entries)[u]), true)
                         else old(Books())
      ensures GoesOn(account, old(Books()), Books()) && Quiet(old(Books()), Books())
      ensures u in old(awaited) && old(Known(u)) && old(entries[u].state.Pending?) && recorded && old(Action(Books(), u)) ==>
                (StaysRight(account, Books(), HookFailure(old(entries[u])))
                 <==> Stopped() && !old(entries[u].call.value.afterStopCancel))
    {
      var known := u in awaited && Known(u);
      awaited := awaited - {u};
      if !known || !recorded { Do(Latch); return; }
      if !entries[u].state.Pending? { StaysPut(account, Books()); return; }
      CanNote(account, Books(), u, HookFailure(entries[u]));
      if Action(Books(), u) {
        FailureHookRecord(account, Books(), u);
        LatchAfter(log, HookFailure(entries[u]));
      }
      Record(HookFailure(entries[u]), true);
    }

    /** `post_tool_use` of a proxied call: a result the proxy did not produce stops the run, and
        has an unknown outcome when the proxy has not answered. For an action that record is right,
        then and later, exactly when the proxy has claimed the call and did not hold it back. */
    method ResultReported(u: UseId, matches: bool, recorded: bool)
      requires Valid() && checked.None?
      modifies `log, `nextId, `entries, `checked, `awaited
      ensures Valid() && awaited == old(awaited) - {u}
      ensures Books() == if u !in old(awaited) || !old(Known(u)) then Latched(old(Books()))
                         else if old(entries)[u].state.Completed?
                         then (if matches then old(Books()) else Latched(old(Books())))
                         else if recorded then Noted(Latched(old(Books())), HookUnknown(old(entries)[u]), true)
                         else Latched(old(Books()))
      ensures GoesOn(account, old(Books()), Books()) && Quiet(old(Books()), Books())
      ensures u in old(awaited) && old(Known(u)) && !old(entries[u].state.Completed?) && recorded && old(Action(Books(), u)) ==>
                (StaysRight(account, Books(), HookUnknown(old(entries[u]))) <==> Taken(old(entries[u])))
    {
      var known := u in awaited && Known(u);
      awaited := awaited - {u};
      if known && entries[u].state.Completed? && matches { StaysPut(account, Books()); return; }
      Do(Latch);
      if known && !entries[u].state.Completed? && recorded {
        ghost var b := Books();
        CanNote(account, Books(), u, HookUnknown(entries[u]));
        if Action(Books(), u) { HookUnknownRecord(account, Books(), u); }
        Record(HookUnknown(entries[u]), true);
        GoesOnTwice(account, old(Books()), b, Books());
      }
    }

    /** `close_unresolved_calls` and `recover`, one call: without an outcome so far, it is unknown
        (after an interrupted run, a call of no outside effect failed). For an action that record is
        right, then and later, exactly when the proxy has claimed the call and did not hold it
        back. */
    method CloseCall(u: UseId, writer: Writer)
      requires Valid() && checked.None? && u in entries && (writer.SessionEnd? || writer.Recovery?)
      modifies `log, `nextId, `entries, `checked
      ensures Valid() && ToolOf(old(log), old(entries)[u].id).Some? && Books() == Closed(old(Books()), u, writer)
      ensures GoesOn(account, old(Books()), Books()) && Quiet(old(Books()), Books())
      ensures old(Action(Books(), u)) && Books() != old(Books()) ==>
                (StaysRight(account, Books(), Outcome(old(entries[u].id), UnknownOutcome, writer)) <==> Taken(old(entries[u])))
    {
      EntryIsNamed(account, Books(), u);
      if HasOutcome(log, entries[u].id) || (writer.SessionEnd? && DispatchOf(log, entries[u].id).None?) {
        StaysPut(account, Books());
        return;
      }
      var e := Closing(entries[u].id, writer, ToolOf(log, entries[u].id).value);
      CanNote(account, Books(), u, e);
      if Action(Books(), u) { UnknownRecord(account, Books(), u, writer); }
      Record(e, true);
    }

    /** The session's end, or the recovery of an interrupted run: every dispatched call has an
        outcome afterwards. */
    method CloseUnresolved(writer: Writer)
      requires Valid() && checked.None? && (writer.SessionEnd? || writer.Recovery?)
      modifies `log, `nextId, `entries, `checked
      ensures Valid() && entries == old(entries) && checked.None?
      ensures GoesOn(account, old(Books()), Books()) && Quiet(old(Books()), Books())
      ensures forall u :: u in entries ==> Settled(Books(), u, writer)
    {
      var todo := entries.Keys;
      StaysPut(account, Books());
      while todo != {}
        invariant Valid() && entries == old(entries) && checked.None? && todo <= entries.Keys
        invariant GoesOn(account, old(Books()), Books()) && Quiet(old(Books()), Books())
        invariant forall u :: u in entries && u !in todo ==> Settled(Books(), u, writer)
      {
        var u :| u in todo;
        ghost var before := Books();
        CloseCall(u, writer);
        ClosedSettles(before, u, writer);
        GoesOnTwice(account, old(Books()), before, Books());
        todo := todo - {u};
      }
    }
  }

  // ---- Every exception is real ------------------------------------------------------------------

  const ORDER: Asked := Asked(OtherTool(1, TierX), map[], None, false, false, true)
  const ALL_WRITTEN: Written := Written(true, true, true)

  lemma {:induction false} NeverStopped(log: seq<Event>)
    requires forall i :: 0 <= i < |log| ==> !log[i].Stop?
    ensures !StoppedIn(log)
  {
    if log != [] { NeverStopped(log[..|log| - 1]); }
  }

  lemma {:induction false} NoOutcomes(log: seq<Event>, id: CallId)
    requires forall i :: 0 <= i < |log| ==> !log[i].Outcome?
    ensures !HasOutcome(log, id)
  {
    if log != [] { NoOutcomes(log[..|log| - 1], id); }
  }

  /** An admitted order of the model: requested, dispatched, and waiting at the proxy. */
  method AdmitOrder() returns (proxy: ValidatingProxy)
    ensures fresh(proxy) && proxy.Valid() && proxy.checked.None? && proxy.awaited == {0}
    ensures proxy.log == [Requested(0, OtherTool(1, TierX)), Dispatched(0, map[])]
    ensures proxy.entries == map[0 := Entry(0, Some(ORDER.Call(0, proxy.account)), Pending, Waiting)]
    ensures proxy.unavailable == {}
  {
    proxy := new ValidatingProxy(7);
    FirstAdmission(proxy.Books(), proxy.account);
    var admitted := proxy.Admit(0, ORDER, ALL_WRITTEN);
    assert admitted;
  }

  /** What the books of a new run hold after its first admission. */
  lemma FirstAdmission(b: Book, account: nat)
    requires b.log == [] && b.nextId == 0 && b.entries == map[]
    ensures MayName(b, 0, ORDER.tool, true)
    ensures var named := Named(b, 0, ORDER.tool);
            && named.entries[0].id == 0
            && var next := Enlisted(named, 0, ORDER.Call(0, account), true, true);
               && next.log == [Requested(0, OtherTool(1, TierX)), Dispatched(0, map[])]
               && next.entries == map[0 := Entry(0, Some(ORDER.Call(0, account)), Pending, Waiting)]
               && next.checked == None
  {
    var named := Named(b, 0, ORDER.tool);
    assert named.log == [Requested(0, OtherTool(1, TierX))];
    var next := Enlisted(named, 0, ORDER.Call(0, account), true, true);
    assert next.log == named.log + [Dispatched(0, map[])];
    assert next.entries.Keys == {0};
  }

  /** The proxy's side of the same order: received, checked, and sent. */
  const ARRIVAL: Arrival := Arrival(true, OtherTool(1, TierX), map[])

  /** The session ends before the proxy receives the order: it is recorded unknown, and was never
      sent. */
  method UnsentOrderIsUnknown() returns (proxy: ValidatingProxy)
    ensures fresh(proxy) && proxy.Valid()
    ensures |proxy.log| == 3 && proxy.log[2] == Outcome(0, UnknownOutcome, SessionEnd)
    ensures SentCount(proxy.log, 0) == 0 && !RightIn(proxy.log, proxy.log[2])
  {
    proxy := AdmitOrder();
    NoOutcomes(proxy.log, 0);
    proxy.CloseCall(0, SessionEnd);
  }

  /** The failure hook records the order failed while it waits; the proxy then receives it, and
      sends it. */
  method FailedOrderIsSent() returns (proxy: ValidatingProxy)
    ensures fresh(proxy) && proxy.Valid()
    ensures |proxy.log| == 5 && proxy.log[2] == Outcome(0, Failed, FailureHook) && proxy.log[4].Sent?
    ensures SentCount(proxy.log, 0) == 1 && !RightIn(proxy.log, proxy.log[2])
  {
    proxy := AdmitOrder();
    proxy.FailureReported(0, true);
    NeverStopped(proxy.log);
    var cleared := proxy.Check(0, ARRIVAL, true);
    assert cleared;
    proxy.Send(true, true);
  }

  /** The stop latch is set after an order's checks and before its send: the order leaves. */
  method OrderLeavesAfterStop() returns (proxy: ValidatingProxy)
    ensures fresh(proxy) && proxy.Valid()
    ensures |proxy.log| == 5 && proxy.log[3].Stop? && proxy.log[4].Sent? && proxy.log[4].call.Acts()
    ensures !OwnCancel(proxy.log[4].call)
  {
    proxy := AdmitOrder();
    NeverStopped(proxy.log);
    var cleared := proxy.Check(0, ARRIVAL, true);
    assert cleared;
    proxy.RequestStop();
    proxy.Send(true, true);
  }
}
