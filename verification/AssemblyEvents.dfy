/** Step 1 of record assembly (`domain/assembly_events.py`): every recorded place and cancel
    call of the run, rebuilt from the tool-call records and the order projections. */
module AssemblyEvents {
  import opened Optionals
  import opened Sorting

  type CallId = nat

  datatype Tool = PlaceTool | CancelTool | ReviewTool | OrdersReadTool | OtherTool
  datatype CallStatus = Requested | Denied | Succeeded | CallFailed | TimedOut | CallUnknown
  datatype Role = CloseRole | OpenRole

  datatype ToolCall = ToolCall(
    id: CallId, run: nat, requestedAt: int, useId: nat, tool: Tool, parent: Option<CallId>, status: CallStatus,
    dispatchedAt: Option<int>, completedAt: Option<int>)
  {
    /** What every projected tool call already satisfies (`ToolCallRecord`). */
    predicate Valid() {
      status.Denied? ==> dispatchedAt.None?
    }
  }

  datatype CancelStatus = Confirmed | Pending | Unknown
  datatype Dispatch = NotStamped | DispatchDenied | Dispatched | NoDispatchRecorded

  /** `rest` stands for the fields that are only compared and copied. */
  datatype Cancellation = Cancellation(
    callId: CallId, status: CancelStatus, confirmations: seq<CallId>, dispatch: Dispatch, rest: nat)

  /** The recorded arguments of a place: the leg it fills (None: neither permitted side), and
      what identifies its contract. */
  datatype Intent = Intent(placeCall: CallId, role: Option<Role>, instrument: Option<nat>, occ: Option<nat>)

  datatype AttemptStatus =
    | NotPlaced | Placed | PartlyFilled | Filled | Cancelled | Rejected | Expired | StatusUnknown

  /** `observed` is the latest observed status, if any; `broker`: the broker order is known;
      `filled` is the quantity its fills agree on. */
  datatype OrderRecord = OrderRecord(
    intent: Option<Intent>, observed: Option<AttemptStatus>, broker: bool, hasFills: bool, filled: Option<nat>,
    cancellations: seq<Cancellation>, rest: nat)
  {
    predicate Terminal() {
      observed.Some? && (observed.value.Filled? || observed.value.Cancelled? || observed.value.Rejected?
                         || observed.value.Expired?)
    }
  }

  datatype Reason = NotDispatched | ToolError | BrokerRejected | OutcomeUnknown

  datatype Attempt = Attempt(
    status: AttemptStatus, broker: bool, hasFills: bool, filled: Option<nat>, reasons: seq<Reason>)

  datatype PlaceAction = PlaceAction(callId: CallId, order: Option<OrderRecord>, attempt: Attempt)

  datatype EventIndex = EventIndex(
    calls: seq<ToolCall>, places: seq<PlaceAction>, cancellations: seq<Cancellation>,
    placeOfCancel: map<CallId, CallId>)

  // ---- Lists and their ids -----------------------------------------------------------------

  predicate DistinctCalls(calls: seq<ToolCall>) {
    forall i, j :: 0 <= i < j < |calls| ==> calls[i].id != calls[j].id
  }

  function OfRun(calls: seq<ToolCall>, run: nat): seq<ToolCall> {
    if calls == [] then []
    else OfRun(calls[..|calls| - 1], run)
         + if calls[|calls| - 1].run == run then [calls[|calls| - 1]] else []
  }

  /** The ids of the calls of one tool, in order. */
  function IdsOf(calls: seq<ToolCall>, tool: Tool): seq<CallId> {
    if calls == [] then []
    else IdsOf(calls[..|calls| - 1], tool)
         + if calls[|calls| - 1].tool == tool then [calls[|calls| - 1].id] else []
  }

  function PlaceIds(places: seq<PlaceAction>): seq<CallId> {
    if places == [] then [] else PlaceIds(places[..|places| - 1]) + [places[|places| - 1].callId]
  }

  function CancelIds(cancellations: seq<Cancellation>): seq<CallId> {
    if cancellations == [] then []
    else CancelIds(cancellations[..|cancellations| - 1]) + [cancellations[|cancellations| - 1].callId]
  }

  // ---- The order of a place call ----------------------------------------------------------

  predicate Names(order: OrderRecord, call: CallId) {
    order.intent.Some? && order.intent.value.placeCall == call
  }

  /** Every record that names the place call is this one, and there is one. */
  predicate TheOrderOf(orders: seq<OrderRecord>, call: CallId, order: OrderRecord) {
    && order in orders && Names(order, call)
    && forall o :: o in orders && Names(o, call) ==> o == order
  }

  /** `_orders_by_place_call`: an order attaches to a place call exactly when all records
      naming the call are equal, in whatever order they are listed. */
  method OrdersByPlaceCall(orders: seq<OrderRecord>) returns (result: map<CallId, Option<OrderRecord>>)
    ensures forall c :: c in result <==> exists o :: o in orders && Names(o, c)
    ensures forall c, o :: c in result && result[c] == Some(o) <==> TheOrderOf(orders, c, o)
  {
    result := map[];
    for k := 0 to |orders|
      invariant forall c :: c in result <==> exists o :: o in orders[..k] && Names(o, c)
      invariant forall c, o :: c in result && result[c] == Some(o) <==> TheOrderOf(orders[..k], c, o)
    {
      var order := orders[k];
      ghost var before, was := orders[..k], result;
      if order.intent.Some? {
        var key := order.intent.value.placeCall;
        if key in result && result[key] != Some(order) {
          result := result[key := None];
        } else if key !in result {
          result := result[key := Some(order)];
        }
      }
      assert orders[..k + 1] == before + [order];
      forall c, o ensures c in result && result[c] == Some(o) <==> TheOrderOf(orders[..k + 1], c, o) {
        OneMoreRecord(before, order, was, c, o);
      }
    }
    assert orders[..|orders|] == orders;
  }

  lemma OneMoreRecord(before: seq<OrderRecord>, order: OrderRecord,
                      was: map<CallId, Option<OrderRecord>>, c: CallId, o: OrderRecord)
    requires c in was <==> exists p :: p in before && Names(p, c)
    requires forall p :: c in was && was[c] == Some(p) <==> TheOrderOf(before, c, p)
    ensures !Names(order, c) ==> (TheOrderOf(before + [order], c, o) <==> c in was && was[c] == Some(o))
    ensures Names(order, c) ==> (TheOrderOf(before + [order], c, o) <==> o == order && (c in was ==> was[c] == Some(order)))
  {
    var after := before + [order];
    if c in was {
      var p :| p in before && Names(p, c);
      assert p in after;
    }
    assert order in after;
    if TheOrderOf(after, c, o) && Names(order, c) && c in was {
      assert TheOrderOf(before, c, order);
    }
  }

  // ---- The cancellation of a cancel call --------------------------------------------------

  /** A cancellation as an order lists it. */
  datatype Entry = Entry(cancellation: Cancellation, order: OrderRecord)

  function EntriesOf(order: OrderRecord, k: nat): seq<Entry>
    requires k <= |order.cancellations|
  {
    if k == 0 then [] else EntriesOf(order, k - 1) + [Entry(order.cancellations[k - 1], order)]
  }

  /** Every listed cancellation, order by order. */
  function Entries(orders: seq<OrderRecord>): seq<Entry> {
    if orders == [] then []
    else var last := orders[|orders| - 1];
         Entries(orders[..|orders| - 1]) + EntriesOf(last, |last.cancellations|)
  }

  /** The first entry that names the call. */
  function First(entries: seq<Entry>, call: CallId): (r: Option<Entry>)
    ensures r.Some? ==> r.value in entries && r.value.cancellation.callId == call
    ensures r.None? <==> forall e :: e in entries ==> e.cancellation.callId != call
  {
    if entries == [] then None
    else
      var n := |entries| - 1;
      var earlier := First(entries[..n], call);
      assert forall e :: e in entries ==> e in entries[..n] || e == entries[n];
      if earlier.Some? then earlier
      else if entries[n].cancellation.callId == call then Some(entries[n]) else None
  }

  /** Every entry that names the call has this cancellation. */
  predicate Unanimous(entries: seq<Entry>, call: CallId, cancellation: Cancellation) {
    forall e :: e in entries && e.cancellation.callId == call ==> e.cancellation == cancellation
  }

  /** What the listings say of a call: their first entry, if they all agree. */
  function Agreed(entries: seq<Entry>, call: CallId): Option<Entry> {
    var first := First(entries, call);
    if first.Some? && Unanimous(entries, call, first.value.cancellation) then first else None
  }

  type RecordedMap = map<CallId, Option<Entry>>

  ghost predicate Records(recorded: RecordedMap, entries: seq<Entry>) {
    forall call ::
      && (call in recorded <==> First(entries, call).Some?)
      && (call in recorded ==> recorded[call] == Agreed(entries, call))
  }

  lemma AgreedMore(entries: seq<Entry>, e: Entry, call: CallId)
    ensures var key, after := e.cancellation.callId, entries + [e];
            && First(after, call) == (if First(entries, call).Some? then First(entries, call)
                                      else if call == key then Some(e) else None)
            && Agreed(after, call)
               == (if call != key then Agreed(entries, call)
                   else if First(entries, call).None? then Some(e)
                   else if Agreed(entries, call).Some? && Agreed(entries, call).value.cancellation == e.cancellation
                   then Agreed(entries, call) else None)
  {
    var after := entries + [e];
    assert after[..|after| - 1] == entries && after[|after| - 1] == e;
    assert e in after;
    forall x | x in entries ensures x in after { }
    forall x | x in after ensures x in entries || x == e { }
  }

  /** One more listed cancellation: the first stands while all agree with it. */
  function Note(recorded: RecordedMap, e: Entry): RecordedMap {
    var key := e.cancellation.callId;
    if key !in recorded then recorded[key := Some(e)]
    else if recorded[key].None? || recorded[key].value.cancellation != e.cancellation
    then recorded[key := None]
    else recorded
  }

  lemma NoteRecords(recorded: RecordedMap, entries: seq<Entry>, e: Entry)
    requires Records(recorded, entries)
    ensures Records(Note(recorded, e), entries + [e])
  {
    forall call
      ensures call in Note(recorded, e) <==> First(entries + [e], call).Some?
      ensures call in Note(recorded, e) ==> Note(recorded, e)[call] == Agreed(entries + [e], call)
    {
      AgreedMore(entries, e, call);
      assert call in recorded <==> First(entries, call).Some?;
    }
  }

  function NoteAll(entries: seq<Entry>): RecordedMap {
    if entries == [] then map[] else Note(NoteAll(entries[..|entries| - 1]), entries[|entries| - 1])
  }

  lemma {:induction false} NoteAllRecords(entries: seq<Entry>)
    ensures Records(NoteAll(entries), entries)
  {
    if entries != [] {
      var n := |entries| - 1;
      NoteAllRecords(entries[..n]);
      NoteRecords(NoteAll(entries[..n]), entries[..n], entries[n]);
      assert entries[..n] + [entries[n]] == entries;
    }
  }

  lemma NoteOneMore(entries: seq<Entry>, e: Entry)
    ensures NoteAll(entries + [e]) == Note(NoteAll(entries), e)
  {
    assert (entries + [e])[..|entries|] == entries;
  }

  /** The inner loop: one order's cancellations. */
  method NoteOrder(recorded: RecordedMap, order: OrderRecord, ghost entries: seq<Entry>) returns (next: RecordedMap)
    requires recorded == NoteAll(entries)
    ensures next == NoteAll(entries + EntriesOf(order, |order.cancellations|))
  {
    next := recorded;
    assert entries + EntriesOf(order, 0) == entries;
    for l := 0 to |order.cancellations|
      invariant next == NoteAll(entries + EntriesOf(order, l))
    {
      var e := Entry(order.cancellations[l], order);
      NoteOneMore(entries + EntriesOf(order, l), e);
      assert entries + EntriesOf(order, l + 1) == entries + EntriesOf(order, l) + [e];
      next := Note(next, e);
    }
  }

  /** The loop over every order's cancellations: conflicting ones of a call leave none. */
  method RecordCancellations(orders: seq<OrderRecord>) returns (recorded: RecordedMap)
    ensures Records(recorded, Entries(orders))
  {
    recorded := map[];
    for k := 0 to |orders|
      invariant recorded == NoteAll(Entries(orders[..k]))
    {
      assert orders[..k + 1][..k] == orders[..k];
      recorded := NoteOrder(recorded, orders[k], Entries(orders[..k]));
    }
    assert orders[..|orders|] == orders;
    NoteAllRecords(Entries(orders));
  }

  // ---- Confirmation and dispatch ----------------------------------------------------------

  /** The listed read is a successful order read of this run, completed after the dispatch. */
  predicate Confirms(calls: seq<ToolCall>, read: CallId, dispatchedAt: int) {
    exists i :: 0 <= i < |calls| && calls[i].id == read
                && calls[i].tool.OrdersReadTool? && calls[i].status.Succeeded?
                && calls[i].completedAt.Some? && calls[i].completedAt.value >= dispatchedAt
  }

  /** `_confirmation_verified`. */
  predicate Verified(entry: Entry, call: ToolCall, calls: seq<ToolCall>) {
    && entry.order.Terminal() && call.dispatchedAt.Some?
    && forall i :: 0 <= i < |entry.cancellation.confirmations| ==>
         Confirms(calls, entry.cancellation.confirmations[i], call.dispatchedAt.value)
  }

  function UnconfirmedStatus(call: ToolCall): CancelStatus {
    if call.status.Succeeded? then Pending else Unknown
  }

  /** `_with_dispatch`: an undispatched cancel is never pending or confirmed. */
  function WithDispatch(cancellation: Cancellation, call: ToolCall): Cancellation {
    var dispatch := if call.status.Denied? then DispatchDenied
                    else if call.dispatchedAt.Some? then Dispatched else NoDispatchRecorded;
    cancellation.(dispatch := dispatch,
                  status := if dispatch.Dispatched? then cancellation.status else Unknown)
  }

  /** The cancellation rebuilt for one cancel call. */
  function Rebuild(call: ToolCall, recorded: RecordedMap, calls: seq<ToolCall>): Cancellation {
    if call.id !in recorded || recorded[call.id].None?
    then WithDispatch(Cancellation(call.id, UnconfirmedStatus(call), [], NotStamped, 0), call)
    else
      var entry := recorded[call.id].value;
      WithDispatch(if entry.cancellation.status.Confirmed? && !Verified(entry, call, calls)
                   then entry.cancellation.(status := UnconfirmedStatus(call)) else entry.cancellation, call)
  }

  /** What a rebuilt cancellation's status promises: it is confirmed exactly when the listings
      agree on a confirmed cancellation, its order was read terminal, and every read it lists
      succeeded after the cancel was dispatched; undispatched, it is unknown; and otherwise it is
      what the listings agree on, or what the call's own outcome allows. */
  predicate StatusIsRight(c: Cancellation, call: ToolCall, orders: seq<OrderRecord>, calls: seq<ToolCall>) {
    var agreed := Agreed(Entries(orders), call.id);
    && c.callId == call.id
    && (c.status.Confirmed? <==>
          && agreed.Some? && agreed.value.cancellation.status.Confirmed? && call.dispatchedAt.Some?
          && EndedAtBroker(agreed.value.order.observed)
          && ReadAfter(agreed.value.cancellation.confirmations, calls, call.dispatchedAt.value))
    && (call.dispatchedAt.None? ==> c.status.Unknown?)
    && (call.dispatchedAt.Some? && !c.status.Confirmed? ==>
          && (agreed.Some? && !agreed.value.cancellation.status.Confirmed? ==> c.status == agreed.value.cancellation.status)
          && (agreed.None? || agreed.value.cancellation.status.Confirmed? ==>
                (c.status.Pending? <==> call.status == Succeeded)))
  }

  /** The id is a successful order read of the run, completed at that time or later. */
  predicate WasRead(id: CallId, calls: seq<ToolCall>, time: int) {
    exists read :: read in calls && read.id == id && read.tool == OrdersReadTool && read.status == Succeeded
                   && read.completedAt.Some? && time <= read.completedAt.value
  }

  predicate ReadAfter(ids: seq<CallId>, calls: seq<ToolCall>, time: int) {
    forall id :: id in ids ==> WasRead(id, calls, time)
  }

  lemma ConfirmsExactlyWhen(calls: seq<ToolCall>, id: CallId, time: int)
    ensures Confirms(calls, id, time) <==> WasRead(id, calls, time)
  { }

  lemma VerifiedExactlyWhen(entry: Entry, call: ToolCall, calls: seq<ToolCall>)
    ensures Verified(entry, call, calls)
            <==> && call.dispatchedAt.Some? && EndedAtBroker(entry.order.observed)
                 && ReadAfter(entry.cancellation.confirmations, calls, call.dispatchedAt.value)
  {
    var ids := entry.cancellation.confirmations;
    if call.dispatchedAt.Some? {
      forall i | 0 <= i < |ids|
        ensures Confirms(calls, ids[i], call.dispatchedAt.value) <==> WasRead(ids[i], calls, call.dispatchedAt.value)
      {
        ConfirmsExactlyWhen(calls, ids[i], call.dispatchedAt.value);
      }
    }
  }

  /** Last observed filled, cancelled, rejected, or expired. */
  predicate EndedAtBroker(observed: Option<AttemptStatus>) {
    observed in {Some(Filled), Some(Cancelled), Some(Rejected), Some(Expired)}
  }

  /** What it copies: the agreed listing's own fields, and whether the call was dispatched. */
  predicate FieldsAreRight(c: Cancellation, call: ToolCall, orders: seq<OrderRecord>) {
    var agreed := Agreed(Entries(orders), call.id);
    && (agreed.Some? ==> c.confirmations == agreed.value.cancellation.confirmations
                         && c.rest == agreed.value.cancellation.rest)
    && (agreed.None? ==> c.confirmations == [] && c.rest == 0)
    && (c.dispatch.Dispatched? <==> call.dispatchedAt.Some?)
    && (c.dispatch.DispatchDenied? <==> call.status.Denied?)
    && !c.dispatch.NotStamped?
  }

  /** The place call of the order a cancel call is agreed to cancel. */
  function OwnerPlace(orders: seq<OrderRecord>, id: CallId): Option<CallId> {
    var agreed := Agreed(Entries(orders), id);
    if agreed.Some? && agreed.value.order.intent.Some? then Some(agreed.value.order.intent.value.placeCall) else None
  }

  predicate RightFor(c: Cancellation, call: ToolCall, orders: seq<OrderRecord>, calls: seq<ToolCall>) {
    call.tool == CancelTool && StatusIsRight(c, call, orders, calls) && FieldsAreRight(c, call, orders)
  }

  lemma RebuildIsRight(call: ToolCall, recorded: RecordedMap, orders: seq<OrderRecord>, calls: seq<ToolCall>)
    requires Records(recorded, Entries(orders)) && call.Valid()
    ensures StatusIsRight(Rebuild(call, recorded, calls), call, orders, calls)
    ensures FieldsAreRight(Rebuild(call, recorded, calls), call, orders)
  {
    assert call.id in recorded <==> First(Entries(orders), call.id).Some?;
    var agreed := Agreed(Entries(orders), call.id);
    if agreed.Some? { VerifiedExactlyWhen(agreed.value, call, calls); }
  }

  // ---- Attempts ------------------------------------------------------------------------------

  predicate HasBroker(order: Option<OrderRecord>) { order.Some? && order.value.broker }

  function Observed(order: Option<OrderRecord>): Option<AttemptStatus> {
    if order.Some? then order.value.observed else None
  }

  /** `_status_and_reasons`. */
  function StatusOf(call: ToolCall, order: Option<OrderRecord>): AttemptStatus {
    if call.status.Denied? && !HasBroker(order) then NotPlaced
    else
      var status := if Observed(order).Some? then Observed(order).value
                    else if call.status.Succeeded? && HasBroker(order) then Placed else StatusUnknown;
      if status.NotPlaced? && (HasBroker(order) || order.value.hasFills) then StatusUnknown else status
  }

  function ReasonsOf(call: ToolCall, order: Option<OrderRecord>): seq<Reason> {
    if call.status.Denied? && !HasBroker(order) then [NotDispatched]
    else
      var status := StatusOf(call, order);
      (if call.status.CallFailed? then [ToolError] else [])
      + (if status.Rejected? then [BrokerRejected] else [])
      + (if status.StatusUnknown? then [OutcomeUnknown] else [])
  }

  /** `build_place_attempt`. */
  function AttemptOf(call: ToolCall, order: Option<OrderRecord>): Attempt {
    var status := StatusOf(call, order);
    if status.NotPlaced? then Attempt(status, false, false, Some(0), ReasonsOf(call, order))
    else Attempt(status, HasBroker(order), order.Some? && order.value.hasFills,
                 if order.Some? then order.value.filled else None, ReasonsOf(call, order))
  }

  /** What a rebuilt attempt says, from the records.
      Its status: not placed exactly when the broker has no order of it and the call was denied or
      the order was last seen so; unknown when nothing speaks for it, or when what is seen contradicts
      the broker's order; placed when the call succeeded, the broker has its order, and nothing is
      seen yet; and otherwise what was last seen. Its fills are the order's, and none when it was not
      placed. Its reasons are listed, each exactly when it holds. */
  predicate AttemptRight(a: Attempt, call: ToolCall, order: Option<OrderRecord>) {
    var broker := order.Some? && order.value.broker;
    var denied := call.status.Denied? && !broker;
    var seen := if order.Some? then order.value.observed else None;
    && (a.status.NotPlaced? <==> denied || (seen == Some(NotPlaced) && !broker && !order.value.hasFills))
    && (seen.None? && !denied ==> a.status == if call.status.Succeeded? && broker then Placed else StatusUnknown)
    && (seen.Some? && !denied && !seen.value.NotPlaced? ==> a.status == seen.value)
    && (seen == Some(NotPlaced) && !a.status.NotPlaced? ==> a.status.StatusUnknown?)
    && (a.status.NotPlaced? ==> !a.broker && !a.hasFills && a.filled == Some(0))
    && (!a.status.NotPlaced? && order.Some? ==>
          a.broker == order.value.broker && a.hasFills == order.value.hasFills && a.filled == order.value.filled)
    && (!a.status.NotPlaced? && order.None? ==> !a.broker && !a.hasFills && a.filled.None?)
    && (denied ==> a.reasons == [NotDispatched])
    && (!denied ==>
          && Ascending(a.reasons) && NotDispatched !in a.reasons
          && (ToolError in a.reasons <==> call.status.CallFailed?)
          && (BrokerRejected in a.reasons <==> seen == Some(Rejected))
          && (OutcomeUnknown in a.reasons <==> a.status.StatusUnknown?))
  }

  function Place(reason: Reason): nat {
    match reason
    case NotDispatched => 0
    case ToolError => 1
    case BrokerRejected => 2
    case OutcomeUnknown => 3
  }

  /** In the order they are found, each once. */
  predicate Ascending(reasons: seq<Reason>) {
    forall i, j :: 0 <= i < j < |reasons| ==> Place(reasons[i]) < Place(reasons[j])
  }

  lemma AttemptIsRight(call: ToolCall, order: Option<OrderRecord>)
    ensures AttemptRight(AttemptOf(call, order), call, order)
  { }

  /** The records leave one attempt only. */
  lemma AttemptIsDetermined(a: Attempt, b: Attempt, call: ToolCall, order: Option<OrderRecord>)
    requires AttemptRight(a, call, order) && AttemptRight(b, call, order)
    ensures a == b
  {
    if NotDispatched !in a.reasons {
      forall r ensures r in a.reasons <==> r in b.reasons {
        match r
        case NotDispatched =>
        case ToolError =>
        case BrokerRejected =>
        case OutcomeUnknown =>
      }
      SameReasons(a.reasons, b.reasons);
    }
  }

  lemma {:induction false} SameReasons(a: seq<Reason>, b: seq<Reason>)
    requires Ascending(a) && Ascending(b) && forall r :: r in a <==> r in b
    ensures a == b
  {
    assert b == [] || b[0] in b;
    if a != [] {
      assert a[0] in b && b[0] in a;
      assert a[0] == b[0];
      forall r ensures r in a[1..] <==> r in b[1..] {
        assert r in a <==> r == a[0] || r in a[1..];
        assert r in b <==> r == b[0] || r in b[1..];
      }
      SameReasons(a[1..], b[1..]);
      assert a == [a[0]] + a[1..] && b == [b[0]] + b[1..];
    }
  }

  // ---- The index -----------------------------------------------------------------------------

  /** `call_sort_key`: request time, then SDK id, then identity. */
  predicate CallBefore(a: ToolCall, b: ToolCall) {
    || a.requestedAt < b.requestedAt
    || (a.requestedAt == b.requestedAt && (a.useId < b.useId || (a.useId == b.useId && a.id < b.id)))
  }

  const CHRONOLOGICAL: (ToolCall, ToolCall) -> bool := (a, b) => CallBefore(a, b)

  lemma DistinctAreComparable(calls: seq<ToolCall>)
    requires DistinctCalls(calls)
    ensures Transitive(CHRONOLOGICAL) && Asymmetric(CHRONOLOGICAL) && Comparable(CHRONOLOGICAL, calls)
  { }

  /** Every place and every cancel call of the run is in the index once, in order. */
  predicate Complete(idx: EventIndex) {
    && DistinctCalls(idx.calls)
    && PlaceIds(idx.places) == IdsOf(idx.calls, PlaceTool)
    && CancelIds(idx.cancellations) == IdsOf(idx.calls, CancelTool)
  }

  /** The order record attached to a place: the one all records naming its call agree on. */
  predicate OrderIs(p: PlaceAction, orders: seq<OrderRecord>) {
    if p.order.Some? then TheOrderOf(orders, p.callId, p.order.value)
    else forall o :: o in orders ==> !TheOrderOf(orders, p.callId, o)
  }

  /** The attempt is the one of its place call and order. */
  predicate AttemptIn(p: PlaceAction, calls: seq<ToolCall>) {
    exists i :: 0 <= i < |calls| && calls[i].id == p.callId && calls[i].tool.PlaceTool?
                && AttemptRight(p.attempt, calls[i], p.order)
  }

  method BuildPlaces(calls: seq<ToolCall>, orders: seq<OrderRecord>) returns (places: seq<PlaceAction>)
    ensures PlaceIds(places) == IdsOf(calls, PlaceTool)
    ensures forall p :: p in places ==> OrderIs(p, orders) && AttemptIn(p, calls)
  {
    var byPlace := OrdersByPlaceCall(orders);
    places := [];
    for k := 0 to |calls|
      invariant PlaceIds(places) == IdsOf(calls[..k], PlaceTool)
      invariant forall p :: p in places ==> OrderIs(p, orders) && AttemptIn(p, calls)
    {
      assert calls[..k + 1][..k] == calls[..k];
      if calls[k].tool == PlaceTool {
        var id := calls[k].id;
        var order := if id in byPlace then byPlace[id] else None;
        var action := PlaceAction(id, order, AttemptOf(calls[k], order));
        AttemptIsRight(calls[k], order);
        assert (places + [action])[..|places|] == places;
        places := places + [action];
      }
    }
    assert calls[..|calls|] == calls;
  }

  /** The owners of the first cancels. */
  predicate OwnersAre(placeOfCancel: map<CallId, CallId>, cancels: seq<CallId>, orders: seq<OrderRecord>) {
    && (forall id :: id in placeOfCancel ==> id in cancels && OwnerPlace(orders, id) == Some(placeOfCancel[id]))
    && forall id :: id in cancels && OwnerPlace(orders, id).Some? ==> id in placeOfCancel
  }

  function WithOwner(owners: map<CallId, CallId>, id: CallId, recorded: RecordedMap): map<CallId, CallId> {
    if id in recorded && recorded[id].Some? && recorded[id].value.order.intent.Some?
    then owners[id := recorded[id].value.order.intent.value.placeCall] else owners
  }

  lemma RecordedOwner(recorded: RecordedMap, orders: seq<OrderRecord>, id: CallId)
    requires Records(recorded, Entries(orders))
    ensures OwnerPlace(orders, id)
            == if id in recorded && recorded[id].Some? && recorded[id].value.order.intent.Some?
               then Some(recorded[id].value.order.intent.value.placeCall) else None
  {
    assert id in recorded <==> First(Entries(orders), id).Some?;
  }

  lemma OwnerNoted(owners: map<CallId, CallId>, cancels: seq<CallId>, orders: seq<OrderRecord>, recorded: RecordedMap,
                   id: CallId)
    requires OwnersAre(owners, cancels, orders) && Records(recorded, Entries(orders))
    ensures OwnersAre(WithOwner(owners, id, recorded), cancels + [id], orders)
  {
    RecordedOwner(recorded, orders, id);
    OwnerListed(owners, cancels, orders, id, WithOwner(owners, id, recorded));
  }

  lemma OwnerListed(owners: map<CallId, CallId>, cancels: seq<CallId>, orders: seq<OrderRecord>, id: CallId,
                    after: map<CallId, CallId>)
    requires OwnersAre(owners, cancels, orders)
    requires after == if OwnerPlace(orders, id).Some? then owners[id := OwnerPlace(orders, id).value] else owners
    ensures OwnersAre(after, cancels + [id], orders)
  { }

  method BuildCancellations(calls: seq<ToolCall>, orders: seq<OrderRecord>)
    returns (cancellations: seq<Cancellation>, placeOfCancel: map<CallId, CallId>)
    requires forall i :: 0 <= i < |calls| ==> calls[i].Valid()
    ensures CancelIds(cancellations) == IdsOf(calls, CancelTool)
    ensures forall c :: c in cancellations ==> exists i :: 0 <= i < |calls| && RightFor(c, calls[i], orders, calls)
    ensures OwnersAre(placeOfCancel, IdsOf(calls, CancelTool), orders)
  {
    var recorded := RecordCancellations(orders);
    cancellations, placeOfCancel := [], map[];
    for k := 0 to |calls|
      invariant CancelIds(cancellations) == IdsOf(calls[..k], CancelTool)
      invariant forall c :: c in cancellations ==> exists i :: 0 <= i < |calls| && RightFor(c, calls[i], orders, calls)
      invariant OwnersAre(placeOfCancel, IdsOf(calls[..k], CancelTool), orders)
    {
      assert calls[..k + 1][..k] == calls[..k];
      if calls[k].tool == CancelTool {
        var c := Rebuild(calls[k], recorded, calls);
        RebuildIsRight(calls[k], recorded, orders, calls);
        OwnerNoted(placeOfCancel, IdsOf(calls[..k], CancelTool), orders, recorded, calls[k].id);
        placeOfCancel := WithOwner(placeOfCancel, calls[k].id, recorded);
        assert (cancellations + [c])[..|cancellations|] == cancellations;
        cancellations := cancellations + [c];
      }
    }
    assert calls[..|calls|] == calls;
  }

  lemma {:induction false} OfRunKeeps(calls: seq<ToolCall>, run: nat)
    ensures forall c :: c in OfRun(calls, run) <==> c in calls && c.run == run
    ensures DistinctCalls(calls) ==> DistinctCalls(OfRun(calls, run))
  {
    if calls != [] {
      var n := |calls| - 1;
      OfRunKeeps(calls[..n], run);
      forall c | c in calls ensures c in calls[..n] || c == calls[n] { }
      if DistinctCalls(calls) {
        forall i | 0 <= i < |OfRun(calls[..n], run)| ensures OfRun(calls[..n], run)[i].id != calls[n].id {
          assert OfRun(calls[..n], run)[i] in calls[..n];
        }
      }
    }
  }

  lemma {:induction false} OfRunSorted(calls: seq<ToolCall>, run: nat)
    requires Sorted(CHRONOLOGICAL, calls)
    ensures Sorted(CHRONOLOGICAL, OfRun(calls, run))
  {
    if calls != [] {
      var n := |calls| - 1;
      OfRunSorted(calls[..n], run);
      OfRunKeeps(calls[..n], run);
      forall i | 0 <= i < |OfRun(calls[..n], run)| ensures CHRONOLOGICAL(OfRun(calls[..n], run)[i], calls[n]) {
        assert OfRun(calls[..n], run)[i] in calls[..n];
        var j :| 0 <= j < n && calls[j] == OfRun(calls[..n], run)[i];
      }
    }
  }

  /** Each is rebuilt from its own cancel call. */
  predicate AllRight(cancellations: seq<Cancellation>, orders: seq<OrderRecord>, calls: seq<ToolCall>) {
    forall c :: c in cancellations ==> exists i :: 0 <= i < |calls| && RightFor(c, calls[i], orders, calls)
  }

  /** The index of the run's calls and the order projections. */
  predicate IndexIs(idx: EventIndex, run: nat, toolCalls: seq<ToolCall>, orders: seq<OrderRecord>) {
    && Complete(idx) && Sorted(CHRONOLOGICAL, idx.calls)
    && (forall c :: c in idx.calls ==> c in toolCalls && c.run == run)
    && (forall c :: c in toolCalls && c.run == run ==> c in idx.calls)
    && (forall p :: p in idx.places ==> OrderIs(p, orders) && AttemptIn(p, idx.calls))
    && AllRight(idx.cancellations, orders, idx.calls)
    && OwnersAre(idx.placeOfCancel, IdsOf(idx.calls, CancelTool), orders)
  }

  /** `build_event_index`. */
  method BuildEventIndex(run: nat, toolCalls: seq<ToolCall>, orders: seq<OrderRecord>) returns (idx: EventIndex)
    requires DistinctCalls(toolCalls) && forall c :: c in toolCalls ==> c.Valid()
    ensures IndexIs(idx, run, toolCalls, orders)
  {
    DistinctAreComparable(toolCalls);
    var inOrder := Sort(CHRONOLOGICAL, toolCalls);
    SameCalls(toolCalls, inOrder);
    idx := IndexSorted(run, inOrder, orders);
  }

  lemma SameCalls(a: seq<ToolCall>, b: seq<ToolCall>)
    requires multiset(a) == multiset(b) && DistinctCalls(a) && Sorted(CHRONOLOGICAL, b)
    ensures DistinctCalls(b)
    ensures forall c :: c in b <==> c in a
  {
    forall c ensures c in b <==> c in a { assert c in b <==> c in multiset(b); }
    forall i, j | 0 <= i < j < |b| ensures b[i].id != b[j].id {
      assert b[i] in a && b[j] in a && CHRONOLOGICAL(b[i], b[j]);
    }
  }

  /** The run's own calls, in the order given. */
  method CallsOfRun(run: nat, toolCalls: seq<ToolCall>) returns (calls: seq<ToolCall>)
    requires DistinctCalls(toolCalls) && Sorted(CHRONOLOGICAL, toolCalls)
    ensures DistinctCalls(calls) && Sorted(CHRONOLOGICAL, calls)
    ensures forall c :: c in calls <==> c in toolCalls && c.run == run
  {
    calls := [];
    for k := 0 to |toolCalls|
      invariant calls == OfRun(toolCalls[..k], run)
    {
      assert toolCalls[..k + 1][..k] == toolCalls[..k];
      if toolCalls[k].run == run {
        calls := calls + [toolCalls[k]];
      }
    }
    assert toolCalls[..|toolCalls|] == toolCalls;
    OfRunKeeps(toolCalls, run);
    OfRunSorted(toolCalls, run);
  }

  /** The rest of `build_event_index`, on the calls in request order. */
  method IndexSorted(run: nat, toolCalls: seq<ToolCall>, orders: seq<OrderRecord>) returns (idx: EventIndex)
    requires DistinctCalls(toolCalls) && Sorted(CHRONOLOGICAL, toolCalls) && forall c :: c in toolCalls ==> c.Valid()
    ensures IndexIs(idx, run, toolCalls, orders)
  {
    var calls := CallsOfRun(run, toolCalls);
    forall i | 0 <= i < |calls| ensures calls[i].Valid() { assert calls[i] in calls; }
    var places := BuildPlaces(calls, orders);
    var cancellations, placeOfCancel := BuildCancellations(calls, orders);
    idx := EventIndex(calls, places, cancellations, placeOfCancel);
  }

  // ---- The index is determined -----------------------------------------------------------------

  lemma {:induction false} DistinctOnce(calls: seq<ToolCall>, c: ToolCall)
    requires DistinctCalls(calls)
    ensures multiset(calls)[c] == if c in calls then 1 else 0
  {
    if calls != [] {
      var n := |calls| - 1;
      DistinctOnce(calls[..n], c);
      assert calls == calls[..n] + [calls[n]];
    }
  }

  lemma SameRunCalls(run: nat, a: seq<ToolCall>, b: seq<ToolCall>, x: seq<ToolCall>, y: seq<ToolCall>)
    requires multiset(a) == multiset(b) && DistinctCalls(x) && DistinctCalls(y)
    requires Sorted(CHRONOLOGICAL, x) && Sorted(CHRONOLOGICAL, y)
    requires forall c :: c in x <==> c in a && c.run == run
    requires forall c :: c in y <==> c in b && c.run == run
    ensures x == y
  {
    forall c ensures multiset(x)[c] == multiset(y)[c] {
      DistinctOnce(x, c);
      DistinctOnce(y, c);
      assert c in a <==> c in multiset(a);
      assert c in b <==> c in multiset(b);
    }
    DistinctAreComparable(x);
    SortedIsUnique(CHRONOLOGICAL, x, y);
  }

  lemma {:induction false} PlaceIdAt(places: seq<PlaceAction>, i: nat)
    requires i < |places|
    ensures |PlaceIds(places)| == |places| && PlaceIds(places)[i] == places[i].callId
  {
    if i < |places| - 1 { PlaceIdAt(places[..|places| - 1], i); }
    else if i > 0 { PlaceIdAt(places[..i], i - 1); }
  }

  lemma {:induction false} CancelIdAt(cancellations: seq<Cancellation>, i: nat)
    requires i < |cancellations|
    ensures |CancelIds(cancellations)| == |cancellations| && CancelIds(cancellations)[i] == cancellations[i].callId
  {
    if i < |cancellations| - 1 { CancelIdAt(cancellations[..|cancellations| - 1], i); }
    else if i > 0 { CancelIdAt(cancellations[..i], i - 1); }
  }

  lemma PlaceIsDetermined(p: PlaceAction, q: PlaceAction, calls: seq<ToolCall>, orders: seq<OrderRecord>)
    requires DistinctCalls(calls) && p.callId == q.callId
    requires OrderIs(p, orders) && OrderIs(q, orders) && AttemptIn(p, calls) && AttemptIn(q, calls)
    ensures p == q
  {
    assert p.order == q.order;
    var i :| 0 <= i < |calls| && calls[i].id == p.callId && AttemptRight(p.attempt, calls[i], p.order);
    var j :| 0 <= j < |calls| && calls[j].id == q.callId && AttemptRight(q.attempt, calls[j], q.order);
    assert i == j;
    AttemptIsDetermined(p.attempt, q.attempt, calls[i], p.order);
  }

  lemma CancellationIsDetermined(c: Cancellation, d: Cancellation, call: ToolCall, orders: seq<OrderRecord>,
                                 calls: seq<ToolCall>)
    requires RightFor(c, call, orders, calls) && RightFor(d, call, orders, calls)
    ensures c == d
  { }

  lemma SamePlaces(x: EventIndex, y: EventIndex, orders: seq<OrderRecord>)
    requires Complete(x) && Complete(y) && x.calls == y.calls
    requires forall p :: p in x.places ==> OrderIs(p, orders) && AttemptIn(p, x.calls)
    requires forall p :: p in y.places ==> OrderIs(p, orders) && AttemptIn(p, y.calls)
    ensures x.places == y.places
  {
    if x.places != [] { PlaceIdAt(x.places, 0); }
    if y.places != [] { PlaceIdAt(y.places, 0); }
    forall i | 0 <= i < |x.places| ensures x.places[i] == y.places[i] {
      PlaceIdAt(x.places, i);
      PlaceIdAt(y.places, i);
      PlaceIsDetermined(x.places[i], y.places[i], x.calls, orders);
    }
  }

  lemma SameCancellations(x: EventIndex, y: EventIndex, orders: seq<OrderRecord>)
    requires Complete(x) && Complete(y) && x.calls == y.calls
    requires AllRight(x.cancellations, orders, x.calls) && AllRight(y.cancellations, orders, x.calls)
    ensures x.cancellations == y.cancellations
  {
    if x.cancellations != [] { CancelIdAt(x.cancellations, 0); }
    if y.cancellations != [] { CancelIdAt(y.cancellations, 0); }
    forall i | 0 <= i < |x.cancellations| ensures x.cancellations[i] == y.cancellations[i] {
      CancelIdAt(x.cancellations, i);
      CancelIdAt(y.cancellations, i);
      var c, d := x.cancellations[i], y.cancellations[i];
      assert c in x.cancellations && d in y.cancellations;
      var k :| 0 <= k < |x.calls| && RightFor(c, x.calls[k], orders, x.calls);
      var l :| 0 <= l < |x.calls| && RightFor(d, x.calls[l], orders, x.calls);
      assert k == l;
      CancellationIsDetermined(c, d, x.calls[k], orders, x.calls);
    }
  }

  lemma SameOwners(a: map<CallId, CallId>, b: map<CallId, CallId>, cancels: seq<CallId>, orders: seq<OrderRecord>)
    requires OwnersAre(a, cancels, orders) && OwnersAre(b, cancels, orders)
    ensures a == b
  { }

  /** The same tool calls in another order, with the same order projections, give the same index. */
  lemma IndexIgnoresOrder(run: nat, a: seq<ToolCall>, b: seq<ToolCall>, orders: seq<OrderRecord>,
                          x: EventIndex, y: EventIndex)
    requires multiset(a) == multiset(b) && IndexIs(x, run, a, orders) && IndexIs(y, run, b, orders)
    ensures x == y
  {
    SameRunCalls(run, a, b, x.calls, y.calls);
    SamePlaces(x, y, orders);
    SameCancellations(x, y, orders);
    SameOwners(x.placeOfCancel, y.placeOfCancel, IdsOf(x.calls, CancelTool), orders);
  }
}
