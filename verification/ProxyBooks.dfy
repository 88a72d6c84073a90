/** From an admitted call to the upstream, and everything that records an outcome of it: the
    ledger's records in order, what may follow what, and what the records and the dispatch hold
    together (`agent/proxy_dispatch.py`, `agent/proxy.py`, the hooks of `agent/hooks.py`, the
    session's end, and recovery). */
module ProxyBooks {
  import opened Optionals

  type UseId = nat
  type CallId = nat
  type Args = map<nat, nat>

  const ACCOUNT_PLACEHOLDER: nat := 0

  datatype Tier = TierR | TierS | TierX | TierD

  /** The tools of the registry, each of one tier. */
  datatype Tool = CancelTool | FilingTool(filing: nat) | OtherTool(name: nat, tier: Tier)

  function TierOf(tool: Tool): Tier {
    match tool
    case CancelTool => TierX
    case FilingTool(_) => TierR
    case OtherTool(_, tier) => tier
  }

  datatype Status = Denied | Failed | Succeeded | UnknownOutcome

  /** Who records an outcome: the hooks' denial, a failed registration, the proxy, the failure and
      result hooks, the session's end, and the recovery of an interrupted run. */
  datatype Writer = Gate | Registration | Proxy | FailureHook | ResultHook | SessionEnd | Recovery

  /** `ProxyCall`. */
  datatype ProxyCall = ProxyCall(
    id: CallId, tool: Tool, effective: Args, upstream: Option<Args>, byExecutor: bool, afterStopCancel: bool)
  {
    predicate Acts() { IsAction(tool) }
  }

  datatype CallState = Pending | Claimed | Completed

  /** How far the proxy took a call: not received, past its checks, held back by them, on the
      wire, or answered. */
  datatype Phase = Waiting | PastChecks | HeldBack | OnWire | Answered

  predicate Left(phase: Phase) { phase.OnWire? || phase.Answered? }

  /** The ledger's records, the proxy's checks passed, the stop latch, and what left, in order. */
  datatype Event =
    | Requested(id: CallId, tool: Tool)
    | Dispatched(id: CallId, effective: Args)
    | Cleared(call: ProxyCall)
    | Stop
    | Sent(call: ProxyCall, args: Args)
    | Outcome(id: CallId, status: Status, writer: Writer)

  // ---- What the records say of a call -------------------------------------------------------

  function SentCount(log: seq<Event>, id: CallId): nat {
    if log == [] then 0
    else
      var e := log[|log| - 1];
      SentCount(log[..|log| - 1], id) + if e.Sent? && e.call.id == id then 1 else 0
  }

  function ToolOf(log: seq<Event>, id: CallId): Option<Tool> {
    if log == [] then None
    else
      var e := log[|log| - 1];
      if e.Requested? && e.id == id then Some(e.tool) else ToolOf(log[..|log| - 1], id)
  }

  function DispatchOf(log: seq<Event>, id: CallId): Option<Args> {
    if log == [] then None
    else
      var e := log[|log| - 1];
      if e.Dispatched? && e.id == id then Some(e.effective) else DispatchOf(log[..|log| - 1], id)
  }

  predicate ProxyAnswered(log: seq<Event>, id: CallId) {
    log != [] && (var e := log[|log| - 1];
                  (e.Outcome? && e.id == id && e.writer.Proxy?) || ProxyAnswered(log[..|log| - 1], id))
  }

  predicate HasOutcome(log: seq<Event>, id: CallId) {
    log != [] && (var e := log[|log| - 1]; (e.Outcome? && e.id == id) || HasOutcome(log[..|log| - 1], id))
  }

  predicate StoppedIn(log: seq<Event>) {
    log != [] && (log[|log| - 1].Stop? || StoppedIn(log[..|log| - 1]))
  }

  /** The call whose checks passed just now: nothing but the latch happened since. */
  function ClearedNow(log: seq<Event>): Option<ProxyCall> {
    if log == [] then None
    else
      var e := log[|log| - 1];
      if e.Cleared? then Some(e.call) else if e.Stop? then ClearedNow(log[..|log| - 1]) else None
  }

  /** What is sent is what was recorded, up to the account placeholder. */
  predicate SentAs(effective: Args, args: Args, account: nat) {
    args == effective || exists k :: k in effective && effective[k] == ACCOUNT_PLACEHOLDER && args == effective[k := account]
  }

  /** Its calls act on the account or the workspace. */
  predicate IsAction(tool: Tool) { TierOf(tool).TierS? || TierOf(tool).TierX? }

  predicate OwnCancel(call: ProxyCall) { call.afterStopCancel && call.byExecutor && call.tool == CancelTool }

  /** `_unresolved`: an action whose result is unusable has an unknown outcome. */
  function Unresolved(tool: Tool): Status { if IsAction(tool) then UnknownOutcome else Failed }

  /** The call this id names acts. */
  predicate ActsIn(log: seq<Event>, id: CallId) { ToolOf(log, id).Some? && IsAction(ToolOf(log, id).value) }

  predicate Recorded(log: seq<Event>, call: ProxyCall) {
    ToolOf(log, call.id) == Some(call.tool) && DispatchOf(log, call.id) == Some(call.effective)
  }

  /** What each writer may record of a call. */
  predicate MayRecord(log: seq<Event>, id: CallId, tool: Tool, status: Status, writer: Writer) {
    match writer
    case Gate => status.Denied?
    case Registration => status.Failed?
    case Proxy =>
      && !ProxyAnswered(log, id) && !status.Denied?
      && (status.Succeeded? || status.UnknownOutcome? ==> SentCount(log, id) == 1)
      && (status.Failed? && IsAction(tool) ==> SentCount(log, id) == 0)
    case FailureHook => status.Failed?
    case ResultHook => status == Unresolved(tool)
    case SessionEnd => status.UnknownOutcome? && !HasOutcome(log, id)
    case Recovery => status == Unresolved(tool) && !HasOutcome(log, id)
  }

  /** The event may follow these records. */
  predicate Follows(log: seq<Event>, e: Event, account: nat) {
    match e
    case Requested(id, _) => ToolOf(log, id).None?
    case Dispatched(id, _) => ToolOf(log, id).Some? && DispatchOf(log, id).None?
    case Cleared(call) => Recorded(log, call) && (StoppedIn(log) && call.Acts() ==> OwnCancel(call))
    case Stop => true
    case Sent(call, args) =>
      && ClearedNow(log) == Some(call)
      && SentCount(log, call.id) == 0 && !ProxyAnswered(log, call.id)
      && Recorded(log, call) && SentAs(call.effective, args, account)
    case Outcome(id, status, writer) => ToolOf(log, id).Some? && MayRecord(log, id, ToolOf(log, id).value, status, writer)
  }

  predicate Lawful(log: seq<Event>, account: nat) {
    log == [] || (Lawful(log[..|log| - 1], account) && Follows(log[..|log| - 1], log[|log| - 1], account))
  }

  lemma OneMoreEvent(log: seq<Event>, e: Event, account: nat)
    requires Lawful(log, account) && Follows(log, e, account)
    ensures Lawful(log + [e], account)
  {
    assert (log + [e])[..|log|] == log;
  }

  lemma RecordsAfter(log: seq<Event>, e: Event, id: CallId)
    ensures SentCount(log + [e], id) == SentCount(log, id) + if e.Sent? && e.call.id == id then 1 else 0
    ensures ToolOf(log + [e], id) == if e.Requested? && e.id == id then Some(e.tool) else ToolOf(log, id)
    ensures DispatchOf(log + [e], id) == if e.Dispatched? && e.id == id then Some(e.effective) else DispatchOf(log, id)
    ensures ProxyAnswered(log + [e], id) <==> (e.Outcome? && e.id == id && e.writer.Proxy?) || ProxyAnswered(log, id)
  {
    assert (log + [e])[..|log|] == log;
  }

  lemma LatchAfter(log: seq<Event>, e: Event)
    ensures StoppedIn(log + [e]) <==> e.Stop? || StoppedIn(log)
    ensures ClearedNow(log + [e]) == if e.Cleared? then Some(e.call) else if e.Stop? then ClearedNow(log) else None
  {
    assert (log + [e])[..|log|] == log;
  }

  // ---- What every lawful log promises ---------------------------------------------------------

  lemma {:induction false} LawfulAt(log: seq<Event>, account: nat, k: nat)
    requires Lawful(log, account) && k < |log|
    ensures Follows(log[..k], log[k], account)
  {
    var n := |log| - 1;
    if k < n {
      LawfulAt(log[..n], account, k);
      assert log[..n][..k] == log[..k];
    }
  }

  lemma {:induction false} ToolRecorded(log: seq<Event>, id: CallId)
    ensures ToolOf(log, id).Some? ==>
              exists i :: 0 <= i < |log| && log[i] == Requested(id, ToolOf(log, id).value)
  {
    if log != [] { ToolRecorded(log[..|log| - 1], id); }
  }

  lemma {:induction false} DispatchRecorded(log: seq<Event>, id: CallId)
    ensures DispatchOf(log, id).Some? ==>
              exists i :: 0 <= i < |log| && log[i] == Dispatched(id, DispatchOf(log, id).value)
  {
    if log != [] { DispatchRecorded(log[..|log| - 1], id); }
  }

  /** Recorded before sent: every send has its own earlier requested and dispatched records, of
      the same tool and arguments up to the account substitution. */
  lemma RecordedBeforeSent(log: seq<Event>, account: nat, k: nat)
    requires Lawful(log, account) && k < |log| && log[k].Sent?
    ensures exists i :: 0 <= i < k && log[i] == Requested(log[k].call.id, log[k].call.tool)
    ensures exists j :: 0 <= j < k && log[j] == Dispatched(log[k].call.id, log[k].call.effective)
    ensures SentAs(log[k].call.effective, log[k].args, account)
  {
    LawfulAt(log, account, k);
    ToolRecorded(log[..k], log[k].call.id);
    DispatchRecorded(log[..k], log[k].call.id);
    var i :| 0 <= i < k && log[..k][i] == Requested(log[k].call.id, log[k].call.tool);
    var j :| 0 <= j < k && log[..k][j] == Dispatched(log[k].call.id, log[k].call.effective);
    assert log[i] == log[..k][i] && log[j] == log[..k][j];
  }

  lemma {:induction false} SentIsCounted(log: seq<Event>, k: nat)
    requires k < |log| && log[k].Sent?
    ensures SentCount(log, log[k].call.id) >= 1
  {
    if k < |log| - 1 { SentIsCounted(log[..|log| - 1], k); }
  }

  /** Sent at most once. */
  lemma SentOnce(log: seq<Event>, account: nat, i: nat, k: nat)
    requires Lawful(log, account) && i < k < |log| && log[i].Sent? && log[k].Sent?
    ensures log[i].call.id != log[k].call.id
  {
    LawfulAt(log, account, k);
    SentIsCounted(log[..k], i);
    assert log[..k][i] == log[i];
  }

  lemma {:induction false} ProxyAnsweredAt(log: seq<Event>, k: nat)
    requires k < |log| && log[k].Outcome? && log[k].writer.Proxy?
    ensures ProxyAnswered(log, log[k].id)
  {
    if k < |log| - 1 { ProxyAnsweredAt(log[..|log| - 1], k); }
  }

  /** Once the proxy has recorded an outcome, nothing more is sent for the call. */
  lemma {:induction false} ProxyOutcomeIsFinal(log: seq<Event>, account: nat, k: nat)
    requires Lawful(log, account) && k < |log| && log[k].Outcome? && log[k].writer.Proxy?
    ensures SentCount(log, log[k].id) == SentCount(log[..k], log[k].id)
  {
    var n := |log| - 1;
    if k < n {
      ProxyOutcomeIsFinal(log[..n], account, k);
      assert log[..n][..k] == log[..k] && log[..n][k] == log[k];
      ProxyAnsweredAt(log[..n], k);
    }
  }

  /** The proxy's own record of an action is failed exactly when nothing of it was sent, before
      the record or ever after. */
  lemma ProxyFailedExactlyWhenNotSent(log: seq<Event>, account: nat, k: nat)
    requires Lawful(log, account) && k < |log| && log[k].Outcome? && log[k].writer.Proxy? && ActsIn(log[..k], log[k].id)
    ensures log[k].status.Failed? <==> SentCount(log, log[k].id) == 0
  {
    LawfulAt(log, account, k);
    ProxyOutcomeIsFinal(log, account, k);
  }

  // ---- The stop latch and the window before a send ---------------------------------------------

  lemma {:induction false} ClearedWas(log: seq<Event>, account: nat) returns (c: nat)
    requires Lawful(log, account) && ClearedNow(log).Some?
    ensures c < |log| && log[c] == Cleared(ClearedNow(log).value) && Follows(log[..c], log[c], account)
    ensures forall i :: c < i < |log| ==> log[i].Stop?
  {
    var n := |log| - 1;
    if log[n].Cleared? {
      c := n;
    } else {
      c := ClearedWas(log[..n], account);
      assert log[..n][..c] == log[..c];
    }
  }

  lemma {:induction false} StoppedStays(log: seq<Event>, c: nat, k: nat)
    requires c <= k <= |log| && StoppedIn(log[..c])
    ensures StoppedIn(log[..k])
  {
    if c < k {
      StoppedStays(log, c, k - 1);
      assert log[..k][..k - 1] == log[..k - 1];
    }
  }

  lemma {:induction false} ClearedUntil(log: seq<Event>, c: nat, k: nat)
    requires c < k <= |log| && log[c].Cleared? && forall i :: c < i < k ==> log[i].Stop?
    ensures ClearedNow(log[..k]) == Some(log[c].call)
  {
    assert log[..k][..k - 1] == log[..k - 1];
    if c < k - 1 {
      assert log[..k][k - 1].Stop?;
      ClearedUntil(log, c, k - 1);
    }
  }

  /** After the stop latch an action leaves besides the executor's own cancel only if its checks had
      just passed. With no call between its checks and its send when the latch is set, none
      does. */
  lemma OnlyTheClearedAfterStop(log: seq<Event>, account: nat, k: nat, m: nat)
    requires Lawful(log, account) && k <= m < |log| && StoppedIn(log[..k])
    requires log[m].Sent? && log[m].call.Acts() && !OwnCancel(log[m].call)
    ensures ClearedNow(log[..k]) == Some(log[m].call)
  {
    LawfulAt(log, account, m);
    LawfulPrefix(log, account, m);
    var c := ClearedWas(log[..m], account);
    assert log[..m][..c] == log[..c] && log[..m][c] == log[c];
    if k <= c { StoppedStays(log, k, c); }
    forall i | c < i < k ensures log[i].Stop? { assert log[..m][i] == log[i]; }
    ClearedUntil(log, c, k);
  }

  lemma {:induction false} LawfulPrefix(log: seq<Event>, account: nat, m: nat)
    requires Lawful(log, account) && m <= |log|
    ensures Lawful(log[..m], account)
  {
    if m < |log| {
      LawfulPrefix(log[..|log| - 1], account, m);
      assert log[..|log| - 1][..m] == log[..m];
    } else {
      assert log[..m] == log;
    }
  }

  /** Of any two actions that leave after the stop latch, one is the executor's own cancel. */
  lemma AtMostOneAfterStop(log: seq<Event>, account: nat, k: nat, m: nat, n: nat)
    requires Lawful(log, account) && k <= m < n < |log| && StoppedIn(log[..k])
    requires log[m].Sent? && log[m].call.Acts() && log[n].Sent? && log[n].call.Acts()
    ensures OwnCancel(log[m].call) || OwnCancel(log[n].call)
  {
    if !OwnCancel(log[m].call) && !OwnCancel(log[n].call) {
      OnlyTheClearedAfterStop(log, account, k, m);
      OnlyTheClearedAfterStop(log, account, k, n);
      SentOnce(log, account, m, n);
    }
  }

  // ---- The hooks, the dispatch, and the proxy -------------------------------------------------

  /** What became of a send: the upstream raised, the result was too large, the validator answered
      for another call, or there is an envelope, which may say a filing's content is unavailable. */
  datatype Answer = UpstreamError | TooLarge | Mismatched | Envelope(valid: bool, contentUnavailable: bool)

  /** The dispatch, its phase, and the records agree on a call. */
  predicate CallAgrees(log: seq<Event>, call: ProxyCall, state: CallState, phase: Phase) {
    && Recorded(log, call)
    && (state.Pending? <==> phase.Waiting?)
    && SentCount(log, call.id) == (if Left(phase) then 1 else 0)
    && (phase.Waiting? || phase.PastChecks? || phase.OnWire? ==> !ProxyAnswered(log, call.id) && !state.Completed?)
  }

  /** A registered call's own fields. */
  predicate CallFits(call: ProxyCall, account: nat) {
    && (call.upstream.Some? ==> SentAs(call.effective, call.upstream.value, account))
    && (call.afterStopCancel ==> call.byExecutor && call.tool == CancelTool)
  }

  function EventId(e: Event): CallId
    requires !e.Stop?
  {
    if e.Sent? || e.Cleared? then e.call.id else e.id
  }

  /** A record that says nothing new of what the proxy did. */
  predicate Neutral(e: Event) { e.Stop? || (e.Outcome? && !e.writer.Proxy?) }

  predicate IdsBelow(log: seq<Event>, nextId: CallId) {
    log == [] || ((log[|log| - 1].Stop? || EventId(log[|log| - 1]) < nextId) && IdsBelow(log[..|log| - 1], nextId))
  }

  lemma {:induction false} NothingYet(log: seq<Event>, nextId: CallId, more: CallId)
    requires IdsBelow(log, nextId) && nextId <= more
    ensures ToolOf(log, nextId).None? && DispatchOf(log, nextId).None?
    ensures SentCount(log, nextId) == 0 && !ProxyAnswered(log, nextId)
    ensures IdsBelow(log, more)
  {
    if log != [] { NothingYet(log[..|log| - 1], nextId, more); }
  }

  lemma StillBelow(log: seq<Event>, e: Event, nextId: CallId)
    requires IdsBelow(log, nextId) && (e.Stop? || EventId(e) < nextId)
    ensures IdsBelow(log + [e], nextId)
  {
    assert (log + [e])[..|log|] == log;
  }

  /** What goes upstream. */
  function Wire(call: ProxyCall): Args { if call.upstream.Some? then call.upstream.value else call.effective }

  function StatusOf(answer: Answer, tool: Tool): Status {
    if answer.Envelope? && answer.valid then Succeeded else Unresolved(tool)
  }

  /** What is known of a use id whose call is not registered: at most its request. */
  predicate Unknown(log: seq<Event>, id: CallId) {
    DispatchOf(log, id).None? && SentCount(log, id) == 0 && !ProxyAnswered(log, id)
  }

  /** A record that reads as "nothing was sent". */
  predicate ReadsUnsent(status: Status) { status.Denied? || status.Failed? }

  /** What the ledger and the dispatch hold under one use id: its identity, and, once it is
      registered, its call, its state, and how far the proxy took it. */
  datatype Entry = Entry(id: CallId, call: Option<ProxyCall>, state: CallState, phase: Phase)

  type Entries = map<UseId, Entry>

  predicate EntryOk(log: seq<Event>, account: nat, entry: Entry) {
    && ToolOf(log, entry.id).Some?
    && if entry.call.None? then entry.phase.Waiting? && Unknown(log, entry.id)
       else && entry.call.value.id == entry.id && CallFits(entry.call.value, account)
            && CallAgrees(log, entry.call.value, entry.state, entry.phase)
  }

  ghost predicate Owned(entries: Entries, owner: map<CallId, UseId>, nextId: CallId) {
    && (forall u :: u in entries ==> entries[u].id in owner && owner[entries[u].id] == u)
    && forall id :: id in owner ==> id < nextId
  }

  ghost predicate EntriesOk(log: seq<Event>, account: nat, entries: Entries) {
    forall u :: u in entries ==> EntryOk(log, account, entries[u])
  }

  /** At most one call is between its checks and its send, and nothing happened since them. */
  ghost predicate OneChecked(log: seq<Event>, entries: Entries, checked: Option<UseId>) {
    && (forall u :: u in entries && entries[u].phase.PastChecks? ==> checked == Some(u))
    && (checked.Some? ==> && checked.value in entries && entries[checked.value].phase.PastChecks?
                          && entries[checked.value].call.Some? && ClearedNow(log) == entries[checked.value].call)
  }

  lemma EntryStays(log: seq<Event>, account: nat, entry: Entry, e: Event)
    requires EntryOk(log, account, entry) && (Neutral(e) || EventId(e) != entry.id)
    ensures EntryOk(log + [e], account, entry)
  {
    RecordsAfter(log, e, entry.id);
  }

  lemma EntriesStay(log: seq<Event>, account: nat, entries: Entries, e: Event)
    requires EntriesOk(log, account, entries) && Neutral(e)
    ensures EntriesOk(log + [e], account, entries)
  {
    forall u | u in entries ensures EntryOk(log + [e], account, entries[u]) {
      EntryStays(log, account, entries[u], e);
    }
  }

  lemma EntriesPut(log: seq<Event>, account: nat, entries: Entries, owner: map<CallId, UseId>, nextId: CallId,
                   e: Event, u: UseId, entry: Entry)
    requires EntriesOk(log, account, entries) && Owned(entries, owner, nextId) && !e.Stop? && EventId(e) == entry.id
    requires EntryOk(log + [e], account, entry)
    requires if u in entries then entries[u].id == entry.id else entry.id >= nextId
    ensures EntriesOk(log + [e], account, entries[u := entry])
  {
    forall v | v in entries && v != u ensures EntryOk(log + [e], account, entries[v]) {
      EntryStays(log, account, entries[v], e);
    }
  }

  /** The fields of a proxy that its records are about. */
  datatype Book = Book(log: seq<Event>, nextId: CallId, entries: Entries, checked: Option<UseId>)

  ghost predicate Sound(account: nat, b: Book, owner: map<CallId, UseId>) {
    && Lawful(b.log, account) && IdsBelow(b.log, b.nextId)
    && Owned(b.entries, owner, b.nextId)
    && EntriesOk(b.log, account, b.entries)
    && OneChecked(b.log, b.entries, b.checked)
  }

  /** A record that says nothing new of what the proxy did, or the stop latch. */
  lemma NoteKeeps(account: nat, b: Book, owner: map<CallId, UseId>, e: Event)
    requires Sound(account, b, owner) && Neutral(e) && Follows(b.log, e, account)
    requires e.Stop? || (b.checked.None? && EventId(e) < b.nextId)
    ensures Sound(account, b.(log := b.log + [e]), owner)
  {
    OneMoreEvent(b.log, e, account);
    StillBelow(b.log, e, b.nextId);
    LatchAfter(b.log, e);
    EntriesStay(b.log, account, b.entries, e);
  }

  /** The next event of one use id, with what its entry then is. */
  function Put(b: Book, e: Event, u: UseId, entry: Entry): Book {
    Book(b.log + [e], if e.Requested? then b.nextId + 1 else b.nextId, b.entries[u := entry],
         if e.Cleared? then Some(u) else None)
  }

  lemma PutKeeps(account: nat, b: Book, owner: map<CallId, UseId>, e: Event, u: UseId, entry: Entry)
    requires Sound(account, b, owner) && u in b.entries && b.entries[u].id == entry.id
    requires b.checked.None? || b.checked == Some(u)
    requires !e.Stop? && !e.Requested? && Follows(b.log, e, account) && EventId(e) == entry.id
    requires EntryOk(b.log + [e], account, entry)
    requires if e.Cleared? then entry.phase.PastChecks? && entry.call == Some(e.call) else !entry.phase.PastChecks?
    ensures Sound(account, Put(b, e, u, entry), owner)
  {
    OneMoreEvent(b.log, e, account);
    StillBelow(b.log, e, b.nextId);
    LatchAfter(b.log, e);
    EntriesPut(b.log, account, b.entries, owner, b.nextId, e, u, entry);
  }

  /** The requested record of a new use id. */
  lemma RequestKeeps(account: nat, b: Book, owner: map<CallId, UseId>, u: UseId, tool: Tool)
    requires Sound(account, b, owner) && u !in b.entries && b.checked.None?
    ensures Sound(account, Put(b, Requested(b.nextId, tool), u, Entry(b.nextId, None, Completed, Waiting)),
                  owner[b.nextId := u])
    ensures ToolOf(b.log + [Requested(b.nextId, tool)], b.nextId) == Some(tool)
  {
    var e, entry := Requested(b.nextId, tool), Entry(b.nextId, None, Completed, Waiting);
    NothingYet(b.log, b.nextId, b.nextId + 1);
    RecordsAfter(b.log, e, b.nextId);
    OneMoreEvent(b.log, e, account);
    StillBelow(b.log, e, b.nextId + 1);
    LatchAfter(b.log, e);
    EntriesPut(b.log, account, b.entries, owner, b.nextId, e, u, entry);
  }

  /** A claimed call is held back, or its answer is lost, and nothing is recorded. */
  function Drop(b: Book, u: UseId): Book
    requires u in b.entries
  {
    var entry := b.entries[u];
    b.(entries := b.entries[u := entry.(state := Claimed, phase := if entry.phase.OnWire? then Answered else HeldBack)],
       checked := if b.checked == Some(u) then None else b.checked)
  }

  lemma DropKeeps(account: nat, b: Book, owner: map<CallId, UseId>, u: UseId)
    requires Sound(account, b, owner) && u in b.entries && b.entries[u].call.Some?
    requires !b.entries[u].phase.HeldBack? && !b.entries[u].phase.Answered?
    ensures Sound(account, Drop(b, u), owner)
  { }

  /** What arrives at the proxy: from the CLI, or from the order executor. */
  datatype Arrival = Arrival(fromCli: bool, tool: Tool, args: Args)

  predicate Claimable(b: Book, u: UseId) {
    u in b.entries && b.entries[u].call.Some? && b.entries[u].state.Pending?
  }

  predicate WrongSide(call: ProxyCall, arrival: Arrival) { call.byExecutor == arrival.fromCli }

  predicate Matches(call: ProxyCall, arrival: Arrival) { arrival.tool == call.tool && arrival.args == call.effective }

  /** The proxy's checks of a claimed call. */
  predicate Passes(b: Book, u: UseId, arrival: Arrival, unavailable: set<nat>)
    requires Claimable(b, u)
  {
    var call := b.entries[u].call.value;
    && !WrongSide(call, arrival) && Matches(call, arrival)
    && !(call.Acts() && StoppedIn(b.log) && !call.afterStopCancel)
    && !(call.tool.FilingTool? && call.tool.filing in unavailable)
  }

  /** The tools that act: the cancel, and those of the tiers S and X. */
  predicate Acting(tool: Tool) { tool.CancelTool? || (tool.OtherTool? && (tool.tier == TierS || tool.tier == TierX)) }

  lemma {:induction false} StopIsRecorded(log: seq<Event>)
    ensures StoppedIn(log) <==> Stop in log
  {
    if log != [] {
      StopIsRecorded(log[..|log| - 1]);
      assert log == log[..|log| - 1] + [log[|log| - 1]];
    }
  }

  /** A pending call, arriving on its own side as it was recorded, that neither the latch nor an
      unavailable filing holds back. */
  predicate MayPass(b: Book, u: UseId, arrival: Arrival, unavailable: set<nat>) {
    && u in b.entries && b.entries[u].call.Some? && b.entries[u].state == Pending
    && var call := b.entries[u].call.value;
       && call.byExecutor != arrival.fromCli && arrival.tool == call.tool && arrival.args == call.effective
       && (Acting(call.tool) && Stop in b.log ==> call.afterStopCancel)
       && (call.tool.FilingTool? ==> call.tool.filing !in unavailable)
  }

  lemma PassesExactlyWhen(b: Book, u: UseId, arrival: Arrival, unavailable: set<nat>)
    ensures Claimable(b, u) && Passes(b, u, arrival, unavailable) <==> MayPass(b, u, arrival, unavailable)
  {
    StopIsRecorded(b.log);
  }

  function ProxyOutcome(entry: Entry, status: Status): Event
    requires entry.call.Some?
  {
    Outcome(entry.id, status, Proxy)
  }

  function HookFailure(entry: Entry): Event
    requires entry.call.Some?
  {
    Outcome(entry.id, Failed, FailureHook)
  }

  function HookUnknown(entry: Entry): Event
    requires entry.call.Some?
  {
    Outcome(entry.id, Unresolved(entry.call.value.tool), ResultHook)
  }

  function Closing(id: CallId, writer: Writer, tool: Tool): Event {
    Outcome(id, if writer.SessionEnd? then UnknownOutcome else Unresolved(tool), writer)
  }

  function Refused(b: Book, u: UseId, recorded: bool): Book
    requires u in b.entries && b.entries[u].call.Some?
  {
    if recorded then Put(b, ProxyOutcome(b.entries[u], Failed), u, b.entries[u].(state := Completed, phase := HeldBack))
    else Latched(Drop(b, u))
  }

  function AfterChecks(b: Book, u: UseId, arrival: Arrival, unavailable: set<nat>, outcomeRecorded: bool): Book
    requires Claimable(b, u)
  {
    var call := b.entries[u].call.value;
    if Passes(b, u, arrival, unavailable)
    then Put(b, Cleared(call), u, b.entries[u].(state := Claimed, phase := PastChecks))
    else if WrongSide(call, arrival) then Latched(Drop(b, u))
    else Refused(if Matches(call, arrival) then b else Latched(b), u, outcomeRecorded)
  }

  function OnTheWire(b: Book, u: UseId): Book
    requires u in b.entries && b.entries[u].call.Some?
  {
    var call := b.entries[u].call.value;
    Put(b, Sent(call, Wire(call)), u, b.entries[u].(phase := OnWire))
  }

  function Finished(b: Book, u: UseId, answer: Answer, recorded: bool): Book
    requires u in b.entries && b.entries[u].call.Some?
  {
    if answer.Mismatched? || !recorded then Latched(Drop(b, u))
    else Put(b, ProxyOutcome(b.entries[u], StatusOf(answer, b.entries[u].call.value.tool)), u,
             b.entries[u].(state := Completed, phase := Answered))
  }

  /** The filing an answer says has no content. */
  function Found(call: Option<ProxyCall>, answer: Answer): set<nat> {
    if call.Some? && call.value.tool.FilingTool? && answer.Envelope? && answer.contentUnavailable
    then {call.value.tool.filing} else {}
  }

  function Closed(b: Book, u: UseId, writer: Writer): Book
    requires u in b.entries && ToolOf(b.log, b.entries[u].id).Some?
  {
    var id := b.entries[u].id;
    if HasOutcome(b.log, id) || (writer.SessionEnd? && DispatchOf(b.log, id).None?) then b
    else b.(log := b.log + [Closing(id, writer, ToolOf(b.log, id).value)])
  }

  lemma OutcomeFits(log: seq<Event>, account: nat, entry: Entry, status: Status, phase: Phase)
    requires EntryOk(log, account, entry) && entry.call.Some? && !entry.phase.HeldBack? && !entry.phase.Answered?
    requires if entry.phase.OnWire? then phase.Answered? && (status.Succeeded? || status == Unresolved(entry.call.value.tool))
             else phase.HeldBack? && status.Failed?
    ensures Follows(log, ProxyOutcome(entry, status), account)
    ensures EntryOk(log + [ProxyOutcome(entry, status)], account, entry.(state := Completed, phase := phase))
  {
    RecordsAfter(log, ProxyOutcome(entry, status), entry.id);
  }

  lemma ClearFits(log: seq<Event>, account: nat, entry: Entry)
    requires EntryOk(log, account, entry) && entry.call.Some? && entry.phase.Waiting?
    requires !(entry.call.value.Acts() && StoppedIn(log) && !entry.call.value.afterStopCancel)
    ensures Follows(log, Cleared(entry.call.value), account)
    ensures EntryOk(log + [Cleared(entry.call.value)], account, entry.(state := Claimed, phase := PastChecks))
  {
    RecordsAfter(log, Cleared(entry.call.value), entry.id);
  }

  lemma SendFits(account: nat, b: Book, owner: map<CallId, UseId>, u: UseId)
    requires Sound(account, b, owner) && b.checked == Some(u)
    ensures u in b.entries && b.entries[u].call.Some?
    ensures var call := b.entries[u].call.value;
            && Follows(b.log, Sent(call, Wire(call)), account)
            && EntryOk(b.log + [Sent(call, Wire(call))], account, b.entries[u].(phase := OnWire))
  {
    var call := b.entries[u].call.value;
    assert EntryOk(b.log, account, b.entries[u]);
    RecordsAfter(b.log, Sent(call, Wire(call)), call.id);
  }

  /** A call as it is asked for, and what the hooks' other checks say of it. */
  datatype Asked = Asked(tool: Tool, args: Args, accountArg: Option<nat>, byExecutor: bool,
                         afterStopCancel: bool, permitted: bool)
  {
    predicate Latch() { byExecutor && afterStopCancel && tool == CancelTool }

    /** Whether the stop latch holds it back. */
    predicate HeldByStop() { (IsAction(tool) || TierOf(tool).TierD?) && !Latch() }

    function Call(id: CallId, account: nat): (call: ProxyCall)
      ensures CallFits(call, account) && call.id == id && call.tool == tool
    {
      ProxyCall(id, tool, args, Substituted(args, accountArg, account), byExecutor, Latch())
    }
  }

  /** The latch lets through what neither acts nor is of tier D, and the executor's cancel after it. */
  predicate PastTheLatch(log: seq<Event>, asked: Asked) {
    || Stop !in log
    || !(Acting(asked.tool) || (asked.tool.OtherTool? && asked.tool.tier == TierD))
    || (asked.byExecutor && asked.afterStopCancel && asked.tool == CancelTool)
  }

  lemma HeldExactlyWhen(log: seq<Event>, asked: Asked)
    ensures !(StoppedIn(log) && asked.HeldByStop()) <==> PastTheLatch(log, asked)
  {
    StopIsRecorded(log);
  }

  /** Which of a call's records are written. */
  datatype Written = Written(request: bool, dispatch: bool, outcome: bool)

  function Enlisted(b: Book, u: UseId, call: ProxyCall, dispatchRecorded: bool, outcomeRecorded: bool): Book
    requires u in b.entries
  {
    if !dispatchRecorded then Latched(b)
    else if b.entries[u].call.None?
    then Put(b, Dispatched(call.id, call.effective), u, Entry(call.id, Some(call), Pending, Waiting))
    else if call.byExecutor then Latched(b)
    else Latched(Noted(b, Outcome(call.id, Failed, Registration), outcomeRecorded))
  }

  lemma RegisterFits(log: seq<Event>, account: nat, entry: Entry, call: ProxyCall)
    requires EntryOk(log, account, entry) && entry.call.None? && call.id == entry.id
    requires CallFits(call, account) && ToolOf(log, call.id) == Some(call.tool)
    ensures Follows(log, Dispatched(call.id, call.effective), account)
    ensures EntryOk(log + [Dispatched(call.id, call.effective)], account, Entry(call.id, Some(call), Pending, Waiting))
  {
    RecordsAfter(log, Dispatched(call.id, call.effective), call.id);
  }

  function Latched(b: Book): Book { if StoppedIn(b.log) then b else b.(log := b.log + [Stop]) }

  function Noted(b: Book, e: Event, recorded: bool): Book {
    if recorded then b.(log := b.log + [e]) else Latched(b)
  }

  /** Whether the ledger takes the request: the write succeeds, and the use id is new or names the
      same tool. */
  predicate MayName(b: Book, u: UseId, tool: Tool, recorded: bool) {
    recorded && (u in b.entries ==> ToolOf(b.log, b.entries[u].id) == Some(tool))
  }

  function Named(b: Book, u: UseId, tool: Tool): Book {
    if u in b.entries then b else Put(b, Requested(b.nextId, tool), u, Entry(b.nextId, None, Completed, Waiting))
  }

  /** `resolve_account_argument`: the placeholder in the tool's account argument, replaced. */
  function Substituted(args: Args, accountArg: Option<nat>, account: nat): (r: Option<Args>)
    ensures r.Some? ==> SentAs(args, r.value, account)
    ensures r.Some? <==> accountArg.Some? && accountArg.value in args && args[accountArg.value] == ACCOUNT_PLACEHOLDER
    ensures r.Some? ==> r.value.Keys == args.Keys
                        && forall k :: k in args ==> r.value[k] == if Some(k) == accountArg then account else args[k]
  {
    if accountArg.Some? && accountArg.value in args && args[accountArg.value] == ACCOUNT_PLACEHOLDER
    then Some(args[accountArg.value := account]) else None
  }


  /** The record of an outcome says of the action what is true: it reads as unsent exactly when
      nothing of the call was sent. */
  predicate RightIn(log: seq<Event>, e: Event)
    requires e.Outcome?
  {
    ReadsUnsent(e.status) <==> SentCount(log, e.id) == 0
  }

  predicate Settled(b: Book, u: UseId, writer: Writer) {
    u in b.entries && (HasOutcome(b.log, b.entries[u].id)
                       || (writer.SessionEnd? && DispatchOf(b.log, b.entries[u].id).None?))
  }

  lemma ClosedSettles(b: Book, u: UseId, writer: Writer)
    requires u in b.entries && ToolOf(b.log, b.entries[u].id).Some?
    ensures Settled(Closed(b, u, writer), u, writer)
    ensures forall v :: Settled(b, v, writer) ==> Settled(Closed(b, u, writer), v, writer)
  {
    var e := Closing(b.entries[u].id, writer, ToolOf(b.log, b.entries[u].id).value);
    assert (b.log + [e])[..|b.log|] == b.log;
  }
}
