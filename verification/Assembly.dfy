/** Which recorded action belongs to which decision (`domain/assembly.py`, `associate`,
    `_bind_place`, and `run`): two passes over the model's selections, against one rule. */
module Assembly {
  import opened Optionals
  import opened AssemblyEvents
  import opened Sorting

  type Ref = nat

  datatype RefKind = CandidateRef | PositionRef | FactsRef | EvidenceRef | ToolCallRef | OrderWorkRef

  /** A code-issued reference. `run` and `account` are None when it is not scoped by them. */
  datatype DeliveredRef = DeliveredRef(
    kind: RefKind, run: Option<nat>, account: Option<nat>, delivered: bool,
    instrument: Option<nat>, occ: Option<nat>, call: Option<CallId>)

  datatype Context = Context(run: nat, account: nat, refs: map<Ref, DeliveredRef>)

  datatype Action = OpenCsp | OpenCc | Close | Roll | NoTrade

  /** A decision after reference validation. */
  datatype Plan = Plan(
    action: Action, target: Option<DeliveredRef>, replacement: Option<DeliveredRef>, executionRefs: seq<Ref>)
  {
    predicate Opens() { action.OpenCsp? || action.OpenCc? }

    function Roles(): set<Role> {
      if target.None? then {}
      else if Opens() then {OpenRole}
      else if action.Close? then {CloseRole}
      else if action.Roll? then (if replacement.Some? then {CloseRole, OpenRole} else {CloseRole})
      else {}
    }

    function Subject(role: Role): Option<DeliveredRef> {
      if role.CloseRole? || Opens() then target else replacement
    }
  }

  /** `resolve`: a selected reference that was issued, of a wanted kind, in scope, and delivered. */
  function Resolve(ctx: Context, ref: Ref, kinds: set<RefKind>): Option<DeliveredRef> {
    if ref !in ctx.refs then None
    else
      var found := ctx.refs[ref];
      if found.kind !in kinds || (found.run.Some? && found.run.value != ctx.run)
         || (found.account.Some? && found.account.value != ctx.account) || !found.delivered
      then None else Some(found)
  }

  function ToolOf(idx: EventIndex, call: CallId): Option<Tool> {
    ToolIn(idx.calls, call)
  }

  function ToolIn(calls: seq<ToolCall>, call: CallId): Option<Tool> {
    if calls == [] then None
    else if calls[|calls| - 1].id == call then Some(calls[|calls| - 1].tool)
    else ToolIn(calls[..|calls| - 1], call)
  }

  /** `children_of`: the place and cancel calls an order-work job made. */
  function ChildrenOf(calls: seq<ToolCall>, work: CallId): seq<CallId> {
    if calls == [] then []
    else
      var last := calls[|calls| - 1];
      ChildrenOf(calls[..|calls| - 1], work)
      + if last.parent == Some(work) && (last.tool.PlaceTool? || last.tool.CancelTool?) then [last.id] else []
  }

  /** The recorded calls an execution reference stands for: its own, or its job's. */
  function CallsOf(ctx: Context, idx: EventIndex, ref: Ref): seq<CallId> {
    var found := Resolve(ctx, ref, {ToolCallRef, OrderWorkRef});
    if found.None? || found.value.call.None? then []
    else if found.value.kind.OrderWorkRef? then ChildrenOf(idx.calls, found.value.call.value)
    else [found.value.call.value]
  }

  // ---- The first pass: what the output selects ---------------------------------------------

  /** `owner`: the decision that names the call; None for a cancellation rationale. */
  datatype Selection = Selection(owner: Option<nat>, call: CallId)

  function Owned(owner: nat, calls: seq<CallId>): seq<Selection> {
    if calls == [] then []
    else Owned(owner, calls[..|calls| - 1]) + [Selection(Some(owner), calls[|calls| - 1])]
  }

  function OfRefs(ctx: Context, idx: EventIndex, owner: nat, refs: seq<Ref>): seq<Selection> {
    if refs == [] then []
    else OfRefs(ctx, idx, owner, refs[..|refs| - 1]) + Owned(owner, CallsOf(ctx, idx, refs[|refs| - 1]))
  }

  function OfPlans(ctx: Context, idx: EventIndex, plans: seq<Plan>): seq<Selection> {
    if plans == [] then []
    else
      var n := |plans| - 1;
      OfPlans(ctx, idx, plans[..n]) + OfRefs(ctx, idx, n, plans[n].executionRefs)
  }

  function OfRationales(ctx: Context, refs: seq<Ref>): seq<Selection> {
    if refs == [] then []
    else OfRationales(ctx, refs[..|refs| - 1]) + OfRationale(ctx, refs[|refs| - 1])
  }

  function OfRationale(ctx: Context, ref: Ref): seq<Selection> {
    var found := Resolve(ctx, ref, {ToolCallRef});
    if found.Some? && found.value.call.Some? then [Selection(None, found.value.call.value)] else []
  }

  /** Everything the output selects, in its order. */
  function Selections(ctx: Context, idx: EventIndex, plans: seq<Plan>, rationales: seq<Ref>): seq<Selection> {
    OfPlans(ctx, idx, plans) + OfRationales(ctx, rationales)
  }

  /** How often the call is selected. */
  function Claims(selections: seq<Selection>, call: CallId): nat {
    if selections == [] then 0
    else Claims(selections[..|selections| - 1], call)
         + if selections[|selections| - 1].call == call then 1 else 0
  }

  // ---- The rule ----------------------------------------------------------------------------

  function PlaceOf(places: seq<PlaceAction>, call: CallId): Option<PlaceAction> {
    if places == [] then None
    else
      var earlier := PlaceOf(places[..|places| - 1], call);
      if earlier.Some? then earlier
      else if places[|places| - 1].callId == call then Some(places[|places| - 1]) else None
  }

  /** Whether the two contracts are the same, by instrument when both have one, else by
      symbol; None when they cannot be compared. */
  function SameContract(subject: DeliveredRef, intent: Intent): Option<bool> {
    if subject.instrument.Some? && intent.instrument.Some? then Some(subject.instrument == intent.instrument)
    else if subject.occ.Some? && intent.occ.Some? then Some(subject.occ == intent.occ)
    else None
  }

  /** `_bind_place`: the place's recorded side is a leg of the decision, and its contract is
      provably the leg's. */
  predicate Fits(plan: Plan, action: PlaceAction, role: Role) {
    && action.order.Some? && action.order.value.intent.Some?
    && action.order.value.intent.value.role == Some(role)
    && role in plan.Roles()
    && plan.Subject(role).Some?
    && SameContract(plan.Subject(role).value, action.order.value.intent.value) == Some(true)
  }

  /** The place call is selected exactly once in the whole output. */
  predicate OnlySelection(selections: seq<Selection>, i: nat) {
    i < |selections| && forall k :: 0 <= k < |selections| && k != i ==> selections[k].call != selections[i].call
  }

  /** The association rule: the one selection that names the place call is this decision's,
      and the call's side, role, and contract fit that leg. */
  predicate Associated(selections: seq<Selection>, idx: EventIndex, plans: seq<Plan>, p: nat, role: Role, call: CallId) {
    && p < |plans|
    && (exists i :: 0 <= i < |selections| && selections[i] == Selection(Some(p), call) && OnlySelection(selections, i))
    && ToolOf(idx, call) == Some(PlaceTool)
    && PlaceOf(idx.places, call).Some?
    && Fits(plans[p], PlaceOf(idx.places, call).value, role)
  }

  /** The selection rule of a cancel call. */
  predicate SelectedCancel(selections: seq<Selection>, idx: EventIndex, call: CallId) {
    && (exists i :: 0 <= i < |selections| && selections[i].call == call && OnlySelection(selections, i))
    && ToolOf(idx, call) == Some(CancelTool)
  }

  lemma {:induction false} ClaimsOnce(selections: seq<Selection>, i: nat)
    requires i < |selections|
    ensures Claims(selections, selections[i].call) == 1 <==> OnlySelection(selections, i)
    ensures Claims(selections, selections[i].call) >= 1
  {
    var n := |selections| - 1;
    ClaimsNone(selections[..n], selections[i].call);
    if i < n { ClaimsOnce(selections[..n], i); }
  }

  lemma {:induction false} ClaimsNone(selections: seq<Selection>, call: CallId)
    ensures Claims(selections, call) == 0 <==> forall k :: 0 <= k < |selections| ==> selections[k].call != call
  {
    if selections != [] { ClaimsNone(selections[..|selections| - 1], call); }
  }

  // ---- The second pass -----------------------------------------------------------------------

  /** `plan.attempts`: the place calls bound to each leg of one decision. */
  datatype Attempts = Attempts(close: seq<CallId>, open: seq<CallId>) {
    function At(role: Role): seq<CallId> { if role.CloseRole? then close else open }

    function With(role: Role, call: CallId): Attempts {
      if role.CloseRole? then this.(close := close + [call]) else this.(open := open + [call])
    }
  }

  /** Every attempt of every leg. */
  function AllAttempts(attempts: seq<Attempts>): seq<CallId> {
    if attempts == [] then []
    else AllAttempts(attempts[..|attempts| - 1]) + attempts[|attempts| - 1].close + attempts[|attempts| - 1].open
  }

  lemma {:induction false} AttemptAdded(attempts: seq<Attempts>, p: nat, role: Role, call: CallId)
    requires p < |attempts|
    ensures multiset(AllAttempts(attempts[p := attempts[p].With(role, call)]))
            == multiset(AllAttempts(attempts)) + multiset{call}
  {
    var n := |attempts| - 1;
    var after := attempts[p := attempts[p].With(role, call)];
    if p < n {
      assert after[..n] == attempts[..n][p := attempts[p].With(role, call)];
      AttemptAdded(attempts[..n], p, role, call);
      MoreBefore(AllAttempts(attempts[..n]), AllAttempts(after[..n]), attempts[n], call);
    } else {
      assert after[..n] == attempts[..n];
      LegsAdded(AllAttempts(attempts[..n]), attempts[n], role, call);
    }
  }

  lemma MoreBefore(before: seq<CallId>, more: seq<CallId>, legs: Attempts, call: CallId)
    requires multiset(more) == multiset(before) + multiset{call}
    ensures multiset(more + legs.close + legs.open) == multiset(before + legs.close + legs.open) + multiset{call}
  { }

  lemma LegsAdded(before: seq<CallId>, legs: Attempts, role: Role, call: CallId)
    ensures var more := legs.With(role, call);
            multiset(before + more.close + more.open) == multiset(before + legs.close + legs.open) + multiset{call}
  { }

  lemma {:induction false} AttemptListed(attempts: seq<Attempts>, p: nat, role: Role, call: CallId)
    requires p < |attempts| && call in attempts[p].At(role)
    ensures call in AllAttempts(attempts)
  {
    var n := |attempts| - 1;
    if p < n { AttemptListed(attempts[..n], p, role, call); }
  }

  lemma {:induction false} NotListed(attempts: seq<Attempts>, call: CallId)
    requires forall p, role :: 0 <= p < |attempts| ==> call !in attempts[p].At(role)
    ensures call !in AllAttempts(attempts)
  {
    if attempts != [] {
      var n := |attempts| - 1;
      assert call !in attempts[n].At(CloseRole) && call !in attempts[n].At(OpenRole);
      NotListed(attempts[..n], call);
    }
  }

  lemma {:induction false} NoneListed(attempts: seq<Attempts>)
    requires forall p :: 0 <= p < |attempts| ==> attempts[p] == Attempts([], [])
    ensures AllAttempts(attempts) == []
  {
    if attempts != [] { NoneListed(attempts[..|attempts| - 1]); }
  }

  /** Which leg the selection binds its place call to, if any. */
  function Binds(selections: seq<Selection>, idx: EventIndex, plans: seq<Plan>, s: Selection): Option<Role> {
    if s.owner.None? || s.owner.value >= |plans| || Claims(selections, s.call) != 1
       || ToolOf(idx, s.call) != Some(PlaceTool) || PlaceOf(idx.places, s.call).None?
    then None
    else
      var plan, action := plans[s.owner.value], PlaceOf(idx.places, s.call).value;
      if Fits(plan, action, CloseRole) then Some(CloseRole)
      else if Fits(plan, action, OpenRole) then Some(OpenRole) else None
  }

  /** The first k selections bind the call to this leg. */
  ghost predicate BoundBy(selections: seq<Selection>, idx: EventIndex, plans: seq<Plan>, k: nat,
                          p: nat, role: Role, call: CallId)
    requires k <= |selections|
  {
    exists i :: 0 <= i < k && selections[i] == Selection(Some(p), call)
                && Binds(selections, idx, plans, selections[i]) == Some(role)
  }

  /** Binding is the association rule. */
  lemma BoundIsAssociated(selections: seq<Selection>, idx: EventIndex, plans: seq<Plan>, p: nat, role: Role, call: CallId)
    ensures BoundBy(selections, idx, plans, |selections|, p, role, call)
            <==> Associated(selections, idx, plans, p, role, call)
  {
    forall i | 0 <= i < |selections| && selections[i] == Selection(Some(p), call)
      ensures Claims(selections, call) == 1 <==> OnlySelection(selections, i)
    {
      ClaimsOnce(selections, i);
    }
  }

  lemma BoundByNext(selections: seq<Selection>, idx: EventIndex, plans: seq<Plan>, k: nat,
                    p: nat, role: Role, call: CallId)
    requires k < |selections|
    ensures BoundBy(selections, idx, plans, k + 1, p, role, call) <==>
            || BoundBy(selections, idx, plans, k, p, role, call)
            || (selections[k] == Selection(Some(p), call) && Binds(selections, idx, plans, selections[k]) == Some(role))
  { }

  /** After the first k selections, each leg has exactly the calls they bind to it. */
  ghost predicate AttemptsAre(selections: seq<Selection>, idx: EventIndex, plans: seq<Plan>, k: nat, attempts: seq<Attempts>)
    requires k <= |selections|
  {
    && |attempts| == |plans|
    && forall p, role, call :: 0 <= p < |plans| ==>
         (call in attempts[p].At(role) <==> BoundBy(selections, idx, plans, k, p, role, call))
  }

  ghost predicate NoRepeats(calls: seq<CallId>) {
    forall call :: multiset(calls)[call] <= 1
  }

  ghost predicate CancelsAre(selections: seq<Selection>, idx: EventIndex, k: nat, cancels: set<CallId>)
    requires k <= |selections|
  {
    forall call :: call in cancels <==>
      exists i :: 0 <= i < k && selections[i].call == call && Claims(selections, call) == 1
                  && ToolOf(idx, call) == Some(CancelTool)
  }

  /** A call that is selected once is bound at most once. */
  lemma NotYetBound(selections: seq<Selection>, idx: EventIndex, plans: seq<Plan>, k: nat, attempts: seq<Attempts>)
    requires k < |selections| && AttemptsAre(selections, idx, plans, k, attempts)
    requires Claims(selections, selections[k].call) == 1
    ensures selections[k].call !in AllAttempts(attempts)
  {
    var call := selections[k].call;
    ClaimsOnce(selections, k);
    forall p, role | 0 <= p < |attempts| ensures call !in attempts[p].At(role) {
      assert !BoundBy(selections, idx, plans, k, p, role, call);
    }
    NotListed(attempts, call);
  }

  lemma BindingKeeps(selections: seq<Selection>, idx: EventIndex, plans: seq<Plan>, k: nat,
                     attempts: seq<Attempts>, role: Role)
    requires k < |selections| && AttemptsAre(selections, idx, plans, k, attempts)
    requires Binds(selections, idx, plans, selections[k]) == Some(role)
    ensures var p := selections[k].owner.value;
            AttemptsAre(selections, idx, plans, k + 1, attempts[p := attempts[p].With(role, selections[k].call)])
  {
    var p, call := selections[k].owner.value, selections[k].call;
    var after := attempts[p := attempts[p].With(role, call)];
    forall q, r, c | 0 <= q < |plans|
      ensures c in after[q].At(r) <==> BoundBy(selections, idx, plans, k + 1, q, r, c)
    {
      BoundByNext(selections, idx, plans, k, q, r, c);
      assert c in after[q].At(r) <==> c in attempts[q].At(r) || (q == p && r == role && c == call);
    }
  }

  lemma SkippingKeeps(selections: seq<Selection>, idx: EventIndex, plans: seq<Plan>, k: nat, attempts: seq<Attempts>)
    requires k < |selections| && AttemptsAre(selections, idx, plans, k, attempts)
    requires Binds(selections, idx, plans, selections[k]).None?
    ensures AttemptsAre(selections, idx, plans, k + 1, attempts)
  {
    forall q, r, c | 0 <= q < |plans|
      ensures c in attempts[q].At(r) <==> BoundBy(selections, idx, plans, k + 1, q, r, c)
    {
      BoundByNext(selections, idx, plans, k, q, r, c);
    }
  }

  method Bind(selections: seq<Selection>, idx: EventIndex, plans: seq<Plan>, k: nat, attempts: seq<Attempts>)
    returns (after: seq<Attempts>)
    requires k < |selections| && AttemptsAre(selections, idx, plans, k, attempts) && NoRepeats(AllAttempts(attempts))
    ensures AttemptsAre(selections, idx, plans, k + 1, after) && NoRepeats(AllAttempts(after))
  {
    var role := Binds(selections, idx, plans, selections[k]);
    if role.Some? {
      var p, call := selections[k].owner.value, selections[k].call;
      NotYetBound(selections, idx, plans, k, attempts);
      AttemptAdded(attempts, p, role.value, call);
      BindingKeeps(selections, idx, plans, k, attempts, role.value);
      after := attempts[p := attempts[p].With(role.value, call)];
    } else {
      SkippingKeeps(selections, idx, plans, k, attempts);
      after := attempts;
    }
  }

  method SelectCancel(selections: seq<Selection>, idx: EventIndex, k: nat, cancels: set<CallId>) returns (after: set<CallId>)
    requires k < |selections| && CancelsAre(selections, idx, k, cancels)
    ensures CancelsAre(selections, idx, k + 1, after)
  {
    var call := selections[k].call;
    after := if Claims(selections, call) == 1 && ToolOf(idx, call) == Some(CancelTool) then cancels + {call} else cancels;
    forall c
      ensures (exists i :: 0 <= i < k + 1 && selections[i].call == c && Claims(selections, c) == 1
                           && ToolOf(idx, c) == Some(CancelTool))
              <==> c in cancels || (c == call && Claims(selections, c) == 1 && ToolOf(idx, c) == Some(CancelTool))
    { }
  }

  /** `associate`: the attempts bound to every leg are exactly the associated place calls, each
      once, and the selected cancels are exactly the ones the rule selects. */
  method Associate(ctx: Context, idx: EventIndex, plans: seq<Plan>, rationales: seq<Ref>)
    returns (attempts: seq<Attempts>, cancels: set<CallId>)
    ensures var selections := Selections(ctx, idx, plans, rationales);
            && |attempts| == |plans|
            && (forall p, role, call :: 0 <= p < |plans| ==>
                  (call in attempts[p].At(role) <==> Associated(selections, idx, plans, p, role, call)))
            && (forall call :: call in cancels <==> SelectedCancel(selections, idx, call))
    ensures NoRepeats(AllAttempts(attempts))
    ensures Complete(idx) ==>
              forall p, role, call :: 0 <= p < |plans| ==>
                (call in attempts[p].At(role) <==> Belongs(Given(ctx, idx, plans, rationales), p, role, call))
  {
    var selections := CollectSelections(ctx, idx, plans, rationales);
    attempts, cancels := seq(|plans|, _ => Attempts([], [])), {};
    NoneListed(attempts);
    for k := 0 to |selections|
      invariant AttemptsAre(selections, idx, plans, k, attempts) && NoRepeats(AllAttempts(attempts))
      invariant CancelsAre(selections, idx, k, cancels)
    {
      attempts := Bind(selections, idx, plans, k, attempts);
      cancels := SelectCancel(selections, idx, k, cancels);
    }
    forall p, role, call | 0 <= p < |plans|
      ensures call in attempts[p].At(role) <==> Associated(selections, idx, plans, p, role, call)
    {
      BoundIsAssociated(selections, idx, plans, p, role, call);
    }
    CancelsAreSelected(selections, idx, cancels);
    if Complete(idx) { AssociatedBelong(Given(ctx, idx, plans, rationales), attempts); }
  }

  lemma CancelsAreSelected(selections: seq<Selection>, idx: EventIndex, cancels: set<CallId>)
    requires CancelsAre(selections, idx, |selections|, cancels)
    ensures forall call :: call in cancels <==> SelectedCancel(selections, idx, call)
  {
    forall i | 0 <= i < |selections|
      ensures Claims(selections, selections[i].call) == 1 <==> OnlySelection(selections, i)
    {
      ClaimsOnce(selections, i);
    }
  }

  /** The first pass: every plan's references, then the rationales. */
  method CollectSelections(ctx: Context, idx: EventIndex, plans: seq<Plan>, rationales: seq<Ref>)
    returns (selections: seq<Selection>)
    ensures selections == Selections(ctx, idx, plans, rationales)
  {
    selections := [];
    for n := 0 to |plans|
      invariant selections == OfPlans(ctx, idx, plans[..n])
    {
      assert plans[..n + 1][..n] == plans[..n];
      selections := AddRefs(selections, ctx, idx, n, plans[n].executionRefs);
    }
    assert plans[..|plans|] == plans;
    selections := AddRationales(selections, ctx, rationales);
  }

  lemma OfRefsNext(ctx: Context, idx: EventIndex, owner: nat, refs: seq<Ref>, m: nat)
    requires m < |refs|
    ensures OfRefs(ctx, idx, owner, refs[..m + 1])
            == OfRefs(ctx, idx, owner, refs[..m]) + Owned(owner, CallsOf(ctx, idx, refs[m]))
  {
    assert refs[..m + 1][..m] == refs[..m];
  }

  lemma Joined(a: seq<Selection>, b: seq<Selection>, c: seq<Selection>)
    ensures a + b + c == a + (b + c)
  { }

  method AddRefs(selections: seq<Selection>, ctx: Context, idx: EventIndex, owner: nat, refs: seq<Ref>)
    returns (after: seq<Selection>)
    ensures after == selections + OfRefs(ctx, idx, owner, refs)
  {
    after := selections;
    for m := 0 to |refs|
      invariant after == selections + OfRefs(ctx, idx, owner, refs[..m])
    {
      var calls := CallsOf(ctx, idx, refs[m]);
      OfRefsNext(ctx, idx, owner, refs, m);
      Joined(selections, OfRefs(ctx, idx, owner, refs[..m]), Owned(owner, calls));
      after := AddCalls(after, owner, calls);
    }
    assert refs[..|refs|] == refs;
  }

  method AddRationales(selections: seq<Selection>, ctx: Context, rationales: seq<Ref>) returns (after: seq<Selection>)
    ensures after == selections + OfRationales(ctx, rationales)
  {
    after := selections;
    for m := 0 to |rationales|
      invariant after == selections + OfRationales(ctx, rationales[..m])
    {
      assert rationales[..m + 1][..m] == rationales[..m];
      var found := Resolve(ctx, rationales[m], {ToolCallRef});
      if found.Some? && found.value.call.Some? {
        after := after + [Selection(None, found.value.call.value)];
      }
    }
    assert rationales[..|rationales|] == rationales;
  }

  method AddCalls(selections: seq<Selection>, owner: nat, calls: seq<CallId>) returns (after: seq<Selection>)
    ensures after == selections + Owned(owner, calls)
  {
    after := selections;
    for k := 0 to |calls|
      invariant after == selections + Owned(owner, calls[..k])
    {
      assert calls[..k + 1][..k] == calls[..k];
      after := after + [Selection(Some(owner), calls[k])];
    }
    assert calls[..|calls|] == calls;
  }

  // ---- The order of the selections does not matter ---------------------------------------------

  lemma {:induction false} ClaimsWithout(selections: seq<Selection>, i: nat, call: CallId)
    requires i < |selections|
    ensures Claims(selections, call)
            == Claims(selections[..i] + selections[i + 1..], call) + if selections[i].call == call then 1 else 0
  {
    var n := |selections| - 1;
    if i < n {
      ClaimsWithout(selections[..n], i, call);
      var rest := selections[..i] + selections[i + 1..];
      assert rest[..n - 1] == selections[..n][..i] + selections[..n][i + 1..];
      assert rest[n - 1] == selections[n];
    } else {
      assert selections[..i] + selections[i + 1..] == selections[..n];
    }
  }

  lemma {:induction false} ClaimsIgnoreOrder(a: seq<Selection>, b: seq<Selection>, call: CallId)
    requires multiset(a) == multiset(b)
    ensures Claims(a, call) == Claims(b, call)
  {
    if a == [] {
      assert multiset(b) == multiset{};
      assert |b| == |multiset(b)|;
    } else {
      var n := |a| - 1;
      WithoutLast(a);
      assert a[n] in multiset(b);
      var j :| 0 <= j < |b| && b[j] == a[n];
      WithoutAt(b, j);
      ClaimsWithout(b, j, call);
      ClaimsIgnoreOrder(a[..n], b[..j] + b[j + 1..], call);
    }
  }

  lemma OnlyInAnyOrder(a: seq<Selection>, b: seq<Selection>, i: nat) returns (j: nat)
    requires multiset(a) == multiset(b) && OnlySelection(a, i)
    ensures j < |b| && b[j] == a[i] && OnlySelection(b, j)
  {
    assert a[i] in multiset(b);
    j :| 0 <= j < |b| && b[j] == a[i];
    ClaimsIgnoreOrder(a, b, a[i].call);
    ClaimsOnce(a, i);
    ClaimsOnce(b, j);
  }

  /** Selecting the same calls in another order associates the same calls. */
  lemma AssociationIgnoresOrder(a: seq<Selection>, b: seq<Selection>, idx: EventIndex, plans: seq<Plan>)
    requires multiset(a) == multiset(b)
    ensures forall p, role, call :: Associated(a, idx, plans, p, role, call) <==> Associated(b, idx, plans, p, role, call)
    ensures forall call :: SelectedCancel(a, idx, call) <==> SelectedCancel(b, idx, call)
  {
    forall s ensures SelectedOnce(a, s) <==> SelectedOnce(b, s) {
      if SelectedOnce(a, s) {
        var i :| 0 <= i < |a| && a[i] == s && OnlySelection(a, i);
        var j := OnlyInAnyOrder(a, b, i);
      }
      if SelectedOnce(b, s) {
        var i :| 0 <= i < |b| && b[i] == s && OnlySelection(b, i);
        var j := OnlyInAnyOrder(b, a, i);
      }
    }
    forall p, role, call
      ensures Associated(a, idx, plans, p, role, call) <==> Associated(b, idx, plans, p, role, call)
    {
      assert SelectedOnce(a, Selection(Some(p), call)) <==> SelectedOnce(b, Selection(Some(p), call));
    }
    forall call ensures SelectedCancel(a, idx, call) <==> SelectedCancel(b, idx, call) {
      SelectedCancelOnce(a, idx, call);
      SelectedCancelOnce(b, idx, call);
    }
  }

  ghost predicate SelectedOnce(selections: seq<Selection>, s: Selection) {
    exists i :: 0 <= i < |selections| && selections[i] == s && OnlySelection(selections, i)
  }

  lemma SelectedCancelOnce(selections: seq<Selection>, idx: EventIndex, call: CallId)
    ensures SelectedCancel(selections, idx, call) <==>
            (exists s: Selection :: s.call == call && SelectedOnce(selections, s)) && ToolOf(idx, call) == Some(CancelTool)
  {
    if SelectedCancel(selections, idx, call) {
      var i :| 0 <= i < |selections| && selections[i].call == call && OnlySelection(selections, i);
      assert SelectedOnce(selections, selections[i]);
    }
  }

  // ---- Every action appears exactly once --------------------------------------------------------

  datatype Record = Record(
    attempts: seq<Attempts>, unassociatedPlaces: seq<PlaceAction>,
    cancellations: seq<Cancellation>, unassociatedCancels: seq<Cancellation>)

  function Unowned(places: seq<PlaceAction>, owned: set<CallId>): seq<PlaceAction> {
    if places == [] then []
    else Unowned(places[..|places| - 1], owned)
         + if places[|places| - 1].callId in owned then [] else [places[|places| - 1]]
  }

  lemma {:induction false} PlaceIdsAppend(places: seq<PlaceAction>, place: PlaceAction)
    ensures PlaceIds(places + [place]) == PlaceIds(places) + [place.callId]
  {
    assert (places + [place])[..|places|] == places;
  }

  lemma CountAppend(ids: seq<CallId>, id: CallId, call: CallId)
    ensures multiset(ids + [id])[call] == multiset(ids)[call] + if id == call then 1 else 0
  { }

  lemma {:induction false} UnownedCount(places: seq<PlaceAction>, owned: set<CallId>, call: CallId)
    ensures multiset(PlaceIds(Unowned(places, owned)))[call] == if call in owned then 0 else multiset(PlaceIds(places))[call]
  {
    if places != [] {
      var n := |places| - 1;
      var rest, id := Unowned(places[..n], owned), places[n].callId;
      UnownedCount(places[..n], owned, call);
      CountAppend(PlaceIds(places[..n]), id, call);
      PlaceIdsAppend(rest, places[n]);
      CountAppend(PlaceIds(rest), id, call);
      assert Unowned(places, owned) == if id in owned then rest else rest + [places[n]];
    }
  }

  /** The places no decision owns. */
  method LeftPlaces(places: seq<PlaceAction>, owned: set<CallId>) returns (left: seq<PlaceAction>)
    ensures left == Unowned(places, owned)
  {
    left := [];
    for k := 0 to |places|
      invariant left == Unowned(places[..k], owned)
    {
      assert places[..k + 1][..k] == places[..k];
      if places[k].callId !in owned {
        left := left + [places[k]];
      }
    }
    assert places[..|places|] == places;
  }

  predicate Kept(c: Cancellation, placeOfCancel: map<CallId, CallId>, selected: set<CallId>, owned: set<CallId>) {
    c.callId in selected || (c.callId in placeOfCancel && placeOfCancel[c.callId] in owned)
  }

  /** The cancels a decision owns, by selection or through the order they cancel, and the rest. */
  method SplitCancels(cancellations: seq<Cancellation>, placeOfCancel: map<CallId, CallId>,
                      selected: set<CallId>, owned: set<CallId>)
    returns (kept: seq<Cancellation>, left: seq<Cancellation>)
    ensures multiset(kept) + multiset(left) == multiset(cancellations)
    ensures forall c :: c in kept ==> Kept(c, placeOfCancel, selected, owned)
    ensures forall c :: c in left ==> !Kept(c, placeOfCancel, selected, owned)
  {
    kept, left := [], [];
    for k := 0 to |cancellations|
      invariant multiset(kept) + multiset(left) == multiset(cancellations[..k])
      invariant forall c :: c in kept ==> Kept(c, placeOfCancel, selected, owned)
      invariant forall c :: c in left ==> !Kept(c, placeOfCancel, selected, owned)
    {
      assert cancellations[..k + 1] == cancellations[..k] + [cancellations[k]];
      if Kept(cancellations[k], placeOfCancel, selected, owned) {
        kept := kept + [cancellations[k]];
      } else {
        left := left + [cancellations[k]];
      }
    }
    assert cancellations[..|cancellations|] == cancellations;
  }

  lemma {:induction false} PlaceOfListed(places: seq<PlaceAction>, call: CallId)
    ensures PlaceOf(places, call).Some? <==> call in PlaceIds(places)
  {
    if places != [] { PlaceOfListed(places[..|places| - 1], call); }
  }

  lemma {:induction false} IdsOfListed(calls: seq<ToolCall>, tool: Tool, id: CallId)
    requires forall i :: 0 <= i < |calls| ==> calls[i].id != id
    ensures id !in IdsOf(calls, tool)
  {
    if calls != [] { IdsOfListed(calls[..|calls| - 1], tool, id); }
  }

  lemma {:induction false} IdsOfOnce(calls: seq<ToolCall>, tool: Tool)
    requires DistinctCalls(calls)
    ensures NoRepeats(IdsOf(calls, tool))
  {
    if calls != [] {
      var n := |calls| - 1;
      IdsOfOnce(calls[..n], tool);
      IdsOfListed(calls[..n], tool, calls[n].id);
    }
  }

  // ---- The rule, from the recorded fields --------------------------------------------------------

  /** What the assembly is given. */
  datatype Given = Given(ctx: Context, idx: EventIndex, plans: seq<Plan>, rationales: seq<Ref>)

  /** The reference was issued and delivered, in this run's and this account's scope. */
  predicate Usable(ctx: Context, ref: Ref) {
    && ref in ctx.refs && ctx.refs[ref].delivered
    && ctx.refs[ref].run in {None, Some(ctx.run)} && ctx.refs[ref].account in {None, Some(ctx.account)}
  }

  /** The call is a recorded place or cancel of that order-work call's job. */
  predicate MadeBy(calls: seq<ToolCall>, call: CallId, work: CallId) {
    exists c :: c in calls && c.id == call && c.parent == Some(work) && c.tool in {PlaceTool, CancelTool}
  }

  /** An execution reference names its own call, or every call of its job. */
  predicate Names(g: Given, ref: Ref, call: CallId) {
    && Usable(g.ctx, ref) && g.ctx.refs[ref].call.Some?
    && ((g.ctx.refs[ref].kind == ToolCallRef && g.ctx.refs[ref].call == Some(call))
        || (g.ctx.refs[ref].kind == OrderWorkRef && MadeBy(g.idx.calls, call, g.ctx.refs[ref].call.value)))
  }

  /** A place in the output that may name a call. */
  datatype Mention = InPlan(p: nat, m: nat) | InRationales(m: nat)

  predicate Mentions(g: Given, at: Mention, call: CallId) {
    match at
    case InPlan(p, m) => p < |g.plans| && m < |g.plans[p].executionRefs| && Names(g, g.plans[p].executionRefs[m], call)
    case InRationales(m) =>
      && m < |g.rationales| && Usable(g.ctx, g.rationales[m])
      && g.ctx.refs[g.rationales[m]].kind == ToolCallRef && g.ctx.refs[g.rationales[m]].call == Some(call)
  }

  /** The only place in the whole output that names the call. */
  ghost predicate OnlyMention(g: Given, at: Mention, call: CallId) {
    Mentions(g, at, call) && forall other :: Mentions(g, other, call) ==> other == at
  }

  /** The same contract, by instrument when both sides have one, else by symbol. */
  predicate ContractIs(subject: DeliveredRef, intent: Intent) {
    || (subject.instrument.Some? && subject.instrument == intent.instrument)
    || ((subject.instrument.None? || intent.instrument.None?) && subject.occ.Some? && subject.occ == intent.occ)
  }

  /** The recorded side and contract are those of a leg of the decision: an open sells its target, a
      close buys its target back, and a roll buys its target back and sells its replacement. */
  predicate LegIs(plan: Plan, role: Role, intent: Intent) {
    && intent.role == Some(role) && plan.target.Some?
    && match plan.action
       case OpenCsp => role == OpenRole && ContractIs(plan.target.value, intent)
       case OpenCc => role == OpenRole && ContractIs(plan.target.value, intent)
       case Close => role == CloseRole && ContractIs(plan.target.value, intent)
       case Roll => if role == CloseRole then ContractIs(plan.target.value, intent)
                    else plan.replacement.Some? && ContractIs(plan.replacement.value, intent)
       case NoTrade => false
  }

  predicate Recorded(idx: EventIndex, call: CallId, tool: Tool) {
    exists c :: c in idx.calls && c.id == call && c.tool == tool
  }

  /** The recorded place call belongs to that leg of decision `p`: only that decision names it, once,
      in the whole output, and its recorded side and contract are the leg's. */
  ghost predicate Belongs(g: Given, p: nat, role: Role, call: CallId) {
    && p < |g.plans|
    && (exists m :: OnlyMention(g, InPlan(p, m), call))
    && Recorded(g.idx, call, PlaceTool)
    && exists place :: place in g.idx.places && place.callId == call && place.order.Some?
                       && place.order.value.intent.Some? && LegIs(g.plans[p], role, place.order.value.intent.value)
  }

  /** The output names the recorded cancel call, once. */
  ghost predicate NamesCancel(g: Given, call: CallId) {
    (exists at :: OnlyMention(g, at, call)) && Recorded(g.idx, call, CancelTool)
  }

  function OwnerOf(at: Mention): Option<nat> { if at.InPlan? then Some(at.p) else None }

  /** Each selection is the mention marked beside it, and every mention in the scope is marked. */
  ghost predicate Marked(g: Given, selections: seq<Selection>, marks: seq<Mention>, scope: set<Mention>) {
    |marks| == |selections| && MarksMention(g, selections, marks, scope) && MarksDiffer(selections, marks)
    && forall at, call :: at in scope && Mentions(g, at, call) ==> MarkedAt(selections, marks, at, call)
  }

  predicate MarksMention(g: Given, selections: seq<Selection>, marks: seq<Mention>, scope: set<Mention>)
    requires |marks| == |selections|
  {
    forall i :: 0 <= i < |marks| ==>
      marks[i] in scope && Mentions(g, marks[i], selections[i].call) && selections[i].owner == OwnerOf(marks[i])
  }

  predicate MarksDiffer(selections: seq<Selection>, marks: seq<Mention>)
    requires |marks| == |selections|
  {
    forall i, k :: 0 <= i < k < |marks| && marks[i] == marks[k] ==> selections[i].call != selections[k].call
  }

  predicate MarkedAt(selections: seq<Selection>, marks: seq<Mention>, at: Mention, call: CallId)
    requires |marks| == |selections|
  {
    exists i :: 0 <= i < |marks| && marks[i] == at && selections[i].call == call
  }

  lemma MarkedStays(a: seq<Selection>, ma: seq<Mention>, b: seq<Selection>, mb: seq<Mention>, at: Mention, call: CallId)
    requires |ma| == |a| && |mb| == |b|
    requires MarkedAt(a, ma, at, call) || MarkedAt(b, mb, at, call)
    ensures MarkedAt(a + b, ma + mb, at, call)
  {
    if MarkedAt(a, ma, at, call) {
      var i :| 0 <= i < |ma| && ma[i] == at && a[i].call == call;
      assert (ma + mb)[i] == at && (a + b)[i].call == call;
    } else {
      var i :| 0 <= i < |mb| && mb[i] == at && b[i].call == call;
      assert (ma + mb)[|ma| + i] == at && (a + b)[|ma| + i].call == call;
    }
  }

  lemma MentionTogether(g: Given, a: seq<Selection>, ma: seq<Mention>, sa: set<Mention>,
                        b: seq<Selection>, mb: seq<Mention>, sb: set<Mention>)
    requires |ma| == |a| && |mb| == |b| && MarksMention(g, a, ma, sa) && MarksMention(g, b, mb, sb)
    ensures MarksMention(g, a + b, ma + mb, sa + sb)
  { }

  lemma DifferTogether(g: Given, a: seq<Selection>, ma: seq<Mention>, sa: set<Mention>,
                       b: seq<Selection>, mb: seq<Mention>, sb: set<Mention>)
    requires |ma| == |a| && |mb| == |b| && MarksDiffer(a, ma) && MarksDiffer(b, mb) && sa !! sb
    requires MarksMention(g, a, ma, sa) && MarksMention(g, b, mb, sb)
    ensures MarksDiffer(a + b, ma + mb)
  {
    forall i | 0 <= i < |ma| + |mb| ensures if i < |ma| then (ma + mb)[i] in sa else (ma + mb)[i] in sb { }
  }

  lemma MarkedTogether(g: Given, a: seq<Selection>, ma: seq<Mention>, sa: set<Mention>,
                       b: seq<Selection>, mb: seq<Mention>, sb: set<Mention>)
    requires Marked(g, a, ma, sa) && Marked(g, b, mb, sb) && sa !! sb
    ensures Marked(g, a + b, ma + mb, sa + sb)
  {
    MentionTogether(g, a, ma, sa, b, mb, sb);
    DifferTogether(g, a, ma, sa, b, mb, sb);
    forall at, call | at in sa + sb && Mentions(g, at, call) ensures MarkedAt(a + b, ma + mb, at, call) {
      MarkedStays(a, ma, b, mb, at, call);
    }
  }

  lemma {:induction false} OwnedIs(owner: nat, calls: seq<CallId>)
    ensures |Owned(owner, calls)| == |calls|
    ensures forall i :: 0 <= i < |calls| ==> Owned(owner, calls)[i] == Selection(Some(owner), calls[i])
  {
    if calls != [] { OwnedIs(owner, calls[..|calls| - 1]); }
  }

  lemma {:induction false} ChildrenAre(calls: seq<ToolCall>, work: CallId)
    requires DistinctCalls(calls)
    ensures forall call :: call in ChildrenOf(calls, work) <==> MadeBy(calls, call, work)
    ensures forall i, k :: 0 <= i < k < |ChildrenOf(calls, work)| ==> ChildrenOf(calls, work)[i] != ChildrenOf(calls, work)[k]
  {
    if calls != [] {
      var n := |calls| - 1;
      ChildrenAre(calls[..n], work);
      forall c ensures c in calls <==> c in calls[..n] || c == calls[n] { }
      forall call ensures MadeBy(calls, call, work) <==>
                          || MadeBy(calls[..n], call, work)
                          || (calls[n].id == call && calls[n].parent == Some(work) && calls[n].tool in {PlaceTool, CancelTool})
      { }
      forall i | 0 <= i < |ChildrenOf(calls[..n], work)| ensures ChildrenOf(calls[..n], work)[i] != calls[n].id {
        assert ChildrenOf(calls[..n], work)[i] in ChildrenOf(calls[..n], work);
        var c :| c in calls[..n] && c.id == ChildrenOf(calls[..n], work)[i];
      }
    }
  }

  lemma ResolvedExactlyWhen(ctx: Context, ref: Ref, kinds: set<RefKind>)
    ensures Resolve(ctx, ref, kinds)
            == if Usable(ctx, ref) && ctx.refs[ref].kind in kinds then Some(ctx.refs[ref]) else None
  { }

  lemma CallsAreNamed(g: Given, ref: Ref)
    requires DistinctCalls(g.idx.calls)
    ensures var calls := CallsOf(g.ctx, g.idx, ref);
            && (forall call :: call in calls <==> Names(g, ref, call))
            && forall i, k :: 0 <= i < k < |calls| ==> calls[i] != calls[k]
  {
    ResolvedExactlyWhen(g.ctx, ref, {ToolCallRef, OrderWorkRef});
    if Usable(g.ctx, ref) && g.ctx.refs[ref].call.Some? { ChildrenAre(g.idx.calls, g.ctx.refs[ref].call.value); }
  }

  lemma RefIsMarked(g: Given, p: nat, m: nat) returns (marks: seq<Mention>)
    requires DistinctCalls(g.idx.calls) && p < |g.plans| && m < |g.plans[p].executionRefs|
    ensures Marked(g, Owned(p, CallsOf(g.ctx, g.idx, g.plans[p].executionRefs[m])), marks, {InPlan(p, m)})
  {
    var calls := CallsOf(g.ctx, g.idx, g.plans[p].executionRefs[m]);
    CallsAreNamed(g, g.plans[p].executionRefs[m]);
    OwnedIs(p, calls);
    marks := seq(|calls|, _ => InPlan(p, m));
    forall call | Mentions(g, InPlan(p, m), call) ensures MarkedAt(Owned(p, calls), marks, InPlan(p, m), call) {
      assert call in calls;
      var i :| 0 <= i < |calls| && calls[i] == call;
      assert marks[i] == InPlan(p, m) && Owned(p, calls)[i].call == call;
    }
  }

  function RefScope(p: nat, k: nat): set<Mention> { set m | 0 <= m < k :: InPlan(p, m) }

  function PlanScope(plans: seq<Plan>, n: nat): set<Mention>
    requires n <= |plans|
  {
    if n == 0 then {} else PlanScope(plans, n - 1) + RefScope(n - 1, |plans[n - 1].executionRefs|)
  }

  function RationaleScope(k: nat): set<Mention> { set m | 0 <= m < k :: InRationales(m) }

  lemma {:induction false} RefsAreMarked(g: Given, p: nat, k: nat) returns (marks: seq<Mention>)
    requires DistinctCalls(g.idx.calls) && p < |g.plans| && k <= |g.plans[p].executionRefs|
    ensures Marked(g, OfRefs(g.ctx, g.idx, p, g.plans[p].executionRefs[..k]), marks, RefScope(p, k))
  {
    if k == 0 {
      marks := [];
    } else {
      var before := RefsAreMarked(g, p, k - 1);
      marks := NextRefIsMarked(g, p, k - 1, before);
    }
  }

  lemma NextRefIsMarked(g: Given, p: nat, m: nat, before: seq<Mention>) returns (marks: seq<Mention>)
    requires DistinctCalls(g.idx.calls) && p < |g.plans| && m < |g.plans[p].executionRefs|
    requires Marked(g, OfRefs(g.ctx, g.idx, p, g.plans[p].executionRefs[..m]), before, RefScope(p, m))
    ensures Marked(g, OfRefs(g.ctx, g.idx, p, g.plans[p].executionRefs[..m + 1]), marks, RefScope(p, m + 1))
  {
    var refs := g.plans[p].executionRefs;
    var last := RefIsMarked(g, p, m);
    var a, b := OfRefs(g.ctx, g.idx, p, refs[..m]), Owned(p, CallsOf(g.ctx, g.idx, refs[m]));
    marks := before + last;
    OfRefsNext(g.ctx, g.idx, p, refs, m);
    assert InPlan(p, m) !in RefScope(p, m);
    assert RefScope(p, m + 1) == RefScope(p, m) + {InPlan(p, m)};
    MarkedTogether(g, a, before, RefScope(p, m), b, last, {InPlan(p, m)});
  }

  lemma {:induction false} PlanScopeIs(plans: seq<Plan>, n: nat)
    requires n <= |plans|
    ensures forall at :: at in PlanScope(plans, n) <==> at.InPlan? && at.p < n && at.m < |plans[at.p].executionRefs|
  {
    if n > 0 { PlanScopeIs(plans, n - 1); }
  }

  lemma {:induction false} PlansAreMarked(g: Given, n: nat) returns (marks: seq<Mention>)
    requires DistinctCalls(g.idx.calls) && n <= |g.plans|
    ensures Marked(g, OfPlans(g.ctx, g.idx, g.plans[..n]), marks, PlanScope(g.plans, n))
  {
    if n == 0 {
      marks := [];
    } else {
      var refs := g.plans[n - 1].executionRefs;
      var before := PlansAreMarked(g, n - 1);
      var last := RefsAreMarked(g, n - 1, |refs|);
      marks := before + last;
      assert g.plans[..n][..n - 1] == g.plans[..n - 1] && refs[..|refs|] == refs;
      PlanScopeIs(g.plans, n - 1);
      MarkedTogether(g, OfPlans(g.ctx, g.idx, g.plans[..n - 1]), before, PlanScope(g.plans, n - 1),
                     OfRefs(g.ctx, g.idx, n - 1, refs), last, RefScope(n - 1, |refs|));
    }
  }

  lemma RationaleIsMarked(g: Given, m: nat) returns (marks: seq<Mention>)
    requires m < |g.rationales|
    ensures Marked(g, OfRationale(g.ctx, g.rationales[m]), marks, {InRationales(m)})
  {
    ResolvedExactlyWhen(g.ctx, g.rationales[m], {ToolCallRef});
    var one := OfRationale(g.ctx, g.rationales[m]);
    marks := seq(|one|, _ => InRationales(m));
    forall call | Mentions(g, InRationales(m), call) ensures MarkedAt(one, marks, InRationales(m), call) {
      assert marks[0] == InRationales(m) && one[0].call == call;
    }
  }

  lemma {:induction false} RationalesAreMarked(g: Given, k: nat) returns (marks: seq<Mention>)
    requires k <= |g.rationales|
    ensures Marked(g, OfRationales(g.ctx, g.rationales[..k]), marks, RationaleScope(k))
  {
    if k == 0 {
      marks := [];
    } else {
      var before := RationalesAreMarked(g, k - 1);
      var last := RationaleIsMarked(g, k - 1);
      marks := before + last;
      assert g.rationales[..k][..k - 1] == g.rationales[..k - 1];
      MarkedTogether(g, OfRationales(g.ctx, g.rationales[..k - 1]), before, RationaleScope(k - 1),
                     OfRationale(g.ctx, g.rationales[k - 1]), last, {InRationales(k - 1)});
      assert RationaleScope(k) == RationaleScope(k - 1) + {InRationales(k - 1)};
    }
  }

  function SelectionsOf(g: Given): seq<Selection> { Selections(g.ctx, g.idx, g.plans, g.rationales) }

  function Scope(g: Given): set<Mention> { PlanScope(g.plans, |g.plans|) + RationaleScope(|g.rationales|) }

  lemma AllAreMarked(g: Given) returns (marks: seq<Mention>)
    requires DistinctCalls(g.idx.calls)
    ensures Marked(g, SelectionsOf(g), marks, Scope(g))
    ensures forall at, call :: Mentions(g, at, call) ==> at in Scope(g)
  {
    var a := PlansAreMarked(g, |g.plans|);
    var b := RationalesAreMarked(g, |g.rationales|);
    marks := a + b;
    assert g.plans[..|g.plans|] == g.plans && g.rationales[..|g.rationales|] == g.rationales;
    PlanScopeIs(g.plans, |g.plans|);
    MarkedTogether(g, OfPlans(g.ctx, g.idx, g.plans), a, PlanScope(g.plans, |g.plans|),
                   OfRationales(g.ctx, g.rationales), b, RationaleScope(|g.rationales|));
  }

  lemma OnlySelectedIsOnlyMentioned(g: Given, selections: seq<Selection>, marks: seq<Mention>, i: nat)
    requires Marked(g, selections, marks, Scope(g)) && i < |selections|
    requires forall at, call :: Mentions(g, at, call) ==> at in Scope(g)
    ensures OnlySelection(selections, i) <==> OnlyMention(g, marks[i], selections[i].call)
  {
    var call := selections[i].call;
    if OnlySelection(selections, i) {
      forall other | Mentions(g, other, call) ensures other == marks[i] {
        assert MarkedAt(selections, marks, other, call);
      }
    }
    if OnlyMention(g, marks[i], call) {
      forall k | 0 <= k < |selections| && k != i ensures selections[k].call != call {
        assert Mentions(g, marks[k], selections[k].call);
      }
    }
  }

  /** A call is the output's only selection of it, by that decision, exactly when it is mentioned
      once, there. */
  lemma SelectedIsMentioned(g: Given, p: nat, call: CallId)
    requires DistinctCalls(g.idx.calls)
    ensures (exists i :: 0 <= i < |SelectionsOf(g)| && SelectionsOf(g)[i] == Selection(Some(p), call)
                         && OnlySelection(SelectionsOf(g), i))
            <==> exists m :: OnlyMention(g, InPlan(p, m), call)
    ensures (exists i :: 0 <= i < |SelectionsOf(g)| && SelectionsOf(g)[i].call == call && OnlySelection(SelectionsOf(g), i))
            <==> exists at :: OnlyMention(g, at, call)
  {
    var marks := AllAreMarked(g);
    var selections := SelectionsOf(g);
    forall i | 0 <= i < |selections|
      ensures OnlySelection(selections, i) <==> OnlyMention(g, marks[i], selections[i].call)
    {
      OnlySelectedIsOnlyMentioned(g, selections, marks, i);
    }
    forall at | OnlyMention(g, at, call)
      ensures exists i :: 0 <= i < |selections| && marks[i] == at && selections[i].call == call && OnlySelection(selections, i)
    {
      assert MarkedAt(selections, marks, at, call);
    }
  }

  lemma {:induction false} ToolIsRecorded(calls: seq<ToolCall>, call: CallId, tool: Tool)
    requires DistinctCalls(calls)
    ensures ToolIn(calls, call) == Some(tool) <==> exists c :: c in calls && c.id == call && c.tool == tool
  {
    if calls != [] {
      var n := |calls| - 1;
      ToolIsRecorded(calls[..n], call, tool);
      forall c ensures c in calls <==> c in calls[..n] || c == calls[n] { }
    }
  }

  lemma {:induction false} PlaceOfIs(places: seq<PlaceAction>, call: CallId)
    ensures PlaceOf(places, call).Some? ==> PlaceOf(places, call).value in places && PlaceOf(places, call).value.callId == call
    ensures PlaceOf(places, call).None? ==> forall place :: place in places ==> place.callId != call
  {
    if places != [] {
      PlaceOfIs(places[..|places| - 1], call);
      forall place ensures place in places <==> place in places[..|places| - 1] || place == places[|places| - 1] { }
    }
  }

  lemma OnePlace(idx: EventIndex, a: PlaceAction, b: PlaceAction)
    requires Complete(idx) && a in idx.places && b in idx.places && a.callId == b.callId
    ensures a == b
  {
    var i :| 0 <= i < |idx.places| && idx.places[i] == a;
    var k :| 0 <= k < |idx.places| && idx.places[k] == b;
    PlaceIdAt(idx.places, i);
    PlaceIdAt(idx.places, k);
    IdsOfOnce(idx.calls, PlaceTool);
    var ids := PlaceIds(idx.places);
    if i != k { TwiceIn(ids, if i < k then i else k, if i < k then k else i); }
  }

  lemma TwiceIn(ids: seq<CallId>, i: nat, k: nat)
    requires i < k < |ids| && ids[i] == ids[k]
    ensures multiset(ids)[ids[i]] >= 2
  {
    assert ids == ids[..i] + [ids[i]] + ids[i + 1..k] + [ids[k]] + ids[k + 1..];
  }

  lemma FitsExactlyWhen(plan: Plan, action: PlaceAction, role: Role)
    ensures Fits(plan, action, role)
            <==> action.order.Some? && action.order.value.intent.Some? && LegIs(plan, role, action.order.value.intent.value)
  { }

  /** The rule the passes apply is the rule on the recorded fields. */
  lemma AssociatedExactlyWhen(g: Given, p: nat, role: Role, call: CallId)
    requires Complete(g.idx)
    ensures Associated(SelectionsOf(g), g.idx, g.plans, p, role, call) <==> Belongs(g, p, role, call)
  {
    SelectedIsMentioned(g, p, call);
    ToolIsRecorded(g.idx.calls, call, PlaceTool);
    PlaceOfIs(g.idx.places, call);
    var found := PlaceOf(g.idx.places, call);
    if found.Some? && p < |g.plans| {
      FitsExactlyWhen(g.plans[p], found.value, role);
      forall place | place in g.idx.places && place.callId == call ensures place == found.value {
        OnePlace(g.idx, place, found.value);
      }
    }
  }

  lemma SelectedCancelExactlyWhen(g: Given, call: CallId)
    requires Complete(g.idx)
    ensures SelectedCancel(SelectionsOf(g), g.idx, call) <==> NamesCancel(g, call)
  {
    SelectedIsMentioned(g, 0, call);
    ToolIsRecorded(g.idx.calls, call, CancelTool);
  }

  // ---- The whole assembly -----------------------------------------------------------------------

  lemma {:induction false} ListedIs(attempts: seq<Attempts>, call: CallId)
    ensures call in AllAttempts(attempts) <==> exists p, role :: 0 <= p < |attempts| && call in attempts[p].At(role)
  {
    if p, role :| 0 <= p < |attempts| && call in attempts[p].At(role) {
      AttemptListed(attempts, p, role, call);
    } else {
      NotListed(attempts, call);
    }
  }

  /** Each recorded place is an attempt of one leg or unassociated, and never both. */
  lemma PlacesPartition(idx: EventIndex, selections: seq<Selection>, plans: seq<Plan>, attempts: seq<Attempts>,
                        owned: set<CallId>)
    requires Complete(idx) && |attempts| == |plans| && NoRepeats(AllAttempts(attempts))
    requires forall p, role, call :: 0 <= p < |plans| ==>
               (call in attempts[p].At(role) <==> Associated(selections, idx, plans, p, role, call))
    requires forall call :: call in owned <==> call in AllAttempts(attempts)
    ensures multiset(AllAttempts(attempts)) + multiset(PlaceIds(Unowned(idx.places, owned))) == multiset(PlaceIds(idx.places))
  {
    IdsOfOnce(idx.calls, PlaceTool);
    var all, ids := multiset(AllAttempts(attempts)), multiset(PlaceIds(idx.places));
    forall call ensures all[call] + multiset(PlaceIds(Unowned(idx.places, owned)))[call] == ids[call] {
      UnownedCount(idx.places, owned, call);
      AttemptIsPlace(idx, selections, plans, attempts, call);
    }
  }

  lemma AttemptIsPlace(idx: EventIndex, selections: seq<Selection>, plans: seq<Plan>, attempts: seq<Attempts>, call: CallId)
    requires |attempts| == |plans|
    requires forall p, role, c :: 0 <= p < |plans| ==>
               (c in attempts[p].At(role) <==> Associated(selections, idx, plans, p, role, c))
    ensures call in AllAttempts(attempts) ==> call in PlaceIds(idx.places)
  {
    ListedIs(attempts, call);
    PlaceOfListed(idx.places, call);
  }

  /** `associated_places`. */
  method OwnedPlaces(attempts: seq<Attempts>) returns (owned: set<CallId>)
    ensures forall call :: call in owned <==> call in AllAttempts(attempts)
    ensures forall call :: call in owned <==> Attempted(attempts, call)
  {
    var all := AllAttempts(attempts);
    owned := set c | c in all;
    forall call ensures call in all <==> Attempted(attempts, call) { AttemptedExactlyWhen(attempts, call); }
  }

  lemma AttemptedExactlyWhen(attempts: seq<Attempts>, call: CallId)
    ensures call in AllAttempts(attempts) <==> Attempted(attempts, call)
  {
    ListedIs(attempts, call);
    if Attempted(attempts, call) {
      var p :| 0 <= p < |attempts| && (call in attempts[p].close || call in attempts[p].open);
      assert call in attempts[p].At(CloseRole) || call in attempts[p].At(OpenRole);
    }
  }

  /** `run`: attempts by the association rule; every recorded place and cancel call appears
      exactly once, with its decision or as unassociated. */
  method Run(ctx: Context, idx: EventIndex, plans: seq<Plan>, rationales: seq<Ref>) returns (record: Record)
    requires Complete(idx)
    ensures |record.attempts| == |plans|
    ensures forall p, role, call :: 0 <= p < |plans| ==>
              (call in record.attempts[p].At(role) <==> Belongs(Given(ctx, idx, plans, rationales), p, role, call))
    ensures multiset(AllAttempts(record.attempts)) + multiset(PlaceIds(record.unassociatedPlaces))
            == multiset(PlaceIds(idx.places))
    ensures multiset(record.cancellations) + multiset(record.unassociatedCancels) == multiset(idx.cancellations)
    ensures forall c :: c in record.cancellations ==> OwnedCancel(Given(ctx, idx, plans, rationales), record, c)
    ensures forall c :: c in record.unassociatedCancels ==> !OwnedCancel(Given(ctx, idx, plans, rationales), record, c)
  {
    ghost var g := Given(ctx, idx, plans, rationales);
    var attempts, selected := Associate(ctx, idx, plans, rationales);
    var owned := OwnedPlaces(attempts);
    PlacesPartition(idx, Selections(ctx, idx, plans, rationales), plans, attempts, owned);
    var places := LeftPlaces(idx.places, owned);
    var kept, left := SplitCancels(idx.cancellations, idx.placeOfCancel, selected, owned);
    record := Record(attempts, places, kept, left);
    AssociatedBelong(g, attempts);
    forall call ensures call in selected <==> NamesCancel(g, call) { SelectedCancelExactlyWhen(g, call); }
  }

  lemma AssociatedBelong(g: Given, attempts: seq<Attempts>)
    requires Complete(g.idx) && |attempts| == |g.plans|
    requires forall p, role, call :: 0 <= p < |g.plans| ==>
               (call in attempts[p].At(role) <==> Associated(SelectionsOf(g), g.idx, g.plans, p, role, call))
    ensures forall p, role, call :: 0 <= p < |g.plans| ==>
              (call in attempts[p].At(role) <==> Belongs(g, p, role, call))
  {
    forall p, role, call | 0 <= p < |g.plans|
      ensures call in attempts[p].At(role) <==> Belongs(g, p, role, call)
    {
      AssociatedExactlyWhen(g, p, role, call);
    }
  }

  /** The output names the cancel, or it cancels an order whose place a decision owns. */
  ghost predicate OwnedCancel(g: Given, record: Record, c: Cancellation) {
    || NamesCancel(g, c.callId)
    || (c.callId in g.idx.placeOfCancel && Attempted(record.attempts, g.idx.placeOfCancel[c.callId]))
  }

  /** The place call is an attempt of some leg. */
  predicate Attempted(attempts: seq<Attempts>, call: CallId) {
    exists p :: 0 <= p < |attempts| && (call in attempts[p].close || call in attempts[p].open)
  }
}
