/** Whole runs of the proxied calls: in every order of the hooks, the proxy, the latch, and the
    session's end, what a call may still do, and what a recorded outcome is worth from its
    writing on. */
module ProxyRuns {
  import opened Optionals
  import opened ProxyBooks

  // ---- The moves of the books ----------------------------------------------------------------

  /** One change of the books. `Hold`: not forwarded, and recorded. `Lose`: not forwarded or not
      answered, and not recorded. */
  datatype Move =
    | Latch
    | Request(u: UseId, tool: Tool)
    | Note(e: Event)
    | Register(u: UseId, call: ProxyCall)
    | Pass(u: UseId)
    | Hold(u: UseId)
    | Lose(u: UseId)
    | Transmit(u: UseId)
    | Answer(u: UseId, status: Status)

  predicate Registered(b: Book, u: UseId) { u in b.entries && b.entries[u].call.Some? }

  /** The stop latch holds an action back, but not the executor's own cancel. */
  predicate Stops(log: seq<Event>, call: ProxyCall) { call.Acts() && StoppedIn(log) && !call.afterStopCancel }

  predicate Can(account: nat, b: Book, m: Move) {
    match m
    case Latch => true
    case Request(u, _) => b.checked.None? && u !in b.entries
    case Note(e) => b.checked.None? && e.Outcome? && Neutral(e) && Follows(b.log, e, account) && e.id < b.nextId
    case Register(u, call) =>
      && b.checked.None? && u in b.entries && b.entries[u].call.None? && call.id == b.entries[u].id
      && CallFits(call, account) && ToolOf(b.log, call.id) == Some(call.tool)
    case Pass(u) => b.checked.None? && Claimable(b, u) && !Stops(b.log, b.entries[u].call.value)
    case Hold(u) =>
      && (b.checked.None? || b.checked == Some(u)) && Registered(b, u)
      && (b.entries[u].phase.Waiting? || b.entries[u].phase.PastChecks?)
    case Lose(u) =>
      && (b.checked.None? || b.checked == Some(u)) && Registered(b, u)
      && !b.entries[u].phase.HeldBack? && !b.entries[u].phase.Answered?
    case Transmit(u) => b.checked == Some(u) && Registered(b, u)
    case Answer(u, status) =>
      && b.checked.None? && Registered(b, u) && b.entries[u].phase.OnWire?
      && (status.Succeeded? || status == Unresolved(b.entries[u].call.value.tool))
  }

  function Next(account: nat, b: Book, m: Move): Book
    requires Can(account, b, m)
  {
    match m
    case Latch => Latched(b)
    case Request(u, tool) => Named(b, u, tool)
    case Note(e) => b.(log := b.log + [e])
    case Register(u, call) => Put(b, Dispatched(call.id, call.effective), u, Entry(call.id, Some(call), Pending, Waiting))
    case Pass(u) => Put(b, Cleared(b.entries[u].call.value), u, b.entries[u].(state := Claimed, phase := PastChecks))
    case Hold(u) => Put(b, ProxyOutcome(b.entries[u], Failed), u, b.entries[u].(state := Completed, phase := HeldBack))
    case Lose(u) => Drop(b, u)
    case Transmit(u) => OnTheWire(b, u)
    case Answer(u, status) =>
      Put(b, ProxyOutcome(b.entries[u], status), u, b.entries[u].(state := Completed, phase := Answered))
  }

  predicate Legal(account: nat, b: Book, moves: seq<Move>)
    decreases |moves|
  {
    moves == [] || (Can(account, b, moves[0]) && Legal(account, Next(account, b, moves[0]), moves[1..]))
  }

  function Later(account: nat, b: Book, moves: seq<Move>): Book
    requires Legal(account, b, moves)
    decreases |moves|
  {
    if moves == [] then b else Later(account, Next(account, b, moves[0]), moves[1..])
  }

  /** Some run of moves leads from the one state of the books to the other. */
  ghost predicate Leads(account: nat, b: Book, c: Book) {
    exists moves :: Legal(account, b, moves) && Later(account, b, moves) == c
  }

  lemma LeadsNowhere(account: nat, b: Book)
    ensures Leads(account, b, b)
  {
    assert Legal(account, b, []) && Later(account, b, []) == b;
  }

  lemma {:induction false} LegalOn(account: nat, b: Book, first: seq<Move>, second: seq<Move>)
    requires Legal(account, b, first) && Legal(account, Later(account, b, first), second)
    ensures Legal(account, b, first + second)
    ensures Later(account, b, first + second) == Later(account, Later(account, b, first), second)
    decreases |first|
  {
    if first == [] {
      assert first + second == second;
    } else {
      assert (first + second)[1..] == first[1..] + second;
      LegalOn(account, Next(account, b, first[0]), first[1..], second);
    }
  }

  lemma LeadsOn(account: nat, b: Book, c: Book, d: Book)
    requires Leads(account, b, c) && Leads(account, c, d)
    ensures Leads(account, b, d)
  {
    var first :| Legal(account, b, first) && Later(account, b, first) == c;
    var second :| Legal(account, c, second) && Later(account, c, second) == d;
    LegalOn(account, b, first, second);
  }

  lemma LeadsByOne(account: nat, b: Book, m: Move, c: Book)
    requires Can(account, b, m) && Next(account, b, m) == c
    ensures Leads(account, b, c)
  {
    var moves := [m];
    assert moves[1..] == [];
    assert Legal(account, c, moves[1..]) && Later(account, c, moves[1..]) == c;
    assert Legal(account, b, moves) && Later(account, b, moves) == c;
  }

  // ---- Every move keeps the books sound --------------------------------------------------------

  ghost predicate Good(account: nat, b: Book) { exists owner :: Sound(account, b, owner) }

  lemma RequestMoveKeeps(account: nat, b: Book, u: UseId, tool: Tool, owner: map<CallId, UseId>)
    requires Sound(account, b, owner) && Can(account, b, Request(u, tool))
    ensures Good(account, Next(account, b, Request(u, tool)))
  {
    RequestKeeps(account, b, owner, u, tool);
    assert Sound(account, Named(b, u, tool), owner[b.nextId := u]);
  }

  lemma RegisterMoveKeeps(account: nat, b: Book, u: UseId, call: ProxyCall, owner: map<CallId, UseId>)
    requires Sound(account, b, owner) && Can(account, b, Register(u, call))
    ensures Sound(account, Next(account, b, Register(u, call)), owner)
  {
    RegisterFits(b.log, account, b.entries[u], call);
    PutKeeps(account, b, owner, Dispatched(call.id, call.effective), u, Entry(call.id, Some(call), Pending, Waiting));
  }

  lemma PassMoveKeeps(account: nat, b: Book, u: UseId, owner: map<CallId, UseId>)
    requires Sound(account, b, owner) && Can(account, b, Pass(u))
    ensures Sound(account, Next(account, b, Pass(u)), owner)
  {
    var entry := b.entries[u];
    ClearFits(b.log, account, entry);
    PutKeeps(account, b, owner, Cleared(entry.call.value), u, entry.(state := Claimed, phase := PastChecks));
  }

  lemma HoldMoveKeeps(account: nat, b: Book, u: UseId, owner: map<CallId, UseId>)
    requires Sound(account, b, owner) && Can(account, b, Hold(u))
    ensures Sound(account, Next(account, b, Hold(u)), owner)
  {
    var entry := b.entries[u];
    OutcomeFits(b.log, account, entry, Failed, HeldBack);
    PutKeeps(account, b, owner, ProxyOutcome(entry, Failed), u, entry.(state := Completed, phase := HeldBack));
  }

  lemma TransmitMoveKeeps(account: nat, b: Book, u: UseId, owner: map<CallId, UseId>)
    requires Sound(account, b, owner) && Can(account, b, Transmit(u))
    ensures Sound(account, Next(account, b, Transmit(u)), owner)
  {
    var entry := b.entries[u];
    SendFits(account, b, owner, u);
    PutKeeps(account, b, owner, Sent(entry.call.value, Wire(entry.call.value)), u, entry.(phase := OnWire));
  }

  lemma AnswerMoveKeeps(account: nat, b: Book, u: UseId, status: Status, owner: map<CallId, UseId>)
    requires Sound(account, b, owner) && Can(account, b, Answer(u, status))
    ensures Sound(account, Next(account, b, Answer(u, status)), owner)
  {
    var entry := b.entries[u];
    OutcomeFits(b.log, account, entry, status, Answered);
    PutKeeps(account, b, owner, ProxyOutcome(entry, status), u, entry.(state := Completed, phase := Answered));
  }

  lemma MoveKeepsGood(account: nat, b: Book, m: Move)
    requires Good(account, b) && Can(account, b, m)
    ensures Good(account, Next(account, b, m))
  {
    var owner :| Sound(account, b, owner);
    match m
    case Latch => if !StoppedIn(b.log) { NoteKeeps(account, b, owner, Stop); }
    case Request(u, tool) => RequestMoveKeeps(account, b, u, tool, owner);
    case Note(e) => NoteKeeps(account, b, owner, e);
    case Register(u, call) => RegisterMoveKeeps(account, b, u, call, owner);
    case Pass(u) => PassMoveKeeps(account, b, u, owner);
    case Hold(u) => HoldMoveKeeps(account, b, u, owner);
    case Lose(u) => DropKeeps(account, b, owner, u);
    case Transmit(u) => TransmitMoveKeeps(account, b, u, owner);
    case Answer(u, status) => AnswerMoveKeeps(account, b, u, status, owner);
  }

  // ---- A call only goes forward -----------------------------------------------------------------

  function Rank(state: CallState): nat {
    match state
    case Pending => 0
    case Claimed => 1
    case Completed => 2
  }

  /** From one state of the books to a later one: records stay, a registered call is the same and
      its state has only advanced, and what left has left. */
  predicate Advances(b: Book, c: Book) {
    && b.log <= c.log
    && forall u :: u in b.entries ==>
         && u in c.entries && c.entries[u].id == b.entries[u].id
         && (b.entries[u].call.Some? ==>
               && c.entries[u].call == b.entries[u].call
               && Rank(b.entries[u].state) <= Rank(c.entries[u].state)
               && (Left(b.entries[u].phase) ==> Left(c.entries[u].phase)))
  }

  lemma MoveAdvances(account: nat, b: Book, m: Move)
    requires Good(account, b) && Can(account, b, m)
    ensures Advances(b, Next(account, b, m))
  {
    var owner :| Sound(account, b, owner);
    assert EntriesOk(b.log, account, b.entries);
  }

  /** A call's state moves only from pending to claimed to completed, in every run. */
  lemma {:induction false} StatesOnlyAdvance(account: nat, b: Book, moves: seq<Move>)
    requires Good(account, b) && Legal(account, b, moves)
    ensures Good(account, Later(account, b, moves)) && Advances(b, Later(account, b, moves))
    decreases |moves|
  {
    if moves != [] {
      var next := Next(account, b, moves[0]);
      MoveKeepsGood(account, b, moves[0]);
      MoveAdvances(account, b, moves[0]);
      StatesOnlyAdvance(account, next, moves[1..]);
    }
  }

  lemma LeadsAdvances(account: nat, b: Book, c: Book)
    requires Good(account, b) && Leads(account, b, c)
    ensures Good(account, c) && Advances(b, c)
  {
    var moves :| Legal(account, b, moves) && Later(account, b, moves) == c;
    StatesOnlyAdvance(account, b, moves);
  }

  /** Nothing is sent between the two states of the books. */
  ghost predicate Quiet(b: Book, c: Book) { forall id :: SentCount(c.log, id) == SentCount(b.log, id) }

  lemma OnlyTransmitSends(account: nat, b: Book, m: Move)
    requires Can(account, b, m) && !m.Transmit?
    ensures Quiet(b, Next(account, b, m))
  {
    var c := Next(account, b, m);
    if c.log != b.log {
      assert c.log == b.log + [c.log[|b.log|]];
      forall id ensures SentCount(c.log, id) == SentCount(b.log, id) { RecordsAfter(b.log, c.log[|b.log|], id); }
    }
  }

  /** What one stretch of code does to the books: a run of moves, and so no step back. */
  ghost predicate GoesOn(account: nat, b: Book, c: Book) { Leads(account, b, c) && Advances(b, c) }

  lemma GoesOnByOne(account: nat, b: Book, m: Move, c: Book)
    requires Good(account, b) && Can(account, b, m) && Next(account, b, m) == c
    ensures GoesOn(account, b, c) && Good(account, c)
  {
    LeadsByOne(account, b, m, c);
    LeadsAdvances(account, b, c);
  }

  lemma GoesOnTwice(account: nat, b: Book, c: Book, d: Book)
    requires Good(account, b) && GoesOn(account, b, c) && GoesOn(account, c, d)
    ensures GoesOn(account, b, d)
  {
    LeadsOn(account, b, c, d);
    LeadsAdvances(account, b, d);
  }

  lemma StaysPut(account: nat, b: Book)
    requires Good(account, b)
    ensures GoesOn(account, b, b)
  {
    LeadsNowhere(account, b);
    LeadsAdvances(account, b, b);
  }

  // ---- What may still leave ----------------------------------------------------------------------

  /** Whether an action may still be sent: it has just passed its checks; or it waits for them, and
      the latch does not hold it back; or its use id is not registered yet, and the latch would not
      hold back every call of its tool. */
  predicate MayLeave(b: Book, u: UseId)
    requires u in b.entries
  {
    var entry := b.entries[u];
    if entry.call.None? then
      StoppedIn(b.log) ==> ToolOf(b.log, entry.id) == Some(CancelTool)
    else entry.phase.PastChecks? || (entry.phase.Waiting? && !Stops(b.log, entry.call.value))
  }

  /** The use id names an action. */
  predicate Action(b: Book, u: UseId) { u in b.entries && ActsIn(b.log, b.entries[u].id) }

  function SentOf(b: Book, u: UseId): nat
    requires u in b.entries
  {
    SentCount(b.log, b.entries[u].id)
  }

  lemma ActionIs(account: nat, b: Book, u: UseId)
    requires Good(account, b) && Action(b, u)
    ensures b.entries[u].call.Some? ==> b.entries[u].call.value.Acts()
    ensures SentOf(b, u) == if Left(b.entries[u].phase) then 1 else 0
    ensures b.entries[u].id < b.nextId
    ensures b.entries[u].phase.PastChecks? ==> b.checked == Some(u)
    ensures b.entries[u].call.Some? ==> CallFits(b.entries[u].call.value, account)
    ensures b.entries[u].call.Some? ==> (b.entries[u].state.Pending? <==> b.entries[u].phase.Waiting?)
    ensures b.entries[u].call.None? ==> b.entries[u].phase.Waiting?
  {
    var owner :| Sound(account, b, owner);
    assert EntryOk(b.log, account, b.entries[u]);
  }

  lemma OtherIds(account: nat, b: Book, u: UseId, v: UseId)
    requires Good(account, b) && u in b.entries && v in b.entries && u != v
    ensures b.entries[u].id != b.entries[v].id
  {
    var owner :| Sound(account, b, owner);
  }

  /** The event a move writes, if any, is about its own use id. */
  function Subject(m: Move): Option<UseId> {
    match m
    case Latch => None
    case Note(_) => None
    case Request(u, _) => Some(u)
    case Register(u, _) => Some(u)
    case Pass(u) => Some(u)
    case Hold(u) => Some(u)
    case Lose(u) => Some(u)
    case Transmit(u) => Some(u)
    case Answer(u, _) => Some(u)
  }

  /** A move about another call leaves this one's records and entry, and never clears the latch. */
  lemma OtherMove(account: nat, b: Book, u: UseId, m: Move)
    requires Good(account, b) && u in b.entries && Can(account, b, m) && Subject(m) != Some(u)
    ensures var c := Next(account, b, m);
            && u in c.entries && c.entries[u] == b.entries[u] && SentOf(c, u) == SentOf(b, u)
            && ToolOf(c.log, b.entries[u].id) == ToolOf(b.log, b.entries[u].id)
            && (StoppedIn(b.log) ==> StoppedIn(c.log))
  {
    var c := Next(account, b, m);
    var owner :| Sound(account, b, owner);
    if Subject(m).Some? && Subject(m).value in b.entries { OtherIds(account, b, u, Subject(m).value); }
    if c.log != b.log {
      var e := c.log[|b.log|];
      assert c.log == b.log + [e];
      RecordsAfter(b.log, e, b.entries[u].id);
      LatchAfter(b.log, e);
    }
  }

  /** The same for the call's own moves, but for its send and its requests' tool. */
  lemma OwnMove(account: nat, b: Book, u: UseId, m: Move)
    requires Good(account, b) && u in b.entries && Can(account, b, m) && Subject(m) == Some(u)
    ensures var c := Next(account, b, m);
            && u in c.entries && c.entries[u].id == b.entries[u].id
            && SentOf(c, u) == SentOf(b, u) + (if m.Transmit? then 1 else 0)
            && ToolOf(c.log, b.entries[u].id) == ToolOf(b.log, b.entries[u].id)
            && (StoppedIn(c.log) <==> StoppedIn(b.log))
  {
    var c := Next(account, b, m);
    var owner :| Sound(account, b, owner);
    assert EntryOk(b.log, account, b.entries[u]);
    if c.log != b.log {
      var e := c.log[|b.log|];
      assert c.log == b.log + [e];
      RecordsAfter(b.log, e, b.entries[u].id);
      LatchAfter(b.log, e);
    }
  }

  /** What may not leave is not sent by any move, and may not leave after it. */
  lemma HeldStays(account: nat, b: Book, u: UseId, m: Move)
    requires Good(account, b) && Action(b, u) && Can(account, b, m) && !MayLeave(b, u)
    ensures var c := Next(account, b, m);
            Action(c, u) && !MayLeave(c, u) && SentOf(c, u) == SentOf(b, u) && c.entries[u].id == b.entries[u].id
  {
    ActionIs(account, b, u);
    if Subject(m) == Some(u) { OwnMove(account, b, u, m); } else { OtherMove(account, b, u, m); }
  }

  lemma {:induction false} HeldForever(account: nat, b: Book, u: UseId, moves: seq<Move>)
    requires Good(account, b) && Action(b, u) && !MayLeave(b, u) && Legal(account, b, moves)
    ensures var c := Later(account, b, moves);
            u in c.entries && c.entries[u].id == b.entries[u].id && SentOf(c, u) == SentOf(b, u)
    decreases |moves|
  {
    if moves != [] {
      MoveKeepsGood(account, b, moves[0]);
      HeldStays(account, b, u, moves[0]);
      HeldForever(account, Next(account, b, moves[0]), u, moves[1..]);
    }
  }

  /** A call that waits is passed and sent, with nothing between. */
  lemma WaitingLeaves(account: nat, b: Book, u: UseId) returns (moves: seq<Move>)
    requires Good(account, b) && Action(b, u) && b.checked.None? && b.entries[u].call.Some? && MayLeave(b, u)
    ensures Legal(account, b, moves) && u in Later(account, b, moves).entries
    ensures Later(account, b, moves).entries[u].id == b.entries[u].id
    ensures SentOf(Later(account, b, moves), u) == SentOf(b, u) + 1
  {
    ActionIs(account, b, u);
    var c := Next(account, b, Pass(u));
    MoveKeepsGood(account, b, Pass(u));
    OwnMove(account, b, u, Pass(u));
    var d := Next(account, c, Transmit(u));
    OwnMove(account, c, u, Transmit(u));
    moves := [Pass(u), Transmit(u)];
    assert moves[1..] == [Transmit(u)] && moves[1..][1..] == [];
    assert Legal(account, d, []) && Later(account, d, []) == d;
    assert Legal(account, c, moves[1..]) && Later(account, c, moves[1..]) == d;
  }

  /** A use id that is only requested is registered first, and then sent. */
  lemma UnregisteredLeaves(account: nat, b: Book, u: UseId) returns (moves: seq<Move>)
    requires Good(account, b) && Action(b, u) && b.checked.None? && b.entries[u].call.None? && MayLeave(b, u)
    ensures Legal(account, b, moves) && u in Later(account, b, moves).entries
    ensures Later(account, b, moves).entries[u].id == b.entries[u].id
    ensures SentOf(Later(account, b, moves), u) == SentOf(b, u) + 1
  {
    var tool := ToolOf(b.log, b.entries[u].id).value;
    var own := tool == CancelTool;
    var call := ProxyCall(b.entries[u].id, tool, map[], None, own, own);
    MoveKeepsGood(account, b, Register(u, call));
    OwnMove(account, b, u, Register(u, call));
    var c := Next(account, b, Register(u, call));
    var rest := WaitingLeaves(account, c, u);
    moves := [Register(u, call)] + rest;
    assert moves[1..] == rest;
  }

  /** Exactly which actions some run still sends. */
  lemma LeavesExactlyWhen(account: nat, b: Book, u: UseId)
    requires Good(account, b) && Action(b, u) && b.checked.None?
    ensures MayLeave(b, u) <==> exists moves | Legal(account, b, moves) ::
                                  SentCount(Later(account, b, moves).log, b.entries[u].id) > SentOf(b, u)
  {
    var id := b.entries[u].id;
    if MayLeave(b, u) {
      var moves;
      if b.entries[u].call.Some? { moves := WaitingLeaves(account, b, u); }
      else { moves := UnregisteredLeaves(account, b, u); }
      assert SentCount(Later(account, b, moves).log, id) > SentOf(b, u);
    } else {
      forall moves | Legal(account, b, moves) ensures SentCount(Later(account, b, moves).log, id) == SentOf(b, u) {
        HeldForever(account, b, u, moves);
      }
    }
  }

  // ---- What a record is worth from its writing on ------------------------------------------------

  ghost predicate StaysRight(account: nat, b: Book, e: Event)
    requires e.Outcome?
  {
    forall moves | Legal(account, b, moves) :: RightIn(Later(account, b, moves).log, e)
  }

  ghost predicate StaysWrong(account: nat, b: Book, e: Event)
    requires e.Outcome?
  {
    forall moves | Legal(account, b, moves) :: !RightIn(Later(account, b, moves).log, e)
  }

  lemma NowIsLater(account: nat, b: Book, e: Event)
    requires e.Outcome?
    ensures StaysRight(account, b, e) ==> RightIn(b.log, e)
    ensures StaysWrong(account, b, e) ==> !RightIn(b.log, e)
  {
    assert Legal(account, b, []) && Later(account, b, []) == b;
  }

  lemma NeverChanges(account: nat, b: Book, u: UseId, e: Event)
    requires Good(account, b) && Action(b, u) && b.checked.None? && !MayLeave(b, u)
    requires e.Outcome? && e.id == b.entries[u].id
    ensures if RightIn(b.log, e) then StaysRight(account, b, e) else StaysWrong(account, b, e)
  {
    forall moves | Legal(account, b, moves) ensures RightIn(Later(account, b, moves).log, e) <==> RightIn(b.log, e) {
      HeldForever(account, b, u, moves);
    }
  }

  lemma MayChange(account: nat, b: Book, u: UseId, e: Event)
    requires Good(account, b) && Action(b, u) && b.checked.None? && MayLeave(b, u)
    requires e.Outcome? && e.id == b.entries[u].id
    ensures !StaysRight(account, b, e) && !StaysWrong(account, b, e)
  {
    ActionIs(account, b, u);
    var moves;
    if b.entries[u].call.Some? { moves := WaitingLeaves(account, b, u); }
    else { moves := UnregisteredLeaves(account, b, u); }
    assert RightIn(Later(account, b, moves).log, e) <==> !RightIn(b.log, e);
    NowIsLater(account, b, e);
  }

  /** A record of an action that may still leave can become right or wrong; any other stays what it
      is when it is written. */
  lemma RecordFrom(account: nat, b: Book, u: UseId, e: Event)
    requires Good(account, b) && Action(b, u) && b.checked.None?
    requires e.Outcome? && e.id == b.entries[u].id
    ensures StaysRight(account, b, e) <==> RightIn(b.log, e) && !MayLeave(b, u)
    ensures StaysWrong(account, b, e) <==> !RightIn(b.log, e) && !MayLeave(b, u)
  {
    NowIsLater(account, b, e);
    if MayLeave(b, u) { MayChange(account, b, u, e); } else { NeverChanges(account, b, u, e); }
  }

  function Write(b: Book, e: Event): Book { b.(log := b.log + [e]) }

  lemma WriteIs(account: nat, b: Book, u: UseId, e: Event)
    requires Good(account, b) && Action(b, u) && Can(account, b, Note(e)) && e.id == b.entries[u].id
    ensures Good(account, Write(b, e)) && Action(Write(b, e), u)
    ensures SentOf(Write(b, e), u) == SentOf(b, u) && (MayLeave(Write(b, e), u) <==> MayLeave(b, u))
  {
    MoveKeepsGood(account, b, Note(e));
    RecordsAfter(b.log, e, e.id);
    LatchAfter(b.log, e);
  }

  /** The failure hook records a call the proxy has not claimed as failed. That is right when it is
      written, and stays right in every run exactly when the stop latch is set by then. (The latch
      holds back all but the executor's own cancel, which that hook never sees.) */
  lemma FailureHookRecord(account: nat, b: Book, u: UseId)
    requires Good(account, b) && Action(b, u) && b.checked.None? && Claimable(b, u)
    ensures var e := HookFailure(b.entries[u]);
            && Can(account, b, Note(e)) && RightIn(Write(b, e).log, e)
            && (StaysRight(account, Write(b, e), e) <==> StoppedIn(b.log) && !b.entries[u].call.value.afterStopCancel)
  {
    var e := HookFailure(b.entries[u]);
    ActionIs(account, b, u);
    WriteIs(account, b, u, e);
    RecordFrom(account, Write(b, e), u, e);
  }

  /** A use id registered again: the second request is recorded failed, and the stop latch is set
      before any other task runs. From then on that record stays right exactly when the earlier
      registration's call waits and is not the executor's own cancel, or was held back; one the
      proxy has sent makes it wrong at once. */
  lemma RegistrationRecord(account: nat, b: Book, u: UseId)
    requires Good(account, b) && Action(b, u) && b.checked.None? && Registered(b, u)
    ensures var e, entry := Outcome(b.entries[u].id, Failed, Registration), b.entries[u];
            var stopped := Latched(Write(b, e));
            && Can(account, b, Note(e))
            && (StaysRight(account, stopped, e)
                <==> entry.phase.HeldBack? || (entry.state.Pending? && !entry.call.value.afterStopCancel))
            && (StaysWrong(account, stopped, e) <==> !entry.phase.HeldBack? && !entry.state.Pending?)
  {
    var e := Outcome(b.entries[u].id, Failed, Registration);
    ActionIs(account, b, u);
    WriteIs(account, b, u, e);
    LatchIs(account, Write(b, e), u);
    RecordFrom(account, Latched(Write(b, e)), u, e);
  }

  lemma LatchIs(account: nat, b: Book, u: UseId)
    requires Good(account, b) && Action(b, u)
    ensures var c := Latched(b);
            Good(account, c) && Action(c, u) && StoppedIn(c.log) && SentOf(c, u) == SentOf(b, u) && c.entries == b.entries
  {
    MoveKeepsGood(account, b, Latch);
    RecordsAfter(b.log, Stop, b.entries[u].id);
    LatchAfter(b.log, Stop);
  }

  /** A denial stays right exactly when the use id is not registered and the latch holds back every
      later call of its tool, or an earlier registration of it waits and the latch holds it back, or
      was held back by the proxy. */
  lemma DenialRecord(account: nat, b: Book, u: UseId)
    requires Good(account, b) && Action(b, u) && b.checked.None?
    ensures var e, entry := Outcome(b.entries[u].id, Denied, Gate), b.entries[u];
            && Can(account, b, Note(e))
            && (StaysRight(account, Write(b, e), e)
                <==> if entry.call.None? then StoppedIn(b.log) && ToolOf(b.log, entry.id) != Some(CancelTool)
                     else entry.phase.HeldBack? || (entry.state.Pending? && Stops(b.log, entry.call.value)))
            && (StaysWrong(account, Write(b, e), e)
                <==> entry.call.Some? && !entry.phase.HeldBack? && !entry.state.Pending?)
  {
    var e := Outcome(b.entries[u].id, Denied, Gate);
    ActionIs(account, b, u);
    WriteIs(account, b, u, e);
    RecordFrom(account, Write(b, e), u, e);
  }

  /** The call is claimed, and was not held back. */
  predicate Taken(entry: Entry) { entry.call.Some? && !entry.state.Pending? && !entry.phase.HeldBack? }

  lemma HookUnknownRecord(account: nat, b: Book, u: UseId)
    requires Good(account, b) && Action(b, u) && b.checked.None? && Registered(b, u)
    requires Can(account, b, Note(HookUnknown(b.entries[u])))
    ensures var e := HookUnknown(b.entries[u]); StaysRight(account, Write(b, e), e) <==> Taken(b.entries[u])
  {
    ActionIs(account, b, u);
    UnknownRecord(account, b, u, ResultHook);
  }

  /** What the result hook, the session's end, or recovery records as unknown is right when it is
      written, and then for good, exactly when the call was claimed and not held back. For a call
      that still waits it is wrong when it is written, and stays wrong exactly when the latch holds
      the call back; for one claimed and held back without a record it is wrong for good; for a
      request that was never registered, exactly when the latch holds back every later call of its
      tool. */
  lemma UnknownRecord(account: nat, b: Book, u: UseId, writer: Writer)
    requires Good(account, b) && Action(b, u) && b.checked.None?
    requires Can(account, b, Note(Outcome(b.entries[u].id, UnknownOutcome, writer)))
    ensures var e, entry := Outcome(b.entries[u].id, UnknownOutcome, writer), b.entries[u];
            && (RightIn(Write(b, e).log, e) <==> Taken(entry))
            && (StaysRight(account, Write(b, e), e) <==> Taken(entry))
            && (StaysWrong(account, Write(b, e), e)
                <==> if entry.call.None? then StoppedIn(b.log) && ToolOf(b.log, entry.id) != Some(CancelTool)
                     else entry.phase.HeldBack? || (entry.state.Pending? && Stops(b.log, entry.call.value)))
  {
    var e := Outcome(b.entries[u].id, UnknownOutcome, writer);
    ActionIs(account, b, u);
    WriteIs(account, b, u, e);
    RecordFrom(account, Write(b, e), u, e);
  }

  // ---- What the code knows where it makes a move ------------------------------------------------

  lemma EntryIsNamed(account: nat, b: Book, u: UseId)
    requires Good(account, b) && u in b.entries
    ensures ToolOf(b.log, b.entries[u].id).Some? && b.entries[u].id < b.nextId
    ensures b.entries[u].call.Some? ==> ToolOf(b.log, b.entries[u].id) == Some(b.entries[u].call.value.tool)
  {
    var owner :| Sound(account, b, owner);
    assert EntryOk(b.log, account, b.entries[u]);
  }

  lemma CanNote(account: nat, b: Book, u: UseId, e: Event)
    requires Good(account, b) && u in b.entries && b.checked.None? && e.Outcome? && e.id == b.entries[u].id
    requires !e.writer.Proxy?
    requires ToolOf(b.log, e.id).Some? ==> MayRecord(b.log, e.id, ToolOf(b.log, e.id).value, e.status, e.writer)
    ensures Can(account, b, Note(e))
  {
    EntryIsNamed(account, b, u);
  }

  lemma RequestIsRecorded(account: nat, b: Book, u: UseId, tool: Tool)
    requires Good(account, b) && u !in b.entries && b.checked.None?
    ensures var c := Named(b, u, tool); ToolOf(c.log, c.entries[u].id) == Some(tool)
  {
    var owner :| Sound(account, b, owner);
    RequestKeeps(account, b, owner, u, tool);
  }

  lemma NamedKeeps(b: Book, u: UseId, tool: Tool)
    ensures var c := Named(b, u, tool);
            && u in c.entries && (Registered(c, u) <==> Registered(b, u)) && (StoppedIn(c.log) <==> StoppedIn(b.log))
            && c.checked == (if u in b.entries then b.checked else None)
            && forall v :: v in b.entries ==> v in c.entries && c.entries[v] == b.entries[v]
  {
    LatchAfter(b.log, Requested(b.nextId, tool));
  }

  lemma PendingWaits(account: nat, b: Book, u: UseId)
    requires Good(account, b) && Claimable(b, u)
    ensures b.entries[u].phase.Waiting?
  {
    var owner :| Sound(account, b, owner);
    assert EntryOk(b.log, account, b.entries[u]);
  }

  lemma NotSentYet(account: nat, b: Book, u: UseId)
    requires Good(account, b) && u in b.entries && !Left(b.entries[u].phase)
    ensures SentOf(b, u) == 0
  {
    var owner :| Sound(account, b, owner);
    assert EntryOk(b.log, account, b.entries[u]);
  }

  lemma WireIsSent(account: nat, b: Book, u: UseId)
    requires Good(account, b) && Registered(b, u) && Left(b.entries[u].phase)
    ensures SentOf(b, u) == 1
  {
    var owner :| Sound(account, b, owner);
    assert EntryOk(b.log, account, b.entries[u]);
  }

  lemma CheckedPasses(account: nat, b: Book)
    requires Good(account, b) && b.checked.Some?
    ensures Registered(b, b.checked.value) && b.entries[b.checked.value].phase.PastChecks?
  {
    var owner :| Sound(account, b, owner);
  }

  lemma SendCounts(account: nat, b: Book, u: UseId)
    requires Good(account, b) && Can(account, b, Transmit(u))
    ensures var c := Next(account, b, Transmit(u)); u in c.entries && SentOf(c, u) == SentOf(b, u) + 1
  {
    OwnMove(account, b, u, Transmit(u));
  }
}
