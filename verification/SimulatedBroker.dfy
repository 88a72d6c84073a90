/** The broker of a dry run (`agent/simulated_broker.py`): orders that fill at once, the short
    positions they leave, and a real positions read overlaid with them. Prices are scaled
    integers; instruments, order ids, and times are given by the caller. */
module SimulatedBroker {
  import opened Optionals

  type ContractId = nat
  type OrderId = nat
  type RefId = nat
  type Deltas = map<ContractId, int>

  datatype Side = Buy | Sell
  datatype Effect = OpenEffect | CloseEffect
  datatype Instrument = Instrument(multiplier: Option<nat>)

  /** Place arguments. A field that does not read as its type is None; `plainLimit` is a single
      leg of ratio one in a limit order without a stop price. */
  datatype PlaceArgs = PlaceArgs(
    account: bool, plainLimit: bool, contract: Option<ContractId>, side: Option<Side>, effect: Option<Effect>,
    quantity: Option<nat>, price: Option<nat>, refId: Option<RefId>)

  datatype Request = Request(contract: ContractId, side: Side, effect: Effect, quantity: nat, price: nat, multiplier: nat)
  {
    predicate Opening() { side.Sell? && effect.OpenEffect? }
    predicate Closing() { side.Buy? && effect.CloseEffect? }
  }

  datatype OrderState = Working | Filled | Cancelled

  datatype SimOrder = SimOrder(
    id: OrderId, contract: ContractId, opening: bool, quantity: nat, price: nat, multiplier: nat,
    premium: nat, state: OrderState)

  datatype Reply = Refused | Accepted(order: SimOrder)

  datatype RealOrder = RealOrder(id: OrderId, state: OrderState)

  /** A quantity as its text says it: digits alone ("2"), or a whole decimal ("2.0000"). */
  datatype Quantity = Plain(n: nat) | Decimal(n: nat)

  /** A row of a positions read. `plainId`: its id is in the canonical letter case, as the ids of
      fills are. */
  datatype Row = Row(contract: ContractId, plainId: bool, short: bool, quantity: Quantity)

  /** The arguments ask for this: a positive quantity at a positive price, of an instrument that was
      read with a verified multiplier. */
  predicate AsksFor(
    args: PlaceArgs, instruments: map<ContractId, Instrument>, contract: ContractId, side: Side, effect: Effect,
    quantity: nat, price: nat, multiplier: nat)
  {
    && args.account && args.plainLimit && quantity > 0 && price > 0
    && args.contract == Some(contract) && args.side == Some(side) && args.effect == Some(effect)
    && args.quantity == Some(quantity) && args.price == Some(price)
    && contract in instruments && instruments[contract].multiplier == Some(multiplier)
  }

  /** `_request`: None is a refusal. */
  function RequestOf(args: PlaceArgs, instruments: map<ContractId, Instrument>): (r: Option<Request>)
    ensures forall c, s, e, q, p, m :: r == Some(Request(c, s, e, q, p, m)) <==> AsksFor(args, instruments, c, s, e, q, p, m)
  {
    if !args.account || !args.plainLimit || args.contract.None? || args.side.None? || args.effect.None?
       || args.quantity.None? || args.quantity.value == 0 || args.price.None? || args.price.value == 0
       || args.contract.value !in instruments || instruments[args.contract.value].multiplier.None?
    then None
    else Some(Request(args.contract.value, args.side.value, args.effect.value, args.quantity.value,
                      args.price.value, instruments[args.contract.value].multiplier.value))
  }

  /** Every argument a place needs can be read, of a known instrument. */
  predicate Readable(args: PlaceArgs, instruments: map<ContractId, Instrument>) {
    && args.account && args.plainLimit && args.contract.Some? && args.side.Some? && args.effect.Some?
    && args.quantity.Some? && args.quantity.value > 0 && args.price.Some? && args.price.value > 0
    && args.contract.value in instruments && instruments[args.contract.value].multiplier.Some?
  }

  function IntAt(deltas: Deltas, c: ContractId): int { if c in deltas then deltas[c] else 0 }

  function Change(opening: bool, quantity: nat): int { if opening then quantity else -(quantity as int) }

  function Premium(price: nat, quantity: nat, multiplier: nat): nat { price * quantity * multiplier }

  /** Contracts sold to open, or bought to close, over the orders. */
  function Sold(orders: seq<SimOrder>, c: ContractId, opening: bool): nat {
    if orders == [] then 0
    else
      var o := orders[|orders| - 1];
      Sold(orders[..|orders| - 1], c, opening) + if o.contract == c && o.opening == opening then o.quantity else 0
  }

  function OrderWith(orders: seq<SimOrder>, id: OrderId): Option<SimOrder> {
    if orders == [] then None
    else if orders[|orders| - 1].id == id then Some(orders[|orders| - 1])
    else OrderWith(orders[..|orders| - 1], id)
  }

  // ---- What the books always satisfy -------------------------------------------------------

  ghost predicate DeltasAreFills(orders: seq<SimOrder>, deltas: Deltas) {
    forall c :: IntAt(deltas, c) == Sold(orders, c, true) - Sold(orders, c, false)
  }

  predicate PaidInFull(o: SimOrder) { o.quantity > 0 && o.premium == o.price * o.quantity * o.multiplier }

  /** Every simulated order is filled in full, at its own price. */
  predicate AllFilled(orders: seq<SimOrder>) {
    forall i :: 0 <= i < |orders| ==> orders[i].state.Filled? && PaidInFull(orders[i])
  }

  predicate RefsKnown(orders: seq<SimOrder>, refIds: map<RefId, OrderId>) {
    forall r :: r in refIds ==> OrderWith(orders, refIds[r]).Some?
  }

  /** `filled` lists the keys of the deltas, in the order they were first set. */
  ghost predicate KeysListed(deltas: Deltas, filled: seq<ContractId>) {
    && (forall c :: c in deltas <==> c in filled)
    && forall i, j :: 0 <= i < j < |filled| ==> filled[i] != filled[j]
  }

  predicate InstrumentsKnown(deltas: Deltas, instruments: map<ContractId, Instrument>) {
    forall c :: c in deltas ==> c in instruments && instruments[c].multiplier.Some?
  }

  lemma FillRecorded(orders: seq<SimOrder>, deltas: Deltas, o: SimOrder)
    requires DeltasAreFills(orders, deltas)
    ensures DeltasAreFills(orders + [o],
                           deltas[o.contract := IntAt(deltas, o.contract) + Change(o.opening, o.quantity)])
  {
    var after := orders + [o];
    assert after[..|after| - 1] == orders && after[|after| - 1] == o;
    var now := deltas[o.contract := IntAt(deltas, o.contract) + Change(o.opening, o.quantity)];
    forall c ensures IntAt(now, c) == Sold(after, c, true) - Sold(after, c, false) {
      assert IntAt(deltas, c) == Sold(orders, c, true) - Sold(orders, c, false);
    }
  }

  lemma OrderAdded(orders: seq<SimOrder>, refIds: map<RefId, OrderId>, o: SimOrder, r: Option<RefId>)
    requires RefsKnown(orders, refIds) && OrderWith(orders, o.id).None?
    ensures RefsKnown(orders + [o], if r.Some? then refIds[r.value := o.id] else refIds)
    ensures OrderWith(orders + [o], o.id) == Some(o)
  {
    var after := orders + [o];
    assert after[..|after| - 1] == orders;
  }

  function ListKey(filled: seq<ContractId>, c: ContractId): seq<ContractId> {
    if c in filled then filled else filled + [c]
  }

  lemma KeyListed(deltas: Deltas, filled: seq<ContractId>, c: ContractId, d: int)
    requires KeysListed(deltas, filled)
    ensures KeysListed(deltas[c := d], ListKey(filled, c))
  { }

  lemma NewestIsFound(orders: seq<SimOrder>, o: SimOrder)
    ensures OrderWith(orders + [o], o.id) == Some(o)
  { }

  ghost predicate Books(orders: seq<SimOrder>, refIds: map<RefId, OrderId>, deltas: Deltas, filled: seq<ContractId>,
                        instruments: map<ContractId, Instrument>)
  {
    && DeltasAreFills(orders, deltas)
    && AllFilled(orders)
    && RefsKnown(orders, refIds)
    && KeysListed(deltas, filled)
    && InstrumentsKnown(deltas, instruments)
  }

  lemma FillKeepsBooks(orders: seq<SimOrder>, refIds: map<RefId, OrderId>, deltas: Deltas, filled: seq<ContractId>,
                       instruments: map<ContractId, Instrument>, o: SimOrder, instrument: Instrument, r: Option<RefId>)
    requires Books(orders, refIds, deltas, filled, instruments)
    requires OrderWith(orders, o.id).None? && o.state.Filled? && PaidInFull(o) && instrument.multiplier.Some?
    ensures Books(orders + [o], if r.Some? then refIds[r.value := o.id] else refIds,
                  deltas[o.contract := IntAt(deltas, o.contract) + Change(o.opening, o.quantity)],
                  ListKey(filled, o.contract), instruments[o.contract := instrument])
  {
    FillRecorded(orders, deltas, o);
    OrderAdded(orders, refIds, o, r);
    KeyListed(deltas, filled, o.contract, IntAt(deltas, o.contract) + Change(o.opening, o.quantity));
  }

  /** A found order is one of the orders. */
  lemma {:induction false} OrderIsListed(orders: seq<SimOrder>, id: OrderId)
    ensures OrderWith(orders, id).Some? ==> OrderWith(orders, id).value in orders
  {
    if orders != [] { OrderIsListed(orders[..|orders| - 1], id); }
  }

  class SimulatedBroker {
    var orders: seq<SimOrder>
    var refIds: map<RefId, OrderId>
    var realWorking: set<OrderId>
    var realCancelled: map<OrderId, int>
    var shortDelta: Deltas
    var filled: seq<ContractId>
    var filledInstruments: map<ContractId, Instrument>
    var realShort: map<ContractId, nat>

    ghost predicate Valid()
      reads this
    {
      Books(orders, refIds, shortDelta, filled, filledInstruments)
    }

    constructor ()
      ensures Valid() && orders == [] && refIds == map[] && realShort == map[]
    {
      orders, refIds, realWorking, realCancelled := [], map[], {}, map[];
      shortDelta, filled, filledInstruments, realShort := map[], [], map[], map[];
    }

    /** `_short_held`: the latest real read plus this run's fills. */
    function ShortHeld(c: ContractId): int
      reads this
    {
      (if c in realShort then realShort[c] else 0) + IntAt(shortDelta, c)
    }

    /** The order an earlier place with this ref id made. */
    function Placed(refId: Option<RefId>): Option<SimOrder>
      reads this
    {
      if refId.Some? && refId.value in refIds then OrderWith(orders, refIds[refId.value]) else None
    }

    /** `_place`. A repeated ref id changes nothing; an accepted close never buys back more than
        the known short; an accepted order moves the short by its quantity, and no other. */
    method Place(args: PlaceArgs, instruments: map<ContractId, Instrument>, newId: OrderId) returns (reply: Reply)
      requires Valid() && OrderWith(orders, newId).None?
      modifies `orders, `refIds, `shortDelta, `filled, `filledInstruments
      ensures Valid()
      ensures reply.Refused? <==>
              || !Readable(args, instruments)
              || (old(Placed(args.refId)).None?
                  && !(args.side == Some(Sell) && args.effect == Some(OpenEffect))
                  && !(args.side == Some(Buy) && args.effect == Some(CloseEffect)
                       && old(ShortHeld(args.contract.value)) >= args.quantity.value))
      ensures reply.Refused? || old(Placed(args.refId)).Some? ==>
                && orders == old(orders) && refIds == old(refIds) && shortDelta == old(shortDelta)
                && filled == old(filled) && filledInstruments == old(filledInstruments)
      ensures reply.Accepted? ==>
                && (old(Placed(args.refId)).Some? ==> Some(reply.order) == old(Placed(args.refId)))
                && (args.refId.Some? ==> Placed(args.refId) == Some(reply.order))
      ensures reply.Accepted? && old(Placed(args.refId)).None? ==>
                var o := reply.order;
                && orders == old(orders) + [o]
                && o.id == newId && o.state == Filled && o.opening == (args.side == Some(Sell))
                && AsksFor(args, instruments, o.contract, if o.opening then Sell else Buy,
                           if o.opening then OpenEffect else CloseEffect, o.quantity, o.price, o.multiplier)
                && o.premium == o.price * o.quantity * o.multiplier
                && ShortHeld(o.contract)
                   == old(ShortHeld(o.contract)) + (if o.opening then o.quantity else -(o.quantity as int))
                && (!o.opening ==> ShortHeld(o.contract) >= 0)
                && forall c :: c != o.contract ==> ShortHeld(c) == old(ShortHeld(c))
    {
      var request := RequestOf(args, instruments);
      if request.None? { return Refused; }
      var req := request.value;
      if args.refId.Some? && args.refId.value in refIds {
        return Accepted(OrderWith(orders, refIds[args.refId.value]).value);
      }
      if !(req.Opening() || req.Closing()) { return Refused; }
      if req.Closing() && ShortHeld(req.contract) < req.quantity { return Refused; }
      ghost var was := orders;
      var order := Fill(req, instruments, args.refId, newId);
      NewestIsFound(was, order);
      return Accepted(order);
    }

    /** The effects of an accepted place: the order fills in full at its limit price. */
    method Fill(req: Request, instruments: map<ContractId, Instrument>, refId: Option<RefId>, newId: OrderId)
      returns (order: SimOrder)
      requires Valid() && OrderWith(orders, newId).None? && req.quantity > 0
      requires req.contract in instruments && instruments[req.contract].multiplier == Some(req.multiplier)
      modifies `orders, `refIds, `shortDelta, `filled, `filledInstruments
      ensures Valid()
      ensures order == SimOrder(newId, req.contract, req.Opening(), req.quantity, req.price, req.multiplier,
                                Premium(req.price, req.quantity, req.multiplier), Filled)
      ensures orders == old(orders) + [order]
      ensures shortDelta == old(shortDelta)[req.contract := IntAt(old(shortDelta), req.contract)
                                                            + Change(order.opening, order.quantity)]
      ensures refIds == if refId.Some? then old(refIds)[refId.value := newId] else old(refIds)
    {
      order := SimOrder(newId, req.contract, req.Opening(), req.quantity, req.price, req.multiplier,
                        Premium(req.price, req.quantity, req.multiplier), Filled);
      Enter(order, instruments[req.contract], refId);
    }

    method Enter(order: SimOrder, instrument: Instrument, refId: Option<RefId>)
      requires Valid() && OrderWith(orders, order.id).None? && order.state.Filled? && PaidInFull(order)
      requires instrument.multiplier.Some?
      modifies `orders, `refIds, `shortDelta, `filled, `filledInstruments
      ensures Valid() && orders == old(orders) + [order]
      ensures refIds == if refId.Some? then old(refIds)[refId.value := order.id] else old(refIds)
      ensures shortDelta == old(shortDelta)[order.contract := IntAt(old(shortDelta), order.contract)
                                                              + Change(order.opening, order.quantity)]
    {
      FillKeepsBooks(orders, refIds, shortDelta, filled, filledInstruments, order, instrument, refId);
      orders, refIds, shortDelta, filled, filledInstruments :=
        orders + [order], if refId.Some? then refIds[refId.value := order.id] else refIds,
        shortDelta[order.contract := IntAt(shortDelta, order.contract) + Change(order.opening, order.quantity)],
        ListKey(filled, order.contract), filledInstruments[order.contract := instrument];
    }

    /** `_cancel`: a simulated order is already filled, so only a working real order that was
        read, and is not yet cancelled here, can be. */
    method Cancel(account: bool, orderId: Option<OrderId>, now: int) returns (accepted: bool)
      requires Valid()
      modifies `realCancelled
      ensures Valid()
      ensures accepted <==> account && orderId.Some? && OrderWith(orders, orderId.value).None?
                            && orderId.value in realWorking && orderId.value !in old(realCancelled)
      ensures realCancelled == if accepted then old(realCancelled)[orderId.value := now] else old(realCancelled)
    {
      if !account || orderId.None? { return false; }
      var order := OrderWith(orders, orderId.value);
      if order.Some? {
        OrderIsListed(orders, orderId.value);
        assert order.value.state.Filled?;
        return false;
      }
      if orderId.value in realWorking && orderId.value !in realCancelled {
        realCancelled := realCancelled[orderId.value := now];
        return true;
      }
      return false;
    }

    /** `_observe_real`: a working real order cancelled here reads cancelled ever after. */
    method ObserveReal(order: RealOrder) returns (shown: RealOrder)
      requires Valid()
      modifies `realWorking
      ensures Valid()
      ensures realWorking == if order.state.Working? then old(realWorking) + {order.id} else old(realWorking)
      ensures shown.id == order.id
      ensures shown.state == if order.state.Working? && order.id in realCancelled then Cancelled else order.state
    {
      if order.state.Working? {
        realWorking := realWorking + {order.id};
      }
      shown := if order.id in realCancelled && order.state.Working? then order.(state := Cancelled) else order;
    }

    /** `_overlay_positions`. */
    method OverlayPositions(rows: seq<Row>, firstPage: bool) returns (listed: seq<Row>)
      requires Valid()
      modifies `realShort
      ensures Valid()
      ensures listed == Overlaid(rows, shortDelta, filled, firstPage)
      ensures forall i :: 0 <= i < |listed| ==> IsShown(listed[i], rows, shortDelta, filled)
      ensures forall c :: c in realShort <==> c in old(realShort) || LastShort(rows, c) > 0
      ensures forall c :: c in realShort ==>
                realShort[c] == if LastShort(rows, c) > 0 then LastShort(rows, c) else old(realShort)[c]
    {
      var adjusted: seq<Row> := [];
      for k := 0 to |rows|
        invariant adjusted == Adjusted(rows[..k], shortDelta)
        invariant forall c :: c in realShort <==> c in old(realShort) || LastShort(rows[..k], c) > 0
        invariant forall c :: c in realShort ==>
                    realShort[c] == if LastShort(rows[..k], c) > 0 then LastShort(rows[..k], c) else old(realShort)[c]
      {
        assert rows[..k + 1][..k] == rows[..k];
        var row := rows[k];
        if Reads(row) { realShort := realShort[row.contract := row.quantity.n]; }
        adjusted := adjusted + [AdjustedRow(row, shortDelta)];
      }
      assert rows[..|rows|] == rows;
      var added: seq<Row> := [];
      for k := 0 to |filled|
        invariant added == NewRows(rows, shortDelta, filled[..k], firstPage)
      {
        assert filled[..k + 1][..k] == filled[..k];
        if firstPage && IntAt(shortDelta, filled[k]) > 0 && !Seen(rows, filled[k]) {
          added := added + [NewRow(filled[k], IntAt(shortDelta, filled[k]))];
        }
      }
      assert filled[..|filled|] == filled;
      listed := added + adjusted;
      AllAreShown(rows, shortDelta, filled, firstPage);
    }

    /** The tool's idempotency key: the same place again returns the same order, or refuses
        again, and leaves the broker as it was. */
    method PlaceTwice(args: PlaceArgs, instruments: map<ContractId, Instrument>, newId: OrderId, otherId: OrderId)
      returns (first: Reply, second: Reply)
      requires Valid() && args.refId.Some?
      requires OrderWith(orders, newId).None? && OrderWith(orders, otherId).None? && newId != otherId
      modifies `orders, `refIds, `shortDelta, `filled, `filledInstruments
      ensures Valid() && first == second
      ensures |orders| <= |old(orders)| + 1
    {
      first := Place(args, instruments, newId);
      ghost var was := (orders, refIds, shortDelta, filled, filledInstruments);
      OtherIdStaysFree(old(orders), orders, otherId);
      second := Place(args, instruments, otherId);
      assert was == (orders, refIds, shortDelta, filled, filledInstruments);
    }
  }

  lemma OtherIdStaysFree(before: seq<SimOrder>, after: seq<SimOrder>, id: OrderId)
    requires OrderWith(before, id).None?
    requires after == before || (|after| == |before| + 1 && after[..|before|] == before && after[|before|].id != id)
    ensures OrderWith(after, id).None?
  { }

  // ---- The overlay of a positions read -----------------------------------------------------

  function Largest0(n: int): nat { if n > 0 then n else 0 }

  /** A row that says how many contracts are short (`_count_string`, the mapper's reading). */
  predicate Counts(row: Row) { row.short && row.quantity.n > 0 }

  /** A row whose count this broker reads (`_count`): digits alone, under the id fills carry. */
  predicate Reads(row: Row) { Counts(row) && row.quantity.Plain? && row.plainId }

  predicate Seen(rows: seq<Row>, c: ContractId) {
    exists i :: 0 <= i < |rows| && rows[i].contract == c && rows[i].plainId
  }

  function LastShort(rows: seq<Row>, c: ContractId): nat {
    if rows == [] then 0
    else
      var row := rows[|rows| - 1];
      if Reads(row) && row.contract == c then row.quantity.n else LastShort(rows[..|rows| - 1], c)
  }

  function AdjustedRow(row: Row, deltas: Deltas): Row {
    if Reads(row) then row.(quantity := Plain(Largest0(row.quantity.n + IntAt(deltas, row.contract)))) else row
  }

  function Adjusted(rows: seq<Row>, deltas: Deltas): (adjusted: seq<Row>)
    ensures |adjusted| == |rows|
  {
    if rows == [] then [] else Adjusted(rows[..|rows| - 1], deltas) + [AdjustedRow(rows[|rows| - 1], deltas)]
  }

  /** `_new_short_row`. */
  function NewRow(c: ContractId, delta: int): Row { Row(c, true, true, Plain(Largest0(delta))) }

  function NewRows(rows: seq<Row>, deltas: Deltas, filled: seq<ContractId>, firstPage: bool): seq<Row> {
    if filled == [] then []
    else
      var c := filled[|filled| - 1];
      NewRows(rows, deltas, filled[..|filled| - 1], firstPage)
      + if firstPage && IntAt(deltas, c) > 0 && !Seen(rows, c) then [NewRow(c, IntAt(deltas, c))] else []
  }

  function Overlaid(rows: seq<Row>, deltas: Deltas, filled: seq<ContractId>, firstPage: bool): seq<Row> {
    NewRows(rows, deltas, filled, firstPage) + Adjusted(rows, deltas)
  }

  /** A row of the read, with at most its quantity adjusted, or a short row for a contract's fills, under
      the id fills carry. */
  ghost predicate IsShown(row: Row, rows: seq<Row>, deltas: Deltas, filled: seq<ContractId>) {
    || (exists i :: 0 <= i < |rows| && row == rows[i].(quantity := row.quantity))
    || (row.contract in filled && IntAt(deltas, row.contract) > 0 && row == Row(row.contract, true, true, row.quantity))
  }

  lemma {:induction false} AdjustedAreShown(rows: seq<Row>, deltas: Deltas, i: nat)
    requires i < |rows|
    ensures Adjusted(rows, deltas)[i] == rows[i].(quantity := Adjusted(rows, deltas)[i].quantity)
  {
    if i < |rows| - 1 { AdjustedAreShown(rows[..|rows| - 1], deltas, i); }
  }

  lemma {:induction false} NewAreShown(rows: seq<Row>, deltas: Deltas, filled: seq<ContractId>, firstPage: bool, i: nat)
    requires i < |NewRows(rows, deltas, filled, firstPage)|
    ensures var row := NewRows(rows, deltas, filled, firstPage)[i];
            row.contract in filled && IntAt(deltas, row.contract) > 0 && row == Row(row.contract, true, true, row.quantity)
  {
    var n := |filled| - 1;
    if i < |NewRows(rows, deltas, filled[..n], firstPage)| {
      NewAreShown(rows, deltas, filled[..n], firstPage, i);
    } else {
      assert filled[n] in filled;
    }
  }

  lemma AllAreShown(rows: seq<Row>, deltas: Deltas, filled: seq<ContractId>, firstPage: bool)
    ensures var listed := Overlaid(rows, deltas, filled, firstPage);
            forall i :: 0 <= i < |listed| ==> IsShown(listed[i], rows, deltas, filled)
  {
    var added := NewRows(rows, deltas, filled, firstPage);
    var listed := Overlaid(rows, deltas, filled, firstPage);
    forall i | 0 <= i < |listed| ensures IsShown(listed[i], rows, deltas, filled) {
      if i < |added| {
        NewAreShown(rows, deltas, filled, firstPage, i);
      } else {
        AdjustedAreShown(rows, deltas, i - |added|);
      }
    }
  }

  /** The contracts short over all rows of the contract. */
  function Total(rows: seq<Row>, c: ContractId): nat {
    if rows == [] then 0
    else
      var row := rows[|rows| - 1];
      Total(rows[..|rows| - 1], c) + if row.short && row.contract == c then row.quantity.n else 0
  }

  /** The rows that say the contract is short. The mapper refuses a read with two. */
  function Rows(rows: seq<Row>, c: ContractId): nat {
    if rows == [] then 0
    else
      var row := rows[|rows| - 1];
      Rows(rows[..|rows| - 1], c) + if Counts(row) && row.contract == c then 1 else 0
  }

  /** The one row that says the contract is short, if any. */
  function ShortRowOf(rows: seq<Row>, c: ContractId): Option<Row> {
    if rows == [] then None
    else
      var row := rows[|rows| - 1];
      if Counts(row) && row.contract == c then Some(row) else ShortRowOf(rows[..|rows| - 1], c)
  }

  ghost predicate DistinctShorts(rows: seq<Row>) { forall c :: Rows(rows, c) <= 1 }

  /** Without a row that says so the total is nothing; with one it is that row's count. */
  lemma {:induction false} TotalIs(rows: seq<Row>, c: ContractId)
    ensures Rows(rows, c) == 0 <==> ShortRowOf(rows, c).None?
    ensures Rows(rows, c) == 0 ==> Total(rows, c) == 0
    ensures Rows(rows, c) == 1 ==> Total(rows, c) == ShortRowOf(rows, c).value.quantity.n > 0
    ensures ShortRowOf(rows, c).Some? ==> Counts(ShortRowOf(rows, c).value) && ShortRowOf(rows, c).value.contract == c
  {
    if rows != [] { TotalIs(rows[..|rows| - 1], c); }
  }

  lemma {:induction false} TotalOfBoth(a: seq<Row>, b: seq<Row>, c: ContractId)
    ensures Total(a + b, c) == Total(a, c) + Total(b, c)
    ensures Rows(a + b, c) == Rows(a, c) + Rows(b, c)
  {
    if b == [] {
      assert a + b == a;
    } else {
      var n := |b| - 1;
      assert (a + b)[..|a| + n] == a + b[..n];
      TotalOfBoth(a, b[..n], c);
    }
  }

  /** What a row that says the contract is short shows after the adjustment. */
  function Shown(row: Row, deltas: Deltas): nat {
    if Reads(row) then Largest0(row.quantity.n + IntAt(deltas, row.contract)) else row.quantity.n
  }

  lemma {:induction false} AdjustedTotal(rows: seq<Row>, deltas: Deltas, c: ContractId)
    requires Rows(rows, c) <= 1
    ensures var row := ShortRowOf(rows, c);
            Total(Adjusted(rows, deltas), c) == if row.None? then 0 else Shown(row.value, deltas)
  {
    if rows != [] {
      var n := |rows| - 1;
      TotalIs(rows[..n], c);
      AdjustedTotal(rows[..n], deltas, c);
      TotalOfBoth(Adjusted(rows[..n], deltas), [AdjustedRow(rows[n], deltas)], c);
      OneRow(AdjustedRow(rows[n], deltas), c);
    }
  }

  lemma {:induction false} AdjustedRows(rows: seq<Row>, deltas: Deltas, c: ContractId)
    requires Rows(rows, c) <= 1
    ensures var row := ShortRowOf(rows, c);
            Rows(Adjusted(rows, deltas), c) == if row.Some? && Shown(row.value, deltas) > 0 then 1 else 0
  {
    if rows != [] {
      TotalIs(rows[..|rows| - 1], c);
      AdjustedRows(rows[..|rows| - 1], deltas, c);
    }
  }

  lemma {:induction false} NewRowsTotal(rows: seq<Row>, deltas: Deltas, filled: seq<ContractId>, c: ContractId)
    requires forall i, j :: 0 <= i < j < |filled| ==> filled[i] != filled[j]
    ensures var listed := c in filled && !Seen(rows, c) && IntAt(deltas, c) > 0;
            && Total(NewRows(rows, deltas, filled, true), c) == (if listed then Largest0(IntAt(deltas, c)) else 0)
            && Rows(NewRows(rows, deltas, filled, true), c) == if listed then 1 else 0
  {
    if filled != [] {
      var n := |filled| - 1;
      NewRowsTotal(rows, deltas, filled[..n], c);
      assert c in filled <==> c in filled[..n] || c == filled[n];
      var more, row := NewRows(rows, deltas, filled[..n], true), NewRow(filled[n], IntAt(deltas, filled[n]));
      OneRow(row, c);
      TotalOfBoth(more, [row], c);
      if IntAt(deltas, filled[n]) > 0 && !Seen(rows, filled[n]) {
        assert NewRows(rows, deltas, filled, true) == more + [row];
      } else {
        assert NewRows(rows, deltas, filled, true) == more;
      }
    }
  }

  lemma OneRow(row: Row, c: ContractId)
    ensures Total([row], c) == if row.short && row.contract == c then row.quantity.n else 0
    ensures Rows([row], c) == if Counts(row) && row.contract == c then 1 else 0
  {
    assert [row][..0] == [];
  }

  /** What a first-page read shows short after the overlay: its own row, adjusted when this broker
      reads its count, and a row for the fills when the contract's id is not listed. */
  lemma OverlaidTotal(rows: seq<Row>, deltas: Deltas, filled: seq<ContractId>, c: ContractId)
    requires Rows(rows, c) <= 1 && KeysListed(deltas, filled)
    ensures var row, added := ShortRowOf(rows, c), if Seen(rows, c) then 0 else Largest0(IntAt(deltas, c));
            && Total(Overlaid(rows, deltas, filled, true), c)
               == added + (if row.None? then 0 else Shown(row.value, deltas))
            && Rows(Overlaid(rows, deltas, filled, true), c)
               == (if added > 0 then 1 else 0) + if row.Some? && Shown(row.value, deltas) > 0 then 1 else 0
  {
    TotalOfBoth(NewRows(rows, deltas, filled, true), Adjusted(rows, deltas), c);
    NewRowsTotal(rows, deltas, filled, c);
    AdjustedTotal(rows, deltas, c);
    AdjustedRows(rows, deltas, c);
  }

  /** A row that reads is listed under the contract's own id. */
  lemma {:induction false} ReadRowIsSeen(rows: seq<Row>, c: ContractId)
    requires ShortRowOf(rows, c).Some? && ShortRowOf(rows, c).value.plainId
    ensures Seen(rows, c)
  {
    var n := |rows| - 1;
    if !(Counts(rows[n]) && rows[n].contract == c) {
      ReadRowIsSeen(rows[..n], c);
      var i :| 0 <= i < n && rows[..n][i].contract == c && rows[..n][i].plainId;
      assert rows[i] == rows[..n][i];
    }
  }
}
