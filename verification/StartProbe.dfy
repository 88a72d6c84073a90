/** The start probe's view of a dry run (`agent/start_probe.py`): its own overlay of the
    simulated fills, and the cash they spent. */
module StartProbe {
  import opened Optionals
  import opened SimulatedBroker

  datatype ShortRow = ShortRow(quantity: nat, multiplier: nat)
  type Held = map<ContractId, ShortRow>

  function QuantityAt(held: Held, c: ContractId): nat { if c in held then held[c].quantity else 0 }

  lemma {:induction false} RowsGrow(rows: seq<Row>, k: nat, c: ContractId)
    requires k <= |rows|
    ensures Rows(rows[..k], c) <= Rows(rows, c)
  {
    if k < |rows| {
      RowsGrow(rows[..|rows| - 1], k, c);
      assert rows[..|rows| - 1][..k] == rows[..k];
    } else {
      assert rows[..k] == rows;
    }
  }

  lemma OneRowOnly(rows: seq<Row>, k: nat)
    requires DistinctShorts(rows) && k < |rows| && Counts(rows[k])
    ensures Total(rows[..k], rows[k].contract) == 0
  {
    RowsGrow(rows, k + 1, rows[k].contract);
    assert rows[..k + 1][..k] == rows[..k];
    assert Rows(rows, rows[k].contract) <= 1;
    TotalIs(rows[..k], rows[k].contract);
  }

  /** `short_rows`: the short rows of a complete read, keyed by contract. `multipliers` is what
      the rows themselves say of each contract. */
  method ShortRows(rows: seq<Row>, multipliers: map<ContractId, nat>) returns (held: Held)
    requires DistinctShorts(rows) && forall i :: 0 <= i < |rows| ==> rows[i].contract in multipliers
    ensures forall c :: QuantityAt(held, c) == Total(rows, c)
    ensures forall c :: c in held ==> held[c].quantity > 0
  {
    held := map[];
    for k := 0 to |rows|
      invariant forall c :: QuantityAt(held, c) == Total(rows[..k], c)
      invariant forall c :: c in held ==> held[c].quantity > 0
    {
      assert rows[..k + 1][..k] == rows[..k];
      if Counts(rows[k]) {
        OneRowOnly(rows, k);
        held := held[rows[k].contract := ShortRow(rows[k].quantity.n, multipliers[rows[k].contract])];
      }
    }
    assert rows[..|rows|] == rows;
  }

  /** One fill of the overlay: None when no read or fill says what the contract is. */
  function Apply(held: Held, c: ContractId, delta: int, instrument: Option<Instrument>): Option<Held> {
    var quantity := QuantityAt(held, c) + delta;
    if c !in held && instrument.None? then None
    else if quantity <= 0 then Some(held - {c})
    else if c in held then Some(held[c := held[c].(quantity := quantity)])
    else if instrument.value.multiplier.Some? then Some(held[c := ShortRow(quantity, instrument.value.multiplier.value)])
    else None
  }

  lemma ApplyIs(held: Held, c: ContractId, delta: int, instrument: Option<Instrument>)
    requires instrument.Some? && instrument.value.multiplier.Some?
    requires forall d :: d in held ==> held[d].quantity > 0
    ensures var next := Apply(held, c, delta, instrument);
            && next.Some?
            && (forall d :: QuantityAt(next.value, d)
                  == if d == c then Largest0(QuantityAt(held, c) + delta) else QuantityAt(held, d))
            && forall d :: d in next.value ==> next.value[d].quantity > 0
  { }

  /** `overlay_simulated`: the probe never fails on a broker's own books, and holds of every
      contract the real short plus the fills, when positive. */
  method OverlaySimulated(rows: seq<Row>, multipliers: map<ContractId, nat>, broker: SimulatedBroker)
    returns (result: Option<Held>)
    requires broker.Valid()
    requires DistinctShorts(rows) && forall i :: 0 <= i < |rows| ==> rows[i].contract in multipliers
    ensures result.Some?
    ensures forall c :: QuantityAt(result.value, c) == Largest0(Total(rows, c) + IntAt(broker.shortDelta, c))
    ensures forall c :: c in result.value ==> result.value[c].quantity > 0
  {
    var held := ShortRows(rows, multipliers);
    var filled := broker.filled;
    for k := 0 to |filled|
      invariant forall c :: QuantityAt(held, c)
                  == if c in filled[..k] then Largest0(Total(rows, c) + IntAt(broker.shortDelta, c)) else Total(rows, c)
      invariant forall c :: c in held ==> held[c].quantity > 0
    {
      var c := filled[k];
      assert c in broker.shortDelta;
      assert c !in filled[..k];
      var instrument := Some(broker.filledInstruments[c]);
      ApplyIs(held, c, broker.shortDelta[c], instrument);
      held := Apply(held, c, broker.shortDelta[c], instrument).value;
      assert forall d :: d in filled[..k + 1] <==> d in filled[..k] || d == c;
    }
    assert filled[..|filled|] == filled;
    result := Some(held);
  }

  /** A contract the read lists only with nothing short, that this run sold to open. */
  predicate HiddenFill(rows: seq<Row>, deltas: Deltas, c: ContractId) {
    Rows(rows, c) == 0 && Seen(rows, c) && IntAt(deltas, c) > 0
  }

  /** A contract with fills whose short row the mapper counts and the broker does not read: its
      quantity is a decimal text, or its id is in another letter case. */
  predicate UnreadRow(rows: seq<Row>, deltas: Deltas, c: ContractId) {
    ShortRowOf(rows, c).Some? && !Reads(ShortRowOf(rows, c).value) && IntAt(deltas, c) != 0
  }

  /** The model's read after the broker's overlay maps, and shows what the probe holds. */
  ghost predicate Agree(rows: seq<Row>, deltas: Deltas, filled: seq<ContractId>, held: Held) {
    forall c :: Rows(Overlaid(rows, deltas, filled, true), c) <= 1
                && Total(Overlaid(rows, deltas, filled, true), c) == QuantityAt(held, c)
  }

  lemma AgreeAt(rows: seq<Row>, deltas: Deltas, filled: seq<ContractId>, c: ContractId)
    requires Rows(rows, c) <= 1 && KeysListed(deltas, filled)
    ensures && Rows(Overlaid(rows, deltas, filled, true), c) <= 1
            && Total(Overlaid(rows, deltas, filled, true), c) == Largest0(Total(rows, c) + IntAt(deltas, c))
            <==> !HiddenFill(rows, deltas, c) && !UnreadRow(rows, deltas, c)
  {
    OverlaidTotal(rows, deltas, filled, c);
    TotalIs(rows, c);
    if ShortRowOf(rows, c).Some? && ShortRowOf(rows, c).value.plainId { ReadRowIsSeen(rows, c); }
  }

  /** The two overlays of one complete read agree exactly when no contract listed with nothing
      short was sold to open in simulation, and no contract with fills has a row the broker does
      not read. */
  lemma OverlaysAgreeExactlyWhen(rows: seq<Row>, deltas: Deltas, filled: seq<ContractId>, held: Held)
    requires DistinctShorts(rows) && KeysListed(deltas, filled)
    requires forall c :: QuantityAt(held, c) == Largest0(Total(rows, c) + IntAt(deltas, c))
    ensures Agree(rows, deltas, filled, held)
            <==> forall c :: !HiddenFill(rows, deltas, c) && !UnreadRow(rows, deltas, c)
  {
    forall c
      ensures Rows(Overlaid(rows, deltas, filled, true), c) <= 1
              && Total(Overlaid(rows, deltas, filled, true), c) == QuantityAt(held, c)
              <==> !HiddenFill(rows, deltas, c) && !UnreadRow(rows, deltas, c)
    {
      assert Rows(rows, c) <= 1;
      AgreeAt(rows, deltas, filled, c);
    }
  }

  /** They agree on every read of positive short rows the broker reads, for every fill history. */
  lemma OverlaysAgreeOnReadRows(rows: seq<Row>, deltas: Deltas, filled: seq<ContractId>, held: Held)
    requires DistinctShorts(rows) && KeysListed(deltas, filled)
    requires forall i :: 0 <= i < |rows| ==> Reads(rows[i])
    requires forall c :: QuantityAt(held, c) == Largest0(Total(rows, c) + IntAt(deltas, c))
    ensures Agree(rows, deltas, filled, held)
  {
    forall c
      ensures Rows(Overlaid(rows, deltas, filled, true), c) <= 1
              && Total(Overlaid(rows, deltas, filled, true), c) == QuantityAt(held, c)
    {
      AgreeAtRead(rows, deltas, filled, held, c);
    }
  }

  lemma AgreeAtRead(rows: seq<Row>, deltas: Deltas, filled: seq<ContractId>, held: Held, c: ContractId)
    requires DistinctShorts(rows) && KeysListed(deltas, filled)
    requires forall i :: 0 <= i < |rows| ==> Reads(rows[i])
    requires QuantityAt(held, c) == Largest0(Total(rows, c) + IntAt(deltas, c))
    ensures Rows(Overlaid(rows, deltas, filled, true), c) <= 1
    ensures Total(Overlaid(rows, deltas, filled, true), c) == QuantityAt(held, c)
  {
    assert Rows(rows, c) <= 1;
    NothingHidden(rows, deltas, c);
    AgreeAt(rows, deltas, filled, c);
  }

  lemma NothingHidden(rows: seq<Row>, deltas: Deltas, c: ContractId)
    requires forall i :: 0 <= i < |rows| ==> Reads(rows[i])
    ensures !HiddenFill(rows, deltas, c) && !UnreadRow(rows, deltas, c)
  {
    AllReadOf(rows, c);
    TotalIs(rows, c);
  }

  lemma {:induction false} AllReadOf(rows: seq<Row>, c: ContractId)
    requires forall i :: 0 <= i < |rows| ==> Reads(rows[i])
    ensures Seen(rows, c) ==> Rows(rows, c) > 0
    ensures ShortRowOf(rows, c).Some? ==> Reads(ShortRowOf(rows, c).value)
  {
    if rows != [] {
      var n := |rows| - 1;
      AllReadOf(rows[..n], c);
      if Seen(rows, c) && !(rows[n].contract == c) {
        var i :| 0 <= i < |rows| && rows[i].contract == c && rows[i].plainId;
        assert rows[..n][i] == rows[i];
      }
    }
  }

  /** The overlays differ: the broker's own read keeps a closed row at zero after one contract of
      it is sold, while the probe counts it. */
  lemma ClosedRowHidesAFill()
    ensures var rows, deltas := [Row(7, true, true, Plain(0))], map[7 := 1];
            && HiddenFill(rows, deltas, 7) && Total(rows, 7) == 0
            && forall firstPage :: Overlaid(rows, deltas, [7], firstPage) == rows
  {
    OneRowUnchanged(Row(7, true, true, Plain(0)), map[7 := 1]);
  }

  /** The overlays differ: the broker leaves a row of "2.0000" as it is after one more contract is
      sold, while the probe counts three. */
  lemma DecimalRowHidesAFill()
    ensures var rows, deltas := [Row(7, true, true, Decimal(2))], map[7 := 1];
            && UnreadRow(rows, deltas, 7) && Total(rows, 7) == 2 && Largest0(Total(rows, 7) + IntAt(deltas, 7)) == 3
            && forall firstPage :: Overlaid(rows, deltas, [7], firstPage) == rows
  {
    OneRowUnchanged(Row(7, true, true, Decimal(2)), map[7 := 1]);
  }

  lemma OneRowUnchanged(row: Row, deltas: Deltas)
    requires row.plainId && !Reads(row)
    ensures Seen([row], row.contract) && Rows([row], row.contract) == (if Counts(row) then 1 else 0)
    ensures Total([row], row.contract) == if row.short then row.quantity.n else 0
    ensures ShortRowOf([row], row.contract) == if Counts(row) then Some(row) else None
    ensures forall firstPage :: Overlaid([row], deltas, [row.contract], firstPage) == [row]
  {
    OneRow(row, row.contract);
    assert [row][0].contract == row.contract;
    OneRowOf(row);
    forall firstPage ensures Overlaid([row], deltas, [row.contract], firstPage) == [row] {
      NothingAdded(row, deltas, firstPage);
      OneAdjusted(row, deltas);
    }
  }

  lemma OneRowOf(row: Row)
    ensures ShortRowOf([row], row.contract) == if Counts(row) then Some(row) else None
  {
    assert [row][..0] == [];
  }

  lemma NothingAdded(row: Row, deltas: Deltas, firstPage: bool)
    requires Seen([row], row.contract)
    ensures NewRows([row], deltas, [row.contract], firstPage) == []
  {
    assert [row.contract][..0] == [];
  }

  lemma OneAdjusted(row: Row, deltas: Deltas)
    ensures Adjusted([row], deltas) == [AdjustedRow(row, deltas)]
  {
    assert [row][..0] == [];
  }

  /** After one read a new broker accepts a close exactly when the last row it reads of the contract
      shows that many short. */
  method CloseAfterRead(
    rows: seq<Row>, firstPage: bool, close: PlaceArgs, instruments: map<ContractId, Instrument>)
    returns (reply: Reply)
    requires Readable(close, instruments) && close.side == Some(Buy) && close.effect == Some(CloseEffect)
    ensures reply.Accepted? <==> LastShort(rows, close.contract.value) >= close.quantity.value
  {
    var broker := new SimulatedBroker();
    var _ := broker.OverlayPositions(rows, firstPage);
    reply := broker.Place(close, instruments, 0);
  }

  const DECIMAL_ROWS: seq<Row> := [Row(7, true, true, Decimal(2))]
  const CLOSE_ONE: PlaceArgs := PlaceArgs(true, true, Some(7), Some(Buy), Some(CloseEffect), Some(1), Some(10), None)

  /** The broker does not know the short of a decimal row: two contracts are short, and after the read
      a close of one of them is refused. */
  method DecimalRowRefusesClose(firstPage: bool) returns (reply: Reply)
    ensures Total(DECIMAL_ROWS, 7) == 2 && CLOSE_ONE.contract == Some(7) && CLOSE_ONE.quantity == Some(1)
    ensures reply == Refused
  {
    var rows := DECIMAL_ROWS;
    assert rows[..0] == [];
    assert LastShort(rows, 7) == LastShort(rows[..0], 7) == 0;
    assert Total(rows, 7) == Total(rows[..0], 7) + 2;
    reply := CloseAfterRead(rows, firstPage, CLOSE_ONE, map[7 := Instrument(Some(100))]);
  }

  // ---- The cash simulated closes spent --------------------------------------------------------

  function OrderCost(o: SimOrder): nat { Premium(o.price, o.quantity, o.multiplier) }

  /** Price times quantity times multiplier over the accepted closes. */
  function CloseCost(orders: seq<SimOrder>): nat {
    if orders == [] then 0
    else CloseCost(orders[..|orders| - 1])
         + if orders[|orders| - 1].opening then 0 else OrderCost(orders[|orders| - 1])
  }

  /** `simulated_debits_usd`: the premium of the filled debit orders, which is every close. */
  method SimulatedDebits(broker: SimulatedBroker) returns (total: nat)
    requires broker.Valid()
    ensures total == CloseCost(broker.orders)
  {
    total := 0;
    for k := 0 to |broker.orders|
      invariant total == CloseCost(broker.orders[..k])
    {
      assert broker.orders[..k + 1][..k] == broker.orders[..k];
      var order := broker.orders[k];
      if !order.opening && order.state.Filled? {
        total := total + order.premium;
      }
    }
    assert broker.orders[..|broker.orders|] == broker.orders;
  }
}
