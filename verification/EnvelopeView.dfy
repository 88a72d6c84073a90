/** The whole view of an envelope (`agent/model_view.py`, `model_view`): its evidence stripped,
    its empty categories omitted, and its lists of like rows as tables. */
module EnvelopeView {
  import opened Optionals
  import opened Numerals
  import opened ModelView

  const DATA: Key := "data"
  const EVIDENCE: Key := "evidence"
  const EVIDENCE_REF: Key := "evidence_ref"
  const EVIDENCE_VIEW: Key := "evidence_view"
  const COMPACT := Str("compact.v1")
  const TABLE_KEYS: set<Key> := {"common", "columns", "rows"}

  function Get(fields: Fields, key: Key): Json { if key in fields then fields[key] else Null }

  /** The envelope carries mapped evidence and is not a view already. */
  predicate Carries(envelope: Fields) {
    && Get(envelope, DATA).Obj?
    && var data := Get(envelope, DATA).fields;
       EVIDENCE_REF in data && Get(data, EVIDENCE).Obj? && EVIDENCE_VIEW !in data
  }

  function EvidenceOf(envelope: Fields): Fields
    requires Get(envelope, DATA).Obj? && Get(envelope[DATA].fields, EVIDENCE).Obj?
  {
    envelope[DATA].fields[EVIDENCE].fields
  }

  /** `is_model_view`. */
  predicate IsView(envelope: Fields) { Get(envelope, DATA).Obj? && EVIDENCE_VIEW in Get(envelope, DATA).fields }

  // ---- One category ------------------------------------------------------------------------

  predicate Omitted(items: Json) { items == Null || items == Arr([]) }

  predicate AllObjects(items: seq<Json>) { forall i :: 0 <= i < |items| ==> items[i].Obj? }

  function RowsOf(items: seq<Json>): seq<Fields>
    requires AllObjects(items)
  {
    seq(|items|, i requires 0 <= i < |items| => items[i].fields)
  }

  function TableJson(table: Table): Json {
    Obj(map[
      "common" := Obj(table.common),
      "columns" := Arr(seq(|table.columns|, i requires 0 <= i < |table.columns| => Str(table.columns[i]))),
      "rows" := Arr(seq(|table.rows|, i requires 0 <= i < |table.rows| => Arr(table.rows[i])))])
  }

  ghost predicate Orders(rows: seq<Fields>, orders: seq<seq<Key>>) {
    |orders| == |rows| && forall i :: 0 <= i < |rows| ==> Lists(orders[i], rows[i])
  }

  /** What `tabulate` makes of the rows, whichever order it takes their keys in. */
  ghost predicate TabulatedAs(rows: seq<Fields>, orders: seq<seq<Key>>, table: Option<Table>)
    requires Orders(rows, orders)
  {
    && (table.None? <==> rows == [] || (!SameKeys(FlatRows(rows, orders)) && !SameKeys(rows)))
    && (table.Some? ==>
          && WellFormed(table.value)
          && Rebuild(table.value) == if SameKeys(FlatRows(rows, orders)) then FlatRows(rows, orders) else rows)
  }

  ghost predicate ShownAs(cleaned: Json, out: Json) {
    if cleaned.Arr? && |cleaned.items| >= 2 && AllObjects(cleaned.items) then
      exists orders, table | Orders(RowsOf(cleaned.items), orders) ::
        && TabulatedAs(RowsOf(cleaned.items), orders, table)
        && out == if table.Some? then TableJson(table.value) else cleaned
    else out == cleaned
  }

  method ListAll(rows: seq<Fields>) returns (orders: seq<seq<Key>>)
    ensures Orders(rows, orders)
  {
    orders := [];
    for i := 0 to |rows|
      invariant |orders| == i && forall j :: 0 <= j < i ==> Lists(orders[j], rows[j])
    {
      var keys := ListKeys(rows[i]);
      orders := orders + [keys];
    }
  }

  method Show(cleaned: Json) returns (out: Json)
    ensures ShownAs(cleaned, out)
  {
    if !cleaned.Arr? || |cleaned.items| < 2 || !AllObjects(cleaned.items) {
      return cleaned;
    }
    var rows := RowsOf(cleaned.items);
    var orders := ListAll(rows);
    var table := Tabulate(rows, orders);
    assert TabulatedAs(rows, orders, table);
    return if table.Some? then TableJson(table.value) else cleaned;
  }

  // ---- The view ----------------------------------------------------------------------------

  ghost predicate EvidenceShown(t: DigitTable, evidence: Fields, call: Json, at: Json, shown: Fields) {
    && (forall c :: c in shown <==> c in evidence && !Omitted(evidence[c]))
    && forall c :: c in shown ==> ShownAs(Strip(t, evidence[c], call, at), shown[c])
  }

  function WithEvidence(envelope: Fields, shown: Fields): Fields
    requires Get(envelope, DATA).Obj?
  {
    envelope[DATA := Obj(envelope[DATA].fields[EVIDENCE_VIEW := COMPACT][EVIDENCE := Obj(shown)])]
  }

  ghost predicate ViewIs(t: DigitTable, envelope: Fields, view: Fields) {
    if !Carries(envelope) then view == envelope
    else exists shown :: view == WithEvidence(envelope, shown)
           && EvidenceShown(t, EvidenceOf(envelope), Get(envelope, "tool_call_id"), Get(envelope, "retrieved_at"), shown)
  }

  /** `model_view`. */
  method View(t: DigitTable, envelope: Fields) returns (view: Fields)
    ensures ViewIs(t, envelope, view)
  {
    if !Carries(envelope) {
      return envelope;
    }
    var shown := ShowAll(t, EvidenceOf(envelope), Get(envelope, "tool_call_id"), Get(envelope, "retrieved_at"));
    return WithEvidence(envelope, shown);
  }

  method ShowAll(t: DigitTable, evidence: Fields, call: Json, at: Json) returns (shown: Fields)
    ensures EvidenceShown(t, evidence, call, at, shown)
  {
    shown := map[];
    var left := evidence.Keys;
    while left != {}
      invariant left <= evidence.Keys
      invariant forall c :: c in shown <==> c in evidence && c !in left && !Omitted(evidence[c])
      invariant forall c :: c in shown ==> ShownAs(Strip(t, evidence[c], call, at), shown[c])
    {
      var c :| c in left;
      left := left - {c};
      if !Omitted(evidence[c]) {
        var out := Show(Strip(t, evidence[c], call, at));
        shown := shown[c := out];
      }
    }
  }

  // ---- Shown twice, and read back ------------------------------------------------------------

  /** The view of a view is that view, and only an envelope with mapped evidence becomes one. */
  lemma ViewedTwice(t: DigitTable, envelope: Fields, view: Fields, again: Fields)
    requires ViewIs(t, envelope, view) && ViewIs(t, view, again)
    ensures again == view
    ensures IsView(view) <==> IsView(envelope) || Carries(envelope)
    ensures forall k :: k != DATA ==> (k in view <==> k in envelope) && Get(view, k) == Get(envelope, k)
  {
    if Carries(envelope) {
      var shown :| view == WithEvidence(envelope, shown)
        && EvidenceShown(t, EvidenceOf(envelope), Get(envelope, "tool_call_id"), Get(envelope, "retrieved_at"), shown);
      assert Get(view, DATA).fields[EVIDENCE_VIEW] == COMPACT;
    }
  }

  /** The table a reader sees in a category, if it is one. */
  function TableOf(v: Json): Option<Table> {
    if v.Obj? && v.fields.Keys == TABLE_KEYS && v.fields["common"].Obj?
       && v.fields["columns"].Arr? && v.fields["rows"].Arr?
       && (forall i :: 0 <= i < |v.fields["columns"].items| ==> v.fields["columns"].items[i].Str?)
       && (forall i :: 0 <= i < |v.fields["rows"].items| ==> v.fields["rows"].items[i].Arr?)
    then
      var columns, rows := v.fields["columns"].items, v.fields["rows"].items;
      Some(Table(v.fields["common"].fields,
                 seq(|columns|, i requires 0 <= i < |columns| => columns[i].text),
                 seq(|rows|, i requires 0 <= i < |rows| => rows[i].items)))
    else None
  }

  lemma TableReadBack(table: Table)
    ensures TableOf(TableJson(table)) == Some(table)
  {
    var v := TableJson(table);
    assert v.fields.Keys == TABLE_KEYS;
    var read := TableOf(v).value;
    assert read.columns == table.columns;
    assert read.rows == table.rows;
  }

  /** A reader's list of rows: a table's rebuilt, with its dotted keys nested again. */
  function ReadBack(v: Json): Json {
    if TableOf(v).Some? && WellFormed(TableOf(v).value) then
      Arr(Nested(Rebuild(TableOf(v).value)))
    else v
  }

  predicate NoRowHasPoints(items: seq<Json>)
    requires AllObjects(items)
  {
    forall i :: 0 <= i < |items| ==> NoPoints(items[i].fields)
  }

  lemma PlainUndotAt(row: Fields, key: Key)
    requires NoPoints(row)
    ensures Lookup(Undot(row), key) == Lookup(row, key)
  {
    forall d | d in row ensures Head(d) == d { assert Point(d) == |d|; }
  }

  /** A row without points is its own nested form, and only such a row is. */
  lemma UndotItselfExactlyWhen(row: Fields)
    ensures Undot(row) == row <==> NoPoints(row)
  {
    if NoPoints(row) {
      var nested := Undot(row);
      forall key ensures Lookup(nested, key) == Lookup(row, key) { PlainUndotAt(row, key); }
      SameLookups(nested, row);
    } else {
      var key :| key in row && Point(key) != |key|;
      NotUndotted(row, key);
    }
  }

  /** The rows a table holds nest back to the rows it was made of exactly when they have no points. */
  lemma RowsNestBack(rows: seq<Fields>, orders: seq<seq<Key>>, table: Table, i: nat)
    requires Orders(rows, orders) && TabulatedAs(rows, orders, Some(table)) && i < |rows|
    ensures |Rebuild(table)| == |rows|
    ensures Undot(Rebuild(table)[i]) == rows[i] <==> NoPoints(rows[i])
  {
    if SameKeys(FlatRows(rows, orders)) {
      assert Lists(orders[i], rows[i]);
      UndotFlattenExactlyWhen(rows[i], orders[i]);
    } else {
      UndotItselfExactlyWhen(rows[i]);
    }
  }

  function Nested(rows: seq<Fields>): seq<Json> { seq(|rows|, i requires 0 <= i < |rows| => Obj(Undot(rows[i]))) }

  lemma TableNests(table: Table)
    requires WellFormed(table)
    ensures ReadBack(TableJson(table)) == Arr(Nested(Rebuild(table)))
  {
    TableReadBack(table);
  }

  lemma NestedIs(items: seq<Json>, rows: seq<Fields>)
    requires AllObjects(items) && |rows| == |items|
    requires forall i :: 0 <= i < |items| ==> (Undot(rows[i]) == items[i].fields <==> NoPoints(items[i].fields))
    ensures Nested(rows) == items <==> NoRowHasPoints(items)
  {
    if NoRowHasPoints(items) {
      forall i | 0 <= i < |items| ensures Nested(rows)[i] == items[i] { }
    } else {
      var i :| 0 <= i < |items| && !NoPoints(items[i].fields);
      assert Nested(rows)[i] == Obj(Undot(rows[i]));
    }
  }

  lemma TableCategoryReadsBack(items: seq<Json>, orders: seq<seq<Key>>, table: Table)
    requires AllObjects(items) && Orders(RowsOf(items), orders) && TabulatedAs(RowsOf(items), orders, Some(table))
    requires items != []
    ensures ReadBack(TableJson(table)) == Arr(items) <==> NoRowHasPoints(items)
  {
    var rows, rebuilt := RowsOf(items), Rebuild(table);
    forall i | 0 <= i < |items|
      ensures |rebuilt| == |items| && (Undot(rebuilt[i]) == items[i].fields <==> NoPoints(items[i].fields))
    {
      RowsNestBack(rows, orders, table, i);
    }
    TableNests(table);
    NestedIs(items, rebuilt);
  }

  /** What the reader gets back of a category is exactly its stripped rows: always when it was left
      as a list, and when it became a table exactly if no row's key has a point. */
  lemma CategoryReadsBackExactlyWhen(cleaned: Json, out: Json)
    requires ShownAs(cleaned, out) && cleaned.Arr?
    ensures out.Arr? || AllObjects(cleaned.items)
    ensures ReadBack(out) == cleaned <==> out.Arr? || NoRowHasPoints(cleaned.items)
  {
    if |cleaned.items| >= 2 && AllObjects(cleaned.items) {
      var orders, table :| Orders(RowsOf(cleaned.items), orders) && TabulatedAs(RowsOf(cleaned.items), orders, table)
                           && out == if table.Some? then TableJson(table.value) else cleaned;
      if table.Some? { TableCategoryReadsBack(cleaned.items, orders, table.value); }
    }
  }

  /** No evidence the strip keeps is lost: every category that is a non-empty list is read back from
      the view as it was stripped, exactly when it was left as a list or no key of its rows has a
      point; and an empty one is not in the view. */
  lemma ViewIsLossless(t: DigitTable, envelope: Fields, view: Fields, category: Key)
    requires Carries(envelope) && ViewIs(t, envelope, view)
    requires category in EvidenceOf(envelope) && EvidenceOf(envelope)[category].Arr?
    ensures Get(view, DATA).Obj? && Get(view[DATA].fields, EVIDENCE).Obj?
    ensures var kept := EvidenceOf(envelope)[category];
            var cleaned := Strip(t, kept, Get(envelope, "tool_call_id"), Get(envelope, "retrieved_at"));
            if kept == Arr([]) then category !in EvidenceOf(view)
            else && category in EvidenceOf(view)
                 && (ReadBack(EvidenceOf(view)[category]) == cleaned
                     <==> EvidenceOf(view)[category].Arr? || (AllObjects(cleaned.items) && NoRowHasPoints(cleaned.items)))
  {
    var call, at := Get(envelope, "tool_call_id"), Get(envelope, "retrieved_at");
    var shown :| view == WithEvidence(envelope, shown) && EvidenceShown(t, EvidenceOf(envelope), call, at, shown);
    assert view[DATA].fields[EVIDENCE] == Obj(shown);
    var kept := EvidenceOf(envelope)[category];
    if kept != Arr([]) {
      CategoryReadsBackExactlyWhen(Strip(t, kept, call, at), shown[category]);
    }
  }
}
