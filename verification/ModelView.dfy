/** What the model reads of an envelope (`agent/model_view.py`): evidence without internal ids
    and trailing zeros, and lists of like rows as tables. */
module ModelView {
  import opened Optionals
  import opened Numerals

  type Key = string
  type Fields = map<Key, Json>

  /** `Number` keeps its text. Objects compare without key order, as the canonical text of
      `_canonical` does. */
  datatype Json = Null | Bool(b: bool) | Number(n: string) | Str(text: string) | Arr(items: seq<Json>) | Obj(fields: Fields)

  const INTERNAL_ID_KEYS: set<Key> := {
    "evidence_id", "quote_id", "snapshot_id", "instrument_evidence_id", "evidence_ids",
    "csp_cash_base_evidence_ids", "positions_ref", "open_orders_ref", "tax_lots_ref"}
  const SOURCE_CALL_KEYS: set<Key> := {"source_tool_call_ids", "tool_call_ids"}
  const RETRIEVED_AT: Key := "retrieved_at"

  // ---- Decimal strings ---------------------------------------------------------------------

  /** Where the digits start. */
  function Start(s: string): nat { if s != "" && s[0] == '-' then 1 else 0 }

  /** The place of the first point; the length when there is none. */
  function Point(s: string): (d: nat)
    ensures d <= |s|
    ensures d < |s| ==> s[d] == '.'
    ensures forall i :: 0 <= i < d ==> s[i] != '.'
  {
    if s == "" || s[0] == '.' then 0 else 1 + Point(s[1..])
  }

  /** A sign, digits, and at most a point and digits. */
  predicate Numeric(t: DigitTable, s: string) {
    var p := Point(s);
    Start(s) < p && AllDigits(t, s[Start(s)..p]) && (p < |s| ==> AllDigits(t, s[p + 1..]))
  }

  /** `_DECIMAL_STRING`. */
  predicate IsDecimal(t: DigitTable, s: string) { Numeric(t, s) && Point(s) < |s| - 1 }

  /** `^-?\d+\.\d+$`. */
  predicate SignedDecimal(t: DigitTable, s: string, sign: string, whole: string, fraction: string) {
    && sign in {"", "-"} && whole != "" && fraction != "" && AllDigits(t, whole) && AllDigits(t, fraction)
    && s == sign + whole + "." + fraction
  }

  lemma DecimalExactlyWhen(t: DigitTable, s: string)
    requires IsTable(t)
    ensures IsDecimal(t, s) <==> exists sign, whole, fraction :: SignedDecimal(t, s, sign, whole, fraction)
  {
    if IsDecimal(t, s) {
      var p := Point(s);
      assert s[..Start(s)] == if Start(s) == 1 then "-" else "";
      assert s == s[..Start(s)] + s[Start(s)..p] + "." + s[p + 1..];
      assert SignedDecimal(t, s, s[..Start(s)], s[Start(s)..p], s[p + 1..]);
    }
    if exists sign, whole, fraction :: SignedDecimal(t, s, sign, whole, fraction) {
      var sign, whole, fraction :| SignedDecimal(t, s, sign, whole, fraction);
      PartsAreDecimal(t, s, sign, whole, fraction);
    }
  }

  lemma PartsAreDecimal(t: DigitTable, s: string, sign: string, whole: string, fraction: string)
    requires IsTable(t) && SignedDecimal(t, s, sign, whole, fraction)
    ensures IsDecimal(t, s)
  {
    var p := |sign| + |whole|;
    assert s[..|sign|] == sign && s[|sign|..p] == whole && s[p] == '.' && s[p + 1..] == fraction;
    assert whole[0] in t && s[|sign|] == whole[0];
    forall i | 0 <= i < p ensures s[i] != '.' {
      if i >= |sign| { assert s[i] == whole[i - |sign|]; }
    }
    PointIs(s, p);
    assert Start(s) == |sign|;
  }

  function TrimEnd(s: string, c: char): string {
    if s == "" || s[|s| - 1] != c then s else TrimEnd(s[..|s| - 1], c)
  }

  /** `value.rstrip("0").rstrip(".")`. */
  function Trim(s: string): string { TrimEnd(TrimEnd(s, '0'), '.') }

  function Fraction(t: DigitTable, f: string): real
    requires AllDigits(t, f)
  {
    ValueOf(t, f) as real / Pow10(|f|) as real
  }

  function Value(t: DigitTable, s: string): real
    requires Numeric(t, s)
  {
    Signed(Start(s), ValueOf(t, s[Start(s)..Point(s)]), FractionOf(t, s))
  }

  function Signed(start: nat, whole: nat, fraction: real): real {
    if start == 1 then -(whole as real + fraction) else whole as real + fraction
  }

  function FractionOf(t: DigitTable, s: string): real
    requires Numeric(t, s)
  {
    if Point(s) < |s| then Fraction(t, s[Point(s) + 1..]) else 0.0
  }

  lemma NoFraction(t: DigitTable)
    ensures Fraction(t, "") == 0.0
  { }

  lemma {:induction false} PointIs(s: string, d: nat)
    requires d <= |s| && (d < |s| ==> s[d] == '.') && forall i :: 0 <= i < d ==> s[i] != '.'
    ensures Point(s) == d
  { }

  lemma {:induction false} TrimEndJoin(a: string, b: string, c: char)
    requires a != "" && a[|a| - 1] != c
    ensures TrimEnd(a + b, c) == a + TrimEnd(b, c)
  {
    if b == "" {
      assert a + b == a;
    } else if b[|b| - 1] == c {
      assert (a + b)[..|a + b| - 1] == a + b[..|b| - 1];
      TrimEndJoin(a, b[..|b| - 1], c);
    }
  }

  lemma {:induction false} TrimmedDigits(t: DigitTable, f: string)
    requires IsTable(t) && AllDigits(t, f)
    ensures var g := TrimEnd(f, '0');
            AllDigits(t, g) && TrimEnd(g, '0') == g && Fraction(t, g) == Fraction(t, f)
  {
    if f != "" && f[|f| - 1] == '0' {
      var n := |f| - 1;
      TrimmedDigits(t, f[..n]);
      assert ValueOf(t, f) == 10 * ValueOf(t, f[..n]) && Pow10(|f|) == 10 * Pow10(n);
      ZeroCancels(ValueOf(t, f[..n]), Pow10(n));
    }
  }

  lemma ZeroCancels(m: nat, p: nat)
    requires p > 0
    ensures (10 * m) as real / (10 * p) as real == m as real / p as real
  { }

  /** What trimming a decimal string leaves: its sign and whole part, and its fraction without
      trailing zeros, if any is left. */
  lemma TrimIs(t: DigitTable, s: string)
    requires IsTable(t) && IsDecimal(t, s)
    ensures var p := Point(s);
            var f := TrimEnd(s[p + 1..], '0');
            Trim(s) == if f == "" then s[..p] else s[..p + 1] + f
  {
    var p := Point(s);
    var f := TrimEnd(s[p + 1..], '0');
    assert s == s[..p + 1] + s[p + 1..];
    TrimEndJoin(s[..p + 1], s[p + 1..], '0');
    TrimmedEnd(t, s[p + 1..]);
    LastWholeDigit(t, s);
    assert s[..p + 1] == s[..p] + ".";
    TrimPoint(s[..p], f);
  }

  /** A point with nothing after it goes. */
  lemma TrimPoint(w: string, f: string)
    requires w != "" && w[|w| - 1] != '.' && (f != "" ==> f[|f| - 1] != '.')
    ensures TrimEnd(w + "." + f, '.') == if f == "" then w else w + "." + f
  {
    if f == "" {
      TrimEndJoin(w, ".", '.');
      assert w + "." + f == w + "." && w + "" == w;
      assert TrimEnd(".", '.') == "";
    }
  }

  lemma TrimmedEnd(t: DigitTable, f: string)
    requires IsTable(t) && AllDigits(t, f)
    ensures var g := TrimEnd(f, '0'); g != "" ==> g[|g| - 1] != '.'
  {
    TrimmedDigits(t, f);
    var g := TrimEnd(f, '0');
    if g != "" { assert g[|g| - 1] in t; }
  }

  lemma LastWholeDigit(t: DigitTable, s: string)
    requires IsTable(t) && IsDecimal(t, s)
    ensures s[Point(s) - 1] in t && s[Point(s) - 1] != '.'
  {
    var p := Point(s);
    assert s[Start(s)..p][p - 1 - Start(s)] == s[p - 1];
  }

  /** Two texts with the same sign and whole part, up to the point. */
  lemma SameWhole(t: DigitTable, s: string, u: string)
    requires IsDecimal(t, s)
    requires var p := Point(s); p <= |u| && u[..p] == s[..p] && (p < |u| ==> u[p] == '.')
    ensures Point(u) == Point(s) && Start(u) == Start(s) && u[Start(s)..Point(s)] == s[Start(s)..Point(s)]
  {
    var p := Point(s);
    forall i | 0 <= i < p ensures u[i] == s[i] { assert u[i] == u[..p][i] == s[..p][i]; }
    PointIs(u, p);
  }

  lemma ShorterKeepsValue(t: DigitTable, s: string, u: string, f: string)
    requires IsDecimal(t, s) && Point(u) == Point(s) && Start(u) == Start(s)
    requires u[Start(s)..Point(s)] == s[Start(s)..Point(s)]
    requires if Point(u) < |u| then u[Point(u) + 1..] == f else f == ""
    requires AllDigits(t, f) && Fraction(t, f) == Fraction(t, s[Point(s) + 1..])
    ensures Numeric(t, u) && Value(t, u) == Value(t, s)
  {
    NoFraction(t);
    assert FractionOf(t, u) == FractionOf(t, s);
  }

  /** Trimming a decimal string keeps its numeric value. */
  lemma TrimKeepsValue(t: DigitTable, s: string)
    requires IsTable(t) && IsDecimal(t, s)
    ensures Numeric(t, Trim(s)) && Value(t, Trim(s)) == Value(t, s)
  {
    var p, u := Point(s), Trim(s);
    var f := TrimEnd(s[p + 1..], '0');
    TrimIs(t, s);
    TrimmedDigits(t, s[p + 1..]);
    SameWhole(t, s, u);
    ShorterKeepsValue(t, s, u, f);
  }

  /** What is left is not trimmed again. */
  lemma TrimTwice(t: DigitTable, s: string)
    requires IsTable(t) && IsDecimal(t, s) && IsDecimal(t, Trim(s))
    ensures Trim(Trim(s)) == Trim(s)
  {
    var p := Point(s);
    var f := TrimEnd(s[p + 1..], '0');
    var u := Trim(s);
    TrimIs(t, s);
    TrimmedDigits(t, s[p + 1..]);
    PointIs(u, p);
    assert u == s[..p + 1] + f;
    assert u[p + 1..] == f && u[..p + 1] == s[..p + 1];
    TrimIs(t, u);
  }

  // ---- Stripping ---------------------------------------------------------------------------

  predicate Dropped(key: Key, item: Json, call: Json, at: Json) {
    || key in INTERNAL_ID_KEYS
    || (key in SOURCE_CALL_KEYS && item == Arr([call]))
    || (key == RETRIEVED_AT && item == at)
  }

  /** `_strip`. */
  function Strip(t: DigitTable, v: Json, call: Json, at: Json): Json {
    match v
    case Obj(fields) => Obj(map k | k in fields && !Dropped(k, fields[k], call, at) :: Strip(t, fields[k], call, at))
    case Arr(items) => Arr(seq(|items|, i requires 0 <= i < |items| => Strip(t, items[i], call, at)))
    case Str(text) => if IsDecimal(t, text) then Str(Trim(text)) else v
    case _ => v
  }

  predicate IsPlain(v: Json) { !v.Arr? && !v.Obj? }

  /** No other decimal string is trimmed to this value. */
  ghost predicate OnlyItself(t: DigitTable, v: Json) {
    forall s :: IsDecimal(t, s) && Trim(s) != s ==> v != Str(Trim(s))
  }

  lemma StripsToItself(t: DigitTable, v: Json, c: Json, call: Json, at: Json)
    requires IsPlain(c) && OnlyItself(t, c) && Strip(t, v, call, at) == c
    ensures v == c
  { }

  lemma KeptIsKept(t: DigitTable, key: Key, v: Json, call: Json, at: Json)
    requires IsPlain(call) && IsPlain(at) && OnlyItself(t, call) && OnlyItself(t, at)
    requires !Dropped(key, v, call, at)
    ensures !Dropped(key, Strip(t, v, call, at), call, at)
  {
    var w := Strip(t, v, call, at);
    if w == Arr([call]) {
      assert w.items[0] == Strip(t, v.items[0], call, at);
      StripsToItself(t, v.items[0], call, call, at);
      assert v == Arr([call]);
    }
    if w == at { StripsToItself(t, v, at, call, at); }
  }

  lemma {:induction false} StripTwice(t: DigitTable, v: Json, call: Json, at: Json)
    requires IsTable(t) && IsPlain(call) && IsPlain(at) && OnlyItself(t, call) && OnlyItself(t, at)
    ensures Strip(t, Strip(t, v, call, at), call, at) == Strip(t, v, call, at)
  {
    match v
    case Obj(fields) =>
      forall k | k in fields ensures Same(t, fields[k], call, at) {
        StripTwice(t, fields[k], call, at);
      }
      FieldsTwice(t, fields, call, at);
    case Arr(items) =>
      forall i | 0 <= i < |items| ensures Same(t, items[i], call, at) {
        StripTwice(t, items[i], call, at);
      }
      ItemsTwice(t, items, call, at);
    case Str(text) => if IsDecimal(t, text) && IsDecimal(t, Trim(text)) { TrimTwice(t, text); }
    case _ =>
  }

  predicate Same(t: DigitTable, v: Json, call: Json, at: Json) {
    Strip(t, Strip(t, v, call, at), call, at) == Strip(t, v, call, at)
  }

  function Kept(t: DigitTable, fields: Fields, call: Json, at: Json): Fields { Strip(t, Obj(fields), call, at).fields }

  lemma KeptAt(t: DigitTable, fields: Fields, call: Json, at: Json, k: Key)
    ensures k in Kept(t, fields, call, at) <==> k in fields && !Dropped(k, fields[k], call, at)
    ensures k in Kept(t, fields, call, at) ==> Kept(t, fields, call, at)[k] == Strip(t, fields[k], call, at)
  { }

  lemma FieldsTwice(t: DigitTable, fields: Fields, call: Json, at: Json)
    requires IsPlain(call) && IsPlain(at) && OnlyItself(t, call) && OnlyItself(t, at)
    requires forall k :: k in fields ==> Same(t, fields[k], call, at)
    ensures Same(t, Obj(fields), call, at)
  {
    var once := Kept(t, fields, call, at);
    var twice := Kept(t, once, call, at);
    forall k ensures Lookup(twice, k) == Lookup(once, k) {
      KeptAt(t, fields, call, at, k);
      KeptAt(t, once, call, at, k);
      if k in once {
        KeptIsKept(t, k, fields[k], call, at);
        assert Same(t, fields[k], call, at);
      }
    }
    SameLookups(twice, once);
  }

  lemma ItemsTwice(t: DigitTable, items: seq<Json>, call: Json, at: Json)
    requires forall i :: 0 <= i < |items| ==> Same(t, items[i], call, at)
    ensures Same(t, Arr(items), call, at)
  {
    var once := Strip(t, Arr(items), call, at).items;
    var twice := Strip(t, Arr(once), call, at).items;
    forall i | 0 <= i < |items| ensures twice[i] == once[i] {
      assert Same(t, items[i], call, at);
    }
    assert once == twice;
  }

  /** A second strip drops a field whose value only now names the envelope's call. */
  lemma SecondStripDropsCalls(t: DigitTable, s: string, at: Json)
    requires IsDecimal(t, s) && Trim(s) != s
    ensures !Same(t, Obj(map["tool_call_ids" := Arr([Str(s)])]), Str(Trim(s)), at)
  {
    var key, call := "tool_call_ids", Str(Trim(s));
    var fields: Fields := map[key := Arr([Str(s)])];
    var once := Strip(t, Obj(fields), call, at).fields;
    assert Strip(t, Arr([Str(s)]), call, at).items == [call];
    assert key in fields && key in once && once[key] == Arr([call]);
    assert key !in Strip(t, Obj(once), call, at).fields;
  }

  lemma SecondStripDropsTime(t: DigitTable, s: string, call: Json)
    requires IsDecimal(t, s) && Trim(s) != s
    ensures !Same(t, Obj(map[RETRIEVED_AT := Str(s)]), call, Str(Trim(s)))
  {
    var at := Str(Trim(s));
    var fields: Fields := map[RETRIEVED_AT := Str(s)];
    var once := Strip(t, Obj(fields), call, at).fields;
    assert Strip(t, Str(s), call, at) == at && fields[RETRIEVED_AT] == Str(s);
    assert RETRIEVED_AT in fields && RETRIEVED_AT in once && once[RETRIEVED_AT] == at;
    assert RETRIEVED_AT !in Strip(t, Obj(once), call, at).fields;
  }

  /** Stripping is idempotent exactly when neither the call id nor the retrieval time is the
      trimmed form of another decimal string (an id or a timestamp never is). */
  lemma StripIsIdempotentExactlyWhen(t: DigitTable, call: Json, at: Json)
    requires IsTable(t) && IsPlain(call) && IsPlain(at)
    ensures (forall v :: Same(t, v, call, at)) <==> OnlyItself(t, call) && OnlyItself(t, at)
  {
    if OnlyItself(t, call) && OnlyItself(t, at) {
      forall v ensures Same(t, v, call, at) {
        StripTwice(t, v, call, at);
      }
    } else if !OnlyItself(t, call) {
      var s :| IsDecimal(t, s) && Trim(s) != s && call == Str(Trim(s));
      SecondStripDropsCalls(t, s, at);
    } else {
      var s :| IsDecimal(t, s) && Trim(s) != s && at == Str(Trim(s));
      SecondStripDropsTime(t, s, call);
    }
  }

  // ---- Flattening --------------------------------------------------------------------------

  /** A non-empty object whose values are all plain. */
  predicate Nests(v: Json) {
    v.Obj? && v.fields != map[] && forall k :: k in v.fields ==> IsPlain(v.fields[k])
  }

  function Join(key: Key, sub: Key): Key { key + "." + sub }

  lemma JoinParts(key: Key, sub: Key)
    requires Point(key) == |key|
    ensures var d := Join(key, sub); Point(d) == |key| < |d| && d[..|key|] == key && d[|key| + 1..] == sub
  {
    PointIs(Join(key, sub), |key|);
  }

  lemma JoinCancels(key: Key, a: Key, b: Key)
    requires Join(key, a) == Join(key, b)
    ensures a == b
  {
    assert Join(key, a)[|key| + 1..] == a && Join(key, b)[|key| + 1..] == b;
  }

  lemma JoinsDiffer(key: Key)
    ensures forall a, b :: Join(key, a) == Join(key, b) ==> a == b
  {
    forall a, b | Join(key, a) == Join(key, b) ensures a == b { JoinCancels(key, a, b); }
  }

  /** The dotted keys of one nested object. */
  function Dotted(key: Key, fields: Fields): Fields {
    JoinsDiffer(key);
    map sub | sub in fields :: Join(key, sub) := fields[sub]
  }

  /** The fields one key of a row becomes. */
  function Part(key: Key, v: Json): Fields { if Nests(v) then Dotted(key, v.fields) else map[key := v] }

  /** One map after another: later keys replace earlier ones. */
  function Union(parts: seq<Fields>): Fields {
    if parts == [] then map[] else Union(parts[..|parts| - 1]) + parts[|parts| - 1]
  }

  function Parts(row: Fields, order: seq<Key>): seq<Fields>
    requires forall k :: k in order ==> k in row
  {
    seq(|order|, i requires 0 <= i < |order| => assert order[i] in order; Part(order[i], row[order[i]]))
  }

  /** The flat row, with the keys taken in the given order. */
  function FlattenIn(row: Fields, order: seq<Key>): Fields
    requires forall k :: k in order ==> k in row
  {
    Union(Parts(row, order))
  }

  /** `flatten`. */
  method Flatten(row: Fields, order: seq<Key>) returns (flat: Fields)
    requires forall k :: k in order ==> k in row
    ensures flat == FlattenIn(row, order)
  {
    flat := map[];
    ghost var parts := Parts(row, order);
    for n := 0 to |order|
      invariant flat == Union(parts[..n])
    {
      assert parts[..n + 1][..n] == parts[..n];
      var key := order[n];
      if Nests(row[key]) {
        flat := flat + Dotted(key, row[key].fields);
      } else {
        flat := flat[key := row[key]];
      }
    }
    assert parts[..|order|] == parts;
  }

  /** No key of the row has a point. */
  predicate NoPoints(row: Fields) { forall k :: k in row ==> Point(k) == |k| }

  /** The key of the row a flat key comes from. */
  function Head(d: Key): Key { d[..Point(d)] }

  /** What the flat form of a row without points has at a flat key. */
  function At(row: Fields, d: Key): Option<Json> {
    var key := Head(d);
    if key !in row then None
    else if !Nests(row[key]) then (if d == key then Some(row[key]) else None)
    else if d != key && d[|key| + 1..] in row[key].fields then Some(row[key].fields[d[|key| + 1..]])
    else None
  }

  function Lookup(flat: Fields, d: Key): Option<Json> { if d in flat then Some(flat[d]) else None }

  lemma DottedHas(key: Key, fields: Fields, sub: Key)
    ensures Lookup(Dotted(key, fields), Join(key, sub)) == Lookup(fields, sub)
  {
    var d := Join(key, sub);
    if d in Dotted(key, fields) {
      var other :| other in fields && Join(key, other) == d;
      JoinsDiffer(key);
      assert Dotted(key, fields)[d] == fields[sub];
    }
  }

  lemma DottedOnly(key: Key, fields: Fields, d: Key)
    requires Point(key) == |key| && d in Dotted(key, fields)
    ensures Head(d) == key && d != key
  {
    var sub :| sub in fields && Join(key, sub) == d;
    JoinParts(key, sub);
  }

  lemma DottedIs(key: Key, fields: Fields, d: Key)
    requires Point(key) == |key|
    ensures Lookup(Dotted(key, fields), d)
            == if Head(d) == key && d != key then Lookup(fields, d[|key| + 1..]) else None
  {
    if Head(d) == key && d != key {
      assert d == Join(key, d[|key| + 1..]);
      DottedHas(key, fields, d[|key| + 1..]);
    } else if d in Dotted(key, fields) {
      DottedOnly(key, fields, d);
    }
  }

  lemma PartIs(row: Fields, key: Key, d: Key)
    requires NoPoints(row) && key in row
    ensures Lookup(Part(key, row[key]), d) == if Head(d) == key then At(row, d) else None
  {
    if Nests(row[key]) {
      DottedIs(key, row[key].fields, d);
    } else {
      assert Head(key) == key;
    }
  }

  lemma {:induction false} UnionIs(order: seq<Key>, parts: seq<Fields>, d: Key, head: Key, v: Option<Json>)
    requires |parts| == |order|
    requires forall i :: 0 <= i < |parts| ==> Lookup(parts[i], d) == if order[i] == head then v else None
    ensures Lookup(Union(parts), d) == if head in order then v else None
  {
    if order != [] {
      var n := |order| - 1;
      UnionIs(order[..n], parts[..n], d, head, v);
      assert head in order <==> head in order[..n] || head == order[n];
    }
  }

  lemma FlatIs(row: Fields, order: seq<Key>, d: Key)
    requires NoPoints(row) && forall k :: k in order ==> k in row
    ensures Lookup(FlattenIn(row, order), d) == if Head(d) in order then At(row, d) else None
  {
    var parts := Parts(row, order);
    forall i | 0 <= i < |parts| ensures Lookup(parts[i], d) == if order[i] == Head(d) then At(row, d) else None {
      assert order[i] in order;
      PartIs(row, order[i], d);
    }
    UnionIs(order, parts, d, Head(d), At(row, d));
  }

  /** An object with fields, and no list or object among their values. */
  predicate OfPlainValues(v: Json) {
    v.Obj? && |v.fields| > 0 && forall k :: k in v.fields ==> !v.fields[k].Arr? && !v.fields[k].Obj?
  }

  /** The fields of a flat row: each field of the row itself, but those of an object of plain values
      one by one, under the two keys with a point between. */
  ghost predicate FlatField(row: Fields, d: Key, v: Json) {
    || (d in row && row[d] == v && !OfPlainValues(v))
    || (exists key, sub :: key in row && OfPlainValues(row[key]) && sub in row[key].fields
                           && d == key + "." + sub && v == row[key].fields[sub])
  }

  /** What flattening a row does, when no key of it has a point. */
  lemma FlatExactlyWhen(row: Fields, order: seq<Key>, d: Key, v: Json)
    requires NoPoints(row) && forall k :: k in order <==> k in row
    ensures d in FlattenIn(row, order) && FlattenIn(row, order)[d] == v <==> FlatField(row, d, v)
  {
    FlatIs(row, order, d);
    AtIsFlatField(row, d, v);
  }

  lemma AtIsFlatField(row: Fields, d: Key, v: Json)
    requires NoPoints(row)
    ensures At(row, d) == Some(v) <==> FlatField(row, d, v)
  {
    if At(row, d) == Some(v) { AtGivesField(row, d, v); }
    if d in row && row[d] == v && !OfPlainValues(v) { assert Head(d) == d; }
    if key, sub :| key in row && OfPlainValues(row[key]) && sub in row[key].fields && d == key + "." + sub
                   && v == row[key].fields[sub] {
      AtOfDotted(row, key, sub);
    }
  }

  lemma AtOfDotted(row: Fields, key: Key, sub: Key)
    requires NoPoints(row) && key in row && OfPlainValues(row[key]) && sub in row[key].fields
    ensures At(row, key + "." + sub) == Some(row[key].fields[sub])
  {
    JoinParts(key, sub);
  }

  lemma AtGivesField(row: Fields, d: Key, v: Json)
    requires At(row, d) == Some(v)
    ensures FlatField(row, d, v)
  {
    var key := Head(d);
    if Nests(row[key]) { assert d == key + "." + d[|key| + 1..]; }
  }

  function Tail(d: Key): Key { if Head(d) == d then "" else d[Point(d) + 1..] }

  /** The keys under one head. */
  function Subs(flat: Fields, key: Key): set<Key> {
    set d | d in flat && Head(d) == key && d != key :: Tail(d)
  }

  /** The nested object the dotted keys of one head make. */
  function Gather(flat: Fields, key: Key): Fields {
    map sub | sub in Subs(flat, key) && Join(key, sub) in flat :: flat[Join(key, sub)]
  }

  lemma SubsAre(flat: Fields, key: Key, sub: Key)
    requires Point(key) == |key| && Join(key, sub) in flat
    ensures sub in Subs(flat, key)
  {
    JoinParts(key, sub);
    var d := Join(key, sub);
    assert d in flat && Head(d) == key && d != key && Tail(d) == sub;
  }

  lemma GatherIs(flat: Fields, key: Key, sub: Key)
    requires Point(key) == |key|
    ensures Lookup(Gather(flat, key), sub) == Lookup(flat, Join(key, sub))
  {
    if Join(key, sub) in flat { SubsAre(flat, key, sub); }
  }

  /** Rebuilds the nested row from the dotted keys. */
  function Undot(flat: Fields): Fields {
    map key | key in (set d | d in flat :: Head(d)) :: if key in flat then flat[key] else Obj(Gather(flat, key))
  }

  /** A row is rebuilt from its flat form, in whatever order it was flattened, exactly when no
      key of the row has a point. */
  lemma UndotFlattenExactlyWhen(row: Fields, order: seq<Key>)
    requires forall k :: k in order <==> k in row
    ensures Undot(FlattenIn(row, order)) == row <==> NoPoints(row)
  {
    if NoPoints(row) {
      forall key ensures Lookup(Undot(FlattenIn(row, order)), key) == Lookup(row, key) {
        UndotAt(row, order, key);
      }
      SameLookups(Undot(FlattenIn(row, order)), row);
    } else {
      var key :| key in row && Point(key) != |key|;
      NotUndotted(FlattenIn(row, order), key);
    }
  }

  lemma SameLookups(a: Fields, b: Fields)
    requires forall key :: Lookup(a, key) == Lookup(b, key)
    ensures a == b
  {
    forall key ensures key in a <==> key in b { assert Lookup(a, key) == Lookup(b, key); }
    forall key | key in a ensures a[key] == b[key] { assert Lookup(a, key) == Lookup(b, key); }
  }

  lemma NotUndotted(flat: Fields, key: Key)
    requires Point(key) != |key|
    ensures key !in Undot(flat)
  {
    forall d | d in flat ensures Head(d) != key { PointIs(Head(d), Point(d)); }
  }

  lemma UndotAt(row: Fields, order: seq<Key>, key: Key)
    requires NoPoints(row) && forall k :: k in order <==> k in row
    ensures Lookup(Undot(FlattenIn(row, order)), key) == Lookup(row, key)
  {
    var flat := FlattenIn(row, order);
    forall d | d in flat ensures Head(d) in row { FlatIs(row, order, d); }
    if key in row {
      assert Head(key) == key;
      FlatIs(row, order, key);
      if Nests(row[key]) {
        GatherNested(row, order, key);
        var sub :| sub in row[key].fields;
        JoinParts(key, sub);
        FlatIs(row, order, Join(key, sub));
        assert Join(key, sub) in flat && Head(Join(key, sub)) == key;
      }
    }
  }

  lemma GatherNested(row: Fields, order: seq<Key>, key: Key)
    requires NoPoints(row) && key in row && Nests(row[key]) && forall k :: k in order <==> k in row
    ensures Gather(FlattenIn(row, order), key) == row[key].fields
  {
    var flat := FlattenIn(row, order);
    forall sub ensures Lookup(Gather(flat, key), sub) == Lookup(row[key].fields, sub) {
      GatherIs(flat, key, sub);
      JoinParts(key, sub);
      FlatIs(row, order, Join(key, sub));
    }
    SameLookups(Gather(flat, key), row[key].fields);
  }

  // ---- Tables ------------------------------------------------------------------------------

  datatype Table = Table(common: Fields, columns: seq<Key>, rows: seq<seq<Json>>)

  /** The keys, each once. */
  ghost predicate Lists(keys: seq<Key>, row: Fields) {
    && (forall k :: k in keys <==> k in row)
    && forall i, j :: 0 <= i < j < |keys| ==> keys[i] != keys[j]
  }

  /** Any two rows have the same keys. */
  predicate SameKeys(rows: seq<Fields>)
    ensures SameKeys(rows) <==> forall i, j :: 0 <= i < j < |rows| ==> rows[i].Keys == rows[j].Keys
  {
    forall i :: 0 <= i < |rows| ==> rows[i].Keys == rows[0].Keys
  }

  /** The value of the key is the same in every row. */
  predicate Constant(rows: seq<Fields>, key: Key)
    ensures Constant(rows, key) <==> forall i, j :: 0 <= i < j < |rows| ==> Lookup(rows[i], key) == Lookup(rows[j], key)
  {
    forall i :: 0 <= i < |rows| ==> Lookup(rows[i], key) == Lookup(rows[0], key)
  }

  /** One row of a table, as fields. */
  function Zip(columns: seq<Key>, values: seq<Json>): Fields
    requires |columns| == |values|
  {
    if columns == [] then map[]
    else var n := |columns| - 1; Zip(columns[..n], values[..n])[columns[n] := values[n]]
  }

  predicate WellFormed(table: Table) {
    forall i :: 0 <= i < |table.rows| ==> |table.rows[i]| == |table.columns|
  }

  /** The rows a reader rebuilds from a table. */
  function Rebuild(table: Table): seq<Fields>
    requires WellFormed(table)
  {
    seq(|table.rows|, i requires 0 <= i < |table.rows| => table.common + Zip(table.columns, table.rows[i]))
  }

  function ValuesOf(row: Fields, columns: seq<Key>): (values: seq<Json>)
    requires forall k :: k in columns ==> k in row
    ensures |values| == |columns|
  {
    if columns == [] then []
    else var n := |columns| - 1; ValuesOf(row, columns[..n]) + [row[columns[n]]]
  }

  lemma {:induction false} ZipOfValues(row: Fields, columns: seq<Key>, key: Key)
    requires forall k :: k in columns ==> k in row
    ensures Lookup(Zip(columns, ValuesOf(row, columns)), key) == if key in columns then Lookup(row, key) else None
  {
    if columns != [] {
      var n := |columns| - 1;
      ZipOfValues(row, columns[..n], key);
      assert ValuesOf(row, columns)[..n] == ValuesOf(row, columns[..n]);
      assert key in columns <==> key in columns[..n] || key == columns[n];
    }
  }

  /** A row is its common fields and its columns. */
  lemma RowRebuilt(row: Fields, common: Fields, columns: seq<Key>)
    requires forall k :: k in columns ==> k in row
    requires forall k :: k in common ==> k in row && common[k] == row[k]
    requires forall k :: k in row ==> k in common || k in columns
    ensures common + Zip(columns, ValuesOf(row, columns)) == row
  {
    var rebuilt := common + Zip(columns, ValuesOf(row, columns));
    forall key ensures Lookup(rebuilt, key) == Lookup(row, key) {
      ZipOfValues(row, columns, key);
      assert Lookup(common, key).Some? ==> Lookup(common, key) == Lookup(row, key);
      assert Lookup(row, key).Some? ==> Lookup(common, key).Some? || key in columns;
    }
    SameLookups(rebuilt, row);
  }

  /** The keys in some order (the source leads with the identifying ones and sorts the rest). */
  method ListKeys(row: Fields) returns (keys: seq<Key>)
    ensures Lists(keys, row)
  {
    keys := [];
    var left := row.Keys;
    while left != {}
      invariant forall k :: k in row <==> k in left || k in keys
      invariant forall k :: k in left ==> k !in keys
      invariant forall i, j :: 0 <= i < j < |keys| ==> keys[i] != keys[j]
    {
      var k :| k in left;
      left := left - {k};
      keys := keys + [k];
    }
  }

  /** Splits the keys: constant ones are common, the others are columns. */
  method SplitKeys(rows: seq<Fields>, keys: seq<Key>) returns (common: Fields, columns: seq<Key>)
    requires rows != [] && Lists(keys, rows[0])
    ensures forall k :: k in common <==> k in keys && Constant(rows, k)
    ensures forall k :: k in common ==> k in rows[0] && common[k] == rows[0][k]
    ensures forall k :: k in columns <==> k in keys && !Constant(rows, k)
    ensures forall i, j :: 0 <= i < j < |columns| ==> columns[i] != columns[j]
  {
    common, columns := map[], [];
    for n := 0 to |keys|
      invariant forall k :: k in common <==> k in keys[..n] && Constant(rows, k)
      invariant forall k :: k in common ==> k in rows[0] && common[k] == rows[0][k]
      invariant forall k :: k in columns <==> k in keys[..n] && !Constant(rows, k)
      invariant forall i, j :: 0 <= i < j < |columns| ==> columns[i] != columns[j]
    {
      var key := keys[n];
      assert key in keys;
      assert forall k :: k in keys[..n + 1] <==> k in keys[..n] || k == key;
      assert key !in keys[..n];
      if Constant(rows, key) {
        common := common[key := rows[0][key]];
      } else {
        columns := columns + [key];
      }
    }
    assert keys[..|keys|] == keys;
  }

  method FillRows(rows: seq<Fields>, columns: seq<Key>) returns (values: seq<seq<Json>>)
    requires forall i :: 0 <= i < |rows| ==> forall k :: k in columns ==> k in rows[i]
    ensures |values| == |rows| && forall i :: 0 <= i < |rows| ==> values[i] == ValuesOf(rows[i], columns)
  {
    values := [];
    for i := 0 to |rows|
      invariant |values| == i && forall j :: 0 <= j < i ==> values[j] == ValuesOf(rows[j], columns)
    {
      values := values + [ValuesOf(rows[i], columns)];
    }
  }

  /** The table of rows with the same keys: the rows are rebuilt from it, in order, and a field is
      common exactly when every row has the same value of it. */
  method MakeTable(rows: seq<Fields>) returns (table: Table)
    requires rows != [] && SameKeys(rows)
    ensures WellFormed(table) && Rebuild(table) == rows
    ensures forall k :: k in table.common <==> k in rows[0] && Constant(rows, k)
    ensures forall i, j :: 0 <= i < j < |table.columns| ==> table.columns[i] != table.columns[j]
  {
    var keys := ListKeys(rows[0]);
    var common, columns := SplitKeys(rows, keys);
    forall i | 0 <= i < |rows|
      ensures forall k :: k in columns ==> k in rows[i]
      ensures common + Zip(columns, ValuesOf(rows[i], columns)) == rows[i]
    {
      assert rows[i].Keys == rows[0].Keys;
      CommonOfRow(rows, common, i);
      RowRebuilt(rows[i], common, columns);
    }
    var values := FillRows(rows, columns);
    table := Table(common, columns, values);
    assert Rebuild(table) == rows;
  }

  lemma CommonOfRow(rows: seq<Fields>, common: Fields, i: nat)
    requires i < |rows| && SameKeys(rows)
    requires forall k :: k in common ==> Constant(rows, k) && k in rows[0] && common[k] == rows[0][k]
    ensures forall k :: k in common ==> k in rows[i] && common[k] == rows[i][k]
  {
    forall k | k in common ensures k in rows[i] && common[k] == rows[i][k] {
      assert Lookup(rows[i], k) == Lookup(rows[0], k);
    }
  }

  function FlatRows(rows: seq<Fields>, orders: seq<seq<Key>>): seq<Fields>
    requires |orders| == |rows| && forall i :: 0 <= i < |rows| ==> Lists(orders[i], rows[i])
  {
    seq(|rows|, i requires 0 <= i < |rows| => assert Lists(orders[i], rows[i]); FlattenIn(rows[i], orders[i]))
  }

  /** `tabulate`, for items that are all objects; None leaves them as they are. With the flat
      forms alike the table holds those; else with the rows alike it holds the rows. `orders` is
      the order of each row's keys. */
  method Tabulate(rows: seq<Fields>, orders: seq<seq<Key>>) returns (table: Option<Table>)
    requires |orders| == |rows| && forall i :: 0 <= i < |rows| ==> Lists(orders[i], rows[i])
    ensures table.None? <==> rows == [] || (!SameKeys(FlatRows(rows, orders)) && !SameKeys(rows))
    ensures table.Some? ==> WellFormed(table.value)
    ensures table.Some? ==> Rebuild(table.value) == if SameKeys(FlatRows(rows, orders)) then FlatRows(rows, orders) else rows
  {
    if rows == [] { return None; }
    var flat := [];
    for i := 0 to |rows|
      invariant |flat| == i && forall j :: 0 <= j < i ==> flat[j] == FlattenIn(rows[j], orders[j])
    {
      var f := Flatten(rows[i], orders[i]);
      flat := flat + [f];
    }
    assert flat == FlatRows(rows, orders);
    if !SameKeys(flat) {
      if !SameKeys(rows) { return None; }
      flat := rows;
    }
    var t := MakeTable(flat);
    return Some(t);
  }

  /** Nothing is lost: the rows are rebuilt from a table, in order, when no key has a point. */
  lemma TableIsLossless(rows: seq<Fields>, orders: seq<seq<Key>>, table: Table)
    requires |orders| == |rows| && forall i :: 0 <= i < |rows| ==> Lists(orders[i], rows[i])
    requires WellFormed(table) && Rebuild(table) == FlatRows(rows, orders)
    requires forall i :: 0 <= i < |rows| ==> NoPoints(rows[i])
    ensures |Rebuild(table)| == |rows| && forall i :: 0 <= i < |rows| ==> Undot(Rebuild(table)[i]) == rows[i]
  {
    forall i | 0 <= i < |rows| ensures Undot(Rebuild(table)[i]) == rows[i] {
      UndotFlattenExactlyWhen(rows[i], orders[i]);
    }
  }
}
