/** Canonical frozen tables (extract.py): values, freezing, table canonicalization and its verifier. */
module Extract {
  import opened Outcomes
  import opened Rows

  // ---------------------------------------------------------------- values

  /** Driver values. Text renderings (decimal, UTC instant, day, UUID, hexadecimal) are carried as their text. */
  datatype Value =
    | Null
    | Bool(b: bool)
    | Int(n: int)
    | Str(s: string)
    | Decimal(finite: bool, text: string)
    | Float
    | Instant(aware: bool, text: string)
    | Day(text: string)
    | Uuid(text: string)
    | Bytes(hex: string)
    | Mapping(fields: map<string, Value>, proxy: bool)
    | MixedMapping
    | List(items: seq<Value>)
    | Tuple(items: seq<Value>)
    | Unsupported

  function CanonicalizeItems(items: seq<Value>): (r: Option<seq<Value>>)
    ensures r.Some? ==> |r.value| == |items|
  {
    if items == [] then Some([]) else
      match (CanonicalizeItems(items[..|items| - 1]), Canonicalize(items[|items| - 1]))
      case (Some(before), Some(v)) => Some(before + [v])
      case _ => None
  }

  /** Plain JSON values stay; renderable ones become text; floats, naive instants and foreign types are refused. */
  function Canonicalize(v: Value): Option<Value>
    decreases v, 0
  {
    match v
    case Null => Some(v)
    case Bool(_) => Some(v)
    case Int(_) => Some(v)
    case Str(_) => Some(v)
    case Decimal(finite, text) => if finite then Some(Str(text)) else None
    case Float => None
    case Instant(aware, text) => if aware then Some(Str(text)) else None
    case Day(text) => Some(Str(text))
    case Uuid(text) => Some(Str(text))
    case Bytes(hex) => Some(Mapping(map["$bytes_hex" := Str(hex)], false))
    case Mapping(fields, _) =>
      if forall k :: k in fields ==> Canonicalize(fields[k]).Some?
      then Some(Mapping(map k | k in fields :: Canonicalize(fields[k]).value, false))
      else None
    case MixedMapping => None
    case List(items) => Wrap(CanonicalizeItems(items))
    case Tuple(items) => Wrap(CanonicalizeItems(items))
    case Unsupported => None
  }

  function Wrap(r: Option<seq<Value>>): Option<Value> { if r == None then None else Some(List(r.value)) }

  /** A JSON value built from dictionaries and lists. */
  predicate Canonical(v: Value) {
    match v
    case Null => true
    case Bool(_) => true
    case Int(_) => true
    case Str(_) => true
    case Mapping(fields, proxy) => !proxy && forall k :: k in fields ==> Canonical(fields[k])
    case List(items) => forall i :: 0 <= i < |items| ==> Canonical(items[i])
    case _ => false
  }

  /** The same value built from mapping proxies and tuples. */
  predicate Frozen(v: Value) {
    match v
    case Null => true
    case Bool(_) => true
    case Int(_) => true
    case Str(_) => true
    case Mapping(fields, proxy) => proxy && forall k :: k in fields ==> Frozen(fields[k])
    case Tuple(items) => forall i :: 0 <= i < |items| ==> Frozen(items[i])
    case _ => false
  }

  /** What has no canonical form: any of these, at any depth. */
  predicate Refused(v: Value) {
    match v
    case Decimal(finite, _) => !finite
    case Float => true
    case Instant(aware, _) => !aware
    case Mapping(fields, _) => exists k :: k in fields && Refused(fields[k])
    case MixedMapping => true
    case List(items) => exists i :: 0 <= i < |items| && Refused(items[i])
    case Tuple(items) => exists i :: 0 <= i < |items| && Refused(items[i])
    case Unsupported => true
    case _ => false
  }

  lemma {:induction false} ItemsCanonicalize(items: seq<Value>)
    ensures CanonicalizeItems(items).Some? <==> forall i :: 0 <= i < |items| ==> Canonicalize(items[i]).Some?
    ensures CanonicalizeItems(items).Some? ==>
              forall i :: 0 <= i < |items| ==> Canonicalize(items[i]) == Some(CanonicalizeItems(items).value[i])
  {
    if items != [] {
      var n := |items| - 1;
      ItemsCanonicalize(items[..n]);
      assert forall i :: 0 <= i < n ==> items[..n][i] == items[i];
      if forall i :: 0 <= i < |items| ==> Canonicalize(items[i]).Some? {
        assert Canonicalize(items[n]).Some?;
        assert forall i :: 0 <= i < n ==> Canonicalize(items[..n][i]).Some?;
      }
    }
  }

  /** Canonicalization succeeds exactly when nothing is refused, and its result is canonical. */
  lemma {:induction false} CanonicalizeIsCanonical(v: Value)
    ensures Canonicalize(v).Some? <==> !Refused(v)
    ensures Canonicalize(v).Some? ==> Canonical(Canonicalize(v).value)
    decreases v
  {
    match v {
      case Mapping(fields, _) =>
        forall k | k in fields
          ensures (Canonicalize(fields[k]).Some? <==> !Refused(fields[k]))
                  && (Canonicalize(fields[k]).Some? ==> Canonical(Canonicalize(fields[k]).value))
        {
          CanonicalizeIsCanonical(fields[k]);
        }
      case List(items) => ItemsAreCanonical(items);
      case Tuple(items) => ItemsAreCanonical(items);
      case _ =>
    }
  }

  lemma {:induction false} ItemsAreCanonical(items: seq<Value>)
    ensures CanonicalizeItems(items).Some? <==> forall i :: 0 <= i < |items| ==> !Refused(items[i])
    ensures CanonicalizeItems(items).Some? ==> forall i :: 0 <= i < |items| ==>
              Canonical(CanonicalizeItems(items).value[i])
    decreases items
  {
    forall i | 0 <= i < |items|
      ensures Canonicalize(items[i]).Some? <==> !Refused(items[i])
      ensures Canonicalize(items[i]).Some? ==> Canonical(Canonicalize(items[i]).value)
    {
      CanonicalizeIsCanonical(items[i]);
    }
    ItemsCanonicalize(items);
  }

  /** What a value is rendered as: plain values as they are, the rest as their text, containers part by part. */
  predicate Rendering(v: Value, c: Value)
    decreases v
  {
    match v
    case Null => c == Null
    case Bool(_) => c == v
    case Int(_) => c == v
    case Str(_) => c == v
    case Decimal(finite, text) => finite && c == Str(text)
    case Instant(aware, text) => aware && c == Str(text)
    case Day(text) => c == Str(text)
    case Uuid(text) => c == Str(text)
    case Bytes(hex) =>
      c.Mapping? && !c.proxy && c.fields.Keys == {"$bytes_hex"} && c.fields["$bytes_hex"] == Str(hex)
    case Mapping(fields, _) =>
      c.Mapping? && !c.proxy && c.fields.Keys == fields.Keys && forall k :: k in fields ==>
          Rendering(fields[k], c.fields[k])
    case List(items) =>
      c.List? && |c.items| == |items| && forall i :: 0 <= i < |items| ==> Rendering(items[i], c.items[i])
    case Tuple(items) =>
      c.List? && |c.items| == |items| && forall i :: 0 <= i < |items| ==> Rendering(items[i], c.items[i])
    case _ => false
  }

  lemma {:induction false} CanonicalizeRenders(v: Value)
    requires Canonicalize(v).Some?
    ensures Rendering(v, Canonicalize(v).value)
    decreases v
  {
    match v {
      case Mapping(fields, _) =>
        forall k | k in fields ensures Rendering(fields[k], Canonicalize(v).value.fields[k]) {
          CanonicalizeRenders(fields[k]);
        }
      case List(items) =>
        ItemsCanonicalize(items);
        forall i | 0 <= i < |items| ensures Rendering(items[i], Canonicalize(v).value.items[i]) {
          CanonicalizeRenders(items[i]);
        }
      case Tuple(items) =>
        ItemsCanonicalize(items);
        forall i | 0 <= i < |items| ensures Rendering(items[i], Canonicalize(v).value.items[i]) {
          CanonicalizeRenders(items[i]);
        }
      case _ =>
    }
  }

  lemma {:induction false} CanonicalIsFixed(v: Value)
    requires Canonical(v)
    ensures Canonicalize(v) == Some(v)
    decreases v
  {
    match v {
      case Mapping(fields, _) =>
        forall k | k in fields ensures Canonicalize(fields[k]) == Some(fields[k]) { CanonicalIsFixed(fields[k]); }
        assert Canonicalize(v).value.fields == fields;
      case List(items) =>
        forall i | 0 <= i < |items| ensures Canonicalize(items[i]) == Some(items[i]) { CanonicalIsFixed(items[i]); }
        ItemsCanonicalize(items);
        assert CanonicalizeItems(items).value == items;
      case _ =>
    }
  }

  lemma CanonicalizeTwice(v: Value)
    requires Canonicalize(v).Some?
    ensures Canonicalize(Canonicalize(v).value) == Canonicalize(v)
  {
    CanonicalizeIsCanonical(v);
    CanonicalIsFixed(Canonicalize(v).value);
  }

  // ---------------------------------------------------------------- freeze and thaw

  function Freeze(v: Value): Value
    decreases v
  {
    match v
    case Mapping(fields, _) => Mapping(map k | k in fields :: Freeze(fields[k]), true)
    case List(items) => Tuple(seq(|items|, i requires 0 <= i < |items| => Freeze(items[i])))
    case _ => v
  }

  function Thaw(v: Value): Value
    decreases v
  {
    match v
    case Mapping(fields, _) => Mapping(map k | k in fields :: Thaw(fields[k]), false)
    case Tuple(items) => List(seq(|items|, i requires 0 <= i < |items| => Thaw(items[i])))
    case _ => v
  }

  lemma {:induction false} ThawFreeze(v: Value)
    requires Canonical(v)
    ensures Frozen(Freeze(v)) && Thaw(Freeze(v)) == v
    decreases v
  {
    match v {
      case Mapping(fields, _) =>
        forall k | k in fields ensures Frozen(Freeze(fields[k])) && Thaw(Freeze(fields[k])) == fields[k] {
          ThawFreeze(fields[k]);
        }
        assert Thaw(Freeze(v)).fields == fields;
      case List(items) =>
        forall i | 0 <= i < |items| ensures Frozen(Freeze(items[i])) && Thaw(Freeze(items[i])) == items[i] {
          ThawFreeze(items[i]);
        }
        assert Thaw(Freeze(v)).items == items;
      case _ =>
    }
  }

  lemma {:induction false} FreezeThaw(v: Value)
    requires Frozen(v)
    ensures Canonical(Thaw(v)) && Freeze(Thaw(v)) == v
    decreases v
  {
    match v {
      case Mapping(fields, _) =>
        forall k | k in fields ensures Canonical(Thaw(fields[k])) && Freeze(Thaw(fields[k])) == fields[k] {
          FreezeThaw(fields[k]);
        }
        assert Freeze(Thaw(v)).fields == fields;
      case Tuple(items) =>
        forall i | 0 <= i < |items| ensures Canonical(Thaw(items[i])) && Freeze(Thaw(items[i])) == items[i] {
          FreezeThaw(items[i]);
        }
        assert Freeze(Thaw(v)).items == items;
      case _ =>
    }
  }

  // ---------------------------------------------------------------- keys in byte order

  type Text = seq<nat>

  type Key = seq<Text>

  predicate TextBelow(a: Text, b: Text) {
    b != [] && (a == [] || a[0] < b[0] || (a[0] == b[0] && TextBelow(a[1..], b[1..])))
  }

  predicate Below(a: Key, b: Key) {
    b != [] && (a == [] || TextBelow(a[0], b[0]) || (a[0] == b[0] && Below(a[1..], b[1..])))
  }

  lemma {:induction false} TextNotBelowItself(a: Text)
    ensures !TextBelow(a, a)
  {
    if a != [] { TextNotBelowItself(a[1..]); }
  }

  lemma {:induction false} NotBelowItself(a: Key)
    ensures !Below(a, a)
  {
    if a != [] {
      TextNotBelowItself(a[0]);
      NotBelowItself(a[1..]);
    }
  }

  lemma {:induction false} TextOrder(a: Text, b: Text)
    ensures a == b || TextBelow(a, b) || TextBelow(b, a)
    ensures !(TextBelow(a, b) && TextBelow(b, a)) && !TextBelow(a, a)
    decreases |a| + |b|
  {
    TextNotBelowItself(a);
    if a != [] && b != [] {
      TextOrder(a[1..], b[1..]);
      if a[0] == b[0] && a[1..] == b[1..] { assert a == [a[0]] + a[1..] == b; }
    }
  }

  lemma {:induction false} TextTransitive(a: Text, b: Text, c: Text)
    requires TextBelow(a, b) && TextBelow(b, c)
    ensures TextBelow(a, c)
  {
    if a != [] && a[0] == b[0] && b[0] == c[0] { TextTransitive(a[1..], b[1..], c[1..]); }
  }

  lemma {:induction false} KeyOrder(a: Key, b: Key)
    ensures a == b || Below(a, b) || Below(b, a)
    ensures !(Below(a, b) && Below(b, a)) && !Below(a, a)
    decreases |a| + |b|
  {
    NotBelowItself(a);
    if a != [] && b != [] {
      TextOrder(a[0], b[0]);
      KeyOrder(a[1..], b[1..]);
      if a[0] == b[0] && a[1..] == b[1..] { assert a == [a[0]] + a[1..] == b; }
    }
  }

  lemma {:induction false} KeyTransitive(a: Key, b: Key, c: Key)
    requires Below(a, b) && Below(b, c)
    ensures Below(a, c)
  {
    if a != [] {
      if TextBelow(a[0], b[0]) && TextBelow(b[0], c[0]) {
        TextTransitive(a[0], b[0], c[0]);
      } else if a[0] == b[0] && b[0] == c[0] {
        KeyTransitive(a[1..], b[1..], c[1..]);
      }
    }
  }

  /** Byte order: at the first difference the smaller byte comes first, and a beginning before what it begins. */
  lemma {:induction false} TextBelowMeans(a: Text, b: Text)
    ensures TextBelow(a, b) <==> exists k :: 0 <= k <= |a| && TextBelowAt(a, b, k)
    decreases |a| + |b|
  {
    if TextBelow(a, b) {
      if a == [] || a[0] < b[0] {
        assert TextBelowAt(a, b, 0);
      } else {
        TextBelowMeans(a[1..], b[1..]);
        var k :| 0 <= k <= |a| - 1 && TextBelowAt(a[1..], b[1..], k);
        assert a[..k + 1] == [a[0]] + a[1..][..k] && b[..k + 1] == [b[0]] + b[1..][..k];
        assert TextBelowAt(a, b, k + 1);
      }
    }
    if k :| 0 <= k <= |a| && TextBelowAt(a, b, k) {
      if k > 0 {
        assert a[0] == a[..k][0] == b[..k][0] == b[0];
        assert a[1..][..k - 1] == a[..k][1..] && b[1..][..k - 1] == b[..k][1..];
        assert TextBelowAt(a[1..], b[1..], k - 1);
        TextBelowMeans(a[1..], b[1..]);
      }
    }
  }

  predicate TextBelowAt(a: Text, b: Text, k: nat) {
    && k <= |a| && k < |b| && a[..k] == b[..k] && (k < |a| ==> a[k] < b[k])
  }

  /** Keys compare column by column: at the first column that differs, by its bytes. */
  lemma {:induction false} BelowMeans(a: Key, b: Key)
    requires |a| == |b|
    ensures Below(a, b) <==> exists k :: 0 <= k < |a| && a[..k] == b[..k] && TextBelow(a[k], b[k])
  {
    if Below(a, b) {
      if TextBelow(a[0], b[0]) {
        assert a[..0] == b[..0];
      } else {
        BelowMeans(a[1..], b[1..]);
        var k :| 0 <= k < |a| - 1 && a[1..][..k] == b[1..][..k] && TextBelow(a[1..][k], b[1..][k]);
        assert a[..k + 1] == [a[0]] + a[1..][..k] && b[..k + 1] == [b[0]] + b[1..][..k];
        assert TextBelow(a[k + 1], b[k + 1]);
      }
    }
    if k :| 0 <= k < |a| && a[..k] == b[..k] && TextBelow(a[k], b[k]) {
      if k > 0 {
        assert a[0] == a[..k][0] == b[..k][0] == b[0];
        assert a[1..][..k - 1] == a[..k][1..] && b[1..][..k - 1] == b[..k][1..];
        assert TextBelow(a[1..][k - 1], b[1..][k - 1]);
        BelowMeans(a[1..], b[1..]);
      }
    }
  }

  // ---------------------------------------------------------------- canonical rows

  type Row = map<string, Value>

  datatype TableSpec = TableSpec(table: string, columns: seq<string>, primaryKey: seq<string>)

  datatype Codec = Codec(encode: Value -> Option<Text>, sha: Text -> nat)

  datatype Table = Table(table: string, rows: seq<Value>, digest: nat)

  const NEWLINE: nat := 10

  predicate WellFormed(spec: TableSpec) {
    forall i :: 0 <= i < |spec.primaryKey| ==> spec.primaryKey[i] in spec.columns
  }

  function Columns(spec: TableSpec): set<string> { set c | c in spec.columns }

  function CanonicalRow(spec: TableSpec, row: Row): (r: Option<Value>)
    ensures r.Some? ==> r.value.Mapping? && r.value.fields.Keys == Columns(spec)
  {
    if row.Keys != Columns(spec) || |row| != |spec.columns| then None
    else Canonicalize(Mapping(row, false))
  }

  function EncodeColumns(codec: Codec, fields: Row, columns: seq<string>): Option<Key>
    requires forall i :: 0 <= i < |columns| ==> columns[i] in fields
  {
    if columns == [] then Some([]) else
      match (EncodeColumns(codec, fields, columns[..|columns| - 1]), codec.encode(fields[columns[|columns| - 1]]))
      case (Some(before), Some(text)) => Some(before + [text])
      case _ => None
  }

  function KeyOf(codec: Codec, spec: TableSpec, row: Value): Option<Key>
    requires WellFormed(spec) && row.Mapping? && row.fields.Keys == Columns(spec)
  {
    EncodeColumns(codec, row.fields, spec.primaryKey)
  }

  /** A canonical row with its sort key and its digest line. */
  datatype Keyed = Keyed(key: Key, row: Value, line: Text)

  /** The key is the encodings of exactly the primary-key columns, in their order. */
  ghost predicate HasKey(codec: Codec, spec: TableSpec, fields: Row, key: Key) {
    && |key| == |spec.primaryKey|
    && forall i :: 0 <= i < |key| ==>
         spec.primaryKey[i] in fields && codec.encode(fields[spec.primaryKey[i]]) == Some(key[i])
  }

  lemma {:induction false} EncodedColumns(codec: Codec, fields: Row, columns: seq<string>, key: Key)
    requires forall i :: 0 <= i < |columns| ==> columns[i] in fields
    ensures EncodeColumns(codec, fields, columns) == Some(key) <==>
              |key| == |columns| && forall i :: 0 <= i < |key| ==> codec.encode(fields[columns[i]]) == Some(key[i])
  {
    if columns != [] {
      var n := |columns| - 1;
      if |key| == |columns| {
        EncodedColumns(codec, fields, columns[..n], key[..n]);
        assert key == key[..n] + [key[n]];
      }
      if EncodeColumns(codec, fields, columns) == Some(key) {
        EncodedColumns(codec, fields, columns[..n], EncodeColumns(codec, fields, columns[..n]).value);
      }
    }
  }

  /** A raw row's canonical form, its key and its line. */
  ghost predicate Becomes(codec: Codec, spec: TableSpec, raw: Row, x: Keyed) {
    && raw.Keys == Columns(spec) && |raw| == |spec.columns| && Canonicalize(Mapping(raw, false)) == Some(x.row)
    && x.row.Mapping? && HasKey(codec, spec, x.row.fields, x.key) && codec.encode(x.row) == Some(x.line)
  }

  /** A frozen row's thawed form, its key and its line. */
  ghost predicate Holds(codec: Codec, spec: TableSpec, row: Value, x: Keyed) {
    && x.row == Thaw(row) && x.row.Mapping? && x.row.fields.Keys == Columns(spec)
    && HasKey(codec, spec, x.row.fields, x.key) && codec.encode(x.row) == Some(x.line)
  }

  lemma PrepareBecomes(codec: Codec, spec: TableSpec, raw: Row, x: Keyed)
    requires WellFormed(spec)
    ensures Prepare(codec, spec, raw) == Some(x) <==> Becomes(codec, spec, raw, x)
  {
    if CanonicalRow(spec, raw).Some? {
      EncodedColumns(codec, CanonicalRow(spec, raw).value.fields, spec.primaryKey, x.key);
    }
    hide Canonicalize, EncodeColumns;
  }

  lemma ThawedHolds(codec: Codec, spec: TableSpec, row: Value, x: Keyed)
    requires WellFormed(spec)
    ensures Thawed(codec, spec, row) == Some(x) <==> Holds(codec, spec, row, x)
  {
    var v := Thaw(row);
    if v.Mapping? && v.fields.Keys == Columns(spec) { EncodedColumns(codec, v.fields, spec.primaryKey, x.key); }
    hide Thaw, EncodeColumns;
  }

  function Prepare(codec: Codec, spec: TableSpec, row: Row): (r: Option<Keyed>)
    requires WellFormed(spec)
    ensures r.Some? ==> r.value.row.Mapping? && r.value.row.fields.Keys == Columns(spec)
  {
    match CanonicalRow(spec, row)
    case None => None
    case Some(v) =>
      match (KeyOf(codec, spec, v), codec.encode(v))
      case (Some(key), Some(line)) => Some(Keyed(key, v, line))
      case _ => None
  }

  function PreparedKey(codec: Codec, spec: TableSpec): Row -> Key
    requires WellFormed(spec)
  {
    (row: Row) => match Prepare(codec, spec, row) case Some(k) => k.key case None => []
  }

  predicate Prepares(codec: Codec, spec: TableSpec, rows: seq<Row>)
    requires WellFormed(spec)
  {
    forall i :: 0 <= i < |rows| ==> Prepare(codec, spec, rows[i]).Some?
  }

  /** Every row has the audited columns and canonical values, and no two share a primary key. */
  predicate Good(codec: Codec, spec: TableSpec, rows: seq<Row>)
    requires WellFormed(spec)
  {
    Prepares(codec, spec, rows) && Unique(PreparedKey(codec, spec), rows)
  }

  function PreparedRows(codec: Codec, spec: TableSpec, rows: seq<Row>): (r: seq<Keyed>)
    requires WellFormed(spec) && Prepares(codec, spec, rows)
    ensures |r| == |rows| && forall i :: 0 <= i < |r| ==> Some(r[i]) == Prepare(codec, spec, rows[i])
  {
    seq(|rows|, i requires 0 <= i < |rows| => Prepare(codec, spec, rows[i]).value)
  }

  // ---------------------------------------------------------------- sorting by key

  predicate Ascending(xs: seq<Keyed>) { forall i, j :: 0 <= i < j < |xs| ==> Below(xs[i].key, xs[j].key) }

  function Insert(x: Keyed, xs: seq<Keyed>): (r: seq<Keyed>)
    ensures |r| == |xs| + 1 && multiset(r) == multiset{x} + multiset(xs) && forall y :: y in r <==> y == x || y in xs
  {
    assert xs != [] ==> xs == [xs[0]] + xs[1..];
    if xs == [] || Below(x.key, xs[0].key) then [x] + xs else [xs[0]] + Insert(x, xs[1..])
  }

  function Sort(xs: seq<Keyed>): (r: seq<Keyed>)
    ensures |r| == |xs| && multiset(r) == multiset(xs) && forall y :: y in r <==> y in xs
  {
    assert xs != [] ==> xs == xs[..|xs| - 1] + [xs[|xs| - 1]];
    if xs == [] then [] else Insert(xs[|xs| - 1], Sort(xs[..|xs| - 1]))
  }

  lemma {:induction false} InsertAscends(x: Keyed, xs: seq<Keyed>)
    requires Ascending(xs) && forall y :: y in xs ==> y.key != x.key
    ensures Ascending(Insert(x, xs))
  {
    if xs == [] || Below(x.key, xs[0].key) {
      forall j | 0 < j < |xs| ensures Below(x.key, xs[j].key) { KeyTransitive(x.key, xs[0].key, xs[j].key); }
    } else {
      InsertAscends(x, xs[1..]);
      var r := Insert(x, xs[1..]);
      KeyOrder(x.key, xs[0].key);
      assert xs[0] in xs;
      forall j | 0 <= j < |r| ensures Below(xs[0].key, r[j].key) { assert r[j] == x || r[j] in xs[1..]; }
    }
  }

  lemma {:induction false} SortAscends(xs: seq<Keyed>)
    requires forall i, j :: 0 <= i < j < |xs| ==> xs[i].key != xs[j].key
    ensures Ascending(Sort(xs))
  {
    if xs != [] {
      var n := |xs| - 1;
      SortAscends(xs[..n]);
      InsertAscends(xs[n], Sort(xs[..n]));
    }
  }

  /** Strictly ascending lists of the same rows are equal. */
  lemma {:induction false} AscendingIsUnique(xs: seq<Keyed>, ys: seq<Keyed>)
    requires Ascending(xs) && Ascending(ys) && forall x :: x in xs <==> x in ys
    ensures xs == ys
  {
    if xs == [] {
      assert ys == [] by { if ys != [] { HasFirst(ys); } }
    } else {
      HasFirst(xs);
      assert ys != [];
      SameFirst(xs, ys);
      SameFirst(ys, xs);
      KeyOrder(xs[0].key, ys[0].key);
      SameRest(xs, ys);
      AscendingIsUnique(xs[1..], ys[1..]);
      assert xs == [xs[0]] + xs[1..] && ys == [ys[0]] + ys[1..];
    }
  }

  lemma HasFirst(xs: seq<Keyed>)
    requires xs != []
    ensures xs[0] in xs
  {
  }

  lemma SameFirst(xs: seq<Keyed>, ys: seq<Keyed>)
    requires Ascending(xs) && xs != [] && ys != [] && ys[0] in xs
    ensures ys[0] == xs[0] || Below(xs[0].key, ys[0].key)
  {
    var i :| 0 <= i < |xs| && xs[i] == ys[0];
  }

  lemma SameRest(xs: seq<Keyed>, ys: seq<Keyed>)
    requires Ascending(xs) && Ascending(ys) && xs != [] && ys != [] && xs[0] == ys[0]
    requires forall x :: x in xs <==> x in ys
    ensures Ascending(xs[1..]) && Ascending(ys[1..]) && forall x :: x in xs[1..] <==> x in ys[1..]
  {
    RestMembers(xs);
    RestMembers(ys);
  }

  lemma RestMembers(xs: seq<Keyed>)
    requires Ascending(xs) && xs != []
    ensures forall x :: x in xs[1..] <==> x in xs && x != xs[0]
  {
    forall x | x in xs[1..] ensures x in xs && x != xs[0] {
      var i :| 0 <= i < |xs| - 1 && xs[1..][i] == x;
      assert xs[i + 1] == x;
      NotBelowItself(xs[0].key);
    }
    forall x | x in xs && x != xs[0] ensures x in xs[1..] {
      var i :| 0 <= i < |xs| && xs[i] == x;
      assert xs[1..][i - 1] == x;
    }
  }

  // ---------------------------------------------------------------- the canonical table

  function Lines(xs: seq<Keyed>): Text {
    if xs == [] then [] else Lines(xs[..|xs| - 1]) + xs[|xs| - 1].line + [NEWLINE]
  }

  function FrozenRows(xs: seq<Keyed>): (r: seq<Value>)
    ensures |r| == |xs| && forall i :: 0 <= i < |r| ==> r[i] == Freeze(xs[i].row)
  {
    seq(|xs|, i requires 0 <= i < |xs| => Freeze(xs[i].row))
  }

  function CanonicalTable(codec: Codec, spec: TableSpec, rows: seq<Row>): Table
    requires WellFormed(spec) && Prepares(codec, spec, rows)
  {
    var sorted := Sort(PreparedRows(codec, spec, rows));
    Table(spec.table, FrozenRows(sorted), codec.sha(Lines(sorted)))
  }

  lemma PreparedDistinct(codec: Codec, spec: TableSpec, rows: seq<Row>)
    requires WellFormed(spec) && Good(codec, spec, rows)
    ensures Ascending(Sort(PreparedRows(codec, spec, rows)))
  {
    var xs := PreparedRows(codec, spec, rows);
    forall i, j | 0 <= i < j < |xs| ensures xs[i].key != xs[j].key {
      assert PreparedKey(codec, spec)(rows[i]) != PreparedKey(codec, spec)(rows[j]);
    }
    SortAscends(xs);
  }

  /** Rows in any order give the identical table and digest, or are refused in every order. */
  lemma RowOrderIsIrrelevant(codec: Codec, spec: TableSpec, rows: seq<Row>, rows': seq<Row>)
    requires WellFormed(spec) && multiset(rows) == multiset(rows')
    ensures Good(codec, spec, rows) == Good(codec, spec, rows')
    ensures Good(codec, spec, rows) ==> CanonicalTable(codec, spec, rows) == CanonicalTable(codec, spec, rows')
  {
    IndexIgnoresOrder(PreparedKey(codec, spec), rows, rows');
    PreparesIgnoresOrder(codec, spec, rows, rows');
    if Good(codec, spec, rows) {
      PreparedDistinct(codec, spec, rows);
      PreparedDistinct(codec, spec, rows');
      hide Unique, Ascending, Prepare;
      SamePrepared(codec, spec, rows, rows');
      SamePrepared(codec, spec, rows', rows);
      AscendingIsUnique(Sort(PreparedRows(codec, spec, rows)), Sort(PreparedRows(codec, spec, rows')));
    }
  }

  lemma PreparesIgnoresOrder(codec: Codec, spec: TableSpec, rows: seq<Row>, rows': seq<Row>)
    requires WellFormed(spec) && multiset(rows) == multiset(rows')
    ensures Prepares(codec, spec, rows) == Prepares(codec, spec, rows')
  {
    hide Prepare;
    assert forall i :: 0 <= i < |rows| ==> rows[i] in multiset(rows');
    assert forall i :: 0 <= i < |rows'| ==> rows'[i] in multiset(rows);
  }

  lemma SamePrepared(codec: Codec, spec: TableSpec, rows: seq<Row>, rows': seq<Row>)
    requires WellFormed(spec) && multiset(rows) == multiset(rows') && Prepares(codec, spec, rows')
    requires Prepares(codec, spec, rows)
    ensures forall x :: x in PreparedRows(codec, spec, rows) ==> x in PreparedRows(codec, spec, rows')
  {
    hide Prepare, Prepares;
    forall x | x in PreparedRows(codec, spec, rows) ensures x in PreparedRows(codec, spec, rows') {
      var i :| 0 <= i < |rows| && PreparedRows(codec, spec, rows)[i] == x;
      assert rows[i] in multiset(rows');
      var j :| 0 <= j < |rows'| && rows'[j] == rows[i];
      assert Some(PreparedRows(codec, spec, rows')[j]) == Some(x);
    }
  }

  ghost predicate HasForm(codec: Codec, spec: TableSpec, raw: Row) { exists x :: Becomes(codec, spec, raw, x) }

  /** The primary-key columns of the two rows encode alike. */
  ghost predicate SameKey(codec: Codec, spec: TableSpec, raw: Row, other: Row) {
    exists x, y :: Becomes(codec, spec, raw, x) && Becomes(codec, spec, other, y) && x.key == y.key
  }

  /** Every row has a canonical form and a key, and no two rows have one key. */
  ghost predicate Keyable(codec: Codec, spec: TableSpec, rows: seq<Row>) {
    && (forall i :: 0 <= i < |rows| ==> HasForm(codec, spec, rows[i]))
    && forall i, j :: 0 <= i < j < |rows| ==> !SameKey(codec, spec, rows[i], rows[j])
  }

  /** The table holds each row's canonical form once, frozen, ascending by key, under the digest of their lines. */
  ghost predicate MadeFrom(codec: Codec, spec: TableSpec, rows: seq<Row>, table: Table, xs: seq<Keyed>, m: seq<nat>) {
    && table.table == spec.table && |xs| == |rows| == |table.rows| && Pairing(m, |rows|)
    && (forall i :: 0 <= i < |xs| ==> Becomes(codec, spec, rows[m[i]], xs[i]))
    && (forall i :: 0 <= i < |xs| ==> Frozen(table.rows[i]) && Thaw(table.rows[i]) == xs[i].row)
    && (forall i, j :: 0 <= i < j < |xs| ==> Below(xs[i].key, xs[j].key))
    && table.digest == codec.sha(Lines(xs))
  }

  lemma FormIsPrepared(codec: Codec, spec: TableSpec, raw: Row)
    requires WellFormed(spec)
    ensures HasForm(codec, spec, raw) <==> Prepare(codec, spec, raw).Some?
  {
    if x :| Becomes(codec, spec, raw, x) { PrepareBecomes(codec, spec, raw, x); }
    if Prepare(codec, spec, raw).Some? { PrepareBecomes(codec, spec, raw, Prepare(codec, spec, raw).value); }
  }

  lemma SameKeyIsPrepared(codec: Codec, spec: TableSpec, raw: Row, other: Row)
    requires WellFormed(spec) && Prepare(codec, spec, raw).Some? && Prepare(codec, spec, other).Some?
    ensures SameKey(codec, spec, raw, other) <==> PreparedKey(codec, spec)(raw) == PreparedKey(codec, spec)(other)
  {
    hide Becomes, Prepare;
    var x, y := Prepare(codec, spec, raw).value, Prepare(codec, spec, other).value;
    PrepareBecomes(codec, spec, raw, x);
    PrepareBecomes(codec, spec, other, y);
    if v, w :| Becomes(codec, spec, raw, v) && Becomes(codec, spec, other, w) && v.key == w.key {
      PrepareBecomes(codec, spec, raw, v);
      PrepareBecomes(codec, spec, other, w);
    }
  }

  lemma GoodIsKeyable(codec: Codec, spec: TableSpec, rows: seq<Row>)
    requires WellFormed(spec)
    ensures Good(codec, spec, rows) <==> Keyable(codec, spec, rows)
  {
    hide Prepare, HasForm, SameKey;
    forall i | 0 <= i < |rows| ensures HasForm(codec, spec, rows[i]) <==> Prepare(codec, spec, rows[i]).Some? {
      FormIsPrepared(codec, spec, rows[i]);
    }
    if Prepares(codec, spec, rows) {
      forall i, j | 0 <= i < j < |rows|
        ensures SameKey(codec, spec, rows[i], rows[j]) <==>
                  PreparedKey(codec, spec)(rows[i]) == PreparedKey(codec, spec)(rows[j])
      {
        SameKeyIsPrepared(codec, spec, rows[i], rows[j]);
      }
    }
  }

  lemma TableIsMade(codec: Codec, spec: TableSpec, rows: seq<Row>) returns (xs: seq<Keyed>, m: seq<nat>)
    requires WellFormed(spec) && Good(codec, spec, rows)
    ensures MadeFrom(codec, spec, rows, CanonicalTable(codec, spec, rows), xs, m)
  {
    var prepared := PreparedRows(codec, spec, rows);
    xs := Sort(prepared);
    PreparedDistinct(codec, spec, rows);
    m := SameBagIsRearranged(xs, prepared);
    SortedIsMade(codec, spec, rows, xs, m);
  }

  lemma SortedIsMade(codec: Codec, spec: TableSpec, rows: seq<Row>, xs: seq<Keyed>, m: seq<nat>)
    requires WellFormed(spec) && Prepares(codec, spec, rows) && Rearranged(xs, PreparedRows(codec, spec, rows), m)
    requires Ascending(xs)
    ensures MadeFrom(codec, spec, rows, Table(spec.table, FrozenRows(xs), codec.sha(Lines(xs))), xs, m)
  {
    hide Prepare, Becomes, Freeze, Frozen, Thaw, Lines, Below, PreparedRows;
    forall i | 0 <= i < |xs|
      ensures Becomes(codec, spec, rows[m[i]], xs[i])
      ensures Frozen(Freeze(xs[i].row)) && Thaw(Freeze(xs[i].row)) == xs[i].row
    {
      assert Some(PreparedRows(codec, spec, rows)[m[i]]) == Prepare(codec, spec, rows[m[i]]);
      PrepareBecomes(codec, spec, rows[m[i]], xs[i]);
      BecomesFreezes(codec, spec, rows[m[i]], xs[i]);
    }
  }

  lemma BecomesFreezes(codec: Codec, spec: TableSpec, raw: Row, x: Keyed)
    requires Becomes(codec, spec, raw, x)
    ensures Frozen(Freeze(x.row)) && Thaw(Freeze(x.row)) == x.row
  {
    CanonicalizeIsCanonical(Mapping(raw, false));
    ThawFreeze(x.row);
  }

  method CanonicalizeTable(codec: Codec, spec: TableSpec, rows: seq<Row>) returns (r: Option<Table>)
    requires WellFormed(spec)
    ensures r == if Good(codec, spec, rows) then Some(CanonicalTable(codec, spec, rows)) else None
    ensures r.Some? <==> Keyable(codec, spec, rows)
    ensures r.Some? ==> exists xs, m :: MadeFrom(codec, spec, rows, r.value, xs, m)
  {
    GoodIsKeyable(codec, spec, rows);
    hide Keyable, MadeFrom, Good;
    hide Prepare, Unique, Prepares, Sort, FrozenRows, Lines;
    var keyed := KeyRows(codec, spec, rows);
    if keyed == None { return None; }
    var sorted := Sort(keyed.value);
    var lines := LinesOf(sorted);
    var frozen := FreezeRows(sorted);
    r := Some(Table(spec.table, frozen, codec.sha(lines)));
    ghost var xs, m := TableIsMade(codec, spec, rows);
  }

  /** Canonical rows with their keys, refusing a key seen before. */
  method KeyRows(codec: Codec, spec: TableSpec, rows: seq<Row>) returns (r: Option<seq<Keyed>>)
    requires WellFormed(spec)
    ensures r.Some? <==> Good(codec, spec, rows)
    ensures r.Some? ==> r.value == PreparedRows(codec, spec, rows)
  {
    hide Prepare;
    assert Unique(PreparedKey(codec, spec), rows[..0]);
    hide Unique;
    var keyed: seq<Keyed> := [];
    var seen: set<Key> := {};
    for i := 0 to |rows|
      invariant Prepares(codec, spec, rows[..i]) && Unique(PreparedKey(codec, spec), rows[..i])
      invariant keyed == PreparedRows(codec, spec, rows[..i])
      invariant seen == set j | 0 <= j < i :: keyed[j].key
    {
      assert rows[..i + 1] == rows[..i] + [rows[i]];
      var prepared := Prepare(codec, spec, rows[i]);
      if prepared == None { return None; }
      NewKey(codec, spec, rows, i, keyed);
      if prepared.value.key in seen { return None; }
      seen := seen + {prepared.value.key};
      keyed := keyed + [prepared.value];
    }
    assert rows[..|rows|] == rows;
    r := Some(keyed);
  }

  method LinesOf(sorted: seq<Keyed>) returns (buffer: Text)
    ensures buffer == Lines(sorted)
  {
    buffer := [];
    for i := 0 to |sorted|
      invariant buffer == Lines(sorted[..i])
    {
      assert sorted[..i + 1][..i] == sorted[..i];
      buffer := buffer + sorted[i].line + [NEWLINE];
    }
    assert sorted[..|sorted|] == sorted;
  }

  method FreezeRows(sorted: seq<Keyed>) returns (frozen: seq<Value>)
    ensures frozen == FrozenRows(sorted)
  {
    frozen := [];
    for i := 0 to |sorted|
      invariant frozen == FrozenRows(sorted[..i])
    {
      frozen := frozen + [Freeze(sorted[i].row)];
    }
    assert sorted[..|sorted|] == sorted;
  }

  lemma NewKey(codec: Codec, spec: TableSpec, rows: seq<Row>, i: nat, keyed: seq<Keyed>)
    requires WellFormed(spec) && i < |rows| && Prepares(codec, spec, rows[..i])
    requires keyed == PreparedRows(codec, spec, rows[..i])
    requires Unique(PreparedKey(codec, spec), rows[..i]) && Prepare(codec, spec, rows[i]).Some?
    ensures var key := Prepare(codec, spec, rows[i]).value.key;
            && (Unique(PreparedKey(codec, spec), rows[..i + 1]) <==> forall j :: 0 <= j < i ==> keyed[j].key != key)
            && (!Unique(PreparedKey(codec, spec), rows[..i + 1]) ==> !Unique(PreparedKey(codec, spec), rows))
  {
    hide Prepare;
    var k := PreparedKey(codec, spec);
    assert forall j :: 0 <= j < i ==> rows[..i][j] == rows[j] && keyed[j].key == k(rows[..i][j]);
    assert forall j :: 0 <= j <= i ==> rows[..i + 1][j] == rows[j];
    assert forall j :: 0 <= j < i ==> k(rows[j]) == k(rows[..i][j]);
    assert k(rows[i]) == Prepare(codec, spec, rows[i]).value.key;
    if Unique(k, rows[..i + 1]) {
      forall j | 0 <= j < i ensures keyed[j].key != k(rows[i]) {
        assert k(rows[..i + 1][j]) != k(rows[..i + 1][i]);
      }
    }
  }

  // ---------------------------------------------------------------- the table verifier

  function Thawed(codec: Codec, spec: TableSpec, row: Value): Option<Keyed>
    requires WellFormed(spec)
  {
    var v := Thaw(row);
    if !v.Mapping? || v.fields.Keys != Columns(spec) then None else
      match (KeyOf(codec, spec, v), codec.encode(v))
      case (Some(key), Some(line)) => Some(Keyed(key, v, line))
      case _ => None
  }

  ghost predicate Reads(codec: Codec, spec: TableSpec, rows: seq<Value>, xs: seq<Keyed>)
    requires WellFormed(spec)
  {
    |xs| == |rows| && forall i :: 0 <= i < |xs| ==> Thawed(codec, spec, rows[i]) == Some(xs[i])
  }

  ghost predicate HoldsAll(codec: Codec, spec: TableSpec, rows: seq<Value>, xs: seq<Keyed>) {
    |xs| == |rows| && forall i :: 0 <= i < |xs| ==> Holds(codec, spec, rows[i], xs[i])
  }

  /** The table's own rows, in their own order, strictly ascend by primary key and hash to its digest. */
  ghost predicate Verified(codec: Codec, spec: TableSpec, table: Table) {
    && table.table == spec.table
    && exists xs: seq<Keyed> :: HoldsAll(codec, spec, table.rows, xs)
                    && (forall i, j :: 0 <= i < j < |xs| ==> Below(xs[i].key, xs[j].key))
                    && codec.sha(Lines(xs)) == table.digest
  }

  lemma ReadsAreHeld(codec: Codec, spec: TableSpec, rows: seq<Value>)
    requires WellFormed(spec)
    ensures forall xs :: Reads(codec, spec, rows, xs) <==> HoldsAll(codec, spec, rows, xs)
  {
    forall row, x ensures Thawed(codec, spec, row) == Some(x) <==> Holds(codec, spec, row, x) {
      ThawedHolds(codec, spec, row, x);
    }
    hide Thawed, Holds;
  }

  method VerifyTable(codec: Codec, spec: TableSpec, table: Table) returns (ok: bool)
    requires WellFormed(spec)
    ensures ok <==> Verified(codec, spec, table)
  {
    ReadsAreHeld(codec, spec, table.rows);
    hide Thawed, Below, HoldsAll;
    if table.table != spec.table { return false; }
    var previous: Option<Key> := None;
    var buffer: Text := [];
    ghost var xs: seq<Keyed> := [];
    for i := 0 to |table.rows|
      invariant Reads(codec, spec, table.rows[..i], xs) && Ascending(xs) && buffer == Lines(xs)
      invariant previous == if i == 0 then None else Some(xs[i - 1].key)
    {
      var row := Thawed(codec, spec, table.rows[i]);
      if row == None {
        Unreadable(codec, spec, table.rows, i);
        return false;
      }
      if previous.Some? && (row.value.key == previous.value || Below(row.value.key, previous.value)) {
        NotAscending(codec, spec, table.rows, xs, i, row.value);
        return false;
      }
      ReadOne(codec, spec, table.rows, xs, row.value);
      buffer := buffer + row.value.line + [NEWLINE];
      xs := xs + [row.value];
      previous := Some(row.value.key);
    }
    assert table.rows[..|table.rows|] == table.rows;
    ok := codec.sha(buffer) == table.digest;
    VerifiedIs(codec, spec, table, xs);
  }

  lemma LinesAppend(xs: seq<Keyed>, x: Keyed)
    ensures Lines(xs + [x]) == Lines(xs) + x.line + [NEWLINE]
  {
    assert (xs + [x])[..|xs|] == xs;
  }

  lemma ReadOne(codec: Codec, spec: TableSpec, rows: seq<Value>, xs: seq<Keyed>, x: Keyed)
    requires WellFormed(spec) && |xs| < |rows| && Reads(codec, spec, rows[..|xs|], xs)
    requires Thawed(codec, spec, rows[|xs|]) == Some(x)
    requires Ascending(xs) && (xs != [] ==> x.key != xs[|xs| - 1].key && !Below(x.key, xs[|xs| - 1].key))
    ensures Reads(codec, spec, rows[..|xs| + 1], xs + [x]) && Ascending(xs + [x])
    ensures Lines(xs + [x]) == Lines(xs) + x.line + [NEWLINE]
  {
    AppendAscends(xs, x);
    LinesAppend(xs, x);
    ReadsGrow(codec, spec, rows, xs, x);
    hide *;
  }

  lemma ReadsGrow(codec: Codec, spec: TableSpec, rows: seq<Value>, xs: seq<Keyed>, x: Keyed)
    requires WellFormed(spec) && |xs| < |rows| && Reads(codec, spec, rows[..|xs|], xs)
    requires Thawed(codec, spec, rows[|xs|]) == Some(x)
    ensures Reads(codec, spec, rows[..|xs| + 1], xs + [x])
  {
    hide Thawed, WellFormed;
    var n := |xs|;
    forall i | 0 <= i < n + 1 ensures Thawed(codec, spec, rows[..n + 1][i]) == Some((xs + [x])[i]) {
      if i < n { assert rows[..n][i] == rows[i]; }
    }
  }

  lemma VerifiedIs(codec: Codec, spec: TableSpec, table: Table, xs: seq<Keyed>)
    requires WellFormed(spec) && table.table == spec.table && Reads(codec, spec, table.rows, xs) && Ascending(xs)
    ensures Verified(codec, spec, table) <==> codec.sha(Lines(xs)) == table.digest
  {
    ReadsAreHeld(codec, spec, table.rows);
    hide Thawed, Lines, HoldsAll, Below;
    forall ys | Reads(codec, spec, table.rows, ys) ensures ys == xs { SameReading(codec, spec, table.rows, xs, ys); }
  }

  lemma Unreadable(codec: Codec, spec: TableSpec, rows: seq<Value>, i: nat)
    requires WellFormed(spec) && i < |rows| && Thawed(codec, spec, rows[i]) == None
    ensures forall xs :: !Reads(codec, spec, rows, xs)
  {
    forall xs ensures !Reads(codec, spec, rows, xs) {
      assert |xs| == |rows| ==> Thawed(codec, spec, rows[i]) != Some(xs[i]);
    }
  }

  lemma SameReading(codec: Codec, spec: TableSpec, rows: seq<Value>, xs: seq<Keyed>, ys: seq<Keyed>)
    requires WellFormed(spec) && Reads(codec, spec, rows, xs) && Reads(codec, spec, rows, ys)
    ensures xs == ys
  {
    forall i | 0 <= i < |xs| ensures xs[i] == ys[i] { assert Some(xs[i]) == Some(ys[i]); }
  }

  lemma AppendAscends(xs: seq<Keyed>, x: Keyed)
    requires Ascending(xs) && (xs != [] ==> x.key != xs[|xs| - 1].key && !Below(x.key, xs[|xs| - 1].key))
    ensures Ascending(xs + [x])
  {
    if xs != [] {
      var n := |xs| - 1;
      KeyOrder(x.key, xs[n].key);
      forall i | 0 <= i < n ensures Below(xs[i].key, x.key) { KeyTransitive(xs[i].key, xs[n].key, x.key); }
    }
  }

  lemma NotAscending(codec: Codec, spec: TableSpec, rows: seq<Value>, xs: seq<Keyed>, i: nat, x: Keyed)
    requires WellFormed(spec) && 0 < i < |rows| && Reads(codec, spec, rows[..i], xs)
    requires Thawed(codec, spec, rows[i]) == Some(x)
    requires x.key == xs[i - 1].key || Below(x.key, xs[i - 1].key)
    ensures forall ys :: Reads(codec, spec, rows, ys) ==> !Ascending(ys)
  {
    KeyOrder(x.key, xs[i - 1].key);
    hide Thawed, Below;
    forall ys | Reads(codec, spec, rows, ys) ensures !Ascending(ys) {
      assert Some(ys[i - 1]) == Thawed(codec, spec, rows[..i][i - 1]) == Some(xs[i - 1]);
      assert ys[i] == x;
    }
  }

  /** Every canonicalized table passes the verifier. */
  lemma CanonicalTableVerifies(codec: Codec, spec: TableSpec, rows: seq<Row>)
    requires WellFormed(spec) && Good(codec, spec, rows)
    ensures Verified(codec, spec, CanonicalTable(codec, spec, rows))
  {
    PreparedDistinct(codec, spec, rows);
    var prepared := PreparedRows(codec, spec, rows);
    var xs := Sort(prepared);
    hide Prepare, Thawed, Sort;
    forall i | 0 <= i < |xs| ensures Thawed(codec, spec, Freeze(xs[i].row)) == Some(xs[i]) {
      assert xs[i] in prepared;
      var j :| 0 <= j < |rows| && prepared[j] == xs[i];
      PreparedThaws(codec, spec, rows[j]);
    }
    assert Reads(codec, spec, FrozenRows(xs), xs);
    ReadsAreHeld(codec, spec, FrozenRows(xs));
  }

  lemma PreparedThaws(codec: Codec, spec: TableSpec, row: Row)
    requires WellFormed(spec) && Prepare(codec, spec, row).Some?
    ensures Thawed(codec, spec, Freeze(Prepare(codec, spec, row).value.row)) == Prepare(codec, spec, row)
  {
    CanonicalizeIsCanonical(Mapping(row, false));
    ThawFreeze(CanonicalRow(spec, row).value);
  }

  // ---------------------------------------------------------------- what a digest pins down

  lemma {:induction false} LinesFront(xs: seq<Keyed>)
    requires xs != []
    ensures Lines(xs) == xs[0].line + [NEWLINE] + Lines(xs[1..])
    decreases |xs|
  {
    var n := |xs| - 1;
    var last := xs[n];
    LinesAppend(xs[..n], last);
    assert xs == xs[..n] + [last];
    if n == 0 {
      NoLines();
      assert xs[..0] == [] && xs[1..] == [];
      hide Lines;
    } else {
      hide Lines;
      LinesFront(xs[..n]);
      LinesAppend(xs[1..n], last);
      assert xs[1..] == xs[1..n] + [last] && xs[..n][1..] == xs[1..n];
    }
  }

  lemma NoLines()
    ensures Lines([]) == []
  {
  }

  function FirstBreakAt(s: Text): nat { if s == [] || s[0] == NEWLINE then 0 else 1 + FirstBreakAt(s[1..]) }

  lemma {:induction false} BreakAfter(a: Text, p: Text)
    requires NEWLINE !in a
    ensures FirstBreakAt(a + [NEWLINE] + p) == |a|
  {
    if a != [] {
      BreakAfter(a[1..], p);
      assert (a + [NEWLINE] + p)[1..] == a[1..] + [NEWLINE] + p;
    } else {
      assert a + [NEWLINE] + p == [NEWLINE] + p;
    }
  }

  lemma FirstBreak(a: Text, b: Text, p: Text, q: Text)
    requires NEWLINE !in a && NEWLINE !in b && a + [NEWLINE] + p == b + [NEWLINE] + q
    ensures a == b && p == q
  {
    var s, t := a + [NEWLINE] + p, b + [NEWLINE] + q;
    BreakAfter(a, p);
    BreakAfter(b, q);
    assert a == s[..|a|] == t[..|b|] == b;
    assert p == s[|a| + 1..] == t[|b| + 1..] == q;
  }

  /** Lines without a line break in them can be told apart again: one text is one list of lines. */
  lemma {:induction false} LinesPin(xs: seq<Keyed>, ys: seq<Keyed>)
    requires forall i :: 0 <= i < |xs| ==> NEWLINE !in xs[i].line
    requires forall i :: 0 <= i < |ys| ==> NEWLINE !in ys[i].line
    requires Lines(xs) == Lines(ys)
    ensures |xs| == |ys| && forall i :: 0 <= i < |xs| ==> xs[i].line == ys[i].line
  {
    if xs != [] { LinesFront(xs); }
    if ys != [] { LinesFront(ys); }
    if xs != [] && ys != [] {
      FirstBreak(xs[0].line, ys[0].line, Lines(xs[1..]), Lines(ys[1..]));
      LinesPin(xs[1..], ys[1..]);
      forall i | 0 <= i < |xs| ensures xs[i].line == ys[i].line {
        if i > 0 { assert xs[1..][i - 1].line == ys[1..][i - 1].line; }
      }
    }
  }

  /**
   * With a collision-free digest and an encoding that is one to one and free of line breaks, verified tables
   * of one digest hold the same rows.
   */
  lemma SameDigestSameRows(codec: Codec, spec: TableSpec, a: Table, b: Table)
    requires forall s, t :: codec.sha(s) == codec.sha(t) ==> s == t
    requires forall v, w :: codec.encode(v).Some? && codec.encode(v) == codec.encode(w) ==> v == w
    requires forall v :: codec.encode(v).Some? ==> NEWLINE !in codec.encode(v).value
    requires Verified(codec, spec, a) && Verified(codec, spec, b) && a.digest == b.digest
    ensures |a.rows| == |b.rows| && forall i :: 0 <= i < |a.rows| ==> Thaw(a.rows[i]) == Thaw(b.rows[i])
  {
    hide Thaw, HasKey, Below, Lines;
    var xs: seq<Keyed> :| HoldsAll(codec, spec, a.rows, xs) && codec.sha(Lines(xs)) == a.digest;
    var ys: seq<Keyed> :| HoldsAll(codec, spec, b.rows, ys) && codec.sha(Lines(ys)) == b.digest;
    forall i | 0 <= i < |xs| ensures NEWLINE !in xs[i].line { assert Holds(codec, spec, a.rows[i], xs[i]); }
    forall i | 0 <= i < |ys| ensures NEWLINE !in ys[i].line { assert Holds(codec, spec, b.rows[i], ys[i]); }
    LinesPin(xs, ys);
    forall i | 0 <= i < |xs| ensures Thaw(a.rows[i]) == Thaw(b.rows[i]) {
      assert Holds(codec, spec, a.rows[i], xs[i]) && Holds(codec, spec, b.rows[i], ys[i]);
      assert codec.encode(xs[i].row) == codec.encode(ys[i].row);
    }
  }
}
