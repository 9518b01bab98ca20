/** The people generator: the fixed person record of `generate_default`
    (shared with the streaming generator) and the schema-driven records of
    `generate_from_schema`. */
module People {
  import opened Values
  import opened Text
  import opened Oracle

  // ---------------------------------------------------------------------
  // The fixed person record

  const PersonColumns: set<Value> :=
    {VStr("person_id"), VStr("name"), VStr("email"), VStr("phone"),
     VStr("address"), VStr("age"), VStr("registered_at")}

  /** Person number `k` of a run: one uuid, Faker's name, safe e-mail, phone
      number and address (newlines turned into ", "), an age drawn with
      `random.randint(18, 80)` and a registration time within the last
      three years. */
  function Person(k: nat, o: Faker): (r: Record)
    ensures r.Keys == PersonColumns
  {
    map[
      VStr("person_id") := VStr(o.text(Uuid4, [k])),
      VStr("name") := VStr(o.text(Name, [k])),
      VStr("email") := VStr(o.text(SafeEmail, [k])),
      VStr("phone") := VStr(o.text(PhoneNumber, [k])),
      VStr("address") := VStr(ReplaceNewlines(o.text(Address, [k]))),
      VStr("age") := VInt(Pick(18, 80, o.raw([k]))),
      VStr("registered_at") := VStr(o.text(DateTimeBetween(DefaultStart), [k]))
    ]
  }

  /** A person record has the seven columns; the age is an int from 18 to
      80, the address has no line break, and every other column is a
      string. */
  lemma PersonFields(k: nat, o: Faker)
    ensures var r := Person(k, o);
            && r.Keys == PersonColumns
            && r[VStr("age")].VInt? && 18 <= r[VStr("age")].i <= 80
            && r[VStr("address")].VStr? && NoNewline(r[VStr("address")].s)
            && forall key :: key in r && key != VStr("age") ==> r[key].VStr?
  {
  }

  /** The first `n` persons of a run, in order. */
  function People(n: nat, o: Faker): (t: Table)
    ensures |t| == n
  {
    seq(n, k requires 0 <= k < n => Person(k, o))
  }

  /** `generate_default(count)`: `count` person records (none when
      `count <= 0`), record `k` being person `k` of the run. */
  method GenerateDefault(count: int, o: Faker) returns (rows: Table)
    ensures |rows| == Max(0, count)
    ensures forall k :: 0 <= k < |rows| ==> rows[k] == Person(k, o)
  {
    rows := [];
    var k: nat := 0;
    while k < count
      invariant k <= Max(0, count)
      invariant rows == People(k, o)
    {
      rows := rows + [Person(k, o)];
      k := k + 1;
    }
  }

  // ---------------------------------------------------------------------
  // Schema-driven records

  /** The value kinds a field's `type` selects. */
  datatype Kind = KName | KEmail | KAddress | KPhone | KUuid | KInt | KDatetime | KWord

  const KnownTypes: set<Value> :=
    {VStr("name"), VStr("full_name"), VStr("email"), VStr("address"), VStr("phone"),
     VStr("phone_number"), VStr("uuid"), VStr("int"), VStr("datetime")}

  /** The dispatch on a field's `type`, with its aliases; any other value,
      a missing type included, falls back to a word. */
  function KindOf(ftype: Value): (k: Kind)
    ensures k == KName <==> ftype == VStr("name") || ftype == VStr("full_name")
    ensures k == KEmail <==> ftype == VStr("email")
    ensures k == KAddress <==> ftype == VStr("address")
    ensures k == KPhone <==> ftype == VStr("phone") || ftype == VStr("phone_number")
    ensures k == KUuid <==> ftype == VStr("uuid")
    ensures k == KInt <==> ftype == VStr("int")
    ensures k == KDatetime <==> ftype == VStr("datetime")
    ensures k == KWord <==> ftype !in KnownTypes
  {
    if ftype == VStr("name") || ftype == VStr("full_name") then KName
    else if ftype == VStr("email") then KEmail
    else if ftype == VStr("address") then KAddress
    else if ftype == VStr("phone") || ftype == VStr("phone_number") then KPhone
    else if ftype == VStr("uuid") then KUuid
    else if ftype == VStr("int") then KInt
    else if ftype == VStr("datetime") then KDatetime
    else KWord
  }

  /** Python accepts a bool where an int is expected. */
  predicate IntLike(v: Value)
  {
    v.VInt? || v.VBool?
  }

  function AsInt(v: Value): int
    requires IntLike(v)
  {
    if v.VInt? then v.i else if v.b then 1 else 0
  }

  const DefaultMin := VInt(0)
  const DefaultMax := VInt(100)

  function MinOf(f: map<string, Value>): Value { Get(f, "min", DefaultMin) }

  function MaxOf(f: map<string, Value>): Value { Get(f, "max", DefaultMax) }

  /** Whether an int field's bounds are usable by `fake.random_int`. */
  predicate IntBoundsOk(f: map<string, Value>)
  {
    IntLike(MinOf(f)) && IntLike(MaxOf(f)) && AsInt(MinOf(f)) <= AsInt(MaxOf(f))
  }

  /** `fake.random_int(min=lo, max=hi)`, that is `randrange(lo, hi + 1)`:
      `hi + 1` and randrange's index check raise TypeError for a non-integer,
      and an empty range raises. */
  function RandomInt(lo: Value, hi: Value, r: nat): (v: Result<Value>)
    ensures v.Ok? <==> IntLike(lo) && IntLike(hi) && AsInt(lo) <= AsInt(hi)
    ensures v.Ok? ==> v.value.VInt? && AsInt(lo) <= v.value.i <= AsInt(hi)
    ensures !(IntLike(lo) && IntLike(hi)) ==> v == Err(TypeError)
    ensures IntLike(lo) && IntLike(hi) && AsInt(lo) > AsInt(hi) ==> v == Err(EmptyRange)
  {
    if !IntLike(hi) || !IntLike(lo) then Err(TypeError)
    else if AsInt(lo) > AsInt(hi) then Err(EmptyRange)
    else Ok(VInt(Pick(AsInt(lo), AsInt(hi), r)))
  }

  /** `f.get("start", "-3y")`. */
  function StartOf(f: map<string, Value>): Value { Get(f, "start", DefaultStart) }

  /** Whether the value of field definition `f` can be generated: an int
      field needs usable bounds, a datetime field an accepted start date. */
  predicate ValueOk(f: map<string, Value>, o: Faker)
  {
    && (KindOf(Get(f, "type", VNull)) == KInt ==> IntBoundsOk(f))
    && (KindOf(Get(f, "type", VNull)) == KDatetime ==> StartParses(o, StartOf(f)))
  }

  /** The value generated for field definition `f` at draw site `site`. */
  function FieldValue(f: map<string, Value>, site: Site, o: Faker): (r: Result<Value>)
    ensures r.Ok? <==> ValueOk(f, o)
    ensures r.Ok? && KindOf(Get(f, "type", VNull)) != KInt ==> r.value.VStr?
    ensures KindOf(Get(f, "type", VNull)) == KAddress ==> r.Ok? && NoNewline(r.value.s)
    ensures KindOf(Get(f, "type", VNull)) == KInt && r.Ok? ==>
              r.value.VInt? && AsInt(MinOf(f)) <= r.value.i <= AsInt(MaxOf(f))
    ensures KindOf(Get(f, "type", VNull)) == KDatetime && r.Err? ==> r.error == ParseError
  {
    match KindOf(Get(f, "type", VNull))
    case KName => Ok(VStr(o.text(Name, site)))
    case KEmail => Ok(VStr(o.text(SafeEmail, site)))
    case KAddress => Ok(VStr(ReplaceNewlines(o.text(Address, site))))
    case KPhone => Ok(VStr(o.text(PhoneNumber, site)))
    case KUuid => Ok(VStr(o.text(Uuid4, site)))
    case KInt => RandomInt(MinOf(f), MaxOf(f), o.raw(site))
    case KDatetime =>
      if StartParses(o, StartOf(f)) then Ok(VStr(o.text(DateTimeBetween(StartOf(f)), site)))
      else Err(ParseError)
    case KWord => Ok(VStr(o.text(Word, site)))
  }

  /** The dispatch table for the text kinds, written out. */
  lemma DispatchText(site: Site, o: Faker)
    ensures FieldValue(map["type" := VStr("name")], site, o) == Ok(VStr(o.text(Name, site)))
    ensures FieldValue(map["type" := VStr("full_name")], site, o) == Ok(VStr(o.text(Name, site)))
    ensures FieldValue(map["type" := VStr("email")], site, o) == Ok(VStr(o.text(SafeEmail, site)))
    ensures FieldValue(map["type" := VStr("address")], site, o) == Ok(VStr(ReplaceNewlines(o.text(Address, site))))
    ensures FieldValue(map["type" := VStr("phone")], site, o) == Ok(VStr(o.text(PhoneNumber, site)))
    ensures FieldValue(map["type" := VStr("phone_number")], site, o) == Ok(VStr(o.text(PhoneNumber, site)))
    ensures FieldValue(map["type" := VStr("uuid")], site, o) == Ok(VStr(o.text(Uuid4, site)))
  {
  }

  /** The dispatch table for ints, datetimes and the fallback: an int
      field without bounds draws from 0 to 100, a datetime starts three
      years back, and any other type gives a word. */
  lemma DispatchOther(site: Site, o: Faker, f: map<string, Value>)
    ensures FieldValue(map["type" := VStr("int")], site, o) == Ok(VInt(o.raw(site) % 101))
    ensures FieldValue(map["type" := VStr("datetime")], site, o) == Ok(VStr(o.text(DateTimeBetween(DefaultStart), site)))
    ensures Get(f, "type", VNull) !in KnownTypes ==> FieldValue(f, site, o) == Ok(VStr(o.text(Word, site)))
  {
  }

  /** Whether the inner loop can store field definition `f`: it is a dict,
      its value can be generated, and its name can be a dict key. */
  predicate FieldOk(f: Value, o: Faker)
  {
    && f.VMap?
    && ValueOk(f.entries, o)
    && Hashable(Get(f.entries, "name", VNull))
  }

  /** One step of the inner loop: the key `f.get("name")` and the value
      `rec[fname] = ...` stores. A non-dict has no `get`; the value is
      computed before the key is hashed. */
  function FieldEntry(f: Value, site: Site, o: Faker): (r: Result<(Value, Value)>)
    ensures r.Ok? <==> FieldOk(f, o)
    ensures r.Ok? ==> r.value.0 == Get(f.entries, "name", VNull) && FieldValue(f.entries, site, o) == Ok(r.value.1)
  {
    if !f.VMap? then Err(AttributeError)
    else
      var v := FieldValue(f.entries, site, o);
      if v.Err? then Err(v.error)
      else if !Hashable(Get(f.entries, "name", VNull)) then Err(TypeError)
      else Ok((Get(f.entries, "name", VNull), v.value))
  }

  /** The inner loop from slot `j` to `n`, starting from the partial
      record `rec`; `entry(t)` is the key and value slot `t` stores. */
  function Fill(n: nat, j: nat, rec: Record, entry: nat -> Result<(Value, Value)>): Result<Record>
    requires j <= n
    decreases n - j
  {
    if j == n then Ok(rec)
    else
      match entry(j)
      case Err(e) => Err(e)
      case Ok(kv) => Fill(n, j + 1, Store(rec, kv.0, kv.1), entry)
  }

  /** The entries of record number `i`, one per field definition. */
  function EntryMaker(items: seq<Value>, i: nat, o: Faker): nat -> Result<(Value, Value)>
  {
    (t: nat) => if t < |items| then FieldEntry(items[t], [i, t], o) else Err(TypeError)
  }

  /** The inner loop from field `j` on, starting from the partial record `rec`. */
  function FillRecord(items: seq<Value>, i: nat, j: nat, rec: Record, o: Faker): Result<Record>
    requires j <= |items|
  {
    Fill(|items|, j, rec, EntryMaker(items, i, o))
  }

  /** Record number `i` built from the field definitions `items`. */
  function SchemaRecord(items: seq<Value>, i: nat, o: Faker): Result<Record>
  {
    FillRecord(items, i, 0, map[], o)
  }

  /** The outer loop from record `i` to `count`, with the rows built so
      far; `make(t)` builds record `t`. */
  function FillWith(count: nat, i: nat, rows: Table, make: nat -> Result<Record>): Result<Table>
    requires i <= count
    decreases count - i
  {
    if i == count then Ok(rows)
    else
      match make(i)
      case Err(e) => Err(e)
      case Ok(rec) => FillWith(count, i + 1, rows + [rec], make)
  }

  function RecordMaker(items: seq<Value>, o: Faker): nat -> Result<Record>
  {
    (t: nat) => SchemaRecord(items, t, o)
  }

  /** The outer loop from record `i` on, with the rows built so far. */
  function FillRows(items: seq<Value>, count: nat, i: nat, rows: Table, o: Faker): Result<Table>
    requires i <= count
  {
    FillWith(count, i, rows, RecordMaker(items, o))
  }

  /** `schema.get("fields") or []`. */
  function FieldsOf(schema: map<string, Value>): (r: Value)
    ensures Truthy(Get(schema, "fields", VNull)) ==> r == schema["fields"]
    ensures !Truthy(Get(schema, "fields", VNull)) ==> r == VList([])
  {
    var v := Get(schema, "fields", VNull);
    if Truthy(v) then v else VList([])
  }

  /** Iterating `fields`: a list yields its definitions; a non-empty dict or
      string yields strings, whose missing `get` raises; anything else is
      not iterable. */
  function FieldDefs(fields: Value): (r: Result<seq<Value>>)
    ensures fields.VList? ==> r == Ok(fields.items)
    ensures r.Ok? && !fields.VList? ==> r.value == []
    ensures (fields.VMap? && fields.entries != map[]) || (fields.VStr? && fields.s != "") ==> r == Err(AttributeError)
    ensures fields.VNull? || fields.VBool? || fields.VInt? ==> r == Err(TypeError)
  {
    match fields
    case VList(xs) => Ok(xs)
    case VMap(m) => if m == map[] then Ok([]) else Err(AttributeError)
    case VStr(t) => if t == "" then Ok([]) else Err(AttributeError)
    case _ => Err(TypeError)
  }

  /** What `generate_from_schema(schema, count)` returns or raises. */
  function FromSchema(schema: Value, count: int, o: Faker): (r: Result<Table>)
    ensures !schema.VMap? ==> r == Err(AttributeError)
    ensures schema.VMap? && count <= 0 ==> r == Ok([])
  {
    if !schema.VMap? then Err(AttributeError)
    else if count <= 0 then Ok([])
    else
      match FieldDefs(FieldsOf(schema.entries))
      case Err(e) => Err(e)
      case Ok(items) => FillRows(items, count, 0, [], o)
  }

  /** The inner loop: record `i`, filled field by field from an empty dict. */
  method BuildRecord(items: seq<Value>, i: nat, o: Faker) returns (r: Result<Record>)
    ensures r == SchemaRecord(items, i, o)
  {
    var rec: Record := map[];
    var j: nat := 0;
    while j < |items|
      invariant j <= |items|
      invariant SchemaRecord(items, i, o) == FillRecord(items, i, j, rec, o)
    {
      assert EntryMaker(items, i, o)(j) == FieldEntry(items[j], [i, j], o);
      match FieldEntry(items[j], [i, j], o) {
        case Err(e) => return Err(e);
        case Ok(kv) => rec := Store(rec, kv.0, kv.1);
      }
      j := j + 1;
    }
    return Ok(rec);
  }

  /** `generate_from_schema(schema, count)`: for each of `count` records,
      fill a dict field by field. */
  method GenerateFromSchema(schema: Value, count: int, o: Faker) returns (r: Result<Table>)
    ensures r == FromSchema(schema, count, o)
  {
    if !schema.VMap? {
      return Err(AttributeError);
    }
    var fields := FieldsOf(schema.entries);
    var rows: Table := [];
    var i: nat := 0;
    while i < count
      invariant i <= Max(0, count) && |rows| == i
      invariant i > 0 ==> FieldDefs(fields).Ok?
      invariant count > 0 && FieldDefs(fields).Ok? ==>
                  FromSchema(schema, count, o) == FillRows(FieldDefs(fields).value, count, i, rows, o)
    {
      var items: seq<Value>;
      match FieldDefs(fields) {
        case Err(e) => return Err(e);
        case Ok(xs) => items := xs;
      }
      var next := BuildRecord(items, i, o);
      assert RecordMaker(items, o)(i) == next;
      match next {
        case Err(e) => return Err(e);
        case Ok(rec) => rows := rows + [rec];
      }
      i := i + 1;
    }
    return Ok(rows);
  }

  // ---------------------------------------------------------------------
  // Properties of schema-driven records

  /** The names the definitions from `j` on declare, as dict keys. */
  function NamesFrom(items: seq<Value>, j: nat): set<Value>
  {
    set t | j <= t < |items| && items[t].VMap? :: KeyOf(Get(items[t].entries, "name", VNull))
  }

  /** The names a field list declares, as dict keys. */
  function DeclaredNames(items: seq<Value>): set<Value>
  {
    NamesFrom(items, 0)
  }

  /** The keys the slots from `j` on store, as dict keys. */
  function EntryKeys(n: nat, j: nat, entry: nat -> Result<(Value, Value)>): set<Value>
  {
    set t | j <= t < n && entry(t).Ok? :: KeyOf(entry(t).value.0)
  }

  /** The inner loop finishes exactly when every remaining slot does. */
  lemma {:induction false} FillOk(n: nat, j: nat, rec: Record, entry: nat -> Result<(Value, Value)>)
    requires j <= n
    ensures Fill(n, j, rec, entry).Ok? <==> forall t :: j <= t < n ==> entry(t).Ok?
    decreases n - j
  {
    if j < n && entry(j).Ok? {
      FillOk(n, j + 1, Store(rec, entry(j).value.0, entry(j).value.1), entry);
    }
  }

  /** The finished record has the keys it started with plus the remaining
      slots' keys. */
  lemma {:induction false} FillKeySet(n: nat, j: nat, rec: Record, entry: nat -> Result<(Value, Value)>)
    requires j <= n
    requires Fill(n, j, rec, entry).Ok?
    ensures KeySet(Fill(n, j, rec, entry).value) == KeySet(rec) + EntryKeys(n, j, entry)
    decreases n - j
  {
    if j < n {
      var kv := entry(j).value;
      var rec' := Store(rec, kv.0, kv.1);
      assert Fill(n, j, rec, entry) == Fill(n, j + 1, rec', entry);
      StoreKeys(rec, kv.0, kv.1);
      FillKeySet(n, j + 1, rec', entry);
      assert EntryKeys(n, j, entry) == {KeyOf(kv.0)} + EntryKeys(n, j + 1, entry);
    }
  }

  /** The finished record never holds two equal keys. */
  lemma {:induction false} FillDistinct(n: nat, j: nat, rec: Record, entry: nat -> Result<(Value, Value)>)
    requires j <= n
    requires Fill(n, j, rec, entry).Ok?
    requires DistinctKeys(rec)
    ensures DistinctKeys(Fill(n, j, rec, entry).value)
    decreases n - j
  {
    if j < n {
      var kv := entry(j).value;
      var rec' := Store(rec, kv.0, kv.1);
      assert Fill(n, j, rec, entry) == Fill(n, j + 1, rec', entry);
      StoreDistinct(rec, kv.0, kv.1);
      FillDistinct(n, j + 1, rec', entry);
    }
  }

  /** The finished record keeps what it held under every key no remaining
      slot stores. */
  lemma {:induction false} FillFind(n: nat, j: nat, rec: Record, entry: nat -> Result<(Value, Value)>, k: Value)
    requires j <= n
    requires Fill(n, j, rec, entry).Ok?
    requires KeyOf(k) !in EntryKeys(n, j, entry)
    ensures Find(Fill(n, j, rec, entry).value, k) == Find(rec, k)
    decreases n - j
  {
    if j < n {
      var kv := entry(j).value;
      var rec' := Store(rec, kv.0, kv.1);
      assert Fill(n, j, rec, entry) == Fill(n, j + 1, rec', entry);
      assert KeyOf(kv.0) in EntryKeys(n, j, entry);
      StoreOther(rec, kv.0, kv.1, k);
      assert EntryKeys(n, j + 1, entry) <= EntryKeys(n, j, entry);
      FillFind(n, j + 1, rec', entry, k);
    }
  }

  /** A slot whose key no later slot repeats has its value in the finished
      record. */
  lemma {:induction false} FillLastWins(n: nat, j: nat, rec: Record, entry: nat -> Result<(Value, Value)>, t: nat)
    requires j <= t < n
    requires Fill(n, j, rec, entry).Ok?
    requires forall u :: t < u < n && entry(u).Ok? && entry(t).Ok? ==> KeyOf(entry(u).value.0) != KeyOf(entry(t).value.0)
    ensures entry(t).Ok?
    ensures Find(Fill(n, j, rec, entry).value, entry(t).value.0) == Some(entry(t).value.1)
    decreases n - j
  {
    FillOk(n, j, rec, entry);
    var kv := entry(j).value;
    var rec' := Store(rec, kv.0, kv.1);
    assert Fill(n, j, rec, entry) == Fill(n, j + 1, rec', entry);
    if j < t {
      FillLastWins(n, j + 1, rec', entry, t);
    } else {
      StoreFind(rec, kv.0, kv.1);
      assert KeyOf(kv.0) !in EntryKeys(n, j + 1, entry);
      FillFind(n, j + 1, rec', entry, kv.0);
    }
  }

  /** Filling succeeds exactly when every remaining definition can be
      stored, whatever the random draws are. */
  lemma FillRecordOk(items: seq<Value>, i: nat, j: nat, rec: Record, o: Faker)
    requires j <= |items|
    ensures FillRecord(items, i, j, rec, o).Ok? <==> forall t :: j <= t < |items| ==> FieldOk(items[t], o)
  {
    var entry := EntryMaker(items, i, o);
    FillOk(|items|, j, rec, entry);
    assert forall t :: j <= t < |items| ==> entry(t) == FieldEntry(items[t], [i, t], o);
  }

  /** A filled record has the keys it started with plus every remaining
      declared name, never two equal keys, and keeps the values of keys no
      later field names. */
  lemma FillRecordKeys(items: seq<Value>, i: nat, j: nat, rec: Record, o: Faker)
    requires j <= |items|
    requires FillRecord(items, i, j, rec, o).Ok?
    ensures KeySet(FillRecord(items, i, j, rec, o).value) == KeySet(rec) + NamesFrom(items, j)
    ensures DistinctKeys(rec) ==> DistinctKeys(FillRecord(items, i, j, rec, o).value)
    ensures forall k :: KeyOf(k) !in NamesFrom(items, j) ==> Find(FillRecord(items, i, j, rec, o).value, k) == Find(rec, k)
  {
    var entry := EntryMaker(items, i, o);
    FillRecordOk(items, i, j, rec, o);
    FillOk(|items|, j, rec, entry);
    assert forall t :: j <= t < |items| ==> entry(t) == FieldEntry(items[t], [i, t], o);
    assert EntryKeys(|items|, j, entry) == NamesFrom(items, j);
    FillKeySet(|items|, j, rec, entry);
    if DistinctKeys(rec) {
      FillDistinct(|items|, j, rec, entry);
    }
    forall k | KeyOf(k) !in NamesFrom(items, j)
      ensures Find(FillRecord(items, i, j, rec, o).value, k) == Find(rec, k)
    {
      FillFind(|items|, j, rec, entry, k);
    }
  }

  /** A repeated name keeps the value of its last definition. */
  lemma FillRecordLastWins(items: seq<Value>, i: nat, j: nat, rec: Record, o: Faker, t: nat)
    requires j <= t < |items|
    requires FillRecord(items, i, j, rec, o).Ok?
    requires forall u :: t < u < |items| && items[u].VMap? && items[t].VMap? ==>
               KeyOf(Get(items[u].entries, "name", VNull)) != KeyOf(Get(items[t].entries, "name", VNull))
    ensures items[t].VMap? && FieldValue(items[t].entries, [i, t], o).Ok?
    ensures var name := Get(items[t].entries, "name", VNull);
            Find(FillRecord(items, i, j, rec, o).value, name) == Some(FieldValue(items[t].entries, [i, t], o).value)
  {
    var entry := EntryMaker(items, i, o);
    FillRecordOk(items, i, j, rec, o);
    assert forall u :: j <= u < |items| ==> entry(u) == FieldEntry(items[u], [i, u], o);
    FillLastWins(|items|, j, rec, entry, t);
  }

  /** The outer loop finishes exactly when every remaining record is built. */
  lemma {:induction false} FillWithOk(count: nat, i: nat, rows: Table, make: nat -> Result<Record>)
    requires i <= count
    ensures FillWith(count, i, rows, make).Ok? <==> forall t :: i <= t < count ==> make(t).Ok?
    decreases count - i
  {
    if i < count && make(i).Ok? {
      FillWithOk(count, i + 1, rows + [make(i).value], make);
    }
  }

  /** The outer loop yields one record per remaining index, after the rows
      it started with. */
  lemma {:induction false} FillWithShape(count: nat, i: nat, rows: Table, make: nat -> Result<Record>)
    requires i <= count
    requires FillWith(count, i, rows, make).Ok?
    ensures |FillWith(count, i, rows, make).value| == |rows| + count - i
    ensures FillWith(count, i, rows, make).value[..|rows|] == rows
    ensures forall t :: i <= t < count ==> make(t) == Ok(FillWith(count, i, rows, make).value[|rows| + t - i])
    decreases count - i
  {
    if i < count {
      var rec := make(i).value;
      FillWithShape(count, i + 1, rows + [rec], make);
      var res := FillWith(count, i, rows, make).value;
      assert res[..|rows| + 1] == rows + [rec];
      assert res[..|rows|] == (rows + [rec])[..|rows|];
    }
  }

  /** The outer loop yields one record per remaining index, each built by
      `SchemaRecord`, after the rows it started with. */
  lemma FillRowsShape(items: seq<Value>, count: nat, i: nat, rows: Table, o: Faker)
    requires i <= count
    requires FillRows(items, count, i, rows, o).Ok?
    ensures |FillRows(items, count, i, rows, o).value| == |rows| + count - i
    ensures FillRows(items, count, i, rows, o).value[..|rows|] == rows
    ensures forall t :: i <= t < count ==>
              SchemaRecord(items, t, o) == Ok(FillRows(items, count, i, rows, o).value[|rows| + t - i])
  {
    FillWithShape(count, i, rows, RecordMaker(items, o));
    assert forall t :: RecordMaker(items, o)(t) == SchemaRecord(items, t, o);
  }

  /** The outer loop fails exactly when its first record does: whether a
      record can be built does not depend on its index or the draws. */
  lemma FillRowsOk(items: seq<Value>, count: nat, i: nat, rows: Table, o: Faker)
    requires i < count
    ensures FillRows(items, count, i, rows, o).Ok? <==> SchemaRecord(items, i, o).Ok?
  {
    FillWithOk(count, i, rows, RecordMaker(items, o));
    FillRecordOk(items, i, 0, map[], o);
    forall t | i <= t < count
      ensures RecordMaker(items, o)(t).Ok? <==> SchemaRecord(items, i, o).Ok?
    {
      FillRecordOk(items, t, 0, map[], o);
    }
  }

  /** `generate_from_schema` fails exactly when the schema is not a dict,
      or when at least one record is asked for and the field list cannot be
      iterated or holds a definition that cannot be stored. Which error
      occurs never depends on the random draws. */
  lemma FromSchemaOk(schema: Value, count: int, o: Faker)
    ensures FromSchema(schema, count, o).Ok? <==>
              schema.VMap? &&
              (count <= 0 ||
               (FieldDefs(FieldsOf(schema.entries)).Ok? &&
                forall t :: 0 <= t < |FieldDefs(FieldsOf(schema.entries)).value| ==>
                  FieldOk(FieldDefs(FieldsOf(schema.entries)).value[t], o)))
  {
    if schema.VMap? && count > 0 && FieldDefs(FieldsOf(schema.entries)).Ok? {
      var items := FieldDefs(FieldsOf(schema.entries)).value;
      FillRowsOk(items, count, 0, [], o);
      FillRecordOk(items, 0, 0, map[], o);
    }
  }

  /** A successful run returns `count` records (none for `count <= 0`),
      and each record's keys are exactly the declared field names. */
  lemma FromSchemaRecords(schema: Value, count: int, o: Faker)
    requires FromSchema(schema, count, o).Ok?
    ensures |FromSchema(schema, count, o).value| == Max(0, count)
    ensures count > 0 ==>
              FieldDefs(FieldsOf(schema.entries)).Ok? &&
              forall k :: 0 <= k < count ==>
                SchemaRecord(FieldDefs(FieldsOf(schema.entries)).value, k, o) == Ok(FromSchema(schema, count, o).value[k]) &&
                KeySet(FromSchema(schema, count, o).value[k]) == DeclaredNames(FieldDefs(FieldsOf(schema.entries)).value) &&
                DistinctKeys(FromSchema(schema, count, o).value[k])
  {
    if count > 0 {
      var items := FieldDefs(FieldsOf(schema.entries)).value;
      assert FromSchema(schema, count, o) == FillRows(items, count, 0, [], o);
      FillRowsShape(items, count, 0, [], o);
      var res := FromSchema(schema, count, o).value;
      forall k | 0 <= k < count
        ensures SchemaRecord(items, k, o) == Ok(res[k])
        ensures KeySet(res[k]) == DeclaredNames(items) && DistinctKeys(res[k])
      {
        assert SchemaRecord(items, k, o) == Ok(res[0 + k - 0]);
        FillRecordKeys(items, k, 0, map[], o);
      }
    }
  }

  /** In record `k`, the key of field `t` holds the value generated for `t`
      unless a later field repeats the name. */
  lemma FromSchemaValue(schema: Value, count: int, o: Faker, k: nat, t: nat)
    requires FromSchema(schema, count, o).Ok?
    requires k < count
    requires FieldDefs(FieldsOf(schema.entries)).Ok?
    requires t < |FieldDefs(FieldsOf(schema.entries)).value|
    requires var items := FieldDefs(FieldsOf(schema.entries)).value;
             forall u :: t < u < |items| && items[u].VMap? && items[t].VMap? ==>
               KeyOf(Get(items[u].entries, "name", VNull)) != KeyOf(Get(items[t].entries, "name", VNull))
    ensures k < |FromSchema(schema, count, o).value|
    ensures FieldDefs(FieldsOf(schema.entries)).value[t].VMap?
    ensures var items := FieldDefs(FieldsOf(schema.entries)).value;
            var name := Get(items[t].entries, "name", VNull);
            FieldValue(items[t].entries, [k, t], o).Ok? &&
            Find(FromSchema(schema, count, o).value[k], name) == Some(FieldValue(items[t].entries, [k, t], o).value)
  {
    var items := FieldDefs(FieldsOf(schema.entries)).value;
    FromSchemaRecords(schema, count, o);
    assert SchemaRecord(items, k, o) == Ok(FromSchema(schema, count, o).value[k]);
    FillRecordLastWins(items, k, 0, map[], o, t);
  }

  /** A schema whose `fields` is missing, None or empty gives `count`
      records with no keys. */
  lemma NoFieldsNoKeys(schema: Value, count: int, o: Faker)
    requires schema.VMap? && !Truthy(Get(schema.entries, "fields", VNull))
    ensures FromSchema(schema, count, o).Ok?
    ensures |FromSchema(schema, count, o).value| == Max(0, count)
    ensures forall r :: r in FromSchema(schema, count, o).value ==> r == map[]
  {
    FromSchemaOk(schema, count, o);
    FromSchemaRecords(schema, count, o);
    assert DeclaredNames([]) == {};
    forall r | r in FromSchema(schema, count, o).value
      ensures r == map[]
    {
      assert forall q :: q in r ==> KeyOf(q) in KeySet(r);
      assert r.Keys == {};
    }
  }
}
