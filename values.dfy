/** Python runtime values as the generators, the schema validator and the
    error injector see them, and the exceptions the core raises. */
module Values {

  /** A dynamically typed value: a YAML/JSON schema document, a record key
      or a table cell. Mapping keys of documents are strings. */
  datatype Value =
    | VNull
    | VBool(b: bool)
    | VInt(i: int)
    | VStr(s: string)
    | VList(items: seq<Value>)
    | VMap(entries: map<string, Value>)

  /** One row, as the Python dict a generator appends. */
  type Record = map<Value, Value>

  /** A table, as the list of its rows in order. */
  type Table = seq<Record>

  /** The exceptions that reach the caller. `ValueError` carries the message
      the core itself writes; the other kinds come from Python or a library. */
  datatype Exc =
    | ValueError(msg: string)
    | ZeroDivisionError
    | TypeError
    | AttributeError
    | KeyError(key: Value)
    | EmptyRange   // the ValueError random.randrange raises for an empty range
    | EmptySample  // the ValueError DataFrame.sample raises on an empty frame
    | ParseError   // Faker's error for a start date it does not accept

  datatype Option<+T> = None | Some(value: T)

  datatype Result<+T> = Ok(value: T) | Err(error: Exc)

  datatype Outcome = Pass | Fail(error: Exc)

  /** Python truthiness, as used by `x or default`. */
  predicate Truthy(v: Value)
  {
    match v
    case VNull => false
    case VBool(b) => b
    case VInt(i) => i != 0
    case VStr(s) => s != ""
    case VList(xs) => xs != []
    case VMap(m) => m != map[]
  }

  /** `d.get(k, default)` on a dict. */
  function Get(m: map<string, Value>, k: string, default: Value): (v: Value)
    ensures k in m ==> v == m[k]
    ensures k !in m ==> v == default
  {
    if k in m then m[k] else default
  }

  /** Whether Python can use the value as a dict key. */
  predicate Hashable(v: Value)
  {
    !v.VList? && !v.VMap?
  }

  /** The value a dict compares a key as: Python has `True == 1` and
      `False == 0`, with equal hashes, so they are one key. */
  function KeyOf(v: Value): Value
  {
    if v.VBool? then VInt(if v.b then 1 else 0) else v
  }

  /** The other value that is the same dict key as `k`, if any. */
  function Twin(k: Value): (t: Option<Value>)
    ensures t.Some? ==> t.value != k && KeyOf(t.value) == KeyOf(k)
  {
    match k
    case VBool(b) => Some(VInt(if b then 1 else 0))
    case VInt(i) => if i == 0 then Some(VBool(false)) else if i == 1 then Some(VBool(true)) else None
    case _ => None
  }

  /** Two values are the same dict key exactly when they are equal or twins. */
  lemma TwinUnique(k: Value, q: Value)
    requires q != k && KeyOf(q) == KeyOf(k)
    ensures Twin(k) == Some(q)
  {
  }

  /** The keys of `d` as the dict compares them. */
  function KeySet(d: Record): set<Value>
  {
    set k | k in d :: KeyOf(k)
  }

  /** No two keys of `d` are the same dict key, as in every Python dict. */
  predicate DistinctKeys(d: Record)
  {
    forall a, b :: a in d && b in d && KeyOf(a) == KeyOf(b) ==> a == b
  }

  /** `d[k]`: the value stored under `k` or under the key equal to it. */
  function Find(d: Record, k: Value): Option<Value>
  {
    if k in d then Some(d[k])
    else if Twin(k).Some? && Twin(k).value in d then Some(d[Twin(k).value])
    else None
  }

  /** `d[k]` finds nothing exactly when no key of `d` equals `k`. */
  lemma FindNone(d: Record, k: Value)
    ensures Find(d, k).None? <==> KeyOf(k) !in KeySet(d)
  {
    if KeyOf(k) in KeySet(d) {
      var q :| q in d && KeyOf(q) == KeyOf(k);
      if q != k {
        TwinUnique(k, q);
      }
    }
  }

  /** `d[k] = v`: a key already equal to `k` keeps its place and takes the
      new value; otherwise `k` is added. */
  function Store(d: Record, k: Value, v: Value): (d': Record)
    ensures forall q :: q in d ==> q in d'
  {
    if k !in d && Twin(k).Some? && Twin(k).value in d then d[Twin(k).value := v] else d[k := v]
  }

  /** After `d[k] = v`, `d[k]` is `v`. */
  lemma StoreFind(d: Record, k: Value, v: Value)
    ensures Find(Store(d, k, v), k) == Some(v)
  {
  }

  /** `d[k] = v` adds `k` to the keys, as the dict compares them. */
  lemma StoreKeys(d: Record, k: Value, v: Value)
    ensures KeySet(Store(d, k, v)) == KeySet(d) + {KeyOf(k)}
  {
    var d' := Store(d, k, v);
    if k !in d && Twin(k).Some? && Twin(k).value in d {
      assert d'.Keys == d.Keys;
      assert KeyOf(Twin(k).value) in KeySet(d);
    } else {
      assert d'.Keys == d.Keys + {k};
    }
  }

  /** `d[k] = v` never makes two keys equal. */
  lemma StoreDistinct(d: Record, k: Value, v: Value)
    requires DistinctKeys(d)
    ensures DistinctKeys(Store(d, k, v))
  {
    var d' := Store(d, k, v);
    if !(k !in d && Twin(k).Some? && Twin(k).value in d) {
      assert d'.Keys == d.Keys + {k};
      forall a | a in d && KeyOf(a) == KeyOf(k)
        ensures a == k
      {
        if a != k {
          TwinUnique(k, a);
        }
      }
    } else {
      assert d'.Keys == d.Keys;
    }
  }

  /** `d[k] = v` leaves the value of every other key alone. */
  lemma StoreOther(d: Record, k: Value, v: Value, q: Value)
    requires KeyOf(q) != KeyOf(k)
    ensures Find(Store(d, k, v), q) == Find(d, q)
  {
  }

  function Max(a: int, b: int): int
  {
    if a < b then b else a
  }

  function Min(a: int, b: int): int
  {
    if a < b then a else b
  }
}
