/**
  An already-parsed JSON tree, the input of serde's shape-based resolution of untagged
  and externally tagged enums. Parsing text into this tree is not modelled. It also
  serves as the opaque `serde_json::Value`.
*/
module JsonShape {
  import opened Prelude

  datatype Json =
    | JNull
    | JBool(b: bool)
    | JNum(n: int)
    | JFloat(f: F64)
    | JStr(s: string)
    | JArr(items: seq<Json>)
    | JObj(fields: map<string, Json>)

  /** The value of a required struct field; a missing key or a non-object fails. */
  function Member(j: Json, key: string): (r: Option<Json>)
    ensures r.Some? <==> j.JObj? && key in j.fields
    ensures r.Some? ==> r.value == j.fields[key]
  {
    if j.JObj? && key in j.fields then Some(j.fields[key]) else None
  }

  // Writers of scalars, the inverses of the readers below; handy as function values.

  function StringJson(s: string): Json {
    JStr(s)
  }

  function U8Json(x: U8): Json {
    JNum(x)
  }

  function U64Json(x: U64): Json {
    JNum(x)
  }

  function I64Json(x: I64): Json {
    JNum(x)
  }

  function F64Json(f: F64): Json {
    JFloat(f)
  }

  function AsString(j: Json): (r: Option<string>)
    ensures r.Some? <==> j.JStr?
    ensures r.Some? ==> j == JStr(r.value)
  {
    if j.JStr? then Some(j.s) else None
  }

  function AsBool(j: Json): (r: Option<bool>)
    ensures r.Some? <==> j.JBool?
    ensures r.Some? ==> j == JBool(r.value)
  {
    if j.JBool? then Some(j.b) else None
  }

  /** A JSON integer binds as a `u8` only when it lies in 0..255. */
  function AsU8(j: Json): (r: Option<U8>)
    ensures r.Some? <==> j.JNum? && 0 <= j.n < 0x100
    ensures r.Some? ==> j == JNum(r.value)
  {
    if j.JNum? && 0 <= j.n < 0x100 then Some(j.n as U8) else None
  }

  /** A JSON integer binds as a `u32` only when it lies in 0..2^32-1. */
  function AsU32(j: Json): (r: Option<U32>)
    ensures r.Some? <==> j.JNum? && 0 <= j.n < 0x1_0000_0000
    ensures r.Some? ==> j == JNum(r.value)
  {
    if j.JNum? && 0 <= j.n < 0x1_0000_0000 then Some(j.n as U32) else None
  }

  /** A JSON integer binds as a `u64` only when it lies in 0..2^64-1. */
  function AsU64(j: Json): (r: Option<U64>)
    ensures r.Some? <==> j.JNum? && 0 <= j.n < 0x1_0000_0000_0000_0000
    ensures r.Some? ==> j == JNum(r.value)
  {
    if j.JNum? && 0 <= j.n < 0x1_0000_0000_0000_0000 then Some(j.n as U64) else None
  }

  /** A JSON integer binds as an `i64` only when it lies in -2^63..2^63-1. */
  function AsI64(j: Json): (r: Option<I64>)
    ensures r.Some? <==> j.JNum? && -0x8000_0000_0000_0000 <= j.n < 0x8000_0000_0000_0000
    ensures r.Some? ==> j == JNum(r.value)
  {
    if j.JNum? && -0x8000_0000_0000_0000 <= j.n < 0x8000_0000_0000_0000 then Some(j.n as I64) else None
  }

  /** A JSON number with a fraction binds as an `f64`; its parsing into bits is not modelled. */
  function AsF64(j: Json): (r: Option<F64>)
    ensures r.Some? <==> j.JFloat?
    ensures r.Some? ==> j == JFloat(r.value)
  {
    if j.JFloat? then Some(j.f) else None
  }

  /** A required struct field, bound with `bind`; a missing key fails, unknown keys are ignored. */
  function Field<T>(j: Json, key: string, bind: Json -> Option<T>): (r: Option<T>)
    ensures r.Some? <==> j.JObj? && key in j.fields && bind(j.fields[key]).Some?
    ensures r.Some? ==> bind(j.fields[key]) == r
  {
    if j.JObj? && key in j.fields then bind(j.fields[key]) else None
  }

  /**
   * A struct field of type `Option<T>`: a missing key and `null` both bind as `None`, any other
   * value must bind as a `T`.
   */
  function OptionalField<T>(j: Json, key: string, bind: Json -> Option<T>): (r: Option<Option<T>>)
    ensures r == Some(None) <==> j.JObj? && (key !in j.fields || j.fields[key] == JNull)
    ensures r.Some? && r.value.Some? ==>
              j.JObj? && key in j.fields && j.fields[key] != JNull && bind(j.fields[key]) == r.value
    ensures r.None? ==> !j.JObj? || (key in j.fields && j.fields[key] != JNull && bind(j.fields[key]).None?)
  {
    if !j.JObj? then None
    else if key !in j.fields || j.fields[key] == JNull then Some(None)
    else
      match bind(j.fields[key])
      case Some(v) => Some(Some(v))
      case None => None
  }

  /** No key is declared twice. */
  predicate DistinctKeys(keys: seq<string>) {
    forall i, k :: 0 <= i < k < |keys| ==> keys[i] != keys[k]
  }

  /**
   * The values of a struct's declared keys, in declaration order; an absent key reads as
   * `null`, which a field of a non-`Option` type refuses and a field of an `Option` type binds
   * as `None`. Keys that are not declared are ignored. A non-object has no fields.
   */
  function FieldValues(j: Json, keys: seq<string>): (r: Option<seq<Json>>)
    ensures r.Some? <==> j.JObj?
    ensures r.Some? ==> |r.value| == |keys|
    ensures r.Some? ==> forall i :: 0 <= i < |keys| ==>
              r.value[i] == (if keys[i] in j.fields then j.fields[keys[i]] else JNull)
  {
    if j.JObj? then
      Some(seq(|keys|, i requires 0 <= i < |keys| => if keys[i] in j.fields then j.fields[keys[i]] else JNull))
    else None
  }

  /** The object that maps each key to the value at the same position. */
  function ObjectFields(keys: seq<string>, vals: seq<Json>): map<string, Json>
    requires |keys| == |vals|
  {
    if keys == [] then map[] else ObjectFields(keys[1..], vals[1..])[keys[0] := vals[0]]
  }

  lemma {:induction false} ObjectFieldsLookup(keys: seq<string>, vals: seq<Json>, i: nat)
    requires |keys| == |vals| && DistinctKeys(keys) && i < |keys|
    ensures keys[i] in ObjectFields(keys, vals) && ObjectFields(keys, vals)[keys[i]] == vals[i]
  {
    if i > 0 {
      ObjectFieldsLookup(keys[1..], vals[1..], i - 1);
    }
  }

  /** Reading the declared keys of the object built from them gives the values back. */
  lemma FieldValuesOfObject(keys: seq<string>, vals: seq<Json>)
    requires |keys| == |vals| && DistinctKeys(keys)
    ensures FieldValues(JObj(ObjectFields(keys, vals)), keys) == Some(vals)
  {
    var j := JObj(ObjectFields(keys, vals));
    var r := FieldValues(j, keys).value;
    forall i | 0 <= i < |keys|
      ensures r[i] == vals[i]
    {
      ObjectFieldsLookup(keys, vals, i);
    }
    assert r == vals;
  }

  /** A key that is not declared does not change what the declared keys read. */
  lemma FieldValuesIgnoresUndeclared(m: map<string, Json>, k: string, x: Json, keys: seq<string>)
    requires forall i :: 0 <= i < |keys| ==> keys[i] != k
    ensures FieldValues(JObj(m[k := x]), keys) == FieldValues(JObj(m), keys)
  {
    var r1 := FieldValues(JObj(m[k := x]), keys).value;
    var r2 := FieldValues(JObj(m), keys).value;
    forall i | 0 <= i < |keys|
      ensures r1[i] == r2[i]
    {
      assert keys[i] != k;
    }
    assert r1 == r2;
  }

  /** The value of a field of type `Option<T>`: `null` (or absence) is `None`, any other value must bind. */
  function OptionalValue<T>(v: Json, bind: Json -> Option<T>): (r: Option<Option<T>>)
    ensures r == Some(None) <==> v == JNull
    ensures r.Some? && r.value.Some? ==> bind(v) == r.value
    ensures r.None? <==> v != JNull && bind(v).None?
  {
    if v == JNull then Some(None)
    else
      match bind(v)
      case Some(x) => Some(Some(x))
      case None => None
  }

  /** An `Option` written by `OptionalJson` is read back by `OptionalValue`. */
  lemma OptionalValueRoundTrip<T>(o: Option<T>, ser: T -> Json, bind: Json -> Option<T>)
    requires forall x :: bind(ser(x)) == Some(x) && ser(x) != JNull
    ensures OptionalValue(OptionalJson(o, ser), bind) == Some(o)
  {
    if o.Some? {
      assert bind(ser(o.value)) == Some(o.value) && ser(o.value) != JNull;
    }
  }

  /** serde's form of an `Option<T>`: `None` is `null`, `Some(v)` is the form of `v`. */
  function OptionalJson<T>(o: Option<T>, ser: T -> Json): Json {
    match o
    case None => JNull
    case Some(v) => ser(v)
  }

  /** The `Option` field written by `OptionalJson` binds back to the same option. */
  lemma OptionalFieldRoundTrip<T>(m: map<string, Json>, key: string, o: Option<T>, ser: T -> Json, bind: Json -> Option<T>)
    requires forall x :: bind(ser(x)) == Some(x) && ser(x) != JNull
    requires key in m && m[key] == OptionalJson(o, ser)
    ensures OptionalField(JObj(m), key, bind) == Some(o)
  {
    if o.Some? {
      assert bind(ser(o.value)) == Some(o.value) && ser(o.value) != JNull;
    }
  }

  /** A map with one key and a key in it is the singleton map of that key. */
  lemma SingletonMap<V>(m: map<string, V>, k: string)
    requires |m| == 1 && k in m
    ensures m == map[k := m[k]]
  {
    var rest := m.Keys - {k};
    assert |rest| == 0;
    forall k2 | k2 in m
      ensures k2 == k
    {
    }
  }

  /** Binds every item with `bind`; one item that does not bind fails the whole sequence. */
  function BindItems<T>(items: seq<Json>, bind: Json -> Option<T>): (r: Option<seq<T>>)
    ensures r.Some? ==> |r.value| == |items|
    ensures r.Some? ==> forall i :: 0 <= i < |items| ==> bind(items[i]) == Some(r.value[i])
    ensures r.None? ==> exists i :: 0 <= i < |items| && bind(items[i]).None?
  {
    if items == [] then Some([])
    else
      match bind(items[0])
      case None => None
      case Some(x) =>
        match BindItems(items[1..], bind)
        case None => assert forall i :: 0 <= i < |items| - 1 ==> items[1..][i] == items[i + 1]; None
        case Some(rest) => Some([x] + rest)
  }

  function BindArray<T>(j: Json, bind: Json -> Option<T>): Option<seq<T>> {
    if j.JArr? then BindItems(j.items, bind) else None
  }

  /** The binder of a JSON array whose every item binds with `bind`. */
  function ArrayOf<T>(bind: Json -> Option<T>): Json -> Option<seq<T>> {
    j => BindArray(j, bind)
  }

  /** The serialization of a sequence, element by element. */
  function Items<T>(xs: seq<T>, ser: T -> Json): (r: seq<Json>)
    ensures |r| == |xs|
    ensures forall i :: 0 <= i < |xs| ==> r[i] == ser(xs[i])
  {
    if xs == [] then [] else [ser(xs[0])] + Items(xs[1..], ser)
  }

  /** Binding the serialization of a sequence gives the sequence back when elements round-trip. */
  lemma {:induction false} BindItemsRoundTrip<T>(xs: seq<T>, ser: T -> Json, bind: Json -> Option<T>)
    requires forall x :: bind(ser(x)) == Some(x)
    ensures BindItems(Items(xs, ser), bind) == Some(xs)
  {
    if xs != [] {
      var items := Items(xs, ser);
      BindItemsRoundTrip(xs[1..], ser, bind);
      assert items[1..] == Items(xs[1..], ser);
      assert bind(items[0]) == Some(xs[0]);
      assert [xs[0]] + xs[1..] == xs;
    }
  }

  /** The serializer of a sequence as a JSON array. */
  function ArrayJson<T>(ser: T -> Json): seq<T> -> Json {
    xs => JArr(Items(xs, ser))
  }

  /** An optional array written as null when absent binds back to the same option. */
  lemma OptionalArrayRoundTrip<T>(o: Option<seq<T>>, ser: T -> Json, bind: Json -> Option<T>)
    requires forall x :: bind(ser(x)) == Some(x)
    ensures OptionalValue(OptionalJson(o, ArrayJson(ser)), ArrayOf(bind)) == Some(o)
  {
    if o.Some? {
      BindItemsRoundTrip(o.value, ser, bind);
    }
  }

  /** The array serialization of a sequence binds back to it when its elements round-trip. */
  lemma ArrayRoundTrip<T>(xs: seq<T>, ser: T -> Json, bind: Json -> Option<T>)
    requires forall x :: bind(ser(x)) == Some(x)
    ensures ArrayOf(bind)(JArr(Items(xs, ser))) == Some(xs)
  {
    BindItemsRoundTrip(xs, ser, bind);
  }

  /** Conversely, what binds is exactly the serialization of its result. */
  lemma {:induction false} BindItemsCanonical<T>(items: seq<Json>, ser: T -> Json, bind: Json -> Option<T>)
    requires forall j :: bind(j).Some? ==> ser(bind(j).value) == j
    requires BindItems(items, bind).Some?
    ensures Items(BindItems(items, bind).value, ser) == items
  {
    var xs := BindItems(items, bind).value;
    forall i | 0 <= i < |items|
      ensures Items(xs, ser)[i] == items[i]
    {
      assert bind(items[i]) == Some(xs[i]);
    }
  }
}
