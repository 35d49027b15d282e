/** The JSON layer the metadata codecs read and write: a JSON value as serde_json's `Value`
    holds it after parsing (an object keeps one value per key), the integer widths of the
    Rust fields, and serde's derive rules for reading a field of a record. */
module JsonValue {
  import opened Wrappers

  type I32 = x: int | -0x8000_0000 <= x < 0x8000_0000
  type I64 = x: int | -0x8000_0000_0000_0000 <= x < 0x8000_0000_0000_0000
  type U8 = x: int | 0 <= x < 0x100
  type U32 = x: int | 0 <= x < 0x1_0000_0000

  predicate IsI32(n: int) { -0x8000_0000 <= n < 0x8000_0000 }
  predicate IsI64(n: int) { -0x8000_0000_0000_0000 <= n < 0x8000_0000_0000_0000 }

  datatype Json =
    | JNull
    | JBool(b: bool)
    | JInt(n: int)
      /** A number written with a fraction or an exponent (`2.0`, `1e3`), which serde_json
          holds as an f64; none of the integer, string or boolean readers accepts it. */
    | JFloat(x: real)
    | JString(s: string)
    | JArray(items: seq<Json>)
    | JObject(members: map<string, Json>)

  type Object = map<string, Json>

  // ----- scalar values -----

  function AsBool(j: Json): (r: Result<bool>)
    ensures r.Ok? <==> j.JBool?
    ensures r.Ok? ==> j == JBool(r.value)
  {
    if j.JBool? then Ok(j.b) else Err(InvalidType("bool"))
  }

  /** An i32 field accepts exactly the JSON integers in the 32-bit signed range. */
  function AsI32(j: Json): (r: Result<I32>)
    ensures r.Ok? <==> j.JInt? && IsI32(j.n)
    ensures r.Ok? ==> j == JInt(r.value)
  {
    if j.JInt? && IsI32(j.n) then Ok(j.n) else Err(InvalidType("i32"))
  }

  /** An i64 field accepts exactly the JSON integers in the 64-bit signed range. */
  function AsI64(j: Json): (r: Result<I64>)
    ensures r.Ok? <==> j.JInt? && IsI64(j.n)
    ensures r.Ok? ==> j == JInt(r.value)
  {
    if j.JInt? && IsI64(j.n) then Ok(j.n) else Err(InvalidType("i64"))
  }

  function AsString(j: Json): (r: Result<string>)
    ensures r.Ok? <==> j.JString?
    ensures r.Ok? ==> j == JString(r.value)
  {
    if j.JString? then Ok(j.s) else Err(InvalidType("string"))
  }

  function EncodeBool(b: bool): Json { JBool(b) }
  function EncodeI32(n: I32): Json { JInt(n) }
  function EncodeI64(n: I64): Json { JInt(n) }
  function EncodeString(s: string): Json { JString(s) }

  // ----- fields of a record -----

  /** A required field: absent is an error, present is read by `dec`. */
  function Req<T>(o: Object, key: string, dec: Json -> Result<T>): Result<T>
  {
    if key in o then dec(o[key]) else Err(MissingField(key))
  }

  /** An `Option` field: absent or null reads as None. */
  function Opt<T>(o: Object, key: string, dec: Json -> Result<T>): Result<Option<T>>
  {
    if key !in o || o[key] == JNull then Ok(None)
    else
      var v :- dec(o[key]);
      Ok(Some(v))
  }

  function EncodeOpt<T>(x: Option<T>, enc: T -> Json): Json
  {
    match x
    case None => JNull
    case Some(v) => enc(v)
  }

  lemma OptRoundTrip<T>(o: Object, key: string, x: Option<T>, enc: T -> Json, dec: Json -> Result<T>)
    requires key in o && o[key] == EncodeOpt(x, enc)
    requires x.Some? ==> enc(x.value) != JNull && dec(enc(x.value)) == Ok(x.value)
    ensures Opt(o, key, dec) == Ok(x)
  {
  }

  lemma OptStringRoundTrip(o: Object, key: string, x: Option<string>)
    requires key in o && o[key] == EncodeOpt(x, EncodeString)
    ensures Opt(o, key, AsString) == Ok(x)
  {
  }

  // ----- arrays -----

  /** Reads every element of an array; fails exactly when some element fails. */
  function DecodeItems<T>(items: seq<Json>, dec: Json -> Result<T>): (r: Result<seq<T>>)
    ensures r.Ok? <==> forall i :: 0 <= i < |items| ==> dec(items[i]).Ok?
    ensures r.Ok? ==> (|r.value| == |items| &&
      forall i :: 0 <= i < |items| ==> dec(items[i]) == Ok(r.value[i]))
  {
    if |items| == 0 then Ok([])
    else
      var x :- dec(items[0]);
      var rest :- DecodeItems(items[1..], dec);
      assert forall i :: 1 <= i < |items| ==> items[i] == items[1..][i - 1];
      Ok([x] + rest)
  }

  function AsArray<T>(j: Json, dec: Json -> Result<T>): Result<seq<T>>
  {
    if j.JArray? then DecodeItems(j.items, dec) else Err(InvalidType("array"))
  }

  function EncodeArray<T>(xs: seq<T>, enc: T -> Json): Json
  {
    JArray(seq(|xs|, i requires 0 <= i < |xs| => enc(xs[i])))
  }

  lemma ArrayRoundTrip<T>(xs: seq<T>, enc: T -> Json, dec: Json -> Result<T>)
    requires forall i :: 0 <= i < |xs| ==> dec(enc(xs[i])) == Ok(xs[i])
    ensures AsArray(EncodeArray(xs, enc), dec) == Ok(xs)
  {
    var r := AsArray(EncodeArray(xs, enc), dec);
    assert r.Ok?;
    assert r.value == xs;
  }

  // ----- objects read as string-keyed maps -----

  /** Reads every value of an object; fails exactly when some value fails. */
  function AsMap<T>(j: Json, dec: Json -> Result<T>): (r: Result<map<string, T>>)
    ensures r.Ok? <==> j.JObject? && forall k :: k in j.members ==> dec(j.members[k]).Ok?
    ensures r.Ok? ==> (r.value.Keys == j.members.Keys &&
      forall k :: k in j.members ==> dec(j.members[k]) == Ok(r.value[k]))
  {
    if j.JObject? && forall k :: k in j.members ==> dec(j.members[k]).Ok? then
      Ok(map k | k in j.members :: dec(j.members[k]).value)
    else
      Err(InvalidType("map"))
  }

  function EncodeMap<T>(m: map<string, T>, enc: T -> Json): Json
  {
    JObject(map k | k in m :: enc(m[k]))
  }

  lemma MapRoundTrip<T>(m: map<string, T>, enc: T -> Json, dec: Json -> Result<T>)
    requires forall k :: k in m ==> dec(enc(m[k])) == Ok(m[k])
    ensures AsMap(EncodeMap(m, enc), dec) == Ok(m)
  {
    var r := AsMap(EncodeMap(m, enc), dec);
    assert r.Ok?;
    assert r.value == m;
  }

  /** `HashMap<String, String>`: an object whose values are all strings. */
  function AsStringMap(j: Json): Result<map<string, string>>
  {
    AsMap(j, AsString)
  }

  function EncodeStringMap(m: map<string, string>): Json
  {
    EncodeMap(m, EncodeString)
  }

  /** `Vec<i32>`: an array of 32-bit integers. */
  function AsI32List(j: Json): Result<seq<I32>>
  {
    AsArray(j, AsI32)
  }

  function EncodeI32List(xs: seq<I32>): Json
  {
    EncodeArray(xs, EncodeI32)
  }

  /** `Vec<String>`: an array of strings. */
  function AsStringList(j: Json): Result<seq<string>>
  {
    AsArray(j, AsString)
  }

  function EncodeStringList(xs: seq<string>): Json
  {
    EncodeArray(xs, EncodeString)
  }
}
