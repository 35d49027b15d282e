/** Partition specs (src/iceberg/spec/partition_spec.rs): the transform names with their
    parameterised forms `bucket[N]` and `truncate[N]`, and the spec and field records. */
module PartitionSpecCodec {
  import opened Wrappers
  import opened JsonValue
  import opened NumberText

  datatype Transform =
    | Identity
    | Bucket(buckets: U32)
    | Truncate(width: U32)
    | Year
    | Month
    | Day
    | Hour

  datatype PartitionField = PartitionField(sourceId: I32, fieldId: I32, name: string, transform: Transform)

  datatype PartitionSpec = PartitionSpec(specId: I32, fields: seq<PartitionField>)

  /** The kebab-case variant names the derived codec uses. */
  function TransformName(t: Transform): string
  {
    match t
    case Identity => "identity"
    case Bucket(_) => "bucket"
    case Truncate(_) => "truncate"
    case Year => "year"
    case Month => "month"
    case Day => "day"
    case Hour => "hour"
  }

  /** The derived decoder: a unit variant by its name. */
  function DecodePlainTransform(s: string): Result<Transform>
  {
    if s == "identity" then Ok(Identity)
    else if s == "year" then Ok(Year)
    else if s == "month" then Ok(Month)
    else if s == "day" then Ok(Day)
    else if s == "hour" then Ok(Hour)
    else Err(UnknownVariant(s))
  }

  /** The first letter of a name with either parameterised prefix, which sets the two
      prefixes apart. */
  lemma PrefixLetters(s: string)
    ensures StartsWith(s, "bucket") ==> s[0] == 'b'
    ensures StartsWith(s, "truncate") ==> s[0] == 't'
  {
    if StartsWith(s, "bucket") {
      assert s[0] == s[..6][0];
    }
    if StartsWith(s, "truncate") {
      assert s[0] == s[..8][0];
    }
  }

  /** `Transform::deserialize`: a name starting with `bucket` or `truncate` goes to its own
      grammar (`try_deserialize_bucket`, `try_deserialize_truncate`), every other name to
      the five plain variants. */
  function DecodeTransform(s: string): (r: Result<Transform>)
    ensures StartsWith(s, "bucket") && r.Ok? ==> r.value.Bucket?
    ensures StartsWith(s, "truncate") && r.Ok? ==> r.value.Truncate?
    ensures r.Ok? && r.value.Bucket? ==> exists d :: Bracketed("bucket", s, d) && DigitsValue(d) == r.value.buckets
    ensures r.Ok? && r.value.Truncate? ==> exists d :: Bracketed("truncate", s, d) && DigitsValue(d) == r.value.width
    ensures r.Ok? && !r.value.Bucket? && !r.value.Truncate? ==> s == TransformName(r.value)
  {
    PrefixLetters(s);
    if StartsWith(s, "bucket") then
      var n :- ParseBracketed("bucket", s);
      Ok(Bucket(n))
    else if StartsWith(s, "truncate") then
      var n :- ParseBracketed("truncate", s);
      Ok(Truncate(n))
    else DecodePlainTransform(s)
  }

  /** `Transform::serialize`: `bucket[N]`, `truncate[N]`, or the variant name. */
  function EncodeTransform(t: Transform): string
  {
    match t
    case Bucket(n) => FormatBracketed("bucket", n)
    case Truncate(n) => FormatBracketed("truncate", n)
    case _ => TransformName(t)
  }

  /** Every transform survives encode then decode. */
  lemma TransformRoundTrip(t: Transform)
    ensures DecodeTransform(EncodeTransform(t)) == Ok(t)
  {
    if t.Bucket? {
      BucketRoundTrip(t.buckets);
    } else if t.Truncate? {
      TruncateRoundTrip(t.width);
    } else {
      PrefixLetters(TransformName(t));
    }
  }

  lemma BucketRoundTrip(n: U32)
    ensures DecodeTransform(EncodeTransform(Bucket(n))) == Ok(Bucket(n))
  {
    BracketedRoundTrip("bucket", n);
    assert StartsWith(FormatBracketed("bucket", n), "bucket");
  }

  lemma TruncateRoundTrip(n: U32)
    ensures DecodeTransform(EncodeTransform(Truncate(n))) == Ok(Truncate(n))
  {
    var s := FormatBracketed("truncate", n);
    BracketedRoundTrip("truncate", n);
    PrefixLetters(s);
    assert StartsWith(s, "truncate");
  }

  /** `bucket[N]` reads as `Bucket(N)` exactly when it is in the grammar and N fits a u32. */
  lemma BucketAccepts(s: string)
    ensures (DecodeTransform(s).Ok? && DecodeTransform(s).value.Bucket?) <==>
      exists d :: Bracketed("bucket", s, d) && DigitsValue(d) < 0x1_0000_0000
  {
    PrefixLetters(s);
    if exists d :: Bracketed("bucket", s, d) {
      var d :| Bracketed("bucket", s, d);
      BracketedDigits("bucket", s, d);
      assert s[..6] == s[..7][..6];
    }
  }

  /** `truncate[N]` reads as `Truncate(N)` exactly when it is in the grammar and N fits a u32. */
  lemma TruncateAccepts(s: string)
    ensures (DecodeTransform(s).Ok? && DecodeTransform(s).value.Truncate?) <==>
      exists d :: Bracketed("truncate", s, d) && DigitsValue(d) < 0x1_0000_0000
  {
    PrefixLetters(s);
    if exists d :: Bracketed("truncate", s, d) {
      var d :| Bracketed("truncate", s, d);
      BracketedDigits("truncate", s, d);
      assert s[..8] == s[..9][..8];
    }
  }

  /** The names that read as an unparameterised transform are exactly the five variant
      names; there is no `void`. */
  lemma PlainTransformNames(s: string)
    ensures (DecodeTransform(s).Ok? && !DecodeTransform(s).value.Bucket? && !DecodeTransform(s).value.Truncate?) <==>
      s in {"identity", "year", "month", "day", "hour"}
  {
    PrefixLetters(s);
  }

  /** Parentheses and non-digits are rejected in both parameterised forms. */
  lemma TransformRejects()
    ensures DecodeTransform("bucket(1)").Err? && DecodeTransform("bucket[a1]").Err?
    ensures DecodeTransform("truncate(1)").Err? && DecodeTransform("truncate[a1]").Err?
  {
    assert StartsWith("bucket(1)", "bucket") && StartsWith("bucket[a1]", "bucket");
    assert "bucket(1)"[..7] != "bucket[" by { assert "bucket(1)"[6] == '('; }
    assert !IsDigit("bucket[a1]"[7]);
    assert StartsWith("truncate(1)", "truncate") && StartsWith("truncate[a1]", "truncate");
    assert "truncate(1)"[..9] != "truncate[" by { assert "truncate(1)"[8] == '('; }
    assert !IsDigit("truncate[a1]"[9]);
  }

  lemma BucketExample()
    ensures DecodeTransform("bucket[42]") == Ok(Bucket(42))
  {
    TwoDigits("42", 42);
    assert "bucket[42]" == "bucket" + "[" + "42" + "]";
    assert StartsWith("bucket[42]", "bucket");
    BracketedValue("bucket", "bucket[42]", "42");
  }

  lemma TruncateExample()
    ensures DecodeTransform("truncate[42]") == Ok(Truncate(42))
  {
    TwoDigits("42", 42);
    assert "truncate[42]" == "truncate" + "[" + "42" + "]";
    assert StartsWith("truncate[42]", "truncate");
    PrefixLetters("truncate[42]");
    BracketedValue("truncate", "truncate[42]", "42");
  }

  // ----- records -----

  function DecodeTransformJson(j: Json): Result<Transform>
  {
    var s :- AsString(j);
    DecodeTransform(s)
  }

  function EncodeTransformJson(t: Transform): Json
  {
    JString(EncodeTransform(t))
  }

  function DecodePartitionField(j: Json): (r: Result<PartitionField>)
    ensures r.Ok? ==> j.JObject? && j.members.Keys >= {"source-id", "field-id", "name", "transform"}
    ensures r.Ok? ==> j.members["name"] == JString(r.value.name) && j.members["field-id"] == JInt(r.value.fieldId)
    ensures r.Ok? ==> j.members["source-id"] == JInt(r.value.sourceId)
    ensures r.Ok? ==> DecodeTransformJson(j.members["transform"]) == Ok(r.value.transform)
  {
    if !j.JObject? then Err(InvalidType("object"))
    else
      var o := j.members;
      var sourceId :- Req(o, "source-id", AsI32);
      var fieldId :- Req(o, "field-id", AsI32);
      var name :- Req(o, "name", AsString);
      var transform :- Req(o, "transform", DecodeTransformJson);
      Ok(PartitionField(sourceId, fieldId, name, transform))
  }

  function EncodePartitionField(f: PartitionField): Json
  {
    JObject(map[
      "source-id" := JInt(f.sourceId),
      "field-id" := JInt(f.fieldId),
      "name" := JString(f.name),
      "transform" := EncodeTransformJson(f.transform)])
  }

  /** A spec keeps its id and its fields in order. */
  function DecodePartitionSpec(j: Json): (r: Result<PartitionSpec>)
    ensures r.Ok? ==> j.JObject? && "spec-id" in j.members && j.members["spec-id"] == JInt(r.value.specId)
    ensures r.Ok? ==> ("fields" in j.members && j.members["fields"].JArray? &&
      |r.value.fields| == |j.members["fields"].items| &&
      forall i :: 0 <= i < |r.value.fields| ==> DecodePartitionField(j.members["fields"].items[i]) == Ok(r.value.fields[i]))
  {
    if !j.JObject? then Err(InvalidType("object"))
    else
      var o := j.members;
      var specId :- Req(o, "spec-id", AsI32);
      var fields :- Req(o, "fields", js => AsArray(js, DecodePartitionField));
      Ok(PartitionSpec(specId, fields))
  }

  function EncodePartitionSpec(s: PartitionSpec): Json
  {
    JObject(map[
      "spec-id" := JInt(s.specId),
      "fields" := EncodeArray(s.fields, EncodePartitionField)])
  }

  lemma TransformJsonRoundTrip(t: Transform)
    ensures DecodeTransformJson(EncodeTransformJson(t)) == Ok(t)
  {
    TransformRoundTrip(t);
  }

  lemma PartitionFieldRoundTrip(f: PartitionField)
    ensures DecodePartitionField(EncodePartitionField(f)) == Ok(f)
  {
    var o := EncodePartitionField(f).members;
    assert Req(o, "source-id", AsI32) == Ok(f.sourceId);
    assert Req(o, "field-id", AsI32) == Ok(f.fieldId);
    assert Req(o, "name", AsString) == Ok(f.name);
    TransformJsonRoundTrip(f.transform);
    assert Req(o, "transform", DecodeTransformJson) == Ok(f.transform);
  }

  lemma PartitionSpecRoundTrip(s: PartitionSpec)
    ensures DecodePartitionSpec(EncodePartitionSpec(s)) == Ok(s)
  {
    forall f | f in s.fields ensures DecodePartitionField(EncodePartitionField(f)) == Ok(f) {
      PartitionFieldRoundTrip(f);
    }
    ArrayRoundTrip(s.fields, EncodePartitionField, DecodePartitionField);
  }
}
