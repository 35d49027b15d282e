/** Sort orders (src/iceberg/spec/sort_orders.rs): the direction and null-order names, and
    the sort field and sort order records. A sort field's transform is read and written by
    the partition transform codec. */
module SortOrderCodec {
  import opened Wrappers
  import opened JsonValue
  import opened PartitionSpecCodec

  datatype Direction = Asc | Desc

  datatype NullOrder = NullsFirst | NullsLast

  datatype SortField = SortField(transform: Transform, sourceId: I32, direction: Direction, nullOrder: NullOrder)

  datatype SortOrder = SortOrder(orderId: I32, fields: seq<SortField>)

  /** The lowercase names of `Direction`. */
  function DecodeDirection(s: string): (r: Result<Direction>)
    ensures r.Ok? <==> s in {"asc", "desc"}
    ensures r.Ok? ==> (r.value == Asc <==> s == "asc")
  {
    if s == "asc" then Ok(Asc)
    else if s == "desc" then Ok(Desc)
    else Err(UnknownVariant(s))
  }

  function EncodeDirection(d: Direction): string
  {
    match d
    case Asc => "asc"
    case Desc => "desc"
  }

  /** The kebab-case names of `NullOrder`. */
  function DecodeNullOrder(s: string): (r: Result<NullOrder>)
    ensures r.Ok? <==> s in {"nulls-first", "nulls-last"}
    ensures r.Ok? ==> (r.value == NullsFirst <==> s == "nulls-first")
  {
    if s == "nulls-first" then Ok(NullsFirst)
    else if s == "nulls-last" then Ok(NullsLast)
    else Err(UnknownVariant(s))
  }

  function EncodeNullOrder(n: NullOrder): string
  {
    match n
    case NullsFirst => "nulls-first"
    case NullsLast => "nulls-last"
  }

  lemma DirectionRoundTrip(d: Direction)
    ensures DecodeDirection(EncodeDirection(d)) == Ok(d)
  {
  }

  lemma NullOrderRoundTrip(n: NullOrder)
    ensures DecodeNullOrder(EncodeNullOrder(n)) == Ok(n)
  {
  }

  /** Neither codec accepts an abbreviation. */
  lemma NameExamples()
    ensures DecodeDirection("asc") == Ok(Asc) && DecodeDirection("desc") == Ok(Desc)
    ensures DecodeDirection("dsc").Err?
    ensures DecodeNullOrder("nulls-first") == Ok(NullsFirst) && DecodeNullOrder("nulls-last") == Ok(NullsLast)
    ensures DecodeNullOrder("nulls").Err?
  {
  }

  function DecodeDirectionJson(j: Json): Result<Direction>
  {
    var s :- AsString(j);
    DecodeDirection(s)
  }

  function DecodeNullOrderJson(j: Json): Result<NullOrder>
  {
    var s :- AsString(j);
    DecodeNullOrder(s)
  }

  /** A sort field reads its transform exactly as a partition field does. */
  function DecodeSortField(j: Json): (r: Result<SortField>)
    ensures r.Ok? ==> (j.JObject? && "transform" in j.members &&
      DecodeTransformJson(j.members["transform"]) == Ok(r.value.transform))
    ensures r.Ok? ==> "source-id" in j.members && j.members["source-id"] == JInt(r.value.sourceId)
    ensures r.Ok? ==> "direction" in j.members && DecodeDirectionJson(j.members["direction"]) == Ok(r.value.direction)
    ensures r.Ok? ==> "null-order" in j.members && DecodeNullOrderJson(j.members["null-order"]) == Ok(r.value.nullOrder)
  {
    if !j.JObject? then Err(InvalidType("object"))
    else
      var o := j.members;
      var transform :- Req(o, "transform", DecodeTransformJson);
      var sourceId :- Req(o, "source-id", AsI32);
      var direction :- Req(o, "direction", DecodeDirectionJson);
      var nullOrder :- Req(o, "null-order", DecodeNullOrderJson);
      Ok(SortField(transform, sourceId, direction, nullOrder))
  }

  function EncodeSortField(f: SortField): Json
  {
    JObject(map[
      "transform" := EncodeTransformJson(f.transform),
      "source-id" := JInt(f.sourceId),
      "direction" := JString(EncodeDirection(f.direction)),
      "null-order" := JString(EncodeNullOrder(f.nullOrder))])
  }

  /** `SortOrders`: an order id and its fields in order; the list may be empty. */
  function DecodeSortOrder(j: Json): (r: Result<SortOrder>)
    ensures r.Ok? ==> j.JObject? && "order-id" in j.members && j.members["order-id"] == JInt(r.value.orderId)
    ensures r.Ok? ==> ("fields" in j.members && j.members["fields"].JArray? &&
      |r.value.fields| == |j.members["fields"].items| &&
      forall i :: 0 <= i < |r.value.fields| ==> DecodeSortField(j.members["fields"].items[i]) == Ok(r.value.fields[i]))
  {
    if !j.JObject? then Err(InvalidType("object"))
    else
      var o := j.members;
      var orderId :- Req(o, "order-id", AsI32);
      var fields :- Req(o, "fields", js => AsArray(js, DecodeSortField));
      Ok(SortOrder(orderId, fields))
  }

  function EncodeSortOrder(s: SortOrder): Json
  {
    JObject(map[
      "order-id" := JInt(s.orderId),
      "fields" := EncodeArray(s.fields, EncodeSortField)])
  }

  lemma SortFieldRoundTrip(f: SortField)
    ensures DecodeSortField(EncodeSortField(f)) == Ok(f)
  {
    var o := EncodeSortField(f).members;
    TransformJsonRoundTrip(f.transform);
    assert Req(o, "transform", DecodeTransformJson) == Ok(f.transform);
    assert Req(o, "source-id", AsI32) == Ok(f.sourceId);
    DirectionRoundTrip(f.direction);
    assert Req(o, "direction", DecodeDirectionJson) == Ok(f.direction);
    NullOrderRoundTrip(f.nullOrder);
    assert Req(o, "null-order", DecodeNullOrderJson) == Ok(f.nullOrder);
  }

  lemma SortOrderRoundTrip(s: SortOrder)
    ensures DecodeSortOrder(EncodeSortOrder(s)) == Ok(s)
  {
    forall f | f in s.fields ensures DecodeSortField(EncodeSortField(f)) == Ok(f) {
      SortFieldRoundTrip(f);
    }
    ArrayRoundTrip(s.fields, EncodeSortField, DecodeSortField);
  }

  /** An order with no fields (the unsorted order) is accepted. */
  lemma EmptySortOrder(id: I32)
    ensures DecodeSortOrder(JObject(map["order-id" := JInt(id), "fields" := JArray([])])) == Ok(SortOrder(id, []))
  {
    SortOrderRoundTrip(SortOrder(id, []));
    assert EncodeSortOrder(SortOrder(id, [])) == JObject(map["order-id" := JInt(id), "fields" := JArray([])]);
  }
}
