/** Snapshots and snapshot references (src/iceberg/spec/snapshot.rs): the v2 and v1 snapshot
    records, the v1 rule that a snapshot names its manifests one way only, the summary with
    its operation, and branch and tag references. */
module SnapshotCodec {
  import opened Wrappers
  import opened JsonValue

  datatype Operation = Append | Replace | Overwrite | Delete

  /** The operation, plus every other summary key with its string value. */
  datatype Summary = Summary(operation: Operation, rest: map<string, string>)

  datatype SnapshotV2 = SnapshotV2(
    snapshotId: I64,
    parentSnapshotId: Option<I64>,
    sequenceNumber: I64,
    timestampMs: I64,
    summary: Summary,
    manifestList: string,
    schemaId: Option<I32>)

  datatype SnapshotV1 = SnapshotV1(
    snapshotId: I64,
    parentSnapshotId: Option<I64>,
    timestampMs: I64,
    manifestList: Option<string>,
    manifests: Option<seq<string>>,
    summary: Option<Summary>,
    schemaId: Option<I64>)

  datatype RefType =
    | Branch(minSnapshotsToKeep: Option<I32>, maxSnapshotAgeMs: Option<I64>)
    | Tag

  datatype SnapshotRef = SnapshotRef(snapshotId: I64, refType: RefType, maxRefAgeMs: Option<I64>)

  // ----- summary -----

  function DecodeOperation(s: string): (r: Result<Operation>)
    ensures r.Ok? <==> s in {"append", "replace", "overwrite", "delete"}
  {
    if s == "append" then Ok(Append)
    else if s == "replace" then Ok(Replace)
    else if s == "overwrite" then Ok(Overwrite)
    else if s == "delete" then Ok(Delete)
    else Err(UnknownVariant(s))
  }

  function EncodeOperation(op: Operation): string
  {
    match op
    case Append => "append"
    case Replace => "replace"
    case Overwrite => "overwrite"
    case Delete => "delete"
  }

  lemma OperationRoundTrip(op: Operation)
    ensures DecodeOperation(EncodeOperation(op)) == Ok(op)
  {
  }

  function DecodeOperationJson(j: Json): Result<Operation>
  {
    var s :- AsString(j);
    DecodeOperation(s)
  }

  /** A summary can only carry `operation` as its operation: the flattened map never holds it. */
  predicate ValidSummary(s: Summary)
  {
    "operation" !in s.rest
  }

  /** `Summary`: `operation` is read by name; every other key goes into `rest` and must hold
      a string. */
  function DecodeSummary(j: Json): (r: Result<Summary>)
    ensures r.Ok? ==> ValidSummary(r.value)
    ensures r.Ok? ==> (j.JObject? && "operation" in j.members &&
      DecodeOperationJson(j.members["operation"]) == Ok(r.value.operation) &&
      r.value.rest.Keys == j.members.Keys - {"operation"} &&
      forall k :: k in r.value.rest ==> j.members[k] == JString(r.value.rest[k]))
  {
    if !j.JObject? then Err(InvalidType("object"))
    else
      var o := j.members;
      var operation :- Req(o, "operation", DecodeOperationJson);
      var rest :- AsStringMap(JObject(o - {"operation"}));
      Ok(Summary(operation, rest))
  }

  /** The derived writer puts `operation` first and the flattened map after it; read back
      through a JSON value, a later key replaces an earlier one. */
  function EncodeSummary(s: Summary): (r: Json)
    ensures r.JObject? && r.members.Keys == s.rest.Keys + {"operation"}
    ensures forall k :: k in s.rest ==> r.members[k] == JString(s.rest[k])
    ensures "operation" !in s.rest ==> r.members["operation"] == JString(EncodeOperation(s.operation))
  {
    JObject(map["operation" := JString(EncodeOperation(s.operation))] + EncodeStringMap(s.rest).members)
  }

  lemma SummaryRoundTrip(s: Summary)
    requires ValidSummary(s)
    ensures DecodeSummary(EncodeSummary(s)) == Ok(s)
  {
    var o := EncodeSummary(s).members;
    OperationRoundTrip(s.operation);
    assert o - {"operation"} == EncodeStringMap(s.rest).members;
    MapRoundTrip(s.rest, EncodeString, AsString);
  }

  /** A flattened entry named `operation` is written after the summary's own operation and
      replaces it: the summary reads back with that entry as its operation and without the
      entry, or fails when the entry is not an operation name. */
  lemma SummaryOperationOverridden(s: Summary)
    requires "operation" in s.rest
    ensures DecodeOperation(s.rest["operation"]).Ok? ==>
      DecodeSummary(EncodeSummary(s)) == Ok(Summary(DecodeOperation(s.rest["operation"]).value, s.rest - {"operation"}))
    ensures DecodeOperation(s.rest["operation"]).Err? ==>
      DecodeSummary(EncodeSummary(s)) == Err(DecodeOperation(s.rest["operation"]).error)
  {
    var o := EncodeSummary(s).members;
    assert o["operation"] == JString(s.rest["operation"]);
    assert o - {"operation"} == EncodeStringMap(s.rest - {"operation"}).members;
    MapRoundTrip(s.rest - {"operation"}, EncodeString, AsString);
  }

  /** An append summary whose flattened map says `delete` reads back as a delete; one whose
      map holds an unknown name does not read back. */
  lemma OverriddenOperationExamples()
    ensures DecodeSummary(EncodeSummary(Summary(Append, map["operation" := "delete"]))) == Ok(Summary(Delete, map[]))
    ensures DecodeSummary(EncodeSummary(Summary(Append, map["operation" := "foo"]))) == Err(UnknownVariant("foo"))
  {
    SummaryOperationOverridden(Summary(Append, map["operation" := "delete"]));
    assert map["operation" := "delete"] - {"operation"} == map[];
    SummaryOperationOverridden(Summary(Append, map["operation" := "foo"]));
  }

  /** A summary with other keys keeps each of them. */
  lemma SummaryExample()
    ensures DecodeSummary(JObject(map["operation" := JString("append")])) == Ok(Summary(Append, map[]))
    ensures DecodeSummary(JObject(map["operation" := JString("append"), "added-files" := JString("3")])) ==
      Ok(Summary(Append, map["added-files" := "3"]))
    ensures DecodeSummary(JObject(map["operation" := JString("truncate")])).Err?
  {
    SummaryRoundTrip(Summary(Append, map[]));
    assert EncodeSummary(Summary(Append, map[])) == JObject(map["operation" := JString("append")]);
    SummaryRoundTrip(Summary(Append, map["added-files" := "3"]));
    assert EncodeSummary(Summary(Append, map["added-files" := "3"])) ==
      JObject(map["operation" := JString("append"), "added-files" := JString("3")]);
  }

  // ----- snapshots -----

  /** `SnapshotV2`: the sequence number, timestamp, summary and manifest list are required,
      the parent and the schema id optional. */
  function DecodeSnapshotV2(j: Json): (r: Result<SnapshotV2>)
    ensures r.Ok? ==> ValidSummary(r.value.summary)
    ensures r.Ok? ==> j.JObject? && "snapshot-id" in j.members && j.members["snapshot-id"] == JInt(r.value.snapshotId)
    ensures r.Ok? ==> "sequence-number" in j.members && j.members["sequence-number"] == JInt(r.value.sequenceNumber)
    ensures r.Ok? ==> "timestamp-ms" in j.members && j.members["timestamp-ms"] == JInt(r.value.timestampMs)
    ensures r.Ok? ==> "summary" in j.members && DecodeSummary(j.members["summary"]) == Ok(r.value.summary)
    ensures r.Ok? ==> "manifest-list" in j.members && j.members["manifest-list"] == JString(r.value.manifestList)
    ensures r.Ok? && r.value.parentSnapshotId.Some? ==> "parent-snapshot-id" in j.members && j.members["parent-snapshot-id"] == JInt(r.value.parentSnapshotId.value)
    ensures r.Ok? && r.value.schemaId.Some? ==> "schema-id" in j.members && j.members["schema-id"] == JInt(r.value.schemaId.value)
  {
    if !j.JObject? then Err(InvalidType("object"))
    else
      var o := j.members;
      var snapshotId :- Req(o, "snapshot-id", AsI64);
      var parentSnapshotId :- Opt(o, "parent-snapshot-id", AsI64);
      var sequenceNumber :- Req(o, "sequence-number", AsI64);
      var timestampMs :- Req(o, "timestamp-ms", AsI64);
      var summary :- Req(o, "summary", DecodeSummary);
      var manifestList :- Req(o, "manifest-list", AsString);
      var schemaId :- Opt(o, "schema-id", AsI32);
      Ok(SnapshotV2(snapshotId, parentSnapshotId, sequenceNumber, timestampMs, summary, manifestList, schemaId))
  }

  function EncodeSnapshotV2(s: SnapshotV2): Json
  {
    JObject(map[
      "snapshot-id" := JInt(s.snapshotId),
      "parent-snapshot-id" := EncodeOpt(s.parentSnapshotId, EncodeI64),
      "sequence-number" := JInt(s.sequenceNumber),
      "timestamp-ms" := JInt(s.timestampMs),
      "summary" := EncodeSummary(s.summary),
      "manifest-list" := JString(s.manifestList),
      "schema-id" := EncodeOpt(s.schemaId, EncodeI32)])
  }

  lemma SnapshotV2RoundTrip(s: SnapshotV2)
    requires ValidSummary(s.summary)
    ensures DecodeSnapshotV2(EncodeSnapshotV2(s)) == Ok(s)
  {
    var o := EncodeSnapshotV2(s).members;
    assert o["summary"] == EncodeSummary(s.summary);
    assert Req(o, "snapshot-id", AsI64) == Ok(s.snapshotId);
    OptRoundTrip(o, "parent-snapshot-id", s.parentSnapshotId, EncodeI64, AsI64);
    assert Req(o, "sequence-number", AsI64) == Ok(s.sequenceNumber);
    assert Req(o, "timestamp-ms", AsI64) == Ok(s.timestampMs);
    SummaryRoundTrip(s.summary);
    assert Req(o, "summary", DecodeSummary) == Ok(s.summary);
    assert Req(o, "manifest-list", AsString) == Ok(s.manifestList);
    OptRoundTrip(o, "schema-id", s.schemaId, EncodeI32, AsI32);
  }

  /** The parent and the schema id may be absent: a snapshot without them reads with both
      as None. */
  lemma SnapshotV2OptionalAbsent(s: SnapshotV2)
    requires ValidSummary(s.summary)
    ensures DecodeSnapshotV2(JObject(EncodeSnapshotV2(s).members - {"parent-snapshot-id", "schema-id"})) ==
      Ok(s.(parentSnapshotId := None, schemaId := None))
  {
    var o := EncodeSnapshotV2(s).members - {"parent-snapshot-id", "schema-id"};
    assert "parent-snapshot-id" !in o && "schema-id" !in o;
    assert Opt(o, "parent-snapshot-id", AsI64) == Ok(None);
    assert Opt(o, "schema-id", AsI32) == Ok(None);
    assert o["snapshot-id"] == JInt(s.snapshotId);
    assert o["sequence-number"] == JInt(s.sequenceNumber);
    assert o["timestamp-ms"] == JInt(s.timestampMs);
    assert o["summary"] == EncodeSummary(s.summary);
    assert o["manifest-list"] == JString(s.manifestList);
    assert Req(o, "snapshot-id", AsI64) == Ok(s.snapshotId);
    assert Req(o, "sequence-number", AsI64) == Ok(s.sequenceNumber);
    assert Req(o, "timestamp-ms", AsI64) == Ok(s.timestampMs);
    SummaryRoundTrip(s.summary);
    assert Req(o, "summary", DecodeSummary) == Ok(s.summary);
    assert Req(o, "manifest-list", AsString) == Ok(s.manifestList);
  }

  /** The derived reader for `SnapshotV1`, before the manifests check. */
  function DecodeSnapshotV1Fields(j: Json): (r: Result<SnapshotV1>)
    ensures r.Ok? ==> j.JObject?
    ensures r.Ok? ==> "snapshot-id" in j.members
    ensures r.Ok? ==> "timestamp-ms" in j.members
    ensures r.Ok? && r.value.summary.Some? ==> ValidSummary(r.value.summary.value)
    ensures r.Ok? ==> (r.value.manifestList.Some? <==> "manifest-list" in j.members && j.members["manifest-list"] != JNull)
    ensures r.Ok? ==> (r.value.manifests.Some? <==> "manifests" in j.members && j.members["manifests"] != JNull)
    ensures r.Ok? ==> j.members["snapshot-id"] == JInt(r.value.snapshotId)
    ensures r.Ok? ==> j.members["timestamp-ms"] == JInt(r.value.timestampMs)
    ensures r.Ok? ==> Opt(j.members, "parent-snapshot-id", AsI64) == Ok(r.value.parentSnapshotId)
    ensures r.Ok? ==> Opt(j.members, "manifest-list", AsString) == Ok(r.value.manifestList)
    ensures r.Ok? ==> Opt(j.members, "manifests", AsStringList) == Ok(r.value.manifests)
    ensures r.Ok? ==> Opt(j.members, "summary", DecodeSummary) == Ok(r.value.summary)
    ensures r.Ok? ==> Opt(j.members, "schema-id", AsI64) == Ok(r.value.schemaId)
  {
    if !j.JObject? then Err(InvalidType("object"))
    else
      var o := j.members;
      var snapshotId :- Req(o, "snapshot-id", AsI64);
      var parentSnapshotId :- Opt(o, "parent-snapshot-id", AsI64);
      var timestampMs :- Req(o, "timestamp-ms", AsI64);
      var manifestList :- Opt(o, "manifest-list", AsString);
      var manifests :- Opt(o, "manifests", AsStringList);
      var summary :- Opt(o, "summary", DecodeSummary);
      var schemaId :- Opt(o, "schema-id", AsI64);
      Ok(SnapshotV1(snapshotId, parentSnapshotId, timestampMs, manifestList, manifests, summary, schemaId))
  }

  /** A v1 snapshot names its manifests either by a manifest list or by a list of manifest
      files, never both. */
  predicate ValidSnapshotV1(s: SnapshotV1)
  {
    !(s.manifestList.Some? && s.manifests.Some?) && (s.summary.Some? ==> ValidSummary(s.summary.value))
  }

  /** `SnapshotV1::deserialize`: the derived reader, then the manifests check; a snapshot
      that passes is returned unchanged. */
  function DecodeSnapshotV1(j: Json): (r: Result<SnapshotV1>)
    ensures r.Ok? ==> ValidSnapshotV1(r.value)
    ensures r.Ok? <==> (DecodeSnapshotV1Fields(j).Ok? &&
      !(DecodeSnapshotV1Fields(j).value.manifestList.Some? && DecodeSnapshotV1Fields(j).value.manifests.Some?))
    ensures r.Ok? ==> r == DecodeSnapshotV1Fields(j)
    ensures DecodeSnapshotV1Fields(j).Ok? && r.Err? ==> r == Err(ConflictingManifests)
  {
    var snapshot :- DecodeSnapshotV1Fields(j);
    if snapshot.manifestList.Some? && snapshot.manifests.Some? then Err(ConflictingManifests)
    else Ok(snapshot)
  }

  function EncodeSnapshotV1(s: SnapshotV1): Json
  {
    JObject(map[
      "snapshot-id" := JInt(s.snapshotId),
      "parent-snapshot-id" := EncodeOpt(s.parentSnapshotId, EncodeI64),
      "timestamp-ms" := JInt(s.timestampMs),
      "manifest-list" := EncodeOpt(s.manifestList, EncodeString),
      "manifests" := EncodeOpt(s.manifests, EncodeStringList),
      "summary" := EncodeOpt(s.summary, EncodeSummary),
      "schema-id" := EncodeOpt(s.schemaId, EncodeI64)])
  }

  /** The derived reader reads back every written v1 snapshot, valid or not. */
  lemma SnapshotV1FieldsRoundTrip(s: SnapshotV1)
    requires s.summary.Some? ==> ValidSummary(s.summary.value)
    ensures DecodeSnapshotV1Fields(EncodeSnapshotV1(s)) == Ok(s)
  {
    var o := EncodeSnapshotV1(s).members;
    assert Req(o, "snapshot-id", AsI64) == Ok(s.snapshotId);
    OptRoundTrip(o, "parent-snapshot-id", s.parentSnapshotId, EncodeI64, AsI64);
    assert Req(o, "timestamp-ms", AsI64) == Ok(s.timestampMs);
    OptStringRoundTrip(o, "manifest-list", s.manifestList);
    if s.manifests.Some? {
      ArrayRoundTrip(s.manifests.value, EncodeString, AsString);
    }
    OptRoundTrip(o, "manifests", s.manifests, EncodeStringList, AsStringList);
    if s.summary.Some? {
      SummaryRoundTrip(s.summary.value);
    }
    OptRoundTrip(o, "summary", s.summary, EncodeSummary, DecodeSummary);
    OptRoundTrip(o, "schema-id", s.schemaId, EncodeI64, AsI64);
  }

  lemma SnapshotV1RoundTrip(s: SnapshotV1)
    requires ValidSnapshotV1(s)
    ensures DecodeSnapshotV1(EncodeSnapshotV1(s)) == Ok(s)
  {
    SnapshotV1FieldsRoundTrip(s);
  }

  /** A v1 snapshot that names both a manifest list and manifest files is rejected. */
  lemma BothManifestsRejected(s: SnapshotV1)
    requires s.manifestList.Some? && s.manifests.Some?
    requires s.summary.Some? ==> ValidSummary(s.summary.value)
    ensures DecodeSnapshotV1(EncodeSnapshotV1(s)) == Err(ConflictingManifests)
  {
    SnapshotV1FieldsRoundTrip(s);
  }

  /** A v1 snapshot with only a manifest list reads with no summary, manifests or schema id. */
  lemma SnapshotV1Example()
    ensures DecodeSnapshotV1(JObject(map[
      "snapshot-id" := JInt(3051729675574597004),
      "parent-snapshot-id" := JInt(651729675574597004),
      "timestamp-ms" := JInt(1515100955770),
      "manifest-list" := JString("s3://b/wh/.../s1.avro")])) ==
      Ok(SnapshotV1(3051729675574597004, Some(651729675574597004), 1515100955770,
        Some("s3://b/wh/.../s1.avro"), None, None, None))
  {
  }

  // ----- references -----

  /** The internally tagged `RefType`: `"type"` names the variant; a branch has two optional
      retention settings. */
  function DecodeRefType(o: Object): (r: Result<RefType>)
    ensures r.Ok? ==> "type" in o
    ensures r.Ok? ==> (r.value.Tag? <==> o["type"] == JString("tag"))
    ensures r.Ok? ==> (r.value.Branch? <==> o["type"] == JString("branch"))
    ensures r.Ok? && r.value.Branch? ==>
      (r.value.minSnapshotsToKeep.None? <==> "min-snapshots-to-keep" !in o || o["min-snapshots-to-keep"] == JNull)
    ensures r.Ok? && r.value.Branch? ==>
      (r.value.maxSnapshotAgeMs.None? <==> "max-snapshot-age-ms" !in o || o["max-snapshot-age-ms"] == JNull)
    ensures r.Ok? && r.value.Branch? ==> Opt(o, "min-snapshots-to-keep", AsI32) == Ok(r.value.minSnapshotsToKeep)
    ensures r.Ok? && r.value.Branch? ==> Opt(o, "max-snapshot-age-ms", AsI64) == Ok(r.value.maxSnapshotAgeMs)
  {
    var tag :- Req(o, "type", AsString);
    if tag == "branch" then
      var minSnapshotsToKeep :- Opt(o, "min-snapshots-to-keep", AsI32);
      var maxSnapshotAgeMs :- Opt(o, "max-snapshot-age-ms", AsI64);
      Ok(Branch(minSnapshotsToKeep, maxSnapshotAgeMs))
    else if tag == "tag" then Ok(Tag)
    else Err(UnknownVariant(tag))
  }

  /** `SnapshotRefV2`: the snapshot id, the flattened ref type, and an optional maximum age. */
  function DecodeSnapshotRef(j: Json): (r: Result<SnapshotRef>)
    ensures r.Ok? ==> j.JObject? && "snapshot-id" in j.members && j.members["snapshot-id"] == JInt(r.value.snapshotId)
    ensures r.Ok? ==> DecodeRefType(j.members) == Ok(r.value.refType)
    ensures r.Ok? ==> Opt(j.members, "max-ref-age-ms", AsI64) == Ok(r.value.maxRefAgeMs)
  {
    if !j.JObject? then Err(InvalidType("object"))
    else
      var o := j.members;
      var snapshotId :- Req(o, "snapshot-id", AsI64);
      var refType :- DecodeRefType(o);
      var maxRefAgeMs :- Opt(o, "max-ref-age-ms", AsI64);
      Ok(SnapshotRef(snapshotId, refType, maxRefAgeMs))
  }

  /** The members the ref type contributes to its reference. */
  function EncodeRefType(t: RefType): Object
  {
    match t
    case Branch(minSnapshotsToKeep, maxSnapshotAgeMs) => map[
      "type" := JString("branch"),
      "min-snapshots-to-keep" := EncodeOpt(minSnapshotsToKeep, EncodeI32),
      "max-snapshot-age-ms" := EncodeOpt(maxSnapshotAgeMs, EncodeI64)]
    case Tag => map["type" := JString("tag")]
  }

  function EncodeSnapshotRef(r: SnapshotRef): Json
  {
    JObject(EncodeRefType(r.refType)[
      "snapshot-id" := JInt(r.snapshotId)][
      "max-ref-age-ms" := EncodeOpt(r.maxRefAgeMs, EncodeI64)])
  }

  lemma SnapshotRefRoundTrip(r: SnapshotRef)
    ensures DecodeSnapshotRef(EncodeSnapshotRef(r)) == Ok(r)
  {
  }

  lemma SnapshotRefExamples()
    ensures DecodeSnapshotRef(JObject(map[
      "snapshot-id" := JInt(123456789000), "type" := JString("tag"), "max-ref-age-ms" := JInt(10000000)])) ==
      Ok(SnapshotRef(123456789000, Tag, Some(10000000)))
    ensures DecodeSnapshotRef(JObject(map[
      "snapshot-id" := JInt(123456789000), "type" := JString("branch"), "min-snapshots-to-keep" := JInt(2345)])) ==
      Ok(SnapshotRef(123456789000, Branch(Some(2345), None), None))
  {
  }
}
