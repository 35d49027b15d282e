/** Table metadata (src/iceberg/spec/table_metadata.rs): the v1 and v2 field sets, and the
    reader that dispatches on `format-version` and the writer that stamps it. */
module TableMetadataCodec {
  import opened Wrappers
  import opened JsonValue
  import opened SchemaCodec
  import opened PartitionSpecCodec
  import opened SnapshotCodec
  import opened SortOrderCodec

  datatype SnapshotLog = SnapshotLog(snapshotId: I64, timestampMs: I64)

  datatype MetadataLog = MetadataLog(metadataFile: string, timestampMs: I64)

  /** Table statistics carry nothing yet: any object reads as this one value. */
  datatype Statistics = Statistics

  datatype TableMetadataV2 = TableMetadataV2(
    formatVersion: I32,
    tableUuid: string,
    location: string,
    lastSequenceNumber: I64,
    lastUpdatedMs: I64,
    lastColumnId: I32,
    schemas: seq<SchemaV2>,
    currentSchemaId: I32,
    partitionSpecs: seq<PartitionSpec>,
    defaultSpecId: I32,
    lastPartitionId: I32,
    properties: Option<map<string, string>>,
    currentSnapshotId: Option<I64>,
    snapshots: Option<seq<SnapshotV2>>,
    snapshotLog: Option<seq<SnapshotLog>>,
    metadataLog: Option<seq<MetadataLog>>,
    sortOrders: seq<SortOrder>,
    defaultSortOrderId: I32,
    refs: Option<map<string, SnapshotRef>>,
    statistics: Option<Statistics>)

  datatype TableMetadataV1 = TableMetadataV1(
    formatVersion: I32,
    tableUuid: Option<string>,
    location: string,
    lastUpdatedMs: I64,
    lastColumnId: I32,
    schema: SchemaV1,
    schemas: Option<seq<SchemaV1>>,
    currentSchemaId: Option<I32>,
    partitionSpec: seq<PartitionField>,
    partitionSpecs: seq<PartitionSpec>,
    defaultSpecId: Option<I32>,
    lastPartitionId: Option<I32>,
    properties: Option<map<string, string>>,
    currentSnapshotId: Option<I64>,
    snapshots: Option<seq<SnapshotV1>>,
    snapshotLog: Option<seq<SnapshotLog>>,
    metadataLog: Option<seq<MetadataLog>>,
    sortOrders: Option<seq<SortOrder>>,
    defaultSortOrderId: I32,
    statistics: Option<Statistics>)

  datatype TableMetadata = V1(v1: TableMetadataV1) | V2(v2: TableMetadataV2)

  // ----- small records -----

  function DecodeSnapshotLog(j: Json): (r: Result<SnapshotLog>)
    ensures r.Ok? ==> j.JObject? && "snapshot-id" in j.members && j.members["snapshot-id"] == JInt(r.value.snapshotId)
    ensures r.Ok? ==> "timestamp-ms" in j.members && j.members["timestamp-ms"] == JInt(r.value.timestampMs)
  {
    if !j.JObject? then Err(InvalidType("object"))
    else
      var snapshotId :- Req(j.members, "snapshot-id", AsI64);
      var timestampMs :- Req(j.members, "timestamp-ms", AsI64);
      Ok(SnapshotLog(snapshotId, timestampMs))
  }

  function EncodeSnapshotLog(e: SnapshotLog): Json
  {
    JObject(map["snapshot-id" := JInt(e.snapshotId), "timestamp-ms" := JInt(e.timestampMs)])
  }

  function DecodeMetadataLog(j: Json): (r: Result<MetadataLog>)
    ensures r.Ok? ==> j.JObject? && "metadata-file" in j.members && j.members["metadata-file"] == JString(r.value.metadataFile)
    ensures r.Ok? ==> "timestamp-ms" in j.members && j.members["timestamp-ms"] == JInt(r.value.timestampMs)
  {
    if !j.JObject? then Err(InvalidType("object"))
    else
      var metadataFile :- Req(j.members, "metadata-file", AsString);
      var timestampMs :- Req(j.members, "timestamp-ms", AsI64);
      Ok(MetadataLog(metadataFile, timestampMs))
  }

  function EncodeMetadataLog(e: MetadataLog): Json
  {
    JObject(map["metadata-file" := JString(e.metadataFile), "timestamp-ms" := JInt(e.timestampMs)])
  }

  function DecodeStatistics(j: Json): Result<Statistics>
  {
    if j.JObject? then Ok(Statistics) else Err(InvalidType("object"))
  }

  function EncodeStatistics(s: Statistics): Json
  {
    JObject(map[])
  }

  // ----- lists and maps of records -----

  function AsSchemaV2List(j: Json): (r: Result<seq<SchemaV2>>)
    ensures r.Ok? ==> forall i :: 0 <= i < |r.value| ==> ValidStruct(r.value[i].schema)
  {
    AsArray(j, DecodeSchemaV2)
  }

  function AsSchemaV1List(j: Json): (r: Result<seq<SchemaV1>>)
    ensures r.Ok? ==> forall i :: 0 <= i < |r.value| ==> ValidStruct(r.value[i].schema)
  {
    AsArray(j, DecodeSchemaV1)
  }

  function AsPartitionSpecList(j: Json): Result<seq<PartitionSpec>> { AsArray(j, DecodePartitionSpec) }
  function AsPartitionFieldList(j: Json): Result<seq<PartitionField>> { AsArray(j, DecodePartitionField) }
  function AsSnapshotV2List(j: Json): (r: Result<seq<SnapshotV2>>)
    ensures r.Ok? ==> forall i :: 0 <= i < |r.value| ==> ValidSummary(r.value[i].summary)
  {
    AsArray(j, DecodeSnapshotV2)
  }

  function AsSnapshotV1List(j: Json): (r: Result<seq<SnapshotV1>>)
    ensures r.Ok? ==> forall i :: 0 <= i < |r.value| ==> ValidSnapshotV1(r.value[i])
  {
    AsArray(j, DecodeSnapshotV1)
  }

  function AsSnapshotLogList(j: Json): Result<seq<SnapshotLog>> { AsArray(j, DecodeSnapshotLog) }
  function AsMetadataLogList(j: Json): Result<seq<MetadataLog>> { AsArray(j, DecodeMetadataLog) }
  function AsSortOrderList(j: Json): Result<seq<SortOrder>> { AsArray(j, DecodeSortOrder) }
  function AsRefMap(j: Json): Result<map<string, SnapshotRef>> { AsMap(j, DecodeSnapshotRef) }

  // ----- the versioned bodies -----

  /** `TableMetadataV2`: the v2 field set, with its own `format-version` field. */
  function DecodeTableMetadataV2(j: Json): (r: Result<TableMetadataV2>)
    ensures r.Ok? ==> j.JObject?
    ensures r.Ok? ==> "format-version" in j.members
    ensures r.Ok? ==> "table-uuid" in j.members
    ensures r.Ok? ==> "location" in j.members
    ensures r.Ok? ==> "last-sequence-number" in j.members
    ensures r.Ok? ==> "last-updated-ms" in j.members
    ensures r.Ok? ==> "last-column-id" in j.members
    ensures r.Ok? ==> "schemas" in j.members
    ensures r.Ok? ==> "current-schema-id" in j.members
    ensures r.Ok? ==> "partition-specs" in j.members
    ensures r.Ok? ==> "default-spec-id" in j.members
    ensures r.Ok? ==> "last-partition-id" in j.members
    ensures r.Ok? ==> "sort-orders" in j.members
    ensures r.Ok? ==> "default-sort-order-id" in j.members
    ensures r.Ok? ==> j.members["format-version"] == JInt(r.value.formatVersion)
  {
    if !j.JObject? then Err(InvalidType("object"))
    else
      var o := j.members;
      var formatVersion :- Req(o, "format-version", AsI32);
      var tableUuid :- Req(o, "table-uuid", AsString);
      var location :- Req(o, "location", AsString);
      var lastSequenceNumber :- Req(o, "last-sequence-number", AsI64);
      var lastUpdatedMs :- Req(o, "last-updated-ms", AsI64);
      var lastColumnId :- Req(o, "last-column-id", AsI32);
      var schemas :- Req(o, "schemas", AsSchemaV2List);
      var currentSchemaId :- Req(o, "current-schema-id", AsI32);
      var partitionSpecs :- Req(o, "partition-specs", AsPartitionSpecList);
      var defaultSpecId :- Req(o, "default-spec-id", AsI32);
      var lastPartitionId :- Req(o, "last-partition-id", AsI32);
      var properties :- Opt(o, "properties", AsStringMap);
      var currentSnapshotId :- Opt(o, "current-snapshot-id", AsI64);
      var snapshots :- Opt(o, "snapshots", AsSnapshotV2List);
      var snapshotLog :- Opt(o, "snapshot-log", AsSnapshotLogList);
      var metadataLog :- Opt(o, "metadata-log", AsMetadataLogList);
      var sortOrders :- Req(o, "sort-orders", AsSortOrderList);
      var defaultSortOrderId :- Req(o, "default-sort-order-id", AsI32);
      var refs :- Opt(o, "refs", AsRefMap);
      var statistics :- Opt(o, "statistics", DecodeStatistics);
      Ok(TableMetadataV2(formatVersion, tableUuid, location, lastSequenceNumber, lastUpdatedMs,
        lastColumnId, schemas, currentSchemaId, partitionSpecs, defaultSpecId, lastPartitionId,
        properties, currentSnapshotId, snapshots, snapshotLog, metadataLog, sortOrders,
        defaultSortOrderId, refs, statistics))
  }

  /** `TableMetadataV1`: the v1 field set. The table uuid, the schema list, the current schema
      id, the default spec id, the last partition id and the sort orders may be absent, and
      there is no last sequence number. */
  function DecodeTableMetadataV1(j: Json): (r: Result<TableMetadataV1>)
    ensures r.Ok? ==> j.JObject?
    ensures r.Ok? ==> "format-version" in j.members
    ensures r.Ok? ==> "location" in j.members
    ensures r.Ok? ==> "last-updated-ms" in j.members
    ensures r.Ok? ==> "last-column-id" in j.members
    ensures r.Ok? ==> "schema" in j.members
    ensures r.Ok? ==> "partition-spec" in j.members
    ensures r.Ok? ==> "partition-specs" in j.members
    ensures r.Ok? ==> "default-sort-order-id" in j.members
    ensures r.Ok? ==> j.members["format-version"] == JInt(r.value.formatVersion)
  {
    if !j.JObject? then Err(InvalidType("object"))
    else
      var o := j.members;
      var formatVersion :- Req(o, "format-version", AsI32);
      var tableUuid :- Opt(o, "table-uuid", AsString);
      var location :- Req(o, "location", AsString);
      var lastUpdatedMs :- Req(o, "last-updated-ms", AsI64);
      var lastColumnId :- Req(o, "last-column-id", AsI32);
      var schema :- Req(o, "schema", DecodeSchemaV1);
      var schemas :- Opt(o, "schemas", AsSchemaV1List);
      var currentSchemaId :- Opt(o, "current-schema-id", AsI32);
      var partitionSpec :- Req(o, "partition-spec", AsPartitionFieldList);
      var partitionSpecs :- Req(o, "partition-specs", AsPartitionSpecList);
      var defaultSpecId :- Opt(o, "default-spec-id", AsI32);
      var lastPartitionId :- Opt(o, "last-partition-id", AsI32);
      var properties :- Opt(o, "properties", AsStringMap);
      var currentSnapshotId :- Opt(o, "current-snapshot-id", AsI64);
      var snapshots :- Opt(o, "snapshots", AsSnapshotV1List);
      var snapshotLog :- Opt(o, "snapshot-log", AsSnapshotLogList);
      var metadataLog :- Opt(o, "metadata-log", AsMetadataLogList);
      var sortOrders :- Opt(o, "sort-orders", AsSortOrderList);
      var defaultSortOrderId :- Req(o, "default-sort-order-id", AsI32);
      var statistics :- Opt(o, "statistics", DecodeStatistics);
      Ok(TableMetadataV1(formatVersion, tableUuid, location, lastUpdatedMs, lastColumnId, schema,
        schemas, currentSchemaId, partitionSpec, partitionSpecs, defaultSpecId, lastPartitionId,
        properties, currentSnapshotId, snapshots, snapshotLog, metadataLog, sortOrders,
        defaultSortOrderId, statistics))
  }

  function EncodeTableMetadataV2(m: TableMetadataV2): Object
  {
    map[
      "format-version" := JInt(m.formatVersion),
      "table-uuid" := JString(m.tableUuid),
      "location" := JString(m.location),
      "last-sequence-number" := JInt(m.lastSequenceNumber),
      "last-updated-ms" := JInt(m.lastUpdatedMs),
      "last-column-id" := JInt(m.lastColumnId),
      "schemas" := EncodeArray(m.schemas, EncodeSchemaV2),
      "current-schema-id" := JInt(m.currentSchemaId),
      "partition-specs" := EncodeArray(m.partitionSpecs, EncodePartitionSpec),
      "default-spec-id" := JInt(m.defaultSpecId),
      "last-partition-id" := JInt(m.lastPartitionId),
      "properties" := EncodeOpt(m.properties, EncodeStringMap),
      "current-snapshot-id" := EncodeOpt(m.currentSnapshotId, EncodeI64),
      "snapshots" := EncodeOpt(m.snapshots, xs => EncodeArray(xs, EncodeSnapshotV2)),
      "snapshot-log" := EncodeOpt(m.snapshotLog, xs => EncodeArray(xs, EncodeSnapshotLog)),
      "metadata-log" := EncodeOpt(m.metadataLog, xs => EncodeArray(xs, EncodeMetadataLog)),
      "sort-orders" := EncodeArray(m.sortOrders, EncodeSortOrder),
      "default-sort-order-id" := JInt(m.defaultSortOrderId),
      "refs" := EncodeOpt(m.refs, rs => EncodeMap(rs, EncodeSnapshotRef)),
      "statistics" := EncodeOpt(m.statistics, EncodeStatistics)]
  }

  function EncodeTableMetadataV1(m: TableMetadataV1): Object
  {
    map[
      "format-version" := JInt(m.formatVersion),
      "table-uuid" := EncodeOpt(m.tableUuid, EncodeString),
      "location" := JString(m.location),
      "last-updated-ms" := JInt(m.lastUpdatedMs),
      "last-column-id" := JInt(m.lastColumnId),
      "schema" := EncodeSchemaV1(m.schema),
      "schemas" := EncodeOpt(m.schemas, xs => EncodeArray(xs, EncodeSchemaV1)),
      "current-schema-id" := EncodeOpt(m.currentSchemaId, EncodeI32),
      "partition-spec" := EncodeArray(m.partitionSpec, EncodePartitionField),
      "partition-specs" := EncodeArray(m.partitionSpecs, EncodePartitionSpec),
      "default-spec-id" := EncodeOpt(m.defaultSpecId, EncodeI32),
      "last-partition-id" := EncodeOpt(m.lastPartitionId, EncodeI32),
      "properties" := EncodeOpt(m.properties, EncodeStringMap),
      "current-snapshot-id" := EncodeOpt(m.currentSnapshotId, EncodeI64),
      "snapshots" := EncodeOpt(m.snapshots, xs => EncodeArray(xs, EncodeSnapshotV1)),
      "snapshot-log" := EncodeOpt(m.snapshotLog, xs => EncodeArray(xs, EncodeSnapshotLog)),
      "metadata-log" := EncodeOpt(m.metadataLog, xs => EncodeArray(xs, EncodeMetadataLog)),
      "sort-orders" := EncodeOpt(m.sortOrders, xs => EncodeArray(xs, EncodeSortOrder)),
      "default-sort-order-id" := JInt(m.defaultSortOrderId),
      "statistics" := EncodeOpt(m.statistics, EncodeStatistics)]
  }

  // ----- the version dispatch -----

  /** What a decoded document satisfies: its own format-version field names its variant, and
      every nested part is one the writers can reproduce. */
  predicate ValidTableMetadata(t: TableMetadata)
  {
    match t
    case V2(m) => m.formatVersion == 2 && NestedV2(m)
    case V1(m) => m.formatVersion == 1 && NestedV1(m)
  }

  /** Every schema and snapshot summary of a v2 body is one the writers can reproduce. */
  predicate NestedV2(m: TableMetadataV2)
  {
    (forall i :: 0 <= i < |m.schemas| ==> ValidStruct(m.schemas[i].schema)) &&
    (m.snapshots.Some? ==> forall i :: 0 <= i < |m.snapshots.value| ==> ValidSummary(m.snapshots.value[i].summary))
  }

  /** Every schema and snapshot of a v1 body is one the writers can reproduce. */
  predicate NestedV1(m: TableMetadataV1)
  {
    ValidStruct(m.schema.schema) &&
    (m.schemas.Some? ==> forall i :: 0 <= i < |m.schemas.value| ==> ValidStruct(m.schemas.value[i].schema)) &&
    (m.snapshots.Some? ==> forall i :: 0 <= i < |m.snapshots.value| ==> ValidSnapshotV1(m.snapshots.value[i]))
  }

  /** `TableMetadata::deserialize`: `format-version` must be present and a 64-bit integer;
      1 and 2 select the v1 and v2 bodies, read from the whole document, and a body that does
      not read is an error for that version with no fallback to the other; any other
      version is unsupported. */
  function DecodeTableMetadata(j: Json): (r: Result<TableMetadata>)
    ensures (!j.JObject? || "format-version" !in j.members) ==> r == Err(MissingFormatVersion)
    ensures (j.JObject? && "format-version" in j.members && AsI64(j.members["format-version"]).Err?) ==>
      r == Err(InvalidFormatVersion)
    ensures (j.JObject? && "format-version" in j.members && j.members["format-version"].JInt? &&
      IsI64(j.members["format-version"].n) && j.members["format-version"].n !in {1, 2}) ==>
      r == Err(UnsupportedVersion(j.members["format-version"].n))
    ensures r.Ok? ==> ValidTableMetadata(r.value)
    ensures r.Ok? ==> (r.value.V2? <==> j.members["format-version"] == JInt(2))
    ensures r.Ok? ==> (r.value.V1? <==> j.members["format-version"] == JInt(1))
    ensures r.Err? && j.JObject? && "format-version" in j.members && j.members["format-version"] == JInt(2) ==>
      (DecodeTableMetadataV2(j).Err? && r == Err(InvalidBody(2, DecodeTableMetadataV2(j).error)))
    ensures r.Err? && j.JObject? && "format-version" in j.members && j.members["format-version"] == JInt(1) ==>
      (DecodeTableMetadataV1(j).Err? && r == Err(InvalidBody(1, DecodeTableMetadataV1(j).error)))
  {
    if !j.JObject? || "format-version" !in j.members then Err(MissingFormatVersion)
    else
      match AsI64(j.members["format-version"])
      case Err(_) => Err(InvalidFormatVersion)
      case Ok(version) =>
        if version == 2 then
          match DecodeTableMetadataV2(j)
          case Ok(m) =>
            DecodedV2Valid(j);
            Ok(V2(m))
          case Err(e) => Err(InvalidBody(2, e))
        else if version == 1 then
          match DecodeTableMetadataV1(j)
          case Ok(m) =>
            DecodedV1Valid(j);
            Ok(V1(m))
          case Err(e) => Err(InvalidBody(1, e))
        else Err(UnsupportedVersion(version))
  }

  /** Every part of a decoded v2 body can be written back. */
  lemma DecodedV2Valid(j: Json)
    requires DecodeTableMetadataV2(j).Ok?
    ensures NestedV2(DecodeTableMetadataV2(j).value)
  {
    ReadStepsV2(j);
  }

  /** Every part of a decoded v1 body can be written back. */
  lemma DecodedV1Valid(j: Json)
    requires DecodeTableMetadataV1(j).Ok?
    ensures NestedV1(DecodeTableMetadataV1(j).value)
  {
    ReadStepsV1(j);
  }

  /** `TableMetadata::serialize`: the version stamp, then the body. The body's struct tag and
      its own `format-version` field are written after the stamp under the same key, and a
      JSON reader keeps the last of duplicate keys, so the body's field is what is read back. */
  function EncodeTableMetadata(t: TableMetadata): (r: Json)
    ensures t.V2? ==> r == JObject(EncodeTableMetadataV2(t.v2))
    ensures t.V1? ==> r == JObject(EncodeTableMetadataV1(t.v1))
    ensures t.V2? ==> "format-version" in r.members && r.members["format-version"] == JInt(t.v2.formatVersion)
    ensures t.V1? ==> "format-version" in r.members && r.members["format-version"] == JInt(t.v1.formatVersion)
  {
    match t
    case V2(m) =>
      StampOverridden(JInt(2), JString("TableMetadataV2"), EncodeTableMetadataV2(m));
      JObject(map["format-version" := JInt(2)] + map["format-version" := JString("TableMetadataV2")] +
        EncodeTableMetadataV2(m))
    case V1(m) =>
      StampOverridden(JInt(1), JString("TableMetadataV1"), EncodeTableMetadataV1(m));
      JObject(map["format-version" := JInt(1)] + map["format-version" := JString("TableMetadataV1")] +
        EncodeTableMetadataV1(m))
  }

  // ----- round trips -----

  lemma SnapshotLogRoundTrip(e: SnapshotLog)
    ensures DecodeSnapshotLog(EncodeSnapshotLog(e)) == Ok(e)
  {
  }

  lemma MetadataLogRoundTrip(e: MetadataLog)
    ensures DecodeMetadataLog(EncodeMetadataLog(e)) == Ok(e)
  {
  }

  lemma SchemaV2ListRoundTrip(xs: seq<SchemaV2>)
    requires forall i :: 0 <= i < |xs| ==> ValidStruct(xs[i].schema)
    ensures AsSchemaV2List(EncodeArray(xs, EncodeSchemaV2)) == Ok(xs)
  {
    forall i | 0 <= i < |xs| ensures DecodeSchemaV2(EncodeSchemaV2(xs[i])) == Ok(xs[i]) {
      SchemaV2RoundTrip(xs[i]);
    }
    ArrayRoundTrip(xs, EncodeSchemaV2, DecodeSchemaV2);
  }

  lemma SchemaV1ListRoundTrip(xs: seq<SchemaV1>)
    requires forall i :: 0 <= i < |xs| ==> ValidStruct(xs[i].schema)
    ensures AsSchemaV1List(EncodeArray(xs, EncodeSchemaV1)) == Ok(xs)
  {
    forall i | 0 <= i < |xs| ensures DecodeSchemaV1(EncodeSchemaV1(xs[i])) == Ok(xs[i]) {
      SchemaV1RoundTrip(xs[i]);
    }
    ArrayRoundTrip(xs, EncodeSchemaV1, DecodeSchemaV1);
  }

  lemma PartitionSpecListRoundTrip(xs: seq<PartitionSpec>)
    ensures AsPartitionSpecList(EncodeArray(xs, EncodePartitionSpec)) == Ok(xs)
  {
    forall i | 0 <= i < |xs| ensures DecodePartitionSpec(EncodePartitionSpec(xs[i])) == Ok(xs[i]) {
      PartitionSpecRoundTrip(xs[i]);
    }
    ArrayRoundTrip(xs, EncodePartitionSpec, DecodePartitionSpec);
  }

  lemma PartitionFieldListRoundTrip(xs: seq<PartitionField>)
    ensures AsPartitionFieldList(EncodeArray(xs, EncodePartitionField)) == Ok(xs)
  {
    forall i | 0 <= i < |xs| ensures DecodePartitionField(EncodePartitionField(xs[i])) == Ok(xs[i]) {
      PartitionFieldRoundTrip(xs[i]);
    }
    ArrayRoundTrip(xs, EncodePartitionField, DecodePartitionField);
  }

  lemma SnapshotV2ListRoundTrip(xs: seq<SnapshotV2>)
    requires forall i :: 0 <= i < |xs| ==> ValidSummary(xs[i].summary)
    ensures AsSnapshotV2List(EncodeArray(xs, EncodeSnapshotV2)) == Ok(xs)
  {
    forall i | 0 <= i < |xs| ensures DecodeSnapshotV2(EncodeSnapshotV2(xs[i])) == Ok(xs[i]) {
      SnapshotV2RoundTrip(xs[i]);
    }
    ArrayRoundTrip(xs, EncodeSnapshotV2, DecodeSnapshotV2);
  }

  lemma SnapshotV1ListRoundTrip(xs: seq<SnapshotV1>)
    requires forall i :: 0 <= i < |xs| ==> ValidSnapshotV1(xs[i])
    ensures AsSnapshotV1List(EncodeArray(xs, EncodeSnapshotV1)) == Ok(xs)
  {
    forall i | 0 <= i < |xs| ensures DecodeSnapshotV1(EncodeSnapshotV1(xs[i])) == Ok(xs[i]) {
      SnapshotV1RoundTrip(xs[i]);
    }
    ArrayRoundTrip(xs, EncodeSnapshotV1, DecodeSnapshotV1);
  }

  lemma SnapshotLogListRoundTrip(xs: seq<SnapshotLog>)
    ensures AsSnapshotLogList(EncodeArray(xs, EncodeSnapshotLog)) == Ok(xs)
  {
    forall i | 0 <= i < |xs| ensures DecodeSnapshotLog(EncodeSnapshotLog(xs[i])) == Ok(xs[i]) {
      SnapshotLogRoundTrip(xs[i]);
    }
    ArrayRoundTrip(xs, EncodeSnapshotLog, DecodeSnapshotLog);
  }

  lemma MetadataLogListRoundTrip(xs: seq<MetadataLog>)
    ensures AsMetadataLogList(EncodeArray(xs, EncodeMetadataLog)) == Ok(xs)
  {
    forall i | 0 <= i < |xs| ensures DecodeMetadataLog(EncodeMetadataLog(xs[i])) == Ok(xs[i]) {
      MetadataLogRoundTrip(xs[i]);
    }
    ArrayRoundTrip(xs, EncodeMetadataLog, DecodeMetadataLog);
  }

  lemma StringMapRoundTrip(m: map<string, string>)
    ensures AsStringMap(EncodeStringMap(m)) == Ok(m)
  {
    forall k | k in m ensures AsString(EncodeString(m[k])) == Ok(m[k]) {
    }
    MapRoundTrip(m, EncodeString, AsString);
  }

  lemma StatisticsRoundTrip(s: Statistics)
    ensures EncodeStatistics(s) != JNull && DecodeStatistics(EncodeStatistics(s)) == Ok(s)
  {
    assert s == Statistics;
  }

  lemma SortOrderListRoundTrip(xs: seq<SortOrder>)
    ensures AsSortOrderList(EncodeArray(xs, EncodeSortOrder)) == Ok(xs)
  {
    forall i | 0 <= i < |xs| ensures DecodeSortOrder(EncodeSortOrder(xs[i])) == Ok(xs[i]) {
      SortOrderRoundTrip(xs[i]);
    }
    ArrayRoundTrip(xs, EncodeSortOrder, DecodeSortOrder);
  }

  lemma RefMapRoundTrip(rs: map<string, SnapshotRef>)
    ensures AsRefMap(EncodeMap(rs, EncodeSnapshotRef)) == Ok(rs)
  {
    forall k | k in rs ensures DecodeSnapshotRef(EncodeSnapshotRef(rs[k])) == Ok(rs[k]) {
      SnapshotRefRoundTrip(rs[k]);
    }
    MapRoundTrip(rs, EncodeSnapshotRef, DecodeSnapshotRef);
  }

  /** The body reads, member by member, as `m`. */
  predicate StepsV2(o: Object, m: TableMetadataV2)
  {
    StepsV2Ids(o, m) && StepsV2Specs(o, m) && StepsV2Rest(o, m)
  }

  predicate StepsV2Ids(o: Object, m: TableMetadataV2)
  {
    Req(o, "format-version", AsI32) == Ok(m.formatVersion) &&
    Req(o, "table-uuid", AsString) == Ok(m.tableUuid) &&
    Req(o, "location", AsString) == Ok(m.location) &&
    Req(o, "last-sequence-number", AsI64) == Ok(m.lastSequenceNumber) &&
    Req(o, "last-updated-ms", AsI64) == Ok(m.lastUpdatedMs) &&
    Req(o, "last-column-id", AsI32) == Ok(m.lastColumnId)
  }

  predicate StepsV2Specs(o: Object, m: TableMetadataV2)
  {
    Req(o, "schemas", AsSchemaV2List) == Ok(m.schemas) &&
    Req(o, "current-schema-id", AsI32) == Ok(m.currentSchemaId) &&
    Req(o, "partition-specs", AsPartitionSpecList) == Ok(m.partitionSpecs) &&
    Req(o, "default-spec-id", AsI32) == Ok(m.defaultSpecId) &&
    Req(o, "last-partition-id", AsI32) == Ok(m.lastPartitionId)
  }

  predicate StepsV2Rest(o: Object, m: TableMetadataV2)
  {
    Opt(o, "properties", AsStringMap) == Ok(m.properties) &&
    Opt(o, "current-snapshot-id", AsI64) == Ok(m.currentSnapshotId) &&
    Opt(o, "snapshots", AsSnapshotV2List) == Ok(m.snapshots) &&
    Opt(o, "snapshot-log", AsSnapshotLogList) == Ok(m.snapshotLog) &&
    Opt(o, "metadata-log", AsMetadataLogList) == Ok(m.metadataLog) &&
    Req(o, "sort-orders", AsSortOrderList) == Ok(m.sortOrders) &&
    Req(o, "default-sort-order-id", AsI32) == Ok(m.defaultSortOrderId) &&
    Opt(o, "refs", AsRefMap) == Ok(m.refs) &&
    Opt(o, "statistics", DecodeStatistics) == Ok(m.statistics)
  }

  /** Any object whose members read one by one as `m` reads as `m`, whatever other keys it holds. */
  lemma ChainV2(o: Object, m: TableMetadataV2)
    requires StepsV2(o, m)
    ensures DecodeTableMetadataV2(JObject(o)) == Ok(m)
  {
  }

  /** A document that reads as a v2 body reads, member by member, as that body. */
  lemma ReadStepsV2(j: Json)
    requires DecodeTableMetadataV2(j).Ok?
    ensures j.JObject? && StepsV2(j.members, DecodeTableMetadataV2(j).value)
  {
  }

  lemma WrittenV2Part1(m: TableMetadataV2)
    ensures Req(EncodeTableMetadataV2(m), "format-version", AsI32) == Ok(m.formatVersion)
    ensures Req(EncodeTableMetadataV2(m), "table-uuid", AsString) == Ok(m.tableUuid)
  {
    var o := EncodeTableMetadataV2(m);
    assert o["format-version"] == JInt(m.formatVersion);
    assert o["table-uuid"] == JString(m.tableUuid);
  }

  lemma WrittenV2Part2(m: TableMetadataV2)
    ensures Req(EncodeTableMetadataV2(m), "location", AsString) == Ok(m.location)
    ensures Req(EncodeTableMetadataV2(m), "last-sequence-number", AsI64) == Ok(m.lastSequenceNumber)
  {
    var o := EncodeTableMetadataV2(m);
    assert o["location"] == JString(m.location);
    assert o["last-sequence-number"] == JInt(m.lastSequenceNumber);
  }

  lemma WrittenV2Part3(m: TableMetadataV2)
    ensures Req(EncodeTableMetadataV2(m), "last-updated-ms", AsI64) == Ok(m.lastUpdatedMs)
    ensures Req(EncodeTableMetadataV2(m), "last-column-id", AsI32) == Ok(m.lastColumnId)
  {
    var o := EncodeTableMetadataV2(m);
    assert o["last-updated-ms"] == JInt(m.lastUpdatedMs);
    assert o["last-column-id"] == JInt(m.lastColumnId);
  }

  lemma WrittenV2Part4(m: TableMetadataV2)
    requires NestedV2(m)
    ensures Req(EncodeTableMetadataV2(m), "schemas", AsSchemaV2List) == Ok(m.schemas)
    ensures Req(EncodeTableMetadataV2(m), "current-schema-id", AsI32) == Ok(m.currentSchemaId)
  {
    var o := EncodeTableMetadataV2(m);
    assert o["schemas"] == EncodeArray(m.schemas, EncodeSchemaV2);
    assert o["current-schema-id"] == JInt(m.currentSchemaId);
    SchemaV2ListRoundTrip(m.schemas);
  }

  lemma WrittenV2Part5(m: TableMetadataV2)
    ensures Req(EncodeTableMetadataV2(m), "partition-specs", AsPartitionSpecList) == Ok(m.partitionSpecs)
    ensures Req(EncodeTableMetadataV2(m), "default-spec-id", AsI32) == Ok(m.defaultSpecId)
  {
    var o := EncodeTableMetadataV2(m);
    assert o["default-spec-id"] == JInt(m.defaultSpecId);
    assert o["partition-specs"] == EncodeArray(m.partitionSpecs, EncodePartitionSpec);
    PartitionSpecListRoundTrip(m.partitionSpecs);
  }

  lemma WrittenV2Part6(m: TableMetadataV2)
    ensures Req(EncodeTableMetadataV2(m), "last-partition-id", AsI32) == Ok(m.lastPartitionId)
    ensures Opt(EncodeTableMetadataV2(m), "properties", AsStringMap) == Ok(m.properties)
  {
    var o := EncodeTableMetadataV2(m);
    assert o["last-partition-id"] == JInt(m.lastPartitionId);
    assert o["properties"] == EncodeOpt(m.properties, EncodeStringMap);
    if m.properties.Some? { StringMapRoundTrip(m.properties.value); }
    OptRoundTrip(o, "properties", m.properties, EncodeStringMap, AsStringMap);
  }

  lemma WrittenV2Part7(m: TableMetadataV2)
    requires NestedV2(m)
    ensures Opt(EncodeTableMetadataV2(m), "current-snapshot-id", AsI64) == Ok(m.currentSnapshotId)
    ensures Opt(EncodeTableMetadataV2(m), "snapshots", AsSnapshotV2List) == Ok(m.snapshots)
  {
    var o := EncodeTableMetadataV2(m);
    assert o["current-snapshot-id"] == EncodeOpt(m.currentSnapshotId, EncodeI64);
    assert o["snapshots"] == EncodeOpt(m.snapshots, xs => EncodeArray(xs, EncodeSnapshotV2));
    OptRoundTrip(o, "current-snapshot-id", m.currentSnapshotId, EncodeI64, AsI64);
    if m.snapshots.Some? { SnapshotV2ListRoundTrip(m.snapshots.value); }
    OptRoundTrip(o, "snapshots", m.snapshots, xs => EncodeArray(xs, EncodeSnapshotV2), AsSnapshotV2List);
  }

  lemma WrittenV2Part8(m: TableMetadataV2)
    ensures Opt(EncodeTableMetadataV2(m), "snapshot-log", AsSnapshotLogList) == Ok(m.snapshotLog)
    ensures Opt(EncodeTableMetadataV2(m), "metadata-log", AsMetadataLogList) == Ok(m.metadataLog)
  {
    var o := EncodeTableMetadataV2(m);
    assert o["snapshot-log"] == EncodeOpt(m.snapshotLog, xs => EncodeArray(xs, EncodeSnapshotLog));
    assert o["metadata-log"] == EncodeOpt(m.metadataLog, xs => EncodeArray(xs, EncodeMetadataLog));
    if m.snapshotLog.Some? { SnapshotLogListRoundTrip(m.snapshotLog.value); }
    OptRoundTrip(o, "snapshot-log", m.snapshotLog, xs => EncodeArray(xs, EncodeSnapshotLog), AsSnapshotLogList);
    if m.metadataLog.Some? { MetadataLogListRoundTrip(m.metadataLog.value); }
    OptRoundTrip(o, "metadata-log", m.metadataLog, xs => EncodeArray(xs, EncodeMetadataLog), AsMetadataLogList);
  }

  lemma WrittenV2Part9(m: TableMetadataV2)
    ensures Req(EncodeTableMetadataV2(m), "sort-orders", AsSortOrderList) == Ok(m.sortOrders)
    ensures Req(EncodeTableMetadataV2(m), "default-sort-order-id", AsI32) == Ok(m.defaultSortOrderId)
  {
    var o := EncodeTableMetadataV2(m);
    assert o["sort-orders"] == EncodeArray(m.sortOrders, EncodeSortOrder);
    assert o["default-sort-order-id"] == JInt(m.defaultSortOrderId);
    SortOrderListRoundTrip(m.sortOrders);
  }

  lemma WrittenV2Part10(m: TableMetadataV2)
    ensures Opt(EncodeTableMetadataV2(m), "refs", AsRefMap) == Ok(m.refs)
    ensures Opt(EncodeTableMetadataV2(m), "statistics", DecodeStatistics) == Ok(m.statistics)
  {
    var o := EncodeTableMetadataV2(m);
    assert o["refs"] == EncodeOpt(m.refs, rs => EncodeMap(rs, EncodeSnapshotRef));
    assert o["statistics"] == EncodeOpt(m.statistics, EncodeStatistics);
    if m.refs.Some? { RefMapRoundTrip(m.refs.value); }
    OptRoundTrip(o, "refs", m.refs, rs => EncodeMap(rs, EncodeSnapshotRef), AsRefMap);
    if m.statistics.Some? { StatisticsRoundTrip(m.statistics.value); }
    OptRoundTrip(o, "statistics", m.statistics, EncodeStatistics, DecodeStatistics);
  }

  /** A written v2 body reads, member by member, as the body it was written from. */
  lemma WrittenStepsV2(m: TableMetadataV2)
    requires NestedV2(m)
    ensures StepsV2(EncodeTableMetadataV2(m), m)
  {
    WrittenV2Part1(m);
    WrittenV2Part2(m);
    WrittenV2Part3(m);
    WrittenV2Part4(m);
    WrittenV2Part5(m);
    WrittenV2Part6(m);
    WrittenV2Part7(m);
    WrittenV2Part8(m);
    WrittenV2Part9(m);
    WrittenV2Part10(m);
  }

  /** The body reads, member by member, as `m`. */
  predicate StepsV1(o: Object, m: TableMetadataV1)
  {
    StepsV1Ids(o, m) && StepsV1Specs(o, m) && StepsV1Rest(o, m)
  }

  predicate StepsV1Ids(o: Object, m: TableMetadataV1)
  {
    Req(o, "format-version", AsI32) == Ok(m.formatVersion) &&
    Opt(o, "table-uuid", AsString) == Ok(m.tableUuid) &&
    Req(o, "location", AsString) == Ok(m.location) &&
    Req(o, "last-updated-ms", AsI64) == Ok(m.lastUpdatedMs) &&
    Req(o, "last-column-id", AsI32) == Ok(m.lastColumnId)
  }

  predicate StepsV1Specs(o: Object, m: TableMetadataV1)
  {
    Req(o, "schema", DecodeSchemaV1) == Ok(m.schema) &&
    Opt(o, "schemas", AsSchemaV1List) == Ok(m.schemas) &&
    Opt(o, "current-schema-id", AsI32) == Ok(m.currentSchemaId) &&
    Req(o, "partition-spec", AsPartitionFieldList) == Ok(m.partitionSpec) &&
    Req(o, "partition-specs", AsPartitionSpecList) == Ok(m.partitionSpecs) &&
    Opt(o, "default-spec-id", AsI32) == Ok(m.defaultSpecId) &&
    Opt(o, "last-partition-id", AsI32) == Ok(m.lastPartitionId)
  }

  predicate StepsV1Rest(o: Object, m: TableMetadataV1)
  {
    Opt(o, "properties", AsStringMap) == Ok(m.properties) &&
    Opt(o, "current-snapshot-id", AsI64) == Ok(m.currentSnapshotId) &&
    Opt(o, "snapshots", AsSnapshotV1List) == Ok(m.snapshots) &&
    Opt(o, "snapshot-log", AsSnapshotLogList) == Ok(m.snapshotLog) &&
    Opt(o, "metadata-log", AsMetadataLogList) == Ok(m.metadataLog) &&
    Opt(o, "sort-orders", AsSortOrderList) == Ok(m.sortOrders) &&
    Req(o, "default-sort-order-id", AsI32) == Ok(m.defaultSortOrderId) &&
    Opt(o, "statistics", DecodeStatistics) == Ok(m.statistics)
  }

  /** Any object whose members read one by one as `m` reads as `m`, whatever other keys it holds. */
  lemma ChainV1(o: Object, m: TableMetadataV1)
    requires StepsV1(o, m)
    ensures DecodeTableMetadataV1(JObject(o)) == Ok(m)
  {
  }

  /** A document that reads as a v1 body reads, member by member, as that body. */
  lemma ReadStepsV1(j: Json)
    requires DecodeTableMetadataV1(j).Ok?
    ensures j.JObject? && StepsV1(j.members, DecodeTableMetadataV1(j).value)
  {
  }

  lemma WrittenV1Part1(m: TableMetadataV1)
    ensures Req(EncodeTableMetadataV1(m), "format-version", AsI32) == Ok(m.formatVersion)
    ensures Opt(EncodeTableMetadataV1(m), "table-uuid", AsString) == Ok(m.tableUuid)
  {
    var o := EncodeTableMetadataV1(m);
    assert o["format-version"] == JInt(m.formatVersion);
    assert o["table-uuid"] == EncodeOpt(m.tableUuid, EncodeString);
    OptStringRoundTrip(o, "table-uuid", m.tableUuid);
  }

  lemma WrittenV1Part2(m: TableMetadataV1)
    ensures Req(EncodeTableMetadataV1(m), "location", AsString) == Ok(m.location)
    ensures Req(EncodeTableMetadataV1(m), "last-updated-ms", AsI64) == Ok(m.lastUpdatedMs)
  {
    var o := EncodeTableMetadataV1(m);
    assert o["location"] == JString(m.location);
    assert o["last-updated-ms"] == JInt(m.lastUpdatedMs);
  }

  lemma WrittenV1Part3(m: TableMetadataV1)
    requires NestedV1(m)
    ensures Req(EncodeTableMetadataV1(m), "last-column-id", AsI32) == Ok(m.lastColumnId)
    ensures Req(EncodeTableMetadataV1(m), "schema", DecodeSchemaV1) == Ok(m.schema)
  {
    var o := EncodeTableMetadataV1(m);
    assert o["last-column-id"] == JInt(m.lastColumnId);
    assert o["schema"] == EncodeSchemaV1(m.schema);
    SchemaV1RoundTrip(m.schema);
  }

  lemma WrittenV1Part4(m: TableMetadataV1)
    requires NestedV1(m)
    ensures Opt(EncodeTableMetadataV1(m), "schemas", AsSchemaV1List) == Ok(m.schemas)
    ensures Opt(EncodeTableMetadataV1(m), "current-schema-id", AsI32) == Ok(m.currentSchemaId)
  {
    var o := EncodeTableMetadataV1(m);
    assert o["schemas"] == EncodeOpt(m.schemas, xs => EncodeArray(xs, EncodeSchemaV1));
    assert o["current-schema-id"] == EncodeOpt(m.currentSchemaId, EncodeI32);
    if m.schemas.Some? { SchemaV1ListRoundTrip(m.schemas.value); }
    OptRoundTrip(o, "schemas", m.schemas, xs => EncodeArray(xs, EncodeSchemaV1), AsSchemaV1List);
    OptRoundTrip(o, "current-schema-id", m.currentSchemaId, EncodeI32, AsI32);
  }

  lemma WrittenV1Part5(m: TableMetadataV1)
    ensures Req(EncodeTableMetadataV1(m), "partition-spec", AsPartitionFieldList) == Ok(m.partitionSpec)
    ensures Req(EncodeTableMetadataV1(m), "partition-specs", AsPartitionSpecList) == Ok(m.partitionSpecs)
  {
    var o := EncodeTableMetadataV1(m);
    assert o["partition-spec"] == EncodeArray(m.partitionSpec, EncodePartitionField);
    assert o["partition-specs"] == EncodeArray(m.partitionSpecs, EncodePartitionSpec);
    PartitionFieldListRoundTrip(m.partitionSpec);
    PartitionSpecListRoundTrip(m.partitionSpecs);
  }

  lemma WrittenV1Part6(m: TableMetadataV1)
    ensures Opt(EncodeTableMetadataV1(m), "default-spec-id", AsI32) == Ok(m.defaultSpecId)
    ensures Opt(EncodeTableMetadataV1(m), "last-partition-id", AsI32) == Ok(m.lastPartitionId)
  {
    var o := EncodeTableMetadataV1(m);
    assert o["default-spec-id"] == EncodeOpt(m.defaultSpecId, EncodeI32);
    assert o["last-partition-id"] == EncodeOpt(m.lastPartitionId, EncodeI32);
    OptRoundTrip(o, "default-spec-id", m.defaultSpecId, EncodeI32, AsI32);
    OptRoundTrip(o, "last-partition-id", m.lastPartitionId, EncodeI32, AsI32);
  }

  lemma WrittenV1Part7(m: TableMetadataV1)
    ensures Opt(EncodeTableMetadataV1(m), "properties", AsStringMap) == Ok(m.properties)
    ensures Opt(EncodeTableMetadataV1(m), "current-snapshot-id", AsI64) == Ok(m.currentSnapshotId)
  {
    var o := EncodeTableMetadataV1(m);
    assert o["properties"] == EncodeOpt(m.properties, EncodeStringMap);
    assert o["current-snapshot-id"] == EncodeOpt(m.currentSnapshotId, EncodeI64);
    if m.properties.Some? { StringMapRoundTrip(m.properties.value); }
    OptRoundTrip(o, "properties", m.properties, EncodeStringMap, AsStringMap);
    OptRoundTrip(o, "current-snapshot-id", m.currentSnapshotId, EncodeI64, AsI64);
  }

  lemma WrittenV1Part8(m: TableMetadataV1)
    requires NestedV1(m)
    ensures Opt(EncodeTableMetadataV1(m), "snapshots", AsSnapshotV1List) == Ok(m.snapshots)
    ensures Opt(EncodeTableMetadataV1(m), "snapshot-log", AsSnapshotLogList) == Ok(m.snapshotLog)
  {
    var o := EncodeTableMetadataV1(m);
    assert o["snapshots"] == EncodeOpt(m.snapshots, xs => EncodeArray(xs, EncodeSnapshotV1));
    assert o["snapshot-log"] == EncodeOpt(m.snapshotLog, xs => EncodeArray(xs, EncodeSnapshotLog));
    if m.snapshots.Some? { SnapshotV1ListRoundTrip(m.snapshots.value); }
    OptRoundTrip(o, "snapshots", m.snapshots, xs => EncodeArray(xs, EncodeSnapshotV1), AsSnapshotV1List);
    if m.snapshotLog.Some? { SnapshotLogListRoundTrip(m.snapshotLog.value); }
    OptRoundTrip(o, "snapshot-log", m.snapshotLog, xs => EncodeArray(xs, EncodeSnapshotLog), AsSnapshotLogList);
  }

  lemma WrittenV1Part9(m: TableMetadataV1)
    ensures Opt(EncodeTableMetadataV1(m), "metadata-log", AsMetadataLogList) == Ok(m.metadataLog)
    ensures Opt(EncodeTableMetadataV1(m), "sort-orders", AsSortOrderList) == Ok(m.sortOrders)
  {
    var o := EncodeTableMetadataV1(m);
    assert o["metadata-log"] == EncodeOpt(m.metadataLog, xs => EncodeArray(xs, EncodeMetadataLog));
    assert o["sort-orders"] == EncodeOpt(m.sortOrders, xs => EncodeArray(xs, EncodeSortOrder));
    if m.metadataLog.Some? { MetadataLogListRoundTrip(m.metadataLog.value); }
    OptRoundTrip(o, "metadata-log", m.metadataLog, xs => EncodeArray(xs, EncodeMetadataLog), AsMetadataLogList);
    if m.sortOrders.Some? { SortOrderListRoundTrip(m.sortOrders.value); }
    OptRoundTrip(o, "sort-orders", m.sortOrders, xs => EncodeArray(xs, EncodeSortOrder), AsSortOrderList);
  }

  lemma WrittenV1Part10(m: TableMetadataV1)
    ensures Req(EncodeTableMetadataV1(m), "default-sort-order-id", AsI32) == Ok(m.defaultSortOrderId)
    ensures Opt(EncodeTableMetadataV1(m), "statistics", DecodeStatistics) == Ok(m.statistics)
  {
    var o := EncodeTableMetadataV1(m);
    assert o["default-sort-order-id"] == JInt(m.defaultSortOrderId);
    assert o["statistics"] == EncodeOpt(m.statistics, EncodeStatistics);
    if m.statistics.Some? { StatisticsRoundTrip(m.statistics.value); }
    OptRoundTrip(o, "statistics", m.statistics, EncodeStatistics, DecodeStatistics);
  }

  /** A written v1 body reads, member by member, as the body it was written from. */
  lemma WrittenStepsV1(m: TableMetadataV1)
    requires NestedV1(m)
    ensures StepsV1(EncodeTableMetadataV1(m), m)
  {
    WrittenV1Part1(m);
    WrittenV1Part2(m);
    WrittenV1Part3(m);
    WrittenV1Part4(m);
    WrittenV1Part5(m);
    WrittenV1Part6(m);
    WrittenV1Part7(m);
    WrittenV1Part8(m);
    WrittenV1Part9(m);
    WrittenV1Part10(m);
  }

  /** Two earlier writes of a key are overridden by a body that writes it again. */
  lemma StampOverridden(stamp: Json, tag: Json, body: Object)
    requires "format-version" in body
    ensures map["format-version" := stamp] + map["format-version" := tag] + body == body
  {
  }

  /** A document whose members read as a v2 body of version 2 reads as that body. */
  lemma DispatchV2(o: Object, m: TableMetadataV2)
    requires StepsV2(o, m) && m.formatVersion == 2
    ensures DecodeTableMetadata(JObject(o)) == Ok(V2(m))
  {
    ChainV2(o, m);
  }

  /** A document whose members read as a v1 body of version 1 reads as that body. */
  lemma DispatchV1(o: Object, m: TableMetadataV1)
    requires StepsV1(o, m) && m.formatVersion == 1
    ensures DecodeTableMetadata(JObject(o)) == Ok(V1(m))
  {
    ChainV1(o, m);
  }

  /** Writing valid table metadata and reading it back gives the same metadata. */
  lemma TableMetadataRoundTrip(t: TableMetadata)
    requires ValidTableMetadata(t)
    ensures DecodeTableMetadata(EncodeTableMetadata(t)) == Ok(t)
  {
    if t.V2? {
      WrittenStepsV2(t.v2);
      DispatchV2(EncodeTableMetadataV2(t.v2), t.v2);
    } else {
      WrittenStepsV1(t.v1);
      DispatchV1(EncodeTableMetadataV1(t.v1), t.v1);
    }
  }

  /** Whatever reads, writes back to a document that reads the same. */
  lemma ParseSerializeParse(j: Json)
    requires DecodeTableMetadata(j).Ok?
    ensures DecodeTableMetadata(EncodeTableMetadata(DecodeTableMetadata(j).value)) == DecodeTableMetadata(j)
  {
    TableMetadataRoundTrip(DecodeTableMetadata(j).value);
  }

  /** A version-3 document is unsupported, a version written as text or as the float `2.0` is
      invalid, and a document without a version has none. */
  lemma VersionExamples(o: Object)
    ensures DecodeTableMetadata(JObject(o["format-version" := JInt(3)])) == Err(UnsupportedVersion(3))
    ensures DecodeTableMetadata(JObject(o["format-version" := JString("2")])) == Err(InvalidFormatVersion)
    ensures DecodeTableMetadata(JObject(o["format-version" := JFloat(2.0)])) == Err(InvalidFormatVersion)
    ensures DecodeTableMetadata(JObject(o - {"format-version"})) == Err(MissingFormatVersion)
  {
  }
}
