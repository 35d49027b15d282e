# Iceberg metadata codecs

This project models the metadata codecs of `rustberg`, a small Rust reader for Apache Iceberg
tables. The codecs are the serde `Deserialize`/`Serialize` implementations that turn the JSON
table-metadata document and the Avro manifest-list records into Rust values, and back. They
are all pure, so the model is datatypes, functions and lemmas.

- `wrappers.dfy` (`Wrappers`): `Option`, `Result` and the kinds of decode failure.
- `json_value.dfy` (`JsonValue`): the JSON value as `serde_json::Value` holds it after parsing.
  An object is a `map`, so it keeps one value per key. A number with a fraction or an exponent
  (`2.0`) is a separate case, `JFloat`, because serde_json holds it as an `f64`; no integer,
  string or boolean reader accepts it. The module also holds the integer widths of the
  Rust fields (`i32`, `i64`, `u8`, `u32`) and serde's derive rules for a record field:
  - a required field must be present;
  - an `Option` field is `None` when absent or null;
  - `None` is written as null;
  - unknown keys are ignored.
- `number_text.dfy` (`NumberText`): the decimal-digit pieces of the type and transform grammars:
  - `\d+` and `\s*` (Unicode White_Space);
  - `str::parse::<u32>`;
  - `Display` for unsigned integers;
  - the bracketed form `name[N]`.
- `schema.rs` is modelled in `schema.dfy` (`SchemaCodec`):
  - the primitive type names, with `fixed[N]` and `decimal(P, S)` parsed by grammar functions
    written out directly rather than through a regex engine;
  - the untagged recursive `IcebergType` (struct, list, map);
  - `IcebergSchemaV2` and `IcebergSchemaV1`.
- `partition_spec.rs` is modelled in `partition_spec.dfy` (`PartitionSpecCodec`): the transform
  names with `bucket[N]` and `truncate[N]`, and the partition field and spec records.
- `sort_orders.rs` is modelled in `sort_orders.dfy` (`SortOrderCodec`): the direction and
  null-order names, and the sort field and sort order records.
- `snapshot.rs` is modelled in `snapshot.dfy` (`SnapshotCodec`):
  - the v2 and v1 snapshots, including the v1 check that a snapshot does not name both a
    manifest list and manifest files;
  - the summary with its operation and its flattened other keys;
  - branch and tag references.
- `table_metadata.rs` is modelled in `table_metadata.dfy` (`TableMetadataCodec`):
  - the v2 and v1 field sets;
  - the version dispatch on `format-version`;
  - the serializer that stamps the version.
- `manifest_list.rs` is modelled in `manifest_list.dfy` (`ManifestListCodec`):
  - the mapping from a decoded Avro record (field name to value) to `ManifestListV2` and
    `ManifestListV1`;
  - the v2 defaults for fields that a v1 writer leaves out;
  - the Spark aliases of the file counts;
  - `FileType` as its integer discriminant;
  - `FieldSummaryV2`.

Every codec has a round-trip lemma: decoding what the encoder writes gives back the value.
Where the encoder can write something that does not read back as itself, the lemma's
precondition names the condition and a separate lemma states what happens instead:
- a decimal precision above 38 is refused (`WidePrecisionRejected`);
- a v1 snapshot with both a manifest list and manifest files is refused
  (`BothManifestsRejected`);
- a summary whose other keys include `operation` reads back with that entry as its operation,
  or is refused when the entry is not an operation name (`SummaryOperationOverridden`). The
  derived writer puts the struct's `operation` first and the flattened map after it, and the
  later key wins.

The error cases are stated once, where they arise:
- the field readers `Req`, `Opt`, `AsBool`, `AsI32`, `AsI64` and `AsString` for JSON, and
  `Required`, `Defaulted`, `Aliased` and the `Read*` readers for Avro, state missing keys, wrong
  kinds and out-of-range integers;
- the name codecs state unknown names;
- `DecodeTableMetadata` states the format-version errors.

Where a record's members are tied to the value read, and by what:
- the decoder's own contract ties every member it reads: a required member was present and
  holds the value read, and an optional one reads through `Opt` (or `Defaulted`) as the value
  read. This holds for `DecodeField` (with its type tied by the lemma `FieldTypeRead`),
  `DecodeList`, `DecodeMap`, `DecodeSchemaV2` and `DecodeSchemaV1` (with the struct tied by
  `SchemaStructRead`), `DecodePartitionField`, `DecodePartitionSpec`, `DecodeSortField`,
  `DecodeSortOrder`, `DecodeSnapshotV2`, `DecodeSnapshotV1Fields`, `DecodeRefType`,
  `DecodeSnapshotRef`, `DecodeSnapshotLog`, `DecodeMetadataLog`, `ReadFieldSummary` and the two
  manifest-list readers;
- the two table-metadata bodies tie only `format-version` in their contracts; their other
  members are tied by `ReadStepsV2` and `ReadStepsV1`.

The contracts state the direction "read, so each member read". The converse, that members
which each read make a record that reads, is stated by the `Chain` lemmas and the round trips,
not by the decoders' contracts.

The table-metadata and manifest-list proofs share one shape:
- a `Steps` predicate lists what each member reads as;
- `Chain` shows that members which read one by one as `m` make a document that reads as `m`,
  whatever other keys it holds;
- the converse is `ReadSteps` for table metadata and the contract of the reader itself
  (`ReadManifestListV2`, `ReadManifestListV1`) for manifest lists;
- the written-part lemmas show that the encoder's output satisfies `Steps`.

Three behaviours of the source shape the model:

- **The version stamp of a written table.** `TableMetadata::serialize` writes
  `format-version: 2` (or 1), then the derived serializer of the body writes its struct tag and
  its own `format_version` field under the same key. `serde_json` keeps the last of duplicate
  keys, so the value read back is the body's own `format_version`. The model writes the three in
  that order into one map, and the contract of `EncodeTableMetadata` states that the result is
  the body alone. Every decoded document has a body version equal to its variant, because the
  dispatch reads that same key. So the round trip `TableMetadataRoundTrip` is stated for such
  metadata (`ValidTableMetadata`), and parse, serialize, parse is unconditional
  (`ParseSerializeParse`).
- **A v2 reader does not read every v1 entry.** `manifest_list.rs:10` says that a v2 reader
  should read v1 entries. It does when no count is null (`ReadV1AsV2`). But a v1 record may
  hold a count that is null, and the v2 fields for the counts are plain integers with a
  default. Such a record is refused by the v2 reader (`NullCountRejectedV2`), while the v1
  reader reads it with that count as None (`NullRowCountReadsV1`, `NullRowCountRefusedV2`).
- **Struct tags are written but not checked.** The `"type": "struct"` / `"list"` / `"map"` tags
  and the table-metadata tag are written but not read back. The untagged `IcebergType` tries its
  shapes in declaration order: primitive, struct, list, map. The first shape that reads wins.

The Apache Iceberg table specification also describes snapshot selection, partition pruning and
scan planning. The code has none of these; the model follows the code and leaves them out.

## Model

| member | source | states |
|---|---|---|
| NumberText.ParseU32 | src/iceberg/spec/schema.rs:145-150 | a digit string reads as a u32 exactly when its value is below 2^32, and then as that value; otherwise the number error for the whole text |
| NumberText.NatToDigits | src/iceberg/spec/schema.rs:216 | `Display` of an unsigned integer is a non-empty digit string whose value is the integer, with no leading zero except for 0 itself |
| NumberText.ParseBracketed | src/iceberg/spec/partition_spec.rs:68-93 | `name[N]` reads exactly when it matches `^name\[\d+\]$` and N fits a u32, and then as N; a string outside the grammar is a format error |
| NumberText.BracketedValue | src/iceberg/spec/partition_spec.rs:78-92 | a string in the grammar whose digits fit a u32 reads as the value of its digits |
| NumberText.BracketedRoundTrip | src/iceberg/spec/partition_spec.rs:53-66 | parsing `format!("name[{}]", n)` gives back n for every u32 |
| SchemaCodec.ParseFixed | src/iceberg/spec/schema.rs:130-152 | `fixed[N]` reads exactly when it matches `^fixed\[\d+]$` with N a u32, and then as `Fixed(N)` |
| SchemaCodec.DigitEnd | src/iceberg/spec/schema.rs:158-159 | the end of the maximal digit run starting at a position |
| SchemaCodec.SpaceEnd | src/iceberg/spec/schema.rs:158-159 | the end of the maximal whitespace run starting at a position |
| SchemaCodec.ScanSound | src/iceberg/spec/schema.rs:158-162 | positions found by scanning maximal runs form a match of `^decimal\(\d+\s*,\s*\d+\)$` |
| SchemaCodec.ScanComplete | src/iceberg/spec/schema.rs:158-162 | the decimal grammar matches in at most one way, and the scan finds that way |
| SchemaCodec.ParseDecimal | src/iceberg/spec/schema.rs:154-208 | every accepted decimal has precision at most 38 |
| SchemaCodec.DecimalWrongFormat | src/iceberg/spec/schema.rs:202-207 | a string outside the decimal grammar is a format error |
| SchemaCodec.DecimalOutcome | src/iceberg/spec/schema.rs:162-201 | inside the grammar, the checks run in order: precision not a u8, then precision above 38, then scale not a u32; otherwise the decimal holds the two digit values |
| SchemaCodec.DecimalAccepts | src/iceberg/spec/schema.rs:154-208 | a decimal name is accepted exactly when it is in the grammar with precision at most 38 and a u32 scale |
| SchemaCodec.DecodePrimitive | src/iceberg/spec/schema.rs:111-127 | a name starting with `fixed` only ever reads as `Fixed`, one starting with `decimal` only as `Decimal`, and every other accepted name is the variant's lowercase name; every result has precision at most 38 |
| SchemaCodec.DecimalDispatch | src/iceberg/spec/schema.rs:120-124 | a string beginning `decimal(` goes to the decimal grammar alone |
| SchemaCodec.DecodeDecimalText | src/iceberg/spec/schema.rs:154-208 | `decimal(P,<spaces>S)` gives each error in turn or `Decimal(P, S)` |
| SchemaCodec.PrimitiveRoundTrip | src/iceberg/spec/schema.rs:210-223 | every primitive with precision at most 38 reads back as itself from its written name |
| SchemaCodec.FixedRoundTrip | src/iceberg/spec/schema.rs:283-304 | `fixed[N]` reads back as `Fixed(N)` for every u32 N |
| SchemaCodec.DecimalRoundTrip | src/iceberg/spec/schema.rs:217-219 | `decimal(P, S)` reads back as `Decimal(P, S)` when P is at most 38 |
| SchemaCodec.PlainRoundTrip | src/iceberg/spec/schema.rs:348-371 | each unparameterised primitive reads back from its lowercase name |
| SchemaCodec.WidePrecisionRejected | src/iceberg/spec/schema.rs:166-170 | a decimal with precision above 38 is written, but its text is refused as too precise |
| SchemaCodec.PlainNames | src/iceberg/spec/schema.rs:307-345 | the names that read as an unparameterised primitive are exactly the twelve lowercase names |
| SchemaCodec.FixedRejects | src/iceberg/spec/schema.rs:229-236 | `fixed(1)` and `fixed[a]` are refused |
| SchemaCodec.FixedAccepts | src/iceberg/spec/schema.rs:247-258 | `fixed[1]` and `fixed[400]` read as `Fixed(1)` and `Fixed(400)` |
| SchemaCodec.DecimalWithoutSpace | src/iceberg/spec/schema.rs:158-159 | `decimal(30,20)` reads as `Decimal(30, 20)` |
| SchemaCodec.DecimalWithSpace | src/iceberg/spec/schema.rs:158-159 | `decimal(30, 20)` reads as `Decimal(30, 20)` |
| SchemaCodec.DecimalMaxPrecision | src/iceberg/spec/schema.rs:260-280 | `decimal(38, 2)` is accepted |
| SchemaCodec.DecimalScaleAbovePrecision | src/iceberg/spec/schema.rs:260-280 | `decimal(1, 20)` is accepted: the scale is not compared with the precision |
| SchemaCodec.DecimalPrecision39 | src/iceberg/spec/schema.rs:164-170 | `decimal(39, 2)` is refused as too precise |
| SchemaCodec.DecimalRejects | src/iceberg/spec/schema.rs:238-245 | `decimal(1)` and `decimal[40,2]` are refused |
| SchemaCodec.DecodeType | src/iceberg/spec/schema.rs:43-66 | a read type is a primitive exactly when the JSON is a string, every decimal inside it has precision at most 38, and any failure is "no variant matched" |
| SchemaCodec.DecodeStruct | src/iceberg/spec/schema.rs:24-28 | a read struct has one field per item of its `fields` array, field k being what item k reads as, and each field type is representable |
| SchemaCodec.DecodeFields | src/iceberg/spec/schema.rs:26-27 | the fields are read one per array item, in order: field k is what item i + k reads as |
| SchemaCodec.DecodeField | src/iceberg/spec/schema.rs:30-41 | a read struct field has a representable type; `id`, `name` and `required` were present as the integer, string and boolean it holds; `type` was present; `doc`, `initial-default` and `write-default` read, absent or null as None, as the values it holds |
| SchemaCodec.DecodeList | src/iceberg/spec/schema.rs:93-99 | a read list had `element-id` and `element-required` with the values it holds, and `element` reads as its element type |
| SchemaCodec.DecodeMap | src/iceberg/spec/schema.rs:101-109 | a read map had `key-id`, `value-id` and `value-required` with the values it holds, and `key` and `value` read as its key and value types |
| SchemaCodec.TypeRoundTrip | src/iceberg/spec/schema.rs:521-606 | every type tree whose decimals have precision at most 38 reads back as itself |
| SchemaCodec.ListShapeRoundTrip | src/iceberg/spec/schema.rs:93-99 | a written list fails the struct shape and reads back as the list |
| SchemaCodec.MapShapeRoundTrip | src/iceberg/spec/schema.rs:101-109 | a written map fails the struct and list shapes and reads back as the map |
| SchemaCodec.MapOtherShapes | src/iceberg/spec/schema.rs:61-65 | a written map has neither `fields` nor `element-id`, so the earlier shapes fail on it |
| SchemaCodec.StructRoundTrip | src/iceberg/spec/schema.rs:24-28 | a written struct reads back with the same fields in the same order |
| SchemaCodec.FieldsRoundTrip | src/iceberg/spec/schema.rs:27 | each suffix of the written fields reads back as that suffix |
| SchemaCodec.FieldRoundTrip | src/iceberg/spec/schema.rs:30-41 | a written struct field reads back with its id, name, required flag, type, doc and defaults |
| SchemaCodec.DecodeSchemaV2 | src/iceberg/spec/schema.rs:6-13 | a v2 schema had an integer `schema-id` equal to its id, its `identifier-field-ids` read as the ids it holds, and it has representable field types |
| SchemaCodec.DecodeSchemaV1 | src/iceberg/spec/schema.rs:15-22 | a v1 schema has representable field types, and its optional `schema-id` and `identifier-field-ids` read, absent or null as None, as the values it holds |
| SchemaCodec.SchemaV1WithoutId | src/iceberg/spec/schema.rs:18 | a v1 schema without `schema-id` is accepted, with no schema id |
| SchemaCodec.SchemaStructRead | src/iceberg/spec/schema.rs:6-22 | the struct of a read v2 or v1 schema is what the same object reads as a struct |
| SchemaCodec.IdListRoundTrip | src/iceberg/spec/schema.rs:10 | the optional identifier field ids read back as written |
| SchemaCodec.StructInSchema | src/iceberg/spec/schema.rs:11-12 | the flattened struct reads back next to the schema's own keys |
| SchemaCodec.SchemaV2RoundTrip | src/iceberg/spec/schema.rs:764-855 | a written v2 schema reads back as itself |
| SchemaCodec.SchemaV1RoundTrip | src/iceberg/spec/schema.rs:15-22 | a written v1 schema reads back as itself |
| PartitionSpecCodec.DecodeTransform | src/iceberg/spec/partition_spec.rs:37-51 | a name starting with `bucket` only ever reads as `Bucket` with its digit value, one starting with `truncate` only as `Truncate`, and any other accepted name is the variant's name |
| PartitionSpecCodec.TransformRoundTrip | src/iceberg/spec/partition_spec.rs:200-220 | every transform, all seven kinds and every u32 parameter, reads back from its written name |
| PartitionSpecCodec.BucketRoundTrip | src/iceberg/spec/partition_spec.rs:59 | `bucket[N]` reads back as `Bucket(N)` |
| PartitionSpecCodec.TruncateRoundTrip | src/iceberg/spec/partition_spec.rs:60-62 | `truncate[N]` reads back as `Truncate(N)` |
| PartitionSpecCodec.BucketAccepts | src/iceberg/spec/partition_spec.rs:68-93 | a name reads as a bucket exactly when it matches `^bucket\[\d+\]$` with a u32 count |
| PartitionSpecCodec.TruncateAccepts | src/iceberg/spec/partition_spec.rs:95-120 | a name reads as a truncate exactly when it matches `^truncate\[\d+\]$` with a u32 width |
| PartitionSpecCodec.PlainTransformNames | src/iceberg/spec/partition_spec.rs:175-197 | the names that read as an unparameterised transform are exactly identity, year, month, day and hour |
| PartitionSpecCodec.TransformRejects | src/iceberg/spec/partition_spec.rs:126-164 | `bucket(1)`, `bucket[a1]`, `truncate(1)` and `truncate[a1]` are refused |
| PartitionSpecCodec.BucketExample | src/iceberg/spec/partition_spec.rs:142-148 | `bucket[42]` reads as `Bucket(42)` |
| PartitionSpecCodec.TruncateExample | src/iceberg/spec/partition_spec.rs:166-172 | `truncate[42]` reads as `Truncate(42)` |
| PartitionSpecCodec.DecodePartitionField | src/iceberg/spec/partition_spec.rs:13-20 | a partition field needs source-id, field-id, name and transform, and keeps the source id, field id, name and transform it read |
| PartitionSpecCodec.DecodePartitionSpec | src/iceberg/spec/partition_spec.rs:6-11 | a spec keeps its spec-id and reads its fields one per item, in order |
| PartitionSpecCodec.TransformJsonRoundTrip | src/iceberg/spec/partition_spec.rs:53-66 | a transform written as a JSON string reads back as itself |
| PartitionSpecCodec.PartitionFieldRoundTrip | src/iceberg/spec/partition_spec.rs:13-20 | a written partition field reads back as itself |
| PartitionSpecCodec.PartitionSpecRoundTrip | src/iceberg/spec/partition_spec.rs:267-290 | a written partition spec reads back as itself |
| SortOrderCodec.DecodeDirection | src/iceberg/spec/sort_orders.rs:21-26 | exactly `asc` and `desc` are directions, as `Asc` and `Desc` |
| SortOrderCodec.DecodeNullOrder | src/iceberg/spec/sort_orders.rs:28-33 | exactly `nulls-first` and `nulls-last` are null orders |
| SortOrderCodec.DirectionRoundTrip | src/iceberg/spec/sort_orders.rs:21-26 | each direction reads back from its name |
| SortOrderCodec.NullOrderRoundTrip | src/iceberg/spec/sort_orders.rs:28-33 | each null order reads back from its name |
| SortOrderCodec.NameExamples | src/iceberg/spec/sort_orders.rs:39-69 | `asc`, `desc`, `nulls-first` and `nulls-last` are accepted; `dsc` and `nulls` are refused |
| SortOrderCodec.DecodeSortField | src/iceberg/spec/sort_orders.rs:12-19 | a read sort field had `transform`, `source-id`, `direction` and `null-order`, each reading as the value it holds |
| SortOrderCodec.DecodeSortOrder | src/iceberg/spec/sort_orders.rs:5-10 | a sort order keeps its order-id and reads its fields one per item, in order |
| SortOrderCodec.SortFieldRoundTrip | src/iceberg/spec/sort_orders.rs:12-19 | a written sort field reads back as itself |
| SortOrderCodec.SortOrderRoundTrip | src/iceberg/spec/sort_orders.rs:5-10 | a written sort order reads back as itself |
| SortOrderCodec.EmptySortOrder | src/iceberg/spec/sort_orders.rs:7-10 | an order with an empty field list is accepted |
| SnapshotCodec.DecodeOperation | src/iceberg/spec/snapshot.rs:62-69 | exactly append, replace, overwrite and delete are operations |
| SnapshotCodec.OperationRoundTrip | src/iceberg/spec/snapshot.rs:62-69 | each operation reads back from its name |
| SnapshotCodec.DecodeSummary | src/iceberg/spec/snapshot.rs:54-60 | a summary needs `operation`; every other key goes into `rest` with its string value |
| SnapshotCodec.SummaryRoundTrip | src/iceberg/spec/snapshot.rs:54-60 | a summary whose other keys do not include `operation` reads back as itself |
| SnapshotCodec.EncodeSummary | src/iceberg/spec/snapshot.rs:54-60 | the written summary has the other keys and `operation`; each other key holds its text, and `operation` holds the operation name unless an other key of that name replaced it |
| SnapshotCodec.SummaryOperationOverridden | src/iceberg/spec/snapshot.rs:54-60 | a summary whose other keys include `operation` reads back with that entry as its operation and without the entry, or with the unknown-variant error of the entry |
| SnapshotCodec.OverriddenOperationExamples | src/iceberg/spec/snapshot.rs:54-60 | an append summary whose other keys say `delete` reads back as a delete; with `foo` it is refused |
| SnapshotCodec.SummaryExample | src/iceberg/spec/snapshot.rs:103-121 | an append summary with no other keys reads with an empty `rest`, extra keys are kept, and an unknown operation is refused |
| SnapshotCodec.DecodeSnapshotV2 | src/iceberg/spec/snapshot.rs:5-15 | a read v2 snapshot had snapshot-id, sequence-number, timestamp-ms, summary and manifest-list, each holding the value it returns; a parent or schema id it holds was present with that value |
| SnapshotCodec.SnapshotV2OptionalAbsent | src/iceberg/spec/snapshot.rs:7-14 | a v2 snapshot without `parent-snapshot-id` and `schema-id` is accepted, with both None |
| SnapshotCodec.SnapshotV2RoundTrip | src/iceberg/spec/snapshot.rs:5-15 | a written v2 snapshot reads back as itself |
| SnapshotCodec.DecodeSnapshotV1Fields | src/iceberg/spec/snapshot.rs:17-27 | the derived v1 reader had snapshot-id and timestamp-ms with the values it holds; each optional member reads, absent or null as None, as the value it holds; it holds a manifest list or manifests exactly when that key holds a non-null value |
| SnapshotCodec.DecodeSnapshotV1 | src/iceberg/spec/snapshot.rs:29-43 | a v1 snapshot reads exactly when the derived reader succeeds and it does not name both a manifest list and manifests; it is then returned unchanged, otherwise the conflict error |
| SnapshotCodec.SnapshotV1FieldsRoundTrip | src/iceberg/spec/snapshot.rs:45-52 | the derived reader reads back every written v1 snapshot |
| SnapshotCodec.SnapshotV1RoundTrip | src/iceberg/spec/snapshot.rs:29-52 | a written v1 snapshot with at most one kind of manifest reference reads back as itself |
| SnapshotCodec.BothManifestsRejected | src/iceberg/spec/snapshot.rs:35-38 | a written v1 snapshot with both a manifest list and manifests is refused with the conflict error |
| SnapshotCodec.SnapshotV1Example | src/iceberg/spec/snapshot.rs:129-153 | a v1 snapshot with only a manifest list reads with no summary, manifests or schema id |
| SnapshotCodec.DecodeRefType | src/iceberg/spec/snapshot.rs:80-89 | a ref type needs `type`; it is a tag exactly when `type` is "tag" and a branch exactly when it is "branch" (by variant name only, see "## Left out"); a branch's two limits read, absent or null as None, as the values it holds |
| SnapshotCodec.DecodeSnapshotRef | src/iceberg/spec/snapshot.rs:71-78 | a reference keeps its snapshot id, reads its flattened ref type from the same object, and its `max-ref-age-ms` reads, absent or null as None, as the age it holds |
| SnapshotCodec.SnapshotRefRoundTrip | src/iceberg/spec/snapshot.rs:71-89 | a written reference reads back as itself, for branches and tags |
| SnapshotCodec.SnapshotRefExamples | src/iceberg/spec/snapshot.rs:155-198 | the tag and branch samples read with the absent settings as None |
| TableMetadataCodec.DecodeTableMetadataV2 | src/iceberg/spec/table_metadata.rs:24-47 | a v2 body needs format-version, table-uuid, location, last-sequence-number, last-updated-ms, last-column-id, schemas, current-schema-id, partition-specs, default-spec-id, last-partition-id, sort-orders and default-sort-order-id, and its format version is the document's |
| TableMetadataCodec.DecodeTableMetadataV1 | src/iceberg/spec/table_metadata.rs:49-72 | a v1 body needs format-version, location, last-updated-ms, last-column-id, schema, partition-spec, partition-specs and default-sort-order-id, and its format version is the document's |
| TableMetadataCodec.DecodeTableMetadata | src/iceberg/spec/table_metadata.rs:94-133 | no format-version is one error; a format-version that is not an i64 is another; any integer other than 1 and 2 is unsupported; 2 gives V2 and 1 gives V1 exactly; a body that fails is an error for that version, with no fallback |
| TableMetadataCodec.DecodedV2Valid | src/iceberg/spec/table_metadata.rs:111-118 | every schema and snapshot summary of a read v2 body can be written back |
| TableMetadataCodec.DecodedV1Valid | src/iceberg/spec/table_metadata.rs:119-126 | every schema and snapshot of a read v1 body can be written back |
| TableMetadataCodec.DecodeSnapshotLog | src/iceberg/spec/table_metadata.rs:74-79 | a read snapshot-log entry had `snapshot-id` and `timestamp-ms` holding its values |
| TableMetadataCodec.SnapshotLogRoundTrip | src/iceberg/spec/table_metadata.rs:74-79 | a written snapshot-log entry reads back as itself |
| TableMetadataCodec.DecodeMetadataLog | src/iceberg/spec/table_metadata.rs:81-86 | a read metadata-log entry had `metadata-file` and `timestamp-ms` holding its values |
| TableMetadataCodec.MetadataLogRoundTrip | src/iceberg/spec/table_metadata.rs:81-86 | a written metadata-log entry reads back as itself |
| TableMetadataCodec.StatisticsRoundTrip | src/iceberg/spec/table_metadata.rs:88-92 | the empty statistics record is written as a non-null object and reads back |
| TableMetadataCodec.ChainV2 | src/iceberg/spec/table_metadata.rs:24-47 | any object whose members read one by one as a v2 body reads as that body, whatever other keys it holds |
| TableMetadataCodec.ReadStepsV2 | src/iceberg/spec/table_metadata.rs:24-47 | a document that reads as a v2 body reads member by member as that body |
| TableMetadataCodec.WrittenStepsV2 | src/iceberg/spec/table_metadata.rs:24-47 | every member of a written v2 body reads back as the member it was written from |
| TableMetadataCodec.ChainV1 | src/iceberg/spec/table_metadata.rs:49-72 | any object whose members read one by one as a v1 body reads as that body, whatever other keys it holds |
| TableMetadataCodec.ReadStepsV1 | src/iceberg/spec/table_metadata.rs:49-72 | a document that reads as a v1 body reads member by member as that body |
| TableMetadataCodec.WrittenStepsV1 | src/iceberg/spec/table_metadata.rs:49-72 | every member of a written v1 body reads back as the member it was written from |
| TableMetadataCodec.StampOverridden | src/iceberg/spec/table_metadata.rs:149-155 | the stamp and the struct tag under `format-version` are overridden by the body's own field |
| TableMetadataCodec.EncodeTableMetadata | src/iceberg/spec/table_metadata.rs:135-170 | the written document is the written body of its variant alone, so its `format-version` is the body's own version, not the stamp |
| TableMetadataCodec.DispatchV2 | src/iceberg/spec/table_metadata.rs:110-118 | a document whose members read as a v2 body of version 2 reads as `V2` of that body |
| TableMetadataCodec.DispatchV1 | src/iceberg/spec/table_metadata.rs:119-126 | a document whose members read as a v1 body of version 1 reads as `V1` of that body |
| TableMetadataCodec.TableMetadataRoundTrip | src/iceberg/spec/table_metadata.rs:135-170 | written table metadata reads back as itself, for v1 and v2 |
| TableMetadataCodec.ParseSerializeParse | src/iceberg/spec/table_metadata.rs:591-600 | whatever document reads, writing the result and reading again gives the same metadata |
| TableMetadataCodec.VersionExamples | src/iceberg/spec/table_metadata.rs:99-131 | version 3 is unsupported, a version given as text or as the float `2.0` is invalid, and a document without a version is refused |
| ManifestListCodec.ReadOpt | src/iceberg/spec/manifest_list.rs:90-95 | a null, bare or as a union's null branch, reads as None; anything else reads as `Some` of what the value reader gives, or fails with it |
| ManifestListCodec.ReadFileType | src/iceberg/spec/manifest_list.rs:102-107 | 0 reads as Data and 1 as Delete, exactly; any other integer is an invalid discriminant |
| ManifestListCodec.FileTypeRoundTrip | src/iceberg/spec/manifest_list.rs:102-107 | each file type reads back from its discriminant |
| ManifestListCodec.Required | src/iceberg/spec/manifest_list.rs:15-17 | an absent required field is the missing-field error; a present one is read by its reader |
| ManifestListCodec.Defaulted | src/iceberg/spec/manifest_list.rs:23-29 | an absent `#[serde(default)]` field reads as its default |
| ManifestListCodec.Aliased | src/iceberg/spec/manifest_list.rs:32-45 | a field is read from its name or its alias; both present is a duplicate-field error; neither present gives the default |
| ManifestListCodec.ReadFieldSummary | src/iceberg/spec/manifest_list.rs:111-119 | a read field summary is a record whose `contains_null`, `contains_nan` (None when absent) and two bounds (present even when null) read as the values it holds |
| ManifestListCodec.ReadSummaryItems | src/iceberg/spec/manifest_list.rs:59-60 | the partition summaries read one per item, in order, and fail exactly when some item fails |
| ManifestListCodec.FieldSummaryRoundTrip | src/iceberg/spec/manifest_list.rs:111-119 | a written field summary reads back as itself |
| ManifestListCodec.OptSummariesRoundTrip | src/iceberg/spec/manifest_list.rs:59-60 | the optional summary list reads back as written |
| ManifestListCodec.ChainV2 | src/iceberg/spec/manifest_list.rs:14-64 | a record whose fields read one by one as a v2 entry reads as that entry |
| ManifestListCodec.ReadManifestListV2 | src/iceberg/spec/manifest_list.rs:14-64 | a value that reads as a v2 entry is a record whose fields read one by one, with their defaults and aliases, as that entry |
| ManifestListCodec.CongruentV2 | src/iceberg/spec/manifest_list.rs:14-64 | two records whose fields read alike read alike as v2 entries, or fail alike |
| ManifestListCodec.ManifestListV2RoundTrip | src/iceberg/spec/manifest_list.rs:284-318 | a written v2 entry reads back as itself |
| ManifestListCodec.ChainV1 | src/iceberg/spec/manifest_list.rs:66-100 | a record whose fields read one by one as a v1 entry reads as that entry |
| ManifestListCodec.ReadManifestListV1 | src/iceberg/spec/manifest_list.rs:66-100 | a value that reads as a v1 entry is a record whose fields read one by one, with their aliases, as that entry |
| ManifestListCodec.CongruentV1 | src/iceberg/spec/manifest_list.rs:66-100 | two records whose fields read alike read alike as v1 entries, or fail alike |
| ManifestListCodec.ManifestListV1RoundTrip | src/iceberg/spec/manifest_list.rs:320-351 | a written v1 entry reads back as itself |
| ManifestListCodec.V2Defaults | src/iceberg/spec/manifest_list.rs:19-63 | in a v2 entry, an absent content is Data; absent sequence numbers and counts are 0; absent partitions and key metadata are None |
| ManifestListCodec.V1Absences | src/iceberg/spec/manifest_list.rs:75-99 | in a v1 entry, every absent count, the partitions and the key metadata are None |
| ManifestListCodec.Renamed | src/iceberg/spec/manifest_list.rs:32-45 | moving a field to its alias keeps its value and removes the original name |
| ManifestListCodec.AliasReadsAsNameV2 | src/iceberg/spec/manifest_list.rs:32-45 | a file count given under its Spark alias reads as a v2 entry exactly as under its own name |
| ManifestListCodec.AliasReadsAsNameV1 | src/iceberg/spec/manifest_list.rs:75-88 | a file count given under its Spark alias reads as a v1 entry exactly as under its own name |
| ManifestListCodec.BothSpellingsRejected | src/iceberg/spec/manifest_list.rs:34-44 | a file count given under both its name and its alias is refused by both readers |
| ManifestListCodec.Upgrade | src/iceberg/spec/manifest_list.rs:8-13 | the v2 view of a v1 entry: content Data, sequence numbers 0, the identifying fields, partitions and key metadata kept, each of the six counts kept when present and 0 when absent |
| ManifestListCodec.CountUpgrade | src/iceberg/spec/manifest_list.rs:33-35 | a non-null file count read as optional and as defaulting to 0 agree |
| ManifestListCodec.RowsUpgrade | src/iceberg/spec/manifest_list.rs:47-49 | a non-null row count read as optional and as defaulting to 0 agree |
| ManifestListCodec.NullCountRejectedV2 | src/iceberg/spec/manifest_list.rs:32-57 | a record holding a null count, under any spelling, is refused by the v2 reader |
| ManifestListCodec.ReadV1AsV2 | src/iceberg/spec/manifest_list.rs:186-217 | a v1 record read into the v2 shape gives its v1 reading with the v2 defaults filled in |
| ManifestListCodec.NullRowCountReadsV1 | src/iceberg/spec/manifest_list.rs:90-91 | the Spark sample with a null added row count reads as v1 with that count None |
| ManifestListCodec.NullRowCountRefusedV2 | src/iceberg/spec/manifest_list.rs:47-49 | the same record is refused by the v2 reader |
| ManifestListCodec.SparkV1Example | src/iceberg/spec/manifest_list.rs:254-282 | a record with the Spark spelling of the counts and the source test's path, length, ids and counts, but an empty `partitions` list rather than the test's three summaries, reads as v1 with every count present, and as v2 with content Data and sequence numbers 0 |

## Left out

- Avro binary encoding and decoding, the Avro schema constants (`manifest_list_avro_schema.rs`)
  and the `avro_schema` accessors. The model starts from a decoded record, a map from field name
  to value.
- Avro union resolution is simplified: a reader strips one union layer (`Unwrap`), and a value
  of another Avro kind (an `int` where a `long` is expected) is refused rather than promoted.
- Raw JSON text: parsing, whitespace and number syntax, and duplicate keys in the input text.
  A fractional number is kept as an exact `real` in `JFloat`; its rounding to an `f64` is not
  modelled, since no reader in the core accepts one.
  An object is a map with one value per key.
- `src/main.rs` (the Hive Metastore Thrift client, file reads, printing) and the Python
  scripts: I/O only.
- UUIDs: `table-uuid` is kept as an opaque string. UUID syntax is not checked.
- `Statistics` is an empty record in the source. Any JSON object reads as it, and it is written
  as an empty object.
- The positional (array) form in which serde also accepts a derived struct is not modelled.
  Every record is read from an object.
- `SnapshotCodec.DecodeRefType`, `SnapshotCodec.DecodeOperationJson`,
  `SortOrderCodec.DecodeDirectionJson` and `SortOrderCodec.DecodeNullOrderJson` read a variant
  only by its name as a string. Read from a JSON value, serde's derived enums also accept a
  unit variant in map form (`{"append": null}`) and, for the `type` tag of `RefType`, the
  variant's index (`0` for a branch, `1` for a tag). The model refuses both forms, so "a tag
  exactly when `type` is the string tag" holds only among the forms it models.
- Which error is reported when several fields are wrong: the model reports the first in field
  order, and serde reports the first it meets in the input text. Only the error kind is kept,
  not the message text.
- The `\d` of the Rust regex crate matches every Unicode decimal digit, but `parse::<u32>`
  accepts only ASCII digits. So accepting only ASCII digits in the grammar gives the same
  accept/reject result, though a non-ASCII digit is reported as a format error rather than a
  number error.
- `SchemaCodec.ParseDecimal`: its own contract states only the precision bound. The exact
  accept/reject rules are stated by `DecimalWrongFormat`, `DecimalOutcome` and `DecimalAccepts`.
- `ManifestListCodec.ReadV1AsV2`: requires that no count in the record is null. The source's v2
  reader refuses such records (`NullCountRejectedV2`), so the model does not promise that a v2
  reader reads every v1 entry, as the comment at `manifest_list.rs:10` says it should.
- `TableMetadataCodec.TableMetadataRoundTrip`: requires the body's own `format_version` to match
  its variant. The body's field is written after the stamp and wins, so `V2` metadata whose
  body says 1 is written as a version-1 document. Every decoded document satisfies the
  requirement.
- Snapshot selection, partition pruning, scan planning and referential checks between ids
  (for example, that `current-schema-id` names a schema in `schemas`): the code has none of these.
