/** Manifest-list entries (src/iceberg/spec/manifest_list.rs): the mapping from a decoded Avro
    record (field name to value) to `ManifestListV2` and `ManifestListV1`, with the v2 defaults
    for fields a v1 writer leaves out and the Spark aliases for the file counts. */
module ManifestListCodec {
  import opened Wrappers
  import opened JsonValue

  /** A decoded Avro value. A record's fields are keyed by name; a union value keeps the index
      of its branch and the value inside. */
  datatype Value =
    | Null
    | Boolean(b: bool)
    | Int(i: I32)
    | Long(l: I64)
    | Bytes(bytes: seq<U8>)
    | Str(s: string)
    | Array(items: seq<Value>)
    | Record(fields: map<string, Value>)
    | Union(branch: nat, inner: Value)

  type Fields = map<string, Value>

  datatype FileType = Data | Delete

  datatype FieldSummary = FieldSummary(
    containsNull: bool,
    containsNan: Option<bool>,
    lowerBound: Option<seq<U8>>,
    upperBound: Option<seq<U8>>)

  datatype ManifestListV2 = ManifestListV2(
    manifestPath: string,
    manifestLength: I64,
    partitionSpecId: I32,
    content: FileType,
    sequenceNumber: I64,
    minSequenceNumber: I64,
    addedSnapshotId: I64,
    addedFilesCount: I32,
    existingFilesCount: I32,
    deletedFilesCount: I32,
    addedRowsCount: I64,
    existingRowsCount: I64,
    deletedRowsCount: I64,
    partitions: Option<seq<FieldSummary>>,
    keyMetadata: Option<seq<U8>>)

  datatype ManifestListV1 = ManifestListV1(
    manifestPath: string,
    manifestLength: I64,
    partitionSpecId: I32,
    addedSnapshotId: I64,
    addedFilesCount: Option<I32>,
    existingFilesCount: Option<I32>,
    deletedFilesCount: Option<I32>,
    addedRowsCount: Option<I64>,
    existingRowsCount: Option<I64>,
    deletedRowsCount: Option<I64>,
    partitions: Option<seq<FieldSummary>>,
    keyMetadata: Option<seq<U8>>)

  // ----- reading single values -----

  /** The value a union holds; any other value is itself. */
  function Unwrap(v: Value): Value
  {
    if v.Union? then v.inner else v
  }

  function ReadBool(v: Value): (r: Result<bool>)
    ensures r.Ok? <==> Unwrap(v).Boolean?
    ensures r.Ok? ==> Unwrap(v) == Boolean(r.value)
  {
    match Unwrap(v)
    case Boolean(b) => Ok(b)
    case _ => Err(InvalidType("boolean"))
  }

  function ReadInt(v: Value): (r: Result<I32>)
    ensures r.Ok? <==> Unwrap(v).Int?
    ensures r.Ok? ==> Unwrap(v) == Int(r.value)
  {
    match Unwrap(v)
    case Int(i) => Ok(i)
    case _ => Err(InvalidType("int"))
  }

  function ReadLong(v: Value): (r: Result<I64>)
    ensures r.Ok? <==> Unwrap(v).Long?
    ensures r.Ok? ==> Unwrap(v) == Long(r.value)
  {
    match Unwrap(v)
    case Long(l) => Ok(l)
    case _ => Err(InvalidType("long"))
  }

  function ReadString(v: Value): (r: Result<string>)
    ensures r.Ok? <==> Unwrap(v).Str?
    ensures r.Ok? ==> Unwrap(v) == Str(r.value)
  {
    match Unwrap(v)
    case Str(s) => Ok(s)
    case _ => Err(InvalidType("string"))
  }

  function ReadBytes(v: Value): (r: Result<seq<U8>>)
    ensures r.Ok? <==> Unwrap(v).Bytes?
    ensures r.Ok? ==> Unwrap(v) == Bytes(r.value)
  {
    match Unwrap(v)
    case Bytes(bs) => Ok(bs)
    case _ => Err(InvalidType("bytes"))
  }

  /** Whether a value is null, bare or as the null branch of a union. */
  predicate IsNull(v: Value)
  {
    Unwrap(v) == Null
  }

  /** An optional value: null reads as None, anything else as what `dec` reads from it. */
  function ReadOpt<T>(v: Value, dec: Value -> Result<T>): (r: Result<Option<T>>)
    ensures IsNull(v) ==> r == Ok(None)
    ensures !IsNull(v) ==> (r.Ok? <==> dec(v).Ok?)
    ensures !IsNull(v) && r.Ok? ==> r.value == Some(dec(v).value)
  {
    if IsNull(v) then Ok(None)
    else
      var x :- dec(v);
      Ok(Some(x))
  }

  function ReadOptInt(v: Value): Result<Option<I32>> { ReadOpt(v, ReadInt) }
  function ReadOptLong(v: Value): Result<Option<I64>> { ReadOpt(v, ReadLong) }
  function ReadOptBool(v: Value): Result<Option<bool>> { ReadOpt(v, ReadBool) }
  function ReadOptBytes(v: Value): Result<Option<seq<U8>>> { ReadOpt(v, ReadBytes) }

  /** `FileType` is stored as its `i32` discriminant: Data is 0 and Delete is 1. */
  function ReadFileType(v: Value): (r: Result<FileType>)
    ensures r == Ok(Data) <==> Unwrap(v) == Int(0)
    ensures r == Ok(Delete) <==> Unwrap(v) == Int(1)
    ensures Unwrap(v).Int? && Unwrap(v).i !in {0, 1} ==> r == Err(InvalidDiscriminant(Unwrap(v).i))
  {
    var code :- ReadInt(v);
    if code == 0 then Ok(Data)
    else if code == 1 then Ok(Delete)
    else Err(InvalidDiscriminant(code))
  }

  function FileTypeCode(t: FileType): I32
  {
    match t
    case Data => 0
    case Delete => 1
  }

  lemma FileTypeRoundTrip(t: FileType)
    ensures ReadFileType(Int(FileTypeCode(t))) == Ok(t)
  {
  }

  // ----- reading fields of a record -----

  /** A field the record must carry. */
  function Required<T>(fields: Fields, key: string, dec: Value -> Result<T>): (r: Result<T>)
    ensures key !in fields ==> r == Err(MissingField(key))
    ensures key in fields ==> r == dec(fields[key])
  {
    if key in fields then dec(fields[key]) else Err(MissingField(key))
  }

  /** A field with `#[serde(default)]`: absent reads as `default`. */
  function Defaulted<T>(fields: Fields, key: string, dec: Value -> Result<T>, default: T): (r: Result<T>)
    ensures key !in fields ==> r == Ok(default)
    ensures key in fields ==> r == dec(fields[key])
  {
    if key in fields then dec(fields[key]) else Ok(default)
  }

  /** A field with `#[serde(alias = ..., default)]`: it may be given under its name or its
      alias but not both; absent under both it reads as `default`. */
  function Aliased<T>(fields: Fields, key: string, alias: string, dec: Value -> Result<T>, default: T): (r: Result<T>)
    ensures key in fields && alias in fields ==> r == Err(DuplicateField(key))
    ensures key in fields && alias !in fields ==> r == dec(fields[key])
    ensures key !in fields && alias in fields ==> r == dec(fields[alias])
    ensures key !in fields && alias !in fields ==> r == Ok(default)
  {
    if key in fields && alias in fields then Err(DuplicateField(key))
    else if key in fields then dec(fields[key])
    else if alias in fields then dec(fields[alias])
    else Ok(default)
  }

  // ----- field summaries -----

  /** `FieldSummaryV2`: `contains_nan` may be absent, but the two bounds, read through
      `serde_bytes` without a default, must be present even when null. */
  function ReadFieldSummary(v: Value): (r: Result<FieldSummary>)
    ensures r.Ok? ==> (Unwrap(v).Record? && "lower_bound" in Unwrap(v).fields && "upper_bound" in Unwrap(v).fields)
    ensures r.Ok? && Unwrap(v).Record? && "contains_nan" !in Unwrap(v).fields ==> r.value.containsNan == None
    ensures r.Ok? && Unwrap(v).Record? ==> Required(Unwrap(v).fields, "contains_null", ReadBool) == Ok(r.value.containsNull)
    ensures r.Ok? && Unwrap(v).Record? ==> Defaulted(Unwrap(v).fields, "contains_nan", ReadOptBool, None) == Ok(r.value.containsNan)
    ensures r.Ok? && Unwrap(v).Record? ==> Required(Unwrap(v).fields, "lower_bound", ReadOptBytes) == Ok(r.value.lowerBound)
    ensures r.Ok? && Unwrap(v).Record? ==> Required(Unwrap(v).fields, "upper_bound", ReadOptBytes) == Ok(r.value.upperBound)
  {
    match Unwrap(v)
    case Record(fields) =>
      var containsNull :- Required(fields, "contains_null", ReadBool);
      var containsNan :- Defaulted(fields, "contains_nan", ReadOptBool, None);
      var lowerBound :- Required(fields, "lower_bound", ReadOptBytes);
      var upperBound :- Required(fields, "upper_bound", ReadOptBytes);
      Ok(FieldSummary(containsNull, containsNan, lowerBound, upperBound))
    case _ => Err(InvalidType("record"))
  }

  /** Reads every item, in order; the first item that does not read is the error. */
  function ReadSummaryItems(items: seq<Value>): (r: Result<seq<FieldSummary>>)
    ensures r.Ok? <==> forall i :: 0 <= i < |items| ==> ReadFieldSummary(items[i]).Ok?
    ensures r.Ok? ==> (|r.value| == |items| &&
      forall i :: 0 <= i < |items| ==> ReadFieldSummary(items[i]) == Ok(r.value[i]))
  {
    if items == [] then Ok([])
    else
      var head :- ReadFieldSummary(items[0]);
      var tail :- ReadSummaryItems(items[1..]);
      Ok([head] + tail)
  }

  function ReadSummaries(v: Value): Result<seq<FieldSummary>>
  {
    match Unwrap(v)
    case Array(items) => ReadSummaryItems(items)
    case _ => Err(InvalidType("array"))
  }

  function ReadOptSummaries(v: Value): Result<Option<seq<FieldSummary>>> { ReadOpt(v, ReadSummaries) }

  // ----- writing -----

  /** An optional field is written as the null branch or the value branch of its union. */
  function WriteOpt<T>(x: Option<T>, enc: T -> Value): Value
  {
    match x
    case None => Union(0, Null)
    case Some(y) => Union(1, enc(y))
  }

  function WriteBool(b: bool): Value { Boolean(b) }
  function WriteInt(i: I32): Value { Int(i) }
  function WriteLong(l: I64): Value { Long(l) }
  function WriteBytes(bs: seq<U8>): Value { Bytes(bs) }

  function WriteFieldSummary(s: FieldSummary): Value
  {
    Record(map[
      "contains_null" := Boolean(s.containsNull),
      "contains_nan" := WriteOpt(s.containsNan, WriteBool),
      "lower_bound" := WriteOpt(s.lowerBound, WriteBytes),
      "upper_bound" := WriteOpt(s.upperBound, WriteBytes)])
  }

  function WriteSummaries(xs: seq<FieldSummary>): Value
  {
    Array(seq(|xs|, i requires 0 <= i < |xs| => WriteFieldSummary(xs[i])))
  }

  // ----- the two entry shapes -----

  /** `ManifestListV2`: path, length, spec id and snapshot id are required; a v1 record, which
      has none of the v2-only fields, reads with content Data, sequence numbers 0 and counts 0. */
  function ReadManifestListV2(v: Value): (r: Result<ManifestListV2>)
    ensures r.Ok? ==> v.Record? && StepsV2(v.fields, r.value)
  {
    match v
    case Record(fields) =>
      var manifestPath :- Required(fields, "manifest_path", ReadString);
      var manifestLength :- Required(fields, "manifest_length", ReadLong);
      var partitionSpecId :- Required(fields, "partition_spec_id", ReadInt);
      var content :- Defaulted(fields, "content", ReadFileType, Data);
      var sequenceNumber :- Defaulted(fields, "sequence_number", ReadLong, 0);
      var minSequenceNumber :- Defaulted(fields, "min_sequence_number", ReadLong, 0);
      var addedSnapshotId :- Required(fields, "added_snapshot_id", ReadLong);
      var addedFilesCount :- Aliased(fields, "added_files_count", "added_data_files_count", ReadInt, 0);
      var existingFilesCount :- Aliased(fields, "existing_files_count", "existing_data_files_count", ReadInt, 0);
      var deletedFilesCount :- Aliased(fields, "deleted_files_count", "deleted_data_files_count", ReadInt, 0);
      var addedRowsCount :- Defaulted(fields, "added_rows_count", ReadLong, 0);
      var existingRowsCount :- Defaulted(fields, "existing_rows_count", ReadLong, 0);
      var deletedRowsCount :- Defaulted(fields, "deleted_rows_count", ReadLong, 0);
      var partitions :- Defaulted(fields, "partitions", ReadOptSummaries, None);
      var keyMetadata :- Defaulted(fields, "key_metadata", ReadOptBytes, None);
      Ok(ManifestListV2(manifestPath, manifestLength, partitionSpecId, content, sequenceNumber,
        minSequenceNumber, addedSnapshotId, addedFilesCount, existingFilesCount, deletedFilesCount,
        addedRowsCount, existingRowsCount, deletedRowsCount, partitions, keyMetadata))
    case _ => Err(InvalidType("record"))
  }

  /** `ManifestListV1`: the counts are optional, None when absent or null. */
  function ReadManifestListV1(v: Value): (r: Result<ManifestListV1>)
    ensures r.Ok? ==> v.Record? && StepsV1(v.fields, r.value)
  {
    match v
    case Record(fields) =>
      var manifestPath :- Required(fields, "manifest_path", ReadString);
      var manifestLength :- Required(fields, "manifest_length", ReadLong);
      var partitionSpecId :- Required(fields, "partition_spec_id", ReadInt);
      var addedSnapshotId :- Required(fields, "added_snapshot_id", ReadLong);
      var addedFilesCount :- Aliased(fields, "added_files_count", "added_data_files_count", ReadOptInt, None);
      var existingFilesCount :- Aliased(fields, "existing_files_count", "existing_data_files_count", ReadOptInt, None);
      var deletedFilesCount :- Aliased(fields, "deleted_files_count", "deleted_data_files_count", ReadOptInt, None);
      var addedRowsCount :- Defaulted(fields, "added_rows_count", ReadOptLong, None);
      var existingRowsCount :- Defaulted(fields, "existing_rows_count", ReadOptLong, None);
      var deletedRowsCount :- Defaulted(fields, "deleted_rows_count", ReadOptLong, None);
      var partitions :- Defaulted(fields, "partitions", ReadOptSummaries, None);
      var keyMetadata :- Defaulted(fields, "key_metadata", ReadOptBytes, None);
      Ok(ManifestListV1(manifestPath, manifestLength, partitionSpecId, addedSnapshotId,
        addedFilesCount, existingFilesCount, deletedFilesCount, addedRowsCount, existingRowsCount,
        deletedRowsCount, partitions, keyMetadata))
    case _ => Err(InvalidType("record"))
  }

  /** The record a v2 writer produces: every field under its own name, optional ones as unions. */
  function WriteManifestListV2(m: ManifestListV2): Value
  {
    Record(map[
      "manifest_path" := Str(m.manifestPath),
      "manifest_length" := Long(m.manifestLength),
      "partition_spec_id" := Int(m.partitionSpecId),
      "content" := Int(FileTypeCode(m.content)),
      "sequence_number" := Long(m.sequenceNumber),
      "min_sequence_number" := Long(m.minSequenceNumber),
      "added_snapshot_id" := Long(m.addedSnapshotId),
      "added_files_count" := Int(m.addedFilesCount),
      "existing_files_count" := Int(m.existingFilesCount),
      "deleted_files_count" := Int(m.deletedFilesCount),
      "added_rows_count" := Long(m.addedRowsCount),
      "existing_rows_count" := Long(m.existingRowsCount),
      "deleted_rows_count" := Long(m.deletedRowsCount),
      "partitions" := WriteOpt(m.partitions, WriteSummaries),
      "key_metadata" := WriteOpt(m.keyMetadata, WriteBytes)])
  }

  /** The record a v1 writer produces. */
  function WriteManifestListV1(m: ManifestListV1): Value
  {
    Record(map[
      "manifest_path" := Str(m.manifestPath),
      "manifest_length" := Long(m.manifestLength),
      "partition_spec_id" := Int(m.partitionSpecId),
      "added_snapshot_id" := Long(m.addedSnapshotId),
      "added_files_count" := WriteOpt(m.addedFilesCount, WriteInt),
      "existing_files_count" := WriteOpt(m.existingFilesCount, WriteInt),
      "deleted_files_count" := WriteOpt(m.deletedFilesCount, WriteInt),
      "added_rows_count" := WriteOpt(m.addedRowsCount, WriteLong),
      "existing_rows_count" := WriteOpt(m.existingRowsCount, WriteLong),
      "deleted_rows_count" := WriteOpt(m.deletedRowsCount, WriteLong),
      "partitions" := WriteOpt(m.partitions, WriteSummaries),
      "key_metadata" := WriteOpt(m.keyMetadata, WriteBytes)])
  }

  // ----- round trips -----

  lemma OptRoundTrip<T>(x: Option<T>, enc: T -> Value, dec: Value -> Result<T>)
    requires x.Some? ==> (!IsNull(enc(x.value)) && dec(Union(1, enc(x.value))) == Ok(x.value))
    ensures ReadOpt(WriteOpt(x, enc), dec) == Ok(x)
  {
  }

  lemma FieldSummaryRoundTrip(s: FieldSummary)
    ensures ReadFieldSummary(WriteFieldSummary(s)) == Ok(s)
  {
    var fields := WriteFieldSummary(s).fields;
    assert Required(fields, "contains_null", ReadBool) == Ok(s.containsNull);
    OptRoundTrip(s.containsNan, WriteBool, ReadBool);
    assert Defaulted(fields, "contains_nan", ReadOptBool, None) == Ok(s.containsNan);
    OptRoundTrip(s.lowerBound, WriteBytes, ReadBytes);
    assert Required(fields, "lower_bound", ReadOptBytes) == Ok(s.lowerBound);
    OptRoundTrip(s.upperBound, WriteBytes, ReadBytes);
    assert Required(fields, "upper_bound", ReadOptBytes) == Ok(s.upperBound);
  }

  lemma SummariesRoundTrip(xs: seq<FieldSummary>)
    ensures ReadSummaries(Union(1, WriteSummaries(xs))) == Ok(xs)
    ensures ReadOptSummaries(WriteOpt(Some(xs), WriteSummaries)) == Ok(Some(xs))
  {
    var items := WriteSummaries(xs).items;
    forall i | 0 <= i < |xs| ensures ReadFieldSummary(items[i]) == Ok(xs[i]) {
      FieldSummaryRoundTrip(xs[i]);
    }
    assert ReadSummaryItems(items).Ok?;
    assert ReadSummaryItems(items).value == xs;
  }

  lemma OptSummariesRoundTrip(x: Option<seq<FieldSummary>>)
    ensures ReadOptSummaries(WriteOpt(x, WriteSummaries)) == Ok(x)
  {
    if x.Some? {
      SummariesRoundTrip(x.value);
    }
  }

  /** The record reads, field by field, as `m`. */
  predicate StepsV2(fields: Fields, m: ManifestListV2)
  {
    StepsV2Ids(fields, m) && StepsV2Counts(fields, m) && StepsV2Rest(fields, m)
  }

  predicate StepsV2Ids(fields: Fields, m: ManifestListV2)
  {
    Required(fields, "manifest_path", ReadString) == Ok(m.manifestPath) &&
    Required(fields, "manifest_length", ReadLong) == Ok(m.manifestLength) &&
    Required(fields, "partition_spec_id", ReadInt) == Ok(m.partitionSpecId) &&
    Defaulted(fields, "content", ReadFileType, Data) == Ok(m.content) &&
    Defaulted(fields, "sequence_number", ReadLong, 0) == Ok(m.sequenceNumber) &&
    Defaulted(fields, "min_sequence_number", ReadLong, 0) == Ok(m.minSequenceNumber) &&
    Required(fields, "added_snapshot_id", ReadLong) == Ok(m.addedSnapshotId)
  }

  predicate StepsV2Counts(fields: Fields, m: ManifestListV2)
  {
    Aliased(fields, "added_files_count", "added_data_files_count", ReadInt, 0) == Ok(m.addedFilesCount) &&
    Aliased(fields, "existing_files_count", "existing_data_files_count", ReadInt, 0) == Ok(m.existingFilesCount) &&
    Aliased(fields, "deleted_files_count", "deleted_data_files_count", ReadInt, 0) == Ok(m.deletedFilesCount) &&
    Defaulted(fields, "added_rows_count", ReadLong, 0) == Ok(m.addedRowsCount) &&
    Defaulted(fields, "existing_rows_count", ReadLong, 0) == Ok(m.existingRowsCount) &&
    Defaulted(fields, "deleted_rows_count", ReadLong, 0) == Ok(m.deletedRowsCount)
  }

  predicate StepsV2Rest(fields: Fields, m: ManifestListV2)
  {
    Defaulted(fields, "partitions", ReadOptSummaries, None) == Ok(m.partitions) &&
    Defaulted(fields, "key_metadata", ReadOptBytes, None) == Ok(m.keyMetadata)
  }

  /** A record whose fields read one by one as `m` reads as `m`. */
  lemma ChainV2(fields: Fields, m: ManifestListV2)
    requires StepsV2(fields, m)
    ensures ReadManifestListV2(Record(fields)) == Ok(m)
  {
  }

  /** Two records whose fields read alike read alike, or fail alike. */
  lemma CongruentV2(f1: Fields, f2: Fields)
    requires Required(f1, "manifest_path", ReadString) == Required(f2, "manifest_path", ReadString) &&
      Required(f1, "manifest_length", ReadLong) == Required(f2, "manifest_length", ReadLong) &&
      Required(f1, "partition_spec_id", ReadInt) == Required(f2, "partition_spec_id", ReadInt) &&
      Defaulted(f1, "content", ReadFileType, Data) == Defaulted(f2, "content", ReadFileType, Data) &&
      Defaulted(f1, "sequence_number", ReadLong, 0) == Defaulted(f2, "sequence_number", ReadLong, 0) &&
      Defaulted(f1, "min_sequence_number", ReadLong, 0) == Defaulted(f2, "min_sequence_number", ReadLong, 0) &&
      Required(f1, "added_snapshot_id", ReadLong) == Required(f2, "added_snapshot_id", ReadLong) &&
      Aliased(f1, "added_files_count", "added_data_files_count", ReadInt, 0) == Aliased(f2, "added_files_count", "added_data_files_count", ReadInt, 0) &&
      Aliased(f1, "existing_files_count", "existing_data_files_count", ReadInt, 0) == Aliased(f2, "existing_files_count", "existing_data_files_count", ReadInt, 0) &&
      Aliased(f1, "deleted_files_count", "deleted_data_files_count", ReadInt, 0) == Aliased(f2, "deleted_files_count", "deleted_data_files_count", ReadInt, 0) &&
      Defaulted(f1, "added_rows_count", ReadLong, 0) == Defaulted(f2, "added_rows_count", ReadLong, 0) &&
      Defaulted(f1, "existing_rows_count", ReadLong, 0) == Defaulted(f2, "existing_rows_count", ReadLong, 0) &&
      Defaulted(f1, "deleted_rows_count", ReadLong, 0) == Defaulted(f2, "deleted_rows_count", ReadLong, 0) &&
      Defaulted(f1, "partitions", ReadOptSummaries, None) == Defaulted(f2, "partitions", ReadOptSummaries, None) &&
      Defaulted(f1, "key_metadata", ReadOptBytes, None) == Defaulted(f2, "key_metadata", ReadOptBytes, None)
    ensures ReadManifestListV2(Record(f1)) == ReadManifestListV2(Record(f2))
  {
  }

  lemma WrittenV2Part1(m: ManifestListV2)
    ensures WriteManifestListV2(m).Record?
    ensures Required(WriteManifestListV2(m).fields, "manifest_path", ReadString) == Ok(m.manifestPath)
    ensures Required(WriteManifestListV2(m).fields, "manifest_length", ReadLong) == Ok(m.manifestLength)
  {

  }

  lemma WrittenV2Part2(m: ManifestListV2)
    ensures WriteManifestListV2(m).Record?
    ensures Required(WriteManifestListV2(m).fields, "partition_spec_id", ReadInt) == Ok(m.partitionSpecId)
    ensures Defaulted(WriteManifestListV2(m).fields, "content", ReadFileType, Data) == Ok(m.content)
  {
    FileTypeRoundTrip(m.content);
  }

  lemma WrittenV2Part3(m: ManifestListV2)
    ensures WriteManifestListV2(m).Record?
    ensures Defaulted(WriteManifestListV2(m).fields, "sequence_number", ReadLong, 0) == Ok(m.sequenceNumber)
    ensures Defaulted(WriteManifestListV2(m).fields, "min_sequence_number", ReadLong, 0) == Ok(m.minSequenceNumber)
  {

  }

  lemma WrittenV2Part4(m: ManifestListV2)
    ensures WriteManifestListV2(m).Record?
    ensures Required(WriteManifestListV2(m).fields, "added_snapshot_id", ReadLong) == Ok(m.addedSnapshotId)
    ensures Aliased(WriteManifestListV2(m).fields, "added_files_count", "added_data_files_count", ReadInt, 0) == Ok(m.addedFilesCount)
  {

  }

  lemma WrittenV2Part5(m: ManifestListV2)
    ensures WriteManifestListV2(m).Record?
    ensures Aliased(WriteManifestListV2(m).fields, "existing_files_count", "existing_data_files_count", ReadInt, 0) == Ok(m.existingFilesCount)
    ensures Aliased(WriteManifestListV2(m).fields, "deleted_files_count", "deleted_data_files_count", ReadInt, 0) == Ok(m.deletedFilesCount)
  {

  }

  lemma WrittenV2Part6(m: ManifestListV2)
    ensures WriteManifestListV2(m).Record?
    ensures Defaulted(WriteManifestListV2(m).fields, "added_rows_count", ReadLong, 0) == Ok(m.addedRowsCount)
    ensures Defaulted(WriteManifestListV2(m).fields, "existing_rows_count", ReadLong, 0) == Ok(m.existingRowsCount)
  {

  }

  lemma WrittenV2Part7(m: ManifestListV2)
    ensures WriteManifestListV2(m).Record?
    ensures Defaulted(WriteManifestListV2(m).fields, "deleted_rows_count", ReadLong, 0) == Ok(m.deletedRowsCount)
    ensures Defaulted(WriteManifestListV2(m).fields, "partitions", ReadOptSummaries, None) == Ok(m.partitions)
  {
    OptSummariesRoundTrip(m.partitions);
  }

  lemma WrittenV2Part8(m: ManifestListV2)
    ensures WriteManifestListV2(m).Record?
    ensures Defaulted(WriteManifestListV2(m).fields, "key_metadata", ReadOptBytes, None) == Ok(m.keyMetadata)
  {
    OptRoundTrip(m.keyMetadata, WriteBytes, ReadBytes);
  }

  /** Writing a v2 entry and reading it back gives the same entry. */
  lemma ManifestListV2RoundTrip(m: ManifestListV2)
    ensures ReadManifestListV2(WriteManifestListV2(m)) == Ok(m)
  {
    WrittenV2Part1(m);
    WrittenV2Part2(m);
    WrittenV2Part3(m);
    WrittenV2Part4(m);
    WrittenV2Part5(m);
    WrittenV2Part6(m);
    WrittenV2Part7(m);
    WrittenV2Part8(m);
    ChainV2(WriteManifestListV2(m).fields, m);
  }

  /** The record reads, field by field, as `m`. */
  predicate StepsV1(fields: Fields, m: ManifestListV1)
  {
    StepsV1Ids(fields, m) && StepsV1Counts(fields, m) && StepsV1Rest(fields, m)
  }

  predicate StepsV1Ids(fields: Fields, m: ManifestListV1)
  {
    Required(fields, "manifest_path", ReadString) == Ok(m.manifestPath) &&
    Required(fields, "manifest_length", ReadLong) == Ok(m.manifestLength) &&
    Required(fields, "partition_spec_id", ReadInt) == Ok(m.partitionSpecId) &&
    Required(fields, "added_snapshot_id", ReadLong) == Ok(m.addedSnapshotId)
  }

  predicate StepsV1Counts(fields: Fields, m: ManifestListV1)
  {
    Aliased(fields, "added_files_count", "added_data_files_count", ReadOptInt, None) == Ok(m.addedFilesCount) &&
    Aliased(fields, "existing_files_count", "existing_data_files_count", ReadOptInt, None) == Ok(m.existingFilesCount) &&
    Aliased(fields, "deleted_files_count", "deleted_data_files_count", ReadOptInt, None) == Ok(m.deletedFilesCount) &&
    Defaulted(fields, "added_rows_count", ReadOptLong, None) == Ok(m.addedRowsCount) &&
    Defaulted(fields, "existing_rows_count", ReadOptLong, None) == Ok(m.existingRowsCount) &&
    Defaulted(fields, "deleted_rows_count", ReadOptLong, None) == Ok(m.deletedRowsCount)
  }

  predicate StepsV1Rest(fields: Fields, m: ManifestListV1)
  {
    Defaulted(fields, "partitions", ReadOptSummaries, None) == Ok(m.partitions) &&
    Defaulted(fields, "key_metadata", ReadOptBytes, None) == Ok(m.keyMetadata)
  }

  /** A record whose fields read one by one as `m` reads as `m`. */
  lemma ChainV1(fields: Fields, m: ManifestListV1)
    requires StepsV1(fields, m)
    ensures ReadManifestListV1(Record(fields)) == Ok(m)
  {
  }

  /** Two records whose fields read alike read alike, or fail alike. */
  lemma CongruentV1(f1: Fields, f2: Fields)
    requires Required(f1, "manifest_path", ReadString) == Required(f2, "manifest_path", ReadString) &&
      Required(f1, "manifest_length", ReadLong) == Required(f2, "manifest_length", ReadLong) &&
      Required(f1, "partition_spec_id", ReadInt) == Required(f2, "partition_spec_id", ReadInt) &&
      Required(f1, "added_snapshot_id", ReadLong) == Required(f2, "added_snapshot_id", ReadLong) &&
      Aliased(f1, "added_files_count", "added_data_files_count", ReadOptInt, None) == Aliased(f2, "added_files_count", "added_data_files_count", ReadOptInt, None) &&
      Aliased(f1, "existing_files_count", "existing_data_files_count", ReadOptInt, None) == Aliased(f2, "existing_files_count", "existing_data_files_count", ReadOptInt, None) &&
      Aliased(f1, "deleted_files_count", "deleted_data_files_count", ReadOptInt, None) == Aliased(f2, "deleted_files_count", "deleted_data_files_count", ReadOptInt, None) &&
      Defaulted(f1, "added_rows_count", ReadOptLong, None) == Defaulted(f2, "added_rows_count", ReadOptLong, None) &&
      Defaulted(f1, "existing_rows_count", ReadOptLong, None) == Defaulted(f2, "existing_rows_count", ReadOptLong, None) &&
      Defaulted(f1, "deleted_rows_count", ReadOptLong, None) == Defaulted(f2, "deleted_rows_count", ReadOptLong, None) &&
      Defaulted(f1, "partitions", ReadOptSummaries, None) == Defaulted(f2, "partitions", ReadOptSummaries, None) &&
      Defaulted(f1, "key_metadata", ReadOptBytes, None) == Defaulted(f2, "key_metadata", ReadOptBytes, None)
    ensures ReadManifestListV1(Record(f1)) == ReadManifestListV1(Record(f2))
  {
  }

  lemma WrittenV1Part1(m: ManifestListV1)
    ensures WriteManifestListV1(m).Record?
    ensures Required(WriteManifestListV1(m).fields, "manifest_path", ReadString) == Ok(m.manifestPath)
    ensures Required(WriteManifestListV1(m).fields, "manifest_length", ReadLong) == Ok(m.manifestLength)
  {

  }

  lemma WrittenV1Part2(m: ManifestListV1)
    ensures WriteManifestListV1(m).Record?
    ensures Required(WriteManifestListV1(m).fields, "partition_spec_id", ReadInt) == Ok(m.partitionSpecId)
    ensures Required(WriteManifestListV1(m).fields, "added_snapshot_id", ReadLong) == Ok(m.addedSnapshotId)
  {

  }

  lemma WrittenV1Part3(m: ManifestListV1)
    ensures WriteManifestListV1(m).Record?
    ensures Aliased(WriteManifestListV1(m).fields, "added_files_count", "added_data_files_count", ReadOptInt, None) == Ok(m.addedFilesCount)
    ensures Aliased(WriteManifestListV1(m).fields, "existing_files_count", "existing_data_files_count", ReadOptInt, None) == Ok(m.existingFilesCount)
  {
    OptRoundTrip(m.addedFilesCount, WriteInt, ReadInt);
    OptRoundTrip(m.existingFilesCount, WriteInt, ReadInt);
  }

  lemma WrittenV1Part4(m: ManifestListV1)
    ensures WriteManifestListV1(m).Record?
    ensures Aliased(WriteManifestListV1(m).fields, "deleted_files_count", "deleted_data_files_count", ReadOptInt, None) == Ok(m.deletedFilesCount)
    ensures Defaulted(WriteManifestListV1(m).fields, "added_rows_count", ReadOptLong, None) == Ok(m.addedRowsCount)
  {
    OptRoundTrip(m.deletedFilesCount, WriteInt, ReadInt);
    OptRoundTrip(m.addedRowsCount, WriteLong, ReadLong);
  }

  lemma WrittenV1Part5(m: ManifestListV1)
    ensures WriteManifestListV1(m).Record?
    ensures Defaulted(WriteManifestListV1(m).fields, "existing_rows_count", ReadOptLong, None) == Ok(m.existingRowsCount)
    ensures Defaulted(WriteManifestListV1(m).fields, "deleted_rows_count", ReadOptLong, None) == Ok(m.deletedRowsCount)
  {
    OptRoundTrip(m.existingRowsCount, WriteLong, ReadLong);
    OptRoundTrip(m.deletedRowsCount, WriteLong, ReadLong);
  }

  lemma WrittenV1Part6(m: ManifestListV1)
    ensures WriteManifestListV1(m).Record?
    ensures Defaulted(WriteManifestListV1(m).fields, "partitions", ReadOptSummaries, None) == Ok(m.partitions)
    ensures Defaulted(WriteManifestListV1(m).fields, "key_metadata", ReadOptBytes, None) == Ok(m.keyMetadata)
  {
    OptSummariesRoundTrip(m.partitions);
    OptRoundTrip(m.keyMetadata, WriteBytes, ReadBytes);
  }

  /** Writing a v1 entry and reading it back gives the same entry. */
  lemma ManifestListV1RoundTrip(m: ManifestListV1)
    ensures ReadManifestListV1(WriteManifestListV1(m)) == Ok(m)
  {
    WrittenV1Part1(m);
    WrittenV1Part2(m);
    WrittenV1Part3(m);
    WrittenV1Part4(m);
    WrittenV1Part5(m);
    WrittenV1Part6(m);
    ChainV1(WriteManifestListV1(m).fields, m);
  }

  // ----- defaults, absences and aliases -----

  /** A record without the v2-only fields reads with content Data and sequence numbers 0, and
      a count absent under both its name and its alias reads as 0. */
  lemma V2Defaults(fields: Fields)
    requires ReadManifestListV2(Record(fields)).Ok?
    ensures var m := ReadManifestListV2(Record(fields)).value;
      ("content" !in fields ==> m.content == Data) &&
      ("sequence_number" !in fields ==> m.sequenceNumber == 0) &&
      ("min_sequence_number" !in fields ==> m.minSequenceNumber == 0)
    ensures var m := ReadManifestListV2(Record(fields)).value;
      ("added_files_count" !in fields && "added_data_files_count" !in fields ==> m.addedFilesCount == 0) &&
      ("existing_files_count" !in fields && "existing_data_files_count" !in fields ==> m.existingFilesCount == 0) &&
      ("deleted_files_count" !in fields && "deleted_data_files_count" !in fields ==> m.deletedFilesCount == 0)
    ensures var m := ReadManifestListV2(Record(fields)).value;
      ("added_rows_count" !in fields ==> m.addedRowsCount == 0) &&
      ("existing_rows_count" !in fields ==> m.existingRowsCount == 0) &&
      ("deleted_rows_count" !in fields ==> m.deletedRowsCount == 0)
    ensures var m := ReadManifestListV2(Record(fields)).value;
      ("partitions" !in fields ==> m.partitions == None) && ("key_metadata" !in fields ==> m.keyMetadata == None)
  {
  }

  /** In a v1 entry every count, the partition summaries and the key metadata are None when
      absent. */
  lemma V1Absences(fields: Fields)
    requires ReadManifestListV1(Record(fields)).Ok?
    ensures var m := ReadManifestListV1(Record(fields)).value;
      ("added_files_count" !in fields && "added_data_files_count" !in fields ==> m.addedFilesCount == None) &&
      ("existing_files_count" !in fields && "existing_data_files_count" !in fields ==> m.existingFilesCount == None) &&
      ("deleted_files_count" !in fields && "deleted_data_files_count" !in fields ==> m.deletedFilesCount == None)
    ensures var m := ReadManifestListV1(Record(fields)).value;
      ("added_rows_count" !in fields ==> m.addedRowsCount == None) &&
      ("existing_rows_count" !in fields ==> m.existingRowsCount == None) &&
      ("deleted_rows_count" !in fields ==> m.deletedRowsCount == None)
    ensures var m := ReadManifestListV1(Record(fields)).value;
      ("partitions" !in fields ==> m.partitions == None) && ("key_metadata" !in fields ==> m.keyMetadata == None)
  {
  }

  /** The three Spark spellings of the file counts. */
  predicate IsCountAlias(key: string, alias: string)
  {
    (key == "added_files_count" && alias == "added_data_files_count") ||
    (key == "existing_files_count" && alias == "existing_data_files_count") ||
    (key == "deleted_files_count" && alias == "deleted_data_files_count")
  }

  /** The record with one field moved from its name to its alias. */
  function Renamed(fields: Fields, key: string, alias: string): (r: Fields)
    requires key in fields
    ensures alias in r && r[alias] == fields[key]
    ensures key != alias ==> key !in r
  {
    (fields - {key})[alias := fields[key]]
  }

  /** Outside the moved field, the renamed record holds what the record holds. */
  lemma RenamedElsewhere(fields: Fields, key: string, alias: string, k: string)
    requires key in fields && k != key && k != alias
    ensures (k in Renamed(fields, key, alias)) == (k in fields)
    ensures k in fields ==> Renamed(fields, key, alias)[k] == fields[k]
  {
  }

  /** A field other than the moved one reads alike, required or defaulted. */
  lemma ReadsElsewhere<T>(fields: Fields, key: string, alias: string, k: string, dec: Value -> Result<T>, default: T)
    requires key in fields && k != key && k != alias
    ensures Required(Renamed(fields, key, alias), k, dec) == Required(fields, k, dec)
    ensures Defaulted(Renamed(fields, key, alias), k, dec, default) == Defaulted(fields, k, dec, default)
  {
    RenamedElsewhere(fields, key, alias, k);
  }

  /** Another aliased count reads alike. */
  lemma AliasedElsewhere<T>(fields: Fields, key: string, alias: string, k: string, a: string,
    dec: Value -> Result<T>, default: T)
    requires key in fields && k != key && k != alias && a != key && a != alias
    ensures Aliased(Renamed(fields, key, alias), k, a, dec, default) == Aliased(fields, k, a, dec, default)
  {
    RenamedElsewhere(fields, key, alias, k);
    RenamedElsewhere(fields, key, alias, a);
  }

  /** The moved count itself reads alike under its alias. */
  lemma AliasedMoved<T>(fields: Fields, key: string, alias: string, dec: Value -> Result<T>, default: T)
    requires key in fields && alias !in fields && key != alias
    ensures Aliased(Renamed(fields, key, alias), key, alias, dec, default) == Aliased(fields, key, alias, dec, default)
  {
  }

  /** A count given under its Spark alias reads as if it were given under its own name. */
  lemma AliasReadsAsNameV2(fields: Fields, key: string, alias: string)
    requires IsCountAlias(key, alias) && key in fields && alias !in fields
    ensures ReadManifestListV2(Record(Renamed(fields, key, alias))) == ReadManifestListV2(Record(fields))
  {
    var renamed := Renamed(fields, key, alias);
    ReadsElsewhere(fields, key, alias, "manifest_path", ReadString, "");
    ReadsElsewhere(fields, key, alias, "manifest_length", ReadLong, 0);
    ReadsElsewhere(fields, key, alias, "partition_spec_id", ReadInt, 0);
    ReadsElsewhere(fields, key, alias, "content", ReadFileType, Data);
    ReadsElsewhere(fields, key, alias, "sequence_number", ReadLong, 0);
    ReadsElsewhere(fields, key, alias, "min_sequence_number", ReadLong, 0);
    ReadsElsewhere(fields, key, alias, "added_snapshot_id", ReadLong, 0);
    OtherCountsV2(fields, key, alias);
    AliasedMoved(fields, key, alias, ReadInt, 0);
    ReadsElsewhere(fields, key, alias, "added_rows_count", ReadLong, 0);
    ReadsElsewhere(fields, key, alias, "existing_rows_count", ReadLong, 0);
    ReadsElsewhere(fields, key, alias, "deleted_rows_count", ReadLong, 0);
    ReadsElsewhere(fields, key, alias, "partitions", ReadOptSummaries, None);
    ReadsElsewhere(fields, key, alias, "key_metadata", ReadOptBytes, None);
    CongruentV2(renamed, fields);
  }

  /** The two counts that were not moved read alike. */
  lemma OtherCountsV2(fields: Fields, key: string, alias: string)
    requires IsCountAlias(key, alias) && key in fields
    ensures key != "added_files_count" ==>
      Aliased(Renamed(fields, key, alias), "added_files_count", "added_data_files_count", ReadInt, 0) ==
      Aliased(fields, "added_files_count", "added_data_files_count", ReadInt, 0)
    ensures key != "existing_files_count" ==>
      Aliased(Renamed(fields, key, alias), "existing_files_count", "existing_data_files_count", ReadInt, 0) ==
      Aliased(fields, "existing_files_count", "existing_data_files_count", ReadInt, 0)
    ensures key != "deleted_files_count" ==>
      Aliased(Renamed(fields, key, alias), "deleted_files_count", "deleted_data_files_count", ReadInt, 0) ==
      Aliased(fields, "deleted_files_count", "deleted_data_files_count", ReadInt, 0)
  {
    if key != "added_files_count" {
      AliasedElsewhere(fields, key, alias, "added_files_count", "added_data_files_count", ReadInt, 0);
    }
    if key != "existing_files_count" {
      AliasedElsewhere(fields, key, alias, "existing_files_count", "existing_data_files_count", ReadInt, 0);
    }
    if key != "deleted_files_count" {
      AliasedElsewhere(fields, key, alias, "deleted_files_count", "deleted_data_files_count", ReadInt, 0);
    }
  }

  lemma AliasReadsAsNameV1(fields: Fields, key: string, alias: string)
    requires IsCountAlias(key, alias) && key in fields && alias !in fields
    ensures ReadManifestListV1(Record(Renamed(fields, key, alias))) == ReadManifestListV1(Record(fields))
  {
    var renamed := Renamed(fields, key, alias);
    ReadsElsewhere(fields, key, alias, "manifest_path", ReadString, "");
    ReadsElsewhere(fields, key, alias, "manifest_length", ReadLong, 0);
    ReadsElsewhere(fields, key, alias, "partition_spec_id", ReadInt, 0);
    ReadsElsewhere(fields, key, alias, "added_snapshot_id", ReadLong, 0);
    OtherCountsV1(fields, key, alias);
    AliasedMoved(fields, key, alias, ReadOptInt, None);
    ReadsElsewhere(fields, key, alias, "added_rows_count", ReadOptLong, None);
    ReadsElsewhere(fields, key, alias, "existing_rows_count", ReadOptLong, None);
    ReadsElsewhere(fields, key, alias, "deleted_rows_count", ReadOptLong, None);
    ReadsElsewhere(fields, key, alias, "partitions", ReadOptSummaries, None);
    ReadsElsewhere(fields, key, alias, "key_metadata", ReadOptBytes, None);
    CongruentV1(renamed, fields);
  }

  /** The two counts that were not moved read alike. */
  lemma OtherCountsV1(fields: Fields, key: string, alias: string)
    requires IsCountAlias(key, alias) && key in fields
    ensures key != "added_files_count" ==>
      Aliased(Renamed(fields, key, alias), "added_files_count", "added_data_files_count", ReadOptInt, None) ==
      Aliased(fields, "added_files_count", "added_data_files_count", ReadOptInt, None)
    ensures key != "existing_files_count" ==>
      Aliased(Renamed(fields, key, alias), "existing_files_count", "existing_data_files_count", ReadOptInt, None) ==
      Aliased(fields, "existing_files_count", "existing_data_files_count", ReadOptInt, None)
    ensures key != "deleted_files_count" ==>
      Aliased(Renamed(fields, key, alias), "deleted_files_count", "deleted_data_files_count", ReadOptInt, None) ==
      Aliased(fields, "deleted_files_count", "deleted_data_files_count", ReadOptInt, None)
  {
    if key != "added_files_count" {
      AliasedElsewhere(fields, key, alias, "added_files_count", "added_data_files_count", ReadOptInt, None);
    }
    if key != "existing_files_count" {
      AliasedElsewhere(fields, key, alias, "existing_files_count", "existing_data_files_count", ReadOptInt, None);
    }
    if key != "deleted_files_count" {
      AliasedElsewhere(fields, key, alias, "deleted_files_count", "deleted_data_files_count", ReadOptInt, None);
    }
  }

  /** A count given under both its name and its alias is refused. */
  lemma BothSpellingsRejected(fields: Fields, key: string, alias: string)
    requires IsCountAlias(key, alias) && key in fields && alias in fields
    ensures ReadManifestListV2(Record(fields)).Err?
    ensures ReadManifestListV1(Record(fields)).Err?
  {
  }

  // ----- reading a v1 entry as v2 -----

  function OrZero<T>(x: Option<T>, zero: T): T
  {
    if x.Some? then x.value else zero
  }

  /** What a v2 reader makes of a v1 entry: content Data, sequence numbers 0, and each absent
      count 0. */
  function Upgrade(m: ManifestListV1): (r: ManifestListV2)
    ensures r.content == Data && r.sequenceNumber == 0 && r.minSequenceNumber == 0
    ensures (r.manifestPath, r.manifestLength, r.partitionSpecId, r.addedSnapshotId) ==
      (m.manifestPath, m.manifestLength, m.partitionSpecId, m.addedSnapshotId)
    ensures r.partitions == m.partitions && r.keyMetadata == m.keyMetadata
    ensures m.addedFilesCount.Some? ==> r.addedFilesCount == m.addedFilesCount.value
    ensures m.existingFilesCount.Some? ==> r.existingFilesCount == m.existingFilesCount.value
    ensures m.deletedFilesCount.Some? ==> r.deletedFilesCount == m.deletedFilesCount.value
    ensures m.addedRowsCount.Some? ==> r.addedRowsCount == m.addedRowsCount.value
    ensures m.existingRowsCount.Some? ==> r.existingRowsCount == m.existingRowsCount.value
    ensures m.deletedRowsCount.Some? ==> r.deletedRowsCount == m.deletedRowsCount.value
    ensures (m.addedFilesCount.None? ==> r.addedFilesCount == 0) &&
      (m.existingFilesCount.None? ==> r.existingFilesCount == 0) &&
      (m.deletedFilesCount.None? ==> r.deletedFilesCount == 0)
    ensures (m.addedRowsCount.None? ==> r.addedRowsCount == 0) &&
      (m.existingRowsCount.None? ==> r.existingRowsCount == 0) &&
      (m.deletedRowsCount.None? ==> r.deletedRowsCount == 0)
  {
    ManifestListV2(m.manifestPath, m.manifestLength, m.partitionSpecId, Data, 0, 0, m.addedSnapshotId,
      OrZero(m.addedFilesCount, 0), OrZero(m.existingFilesCount, 0), OrZero(m.deletedFilesCount, 0),
      OrZero(m.addedRowsCount, 0), OrZero(m.existingRowsCount, 0), OrZero(m.deletedRowsCount, 0),
      m.partitions, m.keyMetadata)
  }

  /** A record a v1 writer could have produced: none of the v2-only fields, and no count that
      is present but null (a v2 reader has no null for a count). */
  predicate IsV1Record(fields: Fields)
  {
    "content" !in fields && "sequence_number" !in fields && "min_sequence_number" !in fields &&
    NotNullIfPresent(fields, "added_files_count") && NotNullIfPresent(fields, "added_data_files_count") &&
    NotNullIfPresent(fields, "existing_files_count") && NotNullIfPresent(fields, "existing_data_files_count") &&
    NotNullIfPresent(fields, "deleted_files_count") && NotNullIfPresent(fields, "deleted_data_files_count") &&
    NotNullIfPresent(fields, "added_rows_count") && NotNullIfPresent(fields, "existing_rows_count") &&
    NotNullIfPresent(fields, "deleted_rows_count")
  }

  predicate NotNullIfPresent(fields: Fields, key: string)
  {
    key in fields ==> !IsNull(fields[key])
  }

  /** A count read as optional and as defaulting to 0 agree when it is not null. */
  lemma CountUpgrade(fields: Fields, key: string, alias: string)
    requires Aliased(fields, key, alias, ReadOptInt, None).Ok?
    requires key in fields ==> !IsNull(fields[key])
    requires alias in fields ==> !IsNull(fields[alias])
    ensures Aliased(fields, key, alias, ReadInt, 0) == Ok(OrZero(Aliased(fields, key, alias, ReadOptInt, None).value, 0))
  {
  }

  lemma RowsUpgrade(fields: Fields, key: string)
    requires Defaulted(fields, key, ReadOptLong, None).Ok?
    requires key in fields ==> !IsNull(fields[key])
    ensures Defaulted(fields, key, ReadLong, 0) == Ok(OrZero(Defaulted(fields, key, ReadOptLong, None).value, 0))
  {
  }

  lemma UpgradeIds(fields: Fields, m: ManifestListV1)
    requires StepsV1Ids(fields, m) && IsV1Record(fields)
    ensures StepsV2Ids(fields, Upgrade(m))
  {
  }

  lemma UpgradeCounts(fields: Fields, m: ManifestListV1)
    requires StepsV1Counts(fields, m) && IsV1Record(fields)
    ensures StepsV2Counts(fields, Upgrade(m))
  {
    UpgradeFileCounts(fields, m);
    UpgradeRowCounts(fields, m);
  }

  lemma UpgradeFileCounts(fields: Fields, m: ManifestListV1)
    requires StepsV1Counts(fields, m) && IsV1Record(fields)
    ensures Aliased(fields, "added_files_count", "added_data_files_count", ReadInt, 0) == Ok(Upgrade(m).addedFilesCount)
    ensures Aliased(fields, "existing_files_count", "existing_data_files_count", ReadInt, 0) == Ok(Upgrade(m).existingFilesCount)
    ensures Aliased(fields, "deleted_files_count", "deleted_data_files_count", ReadInt, 0) == Ok(Upgrade(m).deletedFilesCount)
  {
    CountUpgrade(fields, "added_files_count", "added_data_files_count");
    CountUpgrade(fields, "existing_files_count", "existing_data_files_count");
    CountUpgrade(fields, "deleted_files_count", "deleted_data_files_count");
  }

  lemma UpgradeRowCounts(fields: Fields, m: ManifestListV1)
    requires StepsV1Counts(fields, m) && IsV1Record(fields)
    ensures Defaulted(fields, "added_rows_count", ReadLong, 0) == Ok(Upgrade(m).addedRowsCount)
    ensures Defaulted(fields, "existing_rows_count", ReadLong, 0) == Ok(Upgrade(m).existingRowsCount)
    ensures Defaulted(fields, "deleted_rows_count", ReadLong, 0) == Ok(Upgrade(m).deletedRowsCount)
  {
    RowsUpgrade(fields, "added_rows_count");
    RowsUpgrade(fields, "existing_rows_count");
    RowsUpgrade(fields, "deleted_rows_count");
  }

  lemma UpgradeRest(fields: Fields, m: ManifestListV1)
    requires StepsV1Rest(fields, m)
    ensures StepsV2Rest(fields, Upgrade(m))
  {
  }

  /** The v1 schema lets a count be null, but the v2 reader has no null for a count: a record
      holding a null count, under any of its spellings, does not read as a v2 entry. */
  lemma NullCountRejectedV2(fields: Fields, key: string)
    requires key in {"added_files_count", "added_data_files_count", "existing_files_count",
      "existing_data_files_count", "deleted_files_count", "deleted_data_files_count",
      "added_rows_count", "existing_rows_count", "deleted_rows_count"}
    requires key in fields && IsNull(fields[key])
    ensures ReadManifestListV2(Record(fields)).Err?
  {
    if ReadManifestListV2(Record(fields)).Ok? {
    }
  }

  /** Reading a v1 record into the v2 shape gives its v1 reading with the v2 defaults filled in. */
  lemma ReadV1AsV2(fields: Fields)
    requires IsV1Record(fields) && ReadManifestListV1(Record(fields)).Ok?
    ensures ReadManifestListV2(Record(fields)) == Ok(Upgrade(ReadManifestListV1(Record(fields)).value))
  {
    var m := ReadManifestListV1(Record(fields)).value;
    UpgradeIds(fields, m);
    UpgradeCounts(fields, m);
    UpgradeRest(fields, m);
    ChainV2(fields, Upgrade(m));
  }

  /** A v1 record as Spark writes it: the file counts under their alias names, every
      optional field as a union branch. */
  function SparkV1Record(path: string): Fields
  {
    map[
      "manifest_path" := Str(path),
      "manifest_length" := Long(7827),
      "partition_spec_id" := Int(0),
      "added_snapshot_id" := Long(9164160847201777787),
      "added_data_files_count" := Union(1, Int(2)),
      "existing_data_files_count" := Union(1, Int(0)),
      "deleted_data_files_count" := Union(1, Int(0)),
      "added_rows_count" := Union(1, Long(2)),
      "existing_rows_count" := Union(1, Long(0)),
      "deleted_rows_count" := Union(1, Long(0)),
      "partitions" := Union(1, Array([])),
      "key_metadata" := Union(0, Null)]
  }

  lemma SparkV1Ids(path: string)
    ensures var fields := SparkV1Record(path);
      Required(fields, "manifest_path", ReadString) == Ok(path) &&
      Required(fields, "manifest_length", ReadLong) == Ok(7827) &&
      Required(fields, "partition_spec_id", ReadInt) == Ok(0) &&
      Required(fields, "added_snapshot_id", ReadLong) == Ok(9164160847201777787)
  {
  }

  lemma SparkV1Absent(path: string)
    ensures var fields := SparkV1Record(path);
      "content" !in fields && "sequence_number" !in fields && "min_sequence_number" !in fields
    ensures NoMainCountNames(SparkV1Record(path))
  {
  }

  lemma SparkV1NotNull(path: string)
    ensures var fields := SparkV1Record(path);
      NotNullIfPresent(fields, "added_data_files_count") && NotNullIfPresent(fields, "existing_data_files_count") &&
      NotNullIfPresent(fields, "deleted_data_files_count") && NotNullIfPresent(fields, "added_rows_count") &&
      NotNullIfPresent(fields, "existing_rows_count") && NotNullIfPresent(fields, "deleted_rows_count")
  {
  }

  predicate NoMainCountNames(fields: Fields)
  {
    "added_files_count" !in fields && "existing_files_count" !in fields && "deleted_files_count" !in fields
  }

  lemma SparkV1Counts(path: string)
    ensures var fields := SparkV1Record(path);
      Aliased(fields, "added_files_count", "added_data_files_count", ReadOptInt, None) == Ok(Some(2)) &&
      Aliased(fields, "existing_files_count", "existing_data_files_count", ReadOptInt, None) == Ok(Some(0)) &&
      Aliased(fields, "deleted_files_count", "deleted_data_files_count", ReadOptInt, None) == Ok(Some(0))
  {
    SparkV1Absent(path);
  }

  lemma SparkV1Rest(path: string)
    ensures var fields := SparkV1Record(path);
      Defaulted(fields, "added_rows_count", ReadOptLong, None) == Ok(Some(2)) &&
      Defaulted(fields, "existing_rows_count", ReadOptLong, None) == Ok(Some(0)) &&
      Defaulted(fields, "deleted_rows_count", ReadOptLong, None) == Ok(Some(0)) &&
      Defaulted(fields, "partitions", ReadOptSummaries, None) == Ok(Some([])) &&
      Defaulted(fields, "key_metadata", ReadOptBytes, None) == Ok(None)
  {
  }

  /** The Spark-written v1 record reads as a v1 entry with every count present, and as a v2
      entry with content Data and sequence numbers 0. */
  lemma SparkV1Example(path: string)
    ensures ReadManifestListV1(Record(SparkV1Record(path))) == Ok(ManifestListV1(path, 7827, 0,
      9164160847201777787, Some(2), Some(0), Some(0), Some(2), Some(0), Some(0), Some([]), None))
    ensures ReadManifestListV2(Record(SparkV1Record(path))) == Ok(ManifestListV2(path, 7827, 0, Data, 0, 0,
      9164160847201777787, 2, 0, 0, 2, 0, 0, Some([]), None))
  {
    var fields := SparkV1Record(path);
    SparkV1Ids(path);
    SparkV1Counts(path);
    SparkV1Rest(path);
    ChainV1(fields, ManifestListV1(path, 7827, 0,
      9164160847201777787, Some(2), Some(0), Some(0), Some(2), Some(0), Some(0), Some([]), None));
    SparkV1Absent(path);
    SparkV1NotNull(path);
    ReadV1AsV2(fields);
  }

  /** The Spark record with its added row count null, as the v1 schema allows. */
  function SparkNullRowsRecord(path: string): Fields
  {
    SparkV1Record(path)["added_rows_count" := Union(0, Null)]
  }

  /** The v1 reader takes the null count as absent. */
  lemma NullRowCountReadsV1(path: string)
    ensures ReadManifestListV1(Record(SparkNullRowsRecord(path))) ==
      Ok(ManifestListV1(path, 7827, 0, 9164160847201777787, Some(2), Some(0), Some(0), None, Some(0), Some(0), Some([]), None))
  {
    var fields := SparkNullRowsRecord(path);
    SparkV1Ids(path);
    SparkV1Counts(path);
    SparkV1Rest(path);
    assert Defaulted(fields, "added_rows_count", ReadOptLong, None) == Ok(None);
    ChainV1(fields, ManifestListV1(path, 7827, 0,
      9164160847201777787, Some(2), Some(0), Some(0), None, Some(0), Some(0), Some([]), None));
  }

  /** The v2 reader refuses the same record. */
  lemma NullRowCountRefusedV2(path: string)
    ensures ReadManifestListV2(Record(SparkNullRowsRecord(path))).Err?
  {
    NullCountRejectedV2(SparkNullRowsRecord(path), "added_rows_count");
  }
}
