/** Iceberg schemas (src/iceberg/spec/schema.rs): the primitive type names with their
    parameterised forms `fixed[N]` and `decimal(P, S)`, and the recursive struct, list and
    map types as JSON objects. */
module SchemaCodec {
  import opened Wrappers
  import opened JsonValue
  import opened NumberText

  /** Decimal precision is at most 38 digits. */
  const MAX_DECIMAL_PRECISION := 38

  datatype PrimitiveType =
    | Boolean
    | Int
    | Long
    | Float
    | Double
    | Decimal(precision: U8, scale: U32)
    | Date
    | Time
    | Timestamp
    | Timestamptz
    | String
    | Uuid
    | Fixed(length: U32)
    | Binary

  datatype IcebergType =
    | Primitive(primitive: PrimitiveType)
    | Struct(structType: StructType)
    | List(listType: ListType)
    | Map(mapType: MapType)

  datatype StructType = StructType(fields: seq<StructField>)

  datatype StructField = StructField(
    id: I32,
    name: string,
    required: bool,
    fieldType: IcebergType,
    doc: Option<string>,
    initialDefault: Option<string>,
    writeDefault: Option<string>)

  datatype ListType = ListType(elementId: I32, elementRequired: bool, element: IcebergType)

  datatype MapType = MapType(keyId: I32, key: IcebergType, valueId: I32, valueRequired: bool, value: IcebergType)

  datatype SchemaV2 = SchemaV2(schemaId: I32, identifierFieldIds: Option<seq<I32>>, schema: StructType)

  datatype SchemaV1 = SchemaV1(schemaId: Option<I32>, identifierFieldIds: Option<seq<I32>>, schema: StructType)

  // ----- the primitive type names -----

  /** A primitive is representable when its decimal precision, if any, is at most 38. */
  predicate ValidPrimitive(p: PrimitiveType)
  {
    p.Decimal? ==> p.precision <= MAX_DECIMAL_PRECISION
  }

  /** The lowercase variant names the derived codec uses. */
  function VariantName(p: PrimitiveType): string
  {
    match p
    case Boolean => "boolean"
    case Int => "int"
    case Long => "long"
    case Float => "float"
    case Double => "double"
    case Decimal(_, _) => "decimal"
    case Date => "date"
    case Time => "time"
    case Timestamp => "timestamp"
    case Timestamptz => "timestamptz"
    case String => "string"
    case Uuid => "uuid"
    case Fixed(_) => "fixed"
    case Binary => "binary"
  }

  /** The derived decoder: a unit variant by its lowercase name. */
  function DecodePlain(s: string): Result<PrimitiveType>
  {
    if s == "boolean" then Ok(Boolean)
    else if s == "int" then Ok(Int)
    else if s == "long" then Ok(Long)
    else if s == "float" then Ok(Float)
    else if s == "double" then Ok(Double)
    else if s == "date" then Ok(Date)
    else if s == "time" then Ok(Time)
    else if s == "timestamp" then Ok(Timestamp)
    else if s == "timestamptz" then Ok(Timestamptz)
    else if s == "string" then Ok(String)
    else if s == "uuid" then Ok(Uuid)
    else if s == "binary" then Ok(Binary)
    else Err(UnknownVariant(s))
  }

  /** `try_deserialize_fixed_type`: `^fixed\[(\d+)]$` with the length read as a u32. */
  function ParseFixed(s: string): (r: Result<PrimitiveType>)
    ensures r.Ok? <==> exists d :: Bracketed("fixed", s, d) && DigitsValue(d) < 0x1_0000_0000
    ensures r.Ok? ==> r.value.Fixed? && exists d :: Bracketed("fixed", s, d) && r.value.length == DigitsValue(d)
  {
    var n :- ParseBracketed("fixed", s);
    Ok(Fixed(n))
  }

  // ----- `decimal(P, S)`: the grammar ^decimal\((\d+)\s*,\s*(\d+)\)$ -----

  predicate DigitsBetween(s: string, lo: nat, hi: nat)
    requires lo <= hi <= |s|
  {
    forall k :: lo <= k < hi ==> IsDigit(s[k])
  }

  predicate SpacesBetween(s: string, lo: nat, hi: nat)
    requires lo <= hi <= |s|
  {
    forall k :: lo <= k < hi ==> IsSpace(s[k])
  }

  /** `s` matches the decimal grammar with the precision digits at `s[8..i]`, whitespace up to
      the comma at `j`, whitespace from `j + 1` to `m`, and the scale digits from `m` up to
      the closing parenthesis. */
  predicate DecimalMatch(s: string, i: nat, j: nat, m: nat)
  {
    8 < i <= j < m < |s| - 1 && s[..8] == "decimal(" && s[|s| - 1] == ')' &&
    DigitsBetween(s, 8, i) && SpacesBetween(s, i, j) && s[j] == ',' &&
    SpacesBetween(s, j + 1, m) && DigitsBetween(s, m, |s| - 1)
  }

  /** End of the maximal run of digits starting at `k`. */
  function DigitEnd(s: string, k: nat): (e: nat)
    requires k <= |s|
    ensures k <= e <= |s| && DigitsBetween(s, k, e) && (e < |s| ==> !IsDigit(s[e]))
    decreases |s| - k
  {
    if k < |s| && IsDigit(s[k]) then DigitEnd(s, k + 1) else k
  }

  /** End of the maximal run of whitespace starting at `k`. */
  function SpaceEnd(s: string, k: nat): (e: nat)
    requires k <= |s|
    ensures k <= e <= |s| && SpacesBetween(s, k, e) && (e < |s| ==> !IsSpace(s[e]))
    decreases |s| - k
  {
    if k < |s| && IsSpace(s[k]) then SpaceEnd(s, k + 1) else k
  }

  /** A run of digits that ends at a non-digit is the maximal run. */
  lemma {:induction false} DigitEndIs(s: string, k: nat, e: nat)
    requires k <= e <= |s| && DigitsBetween(s, k, e) && (e < |s| ==> !IsDigit(s[e]))
    ensures DigitEnd(s, k) == e
    decreases e - k
  {
    if k < e {
      DigitEndIs(s, k + 1, e);
    }
  }

  /** A run of whitespace that ends at a non-space is the maximal run. */
  lemma {:induction false} SpaceEndIs(s: string, k: nat, e: nat)
    requires k <= e <= |s| && SpacesBetween(s, k, e) && (e < |s| ==> !IsSpace(s[e]))
    ensures SpaceEnd(s, k) == e
    decreases e - k
  {
    if k < e {
      SpaceEndIs(s, k + 1, e);
    }
  }

  /** Finds the match positions by reading maximal runs, as the regex must: digits cannot
      be spaces or the comma, so every run has only one possible end. */
  function ScanDecimal(s: string): Option<(nat, nat, nat)>
  {
    if 8 < |s| && s[..8] == "decimal(" && s[|s| - 1] == ')' then
      var i := DigitEnd(s, 8);
      var j := SpaceEnd(s, i);
      if 8 < i && j < |s| - 1 && s[j] == ',' then
        var m := SpaceEnd(s, j + 1);
        if m < |s| - 1 && DigitEnd(s, m) == |s| - 1 then Some((i, j, m)) else None
      else None
    else None
  }

  lemma ScanSound(s: string)
    requires ScanDecimal(s).Some?
    ensures DecimalMatch(s, ScanDecimal(s).value.0, ScanDecimal(s).value.1, ScanDecimal(s).value.2)
  {
  }

  /** The grammar matches in at most one way, and the scan finds it. */
  lemma ScanComplete(s: string, i: nat, j: nat, m: nat)
    requires DecimalMatch(s, i, j, m)
    ensures ScanDecimal(s) == Some((i, j, m))
  {
    if IsDigit(s[i]) {
      DigitIsNotSpace(s[i]);
    }
    DigitEndIs(s, 8, i);
    SpaceEndIs(s, i, j);
    DigitIsNotSpace(s[m]);
    SpaceEndIs(s, j + 1, m);
    DigitEndIs(s, m, |s| - 1);
  }

  /** `try_deserialize_decimal_type`: the precision is read as a u8 and must be at most 38,
      the scale is read as a u32; a string outside the grammar is a format error. */
  function ParseDecimal(s: string): (r: Result<PrimitiveType>)
    ensures r.Ok? ==> r.value.Decimal? && r.value.precision <= MAX_DECIMAL_PRECISION
  {
    match ScanDecimal(s)
    case None => Err(WrongFormat(s))
    case Some((i, j, m)) =>
      ScanSound(s);
      var precision := DigitsValue(s[8..i]);
      if precision >= 0x100 then Err(InvalidNumber(s))
      else if precision > MAX_DECIMAL_PRECISION then Err(PrecisionTooLarge(s))
      else
        var scale :- ParseU32(s[m..|s| - 1], s);
        Ok(Decimal(precision, scale))
  }

  /** A string outside the grammar is a format error. */
  lemma DecimalWrongFormat(s: string)
    requires forall i: nat, j: nat, m: nat :: !DecimalMatch(s, i, j, m)
    ensures ParseDecimal(s) == Err(WrongFormat(s))
  {
    if ScanDecimal(s).Some? {
      ScanSound(s);
    }
  }

  /** Inside the grammar, the result depends only on the two numbers, checked in order:
      a precision that is not a u8, a precision above 38, a scale that is not a u32. */
  lemma DecimalOutcome(s: string, i: nat, j: nat, m: nat)
    requires DecimalMatch(s, i, j, m)
    ensures 0x100 <= DigitsValue(s[8..i]) ==> ParseDecimal(s) == Err(InvalidNumber(s))
    ensures MAX_DECIMAL_PRECISION < DigitsValue(s[8..i]) < 0x100 ==> ParseDecimal(s) == Err(PrecisionTooLarge(s))
    ensures DigitsValue(s[8..i]) <= MAX_DECIMAL_PRECISION && 0x1_0000_0000 <= DigitsValue(s[m..|s| - 1]) ==>
      ParseDecimal(s) == Err(InvalidNumber(s))
    ensures DigitsValue(s[8..i]) <= MAX_DECIMAL_PRECISION && DigitsValue(s[m..|s| - 1]) < 0x1_0000_0000 ==>
      ParseDecimal(s).Ok? && ParseDecimal(s).value.precision == DigitsValue(s[8..i]) &&
      ParseDecimal(s).value.scale == DigitsValue(s[m..|s| - 1])
  {
    ScanComplete(s, i, j, m);
  }

  /** So the decoder accepts exactly the strings in the grammar whose precision is at most 38
      and whose scale fits a u32. */
  lemma DecimalAccepts(s: string)
    ensures ParseDecimal(s).Ok? <==> exists i: nat, j: nat, m: nat :: (DecimalMatch(s, i, j, m) &&
      DigitsValue(s[8..i]) <= MAX_DECIMAL_PRECISION && DigitsValue(s[m..|s| - 1]) < 0x1_0000_0000)
  {
    match ScanDecimal(s)
    case None =>
      if exists i: nat, j: nat, m: nat :: DecimalMatch(s, i, j, m) {
        var i: nat, j: nat, m: nat :| DecimalMatch(s, i, j, m);
        ScanComplete(s, i, j, m);
        assert false;
      }
    case Some((i, j, m)) =>
      ScanSound(s);
      DecimalOutcome(s, i, j, m);
      forall i': nat, j': nat, m': nat | DecimalMatch(s, i', j', m') ensures i' == i && m' == m {
        ScanComplete(s, i', j', m');
      }
  }

  /** The first two letters of a name with either parameterised prefix, which set it apart
      from the other prefix and from the plain names. */
  lemma PrefixLetters(s: string)
    ensures StartsWith(s, "fixed") ==> s[0] == 'f' && s[1] == 'i'
    ensures StartsWith(s, "decimal") ==> s[0] == 'd' && s[1] == 'e'
  {
    if StartsWith(s, "fixed") {
      assert s[0] == s[..5][0] && s[1] == s[..5][1];
    }
    if StartsWith(s, "decimal") {
      assert s[0] == s[..7][0] && s[1] == s[..7][1];
    }
  }

  /** `PrimitiveType::deserialize`: a name starting with `fixed` or `decimal` goes to its own
      grammar only; every other name is looked up among the twelve plain variants. */
  function DecodePrimitive(s: string): (r: Result<PrimitiveType>)
    ensures r.Ok? ==> ValidPrimitive(r.value)
    ensures StartsWith(s, "fixed") && r.Ok? ==> r.value.Fixed?
    ensures StartsWith(s, "decimal") && r.Ok? ==> r.value.Decimal?
    ensures r.Ok? && !r.value.Fixed? && !r.value.Decimal? ==> s == VariantName(r.value)
  {
    PrefixLetters(s);
    if StartsWith(s, "fixed") then ParseFixed(s)
    else if StartsWith(s, "decimal") then
      ParseDecimal(s)
    else DecodePlain(s)
  }

  /** `PrimitiveType::serialize`: `fixed[N]`, `decimal(P, S)`, or the lowercase name. */
  function EncodePrimitive(p: PrimitiveType): string
  {
    match p
    case Fixed(n) => FormatBracketed("fixed", n)
    case Decimal(precision, scale) => "decimal(" + NatToDigits(precision) + "," + " " + NatToDigits(scale) + ")"
    case _ => VariantName(p)
  }

  /** `decimal(P,<w>S)` is in the decimal grammar, with P and S as its two digit runs. */
  lemma DecimalTextMatch(s: string, p: string, w: string, sc: string)
    requires s == "decimal(" + p + "," + w + sc + ")"
    requires 0 < |p| && AllDigits(p) && AllSpace(w) && 0 < |sc| && AllDigits(sc)
    ensures DecimalMatch(s, 8 + |p|, 8 + |p|, 9 + |p| + |w|)
    ensures s[8..8 + |p|] == p && s[9 + |p| + |w|..|s| - 1] == sc
  {
    var i := 8 + |p|;
    var m := 9 + |p| + |w|;
    assert s[..8] == "decimal(";
    assert s[8..i] == p;
    assert s[i + 1..m] == w;
    assert s[m..|s| - 1] == sc;
    assert s[i] == ',';
  }

  /** A string that opens with `decimal(` goes to the decimal grammar. */
  lemma DecimalDispatch(s: string)
    requires 8 <= |s| && s[..8] == "decimal("
    ensures DecodePrimitive(s) == ParseDecimal(s)
  {
    PrefixLetters(s);
    assert s[1] == s[..8][1];
    assert s[..7] == s[..8][..7];
    assert StartsWith(s, "decimal");
  }

  /** What the decoder makes of `decimal(P,<w>S)`: the checks on the two numbers, in order. */
  lemma DecodeDecimalText(s: string, p: string, w: string, sc: string)
    requires s == "decimal(" + p + "," + w + sc + ")"
    requires 0 < |p| && AllDigits(p) && AllSpace(w) && 0 < |sc| && AllDigits(sc)
    ensures 0x100 <= DigitsValue(p) ==> DecodePrimitive(s) == Err(InvalidNumber(s))
    ensures MAX_DECIMAL_PRECISION < DigitsValue(p) < 0x100 ==> DecodePrimitive(s) == Err(PrecisionTooLarge(s))
    ensures DigitsValue(p) <= MAX_DECIMAL_PRECISION && 0x1_0000_0000 <= DigitsValue(sc) ==>
      DecodePrimitive(s) == Err(InvalidNumber(s))
    ensures DigitsValue(p) <= MAX_DECIMAL_PRECISION && DigitsValue(sc) < 0x1_0000_0000 ==>
      DecodePrimitive(s) == Ok(Decimal(DigitsValue(p), DigitsValue(sc)))
  {
    DecimalTextMatch(s, p, w, sc);
    DecimalOutcome(s, 8 + |p|, 8 + |p|, 9 + |p| + |w|);
    DecimalDispatch(s);
  }

  /** Every representable primitive survives encode then decode. */
  lemma PrimitiveRoundTrip(p: PrimitiveType)
    requires ValidPrimitive(p)
    ensures DecodePrimitive(EncodePrimitive(p)) == Ok(p)
  {
    if p.Fixed? {
      FixedRoundTrip(p.length);
    } else if p.Decimal? {
      DecimalRoundTrip(p.precision, p.scale);
    } else {
      PlainRoundTrip(p);
    }
  }

  lemma FixedRoundTrip(n: U32)
    ensures DecodePrimitive(EncodePrimitive(Fixed(n))) == Ok(Fixed(n))
  {
    var s := EncodePrimitive(Fixed(n));
    assert s == FormatBracketed("fixed", n);
    BracketedRoundTrip("fixed", n);
    assert StartsWith(s, "fixed");
    assert ParseFixed(s) == Ok(Fixed(n));
  }

  lemma DecimalRoundTrip(precision: U8, scale: U32)
    requires precision <= MAX_DECIMAL_PRECISION
    ensures DecodePrimitive(EncodePrimitive(Decimal(precision, scale))) == Ok(Decimal(precision, scale))
  {
    assert AllSpace(" ") by { assert IsSpace(' '); }
    DecodeDecimalText(EncodePrimitive(Decimal(precision, scale)), NatToDigits(precision), " ", NatToDigits(scale));
  }

  lemma PlainRoundTrip(p: PrimitiveType)
    requires !p.Fixed? && !p.Decimal?
    ensures DecodePrimitive(VariantName(p)) == Ok(p)
  {
    PrefixLetters(VariantName(p));
  }

  /** A decimal whose precision exceeds 38 encodes, but its text does not decode. */
  lemma WidePrecisionRejected(precision: U8, scale: U32)
    requires MAX_DECIMAL_PRECISION < precision
    ensures DecodePrimitive(EncodePrimitive(Decimal(precision, scale))) == Err(PrecisionTooLarge(EncodePrimitive(Decimal(precision, scale))))
  {
    assert AllSpace(" ") by { assert IsSpace(' '); }
    DecodeDecimalText(EncodePrimitive(Decimal(precision, scale)), NatToDigits(precision), " ", NatToDigits(scale));
  }

  /** The names that decode to an unparameterised variant are exactly the twelve lowercase names. */
  lemma PlainNames(s: string)
    ensures DecodePrimitive(s).Ok? && !DecodePrimitive(s).value.Fixed? && !DecodePrimitive(s).value.Decimal? <==>
      s in {"boolean", "int", "long", "float", "double", "date", "time", "timestamp", "timestamptz", "string", "uuid", "binary"}
  {
    var r := DecodePrimitive(s);
    if r.Ok? && !r.value.Fixed? && !r.value.Decimal? {
      assert s == VariantName(r.value);
    }
    if s in {"boolean", "int", "long", "float", "double", "date", "time", "timestamp", "timestamptz", "string", "uuid", "binary"} {
      PrefixLetters(s);
    }
  }

  /** `fixed` needs square brackets around a digit run. */
  lemma FixedRejects()
    ensures DecodePrimitive("fixed(1)").Err? && DecodePrimitive("fixed[a]").Err?
  {
    assert StartsWith("fixed(1)", "fixed") && StartsWith("fixed[a]", "fixed");
    assert "fixed(1)"[..6] != "fixed[" by { assert "fixed(1)"[5] == '('; }
    assert !IsDigit("fixed[a]"[6]);
  }

  /** A digit run in square brackets is the length. */
  lemma FixedAccepts()
    ensures DecodePrimitive("fixed[1]") == Ok(Fixed(1)) && DecodePrimitive("fixed[400]") == Ok(Fixed(400))
  {
    assert StartsWith("fixed[1]", "fixed") && StartsWith("fixed[400]", "fixed");
    OneDigit("1", 1);
    BracketedValue("fixed", "fixed[1]", "1");
    ThreeDigits("400", 400);
    BracketedValue("fixed", "fixed[400]", "400");
  }

  /** No whitespace is needed around the comma. */
  lemma DecimalWithoutSpace()
    ensures DecodePrimitive("decimal(30,20)") == Ok(Decimal(30, 20))
  {
    TwoDigits("30", 30);
    TwoDigits("20", 20);
    assert "decimal(30,20)" == "decimal(" + "30" + "," + "" + "20" + ")";
    DecodeDecimalText("decimal(30,20)", "30", "", "20");
  }

  /** Whitespace after the comma is allowed. */
  lemma DecimalWithSpace()
    ensures DecodePrimitive("decimal(30, 20)") == Ok(Decimal(30, 20))
  {
    TwoDigits("30", 30);
    TwoDigits("20", 20);
    assert AllSpace(" ") by { assert IsSpace(' '); }
    assert "decimal(30, 20)" == "decimal(" + "30" + "," + " " + "20" + ")";
    DecodeDecimalText("decimal(30, 20)", "30", " ", "20");
  }

  /** Precision 38 is the largest accepted. */
  lemma DecimalMaxPrecision()
    ensures DecodePrimitive("decimal(38, 2)") == Ok(Decimal(38, 2))
  {
    TwoDigits("38", 38);
    OneDigit("2", 2);
    assert AllSpace(" ") by { assert IsSpace(' '); }
    assert "decimal(38, 2)" == "decimal(" + "38" + "," + " " + "2" + ")";
    DecodeDecimalText("decimal(38, 2)", "38", " ", "2");
  }

  /** The scale is not compared with the precision. */
  lemma DecimalScaleAbovePrecision()
    ensures DecodePrimitive("decimal(1, 20)") == Ok(Decimal(1, 20))
  {
    OneDigit("1", 1);
    TwoDigits("20", 20);
    assert AllSpace(" ") by { assert IsSpace(' '); }
    assert "decimal(1, 20)" == "decimal(" + "1" + "," + " " + "20" + ")";
    DecodeDecimalText("decimal(1, 20)", "1", " ", "20");
  }

  /** Precision 39 is rejected. */
  lemma DecimalPrecision39()
    ensures DecodePrimitive("decimal(39, 2)") == Err(PrecisionTooLarge("decimal(39, 2)"))
  {
    TwoDigits("39", 39);
    OneDigit("2", 2);
    assert AllSpace(" ") by { assert IsSpace(' '); }
    assert "decimal(39, 2)" == "decimal(" + "39" + "," + " " + "2" + ")";
    DecodeDecimalText("decimal(39, 2)", "39", " ", "2");
  }

  /** Malformed decimal names are rejected. */
  lemma DecimalRejects()
    ensures DecodePrimitive("decimal(1)").Err? && DecodePrimitive("decimal[40,2]").Err?
  {
    var s := "decimal(1)";
    PrefixLetters(s);
    assert StartsWith(s, "decimal");
    assert DigitEnd(s, 8) == 9 by { DigitEndIs(s, 8, 9); }
    assert SpaceEnd(s, 9) == 9;
    var t := "decimal[40,2]";
    PrefixLetters(t);
    assert StartsWith(t, "decimal");
    assert t[..8] != "decimal(" by { assert t[7] == '['; }
  }

  // ----- nested types as JSON -----

  /** Every primitive in the type tree is representable. */
  predicate ValidType(t: IcebergType)
  {
    match t
    case Primitive(p) => ValidPrimitive(p)
    case Struct(st) => ValidStruct(st)
    case List(l) => ValidType(l.element)
    case Map(m) => ValidType(m.key) && ValidType(m.value)
  }

  predicate ValidStruct(st: StructType)
  {
    forall i :: 0 <= i < |st.fields| ==> ValidType(st.fields[i].fieldType)
  }

  /** The untagged `IcebergType`: the shapes are tried in declaration order, primitive (a
      string), struct, list, map, and the first that reads wins. The `"type"` key of the
      object shapes is written but not read back. */
  function DecodeType(j: Json): (r: Result<IcebergType>)
    ensures r.Ok? ==> ValidType(r.value)
    ensures r.Ok? ==> (r.value.Primitive? <==> j.JString?)
    ensures r.Err? ==> r == Err(NoVariantMatched)
    decreases j, 2
  {
    var prim := if j.JString? then DecodePrimitive(j.s) else Err(InvalidType("string"));
    if prim.Ok? then Ok(Primitive(prim.value))
    else if !j.JObject? then Err(NoVariantMatched)
    else
      var st := DecodeStruct(j.members);
      if st.Ok? then Ok(Struct(st.value))
      else
        var lt := DecodeList(j.members);
        if lt.Ok? then Ok(List(lt.value))
        else
          var mt := DecodeMap(j.members);
          if mt.Ok? then Ok(Map(mt.value)) else Err(NoVariantMatched)
  }

  /** `StructType`: a `fields` array of struct fields. */
  function DecodeStruct(o: Object): (r: Result<StructType>)
    ensures r.Ok? ==> ValidStruct(r.value)
    ensures r.Ok? ==> "fields" in o && o["fields"].JArray? && |r.value.fields| == |o["fields"].items|
    ensures r.Ok? ==> forall k :: 0 <= k < |r.value.fields| ==> DecodeField(o["fields"].items[k]) == Ok(r.value.fields[k])
    decreases JObject(o), 1
  {
    if "fields" !in o then Err(MissingField("fields"))
    else if !o["fields"].JArray? then Err(InvalidType("array"))
    else
      var fields :- DecodeFields(o["fields"], 0);
      Ok(StructType(fields))
  }

  /** The struct fields of `arr.items[i..]`, in order. */
  function DecodeFields(arr: Json, i: nat): (r: Result<seq<StructField>>)
    requires arr.JArray? && i <= |arr.items|
    ensures r.Ok? ==> |r.value| == |arr.items| - i
    ensures r.Ok? ==> forall k :: 0 <= k < |r.value| ==> DecodeField(arr.items[i + k]) == Ok(r.value[k])
    decreases arr, |arr.items| - i
  {
    if i == |arr.items| then Ok([])
    else
      var f :- DecodeField(arr.items[i]);
      var rest :- DecodeFields(arr, i + 1);
      assert forall k :: 0 < k <= |rest| ==> DecodeField(arr.items[i + 1 + (k - 1)]) == Ok(([f] + rest)[k]);
      Ok([f] + rest)
  }

  function DecodeField(j: Json): (r: Result<StructField>)
    ensures r.Ok? ==> ValidType(r.value.fieldType)
    ensures r.Ok? ==> j.JObject? && "id" in j.members && j.members["id"] == JInt(r.value.id)
    ensures r.Ok? ==> "name" in j.members && j.members["name"] == JString(r.value.name)
    ensures r.Ok? ==> "required" in j.members && j.members["required"] == JBool(r.value.required)
    ensures r.Ok? ==> "type" in j.members
    ensures r.Ok? && r.value.doc.Some? ==> "doc" in j.members && j.members["doc"] == JString(r.value.doc.value)
    ensures r.Ok? ==> Opt(j.members, "doc", AsString) == Ok(r.value.doc)
    ensures r.Ok? ==> Opt(j.members, "initial-default", AsString) == Ok(r.value.initialDefault)
    ensures r.Ok? ==> Opt(j.members, "write-default", AsString) == Ok(r.value.writeDefault)
    decreases j, 1
  {
    if !j.JObject? then Err(InvalidType("object"))
    else
      var o := j.members;
      var id :- Req(o, "id", AsI32);
      var name :- Req(o, "name", AsString);
      var required :- Req(o, "required", AsBool);
      var fieldType :- if "type" in o then DecodeType(o["type"]) else Err(MissingField("type"));
      var doc :- Opt(o, "doc", AsString);
      var initialDefault :- Opt(o, "initial-default", AsString);
      var writeDefault :- Opt(o, "write-default", AsString);
      Ok(StructField(id, name, required, fieldType, doc, initialDefault, writeDefault))
  }

  /** The type a field reads with is the type its `type` member reads as. Kept out of
      `DecodeField`'s contract, where it would unfold the nested decoders at every call. */
  lemma FieldTypeRead(j: Json)
    requires DecodeField(j).Ok?
    ensures j.JObject? && "type" in j.members
    ensures DecodeType(j.members["type"]) == Ok(DecodeField(j).value.fieldType)
  {
  }

  function DecodeList(o: Object): (r: Result<ListType>)
    ensures r.Ok? ==> ValidType(r.value.element)
    ensures r.Ok? ==> "element-id" in o && o["element-id"] == JInt(r.value.elementId)
    ensures r.Ok? ==> "element-required" in o && o["element-required"] == JBool(r.value.elementRequired)
    ensures r.Ok? ==> "element" in o && DecodeType(o["element"]) == Ok(r.value.element)
    decreases JObject(o), 1
  {
    var elementId :- Req(o, "element-id", AsI32);
    var elementRequired :- Req(o, "element-required", AsBool);
    var element :- if "element" in o then DecodeType(o["element"]) else Err(MissingField("element"));
    Ok(ListType(elementId, elementRequired, element))
  }

  function DecodeMap(o: Object): (r: Result<MapType>)
    ensures r.Ok? ==> ValidType(r.value.key) && ValidType(r.value.value)
    ensures r.Ok? ==> "key-id" in o && o["key-id"] == JInt(r.value.keyId)
    ensures r.Ok? ==> "value-id" in o && o["value-id"] == JInt(r.value.valueId)
    ensures r.Ok? ==> "value-required" in o && o["value-required"] == JBool(r.value.valueRequired)
    ensures r.Ok? ==> "key" in o && DecodeType(o["key"]) == Ok(r.value.key)
    ensures r.Ok? ==> "value" in o && DecodeType(o["value"]) == Ok(r.value.value)
    decreases JObject(o), 1
  {
    var keyId :- Req(o, "key-id", AsI32);
    var key :- if "key" in o then DecodeType(o["key"]) else Err(MissingField("key"));
    var valueId :- Req(o, "value-id", AsI32);
    var valueRequired :- Req(o, "value-required", AsBool);
    var value :- if "value" in o then DecodeType(o["value"]) else Err(MissingField("value"));
    Ok(MapType(keyId, key, valueId, valueRequired, value))
  }

  function EncodeType(t: IcebergType): Json
    decreases t, 2
  {
    match t
    case Primitive(p) => JString(EncodePrimitive(p))
    case Struct(st) => JObject(EncodeStruct(st))
    case List(l) => JObject(map[
      "type" := JString("list"),
      "element-id" := JInt(l.elementId),
      "element-required" := JBool(l.elementRequired),
      "element" := EncodeType(l.element)])
    case Map(m) => JObject(map[
      "type" := JString("map"),
      "key-id" := JInt(m.keyId),
      "key" := EncodeType(m.key),
      "value-id" := JInt(m.valueId),
      "value-required" := JBool(m.valueRequired),
      "value" := EncodeType(m.value)])
  }

  /** The members a struct writes: its tag and its fields. */
  function EncodeStruct(st: StructType): Object
    decreases st, 1
  {
    map["type" := JString("struct"), "fields" := JArray(EncodeFields(st))]
  }

  function EncodeFields(st: StructType): seq<Json>
    decreases st, 0
  {
    seq(|st.fields|, i requires 0 <= i < |st.fields| => EncodeField(st.fields[i]))
  }

  function EncodeField(f: StructField): Json
    decreases f, 2
  {
    JObject(map[
      "id" := JInt(f.id),
      "name" := JString(f.name),
      "required" := JBool(f.required),
      "type" := EncodeType(f.fieldType),
      "doc" := EncodeOpt(f.doc, EncodeString),
      "initial-default" := EncodeOpt(f.initialDefault, EncodeString),
      "write-default" := EncodeOpt(f.writeDefault, EncodeString)])
  }

  /** Every type whose primitives are representable survives encode then decode: the shapes
      are tried in order, and each encoded shape fails the ones before it. */
  lemma {:induction false} TypeRoundTrip(t: IcebergType)
    requires ValidType(t)
    ensures DecodeType(EncodeType(t)) == Ok(t)
    decreases t, 2
  {
    match t
    case Primitive(p) =>
      PrimitiveRoundTrip(p);
    case Struct(st) =>
      StructRoundTrip(st);
    case List(l) =>
      TypeRoundTrip(l.element);
      ListShapeRoundTrip(l);
    case Map(m) =>
      TypeRoundTrip(m.key);
      TypeRoundTrip(m.value);
      MapShapeRoundTrip(m);
  }

  /** A written list fails the struct shape and reads as the list, once its element reads back. */
  lemma ListShapeRoundTrip(l: ListType)
    requires DecodeType(EncodeType(l.element)) == Ok(l.element)
    ensures DecodeType(EncodeType(List(l))) == Ok(List(l))
  {
    var o := EncodeType(List(l)).members;
    assert DecodeStruct(o).Err?;
    assert Req(o, "element-id", AsI32) == Ok(l.elementId);
    assert Req(o, "element-required", AsBool) == Ok(l.elementRequired);
    assert DecodeList(o) == Ok(l);
  }

  /** A written map fails the struct and list shapes and reads as the map, once its key and
      value read back. */
  lemma MapShapeRoundTrip(m: MapType)
    requires DecodeType(EncodeType(m.key)) == Ok(m.key)
    requires DecodeType(EncodeType(m.value)) == Ok(m.value)
    ensures DecodeType(EncodeType(Map(m))) == Ok(Map(m))
  {
    MapOtherShapes(m);
    var o := EncodeType(Map(m)).members;
    assert Req(o, "key-id", AsI32) == Ok(m.keyId);
    assert Req(o, "value-id", AsI32) == Ok(m.valueId);
    assert Req(o, "value-required", AsBool) == Ok(m.valueRequired);
    assert DecodeMap(o) == Ok(m);
  }

  /** A written map has neither a `fields` member nor an `element-id` member. */
  lemma MapOtherShapes(m: MapType)
    ensures DecodeStruct(EncodeType(Map(m)).members) == Err(MissingField("fields"))
    ensures DecodeList(EncodeType(Map(m)).members) == Err(MissingField("element-id"))
  {
    var o := EncodeType(Map(m)).members;
    assert "fields" !in o && "element-id" !in o;
  }

  lemma {:induction false} StructRoundTrip(st: StructType)
    requires ValidStruct(st)
    ensures DecodeStruct(EncodeStruct(st)) == Ok(st)
    decreases st, |st.fields| + 1
  {
    FieldsRoundTrip(st, 0);
    assert st.fields[0..] == st.fields;
  }

  lemma {:induction false} FieldsRoundTrip(st: StructType, i: nat)
    requires ValidStruct(st) && i <= |st.fields|
    ensures DecodeFields(JArray(EncodeFields(st)), i) == Ok(st.fields[i..])
    decreases st, |st.fields| - i
  {
    var arr := JArray(EncodeFields(st));
    assert |arr.items| == |st.fields|;
    if i < |st.fields| {
      assert arr.items[i] == EncodeField(st.fields[i]);
      FieldRoundTrip(st.fields[i]);
      FieldsRoundTrip(st, i + 1);
      assert st.fields[i..] == [st.fields[i]] + st.fields[i + 1..];
    } else {
      assert st.fields[i..] == [];
    }
  }

  lemma {:induction false} FieldRoundTrip(f: StructField)
    requires ValidType(f.fieldType)
    ensures DecodeField(EncodeField(f)) == Ok(f)
    decreases f, 0
  {
    var o := EncodeField(f).members;
    assert Req(o, "id", AsI32) == Ok(f.id);
    assert Req(o, "name", AsString) == Ok(f.name);
    assert Req(o, "required", AsBool) == Ok(f.required);
    TypeRoundTrip(f.fieldType);
    OptStringRoundTrip(o, "doc", f.doc);
    OptStringRoundTrip(o, "initial-default", f.initialDefault);
    OptStringRoundTrip(o, "write-default", f.writeDefault);
  }

  // ----- schemas -----

  /** `IcebergSchemaV2`: a required schema-id and optional identifier field ids, with the
      struct's own members alongside them. */
  function DecodeSchemaV2(j: Json): (r: Result<SchemaV2>)
    ensures r.Ok? ==> ValidStruct(r.value.schema)
    ensures r.Ok? ==> j.JObject? && "schema-id" in j.members && j.members["schema-id"] == JInt(r.value.schemaId)
    ensures r.Ok? ==> Opt(j.members, "identifier-field-ids", AsI32List) == Ok(r.value.identifierFieldIds)
  {
    if !j.JObject? then Err(InvalidType("object"))
    else
      var o := j.members;
      var schemaId :- Req(o, "schema-id", AsI32);
      var ids :- Opt(o, "identifier-field-ids", AsI32List);
      var schema :- DecodeStruct(o);
      Ok(SchemaV2(schemaId, ids, schema))
  }

  function EncodeSchemaV2(s: SchemaV2): Json
  {
    JObject(EncodeStruct(s.schema)[
      "schema-id" := JInt(s.schemaId)][
      "identifier-field-ids" := EncodeOpt(s.identifierFieldIds, EncodeI32List)])
  }

  /** `IcebergSchemaV1`: as v2, but the schema-id may be absent. */
  function DecodeSchemaV1(j: Json): (r: Result<SchemaV1>)
    ensures r.Ok? ==> ValidStruct(r.value.schema)
    ensures r.Ok? && r.value.schemaId.Some? ==> j.JObject? && "schema-id" in j.members && j.members["schema-id"] == JInt(r.value.schemaId.value)
    ensures r.Ok? ==> j.JObject? && Opt(j.members, "schema-id", AsI32) == Ok(r.value.schemaId)
    ensures r.Ok? ==> j.JObject? && Opt(j.members, "identifier-field-ids", AsI32List) == Ok(r.value.identifierFieldIds)
  {
    if !j.JObject? then Err(InvalidType("object"))
    else
      var o := j.members;
      var schemaId :- Opt(o, "schema-id", AsI32);
      var ids :- Opt(o, "identifier-field-ids", AsI32List);
      var schema :- DecodeStruct(o);
      Ok(SchemaV1(schemaId, ids, schema))
  }

  function EncodeSchemaV1(s: SchemaV1): Json
  {
    JObject(EncodeStruct(s.schema)[
      "schema-id" := EncodeOpt(s.schemaId, EncodeI32)][
      "identifier-field-ids" := EncodeOpt(s.identifierFieldIds, EncodeI32List)])
  }

  lemma IdListRoundTrip(ids: Option<seq<I32>>, o: Object)
    requires "identifier-field-ids" in o && o["identifier-field-ids"] == EncodeOpt(ids, EncodeI32List)
    ensures Opt(o, "identifier-field-ids", AsI32List) == Ok(ids)
  {
    if ids.Some? {
      ArrayRoundTrip(ids.value, EncodeI32, AsI32);
    }
  }

  /** The struct members are read back unchanged next to the schema's own keys. */
  lemma StructInSchema(st: StructType, o: Object)
    requires ValidStruct(st)
    requires "fields" in o && o["fields"] == EncodeStruct(st)["fields"]
    ensures DecodeStruct(o) == Ok(st)
  {
    StructRoundTrip(st);
  }

  lemma SchemaV2RoundTrip(s: SchemaV2)
    requires ValidStruct(s.schema)
    ensures DecodeSchemaV2(EncodeSchemaV2(s)) == Ok(s)
  {
    var o := EncodeSchemaV2(s).members;
    IdListRoundTrip(s.identifierFieldIds, o);
    StructInSchema(s.schema, o);
  }

  lemma SchemaV1RoundTrip(s: SchemaV1)
    requires ValidStruct(s.schema)
    ensures DecodeSchemaV1(EncodeSchemaV1(s)) == Ok(s)
  {
    var o := EncodeSchemaV1(s).members;
    assert o["schema-id"] == EncodeOpt(s.schemaId, EncodeI32);
    OptRoundTrip(o, "schema-id", s.schemaId, EncodeI32, AsI32);
    IdListRoundTrip(s.identifierFieldIds, o);
    StructInSchema(s.schema, o);
  }

  /** The struct of a read schema is what the same object reads as a struct. Kept out of the
      decoders' contracts, where it would unfold the nested decoders at every call. */
  lemma SchemaStructRead(j: Json)
    requires DecodeSchemaV2(j).Ok? || DecodeSchemaV1(j).Ok?
    ensures j.JObject?
    ensures DecodeSchemaV2(j).Ok? ==> DecodeStruct(j.members) == Ok(DecodeSchemaV2(j).value.schema)
    ensures DecodeSchemaV1(j).Ok? ==> DecodeStruct(j.members) == Ok(DecodeSchemaV1(j).value.schema)
  {
  }

  /** A v1 schema may leave out its schema-id: it then reads with none. */
  lemma SchemaV1WithoutId(s: SchemaV1)
    requires ValidStruct(s.schema)
    ensures DecodeSchemaV1(JObject(EncodeSchemaV1(s).members - {"schema-id"})) == Ok(s.(schemaId := None))
  {
    var o := EncodeSchemaV1(s).members - {"schema-id"};
    assert "schema-id" !in o;
    IdListRoundTrip(s.identifierFieldIds, o);
    StructInSchema(s.schema, o);
  }
}

