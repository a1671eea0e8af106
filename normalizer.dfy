/** The record normalizer: the dict literal that `parse_excel_file` builds for
    one row, with its alias chains, its defaults and its null-safe numeric
    conversions. */
module Normalizer {
  import opened Cells
  import opened Resolver

  /** One retailer record; the typed view of the 18-key dict. */
  datatype Retailer = Retailer(
    id: string,
    name: string,
    locality: string,
    postcode: string,
    address: string,
    latitude: Option<real>,
    longitude: Option<real>,
    category: string,
    subcategory: string,
    categoryDetail: string,
    businessStatus: string,
    policeForce: string,
    tacticalArea: string,
    localAuthority: string,
    rating: Option<real>,
    ratingCount: Option<int>,
    phone: string,
    website: string)

  // The source columns tried for each text field, in order.
  const IdAliases: seq<string> := ["poi_id", "ID"]
  const NameAliases: seq<string> := ["name", "Name"]
  const LocalityAliases: seq<string> := ["locality", "Locality"]
  const PostcodeAliases: seq<string> := ["postcode", "Postcode"]
  const AddressAliases: seq<string> := ["address", "Address"]
  const CategoryAliases: seq<string> := ["category_level1", "Category"]
  const SubcategoryAliases: seq<string> := ["category_level2", "Subcategory"]
  const DetailAliases: seq<string> := ["category_level3", "Detail"]
  const StatusAliases: seq<string> := ["business_status", "Status"]
  const ForceAliases: seq<string> := ["Police_Force", "Force"]
  const TacticalAreaAliases: seq<string> := ["Tactical_Area"]
  const LocalAuthorityAliases: seq<string> := ["Local_Authority"]
  const PhoneAliases: seq<string> := ["phone"]
  const WebsiteAliases: seq<string> := ["website_domain"]

  /** `str(row.get(a1) or ... or default)`. */
  function TextField(row: Row, aliases: seq<string>, default: Value, conv: Coercion): string {
    PyStr(Resolve(row, aliases, default), conv.floatText)
  }

  /** A text field is `str()` of the first truthy alias's cell, or of the
      default when no alias is truthy. */
  lemma TextFieldResolves(row: Row, aliases: seq<string>, default: Value, conv: Coercion)
    ensures forall i :: FirstTruthyAt(row, aliases, i) ==>
      TextField(row, aliases, default, conv) == PyStr(Get(row, aliases[i]), conv.floatText)
    ensures NoneTruthy(row, aliases) ==> TextField(row, aliases, default, conv) == PyStr(default, conv.floatText)
  {
  }

  /** Converting `v` with `parse` raises. */
  predicate Raises<T>(v: Value, parse: Value -> Option<T>) {
    NotNA(v) && parse(v).None?
  }

  /** `parse(v) if pd.notna(v) else None`. */
  function NumericField<T>(v: Value, parse: Value -> Option<T>): (r: Outcome<Option<T>>)
    ensures r.Ok? && r.value.None? <==> !NotNA(v)
    ensures r.Raised? <==> Raises(v, parse)
    ensures r.Ok? && r.value.Some? ==> NotNA(v) && parse(v) == r.value
  {
    if !NotNA(v) then Ok(None)
    else match parse(v)
      case None => Raised
      case Some(x) => Ok(Some(x))
  }

  /** The record for the row at index `idx`, or `Raised` when one of its
      numeric conversions raises; the text fields never raise. */
  function Normalize(row: Row, idx: nat, conv: Coercion): (r: Outcome<Retailer>)
    ensures r.Raised? <==>
      || Raises(Get(row, "latitude"), conv.toFloat)
      || Raises(Get(row, "longitude"), conv.toFloat)
      || Raises(Get(row, "rating"), conv.toFloat)
      || Raises(Get(row, "rating_count"), conv.toInt)
  {
    var latitude := NumericField(Get(row, "latitude"), conv.toFloat);
    var longitude := NumericField(Get(row, "longitude"), conv.toFloat);
    var rating := NumericField(Get(row, "rating"), conv.toFloat);
    var ratingCount := NumericField(Get(row, "rating_count"), conv.toInt);
    if latitude.Raised? || longitude.Raised? || rating.Raised? || ratingCount.Raised? then Raised
    else Ok(Retailer(
      id := TextField(row, IdAliases, Int(idx), conv),
      name := TextField(row, NameAliases, Text("Unknown"), conv),
      locality := TextField(row, LocalityAliases, Text(""), conv),
      postcode := TextField(row, PostcodeAliases, Text(""), conv),
      address := TextField(row, AddressAliases, Text(""), conv),
      latitude := latitude.value,
      longitude := longitude.value,
      category := TextField(row, CategoryAliases, Text(""), conv),
      subcategory := TextField(row, SubcategoryAliases, Text(""), conv),
      categoryDetail := TextField(row, DetailAliases, Text(""), conv),
      businessStatus := TextField(row, StatusAliases, Text(""), conv),
      policeForce := TextField(row, ForceAliases, Text(""), conv),
      tacticalArea := TextField(row, TacticalAreaAliases, Text(""), conv),
      localAuthority := TextField(row, LocalAuthorityAliases, Text(""), conv),
      rating := rating.value,
      ratingCount := ratingCount.value,
      phone := TextField(row, PhoneAliases, Text(""), conv),
      website := TextField(row, WebsiteAliases, Text(""), conv)))
  }

  /** A JSON value as `json.dumps` writes a field of the record. */
  datatype JsonValue = JString(s: string) | JNumber(x: real) | JInteger(i: int) | JNull

  /** The dict's keys, in insertion order. */
  const RecordKeys: seq<string> := [
    "id", "name", "locality", "postcode", "address", "latitude", "longitude",
    "category", "subcategory", "category_detail", "business_status",
    "police_force", "tactical_area", "local_authority", "rating",
    "rating_count", "phone", "website"]

  /** The keys whose value may be None. */
  const NullableKeys: set<string> := {"latitude", "longitude", "rating", "rating_count"}

  function FloatJson(o: Option<real>): JsonValue {
    match o
    case None => JNull
    case Some(x) => JNumber(x)
  }

  function IntJson(o: Option<int>): JsonValue {
    match o
    case None => JNull
    case Some(i) => JInteger(i)
  }

  /** The record as the ordered dict the source builds: always the same 18
      keys in the same order, and a string under every key but the four
      numeric ones. */
  function AsDict(r: Retailer): (d: seq<(string, JsonValue)>)
    ensures |d| == |RecordKeys| == 18
    ensures forall k :: 0 <= k < |d| ==> d[k].0 == RecordKeys[k]
    ensures forall k :: 0 <= k < |d| ==> (d[k].1.JString? <==> d[k].0 !in NullableKeys)
    ensures d[5] == ("latitude", FloatJson(r.latitude)) && d[6] == ("longitude", FloatJson(r.longitude))
    ensures d[14] == ("rating", FloatJson(r.rating)) && d[15] == ("rating_count", IntJson(r.ratingCount))
  {
    [ ("id", JString(r.id)),
      ("name", JString(r.name)),
      ("locality", JString(r.locality)),
      ("postcode", JString(r.postcode)),
      ("address", JString(r.address)),
      ("latitude", FloatJson(r.latitude)),
      ("longitude", FloatJson(r.longitude)),
      ("category", JString(r.category)),
      ("subcategory", JString(r.subcategory)),
      ("category_detail", JString(r.categoryDetail)),
      ("business_status", JString(r.businessStatus)),
      ("police_force", JString(r.policeForce)),
      ("tactical_area", JString(r.tacticalArea)),
      ("local_authority", JString(r.localAuthority)),
      ("rating", FloatJson(r.rating)),
      ("rating_count", IntJson(r.ratingCount)),
      ("phone", JString(r.phone)),
      ("website", JString(r.website)) ]
  }

  /** No key occurs twice, so every record has exactly 18 keys. */
  lemma RecordKeysDistinct()
    ensures forall i, j :: 0 <= i < j < |RecordKeys| ==> RecordKeys[i] != RecordKeys[j]
    ensures NullableKeys <= set k | k in RecordKeys
  {
  }

  /** One row of the alias table: a text key, its source columns in order of
      preference, the last operand of its `or` chain, and the record field. */
  datatype TextSpec = TextSpec(key: string, aliases: seq<string>, default: Value, select: Retailer -> string)

  /** The alias table of the 14 text fields, for the row at index `idx`. */
  function TextSpecs(idx: nat): (specs: seq<TextSpec>)
    ensures |specs| == 14
    ensures forall k :: 0 <= k < |specs| ==> |specs[k].aliases| > 0
    ensures forall k :: 0 <= k < |specs| ==> specs[k].key in RecordKeys && specs[k].key !in NullableKeys
    ensures forall k :: 0 <= k < |specs| ==> specs[k].key == TextKeys[k]
  {
    [ TextSpec("id", IdAliases, Int(idx), (r: Retailer) => r.id),
      TextSpec("name", NameAliases, Text("Unknown"), (r: Retailer) => r.name),
      TextSpec("locality", LocalityAliases, Text(""), (r: Retailer) => r.locality),
      TextSpec("postcode", PostcodeAliases, Text(""), (r: Retailer) => r.postcode),
      TextSpec("address", AddressAliases, Text(""), (r: Retailer) => r.address),
      TextSpec("category", CategoryAliases, Text(""), (r: Retailer) => r.category),
      TextSpec("subcategory", SubcategoryAliases, Text(""), (r: Retailer) => r.subcategory),
      TextSpec("category_detail", DetailAliases, Text(""), (r: Retailer) => r.categoryDetail),
      TextSpec("business_status", StatusAliases, Text(""), (r: Retailer) => r.businessStatus),
      TextSpec("police_force", ForceAliases, Text(""), (r: Retailer) => r.policeForce),
      TextSpec("tactical_area", TacticalAreaAliases, Text(""), (r: Retailer) => r.tacticalArea),
      TextSpec("local_authority", LocalAuthorityAliases, Text(""), (r: Retailer) => r.localAuthority),
      TextSpec("phone", PhoneAliases, Text(""), (r: Retailer) => r.phone),
      TextSpec("website", WebsiteAliases, Text(""), (r: Retailer) => r.website) ]
  }

  /** The keys of the text fields, in the order of the alias table. */
  const TextKeys: seq<string> := [
    "id", "name", "locality", "postcode", "address", "category", "subcategory",
    "category_detail", "business_status", "police_force", "tactical_area",
    "local_authority", "phone", "website"]

  /** The alias table's keys are pairwise distinct and are exactly the
      record's non-nullable keys: one table row per text field. */
  lemma TextKeysPartitionRecordKeys()
    ensures forall k, l :: 0 <= k < l < |TextKeys| ==> TextKeys[k] != TextKeys[l]
    ensures forall key :: key in RecordKeys && key !in NullableKeys <==> key in TextKeys
  {
  }

  /** Each table row's field is what the record's dict holds under its key. */
  lemma TextSpecsMatchDict(r: Retailer, idx: nat)
    ensures forall k :: 0 <= k < |TextSpecs(idx)| ==>
      (TextSpecs(idx)[k].key, JString(TextSpecs(idx)[k].select(r))) in AsDict(r)
  {
  }

  /** Every text field of a normalized record is its alias chain, stringified. */
  lemma TextFieldsFollowAliasTable(row: Row, idx: nat, conv: Coercion)
    requires Normalize(row, idx, conv).Ok?
    ensures forall k :: 0 <= k < |TextSpecs(idx)| ==>
      TextSpecs(idx)[k].select(Normalize(row, idx, conv).value)
        == TextField(row, TextSpecs(idx)[k].aliases, TextSpecs(idx)[k].default, conv)
  {
  }

  /** Alias precedence: a truthy first alias is the field's value, whatever
      the later aliases hold. */
  lemma AliasPrecedence(row: Row, idx: nat, conv: Coercion, k: nat)
    requires Normalize(row, idx, conv).Ok?
    requires k < |TextSpecs(idx)|
    requires Truthy(Get(row, TextSpecs(idx)[k].aliases[0]))
    ensures TextSpecs(idx)[k].select(Normalize(row, idx, conv).value)
      == PyStr(Get(row, TextSpecs(idx)[k].aliases[0]), conv.floatText)
  {
    var spec := TextSpecs(idx)[k];
    TextFieldsFollowAliasTable(row, idx, conv);
    assert FirstTruthyAt(row, spec.aliases, 0);
  }

  /** Fall-through: a missing, empty or zero first alias hands the field to
      the rest of the chain. */
  lemma FalsyFallthrough(row: Row, idx: nat, conv: Coercion, k: nat)
    requires Normalize(row, idx, conv).Ok?
    requires k < |TextSpecs(idx)|
    requires !Truthy(Get(row, TextSpecs(idx)[k].aliases[0]))
    ensures TextSpecs(idx)[k].select(Normalize(row, idx, conv).value)
      == TextField(row, TextSpecs(idx)[k].aliases[1..], TextSpecs(idx)[k].default, conv)
  {
    TextFieldsFollowAliasTable(row, idx, conv);
  }

  /** With no truthy alias the field is the stringified default: `''` for
      most fields. */
  lemma DefaultWhenNoAlias(row: Row, idx: nat, conv: Coercion, k: nat)
    requires Normalize(row, idx, conv).Ok?
    requires k < |TextSpecs(idx)|
    requires NoneTruthy(row, TextSpecs(idx)[k].aliases)
    ensures TextSpecs(idx)[k].select(Normalize(row, idx, conv).value)
      == PyStr(TextSpecs(idx)[k].default, conv.floatText)
    ensures k >= 2 ==> TextSpecs(idx)[k].select(Normalize(row, idx, conv).value) == ""
  {
    TextFieldsFollowAliasTable(row, idx, conv);
  }

  /** `id` falls back to the row index, index 0 included: the index is the
      last operand of the chain, so its falsiness does not matter. The text
      read back gives the index. */
  lemma IdFallsBackToIndex(row: Row, idx: nat, conv: Coercion)
    requires Normalize(row, idx, conv).Ok?
    requires !Truthy(Get(row, "poi_id")) && !Truthy(Get(row, "ID"))
    ensures Normalize(row, idx, conv).value.id == DecimalText(idx)
    ensures IntOfText(Normalize(row, idx, conv).value.id) == Some(idx)
  {
    assert NoneTruthy(row, IdAliases);
    DecimalTextRoundTrip(idx);
  }

  /** Row 41 of a sheet with no id column gets the id "41". */
  lemma IdOfRow41(row: Row, conv: Coercion)
    requires Normalize(row, 41, conv).Ok?
    requires "poi_id" !in row && "ID" !in row
    ensures Normalize(row, 41, conv).value.id == "41"
  {
    IdFallsBackToIndex(row, 41, conv);
  }

  /** `name` falls back to the literal "Unknown". */
  lemma NameFallsBackToUnknown(row: Row, idx: nat, conv: Coercion)
    requires Normalize(row, idx, conv).Ok?
    requires !Truthy(Get(row, "name")) && !Truthy(Get(row, "Name"))
    ensures Normalize(row, idx, conv).value.name == "Unknown"
  {
    assert NoneTruthy(row, NameAliases);
  }

  /** An empty cell is NaN, which is truthy: in a sheet that has the first
      alias's column, an empty cell there shadows every later alias and the
      field reads "nan". */
  lemma EmptyCellShadowsLaterAliases(row: Row, idx: nat, conv: Coercion)
    requires Normalize(row, idx, conv).Ok?
    requires Get(row, "poi_id") == NaN && Get(row, "locality") == NaN
    ensures Normalize(row, idx, conv).value.id == "nan"
    ensures Normalize(row, idx, conv).value.locality == "nan"
  {
    assert FirstTruthyAt(row, IdAliases, 0) && FirstTruthyAt(row, LocalityAliases, 0);
  }

  /** Numeric null-safety: a numeric field is None exactly when its cell is
      missing or NaN (never 0 or ''), and otherwise holds what the
      conversion returned. */
  lemma NumericNullSafety(row: Row, idx: nat, conv: Coercion)
    requires Normalize(row, idx, conv).Ok?
    ensures var r := Normalize(row, idx, conv).value;
      && (r.latitude.None? <==> Get(row, "latitude") in {Missing, NaN})
      && (r.longitude.None? <==> Get(row, "longitude") in {Missing, NaN})
      && (r.rating.None? <==> Get(row, "rating") in {Missing, NaN})
      && (r.ratingCount.None? <==> Get(row, "rating_count") in {Missing, NaN})
    ensures var r := Normalize(row, idx, conv).value;
      && (r.latitude.Some? ==> conv.toFloat(Get(row, "latitude")) == r.latitude)
      && (r.longitude.Some? ==> conv.toFloat(Get(row, "longitude")) == r.longitude)
      && (r.rating.Some? ==> conv.toFloat(Get(row, "rating")) == r.rating)
      && (r.ratingCount.Some? ==> conv.toInt(Get(row, "rating_count")) == r.ratingCount)
  {
  }
}
