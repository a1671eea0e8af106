/** The part of `main` between extraction and writing: the stop on an empty
    extraction, and the record count and distinct-value counts that the
    artifact's metadata constants carry. */
module Summary {
  import opened Cells
  import opened Resolver
  import opened Normalizer
  import opened Converter

  /** The three fields whose distinct values are counted. */
  datatype Categorical = PoliceForce | Locality | Category

  /** The record's key for each counted field, and its position in the dict. */
  function ColumnKey(c: Categorical): string {
    match c
    case PoliceForce => "police_force"
    case Locality => "locality"
    case Category => "category"
  }

  function ColumnIndex(c: Categorical): nat {
    match c
    case PoliceForce => 11
    case Locality => 2
    case Category => 7
  }

  /** `r.get(key, '')` on the record's dict, for a counted key. */
  function Column(r: Retailer, c: Categorical): (s: string)
    ensures ColumnIndex(c) < |AsDict(r)| && AsDict(r)[ColumnIndex(c)] == (ColumnKey(c), JString(s))
  {
    match c
    case PoliceForce => r.policeForce
    case Locality => r.locality
    case Category => r.category
  }

  /** `set(r.get(c, '') for r in records if r.get(c))`: the truthy (non-empty)
      values of column `c`, each once. */
  function DistinctValues(records: seq<Retailer>, c: Categorical): (vs: set<string>)
    ensures "" !in vs
    ensures forall i :: 0 <= i < |records| && Column(records[i], c) != "" ==> Column(records[i], c) in vs
    ensures forall v :: v in vs ==> exists i :: 0 <= i < |records| && Column(records[i], c) == v
  {
    set i | 0 <= i < |records| && Truthy(Text(Column(records[i], c))) :: Column(records[i], c)
  }

  /** Appending one record adds at most its own value. */
  lemma DistinctValuesAppend(records: seq<Retailer>, r: Retailer, c: Categorical)
    ensures DistinctValues(records + [r], c)
      == DistinctValues(records, c) + (if Column(r, c) != "" then {Column(r, c)} else {})
  {
    var all := records + [r];
    assert forall i :: 0 <= i < |records| ==> all[i] == records[i];
    assert all[|records|] == r;
  }

  /** A distinct count never exceeds the number of records. */
  lemma {:induction false} DistinctCountBound(records: seq<Retailer>, c: Categorical)
    ensures |DistinctValues(records, c)| <= |records|
    decreases |records|
  {
    if |records| > 0 {
      var last := |records| - 1;
      assert records == records[..last] + [records[last]];
      DistinctValuesAppend(records[..last], records[last], c);
      DistinctCountBound(records[..last], c);
    }
  }

  /** A record whose text fields are all empty and numeric fields None. */
  function Blank(): Retailer {
    Retailer("", "", "", "", "", None, None, "", "", "", "", "", "", "", None, None, "", "")
  }

  /** Forces "X", "X", "Y", "" give two distinct forces: duplicates count
      once and the empty value not at all. */
  lemma DuplicatesCountOnce()
    ensures var records := [Blank().(policeForce := "X"), Blank().(policeForce := "X"),
                            Blank().(policeForce := "Y"), Blank().(policeForce := "")];
      |DistinctValues(records, PoliceForce)| == 2
  {
    var records := [Blank().(policeForce := "X"), Blank().(policeForce := "X"),
                    Blank().(policeForce := "Y"), Blank().(policeForce := "")];
    assert Column(records[0], PoliceForce) == "X" && Column(records[2], PoliceForce) == "Y";
    assert DistinctValues(records, PoliceForce) == {"X", "Y"};
  }

  /** The metadata constants written after the records. */
  datatype Metadata = Metadata(
    retailerCount: nat,
    uniquePoliceForces: nat,
    uniqueLocalities: nat,
    uniqueCategories: nat)

  function Summarize(records: seq<Retailer>): (m: Metadata)
    ensures m.retailerCount == |records|
    ensures m.uniquePoliceForces <= m.retailerCount
    ensures m.uniqueLocalities <= m.retailerCount
    ensures m.uniqueCategories <= m.retailerCount
    ensures m.uniquePoliceForces == |DistinctValues(records, PoliceForce)|
    ensures m.uniqueLocalities == |DistinctValues(records, Locality)|
    ensures m.uniqueCategories == |DistinctValues(records, Category)|
  {
    DistinctCountBound(records, PoliceForce);
    DistinctCountBound(records, Locality);
    DistinctCountBound(records, Category);
    Metadata(
      |records|,
      |DistinctValues(records, PoliceForce)|,
      |DistinctValues(records, Locality)|,
      |DistinctValues(records, Category)|)
  }

  /** What the written file holds: the records in order, then the metadata. */
  datatype Artifact = Artifact(retailers: seq<Retailer>, metadata: Metadata)

  /** `main` from extraction to the content it writes: no artifact when no
      record was extracted (a failed read, a raising row or an empty sheet),
      otherwise every extracted record with its summary. */
  method RunConversion(sheet: Outcome<seq<Row>>, conv: Coercion) returns (artifact: Option<Artifact>)
    ensures artifact.None? <==> Extracted(sheet, conv) == []
    ensures artifact.Some? ==> artifact.value.retailers == Extracted(sheet, conv)
    ensures artifact.Some? ==> artifact.value.metadata == Summarize(Extracted(sheet, conv))
  {
    var allRetailers := ParseExcelFile(sheet, conv);
    if allRetailers == [] {
      return None;
    }
    artifact := Some(Artifact(allRetailers, Summarize(allRetailers)));
  }

  /** A sheet with at least one row and no raising conversion always produces
      an artifact whose count is its number of rows. */
  lemma WellFormedSheetYieldsArtifact(rows: seq<Row>, conv: Coercion)
    requires |rows| > 0
    requires forall i :: 0 <= i < |rows| ==> Normalize(rows[i], i, conv).Ok?
    ensures Extracted(Ok(rows), conv) != []
    ensures Summarize(Extracted(Ok(rows), conv)).retailerCount == |rows|
  {
  }
}
