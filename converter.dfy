/** `parse_excel_file`: every row of the sheet normalized and appended in
    order, and an empty list as soon as anything raises. */
module Converter {
  import opened Cells
  import opened Resolver
  import opened Normalizer

  /** The list the row loop has appended after the rows `rows`, which are the
      first rows of the sheet, each turned into a record by `normalize` with
      its index, or `Raised` when one of them raised. */
  function AppendEach<R>(rows: seq<Row>, normalize: (Row, nat) -> Outcome<R>): (r: Outcome<seq<R>>)
    ensures r.Ok? <==> forall i :: 0 <= i < |rows| ==> normalize(rows[i], i).Ok?
    ensures r.Ok? ==> |r.value| == |rows|
    ensures r.Ok? ==> forall i :: 0 <= i < |rows| ==> normalize(rows[i], i) == Ok(r.value[i])
    decreases |rows|
  {
    if |rows| == 0 then Ok([])
    else
      var last := |rows| - 1;
      assert forall i :: 0 <= i < last ==> rows[..last][i] == rows[i];
      match AppendEach(rows[..last], normalize)
      case Raised => Raised
      case Ok(prefix) =>
        match normalize(rows[last], last)
        case Raised => Raised
        case Ok(r) => Ok(prefix + [r])
  }

  /** The records of the rows `rows`, record `i` the normalization of row `i`. */
  function NormalizeRows(rows: seq<Row>, conv: Coercion): (r: Outcome<seq<Retailer>>)
    ensures r.Ok? <==> forall i :: 0 <= i < |rows| ==> Normalize(rows[i], i, conv).Ok?
    ensures r.Ok? ==> |r.value| == |rows|
    ensures r.Ok? ==> forall i :: 0 <= i < |rows| ==> Normalize(rows[i], i, conv) == Ok(r.value[i])
  {
    AppendEach(rows, (row: Row, i: nat) => Normalize(row, i, conv))
  }

  /** What `parse_excel_file` returns for a sheet that `pd.read_excel`
      produced (or raised on): one record per row, record `i` the row at
      index `i`, nothing dropped or reordered, and `[]` when anything raised. */
  function Extracted(sheet: Outcome<seq<Row>>, conv: Coercion): (r: seq<Retailer>)
    ensures sheet.Raised? ==> r == []
    ensures sheet.Ok? && (exists i :: 0 <= i < |sheet.value| && Normalize(sheet.value[i], i, conv).Raised?) ==> r == []
    ensures sheet.Ok? && (forall i :: 0 <= i < |sheet.value| ==> Normalize(sheet.value[i], i, conv).Ok?) ==>
      && |r| == |sheet.value|
      && forall i :: 0 <= i < |r| ==> r[i] == Normalize(sheet.value[i], i, conv).value
  {
    match sheet
    case Raised => []
    case Ok(rows) =>
      match NormalizeRows(rows, conv)
      case Raised => []
      case Ok(retailers) => retailers
  }

  /** The row loop of `parse_excel_file`, appending to `all_retailers` one
      record at a time; an exception leaves the loop and the function
      returns `[]`. */
  method ParseExcelFile(sheet: Outcome<seq<Row>>, conv: Coercion) returns (allRetailers: seq<Retailer>)
    ensures allRetailers == Extracted(sheet, conv)
  {
    if sheet.Raised? {
      return [];
    }
    var rows := sheet.value;
    allRetailers := [];
    var idx := 0;
    while idx < |rows|
      invariant 0 <= idx <= |rows|
      invariant NormalizeRows(rows[..idx], conv) == Ok(allRetailers)
    {
      var retailer := Normalize(rows[idx], idx, conv);
      if retailer.Raised? {
        return [];
      }
      assert rows[..idx + 1][..idx] == rows[..idx];
      allRetailers := allRetailers + [retailer.value];
      idx := idx + 1;
    }
    assert rows[..idx] == rows;
  }

  /** Rows without an id column get pairwise distinct ids within one sheet. */
  lemma FallbackIdsDistinct(sheet: Outcome<seq<Row>>, conv: Coercion, i: nat, j: nat)
    requires sheet.Ok? && i < j < |Extracted(sheet, conv)|
    requires "poi_id" !in sheet.value[i] && "ID" !in sheet.value[i]
    requires "poi_id" !in sheet.value[j] && "ID" !in sheet.value[j]
    ensures Extracted(sheet, conv)[i].id != Extracted(sheet, conv)[j].id
  {
    var rows := sheet.value;
    IdFallsBackToIndex(rows[i], i, conv);
    IdFallsBackToIndex(rows[j], j, conv);
    DecimalTextInjective(i, j);
  }
}
