# NRCA retailer converter: a verified model of row normalization

`convert_retailers.py` reads one Excel sheet of retailer points of interest
and turns every row into a fixed 18-key retailer record. Each text field is a
Python `or` chain over candidate column names, with a default at the end. The
four numeric fields are converted only when `pd.notna` holds and are `None`
otherwise. It appends the records in row order, returns `[]` if anything
raises, stops when nothing was extracted, and otherwise writes the records
together with a record count and the distinct-value counts of
`police_force`, `locality` and `category`.

This project models that core in Dafny. The files are:

- `cells.dfy` (module `Cells`) models what `row.get` returns, as the datatype
  `Value` with the cases `Missing` (None), `Text`, `Int`, `Float` and `NaN`.
  It also models Python truthiness (`Truthy`; NaN is truthy), `pd.notna`
  (`NotNA`) and `str()` (`PyStr`). `str()` of an int is written out in
  decimal. `float()`, `int()` and `str()` of a float are floating point and
  are uninterpreted: they are the fields of a `Coercion`, and `None` there
  means that Python raised.
- `resolver.dfy` (module `Resolver`) is the `or` chain as a recursive
  `Resolve` over an alias list. Its contract says that the result is the cell
  of the first truthy alias, or the default when no alias is truthy.
- `normalizer.dfy` (module `Normalizer`) builds the record for one row. It
  holds the alias table (`TextSpecs`), the null-safe numeric fields, and the
  record as the ordered dict that is serialized (`AsDict`).
- `converter.dfy` (module `Converter`) is the row loop of `parse_excel_file`.
  `ParseExcelFile` is a method with a `while` loop. It is proved equal to the
  specification `Extracted`: one record per row in order, or `[]` when reading
  the sheet or any row raised.
- `summary.dfy` (module `Summary`) covers the distinct counts, the metadata,
  and `main`'s stop on an empty extraction (`RunConversion`).

Behaviours of the code worth knowing:

- An empty cell in a column the sheet has comes in as `NaN`, and `NaN` is
  truthy. So it does not fall through to the next alias: the field reads
  `"nan"` (`EmptyCellShadowsLaterAliases`). Only a missing column, `''` or
  `0` falls through.
- Every record has the same 18 keys: 14 text fields and 4 numeric ones.
- A `float()`/`int()` failure in any row is not confined to one field or one
  row. The exception aborts the whole file, and `parse_excel_file` returns
  `[]`.
- A text field is always a `str`, never `None`, so only the empty string is
  left out of the distinct counts.
- Ids from the row index are distinct within the sheet. A real `poi_id` can
  still equal another row's index text.

## Model

| member | source | states |
|---|---|---|
| Cells.DecimalText | convert_retailers.py:41 | `str()` of an int is non-empty and starts with `-` exactly when the int is negative |
| Cells.DecimalTextRoundTrip | convert_retailers.py:41 | reading back the text `str()` gives for an int yields that int |
| Cells.DecimalTextInjective | convert_retailers.py:41 | distinct ints, and so distinct row indices, give distinct texts |
| Cells.Truthy | convert_retailers.py:41-58 | an `or` operand is falsy exactly when it is None, `''`, `0` or `0.0`; NaN is truthy |
| Cells.NotNA | convert_retailers.py:46-56 | `pd.notna` is false exactly for None and NaN; it disagrees with truthiness exactly on NaN, `''`, `0` and `0.0` |
| Cells.PyStrCases | convert_retailers.py:41-58 | `str()` keeps a str cell as it is, writes an int as digits that read back as the int, gives `"None"` for None and `"nan"` for NaN, and formats a float with the float formatter |
| Resolver.Get | convert_retailers.py:41-58 | `row.get(key)` is the cell under `key`, or None when the sheet has no such column |
| Resolver.Resolve | convert_retailers.py:41-58 | the `or` chain yields the cell of the first truthy alias; if no alias is truthy it yields the default, even a falsy one |
| Resolver.FirstTruthyOrNone | convert_retailers.py:41-58 | either no alias is truthy or there is exactly one first truthy alias, so `Resolve`'s two cases cover every row |
| Resolver.ResolvePrecedence | convert_retailers.py:41-52 | a truthy first alias decides the result, whatever the later aliases, the other columns and the default hold |
| Resolver.ResolveFallthrough | convert_retailers.py:43-54 | a missing, empty-string or zero first alias is skipped, and the rest of the chain decides |
| Resolver.ResolveReadsOnlyAliases | convert_retailers.py:41-58 | two rows that agree on the chain's columns resolve to the same value |
| Normalizer.NumericField | convert_retailers.py:46-56 | `None` exactly when the cell is None or NaN; raises exactly when the cell is present and the conversion fails; otherwise holds the converted number |
| Normalizer.Normalize | convert_retailers.py:40-59 | building a row's record raises exactly when one of latitude, longitude, rating or rating_count is present and fails to convert; the text fields never raise |
| Normalizer.AsDict | convert_retailers.py:40-59 | every record is a dict with the same 18 keys in the same order; every key except the four numeric ones holds a string, and the four numeric keys hold the record's latitude, longitude, rating and rating_count, null when they are None |
| Normalizer.RecordKeysDistinct | convert_retailers.py:40-59 | the 18 keys are pairwise distinct, and the nullable keys are among them |
| Normalizer.TextSpecs | convert_retailers.py:41-58 | the alias table has 14 rows, each with at least one alias; its keys are, in order, the text keys `TextKeys`, all of them non-nullable record keys |
| Normalizer.TextKeysPartitionRecordKeys | convert_retailers.py:40-59 | the 14 text keys are pairwise distinct and are exactly the record's keys that are not nullable, so the alias table has exactly one row per text field |
| Normalizer.TextSpecsMatchDict | convert_retailers.py:41-58 | each alias-table row's field is the string stored under that row's key in the record's dict |
| Normalizer.TextFieldsFollowAliasTable | convert_retailers.py:41-58 | each of the 14 text fields is `str()` of its alias chain, ending in that field's default |
| Normalizer.TextFieldResolves | convert_retailers.py:41-58 | `str(chain)` is `str()` of the first truthy alias's cell, or `str()` of the default when no alias is truthy |
| Normalizer.AliasPrecedence | convert_retailers.py:41-58 | if a text field's first alias is truthy, the field is `str()` of that cell, whatever the later aliases hold |
| Normalizer.FalsyFallthrough | convert_retailers.py:41-58 | if a text field's first alias is falsy, the field is what the rest of its chain gives |
| Normalizer.DefaultWhenNoAlias | convert_retailers.py:41-58 | with no truthy alias a text field is `str()` of its default, which is `''` for every field but id and name |
| Normalizer.IdFallsBackToIndex | convert_retailers.py:41 | with neither `poi_id` nor `ID` truthy, `id` is the decimal text of the row index (index 0 too), and that text reads back as the index |
| Normalizer.IdOfRow41 | convert_retailers.py:41 | row 41 of a sheet with no id columns has `id == "41"` |
| Normalizer.NameFallsBackToUnknown | convert_retailers.py:42 | with neither `name` nor `Name` truthy, `name` is `"Unknown"` |
| Normalizer.EmptyCellShadowsLaterAliases | convert_retailers.py:41-43 | an empty (NaN) cell in a first-alias column is truthy, so the field reads `"nan"` instead of falling through |
| Normalizer.NumericNullSafety | convert_retailers.py:46-56 | latitude, longitude, rating and rating_count are None exactly when the cell is missing or NaN, never 0 or `''`, and otherwise hold the conversion's result |
| Converter.AppendEach | convert_retailers.py:39-60 | the loop's list succeeds exactly when every row succeeds; it then has one entry per row, entry `i` being row `i`'s record |
| Converter.NormalizeRows | convert_retailers.py:39-60 | the normalization of a sheet's rows succeeds exactly when every row does; it then has one record per row, record `i` being row `i`'s |
| Converter.Extracted | convert_retailers.py:25-71 | `parse_excel_file` returns `[]` when reading raises or any row raises; otherwise it returns one record per row, in row order, record `i` the normalization of row `i` |
| Converter.ParseExcelFile | convert_retailers.py:23-71 | the appending row loop, with its early exit on an exception, returns exactly `Extracted` |
| Converter.FallbackIdsDistinct | convert_retailers.py:39-41 | within one sheet, two rows without id columns get different ids |
| Summary.Column | convert_retailers.py:112-114 | `r.get(c, '')` of a counted key is the string stored under that key in the record's dict |
| Summary.DistinctValues | convert_retailers.py:112-114 | the distinct set never holds `''`, holds every non-empty value of the column, and holds nothing else |
| Summary.DistinctValuesAppend | convert_retailers.py:112-114 | one more record adds at most its own value, and only if that value is non-empty |
| Summary.DistinctCountBound | convert_retailers.py:112-114 | each distinct count is at most the number of records |
| Summary.DuplicatesCountOnce | convert_retailers.py:112 | forces `"X","X","Y",""` give a distinct-force count of 2 |
| Summary.Summarize | convert_retailers.py:112-119 | the metadata is the record count plus the three distinct counts, each of them at most the record count |
| Summary.RunConversion | convert_retailers.py:88-119 | `main` produces no artifact exactly when the extracted list is empty; otherwise the artifact holds the extracted records in order and their summary |
| Summary.WellFormedSheetYieldsArtifact | convert_retailers.py:88-119 | a non-empty sheet in which no conversion raises always yields an artifact, whose count is the number of rows |

## Left out

- Filesystem I/O is not modelled: `os.makedirs` (line 21), `os.path.getsize` (lines 27, 126), the existence check of the data file (lines 79-82), `pd.read_excel` (line 33) and writing `retailers.js` (lines 123-124). The sheet is a parameter of type `Outcome<seq<Row>>`, so a read that raises is still covered.
- The git publish step (lines 137-148) is left out. It runs external processes.
- The `print` progress reporting is left out, including the indicator every 50,000 rows (lines 63-64).
- Number parsing and float formatting are uninterpreted. `float()`, `int()` and `str()` of a float are floating point, so they are the functions of a `Coercion`. The model does not state what they compute, or when a string fails to parse.
- The model does not spell out the artifact's text. That covers `json.dumps`, the comment header and the `{:,}` thousands separators (lines 98-119). The artifact is the pair of the ordered records (each one's key order is given by `AsDict`) and the metadata.
- Cell kinds other than None, str, int, finite float and NaN are left out: booleans, dates, numpy scalar types and infinities. Python's `-0.0` is also missing, because reals have no signed zero.
- The row index is the position of the row. That is the default `RangeIndex` `pd.read_excel` produces. A sheet read with another index is not modelled.
- An exception is `Raised`, with no type or message. Only its effect, `[]`, is modelled.
- `IntOfText` models only the canonical decimal form of `int()`: an optional `-` followed by digits. It is the reference inverse of `DecimalText`. Whitespace, `+` and `_` are not accepted.
- The source reads a single sheet, so multi-source merging and per-source skip-and-continue have no code to model.
