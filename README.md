# TA Instruments file readers, in Dafny

This project models the two readers for TA Instruments thermogravimetric
exports. Both produce the time, temperature and weight traces that the
kinetic analysis consumes.

- **The text export reader** is `parseTAInstruments` in
  `src/from/parseTAInstruments.js`, module `TAInstruments`.
  - It cuts the text into lines and drops blank lines and `StartOfData` markers.
  - `parseMeta` scans the header lines by keyword prefix. It overwrites scalar
    properties, appends comments and method steps, and stops at the first
    `OrgFile` line, which fixes `dataStart`.
  - Every later line that does not start with `-` is cut at runs of whitespace,
    and its first five pieces, converted by `Number`, give time, temperature,
    weight, balance purge flow and sample purge flow. A row with fewer pieces
    gives `undefined` for the missing ones, a leading blank gives an empty
    first piece, and pieces past the fifth are ignored.
  - `splitTrim` reads the trimmed tab-separated field of a header line.
- **The workbook reader** is `parseTAInstrumentsExcel` in
  `src/from/parseTAInstrumentsExcel.js`, module `TAInstrumentsExcel`.
  - `parseMeta` reads fixed cells of the `Details` sheet. It splits the
    procedure (B6) at `;` and the sample mass (B16) at a space.
  - `parseDataSheet` turns the cell grid of every other sheet, from four rows
    below the range start, into four columns.
  - The entry point appends those columns sheet by sheet in `SheetNames` order.
- **`JsBuiltins`** models the JavaScript built-ins these readers use, in the
  forms they use them:
  - `split` on one character and on `/\s+/`;
  - `trim`, and the `[ \t]` trim of `splitTrim`'s regular expression;
  - `startsWith` and the `^keyword` tests;
  - `filter`.

  It also holds two definitions the readers do not call. `Join` is the inverse
  of `split`, used in the round-trip lemmas. `FirstIndex` is the first-match
  search that the `for … break` loop of `parseMeta` performs.
- **`Wrappers`** holds `Option` and `Result`.

How JavaScript behaviour is represented:
- `undefined` is `None`, and a `TypeError` the source would throw is a
  `Failure`.
- `Number` and `parseFloat` are function parameters of an unspecified numeric
  type `N`.
- A workbook is what `xlsx.read` returns: the sheet names in order, and a map
  from name to sheet. A sheet is a map from (row, column) to the cells present,
  plus the rows of its `!ref` range.

Where the code works by changing state, the model does too.
- `parseMeta` of the text reader is the method `TAInstruments.ParseMeta`. Its
  `while` loop has a `break` at the `OrgFile` line. It is proved equal to the
  declarative `HeaderOf`:
  - the header ends at the first `OrgFile` line;
  - the parse fails at the first line whose field is missing;
  - otherwise the result is the fold `HeaderScan` over the header lines.
- `HeaderScan` is related to the reference definitions `LastOf` (the last line
  of a keyword wins) and `Collect` (every line of a keyword, in order).
- `parseDataSheet` and the `forEach` over the sheets are methods with loops. They
  are proved against the functions `SheetColumn` and `Stacked`.
- The `if … else if` chain is modelled as written, as `Chain`: the first keyword
  in source order. It is proved equal to `Dispatch`, the unique keyword whose
  prefix test the line passes.

## Model

| member | source | states |
|---|---|---|
| JsBuiltins.Split | src/from/parseTAInstruments.js:33 | `split` on one character always gives at least one piece |
| JsBuiltins.SplitShape | src/from/parseTAInstruments.js:33 | `split` gives one piece more than there are separators, and no piece holds the separator |
| JsBuiltins.JoinSplit | src/from/parseTAInstrumentsExcel.js:37-41 | joining the pieces of a split with the separator gives back the string |
| JsBuiltins.SplitJoin | src/from/parseTAInstrumentsExcel.js:37-41 | splitting a join of separator-free pieces gives back exactly those pieces |
| JsBuiltins.SplitAfterPiece | src/from/parseTAInstrumentsExcel.js:42 | a string that starts with a separator-free piece splits into that piece glued to the first piece of the rest |
| JsBuiltins.TrimStart | src/from/parseTAInstruments.js:33 | the result is a suffix of the input, everything dropped is blank, and the result does not start with a blank |
| JsBuiltins.TrimEnd | src/from/parseTAInstruments.js:33 | the result is a prefix of the input, everything dropped is blank, and the result does not end with a blank |
| JsBuiltins.Trim | src/from/parseTAInstruments.js:33 | the result is the input less a blank prefix and a blank suffix, and it neither starts nor ends with a blank |
| JsBuiltins.TrimOfPadded | src/from/parseTAInstrumentsExcel.js:40 | trimming a core padded with blanks on both sides gives back the core exactly |
| JsBuiltins.TrimStartPast | src/from/parseTAInstrumentsExcel.js:40 | trimming the start drops exactly a blank prefix that precedes a non-blank character |
| JsBuiltins.TrimEndPast | src/from/parseTAInstrumentsExcel.js:40 | trimming the end drops exactly a blank suffix that follows a non-blank character |
| JsBuiltins.JsTrim | src/from/parseTAInstrumentsExcel.js:40 | `trim()` gives the string less a prefix and a suffix of JavaScript white space, and the result neither starts nor ends with white space |
| JsBuiltins.SplitWhitespace | src/from/parseTAInstruments.js:11 | `split(/\s+/)` gives at least one field, and no field contains white space |
| JsBuiltins.SplitWhitespaceIsSplitOfSqueezed | src/from/parseTAInstruments.js:11 | splitting at runs of white space is splitting at single spaces once every run is squeezed to one space |
| JsBuiltins.Filter | src/from/parseTAInstruments.js:4 | `filter` never lengthens a list |
| JsBuiltins.FilterAppend | src/from/parseTAInstruments.js:4 | filtering a concatenation is concatenating the filtered parts, so order is kept |
| JsBuiltins.FilterMultiplicity | src/from/parseTAInstruments.js:4 | an element that passes the test is kept as often as it occurs, and one that fails is kept zero times |
| JsBuiltins.FilterAllKept | src/from/parseTAInstruments.js:10 | every element `filter` keeps passes its test |
| JsBuiltins.FirstIndex | src/from/parseTAInstruments.js:38-74 | the index found is the first whose element passes the test; with none found, no element passes |
| TAInstruments.SplitLines | src/from/parseTAInstruments.js:3 | cutting the text at line ends gives at least one line |
| TAInstruments.SplitLinesIsSplitAtLf | src/from/parseTAInstruments.js:3 | cutting at `\r?\n` is cutting at LF after every CR LF is turned into LF |
| TAInstruments.KeptLinesExact | src/from/parseTAInstruments.js:2-4 | blank, whitespace-only and `StartOfData` lines are all removed, and every other line is kept as often as it occurs |
| TAInstruments.FirstMatchSound | src/from/parseTAInstruments.js:39-75 | the chain picks a keyword whose test the line passes; when it picks none, the line passes no test |
| TAInstruments.KeywordsExclusive | src/from/parseTAInstruments.js:39-72 | no line passes the tests of two different keywords, so the order of the chain does not change which branch a line takes |
| TAInstruments.KeywordFromLetters | src/from/parseTAInstruments.js:39-72 | a line that passes a keyword's test has that keyword by its first letters |
| TAInstruments.DispatchFindsTheOnlyMatch | src/from/parseTAInstruments.js:39-72 | `Dispatch` names a keyword exactly when the line passes that keyword's test |
| TAInstruments.ChainIsDispatch | src/from/parseTAInstruments.js:39-75 | the first-match-wins chain, as written, takes the branch of the one keyword the line passes |
| TAInstruments.TrimFieldSpec | src/from/parseTAInstruments.js:33 | a field holding a line terminator is returned unchanged, because the regular expression does not match; any other field loses exactly its leading and trailing spaces and tabs |
| TAInstruments.SplitTrim | src/from/parseTAInstruments.js:32-34 | `splitTrim(line, item)` is defined exactly when the line has at least `item` tabs, and then it is the trimmed field `item` |
| TAInstruments.ScanTextField | src/from/parseTAInstruments.js:39-71 | a text property is set exactly when some header line has its keyword, and it holds field 1 of the last such line |
| TAInstruments.ScanFieldsAreText | src/from/parseTAInstruments.js:37-71 | only the thirteen text keywords ever set a text property |
| TAInstruments.ScanWeight | src/from/parseTAInstruments.js:45-47 | `weight` is `parseFloat` of field 1 of the last `Size` line, and `weightUnit` is field 2 of that line |
| TAInstruments.ScanLists | src/from/parseTAInstruments.js:37-61 | `comments` holds field 1 of every `Comment`/`Xcomment` line, and `methodSteps` field 1 of every `OrgMethod` line, in order, with none dropped |
| TAInstruments.CollectAppend | src/from/parseTAInstruments.js:48-61 | the lines collected from two runs of lines are those of the first run followed by those of the second |
| TAInstruments.LaterLineWins | src/from/parseTAInstruments.js:39-71 | a line of a keyword followed only by lines of other keywords decides that keyword's value |
| TAInstruments.StopsAt | src/from/parseTAInstruments.js:72-75 | at the first `OrgFile` line the header is the scan of the lines before it, with `dataStart` set to that line's index plus one |
| TAInstruments.FailsAt | src/from/parseTAInstruments.js:33-71 | the parse fails at the first header line whose keyword field is missing |
| TAInstruments.RunsOut | src/from/parseTAInstruments.js:38-78 | with no `OrgFile` line and every field present, the header is the scan of all lines, and `dataStart` stays undefined |
| TAInstruments.ReadHeaderLine | src/from/parseTAInstruments.js:39-71 | the loop body succeeds exactly when the line's field can be read, and then it takes that line's branch |
| TAInstruments.ParseMeta | src/from/parseTAInstruments.js:36-79 | the loop with its early `break` computes exactly the declarative header `HeaderOf`, the failure included |
| TAInstruments.MetadataIgnoresDataSection | src/from/parseTAInstruments.js:38-75 | lines after the first `OrgFile` line never change the header, and `dataStart` is one past that line |
| TAInstruments.DataLinesAfterOrgFile | src/from/parseTAInstruments.js:8-73 | the data rows are the lines after the first `OrgFile` line that do not start with `-`, in order; with no `OrgFile` line they are all such lines |
| TAInstruments.ParseTAInstruments | src/from/parseTAInstruments.js:1-30 | the parse fails exactly when the header does. Otherwise `meta` is the header, and time, temperature, weight, balance purge flow and sample purge flow each hold one value per data row: field 0, 1, 2, 3 or 4 of that row |
| TAInstrumentsExcel.ValueElseUndefined | src/from/parseTAInstrumentsExcel.js:3-5 | the cell's value when the cell is present, `undefined` otherwise |
| TAInstrumentsExcel.ValueElseUndefinedFloat | src/from/parseTAInstrumentsExcel.js:7-9 | a value exactly when the cell is present |
| TAInstrumentsExcel.FloatReadsTheValue | src/from/parseTAInstrumentsExcel.js:7-9 | the float reading is `parseFloat` of the text of the value `valueElseUndefined` reads |
| TAInstrumentsExcel.SheetColumnEntries | src/from/parseTAInstrumentsExcel.js:16-24 | a column has `max(0, e.r - (s.r + 4) + 1)` entries, one per row from `s.r + 4` to `e.r`. Entry `k` is the float reading of cell (`s.r + 4 + k`, column), or `undefined` where that cell is absent |
| TAInstrumentsExcel.OnlyFourColumnsRead | src/from/parseTAInstrumentsExcel.js:18-21 | two sheets that agree on columns 0 to 3 of the data rows give the same four columns, so no other cell is read |
| TAInstrumentsExcel.ParseDataSheet | src/from/parseTAInstrumentsExcel.js:11-28 | exactly four arrays come back, each with `max(0, e.r - (s.r + 4) + 1)` entries, and array `c` is column `c` of the sheet |
| TAInstrumentsExcel.ParseMeta | src/from/parseTAInstrumentsExcel.js:30-48 | fails when B6 holds no string, then when B16 holds none, then when B16 has no space; succeeds exactly when none of these holds |
| TAInstrumentsExcel.ParseMetaReads | src/from/parseTAInstrumentsExcel.js:31-47 | B1, B2, B3, B8, B5 and B18 are taken as they are. `procedure` is B6 cut at every `;`, one more piece than there are `;`, each trimmed. `sampleWeight` is `parseFloat` of B16's first space-separated part, and `sampleWeightUnit` the trimmed second part |
| TAInstrumentsExcel.WeightAndUnit | src/from/parseTAInstrumentsExcel.js:42-44 | a B16 of the form `number unit` gives back that number and that unit |
| TAInstrumentsExcel.SplitAroundSpace | src/from/parseTAInstrumentsExcel.js:42 | `number unit` with no other space splits into exactly those two parts |
| TAInstrumentsExcel.ProcedureRoundTrip | src/from/parseTAInstrumentsExcel.js:37-41 | when B6's steps carry no padding, joining `procedure` with `;` gives back B6 |
| TAInstrumentsExcel.StackedLength | src/from/parseTAInstrumentsExcel.js:54-71 | every output column has as many entries as the data sheets have rows in total, so the four columns have equal length |
| TAInstrumentsExcel.StackedAppend | src/from/parseTAInstrumentsExcel.js:63-71 | the columns of two runs of sheets are those of the first run followed by those of the second |
| TAInstrumentsExcel.DetailsContributesNothing | src/from/parseTAInstrumentsExcel.js:64 | the `Details` sheet adds no data, wherever it stands among the sheets |
| TAInstrumentsExcel.StackSheets | src/from/parseTAInstrumentsExcel.js:63-71 | the loop over the sheets yields, for each of the four columns, the columns of the data sheets in order |
| TAInstrumentsExcel.ParseTAInstrumentsExcel | src/from/parseTAInstrumentsExcel.js:50-76 | with no `Details` sheet, or with a `Details` sheet `parseMeta` rejects, the call fails with that error. Otherwise `meta` is that sheet's metadata, and each of time, temperature, weight and weight percent is the corresponding column of every data sheet, appended in `SheetNames` order |

## Left out

- `xlsx.read`, `decode_range` and `encode_cell` are not modelled. The
  workbook, each sheet's row range and the A1 cell names are given as values.
- A data sheet without a `!ref` range is not modelled, because every sheet has
  a `Range`. `decode_range(undefined)` would fail there.
- Cells without a `v` property, such as stub cells, are not modelled: a
  present cell always has a value.
- `Number` and `parseFloat` are left uninterpreted, so float parsing, `NaN`
  and rounding are not modelled.
- TAInstrumentsExcel.ParseTAInstrumentsExcel: it requires that every sheet
  name other than `Details` has a sheet (`SheetsPresent`), which `xlsx.read`
  guarantees.
- The source reads `Sheets.Details` by property lookup; the model uses a map
  lookup. A missing `Details` sheet makes `parseMeta(undefined)` throw, which
  is modelled as `NoDetailsSheet`.
- The thirteen text properties of the header live in one map keyed by keyword,
  not as separately named properties. An absent key is an undefined property.
- `balancePurgeFlow` and `samplePurgeFlow` are properties of `meta` in the
  source. Here they sit beside the header in the result, and the header
  itself is unchanged.
- `Field` returns the empty string for a missing field. The scan never reads a
  missing field: such a line makes the parse fail first.
- A thrown `TypeError` carries no position in the source. The model's
  `MissingField` records the index of the line that threw.
- TAInstrumentsExcel.ValueElseUndefinedFloat: its own contract states only
  when a value is present. `FloatReadsTheValue` states what the value is.
