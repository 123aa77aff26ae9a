/**
 * The reader of TA Instruments workbooks (src/from/parseTAInstrumentsExcel.js).
 *
 * The workbook is what `xlsx.read` makes of the file: the sheet names in order
 * and a sheet object per name. A sheet is a map from (row, column), both counted
 * from 0, to the cells present, and the row range of its `!ref`. The `Details`
 * sheet holds the metadata in fixed cells of column B; every other sheet holds
 * four data columns below four heading rows: time, temperature, weight and
 * weight percent.
 *
 * `parseFloat` is a parameter of an unspecified numeric type `N`; `undefined`
 * is `None`; a thrown TypeError is a `Failure`.
 */
module TAInstrumentsExcel {
  import opened Wrappers
  import opened JsBuiltins

  // ---------------------------------------------------------------------------
  // Workbooks
  // ---------------------------------------------------------------------------

  /** The value `v` of a cell: a string, a number (kept as the text `String(v)`
      gives for it) or a boolean. */
  datatype CellValue = Text(s: string) | Number(literal: string) | Boolean(b: bool)

  /** `String(v)`. */
  function StringOf(v: CellValue): string {
    match v
    case Text(s) => s
    case Number(literal) => literal
    case Boolean(b) => if b then "true" else "false"
  }

  /** A cell object; of its properties the parser reads only `v`. */
  datatype Cell = Cell(v: CellValue)

  /** The rows of `decode_range(sheet['!ref'])`: `s.r` and `e.r`. */
  datatype Range = Range(startRow: nat, endRow: nat)

  datatype Sheet = Sheet(cells: map<(nat, nat), Cell>, range: Range)

  /** `workbook.SheetNames` and `workbook.Sheets`. */
  datatype Workbook = Workbook(sheetNames: seq<string>, sheets: map<string, Sheet>)

  /** `sheet[encode_cell({r: row, c: col})]`, which is also `sheet.B1` and the
      like for the A1 name of the cell. */
  function CellAt(sheet: Sheet, row: nat, col: nat): Option<Cell> {
    if (row, col) in sheet.cells then Some(sheet.cells[(row, col)]) else None
  }

  // ---------------------------------------------------------------------------
  // valueElseUndefined
  // ---------------------------------------------------------------------------

  /** `valueElseUndefined(cell)`: the value of a present cell, `undefined` for
      an absent one. */
  function ValueElseUndefined(cell: Option<Cell>): (r: Option<CellValue>)
    ensures r.Some? <==> cell.Some?
    ensures cell.Some? ==> r.value == cell.value.v
  {
    match cell
    case None => None
    case Some(c) => Some(c.v)
  }

  /** `valueElseUndefinedFloat(cell)`: `parseFloat` of the value of a present
      cell, `undefined` for an absent one. */
  function ValueElseUndefinedFloat<N>(cell: Option<Cell>, parseFloat: string -> N): (r: Option<N>)
    ensures r.Some? <==> cell.Some?
  {
    match cell
    case None => None
    case Some(c) => Some(parseFloat(StringOf(c.v)))
  }

  /** The float reader is the plain reader followed by `parseFloat`, which
      reads the value as a string. */
  lemma FloatReadsTheValue<N>(cell: Option<Cell>, parseFloat: string -> N)
    ensures ValueElseUndefinedFloat(cell, parseFloat) ==
              match ValueElseUndefined(cell) case None => None case Some(v) => Some(parseFloat(StringOf(v)))
  {
  }

  // ---------------------------------------------------------------------------
  // parseDataSheet
  // ---------------------------------------------------------------------------

  /** The first data row: the first four rows of the range are headings. */
  function FirstDataRow(range: Range): nat {
    range.startRow + 4
  }

  /** The number of rows from `s.r + 4` to `e.r` inclusive. */
  function RowCount(range: Range): nat
  {
    if range.endRow + 1 >= FirstDataRow(range) then range.endRow + 1 - FirstDataRow(range) else 0
  }

  /** The first `n` values of column `col` below the headings. */
  function ColumnPrefix<N>(sheet: Sheet, col: nat, n: nat, parseFloat: string -> N): seq<Option<N>> {
    seq(n, k requires 0 <= k => ValueElseUndefinedFloat(CellAt(sheet, FirstDataRow(sheet.range) + k, col), parseFloat))
  }

  /** Column `col` of a data sheet: one value per row of the range below the
      headings. */
  function SheetColumn<N>(sheet: Sheet, col: nat, parseFloat: string -> N): seq<Option<N>> {
    ColumnPrefix(sheet, col, RowCount(sheet.range), parseFloat)
  }

  /** A column has one entry per data row, and entry `k` is the cell `k` rows
      below the headings, read as a float, or `undefined` where that cell is
      absent. */
  lemma SheetColumnEntries<N>(sheet: Sheet, col: nat, parseFloat: string -> N)
    ensures |SheetColumn(sheet, col, parseFloat)| ==
              if sheet.range.endRow >= sheet.range.startRow + 4 then sheet.range.endRow - (sheet.range.startRow + 4) + 1 else 0
    ensures forall k :: 0 <= k < |SheetColumn(sheet, col, parseFloat)| ==>
              var cell := CellAt(sheet, sheet.range.startRow + 4 + k, col);
              (SheetColumn(sheet, col, parseFloat)[k].None? <==> cell.None?) &&
              (cell.Some? ==> SheetColumn(sheet, col, parseFloat)[k] == Some(parseFloat(StringOf(cell.value.v))))
  {
    var column := SheetColumn(sheet, col, parseFloat);
    forall k | 0 <= k < RowCount(sheet.range)
      ensures column[k] == ValueElseUndefinedFloat(CellAt(sheet, sheet.range.startRow + 4 + k, col), parseFloat)
    {
    }
  }

  /** Two sheets with the same range and the same cells in columns 0 to 3 of
      the rows below the headings give the same columns: no other cell is read. */
  lemma OnlyFourColumnsRead<N>(a: Sheet, b: Sheet, parseFloat: string -> N)
    requires a.range == b.range
    requires forall row: nat, col: nat {:trigger CellAt(a, row, col)} {:trigger CellAt(b, row, col)} ::
               FirstDataRow(a.range) <= row <= a.range.endRow && col < 4 ==> CellAt(a, row, col) == CellAt(b, row, col)
    ensures forall col :: 0 <= col < 4 ==> SheetColumn(a, col, parseFloat) == SheetColumn(b, col, parseFloat)
  {
    forall col | 0 <= col < 4 ensures SheetColumn(a, col, parseFloat) == SheetColumn(b, col, parseFloat) {
      var ca, cb := SheetColumn(a, col, parseFloat), SheetColumn(b, col, parseFloat);
      forall k | 0 <= k < |ca| ensures ca[k] == cb[k] {
        assert CellAt(a, FirstDataRow(a.range) + k, col) == CellAt(b, FirstDataRow(a.range) + k, col);
      }
    }
  }

  /** `parseDataSheet(sheet)`: the rows below the headings, read one by one
      into four columns of `max(0, e.r - (s.r + 4) + 1)` entries each. */
  method ParseDataSheet<N>(sheet: Sheet, parseFloat: string -> N) returns (data: seq<seq<Option<N>>>)
    ensures |data| == 4
    ensures forall col :: 0 <= col < 4 ==>
              |data[col]| == if sheet.range.endRow >= sheet.range.startRow + 4
                             then sheet.range.endRow - (sheet.range.startRow + 4) + 1 else 0
    ensures forall col :: 0 <= col < 4 ==> data[col] == SheetColumn(sheet, col, parseFloat)
  {
    data := [[], [], [], []];
    var rowNum := FirstDataRow(sheet.range);
    while rowNum <= sheet.range.endRow
      invariant FirstDataRow(sheet.range) <= rowNum
      invariant rowNum <= sheet.range.endRow + 1 || rowNum == FirstDataRow(sheet.range)
      invariant |data| == 4
      invariant forall col :: 0 <= col < 4 ==>
                  data[col] == ColumnPrefix(sheet, col, rowNum - FirstDataRow(sheet.range), parseFloat)
      decreases sheet.range.endRow + 1 - rowNum
    {
      var done := rowNum - FirstDataRow(sheet.range);
      var colNum := 0;
      while colNum <= 3
        invariant 0 <= colNum <= 4 && |data| == 4
        invariant forall col :: 0 <= col < colNum ==> data[col] == ColumnPrefix(sheet, col, done + 1, parseFloat)
        invariant forall col :: colNum <= col < 4 ==> data[col] == ColumnPrefix(sheet, col, done, parseFloat)
      {
        PrefixGrows(sheet, colNum, done, parseFloat);
        data := data[colNum := data[colNum] + [ValueElseUndefinedFloat(CellAt(sheet, rowNum, colNum), parseFloat)]];
        colNum := colNum + 1;
      }
      rowNum := rowNum + 1;
    }
    assert rowNum - FirstDataRow(sheet.range) == RowCount(sheet.range);
  }

  lemma PrefixGrows<N>(sheet: Sheet, col: nat, n: nat, parseFloat: string -> N)
    ensures ColumnPrefix(sheet, col, n + 1, parseFloat) ==
              ColumnPrefix(sheet, col, n, parseFloat) +
              [ValueElseUndefinedFloat(CellAt(sheet, FirstDataRow(sheet.range) + n, col), parseFloat)]
  {
  }

  // ---------------------------------------------------------------------------
  // parseMeta
  // ---------------------------------------------------------------------------

  /** The metadata of the `Details` sheet. */
  datatype ExcelMeta<N> = ExcelMeta(
    fileName: Option<CellValue>,
    instrumentName: Option<CellValue>,
    operator: Option<CellValue>,
    date: Option<CellValue>,
    sampleName: Option<CellValue>,
    procedure: seq<string>,
    sampleWeight: N,
    sampleWeightUnit: string,
    comments: Option<CellValue>)

  /** The TypeErrors of the parser: no `Details` sheet, a `split` on a cell that
      is absent or does not hold a string, and a `trim` on the missing unit of
      B16. */
  datatype ExcelError = NoDetailsSheet | NotSplittable(cellName: string) | NoWeightUnit

  /** The string a cell holds, if it is present and holds one. */
  function TextIn(cell: Option<Cell>): Option<string> {
    match ValueElseUndefined(cell)
    case Some(Text(s)) => Some(s)
    case _ => None
  }

  /** B6, the procedure. */
  function B6(details: Sheet): Option<Cell> {
    CellAt(details, 5, 1)
  }

  /** B16, the sample weight and its unit. */
  function B16(details: Sheet): Option<Cell> {
    CellAt(details, 15, 1)
  }

  /** `parseMeta(detailsSheet)`: cells B1, B2, B3, B8, B5 and B18 as they are,
      the procedure from B6 cut at every `;` and trimmed, and the sample weight
      and its unit from the first two space-separated parts of B16. It throws
      when B6 or B16 holds no string, and when B16 holds no space. */
  function ParseMeta<N>(details: Sheet, parseFloat: string -> N): (r: Result<ExcelMeta<N>, ExcelError>)
    ensures TextIn(B6(details)).None? ==> r == Failure(NotSplittable("B6"))
    ensures TextIn(B6(details)).Some? && TextIn(B16(details)).None? ==> r == Failure(NotSplittable("B16"))
    ensures TextIn(B6(details)).Some? && TextIn(B16(details)).Some? ==>
              (r == Failure(NoWeightUnit) <==> ' ' !in TextIn(B16(details)).value)
    ensures r.Success? <==> TextIn(B6(details)).Some? && TextIn(B16(details)).Some? && ' ' in TextIn(B16(details)).value
  {
    match (TextIn(B6(details)), TextIn(B16(details)))
    case (None, _) => Failure(NotSplittable("B6"))
    case (Some(_), None) => Failure(NotSplittable("B16"))
    case (Some(b6), Some(b16)) =>
      var procedure := Split(b6, ';');
      var mass := Split(b16, ' ');
      SplitShape(b16, ' ');
      CountZero(b16, ' ');
      if |mass| < 2 then Failure(NoWeightUnit)
      else
        Success(ExcelMeta(
          ValueElseUndefined(CellAt(details, 0, 1)),
          ValueElseUndefined(CellAt(details, 1, 1)),
          ValueElseUndefined(CellAt(details, 2, 1)),
          ValueElseUndefined(CellAt(details, 7, 1)),
          ValueElseUndefined(CellAt(details, 4, 1)),
          seq(|procedure|, i requires 0 <= i < |procedure| => JsTrim(procedure[i])),
          parseFloat(mass[0]),
          JsTrim(mass[1]),
          ValueElseUndefined(CellAt(details, 17, 1))))
  }

  /** What a successful `parseMeta` holds: the plain cells as they are; one
      procedure step per `;`-separated part of B6, plus one, each trimmed; the
      weight from the part of B16 before its first space and the unit, trimmed,
      from the part after it up to the next space. */
  lemma ParseMetaReads<N>(details: Sheet, parseFloat: string -> N)
    requires ParseMeta(details, parseFloat).Success?
    ensures var m, b6, b16 := ParseMeta(details, parseFloat).value, TextIn(B6(details)).value, TextIn(B16(details)).value;
      && m.fileName == ValueElseUndefined(CellAt(details, 0, 1))
      && m.instrumentName == ValueElseUndefined(CellAt(details, 1, 1))
      && m.operator == ValueElseUndefined(CellAt(details, 2, 1))
      && m.date == ValueElseUndefined(CellAt(details, 7, 1))
      && m.sampleName == ValueElseUndefined(CellAt(details, 4, 1))
      && m.comments == ValueElseUndefined(CellAt(details, 17, 1))
      && |m.procedure| == |Split(b6, ';')| == Count(b6, ';') + 1
      && (forall i :: 0 <= i < |m.procedure| ==> m.procedure[i] == JsTrim(Split(b6, ';')[i]))
      && |Split(b16, ' ')| >= 2
      && m.sampleWeight == parseFloat(Split(b16, ' ')[0])
      && m.sampleWeightUnit == JsTrim(Split(b16, ' ')[1])
  {
    SplitShape(TextIn(B6(details)).value, ';');
  }

  /** A weight written as `<number> <unit>` is read back as that number and that
      unit, when neither part holds a space and the unit has no surrounding
      whitespace. */
  lemma WeightAndUnit<N>(details: Sheet, number: string, unit: string, parseFloat: string -> N)
    requires TextIn(B6(details)).Some?
    requires TextIn(B16(details)) == Some(number + " " + unit)
    requires ' ' !in number && ' ' !in unit && JsTrim(unit) == unit
    ensures ParseMeta(details, parseFloat).Success?
    ensures ParseMeta(details, parseFloat).value.sampleWeight == parseFloat(number)
    ensures ParseMeta(details, parseFloat).value.sampleWeightUnit == unit
  {
    SplitAroundSpace(number, unit);
    ParseMetaReads(details, parseFloat);
  }

  /** A string made of two space-free parts around one space splits into them. */
  lemma SplitAroundSpace(number: string, unit: string)
    requires ' ' !in number && ' ' !in unit
    ensures ' ' in number + " " + unit
    ensures Split(number + " " + unit, ' ') == [number, unit]
  {
    var b16 := number + " " + unit;
    JoinTwo(number, unit, ' ');
    assert number + [' '] + unit == b16;
    assert b16[|number|] == ' ';
    var parts := [number, unit];
    forall i | 0 <= i < |parts| ensures ' ' !in parts[i] {
      if i == 0 { assert parts[i] == number; } else { assert parts[i] == unit; }
    }
    SplitJoin(parts, ' ');
  }

  /** When no step of the procedure has whitespace around it, the steps joined
      with `;` give back B6. */
  lemma ProcedureRoundTrip<N>(details: Sheet, parseFloat: string -> N)
    requires ParseMeta(details, parseFloat).Success?
    requires forall i :: 0 <= i < |Split(TextIn(B6(details)).value, ';')| ==>
               JsTrim(Split(TextIn(B6(details)).value, ';')[i]) == Split(TextIn(B6(details)).value, ';')[i]
    ensures Join(ParseMeta(details, parseFloat).value.procedure, ';') == TextIn(B6(details)).value
  {
    var b6 := TextIn(B6(details)).value;
    ParseMetaReads(details, parseFloat);
    assert ParseMeta(details, parseFloat).value.procedure == Split(b6, ';');
    JoinSplit(b6, ';');
  }

  // ---------------------------------------------------------------------------
  // parseTAInstrumentsExcel
  // ---------------------------------------------------------------------------

  /** Every name of `SheetNames` has its sheet in `Sheets`, as `xlsx.read`
      guarantees; of the `Details` sheet only the metadata is read. */
  predicate SheetsPresent(wb: Workbook, names: seq<string>) {
    forall i :: 0 <= i < |names| && names[i] != "Details" ==> names[i] in wb.sheets
  }

  /** Column `col` of the data sheets among `names`, one sheet after the other,
      in order; the `Details` sheet is skipped. */
  function Stacked<N>(wb: Workbook, names: seq<string>, col: nat, parseFloat: string -> N): seq<Option<N>>
    requires SheetsPresent(wb, names)
  {
    if names == [] then []
    else
      var name := names[|names| - 1];
      Stacked(wb, names[..|names| - 1], col, parseFloat) +
        (if name != "Details" then SheetColumn(wb.sheets[name], col, parseFloat) else [])
  }

  /** The number of data rows of the data sheets among `names`. */
  function DataRowTotal(wb: Workbook, names: seq<string>): nat
    requires SheetsPresent(wb, names)
  {
    if names == [] then 0
    else
      var name := names[|names| - 1];
      DataRowTotal(wb, names[..|names| - 1]) + (if name != "Details" then RowCount(wb.sheets[name].range) else 0)
  }

  /** Every output column has one entry per data row of every data sheet, so
      the four columns have the same length. */
  lemma {:induction false} StackedLength<N>(wb: Workbook, names: seq<string>, col: nat, parseFloat: string -> N)
    requires SheetsPresent(wb, names)
    ensures |Stacked(wb, names, col, parseFloat)| == DataRowTotal(wb, names)
    decreases |names|
  {
    if names != [] {
      StackedLength(wb, names[..|names| - 1], col, parseFloat);
    }
  }

  /** Taking one more sheet of `names` appends that sheet's column, unless it is
      the `Details` sheet. */
  lemma StackedStep<N>(wb: Workbook, names: seq<string>, i: nat, col: nat, parseFloat: string -> N)
    requires i < |names| && SheetsPresent(wb, names)
    ensures SheetsPresent(wb, names[..i]) && SheetsPresent(wb, names[..i + 1])
    ensures Stacked(wb, names[..i + 1], col, parseFloat) ==
              Stacked(wb, names[..i], col, parseFloat) +
                (if names[i] != "Details" then SheetColumn(wb.sheets[names[i]], col, parseFloat) else [])
  {
    assert names[..i + 1][..i] == names[..i] && names[..i + 1][i] == names[i];
  }

  /** The columns of two runs of sheets are the columns of the first run followed
      by those of the second. */
  lemma {:induction false} StackedAppend<N>(wb: Workbook, a: seq<string>, b: seq<string>, col: nat, parseFloat: string -> N)
    requires SheetsPresent(wb, a) && SheetsPresent(wb, b)
    ensures SheetsPresent(wb, a + b)
    ensures Stacked(wb, a + b, col, parseFloat) == Stacked(wb, a, col, parseFloat) + Stacked(wb, b, col, parseFloat)
    decreases |b|
  {
    PresentAppend(wb, a, b);
    if b == [] {
      assert a + b == a;
    } else {
      var init, last := b[..|b| - 1], b[|b| - 1];
      assert b == init + [last];
      PresentAppend(wb, a, init);
      var ab := a + b;
      assert ab[..|ab| - 1] == a + init && ab[|ab| - 1] == last;
      var tail := if last != "Details" then SheetColumn(wb.sheets[last], col, parseFloat) else [];
      assert Stacked(wb, ab, col, parseFloat) == Stacked(wb, a + init, col, parseFloat) + tail;
      assert Stacked(wb, b, col, parseFloat) == Stacked(wb, init, col, parseFloat) + tail;
      StackedAppend(wb, a, init, col, parseFloat);
    }
  }

  /** Two runs of sheets that are each present together form a present run. */
  lemma PresentAppend(wb: Workbook, a: seq<string>, b: seq<string>)
    requires SheetsPresent(wb, a) && SheetsPresent(wb, b)
    ensures SheetsPresent(wb, a + b)
  {
    assert forall i :: 0 <= i < |a + b| ==> (a + b)[i] == if i < |a| then a[i] else b[i - |a|];
  }

  /** The `Details` sheet contributes no data, wherever it stands. */
  lemma DetailsContributesNothing<N>(wb: Workbook, a: seq<string>, b: seq<string>, col: nat, parseFloat: string -> N)
    requires SheetsPresent(wb, a) && SheetsPresent(wb, b)
    ensures SheetsPresent(wb, a + ["Details"] + b) && SheetsPresent(wb, a + b)
    ensures Stacked(wb, a + ["Details"] + b, col, parseFloat) == Stacked(wb, a + b, col, parseFloat)
  {
    var d := ["Details"];
    assert Stacked(wb, d, col, parseFloat) == [] by {
      assert d[..0] == [];
    }
    StackedAppend(wb, a, b, col, parseFloat);
    StackedAppend(wb, a, d, col, parseFloat);
    StackedAppend(wb, a + d, b, col, parseFloat);
  }

  /** The result object: the four data columns and the metadata. */
  datatype ExcelData<N> = ExcelData(
    time: seq<Option<N>>,
    temperature: seq<Option<N>>,
    weight: seq<Option<N>>,
    weightPercent: seq<Option<N>>,
    meta: ExcelMeta<N>)

  /** The `forEach` over `SheetNames` of `parseTAInstrumentsExcel`: every sheet
      but `Details` is parsed and its four columns pushed onto the output. */
  method StackSheets<N>(wb: Workbook, names: seq<string>, parseFloat: string -> N)
    returns (time: seq<Option<N>>, temperature: seq<Option<N>>, weight: seq<Option<N>>, weightPercent: seq<Option<N>>)
    requires SheetsPresent(wb, names)
    ensures time == Stacked(wb, names, 0, parseFloat)
    ensures temperature == Stacked(wb, names, 1, parseFloat)
    ensures weight == Stacked(wb, names, 2, parseFloat)
    ensures weightPercent == Stacked(wb, names, 3, parseFloat)
  {
    time, temperature, weight, weightPercent := [], [], [], [];
    var i := 0;
    while i < |names|
      invariant i <= |names|
      invariant time == Stacked(wb, names[..i], 0, parseFloat)
      invariant temperature == Stacked(wb, names[..i], 1, parseFloat)
      invariant weight == Stacked(wb, names[..i], 2, parseFloat)
      invariant weightPercent == Stacked(wb, names[..i], 3, parseFloat)
    {
      var sheetName := names[i];
      StackedStep(wb, names, i, 0, parseFloat);
      StackedStep(wb, names, i, 1, parseFloat);
      StackedStep(wb, names, i, 2, parseFloat);
      StackedStep(wb, names, i, 3, parseFloat);
      if sheetName != "Details" {
        var parsedData := ParseDataSheet(wb.sheets[sheetName], parseFloat);
        time := time + parsedData[0];
        temperature := temperature + parsedData[1];
        weight := weight + parsedData[2];
        weightPercent := weightPercent + parsedData[3];
      }
      i := i + 1;
    }
    assert names[..i] == names;
  }

  /** `parseTAInstrumentsExcel(inputData)` on the workbook `xlsx.read` makes of
      it: the metadata of the `Details` sheet, and the four columns of every
      other sheet appended in `SheetNames` order. */
  method ParseTAInstrumentsExcel<N>(wb: Workbook, parseFloat: string -> N) returns (r: Result<ExcelData<N>, ExcelError>)
    requires SheetsPresent(wb, wb.sheetNames)
    ensures "Details" !in wb.sheets ==> r == Failure(NoDetailsSheet)
    ensures "Details" in wb.sheets && ParseMeta(wb.sheets["Details"], parseFloat).Failure? ==>
              r == Failure(ParseMeta(wb.sheets["Details"], parseFloat).error)
    ensures "Details" in wb.sheets && ParseMeta(wb.sheets["Details"], parseFloat).Success? ==>
              && r.Success?
              && r.value.meta == ParseMeta(wb.sheets["Details"], parseFloat).value
              && r.value.time == Stacked(wb, wb.sheetNames, 0, parseFloat)
              && r.value.temperature == Stacked(wb, wb.sheetNames, 1, parseFloat)
              && r.value.weight == Stacked(wb, wb.sheetNames, 2, parseFloat)
              && r.value.weightPercent == Stacked(wb, wb.sheetNames, 3, parseFloat)
  {
    if "Details" !in wb.sheets {
      return Failure(NoDetailsSheet);
    }
    var meta := ParseMeta(wb.sheets["Details"], parseFloat);
    if meta.Failure? {
      return Failure(meta.error);
    }
    var time, temperature, weight, weightPercent := StackSheets(wb, wb.sheetNames, parseFloat);
    r := Success(ExcelData(time, temperature, weight, weightPercent, meta.value));
  }
}
