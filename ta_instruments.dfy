/**
 * The reader of TA Instruments plain-text exports (src/from/parseTAInstruments.js).
 *
 * The text is cut into lines, blank lines and `StartOfData` markers are dropped,
 * a header scan reads keyword lines up to the first `OrgFile` line, and every
 * later line not starting with `-` is a data row. A row is cut at runs of
 * whitespace, and its first five pieces give time, temperature, weight, balance
 * purge flow and sample purge flow. A missing piece is `undefined`, a leading
 * blank gives an empty first piece, and pieces past the fifth are ignored.
 *
 * JavaScript's `Number` and `parseFloat` are parameters (`number`, `parseFloat`)
 * of an unspecified numeric type `N`; `undefined` is `None`; a thrown TypeError
 * is a `Failure`.
 */
module TAInstruments {
  import opened Wrappers
  import opened JsBuiltins

  // ---------------------------------------------------------------------------
  // Lines
  // ---------------------------------------------------------------------------

  /** `text.split(/\r?\n/)`: the text cut at every LF, a CR just before an LF
      going with it. */
  function SplitLines(text: string): (lines: seq<string>)
    ensures |lines| >= 1
  {
    if text == [] then [[]]
    else if text[0] == '\n' then [[]] + SplitLines(text[1..])
    else if |text| > 1 && text[0] == '\r' && text[1] == '\n' then [[]] + SplitLines(text[2..])
    else
      var rest := SplitLines(text[1..]);
      [[text[0]] + rest[0]] + rest[1..]
  }

  /** The text with every CR LF pair replaced by a single LF. */
  function CrLfToLf(text: string): string {
    if text == [] then []
    else if |text| > 1 && text[0] == '\r' && text[1] == '\n' then ['\n'] + CrLfToLf(text[2..])
    else [text[0]] + CrLfToLf(text[1..])
  }

  /** Cutting at `\r?\n` is cutting at LF once line ends are normalised: so the
      lines hold no LF, there is one more line than there are line ends, and
      joined with LF they give back the normalised text (JsBuiltins.Split,
      JsBuiltins.JoinSplit). */
  lemma {:induction false} SplitLinesIsSplitAtLf(text: string)
    ensures SplitLines(text) == Split(CrLfToLf(text), '\n')
  {
    if text == [] {
    } else if text[0] == '\n' {
      SplitLinesIsSplitAtLf(text[1..]);
      var q := CrLfToLf(text[1..]);
      assert CrLfToLf(text) == ['\n'] + q;
      assert (['\n'] + q)[1..] == q;
    } else if |text| > 1 && text[0] == '\r' && text[1] == '\n' {
      SplitLinesIsSplitAtLf(text[2..]);
      var q := CrLfToLf(text[2..]);
      assert (['\n'] + q)[1..] == q;
    } else {
      SplitLinesIsSplitAtLf(text[1..]);
      var q := CrLfToLf(text[1..]);
      assert CrLfToLf(text) == [text[0]] + q;
      assert ([text[0]] + q)[1..] == q;
    }
  }

  /** `/^\s*$/`: the line is empty or all whitespace. */
  predicate IsBlankLine(line: string) {
    AllChars(line, IsJsSpace)
  }

  /** The lines the first `filter` keeps: neither blank nor exactly `StartOfData`. */
  predicate KeepLine(line: string) {
    !IsBlankLine(line) && line != "StartOfData"
  }

  /** The lines of the text that the parser works on. */
  function KeptLines(text: string): seq<string> {
    Filter(SplitLines(text), KeepLine)
  }

  /** Blank lines and `StartOfData` markers are all removed, and every other line
      is kept as often as it occurs. */
  lemma KeptLinesExact(text: string, line: string)
    ensures KeepLine(line) ==> multiset(KeptLines(text))[line] == multiset(SplitLines(text))[line]
    ensures !KeepLine(line) ==> line !in KeptLines(text)
  {
    FilterMultiplicity(SplitLines(text), KeepLine, line);
  }

  // ---------------------------------------------------------------------------
  // Header keywords
  // ---------------------------------------------------------------------------

  /** The header keywords the scan recognises, in the order it tests them. */
  datatype HeaderKey =
    | Instrument | InstSerial | Sample | Size | Comment | Method | Mode | File | Date
    | Time | OrgMethod | Controls | FurnaceType | Operator | RunSerial | ProcName | OrgFile

  /** The keyword as the header line spells it. */
  function Keyword(key: HeaderKey): string {
    match key
    case Instrument => "Instrument"
    case InstSerial => "InstSerial"
    case Sample => "Sample"
    case Size => "Size"
    case Comment => "Comment"
    case Method => "Method"
    case Mode => "Mode"
    case File => "File"
    case Date => "Date"
    case Time => "Time"
    case OrgMethod => "OrgMethod"
    case Controls => "Controls"
    case FurnaceType => "FurnaceType"
    case Operator => "Operator"
    case RunSerial => "RunSerial"
    case ProcName => "ProcName"
    case OrgFile => "OrgFile"
  }

  /** The test of the scan for one keyword: `/^Keyword/`, and `/^Xcomment|^Comment/`
      for comments. */
  predicate Matches(line: string, key: HeaderKey) {
    StartsWith(line, Keyword(key)) || (key == Comment && StartsWith(line, "Xcomment"))
  }

  /** The keywords in the order the `if … else if …` chain of the scan tests them. */
  const ChainOrder: seq<HeaderKey> :=
    [Instrument, InstSerial, Sample, Size, Comment, Method, Mode, File, Date, Time,
     OrgMethod, Controls, FurnaceType, Operator, RunSerial, ProcName, OrgFile]

  /** The first keyword of `keys` whose test the line passes. */
  function FirstMatch(line: string, keys: seq<HeaderKey>): Option<HeaderKey> {
    if keys == [] then None
    else if Matches(line, keys[0]) then Some(keys[0])
    else FirstMatch(line, keys[1..])
  }

  /** The `if … else if …` chain of the scan as written: the first keyword, in
      source order, whose test the line passes. */
  function Chain(line: string): Option<HeaderKey> {
    FirstMatch(line, ChainOrder)
  }

  /** The keyword whose test the line passes, if any, found from the first
      letters of the line; there is at most one (KeywordsExclusive). */
  function Dispatch(line: string): Option<HeaderKey> {
    match KeywordByLetters(line)
    case None => None
    case Some(k) => if Matches(line, k) then Some(k) else None
  }

  lemma {:induction false} FirstMatchSound(line: string, keys: seq<HeaderKey>)
    ensures FirstMatch(line, keys).Some? ==>
              FirstMatch(line, keys).value in keys && Matches(line, FirstMatch(line, keys).value)
    ensures FirstMatch(line, keys).None? ==> forall i :: 0 <= i < |keys| ==> !Matches(line, keys[i])
  {
    if keys != [] {
      FirstMatchSound(line, keys[1..]);
      if FirstMatch(line, keys).None? {
        forall i | 0 <= i < |keys| ensures !Matches(line, keys[i]) {
          if i > 0 {
            assert keys[i] == keys[1..][i - 1];
          }
        }
      }
    }
  }

  /** The chain tests every keyword. */
  lemma ChainIsComplete(key: HeaderKey)
    ensures exists i :: 0 <= i < |ChainOrder| && ChainOrder[i] == key
  {
    match key
    case Instrument => assert ChainOrder[0] == key;
    case InstSerial => assert ChainOrder[1] == key;
    case Sample => assert ChainOrder[2] == key;
    case Size => assert ChainOrder[3] == key;
    case Comment => assert ChainOrder[4] == key;
    case Method => assert ChainOrder[5] == key;
    case Mode => assert ChainOrder[6] == key;
    case File => assert ChainOrder[7] == key;
    case Date => assert ChainOrder[8] == key;
    case Time => assert ChainOrder[9] == key;
    case OrgMethod => assert ChainOrder[10] == key;
    case Controls => assert ChainOrder[11] == key;
    case FurnaceType => assert ChainOrder[12] == key;
    case Operator => assert ChainOrder[13] == key;
    case RunSerial => assert ChainOrder[14] == key;
    case ProcName => assert ChainOrder[15] == key;
    case OrgFile => assert ChainOrder[16] == key;
  }

  /** No keyword is a prefix of another, so a line passes at most one test. */
  lemma KeywordsExclusive(line: string, k1: HeaderKey, k2: HeaderKey)
    requires Matches(line, k1) && Matches(line, k2)
    ensures k1 == k2
  {
    KeywordFromLetters(line, k1);
    KeywordFromLetters(line, k2);
  }

  /** The keyword a line starts with, told apart by at most its first five letters. */
  function KeywordByLetters(line: string): Option<HeaderKey> {
    if |line| < 4 then None
    else if line[0] == 'I' then Some(if |line| > 4 && line[4] == 'S' then InstSerial else Instrument)
    else if line[0] == 'S' then Some(if line[1] == 'a' then Sample else Size)
    else if line[0] == 'X' then Some(Comment)
    else if line[0] == 'C' then Some(if line[2] == 'm' then Comment else Controls)
    else if line[0] == 'M' then Some(if line[1] == 'e' then Method else Mode)
    else if line[0] == 'F' then Some(if line[1] == 'i' then File else FurnaceType)
    else if line[0] == 'D' then Some(Date)
    else if line[0] == 'T' then Some(Time)
    else if line[0] == 'O' then Some(if line[1] == 'p' then Operator else if line[3] == 'M' then OrgMethod else OrgFile)
    else if line[0] == 'R' then Some(RunSerial)
    else if line[0] == 'P' then Some(ProcName)
    else None
  }

  lemma KeywordFromLetters(line: string, key: HeaderKey)
    requires Matches(line, key)
    ensures KeywordByLetters(line) == Some(key)
  {
    match key
    case Instrument => assert line[0] == 'I' && line[4] == 'r' && |line| >= 10;
    case InstSerial => assert line[0] == 'I' && line[4] == 'S' && |line| >= 10;
    case Sample => assert line[0] == 'S' && line[1] == 'a' && |line| >= 6;
    case Size => assert line[0] == 'S' && line[1] == 'i';
    case Comment =>
      if StartsWith(line, "Xcomment") {
        assert line[0] == 'X' && |line| >= 8;
      } else {
        assert line[0] == 'C' && line[2] == 'm' && |line| >= 7;
      }
    case Method => assert line[0] == 'M' && line[1] == 'e' && |line| >= 6;
    case Mode => assert line[0] == 'M' && line[1] == 'o';
    case File => assert line[0] == 'F' && line[1] == 'i';
    case Date => assert line[0] == 'D';
    case Time => assert line[0] == 'T';
    case OrgMethod => assert line[0] == 'O' && line[1] == 'r' && line[3] == 'M' && |line| >= 9;
    case Controls => assert line[0] == 'C' && line[2] == 'n' && |line| >= 8;
    case FurnaceType => assert line[0] == 'F' && line[1] == 'u' && |line| >= 11;
    case Operator => assert line[0] == 'O' && line[1] == 'p' && |line| >= 8;
    case RunSerial => assert line[0] == 'R' && |line| >= 9;
    case ProcName => assert line[0] == 'P' && |line| >= 8;
    case OrgFile => assert line[0] == 'O' && line[1] == 'r' && line[3] == 'F' && |line| >= 7;
  }

  /** A line is read as a keyword exactly when it passes that keyword's test. */
  lemma DispatchFindsTheOnlyMatch(line: string, key: HeaderKey)
    ensures Dispatch(line) == Some(key) <==> Matches(line, key)
  {
    if Matches(line, key) {
      KeywordFromLetters(line, key);
    }
  }

  /** First match wins, and the first match is the only one: the chain reads a
      line as the one keyword whose test it passes, and as none when it passes
      no test. */
  lemma ChainIsDispatch(line: string)
    ensures Chain(line) == Dispatch(line)
  {
    FirstMatchSound(line, ChainOrder);
    if Chain(line).Some? {
      DispatchFindsTheOnlyMatch(line, Chain(line).value);
    } else if Dispatch(line).Some? {
      var key := Dispatch(line).value;
      DispatchFindsTheOnlyMatch(line, key);
      ChainIsComplete(key);
    }
  }

  // ---------------------------------------------------------------------------
  // splitTrim
  // ---------------------------------------------------------------------------

  /** The replace of splitTrim, `/^[ \t]*(.*?)[ \t]*$/` to `$1`: spaces and tabs
      are trimmed from both ends, unless the field holds a line terminator, which
      `.` does not match, and then the pattern fails and the field is returned
      as it is. */
  function TrimField(field: string): string {
    if exists i :: 0 <= i < |field| && IsLineTerminator(field[i]) then field
    else Trim(field, IsSpaceOrTab)
  }

  /** A field with a line terminator is returned as it is; any other field loses
      its leading and trailing spaces and tabs, and nothing else. */
  lemma TrimFieldSpec(field: string)
    ensures (exists i :: 0 <= i < |field| && IsLineTerminator(field[i])) ==> TrimField(field) == field
    ensures (forall i :: 0 <= i < |field| ==> !IsLineTerminator(field[i])) ==>
              var r := TrimField(field);
              (r == [] || (!IsSpaceOrTab(r[0]) && !IsSpaceOrTab(r[|r| - 1]))) &&
              exists k :: 0 <= k <= |field| - |r| && field[k..][..|r|] == r &&
                AllChars(field[..k], IsSpaceOrTab) && AllChars(field[k..][|r|..], IsSpaceOrTab)
  {
  }

  /** The line has a tab-separated field number `item` (counting from 0). */
  predicate HasField(line: string, item: nat) {
    item < |Split(line, '\t')|
  }

  /** The total twin of `SplitTrim`: field number `item` of the line, trimmed,
      and empty when the line has no such field, a value the scan never uses,
      because there `SplitTrim` is `None` and reading the field throws. */
  function Field(line: string, item: nat): string {
    if HasField(line, item) then TrimField(Split(line, '\t')[item]) else []
  }

  /** `splitTrim(line, item)`: the trimmed tab-separated field number `item`;
      when the line has fewer tabs, `undefined.replace` throws. */
  function SplitTrim(line: string, item: nat): (r: Option<string>)
    ensures r.Some? <==> item <= Count(line, '\t')
    ensures r.Some? ==> item < |Split(line, '\t')| && r.value == TrimField(Split(line, '\t')[item])
  {
    SplitShape(line, '\t');
    if HasField(line, item) then Some(Field(line, item)) else None
  }

  // ---------------------------------------------------------------------------
  // The header and its specification
  // ---------------------------------------------------------------------------

  /** The `meta` object. `fields` holds the thirteen text properties, keyed by the
      keyword whose line sets them: instrument, instrumentSerial, sampleName,
      method, mode, file, date, time, controls, furnaceType, operator, runSerial
      and procName; a key that is absent is an undefined property. */
  datatype Header<N> = Header(
    fields: map<HeaderKey, string>,
    weight: Option<N>,
    weightUnit: Option<string>,
    comments: seq<string>,
    methodSteps: seq<string>,
    dataStart: Option<nat>)

  /** The keywords whose lines set a text property. */
  predicate IsTextKey(k: HeaderKey) {
    !(k == Size || k == Comment || k == OrgMethod || k == OrgFile)
  }

  /** The highest field number the scan reads from a line of this keyword. */
  function ItemsRead(key: HeaderKey): nat {
    if key == Size then 2 else if key == OrgFile then 0 else 1
  }

  /** The scan can read this line without throwing. */
  predicate Readable(line: string) {
    match Dispatch(line)
    case None => true
    case Some(k) => HasField(line, ItemsRead(k))
  }

  predicate Unreadable(line: string) {
    !Readable(line)
  }

  predicate IsOrgFileLine(line: string) {
    Dispatch(line) == Some(OrgFile)
  }

  /** Field `item` of the last line of `head` that passes the test of `key`. */
  function LastOf(head: seq<string>, key: HeaderKey, item: nat): Option<string>
  {
    if head == [] then None
    else
      var line := head[|head| - 1];
      if Dispatch(line) == Some(key) then Some(Field(line, item))
      else LastOf(head[..|head| - 1], key, item)
  }

  /** Field 1 of every line of `head` that passes the test of `key`, in order. */
  function Collect(head: seq<string>, key: HeaderKey): seq<string>
  {
    if head == [] then []
    else
      var line := head[|head| - 1];
      Collect(head[..|head| - 1], key) + (if Dispatch(line) == Some(key) then [Field(line, 1)] else [])
  }

  /** The branch of the scan one header line takes: a text property is
      overwritten, a `Size` line overwrites the weight and its unit, a comment or
      a method step is appended, and a line of no keyword changes nothing. An
      `OrgFile` line ends the scan; the scan below never reaches one. */
  function ScanLine<N>(meta: Header<N>, line: string, parseFloat: string -> N): Header<N>
  {
    match Dispatch(line)
    case None => meta
    case Some(key) =>
      if key == OrgFile then meta
      else if key == Size then
        meta.(weight := Some(parseFloat(Field(line, 1))), weightUnit := Some(Field(line, 2)))
      else if key == Comment then meta.(comments := meta.comments + [Field(line, 1)])
      else if key == OrgMethod then meta.(methodSteps := meta.methodSteps + [Field(line, 1)])
      else meta.(fields := meta.fields[key := Field(line, 1)])
  }

  /** `meta` after the scan has run over the header lines `head`, from `{}`. */
  function HeaderScan<N>(head: seq<string>, parseFloat: string -> N): Header<N>
  {
    if head == [] then Header(map[], None, None, [], [], None)
    else ScanLine(HeaderScan(head[..|head| - 1], parseFloat), head[|head| - 1], parseFloat)
  }

  /** The index of the first `OrgFile` line, or the number of lines. */
  function HeaderEnd(lines: seq<string>): (end: nat)
    ensures end <= |lines|
  {
    match FirstIndex(lines, IsOrgFileLine)
    case None => |lines|
    case Some(k) => k
  }

  /** The TypeError of a header line whose field is missing, by its index among
      the kept lines. */
  datatype ParseError = MissingField(line: nat)

  /** What `parseMeta` returns or throws: the scan of the lines before the first
      `OrgFile` line, `dataStart` one past it, and an error at the first of those
      lines that cannot be read. */
  function HeaderOf<N>(lines: seq<string>, parseFloat: string -> N): Result<Header<N>, ParseError> {
    var end := HeaderEnd(lines);
    match FirstIndex(lines[..end], Unreadable)
    case Some(j) => Failure(MissingField(j))
    case None =>
      var meta := HeaderScan(lines[..end], parseFloat);
      Success(if end < |lines| then meta.(dataStart := Some(end + 1)) else meta)
  }

  /** Splitting off the last header line. */
  lemma LastLine(head: seq<string>, line: string)
    ensures (head + [line])[..|head|] == head
  {
    var h := head + [line];
    assert h[..|h| - 1] == head && h[|h| - 1] == line;
  }

  /** A text property is the field of the last line of its keyword, and is
      undefined when no line has the keyword. */
  lemma {:induction false} ScanTextField<N>(head: seq<string>, key: HeaderKey, parseFloat: string -> N)
    requires IsTextKey(key)
    ensures key in HeaderScan(head, parseFloat).fields <==> LastOf(head, key, 1).Some?
    ensures key in HeaderScan(head, parseFloat).fields ==>
              HeaderScan(head, parseFloat).fields[key] == LastOf(head, key, 1).value
    decreases |head|
  {
    if head != [] {
      var init, line := head[..|head| - 1], head[|head| - 1];
      ScanTextField(init, key, parseFloat);
      LastLine(init, line);
      assert head == init + [line];
      ScanFieldStep(init, line, key, parseFloat);
      LastOfStep(init, line, key, 1);
    }
  }

  /** One line is the last line of its keyword, and leaves the last lines of the
      others. */
  lemma LastOfStep(init: seq<string>, line: string, key: HeaderKey, item: nat)
    requires item <= ItemsRead(key)
    ensures LastOf(init + [line], key, item) ==
              if Dispatch(line) == Some(key) then Some(Field(line, item)) else LastOf(init, key, item)
  {
    LastLine(init, line);
  }

  /** One line sets the text property of its keyword, and leaves the others. */
  lemma ScanFieldStep<N>(init: seq<string>, line: string, key: HeaderKey, parseFloat: string -> N)
    requires IsTextKey(key)
    ensures var before, after := HeaderScan(init, parseFloat).fields, HeaderScan(init + [line], parseFloat).fields;
      if Dispatch(line) == Some(key) then key in after && after[key] == Field(line, 1)
      else (key in after <==> key in before) && (key in after ==> after[key] == before[key])
  {
    LastLine(init, line);
    var h := init + [line];
    assert h[..|h| - 1] == init && h[|h| - 1] == line;
    assert HeaderScan(h, parseFloat) == ScanLine(HeaderScan(init, parseFloat), line, parseFloat);
  }

  /** Only the text keywords set a property of `fields`. */
  lemma {:induction false} ScanFieldsAreText<N>(head: seq<string>, key: HeaderKey, parseFloat: string -> N)
    requires key in HeaderScan(head, parseFloat).fields
    ensures IsTextKey(key)
    decreases |head|
  {
    if head != [] {
      var init, line := head[..|head| - 1], head[|head| - 1];
      if key !in HeaderScan(init, parseFloat).fields {
        assert Dispatch(line) == Some(key);
      } else {
        ScanFieldsAreText(init, key, parseFloat);
      }
    }
  }

  /** The weight and its unit come from the last `Size` line. */
  lemma {:induction false} ScanWeight<N>(head: seq<string>, parseFloat: string -> N)
    ensures HeaderScan(head, parseFloat).weight ==
              match LastOf(head, Size, 1) case None => None case Some(w) => Some(parseFloat(w))
    ensures HeaderScan(head, parseFloat).weightUnit == LastOf(head, Size, 2)
    decreases |head|
  {
    if head != [] {
      var init, line := head[..|head| - 1], head[|head| - 1];
      ScanWeight(init, parseFloat);
      var before, after := HeaderScan(init, parseFloat), HeaderScan(head, parseFloat);
      assert after == ScanLine(before, line, parseFloat);
      if Dispatch(line) == Some(Size) {
        assert after.weight == Some(parseFloat(Field(line, 1))) && after.weightUnit == Some(Field(line, 2));
      } else {
        assert after.weight == before.weight && after.weightUnit == before.weightUnit;
      }
    }
  }

  /** The comments and the method steps are the fields of all lines of their
      keyword, in the order of the file. */
  lemma {:induction false} ScanLists<N>(head: seq<string>, parseFloat: string -> N)
    ensures HeaderScan(head, parseFloat).comments == Collect(head, Comment)
    ensures HeaderScan(head, parseFloat).methodSteps == Collect(head, OrgMethod)
    decreases |head|
  {
    if head != [] {
      var init, line := head[..|head| - 1], head[|head| - 1];
      ScanLists(init, parseFloat);
      var before, after := HeaderScan(init, parseFloat), HeaderScan(head, parseFloat);
      assert after == ScanLine(before, line, parseFloat);
      assert Collect(head, Comment) ==
               Collect(init, Comment) + (if Dispatch(line) == Some(Comment) then [Field(line, 1)] else []);
      assert Collect(head, OrgMethod) ==
               Collect(init, OrgMethod) + (if Dispatch(line) == Some(OrgMethod) then [Field(line, 1)] else []);
    }
  }

  /** No line before `i` is an `OrgFile` line or a line the scan cannot read. */
  predicate ReadableUpTo(lines: seq<string>, i: nat)
    requires i <= |lines|
  {
    forall j :: 0 <= j < i ==> !IsOrgFileLine(lines[j]) && Readable(lines[j])
  }

  /** One more readable header line extends the scan by its branch. */
  lemma ScanExtends<N>(lines: seq<string>, i: nat, parseFloat: string -> N)
    requires i < |lines| && ReadableUpTo(lines, i)
    requires !IsOrgFileLine(lines[i]) && Readable(lines[i])
    ensures ReadableUpTo(lines, i + 1)
    ensures HeaderScan(lines[..i + 1], parseFloat) == ScanLine(HeaderScan(lines[..i], parseFloat), lines[i], parseFloat)
  {
    assert lines[..i + 1][..i] == lines[..i] && lines[..i + 1][i] == lines[i];
  }

  /** The scan stops at the first line that cannot be read. */
  lemma FailsAt<N>(lines: seq<string>, i: nat, parseFloat: string -> N)
    requires i < |lines| && !IsOrgFileLine(lines[i]) && Unreadable(lines[i])
    requires ReadableUpTo(lines, i)
    ensures HeaderOf(lines, parseFloat) == Failure(MissingField(i))
  {
    FirstIndexNotBefore(lines, IsOrgFileLine, i + 1);
    var end := HeaderEnd(lines);
    var head := lines[..end];
    assert head[i] == lines[i];
    assert forall j :: 0 <= j < i ==> head[j] == lines[j] && !Unreadable(head[j]);
    FirstIndexAt(head, Unreadable, i);
  }

  /** The scan stops at the first `OrgFile` line, and the data start one past it. */
  lemma StopsAt<N>(lines: seq<string>, i: nat, parseFloat: string -> N)
    requires i < |lines| && IsOrgFileLine(lines[i])
    requires ReadableUpTo(lines, i)
    ensures HeaderOf(lines, parseFloat) == Success(HeaderScan(lines[..i], parseFloat).(dataStart := Some(i + 1)))
  {
    assert HeaderEnd(lines) == i;
  }

  /** Without an `OrgFile` line the scan reads every line and leaves `dataStart`
      undefined. */
  lemma RunsOut<N>(lines: seq<string>, parseFloat: string -> N)
    requires ReadableUpTo(lines, |lines|)
    ensures HeaderOf(lines, parseFloat) == Success(HeaderScan(lines, parseFloat))
  {
    assert HeaderEnd(lines) == |lines|;
    assert lines[..|lines|] == lines;
  }

  // ---------------------------------------------------------------------------
  // parseMeta
  // ---------------------------------------------------------------------------

  /** The body of the loop of `parseMeta` for a line that is not an `OrgFile`
      line: the branch of the chain the line takes, or `None` where reading its
      field throws. */
  method ReadHeaderLine<N>(meta: Header<N>, line: string, parseFloat: string -> N) returns (next: Option<Header<N>>)
    requires !IsOrgFileLine(line)
    ensures next.Some? <==> Readable(line)
    ensures next.Some? ==> next.value == ScanLine(meta, line, parseFloat)
  {
    var key := Chain(line);
    ChainIsDispatch(line);
    if key.None? {
      return Some(meta);
    }
    var value := SplitTrim(line, 1);
    if value.None? {
      return None;
    }
    if key.value == Size {
      var unit := SplitTrim(line, 2);
      if unit.None? {
        return None;
      }
      next := Some(meta.(weight := Some(parseFloat(value.value)), weightUnit := Some(unit.value)));
    } else if key.value == Comment {
      next := Some(meta.(comments := meta.comments + [value.value]));
    } else if key.value == OrgMethod {
      next := Some(meta.(methodSteps := meta.methodSteps + [value.value]));
    } else {
      next := Some(meta.(fields := meta.fields[key.value := value.value]));
    }
  }

  /** `parseMeta(lines)`: one pass over the kept lines that updates `meta` by
      keyword and stops at the first `OrgFile` line. */
  method ParseMeta<N>(lines: seq<string>, parseFloat: string -> N) returns (r: Result<Header<N>, ParseError>)
    ensures r == HeaderOf(lines, parseFloat)
  {
    var meta: Header<N> := Header(map[], None, None, [], [], None);
    var i := 0;
    while i < |lines|
      invariant i <= |lines|
      invariant ReadableUpTo(lines, i)
      invariant meta == HeaderScan(lines[..i], parseFloat)
    {
      var line := lines[i];
      ChainIsDispatch(line);
      if Chain(line) == Some(OrgFile) {
        StopsAt(lines, i, parseFloat);
        meta := meta.(dataStart := Some(i + 1));
        break;
      }
      var next := ReadHeaderLine(meta, line, parseFloat);
      if next.None? {
        FailsAt(lines, i, parseFloat);
        return Failure(MissingField(i));
      }
      meta := next.value;
      ScanExtends(lines, i, parseFloat);
      i := i + 1;
    }
    if i == |lines| {
      RunsOut(lines, parseFloat);
      assert lines[..i] == lines;
    }
    r := Success(meta);
  }

  // ---------------------------------------------------------------------------
  // Data rows
  // ---------------------------------------------------------------------------

  /** The lines the second `filter` keeps: those not starting with `-`. */
  predicate NotDashed(line: string) {
    !StartsWith(line, "-")
  }

  /** `lines.slice(dataStart, lines.length)` and the filter on `-`: the data lines.
      An undefined `dataStart` slices from the first line. */
  function DataLines(lines: seq<string>, dataStart: Option<nat>): seq<string> {
    var start := match dataStart case None => 0 case Some(d) => if d <= |lines| then d else |lines|;
    Filter(lines[start..], NotDashed)
  }

  /** Field `c` of a data line cut at runs of whitespace, converted by `Number`;
      `undefined` past the last field. */
  function FieldValue<N>(line: string, c: nat, number: string -> N): Option<N> {
    var fields := SplitWhitespace(line);
    if c < |fields| then Some(number(fields[c])) else None
  }

  /** The values of field `c` over the data lines, in order. */
  function Column<N>(rows: seq<string>, c: nat, number: string -> N): seq<Option<N>> {
    seq(|rows|, i requires 0 <= i < |rows| => FieldValue(rows[i], c, number))
  }

  /** The `data` object: the time, weight and temperature columns. */
  datatype TextData<N> = TextData(time: seq<Option<N>>, weight: seq<Option<N>>, temperature: seq<Option<N>>)

  /** The result object. `balancePurgeFlow` and `samplePurgeFlow`, properties of
      `meta` in the source, sit beside the header here. */
  datatype ParsedText<N> = ParsedText(
    meta: Header<N>,
    balancePurgeFlow: seq<Option<N>>,
    samplePurgeFlow: seq<Option<N>>,
    data: TextData<N>)

  /** Every column holds one value per data line, the value of its field
      position: time 0, temperature 1, weight 2, balance purge flow 3 and
      sample purge flow 4. */
  ghost predicate ColumnsOf<N>(p: ParsedText<N>, rows: seq<string>, number: string -> N) {
    && |p.data.time| == |p.data.temperature| == |p.data.weight| == |rows|
    && |p.balancePurgeFlow| == |p.samplePurgeFlow| == |rows|
    && forall i :: 0 <= i < |rows| ==>
         && p.data.time[i] == FieldValue(rows[i], 0, number)
         && p.data.temperature[i] == FieldValue(rows[i], 1, number)
         && p.data.weight[i] == FieldValue(rows[i], 2, number)
         && p.balancePurgeFlow[i] == FieldValue(rows[i], 3, number)
         && p.samplePurgeFlow[i] == FieldValue(rows[i], 4, number)
  }

  /** `parseTAInstruments(text)`: the header of the kept lines and the five
      columns of the data lines after it; a header line whose field is missing
      makes the whole parse throw. */
  method ParseTAInstruments<N>(text: string, number: string -> N, parseFloat: string -> N)
    returns (r: Result<ParsedText<N>, ParseError>)
    ensures HeaderOf(KeptLines(text), parseFloat).Failure? ==> r == Failure(HeaderOf(KeptLines(text), parseFloat).error)
    ensures HeaderOf(KeptLines(text), parseFloat).Success? ==>
              && r.Success?
              && r.value.meta == HeaderOf(KeptLines(text), parseFloat).value
              && ColumnsOf(r.value, DataLines(KeptLines(text), r.value.meta.dataStart), number)
  {
    var lines := KeptLines(text);
    var header := ParseMeta(lines, parseFloat);
    if header.Failure? {
      return Failure(header.error);
    }
    var meta := header.value;
    var rows := DataLines(lines, meta.dataStart);
    var data := TextData(Column(rows, 0, number), Column(rows, 2, number), Column(rows, 1, number));
    r := Success(ParsedText(meta, Column(rows, 3, number), Column(rows, 4, number), data));
  }

  // ---------------------------------------------------------------------------
  // Properties of the whole parse
  // ---------------------------------------------------------------------------

  /** The data lines are the lines after the first `OrgFile` line that do not
      start with `-`; with no `OrgFile` line they are all such lines, the header
      lines included. */
  lemma DataLinesAfterOrgFile<N>(lines: seq<string>, parseFloat: string -> N)
    requires HeaderOf(lines, parseFloat).Success?
    ensures var end := HeaderEnd(lines);
      DataLines(lines, HeaderOf(lines, parseFloat).value.dataStart) ==
        if end < |lines| then Filter(lines[end + 1..], NotDashed) else Filter(lines, NotDashed)
  {
    ScanDataStart(lines[..HeaderEnd(lines)], parseFloat);
    assert lines[0..] == lines;
  }

  /** The scan itself never sets `dataStart`. */
  lemma {:induction false} ScanDataStart<N>(head: seq<string>, parseFloat: string -> N)
    ensures HeaderScan(head, parseFloat).dataStart == None
    decreases |head|
  {
    if head != [] {
      ScanDataStart(head[..|head| - 1], parseFloat);
    }
  }

  /** Whatever follows the first `OrgFile` line has no effect on the header:
      data lines that happen to start with a keyword are not read as header
      lines. */
  lemma MetadataIgnoresDataSection<N>(head: seq<string>, org: string, tail: seq<string>, parseFloat: string -> N)
    requires forall j :: 0 <= j < |head| ==> !IsOrgFileLine(head[j])
    requires IsOrgFileLine(org)
    ensures HeaderOf(head + [org] + tail, parseFloat) == HeaderOf(head + [org], parseFloat)
    ensures HeaderOf(head + [org], parseFloat).Success? ==>
              HeaderOf(head + [org], parseFloat).value.dataStart == Some(|head| + 1)
  {
    var long, short := head + [org] + tail, head + [org];
    assert HeaderEnd(long) == |head| by {
      assert long[|head|] == org;
      assert forall j :: 0 <= j < |head| ==> long[j] == head[j];
    }
    assert HeaderEnd(short) == |head| by {
      assert short[|head|] == org;
      assert forall j :: 0 <= j < |head| ==> short[j] == head[j];
    }
    assert long[..|head|] == head == short[..|head|];
  }

  /** The last line of a keyword wins: a line of keyword `key` followed only by
      lines of other keywords gives the value of that keyword. */
  lemma {:induction false} LaterLineWins(before: seq<string>, line: string, after: seq<string>, key: HeaderKey, item: nat)
    requires Dispatch(line) == Some(key)
    requires forall j :: 0 <= j < |after| ==> Dispatch(after[j]) != Some(key)
    ensures LastOf(before + [line] + after, key, item) == Some(Field(line, item))
    decreases |after|
  {
    var h := before + [line] + after;
    if after == [] {
      assert h[..|h| - 1] == before && h[|h| - 1] == line;
    } else {
      var init, last := after[..|after| - 1], after[|after| - 1];
      var shorter := before + [line] + init;
      assert after == init + [last] && h == shorter + [last];
      assert Dispatch(last) != Some(key);
      LastLine(shorter, last);
      assert LastOf(h, key, item) == LastOf(shorter, key, item);
      LaterLineWins(before, line, init, key, item);
    }
  }

  /** The comment and method-step lists of two runs of lines are joined in order. */
  lemma {:induction false} CollectAppend(a: seq<string>, b: seq<string>, key: HeaderKey)
    ensures Collect(a + b, key) == Collect(a, key) + Collect(b, key)
    decreases |b|
  {
    if b == [] {
      assert a + b == a;
    } else {
      var init := b[..|b| - 1];
      assert (a + b)[..|a + b| - 1] == a + init && (a + b)[|a + b| - 1] == b[|b| - 1];
      CollectAppend(a, init, key);
    }
  }
}
