/**
 * The test-report reader of the tracker: a workbook produced by the test
 * suite is turned into the model-information table, accuracy scores,
 * crosstabs and population-stability tables, depending on the report type
 * the file name announces. A sheet is the list of rows the spreadsheet
 * library hands over (a row may be missing), each row a list of cells.
 */
module ReportParser {
  import opened Wrappers
  import opened Text

  /** A cell: empty (undefined or null), text, or a number with the text it prints as. */
  datatype Cell = Blank | Str(s: string) | Num(value: real, text: string)

  type Row = seq<Cell>

  type Sheet = seq<Option<Row>>

  function CellAt(row: Row, i: nat): Cell {
    if i < |row| then row[i] else Blank
  }

  /** `String(cell ?? '')`. */
  function CellText(c: Cell): string {
    match c
    case Blank => ""
    case Str(s) => s
    case Num(_, text) => text
  }

  /** JavaScript truthiness of a cell. */
  predicate Truthy(c: Cell) {
    match c
    case Blank => false
    case Str(s) => s != ""
    case Num(v, _) => v != 0.0
  }

  /** `Number(cell) || 0`. */
  function NumberOr0(c: Cell): real {
    if c.Num? then c.value else 0.0
  }

  // ---------------------------------------------------------------------------
  // String.prototype.trim

  /** The white space and line terminators `trim` removes. */
  const Spaces: set<char> := {
    ' ', '\t', '\n', '\r', '\U{B}', '\U{C}', '\U{A0}', '\U{1680}',
    '\U{2000}', '\U{2001}', '\U{2002}', '\U{2003}', '\U{2004}', '\U{2005}', '\U{2006}', '\U{2007}',
    '\U{2008}', '\U{2009}', '\U{200A}', '\U{2028}', '\U{2029}', '\U{202F}', '\U{205F}', '\U{3000}', '\U{FEFF}'}

  predicate IsSpace(c: char) {
    c in Spaces
  }

  function TrimStart(s: string): (r: string)
    ensures |r| <= |s| && r == s[|s| - |r|..]
    ensures forall j :: 0 <= j < |s| - |r| ==> IsSpace(s[j])
    ensures |r| > 0 ==> !IsSpace(r[0])
    decreases |s|
  {
    if |s| > 0 && IsSpace(s[0]) then TrimStart(s[1..]) else s
  }

  function TrimEnd(s: string): (r: string)
    ensures |r| <= |s| && r == s[..|r|]
    ensures forall j :: |r| <= j < |s| ==> IsSpace(s[j])
    ensures |r| > 0 ==> !IsSpace(r[|r| - 1])
    decreases |s|
  {
    if |s| > 0 && IsSpace(s[|s| - 1]) then TrimEnd(s[..|s| - 1]) else s
  }

  /** `r` is the piece of `s` at `i`, and only white space surrounds it. */
  predicate TrimmedAt(s: string, r: string, i: nat) {
    i + |r| <= |s| && s[i..i + |r|] == r &&
    (forall j :: 0 <= j < i ==> IsSpace(s[j])) && (forall j :: i + |r| <= j < |s| ==> IsSpace(s[j]))
  }

  /** `s.trim()`: no white space at either end. */
  function Trim(s: string): (r: string)
    ensures |r| == 0 || (!IsSpace(r[0]) && !IsSpace(r[|r| - 1]))
  {
    TrimEnd(TrimStart(s))
  }

  /** What `trim` keeps is the piece of `s` after its leading white space, and only white space is cut off. */
  lemma TrimKeepsPiece(s: string)
    ensures TrimmedAt(s, Trim(s), |s| - |TrimStart(s)|)
  {
    var a := TrimStart(s);
    var r := TrimEnd(a);
    assert Trim(s) == r;
    assert |a| <= |s| && a == s[|s| - |a|..];
    assert |r| <= |a| && r == a[..|r|];
    PieceOfSuffix(s, a, r);
  }

  lemma PieceOfSuffix(s: string, a: string, r: string)
    requires |a| <= |s| && a == s[|s| - |a|..] && |r| <= |a| && r == a[..|r|]
    requires forall j :: 0 <= j < |s| - |a| ==> IsSpace(s[j])
    requires forall j :: |r| <= j < |a| ==> IsSpace(a[j])
    ensures TrimmedAt(s, r, |s| - |a|)
  {
    var i := |s| - |a|;
    assert s[i..i + |r|] == r;
    forall j | i + |r| <= j < |s|
      ensures IsSpace(s[j])
    {
      assert s[j] == a[j - i];
    }
  }

  lemma TrimIdempotent(s: string)
    ensures Trim(Trim(s)) == Trim(s)
  {
    var r := Trim(s);
    if |r| > 0 {
      assert TrimStart(r) == r;
      assert TrimEnd(r) == r;
    }
  }

  // ---------------------------------------------------------------------------
  // Report type

  datatype ReportType = Accuracy | Anomaly | Precision | Stability | Unknown

  /** `identifyReportType`: the lower-cased file name is matched against the key words in a fixed order; the first match wins. */
  function IdentifyReportType(fileName: string): ReportType {
    var lower := ToLower(fileName);
    if Contains(lower, "accuracy") || Contains(lower, "acc") then Accuracy
    else if Contains(lower, "anomal") || Contains(lower, "anom") then Anomaly
    else if Contains(lower, "precision") || Contains(lower, "prec") then Precision
    else if Contains(lower, "stab") then Stability
    else Unknown
  }

  lemma ContainsPrefixOf(s: string, long: string, short: string)
    requires StartsWith(long, short) && Contains(s, long)
    ensures Contains(s, short)
  {
    var i: nat :| i <= |s| && OccursAt(s, long, i);
    assert s[i..i + |short|] == long[..|short|];
    assert OccursAt(s, short, i);
  }

  /**
   * Each long key word contains its short form, so the type is decided by
   * the short forms alone: `acc`, then `anom`, then `prec`, then `stab`.
   */
  lemma IdentifyByShortKeys(fileName: string)
    ensures var lower := ToLower(fileName);
            var t := IdentifyReportType(fileName);
            (t == Accuracy <==> Contains(lower, "acc")) &&
            (t == Anomaly <==> !Contains(lower, "acc") && Contains(lower, "anom")) &&
            (t == Precision <==> !Contains(lower, "acc") && !Contains(lower, "anom") && Contains(lower, "prec")) &&
            (t == Stability <==> !Contains(lower, "acc") && !Contains(lower, "anom") && !Contains(lower, "prec") &&
                                 Contains(lower, "stab")) &&
            (t == Unknown <==> !Contains(lower, "acc") && !Contains(lower, "anom") && !Contains(lower, "prec") &&
                               !Contains(lower, "stab"))
  {
    var lower := ToLower(fileName);
    if Contains(lower, "accuracy") {
      ContainsPrefixOf(lower, "accuracy", "acc");
    }
    if Contains(lower, "anomal") {
      ContainsPrefixOf(lower, "anomal", "anom");
    }
    if Contains(lower, "precision") {
      ContainsPrefixOf(lower, "precision", "prec");
    }
  }

  /** The type ignores letter case. */
  lemma IdentifyIgnoresCase(fileName: string)
    ensures IdentifyReportType(ToLower(fileName)) == IdentifyReportType(fileName)
  {
    ToLowerIdempotent(fileName);
  }

  // ---------------------------------------------------------------------------
  // Row collection shared by the sheet readers

  /** The entries of the rows, in order: a missing row, or a row `entry` rejects, gives none. */
  function Collect<T>(rows: Sheet, entry: Row -> Option<T>): (r: seq<T>)
    ensures |r| <= |rows|
    decreases |rows|
  {
    if |rows| == 0 then []
    else Collect(rows[..|rows| - 1], entry) + EntryOf(rows[|rows| - 1], entry)
  }

  function EntryOf<T>(row: Option<Row>, entry: Row -> Option<T>): (r: seq<T>)
    ensures |r| <= 1
  {
    if row.None? then [] else match entry(row.value)
      case None => []
      case Some(x) => [x]
  }

  /** What a reader makes of a sheet: nothing for fewer than two rows, else the entries after the header row. */
  function RowsOf<T>(data: Sheet, entry: Row -> Option<T>): (r: seq<T>)
    ensures |data| < 2 ==> r == []
    ensures |data| >= 2 ==> |r| <= |data| - 1
  {
    if |data| < 2 then [] else Collect(data[1..], entry)
  }

  /** Every collected entry comes from a present row. */
  lemma {:induction false} CollectSound<T>(rows: Sheet, entry: Row -> Option<T>, x: T)
    requires x in Collect(rows, entry)
    ensures exists k :: 0 <= k < |rows| && rows[k].Some? && entry(rows[k].value) == Some(x)
    decreases |rows|
  {
    var init := rows[..|rows| - 1];
    if x in Collect(init, entry) {
      CollectSound(init, entry, x);
      var k :| 0 <= k < |init| && init[k].Some? && entry(init[k].value) == Some(x);
      assert rows[k] == init[k];
    } else {
      assert x in EntryOf(rows[|rows| - 1], entry);
    }
  }

  /** Every present row `entry` accepts contributes its entry. */
  lemma {:induction false} CollectComplete<T>(rows: Sheet, entry: Row -> Option<T>, k: nat)
    requires k < |rows| && rows[k].Some? && entry(rows[k].value).Some?
    ensures entry(rows[k].value).value in Collect(rows, entry)
    decreases |rows|
  {
    if k < |rows| - 1 {
      var init := rows[..|rows| - 1];
      assert init[k] == rows[k];
      CollectComplete(init, entry, k);
    }
  }

  /**
   * The loop shared by `parseModelInfo`, `parseAccuracyScores`, `parsePSI`
   * and `parseCrosstab`: skip the header row and the missing rows, push the
   * entry of every other row.
   */
  method ParseRows<T>(data: Sheet, entry: Row -> Option<T>) returns (results: seq<T>)
    ensures results == RowsOf(data, entry)
  {
    results := [];
    if |data| < 2 {
      return;
    }
    var i := 1;
    while i < |data|
      invariant 1 <= i <= |data|
      invariant results == Collect(data[1..i], entry)
    {
      assert data[1..i + 1][..i - 1] == data[1..i];
      var row := data[i];
      if row.Some? {
        var e := entry(row.value);
        if e.Some? {
          results := results + [e.value];
        }
      }
      i := i + 1;
    }
    assert data[1..i] == data[1..];
  }

  // ---------------------------------------------------------------------------
  // model_information

  datatype ModelInfo = ModelInfo(field: string, benchmark: string, development: string, isDifferent: bool)

  /** The fields whose benchmark and development values are expected to agree. */
  const ComparableFields: seq<string> := [
    "source account type", "value sign", "currency", "source code",
    "text preprocessing", "amount preprocessing", "classifier"]

  /** A row of `model_information`; a row whose first cell is falsy is skipped. */
  function InfoEntry(row: Row): (r: Option<ModelInfo>)
    ensures r.None? <==> !Truthy(CellAt(row, 0))
    ensures r.Some? ==> (r.value.isDifferent <==> r.value.field in ComparableFields && r.value.benchmark != r.value.development)
  {
    if !Truthy(CellAt(row, 0)) then None
    else
      var field := Trim(CellText(CellAt(row, 0)));
      var benchmark := Trim(CellText(CellAt(row, 1)));
      var development := Trim(CellText(CellAt(row, 2)));
      Some(ModelInfo(field, benchmark, development, if field in ComparableFields then benchmark != development else false))
  }

  /**
   * `parseModelInfo`: at most one entry per row after the header; an entry
   * is flagged different exactly when its field is comparable and its
   * trimmed values differ; every present row with a truthy first cell is
   * listed, and every entry comes from such a row.
   */
  lemma ModelInfoFacts(data: Sheet)
    ensures var r := RowsOf(data, InfoEntry);
            (|data| < 2 ==> r == []) && (|data| >= 2 ==> |r| <= |data| - 1) &&
            (forall m :: m in r ==> (m.isDifferent <==> m.field in ComparableFields && m.benchmark != m.development)) &&
            (forall m :: m in r ==> exists k :: 1 <= k < |data| && data[k].Some? && Truthy(CellAt(data[k].value, 0)) &&
                                                InfoEntry(data[k].value) == Some(m)) &&
            (forall k :: 1 <= k < |data| && data[k].Some? && Truthy(CellAt(data[k].value, 0)) ==>
                           InfoEntry(data[k].value).value in r)
  {
    var r := RowsOf(data, InfoEntry);
    if |data| >= 2 {
      var rows := data[1..];
      assert r == Collect(rows, InfoEntry);
      forall m | m in r
        ensures m.isDifferent <==> m.field in ComparableFields && m.benchmark != m.development
        ensures exists k :: 1 <= k < |data| && data[k].Some? && Truthy(CellAt(data[k].value, 0)) &&
                            InfoEntry(data[k].value) == Some(m)
      {
        CollectSound(rows, InfoEntry, m);
        var k :| 0 <= k < |rows| && rows[k].Some? && InfoEntry(rows[k].value) == Some(m);
        assert data[k + 1] == rows[k];
        assert InfoEntry(data[k + 1].value) == Some(m);
      }
      forall k | 1 <= k < |data| && data[k].Some? && Truthy(CellAt(data[k].value, 0))
        ensures InfoEntry(data[k].value).value in r
      {
        assert rows[k - 1] == data[k];
        CollectComplete(rows, InfoEntry, k - 1);
      }
    }
  }

  // ---------------------------------------------------------------------------
  // accuracy_score and psi sheets

  datatype AccuracyScore = AccuracyScore(bankName: string, metric: string, benchmark: real, development: real, delta: real)

  /** A row of `accuracy_score`: every present row gives a score. */
  function AccuracyEntry(row: Row): (r: Option<AccuracyScore>)
    ensures r.Some?
    ensures r.value.bankName == Trim(CellText(CellAt(row, 0))) && r.value.delta == NumberOr0(CellAt(row, 4))
  {
    Some(AccuracyScore(Trim(CellText(CellAt(row, 0))), Trim(CellText(CellAt(row, 1))),
                       NumberOr0(CellAt(row, 2)), NumberOr0(CellAt(row, 3)), NumberOr0(CellAt(row, 4))))
  }

  datatype PSIData = PSIData(bankName: string, category: string, freqOld: real, countOld: real,
                             freqNew: real, countNew: real, psi: real)

  /** A row of a PSI sheet: every present row gives an entry. */
  function PSIEntry(row: Row): (r: Option<PSIData>)
    ensures r.Some?
    ensures r.value.bankName == Trim(CellText(CellAt(row, 0))) && r.value.psi == NumberOr0(CellAt(row, 6))
  {
    Some(PSIData(Trim(CellText(CellAt(row, 0))), Trim(CellText(CellAt(row, 1))),
                 NumberOr0(CellAt(row, 2)), NumberOr0(CellAt(row, 3)), NumberOr0(CellAt(row, 4)),
                 NumberOr0(CellAt(row, 5)), NumberOr0(CellAt(row, 6))))
  }

  /** The number of present rows. */
  function Present(rows: Sheet): nat
    decreases |rows|
  {
    if |rows| == 0 then 0 else Present(rows[..|rows| - 1]) + (if rows[|rows| - 1].Some? then 1 else 0)
  }

  /** With a reader that accepts every row (scores, PSI), there is one entry per present row. */
  lemma {:induction false} CollectAll<T>(rows: Sheet, entry: Row -> Option<T>)
    requires forall row :: entry(row).Some?
    ensures |Collect(rows, entry)| == Present(rows)
    decreases |rows|
  {
    if |rows| > 0 {
      CollectAll(rows[..|rows| - 1], entry);
    }
  }

  // ---------------------------------------------------------------------------
  // Crosstabs

  datatype CrossRow = CrossRow(rowLabel: string, values: seq<real>, rowTotal: Option<real>)

  datatype Crosstab = Crosstab(headers: seq<string>, rows: seq<CrossRow>)

  /** `row.slice(1, -1)` with a percentage column, else `row.slice(1)`. */
  function Inner(row: Row, hasPercent: bool): (r: Row)
    ensures hasPercent ==> |r| == if |row| >= 2 then |row| - 2 else 0
    ensures !hasPercent ==> |r| == if |row| >= 1 then |row| - 1 else 0
    ensures forall i :: 0 <= i < |r| ==> r[i] == row[i + 1]
  {
    if hasPercent then (if |row| >= 2 then row[1..|row| - 1] else [])
    else if |row| >= 1 then row[1..] else []
  }

  /** A crosstab row; the totals row (its label mentions `% of column`) is skipped. */
  function CrossEntry(row: Row, hasPercent: bool): (r: Option<CrossRow>)
    ensures r.None? <==> Contains(Trim(CellText(CellAt(row, 0))), "% of column")
    ensures r.Some? ==> r.value.rowLabel == Trim(CellText(CellAt(row, 0)))
    ensures r.Some? ==> |r.value.values| == |Inner(row, hasPercent)| &&
                        forall i :: 0 <= i < |r.value.values| ==> r.value.values[i] == NumberOr0(Inner(row, hasPercent)[i])
    ensures r.Some? ==> (r.value.rowTotal.Some? <==> hasPercent)
    ensures r.Some? && hasPercent ==> r.value.rowTotal.value == NumberOr0(if |row| > 0 then row[|row| - 1] else Blank)
  {
    var text := Trim(CellText(CellAt(row, 0)));
    if Contains(text, "% of column") then None
    else
      var inner := Inner(row, hasPercent);
      Some(CrossRow(text, seq(|inner|, i requires 0 <= i < |inner| => NumberOr0(inner[i])),
                    if hasPercent then Some(NumberOr0(if |row| > 0 then row[|row| - 1] else Blank)) else None))
  }

  function CrossEntryFor(hasPercent: bool): Row -> Option<CrossRow> {
    (row: Row) => CrossEntry(row, hasPercent)
  }

  /** The last header cell mentions `%`: a row-total column is present. */
  predicate HasPercentColumn(header: Row) {
    |header| > 0 && Contains(CellText(header[|header| - 1]), "%")
  }

  /**
   * `parseCrosstab`: empty for fewer than two rows; None when the header
   * row is missing (reading its length throws); otherwise the headers and
   * rows between the label column and the optional total column.
   */
  function CrosstabOf(data: Sheet): Option<Crosstab> {
    if |data| < 2 then Some(Crosstab([], []))
    else if data[0].None? then None
    else
      var header := data[0].value;
      var inner := Inner(header, HasPercentColumn(header));
      Some(Crosstab(seq(|inner|, i requires 0 <= i < |inner| => CellText(inner[i])),
                    RowsOf(data, CrossEntryFor(HasPercentColumn(header)))))
  }

  /**
   * With a percentage header, the first and last columns are dropped and
   * every row carries its total; without, only the first column is dropped
   * and no row has a total. The headers are the texts of the header cells
   * kept, in order. No totals row is kept.
   */
  lemma CrosstabShape(data: Sheet)
    requires |data| >= 2 && data[0].Some?
    ensures var header := data[0].value;
            var t := CrosstabOf(data).value;
            (HasPercentColumn(header) ==> |t.headers| == |header| - 2 || (|header| < 2 && t.headers == [])) &&
            (!HasPercentColumn(header) ==> |t.headers| == |header| - 1 || (|header| == 0 && t.headers == [])) &&
            (forall i :: 0 <= i < |t.headers| ==> t.headers[i] == CellText(header[i + 1])) &&
            (forall r :: r in t.rows ==> (r.rowTotal.Some? <==> HasPercentColumn(header))) &&
            (forall r :: r in t.rows ==> !Contains(r.rowLabel, "% of column")) &&
            |t.rows| <= |data| - 1
  {
    var header := data[0].value;
    var t := CrosstabOf(data).value;
    var f := CrossEntryFor(HasPercentColumn(header));
    forall r | r in t.rows
      ensures (r.rowTotal.Some? <==> HasPercentColumn(header)) && !Contains(r.rowLabel, "% of column")
    {
      CollectSound(data[1..], f, r);
    }
  }

  /** `parseCrosstab` as written: the header test, the header slice, then the shared row loop. */
  method ParseCrosstab(data: Sheet) returns (r: Option<Crosstab>)
    ensures r == CrosstabOf(data)
  {
    if |data| < 2 {
      return Some(Crosstab([], []));
    }
    if data[0].None? {
      return None;
    }
    var header := data[0].value;
    var hasPercent := HasPercentColumn(header);
    var inner := Inner(header, hasPercent);
    var headers := seq(|inner|, i requires 0 <= i < |inner| => CellText(inner[i]));
    var rows := ParseRows(data, CrossEntryFor(hasPercent));
    r := Some(Crosstab(headers, rows));
  }

  // ---------------------------------------------------------------------------
  // Sheet dispatch

  datatype ParsedReport = ParsedReport(
    reportType: ReportType, fileName: string, modelInfo: seq<ModelInfo>,
    accuracyScores: Option<seq<AccuracyScore>>,
    crosstabMacro: Option<Crosstab>, crosstabMicro: Option<Crosstab>, correctionCrosstab: Option<Crosstab>,
    psiMacro: Option<seq<PSIData>>, psiMicro: Option<seq<PSIData>>,
    confidenceReport: Option<Sheet>)

  /** A crosstab of sheet `i` when there are more than `i` sheets; Some(None) means absent, None means it threw. */
  function OptCrosstab(sheets: seq<Sheet>, i: nat): Option<Option<Crosstab>> {
    if |sheets| > i then
      match CrosstabOf(sheets[i])
      case None => None
      case Some(t) => Some(Some(t))
    else Some(None)
  }

  /**
   * `parseReportFile`: sheet 1 is the model information; accuracy and
   * anomaly reports read scores and three crosstabs from sheets 2-5,
   * precision and stability reports two crosstabs, two PSI tables and the
   * confidence sheet from sheets 2-6. None when a crosstab's header row is
   * missing (the promise rejects).
   */
  function ReportOf(fileName: string, sheets: seq<Sheet>): Option<ParsedReport> {
    var t := IdentifyReportType(fileName);
    var info := if |sheets| > 0 then RowsOf(sheets[0], InfoEntry) else [];
    var base := ParsedReport(t, fileName, info, None, None, None, None, None, None, None);
    if t == Accuracy || t == Anomaly then
      var macro := OptCrosstab(sheets, 2);
      var micro := OptCrosstab(sheets, 3);
      var correction := OptCrosstab(sheets, 4);
      if macro.None? || micro.None? || correction.None? then None
      else Some(base.(accuracyScores := if |sheets| > 1 then Some(RowsOf(sheets[1], AccuracyEntry)) else None,
                      crosstabMacro := macro.value, crosstabMicro := micro.value, correctionCrosstab := correction.value))
    else if t == Precision || t == Stability then
      var macro := OptCrosstab(sheets, 1);
      var micro := OptCrosstab(sheets, 2);
      if macro.None? || micro.None? then None
      else Some(base.(crosstabMacro := macro.value, crosstabMicro := micro.value,
                      psiMacro := if |sheets| > 3 then Some(RowsOf(sheets[3], PSIEntry)) else None,
                      psiMicro := if |sheets| > 4 then Some(RowsOf(sheets[4], PSIEntry)) else None,
                      confidenceReport := if |sheets| > 5 then Some(sheets[5]) else None))
    else Some(base)
  }

  /**
   * What each report type fills: an unknown type only the model
   * information; accuracy and anomaly never the PSI tables or the
   * confidence sheet; precision and stability never the scores or the
   * correction crosstab; and a sheet is read only when it exists.
   */
  lemma ReportShape(fileName: string, sheets: seq<Sheet>)
    requires ReportOf(fileName, sheets).Some?
    ensures var r := ReportOf(fileName, sheets).value;
            r.reportType == IdentifyReportType(fileName) && r.fileName == fileName &&
            r.modelInfo == (if |sheets| > 0 then RowsOf(sheets[0], InfoEntry) else []) &&
            (r.reportType == Unknown ==>
               r.accuracyScores.None? && r.crosstabMacro.None? && r.crosstabMicro.None? && r.correctionCrosstab.None? &&
               r.psiMacro.None? && r.psiMicro.None? && r.confidenceReport.None?) &&
            (r.reportType == Accuracy || r.reportType == Anomaly ==>
               r.psiMacro.None? && r.psiMicro.None? && r.confidenceReport.None? &&
               (r.accuracyScores.Some? <==> |sheets| > 1) && (r.crosstabMacro.Some? <==> |sheets| > 2) &&
               (r.crosstabMicro.Some? <==> |sheets| > 3) && (r.correctionCrosstab.Some? <==> |sheets| > 4)) &&
            (r.reportType == Precision || r.reportType == Stability ==>
               r.accuracyScores.None? && r.correctionCrosstab.None? &&
               (r.crosstabMacro.Some? <==> |sheets| > 1) && (r.crosstabMicro.Some? <==> |sheets| > 2) &&
               (r.psiMacro.Some? <==> |sheets| > 3) && (r.psiMicro.Some? <==> |sheets| > 4) &&
               (r.confidenceReport.Some? <==> |sheets| > 5))
  {
  }

  /** Sheet `i` exists, has at least two rows and no header row. */
  predicate Headerless(sheets: seq<Sheet>, i: nat) {
    i < |sheets| && |sheets[i]| >= 2 && sheets[i][0].None?
  }

  /** Only a crosstab sheet that exists and lacks its header row makes the parse fail. */
  lemma ReportFailsOnlyOnHeaderlessCrosstab(fileName: string, sheets: seq<Sheet>)
    ensures var t := IdentifyReportType(fileName);
            ReportOf(fileName, sheets).None? <==>
              ((t == Accuracy || t == Anomaly) && (Headerless(sheets, 2) || Headerless(sheets, 3) || Headerless(sheets, 4))) ||
              ((t == Precision || t == Stability) && (Headerless(sheets, 1) || Headerless(sheets, 2)))
  {
    assert forall i: nat :: OptCrosstab(sheets, i).None? <==> Headerless(sheets, i);
  }

  /** `parseReportFile` as written: the report starts with the model information and is filled sheet by sheet. */
  method ParseReportFile(fileName: string, sheets: seq<Sheet>) returns (r: Option<ParsedReport>)
    ensures r == ReportOf(fileName, sheets)
  {
    var t := IdentifyReportType(fileName);
    var report := ParsedReport(t, fileName, [], None, None, None, None, None, None, None);
    if |sheets| > 0 {
      var info := ParseRows(sheets[0], InfoEntry);
      report := report.(modelInfo := info);
    }
    if t == Accuracy || t == Anomaly {
      if |sheets| > 1 {
        var scores := ParseRows(sheets[1], AccuracyEntry);
        report := report.(accuracyScores := Some(scores));
      }
      if |sheets| > 2 {
        var macro := ParseCrosstab(sheets[2]);
        if macro.None? {
          return None;
        }
        report := report.(crosstabMacro := macro);
      }
      if |sheets| > 3 {
        var micro := ParseCrosstab(sheets[3]);
        if micro.None? {
          return None;
        }
        report := report.(crosstabMicro := micro);
      }
      if |sheets| > 4 {
        var correction := ParseCrosstab(sheets[4]);
        if correction.None? {
          return None;
        }
        report := report.(correctionCrosstab := correction);
      }
    } else if t == Precision || t == Stability {
      if |sheets| > 1 {
        var macro := ParseCrosstab(sheets[1]);
        if macro.None? {
          return None;
        }
        report := report.(crosstabMacro := macro);
      }
      if |sheets| > 2 {
        var micro := ParseCrosstab(sheets[2]);
        if micro.None? {
          return None;
        }
        report := report.(crosstabMicro := micro);
      }
      if |sheets| > 3 {
        var psi := ParseRows(sheets[3], PSIEntry);
        report := report.(psiMacro := Some(psi));
      }
      if |sheets| > 4 {
        var psi := ParseRows(sheets[4], PSIEntry);
        report := report.(psiMicro := Some(psi));
      }
      if |sheets| > 5 {
        report := report.(confidenceReport := Some(sheets[5]));
      }
    }
    r := Some(report);
  }
}
