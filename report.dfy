/**
 * `create_colorful_excel_report`: writes the table into a fresh worksheet
 * (a styled header row, then one row per record), attaches the two
 * promotion-status highlighting rules, and fits every column's width.
 */
module Report {
  import opened Wrappers
  import opened Values
  import opened ColumnLetters
  import opened Tables
  import opened Worksheets

  const ReportTitle := "Student Promotion Data"

  /** Bold white text on solid 366092 blue, centred. */
  const HeaderStyle := Style(true, Some("FFFFFF"), Some("366092"), true)

  const GreenFill := "C6EFCE"
  const RedFill := "FFC7CE"

  /** Column "O": both highlighting ranges name it literally, whatever column holds the status. */
  const HighlightColumn := 15

  const PromotedRule := CellIsRule(Equal, Quoted(Promoted), GreenFill)
  const NotPromotedRule := CellIsRule(Equal, Quoted(NotPromoted), RedFill)

  /** The range `O2:O{last_row}`. */
  function HighlightRange(lastRow: int): CellRange
  {
    CellRange(HighlightColumn, 2, HighlightColumn, lastRow)
  }

  /** The parsed range is the one the source spells as a string. */
  lemma HighlightRangeText(lastRow: int)
    ensures RangeText(HighlightRange(lastRow)) == "O2:O" + DecimalString(lastRow)
  {
  }

  /** Distinct last rows give distinct range texts. */
  lemma HighlightRangeTextInjective(a: int, b: int)
    requires RangeText(HighlightRange(a)) == RangeText(HighlightRange(b))
    ensures a == b
  {
    HighlightRangeText(a);
    HighlightRangeText(b);
    assert DecimalString(a) == RangeText(HighlightRange(a))[4..];
    assert DecimalString(b) == RangeText(HighlightRange(b))[4..];
    DecimalStringInjective(a, b);
  }

  /** The rules the report adds, in the order it adds them. */
  function ReportFormatting(lastRow: int): (fs: seq<Formatting>)
    ensures |fs| == 2
    ensures forall i :: 0 <= i < |fs| ==> fs[i].range == HighlightRange(lastRow)
    ensures fs[0].rule.formula == "\"Promoted\"" && fs[0].rule.fill == GreenFill
    ensures fs[1].rule.formula == "\"Not Promoted\"" && fs[1].rule.fill == RedFill
  {
    [Formatting(HighlightRange(lastRow), PromotedRule), Formatting(HighlightRange(lastRow), NotPromotedRule)]
  }

  /** The cell the report writes at (row, col): a header in row 1, record row-2 below it. */
  function LayoutCell(t: Table, row: int, col: int): Cell
    requires t.Valid() && 1 <= row <= |t.rows| + 1 && 1 <= col <= |t.columns|
  {
    if row == 1 then Cell(Text(t.columns[col - 1]), HeaderStyle)
    else Cell(t.rows[row - 2][col - 1], DefaultStyle)
  }

  /** The positions in row `row`, columns 1..cols. */
  function RowPositions(row: int, cols: nat): (ps: set<(int, int)>)
    ensures forall p :: p in ps <==> p.0 == row && 1 <= p.1 <= cols
  {
    if cols == 0 then {} else RowPositions(row, cols - 1) + {(row, cols)}
  }

  /** The positions in rows 1..rows, columns 1..cols. */
  function Positions(rows: nat, cols: nat): (ps: set<(int, int)>)
    ensures forall p :: p in ps <==> 1 <= p.0 <= rows && 1 <= p.1 <= cols
  {
    if rows == 0 then {} else Positions(rows - 1, cols) + RowPositions(rows, cols)
  }

  /** All cells of the filled sheet. */
  function Layout(t: Table): map<(int, int), Cell>
    requires t.Valid()
  {
    map p | p in Positions(|t.rows| + 1, |t.columns|) :: LayoutCell(t, p.0, p.1)
  }

  lemma LayoutAt(t: Table, r: int, c: int)
    requires t.Valid() && 1 <= r <= |t.rows| + 1 && 1 <= c <= |t.columns|
    ensures (r, c) in Layout(t) && Layout(t)[(r, c)] == LayoutCell(t, r, c)
  {
  }

  /** Every position in rows 1..rows and columns 1..cols holds a cell. */
  predicate Covers(cells: map<(int, int), Cell>, rows: nat, cols: nat)
  {
    forall r, c :: 1 <= r <= rows && 1 <= c <= cols ==> (r, c) in cells
  }

  /** The values of columns 1..cols in sheet row `row`. */
  function RowValues(cells: map<(int, int), Cell>, row: int, cols: nat): seq<Value>
    requires forall c :: 1 <= c <= cols ==> (row, c) in cells
  {
    seq(cols, j requires 0 <= j < cols => cells[(row, j + 1)].value)
  }

  /** The names in row 1 of a sheet whose first-row cells all hold text. */
  function HeaderNames(cells: map<(int, int), Cell>, cols: nat): seq<string>
    requires forall c :: 1 <= c <= cols ==> (1, c) in cells && cells[(1, c)].value.Text?
  {
    seq(cols, j requires 0 <= j < cols => cells[(1, j + 1)].value.s)
  }

  /** The records in sheet rows 2..rows. */
  function Records(cells: map<(int, int), Cell>, rows: nat, cols: nat): seq<seq<Value>>
    requires rows >= 1 && Covers(cells, rows, cols)
  {
    seq(rows - 1, i requires 0 <= i < rows - 1 => RowValues(cells, i + 2, cols))
  }

  /**
   * The table a reader recovers from rows 1..rows and columns 1..cols of a
   * sheet: names from the first row, records from the others; None when a
   * cell is missing or a name is not text.
   */
  function ReadBack(cells: map<(int, int), Cell>, rows: nat, cols: nat): Option<Table>
  {
    if rows == 0 || !Covers(cells, rows, cols) then None
    else if !(forall c :: 1 <= c <= cols ==> cells[(1, c)].value.Text?) then None
    else Some(Table(HeaderNames(cells, cols), Records(cells, rows, cols)))
  }

  lemma LayoutCovers(t: Table)
    requires t.Valid()
    ensures Covers(Layout(t), |t.rows| + 1, |t.columns|)
  {
    forall r, c | 1 <= r <= |t.rows| + 1 && 1 <= c <= |t.columns|
      ensures (r, c) in Layout(t)
    {
      LayoutAt(t, r, c);
    }
  }

  /** Row `i + 2` of the filled sheet holds record `i`. */
  lemma LayoutRecord(t: Table, i: nat)
    requires t.Valid() && i < |t.rows|
    ensures Covers(Layout(t), |t.rows| + 1, |t.columns|)
    ensures RowValues(Layout(t), i + 2, |t.columns|) == t.rows[i]
  {
    LayoutCovers(t);
    forall j | 0 <= j < |t.columns|
      ensures RowValues(Layout(t), i + 2, |t.columns|)[j] == t.rows[i][j]
    {
      LayoutAt(t, i + 2, j + 1);
    }
  }

  /** Row 1 of the filled sheet holds the column names, as text. */
  lemma LayoutHeader(t: Table)
    requires t.Valid()
    ensures Covers(Layout(t), |t.rows| + 1, |t.columns|)
    ensures forall j :: 0 <= j < |t.columns| ==> RowValues(Layout(t), 1, |t.columns|)[j] == Text(t.columns[j])
  {
    LayoutCovers(t);
    forall j | 0 <= j < |t.columns|
      ensures RowValues(Layout(t), 1, |t.columns|)[j] == Text(t.columns[j])
    {
      LayoutAt(t, 1, j + 1);
    }
  }

  lemma LayoutHeaderNames(t: Table)
    requires t.Valid()
    ensures forall c :: 1 <= c <= |t.columns| ==> (1, c) in Layout(t) && Layout(t)[(1, c)].value.Text?
    ensures HeaderNames(Layout(t), |t.columns|) == t.columns
  {
    var cells, cols := Layout(t), |t.columns|;
    LayoutHeader(t);
    forall c | 1 <= c <= cols
      ensures (1, c) in cells && cells[(1, c)].value == Text(t.columns[c - 1])
    {
      assert RowValues(cells, 1, cols)[c - 1] == Text(t.columns[c - 1]);
    }
    assert HeaderNames(cells, cols) == t.columns;
  }

  lemma LayoutRecords(t: Table)
    requires t.Valid()
    ensures Covers(Layout(t), |t.rows| + 1, |t.columns|)
    ensures Records(Layout(t), |t.rows| + 1, |t.columns|) == t.rows
  {
    var cells, rows, cols := Layout(t), |t.rows| + 1, |t.columns|;
    LayoutCovers(t);
    forall i | 0 <= i < |t.rows|
      ensures Records(cells, rows, cols)[i] == t.rows[i]
    {
      LayoutRecord(t, i);
    }
    assert Records(cells, rows, cols) == t.rows;
  }

  /** Reading the filled sheet back gives the table that was written. */
  lemma LayoutRoundTrip(t: Table)
    requires t.Valid()
    ensures ReadBack(Layout(t), |t.rows| + 1, |t.columns|) == Some(t)
  {
    LayoutHeaderNames(t);
    LayoutRecords(t);
  }

  /** A sheet holding exactly the layout's positions, each with the layout's cell, is the layout. */
  lemma LayoutExtensionality(t: Table, cells: map<(int, int), Cell>)
    requires t.Valid()
    requires forall p :: p in cells <==> 1 <= p.0 <= |t.rows| + 1 && 1 <= p.1 <= |t.columns|
    requires forall p :: p in cells ==> cells[p] == LayoutCell(t, p.0, p.1)
    ensures cells == Layout(t)
  {
    forall p | p in Layout(t)
      ensures p in cells
    {
    }
    forall p | p in cells
      ensures p in Layout(t) && Layout(t)[p] == cells[p]
    {
      LayoutAt(t, p.0, p.1);
    }
  }

  /** The filled sheet covers exactly rows 1..N+1 and the table's columns, and only row 1 is styled. */
  lemma LayoutShape(t: Table)
    requires t.Valid()
    ensures forall r, c :: (r, c) in Layout(t) <==> 1 <= r <= |t.rows| + 1 && 1 <= c <= |t.columns|
    ensures forall r, c :: (r, c) in Layout(t) ==> (Layout(t)[(r, c)].style == HeaderStyle <==> r == 1)
    ensures forall r, c :: (r, c) in Layout(t) && r > 1 ==> Layout(t)[(r, c)].style == DefaultStyle
  {
  }

  /** Longest string in `ss`, 0 for none. */
  function MaxLength(ss: seq<string>): nat
  {
    if ss == [] then 0
    else
      var before := MaxLength(ss[..|ss| - 1]);
      if |ss[|ss| - 1]| > before then |ss[|ss| - 1]| else before
  }

  /** MaxLength bounds every string's length and is one of them (or 0). */
  lemma {:induction false} MaxLengthIsMaximum(ss: seq<string>)
    ensures forall k :: 0 <= k < |ss| ==> |ss[k]| <= MaxLength(ss)
    ensures MaxLength(ss) == 0 || exists k :: 0 <= k < |ss| && |ss[k]| == MaxLength(ss)
  {
    if ss != [] {
      var init := ss[..|ss| - 1];
      MaxLengthIsMaximum(init);
      assert forall k :: 0 <= k < |ss| - 1 ==> init[k] == ss[k];
    }
  }

  /** The stringified cells of column `j`, header first. */
  function ColumnTexts(t: Table, j: nat): (texts: seq<string>)
    requires t.Valid() && j < |t.columns|
    ensures |texts| == |t.rows| + 1
  {
    [t.columns[j]] + seq(|t.rows|, i requires 0 <= i < |t.rows| => Str(t.rows[i][j]))
  }

  /** A column whose shown lengths are those of `texts` has the longest of them as its maximum. */
  lemma {:induction false} ColumnMaxOfTexts(cells: map<(int, int), Cell>, col: int, texts: seq<string>, k: nat)
    requires k <= |texts|
    requires forall r :: 0 <= r < |texts| ==> ShownLength(cells, r + 1, col) == |texts[r]|
    ensures ColumnMax(cells, col, k) == MaxLength(texts[..k])
  {
    if k > 0 {
      ColumnMaxOfTexts(cells, col, texts, k - 1);
      assert texts[..k][..k - 1] == texts[..k - 1];
      assert ShownLength(cells, k, col) == |texts[..k][k - 1]|;
    }
  }

  /** Column `j + 1` of the filled sheet shows the texts of column `j`, header first. */
  lemma LayoutColumnMax(t: Table, j: nat)
    requires t.Valid() && j < |t.columns|
    ensures ColumnMax(Layout(t), j + 1, |t.rows| + 1) == MaxLength(ColumnTexts(t, j))
  {
    var texts := ColumnTexts(t, j);
    forall r | 0 <= r < |texts|
      ensures ShownLength(Layout(t), r + 1, j + 1) == |texts[r]|
    {
      LayoutAt(t, r + 1, j + 1);
    }
    ColumnMaxOfTexts(Layout(t), j + 1, texts, |texts|);
    assert texts[..|texts|] == texts;
  }

  /**
   * Each column's width is `min(longest + 2, 20)`, where `longest` is the
   * longest stringified cell of that column, header included; so every width
   * lies in [2, 20], and is exactly `longest + 2` when that is at most 20.
   */
  lemma ReportColumnWidth(t: Table, j: nat)
    requires t.Valid() && j < |t.columns|
    ensures ColumnLetter(j + 1) in FittedWidths(Layout(t), |t.rows| + 1, |t.columns|)
    ensures FittedWidths(Layout(t), |t.rows| + 1, |t.columns|)[ColumnLetter(j + 1)]
            == FittedWidth(MaxLength(ColumnTexts(t, j)))
  {
    LayoutColumnMax(t, j);
    FittedWidthsAt(Layout(t), |t.rows| + 1, |t.columns|, j + 1);
  }

  /**
   * With the report's rules, a cell is shown green exactly when it lies in
   * O2:O{N+1} and holds "Promoted", red exactly when it lies there and holds
   * "Not Promoted", and unfilled otherwise.
   */
  lemma StatusHighlighting(n: nat, row: int, col: int, v: Value)
    ensures AppliedFill(ReportFormatting(n + 1), row, col, v) == Some(GreenFill) <==>
              col == HighlightColumn && 2 <= row <= n + 1 && v == Text(Promoted)
    ensures AppliedFill(ReportFormatting(n + 1), row, col, v) == Some(RedFill) <==>
              col == HighlightColumn && 2 <= row <= n + 1 && v == Text(NotPromoted)
    ensures AppliedFill(ReportFormatting(n + 1), row, col, v).None? <==>
              !(col == HighlightColumn && 2 <= row <= n + 1 && v in {Text(Promoted), Text(NotPromoted)})
  {
    var rules := ReportFormatting(n + 1);
    assert rules[1..] == [Formatting(HighlightRange(n + 1), NotPromotedRule)];
    assert rules[1..][1..] == [];
    if v.Text? && RuleHolds(PromotedRule, v) {
      QuotedInjective(v.s, Promoted);
    }
    if v.Text? && RuleHolds(NotPromotedRule, v) {
      QuotedInjective(v.s, NotPromoted);
    }
  }

  /**
   * The status column itself is highlighted only when it happens to be column
   * O: wherever else it sits, none of its cells gets a fill.
   */
  lemma StatusOutsideColumnOIsNotHighlighted(t: Table, k: nat, i: nat)
    requires t.Valid() && k < |t.columns| && t.columns[k] == StatusColumn
    requires k + 1 != HighlightColumn && i < |t.rows|
    ensures AppliedFill(ReportFormatting(|t.rows| + 1), i + 2, k + 1, t.rows[i][k]).None?
  {
    StatusHighlighting(|t.rows|, i + 2, k + 1, t.rows[i][k]);
  }

  lemma MergeIntoEmpty(m: map<string, nat>)
    ensures map[] + m == m
  {
  }

  /** The longest `str()` among rows 1..maxRow of column `col`: the inner width loop. */
  method LongestInColumn(ws: Worksheet, col: int) returns (maxLength: nat)
    ensures maxLength == ColumnMax(ws.cells, col, ws.maxRow)
    ensures forall r :: 1 <= r <= ws.maxRow ==> ShownLength(ws.cells, r, col) <= maxLength
    ensures maxLength == 0 || exists r :: 1 <= r <= ws.maxRow && ShownLength(ws.cells, r, col) == maxLength
  {
    maxLength := 0;
    for row := 1 to ws.maxRow + 1
      invariant maxLength == ColumnMax(ws.cells, col, row - 1)
    {
      var shown := if (row, col) in ws.cells then Str(ws.cells[(row, col)].value) else NoneText;
      if |shown| > maxLength {
        maxLength := |shown|;
      }
    }
    ColumnMaxIsMaximum(ws.cells, col, ws.maxRow);
  }

  /** One step of the fitting loop: column `col`'s width joins those of the columns before it. */
  lemma FittedWidthsStep(m: map<string, nat>, cells: map<(int, int), Cell>, rows: nat, col: nat, maxLength: nat)
    requires col >= 1 && maxLength == ColumnMax(cells, col, rows)
    ensures (m + FittedWidths(cells, rows, col - 1))[ColumnLetter(col) := FittedWidth(maxLength)]
            == m + FittedWidths(cells, rows, col)
  {
  }

  /** The outer width loop over `ws.columns`: every used column gets its fitted width. */
  method AutoFitColumns(ws: Worksheet)
    requires ws.Valid()
    modifies ws`columnWidths
    ensures ws.columnWidths == old(ws.columnWidths) + FittedWidths(ws.cells, ws.maxRow, ws.maxColumn)
  {
    for col := 1 to ws.maxColumn + 1
      invariant ws.columnWidths == old(ws.columnWidths) + FittedWidths(ws.cells, ws.maxRow, col - 1)
    {
      var maxLength := LongestInColumn(ws, col);
      var adjustedWidth := if maxLength + 2 < 20 then maxLength + 2 else 20;
      assert adjustedWidth == FittedWidth(maxLength);
      FittedWidthsStep(old(ws.columnWidths), ws.cells, ws.maxRow, col, maxLength);
      ws.SetColumnWidth(ColumnLetter(col), adjustedWidth);
    }
  }

  /**
   * The two `conditional_formatting.add` calls: green for "Promoted", then red
   * for "Not Promoted". For an empty table the range is O2:O1, which openpyxl
   * refuses with ValueError at the first call.
   */
  method AddStatusHighlighting(ws: Worksheet, lastRow: int) returns (outcome: Outcome<Error>)
    requires ws.conditionalFormatting == []
    modifies ws`conditionalFormatting
    ensures outcome.Fail? <==> lastRow < 2
    ensures outcome.Fail? ==> outcome.error == ValueError && ws.conditionalFormatting == []
    ensures outcome.Pass? ==> ws.conditionalFormatting == ReportFormatting(lastRow)
  {
    var accepted := ws.AddConditionalFormatting(HighlightRange(lastRow), PromotedRule);
    if !accepted {
      return Fail(ValueError);
    }
    accepted := ws.AddConditionalFormatting(HighlightRange(lastRow), NotPromotedRule);
    outcome := Pass;
  }

  /** The width loop on a sheet whose widths are all unset. */
  method FitColumnWidths(ws: Worksheet)
    requires ws.Valid() && ws.columnWidths == map[]
    modifies ws`columnWidths
    ensures ws.columnWidths == FittedWidths(ws.cells, ws.maxRow, ws.maxColumn)
  {
    ghost var widths := FittedWidths(ws.cells, ws.maxRow, ws.maxColumn);
    AutoFitColumns(ws);
    MergeIntoEmpty(widths);
  }

  /** The sheet holds exactly the layout cells of rows 1..done and of columns 1..extra of row done+1. */
  ghost predicate FilledUpTo(t: Table, cells: map<(int, int), Cell>, done: nat, extra: nat)
    requires t.Valid() && done <= |t.rows| + 1 && (done <= |t.rows| || extra == 0) && extra <= |t.columns|
  {
    (forall p :: p in cells <==> (1 <= p.0 <= done && 1 <= p.1 <= |t.columns|) || (p.0 == done + 1 && 1 <= p.1 <= extra)) &&
    (forall p :: p in cells ==> cells[p] == LayoutCell(t, p.0, p.1))
  }

  /** Writing the next layout cell extends a partly filled sheet by that cell. */
  lemma FilledStep(t: Table, cells: map<(int, int), Cell>, done: nat, extra: nat)
    requires t.Valid() && done <= |t.rows| && extra < |t.columns| && FilledUpTo(t, cells, done, extra)
    ensures FilledUpTo(t, cells[(done + 1, extra + 1) := LayoutCell(t, done + 1, extra + 1)], done, extra + 1)
  {
  }

  /** A fully written row is the same as no cell of the next row written. */
  lemma FilledRow(t: Table, cells: map<(int, int), Cell>, done: nat)
    requires t.Valid() && done <= |t.rows| && FilledUpTo(t, cells, done, |t.columns|)
    ensures FilledUpTo(t, cells, done + 1, 0)
  {
  }

  /** The header loop: row 1 gets the column names, styled as headers. */
  method WriteHeaderRow(ws: Worksheet, t: Table)
    requires t.Valid() && ws.Valid() && ws.cells == map[] && ws.maxRow == 0 && ws.maxColumn == 0
    modifies ws
    ensures ws.Valid() && FilledUpTo(t, ws.cells, 1, 0)
    ensures ws.maxRow == (if |t.columns| == 0 then 0 else 1) && ws.maxColumn == |t.columns|
    ensures ws.title == old(ws.title) && ws.columnWidths == old(ws.columnWidths)
    ensures ws.conditionalFormatting == old(ws.conditionalFormatting)
  {
    var headers := t.columns;
    for col := 0 to |headers|
      invariant ws.Valid() && FilledUpTo(t, ws.cells, 0, col)
      invariant ws.maxRow == (if col == 0 then 0 else 1) && ws.maxColumn == col
      invariant ws.title == old(ws.title) && ws.columnWidths == old(ws.columnWidths)
      invariant ws.conditionalFormatting == old(ws.conditionalFormatting)
    {
      FilledStep(t, ws.cells, 0, col);
      ws.SetCell(1, col + 1, Text(headers[col]));
      ws.SetStyle(1, col + 1, HeaderStyle);
    }
    FilledRow(t, ws.cells, 0);
  }

  /** One pass of the data loop: record `i` goes to row i + 2, value j to column j + 1. */
  method WriteRecord(ws: Worksheet, t: Table, i: nat)
    requires t.Valid() && i < |t.rows| && ws.Valid() && FilledUpTo(t, ws.cells, i + 1, 0)
    requires ws.maxRow == (if |t.columns| == 0 then 0 else i + 1) && ws.maxColumn == |t.columns|
    modifies ws
    ensures ws.Valid() && FilledUpTo(t, ws.cells, i + 2, 0)
    ensures ws.maxRow == (if |t.columns| == 0 then 0 else i + 2) && ws.maxColumn == |t.columns|
    ensures ws.title == old(ws.title) && ws.columnWidths == old(ws.columnWidths)
    ensures ws.conditionalFormatting == old(ws.conditionalFormatting)
  {
    var row := t.rows[i];
    for j := 0 to |row|
      invariant ws.Valid() && FilledUpTo(t, ws.cells, i + 1, j)
      invariant ws.maxRow == (if |t.columns| == 0 then 0 else if j == 0 then i + 1 else i + 2)
      invariant ws.maxColumn == |t.columns|
      invariant ws.title == old(ws.title) && ws.columnWidths == old(ws.columnWidths)
      invariant ws.conditionalFormatting == old(ws.conditionalFormatting)
    {
      FilledStep(t, ws.cells, i + 1, j);
      ws.SetCell(i + 2, j + 1, row[j]);
    }
    FilledRow(t, ws.cells, i + 1);
  }

  /** The header loop followed by the data loop: the sheet then holds exactly the layout. */
  method WriteTable(ws: Worksheet, t: Table)
    requires t.Valid() && ws.Valid() && ws.cells == map[] && ws.maxRow == 0 && ws.maxColumn == 0
    modifies ws
    ensures ws.Valid() && ws.cells == Layout(t)
    ensures ws.maxRow == (if |t.columns| == 0 then 0 else |t.rows| + 1) && ws.maxColumn == |t.columns|
    ensures ws.title == old(ws.title) && ws.columnWidths == old(ws.columnWidths)
    ensures ws.conditionalFormatting == old(ws.conditionalFormatting)
  {
    WriteHeaderRow(ws, t);
    for i := 0 to |t.rows|
      invariant ws.Valid() && FilledUpTo(t, ws.cells, i + 1, 0)
      invariant ws.maxRow == (if |t.columns| == 0 then 0 else i + 1) && ws.maxColumn == |t.columns|
      invariant ws.title == old(ws.title) && ws.columnWidths == old(ws.columnWidths)
      invariant ws.conditionalFormatting == old(ws.conditionalFormatting)
    {
      WriteRecord(ws, t, i);
    }
    LayoutExtensionality(t, ws.cells);
  }

  /**
   * `create_colorful_excel_report(df, output_path)` up to `wb.save`: the sheet
   * that would be saved, or the exception that stops the report after the
   * cells are written and before any rule or width is set: the KeyError
   * raised by `get_loc` when the table has no Promotion_Status column, or the
   * ValueError openpyxl raises for the range O2:O1 of a table with no rows.
   */
  method CreateColorfulExcelReport(t: Table) returns (ws: Worksheet, outcome: Outcome<Error>)
    requires t.Valid()
    ensures fresh(ws) && ws.Valid() && ws.title == ReportTitle
    ensures ws.cells == Layout(t)
    ensures ws.maxRow == (if |t.columns| == 0 then 0 else |t.rows| + 1) && ws.maxColumn == |t.columns|
    ensures outcome.Fail? <==> StatusColumn !in t.columns || |t.rows| == 0
    ensures StatusColumn !in t.columns ==> outcome == Fail(KeyError(StatusColumn))
    ensures StatusColumn in t.columns && |t.rows| == 0 ==> outcome == Fail(ValueError)
    ensures outcome.Fail? ==> ws.conditionalFormatting == [] && ws.columnWidths == map[]
    ensures outcome.Pass? ==>
              ws.conditionalFormatting == ReportFormatting(|t.rows| + 1) &&
              ws.columnWidths == FittedWidths(Layout(t), |t.rows| + 1, |t.columns|)
  {
    ws := new Worksheet();
    ws.title := ReportTitle;
    WriteTable(ws, t);

    var loc := GetLoc(t, StatusColumn);
    if loc.Failure? {
      outcome := Fail(loc.error);
      return;
    }
    var promotionCol := loc.value + 1;  // computed, then never used
    var lastRow := |t.rows| + 1;

    outcome := AddStatusHighlighting(ws, lastRow);
    if outcome.Fail? {
      return;
    }
    FitColumnWidths(ws);
  }
}
