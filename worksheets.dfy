/**
 * The part of an openpyxl worksheet the report touches: cells keyed by
 * (row, column), the used extent, column widths keyed by column letter, and
 * the conditional-formatting rules in the order they were added.
 */
module Worksheets {
  import opened Wrappers
  import opened Values
  import opened ColumnLetters

  /** Font, fill and alignment of a cell, reduced to what the report sets. */
  datatype Style = Style(bold: bool, fontColor: Option<string>, fill: Option<string>, centered: bool)

  /** The style of a cell nobody styled. */
  const DefaultStyle := Style(false, None, None, false)

  datatype Cell = Cell(value: Value, style: Style)

  /** A block of cells by inclusive 1-based bounds, as openpyxl parses "O2:O51". */
  datatype CellRange = CellRange(minCol: int, minRow: int, maxCol: int, maxRow: int) {
    predicate Contains(row: int, col: int)
    {
      minRow <= row <= maxRow && minCol <= col <= maxCol
    }

    /** openpyxl's `CellRange` raises ValueError when a minimum exceeds its maximum. */
    predicate WellFormed()
    {
      minCol <= maxCol && minRow <= maxRow
    }
  }

  /** The A1-style text of a range, such as "O2:O51". */
  function RangeText(r: CellRange): string
    requires r.minCol >= 1 && r.maxCol >= 1
  {
    ColumnLetter(r.minCol) + DecimalString(r.minRow) + ":" + ColumnLetter(r.maxCol) + DecimalString(r.maxRow)
  }

  datatype Operator = Equal

  /** `CellIsRule(operator, formula=[formula], fill)`. */
  datatype Rule = CellIsRule(operator: Operator, formula: string, fill: string)

  /** One `conditional_formatting.add(range, rule)`. */
  datatype Formatting = Formatting(range: CellRange, rule: Rule)

  /** A string literal in a spreadsheet formula. */
  function Quoted(s: string): string
  {
    "\"" + s + "\""
  }

  lemma QuotedInjective(a: string, b: string)
    requires Quoted(a) == Quoted(b)
    ensures a == b
  {
    assert a == Quoted(a)[1..|Quoted(a)| - 1];
    assert b == Quoted(b)[1..|Quoted(b)| - 1];
  }

  /** Whether a cell holding `v` passes the rule's test. */
  predicate RuleHolds(rule: Rule, v: Value)
  {
    match rule.operator
    case Equal => v.Text? && rule.formula == Quoted(v.s)
  }

  /**
   * The conditional fill a cell at (row, col) holding `v` is shown with: that of the
   * first rule, in priority order, whose range covers the cell and whose test holds.
   */
  function AppliedFill(rules: seq<Formatting>, row: int, col: int, v: Value): (f: Option<string>)
    ensures f.Some? <==> exists k :: 0 <= k < |rules| && rules[k].range.Contains(row, col) && RuleHolds(rules[k].rule, v)
    ensures f.Some? ==> exists k :: 0 <= k < |rules| && rules[k].range.Contains(row, col) && RuleHolds(rules[k].rule, v) &&
                          f.value == rules[k].rule.fill &&
                          forall j :: 0 <= j < k ==> !(rules[j].range.Contains(row, col) && RuleHolds(rules[j].rule, v))
  {
    if rules == [] then None
    else if rules[0].range.Contains(row, col) && RuleHolds(rules[0].rule, v) then Some(rules[0].rule.fill)
    else
      var f := AppliedFill(rules[1..], row, col, v);
      assert forall k :: 1 <= k < |rules| ==> rules[1..][k - 1] == rules[k];
      f
  }

  /** The length of `str(cell.value)` at (row, col); a cell never written holds None. */
  function ShownLength(cells: map<(int, int), Cell>, row: int, col: int): nat
  {
    if (row, col) in cells then |Str(cells[(row, col)].value)| else |NoneText|
  }

  /** The longest shown length among rows 1..rows of column `col`, 0 when there are no rows. */
  function ColumnMax(cells: map<(int, int), Cell>, col: int, rows: nat): nat
  {
    if rows == 0 then 0
    else
      var before := ColumnMax(cells, col, rows - 1);
      var here := ShownLength(cells, rows, col);
      if here > before then here else before
  }

  /** ColumnMax bounds every shown length in the column and is one of them (or 0). */
  lemma {:induction false} ColumnMaxIsMaximum(cells: map<(int, int), Cell>, col: int, rows: nat)
    ensures forall r :: 1 <= r <= rows ==> ShownLength(cells, r, col) <= ColumnMax(cells, col, rows)
    ensures ColumnMax(cells, col, rows) == 0 ||
            exists r :: 1 <= r <= rows && ShownLength(cells, r, col) == ColumnMax(cells, col, rows)
  {
    if rows > 0 {
      ColumnMaxIsMaximum(cells, col, rows - 1);
    }
  }

  const WidthPadding := 2
  const MaxColumnWidth := 20

  /** `min(max_length + 2, 20)` */
  function FittedWidth(maxLength: nat): (w: nat)
    ensures WidthPadding <= w <= MaxColumnWidth
    ensures w == maxLength + WidthPadding <==> maxLength + WidthPadding <= MaxColumnWidth
    ensures w < maxLength + WidthPadding ==> w == MaxColumnWidth
  {
    if maxLength + WidthPadding < MaxColumnWidth then maxLength + WidthPadding else MaxColumnWidth
  }

  /** The widths the fitting loop sets for columns 1..cols of a sheet with `rows` rows. */
  function FittedWidths(cells: map<(int, int), Cell>, rows: nat, cols: nat): map<string, nat>
  {
    if cols == 0 then map[]
    else FittedWidths(cells, rows, cols - 1)[ColumnLetter(cols) := FittedWidth(ColumnMax(cells, cols, rows))]
  }

  /** The only keys that receive a width are the letters of columns 1..cols. */
  lemma {:induction false} FittedWidthsKeys(cells: map<(int, int), Cell>, rows: nat, cols: nat, key: string)
    requires key in FittedWidths(cells, rows, cols)
    ensures |key| >= 1 && AllUpper(key) && 1 <= ColumnIndex(key) <= cols
    ensures key == ColumnLetter(ColumnIndex(key))
  {
    if key == ColumnLetter(cols) {
      ColumnLetterRoundTrip(cols);
    } else {
      FittedWidthsKeys(cells, rows, cols - 1, key);
    }
  }

  /** Each column 1..cols has, under its own letter, the width fitted to its own cells. */
  lemma {:induction false} FittedWidthsAt(cells: map<(int, int), Cell>, rows: nat, cols: nat, c: nat)
    requires 1 <= c <= cols
    ensures ColumnLetter(c) in FittedWidths(cells, rows, cols)
    ensures FittedWidths(cells, rows, cols)[ColumnLetter(c)] == FittedWidth(ColumnMax(cells, c, rows))
  {
    if c < cols {
      FittedWidthsAt(cells, rows, cols - 1, c);
      if ColumnLetter(c) == ColumnLetter(cols) {
        ColumnLetterInjective(c, cols);
      }
    }
  }

  class Worksheet {
    var title: string
    /** Cells written so far, keyed by (row, column), both 1-based. */
    var cells: map<(int, int), Cell>
    /** Largest row and column written; both 0 while the sheet is empty. */
    var maxRow: nat
    var maxColumn: nat
    /** `column_dimensions[letter].width` for the columns whose width was set. */
    var columnWidths: map<string, nat>
    /** `conditional_formatting`, in the order the rules were added. */
    var conditionalFormatting: seq<Formatting>

    /** Every written cell lies inside the extent, and the extent is empty only with the sheet. */
    ghost predicate Valid()
      reads this`cells, this`maxRow, this`maxColumn
    {
      (forall p :: p in cells ==> 1 <= p.0 <= maxRow && 1 <= p.1 <= maxColumn) &&
      (maxRow == 0 <==> maxColumn == 0)
    }

    /** `openpyxl.Workbook().active`: an empty sheet called "Sheet". */
    constructor ()
      ensures Valid()
      ensures title == "Sheet" && cells == map[] && maxRow == 0 && maxColumn == 0
      ensures columnWidths == map[] && conditionalFormatting == []
    {
      title := "Sheet";
      cells := map[];
      maxRow, maxColumn := 0, 0;
      columnWidths := map[];
      conditionalFormatting := [];
    }

    /**
     * `ws.cell(row=row, column=column, value=value)`: stores the value, keeping
     * the style of a cell that already exists, and widens the extent.
     */
    method SetCell(row: int, column: int, value: Value)
      requires Valid() && 1 <= row && 1 <= column
      modifies this
      ensures Valid()
      ensures cells == old(cells)[(row, column) :=
                Cell(value, if (row, column) in old(cells) then old(cells)[(row, column)].style else DefaultStyle)]
      ensures maxRow == (if row > old(maxRow) then row else old(maxRow))
      ensures maxColumn == (if column > old(maxColumn) then column else old(maxColumn))
      ensures title == old(title) && columnWidths == old(columnWidths)
      ensures conditionalFormatting == old(conditionalFormatting)
    {
      var style := if (row, column) in cells then cells[(row, column)].style else DefaultStyle;
      cells := cells[(row, column) := Cell(value, style)];
      if row > maxRow { maxRow := row; }
      if column > maxColumn { maxColumn := column; }
    }

    /** `cell.font = …; cell.fill = …; cell.alignment = …` on an existing cell. */
    method SetStyle(row: int, column: int, style: Style)
      requires Valid() && (row, column) in cells
      modifies this`cells
      ensures Valid()
      ensures cells == old(cells)[(row, column) := Cell(old(cells)[(row, column)].value, style)]
    {
      cells := cells[(row, column) := Cell(cells[(row, column)].value, style)];
    }

    /**
     * `ws.conditional_formatting.add(range, rule)`: the rule goes after those
     * already there. A range openpyxl cannot build is refused (`accepted` is
     * false where Python raises ValueError) and nothing is added.
     */
    method AddConditionalFormatting(range: CellRange, rule: Rule) returns (accepted: bool)
      modifies this`conditionalFormatting
      ensures accepted <==> range.WellFormed()
      ensures conditionalFormatting ==
                if accepted then old(conditionalFormatting) + [Formatting(range, rule)] else old(conditionalFormatting)
    {
      accepted := range.WellFormed();
      if accepted {
        conditionalFormatting := conditionalFormatting + [Formatting(range, rule)];
      }
    }

    /** `ws.column_dimensions[letter].width = width` */
    method SetColumnWidth(letter: string, width: nat)
      modifies this`columnWidths
      ensures columnWidths == old(columnWidths)[letter := width]
    {
      columnWidths := columnWidths[letter := width];
    }
  }
}
