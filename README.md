# Student promotion report and summary, in Dafny

This project models the two parts of the student-promotion analysis script
(`cs-student-promotion-analysis/src/data_utils.py`) that hold logic of their own.

- **The spreadsheet report** (`create_colorful_excel_report`). It writes the table into a new worksheet titled
  "Student Promotion Data":
  - row 1 holds the column names, bold white on blue and centred;
  - record `i` goes to row `i + 2`, with value `j` in column `j + 1`;
  - two equality-highlighting rules are attached, green for "Promoted" and then red for "Not Promoted";
  - every used column's width is set to the length of its longest stringified cell plus 2, capped at 20.
- **The summary statistics** (`generate_summary_stats`): the total number of students, the counts of the two
  promotion labels, the means of GPA, attendance and courses passed, and the promotion rate in percent.

The table arrives already parsed: a `Tables.Table` holds the column names and the rows of scalar `Values.Value`s
(text, integer, or float with its printed form). Python exceptions become values:
- the report returns `Outcome<Error>`;
- the summary returns `Result<Stats, Error>`;
- the error kinds are `KeyError`, `TypeError`, `ZeroDivisionError`, and `ValueError` for openpyxl's refusal
  of the inverted range `O2:O1` that a table with no rows produces.

Modules, in dependency order:
- `Wrappers`: Option, Result, Outcome.
- `Values`: cell values, `str()`, decimal text and its parser.
- `ColumnLetters`: column names "A", "B", …, "AA" and their inverse.
- `Tables`: the table, `get_loc`, column selection.
- `Summary`: `generate_summary_stats`.
- `Worksheets`: the openpyxl worksheet state as a class `Worksheet` that the report mutates, plus the meaning of
  conditional-formatting rules and of the width rule.
- `Report`: `create_colorful_excel_report` as nested loops over the worksheet, the layout it must produce, and the
  lemmas about that layout.

One might expect the highlighting rules to follow the Promotion_Status column. The report does not, and the model follows the code:
- The highlighting range is the literal `O2:O{last_row}`. The position of Promotion_Status (`promotion_col`) is
  computed and never used.
- So the rules always cover column O. A status column anywhere else is never highlighted
  (`Report.StatusOutsideColumnOIsNotHighlighted`).
- A missing Promotion_Status column still raises KeyError. This happens after every cell has been written and
  before any rule or width is set.
- For a table with no rows the range is `O2:O1`. openpyxl refuses an inverted range with ValueError at the first
  `conditional_formatting.add`, so that report stops there too, with no rule and no width set.

## Model

| member | source | states |
|---|---|---|
| `Values.DecimalRoundTrip` | cs-student-promotion-analysis/src/data_utils.py:62-63 | the decimal text `str()` gives an integer cell (and the `last_row` in a range string) parses back to that integer, so distinct integers print differently |
| `Values.Str` | cs-student-promotion-analysis/src/data_utils.py:62-63 | `str()` of a text cell is the text, of a float its printed form, and of an integer its decimal text, which is non-empty and starts with '-' exactly for a negative number |
| `ColumnLetters.ColumnLetterRoundTrip` | cs-student-promotion-analysis/src/data_utils.py:59 | a column's letter name (`column_letter`) reads back as its 1-based index |
| `ColumnLetters.ColumnLetter` | cs-student-promotion-analysis/src/data_utils.py:59 | `column_letter` is a non-empty name of upper-case letters, a single letter exactly for columns 1..26 |
| `ColumnLetters.ColumnLetterInjective` | cs-student-promotion-analysis/src/data_utils.py:59-67 | distinct columns have distinct letter names, so no column's width entry overwrites another's |
| `Tables.GetLoc` | cs-student-promotion-analysis/src/data_utils.py:45 | `get_loc` raises KeyError exactly when the name is not a column, and otherwise returns a position holding that name |
| `Tables.GetLocUnique` | cs-student-promotion-analysis/src/data_utils.py:45 | in a table with distinct names, `get_loc` of the name at position k is k |
| `Tables.Select` | cs-student-promotion-analysis/src/data_utils.py:76-81 | `df[name]` raises KeyError exactly when the column is absent, and otherwise holds, row by row, that row's value under the name |
| `Summary.CountLabelIsMultiplicity` | cs-student-promotion-analysis/src/data_utils.py:76-77 | the count of a label equals the number of status values exactly equal to that label |
| `Summary.CountLabel` | cs-student-promotion-analysis/src/data_utils.py:76-77 | a label's count never exceeds the number of rows |
| `Summary.LabelCountsCover` | cs-student-promotion-analysis/src/data_utils.py:76-77 | the Promoted and Not Promoted counts sum to at most the number of rows, and to exactly that number when every status is one of the two labels |
| `Summary.NumericColumn` | cs-student-promotion-analysis/src/data_utils.py:78-80 | a column has numeric readings exactly when none of its values is text, one reading per value in row order |
| `Summary.ColumnMean` | cs-student-promotion-analysis/src/data_utils.py:78-80 | `df[name].mean()` raises KeyError(name) exactly when the column is absent and TypeError(name) when it holds text; otherwise it is the mean of the column's numbers, which is a value (not NaN) exactly when the table is non-empty |
| `Summary.MeanBounds` | cs-student-promotion-analysis/src/data_utils.py:78-80 | a mean lies within any bounds that every averaged value respects |
| `Summary.Mean` | cs-student-promotion-analysis/src/data_utils.py:78-80 | `mean()` is NaN (None) exactly for no values, and otherwise is the value that times the count gives the sum |
| `Summary.RateBounds` | cs-student-promotion-analysis/src/data_utils.py:81 | `(promoted / total) * 100` equals `100 * promoted / total` and lies in [0, 100] when promoted ≤ total |
| `Summary.GenerateSummaryStats` | cs-student-promotion-analysis/src/data_utils.py:72-83 | succeeds exactly when Promotion_Status exists, GPA, Attendance_Percentage and Courses_Passed exist and are numeric, and the table is non-empty; KeyError for Promotion_Status exactly when it is missing; otherwise the first of GPA, Attendance_Percentage, Courses_Passed (in that order) that is missing or holds text gives its KeyError or TypeError; ZeroDivisionError exactly when the four columns are present and usable and the table is empty; on success Total = N, the two counts sum to at most N, the three averages are the means of their columns, and the rate is 100·promoted/N within [0, 100] |
| `Summary.SummaryCountsLabels` | cs-student-promotion-analysis/src/data_utils.py:76-77 | Promoted and Not Promoted entries count exactly the rows whose status equals that label |
| `Summary.SummaryCountsAddUp` | cs-student-promotion-analysis/src/data_utils.py:75-77 | when every status is one of the two labels, Promoted + Not Promoted = Total |
| `Summary.AverageGpaWithinBounds` | cs-student-promotion-analysis/src/data_utils.py:78 | the average GPA lies within any bounds every GPA respects |
| `Summary.ThreeStudentScenario` | cs-student-promotion-analysis/src/data_utils.py:72-83 | a table of three students (GPAs 3.0, 2.5, 3.8; the first and last promoted) is valid and gives Total 3, Promoted 2, Not Promoted 1, averages 3.1, 85 and 34/3, and rate 200/3 |
| `Worksheets.AppliedFill` | cs-student-promotion-analysis/src/data_utils.py:48-54 | a cell is shown with a conditional fill exactly when some rule's range covers it and its equality test holds; the first such rule's fill wins |
| `Worksheets.ColumnMaxIsMaximum` | cs-student-promotion-analysis/src/data_utils.py:58-63 | the column maximum bounds the shown length of every cell in the column (absent cells show "None") and is attained, or is 0 |
| `Worksheets.FittedWidth` | cs-student-promotion-analysis/src/data_utils.py:66 | `min(max_length + 2, 20)` lies in [2, 20], equals `max_length + 2` exactly when that is at most 20, and is 20 otherwise |
| `Worksheets.FittedWidthsKeys` | cs-student-promotion-analysis/src/data_utils.py:57-67 | only the letters of the used columns receive a width |
| `Worksheets.FittedWidthsAt` | cs-student-promotion-analysis/src/data_utils.py:57-67 | every used column has, under its own letter, the width fitted to its own cells |
| `Worksheets.Worksheet.constructor` | cs-student-promotion-analysis/src/data_utils.py:24-25 | a new workbook's active sheet is empty: no cells, widths or rules, title "Sheet" |
| `Worksheets.Worksheet.SetCell` | cs-student-promotion-analysis/src/data_utils.py:31 | `ws.cell(row, column, value)` stores the value at that position, keeps an existing cell's style, widens the used extent, and changes nothing else |
| `Worksheets.Worksheet.SetStyle` | cs-student-promotion-analysis/src/data_utils.py:32-34 | setting font, fill and alignment replaces only that cell's style |
| `Worksheets.Worksheet.AddConditionalFormatting` | cs-student-promotion-analysis/src/data_utils.py:50 | a rule is appended after the rules already present; a range whose minimum row or column exceeds its maximum is refused (openpyxl's ValueError) and nothing is added |
| `Worksheets.Worksheet.SetColumnWidth` | cs-student-promotion-analysis/src/data_utils.py:67 | assigns one column's width and no other |
| `Report.HighlightRangeText` | cs-student-promotion-analysis/src/data_utils.py:46-50 | the range the rules cover is the one spelled `O2:O{len(df)+1}` |
| `Report.HighlightRangeTextInjective` | cs-student-promotion-analysis/src/data_utils.py:46-50 | different `last_row` values give different range strings |
| `Report.ReportFormatting` | cs-student-promotion-analysis/src/data_utils.py:48-54 | the report's rules are two, both on O2:O{last_row}: first `"Promoted"` with the green fill, then `"Not Promoted"` with the red fill |
| `Report.LayoutHeader` | cs-student-promotion-analysis/src/data_utils.py:29-34 | row 1 holds the column names, in column order |
| `Report.LayoutRecord` | cs-student-promotion-analysis/src/data_utils.py:37-39 | row `i + 2` holds record `i`, value `j` in column `j + 1` |
| `Report.LayoutRoundTrip` | cs-student-promotion-analysis/src/data_utils.py:28-39 | reading the written sheet back (names from row 1, records from rows 2..N+1) gives exactly the input table |
| `Report.LayoutShape` | cs-student-promotion-analysis/src/data_utils.py:29-39 | the sheet holds cells exactly in rows 1..N+1 and the table's columns; a cell has the header style exactly when it is in row 1, and every other cell keeps the default style |
| `Report.MaxLengthIsMaximum` | cs-student-promotion-analysis/src/data_utils.py:58-63 | the longest-text function bounds every text's length and is attained, or is 0 |
| `Report.ReportColumnWidth` | cs-student-promotion-analysis/src/data_utils.py:57-67 | column `j + 1`'s width is `min(L + 2, 20)`, where L is the longest `str()` of that column's cells, header included |
| `Report.StatusHighlighting` | cs-student-promotion-analysis/src/data_utils.py:42-54 | with the report's rules a cell is green exactly when it is in O2..O(N+1) and holds "Promoted", red exactly when it is there and holds "Not Promoted", and unfilled otherwise |
| `Report.StatusOutsideColumnOIsNotHighlighted` | cs-student-promotion-analysis/src/data_utils.py:45-54 | when Promotion_Status is not column O, none of its cells is highlighted, whatever label it holds |
| `Report.LongestInColumn` | cs-student-promotion-analysis/src/data_utils.py:58-63 | after the scan, `max_length` is the largest `len(str(cell.value))` over the column's rows 1..max_row: every cell's length is at most it, and it is one of them or 0 |
| `Report.AutoFitColumns` | cs-student-promotion-analysis/src/data_utils.py:57-67 | the width loop adds, for every used column, its fitted width under its letter to the widths already set |
| `Report.FitColumnWidths` | cs-student-promotion-analysis/src/data_utils.py:56-67 | on a sheet with no widths set, the widths become exactly the fitted widths of the used columns |
| `Report.AddStatusHighlighting` | cs-student-promotion-analysis/src/data_utils.py:48-54 | exactly two rules are added, "Promoted"/green first and then "Not Promoted"/red, both on O2:O{last_row}; for `last_row` 1 the first `add` raises ValueError and no rule is added |
| `Report.WriteHeaderRow` | cs-student-promotion-analysis/src/data_utils.py:28-34 | after the header loop the sheet holds exactly row 1, each cell the column name with the header style |
| `Report.WriteRecord` | cs-student-promotion-analysis/src/data_utils.py:37-39 | one pass of the data loop adds exactly row `i + 2` holding record `i` |
| `Report.WriteTable` | cs-student-promotion-analysis/src/data_utils.py:28-39 | after both fill loops the sheet's cells are exactly the layout: header row plus one row per record |
| `Report.CreateColorfulExcelReport` | cs-student-promotion-analysis/src/data_utils.py:17-67 | the sheet is titled "Student Promotion Data" and holds exactly the layout; the report fails exactly when Promotion_Status is missing (KeyError) or the table has no rows (ValueError on the range O2:O1), and then no rule or width is set; otherwise the rules are the two status rules on column O, rows 2..N+1, in that order, whichever column holds the status, and every used column has its fitted width |

## Left out

- `load_data` (`pd.read_csv`, lines 13-15) is not modelled. The table is a parameter, already parsed.
- `create_visualizations` (lines 85-158) is not modelled. It only calls matplotlib and seaborn: global style, six
  plots, a floating-point correlation matrix and two PNG files.
- `wb.save(output_path)` and the two `print` calls are not modelled, because they are file and console output.
  The report method returns the in-memory sheet that would be saved, and `output_path` does not appear.
- openpyxl's own checks are library code that is not part of this model:
  - the column and row limits of a sheet;
  - rejection of illegal characters in strings.
  Its refusal of an inverted range (a minimum above its maximum) is modelled.
- When openpyxl iterates `ws.columns`, it creates empty cells for any holes inside the used extent. The model reads
  such a cell as `None` and does not add it. The report's sheet has no holes, so the widths are unaffected.
- The bare `except: pass` around the length measurement (lines 64-65) is not modelled. `str()` and `len()` do not
  raise for the modelled values.
- Float formatting is not modelled. A float cell carries its value and the text Python prints for it, and
  `len(str(x))` uses that text.
- Missing values (NaN) are not modelled. A float cell always holds a finite real, so pandas' skipping of NaN in
  `mean()` does not arise.
- `Summary.ColumnMean`: any text value in an averaged column gives TypeError. pandas' coercion of numeric-looking
  strings in object columns is not modelled.
- `Summary.GenerateSummaryStats`: the averages and the rate are exact reals, not IEEE doubles, and rounding for
  display (66.67) is not modelled.
- `Worksheets.AppliedFill`: the equality rule is evaluated as exact, case-sensitive string equality. Spreadsheet
  applications compare text case-insensitively.
- Duplicate column names are excluded by `Table.Valid`, because `read_csv` renames duplicates. `get_loc` on a
  repeated name is therefore not modelled.
- Fonts, fills and alignment are kept as the literal colours and flags the code sets. Column widths are whole
  numbers, where openpyxl stores floats.
- The unused imports (numpy, plotly, sklearn) are not modelled.
