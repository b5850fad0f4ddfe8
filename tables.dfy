/**
 * The student table as the script receives it from `pd.read_csv`: ordered
 * column names and rows of scalar values, and the lookups the script does on it.
 */
module Tables {
  import opened Wrappers
  import opened Values

  /** Column names and labels the script refers to by literal. */
  const StatusColumn := "Promotion_Status"
  const GpaColumn := "GPA"
  const AttendanceColumn := "Attendance_Percentage"
  const CoursesColumn := "Courses_Passed"
  const Promoted := "Promoted"
  const NotPromoted := "Not Promoted"

  /** The Python exceptions the modelled code can raise. */
  datatype Error =
    | KeyError(column: string)     // a column looked up by name is absent
    | TypeError(column: string)    // the mean of a column that holds text
    | ZeroDivisionError            // the promotion rate of an empty table
    | ValueError                   // openpyxl's rejection of an inverted cell range

  datatype Table = Table(columns: seq<string>, rows: seq<seq<Value>>) {
    /** Every row has one value per column, and column names are distinct. */
    predicate Valid()
    {
      (forall i :: 0 <= i < |rows| ==> |rows[i]| == |columns|) &&
      (forall a, b :: 0 <= a < b < |columns| ==> columns[a] != columns[b])
    }
  }

  /** Position of the first occurrence of `name` in `names`. */
  function IndexOf(names: seq<string>, name: string): (r: Option<nat>)
    ensures r.None? <==> name !in names
    ensures r.Some? ==> r.value < |names| && names[r.value] == name && name !in names[..r.value]
  {
    if |names| == 0 then None
    else if names[0] == name then Some(0)
    else match IndexOf(names[1..], name)
      case None => None
      case Some(k) =>
        assert names[1..][..k] == names[1..k + 1];
        assert names[..k + 1] == [names[0]] + names[1..k + 1];
        Some(k + 1)
  }

  /** `df.columns.get_loc(name)`: the 0-based position of a column, or KeyError. */
  function GetLoc(t: Table, name: string): (r: Result<nat, Error>)
    ensures r.Failure? <==> name !in t.columns
    ensures r.Failure? ==> r.error == KeyError(name)
    ensures r.Success? ==> r.value < |t.columns| && t.columns[r.value] == name
  {
    match IndexOf(t.columns, name)
    case None => Failure(KeyError(name))
    case Some(k) => Success(k)
  }

  /** In a valid table a column name identifies exactly one position. */
  lemma GetLocUnique(t: Table, k: nat)
    requires t.Valid() && k < |t.columns|
    ensures GetLoc(t, t.columns[k]) == Success(k)
  {
  }

  /** The values of the column at position `k`, in row order. */
  function ColumnValues(t: Table, k: nat): (col: seq<Value>)
    requires t.Valid() && k < |t.columns|
    ensures |col| == |t.rows|
    ensures forall i :: 0 <= i < |t.rows| ==> col[i] == t.rows[i][k]
  {
    seq(|t.rows|, i requires 0 <= i < |t.rows| => t.rows[i][k])
  }

  /** `df[name]`: the named column, or KeyError. */
  function Select(t: Table, name: string): (r: Result<seq<Value>, Error>)
    requires t.Valid()
    ensures r.Failure? <==> name !in t.columns
    ensures r.Failure? ==> r.error == KeyError(name)
    ensures r.Success? ==> |r.value| == |t.rows|
    ensures r.Success? ==> forall i :: 0 <= i < |t.rows| ==> r.value[i] == t.rows[i][GetLoc(t, name).value]
  {
    var k :- GetLoc(t, name);
    Success(ColumnValues(t, k))
  }
}
