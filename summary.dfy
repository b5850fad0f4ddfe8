/**
 * `generate_summary_stats`: head counts per promotion label, three column
 * means and the promotion rate, computed over the whole table.
 */
module Summary {
  import opened Wrappers
  import opened Values
  import opened Tables

  /** The summary dictionary, one field per key. */
  datatype Stats = Stats(
    totalStudents: nat,
    promotedStudents: nat,
    notPromotedStudents: nat,
    averageGpa: real,
    averageAttendance: real,
    averageCoursesPassed: real,
    promotionRate: real)

  /** `len(df[df['Promotion_Status'] == label])` over the status column `statuses`, for the label `wanted`. */
  function CountLabel(statuses: seq<Value>, wanted: string): (c: nat)
    ensures c <= |statuses|
  {
    if statuses == [] then 0
    else (if statuses[0] == Text(wanted) then 1 else 0) + CountLabel(statuses[1..], wanted)
  }

  /** The count is the number of occurrences of exactly that label. */
  lemma {:induction false} CountLabelIsMultiplicity(statuses: seq<Value>, wanted: string)
    ensures CountLabel(statuses, wanted) == multiset(statuses)[Text(wanted)]
  {
    if statuses != [] {
      assert statuses == [statuses[0]] + statuses[1..];
      CountLabelIsMultiplicity(statuses[1..], wanted);
    }
  }

  /**
   * The two label counts never exceed the number of rows, and add up to it
   * when every status is one of the two labels.
   */
  lemma {:induction false} LabelCountsCover(statuses: seq<Value>)
    ensures CountLabel(statuses, Promoted) + CountLabel(statuses, NotPromoted) <= |statuses|
    ensures (forall i :: 0 <= i < |statuses| ==> statuses[i] in {Text(Promoted), Text(NotPromoted)}) ==>
              CountLabel(statuses, Promoted) + CountLabel(statuses, NotPromoted) == |statuses|
  {
    if statuses != [] {
      LabelCountsCover(statuses[1..]);
      assert forall i :: 1 <= i < |statuses| ==> statuses[1..][i - 1] == statuses[i];
    }
  }

  /** The number a cell contributes to `mean()`; text has none. */
  function Numeric(v: Value): Option<real>
  {
    match v
    case Integer(n) => Some(n as real)
    case Float(x, _) => Some(x)
    case Text(_) => None
  }

  /** The column as numbers, or None when it holds any text. */
  function NumericColumn(col: seq<Value>): (r: Option<seq<real>>)
    ensures r.Some? <==> forall i :: 0 <= i < |col| ==> !col[i].Text?
    ensures r.Some? ==> |r.value| == |col| && forall i :: 0 <= i < |col| ==> Numeric(col[i]) == Some(r.value[i])
  {
    if col == [] then Some([])
    else match (Numeric(col[0]), NumericColumn(col[1..]))
      case (Some(x), Some(xs)) =>
        assert forall i :: 1 <= i < |col| ==> col[1..][i - 1] == col[i];
        Some([x] + xs)
      case (None, _) => None
      case (_, None) =>
        assert forall i :: 1 <= i < |col| ==> col[1..][i - 1] == col[i];
        None
  }

  function Sum(xs: seq<real>): real
  {
    if xs == [] then 0.0 else xs[0] + Sum(xs[1..])
  }

  /** `mean()`: None stands for the NaN pandas gives an empty column. */
  function Mean(xs: seq<real>): (m: Option<real>)
    ensures m.None? <==> |xs| == 0
    ensures m.Some? ==> m.value * |xs| as real == Sum(xs)
  {
    if |xs| == 0 then None else Some(Sum(xs) / |xs| as real)
  }

  lemma {:induction false} SumBounds(xs: seq<real>, lo: real, hi: real)
    requires forall i :: 0 <= i < |xs| ==> lo <= xs[i] <= hi
    ensures |xs| as real * lo <= Sum(xs) <= |xs| as real * hi
  {
    if xs != [] {
      SumBounds(xs[1..], lo, hi);
    }
  }

  /** A mean lies between any bounds that hold for every value it averages. */
  lemma MeanBounds(xs: seq<real>, lo: real, hi: real)
    requires |xs| > 0
    requires forall i :: 0 <= i < |xs| ==> lo <= xs[i] <= hi
    ensures Mean(xs).Some? && lo <= Mean(xs).value <= hi
  {
    SumBounds(xs, lo, hi);
    var n := |xs| as real;
    assert Sum(xs) / n >= (n * lo) / n;
    assert Sum(xs) / n <= (n * hi) / n;
  }

  /** A share of `promoted` out of `total`, in percent, lies in [0, 100]. */
  lemma RateBounds(promoted: nat, total: nat)
    requires 0 < total && promoted <= total
    ensures 0.0 <= (promoted as real / total as real) * 100.0 <= 100.0
    ensures (promoted as real / total as real) * 100.0 == 100.0 * promoted as real / total as real
  {
    var q := promoted as real / total as real;
    assert q * total as real == promoted as real;
    assert q <= 1.0;
  }

  /** `rate` is `promoted` out of `total` in percent, so it lies in [0, 100]. */
  predicate RateOf(promoted: nat, total: nat, rate: real)
  {
    total > 0 && 0.0 <= rate <= 100.0 && rate == 100.0 * promoted as real / total as real
  }

  /** The column holds numbers only (and exists). */
  predicate NumericIn(t: Table, name: string)
    requires t.Valid()
  {
    Select(t, name).Success? && NumericColumn(Select(t, name).value).Some?
  }

  /**
   * What `generate_summary_stats` needs of the table: a status column, three
   * numeric columns, and at least one row to divide by.
   */
  predicate Summarizable(t: Table)
    requires t.Valid()
  {
    StatusColumn in t.columns && NumericIn(t, GpaColumn) && NumericIn(t, AttendanceColumn) &&
    NumericIn(t, CoursesColumn) && |t.rows| > 0
  }

  /** `df[name].mean()`: KeyError for a missing column, TypeError for text. */
  function ColumnMean(t: Table, name: string): (r: Result<Option<real>, Error>)
    requires t.Valid()
    ensures r.Success? <==> NumericIn(t, name)
    ensures (r.Failure? && r.error == KeyError(name)) <==> name !in t.columns
    ensures r.Failure? && name in t.columns ==> r.error == TypeError(name)
    ensures r.Success? ==> (r.value.Some? <==> |t.rows| > 0)
    ensures r.Success? ==> r.value == Mean(NumericColumn(Select(t, name).value).value)
  {
    var col :- Select(t, name);
    match NumericColumn(col)
    case None => Failure(TypeError(name))
    case Some(xs) => Success(Mean(xs))
  }

  /**
   * `generate_summary_stats(df)`. The dictionary entries are evaluated in
   * order, so the first missing column raises KeyError, a text-valued mean
   * raises TypeError, and an empty table reaches the rate and raises
   * ZeroDivisionError.
   */
  function GenerateSummaryStats(t: Table): (r: Result<Stats, Error>)
    requires t.Valid()
    ensures r.Success? <==> Summarizable(t)
    ensures (r.Failure? && r.error == KeyError(StatusColumn)) <==> StatusColumn !in t.columns
    ensures StatusColumn in t.columns && ColumnMean(t, GpaColumn).Failure? ==>
              r == Failure(ColumnMean(t, GpaColumn).error)
    ensures StatusColumn in t.columns && ColumnMean(t, GpaColumn).Success? &&
            ColumnMean(t, AttendanceColumn).Failure? ==>
              r == Failure(ColumnMean(t, AttendanceColumn).error)
    ensures StatusColumn in t.columns && ColumnMean(t, GpaColumn).Success? &&
            ColumnMean(t, AttendanceColumn).Success? && ColumnMean(t, CoursesColumn).Failure? ==>
              r == Failure(ColumnMean(t, CoursesColumn).error)
    ensures (r.Failure? && r.error == ZeroDivisionError) <==>
            (StatusColumn in t.columns && NumericIn(t, GpaColumn) && NumericIn(t, AttendanceColumn) &&
             NumericIn(t, CoursesColumn) && |t.rows| == 0)
    ensures r.Success? ==> r.value.totalStudents == |t.rows|
    ensures r.Success? ==> r.value.promotedStudents + r.value.notPromotedStudents <= r.value.totalStudents
    ensures r.Success? ==> RateOf(r.value.promotedStudents, r.value.totalStudents, r.value.promotionRate)
    ensures r.Success? ==> r.value.averageGpa == ColumnMean(t, GpaColumn).value.value
    ensures r.Success? ==> r.value.averageAttendance == ColumnMean(t, AttendanceColumn).value.value
    ensures r.Success? ==> r.value.averageCoursesPassed == ColumnMean(t, CoursesColumn).value.value
  {
    var total := |t.rows|;
    var statuses :- Select(t, StatusColumn);
    var promoted := CountLabel(statuses, Promoted);
    var notPromoted := CountLabel(statuses, NotPromoted);
    var gpa :- ColumnMean(t, GpaColumn);
    var attendance :- ColumnMean(t, AttendanceColumn);
    var courses :- ColumnMean(t, CoursesColumn);
    if total == 0 then Failure(ZeroDivisionError)
    else
      LabelCountsCover(statuses);
      var rate := (promoted as real / total as real) * 100.0;
      RateBounds(promoted, total);
      assert RateOf(promoted, total, rate);
      Success(Stats(total, promoted, notPromoted, gpa.value, attendance.value, courses.value, rate))
  }

  /**
   * The Promoted and Not Promoted entries count exactly the rows whose status
   * equals that label.
   */
  lemma SummaryCountsLabels(t: Table, k: nat)
    requires t.Valid() && k < |t.columns| && t.columns[k] == StatusColumn
    requires Summarizable(t)
    ensures GenerateSummaryStats(t).value.promotedStudents == multiset(ColumnValues(t, k))[Text(Promoted)]
    ensures GenerateSummaryStats(t).value.notPromotedStudents == multiset(ColumnValues(t, k))[Text(NotPromoted)]
  {
    GetLocUnique(t, k);
    CountLabelIsMultiplicity(ColumnValues(t, k), Promoted);
    CountLabelIsMultiplicity(ColumnValues(t, k), NotPromoted);
  }

  /** When every status is one of the two labels, the two counts add up to the total. */
  lemma SummaryCountsAddUp(t: Table, k: nat)
    requires t.Valid() && k < |t.columns| && t.columns[k] == StatusColumn
    requires forall i :: 0 <= i < |t.rows| ==> t.rows[i][k] in {Text(Promoted), Text(NotPromoted)}
    requires Summarizable(t)
    ensures GenerateSummaryStats(t).value.promotedStudents + GenerateSummaryStats(t).value.notPromotedStudents
            == GenerateSummaryStats(t).value.totalStudents
  {
    GetLocUnique(t, k);
    LabelCountsCover(ColumnValues(t, k));
  }

  /** The average GPA respects any bounds every GPA in the table respects. */
  lemma AverageGpaWithinBounds(t: Table, k: nat, lo: real, hi: real)
    requires t.Valid() && k < |t.columns| && t.columns[k] == GpaColumn
    requires Summarizable(t)
    requires forall i :: 0 <= i < |t.rows| ==> Numeric(t.rows[i][k]).Some? && lo <= Numeric(t.rows[i][k]).value <= hi
    ensures lo <= GenerateSummaryStats(t).value.averageGpa <= hi
  {
    GetLocUnique(t, k);
    var xs := NumericColumn(ColumnValues(t, k)).value;
    MeanBounds(xs, lo, hi);
  }

  /**
   * Three students with GPAs 3.0, 2.5 and 3.8, the first and last of them
   * promoted: total 3, 2 promoted, 1 not, average GPA 3.1, promotion rate
   * 200/3 (66.67 when printed).
   */
  lemma ThreeStudentScenario(t: Table)
    requires t.columns == [GpaColumn, AttendanceColumn, CoursesColumn, StatusColumn]
    requires t.rows == [[Float(3.0, "3.0"), Float(90.0, "90.0"), Integer(12), Text(Promoted)],
                        [Float(2.5, "2.5"), Float(70.0, "70.0"), Integer(9), Text(NotPromoted)],
                        [Float(3.8, "3.8"), Float(95.0, "95.0"), Integer(13), Text(Promoted)]]
    ensures t.Valid()
    ensures GenerateSummaryStats(t) == Success(Stats(3, 2, 1, 3.1, 85.0, 34.0 / 3.0, 200.0 / 3.0))
  {
    assert t.Valid();
    var statuses := [Text(Promoted), Text(NotPromoted), Text(Promoted)];
    assert Select(t, StatusColumn) == Success(statuses) by {
      GetLocUnique(t, 3);
      var col := ColumnValues(t, 3);
      assert col[0] == statuses[0] && col[1] == statuses[1] && col[2] == statuses[2];
      assert col == statuses;
    }
    ScenarioMean(t, GpaColumn, 0, [3.0, 2.5, 3.8], 3.1);
    ScenarioMean(t, AttendanceColumn, 1, [90.0, 70.0, 95.0], 85.0);
    ScenarioMean(t, CoursesColumn, 2, [12.0, 9.0, 13.0], 34.0 / 3.0);
    assert CountLabel(statuses[2..], Promoted) == 1;
    assert CountLabel(statuses, Promoted) == 2;
    assert CountLabel(statuses[2..], NotPromoted) == 0;
    assert CountLabel(statuses, NotPromoted) == 1;
  }

  lemma ScenarioMean(t: Table, name: string, k: nat, xs: seq<real>, m: real)
    requires t.Valid() && k < |t.columns| && t.columns[k] == name && |xs| == 3 == |t.rows|
    requires forall i :: 0 <= i < 3 ==> Numeric(t.rows[i][k]) == Some(xs[i])
    requires (xs[0] + xs[1] + xs[2]) / 3.0 == m
    ensures ColumnMean(t, name) == Success(Some(m))
  {
    GetLocUnique(t, k);
    var col := ColumnValues(t, k);
    assert NumericColumn(col).value == xs;
    assert Sum(xs[2..]) == xs[2];
    assert Sum(xs[1..]) == xs[1] + xs[2];
  }
}
