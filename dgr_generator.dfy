/** `dgr_generator.py`: choosing the inverter columns of a telemetry table,
    zero-filling and sorting it by day, the data day's values and the
    month-to-date sums per column, the labelled report table, and the KPIs
    (total daily, total monthly, plant load factor). Generation values are
    real numbers; pandas' NaN is `None`. */
module DgrGenerator {
  import opened Options
  import opened Text
  import opened Calendar
  import Seqs
  import Sorting

  /** Inverter count per customer, for the PLF denominator. */
  const CUSTOMER_INVERTERS: map<string, nat> := map[
    "Imagica" := 18, "BEL2" := 1, "Rajgir" := 1, "Caspro" := 11,
    "Dunung" := 13, "Kasturi" := 23, "Mauryaa" := 13, "Paranjape" := 19,
    "Vinathi_3" := 25, "Vinathi_4" := 15, "TMD" := 9, "PGCIL" := 32]

  /** The per-inverter capacity factor in the PLF denominator. */
  const PLF_CAPACITY: real := 3.04

  const HOURS_PER_DAY: real := 24.0

  /** One row of the table: its day key `day`, the `day_dt` column once it
      has been added, and its numeric cells by column name. A column the
      row's map lacks reads as NaN, as in a DataFrame. */
  datatype Row = Row(day: string, dayDt: Option<Date>, cells: map<string, Option<real>>)

  function Cell(cells: map<string, Option<real>>, c: string): Option<real>
  {
    if c in cells then cells[c] else None
  }

  /** A cell as pandas' `sum` counts it: NaN is skipped, so it adds 0. */
  function Value(cells: map<string, Option<real>>, c: string): real
  {
    match Cell(cells, c)
    case Some(v) => v
    case None => 0.0
  }

  // ---------------------------------------------------------------------
  // Column selection and cleaning
  // ---------------------------------------------------------------------

  predicate IsInverterColumn(c: string)
  {
    || StartsWith(c, "Daily_Generation_INV")
    || StartsWith(c, "T1_")
    || StartsWith(c, "T2_")
    || Contains(c, "Meter_Generation")
    || Contains(c, "Irradiation")
  }

  /** The list comprehension that picks `inverter_cols`: the inverter,
      meter and irradiation columns, in the table's column order. */
  function SelectColumns(columns: seq<string>): (r: seq<string>)
    ensures forall c :: c in r <==> c in columns && IsInverterColumn(c)
    ensures forall c :: multiset(r)[c] == if IsInverterColumn(c) then multiset(columns)[c] else 0
    ensures Seqs.IsSubsequence(r, columns)
    ensures forall c :: c in columns && Contains(c, "Irradiation") ==> c in r
  {
    Seqs.Filter(columns, IsInverterColumn)
  }

  /** `fillna(0)` on the columns `cols` of one row. */
  function FillZero(cells: map<string, Option<real>>, cols: seq<string>): (r: map<string, Option<real>>)
    ensures forall c :: c in cols ==> Cell(r, c).Some?
    ensures forall c :: c in cols && Cell(cells, c).None? ==> Cell(r, c) == Some(0.0)
    ensures forall c :: c in cols && Cell(cells, c).Some? ==> Cell(r, c) == Cell(cells, c)
    ensures forall c :: c !in cols ==> Cell(r, c) == Cell(cells, c)
  {
    map c | c in cells.Keys + (set x | x in cols) :: if c in cols then Some(Value(cells, c)) else cells[c]
  }

  /** No cell of the columns `cols` is NaN. */
  ghost predicate Cleaned(rows: seq<Row>, cols: seq<string>)
  {
    forall i, c :: 0 <= i < |rows| && c in cols ==> Cell(rows[i].cells, c).Some?
  }

  /** Rows compared by their day keys, as strings. */
  predicate DayOrder(a: Row, b: Row)
  {
    StrLe(a.day, b.day)
  }

  lemma DayOrderIsTotalPreorder()
    ensures Sorting.TotalPreorder(DayOrder)
  {
    forall a: Row, b: Row
      ensures DayOrder(a, b) || DayOrder(b, a)
    {
      StrLeTotal(a.day, b.day);
    }
    forall a: Row, b: Row, c: Row | DayOrder(a, b) && DayOrder(b, c)
      ensures DayOrder(a, c)
    {
      StrLeTransitive(a.day, b.day, c.day);
    }
  }

  /** On canonical day keys the string order of rows is the order of their dates. */
  lemma DayOrderIsChronological(a: Row, b: Row)
    requires ParseIsoDay(a.day).Some? && ParseIsoDay(b.day).Some?
    ensures DayOrder(a, b) <==> DateLe(ParseIsoDay(a.day).value, ParseIsoDay(b.day).value)
  {
    IsoDayOrder(ParseIsoDay(a.day).value, ParseIsoDay(b.day).value);
  }

  /** Every day key has the form `YYYY-MM-DD` and names a real date. */
  ghost predicate CanonicalKeys(rows: seq<Row>)
  {
    forall i :: 0 <= i < |rows| ==> ParseIsoDay(rows[i].day).Some?
  }

  /** Reordering rows keeps them cleaned and their keys canonical. */
  lemma {:induction false} PermutationKeepsClean(a: seq<Row>, b: seq<Row>, cols: seq<string>)
    requires multiset(a) == multiset(b) && Cleaned(b, cols) && CanonicalKeys(b)
    ensures Cleaned(a, cols) && CanonicalKeys(a)
  {
    forall i | 0 <= i < |a|
      ensures a[i] in b
    {
      assert a[i] in multiset(b);
    }
  }

  /** A DataFrame: its column order and its rows, updated in place. */
  class Frame {
    var columns: seq<string>
    var rows: array<Row>

    constructor (columns: seq<string>, rows: seq<Row>)
      ensures this.columns == columns && this.rows[..] == rows && fresh(this.rows)
    {
      this.columns := columns;
      this.rows := new Row[|rows|](i requires 0 <= i < |rows| => rows[i]);
    }

    ghost predicate CanonicalDays()
      reads this, rows
    {
      CanonicalKeys(rows[..])
    }

    /** `df[cols] = df[cols].fillna(0)`. */
    method FillMissing(cols: seq<string>)
      modifies rows
      ensures forall i :: 0 <= i < rows.Length ==> rows[i] == old(rows[i]).(cells := FillZero(old(rows[i].cells), cols))
    {
      var i := 0;
      while i < rows.Length
        invariant 0 <= i <= rows.Length
        invariant forall k :: 0 <= k < i ==> rows[k] == old(rows[k]).(cells := FillZero(old(rows[k].cells), cols))
        invariant forall k :: i <= k < rows.Length ==> rows[k] == old(rows[k])
      {
        rows[i] := rows[i].(cells := FillZero(rows[i].cells, cols));
        i := i + 1;
      }
    }

    /** `df["day"] = pd.to_datetime(df["day"]).dt.strftime("%Y-%m-%d")`.
        Canonical keys are fixed points of the rewrite. */
    method RewriteDays()
      requires CanonicalDays()
      modifies rows
      ensures forall i :: 0 <= i < rows.Length ==> rows[i] == old(rows[i]).(day := IsoDay(ParseIsoDay(old(rows[i].day)).value))
      ensures rows[..] == old(rows[..])
    {
      var i := 0;
      while i < rows.Length
        invariant 0 <= i <= rows.Length
        invariant forall k :: 0 <= k < rows.Length ==> rows[k] == old(rows[k])
      {
        rows[i] := rows[i].(day := IsoDay(ParseIsoDay(rows[i].day).value));
        i := i + 1;
      }
    }

    /** `df["day_dt"] = pd.to_datetime(df["day"])`; a key that is not a
        canonical date gives no date. */
    method AddDayDt()
      modifies rows
      ensures forall i :: 0 <= i < rows.Length ==> rows[i] == old(rows[i]).(dayDt := ParseIsoDay(old(rows[i].day)))
    {
      var i := 0;
      while i < rows.Length
        invariant 0 <= i <= rows.Length
        invariant forall k :: 0 <= k < i ==> rows[k] == old(rows[k]).(dayDt := ParseIsoDay(old(rows[k].day)))
        invariant forall k :: i <= k < rows.Length ==> rows[k] == old(rows[k])
      {
        rows[i] := rows[i].(dayDt := ParseIsoDay(rows[i].day));
        i := i + 1;
      }
    }

    /** `clean_dataframe`: zero-fill the selected columns of this table in
        place, rewrite its day keys, and return a copy sorted by day key
        together with the selected columns. */
    method Clean() returns (sorted: Frame, selected: seq<string>)
      requires CanonicalDays()
      modifies rows
      ensures selected == SelectColumns(columns)
      ensures forall i :: 0 <= i < rows.Length ==> rows[i] == old(rows[i]).(cells := FillZero(old(rows[i].cells), selected))
      ensures forall i :: 0 <= i < rows.Length ==> rows[i].day == old(rows[i].day)
      ensures fresh(sorted) && fresh(sorted.rows) && sorted.columns == columns
      ensures multiset(sorted.rows[..]) == multiset(rows[..])
      ensures Sorting.Sorted(sorted.rows[..], DayOrder)
      ensures Cleaned(sorted.rows[..], selected)
      ensures sorted.CanonicalDays()
    {
      selected := SelectColumns(columns);
      FillMissing(selected);
      assert Cleaned(rows[..], selected) && CanonicalKeys(rows[..]);
      RewriteDays();
      DayOrderIsTotalPreorder();
      var ordered := Sorting.Sort(rows[..], DayOrder);
      PermutationKeepsClean(ordered, rows[..], selected);
      sorted := new Frame(columns, ordered);
    }
  }

  // ---------------------------------------------------------------------
  // The data day's values
  // ---------------------------------------------------------------------

  /** The position of the first row at or after `from` whose day key is `key`. */
  function FirstOnDayFrom(rows: seq<Row>, key: string, from: nat): (r: Option<nat>)
    requires from <= |rows|
    ensures r.Some? ==> from <= r.value < |rows| && rows[r.value].day == key
    ensures r.Some? ==> forall k :: from <= k < r.value ==> rows[k].day != key
    ensures r.None? ==> forall k :: from <= k < |rows| ==> rows[k].day != key
    decreases |rows| - from
  {
    if from == |rows| then None
    else if rows[from].day == key then Some(from)
    else FirstOnDayFrom(rows, key, from + 1)
  }

  /** `df.loc[df["day"] == key]` followed by `.iloc[0]`. */
  function FirstOnDay(rows: seq<Row>, key: string): Option<nat>
  {
    FirstOnDayFrom(rows, key, 0)
  }

  /** The daily vector: the selected cells of the first row of the data
      day, or one zero per selected column when there is no such row. */
  function DailyVector(rows: seq<Row>, selected: seq<string>, key: string): (r: seq<real>)
    ensures |r| == |selected|
  {
    match FirstOnDay(rows, key)
    case None => seq(|selected|, _ => 0.0)
    case Some(i) => seq(|selected|, j requires 0 <= j < |selected| => Value(rows[i].cells, selected[j]))
  }

  /** What the daily vector is, stated without the search that finds it. */
  lemma DailyVectorSpec(rows: seq<Row>, selected: seq<string>, key: string)
    ensures (forall k :: 0 <= k < |rows| ==> rows[k].day != key) ==>
      forall j :: 0 <= j < |selected| ==> DailyVector(rows, selected, key)[j] == 0.0
    ensures forall i :: 0 <= i < |rows| && rows[i].day == key && (forall k :: 0 <= k < i ==> rows[k].day != key) ==>
      forall j :: 0 <= j < |selected| ==> DailyVector(rows, selected, key)[j] == Value(rows[i].cells, selected[j])
  {
    match FirstOnDay(rows, key)
    case None =>
    case Some(f) =>
      forall i | 0 <= i < |rows| && rows[i].day == key && (forall k :: 0 <= k < i ==> rows[k].day != key)
        ensures i == f
      {
      }
  }

  // ---------------------------------------------------------------------
  // Month-to-date values
  // ---------------------------------------------------------------------

  /** A row of the left merge of the calendar with the table: the calendar
      day and the cells of one table row with that `day_dt` (no cells when
      the table has no row for the day). */
  datatype Joined = Joined(dayDt: Date, cells: map<string, Option<real>>)

  /** The rows whose `day_dt` is `d`, in table order. */
  function RowsOn(rows: seq<Row>, d: Date): seq<Row>
  {
    Seqs.Filter(rows, (r: Row) => r.dayDt == Some(d))
  }

  function JoinRows(d: Date, m: seq<Row>): (r: seq<Joined>)
    ensures |r| == |m|
  {
    seq(|m|, i requires 0 <= i < |m| => Joined(d, m[i].cells))
  }

  /** The merged rows of one calendar day. */
  function DayBlock(rows: seq<Row>, d: Date): seq<Joined>
  {
    var m := RowsOn(rows, d);
    if m == [] then [Joined(d, map[])] else JoinRows(d, m)
  }

  /** `pd.DataFrame({"day_dt": calendar}).merge(df, on="day_dt", how="left")`:
      calendar order, and within a day the table's order. */
  function LeftJoin(calendar: seq<Date>, rows: seq<Row>): seq<Joined>
  {
    if calendar == [] then [] else DayBlock(rows, calendar[0]) + LeftJoin(calendar[1..], rows)
  }

  /** `merged_df[cols] = merged_df[cols].fillna(0)`. */
  function FillJoined(js: seq<Joined>, cols: seq<string>): (r: seq<Joined>)
    ensures |r| == |js|
  {
    seq(|js|, i requires 0 <= i < |js| => js[i].(cells := FillZero(js[i].cells, cols)))
  }

  /** `merged_df[c].sum()`. */
  function ColumnSum(js: seq<Joined>, c: string): real
  {
    if js == [] then 0.0 else Value(js[0].cells, c) + ColumnSum(js[1..], c)
  }

  /** The monthly vector: per selected column, the sum over the zero-filled
      merge of the calendar with the table. */
  function MonthlyVector(rows: seq<Row>, selected: seq<string>, calendar: seq<Date>): (r: seq<real>)
    ensures |r| == |selected|
  {
    var merged := FillJoined(LeftJoin(calendar, rows), selected);
    seq(|selected|, j requires 0 <= j < |selected| => ColumnSum(merged, selected[j]))
  }

  /** The reference definition: column `c` summed over every row whose
      `day_dt` lies between `lo` and `hi`, both included. */
  function WindowSum(rows: seq<Row>, c: string, lo: Date, hi: Date): real
  {
    if rows == [] then 0.0
    else
      (if rows[0].dayDt.Some? && DateLe(lo, rows[0].dayDt.value) && DateLe(rows[0].dayDt.value, hi)
       then Value(rows[0].cells, c) else 0.0)
      + WindowSum(rows[1..], c, lo, hi)
  }
  /** A row with `day_dt` read from its day key, as `pd.to_datetime` does. */
  function WithDayDt(r: Row): Row
  {
    r.(dayDt := ParseIsoDay(r.day))
  }

  lemma {:induction false} WindowSumAppend(a: seq<Row>, b: seq<Row>, c: string, lo: Date, hi: Date)
    ensures WindowSum(a + b, c, lo, hi) == WindowSum(a, c, lo, hi) + WindowSum(b, c, lo, hi)
    decreases |a|
  {
    if a == [] {
      assert a + b == b;
    } else {
      assert (a + b)[0] == a[0] && (a + b)[1..] == a[1..] + b;
      WindowSumAppend(a[1..], b, c, lo, hi);
    }
  }

  lemma WindowSumAround(ys: seq<Row>, i: nat, c: string, lo: Date, hi: Date)
    requires i < |ys|
    ensures WindowSum(ys, c, lo, hi) == WindowSum([ys[i]], c, lo, hi) + WindowSum(ys[..i] + ys[i + 1..], c, lo, hi)
  {
    var tail := ys[i..];
    assert tail == [ys[i]] + ys[i + 1..];
    assert ys == ys[..i] + tail;
    WindowSumAppend(ys[..i], tail, c, lo, hi);
    WindowSumAppend([ys[i]], ys[i + 1..], c, lo, hi);
    WindowSumAppend(ys[..i], ys[i + 1..], c, lo, hi);
  }

  /** The window sum does not depend on the order of the rows. */
  lemma {:induction false} WindowSumPermutation(xs: seq<Row>, ys: seq<Row>, c: string, lo: Date, hi: Date)
    requires multiset(xs) == multiset(ys)
    ensures WindowSum(xs, c, lo, hi) == WindowSum(ys, c, lo, hi)
    decreases |xs|
  {
    if xs == [] {
      assert |ys| == |multiset(ys)| == 0;
    } else {
      var x := xs[0];
      assert x in ys by { assert multiset(ys)[x] > 0; }
      var i :| 0 <= i < |ys| && ys[i] == x;
      Seqs.RemoveAt(ys, i);
      assert xs == [x] + xs[1..];
      assert multiset(xs[1..]) == multiset(xs) - multiset{x};
      WindowSumPermutation(xs[1..], ys[..i] + ys[i + 1..], c, lo, hi);
      WindowSumAround(ys, i, c, lo, hi);
      WindowSumAppend([x], xs[1..], c, lo, hi);
    }
  }


  /** Column `c` summed over the rows whose `day_dt` is `d`. */
  function DaySum(rows: seq<Row>, c: string, d: Date): real
  {
    if rows == [] then 0.0
    else (if rows[0].dayDt == Some(d) then Value(rows[0].cells, c) else 0.0) + DaySum(rows[1..], c, d)
  }

  /** Column `c` summed over the rows whose `day_dt` is one of `calendar`. */
  function CalendarRowsSum(rows: seq<Row>, c: string, calendar: seq<Date>): real
  {
    if rows == [] then 0.0
    else
      (if rows[0].dayDt.Some? && rows[0].dayDt.value in calendar then Value(rows[0].cells, c) else 0.0)
      + CalendarRowsSum(rows[1..], c, calendar)
  }

  /** Column `c` summed day by day over `calendar`. */
  function PerDaySum(calendar: seq<Date>, rows: seq<Row>, c: string): real
  {
    if calendar == [] then 0.0 else DaySum(rows, c, calendar[0]) + PerDaySum(calendar[1..], rows, c)
  }

  lemma {:induction false} ColumnSumAppend(a: seq<Joined>, b: seq<Joined>, c: string)
    ensures ColumnSum(a + b, c) == ColumnSum(a, c) + ColumnSum(b, c)
  {
    if a != [] {
      assert (a + b)[1..] == a[1..] + b;
      ColumnSumAppend(a[1..], b, c);
    } else {
      assert a + b == b;
    }
  }

  /** Zero-filling the merged table does not change the sum of a filled column. */
  lemma {:induction false} FillJoinedSum(js: seq<Joined>, cols: seq<string>, c: string)
    requires c in cols
    ensures ColumnSum(FillJoined(js, cols), c) == ColumnSum(js, c)
  {
    if js != [] {
      assert FillJoined(js, cols)[1..] == FillJoined(js[1..], cols);
      FillJoinedSum(js[1..], cols, c);
    }
  }

  lemma RowsOnCons(rows: seq<Row>, d: Date)
    requires rows != []
    ensures RowsOn(rows, d) == if rows[0].dayDt == Some(d) then [rows[0]] + RowsOn(rows[1..], d) else RowsOn(rows[1..], d)
  {
  }

  lemma JoinRowsCons(d: Date, x: Row, m: seq<Row>)
    ensures JoinRows(d, [x] + m) == [Joined(d, x.cells)] + JoinRows(d, m)
  {
  }

  lemma {:induction false} JoinRowsSum(rows: seq<Row>, d: Date, c: string)
    ensures ColumnSum(JoinRows(d, RowsOn(rows, d)), c) == DaySum(rows, c, d)
  {
    if rows != [] {
      JoinRowsSum(rows[1..], d, c);
      RowsOnCons(rows, d);
      var rest := RowsOn(rows[1..], d);
      if rows[0].dayDt == Some(d) {
        JoinRowsCons(d, rows[0], rest);
        ColumnSumAppend([Joined(d, rows[0].cells)], JoinRows(d, rest), c);
      }
    }
  }

  /** The merged rows of one day add up to that day's rows: an unmatched
      day contributes one row of NaN, which sums to 0. */
  lemma DayBlockSum(rows: seq<Row>, d: Date, c: string)
    ensures ColumnSum(DayBlock(rows, d), c) == DaySum(rows, c, d)
  {
    JoinRowsSum(rows, d, c);
    if RowsOn(rows, d) == [] {
      assert ColumnSum([Joined(d, map[])], c) == 0.0;
    }
  }

  lemma {:induction false} LeftJoinSum(calendar: seq<Date>, rows: seq<Row>, c: string)
    ensures ColumnSum(LeftJoin(calendar, rows), c) == PerDaySum(calendar, rows, c)
  {
    if calendar != [] {
      LeftJoinSum(calendar[1..], rows, c);
      DayBlockSum(rows, calendar[0], c);
      ColumnSumAppend(DayBlock(rows, calendar[0]), LeftJoin(calendar[1..], rows), c);
    }
  }

  lemma {:induction false} CalendarRowsSumCons(rows: seq<Row>, c: string, d: Date, rest: seq<Date>)
    requires d !in rest
    ensures CalendarRowsSum(rows, c, [d] + rest) == DaySum(rows, c, d) + CalendarRowsSum(rows, c, rest)
  {
    if rows != [] {
      CalendarRowsSumCons(rows[1..], c, d, rest);
    }
  }

  /** Summing day by day over a calendar without repeated days counts
      every row of those days exactly once. */
  lemma {:induction false} PerDaySumIsCalendarRowsSum(calendar: seq<Date>, rows: seq<Row>, c: string)
    requires forall i, j :: 0 <= i < j < |calendar| ==> calendar[i] != calendar[j]
    ensures PerDaySum(calendar, rows, c) == CalendarRowsSum(rows, c, calendar)
  {
    if calendar == [] {
      CalendarRowsSumEmpty(rows, c);
    } else {
      PerDaySumIsCalendarRowsSum(calendar[1..], rows, c);
      assert calendar == [calendar[0]] + calendar[1..];
      assert calendar[0] !in calendar[1..];
      CalendarRowsSumCons(rows, c, calendar[0], calendar[1..]);
    }
  }

  lemma {:induction false} CalendarRowsSumEmpty(rows: seq<Row>, c: string)
    ensures CalendarRowsSum(rows, c, []) == 0.0
  {
    if rows != [] {
      CalendarRowsSumEmpty(rows[1..], c);
    }
  }

  lemma {:induction false} CalendarRowsSumRange(rows: seq<Row>, c: string, lo: Date, hi: Date)
    requires ValidDate(lo) && ValidDate(hi)
    requires forall i :: 0 <= i < |rows| && rows[i].dayDt.Some? ==> ValidDate(rows[i].dayDt.value)
    ensures CalendarRowsSum(rows, c, DayRange(lo, hi)) == WindowSum(rows, c, lo, hi)
  {
    if rows != [] {
      CalendarRowsSumRange(rows[1..], c, lo, hi);
    }
  }

  /** The month-to-date value of each selected column is its sum over every
      row dated from `lo` to `hi`, both included: days without rows add 0,
      several rows on one day all count, rows outside add nothing. */
  lemma {:induction false} MonthlyIsWindowSum(rows: seq<Row>, selected: seq<string>, lo: Date, hi: Date)
    requires ValidDate(lo) && ValidDate(hi)
    requires forall i :: 0 <= i < |rows| && rows[i].dayDt.Some? ==> ValidDate(rows[i].dayDt.value)
    ensures forall j :: 0 <= j < |selected| ==> MonthlyVector(rows, selected, DayRange(lo, hi))[j] == WindowSum(rows, selected[j], lo, hi)
  {
    var calendar := DayRange(lo, hi);
    forall j | 0 <= j < |selected|
      ensures MonthlyVector(rows, selected, calendar)[j] == WindowSum(rows, selected[j], lo, hi)
    {
      var c := selected[j];
      FillJoinedSum(LeftJoin(calendar, rows), selected, c);
      LeftJoinSum(calendar, rows, c);
      PerDaySumIsCalendarRowsSum(calendar, rows, c);
      CalendarRowsSumRange(rows, c, lo, hi);
    }
  }

  // ---------------------------------------------------------------------
  // The labelled report table
  // ---------------------------------------------------------------------

  /** `f"Inverter-{i+1}"`. */
  function InverterLabel(i: nat): string
  {
    "Inverter-" + Decimal(i + 1)
  }

  lemma InverterLabelsDistinct(i: nat, j: nat)
    requires i != j
    ensures InverterLabel(i) != InverterLabel(j)
  {
    assert InverterLabel(i)[9..] == Decimal(i + 1);
    assert InverterLabel(j)[9..] == Decimal(j + 1);
  }

  /** A two-column frame: an `Inverter` label per value, numbered in order. */
  function Labelled(values: seq<real>): (r: seq<(string, real)>)
    ensures |r| == |values|
  {
    seq(|values|, i requires 0 <= i < |values| => (InverterLabel(i), values[i]))
  }

  lemma LabelledDistinct(values: seq<real>)
    ensures DistinctLabels(Labelled(values))
  {
    var r := Labelled(values);
    forall i, j | 0 <= i < j < |r|
      ensures r[i].0 != r[j].0
    {
      InverterLabelsDistinct(i, j);
    }
  }

  /** One row of `final_df`. */
  datatype ReportRow = ReportRow(inverter: string, daily: real, monthly: real)

  /** The rows of `right` with the label of `l`, joined to `l`. */
  function MatchLabel(l: (string, real), right: seq<(string, real)>): seq<ReportRow>
  {
    if right == [] then []
    else (if right[0].0 == l.0 then [ReportRow(l.0, l.1, right[0].1)] else []) + MatchLabel(l, right[1..])
  }

  /** `left.merge(right, on="Inverter")`: an inner join, in left order. */
  function MergeOnLabel(left: seq<(string, real)>, right: seq<(string, real)>): seq<ReportRow>
  {
    if left == [] then [] else MatchLabel(left[0], right) + MergeOnLabel(left[1..], right)
  }

  ghost predicate DistinctLabels(right: seq<(string, real)>)
  {
    forall i, j :: 0 <= i < j < |right| ==> right[i].0 != right[j].0
  }

  lemma {:induction false} MatchLabelUnique(l: (string, real), right: seq<(string, real)>, k: nat)
    requires DistinctLabels(right) && k < |right| && right[k].0 == l.0
    ensures MatchLabel(l, right) == [ReportRow(l.0, l.1, right[k].1)]
  {
    if k == 0 {
      MatchLabelAbsent(l, right[1..]);
    } else {
      assert right[0].0 != l.0 by {
        assert right[0].0 != right[k].0;
      }
      MatchLabelUnique(l, right[1..], k - 1);
    }
  }

  lemma {:induction false} MatchLabelAbsent(l: (string, real), right: seq<(string, real)>)
    requires forall i :: 0 <= i < |right| ==> right[i].0 != l.0
    ensures MatchLabel(l, right) == []
  {
    if right != [] {
      MatchLabelAbsent(l, right[1..]);
    }
  }

  /** Merging on unique labels pairs each left row with the right row of
      the same position, when the left labels are the right's last ones. */
  lemma MergeAligned(left: seq<(string, real)>, right: seq<(string, real)>)
    requires DistinctLabels(right) && |left| <= |right|
    requires forall i :: 0 <= i < |left| ==> left[i].0 == right[|right| - |left| + i].0
    ensures |MergeOnLabel(left, right)| == |left|
    ensures forall i :: 0 <= i < |left| ==>
      MergeOnLabel(left, right)[i] == ReportRow(left[i].0, left[i].1, right[|right| - |left| + i].1)
  {
    MergeIsPaired(left, right);
    PairedIndex(left, right[|right| - |left|..]);
  }

  /** Left rows paired position by position with the values of `right`. */
  function Paired(left: seq<(string, real)>, right: seq<(string, real)>): seq<ReportRow>
    requires |left| == |right|
  {
    if left == [] then [] else [ReportRow(left[0].0, left[0].1, right[0].1)] + Paired(left[1..], right[1..])
  }

  lemma {:induction false} PairedIndex(left: seq<(string, real)>, right: seq<(string, real)>)
    requires |left| == |right|
    ensures |Paired(left, right)| == |left|
    ensures forall i :: 0 <= i < |left| ==> Paired(left, right)[i] == ReportRow(left[i].0, left[i].1, right[i].1)
  {
    if left != [] {
      PairedIndex(left[1..], right[1..]);
    }
  }

  lemma {:induction false} MergeIsPaired(left: seq<(string, real)>, right: seq<(string, real)>)
    requires DistinctLabels(right) && |left| <= |right|
    requires forall i :: 0 <= i < |left| ==> left[i].0 == right[|right| - |left| + i].0
    ensures MergeOnLabel(left, right) == Paired(left, right[|right| - |left|..])
  {
    if left != [] {
      var k := |right| - |left|;
      MergeStep(left, right);
      MergeIsPaired(left[1..], right);
      assert right[k..][1..] == right[k + 1..];
    }
  }

  /** The first step of `MergeAligned`: the first left row meets exactly
      its right row, and the rest stays aligned. */
  lemma MergeStep(left: seq<(string, real)>, right: seq<(string, real)>)
    requires DistinctLabels(right) && 0 < |left| <= |right|
    requires forall i :: 0 <= i < |left| ==> left[i].0 == right[|right| - |left| + i].0
    ensures MergeOnLabel(left, right) == [ReportRow(left[0].0, left[0].1, right[|right| - |left|].1)] + MergeOnLabel(left[1..], right)
    ensures forall i :: 0 <= i < |left| - 1 ==> left[1..][i].0 == right[|right| - (|left| - 1) + i].0
  {
    MatchLabelUnique(left[0], right, |right| - |left|);
  }

  /** `final_df`: one row per selected column, labelled `Inverter-1`,
      `Inverter-2`, ... in selection order, pairing the column's daily and
      monthly values. */
  function FinalTable(daily: seq<real>, monthly: seq<real>): (r: seq<ReportRow>)
    requires |daily| == |monthly|
    ensures |r| == |daily|
    ensures forall i :: 0 <= i < |r| ==> r[i] == ReportRow(InverterLabel(i), daily[i], monthly[i])
  {
    var left, right := Labelled(daily), Labelled(monthly);
    LabelledDistinct(monthly);
    MergeAligned(left, right);
    MergeOnLabel(left, right)
  }

  /** `get_daily_monthly_data`. The data day is the day before the report
      date; the calendar runs from `monthStart` to the report date itself.
      The caller's table gains its `day_dt` column. */
  method GetDailyMonthlyData(df: Frame, selected: seq<string>, monthStart: Date, reportDate: Date)
    returns (report: seq<ReportRow>, daily: seq<real>, monthly: seq<real>)
    requires ValidDate(monthStart) && ValidDate(reportDate) && reportDate != MIN_DATE
    requires Cleaned(df.rows[..], selected)
    modifies df.rows
    ensures forall i :: 0 <= i < df.rows.Length ==> df.rows[i] == old(df.rows[i]).(dayDt := ParseIsoDay(old(df.rows[i].day)))
    ensures daily == DailyVector(old(df.rows[..]), selected, IsoDay(Pred(reportDate)))
    ensures monthly == MonthlyVector(df.rows[..], selected, DayRange(monthStart, reportDate))
    ensures forall j :: 0 <= j < |selected| ==> monthly[j] == WindowSum(df.rows[..], selected[j], monthStart, reportDate)
    ensures report == FinalTable(daily, monthly)
  {
    var prevDay := IsoDay(Pred(reportDate));
    daily := DailyVector(df.rows[..], selected, prevDay);
    var monthDates := DayRange(monthStart, reportDate);
    df.AddDayDt();
    monthly := MonthlyVector(df.rows[..], selected, monthDates);
    MonthlyIsWindowSum(df.rows[..], selected, monthStart, reportDate);
    report := FinalTable(daily, monthly);
  }

  // ---------------------------------------------------------------------
  // KPIs
  // ---------------------------------------------------------------------

  /** The KPIs. `plf` is None where the source divides by zero (a customer
      without a configured count and no selected columns), which gives a
      non-finite float there. */
  datatype Kpis = Kpis(totalDaily: real, totalMonthly: real, plf: Option<real>)

  /** `CUSTOMER_INVERTERS.get(customer, len(daily_generation))`. */
  function InverterCount(customer: string, daily: seq<real>): (n: nat)
    ensures customer in CUSTOMER_INVERTERS ==> n == CUSTOMER_INVERTERS[customer] && n >= 1
    ensures customer !in CUSTOMER_INVERTERS ==> n == |daily|
  {
    if customer in CUSTOMER_INVERTERS then CUSTOMER_INVERTERS[customer] else |daily|
  }

  /** `calculate_kpis`: PLF is the daily total over the daily energy of
      `n` inverters at the fixed capacity factor. */
  function CalculateKpis(customer: string, daily: seq<real>, monthly: seq<real>): (k: Kpis)
    ensures k.totalDaily == Seqs.Sum(daily) && k.totalMonthly == Seqs.Sum(monthly)
    ensures k.plf.Some? <==> InverterCount(customer, daily) > 0
    ensures k.plf.Some? ==> k.plf.value * (HOURS_PER_DAY * PLF_CAPACITY * InverterCount(customer, daily) as real) == k.totalDaily
  {
    var n := InverterCount(customer, daily);
    var totalDaily := Seqs.Sum(daily);
    var denominator := HOURS_PER_DAY * PLF_CAPACITY * n as real;
    Kpis(totalDaily, Seqs.Sum(monthly), if denominator == 0.0 then None else Some(totalDaily / denominator))
  }

  /** Every configured customer gets a PLF, whatever the table holds. */
  lemma ConfiguredCustomersHavePlf(customer: string, daily: seq<real>, monthly: seq<real>)
    requires customer in CUSTOMER_INVERTERS
    ensures CalculateKpis(customer, daily, monthly).plf.Some?
  {
  }

  /** An all-zero daily vector gives a zero daily total and a zero PLF. */
  lemma ZeroDailyGivesZeroPlf(customer: string, daily: seq<real>, monthly: seq<real>)
    requires forall i :: 0 <= i < |daily| ==> daily[i] == 0.0
    ensures var k := CalculateKpis(customer, daily, monthly);
      k.totalDaily == 0.0 && (k.plf.Some? ==> k.plf.value == 0.0)
  {
    Seqs.SumZeros(daily);
  }
}
