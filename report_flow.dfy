/** The dashboard's report flow (`streamlit_app.py`, lines 47-70): fetch the
    month to date, stop when nothing was found, clean the table, aggregate
    it and compute the KPIs. Widgets, rendering and the Excel export are not
    modelled; the customer and the report date are parameters. */
module ReportFlow {
  import opened Options
  import opened Calendar
  import opened MongoConnector
  import opened DgrGenerator
  import Seqs

  /** `pd.DataFrame(raw_data)`: one row per fetched record, keyed by its `day`. */
  function ToRows(xs: seq<DayReading>): (r: seq<Row>)
    ensures |r| == |xs|
    ensures forall i :: 0 <= i < |xs| ==> r[i].day == xs[i].day && r[i].dayDt == None && r[i].cells == xs[i].doc.fields
  {
    seq(|xs|, i requires 0 <= i < |xs| => Row(xs[i].day, None, xs[i].doc.fields))
  }

  /** The fetch of lines 52-57: from the first of the report date's month
      to the report date, both written as `dd-Mon-YYYY`. */
  function MonthToDate(docs: seq<Document>, reportDate: Date): Result<seq<DayReading>, DateError>
    requires ValidDate(reportDate)
  {
    FetchCleanedData(docs, DmyDay(MonthStart(reportDate)), DmyDay(reportDate))
  }

  /** Every stored timestamp that survives normalisation names a real date. */
  ghost predicate RealTimestamps(docs: seq<Document>)
  {
    forall d :: d in docs && NormaliseTs(d.timestamp).Some? ==> ValidDate(NormaliseTs(d.timestamp).value.date)
  }

  /** The month-to-date fetch always succeeds, and every record it returns
      lies between the month's first day and the report date. */
  lemma MonthToDateWindow(docs: seq<Document>, reportDate: Date)
    requires ValidDate(reportDate)
    ensures MonthToDate(docs, reportDate).Ok?
    ensures forall x :: x in MonthToDate(docs, reportDate).value ==>
      x.day == IsoDay(x.ts.date) && InDayWindow(x, IsoDay(MonthStart(reportDate)), IsoDay(reportDate))
  {
    DmyRoundTrip(MonthStart(reportDate));
    DmyRoundTrip(reportDate);
  }

  /** The data day (the day before the report date) lies inside the
      fetched window exactly when the report date is not the 1st. */
  lemma DataDayInWindowIff(reportDate: Date)
    requires ValidDate(reportDate) && reportDate != MIN_DATE
    ensures var lo, key, hi := IsoDay(MonthStart(reportDate)), IsoDay(Pred(reportDate)), IsoDay(reportDate);
      Text.StrLe(lo, key) && Text.StrLe(key, hi) <==> reportDate.day != 1
  {
    var ms, prev := MonthStart(reportDate), Pred(reportDate);
    IsoDayOrder(ms, prev);
    IsoDayOrder(prev, reportDate);
    assert DateLt(prev, reportDate) by {
      SuccIsNext(prev);
    }
  }

  /** On the 1st of a month no fetched record carries the data day's key. */
  lemma {:induction false} FirstOfMonthHasNoDataDay(docs: seq<Document>, reportDate: Date)
    requires ValidDate(reportDate) && reportDate != MIN_DATE && reportDate.day == 1
    ensures MonthToDate(docs, reportDate).Ok?
    ensures forall x :: x in MonthToDate(docs, reportDate).value ==> x.day != IsoDay(Pred(reportDate))
  {
    MonthToDateWindow(docs, reportDate);
    DataDayInWindowIff(reportDate);
  }

  /** Line 90: the export file is named after the data day. */
  function ReportFileName(customer: string, reportDate: Date): (name: string)
    requires ValidDate(reportDate) && reportDate != MIN_DATE
    ensures |name| == |customer| + 27
    ensures name[..|customer|] == customer
    ensures name[|customer|..|customer| + 12] == "_DGR_Report_"
    ensures name[|customer| + 22..] == ".xlsx"
    ensures ParseIsoDay(name[|customer| + 12..|customer| + 22]) == Some(Pred(reportDate))
  {
    var day := IsoDay(Pred(reportDate));
    IsoDayShape(Pred(reportDate));
    IsoDayRoundTrip(Pred(reportDate));
    var name := customer + "_DGR_Report_" + day + ".xlsx";
    assert name[|customer| + 12..|customer| + 22] == day;
    name
  }

  /** No row carries the day key `key`. */
  ghost predicate NoRowOn(rows: seq<Row>, key: string)
  {
    forall i :: 0 <= i < |rows| ==> rows[i].day != key
  }

  /** Changing cells and reordering rows cannot bring a missing day key in. */
  lemma {:induction false} NoRowOnKept(rows: seq<Row>, filled: seq<Row>, cleaned: seq<Row>, key: string)
    requires NoRowOn(rows, key)
    requires |filled| == |rows| && forall j :: 0 <= j < |rows| ==> filled[j].day == rows[j].day
    requires multiset(cleaned) == multiset(filled)
    ensures NoRowOn(cleaned, key)
  {
    forall k | 0 <= k < |cleaned|
      ensures cleaned[k].day != key
    {
      assert cleaned[k] in multiset(filled);
      var j :| 0 <= j < |filled| && filled[j] == cleaned[k];
    }
  }

  /** The fetched records' day keys are canonical when the timestamps are real dates. */
  lemma FetchedKeysCanonical(docs: seq<Document>, reportDate: Date)
    requires ValidDate(reportDate) && RealTimestamps(docs)
    ensures MonthToDate(docs, reportDate).Ok?
    ensures CanonicalKeys(ToRows(MonthToDate(docs, reportDate).value))
  {
    MonthToDateWindow(docs, reportDate);
    var xs := MonthToDate(docs, reportDate).value;
    forall i | 0 <= i < |xs|
      ensures Calendar.ParseIsoDay(ToRows(xs)[i].day).Some?
    {
      assert xs[i] in xs;
      IsoDayRoundTrip(xs[i].ts.date);
    }
  }

  /** The fields every fetched record carries besides its readings: the
      stored `timestamp`, Mongo's `_id`, and the `ts` and `day` the
      pipeline adds. */
  const RECORD_COLUMNS: seq<string> := ["_id", "timestamp", "ts", "day"]

  /** `columns` is a column order pandas can give `pd.DataFrame(raw_data)`:
      each column once, and exactly the record fields and every reading
      field some row has. */
  ghost predicate FrameColumns(columns: seq<string>, rows: seq<Row>)
  {
    && (forall c :: multiset(columns)[c] <= 1)
    && forall c :: c in columns <==> c in RECORD_COLUMNS || exists i :: 0 <= i < |rows| && c in rows[i].cells
  }

  /** The selected columns are each reading field some row has whose name
      marks an inverter, meter or irradiation column, each once. */
  lemma SelectedColumnsPresent(columns: seq<string>, rows: seq<Row>)
    requires FrameColumns(columns, rows)
    ensures forall c :: c in SelectColumns(columns) <==> IsInverterColumn(c) && exists i :: 0 <= i < |rows| && c in rows[i].cells
    ensures forall c :: multiset(SelectColumns(columns))[c] <= 1
  {
    assert forall c :: c in RECORD_COLUMNS ==> !IsInverterColumn(c) by {
      forall c | c in RECORD_COLUMNS
        ensures !IsInverterColumn(c)
      {
        assert |c| <= 9 && c[0] != 'T';
        assert |c| < 3 || c[..3][0] == c[0];
      }
    }
  }

  /** The rows after `fillna(0)` on the selected columns. */
  ghost function Filled(rows: seq<Row>, selected: seq<string>): (r: seq<Row>)
    ensures |r| == |rows|
    ensures forall i :: 0 <= i < |rows| ==> r[i] == rows[i].(cells := FillZero(rows[i].cells, selected))
  {
    seq(|rows|, i requires 0 <= i < |rows| => rows[i].(cells := FillZero(rows[i].cells, selected)))
  }

  /** The rows as the monthly sum sees them: zero-filled, with `day_dt`. */
  ghost function Prepared(rows: seq<Row>, selected: seq<string>): seq<Row>
  {
    Seqs.Map(Filled(rows, selected), WithDayDt)
  }

  /** Whichever row of the sorted table is the first on the data day, it
      is a zero-filled input row with that key. */
  lemma DailyFromInputRow(rows: seq<Row>, cleaned: seq<Row>, selected: seq<string>, key: string)
    requires multiset(cleaned) == multiset(Filled(rows, selected))
    requires !NoRowOn(rows, key)
    ensures exists i :: 0 <= i < |rows| && rows[i].day == key && (forall j :: 0 <= j < |selected| ==>
      DailyVector(cleaned, selected, key)[j] == Value(FillZero(rows[i].cells, selected), selected[j]))
  {
    var filled := Filled(rows, selected);
    var k :| 0 <= k < |rows| && rows[k].day == key;
    assert filled[k] in multiset(cleaned);
    assert FirstOnDay(cleaned, key).Some?;
    DailyVectorSpec(cleaned, selected, key);
    var f := FirstOnDay(cleaned, key).value;
    assert cleaned[f] in multiset(filled);
    var i :| 0 <= i < |filled| && filled[i] == cleaned[f];
    assert rows[i].day == key;
  }

  /** The monthly sums over the sorted, dated table are the sums over the
      zero-filled input rows. */
  lemma MonthlyOverInputRows(dated: seq<Row>, cleaned: seq<Row>, rows: seq<Row>, selected: seq<string>, c: string, lo: Date, hi: Date)
    requires multiset(cleaned) == multiset(Filled(rows, selected))
    requires |dated| == |cleaned| && forall i :: 0 <= i < |cleaned| ==> dated[i] == WithDayDt(cleaned[i])
    ensures WindowSum(dated, c, lo, hi) == WindowSum(Prepared(rows, selected), c, lo, hi)
  {
    forall i | 0 <= i < |cleaned|
      ensures dated[i] == Seqs.Map(cleaned, WithDayDt)[i]
    {
      Seqs.MapIndex(cleaned, WithDayDt, i);
    }
    assert dated == Seqs.Map(cleaned, WithDayDt);
    Seqs.MapMultiset(cleaned, Filled(rows, selected), WithDayDt);
    WindowSumPermutation(dated, Prepared(rows, selected), c, lo, hi);
  }

  /** The daily and monthly vectors of the sorted, dated table, stated
      over the input rows. */
  lemma AggregatesOverInputRows(rows: seq<Row>, cleaned: seq<Row>, dated: seq<Row>, selected: seq<string>,
                                daily: seq<real>, monthly: seq<real>, monthStart: Date, reportDate: Date, key: string)
    requires multiset(cleaned) == multiset(Filled(rows, selected))
    requires |dated| == |cleaned| && forall i :: 0 <= i < |cleaned| ==> dated[i] == WithDayDt(cleaned[i])
    requires daily == DailyVector(cleaned, selected, key)
    requires |monthly| == |selected| && forall j :: 0 <= j < |selected| ==> monthly[j] == WindowSum(dated, selected[j], monthStart, reportDate)
    ensures NoRowOn(rows, key) ==> forall j :: 0 <= j < |daily| ==> daily[j] == 0.0
    ensures !NoRowOn(rows, key) ==>
      exists i :: 0 <= i < |rows| && rows[i].day == key && (forall j :: 0 <= j < |daily| ==>
        daily[j] == Value(FillZero(rows[i].cells, selected), selected[j]))
    ensures forall j :: 0 <= j < |monthly| ==> monthly[j] == WindowSum(Prepared(rows, selected), selected[j], monthStart, reportDate)
  {
    forall j | 0 <= j < |monthly|
      ensures monthly[j] == WindowSum(Prepared(rows, selected), selected[j], monthStart, reportDate)
    {
      MonthlyOverInputRows(dated, cleaned, rows, selected, selected[j], monthStart, reportDate);
    }
    if NoRowOn(rows, key) {
      NoRowOnKept(rows, Filled(rows, selected), cleaned, key);
      DailyVectorSpec(cleaned, selected, key);
    } else {
      DailyFromInputRow(rows, cleaned, selected, key);
    }
  }

  /** Lines 64-67: clean the fetched rows and aggregate them. The daily
      vector holds the zero-filled values of an input row on the data day
      (which one, when several are, pandas' sort does not fix), or zeros
      when there is none; each monthly value is the column summed over the
      input rows dated from the month's first day to the report date. */
  method Aggregate(rows: seq<Row>, columns: seq<string>, reportDate: Date)
    returns (table: seq<ReportRow>, daily: seq<real>, monthly: seq<real>)
    requires ValidDate(reportDate) && reportDate != MIN_DATE
    requires CanonicalKeys(rows)
    ensures |daily| == |monthly| == |SelectColumns(columns)|
    ensures table == FinalTable(daily, monthly)
    ensures NoRowOn(rows, IsoDay(Pred(reportDate))) ==> forall j :: 0 <= j < |daily| ==> daily[j] == 0.0
    ensures !NoRowOn(rows, IsoDay(Pred(reportDate))) ==>
      exists i :: 0 <= i < |rows| && rows[i].day == IsoDay(Pred(reportDate)) && (forall j :: 0 <= j < |daily| ==>
        daily[j] == Value(FillZero(rows[i].cells, SelectColumns(columns)), SelectColumns(columns)[j]))
    ensures forall j :: 0 <= j < |monthly| ==>
      monthly[j] == WindowSum(Prepared(rows, SelectColumns(columns)), SelectColumns(columns)[j], MonthStart(reportDate), reportDate)
  {
    var df := new Frame(columns, rows);
    var sorted, selected := df.Clean();
    ghost var filled, cleaned := df.rows[..], sorted.rows[..];
    assert filled == Filled(rows, selected);
    table, daily, monthly := GetDailyMonthlyData(sorted, selected, MonthStart(reportDate), reportDate);
    AggregatesOverInputRows(rows, cleaned, sorted.rows[..], selected, daily, monthly, MonthStart(reportDate), reportDate, IsoDay(Pred(reportDate)));
  }

  /** The daily vector is the zero-filled selected values of some row on
      the data day (all zeros when there is none), and each monthly value
      is its column summed over the rows from the first of the month to
      the report date. */
  ghost predicate VectorsOverRows(rows: seq<Row>, columns: seq<string>, reportDate: Date, daily: seq<real>, monthly: seq<real>)
    requires ValidDate(reportDate) && reportDate != MIN_DATE
  {
    && |daily| == |monthly| == |SelectColumns(columns)|
    && (NoRowOn(rows, IsoDay(Pred(reportDate))) ==> forall j :: 0 <= j < |daily| ==> daily[j] == 0.0)
    && (!NoRowOn(rows, IsoDay(Pred(reportDate))) ==>
          exists i :: 0 <= i < |rows| && rows[i].day == IsoDay(Pred(reportDate)) && (forall j :: 0 <= j < |daily| ==>
            daily[j] == Value(FillZero(rows[i].cells, SelectColumns(columns)), SelectColumns(columns)[j])))
    && forall j :: 0 <= j < |monthly| ==>
         monthly[j] == WindowSum(Prepared(rows, SelectColumns(columns)), SelectColumns(columns)[j], MonthStart(reportDate), reportDate)
  }

  /** Lines 64-70: clean and aggregate the fetched rows and compute the
      KPIs. When no row carries the data day's key, every daily value, the
      daily total and the PLF are zero. */
  method ProcessRows(rows: seq<Row>, columns: seq<string>, customer: string, reportDate: Date)
    returns (table: seq<ReportRow>, daily: seq<real>, monthly: seq<real>, kpis: Kpis)
    requires ValidDate(reportDate) && reportDate != MIN_DATE
    requires CanonicalKeys(rows)
    requires FrameColumns(columns, rows)
    ensures |daily| == |monthly| == |SelectColumns(columns)|
    ensures table == FinalTable(daily, monthly) && kpis == CalculateKpis(customer, daily, monthly)
    ensures |table| == |SelectColumns(columns)|
    ensures forall i :: 0 <= i < |table| ==> table[i].inverter == InverterLabel(i)
    ensures !NoRowOn(rows, IsoDay(Pred(reportDate))) ==>
      exists i :: 0 <= i < |rows| && rows[i].day == IsoDay(Pred(reportDate)) && (forall j :: 0 <= j < |daily| ==>
        daily[j] == Value(FillZero(rows[i].cells, SelectColumns(columns)), SelectColumns(columns)[j]))
    ensures forall j :: 0 <= j < |monthly| ==>
      monthly[j] == WindowSum(Prepared(rows, SelectColumns(columns)), SelectColumns(columns)[j], MonthStart(reportDate), reportDate)
    ensures NoRowOn(rows, IsoDay(Pred(reportDate))) ==>
      && (forall i :: 0 <= i < |table| ==> table[i].daily == 0.0)
      && kpis.totalDaily == 0.0
      && (kpis.plf.Some? ==> kpis.plf.value == 0.0)
  {
    table, daily, monthly := Aggregate(rows, columns, reportDate);
    kpis := CalculateKpis(customer, daily, monthly);
    if NoRowOn(rows, IsoDay(Pred(reportDate))) {
      ZeroDailyGivesZeroPlf(customer, daily, monthly);
    }
  }

  /** Lines 47-70: the report table and KPIs for `customer` on
      `reportDate`, or None when the fetch found nothing. `columns` is the
      column order pandas gives the fetched records. `daily` and `monthly`
      are the vectors behind the table and the KPIs; they are empty when
      there is no report. */
  method BuildReport(docs: seq<Document>, columns: seq<string>, customer: string, reportDate: Date)
    returns (r: Option<(seq<ReportRow>, Kpis)>, daily: seq<real>, monthly: seq<real>)
    requires ValidDate(reportDate) && reportDate != MIN_DATE
    requires RealTimestamps(docs)
    requires MonthToDate(docs, reportDate).Ok? ==> FrameColumns(columns, ToRows(MonthToDate(docs, reportDate).value))
    ensures MonthToDate(docs, reportDate).Ok?
    ensures r.None? <==> MonthToDate(docs, reportDate).value == []
    ensures r.None? ==> daily == [] && monthly == []
    ensures r.Some? ==> |daily| == |monthly| == |SelectColumns(columns)|
    ensures r.Some? ==> r.value.0 == FinalTable(daily, monthly) && r.value.1 == CalculateKpis(customer, daily, monthly)
    ensures r.Some? ==> VectorsOverRows(ToRows(MonthToDate(docs, reportDate).value), columns, reportDate, daily, monthly)
    ensures r.Some? ==> |r.value.0| == |SelectColumns(columns)|
    ensures r.Some? ==> forall i :: 0 <= i < |r.value.0| ==> r.value.0[i].inverter == InverterLabel(i)
    ensures r.Some? && reportDate.day == 1 ==>
      && (forall i :: 0 <= i < |r.value.0| ==> r.value.0[i].daily == 0.0)
      && r.value.1.totalDaily == 0.0
      && (r.value.1.plf.Some? ==> r.value.1.plf.value == 0.0)
  {
    FetchedKeysCanonical(docs, reportDate);
    var fetched := MonthToDate(docs, reportDate).value;
    if fetched == [] {
      return None, [], [];
    }
    if reportDate.day == 1 {
      FirstOfMonthHasNoDataDay(docs, reportDate);
      forall i | 0 <= i < |fetched|
        ensures ToRows(fetched)[i].day != IsoDay(Pred(reportDate))
      {
        assert fetched[i] in fetched;
      }
    }
    var table, kpis;
    table, daily, monthly, kpis := ProcessRows(ToRows(fetched), columns, customer, reportDate);
    r := Some((table, kpis));
  }
}
