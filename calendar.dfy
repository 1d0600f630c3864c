/** Proleptic Gregorian calendar dates as Python's `datetime.date` has them
    (years 1 to 9999), the day arithmetic the report needs (one day back,
    first of the month, the dense range of days between two dates), and the
    two text forms of a date that cross the pipeline: the complete extended
    calendar date `YYYY-MM-DD` of section 4.1.2.2 of ISO 8601:2004, and
    `dd-Mon-YYYY`. */
module Calendar {
  import opened Options
  import opened Text

  datatype Date = Date(year: nat, month: nat, day: nat)

  /** A point in time: a date and the milliseconds since its midnight, UTC. */
  datatype DateTime = DateTime(date: Date, millis: nat)

  const MIN_DATE := Date(1, 1, 1)
  const MAX_DATE := Date(9999, 12, 31)

  predicate IsLeapYear(y: nat)
  {
    y % 4 == 0 && (y % 100 != 0 || y % 400 == 0)
  }

  function DaysInMonth(y: nat, m: nat): (n: nat)
    requires 1 <= m <= 12
    ensures 28 <= n <= 31
  {
    if m == 2 then (if IsLeapYear(y) then 29 else 28)
    else if m == 4 || m == 6 || m == 9 || m == 11 then 30
    else 31
  }

  predicate ValidDate(d: Date)
  {
    1 <= d.year <= 9999 && 1 <= d.month <= 12 && 1 <= d.day <= DaysInMonth(d.year, d.month)
  }

  /** Chronological order of dates. */
  predicate DateLt(a: Date, b: Date)
  {
    a.year < b.year || (a.year == b.year && (a.month < b.month || (a.month == b.month && a.day < b.day)))
  }

  predicate DateLe(a: Date, b: Date)
  {
    a == b || DateLt(a, b)
  }

  /** Chronological order of points in time. */
  predicate TimeLe(a: DateTime, b: DateTime)
  {
    DateLt(a.date, b.date) || (a.date == b.date && a.millis <= b.millis)
  }

  /** The next calendar day. */
  function Succ(d: Date): (r: Date)
    requires ValidDate(d) && d != MAX_DATE
    ensures ValidDate(r) && DateLt(d, r)
  {
    if d.day < DaysInMonth(d.year, d.month) then Date(d.year, d.month, d.day + 1)
    else if d.month < 12 then Date(d.year, d.month + 1, 1)
    else Date(d.year + 1, 1, 1)
  }

  /** No valid date lies strictly between a date and its successor. */
  lemma SuccIsNext(d: Date)
    requires ValidDate(d) && d != MAX_DATE
    ensures forall e :: ValidDate(e) ==> (DateLt(d, e) <==> DateLe(Succ(d), e))
  {
  }

  /** The previous calendar day: `date - timedelta(days=1)`, which raises
      for `date.min`. */
  function Pred(d: Date): (r: Date)
    requires ValidDate(d) && d != MIN_DATE
    ensures ValidDate(r) && r != MAX_DATE && Succ(r) == d
  {
    if d.day > 1 then Date(d.year, d.month, d.day - 1)
    else if d.month > 1 then Date(d.year, d.month - 1, DaysInMonth(d.year, d.month - 1))
    else Date(d.year - 1, 12, 31)
  }

  /** `date.replace(day=1)`. */
  function MonthStart(d: Date): (r: Date)
    requires ValidDate(d)
    ensures ValidDate(r) && DateLe(r, d)
    ensures r.year == d.year && r.month == d.month
    ensures forall e :: ValidDate(e) && e.year == d.year && e.month == d.month ==> DateLe(r, e)
  {
    Date(d.year, d.month, 1)
  }

  /** `pd.date_range(start, end)`: every day from `start` to `end`, both
      included, in order; empty when `end` comes before `start`. */
  function DayRange(start: Date, end: Date): (r: seq<Date>)
    requires ValidDate(start) && ValidDate(end)
    ensures forall e :: e in r <==> ValidDate(e) && DateLe(start, e) && DateLe(e, end)
    ensures forall i, j :: 0 <= i < j < |r| ==> DateLt(r[i], r[j])
    decreases end.year - start.year, 12 - start.month, 31 - start.day
  {
    if DateLt(end, start) then []
    else if start == end then [start]
    else
      SuccIsNext(start);
      [start] + DayRange(Succ(start), end)
  }

  /** `strftime("%Y-%m-%d")`, and Mongo's `$dateToString` with that format. */
  function IsoDay(d: Date): string
  {
    Padded(d.year, 4) + "-" + Padded(d.month, 2) + "-" + Padded(d.day, 2)
  }

  /** The fields fit the widths of `YYYY-MM-DD`. Every valid date does. */
  predicate Renderable(d: Date)
  {
    d.year < 10000 && d.month < 100 && d.day < 100
  }

  lemma IsoDayShape(d: Date)
    requires Renderable(d)
    ensures var s := IsoDay(d);
      |s| == 10 && s[4] == '-' && s[7] == '-'
      && s[..4] == Padded(d.year, 4) && s[5..7] == Padded(d.month, 2) && s[8..] == Padded(d.day, 2)
  {
    assert Pow10(2) == 100 && Pow10(4) == 10000;
  }

  /** `pd.to_datetime` of a day key in the canonical form `YYYY-MM-DD`;
      None for text of another shape or for a date that does not exist. */
  function ParseIsoDay(s: string): (r: Option<Date>)
    ensures r.Some? ==> ValidDate(r.value) && IsoDay(r.value) == s
  {
    if |s| == 10 && AllDigits(s[..4]) && s[4] == '-' && AllDigits(s[5..7]) && s[7] == '-' && AllDigits(s[8..]) then
      var d := Date(ValueOf(s[..4]), ValueOf(s[5..7]), ValueOf(s[8..]));
      if ValidDate(d) then
        PaddedValueOf(s[..4]);
        PaddedValueOf(s[5..7]);
        PaddedValueOf(s[8..]);
        assert s == s[..4] + "-" + s[5..7] + "-" + s[8..];
        Some(d)
      else None
    else None
  }

  lemma IsoDayRoundTrip(d: Date)
    requires ValidDate(d)
    ensures ParseIsoDay(IsoDay(d)) == Some(d)
  {
    IsoDayShape(d);
  }

  /** Day keys compare as strings exactly as their dates compare in time:
      the key is fixed-width and zero-padded. */
  lemma IsoDayOrder(a: Date, b: Date)
    requires Renderable(a) && Renderable(b)
    ensures StrLe(IsoDay(a), IsoDay(b)) <==> DateLe(a, b)
  {
    assert Pow10(2) == 100 && Pow10(4) == 10000;
    var ya, ma, da := Padded(a.year, 4), Padded(a.month, 2), Padded(a.day, 2);
    var yb, mb, db := Padded(b.year, 4), Padded(b.month, 2), Padded(b.day, 2);
    assert IsoDay(a) == ya + ("-" + (ma + ("-" + da)));
    assert IsoDay(b) == yb + ("-" + (mb + ("-" + db)));
    PaddedOrder(a.year, b.year, 4);
    PaddedOrder(a.month, b.month, 2);
    PaddedOrder(a.day, b.day, 2);
    assert ya == yb <==> a.year == b.year by {
      if ya == yb { assert ValueOf(ya) == ValueOf(yb); }
    }
    assert ma == mb <==> a.month == b.month by {
      if ma == mb { assert ValueOf(ma) == ValueOf(mb); }
    }
    StrLeConcat(ya, "-" + (ma + ("-" + da)), yb, "-" + (mb + ("-" + db)));
    StrLeConcat("-", ma + ("-" + da), "-", mb + ("-" + db));
    StrLeConcat(ma, "-" + da, mb, "-" + db);
    StrLeConcat("-", da, "-", db);
  }

  /** Distinct renderable dates have distinct day keys. */
  lemma IsoDayInjective(a: Date, b: Date)
    requires Renderable(a) && Renderable(b) && IsoDay(a) == IsoDay(b)
    ensures a == b
  {
    IsoDayShape(a);
    IsoDayShape(b);
    assert ValueOf(Padded(a.year, 4)) == ValueOf(Padded(b.year, 4));
    assert ValueOf(Padded(a.month, 2)) == ValueOf(Padded(b.month, 2));
    assert ValueOf(Padded(a.day, 2)) == ValueOf(Padded(b.day, 2));
  }

  const MONTH_ABBREVIATIONS: seq<string> :=
    ["Jan", "Feb", "Mar", "Apr", "May", "Jun", "Jul", "Aug", "Sep", "Oct", "Nov", "Dec"]

  /** `strftime("%d-%b-%Y")` in the C locale. */
  function DmyDay(d: Date): string
    requires 1 <= d.month <= 12
  {
    Padded(d.day, 2) + "-" + MONTH_ABBREVIATIONS[d.month - 1] + "-" + Padded(d.year, 4)
  }

  /** Why `strptime` refuses a text: it does not have the shape of the
      format, or it names a date that does not exist. */
  datatype DateError = NoMatch | OutOfRange

  /** `%b` as `strptime` reads it: a month abbreviation in any letter case. */
  function MonthFromAbbr(t: string): (r: Option<nat>)
    ensures r.Some? ==> 1 <= r.value <= 12
  {
    if |t| != 3 then None
    else
      var k := [LowerAscii(t[0]), LowerAscii(t[1]), LowerAscii(t[2])];
      if k == "jan" then Some(1) else if k == "feb" then Some(2)
      else if k == "mar" then Some(3) else if k == "apr" then Some(4)
      else if k == "may" then Some(5) else if k == "jun" then Some(6)
      else if k == "jul" then Some(7) else if k == "aug" then Some(8)
      else if k == "sep" then Some(9) else if k == "oct" then Some(10)
      else if k == "nov" then Some(11) else if k == "dec" then Some(12)
      else None
  }

  lemma MonthAbbrRoundTrip(m: nat)
    requires 1 <= m <= 12
    ensures MonthFromAbbr(MONTH_ABBREVIATIONS[m - 1]) == Some(m)
  {
  }

  /** `%d` as `strptime` reads it: `01`..`31`, `1`..`9`, or a space and `1`..`9`. */
  predicate IsDayToken(t: string)
  {
    || (|t| == 1 && '1' <= t[0] <= '9')
    || (|t| == 2 && t[0] == ' ' && '1' <= t[1] <= '9')
    || (|t| == 2 && AllDigits(t) && 1 <= ValueOf(t) <= 31)
  }

  function DayTokenValue(t: string): (n: nat)
    requires IsDayToken(t)
    ensures 1 <= n <= 31
  {
    if |t| == 1 then DigitValue(t[0])
    else if t[0] == ' ' then DigitValue(t[1])
    else ValueOf(t)
  }

  /** `datetime.strptime(s, "%d-%b-%Y")`: the day token runs up to the first
      `-`, then three letters of a month, `-`, and exactly four digits of a
      year, with nothing after them. */
  function ParseDmy(s: string): (r: Result<Date, DateError>)
    ensures r.Ok? ==> ValidDate(r.value)
    ensures r.Ok? ==> |s| == 10 || |s| == 11
    ensures r.Ok? ==> var k := |s| - 9;
      && s[k] == '-' && s[k + 4] == '-'
      && IsDayToken(s[..k]) && r.value.day == DayTokenValue(s[..k])
      && MonthFromAbbr(s[k + 1..k + 4]) == Some(r.value.month)
      && AllDigits(s[k + 5..]) && r.value.year == ValueOf(s[k + 5..])
  {
    if |s| != 10 && |s| != 11 then Err(NoMatch)
    else
      var k := |s| - 9;
      var dayToken, monthToken, yearToken := s[..k], s[k + 1..k + 4], s[k + 5..];
      if s[k] != '-' || s[k + 4] != '-' || !IsDayToken(dayToken) || MonthFromAbbr(monthToken).None? || !AllDigits(yearToken) then
        Err(NoMatch)
      else
        var d := Date(ValueOf(yearToken), MonthFromAbbr(monthToken).value, DayTokenValue(dayToken));
        if ValidDate(d) then Ok(d) else Err(OutOfRange)
  }

  /** Reading back what `strftime("%d-%b-%Y")` wrote gives the same date. */
  lemma DmyRoundTrip(d: Date)
    requires ValidDate(d)
    ensures ParseDmy(DmyDay(d)) == Ok(d)
  {
    assert Pow10(2) == 100 && Pow10(4) == 10000;
    var dd, mon, yyyy := Padded(d.day, 2), MONTH_ABBREVIATIONS[d.month - 1], Padded(d.year, 4);
    var s := DmyDay(d);
    assert |dd| == 2 && |mon| == 3 && |yyyy| == 4;
    assert s == dd + "-" + mon + "-" + yyyy;
    assert s[..2] == dd && s[3..6] == mon && s[7..] == yyyy;
    assert IsDayToken(dd) && DayTokenValue(dd) == d.day;
    MonthAbbrRoundTrip(d.month);
  }
}
