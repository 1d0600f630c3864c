# DGR report core, in Dafny

This project models the daily generation report (DGR) pipeline of a solar plant dashboard and proves what it computes.

The first part is the record fetch. It keeps the stored telemetry documents whose timestamp is a native date or a `YYYY-MM-DD HH:MM` string. It gives each one a `YYYY-MM-DD` day key, keeps the keys inside an inclusive window and caps the result at 200000 records. The result is sorted by time. A second pipeline picks the single latest record.

The second part is the report. It selects the inverter, meter and irradiation columns of the fetched table and zero-fills their missing cells. It then rewrites and sorts the day keys and takes the values of the *data day*, the day before the report date. Next it sums every selected column over the month from its first day to the report date, labels one row per column `Inverter-1`, `Inverter-2`, … and computes:
- the daily total;
- the monthly total;
- the plant load factor (PLF).

Modules, one file each:

- `Options` (`options.dfy`): Option and Result.
- `Seqs` (`seqs.dfy`): an order-preserving filter (a list comprehension with a condition, a `$match`), an element-wise map and sums.
- `Sorting` (`sorting.dfy`): a sort by a comparator, proved sorted and a permutation.
- `Text` (`text.dfy`): Python's string order, zero-padded decimals and their inverse, and prefix and substring tests.
- `Calendar` (`calendar.dfy`):
  - proleptic Gregorian dates for years 1 to 9999, with the next day, the previous day, the first of the month and dense day ranges;
  - the ISO 8601 calendar date `YYYY-MM-DD` (section 4.1.2.2 of ISO 8601:2004);
  - `strftime`/`strptime` with `%d-%b-%Y`.
- `MongoConnector` (`mongo_connector.dfy`): the two aggregation pipelines and the bound conversion, as pure functions over the sequence of stored documents.
- `DgrGenerator` (`dgr_generator.dfy`):
  - the inverter table as a class `Frame` over an array of rows, which `clean_dataframe` and `get_daily_monthly_data` change in place (fill, day rewrite, `day_dt`);
  - the column list, the daily and monthly vectors, the labelled table and the KPIs as functions.
- `ReportFlow` (`report_flow.dfy`): how the dashboard wires these together. It fetches the month to date, cleans, aggregates and computes the KPIs. On the 1st of a month this makes the daily column zero.

Some behaviour of the code worth stating plainly:
- PLF uses the fixed factor 3.04 per inverter for every customer.
- The month-to-date window ends at the report date, not at the data day.
- A customer without a configured inverter count defaults to the number of selected columns.

## Model

| member | source | states |
|---|---|---|
| Seqs.Filter | dgr_generator.py:22-28 | The result holds exactly the accepted elements, each as often as in the input, in input order (a subsequence). |
| Seqs.SumZeros | dgr_generator.py:70 | A vector of zeros sums to zero. |
| Sorting.Sort | dgr_generator.py:31 | The result is a permutation of the input and is ordered by the comparator. |
| Text.Padded | mongo_connector.py:61 | The zero-padded rendering is all digits, reads back as the number, and has exactly the width when the number fits. |
| Text.Decimal | dgr_generator.py:54 | `str(n)` is a non-empty digit string that reads back as `n` and has no leading zero unless it is `0`. |
| Text.PaddedValueOf | dgr_generator.py:30 | Re-rendering a digit string's value at its own width gives the string back. |
| Text.StrLeTotal | mongo_connector.py:62 | Any two strings are ordered one way or the other. |
| Text.StrLeTransitive | mongo_connector.py:62 | String order is transitive. |
| Text.StrLeAntisymmetric | mongo_connector.py:62 | Strings ordered both ways are equal. |
| Text.PaddedOrder | mongo_connector.py:62 | Equal-width zero-padded renderings compare as strings exactly as the numbers compare. |
| Calendar.Succ | dgr_generator.py:47 | The next day is a valid date after the given one. |
| Calendar.SuccIsNext | dgr_generator.py:47 | No valid date lies strictly between a date and its next day. |
| Calendar.Pred | dgr_generator.py:37 | One day back is a valid date whose next day is the given date. |
| Calendar.MonthStart | streamlit_app.py:48 | The first of the month is a valid date of the same year and month, not after the date, and not after any date of that month. |
| Calendar.DayRange | dgr_generator.py:47 | The range holds exactly the valid dates from start to end inclusive, strictly increasing. |
| Calendar.IsoDayShape | mongo_connector.py:61 | A day key is 10 characters: padded year, month and day with dashes at positions 4 and 7. |
| Calendar.ParseIsoDay | dgr_generator.py:30 | A parsed key names a valid date whose key is the parsed text. |
| Calendar.IsoDayRoundTrip | dgr_generator.py:30 | Parsing a valid date's key gives the date back. |
| Calendar.IsoDayOrder | mongo_connector.py:62 | Day keys compare as strings exactly as their dates compare in time. |
| Calendar.IsoDayInjective | mongo_connector.py:61 | Distinct dates have distinct day keys. |
| Calendar.MonthAbbrRoundTrip | mongo_connector.py:14 | Each English month abbreviation reads back as its month. |
| Calendar.ParseDmy | mongo_connector.py:14 | A parsed `dd-Mon-YYYY` is a valid date, from a text of 10 or 11 characters, whose day, month and year are the values of the day token, the month abbreviation and the four-digit year. |
| Calendar.DmyRoundTrip | streamlit_app.py:52-53 | Reading back what `%d-%b-%Y` wrote gives the same date. |
| MongoConnector.MinuteStampTime | mongo_connector.py:47-50 | The converted time's day key is the first 10 characters of the matched string. The time falls on a whole minute; for a minute below 60 its hour is `HH` and its minute is `MM`. |
| MongoConnector.ClockOrder | mongo_connector.py:47-50 | The ` HH:MM` parts of two matched stamps compare as strings exactly as their times of day compare. |
| MongoConnector.MinuteStampOrder | mongo_connector.py:47-50 | Two matched stamps' converted times compare exactly as the stamps' first 16 characters compare as strings. |
| MongoConnector.NormaliseTs | mongo_connector.py:27-56 | A timestamp gets a `ts` iff it is a native date or a string matching the regex; native dates pass unchanged; a string's `ts` is its minute-stamp conversion, whose day key is its first 10 characters. |
| MongoConnector.Normalise | mongo_connector.py:21-60 | The survivors are exactly the documents whose timestamp normalises, each as often as stored, in stream order, each with its own `ts`. |
| MongoConnector.WithDay | mongo_connector.py:61 | Each record keeps its document and `ts` and gets the `YYYY-MM-DD` key of its `ts`. |
| MongoConnector.DayWindow | mongo_connector.py:62 | Exactly the records with `start <= day <= end` as strings are kept, each as often as given. |
| MongoConnector.Limit | mongo_connector.py:63 | At most `n` records pass, drawn from the stream (no record more often than it occurs there); a short stream passes whole, and a longer one gives exactly `n`. |
| MongoConnector.ConvertBound | mongo_connector.py:14-15 | A bound converts iff `strptime` accepts it, into the `YYYY-MM-DD` key of the same date; otherwise its error passes through. |
| MongoConnector.ConvertBoundRoundTrip | mongo_connector.py:14-15 | A bound written by `strftime("%d-%b-%Y")` converts to the same date's key. |
| MongoConnector.ByTimeIsTotalPreorder | mongo_connector.py:70 | Ordering records by `ts` is total and transitive. |
| MongoConnector.CandidatesSpec | mongo_connector.py:20-62 | Every candidate is a stored document with its normalised `ts`, keyed by that `ts`'s day, inside the window. |
| MongoConnector.FetchCleanedData | mongo_connector.py:12-73 | The fetch succeeds iff both bounds parse. It then returns at most 200000 records, sorted by `ts`, each a stored document in the window with its normalised `ts` and day key. |
| MongoConnector.SortWhenNotEmpty | mongo_connector.py:69-70 | The sort keeps every record as often as given and orders them by `ts`. |
| MongoConnector.Qualifying | mongo_connector.py:20-62 | Each stored document whose timestamp normalises to a day key between the bounds is kept, as often as stored, and no other. |
| MongoConnector.CandidatesAreQualifying | mongo_connector.py:20-62 | The documents behind the records the pipeline selects before `$limit` are exactly the qualifying stored documents, in stream order. |
| MongoConnector.FetchCleanedDataComplete | mongo_connector.py:12-73 | The fetch returns qualifying stored documents, none more often than it is stored. When no more than 200000 qualify, it returns every one of them, as often as stored; otherwise exactly 200000. |
| MongoConnector.DayWindowIsChronological | mongo_connector.py:62 | The string window on day keys is exactly the date window on `ts`. |
| MongoConnector.Latest | mongo_connector.py:114-115 | The chosen reading is one of the given ones and no other has a later `ts`. |
| MongoConnector.FetchLatestRow | mongo_connector.py:82-122 | At most one record comes back, none iff no timestamp normalises, and its `ts` is the latest among all surviving documents. |
| DgrGenerator.SelectColumns | dgr_generator.py:22-28 | A column is selected iff it starts with `Daily_Generation_INV`, `T1_` or `T2_` or contains `Meter_Generation` or `Irradiation`. Table order and multiplicity are kept, and irradiation columns are included. |
| DgrGenerator.FillZero | dgr_generator.py:29 | No selected cell is missing afterwards. Missing ones become exactly 0, present ones are unchanged, and unselected columns are untouched. |
| DgrGenerator.DayOrderIsTotalPreorder | dgr_generator.py:31 | Ordering rows by day key is total and transitive. |
| DgrGenerator.DayOrderIsChronological | dgr_generator.py:30-31 | On canonical keys the day-key order of rows is the order of their dates. |
| DgrGenerator.PermutationKeepsClean | dgr_generator.py:31 | Reordering rows keeps them zero-filled with canonical keys. |
| DgrGenerator.Frame.constructor | mongo_connector.py:67 | The table holds the given rows, in order, in a fresh array. |
| DgrGenerator.Frame.FillMissing | dgr_generator.py:29 | Every row's cells are zero-filled on the given columns in place; nothing else changes. |
| DgrGenerator.Frame.RewriteDays | dgr_generator.py:30 | Every day key is replaced by the rendering of its parsed date, which leaves canonical keys as they were. |
| DgrGenerator.Frame.AddDayDt | dgr_generator.py:48 | Every row gains `day_dt`, the date its key names; nothing else changes. |
| DgrGenerator.Frame.Clean | dgr_generator.py:20-32 | The caller's rows are zero-filled on the selected columns in place, day keys kept. The returned table is a fresh permutation of them, ordered by day key, with no missing selected cell and canonical keys. |
| DgrGenerator.FirstOnDayFrom | dgr_generator.py:40-42 | The position found is the first row from the start position with the key, and none means no such row. |
| DgrGenerator.DailyVectorSpec | dgr_generator.py:37-45 | The daily vector is the selected cells of the first row keyed by the data day, or all zeros when no row has that key. |
| DgrGenerator.FillJoinedSum | dgr_generator.py:50 | Zero-filling the merged table does not change a selected column's sum. |
| DgrGenerator.DayBlockSum | dgr_generator.py:49 | The merged rows of one calendar day add up to that day's rows; a day without rows adds 0. |
| DgrGenerator.LeftJoinSum | dgr_generator.py:49-51 | The merged column sum is the sum over the calendar, day by day, of that day's rows. |
| DgrGenerator.PerDaySumIsCalendarRowsSum | dgr_generator.py:49-51 | Over a calendar without repeated days, summing day by day counts each row of those days exactly once. |
| DgrGenerator.CalendarRowsSumRange | dgr_generator.py:47 | Summing the rows whose date is in the dense range equals summing the rows dated between its ends. |
| DgrGenerator.WindowSumPermutation | dgr_generator.py:31 | Reordering the rows does not change a window sum. |
| DgrGenerator.MonthlyIsWindowSum | dgr_generator.py:47-51 | Each monthly value is its column summed over every row dated from month start to report date inclusive. Several rows on a day all count; rows outside add nothing. |
| DgrGenerator.InverterLabelsDistinct | dgr_generator.py:54 | Distinct positions get distinct `Inverter-` labels. |
| DgrGenerator.MergeAligned | dgr_generator.py:63 | Merging on unique labels pairs each left row with the right row at the same position. |
| DgrGenerator.FinalTable | dgr_generator.py:53-63 | One row per column, row `i` labelled `Inverter-(i+1)`, pairing the `i`-th daily and monthly values. |
| DgrGenerator.GetDailyMonthlyData | dgr_generator.py:35-64 | Daily values come from the day before the report date. Monthly values are window sums from month start to report date. The table pairs them by label, and the caller's table gains `day_dt`. |
| DgrGenerator.InverterCount | dgr_generator.py:69 | A configured customer's count is its table entry (at least 1); otherwise it is the number of selected columns. |
| DgrGenerator.CalculateKpis | dgr_generator.py:67-73 | The totals are the vector sums. PLF exists iff the inverter count is positive, and PLF times `24 × 3.04 × n` is the daily total. |
| DgrGenerator.ConfiguredCustomersHavePlf | dgr_generator.py:5-18 | Every configured customer gets a PLF, whatever the table holds. |
| DgrGenerator.ZeroDailyGivesZeroPlf | dgr_generator.py:70-72 | A zero daily vector gives a zero daily total and a zero PLF. |
| ReportFlow.ToRows | mongo_connector.py:67 | Each fetched record becomes one row with its day key and fields and no `day_dt`. |
| ReportFlow.MonthToDateWindow | streamlit_app.py:52-57 | The month-to-date fetch always succeeds, and every record lies between the first of the month and the report date. |
| ReportFlow.DataDayInWindowIff | streamlit_app.py:48 | The data day's key lies in the fetched window iff the report date is not the 1st. |
| ReportFlow.FirstOfMonthHasNoDataDay | streamlit_app.py:52-57 | On the 1st of a month no fetched record carries the data day's key. |
| ReportFlow.ReportFileName | streamlit_app.py:89-90 | The export file name is the customer, `_DGR_Report_`, the data day's key and `.xlsx`; the key parses back to the day before the report date. |
| ReportFlow.NoRowOnKept | dgr_generator.py:29-31 | Zero-filling and sorting cannot bring in a day key that no row had. |
| ReportFlow.FetchedKeysCanonical | dgr_generator.py:30 | Fetched day keys are canonical when the stored timestamps are real dates. |
| ReportFlow.SelectedColumnsPresent | dgr_generator.py:22-28 | For a column order pandas can give the fetched records, the selected columns are exactly the inverter, meter and irradiation fields some record has, each once. |
| ReportFlow.DailyFromInputRow | dgr_generator.py:37-45 | When some input row has the data day's key, the daily vector holds the zero-filled values of one such row. |
| ReportFlow.MonthlyOverInputRows | dgr_generator.py:31-51 | Summing the sorted, dated table equals summing the zero-filled, dated input rows. |
| ReportFlow.AggregatesOverInputRows | dgr_generator.py:29-51 | The daily and monthly vectors of the sorted table, stated over the input rows. |
| ReportFlow.Aggregate | streamlit_app.py:64-67 | Cleaning and aggregating yields one daily and one monthly value per selected column, paired by label in the table. The daily vector is the zero-filled values of an input row on the data day, or all zeros when there is none. Each monthly value is its column summed over the zero-filled input rows dated from the first of the month to the report date. |
| ReportFlow.ProcessRows | streamlit_app.py:64-70 | The table pairs the daily and monthly vectors by label and the KPIs are computed from them. The daily vector is the zero-filled values of an input row on the data day, or all zeros when there is none; then the daily total and the PLF are zero. Each monthly value is its column summed over the zero-filled input rows dated from the first of the month to the report date. |
| ReportFlow.BuildReport | streamlit_app.py:47-70 | There is no report iff the fetch is empty. The table and the KPIs are computed from the daily and monthly vectors. The daily vector is the zero-filled values of some fetched record on the data day. Each monthly value is its column summed over the fetched records from the 1st of the month to the report date. On the 1st of a month every daily value, the daily total and the PLF are zero. |

## Left out

- Client I/O: opening and closing the database client, the secrets lookup, `coll.aggregate` and `allowDiskUse`. The stored collection is a parameter (`docs`).
- Dashboard widgets, metric cards, table styling, the Excel writer and the download button. The customer and the report date are parameters.
- The order of the fetched table's columns is a parameter. Its set is required to be what `pd.DataFrame` gives the records: `_id`, `timestamp`, `ts`, `day` and every reading field some record has, each once.
- Timezones: every time is UTC, as the server's date functions default to; the unused `IST`/pytz zone plays no part.
- IEEE floating point: generation values are exact reals and NaN is `None`.
- CalculateKpis: where the source divides by a zero inverter count (an unconfigured customer with no selected columns), the model gives no PLF (`None`) instead of the numpy result.
- MongoConnector.Limit: `$limit` is applied to an unsorted stream and the server does not promise which records pass. The model passes the first ones; its contract states the bound and that the records come from the stream, not which ones.
- MongoConnector.MinuteStampTime: a string that matches the regex but names no real date (month 13, say) or no real time of day (hours 24 to 99, minutes 60 to 99) is converted field by field, into an instant no BSON date has; the server's `$dateFromString` error for it is not modelled.
- MongoConnector.Timestamp: `NativeDate` accepts any `DateTime`, including instants no BSON date holds (a non-existent date, or a time of day of 24 hours or more); such values are not excluded.
- MongoConnector.NormaliseTs: a stamp ending in one newline passes the regex (PCRE `$`) and is converted from its first 16 characters. `$dateFromString` with an explicit format may instead reject the newline and fail the whole aggregation; that error is not modelled.
- Sorting.Sort: the order among rows or records with equal keys is not stated, since neither sort in the source is stable.
- DgrGenerator.Frame.Clean: `pd.to_datetime` is modelled only on keys already of the form `YYYY-MM-DD` naming a real date (its precondition); its general parsing heuristics are not part of this model.
- DgrGenerator.Frame.AddDayDt: a key that is not a canonical date gives no `day_dt`, where pandas would parse it (`2024/01/05`, `20240105`) or raise.
- DgrGenerator.GetDailyMonthlyData: requires the selected cells to be filled, as `clean_dataframe` leaves them; on a table with missing cells pandas would report NaN where the model reports 0.
- ReportFlow.BuildReport: requires every surviving stored timestamp to name a real date, which `pd.to_datetime` on the day keys needs.
- ReportFlow.BuildReport: requires the report date not to be 1 January of year 1. There `report_date - timedelta(days=1)` raises `OverflowError`, which is not modelled.
- ReportFlow.BuildReport: dates outside the years 1677 to 2262, where `pd.to_datetime` and `pd.date_range` raise, are accepted by the model and aggregated like any other.
- Duplicate column names in one table are not modelled: each row maps a column name to one cell.
- `%Y` in `strftime` is modelled as four zero-padded digits, as the database's `$dateToString` writes it. Years below 1000 can differ from the C library's rendering.
- `strptime`'s `%d` and `%Y` are modelled on ASCII digits only.
- The regex's `$` is modelled as PCRE has it: it also matches before one final newline.
