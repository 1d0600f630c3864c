/** The meaning of the two aggregation pipelines of `mongo_connector.py`,
    as functions over the stream of stored documents: which documents
    survive timestamp normalisation, the day key each gets, the inclusive
    day window, the result cap, and the ordering of the result. Opening and
    closing the database client is not modelled. */
module MongoConnector {
  import opened Options
  import opened Text
  import opened Calendar
  import Seqs
  import Sorting

  /** The BSON value a document holds under `timestamp`. */
  datatype Timestamp = Missing | Null | NativeDate(at: DateTime) | Str(text: string) | OtherType

  /** A stored document: its timestamp and its measurement fields. */
  datatype Document = Document(timestamp: Timestamp, fields: map<string, Option<real>>)

  /** A document after the `ts` stage. */
  datatype Reading = Reading(doc: Document, ts: DateTime)

  /** A document after the `day` stage of the windowed pipeline. */
  datatype DayReading = DayReading(doc: Document, ts: DateTime, day: string)

  /** The `$limit` of the windowed pipeline. */
  const MAX_RECORDS: nat := 200000

  /** `[0-9]{4}-[0-9]{2}-[0-9]{2} [0-9]{2}:[0-9]{2}`, the whole text. */
  predicate IsMinuteStamp(s: string)
  {
    && |s| == 16
    && AllDigits(s[..4]) && s[4] == '-' && AllDigits(s[5..7]) && s[7] == '-' && AllDigits(s[8..10])
    && s[10] == ' ' && AllDigits(s[11..13]) && s[13] == ':' && AllDigits(s[14..])
  }

  /** `$regexMatch` with `^[0-9]{4}-[0-9]{2}-[0-9]{2} [0-9]{2}:[0-9]{2}$`.
      In PCRE, which Mongo uses, `$` also matches just before a newline
      that ends the text. */
  predicate MatchesTimestampRegex(s: string)
  {
    IsMinuteStamp(s) || (|s| == 17 && s[16] == '\n' && IsMinuteStamp(s[..16]))
  }

  /** The first sixteen characters of a matched stamp are the stamp itself. */
  lemma StampPrefix(s: string)
    requires MatchesTimestampRegex(s)
    ensures IsMinuteStamp(s[..16])
  {
    assert |s| == 16 ==> s[..16] == s;
  }

  /** The `HH` field of a matched stamp. */
  function StampHour(s: string): nat
    requires MatchesTimestampRegex(s)
  {
    StampPrefix(s);
    ValueOf(s[..16][11..13])
  }

  /** The `MM` field of a matched stamp. */
  function StampMinute(s: string): nat
    requires MatchesTimestampRegex(s)
  {
    StampPrefix(s);
    ValueOf(s[..16][14..])
  }

  /** The date a matched stamp names, its digits read as they stand. */
  function StampDate(s: string): (d: Date)
    requires MatchesTimestampRegex(s)
    ensures Renderable(d) && IsoDay(d) == s[..10]
  {
    var m := s[..16];
    assert |s| == 16 ==> m == s;
    assert Pow10(2) == 100 && Pow10(4) == 10000;
    PaddedValueOf(m[..4]);
    PaddedValueOf(m[5..7]);
    PaddedValueOf(m[8..10]);
    assert s[..10] == m[..10] == m[..4] + "-" + m[5..7] + "-" + m[8..10];
    Date(ValueOf(m[..4]), ValueOf(m[5..7]), ValueOf(m[8..10]))
  }

  /** Milliseconds of `h` hours and `m` minutes fall on a whole minute and,
      for `m` below 60, give `h` and `m` back. */
  lemma MinutesOfDay(h: nat, m: nat)
    ensures (h * 60 + m) * 60000 % 60000 == 0
    ensures m < 60 ==> (h * 60 + m) * 60000 / 3600000 == h && (h * 60 + m) * 60000 / 60000 % 60 == m
  {
  }

  /** `$dateFromString` with format `%Y-%m-%d %H:%M`, UTC: the digits read
      as they stand. The time falls on a whole minute, and for a real minute
      (below 60) its hour and minute are the stamp's. */
  function MinuteStampTime(s: string): (t: DateTime)
    requires MatchesTimestampRegex(s)
    ensures Renderable(t.date) && IsoDay(t.date) == s[..10]
    ensures t.millis % 60000 == 0
    ensures StampMinute(s) < 60 ==> t.millis / 3600000 == StampHour(s) && t.millis / 60000 % 60 == StampMinute(s)
  {
    MinutesOfDay(StampHour(s), StampMinute(s));
    DateTime(StampDate(s), (StampHour(s) * 60 + StampMinute(s)) * 60000)
  }

  /** Two-digit fields compare as strings exactly as their values compare. */
  lemma TwoDigitOrder(x: string, y: string)
    requires |x| == 2 && |y| == 2 && AllDigits(x) && AllDigits(y)
    ensures x == y <==> ValueOf(x) == ValueOf(y)
    ensures StrLe(x, y) <==> ValueOf(x) <= ValueOf(y)
  {
    assert Pow10(2) == 100;
    PaddedValueOf(x);
    PaddedValueOf(y);
    PaddedOrder(ValueOf(x), ValueOf(y), 2);
  }

  /** Minutes of the day compare lexicographically by hour, then minute. */
  lemma MinutesOrder(ha: nat, ma: nat, hb: nat, mb: nat)
    requires ma < 60 && mb < 60
    ensures (ha * 60 + ma) * 60000 <= (hb * 60 + mb) * 60000 <==> ha < hb || (ha == hb && ma <= mb)
  {
  }

  /** The clock parts of two matched stamps with real minutes compare as
      strings exactly as their times of day compare. */
  lemma ClockOrder(a: string, b: string)
    requires MatchesTimestampRegex(a) && MatchesTimestampRegex(b)
    requires StampMinute(a) < 60 && StampMinute(b) < 60
    ensures StrLe(a[..16][10..], b[..16][10..]) <==> MinuteStampTime(a).millis <= MinuteStampTime(b).millis
  {
    var pa, pb := a[..16], b[..16];
    StampPrefix(a);
    StampPrefix(b);
    var ha, hb, ma, mb := pa[11..13], pb[11..13], pa[14..], pb[14..];
    TwoDigitOrder(ha, hb);
    TwoDigitOrder(ma, mb);
    MinutesOrder(ValueOf(ha), ValueOf(ma), ValueOf(hb), ValueOf(mb));
    assert pa[10..] == " " + (ha + (":" + ma)) && pb[10..] == " " + (hb + (":" + mb));
    StrLeConcat(" ", ha + (":" + ma), " ", hb + (":" + mb));
    StrLeConcat(ha, ":" + ma, hb, ":" + mb);
    StrLeConcat(":", ma, ":", mb);
  }

  /** Day keys of renderable dates: equal exactly for equal dates, and
      strictly ordered as strings exactly for strictly earlier dates. */
  lemma DayKeyOrder(da: Date, db: Date)
    requires Renderable(da) && Renderable(db)
    ensures IsoDay(da) == IsoDay(db) <==> da == db
    ensures IsoDay(da) != IsoDay(db) && StrLe(IsoDay(da), IsoDay(db)) <==> DateLt(da, db)
  {
    IsoDayOrder(da, db);
    if IsoDay(da) == IsoDay(db) {
      IsoDayInjective(da, db);
    }
  }

  /** Two matched stamps with real minutes: their times compare exactly as
      the stamps compare as strings, so `$sort` on `ts` is the string order
      of the stored stamps. */
  lemma {:induction false} MinuteStampOrder(a: string, b: string)
    requires MatchesTimestampRegex(a) && MatchesTimestampRegex(b)
    requires StampMinute(a) < 60 && StampMinute(b) < 60
    ensures TimeLe(MinuteStampTime(a), MinuteStampTime(b)) <==> StrLe(a[..16], b[..16])
  {
    ClockOrder(a, b);
    assert a[..16][..10] == a[..10] && b[..16][..10] == b[..10];
    TimeOrderFromParts(MinuteStampTime(a), MinuteStampTime(b), a[..16], b[..16]);
  }

  /** Two instants on renderable dates compare as texts made of their day
      keys followed by clock texts that compare as their times of day. */
  lemma TimeOrderFromParts(ta: DateTime, tb: DateTime, pa: string, pb: string)
    requires Renderable(ta.date) && Renderable(tb.date)
    requires |pa| >= 10 && |pb| >= 10 && pa[..10] == IsoDay(ta.date) && pb[..10] == IsoDay(tb.date)
    requires StrLe(pa[10..], pb[10..]) <==> ta.millis <= tb.millis
    ensures TimeLe(ta, tb) <==> StrLe(pa, pb)
  {
    assert pa == pa[..10] + pa[10..] && pb == pb[..10] + pb[10..];
    StrLeConcat(pa[..10], pa[10..], pb[..10], pb[10..]);
    DayKeyOrder(ta.date, tb.date);
  }


  /** The first `$match` (a timestamp exists and is not null), the `ts`
      stage (`$switch` on the BSON type) and the second `$match` (`ts` is not
      null), for one document. */
  function NormaliseTs(t: Timestamp): (r: Option<DateTime>)
    ensures r.Some? <==> t.NativeDate? || (t.Str? && MatchesTimestampRegex(t.text))
    ensures t.NativeDate? ==> r == Some(t.at)
    ensures t.Str? && r.Some? ==> r.value == MinuteStampTime(t.text)
    ensures t.Str? && r.Some? ==> Renderable(r.value.date) && IsoDay(r.value.date) == t.text[..10]
  {
    match t
    case NativeDate(at) => Some(at)
    case Str(text) => if MatchesTimestampRegex(text) then Some(MinuteStampTime(text)) else None
    case _ => None
  }

  predicate Survives(d: Document)
  {
    NormaliseTs(d.timestamp).Some?
  }

  function DocsOf(rs: seq<Reading>): (ds: seq<Document>)
    ensures |ds| == |rs| && forall i :: 0 <= i < |rs| ==> ds[i] == rs[i].doc
  {
    seq(|rs|, i requires 0 <= i < |rs| => rs[i].doc)
  }

  /** Each surviving document with its `ts`, in order. */
  function Readings(kept: seq<Document>): (r: seq<Reading>)
    requires forall i :: 0 <= i < |kept| ==> Survives(kept[i])
    ensures |r| == |kept|
    ensures forall i :: 0 <= i < |r| ==> r[i].doc == kept[i] && NormaliseTs(kept[i].timestamp) == Some(r[i].ts)
    decreases |kept|
  {
    if kept == [] then []
    else
      var ts := NormaliseTs(kept[0].timestamp);
      assert Survives(kept[0]);
      [Reading(kept[0], ts.value)] + Readings(kept[1..])
  }

  /** The stages up to the second `$match`, over the whole stream: the
      surviving documents in stream order, each with its `ts`. */
  function Normalise(docs: seq<Document>): (r: seq<Reading>)
    ensures |r| <= |docs|
    ensures forall i :: 0 <= i < |r| ==> NormaliseTs(r[i].doc.timestamp) == Some(r[i].ts)
    ensures forall d :: d in DocsOf(r) <==> d in docs && Survives(d)
    ensures forall d :: multiset(DocsOf(r))[d] == if Survives(d) then multiset(docs)[d] else 0
    ensures Seqs.IsSubsequence(DocsOf(r), docs)
  {
    var kept := Seqs.Filter(docs, Survives);
    assert forall i :: 0 <= i < |kept| ==> Survives(kept[i]) by {
      forall i | 0 <= i < |kept| ensures Survives(kept[i]) {
        assert kept[i] in kept;
      }
    }
    var r := Readings(kept);
    assert DocsOf(r) == kept;
    r
  }

  /** The `day` stage: `$dateToString` of `ts` with format `%Y-%m-%d`. */
  function WithDay(rs: seq<Reading>): (r: seq<DayReading>)
    ensures |r| == |rs|
    ensures forall i :: 0 <= i < |r| ==> r[i].doc == rs[i].doc && r[i].ts == rs[i].ts
    ensures forall i :: 0 <= i < |r| ==> r[i].day == IsoDay(r[i].ts.date)
  {
    seq(|rs|, i requires 0 <= i < |rs| => DayReading(rs[i].doc, rs[i].ts, IsoDay(rs[i].ts.date)))
  }

  /** The third `$match`: `start <= day <= end`, compared as strings. */
  predicate InDayWindow(r: DayReading, start: string, end: string)
  {
    StrLe(start, r.day) && StrLe(r.day, end)
  }

  function DayWindow(rs: seq<DayReading>, start: string, end: string): (r: seq<DayReading>)
    ensures forall x :: x in r <==> x in rs && InDayWindow(x, start, end)
    ensures forall x :: multiset(r)[x] == if InDayWindow(x, start, end) then multiset(rs)[x] else 0
  {
    Seqs.Filter(rs, x => InDayWindow(x, start, end))
  }

  /** `$limit`: at most `n` documents of the stream pass. Which ones is not
      promised; the model passes the first `n`. */
  function Limit<T>(xs: seq<T>, n: nat): (r: seq<T>)
    ensures |r| <= n && |r| <= |xs|
    ensures |xs| <= n ==> r == xs
    ensures |xs| > n ==> |r| == n
    ensures multiset(r) <= multiset(xs)
    ensures forall x :: x in r ==> x in xs
  {
    if |xs| <= n then xs
    else
      assert xs == xs[..n] + xs[n..];
      xs[..n]
  }

  /** Lines 14-15: `datetime.strptime(s, "%d-%b-%Y").strftime("%Y-%m-%d")`. */
  function ConvertBound(s: string): (r: Result<string, DateError>)
    ensures r.Ok? <==> ParseDmy(s).Ok?
    ensures r.Ok? ==> ParseIsoDay(r.value) == Some(ParseDmy(s).value)
    ensures r.Ok? ==> r.value == IsoDay(ParseDmy(s).value)
    ensures r.Err? ==> r.error == ParseDmy(s).error
  {
    match ParseDmy(s)
    case Ok(d) => IsoDayRoundTrip(d); Ok(IsoDay(d))
    case Err(e) => Err(e)
  }

  /** A bound written by `strftime("%d-%b-%Y")` comes out as the same
      date's `YYYY-MM-DD` key. */
  lemma ConvertBoundRoundTrip(d: Date)
    requires ValidDate(d)
    ensures ConvertBound(DmyDay(d)) == Ok(IsoDay(d))
  {
    DmyRoundTrip(d);
  }

  /** Ascending order of `ts`. */
  predicate ByTime(a: DayReading, b: DayReading)
  {
    TimeLe(a.ts, b.ts)
  }

  lemma ByTimeIsTotalPreorder()
    ensures Sorting.TotalPreorder(ByTime)
  {
  }

  /** The documents the windowed pipeline selects before its `$limit`. */
  function Candidates(docs: seq<Document>, start: string, end: string): seq<DayReading>
  {
    DayWindow(WithDay(Normalise(docs)), start, end)
  }

  /** Every candidate is a stored document that survived normalisation,
      keyed by the day of its `ts`, inside the window. */
  lemma {:induction false} CandidatesSpec(docs: seq<Document>, start: string, end: string)
    ensures forall x :: x in Candidates(docs, start, end) ==>
      && x.doc in docs
      && NormaliseTs(x.doc.timestamp) == Some(x.ts)
      && x.day == IsoDay(x.ts.date)
      && InDayWindow(x, start, end)
  {
    var rs := Normalise(docs);
    var w := WithDay(rs);
    forall x | x in Candidates(docs, start, end)
      ensures x.doc in docs && NormaliseTs(x.doc.timestamp) == Some(x.ts) && x.day == IsoDay(x.ts.date)
    {
      assert x in w;
      var i :| 0 <= i < |w| && w[i] == x;
      assert x.doc == rs[i].doc && x.ts == rs[i].ts;
      assert NormaliseTs(rs[i].doc.timestamp) == Some(rs[i].ts);
      assert DocsOf(rs)[i] == x.doc;
      assert x.doc in DocsOf(rs);
    }
  }

  /** `fetch_cleaned_data`: convert the bounds, run the windowed pipeline,
      and sort by `ts` when the result has a `ts` column, which is when it
      is not empty. A bound that does not parse raises before any query. */
  function FetchCleanedData(docs: seq<Document>, startStr: string, endStr: string): (r: Result<seq<DayReading>, DateError>)
    ensures r.Ok? <==> ParseDmy(startStr).Ok? && ParseDmy(endStr).Ok?
    ensures r.Ok? ==> |r.value| <= MAX_RECORDS
    ensures r.Ok? ==> Sorting.Sorted(r.value, ByTime)
    ensures r.Ok? ==> forall x :: x in r.value ==>
      && x.doc in docs
      && NormaliseTs(x.doc.timestamp) == Some(x.ts)
      && x.day == IsoDay(x.ts.date)
      && InDayWindow(x, IsoDay(ParseDmy(startStr).value), IsoDay(ParseDmy(endStr).value))
  {
    match ConvertBound(startStr)
    case Err(e) => Err(e)
    case Ok(start) =>
      match ConvertBound(endStr)
      case Err(e) => Err(e)
      case Ok(end) =>
        assert start == IsoDay(ParseDmy(startStr).value) && end == IsoDay(ParseDmy(endStr).value);
        var limited := Limit(Candidates(docs, start, end), MAX_RECORDS);
        CandidatesSpec(docs, start, end);
        ByTimeIsTotalPreorder();
        var sorted := SortWhenNotEmpty(limited);
        Ok(sorted)
  }

  /** `if "ts" in df.columns: df = df.sort_values("ts")`. */
  function SortWhenNotEmpty(rs: seq<DayReading>): (r: seq<DayReading>)
    ensures |r| == |rs|
    ensures multiset(r) == multiset(rs)
    ensures forall x :: x in r <==> x in rs
    ensures Sorting.Sorted(r, ByTime)
  {
    ByTimeIsTotalPreorder();
    if |rs| > 0 then
      var sorted := Sorting.Sort(rs, ByTime);
      assert |sorted| == |multiset(sorted)| == |multiset(rs)| == |rs|;
      assert forall x :: x in sorted <==> x in rs by {
        forall x ensures x in sorted <==> x in rs {
          assert x in sorted <==> multiset(sorted)[x] > 0;
          assert x in rs <==> multiset(rs)[x] > 0;
        }
      }
      sorted
    else rs
  }

  function DocOf(x: DayReading): Document
  {
    x.doc
  }

  /** The documents of a sequence of keyed records, in order. */
  function DayDocs(xs: seq<DayReading>): seq<Document>
  {
    Seqs.Map(xs, DocOf)
  }

  /** A stored document the windowed pipeline selects: its timestamp
      normalises, and the `YYYY-MM-DD` key of that time lies between the
      bounds as strings. */
  predicate Qualifies(d: Document, start: string, end: string)
  {
    && Survives(d)
    && var day := IsoDay(NormaliseTs(d.timestamp).value.date);
       StrLe(start, day) && StrLe(day, end)
  }

  /** The qualifying stored documents, in stream order. */
  function Qualifying(docs: seq<Document>, start: string, end: string): (r: seq<Document>)
    ensures forall d :: multiset(r)[d] == if Qualifies(d, start, end) then multiset(docs)[d] else 0
  {
    Seqs.Filter(docs, d => Qualifies(d, start, end))
  }

  /** The record the pipeline builds for a surviving document. */
  function Keyed(d: Document): (x: DayReading)
    requires Survives(d)
    ensures x.doc == d && NormaliseTs(d.timestamp) == Some(x.ts) && x.day == IsoDay(x.ts.date)
  {
    var ts := NormaliseTs(d.timestamp).value;
    DayReading(d, ts, IsoDay(ts.date))
  }

  lemma NormaliseCons(d: Document, rest: seq<Document>)
    ensures Normalise([d] + rest) == (if Survives(d) then [Reading(d, NormaliseTs(d.timestamp).value)] else []) + Normalise(rest)
  {
    Seqs.FilterCons(d, rest, Survives);
    var kept := Seqs.Filter(rest, Survives);
    if Survives(d) {
      assert ([d] + kept)[0] == d && ([d] + kept)[1..] == kept;
    }
  }

  lemma DayWindowCons(x: DayReading, rest: seq<DayReading>, start: string, end: string)
    ensures DayWindow([x] + rest, start, end) == (if InDayWindow(x, start, end) then [x] else []) + DayWindow(rest, start, end)
  {
    Seqs.FilterCons(x, rest, x => InDayWindow(x, start, end));
  }

  lemma WithDayCons(x: Reading, rest: seq<Reading>)
    ensures WithDay([x] + rest) == [DayReading(x.doc, x.ts, IsoDay(x.ts.date))] + WithDay(rest)
  {
  }

  lemma {:induction false} CandidatesCons(d: Document, rest: seq<Document>, start: string, end: string)
    ensures Candidates([d] + rest, start, end) ==
      (if Qualifies(d, start, end) then [Keyed(d)] else []) + Candidates(rest, start, end)
  {
    NormaliseCons(d, rest);
    var tail := WithDay(Normalise(rest));
    if Survives(d) {
      var x := Reading(d, NormaliseTs(d.timestamp).value);
      WithDayCons(x, Normalise(rest));
      assert DayReading(x.doc, x.ts, IsoDay(x.ts.date)) == Keyed(d);
      DayWindowCons(Keyed(d), tail, start, end);
      assert InDayWindow(Keyed(d), start, end) <==> Qualifies(d, start, end);
    }
  }

  lemma QualifyingCons(d: Document, rest: seq<Document>, start: string, end: string)
    ensures Qualifying([d] + rest, start, end) == (if Qualifies(d, start, end) then [d] else []) + Qualifying(rest, start, end)
  {
    Seqs.FilterCons(d, rest, d => Qualifies(d, start, end));
  }

  /** The documents behind the windowed pipeline's candidates are exactly
      the qualifying stored documents, in stream order. */
  lemma {:induction false} CandidatesAreQualifying(docs: seq<Document>, start: string, end: string)
    ensures DayDocs(Candidates(docs, start, end)) == Qualifying(docs, start, end)
    decreases |docs|
  {
    if docs == [] {
      assert |WithDay(Normalise(docs))| == 0;
      assert Candidates(docs, start, end) == [];
    } else {
      var d, rest := docs[0], docs[1..];
      assert docs == [d] + rest;
      CandidatesAreQualifying(rest, start, end);
      var c, q := Candidates(rest, start, end), Qualifying(rest, start, end);
      CandidatesCons(d, rest, start, end);
      QualifyingCons(d, rest, start, end);
      if Qualifies(d, start, end) {
        var k := Keyed(d);
        assert Candidates(docs, start, end) == [k] + c;
        assert Qualifying(docs, start, end) == [d] + q;
        Seqs.MapAppend([k], c, DocOf);
        assert DayDocs([k]) == [d];
      } else {
        assert Candidates(docs, start, end) == c;
        assert Qualifying(docs, start, end) == q;
      }
    }
  }

  /** The fetch returns qualifying stored documents, each at most as often
      as it is stored. When no more than `MAX_RECORDS` qualify, every one
      is returned, as often as it is stored; otherwise exactly
      `MAX_RECORDS` are. */
  lemma FetchCleanedDataComplete(docs: seq<Document>, startStr: string, endStr: string)
    requires FetchCleanedData(docs, startStr, endStr).Ok?
    ensures var start, end := IsoDay(ParseDmy(startStr).value), IsoDay(ParseDmy(endStr).value);
      multiset(DayDocs(FetchCleanedData(docs, startStr, endStr).value)) <= multiset(Qualifying(docs, start, end))
    ensures var start, end := IsoDay(ParseDmy(startStr).value), IsoDay(ParseDmy(endStr).value);
      |Qualifying(docs, start, end)| <= MAX_RECORDS ==>
        multiset(DayDocs(FetchCleanedData(docs, startStr, endStr).value)) == multiset(Qualifying(docs, start, end))
    ensures var start, end := IsoDay(ParseDmy(startStr).value), IsoDay(ParseDmy(endStr).value);
      |Qualifying(docs, start, end)| > MAX_RECORDS ==> |FetchCleanedData(docs, startStr, endStr).value| == MAX_RECORDS
  {
    var start, end := ConvertBound(startStr).value, ConvertBound(endStr).value;
    CandidatesAreQualifying(docs, start, end);
    var c := Candidates(docs, start, end);
    var limited := Limit(c, MAX_RECORDS);
    var result := FetchCleanedData(docs, startStr, endStr).value;
    assert result == SortWhenNotEmpty(limited);
    assert |c| == |DayDocs(c)|;
    Seqs.MapMultiset(result, limited, DocOf);
    LimitDocs(c, MAX_RECORDS);
  }

  /** The documents behind the records `$limit` passes are drawn from
      those behind its input. */
  lemma LimitDocs(c: seq<DayReading>, n: nat)
    ensures multiset(DayDocs(Limit(c, n))) <= multiset(DayDocs(c))
  {
    if |c| > n {
      var limited := Limit(c, n);
      assert c == limited + c[n..];
      Seqs.MapAppend(limited, c[n..], DocOf);
      assert multiset(DayDocs(c)) == multiset(DayDocs(limited)) + multiset(DayDocs(c[n..]));
    }
  }

  /** For records whose `ts` is a renderable date, the string window on
      the day key is exactly the chronological window on the date. */
  lemma DayWindowIsChronological(x: DayReading, lo: Date, hi: Date)
    requires x.day == IsoDay(x.ts.date)
    requires Renderable(x.ts.date) && Renderable(lo) && Renderable(hi)
    ensures InDayWindow(x, IsoDay(lo), IsoDay(hi)) <==> DateLe(lo, x.ts.date) && DateLe(x.ts.date, hi)
  {
    IsoDayOrder(lo, x.ts.date);
    IsoDayOrder(x.ts.date, hi);
  }

  /** The reading with the largest `ts` (the first such, on a tie). */
  function Latest(rs: seq<Reading>): (r: Reading)
    requires rs != []
    ensures r in rs
    ensures forall x :: x in rs ==> TimeLe(x.ts, r.ts)
  {
    if |rs| == 1 then rs[0]
    else
      var best := Latest(rs[1..]);
      assert rs == [rs[0]] + rs[1..];
      if TimeLe(best.ts, rs[0].ts) then rs[0] else best
  }

  /** `fetch_latest_row`: the normalising stages, `$sort` by `ts`
      descending and `$limit: 1`. */
  function FetchLatestRow(docs: seq<Document>): (r: seq<Reading>)
    ensures |r| <= 1
    ensures r == [] <==> forall d :: d in docs ==> !Survives(d)
    ensures r != [] ==> r[0].doc in docs && NormaliseTs(r[0].doc.timestamp) == Some(r[0].ts)
    ensures r != [] ==> forall d :: d in docs && Survives(d) ==> TimeLe(NormaliseTs(d.timestamp).value, r[0].ts)
  {
    var rs := Normalise(docs);
    NormaliseEmpty(docs);
    if rs == [] then []
    else
      LatestOfNormalise(docs);
      [Latest(rs)]
  }

  /** Nothing survives normalisation exactly when no stored document does. */
  lemma NormaliseEmpty(docs: seq<Document>)
    ensures Normalise(docs) == [] <==> forall d :: d in docs ==> !Survives(d)
  {
    var rs := Normalise(docs);
    if rs == [] {
      assert DocsOf(rs) == [];
    } else {
      assert rs[0].doc in DocsOf(rs);
    }
  }

  /** The latest surviving reading is a stored document with its own `ts`,
      and no surviving document has a later one. */
  lemma LatestOfNormalise(docs: seq<Document>)
    requires Normalise(docs) != []
    ensures var top := Latest(Normalise(docs));
      && top.doc in docs && NormaliseTs(top.doc.timestamp) == Some(top.ts)
      && forall d :: d in docs && Survives(d) ==> TimeLe(NormaliseTs(d.timestamp).value, top.ts)
  {
    var rs := Normalise(docs);
    var top := Latest(rs);
    forall d | d in docs && Survives(d)
      ensures TimeLe(NormaliseTs(d.timestamp).value, top.ts)
    {
      assert d in DocsOf(rs);
      var i :| 0 <= i < |rs| && DocsOf(rs)[i] == d;
      assert rs[i] in rs;
    }
    assert top.doc in DocsOf(rs) by {
      var i :| 0 <= i < |rs| && rs[i] == top;
      assert DocsOf(rs)[i] == top.doc;
    }
  }
}
