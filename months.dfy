/** The first-of-month sequence behind the monthly batch download
    (`CFMMCCrawler._generate_months_first_day`). */
module Months {
  import opened Common
  import opened Dates

  /** Python's `s[lo:hi]` for `0 <= lo <= hi`: both bounds are clamped to the length. */
  function Slice(s: string, lo: nat, hi: nat): (r: string)
    requires lo <= hi
    ensures |r| == (if hi <= |s| then hi - lo else if lo <= |s| then |s| - lo else 0)
    ensures forall i :: 0 <= i < |r| ==> r[i] == s[lo + i]
    ensures hi <= |s| ==> r == s[lo..hi]
  {
    var h := if hi <= |s| then hi else |s|;
    var l := if lo <= h then lo else h;
    s[l..h]
  }

  /** Python's `int(s)` on a string of ASCII decimal digits; anything else raises `ValueError`. */
  function ParseInt(s: string): (r: Result<int>)
    ensures r.Ok? <==> s != [] && IsDigits(s)
    ensures r.Err? ==> r.error == ValueError
  {
    if s != [] && IsDigits(s) then Ok(ParseDigits(s)) else Err(ValueError)
  }

  /** What `int(s)` returns: the number whose zero-padded decimal form, as
      wide as `s`, is `s` itself. */
  lemma ParseIntRoundTrip(s: string)
    ensures ParseInt(s).Ok? ==>
      0 <= ParseInt(s).value < Pow10(|s|) && Pad(ParseInt(s).value, |s|) == s
  {
    if s != [] && IsDigits(s) {
      ParseDigitsPad(s);
    }
  }

  /** `dt.date(int(s[:4]), int(s[4:6]), 1)`: the first day of the month named
      by the `YYYYMM` prefix of `s`. */
  function FirstDayOf(s: string): (r: Result<Date>) {
    match ParseInt(Slice(s, 0, 4))
    case Err(e) => Err(e)
    case Ok(y) =>
      match ParseInt(Slice(s, 4, 6))
      case Err(e) => Err(e)
      case Ok(m) => MakeDate(y, m, 1)
  }

  // ----- month arithmetic -----

  /** Months counted from January of year 0. */
  function MonthIndex(d: Date): (r: int) {
    d.year * 12 + d.month - 1
  }

  function FirstOfMonth(k: int): (r: Date) {
    Date(k / 12, k % 12 + 1, 1)
  }

  /** The index of December of `datetime.MAXYEAR`, the last month a date can name. */
  const LastMonthIndex := MaxYear * 12 + 11

  /** The year of the step at cfmmc_crawler.py:182: `year + month // 12`. */
  function RolloverYear(y: int, m: int): (r: int) {
    y + m / 12
  }

  /** The month of the step at cfmmc_crawler.py:182: `(month + 1) % 13 + month // 12`. */
  function RolloverMonth(m: int): (r: int) {
    (m + 1) % 13 + m / 12
  }

  /** The compact step formula is the calendar successor: months 1..11 advance
      within the year and December rolls over to January of the next year. */
  lemma RolloverIsNextMonth(y: int, m: int)
    requires 1 <= m <= 12
    ensures m < 12 ==> RolloverYear(y, m) == y && RolloverMonth(m) == m + 1
    ensures m == 12 ==> RolloverYear(y, m) == y + 1 && RolloverMonth(m) == 1
    ensures FirstOfMonth(MonthIndex(Date(y, m, 1)) + 1) == Date(RolloverYear(y, m), RolloverMonth(m), 1)
  {
    if m < 12 {
      assert m / 12 == 0 && (m + 1) % 13 == m + 1;
    } else {
      assert m / 12 == 1 && (m + 1) % 13 == 0;
    }
    var k := y * 12 + m;
    assert k == (if m < 12 then y else y + 1) * 12 + (if m < 12 then m else 0);
  }

  /** `MonthIndex` and `FirstOfMonth` are inverse on first-of-month dates. */
  lemma MonthIndexRoundTrip(d: Date)
    requires 1 <= d.month <= 12 && d.day == 1
    ensures FirstOfMonth(MonthIndex(d)) == d
  {
    var k := MonthIndex(d);
    assert k == d.year * 12 + (d.month - 1);
  }

  lemma IndexOfFirstOfMonth(k: int)
    ensures MonthIndex(FirstOfMonth(k)) == k
  {
  }

  /** One step of the loop from a valid first-of-month date: the next date
      exists exactly when the month is before December 9999, and it is then
      the month with the next index. */
  lemma StepFromValid(d: Date)
    requires IsValid(d) && d.day == 1
    ensures var next := MakeDate(RolloverYear(d.year, d.month), RolloverMonth(d.month), 1);
      (next.Ok? <==> MonthIndex(d) < LastMonthIndex) &&
      (next.Ok? ==> next.value.day == 1 && MonthIndex(next.value) == MonthIndex(d) + 1)
  {
    RolloverIsNextMonth(d.year, d.month);
    IndexOfFirstOfMonth(MonthIndex(d) + 1);
  }

  /** On first-of-month dates, chronological order is the order of month indices. */
  lemma DateLeByMonthIndex(a: Date, b: Date)
    requires 1 <= a.month <= 12 && a.day == 1
    requires 1 <= b.month <= 12 && b.day == 1
    ensures DateLe(a, b) <==> MonthIndex(a) <= MonthIndex(b)
  {
  }

  /** The months `lo .. hi` (inclusive, by index), each as its first day. */
  function MonthRange(lo: int, hi: int): (r: seq<Date>)
    requires lo <= hi + 1
  {
    seq(hi - lo + 1, k requires 0 <= k <= hi - lo => FirstOfMonth(lo + k))
  }

  /** Extending the range by one month appends that month's first day. */
  lemma MonthRangeSnoc(lo: int, hi: int)
    requires lo <= hi + 1
    ensures MonthRange(lo, hi) + [FirstOfMonth(hi + 1)] == MonthRange(lo, hi + 1)
  {
    var a, b := MonthRange(lo, hi) + [FirstOfMonth(hi + 1)], MonthRange(lo, hi + 1);
    assert |a| == |b|;
    forall k | 0 <= k < |a|
      ensures a[k] == b[k]
    {
    }
  }

  /** What the loop of `_generate_months_first_day` returns or raises from
      the first day `a` of the start month to the first day `b` of the end
      month: the empty list when `a` is after `b`; `ValueError` when `b` is
      December 9999, because the step past it builds a year-10000 date;
      otherwise every month from `a` to `b`, inclusive. */
  function FirstDaysBetween(a: Date, b: Date): (r: Result<seq<Date>>) {
    if MonthIndex(a) > MonthIndex(b) then Ok([])
    else if MonthIndex(b) == LastMonthIndex then Err(ValueError)
    else Ok(MonthRange(MonthIndex(a), MonthIndex(b)))
  }

  /** What `_generate_months_first_day(startDate, endDate)` returns or raises:
      a date string that does not parse raises `ValueError`; otherwise the
      months between the two parsed first days. */
  function MonthsBetween(startDate: string, endDate: string): (r: Result<seq<Date>>) {
    match FirstDayOf(startDate)
    case Err(e) => Err(e)
    case Ok(a) =>
      match FirstDayOf(endDate)
      case Err(e) => Err(e)
      case Ok(b) => FirstDaysBetween(a, b)
  }

  /** `_generate_months_first_day`: parse both arguments, then step through the months. */
  method GenerateMonthsFirstDay(startDate: string, endDate: string) returns (r: Result<seq<Date>>)
    ensures r == MonthsBetween(startDate, endDate)
  {
    var s := FirstDayOf(startDate);
    if s.Err? {
      return Err(s.error);
    }
    var e := FirstDayOf(endDate);
    if e.Err? {
      return Err(e.error);
    }
    r := CollectFirstDays(s.value, e.value);
  }

  /** One turn of the loop below: appending the current first day extends
      the range by one month. */
  lemma CollectStep(lo: int, current: Date, storage: seq<Date>)
    requires 1 <= current.month <= 12 && current.day == 1
    requires MonthIndex(current) == lo + |storage|
    requires storage == MonthRange(lo, lo + |storage| - 1)
    ensures storage + [current] == MonthRange(lo, lo + |storage|)
  {
    MonthIndexRoundTrip(current);
    MonthRangeSnoc(lo, lo + |storage| - 1);
  }

  /** The loop at cfmmc_crawler.py:180-182: append the current first day and
      step with the compact formula while not past the end month. */
  method CollectFirstDays(start: Date, end: Date) returns (r: Result<seq<Date>>)
    requires IsValid(start) && start.day == 1
    requires IsValid(end) && end.day == 1
    ensures r == FirstDaysBetween(start, end)
  {
    var current := start;
    ghost var lo, hi := MonthIndex(start), MonthIndex(end);
    var storage: seq<Date> := [];
    while DateLe(current, end)
      invariant IsValid(current) && current.day == 1
      invariant MonthIndex(current) == lo + |storage|
      invariant lo <= hi ==> MonthIndex(current) <= hi + 1
      invariant lo > hi ==> storage == []
      invariant storage == MonthRange(lo, lo + |storage| - 1)
      decreases hi - MonthIndex(current)
    {
      DateLeByMonthIndex(current, end);
      CollectStep(lo, current, storage);
      StepFromValid(current);
      storage := storage + [current];
      var next := MakeDate(RolloverYear(current.year, current.month), RolloverMonth(current.month), 1);
      if next.Err? {
        assert MonthIndex(current) == hi == LastMonthIndex;
        return Err(next.error);
      }
      current := next.value;
    }
    DateLeByMonthIndex(current, end);
    return Ok(storage);
  }

  // ----- properties of the month sequence -----

  /** A start month after the end month gives the empty list; otherwise,
      unless the end month is December 9999, the list has one entry per month
      from start to end, beginning with the start month and ending with the
      end month, and every entry is a valid first-of-month date. */
  lemma FirstDaysBetweenShape(a: Date, b: Date)
    requires IsValid(a) && a.day == 1 && IsValid(b) && b.day == 1
    ensures var r := FirstDaysBetween(a, b);
      (MonthIndex(a) > MonthIndex(b) ==> r == Ok([])) &&
      (MonthIndex(a) <= MonthIndex(b) && MonthIndex(b) < LastMonthIndex ==>
        r.Ok? && |r.value| == MonthIndex(b) - MonthIndex(a) + 1 &&
        r.value[0] == a && r.value[|r.value| - 1] == b &&
        forall k :: 0 <= k < |r.value| ==> IsValid(r.value[k]) && r.value[k].day == 1)
  {
    if MonthIndex(a) <= MonthIndex(b) < LastMonthIndex {
      MonthIndexRoundTrip(a);
      MonthIndexRoundTrip(b);
      var r := MonthRange(MonthIndex(a), MonthIndex(b));
      assert FirstDaysBetween(a, b) == Ok(r);
      assert |r| == MonthIndex(b) - MonthIndex(a) + 1;
      assert r[0] == FirstOfMonth(MonthIndex(a)) && r[|r| - 1] == FirstOfMonth(MonthIndex(b));
      forall k | 0 <= k < |r|
        ensures IsValid(r[k]) && r[k].day == 1
      {
        IndexOfFirstOfMonth(MonthIndex(a) + k);
      }
    }
  }

  /** The same for the two date strings, once both parse. */
  lemma MonthsBetweenShape(startDate: string, endDate: string)
    requires FirstDayOf(startDate).Ok? && FirstDayOf(endDate).Ok?
    ensures var a, b := FirstDayOf(startDate).value, FirstDayOf(endDate).value;
      var r := MonthsBetween(startDate, endDate);
      (MonthIndex(a) > MonthIndex(b) ==> r == Ok([])) &&
      (MonthIndex(a) <= MonthIndex(b) && MonthIndex(b) < LastMonthIndex ==>
        r.Ok? && |r.value| == MonthIndex(b) - MonthIndex(a) + 1 &&
        r.value[0] == a && r.value[|r.value| - 1] == b &&
        forall k :: 0 <= k < |r.value| ==> IsValid(r.value[k]) && r.value[k].day == 1)
  {
    FirstDaysBetweenShape(FirstDayOf(startDate).value, FirstDayOf(endDate).value);
  }

  /** Any list of valid first-of-month dates the generator returns is valid. */
  lemma MonthsBetweenValid(startDate: string, endDate: string)
    requires MonthsBetween(startDate, endDate).Ok?
    ensures forall d :: d in MonthsBetween(startDate, endDate).value ==> IsValid(d) && d.day == 1
  {
    MonthsBetweenShape(startDate, endDate);
  }

  /** Consecutive entries are one calendar month apart: December is followed
      by January of the next year, any other month by the next month of the
      same year. */
  lemma FirstDaysBetweenConsecutive(a: Date, b: Date, i: nat)
    requires FirstDaysBetween(a, b).Ok? && i + 1 < |FirstDaysBetween(a, b).value|
    ensures var r := FirstDaysBetween(a, b).value;
      (r[i].month < 12 ==> r[i + 1] == Date(r[i].year, r[i].month + 1, 1)) &&
      (r[i].month == 12 ==> r[i + 1] == Date(r[i].year + 1, 1, 1))
  {
    var r := FirstDaysBetween(a, b).value;
    var d := FirstOfMonth(MonthIndex(a) + i);
    assert r[i] == d && r[i + 1] == FirstOfMonth(MonthIndex(a) + i + 1);
    IndexOfFirstOfMonth(MonthIndex(a) + i);
    RolloverIsNextMonth(d.year, d.month);
  }

  /** The same for the two date strings. */
  lemma MonthsBetweenConsecutive(startDate: string, endDate: string, i: nat)
    requires MonthsBetween(startDate, endDate).Ok?
    requires i + 1 < |MonthsBetween(startDate, endDate).value|
    ensures var r := MonthsBetween(startDate, endDate).value;
      (r[i].month < 12 ==> r[i + 1] == Date(r[i].year, r[i].month + 1, 1)) &&
      (r[i].month == 12 ==> r[i + 1] == Date(r[i].year + 1, 1, 1))
  {
    FirstDaysBetweenConsecutive(FirstDayOf(startDate).value, FirstDayOf(endDate).value, i);
  }

  /** Only the first six characters of each argument matter: the day digits
      of a `YYYYMMDD` string, and anything after them, are ignored. */
  lemma MonthsBetweenReadsSixChars(startDate: string, endDate: string)
    ensures MonthsBetween(startDate, endDate) == MonthsBetween(Slice(startDate, 0, 6), Slice(endDate, 0, 6))
  {
    SliceOfPrefix(startDate);
    SliceOfPrefix(endDate);
  }

  lemma SliceOfPrefix(s: string)
    ensures var p := Slice(s, 0, 6); Slice(p, 0, 4) == Slice(s, 0, 4) && Slice(p, 4, 6) == Slice(s, 4, 6)
  {
  }

  /** A string that starts with a four-digit year and a two-digit month names
      the first day of that month, whatever follows. */
  lemma FirstDayOfDigits(y: nat, m: nat, rest: string)
    requires y < 10000 && m < 100
    ensures FirstDayOf(Pad(y, 4) + Pad(m, 2) + rest) == MakeDate(y, m, 1)
  {
    PadRoundTrip(y, 4);
    PadRoundTrip(m, 2);
    var s := Pad(y, 4) + Pad(m, 2) + rest;
    assert Slice(s, 0, 4) == Pad(y, 4);
    assert Slice(s, 4, 6) == Pad(m, 2);
  }

  /** November 2023 to February 2024: the year rolls over from December to January. */
  lemma ExampleYearEnd()
    ensures FirstDaysBetween(Date(2023, 11, 1), Date(2024, 2, 1)) ==
      Ok([Date(2023, 11, 1), Date(2023, 12, 1), Date(2024, 1, 1), Date(2024, 2, 1)])
  {
    var r := MonthRange(24286, 24289);
    assert r[0] == Date(2023, 11, 1) && r[1] == Date(2023, 12, 1);
    assert r[2] == Date(2024, 1, 1) && r[3] == Date(2024, 2, 1);
    assert r == [Date(2023, 11, 1), Date(2023, 12, 1), Date(2024, 1, 1), Date(2024, 2, 1)];
  }

  /** An end month of December 9999 raises whatever the start month: the loop
      steps past it to a year `date` cannot hold. */
  lemma LastMonthRaises(startDate: string, endDate: string)
    requires FirstDayOf(startDate).Ok? && FirstDayOf(endDate) == Ok(Date(MaxYear, 12, 1))
    ensures MonthsBetween(startDate, endDate) == Err(ValueError)
  {
  }

  /** A month field outside 1..12 raises, as `dt.date` does, before the end date is read. */
  lemma BadMonthRaises(y: nat, m: nat, rest: string, endDate: string)
    requires y < 10000 && m < 100 && !(1 <= m <= 12)
    ensures MonthsBetween(Pad(y, 4) + Pad(m, 2) + rest, endDate) == Err(ValueError)
  {
    FirstDayOfDigits(y, m, rest);
  }
}
