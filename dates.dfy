/** Calendar dates as Python's `datetime.date` holds them, and the two
    `strftime` formats the crawler writes into requests and file names. */
module Dates {
  import opened Common

  /** A `datetime.date`: proleptic Gregorian year, month and day. */
  datatype Date = Date(year: int, month: int, day: int)

  const MinYear := 1     // datetime.MINYEAR
  const MaxYear := 9999  // datetime.MAXYEAR

  predicate IsLeapYear(y: int) {
    y % 4 == 0 && (y % 100 != 0 || y % 400 == 0)
  }

  function DaysInMonth(y: int, m: int): (n: int)
    requires 1 <= m <= 12
    ensures 28 <= n <= 31
  {
    if m == 2 then (if IsLeapYear(y) then 29 else 28)
    else if m == 4 || m == 6 || m == 9 || m == 11 then 30
    else 31
  }

  /** The invariant every `datetime.date` object satisfies. */
  predicate IsValid(d: Date) {
    MinYear <= d.year <= MaxYear && 1 <= d.month <= 12 && 1 <= d.day <= DaysInMonth(d.year, d.month)
  }

  /** A `datetime.date` object, which always holds a valid date. */
  type ValidDate = d: Date | IsValid(d) witness Date(1, 1, 1)

  /** The field ranges the two date formats rely on; every valid date is in them. */
  predicate InFormatRange(d: Date) {
    MinYear <= d.year <= MaxYear && 1 <= d.month <= 12 && 1 <= d.day <= 31
  }

  /** The constructor `datetime.date(y, m, d)`, which raises `ValueError`
      for a field out of range. */
  function MakeDate(y: int, m: int, d: int): (r: Result<Date>)
    ensures r.Ok? <==> IsValid(Date(y, m, d))
    ensures r.Ok? ==> r.value == Date(y, m, d)
    ensures r.Err? ==> r.error == ValueError
  {
    if MinYear <= y <= MaxYear && 1 <= m <= 12 && 1 <= d <= DaysInMonth(y, m) then Ok(Date(y, m, d))
    else Err(ValueError)
  }

  /** `a <= b` on dates: chronological, i.e. lexicographic on (year, month, day). */
  predicate DateLe(a: Date, b: Date) {
    a.year < b.year || (a.year == b.year && (a.month < b.month || (a.month == b.month && a.day <= b.day)))
  }

  lemma ValidInFormatRange(d: Date)
    requires IsValid(d)
    ensures InFormatRange(d)
  {
  }

  // ----- decimal digits -----

  function Pow10(w: nat): (p: nat)
    ensures p >= 1
  {
    if w == 0 then 1 else 10 * Pow10(w - 1)
  }

  predicate IsDigit(c: char) {
    '0' <= c <= '9'
  }

  predicate IsDigits(s: string) {
    forall i :: 0 <= i < |s| ==> IsDigit(s[i])
  }

  function DigitChar(n: nat): (c: char)
    requires n < 10
    ensures IsDigit(c)
  {
    ('0' as int + n) as char
  }

  function DigitValue(c: char): (n: nat)
    requires IsDigit(c)
    ensures n < 10
  {
    c as int - '0' as int
  }

  /** `n` written in decimal with `w` digits, zero-padded on the left. */
  function Pad(n: nat, w: nat): (r: string)
    requires n < Pow10(w)
  {
    if w == 0 then "" else Pad(n / 10, w - 1) + [DigitChar(n % 10)]
  }

  /** The value of a string of decimal digits (the empty string reads as 0). */
  function ParseDigits(s: string): (r: nat)
    requires IsDigits(s)
  {
    if s == [] then 0 else 10 * ParseDigits(s[..|s| - 1]) + DigitValue(s[|s| - 1])
  }

  /** Reading back a padded number gives the number: `Pad` loses nothing. */
  lemma {:induction false} PadRoundTrip(n: nat, w: nat)
    requires n < Pow10(w)
    ensures |Pad(n, w)| == w && IsDigits(Pad(n, w)) && ParseDigits(Pad(n, w)) == n
  {
    if w > 0 {
      PadRoundTrip(n / 10, w - 1);
      var s := Pad(n, w);
      assert s[..|s| - 1] == Pad(n / 10, w - 1);
    }
  }

  /** Reading a digit string and padding the value back to the string's
      length gives the string: `ParseDigits` loses nothing either. */
  lemma {:induction false} ParseDigitsPad(s: string)
    requires IsDigits(s)
    ensures ParseDigits(s) < Pow10(|s|) && Pad(ParseDigits(s), |s|) == s
    decreases |s|
  {
    if s != [] {
      var init, c := s[..|s| - 1], s[|s| - 1];
      assert IsDigits(init) by {
        forall i | 0 <= i < |init| ensures IsDigit(init[i]) { assert init[i] == s[i]; }
      }
      ParseDigitsPad(init);
      var n := ParseDigits(s);
      assert n / 10 == ParseDigits(init) && n % 10 == DigitValue(c);
      assert DigitChar(n % 10) == c;
      assert s == init + [c];
    }
  }

  // ----- strftime -----

  /** A `strftime` directive: `%Y`, `%m`, `%d`, or a character copied as is. */
  datatype Directive = Year | Month | Day | Text(c: char)

  /** A format string, as the directives it is made of. */
  datatype Format = End | Then(first: Directive, rest: Format)

  const DayFormat := Then(Year, Then(Text('-'), Then(Month, Then(Text('-'), Then(Day, End)))))
  const MonthFormat := Then(Year, Then(Text('-'), Then(Month, End)))

  function Field(d: Date, f: Directive): (r: string)
    requires InFormatRange(d)
  {
    match f
    case Year => Pad(d.year, 4)
    case Month => Pad(d.month, 2)
    case Day => Pad(d.day, 2)
    case Text(c) => [c]
  }

  function Strftime(d: Date, fmt: Format): (r: string)
    requires InFormatRange(d)
  {
    match fmt
    case End => ""
    case Then(f, rest) => Field(d, f) + Strftime(d, rest)
  }

  /** `date.strftime('%Y-%m-%d')`. */
  function FormatDay(d: Date): (r: string)
    requires InFormatRange(d)
  {
    Strftime(d, DayFormat)
  }

  /** `date.strftime('%Y-%m')`. */
  function FormatMonth(d: Date): (r: string)
    requires InFormatRange(d)
  {
    Strftime(d, MonthFormat)
  }

  /** `FormatDay` is the padded year, month and day joined by dashes. */
  lemma FormatDayPieces(d: Date)
    requires InFormatRange(d)
    ensures FormatDay(d) == Pad(d.year, 4) + ['-'] + Pad(d.month, 2) + ['-'] + Pad(d.day, 2)
  {
    var f3 := Then(Text('-'), Then(Day, End));
    assert Strftime(d, Then(Day, End)) == Pad(d.day, 2);
    assert Strftime(d, f3) == ['-'] + Pad(d.day, 2);
    assert Strftime(d, Then(Month, f3)) == Pad(d.month, 2) + (['-'] + Pad(d.day, 2));
    assert Strftime(d, Then(Text('-'), Then(Month, f3))) == ['-'] + (Pad(d.month, 2) + (['-'] + Pad(d.day, 2)));
  }

  /** `FormatMonth` is the padded year and month joined by a dash. */
  lemma FormatMonthPieces(d: Date)
    requires InFormatRange(d)
    ensures FormatMonth(d) == Pad(d.year, 4) + ['-'] + Pad(d.month, 2)
  {
    assert Strftime(d, Then(Month, End)) == Pad(d.month, 2);
    assert Strftime(d, Then(Text('-'), Then(Month, End))) == ['-'] + Pad(d.month, 2);
  }

  /** `FormatDay` is ten characters of the form YYYY-MM-DD from which each field reads back. */
  lemma FormatDayFields(d: Date)
    requires InFormatRange(d)
    ensures var s := FormatDay(d);
      |s| == 10 && s[4] == '-' && s[7] == '-' &&
      IsDigits(s[..4]) && ParseDigits(s[..4]) == d.year &&
      IsDigits(s[5..7]) && ParseDigits(s[5..7]) == d.month &&
      IsDigits(s[8..]) && ParseDigits(s[8..]) == d.day
  {
    PadRoundTrip(d.year, 4);
    PadRoundTrip(d.month, 2);
    PadRoundTrip(d.day, 2);
    FormatDayPieces(d);
    DashedSlices(Pad(d.year, 4), Pad(d.month, 2), Pad(d.day, 2));
  }

  lemma DashedSlices(y: string, m: string, dd: string)
    requires |y| == 4 && |m| == 2 && |dd| == 2
    ensures var s := y + ['-'] + m + ['-'] + dd;
      |s| == 10 && s[4] == '-' && s[7] == '-' && s[..4] == y && s[5..7] == m && s[8..] == dd
  {
    var s := y + ['-'] + m + ['-'] + dd;
    assert s[..4] == y;
    assert s[5..7] == m;
    assert s[8..] == dd;
  }

  /** `FormatMonth` is seven characters of the form YYYY-MM from which year and month read back. */
  lemma FormatMonthFields(d: Date)
    requires InFormatRange(d)
    ensures var s := FormatMonth(d);
      |s| == 7 && s[4] == '-' &&
      IsDigits(s[..4]) && ParseDigits(s[..4]) == d.year &&
      IsDigits(s[5..]) && ParseDigits(s[5..]) == d.month
  {
    PadRoundTrip(d.year, 4);
    PadRoundTrip(d.month, 2);
    FormatMonthPieces(d);
    DashedSlicesShort(Pad(d.year, 4), Pad(d.month, 2));
  }

  lemma DashedSlicesShort(y: string, m: string)
    requires |y| == 4 && |m| == 2
    ensures var s := y + ['-'] + m; |s| == 7 && s[4] == '-' && s[..4] == y && s[5..] == m
  {
    var s := y + ['-'] + m;
    assert s[..4] == y;
    assert s[5..] == m;
  }

  /** Distinct dates give distinct daily strings, so no two days share a file name. */
  lemma FormatDayInjective(a: Date, b: Date)
    requires InFormatRange(a) && InFormatRange(b)
    ensures FormatDay(a) == FormatDay(b) <==> a == b
  {
    if FormatDay(a) == FormatDay(b) {
      FormatDayFields(a);
      FormatDayFields(b);
    }
  }

  /** Two dates give the same monthly string exactly when they fall in the same month. */
  lemma FormatMonthInjective(a: Date, b: Date)
    requires InFormatRange(a) && InFormatRange(b)
    ensures FormatMonth(a) == FormatMonth(b) <==> a.year == b.year && a.month == b.month
  {
    if FormatMonth(a) == FormatMonth(b) {
      FormatMonthFields(a);
      FormatMonthFields(b);
    } else if a.year == b.year && a.month == b.month {
      FormatMonthPieces(a);
      FormatMonthPieces(b);
    }
  }
}
