/** Calendar durations (src/frontend/src/features/catalogue/contractDuration.ts) over the proleptic Gregorian days of
  * section 21.4.1 of ECMA-262. A time is a whole number of days, months count from 0. */
module ContractDuration {
  import opened Wrappers

  // ---- section 21.4.1 of ECMA-262

  predicate Leap(y: int) {
    y % 4 == 0 && (y % 100 != 0 || y % 400 == 0)
  }

  /** DayFromYear; the divisions round down. */
  function DayFromYear(y: int): int {
    365 * (y - 1970) + (y - 1969) / 4 - (y - 1901) / 100 + (y - 1601) / 400
  }

  lemma By4(x: int)
    ensures (x + 1) / 4 == x / 4 + (if (x + 1) % 4 == 0 then 1 else 0)
  {
  }

  lemma By100(x: int)
    ensures (x + 1) / 100 == x / 100 + (if (x + 1) % 100 == 0 then 1 else 0)
  {
  }

  lemma By400(x: int)
    ensures (x + 1) / 400 == x / 400 + (if (x + 1) % 400 == 0 then 1 else 0)
  {
  }

  lemma Multiples4(y: int)
    ensures ((y - 1968) % 4 == 0) == (y % 4 == 0)
  {
  }

  lemma Multiples100(y: int)
    ensures ((y - 1900) % 100 == 0) == (y % 100 == 0)
    ensures y % 100 == 0 ==> y % 4 == 0
  {
    if y % 100 == 0 { assert y == 4 * (25 * (y / 100)); }
  }

  lemma Multiples400(y: int)
    ensures ((y - 1600) % 400 == 0) == (y % 400 == 0)
    ensures y % 400 == 0 ==> y % 100 == 0
  {
    if y % 400 == 0 { assert y == 100 * (4 * (y / 400)); }
  }

  /** The years counted by the three quotients are the multiples of 4, 100 and 400. */
  lemma SameMultiples(y: int)
    ensures ((y - 1968) % 4 == 0) == (y % 4 == 0)
    ensures ((y - 1900) % 100 == 0) == (y % 100 == 0)
    ensures ((y - 1600) % 400 == 0) == (y % 400 == 0)
    ensures y % 400 == 0 ==> y % 100 == 0
    ensures y % 100 == 0 ==> y % 4 == 0
  {
    Multiples4(y);
    Multiples100(y);
    Multiples400(y);
  }

  lemma YearLength(y: int)
    ensures DayFromYear(y + 1) - DayFromYear(y) == if Leap(y) then 366 else 365
  {
    By4(y - 1969);
    By100(y - 1901);
    By400(y - 1601);
    SameMultiples(y);
  }

  function MonthLength(y: int, m: int): (n: int)
    requires 0 <= m < 12
    ensures 28 <= n <= 31
  {
    if m == 1 then (if Leap(y) then 29 else 28)
    else if m == 3 || m == 5 || m == 8 || m == 10 then 30
    else 31
  }

  /** The days of the year before month `m`. */
  function MonthStart(y: int, m: int): (n: int)
    requires 0 <= m <= 12
    ensures 28 * m <= n
  {
    if m == 0 then 0 else MonthStart(y, m - 1) + MonthLength(y, m - 1)
  }

  lemma TwelveMonths(y: int)
    ensures MonthStart(y, 12) == if Leap(y) then 366 else 365
  {
    assert MonthStart(y, 1) == 31;
    assert MonthStart(y, 2) == 31 + MonthLength(y, 1);
    assert MonthStart(y, 3) == 62 + MonthLength(y, 1);
    assert MonthStart(y, 4) == 92 + MonthLength(y, 1);
    assert MonthStart(y, 5) == 123 + MonthLength(y, 1);
    assert MonthStart(y, 6) == 153 + MonthLength(y, 1);
    assert MonthStart(y, 7) == 184 + MonthLength(y, 1);
    assert MonthStart(y, 8) == 215 + MonthLength(y, 1);
    assert MonthStart(y, 9) == 245 + MonthLength(y, 1);
    assert MonthStart(y, 10) == 276 + MonthLength(y, 1);
    assert MonthStart(y, 11) == 306 + MonthLength(y, 1);
    assert MonthStart(y, 12) == 337 + MonthLength(y, 1);
  }

  datatype Civil = Civil(year: int, month: int, date: int)

  predicate Valid(c: Civil) {
    0 <= c.month < 12 && 1 <= c.date <= MonthLength(c.year, c.month)
  }

  /** Months since year 0, and the first day of such a month. */
  function FirstOf(month: int): int {
    DayFromYear(month / 12) + MonthStart(month / 12, month % 12)
  }

  function LengthOf(month: int): (n: int)
    ensures 28 <= n <= 31
  {
    MonthLength(month / 12, month % 12)
  }

  /** The months follow each other without gap, across years as well. */
  lemma MonthsAdjoin(month: int)
    ensures FirstOf(month + 1) == FirstOf(month) + LengthOf(month)
  {
    if month % 12 == 11 {
      assert (month + 1) / 12 == month / 12 + 1 && (month + 1) % 12 == 0;
      YearLength(month / 12);
      TwelveMonths(month / 12);
    } else {
      assert (month + 1) / 12 == month / 12 && (month + 1) % 12 == month % 12 + 1;
    }
  }

  lemma {:induction false} MonthsOrdered(a: int, b: int)
    requires a < b
    ensures FirstOf(a) + LengthOf(a) <= FirstOf(b)
    decreases b - a
  {
    hide FirstOf, LengthOf;
    MonthsAdjoin(b - 1);
    if a < b - 1 { MonthsOrdered(a, b - 1); }
  }

  function MonthIndex(c: Civil): int { 12 * c.year + c.month }

  /** MakeDay */
  function DayOf(c: Civil): int {
    FirstOf(MonthIndex(c)) + c.date - 1
  }

  /** The month that contains a day, searched from a given one. */
  function MonthFrom(day: int, month: int): (m: int)
    ensures FirstOf(m) <= day < FirstOf(m) + LengthOf(m)
    decreases if day < FirstOf(month) then FirstOf(month) - day else day - FirstOf(month)
  {
    MonthsAdjoin(month);
    MonthsAdjoin(month - 1);
    if day < FirstOf(month) then (if day >= FirstOf(month - 1) then month - 1 else MonthFrom(day, month - 1))
    else if day < FirstOf(month) + LengthOf(month) then month
    else MonthFrom(day, month + 1)
  }

  /** YearFromTime, MonthFromTime and DateFromTime. */
  function CivilOf(day: int): (c: Civil)
    ensures Valid(c) && DayOf(c) == day
  {
    var m := MonthFrom(day, 12 * 1970);
    assert m == 12 * (m / 12) + m % 12;
    Civil(m / 12, m % 12, day - FirstOf(m) + 1)
  }

  /** Days and dates are in bijection. */
  lemma DatesAreDays(c: Civil)
    requires Valid(c)
    ensures CivilOf(DayOf(c)) == c
  {
    var d := CivilOf(DayOf(c));
    var a, b := MonthIndex(c), MonthIndex(d);
    IndexParts(c);
    IndexParts(d);
    if a < b { MonthsOrdered(a, b); } else if b < a { MonthsOrdered(b, a); }
  }

  lemma IndexParts(c: Civil)
    requires Valid(c)
    ensures MonthIndex(c) / 12 == c.year && MonthIndex(c) % 12 == c.month && LengthOf(MonthIndex(c)) == MonthLength(c.year, c.month)
  {
  }

  // ---- Date objects

  function Min(a: int, b: int): int { if a <= b then a else b }

  /** A Date at midnight UTC; its getters are the fields of CivilOf(day). */
  class UtcDate {
    var day: int

    constructor (day: int)
      ensures this.day == day
    {
      this.day := day;
    }

    /** setUTCDate */
    method SetDate(date: int)
      modifies this
      ensures var c := CivilOf(old(day));
              day == FirstOf(12 * c.year + c.month) + date - 1
    {
      hide *;
      var c := CivilOf(day);
      day := FirstOf(12 * c.year + c.month) + date - 1;
    }

    /** setUTCMonth(month) and setUTCMonth(month, date), where the month may lie outside 0..11. */
    method SetMonth(month: int, date: Option<int>)
      modifies this
      ensures var c := CivilOf(old(day));
              day == FirstOf(12 * c.year + month) + (if date.Some? then date.value else c.date) - 1
    {
      hide *;
      var c := CivilOf(day);
      day := FirstOf(12 * c.year + month) + (if date.Some? then date.value else c.date) - 1;
    }
  }

  /** The day `months` months after a date, in shorter months the last one. */
  function AnniversaryOf(start: Civil, months: int): int {
    var m := MonthIndex(start) + months;
    FirstOf(m) + Min(start.date, LengthOf(m)) - 1
  }

  /** A date given by its month and the day in it. */
  lemma DateInMonth(m: int, date: int)
    requires 1 <= date <= LengthOf(m)
    ensures var c := CivilOf(FirstOf(m) + date - 1);
            12 * c.year + c.month == m && c.date == date
  {
    MonthParts(m);
    var c := Civil(m / 12, m % 12, date);
    assert Valid(c) && DayOf(c) == FirstOf(m) + date - 1;
    hide *;
    DatesAreDays(c);
  }

  lemma MonthParts(m: int)
    ensures 12 * (m / 12) + m % 12 == m && 0 <= m % 12 < 12
  {
  }

  /** setUTCDate(1), then setUTCMonth(getUTCMonth() + months). */
  method MoveToFirst(result: UtcDate, months: int)
    modifies result
    ensures var c := CivilOf(old(result.day));
            result.day == FirstOf(12 * c.year + c.month + months)
  {
    hide *;
    ghost var c := CivilOf(result.day);
    result.SetDate(1);
    DateInMonth(12 * c.year + c.month, 1);
    result.SetMonth(CivilOf(result.day).month + months, None);
  }

  /** The last date of the month that starts at this day: day 0 of the next month. */
  method LastDate(first: int, ghost m: int) returns (date: int)
    requires first == FirstOf(m)
    ensures date == LengthOf(m)
  {
    hide *;
    var endOfMonth := new UtcDate(first);
    DateInMonth(m, 1);
    endOfMonth.SetMonth(CivilOf(endOfMonth.day).month + 1, Some(0));
    MonthsAdjoin(m);
    DateInMonth(m, LengthOf(m));
    date := CivilOf(endOfMonth.day).date;
  }

  /** anniversary(): the first of the target month, its last date, then the clamped date. */
  method Anniversary(start: UtcDate, months: int) returns (time: int)
    ensures time == AnniversaryOf(CivilOf(start.day), months)
  {
    hide CivilOf, FirstOf, LengthOf, MonthLength, Valid;
    var result := new UtcDate(start.day);
    ghost var target := MonthIndex(CivilOf(start.day)) + months;
    MoveToFirst(result, months);
    var last := LastDate(result.day, target);
    DateInMonth(target, 1);
    result.SetDate(Min(CivilOf(start.day).date, last));
    time := result.day;
  }

  // ---- durations

  datatype Duration = Duration(months: int, days: int, totalDays: int)

  /** The difference of the month numbers, less one if that anniversary lies after the end. */
  method WholeMonths(start: UtcDate, end: UtcDate) returns (months: int)
    requires start.day <= end.day
    ensures months >= 0
    ensures AnniversaryOf(CivilOf(start.day), months) <= end.day < AnniversaryOf(CivilOf(start.day), months + 1)
  {
    hide *;
    var s, e := CivilOf(start.day), CivilOf(end.day);
    MonthsReach(s, e);
    months := (e.year - s.year) * 12 + e.month - s.month;
    ghost var first := months;
    var reached := Anniversary(start, months);
    if reached > end.day {
      months := months - 1;
      assert months + 1 == first;
    }
  }

  /** calculateContractDuration on two dates; None for an end before the start. */
  method CalculateContractDuration(startDay: int, endDay: int) returns (r: Option<Duration>)
    ensures r.None? <==> endDay < startDay
    ensures r.Some? ==> Decomposes(CivilOf(startDay), endDay, r.value)
  {
    hide *;
    if endDay < startDay { return None; }
    var start := new UtcDate(startDay);
    var end := new UtcDate(endDay);
    var months := WholeMonths(start, end);
    var lastReached := Anniversary(start, months);
    Decomposed(CivilOf(startDay), endDay, months);
    r := Some(Duration(months, end.day - lastReached, end.day - start.day));
  }

  lemma Decomposed(s: Civil, end: int, months: int)
    requires months >= 0 && AnniversaryOf(s, months) <= end < AnniversaryOf(s, months + 1)
    ensures Decomposes(s, end, Duration(months, end - AnniversaryOf(s, months), end - DayOf(s)))
  {
    hide AnniversaryOf, DayOf;
  }

  /** The duration is the largest whole number of months after the start that has passed, and the days since. */
  predicate Decomposes(start: Civil, end: int, d: Duration) {
    && d.months >= 0 && AnniversaryOf(start, d.months) <= end < AnniversaryOf(start, d.months + 1)
    && AnniversaryOf(start, d.months) + d.days == end && d.days >= 0 && DayOf(start) + d.totalDays == end
  }

  /** Later anniversaries are later days. */
  lemma AnniversariesOrdered(start: Civil, a: int, b: int)
    requires Valid(start) && a < b
    ensures AnniversaryOf(start, a) < AnniversaryOf(start, b)
  {
    hide FirstOf, LengthOf, MonthLength;
    MonthsOrdered(MonthIndex(start) + a, MonthIndex(start) + b);
  }

  lemma Clamped(start: Civil, months: int)
    requires Valid(start)
    ensures var m := MonthIndex(start) + months;
            var date := if start.date <= LengthOf(m) then start.date else LengthOf(m);
            1 <= date <= LengthOf(m) && AnniversaryOf(start, months) == FirstOf(m) + date - 1
  {
    hide FirstOf, LengthOf, MonthLength, MonthIndex;
  }

  lemma IndexIs(c: Civil)
    ensures MonthIndex(c) == 12 * c.year + c.month
  {
  }

  lemma WithinMonth(c: Civil)
    requires Valid(c)
    ensures 1 <= c.date <= LengthOf(MonthIndex(c)) && DayOf(c) == FirstOf(MonthIndex(c)) + c.date - 1
  {
    IndexParts(c);
    hide FirstOf, LengthOf, MonthLength;
  }

  /** The difference of the month numbers is right, or one too many. */
  lemma MonthsReach(s: Civil, e: Civil)
    requires Valid(s) && Valid(e) && DayOf(s) <= DayOf(e)
    ensures var months := (e.year - s.year) * 12 + e.month - s.month;
            && AnniversaryOf(s, 0) == DayOf(s) && 0 <= months
            && DayOf(e) < AnniversaryOf(s, months + 1)
            && (AnniversaryOf(s, months) > DayOf(e) ==> months > 0 && AnniversaryOf(s, months - 1) <= DayOf(e))
  {
    hide *;
    IndexIs(s);
    IndexIs(e);
    var from, to := MonthIndex(s), MonthIndex(e);
    WithinMonth(s);
    WithinMonth(e);
    if to < from { MonthsOrdered(to, from); }
    MonthsAdjoin(to);
    MonthsAdjoin(to - 1);
    Clamped(s, 0);
    Clamped(s, to - from);
    Clamped(s, to - from + 1);
    Clamped(s, to - from - 1);
  }

  /** The decomposition is unique. */
  lemma DurationIsUnique(start: Civil, end: int, d: Duration, other: Duration)
    requires Valid(start) && Decomposes(start, end, d) && Decomposes(start, end, other)
    ensures d == other
  {
    hide AnniversaryOf, DayOf, Valid;
    if d.months < other.months && d.months + 1 < other.months {
      AnniversariesOrdered(start, d.months + 1, other.months);
    } else if other.months < d.months && other.months + 1 < d.months {
      AnniversariesOrdered(start, other.months + 1, d.months);
    }
  }

  /** Adding the months and then the days leads back to the end, and fewer than a month of days is left over. */
  lemma DaysStayBelowAMonth(start: Civil, end: int, d: Duration)
    requires Valid(start) && Decomposes(start, end, d)
    ensures d.days <= 30
  {
    hide AnniversaryOf, DayOf, Valid;
    OneMonthMore(start, d.months);
  }

  lemma OneMonthMore(start: Civil, months: int)
    requires Valid(start)
    ensures AnniversaryOf(start, months + 1) - AnniversaryOf(start, months) <= 31
  {
    hide FirstOf, LengthOf, MonthLength;
    var m := MonthIndex(start) + months;
    MonthsAdjoin(m);
    assert AnniversaryOf(start, months + 1) == FirstOf(m + 1) + Min(start.date, LengthOf(m + 1)) - 1;
  }

  // ---- the calendar and the anniversary, on dates alone

  /** The lengths of the months of a Gregorian year. */
  function Lengths(y: int): seq<int> {
    [31, if y % 4 == 0 && (y % 100 != 0 || y % 400 == 0) then 29 else 28, 31, 30, 31, 30, 31, 31, 30, 31, 30, 31]
  }

  lemma LengthIs(y: int, m: int)
    requires 0 <= m < 12
    ensures MonthLength(y, m) == Lengths(y)[m]
  {
  }

  /** The date after a date. */
  function DayAfter(c: Civil): Civil
    requires 0 <= c.month < 12
  {
    if c.date < Lengths(c.year)[c.month] then c.(date := c.date + 1)
    else if c.month < 11 then Civil(c.year, c.month + 1, 1)
    else Civil(c.year + 1, 0, 1)
  }

  /** Days are numbered one after the other through the Gregorian calendar, from 1 January 1970. */
  lemma DaysAreNumbered(c: Civil)
    requires Valid(c)
    ensures 1 <= c.date <= Lengths(c.year)[c.month] && Valid(DayAfter(c))
    ensures DayOf(DayAfter(c)) == DayOf(c) + 1 && DayOf(Civil(1970, 0, 1)) == 0
  {
    LengthIs(c.year, c.month);
    EpochIs();
    IndexParts(c);
    if c.date == Lengths(c.year)[c.month] {
      MonthsAdjoin(MonthIndex(c));
      assert MonthIndex(DayAfter(c)) == MonthIndex(c) + 1;
    } else {
      assert MonthIndex(DayAfter(c)) == MonthIndex(c);
    }
  }

  lemma YearStarts(y: int)
    ensures DayOf(Civil(y, 0, 1)) == DayFromYear(y)
  {
    assert 12 * y / 12 == y && 12 * y % 12 == 0;
  }

  lemma EpochIs()
    ensures DayOf(Civil(1970, 0, 1)) == 0
  {
    assert DayFromYear(1970) == 0;
    hide DayOf, DayFromYear;
    YearStarts(1970);
  }

  lemma LengthOfDate(a: Civil)
    requires Valid(a)
    ensures 0 <= a.month < 12 && LengthOf(12 * a.year + a.month) == Lengths(a.year)[a.month]
  {
    IndexParts(a);
    LengthIs(a.year, a.month);
    hide MonthLength, LengthOf, Lengths;
  }

  /** An anniversary has the month that lies `months` later, and the date of the start or, if that is shorter, the month's last. */
  lemma AnniversaryIs(start: Civil, months: int)
    requires Valid(start)
    ensures var a := CivilOf(AnniversaryOf(start, months));
            && 12 * a.year + a.month == 12 * start.year + start.month + months
            && a.date == (if start.date <= Lengths(a.year)[a.month] then start.date else Lengths(a.year)[a.month])
  {
    hide *;
    IndexIs(start);
    var m := MonthIndex(start) + months;
    Clamped(start, months);
    DateInMonth(m, if start.date <= LengthOf(m) then start.date else LengthOf(m));
    LengthOfDate(CivilOf(AnniversaryOf(start, months)));
  }

  // ---- sourceDate

  predicate Digit(c: char) { '0' <= c <= '9' }

  function DigitValue(c: char): int
    requires Digit(c)
  {
    c as int - '0' as int
  }

  function DigitOf(n: int): (c: char)
    requires 0 <= n < 10
    ensures Digit(c) && DigitValue(c) == n
  {
    (n + '0' as int) as char
  }

  /** The shape of the regular expression. */
  predicate Shaped(s: string) {
    && |s| == 10 && s[4] == '-' && s[7] == '-'
    && Digit(s[0]) && Digit(s[1]) && Digit(s[2]) && Digit(s[3])
    && Digit(s[5]) && Digit(s[6]) && Digit(s[8]) && Digit(s[9])
  }

  function Read(s: string): Civil
    requires Shaped(s)
  {
    Civil(1000 * DigitValue(s[0]) + 100 * DigitValue(s[1]) + 10 * DigitValue(s[2]) + DigitValue(s[3]),
          10 * DigitValue(s[5]) + DigitValue(s[6]) - 1, 10 * DigitValue(s[8]) + DigitValue(s[9]))
  }

  /** sourceDate: a string of the right shape that names an existing date. */
  function SourceDate(s: Option<string>): Option<int> {
    if s.None? || !Shaped(s.value) || !Valid(Read(s.value)) then None else Some(DayOf(Read(s.value)))
  }

  /** toISOString().slice(0, 10) for the years 0 to 9999. */
  function Format(c: Civil): string
    requires Valid(c) && 0 <= c.year <= 9999
  {
    [DigitOf(c.year / 1000), DigitOf(c.year / 100 % 10), DigitOf(c.year / 10 % 10), DigitOf(c.year % 10), '-',
     DigitOf((c.month + 1) / 10), DigitOf((c.month + 1) % 10), '-', DigitOf(c.date / 10), DigitOf(c.date % 10)]
  }

  lemma Ten(q: int, r: int)
    requires 0 <= r < 10
    ensures (10 * q + r) / 10 == q && (10 * q + r) % 10 == r
  {
  }

  lemma Tens(n: int)
    requires 0 <= n
    ensures n / 10 / 10 == n / 100 && n / 100 / 10 == n / 1000
  {
  }

  /** The decimal digits of a year put together again. */
  lemma DigitsOf(n: int)
    requires 0 <= n <= 9999
    ensures 1000 * (n / 1000) + 100 * (n / 100 % 10) + 10 * (n / 10 % 10) + n % 10 == n
    ensures 0 <= n / 1000 < 10
  {
    Tens(n);
    var a, b := n / 10, n / 100;
    assert n == 10 * a + n % 10 && a == 10 * b + a % 10 && b == 10 * (n / 1000) + b % 10;
  }

  lemma SameDigits(a: int, b: int, c: int, d: int)
    requires 0 <= a < 10 && 0 <= b < 10 && 0 <= c < 10 && 0 <= d < 10
    ensures var n := 1000 * a + 100 * b + 10 * c + d;
            n / 1000 == a && n / 100 % 10 == b && n / 10 % 10 == c && n % 10 == d
  {
    var n := 1000 * a + 100 * b + 10 * c + d;
    Tens(n);
    assert n == 10 * (100 * a + 10 * b + c) + d;
    Ten(100 * a + 10 * b + c, d);
    Ten(10 * a + b, c);
    Ten(a, b);
  }

  /** A format is YYYY-MM-DD in decimal digits, where January is 01. */
  lemma FormatIs(c: Civil)
    requires Valid(c) && 0 <= c.year <= 9999
    ensures var s := Format(c);
            && |s| == 10 && s[4] == '-' && s[7] == '-'
            && (forall i | 0 <= i < 10 && i != 4 && i != 7 :: '0' <= s[i] <= '9')
            && c.year == 1000 * (s[0] - '0') as int + 100 * (s[1] - '0') as int + 10 * (s[2] - '0') as int + (s[3] - '0') as int
            && c.month + 1 == 10 * (s[5] - '0') as int + (s[6] - '0') as int
            && c.date == 10 * (s[8] - '0') as int + (s[9] - '0') as int
  {
    DigitsOf(c.year);
    hide MonthLength;
    assert c.month + 1 == 10 * ((c.month + 1) / 10) + (c.month + 1) % 10;
    assert c.date == 10 * (c.date / 10) + c.date % 10;
  }

  /** Every date of the years 0 to 9999 is read back from its format. */
  lemma DatesRoundTrip(c: Civil)
    requires Valid(c) && 0 <= c.year <= 9999
    ensures SourceDate(Some(Format(c))) == Some(DayOf(c))
  {
    DigitsOf(c.year);
    var s := Format(c);
    hide DayOf, MonthLength;
    assert c.month + 1 == 10 * ((c.month + 1) / 10) + (c.month + 1) % 10;
    assert c.date == 10 * (c.date / 10) + c.date % 10;
    assert Read(s) == c;
  }

  lemma YearDigits(s: string)
    requires Shaped(s)
    ensures var y := Read(s).year;
            && 0 <= y <= 9999 && y / 1000 == DigitValue(s[0]) && y / 100 % 10 == DigitValue(s[1])
            && y / 10 % 10 == DigitValue(s[2]) && y % 10 == DigitValue(s[3])
  {
    var a, b, c, d := DigitValue(s[0]), DigitValue(s[1]), DigitValue(s[2]), DigitValue(s[3]);
    assert Read(s).year == 1000 * a + 100 * b + 10 * c + d;
    hide DigitValue, Read;
    SameDigits(a, b, c, d);
  }

  lemma MonthAndDateDigits(s: string)
    requires Shaped(s)
    ensures var c := Read(s);
            && (c.month + 1) / 10 == DigitValue(s[5]) && (c.month + 1) % 10 == DigitValue(s[6])
            && c.date / 10 == DigitValue(s[8]) && c.date % 10 == DigitValue(s[9])
  {
    var a, b, c, d := DigitValue(s[5]), DigitValue(s[6]), DigitValue(s[8]), DigitValue(s[9]);
    assert Read(s).month + 1 == 10 * a + b && Read(s).date == 10 * c + d;
    hide DigitValue, Read;
    Ten(a, b);
    Ten(c, d);
  }

  /** Only strings that are the format of an existing date are accepted. */
  lemma AcceptedRoundTrips(s: string)
    requires SourceDate(Some(s)).Some?
    ensures var c := CivilOf(SourceDate(Some(s)).value);
            0 <= c.year <= 9999 && Format(c) == s
  {
    DatesAreDays(Read(s));
    YearDigits(s);
    MonthAndDateDigits(s);
    DigitsBack(s);
    hide CivilOf, DayOf, Read, DigitValue, MonthLength;
    assert Format(Read(s)) == s;
  }

  lemma DigitsBack(s: string)
    requires Shaped(s)
    ensures forall i | 0 <= i < 10 && i != 4 && i != 7 :: Digit(s[i]) && DigitOf(DigitValue(s[i])) == s[i]
  {
  }
}
