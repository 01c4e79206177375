/** The two module-level helpers of the Redis settings file: `scores_getter`, which reads
    the six engagement counts out of a stats dict, and `parse_statistics`, which folds a
    dict of per-day counts into weekly, monthly and yearly totals relative to today. */
module Statistics {

  import opened Wrappers
  import opened Text
  import opened RedisSemantics
  import opened FeedReads

  // ------------------------------------------------------------------ scores_getter

  /** `stats.get(key, 0)`. */
  function CountOf(stats: map<string, int>, key: string): int
  {
    if key in stats then stats[key] else 0
  }

  /** scores_getter: comments, reposts, quotes, likes, views and bookmarks, each 0 when
      absent. */
  function ScoresGetter(stats: map<string, int>): (r: (int, int, int, int, int, int))
    ensures r.0 == CountOf(stats, EngagementKeys[0]) && r.1 == CountOf(stats, EngagementKeys[1])
    ensures r.2 == CountOf(stats, EngagementKeys[2]) && r.3 == CountOf(stats, EngagementKeys[3])
    ensures r.4 == CountOf(stats, EngagementKeys[4]) && r.5 == CountOf(stats, EngagementKeys[5])
  {
    (CountOf(stats, "comments"), CountOf(stats, "reposts"), CountOf(stats, "quotes"),
     CountOf(stats, "likes"), CountOf(stats, "views"), CountOf(stats, "bookmarks"))
  }

  /** The engagement get_engagement answers leaves zero counts out; reading it back through
      scores_getter restores them, giving every set's size. */
  lemma ScoresOfEngagement(db: Db, entityType: string, entityId: string, member: Option<string>)
    requires EngagementReadable(db, entityType, entityId)
    ensures
      var r := ScoresGetter(StoredEngagement(db, entityType, entityId, member).counts);
      && r.0 == |EntitySet(db, entityType, entityId, "comments").value|
      && r.1 == |EntitySet(db, entityType, entityId, "reposts").value|
      && r.2 == |EntitySet(db, entityType, entityId, "quotes").value|
      && r.3 == |EntitySet(db, entityType, entityId, "likes").value|
      && r.4 == |EntitySet(db, entityType, entityId, "views").value|
      && r.5 == |EntitySet(db, entityType, entityId, "bookmarks").value|
  {
    var counts := StoredEngagement(db, entityType, entityId, member).counts;
    forall i | 0 <= i < 6
      ensures CountOf(counts, EngagementKeys[i]) == |EntitySet(db, entityType, entityId, EngagementKeys[i]).value|
    {
      assert EngagementKeys[i] in EngagementKeys;
    }
  }

  // ------------------------------------------------------------------ dates

  /** A proleptic Gregorian date, as Python's `datetime.date` holds it. */
  datatype Date = Date(year: int, month: int, day: int)

  predicate IsLeap(year: int)
  {
    year % 4 == 0 && (year % 100 != 0 || year % 400 == 0)
  }

  function DaysInMonth(year: int, month: int): int
    requires 1 <= month <= 12
  {
    if month == 2 then (if IsLeap(year) then 29 else 28)
    else if month == 4 || month == 6 || month == 9 || month == 11 then 30
    else 31
  }

  /** A date `datetime.date` accepts: years 1 to 9999. */
  predicate ValidDate(d: Date)
  {
    1 <= d.year <= 9999 && 1 <= d.month <= 12 && 1 <= d.day <= DaysInMonth(d.year, d.month)
  }

  const FirstDate: Date := Date(1, 1, 1)
  const LastDate: Date := Date(9999, 12, 31)
  const MaxOrdinal: int := 3652059

  function DaysBeforeYear(year: int): int
    requires year >= 1
  {
    var y := year - 1;
    y * 365 + y / 4 - y / 100 + y / 400
  }

  const DaysBeforeMonthTable: seq<int> := [0, 31, 59, 90, 120, 151, 181, 212, 243, 273, 304, 334]

  function DaysBeforeMonth(year: int, month: int): int
    requires 1 <= month <= 12
  {
    DaysBeforeMonthTable[month - 1] + if month > 2 && IsLeap(year) then 1 else 0
  }

  /** `date.toordinal()`: 0001-01-01 is day 1. */
  function Ordinal(d: Date): int
    requires ValidDate(d)
  {
    DaysBeforeYear(d.year) + DaysBeforeMonth(d.year, d.month) + d.day
  }

  /** `date.weekday()`: Monday is 0, Sunday 6. */
  function Weekday(d: Date): (r: int)
    requires ValidDate(d)
    ensures 0 <= r < 7
  {
    WeekdayOf(Ordinal(d))
  }

  /** The weekday of the day with ordinal `o`: day 1 was a Monday. */
  function WeekdayOf(o: int): (r: int)
    ensures 0 <= r < 7
  {
    (o + 6) % 7
  }

  /** `d1 > d2` on dates. */
  predicate After(d1: Date, d2: Date)
  {
    d1.year > d2.year || (d1.year == d2.year && (d1.month > d2.month || (d1.month == d2.month && d1.day > d2.day)))
  }

  /** A year has 366 days exactly when it is a leap year. */
  lemma YearLength(year: int)
    requires year >= 1
    ensures DaysBeforeYear(year + 1) == DaysBeforeYear(year) + DaysBeforeMonth(year, 12) + 31
  {
    var y := year - 1;
    assert (y + 1) / 4 == y / 4 + if year % 4 == 0 then 1 else 0;
    assert (y + 1) / 100 == y / 100 + if year % 100 == 0 then 1 else 0;
    assert (y + 1) / 400 == y / 400 + if year % 400 == 0 then 1 else 0;
  }

  lemma OrdinalBounds(d: Date)
    requires ValidDate(d)
    ensures 1 <= Ordinal(d) <= MaxOrdinal
    ensures Ordinal(d) == MaxOrdinal ==> d == LastDate
  {
    if d.year < 9999 {
      DaysBeforeYearMonotone(d.year + 1, 9999);
      YearLength(d.year);
    }
  }

  lemma DaysBeforeYearMonotone(a: int, b: int)
    requires 1 <= a <= b
    ensures DaysBeforeYear(a) <= DaysBeforeYear(b)
  {
    var x, y := a - 1, b - 1;
    assert x / 4 <= y / 4 && x / 100 <= y / 100 && x / 400 <= y / 400;
    assert y / 100 - x / 100 <= (y - x) / 100 + 1;
    assert y / 100 - x / 100 <= (y - x) * 365 / 100 + 1;
  }

  /** `d + timedelta(days=1)`. */
  function NextDay(d: Date): (r: Date)
    requires ValidDate(d) && d != LastDate
    ensures ValidDate(r) && Ordinal(r) == Ordinal(d) + 1
  {
    if d.day < DaysInMonth(d.year, d.month) then Date(d.year, d.month, d.day + 1)
    else if d.month < 12 then Date(d.year, d.month + 1, 1)
    else
      YearLength(d.year);
      Date(d.year + 1, 1, 1)
  }

  /** `d - timedelta(days=1)`. */
  function PrevDay(d: Date): (r: Date)
    requires ValidDate(d) && d != FirstDate
    ensures ValidDate(r) && Ordinal(r) == Ordinal(d) - 1
  {
    if d.day > 1 then Date(d.year, d.month, d.day - 1)
    else if d.month > 1 then Date(d.year, d.month - 1, DaysInMonth(d.year, d.month - 1))
    else
      YearLength(d.year - 1);
      Date(d.year - 1, 12, 31)
  }

  /** `d + timedelta(days=n)`. */
  function AddDays(d: Date, n: nat): (r: Date)
    requires ValidDate(d) && Ordinal(d) + n <= MaxOrdinal
    ensures ValidDate(r) && Ordinal(r) == Ordinal(d) + n
    decreases n
  {
    if n == 0 then d
    else
      OrdinalBounds(d);
      AddDays(NextDay(d), n - 1)
  }

  /** `d - timedelta(days=n)`. */
  function SubDays(d: Date, n: nat): (r: Date)
    requires ValidDate(d) && Ordinal(d) - n >= 1
    ensures ValidDate(r) && Ordinal(r) == Ordinal(d) - n
    decreases n
  {
    if n == 0 then d
    else
      assert d != FirstDate by { assert Ordinal(FirstDate) == 1; }
      SubDays(PrevDay(d), n - 1)
  }

  // ------------------------------------------------------------------ strftime and strptime

  function Pad2(n: int): (s: string)
    requires 0 <= n < 100
    ensures |s| == 2 && AllDigits(s)
  {
    [DigitChar(n / 10), DigitChar(n % 10)]
  }

  /** `strftime("%Y-%m-%d")`. */
  function FormatDate(d: Date): (s: string)
    requires ValidDate(d)
    ensures |s| == 10
  {
    FourDigits(d.year) + "-" + Pad2(d.month) + "-" + Pad2(d.day)
  }

  /** `strftime("%a")` in the C locale, by weekday. */
  const DayNames: seq<string> := ["Mon", "Tue", "Wed", "Thu", "Fri", "Sat", "Sun"]

  const MonthNames: seq<string> := ["Jan", "Feb", "Mar", "Apr", "May", "Jun", "Jul", "Aug", "Sep", "Oct", "Nov", "Dec"]

  /** strptime's `%m` field, `1[0-2]|0[1-9]|[1-9]`, tried in that order: the month and the
      text after it. (When the first alternative matches but no '-' follows, no later
      alternative can be followed by '-' either, so trying them in order loses nothing.) */
  function MonthField(s: string): (r: Option<(int, string)>)
    ensures r.Some? ==> 1 <= r.value.0 <= 12 && |r.value.1| < |s|
  {
    if |s| >= 2 && s[0] == '1' && '0' <= s[1] <= '2' then Some((10 + DigitValue(s[1]), s[2..]))
    else if |s| >= 2 && s[0] == '0' && '1' <= s[1] <= '9' then Some((DigitValue(s[1]), s[2..]))
    else if |s| >= 1 && '1' <= s[0] <= '9' then Some((DigitValue(s[0]), s[1..]))
    else None
  }

  /** strptime's `%d` field, `3[01]|[12]\d|0[1-9]|[1-9]| [1-9]`: the first alternative that
      matches is taken, since nothing follows it in the pattern. */
  function DayField(s: string): (r: Option<(int, string)>)
    ensures r.Some? ==> 1 <= r.value.0 <= 31 && |r.value.1| < |s|
  {
    if |s| >= 2 && s[0] == '3' && '0' <= s[1] <= '1' then Some((30 + DigitValue(s[1]), s[2..]))
    else if |s| >= 2 && '1' <= s[0] <= '2' && IsAsciiDigit(s[1]) then Some((10 * DigitValue(s[0]) + DigitValue(s[1]), s[2..]))
    else if |s| >= 2 && s[0] == '0' && '1' <= s[1] <= '9' then Some((DigitValue(s[1]), s[2..]))
    else if |s| >= 1 && '1' <= s[0] <= '9' then Some((DigitValue(s[0]), s[1..]))
    else if |s| >= 2 && s[0] == ' ' && '1' <= s[1] <= '9' then Some((DigitValue(s[1]), s[2..]))
    else None
  }

  /** `datetime.strptime(s, "%Y-%m-%d").date()`: four digits, '-', the month, '-', the day,
      nothing after, and a date that exists; None where Python raises ValueError. */
  function ParseDate(s: string): (r: Option<Date>)
    ensures r.Some? ==> ValidDate(r.value)
  {
    if |s| < 8 || !AllDigits(s[..4]) || s[4] != '-' then None
    else match MonthField(s[5..])
      case None => None
      case Some((month, rest)) =>
        if |rest| == 0 || rest[0] != '-' then None
        else match DayField(rest[1..])
          case None => None
          case Some((day, tail)) =>
            var d := Date(ParseDigits(s[..4]), month, day);
            if tail == [] && ValidDate(d) then Some(d) else None
  }

  lemma ParseFourDigits(n: int)
    requires 0 <= n < 10000
    ensures ParseDigits(FourDigits(n)) == n
  {
    var s := FourDigits(n);
    assert s[..3][..2] == s[..2] && s[..2][..1] == s[..1] && s[..1][..0] == [];
    assert ParseDigits(s[..1]) == n / 1000;
    assert ParseDigits(s[..2]) == 10 * (n / 1000) + n / 100 % 10 == n / 100;
    assert ParseDigits(s[..3]) == 10 * (n / 100) + n / 10 % 10 == n / 10;
  }

  lemma MonthFieldPad2(m: int, rest: string)
    requires 1 <= m <= 12
    ensures MonthField(Pad2(m) + rest) == Some((m, rest))
  {
    var t := Pad2(m) + rest;
    assert t[0] == DigitChar(m / 10) && t[1] == DigitChar(m % 10) && t[2..] == rest;
  }

  lemma DayFieldPad2(day: int)
    requires 1 <= day <= 31
    ensures DayField(Pad2(day)) == Some((day, []))
  {
  }

  /** Every date strftime writes, strptime reads back. */
  lemma ParseFormatDate(d: Date)
    requires ValidDate(d)
    ensures ParseDate(FormatDate(d)) == Some(d)
  {
    var s := FormatDate(d);
    assert s[..4] == FourDigits(d.year);
    ParseFourDigits(d.year);
    assert s[5..] == Pad2(d.month) + ("-" + Pad2(d.day));
    MonthFieldPad2(d.month, "-" + Pad2(d.day));
    DayFieldPad2(d.day);
  }

  // ------------------------------------------------------------------ parse_statistics

  datatype Stats = Stats(weekly: seq<(string, int)>, monthly: seq<(string, int)>, yearly: seq<(string, int)>, total: int)

  /** `statistics.get(key, 0)` on a dict given as its items in order. */
  function CountAt(statistics: seq<(string, int)>, key: string): int
  {
    if statistics == [] then 0
    else if statistics[0].0 == key then statistics[0].1
    else CountAt(statistics[1..], key)
  }

  /** The entries the main loop adds up: those whose key parses as a date that is not after
      today, with that date, in order. */
  function Counted(statistics: seq<(string, int)>, today: Date): (cs: seq<(Date, int)>)
    ensures |cs| <= |statistics|
    ensures forall i :: 0 <= i < |cs| ==> ValidDate(cs[i].0) && !After(cs[i].0, today)
    decreases |statistics|
  {
    if statistics == [] then []
    else
      var init := Counted(statistics[..|statistics| - 1], today);
      var (key, count) := statistics[|statistics| - 1];
      match ParseDate(key)
      case Some(d) => if After(d, today) then init else init + [(d, count)]
      case None => init
  }

  function SumCounts(cs: seq<(Date, int)>): int
  {
    if cs == [] then 0 else SumCounts(cs[..|cs| - 1]) + cs[|cs| - 1].1
  }

  /** What the loop adds to one month of the current year. */
  function MonthTotal(cs: seq<(Date, int)>, year: int, month: int): int
  {
    if cs == [] then 0
    else MonthTotal(cs[..|cs| - 1], year, month)
         + if cs[|cs| - 1].0.year == year && cs[|cs| - 1].0.month == month then cs[|cs| - 1].1 else 0
  }

  /** What the loop adds to one year, keyed by `str(year)`. */
  function YearSum(cs: seq<(Date, int)>, key: string): int
  {
    if cs == [] then 0
    else YearSum(cs[..|cs| - 1], key) + if FormatInt(cs[|cs| - 1].0.year) == key then cs[|cs| - 1].1 else 0
  }

  function Keys(es: seq<(string, int)>): seq<string>
  {
    seq(|es|, i requires 0 <= i < |es| => es[i].0)
  }

  function SumValues(es: seq<(string, int)>): int
  {
    if es == [] then 0 else SumValues(es[..|es| - 1]) + es[|es| - 1].1
  }

  /** `d[key] = d.get(key, 0) + n` on a dict given as its items in insertion order: an
      existing key keeps its place, a new one goes last. */
  function Bump(es: seq<(string, int)>, key: string, n: int): (r: seq<(string, int)>)
    ensures key in Keys(es) ==> Keys(r) == Keys(es)
    ensures key !in Keys(es) ==> Keys(r) == Keys(es) + [key]
  {
    if es == [] then [(key, n)]
    else if es[0].0 == key then
      assert Keys(es)[0] == key;
      [(key, es[0].1 + n)] + es[1..]
    else
      var r := [es[0]] + Bump(es[1..], key, n);
      assert Keys(es) == [es[0].0] + Keys(es[1..]);
      assert Keys(r) == [es[0].0] + Keys(Bump(es[1..], key, n));
      r
  }

  /** The yearly dict after the loop has seen `cs`. */
  function YearTotals(cs: seq<(Date, int)>): seq<(string, int)>
  {
    if cs == [] then [] else Bump(YearTotals(cs[..|cs| - 1]), FormatInt(cs[|cs| - 1].0.year), cs[|cs| - 1].1)
  }

  /** `today - timedelta(days=today.weekday())`: the Monday of today's week. Day 1 is a
      Monday, so it always exists. */
  function StartOfWeek(today: Date): (r: Date)
    requires ValidDate(today)
    ensures ValidDate(r) && Ordinal(r) == Ordinal(today) - Weekday(today)
  {
    OrdinalBounds(today);
    MondayExists(Ordinal(today));
    SubDays(today, Weekday(today))
  }

  /** Day 1 is a Monday, so the Monday of a day's week is never before day 1. */
  lemma MondayExists(o: int)
    requires o >= 1
    ensures o - WeekdayOf(o) >= 1
  {
  }

  /** The date of the week's day `i`: Monday of today's week plus `i` days. */
  function WeekDate(today: Date, i: nat): (r: Date)
    requires ValidDate(today) && WeekFits(today) && i < 7
    ensures ValidDate(r) && Ordinal(r) == Ordinal(today) - Weekday(today) + i
  {
    AddDays(StartOfWeek(today), i)
  }

  /** Today's week ends by 9999-12-31, so that all seven of its days exist. */
  predicate WeekFits(today: Date)
    requires ValidDate(today)
  {
    Ordinal(today) - Weekday(today) + 6 <= MaxOrdinal
  }

  /** The counts of a window, one entry per day of today's week, Monday first. */
  ghost predicate IsWeek(weekly: seq<(string, int)>, statistics: seq<(string, int)>, today: Date)
    requires ValidDate(today) && WeekFits(today)
  {
    && |weekly| == 7
    && forall i :: 0 <= i < 7 ==>
         weekly[i] == (DayNames[Weekday(WeekDate(today, i))], CountAt(statistics, FormatDate(WeekDate(today, i))))
  }

  /** The twelve months, January first, each with what the current year's counted entries
      add to it. */
  ghost predicate IsMonthly(monthly: seq<(string, int)>, cs: seq<(Date, int)>, year: int)
  {
    && |monthly| == 12
    && forall m :: 0 <= m < 12 ==> monthly[m] == (MonthNames[m], MonthTotal(cs, year, m + 1))
  }

  /** parse_statistics. `today` is the caller's clock reading, in UTC. */
  method ParseStatistics(statistics: seq<(string, int)>, today: Date) returns (r: Stats)
    requires ValidDate(today) && WeekFits(today)
    ensures IsWeek(r.weekly, statistics, today)
    ensures IsMonthly(r.monthly, Counted(statistics, today), today.year)
    ensures r.yearly == YearTotals(Counted(statistics, today))
    ensures r.total == SumCounts(Counted(statistics, today))
  {
    var weekly := WeeklyTotals(statistics, today);
    var monthly, yearly, total := Totals(statistics, today);
    r := Stats(weekly, monthly, yearly, total);
  }

  /** The loop over the seven days of the week. */
  method WeeklyTotals(statistics: seq<(string, int)>, today: Date) returns (weekly: seq<(string, int)>)
    requires ValidDate(today) && WeekFits(today)
    ensures IsWeek(weekly, statistics, today)
  {
    var startOfWeek := StartOfWeek(today);
    weekly := [];
    for i := 0 to 7
      invariant |weekly| == i
      invariant forall j :: 0 <= j < i ==>
                  weekly[j] == (DayNames[Weekday(WeekDate(today, j))], CountAt(statistics, FormatDate(WeekDate(today, j))))
    {
      var weekDay := AddDays(startOfWeek, i);
      weekly := weekly + [(DayNames[Weekday(weekDay)], CountAt(statistics, FormatDate(weekDay)))];
    }
  }

  /** The loop over the statistics' items. */
  method Totals(statistics: seq<(string, int)>, today: Date)
    returns (monthly: seq<(string, int)>, yearly: seq<(string, int)>, total: int)
    ensures IsMonthly(monthly, Counted(statistics, today), today.year)
    ensures yearly == YearTotals(Counted(statistics, today))
    ensures total == SumCounts(Counted(statistics, today))
  {
    monthly := seq(12, m requires 0 <= m < 12 => (MonthNames[m], 0));
    yearly := [];
    total := 0;
    for i := 0 to |statistics|
      invariant IsMonthly(monthly, Counted(statistics[..i], today), today.year)
      invariant yearly == YearTotals(Counted(statistics[..i], today))
      invariant total == SumCounts(Counted(statistics[..i], today))
    {
      CountedStep(statistics, i, today);
      monthly, yearly, total := Tally(monthly, yearly, total, statistics[i], today, Counted(statistics[..i], today));
    }
    assert statistics[..|statistics|] == statistics;
  }

  /** The entries one item of the statistics adds to the counted ones: itself with its
      date, when its key parses as a date that is not after today, and nothing otherwise. */
  function Kept(entry: (string, int), today: Date): (r: seq<(Date, int)>)
    ensures |r| <= 1
  {
    match ParseDate(entry.0)
    case Some(d) => if After(d, today) then [] else [(d, entry.1)]
    case None => []
  }

  /** The body of the loop over the statistics' items: one item moves the monthly, yearly
      and overall totals by its count when it is counted, and leaves them alone otherwise. */
  method Tally(monthly: seq<(string, int)>, yearly: seq<(string, int)>, total: int, entry: (string, int), today: Date,
               ghost cs: seq<(Date, int)>)
    returns (monthly': seq<(string, int)>, yearly': seq<(string, int)>, total': int)
    requires IsMonthly(monthly, cs, today.year) && yearly == YearTotals(cs) && total == SumCounts(cs)
    ensures IsMonthly(monthly', cs + Kept(entry, today), today.year)
    ensures yearly' == YearTotals(cs + Kept(entry, today))
    ensures total' == SumCounts(cs + Kept(entry, today))
  {
    var (dateStr, count) := entry;
    var parsed := ParseDate(dateStr);
    if parsed.None? || After(parsed.value, today) {
      assert cs + Kept(entry, today) == cs;
      return monthly, yearly, total;
    }
    var dt := parsed.value;
    Accumulate(monthly, cs, today.year, dt, count);
    total' := total + count;
    yearly' := Bump(yearly, FormatInt(dt.year), count);
    monthly' := monthly;
    if dt.year == today.year {
      monthly' := monthly[dt.month - 1 := (MonthNames[dt.month - 1], monthly[dt.month - 1].1 + count)];
    }
  }

  /** One counted entry moves the three accumulators as the loop body does. */
  lemma Accumulate(monthly: seq<(string, int)>, cs: seq<(Date, int)>, year: int, dt: Date, count: int)
    requires IsMonthly(monthly, cs, year) && 1 <= dt.month <= 12
    ensures IsMonthly(if dt.year == year then monthly[dt.month - 1 := (MonthNames[dt.month - 1], monthly[dt.month - 1].1 + count)] else monthly,
                      cs + [(dt, count)], year)
    ensures YearTotals(cs + [(dt, count)]) == Bump(YearTotals(cs), FormatInt(dt.year), count)
    ensures SumCounts(cs + [(dt, count)]) == SumCounts(cs) + count
  {
    assert (cs + [(dt, count)])[..|cs|] == cs;
  }

  lemma CountedStep(statistics: seq<(string, int)>, i: int, today: Date)
    requires 0 <= i < |statistics|
    ensures Counted(statistics[..i + 1], today) == Counted(statistics[..i], today) + Kept(statistics[i], today)
  {
    assert statistics[..i + 1][..i] == statistics[..i];
  }

  // ------------------------------------------------------------------ what the totals mean

  /** The week runs Monday to Sunday: day `i` is named `DayNames[i]`, and today is the day
      at its own weekday. */
  lemma WeekRunsMondayToSunday(today: Date, i: nat)
    requires ValidDate(today) && WeekFits(today) && i < 7
    ensures Weekday(WeekDate(today, i)) == i
    ensures i == Weekday(today) ==> WeekDate(today, i) == today
  {
    WeekdayOfWeekDate(today, i);
    if i == Weekday(today) {
      OrdinalInjective(WeekDate(today, i), today);
    }
  }

  lemma WeekdayOfWeekDate(today: Date, i: nat)
    requires ValidDate(today) && WeekFits(today) && i < 7
    ensures Weekday(WeekDate(today, i)) == i
  {
    WeekdayShift(today, WeekDate(today, i), i);
  }

  /** A date `i` days after the Monday of another date's week falls on weekday `i`. */
  lemma WeekdayShift(a: Date, b: Date, i: int)
    requires ValidDate(a) && ValidDate(b) && 0 <= i < 7
    requires Ordinal(b) == Ordinal(a) - Weekday(a) + i
    ensures Weekday(b) == i
  {
    WeekArithmetic(Ordinal(a), i);
  }

  /** Going back to the Monday of day `o`'s week and forward `i` days lands on weekday `i`. */
  lemma WeekArithmetic(o: int, i: int)
    requires 0 <= i < 7
    ensures WeekdayOf(o - WeekdayOf(o) + i) == i
  {
    var q := (o + 6) / 7;
    assert o + 6 == 7 * q + (o + 6) % 7;
    assert o - (o + 6) % 7 + i + 6 == 7 * q + i;
  }

  /** Two valid dates with the same ordinal are the same date. */
  lemma OrdinalInjective(a: Date, b: Date)
    requires ValidDate(a) && ValidDate(b) && Ordinal(a) == Ordinal(b)
    ensures a == b
  {
    if a.year < b.year {
      DaysBeforeYearMonotone(a.year + 1, b.year);
      YearLength(a.year);
    } else if b.year < a.year {
      DaysBeforeYearMonotone(b.year + 1, a.year);
      YearLength(b.year);
    }
  }

  lemma BumpSum(es: seq<(string, int)>, key: string, n: int)
    ensures SumValues(Bump(es, key, n)) == SumValues(es) + n
  {
    SumValuesCons(es);
    SumValuesCons(Bump(es, key, n));
    if es != [] {
      if es[0].0 == key {
        SumValuesCons([(key, es[0].1 + n)] + es[1..]);
        assert ([(key, es[0].1 + n)] + es[1..])[1..] == es[1..];
      } else {
        BumpSum(es[1..], key, n);
        assert ([es[0]] + Bump(es[1..], key, n))[1..] == Bump(es[1..], key, n);
      }
    }
  }

  /** The sum of a dict's values, taken from the front. */
  lemma {:induction false} SumValuesCons(es: seq<(string, int)>)
    ensures es != [] ==> SumValues(es) == es[0].1 + SumValues(es[1..])
    decreases |es|
  {
    if |es| > 1 {
      SumValuesCons(es[..|es| - 1]);
      assert es[..|es| - 1][1..] == es[1..][..|es[1..]| - 1];
    } else if |es| == 1 {
      assert es[..0] == [] && es[1..] == [];
    }
  }

  /** The total is the sum of the yearly totals. */
  lemma {:induction false} TotalIsYearlySum(cs: seq<(Date, int)>)
    ensures SumValues(YearTotals(cs)) == SumCounts(cs)
    decreases |cs|
  {
    if cs != [] {
      TotalIsYearlySum(cs[..|cs| - 1]);
      BumpSum(YearTotals(cs[..|cs| - 1]), FormatInt(cs[|cs| - 1].0.year), cs[|cs| - 1].1);
    }
  }

  /** `d.get(key, 0)` on a dict given as its items. */
  function ValueAt(es: seq<(string, int)>, key: string): int
  {
    if es == [] then 0 else if es[0].0 == key then es[0].1 else ValueAt(es[1..], key)
  }

  lemma {:induction false} BumpValue(es: seq<(string, int)>, key: string, n: int, k: string)
    ensures ValueAt(Bump(es, key, n), k) == ValueAt(es, k) + if k == key then n else 0
    decreases |es|
  {
    if es != [] && es[0].0 != key {
      BumpValue(es[1..], key, n, k);
      assert ([es[0]] + Bump(es[1..], key, n))[1..] == Bump(es[1..], key, n);
    } else if es != [] {
      assert ([(key, es[0].1 + n)] + es[1..])[1..] == es[1..];
    }
  }

  /** Each year's entry holds the sum of the counts dated in that year, and a year appears
      exactly when some counted date falls in it. */
  lemma {:induction false} YearlyValues(cs: seq<(Date, int)>, key: string)
    ensures ValueAt(YearTotals(cs), key) == YearSum(cs, key)
    ensures key in Keys(YearTotals(cs)) <==> exists i :: 0 <= i < |cs| && FormatInt(cs[i].0.year) == key
    decreases |cs|
  {
    if cs != [] {
      var init := cs[..|cs| - 1];
      YearlyValues(init, key);
      BumpValue(YearTotals(init), FormatInt(cs[|cs| - 1].0.year), cs[|cs| - 1].1, key);
      if exists i :: 0 <= i < |init| && FormatInt(init[i].0.year) == key {
        var i :| 0 <= i < |init| && FormatInt(init[i].0.year) == key;
        assert cs[i] == init[i];
      }
      if exists i :: 0 <= i < |cs| && FormatInt(cs[i].0.year) == key {
        var i :| 0 <= i < |cs| && FormatInt(cs[i].0.year) == key;
        if i < |init| {
          assert init[i] == cs[i];
        }
      }
    }
  }

  function SumMonths(cs: seq<(Date, int)>, year: int, n: nat): int
  {
    if n == 0 then 0 else SumMonths(cs, year, n - 1) + MonthTotal(cs, year, n)
  }

  lemma {:induction false} SumMonthsEmpty(year: int, n: nat)
    ensures SumMonths([], year, n) == 0
  {
    if n > 0 {
      SumMonthsEmpty(year, n - 1);
    }
  }

  lemma {:induction false} SumMonthsSnoc(cs: seq<(Date, int)>, year: int, x: (Date, int), n: nat)
    ensures SumMonths(cs + [x], year, n)
         == SumMonths(cs, year, n) + if x.0.year == year && 1 <= x.0.month <= n then x.1 else 0
  {
    if n > 0 {
      SumMonthsSnoc(cs, year, x, n - 1);
      assert (cs + [x])[..|cs|] == cs;
    }
  }

  lemma SameYearKey(y: int, year: int)
    requires 1 <= y <= 9999 && 1 <= year <= 9999
    ensures FormatInt(y) == FormatInt(year) <==> y == year
  {
    if FormatInt(y) == FormatInt(year) {
      FormatIntInjective(y, year);
    }
  }

  /** The twelve monthly totals add up to the current year's yearly total. */
  lemma {:induction false} MonthlySumsToYear(cs: seq<(Date, int)>, year: int)
    requires 1 <= year <= 9999
    requires forall i :: 0 <= i < |cs| ==> ValidDate(cs[i].0)
    ensures SumMonths(cs, year, 12) == YearSum(cs, FormatInt(year))
    decreases |cs|
  {
    if cs == [] {
      SumMonthsEmpty(year, 12);
    } else {
      var init, x := cs[..|cs| - 1], cs[|cs| - 1];
      MonthlySumsToYear(init, year);
      assert cs == init + [x];
      SumMonthsSnoc(init, year, x, 12);
      assert ValidDate(x.0);
      SameYearKey(x.0.year, year);
    }
  }

  /** Only dates that parse and are not after today are counted, and each such entry is. */
  lemma {:induction false} CountedEntries(statistics: seq<(string, int)>, today: Date, i: int)
    requires 0 <= i < |statistics|
    requires ParseDate(statistics[i].0).Some? && !After(ParseDate(statistics[i].0).value, today)
    ensures (ParseDate(statistics[i].0).value, statistics[i].1) in Counted(statistics, today)
    decreases |statistics|
  {
    var init := statistics[..|statistics| - 1];
    if i < |statistics| - 1 {
      assert init[i] == statistics[i];
      CountedEntries(init, today, i);
    }
  }
}
