/**
 * The market calendar of trading_system/market_schedule_checker.py:
 * weekends and the public-holiday table, the trading session 09:00–15:30,
 * the program's termination rule and the next trading day.
 */
module MarketSchedule {
  import opened Common

  /** "MM-DD" mapped to the holiday's name. */
  type HolidayTable = map<string, string>

  const Holidays2025: HolidayTable := map[
    "01-01" := "신정", "01-28" := "설날 연휴", "01-29" := "설날", "01-30" := "설날 연휴",
    "03-01" := "삼일절", "05-05" := "어린이날", "05-26" := "부처님오신날", "06-06" := "현충일",
    "08-15" := "광복절", "10-03" := "개천절", "10-09" := "한글날", "12-25" := "성탄절"]

  const Holidays2026: HolidayTable := map[
    "01-01" := "신정", "02-16" := "설날 연휴", "02-17" := "설날", "02-18" := "설날 연휴",
    "03-01" := "삼일절", "05-05" := "어린이날", "05-14" := "부처님오신날", "06-06" := "현충일",
    "08-15" := "광복절", "09-28" := "추석 연휴", "09-29" := "추석", "09-30" := "추석 연휴",
    "10-03" := "개천절", "10-09" := "한글날", "12-25" := "성탄절"]

  /** `_get_hardcoded_holidays(year)`: the 2025 or 2026 table, and the 2025 one for every other year. */
  function HardcodedHolidays(year: int): (t: HolidayTable)
    ensures year == 2026 ==> t == Holidays2026
    ensures year != 2026 ==> t == Holidays2025
  {
    if year == 2025 then Holidays2025 else if year == 2026 then Holidays2026 else Holidays2025
  }

  /** A calendar date with its weekday (0 = Monday … 6 = Sunday). */
  datatype Date = Date(year: int, month: int, day: int, weekday: int)
  {
    predicate Valid()
    {
      1 <= month <= 12 && 1 <= day <= DaysInMonth(year, month) && 0 <= weekday < 7
    }
  }

  predicate IsLeapYear(y: int)
  {
    (y % 4 == 0 && y % 100 != 0) || y % 400 == 0
  }

  function DaysInMonth(y: int, m: int): int
  {
    if m == 2 then (if IsLeapYear(y) then 29 else 28)
    else if m == 4 || m == 6 || m == 9 || m == 11 then 30
    else 31
  }

  /** `date + timedelta(days=1)`. */
  function NextDay(d: Date): (e: Date)
    requires d.Valid()
    ensures e.Valid() && e.weekday == (d.weekday + 1) % 7
    ensures e.year > d.year || (e.year == d.year && (e.month > d.month || (e.month == d.month && e.day == d.day + 1)))
  {
    var w := (d.weekday + 1) % 7;
    if d.day < DaysInMonth(d.year, d.month) then Date(d.year, d.month, d.day + 1, w)
    else if d.month < 12 then Date(d.year, d.month + 1, 1, w)
    else Date(d.year + 1, 1, 1, w)
  }

  function Digit(n: int): char
    requires 0 <= n < 10
  {
    "0123456789"[n]
  }

  /** `%02d`. */
  function Pad2(n: int): (s: string)
    requires 0 <= n < 100
    ensures |s| == 2
  {
    [Digit(n / 10), Digit(n % 10)]
  }

  /** `strftime("%m-%d")`. */
  function DateKey(d: Date): (k: string)
    requires d.Valid()
    ensures |k| == 5 && k[2] == '-'
  {
    Pad2(d.month) + "-" + Pad2(d.day)
  }

  /** The holiday table `get_holidays_from_api` yields for a year: the public API's answer or, failing that, the hardcoded table. */
  type HolidaySource = int -> HolidayTable

  datatype HolidayAnswer = HolidayAnswer(holiday: bool, name: string)

  /** `is_holiday(date)`: Saturdays and Sundays without looking at a table, then the year's table. */
  function IsHoliday(d: Date, holidays: HolidaySource): (r: HolidayAnswer)
    requires d.Valid()
    ensures d.weekday == 5 ==> r == HolidayAnswer(true, "토요일")
    ensures d.weekday == 6 ==> r == HolidayAnswer(true, "일요일")
    ensures d.weekday < 5 ==> (r.holiday <==> DateKey(d) in holidays(d.year))
    ensures d.weekday < 5 && r.holiday ==> r.name == holidays(d.year)[DateKey(d)]
    ensures !r.holiday ==> r.name == ""
  {
    if d.weekday == 5 then HolidayAnswer(true, "토요일")
    else if d.weekday == 6 then HolidayAnswer(true, "일요일")
    else
      var table := holidays(d.year);
      var key := DateKey(d);
      if key in table then HolidayAnswer(true, table[key]) else HolidayAnswer(false, "")
  }

  /** Lunar New Year 2025 (Wednesday 29 January) is a holiday in the hardcoded table. */
  lemma LunarNewYear2025()
    ensures IsHoliday(Date(2025, 1, 29, 2), HardcodedHolidays) == HolidayAnswer(true, "설날")
  {
    assert DateKey(Date(2025, 1, 29, 2)) == "01-29";
  }

  /** `is_market_hours`: the closed interval from 09:00:00 to 15:30:00, so one second after 15:30 is closed. */
  predicate IsMarketHours(c: Clock)
  {
    At(9, 0) <= c.micros <= At(15, 30)
  }

  lemma MarketHoursEdges(weekday: int)
    ensures IsMarketHours(Clock(weekday, At(15, 30))) && !IsMarketHours(Clock(weekday, At(15, 30) + 1_000_000))
    ensures IsMarketHours(Clock(weekday, At(9, 0))) && !IsMarketHours(Clock(weekday, At(9, 0) - 1))
  {
  }

  datatype Termination = KeepRunning | HolidayClosed(name: string) | AfterHours | TooEarly

  /** `should_terminate_program`: a holiday first, then 16:00 or later, then before 06:00. */
  function ShouldTerminate(d: Date, c: Clock, holidays: HolidaySource): (t: Termination)
    requires d.Valid()
    ensures t.HolidayClosed? <==> IsHoliday(d, holidays).holiday
    ensures t.HolidayClosed? ==> t.name == IsHoliday(d, holidays).name
    ensures t == AfterHours <==> !IsHoliday(d, holidays).holiday && c.micros >= At(16, 0)
    ensures t == TooEarly <==> !IsHoliday(d, holidays).holiday && c.micros < At(6, 0)
    ensures t == KeepRunning <==> !IsHoliday(d, holidays).holiday && At(6, 0) <= c.micros < At(16, 0)
  {
    var h := IsHoliday(d, holidays);
    if h.holiday then HolidayClosed(h.name)
    else if c.micros >= At(16, 0) then AfterHours
    else if c.micros < At(6, 0) then TooEarly
    else KeepRunning
  }

  /** The program keeps running through the whole trading session of a trading day. */
  lemma SessionIsNeverTerminated(d: Date, c: Clock, holidays: HolidaySource)
    requires d.Valid() && !IsHoliday(d, holidays).holiday && IsMarketHours(c)
    ensures ShouldTerminate(d, c, holidays) == KeepRunning
  {
  }

  /** The date k days after d. */
  function DaysAfter(d: Date, k: nat): (e: Date)
    requires d.Valid()
    ensures e.Valid()
  {
    if k == 0 then d else NextDay(DaysAfter(d, k - 1))
  }

  const SearchDays: int := 10

  /** `_get_next_trading_day`: the first of the ten days after `d` that is no holiday, or None. */
  method NextTradingDay(d: Date, holidays: HolidaySource) returns (r: Option<Date>)
    requires d.Valid()
    ensures r.Some? ==> exists k :: 1 <= k <= SearchDays && r.value == DaysAfter(d, k)
                                    && !IsHoliday(r.value, holidays).holiday
                                    && forall j :: 1 <= j < k ==> IsHoliday(DaysAfter(d, j), holidays).holiday
    ensures r.None? <==> forall j :: 1 <= j <= SearchDays ==> IsHoliday(DaysAfter(d, j), holidays).holiday
  {
    var next := NextDay(d);
    var i := 0;
    while i < SearchDays
      invariant 0 <= i <= SearchDays
      invariant next == DaysAfter(d, i + 1)
      invariant forall j :: 1 <= j <= i ==> IsHoliday(DaysAfter(d, j), holidays).holiday
    {
      if !IsHoliday(next, holidays).holiday {
        r := Some(next);
        assert 1 <= i + 1 <= SearchDays && r.value == DaysAfter(d, i + 1);
        return;
      }
      assert IsHoliday(DaysAfter(d, i + 1), holidays).holiday;
      assert DaysAfter(d, i + 2) == NextDay(next);
      next := NextDay(next);
      i := i + 1;
    }
    return None;
  }

  /** A next trading day is a weekday. */
  lemma TradingDayIsWeekday(d: Date, holidays: HolidaySource)
    requires d.Valid() && !IsHoliday(d, holidays).holiday
    ensures d.weekday < 5
  {
  }

  /** A run of weekend days is at most two long, so a weekday follows within three days when the table is empty. */
  lemma {:induction false} WeekdayWithinThreeDays(d: Date)
    requires d.Valid()
    ensures exists k :: 1 <= k <= 3 && DaysAfter(d, k).weekday < 5
  {
    assert DaysAfter(d, 1) == NextDay(d);
    assert DaysAfter(d, 2) == NextDay(DaysAfter(d, 1));
    assert DaysAfter(d, 3) == NextDay(DaysAfter(d, 2));
    if d.weekday < 4 || d.weekday == 6 {
      assert DaysAfter(d, 1).weekday < 5;
    } else if d.weekday == 5 {
      assert DaysAfter(d, 2).weekday == 0;
    } else {
      assert DaysAfter(d, 3).weekday == 0;
    }
  }
}
