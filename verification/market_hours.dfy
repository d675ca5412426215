/** US stock market hours in Eastern Time: the three sessions, the holiday and early-close
    tables for 2024 and 2025, and the queries the bot makes before trading.

    A date is its proleptic Gregorian day ordinal (`date.toordinal()`, 0001-01-01 being day
    1); a time of day is a count of microseconds since midnight, the resolution of
    `datetime.time`. The current Eastern date and time are passed in. */
module MarketHours {
  import opened Wrappers
  import Calendar

  const MicrosPerMinute: int := 60_000_000

  /** The time of day `time(hour, minute)`. */
  function At(hour: int, minute: int): int {
    (hour * 60 + minute) * MicrosPerMinute
  }

  datatype Session = Premarket | Regular | AfterHours

  /** The key of the session in the session table. */
  function Name(s: Session): string {
    match s
    case Premarket => "premarket"
    case Regular => "regular"
    case AfterHours => "afterhours"
  }

  /** The session whose key is `name`; `None` where the lookup raises `KeyError`. */
  function SessionNamed(name: string): (r: Option<Session>)
    ensures r.Some? ==> Name(r.value) == name
    ensures r.None? ==> forall s: Session :: Name(s) != name
  {
    if name == "premarket" then Some(Premarket)
    else if name == "regular" then Some(Regular)
    else if name == "afterhours" then Some(AfterHours)
    else None
  }

  /** A session's hours; both ends are inclusive. */
  datatype SessionHours = SessionHours(session: Session, start: int, end: int)

  /** The session table, in the order it is searched. */
  const Sessions: seq<SessionHours> := [
    SessionHours(Premarket, At(4, 0), At(9, 30)),
    SessionHours(Regular, At(9, 30), At(16, 0)),
    SessionHours(AfterHours, At(16, 0), At(20, 0))
  ]

  function StartTime(s: Session): int {
    match s
    case Premarket => At(4, 0)
    case Regular => At(9, 30)
    case AfterHours => At(16, 0)
  }

  /** The ordinal of the calendar date `year-month-day`. */
  function Day(year: int, month: int, day: int): int
    requires Calendar.Date(year, month, day).Valid()
  {
    Calendar.Ordinal(Calendar.Date(year, month, day))
  }

  const MarketHolidays: set<int> := {
    Day(2024, 1, 1), Day(2024, 1, 15), Day(2024, 2, 19), Day(2024, 3, 29), Day(2024, 5, 27),
    Day(2024, 6, 19), Day(2024, 7, 4), Day(2024, 9, 2), Day(2024, 11, 28), Day(2024, 12, 25),
    Day(2025, 1, 1), Day(2025, 1, 20), Day(2025, 2, 17), Day(2025, 4, 18), Day(2025, 5, 26),
    Day(2025, 6, 19), Day(2025, 7, 4), Day(2025, 9, 1), Day(2025, 11, 27), Day(2025, 12, 25)
  }

  const EarlyCloseDays: set<int> := {
    Day(2024, 11, 29), Day(2024, 12, 24), Day(2025, 11, 28), Day(2025, 12, 24)
  }

  /** `is_market_holiday`: every listed holiday falls on a weekday. */
  predicate IsMarketHoliday(day: int)
    ensures IsMarketHoliday(day) ==> Calendar.WeekdayOf(day) < 5
  {
    TablesAreConsistent();
    day in MarketHolidays
  }

  /** `is_early_close_day`: every listed early close falls on a weekday that is no holiday. */
  predicate IsEarlyCloseDay(day: int)
    ensures IsEarlyCloseDay(day) ==> Calendar.WeekdayOf(day) < 5 && !IsMarketHoliday(day)
  {
    TablesAreConsistent();
    day in EarlyCloseDays
  }

  /** `is_weekend`: Saturday (5) or Sunday (6). Anchored to the calendar: the weekend days
      are those zero or one day after a whole number of weeks from Saturday 2024-01-06. */
  predicate IsWeekend(day: int)
    ensures IsWeekend(day) <==> (day - Day(2024, 1, 6)) % 7 <= 1
  {
    assert Day(2024, 1, 6) == 738891;
    Calendar.WeekdayOf(day) >= 5
  }

  /** `is_trading_day`: never a weekend or holiday, and always true on an early-close day. */
  predicate IsTradingDay(day: int)
    ensures IsTradingDay(day) ==> Calendar.WeekdayOf(day) < 5
    ensures IsEarlyCloseDay(day) ==> IsTradingDay(day)
  {
    !IsWeekend(day) && !IsMarketHoliday(day)
  }

  /** The first session of `table` whose hours contain `t`. */
  function FirstSessionContaining(table: seq<SessionHours>, t: int): Option<Session>
    decreases |table|
  {
    if |table| == 0 then None
    else if table[0].start <= t <= table[0].end then Some(table[0].session)
    else FirstSessionContaining(table[1..], t)
  }

  /** `get_market_session` at time `t` of day `day`. Because the table is searched in order
      and its ends are inclusive, 9:30 itself is pre-market and 16:00 itself regular; on an
      early-close day regular hours are checked first and end at 13:00. */
  function GetMarketSession(day: int, t: int): (r: Option<Session>)
    ensures !IsTradingDay(day) ==> r == None
    ensures IsTradingDay(day) && IsEarlyCloseDay(day) ==>
              r == if At(4, 0) <= t < At(9, 30) then Some(Premarket)
                   else if At(9, 30) <= t <= At(13, 0) then Some(Regular)
                   else None
    ensures IsTradingDay(day) && !IsEarlyCloseDay(day) ==>
              r == if At(4, 0) <= t <= At(9, 30) then Some(Premarket)
                   else if At(9, 30) < t <= At(16, 0) then Some(Regular)
                   else if At(16, 0) < t <= At(20, 0) then Some(AfterHours)
                   else None
  {
    if !IsTradingDay(day) then None
    else if IsEarlyCloseDay(day) then
      if At(9, 30) <= t <= At(13, 0) then Some(Regular)
      else if At(4, 0) <= t <= At(9, 30) then Some(Premarket)
      else None
    else FirstSessionContaining(Sessions, t)
  }

  /** Some session is open exactly on trading days from 4:00 to the day's last close
      (13:00 on early-close days, 20:00 otherwise). */
  lemma ExtendedHours(day: int, t: int)
    ensures GetMarketSession(day, t).Some? <==>
              IsTradingDay(day) && At(4, 0) <= t <= (if IsEarlyCloseDay(day) then At(13, 0) else At(20, 0))
  {
  }

  /** `is_market_open(session)`: `"any"` asks for any session; any other name asks for
      exactly that session, so an unknown name is never open. */
  function IsMarketOpen(session: string, day: int, t: int): (open: bool)
    ensures session == "any" ==> (open <==> GetMarketSession(day, t).Some?)
    ensures session != "any" ==>
              (open <==> GetMarketSession(day, t).Some? && SessionNamed(session) == GetMarketSession(day, t))
  {
    var current := GetMarketSession(day, t);
    if session == "any" then current.Some?
    else current.Some? && Name(current.value) == session
  }

  /** Regular hours: (9:30, 16:00] on a normal trading day, [9:30, 13:00] on an early-close
      day, never on other days. */
  lemma RegularHours(day: int, t: int)
    ensures IsMarketOpen("regular", day, t) <==>
              IsTradingDay(day) &&
              (if IsEarlyCloseDay(day) then At(9, 30) <= t <= At(13, 0) else At(9, 30) < t <= At(16, 0))
  {
  }

  /** `get_market_close_time` */
  function GetMarketCloseTime(day: int): (r: Option<int>)
    ensures r.None? <==> !IsTradingDay(day)
    ensures r.Some? ==> r.value == if IsEarlyCloseDay(day) then At(13, 0) else At(16, 0)
  {
    if !IsTradingDay(day) then None
    else if IsEarlyCloseDay(day) then Some(At(13, 0))
    else Some(At(16, 0))
  }

  /** At the close time itself the regular session is still open. */
  lemma CloseTimeIsInRegularHours(day: int)
    requires IsTradingDay(day)
    ensures IsMarketOpen("regular", day, GetMarketCloseTime(day).value)
  {
  }

  /** The close time is the last instant of regular hours: later that day the regular
      session is closed. */
  lemma CloseTimeIsLastRegularInstant(day: int, t: int)
    requires IsTradingDay(day)
    ensures t > GetMarketCloseTime(day).value ==> !IsMarketOpen("regular", day, t)
  {
    RegularHours(day, t);
  }

  datatype Moment = Moment(day: int, time: int)

  /** Whether `day`, searched from `today` at time `now`, is where the session next opens:
      a trading day, and, when it is today, one whose session has not started yet. */
  predicate Opens(day: int, today: int, now: int, start: int) {
    IsTradingDay(day) && (day != today || now < start)
  }

  /** `get_next_market_open(session)` at time `now` of day `today`: the session's start on
      the first day of the next ten that qualifies, else a week from today. `None` is the
      `KeyError` of an unknown session name. */
  method GetNextMarketOpen(session: string, today: int, now: int) returns (r: Option<Moment>)
    ensures r.None? <==> SessionNamed(session).None?
    ensures r.Some? ==> r.value.time == StartTime(SessionNamed(session).value)
    ensures r.Some? && r.value.day != today + 7 ==>
              today <= r.value.day < today + 10 && Opens(r.value.day, today, now, r.value.time)
    ensures r.Some? ==>
              forall d :: today <= d < r.value.day && d < today + 10 ==> !Opens(d, today, now, r.value.time)
    ensures r.Some? && r.value.day == today + 7 && !Opens(today + 7, today, now, r.value.time) ==>
              forall d :: today <= d < today + 10 ==> !Opens(d, today, now, r.value.time)
  {
    for daysAhead := 0 to 10
      invariant forall d :: today <= d < today + daysAhead ==>
                  SessionNamed(session).Some? ==> !Opens(d, today, now, StartTime(SessionNamed(session).value))
    {
      var candidate := today + daysAhead;
      if IsTradingDay(candidate) {
        var info := SessionNamed(session);
        if info.None? {
          return None;
        }
        var nextOpen := Moment(candidate, StartTime(info.value));
        if daysAhead == 0 {
          if now < StartTime(info.value) {
            return Some(nextOpen);
          }
        } else {
          return Some(nextOpen);
        }
      }
    }
    var info := SessionNamed(session);
    if info.None? {
      return None;
    }
    return Some(Moment(today + 7, StartTime(info.value)));
  }

  /** Why `should_trade_stocks` answered as it did. */
  datatype Reason =
    | Weekend
    | Holiday
    | MarketClosed
    | RegularMarketHours
    | PremarketWaiting
    | AfterHoursClosed
    | ClosedUntil(nextOpen: Moment)
    | OpenIn(session: Session)

  /** `should_trade_stocks(require_regular_hours)` at time `now` of day `today`, all of its
      clock readings taken as this one instant. */
  method ShouldTradeStocks(requireRegularHours: bool, today: int, now: int) returns (trade: bool, reason: Reason)
    ensures !IsTradingDay(today) ==> !trade && reason == (if IsWeekend(today) then Weekend else Holiday)
    ensures requireRegularHours ==> (trade <==> GetMarketSession(today, now) == Some(Regular))
    ensures !requireRegularHours ==> (trade <==> GetMarketSession(today, now).Some?)
    ensures trade && !requireRegularHours ==> reason == OpenIn(GetMarketSession(today, now).value)
    ensures reason != MarketClosed
    ensures reason == PremarketWaiting <==>
              requireRegularHours && IsTradingDay(today) && GetMarketSession(today, now) == Some(Premarket)
    ensures reason == AfterHoursClosed <==>
              requireRegularHours && IsTradingDay(today) && GetMarketSession(today, now) == Some(AfterHours)
    ensures reason.ClosedUntil? ==>
              !trade && reason.nextOpen.time == At(9, 30) && today <= reason.nextOpen.day
    ensures reason.ClosedUntil? && reason.nextOpen.day != today + 7 ==>
              reason.nextOpen.day < today + 10 && Opens(reason.nextOpen.day, today, now, At(9, 30))
    ensures reason.ClosedUntil? ==>
              forall d :: today <= d < reason.nextOpen.day && d < today + 10 ==> !Opens(d, today, now, At(9, 30))
    ensures reason.ClosedUntil? && reason.nextOpen.day == today + 7 && !Opens(today + 7, today, now, At(9, 30)) ==>
              forall d :: today <= d < today + 10 ==> !Opens(d, today, now, At(9, 30))
    ensures IsTradingDay(today) ==> reason != Weekend && reason != Holiday
    ensures reason == RegularMarketHours <==> requireRegularHours && trade
    ensures IsTradingDay(today) && !trade ==>
              reason.ClosedUntil? || reason == PremarketWaiting || reason == AfterHoursClosed
  {
    if !IsTradingDay(today) {
      if IsWeekend(today) {
        return false, Weekend;
      } else if IsMarketHoliday(today) {
        return false, Holiday;
      } else {
        return false, MarketClosed;
      }
    }
    if requireRegularHours {
      if IsMarketOpen("regular", today, now) {
        return true, RegularMarketHours;
      }
      var current := GetMarketSession(today, now);
      if current == Some(Premarket) {
        return false, PremarketWaiting;
      } else if current == Some(AfterHours) {
        return false, AfterHoursClosed;
      }
      var next := GetNextMarketOpen("regular", today, now);
      return false, ClosedUntil(next.value);
    } else {
      if IsMarketOpen("any", today, now) {
        var current := GetMarketSession(today, now);
        return true, OpenIn(current.value);
      }
      var next := GetNextMarketOpen("regular", today, now);
      return false, ClosedUntil(next.value);
    }
  }

  /** Every listed holiday is a weekday, and every early-close day is a weekday that is not a
      holiday. */
  lemma TablesAreConsistent()
    ensures forall h :: h in MarketHolidays ==> Calendar.WeekdayOf(h) < 5
    ensures forall e :: e in EarlyCloseDays ==> Calendar.WeekdayOf(e) < 5 && e !in MarketHolidays
  {
    assert Day(2024, 1, 1) == 738886;
    assert Day(2024, 1, 15) == 738900;
    assert Day(2024, 2, 19) == 738935;
    assert Day(2024, 3, 29) == 738974;
    assert Day(2024, 5, 27) == 739033;
    assert Day(2024, 6, 19) == 739056;
    assert Day(2024, 7, 4) == 739071;
    assert Day(2024, 9, 2) == 739131;
    assert Day(2024, 11, 28) == 739218;
    assert Day(2024, 12, 25) == 739245;
    assert Day(2025, 1, 1) == 739252;
    assert Day(2025, 1, 20) == 739271;
    assert Day(2025, 2, 17) == 739299;
    assert Day(2025, 4, 18) == 739359;
    assert Day(2025, 5, 26) == 739397;
    assert Day(2025, 6, 19) == 739421;
    assert Day(2025, 7, 4) == 739436;
    assert Day(2025, 9, 1) == 739495;
    assert Day(2025, 11, 27) == 739582;
    assert Day(2025, 12, 25) == 739610;
    assert Day(2024, 11, 29) == 739219;
    assert Day(2024, 12, 24) == 739244;
    assert Day(2025, 11, 28) == 739583;
    assert Day(2025, 12, 24) == 739609;
    assert MarketHolidays == {
      738886, 738900, 738935, 738974, 739033,
      739056, 739071, 739131, 739218, 739245,
      739252, 739271, 739299, 739359, 739397,
      739421, 739436, 739495, 739582, 739610
    };
    assert EarlyCloseDays == {739219, 739244, 739583, 739609};
  }
}
