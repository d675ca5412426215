/** The crypto trend strategy: an SMA over hourly prices (24 bars per day), weekly
    rebalancing on Mondays, a stop loss measured from the entry price, and a filter that
    skips trading when the last 24 hours moved too much.

    Prices are hourly closes, oldest first. A `datetime` enters only through its date. */
module CryptoTrend {
  import opened Wrappers
  import Series
  import Calendar
  import opened Signals

  /** Bars per day of hourly data. */
  const HoursPerDay: int := 24

  class CryptoTrendStrategy {
    const smaPeriod: int
    const stopLossPct: real
    const volatilityThreshold: real
    var lastRebalanceDate: Option<Calendar.Date>
    var entryPrice: Option<real>

    /** Dates are real calendar dates and the SMA window is at least a day. */
    predicate Valid()
      reads this
    {
      smaPeriod >= 1 && (lastRebalanceDate.Some? ==> lastRebalanceDate.value.Valid())
    }

    constructor (smaPeriod: int, stopLossPct: real, volatilityThreshold: real)
      requires smaPeriod >= 1
      ensures Valid()
      ensures this.smaPeriod == smaPeriod && this.stopLossPct == stopLossPct
      ensures this.volatilityThreshold == volatilityThreshold
      ensures lastRebalanceDate == None && entryPrice == None
    {
      this.smaPeriod := smaPeriod;
      this.stopLossPct := stopLossPct;
      this.volatilityThreshold := volatilityThreshold;
      lastRebalanceDate := None;
      entryPrice := None;
    }

    /** `calculate_sma`: present exactly when there are `smaPeriod` days of hourly bars, and
        then the mean of the last `24 * smaPeriod` of them, which lies within their range. */
    function CalculateSma(prices: seq<real>): (r: Option<real>)
      requires smaPeriod >= 1
      ensures r.None? <==> |prices| < smaPeriod * HoursPerDay
      ensures r.Some? ==>
                var window := Series.Tail(prices, smaPeriod * HoursPerDay);
                r.value == Series.Mean(window) && Series.Min(window) <= r.value <= Series.Max(window)
    {
      var minHours := smaPeriod * HoursPerDay;
      if |prices| < minHours then None
      else
        var window := Series.Tail(prices, minHours);
        Series.MeanBetweenMinAndMax(window);
        Some(Series.Mean(window))
    }

    /** `should_rebalance` as written: the first call, or a Monday whose key (CALENDAR year,
        ISO week number) differs from the last rebalance's. Where both dates' ISO years are
        their calendar years it answers as the ISO-keyed rule does. */
    function ShouldRebalanceAsWritten(current: Calendar.Date): (due: bool)
      reads this
      requires Valid() && current.Valid()
      ensures lastRebalanceDate.None? ==> due
      ensures due && lastRebalanceDate.Some? ==> Calendar.Weekday(current) == 0
      ensures lastRebalanceDate.Some? &&
              Calendar.IsoYearWeek(current).year == current.year &&
              Calendar.IsoYearWeek(lastRebalanceDate.value).year == lastRebalanceDate.value.year ==>
                (due <==> ShouldRebalance(current))
    {
      match lastRebalanceDate
      case None => true
      case Some(last) =>
        Calendar.Weekday(current) == 0 &&
        (current.year, Calendar.IsoYearWeek(current).week) != (last.year, Calendar.IsoYearWeek(last).week)
    }

    /** `should_rebalance` with weeks keyed by ISO year and ISO week, as the weekly Monday
        rebalance intends (see `MondayAfterEarlierRebalanceFires`). */
    function ShouldRebalance(current: Calendar.Date): (due: bool)
      reads this
      requires Valid() && current.Valid()
      ensures lastRebalanceDate.None? ==> due
      ensures due && lastRebalanceDate.Some? ==> Calendar.Weekday(current) == 0
    {
      match lastRebalanceDate
      case None => true
      case Some(last) =>
        Calendar.Weekday(current) == 0 && Calendar.IsoYearWeek(current) != Calendar.IsoYearWeek(last)
    }

    /** `check_volatility`: trading is safe when the last 24 bars' range, relative to their
        mean, is below the threshold. Fewer than 24 bars is never safe, and neither is a zero
        mean (the division gives infinity or NaN, and neither compares below). */
    function CheckVolatility(prices: seq<real>): (safe: bool)
      ensures |prices| < HoursPerDay ==> !safe
    {
      if |prices| < HoursPerDay then false
      else
        var recent := Series.Tail(prices, HoursPerDay);
        var mean := Series.Mean(recent);
        if mean == 0.0 then false
        else (Series.Max(recent) - Series.Min(recent)) / mean < volatilityThreshold
    }

    /** `check_stop_loss`: exit when holding and the drawdown from the entry price exceeds the
        stop-loss fraction. For an entry price of 0 the numpy division gives -inf, NaN or
        +inf by the sign of the price, and only +inf (a negative price) exceeds it. That
        reading holds on the `generate_signal` path, where the price is a numpy float; a
        direct call with a plain Python float and an entry price of 0 raises
        `ZeroDivisionError` instead, which this model does not represent. */
    function CheckStopLoss(currentPrice: real, hasPosition: bool): (exit: bool)
      reads this
      ensures exit ==> hasPosition && entryPrice.Some?
    {
      if !hasPosition || entryPrice.None? then false
      else
        var entry := entryPrice.value;
        if entry == 0.0 then currentPrice < 0.0
        else (entry - currentPrice) / entry > stopLossPct
    }

    /** What a signal with an SMA promises: the SMA is `calculate_sma`'s; BUY only without a
        position above the SMA; SELL only with a position, on the stop loss or at or below
        the SMA; HOLD only when neither applies. A signal without an SMA is a HOLD. */
    predicate FollowsTrendRule(prices: seq<real>, hasPosition: bool, r: SignalResult)
      reads this
      requires smaPeriod >= 1
    {
      (r.sma.None? ==> r.signal == Hold) &&
      (r.sma.Some? ==>
         |prices| >= smaPeriod * HoursPerDay && r.sma == CalculateSma(prices) &&
         var price := prices[|prices| - 1];
         (r.signal == Buy ==> !hasPosition && price > r.sma.value) &&
         (r.signal == Sell ==>
            hasPosition && (CheckStopLoss(price, hasPosition) || price <= r.sma.value)) &&
         (r.signal == Hold ==>
            !CheckStopLoss(price, hasPosition) &&
            (if hasPosition then price > r.sma.value else price <= r.sma.value)))
    }

    /** The body of `generate_signal` once `should_rebalance` has answered `due`: the data,
        rebalance and volatility gates in that order, then the stop loss, then the trend. */
    function SignalWhen(prices: seq<real>, due: bool, hasPosition: bool): (r: SignalResult)
      reads this
      requires Valid()
      ensures |prices| < smaPeriod * HoursPerDay ==> r == SignalResult(Hold, None)
      ensures r.sma.Some? <==> |prices| >= smaPeriod * HoursPerDay && due && CheckVolatility(prices)
      ensures FollowsTrendRule(prices, hasPosition, r)
    {
      var minHours := smaPeriod * HoursPerDay;
      if |prices| < minHours then SignalResult(Hold, None)
      else if !due then SignalResult(Hold, None)
      else if !CheckVolatility(prices) then SignalResult(Hold, None)
      else
        var currentPrice := prices[|prices| - 1];
        // The source's `sma is None` exit cannot fire here: the length was checked above.
        var sma := CalculateSma(prices).value;
        if CheckStopLoss(currentPrice, hasPosition) then SignalResult(Sell, Some(sma))
        else if currentPrice > sma && !hasPosition then SignalResult(Buy, Some(sma))
        else if currentPrice <= sma && hasPosition then SignalResult(Sell, Some(sma))
        else SignalResult(Hold, Some(sma))
    }

    /** `generate_signal` as written, gated by `should_rebalance` as written. */
    function GenerateSignal(prices: seq<real>, current: Calendar.Date, hasPosition: bool): (r: SignalResult)
      reads this
      requires Valid() && current.Valid()
      ensures |prices| < smaPeriod * HoursPerDay ==> r == SignalResult(Hold, None)
      ensures r.sma.Some? <==>
                |prices| >= smaPeriod * HoursPerDay && ShouldRebalanceAsWritten(current) &&
                CheckVolatility(prices)
      ensures FollowsTrendRule(prices, hasPosition, r)
    {
      SignalWhen(prices, ShouldRebalanceAsWritten(current), hasPosition)
    }

    /** `generate_signal` gated by the ISO-keyed rebalance rule instead. */
    function GenerateSignalCorrected(prices: seq<real>, current: Calendar.Date, hasPosition: bool)
      : (r: SignalResult)
      reads this
      requires Valid() && current.Valid()
      ensures |prices| < smaPeriod * HoursPerDay ==> r == SignalResult(Hold, None)
      ensures r.sma.Some? <==>
                |prices| >= smaPeriod * HoursPerDay && ShouldRebalance(current) && CheckVolatility(prices)
      ensures FollowsTrendRule(prices, hasPosition, r)
    {
      SignalWhen(prices, ShouldRebalance(current), hasPosition)
    }

    /** `mark_rebalanced`: a second signal on the same date holds. */
    method MarkRebalanced(date: Calendar.Date)
      requires Valid() && date.Valid()
      modifies this`lastRebalanceDate
      ensures Valid()
      ensures lastRebalanceDate == Some(date)
      ensures !ShouldRebalanceAsWritten(date) && !ShouldRebalance(date)
    {
      lastRebalanceDate := Some(date);
    }

    /** `set_entry_price` */
    method SetEntryPrice(price: real)
      modifies this`entryPrice
      ensures entryPrice == Some(price)
    {
      entryPrice := Some(price);
    }

    /** `clear_entry_price`: no stop loss fires afterwards. */
    method ClearEntryPrice()
      modifies this`entryPrice
      ensures entryPrice == None
      ensures forall p: real, h: bool :: !CheckStopLoss(p, h)
    {
      entryPrice := None;
    }
  }

  /** With a positive entry price, the stop loss fires exactly when the price has fallen
      below `entry * (1 - stopLossPct)`. */
  lemma StopLossThreshold(s: CryptoTrendStrategy, currentPrice: real)
    requires s.entryPrice.Some? && s.entryPrice.value > 0.0
    ensures s.CheckStopLoss(currentPrice, true) <==>
              currentPrice < s.entryPrice.value * (1.0 - s.stopLossPct)
  {
    var entry := s.entryPrice.value;
    Series.QuotientCompare(entry - currentPrice, entry, s.stopLossPct);
    assert entry * (1.0 - s.stopLossPct) == entry - s.stopLossPct * entry;
  }

  /** Over positive prices, trading is safe exactly when the 24-hour range is below the
      threshold times the 24-hour mean. */
  lemma VolatilityFilter(s: CryptoTrendStrategy, prices: seq<real>)
    requires |prices| >= HoursPerDay
    requires forall i :: 0 <= i < |prices| ==> prices[i] > 0.0
    ensures var recent := Series.Tail(prices, HoursPerDay);
            s.CheckVolatility(prices) <==>
              Series.Max(recent) - Series.Min(recent) < s.volatilityThreshold * Series.Mean(recent)
  {
    var recent := Series.Tail(prices, HoursPerDay);
    assert forall i :: 0 <= i < |recent| ==> recent[i] > 0.0;
    PositiveMean(recent);
    Series.QuotientCompare(Series.Max(recent) - Series.Min(recent), Series.Mean(recent), s.volatilityThreshold);
  }

  /** The mean of positive prices is positive. */
  lemma PositiveMean(recent: seq<real>)
    requires |recent| > 0
    requires forall i :: 0 <= i < |recent| ==> recent[i] > 0.0
    ensures Series.Mean(recent) > 0.0
  {
    Series.MinMaxAreMembers(recent);
    Series.MeanBetweenMinAndMax(recent);
  }

  /** The corrected rule never skips a week: on a Monday later than the last rebalance, it
      rebalances. */
  lemma MondayAfterEarlierRebalanceFires(s: CryptoTrendStrategy, current: Calendar.Date)
    requires s.Valid() && current.Valid()
    requires Calendar.Weekday(current) == 0
    requires s.lastRebalanceDate.Some? ==>
               Calendar.Ordinal(s.lastRebalanceDate.value) < Calendar.Ordinal(current)
    ensures s.ShouldRebalance(current)
  {
    if s.lastRebalanceDate.Some? {
      var last := s.lastRebalanceDate.value;
      Calendar.IsoWeekDeterminesWeekStart(current);
      Calendar.IsoWeekDeterminesWeekStart(last);
      assert Calendar.WeekStart(Calendar.Ordinal(current)) == Calendar.Ordinal(current);
      assert Calendar.WeekStart(Calendar.Ordinal(last)) < Calendar.Ordinal(current);
    }
  }

  /** The rule as written never rebalances where the ISO-keyed rule does not: on a Monday no
      earlier than the last rebalance, a different (calendar year, ISO week) key means a
      different ISO week. */
  lemma AsWrittenFiresOnlyWhenCorrectedDoes(s: CryptoTrendStrategy, current: Calendar.Date)
    requires s.Valid() && current.Valid()
    requires s.lastRebalanceDate.Some? ==>
               Calendar.Ordinal(s.lastRebalanceDate.value) <= Calendar.Ordinal(current)
    ensures s.ShouldRebalanceAsWritten(current) ==> s.ShouldRebalance(current)
  {
    if s.lastRebalanceDate.Some? && Calendar.Weekday(current) == 0 &&
       Calendar.IsoYearWeek(current) == Calendar.IsoYearWeek(s.lastRebalanceDate.value) {
      SameIsoWeekUpToMondayIsSameYear(s.lastRebalanceDate.value, current);
    }
  }

  /** A date no later than a Monday in the same ISO week is that Monday, so it has the same
      calendar year. */
  lemma SameIsoWeekUpToMondayIsSameYear(last: Calendar.Date, current: Calendar.Date)
    requires last.Valid() && current.Valid()
    requires Calendar.Weekday(current) == 0 && Calendar.Ordinal(last) <= Calendar.Ordinal(current)
    requires Calendar.IsoYearWeek(current) == Calendar.IsoYearWeek(last)
    ensures Calendar.Ordinal(last) == Calendar.Ordinal(current) && last.year == current.year
  {
    Calendar.IsoWeekDeterminesWeekStart(current);
    Calendar.IsoWeekDeterminesWeekStart(last);
    assert Calendar.WeekStart(Calendar.Ordinal(current)) == Calendar.Ordinal(current);
    Calendar.OrdinalOrdersYears(last, current);
    Calendar.OrdinalOrdersYears(current, last);
  }

  /** The rule as written skips a week: after a rebalance on Monday 2024-01-01 (ISO week 1
      of 2024), Monday 2024-12-30 (ISO week 1 of 2025) has the same (calendar year, ISO
      week) key, so `generate_signal` holds without an SMA whatever the prices, where the
      ISO-keyed rule would trade. */
  lemma YearEndMondayIsSkippedAsWritten(s: CryptoTrendStrategy, prices: seq<real>, hasPosition: bool)
    requires s.Valid() && s.lastRebalanceDate == Some(Calendar.Date(2024, 1, 1))
    ensures Calendar.Weekday(Calendar.Date(2024, 12, 30)) == 0
    ensures Calendar.Ordinal(Calendar.Date(2024, 1, 1)) < Calendar.Ordinal(Calendar.Date(2024, 12, 30))
    ensures !s.ShouldRebalanceAsWritten(Calendar.Date(2024, 12, 30))
    ensures s.ShouldRebalance(Calendar.Date(2024, 12, 30))
    ensures s.GenerateSignal(prices, Calendar.Date(2024, 12, 30), hasPosition) == SignalResult(Hold, None)
    ensures |prices| >= s.smaPeriod * HoursPerDay && s.CheckVolatility(prices) ==>
              s.GenerateSignalCorrected(prices, Calendar.Date(2024, 12, 30), hasPosition).sma.Some?
  {
    assert Calendar.DaysBeforeYear(2024) == 738885;
    assert Calendar.DaysBeforeYear(2025) == 739251;
    assert Calendar.Ordinal(Calendar.Date(2024, 1, 1)) == 738886;
    assert Calendar.Ordinal(Calendar.Date(2024, 12, 30)) == 739250;
    assert Calendar.IsoWeek1Monday(2024) == 738886;
    assert Calendar.IsoWeek1Monday(2025) == 739250;
    assert Calendar.IsoYearWeek(Calendar.Date(2024, 1, 1)) == Calendar.IsoWeek(2024, 1);
    assert Calendar.IsoYearWeek(Calendar.Date(2024, 12, 30)) == Calendar.IsoWeek(2025, 1);
  }

  /** Over a flat series the SMA is the price itself, so a holder is told to sell and a
      non-holder to hold (never to buy). */
  lemma FlatPricesNeverBuy(s: CryptoTrendStrategy, prices: seq<real>, current: Calendar.Date,
                           hasPosition: bool, c: real)
    requires s.Valid() && current.Valid()
    requires forall i :: 0 <= i < |prices| ==> prices[i] == c
    ensures s.GenerateSignal(prices, current, hasPosition).signal != Buy
    ensures s.GenerateSignal(prices, current, hasPosition).sma.Some? ==>
              s.GenerateSignal(prices, current, hasPosition).signal == (if hasPosition then Sell else Hold)
  {
    if |prices| >= s.smaPeriod * HoursPerDay {
      var window := Series.Tail(prices, s.smaPeriod * HoursPerDay);
      Series.MeanOfConstant(window, c);
    }
  }
}
