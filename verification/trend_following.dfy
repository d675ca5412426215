/** The equity trend strategy: an SMA over daily closes, rebalanced once per calendar month,
    buying above the SMA and selling at or below it.

    Prices are daily closes, oldest first. A `datetime` enters only through its year and
    month. */
module TrendFollowing {
  import opened Wrappers
  import Series
  import Calendar
  import opened Signals

  class TrendFollowingStrategy {
    const smaPeriod: int
    var lastRebalanceDate: Option<Calendar.Date>

    constructor (smaPeriod: int)
      requires smaPeriod >= 1
      ensures this.smaPeriod == smaPeriod && lastRebalanceDate == None
    {
      this.smaPeriod := smaPeriod;
      lastRebalanceDate := None;
    }

    /** `calculate_sma`: present exactly when there are `smaPeriod` closes, and then the mean
        of the last `smaPeriod` of them, which lies within their range. */
    function CalculateSma(prices: seq<real>): (r: Option<real>)
      requires smaPeriod >= 1
      ensures r.None? <==> |prices| < smaPeriod
      ensures r.Some? ==>
                var window := Series.Tail(prices, smaPeriod);
                r.value == Series.Mean(window) && Series.Min(window) <= r.value <= Series.Max(window)
    {
      if |prices| < smaPeriod then None
      else
        var window := Series.Tail(prices, smaPeriod);
        Series.MeanBetweenMinAndMax(window);
        Some(Series.Mean(window))
    }

    /** `should_rebalance`: the first call, or a (year, month) other than the last
        rebalance's. */
    function ShouldRebalance(current: Calendar.Date): (b: bool)
      reads this
      ensures b <==> lastRebalanceDate.None? ||
                       lastRebalanceDate.value.year != current.year ||
                       lastRebalanceDate.value.month != current.month
    {
      match lastRebalanceDate
      case None => true
      case Some(last) => (current.year, current.month) != (last.year, last.month)
    }

    /** `generate_signal`: on a rebalance day with enough data, BUY strictly above the SMA and
        SELL otherwise; HOLD with no SMA on every other day. */
    function GenerateSignal(prices: seq<real>, current: Calendar.Date): (r: SignalResult)
      reads this
      requires smaPeriod >= 1
      ensures r.sma.Some? <==> |prices| >= smaPeriod && ShouldRebalance(current)
      ensures r.sma.None? ==> r.signal == Hold
      ensures r.sma.Some? ==>
                r.sma == CalculateSma(prices) &&
                r.signal == (if prices[|prices| - 1] > r.sma.value then Buy else Sell)
    {
      if |prices| < smaPeriod then SignalResult(Hold, None)
      else if !ShouldRebalance(current) then SignalResult(Hold, None)
      else
        var currentPrice := prices[|prices| - 1];
        // The source's `sma_value is None` exit cannot fire here: the length was checked above.
        var sma := CalculateSma(prices).value;
        if currentPrice > sma then SignalResult(Buy, Some(sma))
        else SignalResult(Sell, Some(sma))
    }

    /** `mark_rebalanced`: from now on exactly the dates of other months rebalance. */
    method MarkRebalanced(date: Calendar.Date)
      modifies this`lastRebalanceDate
      ensures lastRebalanceDate == Some(date)
      ensures forall d: Calendar.Date {:trigger ShouldRebalance(d)} ::
                ShouldRebalance(d) <==> d.year != date.year || d.month != date.month
    {
      lastRebalanceDate := Some(date);
    }
  }

  /** Rebalancing is at least monthly: any date 31 or more days after the last rebalance lies
      in another month, so it rebalances. */
  lemma RebalancesWithin31Days(s: TrendFollowingStrategy, current: Calendar.Date)
    requires current.Valid()
    requires s.lastRebalanceDate.Some? && s.lastRebalanceDate.value.Valid()
    requires Calendar.Ordinal(current) >= Calendar.Ordinal(s.lastRebalanceDate.value) + 31
    ensures s.ShouldRebalance(current)
  {
  }

  /** A price equal to the SMA is a SELL: over a flat series the strategy never buys, and
      sells on every rebalance day with enough data. */
  lemma FlatPricesSell(s: TrendFollowingStrategy, prices: seq<real>, current: Calendar.Date, c: real)
    requires s.smaPeriod >= 1
    requires forall i :: 0 <= i < |prices| ==> prices[i] == c
    ensures s.GenerateSignal(prices, current).signal != Buy
    ensures |prices| >= s.smaPeriod && s.ShouldRebalance(current) ==>
              s.GenerateSignal(prices, current) == SignalResult(Sell, Some(c))
  {
    if |prices| >= s.smaPeriod {
      Series.MeanOfConstant(Series.Tail(prices, s.smaPeriod), c);
    }
  }
}
