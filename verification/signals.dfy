/** The trading signal both strategies produce. */
module Signals {
  import opened Wrappers

  datatype Signal = Buy | Sell | Hold

  /** What `generate_signal` returns: the signal and the SMA it was computed from, if any. */
  datatype SignalResult = SignalResult(signal: Signal, sma: Option<real>)
}
