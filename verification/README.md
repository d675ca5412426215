# crypt-bot core in Dafny

A Dafny model of the decision-making core of the crypt-bot trading bot, with proofs about it.
The core has five parts:

- **Reliability.**
  - A circuit breaker. It is CLOSED, OPEN or HALF_OPEN, counts consecutive failures, and stores its state per breaker name.
  - A retry decorator with exponential, jittered, capped backoff. Non-retryable errors are not retried.
  - A position lock. It polls a non-blocking exclusive file lock every 100 ms until it gets the lock or the timeout passes.
- **The crypto trend strategy.**
  - An SMA over hourly bars, 24 bars per day.
  - A weekly rebalance on Mondays.
  - A volatility filter over the last 24 bars.
  - A stop loss measured from the entry price.
- **The equity trend strategy.** An SMA over daily closes with a monthly rebalance.
- **The configuration validator.**
  - API-key, credential and trading-parameter checks. Each check appends to an error list and a warning list.
  - A redacted summary of the environment.
- **Market hours.** US Eastern sessions, the 2024–2025 holiday and early-close tables, and the trading gate built from them.

Each part keeps the form it has in the source:

- Objects whose fields change in place are classes, with `modifies` frames:
  - the breaker and its state store;
  - the lock file;
  - both strategies;
  - the validator.
- Each such method is specified by a pure function of the old state:
  - `CallTransition`, `AfterSuccess` and `AfterFailure` for the breaker;
  - the `…Report` functions for the validator.
- Loops that step through state are methods with invariants:
  - the retry loop and the lock's polling loop;
  - the search for the next market open;
  - the validator's scans: the placeholder search in `ValidateApiKey`, the missing-variable scan in `ValidateRequiredEnvVars`, and the redaction pass in `GetSanitizedEnvSummary`.
- Two loops that only compute a value are recursive functions:
  - the session-table scan in `get_market_session` (core/market_hours.py:154) is `FirstSessionContaining`;
  - the comprehension counting the stock universe (core/config.py:247) is `CountNonBlank`.
- Pure queries are functions.

The shared building blocks are these modules:

- `Series`: sum, mean, min and max over real-valued prices.
- `Calendar`: proleptic Gregorian ordinals, weekdays, and Python's ISO-calendar algorithm.
- `Text`: ASCII case mapping, substring search and split.

Observations the proofs make explicit:

- With the default placeholder list, a key starting with `sample_` can never reach the "test key" warning. It contains the placeholder `sample` and is rejected first (`Config.SamplePrefixIsRejected`).
- A failure time of exactly 0.0 is saved as null, because the source tests it for truthiness. It does not survive a save and reload (`CircuitBreakers.ZeroFailureTimeIsLost`).
- An OPEN record with no failure time makes `call` raise a `TypeError` before the operation runs. The model returns `MissingFailureTime` for this case.
- On a normal trading day, 9:30 itself is pre-market and 16:00 itself is regular. This follows from the table's inclusive ends and the order it is searched in.
- HALF_OPEN admits every call made once the timeout has passed (core/reliability.py:43-47). Nothing limits it to a single probe.
- The "Market closed" reason of `should_trade_stocks` (core/market_hours.py:266) can never be returned. A day that is not a trading day is always a weekend or a holiday, so one of the two earlier branches answers first (`MarketHours.ShouldTradeStocks` ensures the reason is never `MarketClosed`).
- The lock's polling loop (core/reliability.py:222-229) measures its timeout on `time.time()`, a wall clock that can be set back. If it is set back while the lock is held elsewhere, the loop keeps polling past its timeout. The model's termination bound holds only for clock readings that advance at least 100 ms per poll.

## Model

| member | source | states |
|---|---|---|
| `CircuitBreakers.TransitionsKeepOpenInvariant` | core/reliability.py:136-153 | success, failure and a whole call keep "OPEN implies count ≥ threshold and a known failure time" |
| `CircuitBreakers.OpenRejectsBeforeTimeout` | core/reliability.py:43-45 | an OPEN breaker inside its timeout rejects with "service unavailable", without running the operation or changing any field |
| `CircuitBreakers.ProbeAfterTimeout` | core/reliability.py:43-56 | once the timeout has passed, the call runs as a probe: success gives count 0 and CLOSED; failure re-opens at once with count + 1 and the new failure time |
| `CircuitBreakers.ConsecutiveFailures` | core/reliability.py:144-153 | n consecutive failures add n to the count and record the last failure time; the state is OPEN once the count reaches the threshold and untouched below it |
| `CircuitBreakers.ThresholdFailuresOpen` | core/reliability.py:146-150 | from a fresh breaker, exactly `threshold` failures open it |
| `CircuitBreakers.RecoveryScenario` | core/reliability.py:41-56 | threshold 3: three failures open the breaker; a success after the timeout closes it with no failures |
| `CircuitBreakers.SaveThenLoad` | core/reliability.py:72-105 | a saved record loads back as the same count, state and failure time (failure time other than 0.0) |
| `CircuitBreakers.ZeroFailureTimeIsLost` | core/reliability.py:104-105 | a failure time of 0.0 is written as null and reloads as no failure time |
| `CircuitBreakers.LoadFallsBackToFresh` | core/reliability.py:86-90 | a missing or unreadable state file loads as CLOSED with no failures and no failure time |
| `CircuitBreakers.CircuitBreaker.constructor` | core/reliability.py:31-39 | a new breaker holds the state stored under its name |
| `CircuitBreakers.CircuitBreaker.ResetState` | core/reliability.py:92-96 | count 0, no failure time, CLOSED |
| `CircuitBreakers.CircuitBreaker.LoadState` | core/reliability.py:58-90 | the fields become the stored record, with defaults for missing keys, or the reset state |
| `CircuitBreakers.CircuitBreaker.SaveState` | core/reliability.py:98-134 | the store holds the encoded fields under the breaker's name when writes succeed, and is untouched when they fail |
| `CircuitBreakers.CircuitBreaker.OnSuccess` | core/reliability.py:136-142 | from any state: count 0, CLOSED, failure time kept, state saved |
| `CircuitBreakers.CircuitBreaker.OnFailure` | core/reliability.py:144-153 | count + 1, failure time now, OPEN when the count reaches the threshold, otherwise state unchanged; saved |
| `CircuitBreakers.CircuitBreaker.Call` | core/reliability.py:41-56 | result and new fields are those of `CallTransition`; the state is saved exactly when the operation ran |
| `CircuitBreakers.ReloadAfterFailure` | core/reliability.py:58-153 | a breaker built after another recorded a failure sees that breaker's exact state |
| `Retry.BackoffDelayBounds` | core/reliability.py:178-180 | each sleep is at most `max_delay`, at most base + 1 s, and at least the base when the cap is not reached |
| `Retry.BackoffBaseDoubles` | core/reliability.py:180 | the exponential base doubles with each attempt and never falls below the factor |
| `Retry.NonRetryableIgnoresCase` | core/reliability.py:169-170 | the non-retryable classification does not depend on letter case |
| `Retry.AuthenticationFailureIsNonRetryable` | core/reliability.py:169-173 | "Authentication failed" is not retried |
| `Retry.RetryWithBackoff` | core/reliability.py:156-186 | between 1 and max_retries + 1 attempts; result is the last attempt's; every earlier attempt was a retryable failure; stops only on success, a non-retryable error or the last attempt; one capped delay per retry; a negative delay makes the sleep raise ValueError, which ends the call; with max_delay < 0 at most one attempt is made; max_retries < 0 raises the TypeError of `raise None` |
| `PositionLock.PollBound` | core/reliability.py:222-229 | with 100 ms between polls, a reading not past the timeout bounds the polls made to 10 × timeout |
| `PositionLock.WithPositionLock` | core/reliability.py:189-240 | the file is unlocked and closed on every exit; timeout iff the last poll failed after the timeout; the block runs iff the lock was acquired; at most 10 × timeout + 2 polls |
| `CryptoTrend.CryptoTrendStrategy.constructor` | strategies/crypto_trend.py:31-47 | parameters stored; no rebalance date, no entry price |
| `CryptoTrend.CryptoTrendStrategy.CalculateSma` | strategies/crypto_trend.py:54-74 | None iff fewer than 24 × period bars; otherwise the mean of the last 24 × period bars, within their range |
| `CryptoTrend.CryptoTrendStrategy.CheckVolatility` | strategies/crypto_trend.py:107-132 | never safe with fewer than 24 bars |
| `CryptoTrend.VolatilityFilter` | strategies/crypto_trend.py:118-125 | over positive prices: safe iff the 24-bar range is below threshold × 24-bar mean |
| `CryptoTrend.CryptoTrendStrategy.CheckStopLoss` | strategies/crypto_trend.py:134-157 | fires only with a position and an entry price |
| `CryptoTrend.StopLossThreshold` | strategies/crypto_trend.py:148-157 | with a positive entry price: fires iff price < entry × (1 − stop_loss_pct), strictly |
| `CryptoTrend.CryptoTrendStrategy.ShouldRebalanceAsWritten` | strategies/crypto_trend.py:76-98 | true with no previous rebalance; otherwise true only on a Monday; agrees with the ISO-week rule whenever neither date lies in a year-boundary ISO week |
| `CryptoTrend.CryptoTrendStrategy.ShouldRebalance` | strategies/crypto_trend.py:76-98 | the same rule with weeks keyed by ISO year and week: true with no previous rebalance, otherwise only on a Monday |
| `CryptoTrend.AsWrittenFiresOnlyWhenCorrectedDoes` | strategies/crypto_trend.py:87-98 | for dates not before the last rebalance, the source's rule rebalances only where the ISO-week rule does |
| `CryptoTrend.CryptoTrendStrategy.GenerateSignal` | strategies/crypto_trend.py:159-211 | gated by the source's rebalance rule: HOLD without SMA unless enough data, a rebalance point and safe volatility; with an SMA it is the 24 × period mean; BUY only without a position above the SMA; SELL only with a position, on stop loss or at/below the SMA; HOLD otherwise |
| `CryptoTrend.CryptoTrendStrategy.GenerateSignalCorrected` | strategies/crypto_trend.py:159-211 | the same signal rule gated by the ISO-week rebalance rule |
| `CryptoTrend.FlatPricesNeverBuy` | strategies/crypto_trend.py:204-211 | over a flat series the SMA equals the price: a holder sells, a non-holder holds, nobody buys |
| `CryptoTrend.CryptoTrendStrategy.MarkRebalanced` | strategies/crypto_trend.py:213-221 | sets only the rebalance date; the same date does not rebalance again under either rule |
| `CryptoTrend.CryptoTrendStrategy.SetEntryPrice` | strategies/crypto_trend.py:223-231 | sets only the entry price |
| `CryptoTrend.CryptoTrendStrategy.ClearEntryPrice` | strategies/crypto_trend.py:233-236 | clears only the entry price; no stop loss fires afterwards |
| `CryptoTrend.MondayAfterEarlierRebalanceFires` | strategies/crypto_trend.py:87-98 | with weeks keyed by ISO year and week, every Monday after the last rebalance rebalances |
| `CryptoTrend.YearEndMondayIsSkippedAsWritten` | strategies/crypto_trend.py:91-98 | with the source's (calendar year, ISO week) key, Monday 2024-12-30 after a rebalance on Monday 2024-01-01 is skipped: the signal there is HOLD without an SMA, while the corrected signal computes one |
| `TrendFollowing.TrendFollowingStrategy.constructor` | strategies/trend_following.py:22-31 | period stored; no rebalance date |
| `TrendFollowing.TrendFollowingStrategy.CalculateSma` | strategies/trend_following.py:33-48 | None iff fewer than `period` closes; otherwise the mean of the last `period`, within their range |
| `TrendFollowing.TrendFollowingStrategy.ShouldRebalance` | strategies/trend_following.py:50-76 | true on the first call, otherwise iff the year or the month differs from the last rebalance |
| `TrendFollowing.TrendFollowingStrategy.GenerateSignal` | strategies/trend_following.py:78-117 | an SMA iff enough data on a rebalance day, then BUY iff last close > SMA, else SELL; otherwise HOLD without SMA |
| `TrendFollowing.TrendFollowingStrategy.MarkRebalanced` | strategies/trend_following.py:119-127 | sets only the date; afterwards exactly the dates of other months rebalance |
| `TrendFollowing.RebalancesWithin31Days` | strategies/trend_following.py:50-76 | a date 31 or more days after the last rebalance falls in another month and rebalances, so rebalancing is at least monthly |
| `TrendFollowing.FlatPricesSell` | strategies/trend_following.py:109-117 | a price equal to the SMA is a SELL, so a flat series never buys |
| `Config.FirstForbiddenFinds` | core/config.py:61-67 | any placeholder occurring in the key is caught, and the one reported occurs in the key |
| `Config.ApiKeyReport` | core/config.py:54-88 | valid iff non-empty, no placeholder, and length within [min, max]; a rejection appends exactly one error, an acceptance none; the test-prefix warning only on acceptance |
| `Config.PlaceholderRejected` | core/config.py:61-67 | a key containing any placeholder, in any case, is rejected |
| `Config.SamplePrefixIsRejected` | core/config.py:83-88 | with the defaults a `sample_` key is rejected, so its warning is never issued |
| `Config.AlpacaReport` | core/config.py:90-110 | valid iff both keys validate and differ; valid iff no error was appended |
| `Config.ClaudeReport` | core/config.py:112-136 | valid with no entries when LLM analysis is off; otherwise valid iff the key validates |
| `Config.MissingVarsExact` | core/config.py:140-145 | the missing list holds exactly the required names with no non-empty value |
| `Config.RequiredReport` | core/config.py:138-153 | valid iff every required name has a non-empty value; otherwise the one error lists exactly the missing names; never warns |
| `Config.TradingChecksComplete` | core/config.py:155-263 | the ordered checks accept exactly the parameters meeting every stated range, the RSI order, the timeframe list, the mode and the 1–50 universe size |
| `Config.TradingReport` | core/config.py:155-263 | valid iff every condition holds; at most one error; never warns |
| `Config.AllReport` | core/config.py:316-351 | valid iff no error, iff all four validators pass |
| `Config.RedactionHidesTheRest` | core/config.py:358-362 | a sensitive value's redaction depends only on its first four characters and whether it is longer than four |
| `Config.GetSanitizedEnvSummary` | core/config.py:353-366 | same names as the environment; each value redacted if sensitive and copied otherwise |
| `Config.SecureConfigValidator.constructor` | core/config.py:49-52 | default security config when none is given; both lists empty |
| `Config.SecureConfigValidator.ValidateApiKey` | core/config.py:54-88 | result and appended entries are those of `ApiKeyReport` |
| `Config.SecureConfigValidator.ValidateAlpacaCredentials` | core/config.py:90-110 | result and appended entries are those of `AlpacaReport` |
| `Config.SecureConfigValidator.ValidateClaudeCredentials` | core/config.py:112-136 | result and appended entries are those of `ClaudeReport` |
| `Config.SecureConfigValidator.ValidateRequiredEnvVars` | core/config.py:138-153 | result and appended error are those of `RequiredReport` |
| `Config.SecureConfigValidator.ValidateTradingParameters` | core/config.py:155-263 | result and the one appended error are those of `TradingReport` |
| `Config.SecureConfigValidator.ValidateAll` | core/config.py:316-351 | both lists cleared, then hold the four validators' entries in order; true iff no error was recorded |
| `MarketHours.IsMarketHoliday` | core/market_hours.py:98-102 | a listed holiday always falls on a weekday |
| `MarketHours.IsEarlyCloseDay` | core/market_hours.py:104-108 | an early-close day is a weekday that is not a holiday |
| `MarketHours.IsWeekend` | core/market_hours.py:110-114 | weekend iff the day is a whole number of weeks from Saturday 2024-01-06, or one day more (a Saturday or a Sunday) |
| `MarketHours.IsTradingDay` | core/market_hours.py:116-121 | a trading day is a weekday; every early-close day is a trading day |
| `MarketHours.SessionNamed` | core/market_hours.py:35-57 | the session with that key, or none for an unknown name |
| `MarketHours.GetMarketSession` | core/market_hours.py:124-158 | none on non-trading days; early close: pre-market [4:00, 9:30), regular [9:30, 13:00]; normal day: pre-market [4:00, 9:30], regular (9:30, 16:00], after-hours (16:00, 20:00]; none otherwise |
| `MarketHours.ExtendedHours` | core/market_hours.py:140-158 | some session is open iff it is a trading day and 4:00 ≤ t ≤ the last close (13:00 or 20:00) |
| `MarketHours.IsMarketOpen` | core/market_hours.py:160-175 | "any" iff some session; otherwise iff the current session has that name |
| `MarketHours.RegularHours` | core/market_hours.py:143-158 | regular iff trading day and t in (9:30, 16:00], or [9:30, 13:00] on early-close days |
| `MarketHours.GetMarketCloseTime` | core/market_hours.py:206-217 | none iff not a trading day; 13:00 on early-close days; 16:00 otherwise |
| `MarketHours.CloseTimeIsInRegularHours` | core/market_hours.py:211-217 | at the close time itself the regular session is still open |
| `MarketHours.CloseTimeIsLastRegularInstant` | core/market_hours.py:206-217 | after the close time the regular session is closed for the rest of the day |
| `MarketHours.GetNextMarketOpen` | core/market_hours.py:177-204 | KeyError iff unknown session; otherwise the session start on the first qualifying day of the next ten (today only before the start), else today + 7 |
| `MarketHours.ShouldTradeStocks` | core/market_hours.py:252-288 | never on non-trading days, with reason weekend or holiday and never "market closed"; with regular hours required, iff the session is regular, with the "regular market hours" reason exactly then, and the pre-market and after-hours reasons exactly in those sessions; otherwise iff any session is open, naming it; on a trading day every other closed answer carries the next regular open: the first day of the next ten that opens at 9:30, else a week ahead |
| `MarketHours.TablesAreConsistent` | core/market_hours.py:60-92 | every listed holiday is a weekday; every early-close day is a weekday that is not a listed holiday |

## Left out

- File system, JSON and locking mechanics of the breaker's state file. The store is a map from breaker name to record, plus a flag saying whether writes succeed. The ISO-timestamp encoding of the failure time is taken as exact.
- Stored state strings other than CLOSED, OPEN and HALF_OPEN, and non-integer failure counts in a state file, are not modelled.
- Concurrency between processes or threads is not modelled. This covers the HALF_OPEN probe race, competing lock holders and simultaneous state-file writers.
- Logging throughout.
- Wall-clock time, `time.sleep` and `random.uniform` are inputs. The lock's clock readings must be at least 100 ms apart for each poll.
- `PositionLock.WithPositionLock`: the guarded block is represented by its outcome. A failure of `os.makedirs` or `open` is a single `OpenFailed` result. Release failures, which the source only logs, are not modelled.
- `CircuitBreakers.CircuitBreaker.Call`: the operation's outcome is a success or an `Exception`. An operation raising some other `BaseException` (such as `KeyboardInterrupt`) skips `on_failure` in the source, leaving a breaker past its timeout HALF_OPEN in memory and unsaved; that path is not modelled.
- `Retry.RetryWithBackoff`: exceptions that do not derive from `Exception` pass through the decorator in the source and are not modelled. The error text is taken to be `str(e)`.
- Prices are reals: pandas mechanics, NaN and floating-point rounding are not modelled. In the volatility filter and the stop loss, a division by zero follows numpy's infinity and NaN comparisons.
- `CryptoTrend.CryptoTrendStrategy.constructor`: requires `sma_period >= 1`. A non-positive period makes pandas average an empty or truncated tail, which is not modelled.
- `TrendFollowing.TrendFollowingStrategy.constructor`: requires `sma_period >= 1`, for the same reason.
- A `datetime` passed to a strategy enters only through its date. Time of day plays no part in either strategy.
- `check_file_security` is modelled only as returning True inside `validate_all`. It reads the `.env` file and its permissions, and its file-based warnings are not modelled.
- `validate_configuration` and `secure_env_var` are not modelled. The first only constructs a validator and calls `validate_all`; the second only logs.
- Environment reads are a map from name to value. Trading parameters arrive already parsed, with `None` where `int()` or `float()` raises. The text of the `ValueError` message is reduced to the parameter's name.
- `Config.TradingParamsValid`: `float('nan')` passes every range check in the source, and reals have no NaN, so that case is not modelled.
- Error and warning messages are datatypes carrying the reported values, not formatted strings.
- Case mapping covers ASCII letters only. Whitespace stripping covers the ASCII characters `str.strip()` removes, not Unicode whitespace.
- Time zones are not modelled. This covers `pytz` conversion, `get_current_et_time`, `get_market_status` and `log_market_status`. Eastern date and time are inputs: the date as a day ordinal, the time as microseconds since midnight.
- `MarketHours.ShouldTradeStocks`: the source reads the clock separately in each helper it calls. The model takes all of them at one instant.
- `MarketHours.GetNextMarketOpen`: the result is a day ordinal and a time of day, not a localised `datetime`.

## Findings

| source | as written | input that shows it | evidently intended | confidence | as-written member | corrected member |
|---|---|---|---|---|---|---|
| strategies/crypto_trend.py:91-98 | weeks are keyed by (calendar year, ISO week number) | last rebalance Monday 2024-01-01 (ISO 2024-W01), now Monday 2024-12-30 (ISO 2025-W01): both keys are (2024, 1), so a new week's Monday does not rebalance. `mark_rebalanced` is called only after a trade, so a year of HOLD signals reaches this state | key weeks by (ISO year, ISO week), so every Monday of a new week rebalances | not executed | `CryptoTrend.YearEndMondayIsSkippedAsWritten` | `CryptoTrend.MondayAfterEarlierRebalanceFires`, `CryptoTrend.CryptoTrendStrategy.GenerateSignalCorrected` |
