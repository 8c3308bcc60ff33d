# Global Market Radar: scoring core in Dafny

The Global Market Radar is a Streamlit dashboard. It scores a curated list of stocks and ETFs and simulates a lump-sum investment in each. This project models its decision logic as pure Dafny functions and proves properties about them:

- **Quality ("Porter") score** (`Quality`). Tiered points for gross margin, return on equity, operating margin and debt-to-equity are summed and clamped to [0, 10]. Fields are read from a `yfinance` info dictionary with Python's `dict.get` defaults and truthiness, so `None` and `0` match no tier.
- **Psychology score** (`Psychology`, with moving averages in `Prices`). A neutral 5 is returned below 200 prices. Otherwise the score adds +4 above the 200-price mean, +3 above the 50-price mean, and +3 for stability. Stability comes from beta for a stock with a non-empty info dictionary and from volatility otherwise.
- **Combined signal** (`Signals`). An ordered first-match rule table gives SWEET SPOT, VALUE CHANCE, JUNK RALLY, BEAR MARKET or Neutral.
- **Investment simulator** (`Simulation`). It buys at the first price dated on or after the start date and values the position at the last price of the whole series. It returns (0, 0) when there is no such price.
- **ETF stability score** (`EtfStability`). `max(0, min(10, int(10 - vola*20)))` with truncating `int`. For ETFs it stands in for the quality score.
- **Per-instrument scoring** (`Radar`). Stock mode and ETF mode choose these scores and feed them to the signal table.

`PyValues` holds the Python semantics the scorers use: truthiness, `dict.get` and the clamp.

Volatility (`pct_change().tail(30).std() * sqrt(252)`) is not computed. It is a `real` parameter, `vola`. In ETF mode the source computes it twice with the same expression on the same series, so one value feeds both the stability score and the psychology score. Prices are exact reals. Dates are integer day numbers.

Three details of the code decide these scores:

- The ETF stability score truncates `10 - vola*20` toward zero. It does not round, so 0.12 scores 7, not 8.
- A stock whose info dictionary is `None` or empty gets its stability term from volatility, not from beta.
- A beta that is present but `None` or `0` earns no stability point. Only a missing beta defaults to 1.0.

## Model

| member | source | states |
|---|---|---|
| PyValues.Clamp | app.py:92 | The result is in [0, 10], equals the input when the input is already in range, and is 0 below the range and 10 above it. |
| Quality.PricingPowerPoints | app.py:73-77 | Gross-margin points are one of -1, 0, 2, 3, with exclusive tiers. 3 iff a non-zero margin above 0.50. 2 iff a non-zero margin in (0.30, 0.50]. -1 iff a non-zero margin below 0.10. 0 iff the margin is falsy (missing, None, 0) or in [0.10, 0.30]. |
| Quality.BarrierPoints | app.py:79-82 | Return-on-equity points are one of 0, 1, 3, never 3+1. 3 iff a non-zero ROE above 0.20. 1 iff a non-zero ROE in (0.12, 0.20]. A falsy value earns 0. |
| Quality.EfficiencyPoints | app.py:84-86 | Operating-margin points are 0 or 2. 2 iff a non-zero margin above 0.15. A falsy value earns 0. |
| Quality.DebtPoints | app.py:88-90 | Debt-to-equity points are 0 or 2. 2 iff a non-zero value below 80. A falsy value (None, or 0 even for a debt-free company) earns 0. |
| Quality.MissingDebtEarnsNothing | app.py:89-90 | Without a debtToEquity key the default of 100 earns no balance-sheet points, so the raw sum is at most 8. |
| Quality.RawScore | app.py:72-90 | The unclamped sum of the four criteria lies in [-1, 10]. |
| Quality.PorterScore | app.py:70-92 | The score is in [0, 10]. It equals the raw sum whenever that sum is non-negative, so the ceiling never acts. A negative sum becomes 0 and needs a non-zero gross margin below 0.10. The score is 10 iff every criterion reaches its top tier. |
| Quality.PorterScoreMonotone | app.py:73-90 | Given non-zero ratios, higher margins and ROE and lower debt-to-equity never lower the score. |
| Quality.TopTierExample | app.py:74-90 | gm=0.55, roe=0.25, om=0.20, de=50 scores exactly 10 (3+3+2+2). |
| Quality.MissingDataExamples | app.py:74-92 | A lone 5% gross margin sums to -1 (debt defaults to 100) and scores 0. An empty dictionary scores 0. |
| Quality.ZeroIsFalsyExamples | app.py:74-90 | de=0 earns no debt credit while de=50 earns 2. gm=0 escapes the penalty that gm=0.05 gets. None earns nothing. |
| Prices.AboveMeanWhenLastDominates | app.py:99-107 | If the last price is at least every price in the trailing window and above one of them, it is above the trailing mean. |
| Prices.NotAboveMeanWhenLastDominated | app.py:99-107 | If no price in the trailing window is below the last price, the last price is not above the trailing mean. |
| Prices.IncreasingAboveMean | app.py:99-107 | In a strictly rising series the last price is above every trailing mean of two or more prices. |
| Prices.NonIncreasingNotAboveMean | app.py:99-107 | In a series that never rises the last price is above no trailing mean. |
| Psychology.StabilityPoints | app.py:109-116 | The term is 0 or 3. For an ETF, or a stock with None/empty info, it is 3 iff vola < 0.20. For a stock with non-empty info and no beta key it is 3. With a beta key it is 3 iff beta is a non-zero number below 1.2. |
| Psychology.TrendPoints | app.py:99-107 | The two trend terms sum to one of 0, 3, 4, 7. |
| Psychology.PsychologyScore | app.py:94-118 | The score is in [0, 10] and equals 5 iff fewer than 200 prices are given. With 200 or more it is one of 0, 3, 4, 6, 7, 10. It is at least 7 iff above the 200-mean and (above the 50-mean or stable). It is at most 3 iff not above the 200-mean and not both above the 50-mean and stable. |
| Psychology.PsychologyDecomposition | app.py:99-118 | With 200 or more prices the score is 4·[above 200-mean] + 3·[above 50-mean] + 3·[stable], with no clamping. |
| Psychology.EtfIgnoresInfo | app.py:110-116 | An ETF's score does not depend on its info dictionary. A stock with None/empty info scores exactly like an ETF. |
| Psychology.RisingSeriesScoresTen | app.py:99-118 | A strictly rising series of 200 or more prices that earns the stability point scores 10. |
| Psychology.FallingSeriesScoresAtMostThree | app.py:99-118 | A series of 200 or more prices that never rises scores at most 3. |
| Signals.Classify | app.py:120-126 | Each signal holds exactly on its own region, independent of rule order. SWEET SPOT iff q≥7∧p≥7. VALUE CHANCE iff q≥7∧p≤4, even for p≤3. JUNK RALLY iff q≤4∧p≥7. BEAR MARKET iff q<7∧p≤3. Neutral iff p≥4 ∧ (q≥7 ⇒ 5≤p≤6) ∧ (q≤4 ⇒ p≤6). |
| Signals.CombinedSignal | app.py:120-126 | Returns the title and the description of the signal the rule table selects. No other signal has that title. |
| Signals.TitleIdentifiesSignal | app.py:122-126 | The five titles are pairwise distinct, so the title identifies the rule that fired. |
| Signals.MiddleQualityIsBearOrNeutral | app.py:120-126 | Quality 5 or 6 yields only BEAR MARKET or Neutral. |
| Signals.ClassifyExamples | app.py:122-126 | (9,8) gives SWEET SPOT, (9,3) VALUE CHANCE, (3,8) JUNK RALLY, (5,2) BEAR MARKET and (5,5) Neutral. |
| Simulation.EntryPrice | app.py:130-133 | There is no entry price iff every observation is dated before the start. Otherwise it is the price of the first observation, in series order, dated on or after the start. With positive prices it is positive. |
| Simulation.Simulate | app.py:128-139 | Returns (0, 0) when no observation is dated on or after the start, which includes an empty series. Otherwise it is the `Holding` position bought at the entry price and valued at the last price of the whole series. For a positive amount the value is positive and the profit is positive, zero or negative iff the last price is above, equal to or below the entry price. |
| Simulation.Holding | app.py:136-139 | Buying amount/entry shares and valuing them at `last` gives value × entry = amount × last and profit = value − amount. For a positive amount the profit's sign is the sign of last − entry. |
| Simulation.EarlyStartBuysFirstPrice | app.py:130-133 | A start on or before the first date enters at the first price. |
| Simulation.SortedNoDataIff | app.py:129-131 | For a date-sorted series the sentinel case occurs iff the series is empty or the start date is after its last date. |
| Simulation.SimulateExample | app.py:128-139 | Investing 1000 at 100 with a last price of 150 gives (1500, 500). |
| EtfStability.Trunc | app.py:210 | Python `int()` on a float truncates toward zero: the result lies within 1 of x, on the side of zero. |
| EtfStability.StabilityScore | app.py:209-210 | The score is in [0, 10]. It is 10 iff vola ≤ 0 and 0 iff vola > 0.45. Otherwise a score k has vola in ((9−k)/20, (10−k)/20]. |
| EtfStability.StabilityScoreAntitone | app.py:210 | Higher volatility never raises the score. |
| EtfStability.StabilityScoreExamples | app.py:210 | vola 0 gives 10, 0.12 gives 7 (truncated, not rounded), 0.45 gives 1 and 0.5 gives 0. |
| Radar.ScoreInstrument | app.py:194-213 | Both scores are in [0, 10] and the signal is the rule table applied to them. A stock's quality is the Porter score of its info, or 0 when fetching info failed. Its trend score is the psychology score with that info, or with None after a failed fetch, as a stock. An ETF's quality is the stability score of its volatility, and its trend score is the psychology score with None, as an ETF. The trend score is 5 iff the history is shorter than 200 prices. |
| Radar.MissingFundamentalsNoQualitySignal | app.py:197-213 | A stock whose info could not be fetched is never SWEET SPOT or VALUE CHANCE. |
| Radar.VolatileEtfNoQualitySignal | app.py:207-213 | An ETF with vola > 0.45 is never SWEET SPOT or VALUE CHANCE. |
| Radar.CalmEtfSignals | app.py:207-213 | An ETF with vola ≤ 0.15 is never JUNK RALLY or BEAR MARKET. With a strictly rising history of 200 or more prices it is SWEET SPOT. |

## Left out

- Simulation.Simulate: requires every price to be positive. A zero entry price is a division by zero in the source, which the model does not represent.
- Volatility (`pct_change`, sample standard deviation, `sqrt(252)`): floating-point numerics, taken as the parameter `vola`. NaN volatility is not modelled.
- Floating point in general: prices, ratios and means are exact reals. Rounding in the rolling mean and in the simulator's division is not modelled.
- Info values other than numbers and `None` are not modelled. Booleans compare as 1 and 0 in the source (a `True` gross margin earns +3). Non-empty strings raise a TypeError; an empty string is falsy and earns nothing.
- The start date's `pd.to_datetime` conversion and the date index: dates are integer day numbers.
- Streamlit page setup, sidebar inputs, KPI metrics, `color_signal`, column configuration and the chart with its rebase to the invested amount: presentation only.
- `load_market_data`, `yf.download` and `yf.Ticker(...).info`: network I/O and caching in a foreign library. Radar.ScoreInstrument receives already-fetched prices and info. A failed info fetch is represented as `None`.
- The sector and ticker tables: static configuration.
- The per-ticker loop's skip of missing or empty series and its `except: continue`. Also left out are exceptions raised inside the scorers themselves, which the inner `except` also turns into the fallback, and the assembly of the result table: orchestration around foreign calls.
- An ETF metrics analyser, a valuation classifier and a discrete-trend signal matrix: none of them appears in app.py.
