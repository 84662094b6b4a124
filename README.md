# crypto-analyzer: a Dafny model of its signal pipeline

crypto-analyzer is a small Streamlit app (`main.py`). It fetches hourly OHLCV candles for a
symbol from an exchange, retrying a few times. It then adds RSI, MACD, MACD-signal and a
44-period moving average to the data frame. Finally it labels every row Buy, Sell or Hold and
draws a chart. This project models the three pieces of logic in that file and proves what they
compute:

- `fetcher.dfy` (module `Fetcher`): the bounded retry loop of `fetch_crypto_data`. The
  exchange is a script of outcomes, one per call: `Ok(rows)` or `Err(message)`. The console
  messages and the 5-second pauses are recorded as a sequence of events. The method
  `FetchCryptoData` is a `while` loop over the `retries` counter. It is proved equal to the
  specification `Fetch`: the first success among the first `max_retries` outcomes, or giving
  up after all of them.
- `indicators.dfy` (module `Indicators`): `rolling(window=44).mean()` on the close prices.
  `Rolling` is a running-sum pass, the way pandas computes a rolling mean. It is proved equal
  to the reference `WindowMean`, the sum of the window divided by its width. Rows before the
  window is full are `None` (NaN).
- `signals.dfy` (module `Signals`): the `Indicator` column. `LabelSignals` fills an array with
  `Hold`, then overwrites the Buy rows in place, then the Sell rows. It is proved equal to the
  per-row rule `Classify`. Indicator values are `Option<real>` and `None` (NaN) fails every
  comparison.
- `app.dfy` (module `App`): `calculate_technical_indicators` and the data flow of `main`.
  RSI, MACD and the signal line come from the `ta` library; here they are function parameters.
- `wrappers.dfy` (module `Wrappers`): the `Option` type.

Two behaviours of `fetch_crypto_data` worth stating:

- It keeps the exchange's rows as returned: it does not sort or deduplicate timestamps
  (main.py:15-17). The model keeps the rows in the order the exchange gave them.
- The retry bound may be any integer. With 0 or less no attempt is made, the "Failed to fetch"
  message is printed and `None` is returned (main.py:11, 23-24). `FetchWithoutRetries` states this.

## Model

| member | source | states |
|---|---|---|
| `Fetcher.FetchCryptoData` | main.py:9-24 | The loop's data, number of consumed outcomes and log are exactly those of the specification `Fetch` |
| `Fetcher.FirstOk` | main.py:11-18 | The index it finds is a success within the first n outcomes with only failures before it; when it finds none, all n outcomes failed |
| `Fetcher.FailureLogAt` | main.py:19-22 | The log of k failures has 2k entries; entry 2j is the message for attempt j+1 with that attempt's error, and entry 2j+1 is a 5-second pause |
| `Fetcher.FetchAttemptsBounded` | main.py:10-11 | At most `max_retries` attempts, and none when it is not positive; giving up means every allowed attempt was made and failed |
| `Fetcher.FetchReturnsFirstSuccess` | main.py:14-18 | Data is returned iff some allowed attempt succeeds; it is the data of the last consumed outcome, and every earlier attempt failed |
| `Fetcher.FetchLogShape` | main.py:19-23 | One message and one 5-second pause per failed attempt, numbered 1, 2, ... and never above `max_retries`; giving up adds the final message |
| `Fetcher.FetchWithoutRetries` | main.py:10-24 | With `max_retries` <= 0 nothing is attempted, only the final message is printed, and the result is `None` |
| `Fetcher.FetchIgnoresUnconsumed` | main.py:14-18 | Outcomes after the returning attempt are never consumed: any script with the same consumed prefix gives the same run |
| `Fetcher.FailTwiceThenSucceed` | main.py:9-24 | Two failures then a success, with the default bound 3: the success's rows after exactly two logged failures |
| `Fetcher.AlwaysFail` | main.py:9-24 | Three failures with the default bound: `None` after exactly three attempts, three messages, three pauses and the final message |
| `Indicators.Rolling` | main.py:37 | The running-sum pass from row i gives, at each later row, the mean of the window ending there, or `None` while the window is not full |
| `Indicators.RollingMean` | main.py:37 | One value per close, each equal to the reference windowed mean |
| `Indicators.MovingAverage` | main.py:37 | Same length as the closes; `None` for rows 0..42; row t >= 43 is the sum of closes t-43..t divided by 44 |
| `Indicators.MovingAverageWithinWindow` | main.py:37 | A defined MA value lies between the lowest and the highest close of its window |
| `Indicators.MovingAverageOfConstant` | main.py:37 | Constant closes give an MA equal to that price from row 43 on |
| `Indicators.MovingAverageNoLookahead` | main.py:37 | Appending later closes does not change any earlier MA value |
| `Signals.LabelSignals` | main.py:67-69 | The Hold fill followed by the Buy and Sell overwrites gives, row for row, the rule `Classify` |
| `Signals.MasksDisjoint` | main.py:68-69 | No row is in both the Buy and the Sell mask, so the Sell overwrite never replaces a Buy |
| `Signals.ClassifyRule` | main.py:67-69 | Buy iff RSI, MACD and signal are all defined with RSI < 30 and MACD > signal; Sell iff all defined with RSI > 70 and MACD < signal; Hold iff neither mask holds |
| `Signals.HoldOnTiesAndGaps` | main.py:68-69 | An undefined value, an RSI of exactly 30 or 70, or MACD equal to its signal gives Hold |
| `Signals.SignalsArePerRow` | main.py:67-69 | One signal per row, and row t's signal depends only on row t's three values |
| `Signals.ExampleRows` | main.py:68-69 | RSI 25 with MACD 1.2 over 0.8 is Buy; RSI 75 with MACD 0.5 under 0.9 is Sell; RSI 50 is Hold whatever MACD does |
| `App.CalculateTechnicalIndicators` | main.py:26-39 | The candle rows are unchanged; RSI, MACD and MACD_Signal are the library's columns of the closes; MA is `MovingAverage` of the closes (the 44-close mean from row 43 on); every new column has one entry per row; MA is undefined exactly on the first 43 rows |
| `App.RunMain` | main.py:60-69 | The fetch's log is passed on. The report is an error exactly when the fetch gave up. Otherwise it holds the indicator frame of the fetched candles and one `Classify` signal per row |

## Left out

- The exchange client (`ccxt.binance()`, `fetch_ohlcv`): a network call. It is replaced by a script of outcomes, one per call. The script must cover every call the loop can make (`maxRetries <= |outcomes|`). The symbol and timeframe arguments only select what the exchange answers, so they are not parameters.
- Building the DataFrame, `pd.to_datetime` and `set_index`: pandas plumbing. An error there falls in the same `try` block and is an `Err` outcome like any other. The rows are not sorted or deduplicated, as in the code.
- `time.sleep(5)` and `print`: recorded as `Slept(5)` and `Failed`/`GaveUp` events; real time is not modelled.
- `RSIIndicator` and `MACD` from `ta`: library numerics whose algorithms are not part of this model. They are opaque function parameters that keep the frame's length.
- Floating point: prices are mathematical reals, so there is no rounding and no Kahan compensation in the running sum. NaN appears only as `None` in the indicator columns and the MA warm-up; a NaN close inside a full window is not modelled.
- In-place column insertion into the DataFrame: `CalculateTechnicalIndicators` returns the extended frame as a value. `main` rebinds its variable to that frame, so no aliasing is observable. The `Indicator` array is local to `LabelSignals`, which returns its contents.
- `generate_chart` (plotly) and the Streamlit surface (title, text input, `st.error`, `st.plotly_chart`): display only. The `update_interval` slider is read but never used.
