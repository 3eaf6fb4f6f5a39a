# Market-alert bot: alert decision and deduplication

A Dafny model of the decision logic of a single-pass market-alert bot (`main.py`).
For each ticker on a fixed watchlist, the bot compares the latest closing price with
Bollinger-style bands and sends a chat alert in one of four categories:

- VENDA_CRIT (critical sell)
- VENDA_NORM (sell)
- COMPRA_CRIT (critical buy)
- COMPRA_NORM (buy)

The alert carries an RSI annotation. A persistent cooldown ledger suppresses repeats of the
same alert for two hours. The ledger maps each alert key to the instant it was last sent.
At 09h and 18h local time the bot also sends a status digest, once per date and hour.
The ledger is written back only when the pass changed it.

Modules:

- `Wrappers` (wrappers.dfy): the `Option` type.
- `Settings` (settings.dfy): the constants.
  - The cooldown is 2 hours, held as integer microseconds.
  - The critical overshoot is 2%.
  - At least 30 valid points of history are needed.
  - The digest hours are 9 and 18.
  - The 40-symbol watchlist.
- `Text` (text.dfy): the substring test behind `"-USD" in ativo`, proved equal to "occurs at
  some index". Also the decimal rendering of the hour in digest keys, proved to read back as
  the same number.
- `Signal` (signal.dfy): the classifier (the if/elif chain over the price, the bands and the
  critical levels). It is proved equal to "first category in precedence order whose threshold
  holds". Also the RSI annotation and the alert key `ticker + "_" + tag`, proved injective.
- `AlertMemory` (ledger.dfy): the ledger as a value (`LedgerState`) with the gate (`Gate`) and
  the digest (`Digest`) as functions. The class `Ledger` holds the map and the "changed" flag
  and updates them in place. Its methods `MaySend` and `CheckDailyDigest` are proved against
  those two functions.
- `Cycle` (cycle.dfy): a ticker's evaluation (weekend skip, history bound, classification,
  gate), the pass over the watchlist (`Pass`, `Run`) and its imperative form.
  - `AnalyzeTicker` changes the ledger object in place.
  - `AnalyzeAll` loops over the tickers; `RunCycle` runs the whole pass and decides whether to
    write the ledger back.
  - Lemmas state what a whole pass guarantees.

Clock readings, downloaded data and indicator values are parameters. Each ticker carries its
own inputs:

- the weekday read when its evaluation starts;
- what was fetched (`Unavailable`, or the number of valid points with the latest price,
  bands and RSI);
- the instant the gate reads.

The digest has its own clock reading: instant, date text, weekday and hour.

Two behaviours of the code that are easy to misread:

- With flat bands (zero deviation, price equal to the mean) the code's `preco >= banda_sup`
  holds, so a VENDA_NORM alert fires. It does not stay silent (`Signal.FlatBandsFireSell`).
- The market is "closed" when weekday > 4. For integer weekdays this is the same as ≥ 5.

## Model

| member | source | states |
|---|---|---|
| `AlertMemory.Initial` | main.py:45-56 | The ledger starts as the stored mapping when it could be read and empty otherwise, with the changed flag clear. |
| `AlertMemory.Ledger.constructor` | main.py:41-56 | Loading yields exactly `Initial(stored)`. |
| `AlertMemory.Gate` | main.py:96-112 | Sends iff the key is absent or at least the cooldown has passed since its instant. On sending it records `now` and sets the flag. On refusal nothing changes. No other key is added, removed or changed. |
| `AlertMemory.GateFiresWhenAbsent` | main.py:101-112 | An absent key is sent, stored with `now`, and the flag is set. |
| `AlertMemory.GateBlocksWithinCooldown` | main.py:101-107 | Inside the cooldown the gate refuses and leaves map and flag unchanged. |
| `AlertMemory.GateFiresAfterCooldown` | main.py:106-112 | Once the cooldown has elapsed, the key fires again. Only its instant is overwritten and the key set is unchanged. |
| `AlertMemory.GateSuppressesRepeat` | main.py:101-107 | After a send at `now`, a request for the same key less than the cooldown later is refused. |
| `AlertMemory.GateTwiceSameInstant` | main.py:101-112 | Two requests for a fresh key at the same instant answer true, then false. |
| `AlertMemory.GateReopens` | main.py:106-112 | After a send, the same key is accepted again once the full cooldown has passed. |
| `AlertMemory.Ledger.MaySend` | main.py:96-112 | The in-place check-and-set returns the answer of `Gate` and leaves the object in `Gate`'s new state. |
| `AlertMemory.Digest` | main.py:114-140 | The digest fires iff the hour is 9 or 18 and `RESUMO_<date>_<hour>` is absent. It then records that key at the clock's instant and sets the flag. It reports "market closed" iff weekday > 4 and counts the whole watchlist. Otherwise the ledger is unchanged. |
| `AlertMemory.DigestOncePerSlot` | main.py:124-127 | A second digest check with the same date and hour sends nothing and changes nothing. |
| `AlertMemory.DigestOnlyAtDigestHours` | main.py:123 | Outside hours 9 and 18 the digest never fires. |
| `AlertMemory.DigestKey` | main.py:124 | The digest key starts with `RESUMO_` and ends in a decimal digit (the last digit of the hour). |
| `AlertMemory.DigestKeyInjective` | main.py:124 | Different (date, hour) slots have different digest keys. |
| `AlertMemory.DigestSlotsIndependent` | main.py:123-127 | The digest of one (date, hour) never blocks the digest of another slot: a digest hour whose key is absent still fires after it. |
| `AlertMemory.MorningDigestDoesNotBlockEvening` | main.py:123-127 | On a ledger holding neither, the 09h and the 18h digest of the same date both fire. |
| `AlertMemory.Ledger.CheckDailyDigest` | main.py:114-140 | The in-place digest check returns `Digest`'s note and leaves the object in `Digest`'s new state. |
| `Text.DecimalText` | main.py:124 | The hour's text (`str` of an int) is non-empty, every character is a decimal digit, and it has one character exactly for hours below 10. |
| `Text.DecimalRoundTrip` | main.py:124 | Reading the decimal text back as a number gives the original number. |
| `Text.DecimalTextInjective` | main.py:124 | Different numbers have different decimal texts. |
| `Text.SplitBeforeDigits` | main.py:124 | A prefix, an underscore and a digit string can be split back in only one way. |
| `Text.OccursShift` | main.py:156 | When the pattern does not start at index 0, it occurs in the string iff it occurs in the string without its first character. |
| `Text.Contains` | main.py:156 | The left-to-right scan behind `"-USD" in ativo` is true exactly when the pattern occurs at some index of the string. |
| `Text.AbsentFirstCharNotContained` | main.py:156 | A string lacking the first character of a pattern does not contain it. |
| `Signal.Tag` | main.py:224-235 | Every tag is 10 or 11 characters long. |
| `Signal.TagSpelling` | main.py:224-235 | Sell tags are `VENDA_` plus four letters (10 characters). Buy tags are `COMPRA_` plus four (11 characters). Exactly the critical tags end in `CRIT`. |
| `Signal.CriticalUpper` | main.py:209 | The critical sell level lies above a positive upper band, is zero for a zero band and lies below a negative band. |
| `Signal.CriticalLower` | main.py:210 | The critical buy level lies strictly between zero and a positive lower band, is zero for a zero band and lies between a negative band and zero. |
| `Signal.Classify` | main.py:209-235 | A returned category's own threshold holds. No category means no threshold holds. |
| `Signal.ClassifyIsFirstInPrecedence` | main.py:224-235 | The chain equals the first category, in the order VENDA_CRIT, VENDA_NORM, COMPRA_CRIT, COMPRA_NORM, whose threshold holds. So at most one category fires and a later one never wins over an earlier one. |
| `Signal.CriticalSellWins` | main.py:224-229 | A price at or above `banda_sup*(1+0.02)` is VENDA_CRIT, never VENDA_NORM, even though the plain sell threshold also holds for a non-negative band. |
| `Signal.ClassifyRegions` | main.py:209-235 | With non-negative bands an alert fires iff the price is at or above the upper band or at or below the lower band. Each category is exactly its band region. |
| `Signal.FlatBandsFireSell` | main.py:227-228 | Equal price and bands (zero deviation) fire VENDA_NORM. |
| `Signal.CriticalSellExample` | main.py:209-226 | Upper band 100 (critical level 102) and price 103 give VENDA_CRIT. |
| `Signal.NoteFor` | main.py:219-222 | The note is overbought iff RSI > 70 and oversold iff RSI < 30. It is empty iff 30 ≤ RSI ≤ 70 or the RSI is NaN. |
| `Signal.AlertKey` | main.py:238 | The alert key is the ticker, then `_`, then the category's tag, with nothing else. |
| `Signal.AlertKeyInjective` | main.py:238 | Distinct (ticker, category) pairs have distinct alert keys. |
| `Signal.AlertKeyLastChar` | main.py:238 | An alert key ends in `T` or `M`, the last letter of its tag. |
| `Cycle.DigestKeyNeverAlertKey` | main.py:124 | A digest key is never equal to an alert key, so digest and alert cooldowns do not interfere. |
| `Cycle.IsCrypto` | main.py:156 | A ticker is crypto iff `-USD` occurs in its symbol. |
| `Cycle.SkippedOnWeekend` | main.py:154-158 | A ticker is skipped iff the weekday is 5 or 6 and `-USD` does not occur in its symbol. |
| `Cycle.Candidate` | main.py:151-236 | A candidate alert exists only for a ticker that is not skipped on the weekend, whose data arrived with at least 30 points, and whose category and note are those of the classifier and the RSI rule. Conversely every such ticker whose price lies in a category's region has a candidate. |
| `Cycle.TickerStep` | main.py:237-240 | Without a candidate the ledger is not consulted and is unchanged. With a candidate, the alert is sent iff the gate opens for the candidate's key at the gate's instant, and the ledger is the gate's new state. A sent alert is the candidate. A refused alert leaves the ledger unchanged. |
| `Cycle.WeekendSkipLeavesLedger` | main.py:153-158 | A non-`-USD` ticker on weekday ≥ 5 sends nothing and leaves map and flag unchanged. |
| `Cycle.CriticalSellIsSent` | main.py:224-240 | An evaluated ticker at or above the critical upper level, with its VENDA_CRIT key absent, sends a VENDA_CRIT alert. |
| `Cycle.Pass` | main.py:259-262 | A pass sends no more alerts than there are tickers and never clears the changed flag. |
| `Cycle.SentPositions` | main.py:237-262 | Each ticker evaluation sends at most one message: the alerts of a pass line up, one to one and in order, with strictly increasing positions of the tickers, and each alert's ticker is the symbol at its position. |
| `Cycle.PassOneAlertPerTicker` | main.py:237-262 | Over distinct tickers, no two alerts sent in a pass are for the same ticker: each ticker's evaluation sends at most one message. |
| `Cycle.PassDirtyIffSent` | main.py:259-268 | After the loop the flag is set iff it was set before or some alert was sent. |
| `Cycle.SilentPassLeavesLedger` | main.py:259-262 | A pass that sends no alert leaves the ledger exactly as it was. |
| `Cycle.PassOnlyRecordsSentAlerts` | main.py:259-262 | No key is dropped. Every new or changed entry is the key of an alert sent in the pass. Every sent alert's key is recorded and its ticker is on the list. |
| `Cycle.NoRepeatWithinCooldown` | main.py:259-262 | When every gate instant of a pass lies within one cooldown window, no alert key is sent twice. Every sent key is recorded with an instant in that window. |
| `Cycle.WeekendPassOnlyCrypto` | main.py:153-158 | On a weekend pass every alert sent is for a `-USD` ticker. |
| `Cycle.WatchlistCrypto` | main.py:20-34 | Of the watchlist exactly `BTC-USD` contains `-USD`. |
| `Cycle.WeekendRunOnlyBitcoin` | main.py:153-158 | On a weekend pass over the watchlist, the only ticker that can raise an alert is `BTC-USD`. |
| `Cycle.Run` | main.py:247-268 | A pass sends no more alerts than there are watchlist entries. A sent digest always leads to a write-back. |
| `Cycle.RunOneAlertPerEntry` | main.py:237-262 | A pass over the watchlist sends at most one alert per watchlist entry: the alerts come from strictly increasing watchlist positions, each carrying the symbol at its position. |
| `Cycle.RunPersistsIffChanged` | main.py:264-268 | The ledger is written back iff the digest or some alert was sent. Every loaded key is still present in what is written. |
| `Cycle.AnalyzeTicker` | main.py:151-244 | The in-place evaluation of one ticker returns `TickerStep`'s alert and leaves the ledger object in `TickerStep`'s new state. |
| `Cycle.AnalyzeAll` | main.py:259-262 | The loop over the tickers, in order, returns `Pass`'s alerts and leaves the ledger object in `Pass`'s final state. |
| `Cycle.RunCycle` | main.py:247-268 | The pass (load, digest, every watchlist ticker in order, write back if changed) produces exactly `Run`'s digest, alerts and written ledger. |

## Left out

- Price download and column selection (`yf.download`, the MultiIndex / `Close` / `Adj Close` /
  first-column fallback, `dropna`): a foreign library. The model receives the outcome as a
  `Fetch`: `Unavailable` (empty frame, conversion failure or any exception caught by the
  per-ticker `try`), or the number of valid points with the latest values.
- Indicator computation (`calcular_ifr` with exponential smoothing, and the 20-period rolling
  mean and sample standard deviation): floating-point pandas numerics. The band and RSI values
  enter as `real` inputs. The RSI's NaN case (no gains and no losses, 0/0) is kept as
  `Oscillator.Undefined`.
- Floating-point rounding: prices, bands and `banda_sup*(1+0.02)` are exact reals in the model.
- Message text (emojis, `:.2f` / `:.0f` formatting, the digest wording): presentation only. The
  model keeps the category, the RSI note, the key and the digest's market-status and watchlist
  count.
- `enviar_telegram` (HTTP POST) and `registrar_log` (console and file writes): I/O. A failed
  HTTP POST is swallowed (main.py:89-94) and does not affect the ledger, and so is a failed
  write to the log file (main.py:82-86).
- Console-write failures in `registrar_log` are not modelled. The `print` and `flush` at
  main.py:78-79 sit outside its `try`, for example on an encoding error or a broken pipe.
  The model assumes they succeed. Where such a failure would surface:
  - At main.py:136 no `try` surrounds the call. The pass ends after the digest was sent
    (main.py:135) and before its key is stored (main.py:139). Nothing is written back, so the
    same digest is sent again on the next run in that hour.
  - At main.py:239 the per-ticker `except` (main.py:242) catches it. The gate has already
    recorded the key and set the flag, but the alert is never posted (main.py:240). The
    ledger then holds an alert that was not sent.
  - At main.py:205 and main.py:214 the same `except` catches it before the gate, and the
    ticker is skipped.
  - At main.py:94, inside `enviar_telegram`'s own `except`, the failure leaves
    `enviar_telegram`. Called from the digest (main.py:135), it ends the pass before the
    digest key is stored. Called from an alert (main.py:240), the per-ticker `except` catches it.
  - At main.py:257, in the main block, no `try` surrounds the call. The pass ends before any
    ticker is evaluated. At 09h and 18h the digest key just stored (main.py:139) is never
    written back, so the digest is sent again on the next run in that hour.
  - At main.py:243, inside that `except`, the failure escapes the pass, and nothing is
    written back.
- JSON load/save of the ledger and ISO-8601 `isoformat`/`fromisoformat`: file I/O. The stored
  ledger enters as an optional map of instants (absent or unreadable gives an empty ledger). The
  written ledger is returned. The model's ledger holds already-parsed instants, so these
  malformed-file cases are not represented:
  - A stored value that fails to parse raises inside the gate and skips that ticker.
  - A file that parses but is not a JSON object (`[]`, `null`, a number, a string) is kept as
    the ledger. At 09h and 18h the digest then raises outside any `try` and ends the pass
    unsaved. For a list or a string this happens on the store `memoria_alertas[chave_resumo] =
    ...` (main.py:139). For `null` or a number it happens earlier, on the `in` test
    (main.py:127). At other hours every gate raises and its ticker is skipped.
  A failed write is not modelled.
- `datetime.now` and the UTC-3 shift: clock readings are parameters, in integer microseconds
  (the resolution of the stored timestamps), plus date text, weekday and hour.
- `time.sleep(1)` between tickers: scheduling only.
- That the 40 watchlist symbols are pairwise distinct is not proved. Comparing that many string
  literals pair by pair is too costly for the solver. `Cycle.RunOneAlertPerEntry` states one
  alert per watchlist entry. `Cycle.PassOneAlertPerTicker` gives one alert per ticker for any
  duplicate-free ticker list.

