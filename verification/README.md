# Trading-signal core of the dashboard, in Dafny

This project models the deterministic signal logic of a small trading
dashboard and its SMS backend:

- **TdiChart** (`src/components/TDIChart.js`). A Relative-Strength-style
  "TDI" oscillator over a sliding window of 14 candles. It also covers the
  BUY/SELL/NEUTRAL reading of a value (BUY at or below 32, SELL at or above
  80), the fallback chain for the value on display, and a five-point test
  for divergence between oscillator and price.
- **DashboardFeed** (`src/components/TradingDashboard.js`, data effect). Two
  rolling buffers of at most 50 points. The generated oscillator value is
  clamped into [0,100] and mapped to a signal line of 30/50/70. It also
  covers the price change against the previous or base price.
- **DashboardSignals** (`src/components/TradingDashboard.js`, condition and
  signal effects). The oscillator condition with its momentum/divergence
  test, the count of met conditions out of seven, and the gate of five. It
  also covers the construction of a directional signal (strength,
  stop-loss, take-profit) and the newest-first log of the last five
  signals together with the running total.
- **DashboardClock** (`src/components/TradingDashboard.js`). The session's
  active seconds and `formatTime`, which renders seconds as `HH:MM:SS`.
- **Server** (`backend/server.js`). The validation guard of the SMS
  endpoint, `formatSignalMessage`, and the outgoing SMS record.
- **Common** and **Text** hold shared vocabulary. `Option`, `Result` and
  `Direction` live in Common. Text holds decimal rendering, `padStart`,
  `join` and `split`, with the round trips between them.

Prices and oscillator values are Dafny `real`s, so arithmetic is exact.
Randomness and clocks are parameters:
- the strength jitter is `jitter` in [0,20);
- the six randomly drawn condition statuses are boolean inputs;
- the signal id, the time strings and the current time are plain inputs.

## Points where the code departs from the usual formulas

- A window with an average loss of exactly 0 reads the midpoint **50**,
  not the 100 a textbook RSI gives (`src/components/TDIChart.js:33-37`).
  So a steadily rising window reads NEUTRAL. `TdiChart.WindowValue` states
  this.
- With fewer than 14 candles the oscillator series is **empty**. The value
  50 only appears through the display fallback `currentTDI`.
- Only the oscillator condition is computed. The other six conditions are
  drawn at random, so the model takes their statuses as inputs.
- The strength uses `Math.floor`, not rounding. It is the count of met
  conditions out of 7, scaled to 100, plus a jitter in [0,20), capped at
  100.
- With exactly one stored oscillator point, only the previous value
  defaults to 50. The momentum is then that point minus 50, not 0
  (`DashboardSignals.SinglePointMomentum`). Momentum is 0 only when the
  buffer is empty.

## Model

| member | source | states |
|---|---|---|
| `TdiChart.SplitChanges` | src/components/TDIChart.js:16-28 | each window of n candles yields n-1 gains and n-1 losses; every change is split into a non-negative gain and a non-negative loss, at most one of them non-zero, whose difference is the change |
| `TdiChart.ChangeLandsOnce` | src/components/TDIChart.js:19-28 | a change is recorded as a positive gain iff it is positive, and as a positive loss iff it is negative; a positive change is the gain with loss 0, any other change is a loss equal to its absolute value with gain 0 |
| `TdiChart.SumNonNegative` | src/components/TDIChart.js:30-31 | the summed gains or losses are non-negative and are zero exactly when every entry is zero |
| `TdiChart.AveragesVanish` | src/components/TDIChart.js:30-31 | the average loss is 0 exactly when no close declines; the average gain is 0 exactly when no close rises |
| `TdiChart.RsScale` | src/components/TDIChart.js:35-36 | `100 - 100/(1+rs)` lies in [0,100) for rs >= 0, is 0 iff rs = 0, and is below 50 iff rs < 1 |
| `TdiChart.WindowValue` | src/components/TDIChart.js:30-37 | a window with no declining close reads exactly 50; any other window reads in [0,100), below 50 iff average gain < average loss, and exactly 0 iff no close rises |
| `TdiChart.CalculateTdiData` | src/components/TDIChart.js:7-55 | absent input or fewer than 14 candles gives no points; otherwise n-13 points, point k carries the timestamp of candle k+13 and the value of candles k..k+13 with reference lines 80/32/50, and every value lies in [0,100] |
| `TdiChart.Classify` | src/components/TDIChart.js:61-65 | the reading partitions all values: BUY iff at most 32, SELL iff at least 80, NEUTRAL iff strictly between |
| `TdiChart.ClassifyMonotone` | src/components/TDIChart.js:61-65 | a larger value never reads as more bullish (BUY < NEUTRAL < SELL) |
| `TdiChart.GetSignalState` | src/components/TDIChart.js:61-65 | the state shown is the reading of the value, coloured green for BUY, red for SELL and yellow for NEUTRAL |
| `TdiChart.CurrentTdi` | src/components/TDIChart.js:58 | the displayed value is the supplied value when it is truthy (non-zero), otherwise the last computed point, otherwise 50 |
| `TdiChart.ZeroFallsThrough` | src/components/TDIChart.js:58 | a supplied value of 0 is treated exactly like no supplied value |
| `TdiChart.CurrentTdiInRange` | src/components/TDIChart.js:58 | the displayed value is in [0,100] whenever the points and any supplied value are |
| `TdiChart.CheckDivergence` | src/components/TDIChart.js:70-81 | divergence needs at least 10 points and 10 candles, and needs both five-sample trends to be non-zero |
| `TdiChart.DivergenceIsOppositeSigns` | src/components/TDIChart.js:77-80 | with enough history, divergence holds iff the signs of the oscillator trend and the price trend multiply to -1 |
| `TdiChart.Render` | src/components/TDIChart.js:57-83 | for any candles and any supplied value: the panel shows the points of `CalculateTdiData` (n-13 for n >= 14 candles, point k from candles k..k+13), the supplied value when truthy, else the last point, else 50/NEUTRAL; the state is the reading of the displayed value; the value is in [0,100] when any supplied value is; divergence is exactly `CheckDivergence` of the points and needs at least 23 candles |
| `DashboardFeed.TakeLast` | src/components/TradingDashboard.js:66 | `slice(-n)` for positive n keeps min(length, n) elements, which are the suffix of the input |
| `DashboardFeed.Append` | src/components/TradingDashboard.js:60-67 | after an append the buffer holds min(old+1, 50) points, the new point is last and the rest is the old buffer's tail in order |
| `DashboardFeed.TakeLastAbsorbs` | src/components/TradingDashboard.js:66 | truncating to the last n before extending keeps the same last n as extending first |
| `DashboardFeed.AppendAllKeepsLast` | src/components/TradingDashboard.js:59-77 | a buffer fed any sequence of points holds exactly the last 50 of its whole history, oldest first |
| `DashboardFeed.Clamp` | src/components/TradingDashboard.js:57 | the clamped value is in [0,100], equals the input inside that range, and is 0 below it and 100 above it |
| `DashboardFeed.ClampIdempotentMonotone` | src/components/TradingDashboard.js:57 | clamping twice equals clamping once, and clamping preserves order |
| `DashboardFeed.SignalLine` | src/components/TradingDashboard.js:74 | the signal line only ever takes the values 30, 50 and 70 |
| `DashboardFeed.SignalLineAgreesWithReading` | src/components/TradingDashboard.js:74 | the signal line is 30 iff the chart reads BUY, 70 iff SELL and 50 iff NEUTRAL |
| `DashboardFeed.MakeSample` | src/components/TradingDashboard.js:70-75 | a stored oscillator point is in [0,100], equals the raw value when that is in range, and carries the signal line of its value |
| `DashboardFeed.AppendKeepsRange` | src/components/TradingDashboard.js:70-77 | appending a clamped point to clamped points leaves only clamped points |
| `DashboardFeed.Tick` | src/components/TradingDashboard.js:59-77 | one tick grows each buffer to min(old+1, 50) with the new point last and the old tail before it, and keeps every stored oscillator value in [0,100] |
| `DashboardFeed.PriceChange` | src/components/TradingDashboard.js:82-85 | the change is measured from the previous price, or from the base price when the previous price is 0 |
| `DashboardSignals.EvaluateTdi` | src/components/TradingDashboard.js:104-120 | the momentum is the newest minus the previous value; divergence holds iff the momentum exceeds 2 downward with a rising price, or exceeds 2 upward with a non-rising price; the condition holds iff the value reads BUY or SELL and diverges |
| `DashboardSignals.EmptyBufferIsQuiet` | src/components/TradingDashboard.js:105-112 | with no stored points the momentum is 0 and there is no divergence, no met condition and a NEUTRAL reading |
| `DashboardSignals.SinglePointMomentum` | src/components/TradingDashboard.js:105-107 | with one stored point the momentum is that point minus 50 |
| `DashboardSignals.FlatPriceDiverges` | src/components/TradingDashboard.js:110-112 | a zero price change counts as down, so an upward momentum above 2 diverges |
| `DashboardSignals.MetTdiHasDirection` | src/components/TradingDashboard.js:115-118 | a met oscillator condition never carries a NEUTRAL reading |
| `DashboardSignals.CountTrue` | src/components/TradingDashboard.js:160 | the count of true statuses is at most the number of statuses, 0 iff none holds, and full iff all hold |
| `DashboardSignals.FilterKeys` | src/components/TradingDashboard.js:178 | the list of met keys is exactly as long as the count of true statuses |
| `DashboardSignals.FilterKeysMembers` | src/components/TradingDashboard.js:178 | a key is listed iff some position holding it has a true status |
| `DashboardSignals.MetCount` | src/components/TradingDashboard.js:159-160 | the met count is in [0,7], 0 iff no condition holds and 7 iff all hold |
| `DashboardSignals.MetKeys` | src/components/TradingDashboard.js:178 | the signal's condition list has as many keys as the met count, and lists a key exactly when its condition holds |
| `DashboardSignals.SignalReady` | src/components/TradingDashboard.js:200-201 | the dashboard is ready iff at least five condition keys are met |
| `DashboardSignals.Strength` | src/components/TradingDashboard.js:167 | the strength is an integer in [0,100], the floor of count/7*100 + jitter unless capped at 100 |
| `DashboardSignals.ReadyStrengthBounds` | src/components/TradingDashboard.js:162-176 | with five to seven met conditions and jitter in [0,20) the strength is in [71,100] |
| `DashboardSignals.BuildSignal` | src/components/TradingDashboard.js:162-182 | a signal exists iff at least five conditions hold and the value reads BUY or SELL; it carries that direction, the met count and keys, the strength `Strength(count, jitter)` (so in [71,100]), the given id, pair, price, timestamp and risk/reward, and stop-loss 0.001 / take-profit 0.002 on the losing / winning side of the price |
| `DashboardSignals.SignalFollowsCondition` | src/components/TradingDashboard.js:115-118 | for a freshly evaluated condition, a signal's direction is the reading the condition shows, and a met oscillator condition with five met conditions always yields a signal |
| `DashboardSignals.Reverse` | src/components/TradingDashboard.js:184 | reversal keeps the length and puts element i at position length-1-i |
| `DashboardSignals.Record` | src/components/TradingDashboard.js:184-185 | recording puts the new signal at index 0, keeps at most 4 older ones in order (length min(old+1, 5)) and adds exactly 1 to the total |
| `DashboardSignals.TakeFirstAbsorbs` | src/components/TradingDashboard.js:184 | keeping only four of the older signals loses nothing that the first five would show |
| `DashboardSignals.RecordAllNewestFirst` | src/components/TradingDashboard.js:184-185 | after any run of emissions the log is the newest five of all signals, newest first, and the total counts every emission |
| `DashboardSignals.SignalEffect` | src/components/TradingDashboard.js:158-188 | the effect changes nothing when no signal is built; otherwise it adds 1 to the total, puts the new signal first and keeps the older entries behind it in order; the log never grows past 5 |
| `DashboardClock.ActiveSeconds` | src/components/TradingDashboard.js:90 | the active time is the whole number of seconds elapsed, rounded down |
| `DashboardClock.Pad2` | src/components/TradingDashboard.js:238 | a padded field is a digit string that reads back as the number, with exactly two digits below 100 and more from 100 on |
| `DashboardClock.FormatTime` | src/components/TradingDashboard.js:234-239 | the rendering has at least 8 characters, and exactly 8 iff the duration is under 100 hours |
| `DashboardClock.TimeDecomposition` | src/components/TradingDashboard.js:235-237 | minutes and seconds are below 60, and hours*3600 + minutes*60 + seconds rebuilds the duration |
| `DashboardClock.FieldsRoundTrip` | src/components/TradingDashboard.js:238 | three padded fields joined by colons split back into those fields, which read back as their values |
| `DashboardClock.FormatTimeRoundTrip` | src/components/TradingDashboard.js:234-239 | reading the rendering back (three colon-separated digit fields; hours at least 2 digits; minutes and seconds exactly 2 digits, each below 60) gives the original duration |
| `Server.ValidateSignal` | backend/server.js:22-27 | the request is rejected iff the signal is absent or its type or pair is falsy, with status 400, "Invalid signal data" and the required fields type and pair; otherwise the signal passes unchanged |
| `Server.Emoji` | backend/server.js:83 | the header emoji is green iff the type is exactly "BUY", and red for every other type, absent included |
| `Server.EmojiOfDirections` | backend/server.js:83 | a BUY signal from the dashboard gets green; SELL and NEUTRAL get red |
| `Server.ConditionsText` | backend/server.js:84 | an absent list renders "N/A" and an empty list renders the empty string |
| `Server.ConditionsTextPieces` | backend/server.js:84 | splitting the conditions text at commas gives back the first min(n,3) conditions in order, each after the first preceded by a space |
| `Server.MessageLines` | backend/server.js:86-93 | the alert consists of eight lines |
| `Server.FormatSignalMessage` | backend/server.js:82-94 | the message opens with the emoji header line; with `Server.MessageHasEightLines` it is the eight lines joined by newlines |
| `Server.MessageHasEightLines` | backend/server.js:86-93 | with single-line fields the message splits into exactly eight lines in this order: header, type and pair, price, strength with "%", conditions, SL, TP, time |
| `Server.HandleSendSms` | backend/server.js:17-52 | an unusable signal gets a 400 reply and no message; otherwise the record goes to the fixed recipient with the signal's id as signalId and the formatted message, and the reply echoes its timestamp |
| `Text.NatToString` | src/components/TradingDashboard.js:238 | `String(n)` is a non-empty digit string without a leading zero (except for 0 itself); it has one digit iff n < 10 and at most two iff n < 100 |
| `Text.ParseNatToString` | src/components/TradingDashboard.js:238 | reading back a rendered natural (`toString`) gives the natural |
| `Text.PadStart` | src/components/TradingDashboard.js:238 | `padStart(width, fill)` leaves a string of at least width unchanged; otherwise the result has exactly width characters: fill characters followed by the original string |
| `Text.PadZeroValue` | src/components/TradingDashboard.js:238 | zero-padding (`padStart(2, '0')`) keeps a digit string and its value |
| `Text.Join` | backend/server.js:84 | `join(sep)` of no pieces is empty; otherwise it starts with the first piece and its length is the pieces' total plus one separator per gap |
| `Text.SplitJoin` | backend/server.js:84-93 | splitting a join of separator-free pieces on the separator's first character gives back the same number of pieces: the first unchanged, and each later one behind the rest of the separator |

## Left out

- Number formatting is left out, because it is floating-point and locale
  behaviour:
  - the one-decimal rounding of stored oscillator values (`toFixed`);
  - the rounding of prices to 5 or 2 decimals;
  - `toLocaleTimeString`.
  Points carry exact reals, and time strings are inputs.
- The random and clock-driven generation of prices, volumes and raw
  oscillator values is left out. These values are parameters of
  `DashboardFeed.Tick`.
- The six randomly drawn conditions and their display metadata are left
  out. This covers volume, trend, EMA, market structure, sessions and key
  levels. Their statuses are boolean inputs of `Conditions`.
- The strength jitter, the `riskReward` text and the `Date.now()` signal id
  are inputs. The jitter is bounded to [0,20) as `Math.random() * 20` is.
- The dashboard compares `conditions.tdi.value`, a `toFixed` string, to
  numbers. The model compares the number directly; string-to-number
  coercion is not modelled.
- JavaScript `NaN` is not modelled. Truthiness of a number is "non-zero",
  and truthiness of a text is "present and non-empty".
- `DashboardClock.FormatTime` takes a natural number. A negative active
  time, which only a clock running backwards could produce, is not
  modelled.
- `DashboardClock.ActiveSeconds` requires the current time to be no earlier
  than the session start, for the same reason.
- Candles carry only a timestamp and a close, because the oscillator reads
  nothing else.
- React hooks, `setInterval` scheduling and the stale-closure behaviour of
  `previousPrice` are left out. Each effect is modelled as the pure
  transition it performs.
- `sendSMSAlert` is left out: its `fetch`, `alert` and console output are
  I/O. So is the mapping of condition keys to display names it performs.
- Express routing, middleware, the 1-second delay, logging, the health and
  signal-history endpoints and the 404/500 handlers are left out. The 500
  reply for an exception while formatting is one of these.
- `src/components/CandlestickChart.js` (chart rendering) and
  `tailwind.config.js` (styling) are not part of this model.
- `Server.MessageLines`: the fields are taken as the text JavaScript would
  interpolate; rendering numbers to text is not modelled.
