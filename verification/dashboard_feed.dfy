/** The data-generation effect of the trading dashboard
    (src/components/TradingDashboard.js): every tick appends one price point
    and one oscillator point to two rolling buffers of at most 50 points.
    The raw oscillator value is clamped into [0,100] and mapped to a signal
    line of 30, 50 or 70.

    The random and clock-driven generation of the raw price and oscillator
    values is not modelled: both arrive as parameters of a tick.
 */
module DashboardFeed {
  import opened Common
  import TdiChart

  /** Capacity of each rolling buffer. */
  const BufferCapacity: nat := 50

  datatype PricePoint = PricePoint(time: string, price: real, volume: real)

  datatype TdiSample = TdiSample(time: string, tdi: real, signal: real)

  /** The two rolling buffers. */
  datatype Feed = Feed(priceData: seq<PricePoint>, tdiData: seq<TdiSample>)

  /** `s.slice(-n)` for a positive `n`: the last `n` elements, or all of them. */
  function TakeLast<T>(s: seq<T>, n: nat): (r: seq<T>)
    requires n > 0
    ensures |r| == Min(|s|, n)
    ensures r == s[|s| - |r|..]
  {
    if |s| <= n then s else s[|s| - n..]
  }

  /** `[...prev, x].slice(-50)`: append at the tail, drop from the head. */
  function Append<T>(buf: seq<T>, x: T): (r: seq<T>)
    ensures |r| == Min(|buf| + 1, BufferCapacity)
    ensures r[|r| - 1] == x
    ensures r[..|r| - 1] == buf[|buf| - (|r| - 1)..]
  {
    var r := TakeLast(buf + [x], BufferCapacity);
    assert r[..|r| - 1] == (buf + [x])[|buf| + 1 - |r|..|buf|];
    r
  }

  /** Appending a whole sequence of points one at a time. */
  function AppendAll<T>(buf: seq<T>, xs: seq<T>): seq<T>
    decreases |xs|
  {
    if |xs| == 0 then buf else AppendAll(Append(buf, xs[0]), xs[1..])
  }

  /** Truncating and then extending keeps the same last `n` elements as
      extending the untruncated sequence. */
  lemma TakeLastAbsorbs<T>(a: seq<T>, b: seq<T>, n: nat)
    requires n > 0
    ensures TakeLast(TakeLast(a, n) + b, n) == TakeLast(a + b, n)
  {
    var t := TakeLast(a, n);
    assert t + b == (a + b)[|a| - |t|..];
  }

  /** A buffer fed any sequence of points holds the last 50 of the history,
      oldest first: the buffer is a first-in, first-out window. */
  lemma {:induction false} AppendAllKeepsLast<T>(buf: seq<T>, xs: seq<T>)
    requires |buf| <= BufferCapacity
    ensures AppendAll(buf, xs) == TakeLast(buf + xs, BufferCapacity)
    decreases |xs|
  {
    if |xs| == 0 {
      assert buf + xs == buf;
    } else {
      var next := Append(buf, xs[0]);
      AppendAllKeepsLast(next, xs[1..]);
      TakeLastAbsorbs(buf + [xs[0]], xs[1..], BufferCapacity);
      assert buf + [xs[0]] + xs[1..] == buf + xs;
    }
  }

  /** `Math.max(0, Math.min(100, x))`. */
  function Clamp(x: real): (r: real)
    ensures 0.0 <= r <= 100.0
    ensures 0.0 <= x <= 100.0 ==> r == x
    ensures x < 0.0 ==> r == 0.0
    ensures x > 100.0 ==> r == 100.0
  {
    MaxReal(0.0, MinReal(100.0, x))
  }

  /** Clamping is idempotent and monotone. */
  lemma ClampIdempotentMonotone(x: real, y: real)
    ensures Clamp(Clamp(x)) == Clamp(x)
    ensures x <= y ==> Clamp(x) <= Clamp(y)
  {
  }

  /** The signal line drawn under the oscillator: 30 at or below 32, 70 at
      or above 80, 50 otherwise. */
  function SignalLine(tdi: real): (r: real)
    ensures r == 30.0 || r == 50.0 || r == 70.0
  {
    if tdi <= TdiChart.Oversold then 30.0 else if tdi >= TdiChart.Overbought then 70.0 else 50.0
  }

  /** The signal line agrees with the chart's BUY/SELL/NEUTRAL reading. */
  lemma SignalLineAgreesWithReading(tdi: real)
    ensures SignalLine(tdi) == 30.0 <==> TdiChart.Classify(tdi) == Buy
    ensures SignalLine(tdi) == 70.0 <==> TdiChart.Classify(tdi) == Sell
    ensures SignalLine(tdi) == 50.0 <==> TdiChart.Classify(tdi) == Neutral
  {
  }

  /** The oscillator point stored for a raw generated value. */
  function MakeSample(time: string, raw: real): (s: TdiSample)
    ensures 0.0 <= s.tdi <= 100.0
    ensures s.signal == SignalLine(s.tdi)
    ensures 0.0 <= raw <= 100.0 ==> s.tdi == raw
  {
    var tdi := Clamp(raw);
    TdiSample(time, tdi, SignalLine(tdi))
  }

  /** Every stored oscillator value lies in [0,100]. */
  predicate SamplesInRange(samples: seq<TdiSample>)
  {
    forall k :: 0 <= k < |samples| ==> 0.0 <= samples[k].tdi <= 100.0
  }

  /** Appending a clamped point to clamped points gives clamped points. */
  lemma AppendKeepsRange(samples: seq<TdiSample>, s: TdiSample)
    requires 0.0 <= s.tdi <= 100.0
    ensures SamplesInRange(samples) ==> SamplesInRange(Append(samples, s))
  {
    var r := Append(samples, s);
    if SamplesInRange(samples) {
      forall k | 0 <= k < |r| ensures 0.0 <= r[k].tdi <= 100.0 {
        if k < |r| - 1 {
          assert r[k] == r[..|r| - 1][k] == samples[|samples| - (|r| - 1) + k];
        }
      }
    }
  }

  /** The buffers are within capacity and hold only clamped values. */
  predicate Valid(f: Feed)
  {
    |f.priceData| <= BufferCapacity && |f.tdiData| <= BufferCapacity && SamplesInRange(f.tdiData)
  }

  /** One tick of the generator: append the new price point and the new
      oscillator point. */
  function Tick(f: Feed, time: string, price: real, volume: real, rawTdi: real): (g: Feed)
    ensures |g.priceData| == Min(|f.priceData| + 1, BufferCapacity)
    ensures |g.tdiData| == Min(|f.tdiData| + 1, BufferCapacity)
    ensures g.priceData[|g.priceData| - 1] == PricePoint(time, price, volume)
    ensures g.tdiData[|g.tdiData| - 1] == MakeSample(time, rawTdi)
    ensures g.priceData[..|g.priceData| - 1] == f.priceData[|f.priceData| - (|g.priceData| - 1)..]
    ensures g.tdiData[..|g.tdiData| - 1] == f.tdiData[|f.tdiData| - (|g.tdiData| - 1)..]
    ensures SamplesInRange(f.tdiData) ==> Valid(g)
  {
    AppendKeepsRange(f.tdiData, MakeSample(time, rawTdi));
    Feed(Append(f.priceData, PricePoint(time, price, volume)), Append(f.tdiData, MakeSample(time, rawTdi)))
  }

  /** The base price of an instrument: 1.0850 for EURUSD, 1950 otherwise. */
  function BasePrice(pair: string): real
  {
    if pair == "EURUSD" then 1.0850 else 1950.0
  }

  /** `newPrice - (previousPrice || basePrice)`: a previous price of 0 is
      falsy and the base price is used instead. */
  function PriceChange(pair: string, newPrice: real, previousPrice: real): (r: real)
    ensures previousPrice != 0.0 ==> r + previousPrice == newPrice
    ensures previousPrice == 0.0 ==> r + BasePrice(pair) == newPrice
  {
    newPrice - (if previousPrice != 0.0 then previousPrice else BasePrice(pair))
  }
}
