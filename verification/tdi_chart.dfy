/** The oscillator panel of the dashboard (src/components/TDIChart.js): a
    Relative-Strength-style oscillator computed over a sliding window of
    14 candles, the BUY/SELL/NEUTRAL reading of a value, the fallback
    chain for the value on display, and a five-point divergence test
    between the oscillator and the closing price.

    Prices and oscillator values are exact reals; the one-decimal rounding
    the component applies before storing a point is not modelled.
 */
module TdiChart {
  import opened Common

  /** The part of a candle the oscillator reads. */
  datatype Candle = Candle(timestamp: int, close: real)

  /** One plotted oscillator point with its three reference lines. */
  datatype TdiPoint = TdiPoint(timestamp: int, tdi: real, overbought: real, oversold: real, midline: real)

  /** What the panel shows for a reading. */
  datatype SignalStyle = SignalStyle(color: string, state: Direction, bg: string)

  /** Number of candles in one oscillator window. */
  const Period: nat := 14
  /** Readings at or above this are SELL. */
  const Overbought: real := 80.0
  /** Readings at or below this are BUY. */
  const Oversold: real := 32.0
  /** The neutral midpoint, also the value with no average loss. */
  const Midline: real := 50.0

  function Abs(x: real): real
  {
    if x < 0.0 then -x else x
  }

  /** Close-to-close change into candle `j` of a window. */
  function Change(w: seq<Candle>, j: int): real
    requires 1 <= j < |w|
  {
    w[j].close - w[j - 1].close
  }

  /** No close in the window is below the one before it. */
  predicate NoDecline(w: seq<Candle>)
  {
    forall j :: 1 <= j < |w| ==> w[j - 1].close <= w[j].close
  }

  /** No close in the window is above the one before it. */
  predicate NoRise(w: seq<Candle>)
  {
    forall j :: 1 <= j < |w| ==> w[j].close <= w[j - 1].close
  }

  /** Splits the changes of a window into a list of gains and a list of
      losses: a positive change is a gain with loss 0, any other change is
      a loss of its absolute value with gain 0. */
  function SplitChanges(w: seq<Candle>): (r: (seq<real>, seq<real>))
    requires |w| >= 1
    ensures |r.0| == |w| - 1 && |r.1| == |w| - 1
    ensures forall j :: 0 <= j < |r.0| ==>
      r.0[j] >= 0.0 && r.1[j] >= 0.0 && (r.0[j] == 0.0 || r.1[j] == 0.0)
      && r.0[j] - r.1[j] == Change(w, j + 1)
  {
    var gains := seq(|w| - 1, j requires 0 <= j < |w| - 1 =>
      if Change(w, j + 1) > 0.0 then Change(w, j + 1) else 0.0);
    var losses := seq(|w| - 1, j requires 0 <= j < |w| - 1 =>
      if Change(w, j + 1) > 0.0 then 0.0 else Abs(Change(w, j + 1)));
    (gains, losses)
  }

  /** A positive change is recorded as a gain and only as a gain; a
      negative change is recorded as a loss and only as a loss; a change
      that is not positive is recorded as its absolute value in the losses. */
  lemma ChangeLandsOnce(w: seq<Candle>, j: int)
    requires 1 <= j < |w|
    ensures SplitChanges(w).0[j - 1] > 0.0 <==> Change(w, j) > 0.0
    ensures SplitChanges(w).1[j - 1] > 0.0 <==> Change(w, j) < 0.0
    ensures Change(w, j) > 0.0 ==> SplitChanges(w).0[j - 1] == Change(w, j) && SplitChanges(w).1[j - 1] == 0.0
    ensures Change(w, j) <= 0.0 ==> SplitChanges(w).1[j - 1] == Abs(Change(w, j)) && SplitChanges(w).0[j - 1] == 0.0
  {
    var r := SplitChanges(w);
    assert r.0[j - 1] - r.1[j - 1] == Change(w, j);
  }

  function Sum(s: seq<real>): real
    decreases |s|
  {
    if |s| == 0 then 0.0 else s[0] + Sum(s[1..])
  }

  /** A sum of non-negative terms is non-negative, and it is zero exactly
      when every term is zero. */
  lemma {:induction false} SumNonNegative(s: seq<real>)
    requires forall i :: 0 <= i < |s| ==> s[i] >= 0.0
    ensures Sum(s) >= 0.0
    ensures Sum(s) == 0.0 <==> forall i :: 0 <= i < |s| ==> s[i] == 0.0
    decreases |s|
  {
    if |s| > 0 {
      SumNonNegative(s[1..]);
      if Sum(s) == 0.0 {
        forall i | 0 <= i < |s| ensures s[i] == 0.0 {
          if i > 0 {
            assert s[i] == s[1..][i - 1];
          }
        }
      }
      if forall i :: 0 <= i < |s| ==> s[i] == 0.0 {
        assert forall i :: 0 <= i < |s[1..]| ==> s[1..][i] == s[i + 1];
      }
    }
  }

  function AvgGain(w: seq<Candle>): real
    requires |w| >= 2
  {
    Sum(SplitChanges(w).0) / ((|w| - 1) as real)
  }

  function AvgLoss(w: seq<Candle>): real
    requires |w| >= 2
  {
    Sum(SplitChanges(w).1) / ((|w| - 1) as real)
  }

  /** The loss list of a window is all zeros exactly when no close declines. */
  lemma LossesVanish(w: seq<Candle>)
    requires |w| >= 1
    ensures (forall i :: 0 <= i < |SplitChanges(w).1| ==> SplitChanges(w).1[i] == 0.0) <==> NoDecline(w)
  {
    var r := SplitChanges(w);
    if NoDecline(w) {
      forall i | 0 <= i < |r.1| ensures r.1[i] == 0.0 {
        assert w[i].close <= w[i + 1].close;
      }
    }
    if forall i :: 0 <= i < |r.1| ==> r.1[i] == 0.0 {
      forall j | 1 <= j < |w| ensures w[j - 1].close <= w[j].close {
        assert r.1[j - 1] == 0.0;
      }
    }
  }

  /** The gain list of a window is all zeros exactly when no close rises. */
  lemma GainsVanish(w: seq<Candle>)
    requires |w| >= 1
    ensures (forall i :: 0 <= i < |SplitChanges(w).0| ==> SplitChanges(w).0[i] == 0.0) <==> NoRise(w)
  {
    var r := SplitChanges(w);
    if NoRise(w) {
      forall i | 0 <= i < |r.0| ensures r.0[i] == 0.0 {
        assert w[i + 1].close <= w[i].close;
      }
    }
    if forall i :: 0 <= i < |r.0| ==> r.0[i] == 0.0 {
      forall j | 1 <= j < |w| ensures w[j].close <= w[j - 1].close {
        assert r.0[j - 1] == 0.0;
      }
    }
  }

  lemma MeanOfNonNegative(total: real, n: real)
    requires total >= 0.0 && n > 0.0
    ensures total / n >= 0.0
    ensures total / n == 0.0 <==> total == 0.0
  {
    assert (total / n) * n == total;
  }

  /** The average loss of a window is zero exactly when no close declines,
      and the average gain is zero exactly when no close rises. */
  lemma AveragesVanish(w: seq<Candle>)
    requires |w| >= 2
    ensures AvgGain(w) >= 0.0 && AvgLoss(w) >= 0.0
    ensures AvgLoss(w) == 0.0 <==> NoDecline(w)
    ensures AvgGain(w) == 0.0 <==> NoRise(w)
  {
    var r := SplitChanges(w);
    SumNonNegative(r.0);
    SumNonNegative(r.1);
    MeanOfNonNegative(Sum(r.0), (|w| - 1) as real);
    MeanOfNonNegative(Sum(r.1), (|w| - 1) as real);
    LossesVanish(w);
    GainsVanish(w);
  }

  lemma ProductNonNegative(a: real, b: real)
    requires a >= 0.0 && b >= 0.0
    ensures a * b >= 0.0
  {
  }

  /** The relative strength `gain/loss` of a positive loss. */
  lemma RatioFacts(gain: real, loss: real)
    requires gain >= 0.0 && loss > 0.0
    ensures gain / loss >= 0.0
    ensures gain / loss < 1.0 <==> gain < loss
    ensures gain / loss == 0.0 <==> gain == 0.0
  {
    var rs := gain / loss;
    assert rs * loss == gain;
    if rs < 1.0 {
      assert (1.0 - rs) * loss > 0.0;
    } else {
      ProductNonNegative(rs - 1.0, loss);
      assert (rs - 1.0) * loss == rs * loss - loss;
    }
  }

  /** `100 - 100/(1 + rs)` is in [0,100), is 0 exactly when `rs` is 0, and
      is below the midpoint exactly when `rs` is below 1. */
  lemma RsScale(rs: real)
    requires rs >= 0.0
    ensures 0.0 <= 100.0 - 100.0 / (1.0 + rs) < 100.0
    ensures 100.0 - 100.0 / (1.0 + rs) == 0.0 <==> rs == 0.0
    ensures 100.0 - 100.0 / (1.0 + rs) < Midline <==> rs < 1.0
  {
    var d := 1.0 + rs;
    var q := 100.0 / d;
    assert q * d == 100.0;
    assert q > 0.0;
    assert q <= 100.0;
    if rs < 1.0 {
      assert q > 50.0;
    } else {
      assert q <= 50.0;
    }
  }

  /** The oscillator value of one 14-candle window: the midpoint 50 when the
      average loss is zero, otherwise `100 - 100/(1 + avgGain/avgLoss)`. */
  function WindowValue(w: seq<Candle>): (r: real)
    requires |w| == Period
    ensures NoDecline(w) ==> r == Midline
    ensures !NoDecline(w) ==> 0.0 <= r < 100.0
    ensures !NoDecline(w) ==> (r < Midline <==> AvgGain(w) < AvgLoss(w))
    ensures r == 0.0 <==> !NoDecline(w) && NoRise(w)
    ensures 0.0 <= r <= 100.0
  {
    AveragesVanish(w);
    var avgGain := AvgGain(w);
    var avgLoss := AvgLoss(w);
    if avgLoss != 0.0 then
      var rs := avgGain / avgLoss;
      RatioFacts(avgGain, avgLoss);
      RsScale(rs);
      100.0 - 100.0 / (1.0 + rs)
    else
      Midline
  }

  function MakePoint(timestamp: int, tdi: real): TdiPoint
  {
    TdiPoint(timestamp, tdi, Overbought, Oversold, Midline)
  }

  /** One oscillator point per candle from the 14th on: point `k` is the
      value of the window ending at candle `k + 13` and carries that
      candle's timestamp. Absent or shorter input gives no points. */
  method CalculateTdiData(candles: Option<seq<Candle>>) returns (points: seq<TdiPoint>)
    ensures candles.None? || |candles.value| < Period ==> points == []
    ensures candles.Some? && |candles.value| >= Period ==>
      |points| == |candles.value| - (Period - 1)
    ensures candles.Some? ==> forall k :: 0 <= k < |points| ==>
      k + Period <= |candles.value|
      && points[k].timestamp == candles.value[k + Period - 1].timestamp
      && points[k].tdi == WindowValue(candles.value[k..k + Period])
      && points[k].overbought == Overbought && points[k].oversold == Oversold
      && points[k].midline == Midline
    ensures forall k :: 0 <= k < |points| ==> 0.0 <= points[k].tdi <= 100.0
  {
    if candles.None? || |candles.value| < Period {
      return [];
    }
    var cs := candles.value;
    points := [];
    var i := Period - 1;
    while i < |cs|
      invariant Period - 1 <= i <= |cs|
      invariant |points| == i - (Period - 1)
      invariant forall k :: 0 <= k < |points| ==>
        points[k] == MakePoint(cs[k + Period - 1].timestamp, WindowValue(cs[k..k + Period]))
    {
      var window := cs[i - Period + 1..i + 1];
      var tdi := WindowValue(window);
      points := points + [MakePoint(cs[i].timestamp, tdi)];
      i := i + 1;
    }
  }

  /** The reading of an oscillator value: BUY at or below 32, SELL at or
      above 80, NEUTRAL strictly between. */
  function Classify(v: real): (d: Direction)
    ensures d == Buy <==> v <= Oversold
    ensures d == Sell <==> v >= Overbought
    ensures d == Neutral <==> Oversold < v < Overbought
  {
    if v <= Oversold then Buy
    else if v >= Overbought then Sell
    else Neutral
  }

  /** Orders the readings from most bullish to most bearish. */
  function Rank(d: Direction): nat
  {
    match d
    case Buy => 0
    case Neutral => 1
    case Sell => 2
  }

  /** A higher value never reads as more bullish. */
  lemma ClassifyMonotone(v: real, u: real)
    requires v <= u
    ensures Rank(Classify(v)) <= Rank(Classify(u))
  {
  }

  /** `getSignalState`: reading, text colour and background of a value. */
  function GetSignalState(v: real): (s: SignalStyle)
    ensures s.state == Classify(v)
    ensures s.state == Buy ==> s.color == "text-green-400"
    ensures s.state == Sell ==> s.color == "text-red-400"
    ensures s.state == Neutral ==> s.color == "text-yellow-400"
  {
    if v <= Oversold then SignalStyle("text-green-400", Buy, "bg-green-900/30")
    else if v >= Overbought then SignalStyle("text-red-400", Sell, "bg-red-900/30")
    else SignalStyle("text-yellow-400", Neutral, "bg-gray-800/30")
  }

  /** JavaScript truthiness of an optional number (`NaN` is not modelled). */
  predicate Truthy(v: Option<real>)
  {
    v.Some? && v.value != 0.0
  }

  /** The value on display: the supplied value if truthy, else the last
      computed point, else the midpoint. */
  function CurrentTdi(tdiValue: Option<real>, points: seq<TdiPoint>): (r: real)
    ensures Truthy(tdiValue) ==> r == tdiValue.value
    ensures !Truthy(tdiValue) && |points| > 0 ==> r == points[|points| - 1].tdi
    ensures !Truthy(tdiValue) && |points| == 0 ==> r == Midline
  {
    if Truthy(tdiValue) then tdiValue.value
    else if |points| > 0 then points[|points| - 1].tdi
    else Midline
  }

  /** A supplied value of 0 is falsy and is treated as if none was given. */
  lemma ZeroFallsThrough(points: seq<TdiPoint>)
    ensures CurrentTdi(Some(0.0), points) == CurrentTdi(None, points)
  {
  }

  /** The displayed value stays in [0,100] when the points and any supplied
      value do. */
  lemma CurrentTdiInRange(tdiValue: Option<real>, points: seq<TdiPoint>)
    requires tdiValue.Some? ==> 0.0 <= tdiValue.value <= 100.0
    requires forall k :: 0 <= k < |points| ==> 0.0 <= points[k].tdi <= 100.0
    ensures 0.0 <= CurrentTdi(tdiValue, points) <= 100.0
  {
  }

  /** Last-minus-first over the last five points. */
  function TdiTrend(points: seq<TdiPoint>): real
    requires |points| >= 5
  {
    points[|points| - 1].tdi - points[|points| - 5].tdi
  }

  /** Last-minus-first over the last five closes. */
  function PriceTrend(data: seq<Candle>): real
    requires |data| >= 5
  {
    data[|data| - 1].close - data[|data| - 5].close
  }

  /** Enough history for the divergence test: ten points and ten candles. */
  predicate DivergenceHistory(points: seq<TdiPoint>, data: Option<seq<Candle>>)
  {
    |points| >= 10 && data.Some? && |data.value| >= 10
  }

  /** `checkDivergence`: the oscillator and the price moved in strictly
      opposite directions over the last five samples. */
  function CheckDivergence(points: seq<TdiPoint>, data: Option<seq<Candle>>): (r: bool)
    ensures r ==> DivergenceHistory(points, data)
    ensures r ==> TdiTrend(points) != 0.0 && PriceTrend(data.value) != 0.0
  {
    if |points| < 10 || data.None? || |data.value| < 10 then false
    else
      var tdiTrend := TdiTrend(points);
      var priceTrend := PriceTrend(data.value);
      (tdiTrend > 0.0 && priceTrend < 0.0) || (tdiTrend < 0.0 && priceTrend > 0.0)
  }

  function Sign(x: real): int
  {
    if x > 0.0 then 1 else if x < 0.0 then -1 else 0
  }

  /** With enough history, divergence is exactly a negative product of the
      signs of the two trends; a flat trend therefore never diverges. */
  lemma DivergenceIsOppositeSigns(points: seq<TdiPoint>, data: Option<seq<Candle>>)
    requires DivergenceHistory(points, data)
    ensures CheckDivergence(points, data) <==> Sign(TdiTrend(points)) * Sign(PriceTrend(data.value)) == -1
  {
  }

  /** Everything the panel derives from its inputs. */
  datatype ChartView = ChartView(points: seq<TdiPoint>, current: real, style: SignalStyle, hasDivergence: bool)

  /** The component body: compute the points from the candles, pick the
      displayed value, classify it and test for divergence. */
  method Render(data: Option<seq<Candle>>, tdiValue: Option<real>) returns (v: ChartView)
    ensures data.None? || |data.value| < Period ==> v.points == [] && !v.hasDivergence
    ensures data.Some? && |data.value| >= Period ==> |v.points| == |data.value| - (Period - 1)
    ensures data.Some? ==> forall k :: 0 <= k < |v.points| ==>
      k + Period <= |data.value|
      && v.points[k].timestamp == data.value[k + Period - 1].timestamp
      && v.points[k].tdi == WindowValue(data.value[k..k + Period])
      && v.points[k].overbought == Overbought && v.points[k].oversold == Oversold
      && v.points[k].midline == Midline
    ensures Truthy(tdiValue) ==> v.current == tdiValue.value
    ensures !Truthy(tdiValue) && |v.points| > 0 ==> v.current == v.points[|v.points| - 1].tdi
    ensures (tdiValue.Some? ==> 0.0 <= tdiValue.value <= 100.0) ==> 0.0 <= v.current <= 100.0
    ensures !Truthy(tdiValue) && |v.points| == 0 ==> v.current == Midline && v.style.state == Neutral
    ensures v.style.state == Classify(v.current)
    ensures v.hasDivergence <==> CheckDivergence(v.points, data)
    ensures v.hasDivergence ==> data.Some? && |data.value| >= Period + 9
  {
    var points := CalculateTdiData(data);
    if tdiValue.Some? ==> 0.0 <= tdiValue.value <= 100.0 {
      CurrentTdiInRange(tdiValue, points);
    }
    var current := CurrentTdi(tdiValue, points);
    v := ChartView(points, current, GetSignalState(current), CheckDivergence(points, data));
  }
}
