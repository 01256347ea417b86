/** The condition and signal effects of the trading dashboard
    (src/components/TradingDashboard.js): the oscillator condition with its
    momentum/divergence test, the count of met conditions and the gate of
    five, the construction of a directional signal with its strength and
    stop-loss/take-profit, and the newest-first log of the last five
    signals.

    The six other conditions (volume, trend, EMA, market structure,
    sessions, key levels) are drawn at random by the dashboard; here their
    statuses are plain boolean inputs. The strength jitter is the input
    `jitter` in [0,20).
 */
module DashboardSignals {
  import opened Common
  import TdiChart
  import DashboardFeed

  /** The oscillator condition as the dashboard stores it. */
  datatype TdiCondition = TdiCondition(status: bool, value: real, divergence: bool, signal: Direction, momentum: real)

  /** The seven conditions, in the order the dashboard declares them. */
  datatype Conditions = Conditions(
    tdi: TdiCondition,
    volume: bool,
    trend: bool,
    ema: bool,
    marketStructure: bool,
    sessions: bool,
    keyLevels: bool)

  /** The newest stored oscillator value, 50 when there is none. */
  function LatestTdi(d: seq<DashboardFeed.TdiSample>): real
  {
    if |d| > 0 then d[|d| - 1].tdi else TdiChart.Midline
  }

  /** The oscillator value before the newest, 50 when there is none. */
  function PreviousTdi(d: seq<DashboardFeed.TdiSample>): real
  {
    if |d| > 1 then d[|d| - 2].tdi else TdiChart.Midline
  }

  /** `x > 0 ? 1 : -1`: a change of zero counts as down. */
  function UpOrDown(x: real): int
  {
    if x > 0.0 then 1 else -1
  }

  /** The oscillator condition for the current buffer and price change:
      divergence is a momentum of more than 2 in either direction whose
      direction differs from the price's; the condition holds when the
      newest value is extreme and diverges. */
  function EvaluateTdi(d: seq<DashboardFeed.TdiSample>, priceChange: real): (c: TdiCondition)
    ensures c.value == LatestTdi(d)
    ensures c.momentum + PreviousTdi(d) == LatestTdi(d)
    ensures c.divergence <==>
      (priceChange > 0.0 && c.momentum < -2.0) || (priceChange <= 0.0 && c.momentum > 2.0)
    ensures c.status <==> TdiChart.Classify(c.value) != Neutral && c.divergence
    ensures c.signal == TdiChart.Classify(c.value)
  {
    var latest := LatestTdi(d);
    var previous := PreviousTdi(d);
    var momentum := latest - previous;
    var priceDirection := UpOrDown(priceChange);
    var tdiDirection := UpOrDown(momentum);
    var hasDivergence := (momentum > 2.0 || momentum < -2.0) && priceDirection != tdiDirection;
    TdiCondition(
      (latest <= TdiChart.Oversold || latest >= TdiChart.Overbought) && hasDivergence,
      latest,
      hasDivergence,
      TdiChart.Classify(latest),
      momentum)
  }

  /** With an empty buffer both values default to 50: no momentum, no
      divergence, a NEUTRAL reading and an unmet condition. */
  lemma EmptyBufferIsQuiet(priceChange: real)
    ensures EvaluateTdi([], priceChange).momentum == 0.0
    ensures !EvaluateTdi([], priceChange).divergence
    ensures !EvaluateTdi([], priceChange).status
    ensures EvaluateTdi([], priceChange).signal == Neutral
  {
  }

  /** With a single point only the previous value defaults to 50, so the
      momentum is that point's distance from 50. */
  lemma SinglePointMomentum(s: DashboardFeed.TdiSample, priceChange: real)
    ensures EvaluateTdi([s], priceChange).momentum == s.tdi - 50.0
  {
  }

  /** A flat price counts as down, so an upward momentum above 2 diverges. */
  lemma FlatPriceDiverges(d: seq<DashboardFeed.TdiSample>)
    requires EvaluateTdi(d, 0.0).momentum > 2.0
    ensures EvaluateTdi(d, 0.0).divergence
  {
  }

  /** A met oscillator condition always carries a BUY or SELL reading. */
  lemma MetTdiHasDirection(d: seq<DashboardFeed.TdiSample>, priceChange: real)
    ensures EvaluateTdi(d, priceChange).status ==> EvaluateTdi(d, priceChange).signal != Neutral
  {
  }

  /** The keys of the conditions, in declaration order. */
  const Keys: seq<string> := ["tdi", "volume", "trend", "ema", "marketStructure", "sessions", "keyLevels"]

  /** `Object.values(conditions).map(c => c.status)`. */
  function Statuses(c: Conditions): (s: seq<bool>)
    ensures |s| == |Keys|
  {
    [c.tdi.status, c.volume, c.trend, c.ema, c.marketStructure, c.sessions, c.keyLevels]
  }

  /** How many entries are true. */
  function CountTrue(bs: seq<bool>): (n: nat)
    ensures n <= |bs|
    ensures n == 0 <==> forall i :: 0 <= i < |bs| ==> !bs[i]
    ensures n == |bs| <==> forall i :: 0 <= i < |bs| ==> bs[i]
    decreases |bs|
  {
    if |bs| == 0 then 0
    else
      var rest := CountTrue(bs[1..]);
      assert forall i :: 1 <= i < |bs| ==> bs[i] == bs[1..][i - 1];
      (if bs[0] then 1 else 0) + rest
  }

  /** The keys whose status is true, in order. */
  function FilterKeys(ks: seq<string>, bs: seq<bool>): (r: seq<string>)
    requires |ks| == |bs|
    ensures |r| == CountTrue(bs)
    decreases |ks|
  {
    if |ks| == 0 then []
    else if bs[0] then [ks[0]] + FilterKeys(ks[1..], bs[1..])
    else FilterKeys(ks[1..], bs[1..])
  }

  /** A key is kept exactly when some position holding it has a true status. */
  lemma {:induction false} FilterKeysMembers(ks: seq<string>, bs: seq<bool>, x: string)
    requires |ks| == |bs|
    ensures x in FilterKeys(ks, bs) <==> exists i :: 0 <= i < |ks| && ks[i] == x && bs[i]
    decreases |ks|
  {
    if |ks| > 0 {
      FilterKeysMembers(ks[1..], bs[1..], x);
      if exists i :: 0 <= i < |ks| && ks[i] == x && bs[i] {
        var i :| 0 <= i < |ks| && ks[i] == x && bs[i];
        if i > 0 {
          assert ks[1..][i - 1] == x && bs[1..][i - 1];
        }
      }
      if x in FilterKeys(ks[1..], bs[1..]) {
        var i :| 0 <= i < |ks| - 1 && ks[1..][i] == x && bs[1..][i];
        assert ks[i + 1] == x && bs[i + 1];
      }
    }
  }

  /** No key appears twice. */
  lemma KeysDistinct()
    ensures forall a, b :: 0 <= a < b < |Keys| ==> Keys[a] != Keys[b]
  {
  }

  /** A key of the conditions is listed exactly when its status holds. */
  lemma KeyListed(bs: seq<bool>, i: int)
    requires |bs| == |Keys| && 0 <= i < |Keys|
    ensures Keys[i] in FilterKeys(Keys, bs) <==> bs[i]
  {
    FilterKeysMembers(Keys, bs, Keys[i]);
    KeysDistinct();
  }

  /** The number of met conditions. */
  function MetCount(c: Conditions): (n: nat)
    ensures n <= 7
    ensures n == 0 <==> forall i :: 0 <= i < 7 ==> !Statuses(c)[i]
    ensures n == 7 <==> forall i :: 0 <= i < 7 ==> Statuses(c)[i]
  {
    CountTrue(Statuses(c))
  }

  /** The keys of the met conditions: as many as the met count, and a key is
      listed exactly when its condition holds. */
  function MetKeys(c: Conditions): (r: seq<string>)
    ensures |r| == MetCount(c)
    ensures forall i :: 0 <= i < |Keys| ==> (Keys[i] in r <==> Statuses(c)[i])
  {
    var r := FilterKeys(Keys, Statuses(c));
    forall i | 0 <= i < |Keys| ensures Keys[i] in r <==> Statuses(c)[i] {
      KeyListed(Statuses(c), i);
    }
    r
  }

  /** The dashboard is ready to signal with at least five met conditions. */
  predicate SignalReady(c: Conditions): (r: bool)
    ensures r <==> |MetKeys(c)| >= 5
  {
    MetCount(c) >= 5
  }

  /** One emitted trading signal. */
  datatype Signal = Signal(
    id: int,
    pair: string,
    kind: Direction,
    timestamp: string,
    price: real,
    metConditions: nat,
    strength: int,
    tdiValue: real,
    conditions: seq<string>,
    riskReward: string,
    stopLoss: real,
    takeProfit: real)

  /** `Math.floor(Math.min(100, (count / 7) * 100 + jitter))`. */
  function Strength(count: nat, jitter: real): (s: int)
    requires count <= 7 && 0.0 <= jitter < 20.0
    ensures 0 <= s <= 100
    ensures s as real <= (count as real) / 7.0 * 100.0 + jitter
    ensures (count as real) / 7.0 * 100.0 + jitter < (s + 1) as real || s == 100
  {
    MinReal(100.0, (count as real) / 7.0 * 100.0 + jitter).Floor
  }

  /** With five or more of seven conditions met the strength is at least 71. */
  lemma ReadyStrengthBounds(count: nat, jitter: real)
    requires 5 <= count <= 7 && 0.0 <= jitter < 20.0
    ensures 71 <= Strength(count, jitter) <= 100
  {
    var x := (count as real) / 7.0 * 100.0 + jitter;
    assert x >= 71.0;
    assert MinReal(100.0, x) >= 71.0;
  }

  /** Stop-loss distance from the entry price. */
  const StopOffset: real := 0.001
  /** Take-profit distance from the entry price. */
  const TargetOffset: real := 0.002

  /** The signal the dashboard emits for the current conditions, if any: one
      exists exactly when at least five conditions hold and the oscillator
      value gives a direction. */
  function BuildSignal(c: Conditions, pair: string, price: real, jitter: real, id: int, timestamp: string, riskReward: string): (r: Option<Signal>)
    requires 0.0 <= jitter < 20.0
    ensures r.Some? <==> SignalReady(c) && TdiChart.Classify(c.tdi.value) != Neutral
    ensures r.Some? ==>
      && r.value.kind == TdiChart.Classify(c.tdi.value)
      && r.value.metConditions == MetCount(c)
      && r.value.conditions == MetKeys(c)
      && r.value.strength == Strength(MetCount(c), jitter)
      && 71 <= r.value.strength <= 100
      && r.value.timestamp == timestamp && r.value.riskReward == riskReward
      && r.value.id == id && r.value.pair == pair && r.value.price == price
      && r.value.tdiValue == c.tdi.value
    ensures r.Some? && r.value.kind == Buy ==>
      r.value.stopLoss < price < r.value.takeProfit
      && price - r.value.stopLoss == StopOffset && r.value.takeProfit - price == TargetOffset
    ensures r.Some? && r.value.kind == Sell ==>
      r.value.takeProfit < price < r.value.stopLoss
      && r.value.stopLoss - price == StopOffset && price - r.value.takeProfit == TargetOffset
  {
    var count := MetCount(c);
    if count >= 5 then
      var kind := TdiChart.Classify(c.tdi.value);
      if kind != Neutral then
        ReadyStrengthBounds(count, jitter);
        Some(Signal(
          id, pair, kind, timestamp, price, count, Strength(count, jitter), c.tdi.value,
          MetKeys(c), riskReward,
          if kind == Buy then price - StopOffset else price + StopOffset,
          if kind == Buy then price + TargetOffset else price - TargetOffset))
      else None
    else None
  }

  /** When the oscillator condition is fresh, the signal's direction is the
      reading the condition already shows. */
  lemma SignalFollowsCondition(d: seq<DashboardFeed.TdiSample>, priceChange: real, c: Conditions,
                               pair: string, price: real, jitter: real, id: int, timestamp: string, riskReward: string)
    requires c.tdi == EvaluateTdi(d, priceChange)
    requires 0.0 <= jitter < 20.0
    ensures BuildSignal(c, pair, price, jitter, id, timestamp, riskReward).Some? ==>
      BuildSignal(c, pair, price, jitter, id, timestamp, riskReward).value.kind == c.tdi.signal
    ensures c.tdi.status && SignalReady(c) ==> BuildSignal(c, pair, price, jitter, id, timestamp, riskReward).Some?
  {
  }

  /** Capacity of the recent-signal log. */
  const LogCapacity: nat := 5

  /** The recent signals, newest first, and the running total. */
  datatype SignalLog = SignalLog(signals: seq<Signal>, totalSignals: nat)

  /** `[newSignal, ...prev.slice(0, 4)]` and one more in the total. */
  function Record(log: SignalLog, s: Signal): (r: SignalLog)
    ensures |r.signals| == Min(|log.signals| + 1, LogCapacity)
    ensures r.signals[0] == s
    ensures forall i :: 1 <= i < |r.signals| ==> r.signals[i] == log.signals[i - 1]
    ensures r.totalSignals == log.totalSignals + 1
  {
    SignalLog([s] + log.signals[..Min(|log.signals|, LogCapacity - 1)], log.totalSignals + 1)
  }

  /** Recording several signals, oldest first. */
  function RecordAll(log: SignalLog, ss: seq<Signal>): SignalLog
    decreases |ss|
  {
    if |ss| == 0 then log else RecordAll(Record(log, ss[0]), ss[1..])
  }

  function Reverse<T>(s: seq<T>): (r: seq<T>)
    ensures |r| == |s|
    ensures forall i :: 0 <= i < |s| ==> r[i] == s[|s| - 1 - i]
    decreases |s|
  {
    if |s| == 0 then [] else Reverse(s[1..]) + [s[0]]
  }

  /** The first `n` elements, or all of them. */
  function TakeFirst<T>(s: seq<T>, n: nat): seq<T>
  {
    s[..Min(|s|, n)]
  }

  /** Keeping four of the tail does not change the first five when at least
      one element comes before it. */
  lemma TakeFirstAbsorbs<T>(a: seq<T>, tail: seq<T>)
    requires |a| >= 1
    ensures TakeFirst(a + TakeFirst(tail, LogCapacity - 1), LogCapacity) == TakeFirst(a + tail, LogCapacity)
  {
    var l := a + TakeFirst(tail, LogCapacity - 1);
    var m := a + tail;
    assert |TakeFirst(l, LogCapacity)| == |TakeFirst(m, LogCapacity)|;
    forall i | 0 <= i < |TakeFirst(l, LogCapacity)|
      ensures TakeFirst(l, LogCapacity)[i] == TakeFirst(m, LogCapacity)[i]
    {
      if i >= |a| {
        assert l[i] == tail[i - |a|] == m[i];
      }
    }
  }

  /** After recording any signals the log holds the newest five of all
      signals seen, newest first, and the total counts every one. */
  lemma {:induction false} RecordAllNewestFirst(log: SignalLog, ss: seq<Signal>)
    requires |log.signals| <= LogCapacity
    ensures RecordAll(log, ss).signals == TakeFirst(Reverse(ss) + log.signals, LogCapacity)
    ensures RecordAll(log, ss).totalSignals == log.totalSignals + |ss|
    decreases |ss|
  {
    if |ss| == 0 {
      assert Reverse(ss) + log.signals == log.signals;
    } else {
      var next := Record(log, ss[0]);
      RecordAllNewestFirst(next, ss[1..]);
      assert next.signals == [ss[0]] + TakeFirst(log.signals, LogCapacity - 1);
      TakeFirstAbsorbs(Reverse(ss[1..]) + [ss[0]], log.signals);
      assert Reverse(ss[1..]) + next.signals == Reverse(ss[1..]) + [ss[0]] + TakeFirst(log.signals, LogCapacity - 1);
      assert Reverse(ss) == Reverse(ss[1..]) + [ss[0]];
      assert Reverse(ss[1..]) + [ss[0]] + log.signals == Reverse(ss) + log.signals;
    }
  }

  /** The signal effect: emit at most one signal and record it. */
  function SignalEffect(log: SignalLog, c: Conditions, pair: string, price: real, jitter: real, id: int, timestamp: string, riskReward: string): (r: SignalLog)
    requires 0.0 <= jitter < 20.0
    ensures BuildSignal(c, pair, price, jitter, id, timestamp, riskReward).None? ==> r == log
    ensures BuildSignal(c, pair, price, jitter, id, timestamp, riskReward).Some? ==>
      r.totalSignals == log.totalSignals + 1
      && |r.signals| == Min(|log.signals| + 1, LogCapacity)
      && r.signals[0] == BuildSignal(c, pair, price, jitter, id, timestamp, riskReward).value
      && (forall i :: 1 <= i < |r.signals| ==> r.signals[i] == log.signals[i - 1])
    ensures |log.signals| <= LogCapacity ==> |r.signals| <= LogCapacity
  {
    match BuildSignal(c, pair, price, jitter, id, timestamp, riskReward)
    case Some(s) => Record(log, s)
    case None => log
  }
}
