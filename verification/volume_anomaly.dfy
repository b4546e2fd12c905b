/** Volume anomalies (`VolumeAnalyzer` of the analyzers package): among the
    last five bars, a bar whose volume rises above the 20-bar mean plus a
    multiple of the 20-bar standard deviation is a spike, further classified
    against the bar before it. The rolling standard deviation is an input
    (one value per position); the rolling mean is computed. */
module VolumeAnomaly {
  import opened PySemantics
  import opened MarketData

  /** The rolling window length, and the fewest bars analysed at all. */
  const WindowLength: nat := 20
  /** How many of the most recent bars are examined. */
  const Examined: nat := 5
  /** The multiplier the call site falls back to. */
  const DefaultMultiplier: real := 1.5

  /** The total volume of the bars at positions `lo <= k < hi`. */
  function VolumeSum(bars: seq<Bar>, lo: int, hi: int): real
    requires 0 <= lo <= hi <= |bars|
    decreases hi - lo
  {
    if hi == lo then 0.0 else VolumeSum(bars, lo, hi - 1) + bars[hi - 1].volume
  }

  /** `volume.rolling(20).mean()` at position p: undefined (NaN) before the
      window is full. */
  function RollingMean(bars: seq<Bar>, p: int): (r: Option<real>)
    ensures r.Some? <==> WindowLength - 1 <= p < |bars|
  {
    if WindowLength - 1 <= p < |bars| then Some(VolumeSum(bars, p + 1 - WindowLength, p + 1) / WindowLength as real)
    else None
  }

  /** `volume.rolling(20).std()`: one non-negative value per position. */
  predicate ValidStd(bars: seq<Bar>, std: seq<real>)
  {
    |std| == |bars| && forall p :: 0 <= p < |std| ==> std[p] >= 0.0
  }

  /** `vol_sma + multiplier * vol_std`: the level a spike must exceed. */
  function Threshold(mean: real, m: real, sd: real): (r: real)
    ensures m >= 0.0 && sd >= 0.0 ==> r >= mean
  {
    if m >= 0.0 && sd >= 0.0 then ProductNonNegative(m, sd); mean + m * sd
    else mean + m * sd
  }

  /** The bar at position p is a spike: its volume exceeds the mean plus
      `m` standard deviations. A position without a full window never is,
      since NaN compares false. */
  predicate Spike(bars: seq<Bar>, std: seq<real>, p: int, m: real)
  {
    0 <= p < |bars| && p < |std| && RollingMean(bars, p).Some? &&
    bars[p].volume > Threshold(RollingMean(bars, p).value, m, std[p])
  }

  /** The sub-classification of a spike against the previous bar: higher
      high on lower volume first, then lower low on lower volume. */
  function Classify(cur: Bar, prev: Bar): (k: SignalKind)
    ensures k == VolumeSpike || k == VolumeDivergenceBearish || k == VolumeDivergenceBullish
    ensures k == VolumeDivergenceBearish <==> cur.high > prev.high && cur.volume < prev.volume
    ensures k == VolumeDivergenceBullish <==>
      !(cur.high > prev.high) && cur.low < prev.low && cur.volume < prev.volume
  {
    if cur.high > prev.high && cur.volume < prev.volume then VolumeDivergenceBearish
    else if cur.low < prev.low && cur.volume < prev.volume then VolumeDivergenceBullish
    else VolumeSpike
  }

  /** The signal reported for the spike at position p, whose mean is
      positive. */
  predicate Describes(s: Signal, bars: seq<Bar>, p: int)
  {
    1 <= p < |bars| && RollingMean(bars, p).Some? && RollingMean(bars, p).value > 0.0 &&
    var ratio := VolumeRatio(bars[p].volume, RollingMean(bars, p).value);
    s.kind == Classify(bars[p], bars[p - 1]) &&
    s.strength == ClampStrength(ratio / 3.0) && 0.0 <= s.strength <= 1.0 &&
    s.esPrice == bars[p].close && s.nqPrice == bars[p].close &&
    s.divergencePct == 0.0 && !s.confirmed &&
    s.details == map["volume_ratio" := Num(ratio)]
  }

  /** The spike positions among `lo <= p < hi`, in increasing order. */
  function SpikesBetween(bars: seq<Bar>, std: seq<real>, m: real, lo: int, hi: int): (ps: seq<int>)
    ensures forall k :: 0 <= k < |ps| ==> lo <= ps[k] < hi && Spike(bars, std, ps[k], m)
    ensures forall k, l :: 0 <= k < l < |ps| ==> ps[k] < ps[l]
    decreases hi - lo
  {
    if hi <= lo then []
    else SpikesBetween(bars, std, m, lo, hi - 1) + (if Spike(bars, std, hi - 1, m) then [hi - 1] else [])
  }

  /** No spike in the range is missed. */
  lemma {:induction false} SpikesComplete(bars: seq<Bar>, std: seq<real>, m: real, lo: int, hi: int, p: int)
    requires lo <= p < hi && Spike(bars, std, p, m)
    ensures p in SpikesBetween(bars, std, m, lo, hi)
    decreases hi - lo
  {
    if p < hi - 1 {
      SpikesComplete(bars, std, m, lo, hi - 1, p);
    }
  }

  /** A sum of non-negative volumes bounds each of them. */
  lemma {:induction false} SumBoundsElements(bars: seq<Bar>, lo: int, hi: int)
    requires NonNegativeVolumes(bars) && 0 <= lo <= hi <= |bars|
    ensures VolumeSum(bars, lo, hi) >= 0.0
    ensures forall k :: lo <= k < hi ==> VolumeSum(bars, lo, hi) >= bars[k].volume
    decreases hi - lo
  {
    if hi > lo {
      SumBoundsElements(bars, lo, hi - 1);
      assert bars[hi - 1] in bars;
    }
  }

  /** A spike over non-negative volumes has a positive mean, so the ratio
      `volume / mean` is defined wherever it is computed. */
  lemma SpikeMeanPositive(bars: seq<Bar>, std: seq<real>, p: int, m: real)
    requires NonNegativeVolumes(bars) && ValidStd(bars, std) && m >= 0.0
    requires Spike(bars, std, p, m)
    ensures RollingMean(bars, p).value > 0.0
  {
    SumBoundsElements(bars, p + 1 - WindowLength, p + 1);
  }

  lemma ProductNonNegative(x: real, y: real)
    requires x >= 0.0 && y >= 0.0
    ensures x * y >= 0.0
  {
  }

  /** `volume / mean`, the `volume_ratio` detail. A zero mean, where numpy
      would yield inf or NaN, gives 0; no spike over non-negative volumes
      has one (`SpikeMeanPositive`). */
  function VolumeRatio(v: real, mean: real): (r: real)
    ensures mean > 0.0 && v >= 0.0 ==> r >= 0.0
    ensures mean > 0.0 && v > mean ==> r > 1.0
  {
    if mean != 0.0 then v / mean else 0.0
  }

  /** The signal reported for a spiking bar with the given classification
      and positive rolling mean. */
  function SpikeSignal(stamp: string, bar: Bar, kind: SignalKind, mean: real): Signal
  {
    var ratio := VolumeRatio(bar.volume, mean);
    Signal(stamp, kind, ClampStrength(ratio / 3.0), bar.close, bar.close, 0.0, false, map["volume_ratio" := Num(ratio)])
  }

  /** The signal for the spike at position p. */
  function SignalFor(bars: seq<Bar>, std: seq<real>, m: real, stamp: string, p: int): Signal
    requires 1 <= p && Spike(bars, std, p, m)
  {
    SpikeSignal(stamp, bars[p], Classify(bars[p], bars[p - 1]), RollingMean(bars, p).value)
  }

  /** The signal for a spike describes its bar. */
  lemma SignalForDescribes(bars: seq<Bar>, std: seq<real>, m: real, stamp: string, p: int)
    requires NonNegativeVolumes(bars) && ValidStd(bars, std) && m >= 0.0 && 1 <= p && Spike(bars, std, p, m)
    ensures Describes(SignalFor(bars, std, m, stamp, p), bars, p)
  {
    SpikeMeanPositive(bars, std, p, m);
  }

  /** The signal list (empty or a singleton) for position p. */
  function SignalAt(bars: seq<Bar>, std: seq<real>, m: real, stamp: string, p: int): seq<Signal>
    requires 1 <= p
  {
    if Spike(bars, std, p, m) then [SignalFor(bars, std, m, stamp, p)] else []
  }

  /** The signals for the spikes among `lo <= p < hi`, in order. */
  function SignalsBetween(bars: seq<Bar>, std: seq<real>, m: real, stamp: string, lo: int, hi: int): seq<Signal>
    requires 1 <= lo
    decreases hi - lo
  {
    if hi <= lo then []
    else SignalsBetween(bars, std, m, stamp, lo, hi - 1) + SignalAt(bars, std, m, stamp, hi - 1)
  }

  /** The k-th signal is the one for the k-th spike. */
  lemma {:induction false} SignalsMatchSpikes(bars: seq<Bar>, std: seq<real>, m: real, stamp: string, lo: int, hi: int)
    requires 1 <= lo
    ensures var r := SignalsBetween(bars, std, m, stamp, lo, hi);
      var ps := SpikesBetween(bars, std, m, lo, hi);
      |r| == |ps| &&
      forall k :: 0 <= k < |r| ==> 1 <= ps[k] && Spike(bars, std, ps[k], m) && r[k] == SignalFor(bars, std, m, stamp, ps[k])
    decreases hi - lo
  {
    if hi > lo {
      SignalsMatchSpikes(bars, std, m, stamp, lo, hi - 1);
      var prev := SignalsBetween(bars, std, m, stamp, lo, hi - 1);
      var prevPs := SpikesBetween(bars, std, m, lo, hi - 1);
      if Spike(bars, std, hi - 1, m) {
        var r := SignalsBetween(bars, std, m, stamp, lo, hi);
        var ps := SpikesBetween(bars, std, m, lo, hi);
        assert r == prev + [SignalFor(bars, std, m, stamp, hi - 1)];
        assert ps == prevPs + [hi - 1];
        forall k | 0 <= k < |r|
          ensures 1 <= ps[k] && Spike(bars, std, ps[k], m) && r[k] == SignalFor(bars, std, m, stamp, ps[k])
        {
          if k < |prev| {
            assert r[k] == prev[k] && ps[k] == prevPs[k];
          }
        }
      }
    }
  }

  /** What `VolumeAnalyzer.analyze` returns once the multiplier and the
      rolling standard deviation are passed in: nothing for fewer than 20
      bars, else one signal per spike among the last five bars, oldest
      first. */
  function VolumeSignals(bars: seq<Bar>, std: seq<real>, m: real, stamp: string): seq<Signal>
  {
    if |bars| < WindowLength then [] else SignalsBetween(bars, std, m, stamp, |bars| - Examined, |bars|)
  }

  /** The analyzer's output is empty below 20 bars, and never holds more
      than one signal per examined bar. */
  lemma VolumeSignalsBounded(bars: seq<Bar>, std: seq<real>, m: real, stamp: string)
    ensures |bars| < WindowLength ==> VolumeSignals(bars, std, m, stamp) == []
    ensures |VolumeSignals(bars, std, m, stamp)| <= Examined
  {
    if |bars| >= WindowLength {
      var lo := |bars| - Examined;
      SignalsMatchSpikes(bars, std, m, stamp, lo, |bars|);
      SpikeCount(bars, std, m, lo, |bars|);
    }
  }

  /** From 20 bars on, the output is one signal per spike among the last
      five bars, in position order, each describing its bar. */
  lemma VolumeSignalsDescribeSpikes(bars: seq<Bar>, std: seq<real>, m: real, stamp: string)
    requires NonNegativeVolumes(bars) && ValidStd(bars, std) && m >= 0.0
    requires |bars| >= WindowLength
    ensures var r := VolumeSignals(bars, std, m, stamp);
      var ps := SpikesBetween(bars, std, m, |bars| - Examined, |bars|);
      |r| == |ps| && forall k :: 0 <= k < |r| ==> Describes(r[k], bars, ps[k])
  {
    var lo := |bars| - Examined;
    SignalsMatchSpikes(bars, std, m, stamp, lo, |bars|);
    forall k | 0 <= k < |SignalsBetween(bars, std, m, stamp, lo, |bars|)|
      ensures Describes(SignalsBetween(bars, std, m, stamp, lo, |bars|)[k], bars, SpikesBetween(bars, std, m, lo, |bars|)[k])
    {
      SignalDescribesSpike(bars, std, m, stamp, lo, |bars|, k);
    }
  }

  /** The k-th signal among positions `lo <= p < hi` describes the k-th spike. */
  lemma SignalDescribesSpike(bars: seq<Bar>, std: seq<real>, m: real, stamp: string, lo: int, hi: int, k: int)
    requires NonNegativeVolumes(bars) && ValidStd(bars, std) && m >= 0.0 && 1 <= lo
    requires 0 <= k < |SignalsBetween(bars, std, m, stamp, lo, hi)|
    ensures k < |SpikesBetween(bars, std, m, lo, hi)|
    ensures Describes(SignalsBetween(bars, std, m, stamp, lo, hi)[k], bars, SpikesBetween(bars, std, m, lo, hi)[k])
  {
    SignalsMatchSpikes(bars, std, m, stamp, lo, hi);
    var p := SpikesBetween(bars, std, m, lo, hi)[k];
    SignalForDescribes(bars, std, m, stamp, p);
  }

  /** Every volume signal has a strength in [0, 1], one of the three volume
      kinds, and the same ES and NQ reference price. */
  lemma VolumeSignalsWellFormed(bars: seq<Bar>, std: seq<real>, m: real, stamp: string)
    requires NonNegativeVolumes(bars) && ValidStd(bars, std) && m >= 0.0
    ensures var r := VolumeSignals(bars, std, m, stamp);
      forall k :: 0 <= k < |r| ==>
        0.0 <= r[k].strength <= 1.0 && r[k].esPrice == r[k].nqPrice &&
        (r[k].kind == VolumeSpike || r[k].kind == VolumeDivergenceBearish || r[k].kind == VolumeDivergenceBullish)
  {
    VolumeSignalsBounded(bars, std, m, stamp);
    if |bars| >= WindowLength {
      VolumeSignalsDescribeSpikes(bars, std, m, stamp);
    }
  }

  /** At most one spike per examined position. */
  lemma {:induction false} SpikeCount(bars: seq<Bar>, std: seq<real>, m: real, lo: int, hi: int)
    requires lo <= hi
    ensures |SpikesBetween(bars, std, m, lo, hi)| <= hi - lo
    decreases hi - lo
  {
    if hi > lo {
      SpikeCount(bars, std, m, lo, hi - 1);
    }
  }

  /** `VolumeAnalyzer.analyze` with the multiplier passed explicitly: a loop
      over the offsets -5 .. -1 that appends one signal per spike. */
  method Analyze(bars: seq<Bar>, std: seq<real>, m: real, stamp: string) returns (signals: seq<Signal>)
    requires |std| == |bars|
    ensures signals == VolumeSignals(bars, std, m, stamp)
  {
    if |bars| < WindowLength {
      return [];
    }
    var n := |bars|;
    signals := [];
    for i := -(Examined as int) to 0
      invariant signals == SignalsBetween(bars, std, m, stamp, n - Examined, n + i)
    {
      var p := n + i;
      var current := bars[p];
      var mean := RollingMean(bars, p);
      if mean.Some? && current.volume > Threshold(mean.value, m, std[p]) {
        var kind := VolumeSpike;
        if i > -n {
          var prev := bars[p - 1];
          if current.high > prev.high && current.volume < prev.volume {
            kind := VolumeDivergenceBearish;
          } else if current.low < prev.low && current.volume < prev.volume {
            kind := VolumeDivergenceBullish;
          }
        }
        assert kind == Classify(current, bars[p - 1]);
        assert SignalAt(bars, std, m, stamp, p) == [SpikeSignal(stamp, current, kind, mean.value)];
        signals := signals + [SpikeSignal(stamp, current, kind, mean.value)];
      } else {
        assert SignalAt(bars, std, m, stamp, p) == [];
      }
    }
  }

  /** `VolumeAnalyzer.analyze` as written: with fewer than 20 bars it
      returns an empty list, otherwise it reaches `self.settings.get`, and
      the settings object has no `get` method. */
  function AnalyzeAsWritten(bars: seq<Bar>): (o: Outcome<seq<Signal>>)
    ensures o.Returned? <==> |bars| < WindowLength
  {
    if |bars| < WindowLength then Returned([]) else Raised(AttributeError)
  }

  /** As written, the analyzer never yields a signal: whatever it returns
      is empty, and anything else is an exception. */
  lemma AnalyzeAsWrittenYieldsNothing(bars: seq<Bar>)
    ensures Catch(AnalyzeAsWritten(bars), []) == []
  {
  }
}
