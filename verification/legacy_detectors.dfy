/** The detectors of the older analysis suite: close-change divergence
    between the NASDAQ and S&P 500 proxies, market-structure breaks, order
    blocks, fair-value gaps and the quarterly signal. Each reads its
    settings from the settings singleton; here they are passed in. */
module LegacyDetectors {
  import opened PySemantics
  import opened MarketData
  import VolumeAnomaly

  /** The signal type strings of the older suite. */
  datatype LegacyKind = BullishDivergence | BearishDivergence | MssBreak | OrderBlock | Fvg | QuarterlyShift
  {
    function Name(): string
    {
      match this
      case BullishDivergence => "bullish_divergence"
      case BearishDivergence => "bearish_divergence"
      case MssBreak => "mss_break"
      case OrderBlock => "order_block"
      case Fvg => "fvg"
      case QuarterlyShift => "quarterly_shift"
    }
  }

  /** `SMTSignal` of the older suite. */
  datatype LegacySignal = LegacySignal(
    timestamp: string,
    kind: LegacyKind,
    strength: real,
    nasdaqPrice: real,
    sp500Price: real,
    divergencePercentage: real,
    confirmed: bool,
    details: map<string, Detail>)

  /** The nine values the detectors read from the settings singleton. */
  datatype DetectorSettings = DetectorSettings(
    minDivergenceThreshold: real,
    lookbackPeriod: int,
    swingThreshold: real,
    lookbackSwings: int,
    minBlockSize: real,
    volumeThreshold: real,
    minFvgGapSize: real,
    quarterlyMonths: seq<int>,
    monthlyBiasDays: seq<int>)

  /** The values the singleton starts with. */
  const DefaultDetectorSettings :=
    DetectorSettings(0.5, 20, 0.5, 5, 0.3, 1.5, 0.2, [1, 4, 7, 10], [1, 2, 3])

  // ---------------------------------------------------------------------
  // DivergenceDetector

  /** `(last / first - 1) * 100`: a close-to-close move, in percent. */
  function PercentChange(first: real, last: real): (r: real)
    requires first > 0.0
    ensures r > 0.0 <==> last > first
    ensures r == 0.0 <==> last == first
  {
    DivisionAboveOne(last, first);
    (last / first - 1.0) * 100.0
  }

  lemma DivisionAboveOne(x: real, y: real)
    requires y > 0.0
    ensures x / y > 1.0 <==> x > y
    ensures x / y == 1.0 <==> x == y
  {
    assert x == (x / y) * y;
  }

  /** The signal (if any) for the two recent windows. */
  function DivergenceOf(nq: seq<Bar>, sp: seq<Bar>, lookback: int, thr: real, stamp: string): seq<LegacySignal>
    requires |nq| > 0 && |sp| > 0 && nq[0].close > 0.0 && sp[0].close > 0.0
  {
    var nqChange := PercentChange(nq[0].close, Last(nq).close);
    var spChange := PercentChange(sp[0].close, Last(sp).close);
    var div := Abs(nqChange - spChange);
    if div >= thr then
      [LegacySignal(stamp, if nqChange > spChange then BullishDivergence else BearishDivergence,
                    ClampStrength(div / 2.0), Last(nq).close, Last(sp).close, div, div > thr * 2.0,
                    map["lookback_period" := Int(lookback), "nasdaq_change" := Num(nqChange),
                        "sp500_change" := Num(spChange)])]
    else []
  }

  /** `detect_divergence`: nothing unless both series hold `lookback_period`
      bars; else the moves of the last `lookback_period` closes are compared. */
  function DetectDivergence(nasdaq: seq<Bar>, sp500: seq<Bar>, cfg: DetectorSettings, stamp: string): (r: seq<LegacySignal>)
    requires PositivePrices(nasdaq) && PositivePrices(sp500)
    ensures |r| <= 1
  {
    var lookback := cfg.lookbackPeriod;
    if |nasdaq| < lookback || |sp500| < lookback then []
    else
      var nq := SliceFrom(nasdaq, -lookback);
      var sp := SliceFrom(sp500, -lookback);
      if nq == [] || sp == [] then []
      else
        assert nq[0] in nasdaq && sp[0] in sp500;
        DivergenceOf(nq, sp, lookback, cfg.minDivergenceThreshold, stamp)
  }

  /** Too few bars give nothing; a signal has a strength in [0, 1], meets
      the threshold and carries the two last closes. */
  lemma DetectDivergenceSignals(nasdaq: seq<Bar>, sp500: seq<Bar>, cfg: DetectorSettings, stamp: string)
    requires PositivePrices(nasdaq) && PositivePrices(sp500)
    ensures |nasdaq| < cfg.lookbackPeriod || |sp500| < cfg.lookbackPeriod ==>
      DetectDivergence(nasdaq, sp500, cfg, stamp) == []
    ensures forall s :: s in DetectDivergence(nasdaq, sp500, cfg, stamp) ==>
      0.0 <= s.strength <= 1.0 && s.divergencePercentage >= cfg.minDivergenceThreshold &&
      s.nasdaqPrice == Last(nasdaq).close && s.sp500Price == Last(sp500).close
  {
    var lookback := cfg.lookbackPeriod;
    if lookback <= |nasdaq| && lookback <= |sp500| {
      var nq := SliceFrom(nasdaq, -lookback);
      var sp := SliceFrom(sp500, -lookback);
      if nq != [] && sp != [] {
        assert Last(nq) == Last(nasdaq) && Last(sp) == Last(sp500);
        assert nq[0] in nasdaq && sp[0] in sp500;
        DivergenceOfSound(nq, sp, lookback, cfg.minDivergenceThreshold, stamp);
      }
    }
  }

  /** With `L` the lookback and enough bars, exactly one signal appears iff
      the two moves over the last `L` closes differ by at least the
      threshold; it is bullish iff the NASDAQ move is the larger, its
      strength is half the difference capped at 1, and it is confirmed iff
      the difference exceeds twice the threshold. */
  lemma DetectDivergenceSound(nasdaq: seq<Bar>, sp500: seq<Bar>, cfg: DetectorSettings, stamp: string)
    requires PositivePrices(nasdaq) && PositivePrices(sp500)
    requires 1 <= cfg.lookbackPeriod <= |nasdaq| && cfg.lookbackPeriod <= |sp500|
    ensures var r := DetectDivergence(nasdaq, sp500, cfg, stamp);
      var nqFirst := nasdaq[|nasdaq| - cfg.lookbackPeriod];
      var spFirst := sp500[|sp500| - cfg.lookbackPeriod];
      nqFirst.close > 0.0 && spFirst.close > 0.0 &&
      var nqChange := PercentChange(nqFirst.close, Last(nasdaq).close);
      var spChange := PercentChange(spFirst.close, Last(sp500).close);
      var div := Abs(nqChange - spChange);
      (r != [] <==> div >= cfg.minDivergenceThreshold) &&
      forall s :: s in r ==>
        (s.kind == BullishDivergence <==> nqChange > spChange) &&
        (s.kind == BullishDivergence || s.kind == BearishDivergence) &&
        s.strength == ClampStrength(div / 2.0) && s.divergencePercentage == div &&
        (s.confirmed <==> div > 2.0 * cfg.minDivergenceThreshold)
  {
    var lookback := cfg.lookbackPeriod;
    var nq := SliceFrom(nasdaq, -lookback);
    var sp := SliceFrom(sp500, -lookback);
    assert nq[0] == nasdaq[|nasdaq| - lookback] && sp[0] == sp500[|sp500| - lookback];
    assert Last(nq) == Last(nasdaq) && Last(sp) == Last(sp500);
    assert nq[0] in nasdaq && sp[0] in sp500;
    DivergenceOfSound(nq, sp, lookback, cfg.minDivergenceThreshold, stamp);
  }

  /** The comparison of two windows: a signal iff the moves differ by at
      least the threshold, bullish iff the NASDAQ move is the larger, with
      half the difference (capped at 1) as strength, confirmed iff the
      difference exceeds twice the threshold. */
  lemma DivergenceOfSound(nq: seq<Bar>, sp: seq<Bar>, lookback: int, thr: real, stamp: string)
    requires |nq| > 0 && |sp| > 0 && nq[0].close > 0.0 && sp[0].close > 0.0
    ensures var nqChange := PercentChange(nq[0].close, Last(nq).close);
      var spChange := PercentChange(sp[0].close, Last(sp).close);
      var div := Abs(nqChange - spChange);
      var r := DivergenceOf(nq, sp, lookback, thr, stamp);
      (r != [] <==> div >= thr) &&
      forall s :: s in r ==>
        (s.kind == BullishDivergence <==> nqChange > spChange) &&
        (s.kind == BullishDivergence || s.kind == BearishDivergence) &&
        s.strength == ClampStrength(div / 2.0) && 0.0 <= s.strength <= 1.0 &&
        s.divergencePercentage == div && s.divergencePercentage >= thr &&
        s.nasdaqPrice == Last(nq).close && s.sp500Price == Last(sp).close &&
        (s.confirmed <==> div > 2.0 * thr)
  {
  }

  // ---------------------------------------------------------------------
  // MarketStructureAnalyzer

  /** `high.rolling(3, center=True).max()` at position j: the highest of the
      bars j-1, j, j+1, undefined (NaN) at either end. */
  function RollingHigh(bars: seq<Bar>, j: int): (r: Option<real>)
    ensures r.Some? <==> 1 <= j && j + 1 < |bars|
    ensures r.Some? ==> r.value >= bars[j - 1].high && r.value >= bars[j].high && r.value >= bars[j + 1].high
    ensures r.Some? ==> r.value == bars[j - 1].high || r.value == bars[j].high || r.value == bars[j + 1].high
  {
    if 1 <= j && j + 1 < |bars| then Some(MaxReal(MaxReal(bars[j - 1].high, bars[j].high), bars[j + 1].high))
    else None
  }

  /** `low.rolling(3, center=True).min()` at position j. */
  function RollingLow(bars: seq<Bar>, j: int): (r: Option<real>)
    ensures r.Some? <==> 1 <= j && j + 1 < |bars|
    ensures r.Some? ==> r.value <= bars[j - 1].low && r.value <= bars[j].low && r.value <= bars[j + 1].low
    ensures r.Some? ==> r.value == bars[j - 1].low || r.value == bars[j].low || r.value == bars[j + 1].low
  {
    if 1 <= j && j + 1 < |bars| then Some(MinReal(MinReal(bars[j - 1].low, bars[j].low), bars[j + 1].low))
    else None
  }

  /** Combining two entries the way `Series.max()` does: NaN is skipped. */
  function LargerPresent(a: Option<real>, b: Option<real>): Option<real>
  {
    if a.None? then b else if b.None? then a else Some(MaxReal(a.value, b.value))
  }

  function SmallerPresent(a: Option<real>, b: Option<real>): Option<real>
  {
    if a.None? then b else if b.None? then a else Some(MinReal(a.value, b.value))
  }

  /** `highs.iloc[lo:hi].max()`: NaN (None) when no entry is defined. */
  function HighestBetween(bars: seq<Bar>, lo: int, hi: int): Option<real>
    decreases hi - lo
  {
    if hi <= lo then None else LargerPresent(HighestBetween(bars, lo, hi - 1), RollingHigh(bars, hi - 1))
  }

  /** `lows.iloc[lo:hi].min()`. */
  function LowestBetween(bars: seq<Bar>, lo: int, hi: int): Option<real>
    decreases hi - lo
  {
    if hi <= lo then None else SmallerPresent(LowestBetween(bars, lo, hi - 1), RollingLow(bars, hi - 1))
  }

  /** The highest rolling high of a range is at least each defined entry. */
  lemma {:induction false} HighestCovers(bars: seq<Bar>, lo: int, hi: int, j: int)
    requires lo <= j < hi && RollingHigh(bars, j).Some?
    ensures HighestBetween(bars, lo, hi).Some?
    ensures HighestBetween(bars, lo, hi).value >= RollingHigh(bars, j).value
    decreases hi - lo
  {
    if j < hi - 1 {
      HighestCovers(bars, lo, hi - 1, j);
    }
  }

  /** The lowest rolling low of a range is at most each defined entry. */
  lemma {:induction false} LowestCovers(bars: seq<Bar>, lo: int, hi: int, j: int)
    requires lo <= j < hi && RollingLow(bars, j).Some?
    ensures LowestBetween(bars, lo, hi).Some?
    ensures LowestBetween(bars, lo, hi).value <= RollingLow(bars, j).value
    decreases hi - lo
  {
    if j < hi - 1 {
      LowestCovers(bars, lo, hi - 1, j);
    }
  }

  /** Over bars whose lows are all positive, the lowest rolling low is positive. */
  lemma {:induction false} LowestPositive(bars: seq<Bar>, lo: int, hi: int)
    requires forall k :: 0 <= k < |bars| ==> bars[k].low > 0.0
    ensures LowestBetween(bars, lo, hi).Some? ==> LowestBetween(bars, lo, hi).value > 0.0
    decreases hi - lo
  {
    if hi > lo {
      LowestPositive(bars, lo, hi - 1);
    }
  }

  /** Two ranges of rolling values that agree entry by entry have the same
      highest and lowest values. */
  lemma {:induction false} LevelsAgree(bars: seq<Bar>, other: seq<Bar>, lo: int, hi: int)
    requires forall j :: lo <= j < hi ==> RollingHigh(bars, j) == RollingHigh(other, j)
    requires forall j :: lo <= j < hi ==> RollingLow(bars, j) == RollingLow(other, j)
    ensures HighestBetween(bars, lo, hi) == HighestBetween(other, lo, hi)
    ensures LowestBetween(bars, lo, hi) == LowestBetween(other, lo, hi)
    decreases hi - lo
  {
    if hi > lo {
      LevelsAgree(bars, other, lo, hi - 1);
    }
  }

  /** The close breaks above the level by more than `thr` percent. */
  predicate BreaksUp(price: real, high: Option<real>, thr: real)
  {
    high.Some? && price > high.value * (1.0 + thr / 100.0)
  }

  /** The close breaks below the level by more than `thr` percent. */
  predicate BreaksDown(price: real, low: Option<real>, thr: real)
  {
    low.Some? && price < low.value * (1.0 - thr / 100.0)
  }

  /** `_create_mss_signal`. */
  function MssSignal(price: real, breakType: string, level: real, stamp: string): LegacySignal
  {
    LegacySignal(stamp, MssBreak, 1.0, price, price, 0.0, true,
                 map["break_type" := Text(breakType), "level" := Num(level), "current_price" := Num(price)])
  }

  /** The comparison of the close with the recent levels: an upward break
      is checked first, a downward one only when there is none. */
  function BreakOf(price: real, high: Option<real>, low: Option<real>, thr: real, stamp: string): (r: seq<LegacySignal>)
    ensures |r| <= 1
    ensures r != [] <==> BreaksUp(price, high, thr) || BreaksDown(price, low, thr)
    ensures forall s :: s in r ==>
      s.kind == MssBreak && s.strength == 1.0 && s.confirmed &&
      s.nasdaqPrice == price && s.sp500Price == price && s.divergencePercentage == 0.0 &&
      "break_type" in s.details && "level" in s.details &&
      (s.details["break_type"] == Text("bullish") <==> BreaksUp(price, high, thr)) &&
      (BreaksUp(price, high, thr) ==> s.details["level"] == Num(high.value)) &&
      (!BreaksUp(price, high, thr) ==> s.details["break_type"] == Text("bearish") && s.details["level"] == Num(low.value))
  {
    if BreaksUp(price, high, thr) then [MssSignal(price, "bullish", high.value, stamp)]
    else if BreaksDown(price, low, thr) then [MssSignal(price, "bearish", low.value, stamp)]
    else []
  }

  /** `detect_mss` with the rolling levels read over `iloc[a:b]`: nothing
      below `2 * lookback_swings` bars (or for no bars at all). */
  function MssOver(bars: seq<Bar>, swings: int, thr: real, a: int, b: int, stamp: string): (r: seq<LegacySignal>)
    ensures |r| <= 1
  {
    if |bars| < swings * 2 || bars == [] then []
    else
      var (lo, hi) := SliceRange(|bars|, a, b);
      BreakOf(Last(bars).close, HighestBetween(bars, lo, hi), LowestBetween(bars, lo, hi), thr, stamp)
  }

  /** `detect_mss` as written: the levels are the rolling values at the
      positions `[-swings-1:-1]`. */
  function DetectMssAsWritten(bars: seq<Bar>, cfg: DetectorSettings, stamp: string): seq<LegacySignal>
  {
    MssOver(bars, cfg.lookbackSwings, cfg.swingThreshold, -cfg.lookbackSwings - 1, -1, stamp)
  }

  /** As written no break is ever reported on bars whose close lies within
      their range: the centred window at position -2 already includes the
      last bar, so the recent high is at least the last close and the recent
      low at most it. */
  lemma MssAsWrittenNeverFires(bars: seq<Bar>, cfg: DetectorSettings, stamp: string)
    requires forall k :: 0 <= k < |bars| ==> CoherentBar(bars[k])
    requires cfg.swingThreshold >= 0.0 && cfg.lookbackSwings >= 1
    ensures DetectMssAsWritten(bars, cfg, stamp) == []
  {
    var swings := cfg.lookbackSwings;
    var n := |bars|;
    if n >= swings * 2 && n > 0 {
      var (lo, hi) := SliceRange(n, -swings - 1, -1);
      assert hi == n - 1 && lo <= n - 2;
      if n >= 3 {
        HighestCovers(bars, lo, hi, n - 2);
        LowestCovers(bars, lo, hi, n - 2);
        LowestPositive(bars, lo, hi);
        assert CoherentBar(bars[n - 1]);
        LevelsEnclosePrice(Last(bars).close, HighestBetween(bars, lo, hi), LowestBetween(bars, lo, hi),
                           cfg.swingThreshold);
      }
    }
  }

  /** A close at or below the high level and at or above a positive low
      level breaks neither for a non-negative threshold. */
  lemma LevelsEnclosePrice(price: real, high: Option<real>, low: Option<real>, thr: real)
    requires thr >= 0.0
    requires high.Some? ==> high.value >= price > 0.0
    requires low.Some? ==> 0.0 < low.value <= price
    ensures !BreaksUp(price, high, thr) && !BreaksDown(price, low, thr)
  {
    if high.Some? {
      ScaledUp(high.value, 1.0 + thr / 100.0);
    }
    if low.Some? {
      ScaledDown(low.value, 1.0 - thr / 100.0);
    }
  }

  lemma ScaledUp(x: real, f: real)
    requires x >= 0.0 && f >= 1.0
    ensures x * f >= x
  {
    assert x * f - x == x * (f - 1.0);
  }

  lemma ScaledDown(x: real, f: real)
    requires x >= 0.0 && f <= 1.0
    ensures x * f <= x
  {
    assert x - x * f == x * (1.0 - f);
  }

  /** `detect_mss` with the levels read one position earlier, at
      `[-swings-2:-2]`: every centred window then ends at the bar before the
      last, so the close is compared with levels the last bar does not
      influence. */
  function DetectMss(bars: seq<Bar>, cfg: DetectorSettings, stamp: string): seq<LegacySignal>
  {
    MssOver(bars, cfg.lookbackSwings, cfg.swingThreshold, -cfg.lookbackSwings - 2, -2, stamp)
  }

  /** The corrected levels do not depend on the last bar: two series that
      differ only in their last bar have the same recent high and low. */
  lemma MssLevelsIgnoreLastBar(bars: seq<Bar>, other: seq<Bar>, swings: int)
    requires |bars| == |other| && forall k :: 0 <= k < |bars| - 1 ==> bars[k] == other[k]
    ensures var (lo, hi) := SliceRange(|bars|, -swings - 2, -2);
      HighestBetween(bars, lo, hi) == HighestBetween(other, lo, hi) &&
      LowestBetween(bars, lo, hi) == LowestBetween(other, lo, hi)
  {
    var n := |bars|;
    var (lo, hi) := SliceRange(n, -swings - 2, -2);
    forall j | lo <= j < hi
      ensures RollingHigh(bars, j) == RollingHigh(other, j) && RollingLow(bars, j) == RollingLow(other, j)
    {
      assert hi <= n - 2;
    }
    LevelsAgree(bars, other, lo, hi);
  }

  /** Below `2 * lookback_swings` bars, or with no bars, no break is
      reported. */
  lemma DetectMssNeedsBars(bars: seq<Bar>, cfg: DetectorSettings, stamp: string)
    ensures |bars| < cfg.lookbackSwings * 2 || bars == [] ==> DetectMss(bars, cfg, stamp) == []
  {
  }

  /** A reported break is a confirmed structure break of full strength at
      the last close. */
  lemma DetectMssSignals(bars: seq<Bar>, cfg: DetectorSettings, stamp: string)
    ensures forall s :: s in DetectMss(bars, cfg, stamp) ==>
      s.kind == MssBreak && s.strength == 1.0 && s.confirmed && s.nasdaqPrice == Last(bars).close
  {
    if |bars| >= cfg.lookbackSwings * 2 && bars != [] {
      MssOverUnfold(bars, cfg.lookbackSwings, cfg.swingThreshold, -cfg.lookbackSwings - 2, -2, stamp);
    }
  }

  /** With the corrected window and enough bars, a break is reported
      exactly when the close clears a recent level. */
  lemma DetectMssSound(bars: seq<Bar>, cfg: DetectorSettings, stamp: string, lo: nat, hi: nat)
    requires |bars| >= cfg.lookbackSwings * 2 && bars != []
    requires (lo, hi) == SliceRange(|bars|, -cfg.lookbackSwings - 2, -2)
    ensures DetectMss(bars, cfg, stamp) != [] <==>
      BreaksUp(Last(bars).close, HighestBetween(bars, lo, hi), cfg.swingThreshold) ||
      BreaksDown(Last(bars).close, LowestBetween(bars, lo, hi), cfg.swingThreshold)
  {
    MssOverSound(bars, cfg.lookbackSwings, cfg.swingThreshold, -cfg.lookbackSwings - 2, -2, stamp);
  }

  /** With enough bars, a break over any window is reported exactly when
      the close clears that window's high or low. */
  lemma MssOverSound(bars: seq<Bar>, swings: int, thr: real, a: int, b: int, stamp: string)
    requires |bars| >= swings * 2 && bars != []
    ensures var (lo, hi) := SliceRange(|bars|, a, b);
      var high := HighestBetween(bars, lo, hi);
      var low := LowestBetween(bars, lo, hi);
      MssOver(bars, swings, thr, a, b, stamp) != [] <==>
        BreaksUp(Last(bars).close, high, thr) || BreaksDown(Last(bars).close, low, thr)
  {
    MssOverUnfold(bars, swings, thr, a, b, stamp);
  }

  /** With enough bars, the comparison uses the levels of the window. */
  lemma MssOverUnfold(bars: seq<Bar>, swings: int, thr: real, a: int, b: int, stamp: string)
    requires |bars| >= swings * 2 && bars != []
    ensures var (lo, hi) := SliceRange(|bars|, a, b);
      MssOver(bars, swings, thr, a, b, stamp) ==
        BreakOf(Last(bars).close, HighestBetween(bars, lo, hi), LowestBetween(bars, lo, hi), thr, stamp)
  {
  }

  /** A flat range of nine bars followed by a breakout bar. */
  const FlatBar := Bar("", 95.0, 100.0, 90.0, 95.0, 1.0)
  const BreakoutBar := Bar("", 100.0, 110.0, 100.0, 110.0, 1.0)

  /** With the default settings (five swings, 0.5 percent), the breakout
      after nine flat bars is missed as written and reported as a bullish
      break of the 100 level by the corrected window. */
  lemma MssBreakoutExample()
    ensures var bars := [FlatBar, FlatBar, FlatBar, FlatBar, FlatBar, FlatBar, FlatBar, FlatBar, FlatBar, BreakoutBar];
      DetectMssAsWritten(bars, DefaultDetectorSettings, "") == [] &&
      DetectMss(bars, DefaultDetectorSettings, "") == [MssSignal(110.0, "bullish", 100.0, "")]
  {
    var bars := [FlatBar, FlatBar, FlatBar, FlatBar, FlatBar, FlatBar, FlatBar, FlatBar, FlatBar, BreakoutBar];
    MssAsWrittenNeverFires(bars, DefaultDetectorSettings, "");
    assert SliceRange(10, -7, -2) == (3, 8);
    assert HighestBetween(bars, 3, 4) == Some(100.0);
    assert HighestBetween(bars, 3, 5) == Some(100.0);
    assert HighestBetween(bars, 3, 6) == Some(100.0);
    assert HighestBetween(bars, 3, 7) == Some(100.0);
    assert HighestBetween(bars, 3, 8) == Some(100.0);
  }

  // ---------------------------------------------------------------------
  // OrderBlockDetector

  /** Fewest bars the order-block detector looks at. */
  const BlockMinBars: nat := 20

  /** `df['volume'].rolling(20).mean().iloc[-1]`: the mean volume of the last
      twenty bars. */
  function AverageVolume(bars: seq<Bar>): real
    requires |bars| >= BlockMinBars
  {
    VolumeAnomaly.RollingMean(bars, |bars| - 1).value
  }

  /** The order-block detector divides by the average volume; a zero average
      would give numpy's inf or NaN, which is not modelled. */
  predicate VolumeAverageable(bars: seq<Bar>)
  {
    |bars| >= BlockMinBars ==> AverageVolume(bars) > 0.0
  }

  /** A candle is an order block: its body exceeds `min_block_size` percent
      of the ATR and its volume ratio exceeds `volume_threshold`. */
  predicate IsBlock(bar: Bar, atr: real, avg: real, cfg: DetectorSettings)
    requires avg > 0.0
  {
    Abs(bar.close - bar.open) > atr * (cfg.minBlockSize / 100.0) && bar.volume / avg > cfg.volumeThreshold
  }

  /** The signal for an order-block candle. */
  function BlockSignal(bar: Bar, avg: real, cfg: DetectorSettings, stamp: string): LegacySignal
    requires avg > 0.0
  {
    var ratio := bar.volume / avg;
    LegacySignal(stamp, OrderBlock, ClampStrength(ratio / 3.0), bar.close, bar.close, 0.0,
                 ratio > cfg.volumeThreshold * 2.0,
                 map["block_type" := Text(if bar.close > bar.open then "bullish" else "bearish"),
                     "high" := Num(bar.high), "low" := Num(bar.low), "volume_ratio" := Num(ratio)])
  }

  /** An order-block signal carries the candle's close as both prices, a
      strength in [0, 1] for a non-negative volume, is confirmed iff the
      volume exceeds twice `volume_threshold` times the average, and is
      bullish iff the candle closed above its open. */
  lemma BlockSignalSound(bar: Bar, avg: real, cfg: DetectorSettings, stamp: string)
    requires avg > 0.0
    ensures var s := BlockSignal(bar, avg, cfg, stamp);
      s.kind == OrderBlock && s.nasdaqPrice == bar.close && s.sp500Price == bar.close &&
      (bar.volume >= 0.0 ==> 0.0 <= s.strength <= 1.0) &&
      (s.confirmed <==> bar.volume > cfg.volumeThreshold * 2.0 * avg) &&
      "block_type" in s.details && (s.details["block_type"] == Text("bullish") <==> bar.close > bar.open)
  {
    RatioAbove(bar.volume, avg, cfg.volumeThreshold * 2.0);
  }

  lemma RatioAbove(v: real, avg: real, t: real)
    requires avg > 0.0
    ensures v / avg > t <==> v > t * avg
    ensures v >= 0.0 ==> v / avg >= 0.0
  {
    assert v == (v / avg) * avg;
  }

  /** The signals for the order blocks among positions `lo <= p < hi`, in
      position order. */
  function BlocksBetween(bars: seq<Bar>, atr: real, avg: real, cfg: DetectorSettings, stamp: string,
                         lo: int, hi: int): seq<LegacySignal>
    requires 0 <= lo && hi <= |bars| && avg > 0.0
    decreases hi - lo
  {
    if hi <= lo then []
    else BlocksBetween(bars, atr, avg, cfg, stamp, lo, hi - 1) +
         (if IsBlock(bars[hi - 1], atr, avg, cfg) then [BlockSignal(bars[hi - 1], avg, cfg, stamp)] else [])
  }

  /** `detect_order_blocks` with the ATR passed in: nothing below 20 bars,
      else one signal per order block among the bars at positions -5 .. -2. */
  function OrderBlocks(bars: seq<Bar>, atr: real, cfg: DetectorSettings, stamp: string): seq<LegacySignal>
    requires VolumeAverageable(bars)
  {
    if |bars| < BlockMinBars then []
    else BlocksBetween(bars, atr, AverageVolume(bars), cfg, stamp, |bars| - 5, |bars| - 1)
  }

  /** Each signal of a range belongs to an order block of that range, each
      order block of the range has its signal, and there is at most one per
      position. */
  lemma {:induction false} BlocksBetweenSound(bars: seq<Bar>, atr: real, avg: real, cfg: DetectorSettings,
                                              stamp: string, lo: int, hi: int)
    requires 0 <= lo && hi <= |bars| && avg > 0.0
    ensures var r := BlocksBetween(bars, atr, avg, cfg, stamp, lo, hi);
      (lo <= hi ==> |r| <= hi - lo) &&
      (forall s :: s in r ==> exists p :: lo <= p < hi && IsBlock(bars[p], atr, avg, cfg) && s == BlockSignal(bars[p], avg, cfg, stamp)) &&
      (forall p :: lo <= p < hi && IsBlock(bars[p], atr, avg, cfg) ==> BlockSignal(bars[p], avg, cfg, stamp) in r)
    decreases hi - lo
  {
    if hi > lo {
      BlocksBetweenSound(bars, atr, avg, cfg, stamp, lo, hi - 1);
    }
  }

  /** An order block signal is reported for every bar at positions -5 ..
      -2 whose body and volume ratio clear the thresholds, and for no other
      bar; with too few bars, none is. */
  lemma OrderBlocksExact(bars: seq<Bar>, atr: real, cfg: DetectorSettings, stamp: string)
    requires VolumeAverageable(bars)
    ensures |bars| < BlockMinBars ==> OrderBlocks(bars, atr, cfg, stamp) == []
    ensures |bars| >= BlockMinBars ==>
      var r := OrderBlocks(bars, atr, cfg, stamp);
      var avg := AverageVolume(bars);
      (forall s :: s in r ==> exists p :: |bars| - 5 <= p <= |bars| - 2 && IsBlock(bars[p], atr, avg, cfg) &&
                                     s == BlockSignal(bars[p], avg, cfg, stamp)) &&
      (forall p :: |bars| - 5 <= p <= |bars| - 2 && IsBlock(bars[p], atr, avg, cfg) ==>
                   BlockSignal(bars[p], avg, cfg, stamp) in r)
  {
    if |bars| >= BlockMinBars {
      BlocksBetweenSound(bars, atr, AverageVolume(bars), cfg, stamp, |bars| - 5, |bars| - 1);
    }
  }

  /** At most four order blocks are reported, each with a strength in
      [0, 1] over non-negative volumes. */
  lemma OrderBlocksSound(bars: seq<Bar>, atr: real, cfg: DetectorSettings, stamp: string)
    requires VolumeAverageable(bars) && NonNegativeVolumes(bars)
    ensures |OrderBlocks(bars, atr, cfg, stamp)| <= 4
    ensures forall s :: s in OrderBlocks(bars, atr, cfg, stamp) ==> s.kind == OrderBlock && 0.0 <= s.strength <= 1.0
  {
    if |bars| >= BlockMinBars {
      var avg := AverageVolume(bars);
      BlocksBetweenSound(bars, atr, avg, cfg, stamp, |bars| - 5, |bars| - 1);
      BlocksBetweenStrengths(bars, atr, avg, cfg, stamp, |bars| - 5, |bars| - 1);
    }
  }

  /** Over non-negative volumes, every block of a range has a strength in
      [0, 1]. */
  lemma {:induction false} BlocksBetweenStrengths(bars: seq<Bar>, atr: real, avg: real, cfg: DetectorSettings,
                                                  stamp: string, lo: int, hi: int)
    requires 0 <= lo && hi <= |bars| && avg > 0.0 && NonNegativeVolumes(bars)
    ensures forall s :: s in BlocksBetween(bars, atr, avg, cfg, stamp, lo, hi) ==>
      s.kind == OrderBlock && 0.0 <= s.strength <= 1.0
    decreases hi - lo
  {
    if hi > lo {
      BlocksBetweenStrengths(bars, atr, avg, cfg, stamp, lo, hi - 1);
      assert bars[hi - 1] in bars;
      BlockSignalSound(bars[hi - 1], avg, cfg, stamp);
    }
  }

  /** `detect_order_blocks`: the loop over the offsets -5 .. -2. */
  method DetectOrderBlocks(bars: seq<Bar>, atr: real, cfg: DetectorSettings, stamp: string) returns (signals: seq<LegacySignal>)
    requires VolumeAverageable(bars)
    ensures signals == OrderBlocks(bars, atr, cfg, stamp)
  {
    if |bars| < BlockMinBars {
      return [];
    }
    var n := |bars|;
    var avg := AverageVolume(bars);
    signals := [];
    for i := -5 to -1
      invariant signals == BlocksBetween(bars, atr, avg, cfg, stamp, n - 5, n + i)
    {
      var candle := bars[n + i];
      var body := Abs(candle.close - candle.open);
      var ratio := candle.volume / avg;
      if body > atr * (cfg.minBlockSize / 100.0) && ratio > cfg.volumeThreshold {
        signals := signals + [BlockSignal(candle, avg, cfg, stamp)];
      }
    }
  }

  // ---------------------------------------------------------------------
  // FairValueGapDetector

  /** `_create_fvg_signal`. */
  function FvgSignal(candle: Bar, gap: real, gapType: string, gapHigh: real, gapLow: real,
                     gapMin: real, stamp: string): LegacySignal
  {
    LegacySignal(stamp, Fvg, MinReal(gap / 1.0, 1.0), candle.close, candle.close, 0.0, gap > gapMin * 2.0,
                 map["gap_type" := Text(gapType), "gap_high" := Num(gapHigh), "gap_low" := Num(gapLow),
                     "gap_size_pct" := Num(gap)])
  }

  /** `detect_fvg` as written. The loop runs over the start positions
      `len - 3` and `len - 2`; the second iteration reads the bar at position
      `len`, the `IndexError` lands in the handler, and the handler returns
      an empty list, discarding anything the first iteration found. (A zero
      middle close raises `ZeroDivisionError` earlier, with the same end.)
      The `i < 0` guard of the loop never applies, since the loop only runs
      for at least three bars, and is not modelled. */
  method DetectFvg(bars: seq<Bar>, gapMin: real, stamp: string) returns (signals: seq<LegacySignal>)
    ensures signals == []
  {
    var n := |bars|;
    if n < 3 {
      return [];
    }
    signals := [];
    var raised := false;
    for i := n - 3 to n - 1
      invariant i == n - 1 ==> signals == []
      invariant !raised
    {
      if i + 2 >= n {
        raised := true;  // IndexError
        break;
      }
      var c1, c2, c3 := bars[i], bars[i + 1], bars[i + 2];
      if c1.high < c3.low {
        if c2.close == 0.0 {
          raised := true;  // ZeroDivisionError
          break;
        }
        var gap := (c3.low - c1.high) / c2.close * 100.0;
        if gap >= gapMin {
          signals := signals + [FvgSignal(c3, gap, "bullish", c3.low, c1.high, gapMin, stamp)];
        }
      } else if c1.low > c3.high {
        if c2.close == 0.0 {
          raised := true;  // ZeroDivisionError
          break;
        }
        var gap := (c1.low - c3.high) / c2.close * 100.0;
        if gap >= gapMin {
          signals := signals + [FvgSignal(c3, gap, "bearish", c1.low, c3.high, gapMin, stamp)];
        }
      }
    }
    if raised {
      return [];
    }
  }

  // ---------------------------------------------------------------------
  // QuarterlyTheoryAnalyzer

  /** `abs(p[i] - p[i-1]) / p[i-1]` for the closes of two consecutive bars. */
  function Move(prev: Bar, cur: Bar): real
    requires prev.close != 0.0
  {
    Abs(cur.close - prev.close) / prev.close
  }

  /** The sum of the relative moves between positions 0 .. k. */
  function MovesSum(bars: seq<Bar>, k: int): real
    requires 0 <= k < |bars|
    requires forall j :: 0 <= j < k ==> bars[j].close != 0.0
  {
    if k == 0 then 0.0 else MovesSum(bars, k - 1) + Move(bars[k - 1], bars[k])
  }

  /** `_calc_volatility`: the mean relative close-to-close move in percent;
      0 for fewer than two bars; `None` where a zero close raises
      `ZeroDivisionError`. */
  function Volatility(bars: seq<Bar>): Option<real>
  {
    if |bars| < 2 then Some(0.0)
    else if exists j :: 0 <= j < |bars| - 1 && bars[j].close == 0.0 then None
    else Some(MovesSum(bars, |bars| - 1) / (|bars| - 1) as real * 100.0)
  }

  /** Over positive closes the moves add up to a non-negative sum that is
      zero exactly when the closes up to position k are all equal. */
  lemma {:induction false} MovesSumZeroIffFlat(bars: seq<Bar>, k: int)
    requires 0 <= k < |bars| && forall j :: 0 <= j < |bars| ==> bars[j].close > 0.0
    ensures MovesSum(bars, k) >= 0.0
    ensures MovesSum(bars, k) == 0.0 <==> forall i :: 1 <= i <= k ==> bars[i].close == bars[i - 1].close
  {
    if k > 0 {
      MovesSumZeroIffFlat(bars, k - 1);
      MoveZeroIffEqual(bars[k - 1], bars[k]);
    }
  }

  lemma MoveZeroIffEqual(prev: Bar, cur: Bar)
    requires prev.close > 0.0
    ensures Move(prev, cur) >= 0.0
    ensures Move(prev, cur) == 0.0 <==> cur.close == prev.close
  {
    var d := Abs(cur.close - prev.close);
    assert d == Move(prev, cur) * prev.close;
  }

  /** Over positive closes the volatility is defined, non-negative, and zero
      exactly when the closes do not move. */
  lemma VolatilitySound(bars: seq<Bar>)
    requires forall j :: 0 <= j < |bars| ==> bars[j].close > 0.0
    ensures Volatility(bars).Some? && Volatility(bars).value >= 0.0
    ensures Volatility(bars).value == 0.0 <==> forall i :: 1 <= i < |bars| ==> bars[i].close == bars[i - 1].close
  {
    if |bars| >= 2 {
      MovesSumZeroIffFlat(bars, |bars| - 1);
      var s := MovesSum(bars, |bars| - 1);
      var m := (|bars| - 1) as real;
      assert s / m * 100.0 == 0.0 <==> s == 0.0;
    }
  }

  /** The strength every quarterly signal carries. */
  const QuarterlyStrength: real := 0.9

  /** `(month - 1) // 3 + 1`. */
  function QuarterOf(month: int): (q: int)
    requires 1 <= month <= 12
    ensures 1 <= q <= 4
    ensures 3 * q - 2 <= month <= 3 * q
  {
    (month - 1) / 3 + 1
  }

  /** `analyze_quarterly_signals` with the date passed in. */
  function QuarterlySignals(bars: seq<Bar>, cfg: DetectorSettings, today: Date, stamp: string): (r: seq<LegacySignal>)
    requires ValidDate(today)
    ensures |r| <= 1
  {
    if today.month in cfg.quarterlyMonths && today.day in cfg.monthlyBiasDays && |bars| >= 5 then
      var vol := Volatility(SliceFrom(bars, -5));
      if vol.None? then []
      else [LegacySignal(stamp, QuarterlyShift, QuarterlyStrength, Last(bars).close, Last(bars).close, 0.0, true,
                         map["period_type" := Text("quarterly"), "volatility" := Num(vol.value),
                             "quarter" := Int(QuarterOf(today.month))])]
    else []
  }

  /** A quarterly signal needs a listed month, a listed day and five bars,
      and over positive closes those suffice; it has strength 0.9, is
      confirmed, and names the quarter of the month. */
  lemma QuarterlySignalsSound(bars: seq<Bar>, cfg: DetectorSettings, today: Date, stamp: string)
    requires ValidDate(today)
    ensures var r := QuarterlySignals(bars, cfg, today, stamp);
      (r != [] ==> today.month in cfg.quarterlyMonths && today.day in cfg.monthlyBiasDays && |bars| >= 5) &&
      ((PositivePrices(bars) && today.month in cfg.quarterlyMonths && today.day in cfg.monthlyBiasDays &&
        |bars| >= 5) ==> r != []) &&
      forall s :: s in r ==>
        s.kind == QuarterlyShift && s.strength == QuarterlyStrength && s.confirmed &&
        s.nasdaqPrice == Last(bars).close && "quarter" in s.details &&
        s.details["quarter"].Int? && 1 <= s.details["quarter"].i <= 4 &&
        3 * s.details["quarter"].i - 2 <= today.month <= 3 * s.details["quarter"].i
  {
    if PositivePrices(bars) && |bars| >= 5 {
      var recent := SliceFrom(bars, -5);
      forall j | 0 <= j < |recent| ensures recent[j].close > 0.0 {
        assert recent[j] in bars;
      }
      VolatilitySound(recent);
    }
  }
}
