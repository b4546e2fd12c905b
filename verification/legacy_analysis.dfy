/** `SMTAnalyzer.analyze_all` of the older suite: the close-change
    divergence of QQQ against SPY, then, snapshot by snapshot, the structure
    break, order blocks, fair-value gaps and quarterly signal of its 5-minute
    bars, concatenated without filtering or sorting. */
module LegacyAnalysis {
  import opened PySemantics
  import opened MarketData
  import opened LegacyDetectors

  /** What the snapshot loop needs: positive QQQ and SPY prices for the
      divergence, and a positive 20-bar average volume wherever the order
      block detector divides by it. */
  predicate Ready(market: MarketMap)
  {
    (Lookup(market, "QQQ").Some? ==> PositivePrices(Lookup(market, "QQQ").value.ohlcv5m)) &&
    (Lookup(market, "SPY").Some? ==> PositivePrices(Lookup(market, "SPY").value.ohlcv5m)) &&
    forall s :: s in Values(market) ==> VolumeAverageable(s.ohlcv5m)
  }

  /** The signals of one snapshot: structure break, order blocks, then the
      quarterly signal; the fair-value-gap detector contributes nothing
      (`DetectFvg`). The ATR of a bar series is an input. */
  function SnapshotSignals(s: Snapshot, cfg: DetectorSettings, today: Date, stamp: string,
                           atr: seq<Bar> -> real): seq<LegacySignal>
    requires ValidDate(today) && VolumeAverageable(s.ohlcv5m)
  {
    DetectMss(s.ohlcv5m, cfg, stamp) + OrderBlocks(s.ohlcv5m, atr(s.ohlcv5m), cfg, stamp) +
    QuarterlySignals(s.ohlcv5m, cfg, today, stamp)
  }

  /** The snapshot signals of a list of snapshots, in order. */
  function SnapshotsSignals(ss: seq<Snapshot>, cfg: DetectorSettings, today: Date, stamp: string,
                            atr: seq<Bar> -> real): seq<LegacySignal>
    requires ValidDate(today) && forall s :: s in ss ==> VolumeAverageable(s.ohlcv5m)
  {
    if ss == [] then []
    else SnapshotsSignals(ss[..|ss| - 1], cfg, today, stamp, atr) + SnapshotSignals(Last(ss), cfg, today, stamp, atr)
  }

  /** What `analyze_all` returns: nothing without both QQQ and SPY; else the
      divergence signals followed by every snapshot's signals. */
  function AllSignals(market: MarketMap, cfg: DetectorSettings, today: Date, stamp: string,
                      atr: seq<Bar> -> real): seq<LegacySignal>
    requires ValidDate(today) && Ready(market)
  {
    var nasdaq := Lookup(market, "QQQ");
    var sp500 := Lookup(market, "SPY");
    if nasdaq.None? || sp500.None? then []
    else DetectDivergence(nasdaq.value.ohlcv5m, sp500.value.ohlcv5m, cfg, stamp) +
         SnapshotsSignals(Values(market), cfg, today, stamp, atr)
  }

  /** One snapshot yields at most six signals, each with a strength in
      [0, 1] and none of them a divergence or a fair-value gap. */
  lemma SnapshotSignalsSound(s: Snapshot, cfg: DetectorSettings, today: Date, stamp: string, atr: seq<Bar> -> real)
    requires ValidDate(today) && VolumeAverageable(s.ohlcv5m) && NonNegativeVolumes(s.ohlcv5m)
    ensures var r := SnapshotSignals(s, cfg, today, stamp, atr);
      |r| <= 6 &&
      forall x :: x in r ==> 0.0 <= x.strength <= 1.0 && x.kind != Fvg &&
                             x.kind != BullishDivergence && x.kind != BearishDivergence
  {
    var bars := s.ohlcv5m;
    DetectMssSignals(bars, cfg, stamp);
    OrderBlocksSound(bars, atr(bars), cfg, stamp);
    QuarterlySignalsSound(bars, cfg, today, stamp);
    var mss := DetectMss(bars, cfg, stamp);
    var blocks := OrderBlocks(bars, atr(bars), cfg, stamp);
    var quarterly := QuarterlySignals(bars, cfg, today, stamp);
    var r := SnapshotSignals(s, cfg, today, stamp, atr);
    assert r == mss + blocks + quarterly;
    forall x | x in r
      ensures 0.0 <= x.strength <= 1.0 && x.kind != Fvg && x.kind != BullishDivergence && x.kind != BearishDivergence
    {
      if x in mss {
      } else if x in blocks {
      } else {
        assert x in quarterly;
      }
    }
  }

  /** The snapshot signals of `n` snapshots number at most `6 n`, and have
      the per-snapshot properties. */
  lemma {:induction false} SnapshotsSignalsSound(ss: seq<Snapshot>, cfg: DetectorSettings, today: Date, stamp: string,
                                                 atr: seq<Bar> -> real)
    requires ValidDate(today)
    requires forall s :: s in ss ==> VolumeAverageable(s.ohlcv5m) && NonNegativeVolumes(s.ohlcv5m)
    ensures var r := SnapshotsSignals(ss, cfg, today, stamp, atr);
      |r| <= 6 * |ss| &&
      forall x :: x in r ==> 0.0 <= x.strength <= 1.0 && x.kind != Fvg &&
                             x.kind != BullishDivergence && x.kind != BearishDivergence
  {
    if ss != [] {
      var init := ss[..|ss| - 1];
      assert forall s :: s in init ==> s in ss;
      SnapshotsSignalsSound(init, cfg, today, stamp, atr);
      SnapshotSignalsSound(Last(ss), cfg, today, stamp, atr);
    }
  }

  /** `analyze_all` gives nothing without both QQQ and SPY; otherwise at
      most one divergence plus six signals per snapshot, every strength in
      [0, 1], every divergence signal the QQQ/SPY comparison's own, and no
      fair-value gap ever. */
  lemma AllSignalsSound(market: MarketMap, cfg: DetectorSettings, today: Date, stamp: string, atr: seq<Bar> -> real)
    requires ValidDate(today) && Ready(market)
    requires forall s :: s in Values(market) ==> NonNegativeVolumes(s.ohlcv5m)
    ensures Lookup(market, "QQQ").None? || Lookup(market, "SPY").None? ==>
      AllSignals(market, cfg, today, stamp, atr) == []
    ensures |AllSignals(market, cfg, today, stamp, atr)| <= 1 + 6 * |market|
    ensures forall x :: x in AllSignals(market, cfg, today, stamp, atr) ==>
      0.0 <= x.strength <= 1.0 && x.kind != Fvg
    ensures forall x :: x in AllSignals(market, cfg, today, stamp, atr) &&
                        (x.kind == BullishDivergence || x.kind == BearishDivergence) ==>
      x in DetectDivergence(Lookup(market, "QQQ").value.ohlcv5m, Lookup(market, "SPY").value.ohlcv5m, cfg, stamp)
  {
    var nasdaq := Lookup(market, "QQQ");
    var sp500 := Lookup(market, "SPY");
    if nasdaq.Some? && sp500.Some? {
      var divergence := DetectDivergence(nasdaq.value.ohlcv5m, sp500.value.ohlcv5m, cfg, stamp);
      var rest := SnapshotsSignals(Values(market), cfg, today, stamp, atr);
      DetectDivergenceSignals(nasdaq.value.ohlcv5m, sp500.value.ohlcv5m, cfg, stamp);
      SnapshotsSignalsSound(Values(market), cfg, today, stamp, atr);
      forall x | x in divergence ensures x.kind != Fvg {
        DivergenceKinds(nasdaq.value.ohlcv5m, sp500.value.ohlcv5m, cfg, stamp, x);
      }
    }
  }

  /** A close-change divergence signal is bullish or bearish. */
  lemma DivergenceKinds(nasdaq: seq<Bar>, sp500: seq<Bar>, cfg: DetectorSettings, stamp: string, x: LegacySignal)
    requires PositivePrices(nasdaq) && PositivePrices(sp500)
    requires x in DetectDivergence(nasdaq, sp500, cfg, stamp)
    ensures x.kind == BullishDivergence || x.kind == BearishDivergence
  {
  }

  /** Extending the list of snapshots by one appends that snapshot's signals. */
  lemma SnapshotsStep(ss: seq<Snapshot>, i: int, cfg: DetectorSettings, today: Date, stamp: string,
                      atr: seq<Bar> -> real)
    requires ValidDate(today) && 0 <= i < |ss| && forall s :: s in ss ==> VolumeAverageable(s.ohlcv5m)
    ensures VolumeAverageable(ss[i].ohlcv5m)
    ensures SnapshotsSignals(ss[..i + 1], cfg, today, stamp, atr) ==
            SnapshotsSignals(ss[..i], cfg, today, stamp, atr) + SnapshotSignals(ss[i], cfg, today, stamp, atr)
  {
    assert ss[..i + 1][..i] == ss[..i];
    assert Last(ss[..i + 1]) == ss[i];
  }

  /** Regrouping the concatenation of three lists. */
  lemma Regroup<T>(xs: seq<T>, ys: seq<T>, zs: seq<T>, before: seq<T>, after: seq<T>)
    requires before == xs + ys && after == before + zs
    ensures after == xs + (ys + zs)
  {
  }

  /** Extending by four lists, the third of them empty. */
  lemma ExtendFour<T>(xs: seq<T>, a: seq<T>, b: seq<T>, empty: seq<T>, c: seq<T>)
    requires empty == []
    ensures xs + a + b + empty + c == xs + (a + b + c)
  {
    assert xs + a + b + empty == xs + a + b;
  }

  /** The loop of `analyze_all`: each snapshot's structure breaks, order
      blocks, fair-value gaps and quarterly signals extend the list. */
  method ExtendWithSnapshots(found: seq<LegacySignal>, snapshots: seq<Snapshot>, cfg: DetectorSettings,
                             today: Date, stamp: string, atr: seq<Bar> -> real) returns (signals: seq<LegacySignal>)
    requires ValidDate(today) && forall s :: s in snapshots ==> VolumeAverageable(s.ohlcv5m)
    ensures signals == found + SnapshotsSignals(snapshots, cfg, today, stamp, atr)
  {
    signals := found;
    for i := 0 to |snapshots|
      invariant signals == found + SnapshotsSignals(snapshots[..i], cfg, today, stamp, atr)
    {
      var snapshot := snapshots[i];
      var bars := snapshot.ohlcv5m;
      SnapshotsStep(snapshots, i, cfg, today, stamp, atr);
      ghost var before := signals;
      var mss := DetectMss(bars, cfg, stamp);
      signals := signals + mss;
      var blocks := DetectOrderBlocks(bars, atr(bars), cfg, stamp);
      signals := signals + blocks;
      var gaps := DetectFvg(bars, cfg.minFvgGapSize, stamp);
      signals := signals + gaps;
      var quarterly := QuarterlySignals(bars, cfg, today, stamp);
      signals := signals + quarterly;
      ExtendFour(before, mss, blocks, gaps, quarterly);
      assert mss + blocks + quarterly == SnapshotSignals(snapshot, cfg, today, stamp, atr);
      Regroup(found, SnapshotsSignals(snapshots[..i], cfg, today, stamp, atr), mss + blocks + quarterly, before, signals);
    }
    assert snapshots[..|snapshots|] == snapshots;
  }

  /** `analyze_all` with the date and the ATR passed in: the divergence,
      then the loop over the snapshots. A `MarketSnapshot` object is always
      truthy, so only a missing key stops the analysis. */
  method AnalyzeAll(market: MarketMap, cfg: DetectorSettings, today: Date, stamp: string,
                    atr: seq<Bar> -> real) returns (signals: seq<LegacySignal>)
    requires ValidDate(today) && Ready(market)
    ensures signals == AllSignals(market, cfg, today, stamp, atr)
  {
    var nasdaq := Lookup(market, "QQQ");
    var sp500 := Lookup(market, "SPY");
    if nasdaq.None? || sp500.None? {
      return [];
    }
    var divergence := DetectDivergence(nasdaq.value.ohlcv5m, sp500.value.ohlcv5m, cfg, stamp);
    signals := ExtendWithSnapshots(divergence, Values(market), cfg, today, stamp, atr);
  }
}
