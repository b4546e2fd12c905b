/** The signal aggregator (`SmartMoneyService`): a session gate, then the
    SMT and volume detectors on the 15-minute bars of ES=F and NQ=F, a
    strength filter, a stable sort by descending strength and a cut to the
    display limit; and the filtered read of the stored signals. */
module SmartMoney {
  import opened PySemantics
  import opened MarketData
  import SmtDivergence
  import VolumeAnomaly

  /** The settings the service reads, with the defaults of its call sites. */
  datatype ServiceSettings = ServiceSettings(
    strengthThreshold: real,
    maxSignals: int,
    smt: SmtDivergence.SmtSettings,
    volumeMultiplier: real)

  const DefaultServiceSettings :=
    ServiceSettings(0.7, 10, SmtDivergence.DefaultSettings, VolumeAnomaly.DefaultMultiplier)

  /** `_is_active_session`: London 08:00-16:00, New York 13:30-22:00 or
      Asia 00:00-09:00, every bound inclusive. Together the three windows
      cover the whole day up to and including 22:00. */
  function IsActiveSession(t: TimeOfDay): (r: bool)
    ensures r <==> t <= Clock(22, 0, 0)
  {
    (Clock(8, 0, 0) <= t <= Clock(16, 0, 0)) ||
    (Clock(13, 30, 0) <= t <= Clock(22, 0, 0)) ||
    (Clock(0, 0, 0) <= t <= Clock(9, 0, 0))
  }

  /** The filter predicate `s.strength >= threshold`. */
  function StrongEnough(threshold: real): Signal -> bool
  {
    (s: Signal) => s.strength >= threshold
  }

  /** The sort key `lambda x: x.strength`. */
  function StrengthOf(s: Signal): real
  {
    s.strength
  }

  /** The ranking step of `analyze`: keep the signals at or above the threshold, sort them by
      descending strength and keep the first `maxSignals`. */
  function Rank(candidates: seq<Signal>, threshold: real, maxSignals: int): seq<Signal>
  {
    SliceTo(SortDescending(Filter(candidates, StrongEnough(threshold)), StrengthOf), maxSignals)
  }

  /** The ranked output meets the threshold, is ordered by strength, holds
      exactly as many signals as the limit allows out of those that qualify,
      holds only candidates (each at most as often as it was produced), and
      every qualifying one when they all fit. */
  lemma RankSound(candidates: seq<Signal>, threshold: real, maxSignals: int)
    ensures var r := Rank(candidates, threshold, maxSignals);
      (forall s :: s in r ==> s.strength >= threshold) &&
      Descending(r, StrengthOf) &&
      (maxSignals >= 0 ==> |r| == Min(maxSignals, |Filter(candidates, StrongEnough(threshold))|)) &&
      multiset(r) <= multiset(candidates) &&
      (|Filter(candidates, StrongEnough(threshold))| <= maxSignals ==>
        forall s: Signal :: s.strength >= threshold ==> multiset(r)[s] == multiset(candidates)[s])
  {
    var filtered := Filter(candidates, StrongEnough(threshold));
    var r := Rank(candidates, threshold, maxSignals);
    FilterCounts(candidates, StrongEnough(threshold));
    TopSound(filtered, StrengthOf, maxSignals);
    forall s | s in r ensures s.strength >= threshold {
      assert s in multiset(filtered);
    }
  }

  /** Only weaker signals are cut: a qualifying candidate missing from the
      output is no stronger than any signal in it. */
  lemma RankKeepsStrongest(candidates: seq<Signal>, threshold: real, maxSignals: int, y: Signal)
    requires y in candidates && y.strength >= threshold
    requires y !in Rank(candidates, threshold, maxSignals)
    ensures forall x :: x in Rank(candidates, threshold, maxSignals) ==> x.strength >= y.strength
  {
    var filtered := Filter(candidates, StrongEnough(threshold));
    FilterCounts(candidates, StrongEnough(threshold));
    assert y in multiset(filtered);
    TopKeepsLargest(filtered, StrengthOf, maxSignals, y);
  }

  /** Ties keep the order in which the detectors produced them (SMT, then
      ES volume, then NQ volume): for any strength, the output's signals of
      that strength are a prefix of the qualifying candidates of that
      strength. */
  lemma RankKeepsTieOrder(candidates: seq<Signal>, threshold: real, maxSignals: int, v: real)
    ensures Filter(Rank(candidates, threshold, maxSignals), KeyIs(StrengthOf, v)) <=
            Filter(Filter(candidates, StrongEnough(threshold)), KeyIs(StrengthOf, v))
  {
    TopKeepsTieOrder(Filter(candidates, StrongEnough(threshold)), StrengthOf, maxSignals, v);
  }

  /** The detector outputs in the order `analyze` extends its list with them. */
  function Candidates(es: seq<Bar>, nq: seq<Bar>, esStd: seq<real>, nqStd: seq<real>,
                      cfg: ServiceSettings, stamp: string): seq<Signal>
    requires PositivePrices(es)
  {
    SmtDivergence.Divergences(es, nq, cfg.smt, stamp) +
    VolumeAnomaly.VolumeSignals(es, esStd, cfg.volumeMultiplier, stamp) +
    VolumeAnomaly.VolumeSignals(nq, nqStd, cfg.volumeMultiplier, stamp)
  }

  /** The ES 15-minute bars, when the market map has ES=F, have positive
      prices, and each rolling standard deviation has one entry per bar. */
  predicate Prepared(market: MarketMap, esStd: seq<real>, nqStd: seq<real>)
  {
    (Lookup(market, "ES=F").Some? ==> PositivePrices(Lookup(market, "ES=F").value.ohlcv15m) &&
                                      |esStd| == |Lookup(market, "ES=F").value.ohlcv15m|) &&
    (Lookup(market, "NQ=F").Some? ==> |nqStd| == |Lookup(market, "NQ=F").value.ohlcv15m|)
  }

  /** `SmartMoneyService.analyze` with the clock, the settings and the
      rolling standard deviations passed in: nothing without both ES=F and
      NQ=F or outside the session, else the ranked detector outputs. */
  method Analyze(market: MarketMap, now: TimeOfDay, cfg: ServiceSettings, stamp: string,
                 esStd: seq<real>, nqStd: seq<real>) returns (signals: seq<Signal>)
    requires Prepared(market, esStd, nqStd)
    ensures Lookup(market, "ES=F").None? || Lookup(market, "NQ=F").None? ==> signals == []
    ensures !IsActiveSession(now) ==> signals == []
    ensures Lookup(market, "ES=F").Some? && Lookup(market, "NQ=F").Some? && IsActiveSession(now) ==>
      signals == Rank(Candidates(Lookup(market, "ES=F").value.ohlcv15m, Lookup(market, "NQ=F").value.ohlcv15m,
                                 esStd, nqStd, cfg, stamp),
                      cfg.strengthThreshold, cfg.maxSignals)
    ensures forall s :: s in signals ==> s.strength >= cfg.strengthThreshold
    ensures Descending(signals, StrengthOf)
    ensures cfg.maxSignals >= 0 ==> |signals| <= cfg.maxSignals
  {
    var esData := Lookup(market, "ES=F");
    var nqData := Lookup(market, "NQ=F");
    if esData.None? || nqData.None? {
      return [];
    }
    if !IsActiveSession(now) {
      return [];
    }
    var es, nq := esData.value.ohlcv15m, nqData.value.ohlcv15m;
    signals := [];
    var smt := SmtDivergence.Analyze(es, nq, cfg.smt, stamp);
    signals := signals + smt;
    assert signals == smt;
    var esVolume := VolumeAnomaly.Analyze(es, esStd, cfg.volumeMultiplier, stamp);
    signals := signals + esVolume;
    var nqVolume := VolumeAnomaly.Analyze(nq, nqStd, cfg.volumeMultiplier, stamp);
    signals := signals + nqVolume;
    assert signals == Candidates(es, nq, esStd, nqStd, cfg, stamp);
    RankSound(signals, cfg.strengthThreshold, cfg.maxSignals);
    signals := SliceTo(SortDescending(Filter(signals, StrongEnough(cfg.strengthThreshold)), StrengthOf), cfg.maxSignals);
  }

  /** `SmartMoneyService.analyze` as written: the first detector it calls
      raises (`SmtDivergence.AnalyzeAsWritten`), and so would the settings
      look-ups that follow; the handler turns every path into `[]`. */
  function AnalyzeAsWritten(market: MarketMap, now: TimeOfDay): seq<Signal>
  {
    var es := Lookup(market, "ES=F");
    var nq := Lookup(market, "NQ=F");
    if es.None? || nq.None? then []
    else if !IsActiveSession(now) then []
    else Catch(SmtDivergence.AnalyzeAsWritten(es.value.ohlcv15m, nq.value.ohlcv15m), [])
  }

  /** As written, the service never reports a signal. */
  lemma AnalyzeAsWrittenIsEmpty(market: MarketMap, now: TimeOfDay)
    ensures AnalyzeAsWritten(market, now) == []
  {
  }

  /** `get_cached_signals` once the stored list and the settings are passed
      in: nothing when nothing is stored, else the stored signals that meet
      the current threshold, in stored order, cut to `limit`. */
  function CachedSignals(stored: Option<seq<Signal>>, threshold: real, limit: int): seq<Signal>
  {
    match stored
    case None => []
    case Some(xs) => SliceTo(Filter(xs, StrongEnough(threshold)), limit)
  }

  /** A cached read returns stored signals meeting the threshold, in stored
      order: the first `min(limit, n)` of the `n` stored signals that meet
      it. */
  lemma CachedSignalsSound(stored: Option<seq<Signal>>, threshold: real, limit: int)
    ensures var r := CachedSignals(stored, threshold, limit);
      (forall s :: s in r ==> s.strength >= threshold) &&
      (limit >= 0 ==> |r| <= limit) &&
      (limit >= 0 && stored.Some? ==> |r| == Min(limit, |Filter(stored.value, StrongEnough(threshold))|)) &&
      (stored.None? ==> r == []) &&
      (stored.Some? ==> r <= Filter(stored.value, StrongEnough(threshold)) &&
                        multiset(r) <= multiset(stored.value))
  {
    if stored.Some? {
      var f := Filter(stored.value, StrongEnough(threshold));
      var r := CachedSignals(stored, threshold, limit);
      FilterCounts(stored.value, StrongEnough(threshold));
      assert f == r + f[|r|..];
      assert multiset(f) == multiset(r) + multiset(f[|r|..]);
      forall s | s in r ensures s.strength >= threshold {
        assert s in f;
      }
    }
  }

  /** `get_cached_signals` as written: the threshold look-up calls
      `SettingsManager.get`, which does not exist, so the read raises after
      the load whenever something is stored, and the handler returns `[]`. */
  function CachedSignalsAsWritten(stored: Option<seq<Signal>>): (o: Outcome<seq<Signal>>)
  {
    match stored
    case None => Returned([])
    case Some(_) => Raised(AttributeError)
  }

  /** As written, the cached read is always empty. */
  lemma CachedSignalsAsWrittenIsEmpty(stored: Option<seq<Signal>>)
    ensures Catch(CachedSignalsAsWritten(stored), []) == []
  {
  }
}
