/** Cross-instrument SMT divergence (`SMTAnalyzer` of the analyzers
    package): the last two ES fractals and the last two NQ fractals of the
    same kind move in opposite directions. */
module SmtDivergence {
  import opened PySemantics
  import opened MarketData
  import opened Fractals

  /** The three settings `analyze` and `_check_confirmation` read, with the
      defaults the call sites supply. */
  datatype SmtSettings = SmtSettings(divergenceThreshold: real, minStrength: real, confirmationCandles: int)

  const DefaultSettings := SmtSettings(0.5, 0.0, 3)

  datatype Direction = Bullish | Bearish

  function KindOf(dir: Direction): SignalKind
  {
    if dir == Bullish then SmtBullishDivergence else SmtBearishDivergence
  }

  /** A candle agrees with the direction: it closes at or above its open for
      a bullish check, at or below for a bearish one. */
  predicate Agrees(b: Bar, dir: Direction)
  {
    if dir == Bullish then b.close >= b.open else b.close <= b.open
  }

  /** `data[-conf:][-2:]`: the bars the confirmation inspects. */
  function Inspected(bars: seq<Bar>, conf: int): seq<Bar>
  {
    SliceFrom(SliceFrom(bars, -conf), -2)
  }

  /** `_check_confirmation`: both series are at least `conf` bars long and
      the last (up to) two bars of each recent window agree. */
  function Confirmation(es: seq<Bar>, nq: seq<Bar>, dir: Direction, conf: int): bool
  {
    if |es| < conf || |nq| < conf then false
    else forall b :: b in Inspected(es, conf) + Inspected(nq, conf) ==> Agrees(b, dir)
  }

  /** A confirmation needs `conf` bars of each series; for a positive window
      it holds exactly when the last (up to) two bars of each agree with the
      direction. */
  lemma ConfirmationSound(es: seq<Bar>, nq: seq<Bar>, dir: Direction, conf: int)
    ensures Confirmation(es, nq, dir, conf) ==> |es| >= conf && |nq| >= conf
    ensures 1 <= conf ==>
      (Confirmation(es, nq, dir, conf) <==>
        (|es| >= conf && |nq| >= conf &&
         (forall k :: 0 <= k && |es| - Min(conf, 2) <= k < |es| ==> Agrees(es[k], dir)) &&
         (forall k :: 0 <= k && |nq| - Min(conf, 2) <= k < |nq| ==> Agrees(nq[k], dir))))
  {
    if 1 <= conf && |es| >= conf && |nq| >= conf {
      InspectedIsTail(es, conf);
      InspectedIsTail(nq, conf);
      var tailEs := es[|es| - Min(conf, 2)..];
      var tailNq := nq[|nq| - Min(conf, 2)..];
      assert forall k :: |es| - Min(conf, 2) <= k < |es| ==> es[k] == tailEs[k - (|es| - Min(conf, 2))];
      assert forall k :: |nq| - Min(conf, 2) <= k < |nq| ==> nq[k] == tailNq[k - (|nq| - Min(conf, 2))];
    }
  }

  /** For a positive window size the inspected bars are exactly the last
      `min(conf, 2)` bars. */
  lemma InspectedIsTail(bars: seq<Bar>, conf: int)
    requires 1 <= conf <= |bars|
    ensures Inspected(bars, conf) == bars[|bars| - Min(conf, 2)..]
  {
    var recent := SliceFrom(bars, -conf);
    assert recent == bars[|bars| - conf..];
  }

  /** The fractal before the last one. */
  function Prev(f: seq<Fractal>): Fractal
    requires |f| >= 2
  {
    f[|f| - 2]
  }

  /** ES and NQ fractals move apart: for lows, ES makes a higher low while
      NQ makes a lower low; for highs, ES makes a lower high while NQ makes a
      higher high. */
  predicate Diverges(esF: seq<Fractal>, nqF: seq<Fractal>, dir: Direction)
    requires |esF| >= 2 && |nqF| >= 2
  {
    if dir == Bullish then Prev(esF).price < Last(esF).price && Prev(nqF).price > Last(nqF).price
    else Prev(esF).price > Last(esF).price && Prev(nqF).price < Last(nqF).price
  }

  /** `abs((last / prev - 1) * 100)`: the ES move between the two fractals,
      in percent. */
  function DivergencePct(prev: real, last: real): (r: real)
    requires prev > 0.0
    ensures r >= 0.0
    ensures r == 0.0 <==> last == prev
  {
    Abs((last / prev - 1.0) * 100.0)
  }

  /** The signal (if any) of one direction, given that direction's fractals. */
  function DirectionSignal(es: seq<Bar>, nq: seq<Bar>, dir: Direction, esF: seq<Fractal>, nqF: seq<Fractal>,
                           cfg: SmtSettings, stamp: string): (r: seq<Signal>)
    requires |esF| >= 2 && |nqF| >= 2 && Prev(esF).price > 0.0 && |es| > 0 && |nq| > 0
    ensures |r| <= 1
    ensures r != [] <==>
      Diverges(esF, nqF, dir) &&
      DivergencePct(Prev(esF).price, Last(esF).price) >= cfg.divergenceThreshold &&
      ClampStrength(DivergencePct(Prev(esF).price, Last(esF).price) / 2.0) >= cfg.minStrength
    ensures forall s :: s in r ==>
      s.kind == KindOf(dir) &&
      s.divergencePct == DivergencePct(Prev(esF).price, Last(esF).price) &&
      s.divergencePct >= cfg.divergenceThreshold &&
      0.0 <= s.strength <= 1.0 && s.strength >= cfg.minStrength &&
      s.esPrice == Last(es).close && s.nqPrice == Last(nq).close &&
      s.confirmed == Confirmation(es, nq, dir, cfg.confirmationCandles)
  {
    if !Diverges(esF, nqF, dir) then []
    else
      var pct := DivergencePct(Prev(esF).price, Last(esF).price);
      var strength := ClampStrength(pct / 2.0);
      if pct >= cfg.divergenceThreshold && strength >= cfg.minStrength then
        [Signal(stamp, KindOf(dir), strength, Last(es).close, Last(nq).close, pct,
                Confirmation(es, nq, dir, cfg.confirmationCandles),
                map["threshold" := Num(cfg.divergenceThreshold)])]
      else []
  }

  /** The half-window `analyze` uses for both instruments. */
  const LookBack: nat := DefaultLookBack

  /** Every fractal price of a series with positive prices is positive. */
  lemma FractalPricePositive(bars: seq<Bar>, side: Side, e: Fractal)
    requires PositivePrices(bars)
    requires e in Kept(bars, LookBack, side)
    ensures e.price > 0.0
  {
    KeptSound(bars, LookBack, side);
    assert bars[e.index] in bars;
  }

  /** Both fractal lists of both series hold at least two entries. */
  predicate EnoughFractals(es: seq<Bar>, nq: seq<Bar>)
  {
    |FractalLists(es, LookBack).0| >= 2 && |FractalLists(es, LookBack).1| >= 2 &&
    |FractalLists(nq, LookBack).0| >= 2 && |FractalLists(nq, LookBack).1| >= 2
  }

  /** What `SMTAnalyzer.analyze` computes once its settings are passed in:
      the bullish signal from the lows, then the bearish one from the highs. */
  function Divergences(es: seq<Bar>, nq: seq<Bar>, cfg: SmtSettings, stamp: string): (r: seq<Signal>)
    requires PositivePrices(es)
    ensures |r| <= 2
  {
    if !EnoughFractals(es, nq) then []
    else
      var (esHighs, esLows) := FractalLists(es, LookBack);
      var (nqHighs, nqLows) := FractalLists(nq, LookBack);
      FractalPricePositive(es, Low, Prev(esLows));
      FractalPricePositive(es, High, Prev(esHighs));
      DirectionSignal(es, nq, Bullish, esLows, nqLows, cfg, stamp) +
      DirectionSignal(es, nq, Bearish, esHighs, nqHighs, cfg, stamp)
  }

  /** No signal without two fractals of each kind in each series (so none
      below five bars); at most one bullish signal, from the lows, before at
      most one bearish one, from the highs; every signal meets both
      thresholds, has a strength in [0, 1] and carries the last closes. */
  lemma DivergencesSound(es: seq<Bar>, nq: seq<Bar>, cfg: SmtSettings, stamp: string)
    requires PositivePrices(es)
    ensures var r := Divergences(es, nq, cfg, stamp);
      (!EnoughFractals(es, nq) ==> r == []) &&
      (|es| < MinBars || |nq| < MinBars ==> r == []) &&
      (forall i, j :: 0 <= i < j < |r| ==> r[i].kind == SmtBullishDivergence && r[j].kind == SmtBearishDivergence) &&
      (forall s :: s in r ==>
        (s.kind == SmtBullishDivergence || s.kind == SmtBearishDivergence) &&
        0.0 <= s.strength <= 1.0 && s.strength >= cfg.minStrength &&
        s.divergencePct >= 0.0 && s.divergencePct >= cfg.divergenceThreshold &&
        s.esPrice == Last(es).close && s.nqPrice == Last(nq).close) &&
      (forall s :: s in r && s.kind == SmtBullishDivergence ==>
        Diverges(FractalLists(es, LookBack).1, FractalLists(nq, LookBack).1, Bullish)) &&
      (forall s :: s in r && s.kind == SmtBearishDivergence ==>
        Diverges(FractalLists(es, LookBack).0, FractalLists(nq, LookBack).0, Bearish))
  {
  }

  /** `SMTAnalyzer.analyze` with its settings passed explicitly: the two
      conditional appends. */
  method Analyze(es: seq<Bar>, nq: seq<Bar>, cfg: SmtSettings, stamp: string) returns (signals: seq<Signal>)
    requires PositivePrices(es)
    ensures signals == Divergences(es, nq, cfg, stamp)
    ensures |signals| <= 2
  {
    var esHighs, esLows := GetFractals(es, LookBack);
    var nqHighs, nqLows := GetFractals(nq, LookBack);
    if |esLows| < 2 || |nqLows| < 2 || |esHighs| < 2 || |nqHighs| < 2 {
      return [];
    }
    FractalPricePositive(es, Low, Prev(esLows));
    FractalPricePositive(es, High, Prev(esHighs));
    assert EnoughFractals(es, nq);
    var bullish := DirectionSignal(es, nq, Bullish, esLows, nqLows, cfg, stamp);
    var bearish := DirectionSignal(es, nq, Bearish, esHighs, nqHighs, cfg, stamp);
    assert Divergences(es, nq, cfg, stamp) == bullish + bearish;
    signals := bullish + bearish;
  }

  /** `SMTAnalyzer.analyze` as written: its first statement calls
      `self._merge_settings`, which no class in the code base defines. */
  function AnalyzeAsWritten(es: seq<Bar>, nq: seq<Bar>): Outcome<seq<Signal>>
  {
    Raised(AttributeError)
  }

  /** As written, the analyzer never returns: whatever the bars, the call
      raises and a caller that swallows the exception sees no signal. */
  lemma AnalyzeAsWrittenNeverReturns(es: seq<Bar>, nq: seq<Bar>)
    ensures !AnalyzeAsWritten(es, nq).Returned?
    ensures Catch(AnalyzeAsWritten(es, nq), []) == []
  {
  }
}
