/** Fractal detection (`BaseAnalyzer._get_fractals`): bar i is a high
    fractal when its high is strictly above every other high within
    `lookBack` bars on either side, and a low fractal symmetrically; only the
    last five of each kind are kept. */
module Fractals {
  import opened PySemantics
  import opened MarketData

  datatype Side = High | Low

  /** The tuple `(i, price, timestamp)` the source appends. */
  datatype Fractal = Fractal(index: nat, price: real, timestamp: string)

  /** Shorter inputs yield no fractals at all, whatever `lookBack` is. */
  const MinBars: nat := 5
  /** How many of the most recent fractals of each kind are returned. */
  const Keep: int := 5
  /** The default half-window of `_get_fractals`. */
  const DefaultLookBack: nat := 2

  function Extreme(b: Bar, side: Side): real
  {
    if side == High then b.high else b.low
  }

  /** `x` is strictly more extreme than `y` on this side. */
  predicate Beats(side: Side, x: real, y: real)
  {
    if side == High then x > y else x < y
  }

  /** Bar i has a full window and strictly beats every other bar in it. */
  predicate IsFractal(bars: seq<Bar>, i: int, lookBack: nat, side: Side)
  {
    lookBack <= i < |bars| - lookBack &&
    forall j :: i - lookBack <= j <= i + lookBack && j != i ==>
      Beats(side, Extreme(bars[i], side), Extreme(bars[j], side))
  }

  function EntryAt(bars: seq<Bar>, i: nat, side: Side): Fractal
    requires i < |bars|
  {
    Fractal(i, Extreme(bars[i], side), bars[i].timestamp)
  }

  /** The entries the loop has appended once it has examined the indices
      `lookBack <= i < n`. */
  function Scan(bars: seq<Bar>, lookBack: nat, side: Side, n: int): seq<Fractal>
    decreases n
  {
    if n <= lookBack then []
    else
      Scan(bars, lookBack, side, n - 1) +
      (if IsFractal(bars, n - 1, lookBack, side) then [EntryAt(bars, n - 1, side)] else [])
  }

  /** Every fractal of one kind, in index order. */
  function AllFractals(bars: seq<Bar>, lookBack: nat, side: Side): seq<Fractal>
  {
    Scan(bars, lookBack, side, |bars| - lookBack)
  }

  /** What `_get_fractals` returns: the high list and the low list. */
  function FractalLists(bars: seq<Bar>, lookBack: nat): (r: (seq<Fractal>, seq<Fractal>))
    ensures |bars| < MinBars ==> r.0 == [] && r.1 == []
    ensures |r.0| <= Keep && |r.1| <= Keep
  {
    if |bars| < MinBars then ([], [])
    else (Kept(bars, lookBack, High), Kept(bars, lookBack, Low))
  }

  /** The last five fractals of one kind (`[-5:]`). */
  function Kept(bars: seq<Bar>, lookBack: nat, side: Side): seq<Fractal>
  {
    SliceFrom(AllFractals(bars, lookBack, side), -Keep)
  }

  /** The loop of `_get_fractals`: one pass over the indices with a full
      window, appending to both lists, then the last five of each. */
  method GetFractals(bars: seq<Bar>, lookBack: nat) returns (highs: seq<Fractal>, lows: seq<Fractal>)
    ensures (highs, lows) == FractalLists(bars, lookBack)
    ensures |bars| < MinBars ==> highs == [] && lows == []
  {
    if |bars| < MinBars {
      return [], [];
    }
    highs, lows := [], [];
    var i := lookBack;
    while i < |bars| - lookBack
      invariant lookBack <= i
      invariant i <= |bars| - lookBack || i == lookBack
      invariant highs == Scan(bars, lookBack, High, i)
      invariant lows == Scan(bars, lookBack, Low, i)
    {
      if IsFractal(bars, i, lookBack, High) {
        highs := highs + [EntryAt(bars, i, High)];
      }
      if IsFractal(bars, i, lookBack, Low) {
        lows := lows + [EntryAt(bars, i, Low)];
      }
      i := i + 1;
    }
    assert highs == AllFractals(bars, lookBack, High) && lows == AllFractals(bars, lookBack, Low);
    highs, lows := SliceFrom(highs, -Keep), SliceFrom(lows, -Keep);
  }

  /** Every reported entry is a genuine fractal with a full window, carrying
      that bar's price and timestamp. */
  lemma {:induction false} ScanSound(bars: seq<Bar>, lookBack: nat, side: Side, n: int)
    ensures forall e :: e in Scan(bars, lookBack, side, n) ==>
      lookBack <= e.index < n && e.index < |bars| - lookBack &&
      IsFractal(bars, e.index, lookBack, side) && e == EntryAt(bars, e.index, side)
    decreases n
  {
    if n > lookBack {
      ScanSound(bars, lookBack, side, n - 1);
    }
  }

  /** No fractal is missed. */
  lemma {:induction false} ScanComplete(bars: seq<Bar>, lookBack: nat, side: Side, n: int, i: nat)
    requires IsFractal(bars, i, lookBack, side) && i < n
    ensures EntryAt(bars, i, side) in Scan(bars, lookBack, side, n)
    decreases n
  {
    if i < n - 1 {
      ScanComplete(bars, lookBack, side, n - 1, i);
    }
  }

  /** Strictly increasing bar indices. */
  predicate Ascending(xs: seq<Fractal>)
  {
    forall p, q :: 0 <= p < q < |xs| ==> xs[p].index < xs[q].index
  }

  /** Entries come out in strictly increasing index order. */
  lemma {:induction false} ScanAscending(bars: seq<Bar>, lookBack: nat, side: Side, n: int)
    ensures Ascending(Scan(bars, lookBack, side, n))
    decreases n
  {
    if n > lookBack {
      ScanAscending(bars, lookBack, side, n - 1);
      ScanSound(bars, lookBack, side, n - 1);
      var prev := Scan(bars, lookBack, side, n - 1);
      forall p | 0 <= p < |prev| ensures prev[p].index < n - 1 {
        assert prev[p] in prev;
      }
    }
  }

  /** Because the comparison is strict, two fractals of the same kind are
      more than `lookBack` bars apart: each lies in the other's window. */
  lemma FractalsSeparated(bars: seq<Bar>, lookBack: nat, side: Side, i: int, k: int)
    requires IsFractal(bars, i, lookBack, side) && IsFractal(bars, k, lookBack, side)
    requires i < k
    ensures k - i > lookBack
  {
    assert !(Beats(side, Extreme(bars[i], side), Extreme(bars[k], side)) &&
             Beats(side, Extreme(bars[k], side), Extreme(bars[i], side)));
  }

  /** An equal neighbour in the window disqualifies a bar. */
  lemma TieDisqualifies(bars: seq<Bar>, lookBack: nat, side: Side, i: int, j: int)
    requires 0 <= i < |bars| && 0 <= j < |bars| && j != i
    requires i - lookBack <= j <= i + lookBack
    requires Extreme(bars[j], side) == Extreme(bars[i], side)
    ensures !IsFractal(bars, i, lookBack, side)
  {
  }

  /** The kept list of one kind holds at most five genuine fractals, in
      ascending index order. */
  lemma KeptSound(bars: seq<Bar>, lookBack: nat, side: Side)
    ensures var kept := Kept(bars, lookBack, side);
      |kept| == Min(Keep, |AllFractals(bars, lookBack, side)|) &&
      (forall e :: e in kept ==> IsFractal(bars, e.index, lookBack, side) && e == EntryAt(bars, e.index, side)) &&
      Ascending(kept)
  {
    KeptGenuine(bars, lookBack, side);
    KeptAscending(bars, lookBack, side);
  }

  /** Every kept entry is a genuine fractal at its own bar. */
  lemma KeptGenuine(bars: seq<Bar>, lookBack: nat, side: Side)
    ensures forall e :: e in Kept(bars, lookBack, side) ==>
      IsFractal(bars, e.index, lookBack, side) && e == EntryAt(bars, e.index, side)
  {
    var all := AllFractals(bars, lookBack, side);
    var kept := Kept(bars, lookBack, side);
    ScanSound(bars, lookBack, side, |bars| - lookBack);
    forall e | e in kept
      ensures IsFractal(bars, e.index, lookBack, side) && e == EntryAt(bars, e.index, side)
    {
      assert e in all;
    }
  }

  /** The kept entries are in strictly increasing index order. */
  lemma KeptAscending(bars: seq<Bar>, lookBack: nat, side: Side)
    ensures Ascending(Kept(bars, lookBack, side))
  {
    var all := AllFractals(bars, lookBack, side);
    ScanAscending(bars, lookBack, side, |bars| - lookBack);
    SuffixAscending(all, |all| - |Kept(bars, lookBack, side)|);
  }

  /** The kept fractals are the latest ones: a fractal left out lies before
      every kept one, and is only left out when five are kept. */
  lemma KeptAreLatest(bars: seq<Bar>, lookBack: nat, side: Side, i: nat)
    requires IsFractal(bars, i, lookBack, side)
    ensures var kept := Kept(bars, lookBack, side);
      EntryAt(bars, i, side) in kept || (|kept| == Keep && i < kept[0].index)
  {
    var all := AllFractals(bars, lookBack, side);
    var kept := Kept(bars, lookBack, side);
    ScanComplete(bars, lookBack, side, |bars| - lookBack, i);
    ScanAscending(bars, lookBack, side, |bars| - lookBack);
    SuffixLatest(all, |all| - |kept|, EntryAt(bars, i, side));
  }

  /** A suffix of an ascending list is ascending. */
  lemma SuffixAscending(xs: seq<Fractal>, off: int)
    requires Ascending(xs) && 0 <= off <= |xs|
    ensures Ascending(xs[off..])
  {
    forall p, q | 0 <= p < q < |xs| - off ensures xs[off..][p].index < xs[off..][q].index {
      assert xs[off..][p] == xs[off + p] && xs[off..][q] == xs[off + q];
    }
  }

  /** An entry of an ascending list that a non-empty suffix leaves out comes
      before the suffix's first entry. */
  lemma SuffixLatest(xs: seq<Fractal>, off: int, x: Fractal)
    requires Ascending(xs) && 0 <= off < |xs| && x in xs
    ensures x in xs[off..] || x.index < xs[off..][0].index
  {
    var p :| 0 <= p < |xs| && xs[p] == x;
    if p >= off {
      assert xs[off..][p - off] == x;
    } else {
      assert xs[off..][0] == xs[off];
    }
  }
}
