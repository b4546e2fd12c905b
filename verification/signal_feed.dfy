/** The read side of the SMT endpoints: the signal feed filters the stored
    signals by type, strength and confirmation, renames their types for the
    front end and wraps them in response records; the statistics count the
    stored signals by type and average their strengths. */
module SignalFeed {
  import opened PySemantics
  import opened MarketData
  import SmartMoney
  import MarketPhase

  // ---------------------------------------------------------------------
  // Filters of `get_smt_signals`

  /** The query parameters; `limit` goes to the cached read. */
  datatype Query = Query(limit: int, signalType: Option<string>, minStrength: Option<real>, confirmedOnly: bool)

  /** The signal passes every filter the query asks for; an empty type
      string is falsy and asks for nothing. */
  predicate Meets(s: Signal, q: Query)
  {
    (q.signalType.None? || q.signalType.value == "" || s.kind.Name() == q.signalType.value) &&
    (q.minStrength.None? || s.strength >= q.minStrength.value) &&
    (!q.confirmedOnly || s.confirmed)
  }

  /** `s.type == signal_type`. */
  function OfType(t: string): Signal -> bool
  {
    (s: Signal) => s.kind.Name() == t
  }

  /** `s.strength >= min_strength`. */
  function AtLeast(m: real): Signal -> bool
  {
    (s: Signal) => s.strength >= m
  }

  /** `getattr(s, 'confirmed', False)`. */
  function IsConfirmed(): Signal -> bool
  {
    (s: Signal) => s.confirmed
  }

  /** The filter by type, applied when a non-empty type is given. */
  function TypeStage(signals: seq<Signal>, q: Query): seq<Signal>
  {
    if q.signalType.Some? && q.signalType.value != "" then Filter(signals, OfType(q.signalType.value))
    else signals
  }

  /** The filter by strength, applied when a minimum is given. */
  function StrengthStage(signals: seq<Signal>, q: Query): seq<Signal>
  {
    if q.minStrength.Some? then Filter(signals, AtLeast(q.minStrength.value)) else signals
  }

  /** The three comprehensions, each applied only when its parameter is set. */
  function Feed(signals: seq<Signal>, q: Query): seq<Signal>
  {
    var byStrength := StrengthStage(TypeStage(signals, q), q);
    if q.confirmedOnly then Filter(byStrength, IsConfirmed()) else byStrength
  }

  /** One optional filter stage keeps a subsequence. */
  lemma StageOrder(xs: seq<Signal>, applied: bool, keep: Signal -> bool)
    ensures IsSubsequence(if applied then Filter(xs, keep) else xs, xs)
  {
    if applied {
      FilterSubsequence(xs, keep);
    } else {
      SubsequenceReflexive(xs);
    }
  }

  /** One optional filter stage keeps every occurrence of an element that
      passes it, and none of one that does not when it applies. */
  lemma StageCount(xs: seq<Signal>, applied: bool, keep: Signal -> bool, s: Signal)
    ensures multiset(if applied then Filter(xs, keep) else xs)[s] ==
            if !applied || keep(s) then multiset(xs)[s] else 0
  {
    if applied {
      FilterCounts(xs, keep);
    }
  }

  /** The filters only remove signals and never reorder them. */
  lemma FeedOrder(signals: seq<Signal>, q: Query)
    ensures IsSubsequence(Feed(signals, q), signals)
  {
    var byType := TypeStage(signals, q);
    var byStrength := StrengthStage(byType, q);
    StageOrder(signals, q.signalType.Some? && q.signalType.value != "", OfType(if q.signalType.Some? then q.signalType.value else ""));
    StageOrder(byType, q.minStrength.Some?, AtLeast(if q.minStrength.Some? then q.minStrength.value else 0.0));
    StageOrder(byStrength, q.confirmedOnly, IsConfirmed());
    SubsequenceTransitive(byStrength, byType, signals);
    SubsequenceTransitive(Feed(signals, q), byStrength, signals);
  }

  /** What is left is exactly the signals meeting every requested
      criterion, each as often as it was stored. */
  lemma FeedCounts(signals: seq<Signal>, q: Query, s: Signal)
    ensures multiset(Feed(signals, q))[s] == if Meets(s, q) then multiset(signals)[s] else 0
  {
    var byType := TypeStage(signals, q);
    var byStrength := StrengthStage(byType, q);
    StageCount(signals, q.signalType.Some? && q.signalType.value != "", OfType(if q.signalType.Some? then q.signalType.value else ""), s);
    StageCount(byType, q.minStrength.Some?, AtLeast(if q.minStrength.Some? then q.minStrength.value else 0.0), s);
    StageCount(byStrength, q.confirmedOnly, IsConfirmed(), s);
  }

  /** Every signal in the feed meets the query. */
  lemma FeedSound(signals: seq<Signal>, q: Query)
    ensures forall s :: s in Feed(signals, q) ==> Meets(s, q)
  {
    forall s | s in Feed(signals, q) ensures Meets(s, q) {
      FeedCounts(signals, q, s);
    }
  }

  // ---------------------------------------------------------------------
  // Type names for the front end

  /** `sub` occurs in `s` starting at `i`. */
  predicate MatchesAt(s: string, sub: string, i: int)
  {
    0 <= i <= |s| - |sub| && s[i..i + |sub|] == sub
  }

  /** Python's `sub in s` on strings. */
  predicate Contains(s: string, sub: string)
  {
    exists i :: 0 <= i <= |s| - |sub| && MatchesAt(s, sub, i)
  }

  /** A string lacking one of the characters of `sub` does not contain it. */
  lemma MissingChar(s: string, sub: string, k: int)
    requires 0 <= k < |sub| && sub[k] !in s
    ensures !Contains(s, sub)
  {
    forall i | 0 <= i <= |s| - |sub| ensures !MatchesAt(s, sub, i) {
      assert s[i..i + |sub|][k] == s[i + k];
    }
  }

  /** The type shown to the front end: anything containing "bullish" is a
      bullish divergence (tested first), else anything containing "bearish"
      a bearish divergence, else anything containing "volume" a volume
      anomaly; other types pass unchanged. */
  function FrontendType(t: string): string
  {
    Rename(t, Renamings)
  }

  /** The renaming rules in the order they are tested. */
  const Renamings: seq<(string, string)> :=
    [("bullish", "bullish_divergence"), ("bearish", "bearish_divergence"), ("volume", "volume_anomaly")]

  /** The replacement of the first rule whose pattern occurs in `t`, or `t`
      itself when none does. */
  function Rename(t: string, rules: seq<(string, string)>): string
  {
    if rules == [] then t
    else if Contains(t, rules[0].0) then rules[0].1
    else Rename(t, rules[1..])
  }

  /** "bullish" does not occur in "volume_divergence_bearish": its only
      "b" starts "bearish". */
  lemma VolumeBearishIsNotBullish()
    ensures !Contains("volume_divergence_bearish", "bullish")
  {
    var s := "volume_divergence_bearish";
    var head := "volume_divergence_";
    assert s == head + "bearish";
    assert 'b' !in head;
    assert forall j :: 0 <= j < |head| ==> s[j] == head[j];
    forall i | 0 <= i <= |s| - 7 ensures !MatchesAt(s, "bullish", i) {
      assert s[i..i + 7][0] == s[i] && s[i..i + 7][1] == s[i + 1];
    }
  }

  /** The SMT, volume and Judas bullish types read as bullish divergences. */
  lemma BullishTypes()
    ensures FrontendType(SmtBullishDivergence.Name()) == "bullish_divergence"
    ensures FrontendType(VolumeDivergenceBullish.Name()) == "bullish_divergence"
    ensures FrontendType(JudasSwingBullish.Name()) == "bullish_divergence"
  {
    assert MatchesAt(SmtBullishDivergence.Name(), "bullish", 4);
    assert MatchesAt(VolumeDivergenceBullish.Name(), "bullish", 18);
    assert MatchesAt(JudasSwingBullish.Name(), "bullish", 12);
  }

  /** The SMT and Judas bearish types read as bearish divergences. */
  lemma BearishTypes()
    ensures FrontendType(SmtBearishDivergence.Name()) == "bearish_divergence"
    ensures FrontendType(JudasSwingBearish.Name()) == "bearish_divergence"
  {
    MissingChar(SmtBearishDivergence.Name(), "bullish", 1);
    assert MatchesAt(SmtBearishDivergence.Name(), "bearish", 4);
    MissingChar(JudasSwingBearish.Name(), "bullish", 2);
    assert MatchesAt(JudasSwingBearish.Name(), "bearish", 12);
  }

  /** The volume bearish type reads as a bearish divergence, not as a
      volume anomaly, since "bearish" is tested before "volume". */
  lemma VolumeBearishType()
    ensures FrontendType(VolumeDivergenceBearish.Name()) == "bearish_divergence"
  {
    VolumeBearishIsNotBullish();
    assert MatchesAt(VolumeDivergenceBearish.Name(), "bearish", 18);
  }

  /** A volume spike reads as a volume anomaly; false breaks keep their names. */
  lemma OtherTypes()
    ensures FrontendType(VolumeSpike.Name()) == "volume_anomaly"
    ensures FrontendType(FalseBreakUp.Name()) == "false_break_up"
    ensures FrontendType(FalseBreakDown.Name()) == "false_break_down"
  {
    MissingChar(VolumeSpike.Name(), "bullish", 0);
    MissingChar(VolumeSpike.Name(), "bearish", 0);
    assert MatchesAt(VolumeSpike.Name(), "volume", 0);
    MissingChar(FalseBreakUp.Name(), "bullish", 6);
    MissingChar(FalseBreakUp.Name(), "bearish", 6);
    MissingChar(FalseBreakUp.Name(), "volume", 0);
    MissingChar(FalseBreakDown.Name(), "bullish", 6);
    MissingChar(FalseBreakDown.Name(), "bearish", 6);
    MissingChar(FalseBreakDown.Name(), "volume", 0);
  }

  /** The front-end type of every signal type: bullish and bearish SMT,
      volume and Judas signals become the two divergence types, a plain
      volume spike a volume anomaly, and false breaks keep their names. */
  lemma FrontendTypeOfKind(k: SignalKind)
    ensures FrontendType(k.Name()) ==
      match k
      case SmtBullishDivergence | VolumeDivergenceBullish | JudasSwingBullish => "bullish_divergence"
      case SmtBearishDivergence | VolumeDivergenceBearish | JudasSwingBearish => "bearish_divergence"
      case VolumeSpike => "volume_anomaly"
      case FalseBreakUp => "false_break_up"
      case FalseBreakDown => "false_break_down"
  {
    BullishTypes();
    BearishTypes();
    VolumeBearishType();
    OtherTypes();
  }

  // ---------------------------------------------------------------------
  // Responses

  /** `SMTSignalResponse`. */
  datatype SignalResponse = SignalResponse(
    timestamp: string,
    signalType: string,
    strength: real,
    nasdaqPrice: real,
    sp500Price: real,
    divergencePercentage: real,
    confirmationStatus: bool,
    details: map<string, Detail>)

  /** The response record of one signal: NQ is the Nasdaq price, ES the
      S&P 500 price. */
  function ResponseOf(s: Signal): SignalResponse
  {
    SignalResponse(s.timestamp, FrontendType(s.kind.Name()), s.strength, s.nqPrice, s.esPrice,
                   s.divergencePct, s.confirmed, s.details)
  }

  /** The strength range `SMTSignalResponse` validates. */
  predicate StrengthValid(s: Signal)
  {
    0.0 <= s.strength <= 1.0
  }

  /** The `result_signals` loop. Building a response record validates its
      strength against [0, 1] and raises on the first signal outside. */
  method BuildResponses(signals: seq<Signal>) returns (r: Outcome<seq<SignalResponse>>)
    ensures r.Returned? <==> forall s :: s in signals ==> StrengthValid(s)
    ensures r.Raised? ==> r.error == ValidationError
    ensures r.Returned? ==>
      |r.value| == |signals| && forall i :: 0 <= i < |signals| ==> r.value[i] == ResponseOf(signals[i])
  {
    var result: seq<SignalResponse> := [];
    for i := 0 to |signals|
      invariant forall j :: 0 <= j < i ==> StrengthValid(signals[j])
      invariant |result| == i && forall j :: 0 <= j < i ==> result[j] == ResponseOf(signals[j])
    {
      var s := signals[i];
      if !StrengthValid(s) {
        assert s in signals;
        return Raised(ValidationError);
      }
      result := result + [ResponseOf(s)];
    }
    return Returned(result);
  }

  /** `SMTAnalysisResponse` without its timestamp. */
  datatype AnalysisResponse = AnalysisResponse(signals: seq<SignalResponse>, totalCount: int, marketPhase: string)

  /** `get_smt_signals` with the stored list, the threshold and today's
      date passed in: the cached read, the filters, the response records,
      their count and the market phase. */
  method GetSmtSignals(stored: Option<seq<Signal>>, threshold: real, q: Query, today: Date)
    returns (r: Outcome<AnalysisResponse>)
    requires ValidDate(today)
    ensures var feed := Feed(SmartMoney.CachedSignals(stored, threshold, q.limit), q);
      (r.Returned? <==> forall s :: s in feed ==> StrengthValid(s)) &&
      (r.Raised? ==> r.error == ValidationError) &&
      (r.Returned? ==>
        r.value.totalCount == |r.value.signals| == |feed| &&
        (forall i :: 0 <= i < |feed| ==> r.value.signals[i] == ResponseOf(feed[i])) &&
        r.value.marketPhase == MarketPhase.CurrentPhase(today))
  {
    var signals := SmartMoney.CachedSignals(stored, threshold, q.limit);
    var filtered := Feed(signals, q);
    var responses := BuildResponses(filtered);
    if responses.Raised? {
      return Raised(responses.error);
    }
    var phase := MarketPhase.CurrentPhase(today);
    return Returned(AnalysisResponse(responses.value, |responses.value|, phase));
  }

  // ---------------------------------------------------------------------
  // Statistics of `get_smt_stats`

  /** A `type -> count` dictionary in insertion order. */
  type Distribution = seq<(string, int)>

  /** `d.get(key, 0)`. */
  function CountOf(d: Distribution, key: string): int
  {
    if d == [] then 0 else if d[0].0 == key then d[0].1 else CountOf(d[1..], key)
  }

  /** `d[key] = d.get(key, 0) + 1`: the entry is incremented in place, or
      appended with count 1. */
  function Bump(d: Distribution, key: string): Distribution
  {
    if d == [] then [(key, 1)]
    else if d[0].0 == key then [(key, d[0].1 + 1)] + d[1..]
    else [d[0]] + Bump(d[1..], key)
  }

  /** The keys of the dictionary. */
  function KeySet(d: Distribution): set<string>
  {
    if d == [] then {} else {d[0].0} + KeySet(d[1..])
  }

  /** No key occurs twice, and every count is positive. */
  predicate WellFormed(d: Distribution)
  {
    d == [] || (d[0].0 !in KeySet(d[1..]) && d[0].1 >= 1 && WellFormed(d[1..]))
  }

  /** The sum of the counts. */
  function Total(d: Distribution): int
  {
    if d == [] then 0 else d[0].1 + Total(d[1..])
  }

  /** A key with no entry counts zero. */
  lemma {:induction false} NotAKey(d: Distribution, k: string)
    requires k !in KeySet(d)
    ensures CountOf(d, k) == 0
  {
    if d != [] {
      NotAKey(d[1..], k);
    }
  }

  /** One increment adds one to that key's count and none to the others. */
  lemma {:induction false} BumpCounts(d: Distribution, key: string, k: string)
    ensures CountOf(Bump(d, key), k) == CountOf(d, k) + (if k == key then 1 else 0)
  {
    if d != [] && d[0].0 != key {
      BumpCounts(d[1..], key, k);
    }
  }

  /** One increment adds its key to the keys, keeps the dictionary well
      formed and adds one to the total. */
  lemma {:induction false} BumpShape(d: Distribution, key: string)
    requires WellFormed(d)
    ensures KeySet(Bump(d, key)) == KeySet(d) + {key}
    ensures WellFormed(Bump(d, key))
    ensures Total(Bump(d, key)) == Total(d) + 1
  {
    if d != [] && d[0].0 != key {
      BumpShape(d[1..], key);
      assert Bump(d, key)[1..] == Bump(d[1..], key);
    } else if d != [] {
      assert Bump(d, key)[1..] == d[1..];
    }
  }

  /** The type names of the signals, in order. */
  function Names(signals: seq<Signal>): (names: seq<string>)
    ensures |names| == |signals|
    ensures forall i :: 0 <= i < |signals| ==> names[i] == signals[i].kind.Name()
  {
    if signals == [] then [] else Names(signals[..|signals| - 1]) + [Last(signals).kind.Name()]
  }

  /** The dictionary the stats loop builds. */
  function DistributionOf(signals: seq<Signal>): Distribution
  {
    if signals == [] then [] else Bump(DistributionOf(signals[..|signals| - 1]), Last(signals).kind.Name())
  }

  /** The sum the stats loop builds. */
  function TotalStrength(signals: seq<Signal>): real
  {
    if signals == [] then 0.0 else TotalStrength(signals[..|signals| - 1]) + Last(signals).strength
  }

  /** The distribution has one entry per type present, with a positive
      count, and its counts add up to the number of signals. */
  lemma {:induction false} DistributionShape(signals: seq<Signal>)
    ensures WellFormed(DistributionOf(signals))
    ensures KeySet(DistributionOf(signals)) == set s | s in Names(signals)
    ensures Total(DistributionOf(signals)) == |signals|
  {
    if signals != [] {
      var init := signals[..|signals| - 1];
      var name := Last(signals).kind.Name();
      DistributionShape(init);
      BumpShape(DistributionOf(init), name);
      assert Names(signals) == Names(init) + [name];
    }
  }

  /** Each entry of the distribution counts the signals of its type. */
  lemma {:induction false} DistributionCounts(signals: seq<Signal>)
    ensures forall k :: CountOf(DistributionOf(signals), k) == multiset(Names(signals))[k]
  {
    if signals != [] {
      var init := signals[..|signals| - 1];
      var name := Last(signals).kind.Name();
      DistributionCounts(init);
      forall k ensures CountOf(DistributionOf(signals), k) == multiset(Names(signals))[k] {
        BumpCounts(DistributionOf(init), name, k);
      }
      assert Names(signals) == Names(init) + [name];
    }
  }

  /** Every strength in [0, 1] puts the total between 0 and the count. */
  lemma {:induction false} TotalStrengthBounds(signals: seq<Signal>)
    requires forall s :: s in signals ==> 0.0 <= s.strength <= 1.0
    ensures 0.0 <= TotalStrength(signals) <= |signals| as real
  {
    if signals != [] {
      var init := signals[..|signals| - 1];
      assert forall s :: s in init ==> s in signals;
      TotalStrengthBounds(init);
    }
  }

  /** `AnalysisStatsResponse`. */
  datatype Stats = Stats(totalSignals: int, confirmedSignals: int, distribution: Distribution,
                         avgStrength: real, lastAnalysis: string)

  /** `get_smt_stats` with the cached list and the current timestamp passed
      in: the confirmed count, the counting loop, the average strength (0
      when there is nothing) and the timestamp of the first signal. */
  method GetSmtStats(signals: seq<Signal>, now: string) returns (stats: Stats)
    ensures stats.totalSignals == |signals|
    ensures stats.confirmedSignals == |Filter(signals, (s: Signal) => s.confirmed)|
    ensures stats.distribution == DistributionOf(signals)
    ensures stats.avgStrength == if signals == [] then 0.0 else TotalStrength(signals) / |signals| as real
    ensures stats.lastAnalysis == if signals == [] then now else signals[0].timestamp
  {
    var confirmed := Filter(signals, (s: Signal) => s.confirmed);
    var distribution: Distribution := [];
    var total := 0.0;
    for i := 0 to |signals|
      invariant distribution == DistributionOf(signals[..i])
      invariant total == TotalStrength(signals[..i])
    {
      var signal := signals[i];
      assert signals[..i + 1][..i] == signals[..i];
      distribution := Bump(distribution, signal.kind.Name());
      total := total + signal.strength;
    }
    assert signals[..|signals|] == signals;
    var avg := if signals != [] then total / |signals| as real else 0.0;
    var last := if signals != [] then signals[0].timestamp else now;
    stats := Stats(|signals|, |confirmed|, distribution, avg, last);
  }

  /** The statistics agree with each other: the confirmed signals are
      among the total, the distribution counts every signal exactly once by
      type, and the average strength is in [0, 1] when every strength is. */
  lemma StatsSound(signals: seq<Signal>, now: string)
    ensures |Filter(signals, (s: Signal) => s.confirmed)| <= |signals|
    ensures Total(DistributionOf(signals)) == |signals|
    ensures forall k :: CountOf(DistributionOf(signals), k) == multiset(Names(signals))[k]
    ensures (forall s :: s in signals ==> 0.0 <= s.strength <= 1.0) ==>
      0.0 <= (if signals == [] then 0.0 else TotalStrength(signals) / |signals| as real) <= 1.0
  {
    DistributionShape(signals);
    DistributionCounts(signals);
    if forall s :: s in signals ==> 0.0 <= s.strength <= 1.0 {
      TotalStrengthBounds(signals);
      if signals != [] {
        AverageWithinUnit(TotalStrength(signals), |signals| as real);
      }
    }
  }

  /** A total between 0 and a positive count averages into [0, 1]. */
  lemma AverageWithinUnit(total: real, n: real)
    requires n > 0.0 && 0.0 <= total <= n
    ensures 0.0 <= total / n <= 1.0
  {
  }
}
