/** Value types shared by the detectors: bars, signals, market snapshots,
    times of day and calendar dates. */
module MarketData {
  import opened PySemantics

  /** One OHLCV bar; `timestamp` is the data provider's timestamp string. */
  datatype Bar = Bar(timestamp: string, open: real, high: real, low: real, close: real, volume: real)

  /** The signal type tags of the newer analyzers. */
  datatype SignalKind =
    | SmtBullishDivergence | SmtBearishDivergence
    | FalseBreakUp | FalseBreakDown
    | VolumeSpike | VolumeDivergenceBullish | VolumeDivergenceBearish
    | JudasSwingBullish | JudasSwingBearish
  {
    /** The string the tag stands for. */
    function Name(): string
    {
      match this
      case SmtBullishDivergence => "smt_bullish_divergence"
      case SmtBearishDivergence => "smt_bearish_divergence"
      case FalseBreakUp => "false_break_up"
      case FalseBreakDown => "false_break_down"
      case VolumeSpike => "volume_spike"
      case VolumeDivergenceBullish => "volume_divergence_bullish"
      case VolumeDivergenceBearish => "volume_divergence_bearish"
      case JudasSwingBullish => "judas_swing_bullish"
      case JudasSwingBearish => "judas_swing_bearish"
    }
  }

  /** A value in a signal's `details` dictionary. */
  datatype Detail = Num(r: real) | Int(i: int) | Text(s: string)

  /** A signal of the newer analyzers; `esPrice` and `nqPrice` are the
      reference prices of the two instruments. */
  datatype Signal = Signal(
    timestamp: string,
    kind: SignalKind,
    strength: real,
    esPrice: real,
    nqPrice: real,
    divergencePct: real,
    confirmed: bool,
    details: map<string, Detail>)

  /** The part of a market snapshot the detectors read. */
  datatype Snapshot = Snapshot(symbol: string, ohlcv5m: seq<Bar>, ohlcv15m: seq<Bar>)

  /** A symbol-keyed dictionary, in insertion order. */
  type MarketMap = seq<(string, Snapshot)>

  /** `market.get(key)`. */
  function Lookup(market: MarketMap, key: string): (r: Option<Snapshot>)
    ensures r.Some? <==> exists i :: 0 <= i < |market| && market[i].0 == key
    ensures r.Some? ==> r.value in Values(market)
  {
    if market == [] then None
    else if market[0].0 == key then Some(market[0].1)
    else Lookup(market[1..], key)
  }

  /** `market.values()`, in order. */
  function Values(market: MarketMap): (r: seq<Snapshot>)
    ensures |r| == |market|
    ensures forall i :: 0 <= i < |market| ==> r[i] == market[i].1
  {
    if market == [] then [] else [market[0].1] + Values(market[1..])
  }

  predicate PositivePrices(bars: seq<Bar>)
  {
    forall b :: b in bars ==> 0.0 < b.low && 0.0 < b.high && 0.0 < b.close
  }

  predicate NonNegativeVolumes(bars: seq<Bar>)
  {
    forall b :: b in bars ==> 0.0 <= b.volume
  }

  /** A bar whose close lies within its own range. */
  predicate CoherentBar(b: Bar)
  {
    0.0 < b.low <= b.close <= b.high
  }

  const MicrosPerSecond: int := 1_000_000
  const MicrosPerHour: int := 3600 * MicrosPerSecond
  const MicrosPerDay: int := 24 * MicrosPerHour

  /** A UTC time of day (Python `datetime.time`) in microseconds after midnight. */
  type TimeOfDay = t: int | 0 <= t < MicrosPerDay

  /** `time(h, m, s)`. */
  function Clock(h: nat, m: nat, s: nat): int
  {
    ((h * 60 + m) * 60 + s) * MicrosPerSecond
  }

  /** The `hour` attribute of a time of day. */
  function HourOf(t: TimeOfDay): (h: nat)
    ensures h < 24
    ensures Clock(h, 0, 0) <= t < Clock(h + 1, 0, 0)
  {
    t / MicrosPerHour
  }

  /** A calendar date of the proleptic Gregorian calendar. */
  datatype Date = Date(year: int, month: int, day: int)

  predicate IsLeapYear(y: int)
  {
    y % 4 == 0 && (y % 100 != 0 || y % 400 == 0)
  }

  function DaysInMonth(y: int, m: int): (n: int)
    requires 1 <= m <= 12
    ensures 28 <= n <= 31
  {
    if m == 2 then (if IsLeapYear(y) then 29 else 28)
    else if m == 4 || m == 6 || m == 9 || m == 11 then 30
    else 31
  }

  predicate ValidDate(d: Date)
  {
    1 <= d.month <= 12 && 1 <= d.day <= DaysInMonth(d.year, d.month)
  }
}
