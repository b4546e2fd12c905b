/** `get_current_market_phase`: the quarterly-theory phase of the current
    date, from the whole days elapsed since the quarter began, against a
    nominal 90-day quarter cut into four equal bands. */
module MarketPhase {
  import opened MarketData

  datatype Phase = Accumulation | Manipulation | Distribution | Rebalance
  {
    function Name(): string
    {
      match this
      case Accumulation => "Q1_Accumulation"
      case Manipulation => "Q2_Manipulation"
      case Distribution => "Q3_Distribution"
      case Rebalance => "Q4_Rebalance"
    }

    /** The position of the phase in the quarter. */
    function Rank(): nat
    {
      match this
      case Accumulation => 0
      case Manipulation => 1
      case Distribution => 2
      case Rebalance => 3
    }
  }

  /** `((month - 1) // 3) * 3 + 1`: the first month of the quarter. */
  function QuarterStartMonth(month: int): (start: int)
    requires 1 <= month <= 12
    ensures start == 1 || start == 4 || start == 7 || start == 10
    ensures start <= month <= start + 2
  {
    ((month - 1) / 3) * 3 + 1
  }

  /** The days of the months `first` up to, but not including, `stop`. */
  function DaysOfMonths(year: int, first: int, stop: int): (n: int)
    requires 1 <= first <= stop <= 13
    ensures 28 * (stop - first) <= n <= 31 * (stop - first)
    decreases stop - first
  {
    if first == stop then 0 else DaysInMonth(year, first) + DaysOfMonths(year, first + 1, stop)
  }

  /** `(now - quarter_start).days`: whole days since the first day of the
      quarter; the time of day never adds a day, as the quarter starts at
      midnight. */
  function DaysInQuarter(today: Date): int
    requires ValidDate(today)
  {
    DaysOfMonths(today.year, QuarterStartMonth(today.month), today.month) + today.day - 1
  }

  /** At most two whole months and a partial third lie behind any date of a
      quarter, so the count is between 0 and 91 (reached on 30 September and
      31 December). */
  lemma DaysInQuarterBounds(today: Date)
    requires ValidDate(today)
    ensures 0 <= DaysInQuarter(today) <= 91
    ensures today.month == 12 && today.day == 31 ==> DaysInQuarter(today) == 91
  {
    var start := QuarterStartMonth(today.month);
    if today.month == start + 2 {
      assert DaysOfMonths(today.year, start + 2, today.month) == 0;
      assert DaysOfMonths(today.year, start + 1, today.month) == DaysInMonth(today.year, start + 1);
    } else if today.month == start + 1 {
      assert DaysOfMonths(today.year, start + 1, today.month) == 0;
    }
  }

  /** The if/elif chain on the day count: a quarter of 90 days in bands of
      22.5, 45 and 67.5 days, each bound inclusive. */
  function PhaseOf(days: int): Phase
  {
    if days as real <= 0.25 * 90.0 then Accumulation
    else if days as real <= 0.5 * 90.0 then Manipulation
    else if days as real <= 0.75 * 90.0 then Distribution
    else Rebalance
  }

  /** The phase of the day count `d`, band by band; on whole days the
      bands are 0-22, 23-45, 46-67 and 68 on. */
  lemma PhaseBands(days: int)
    ensures PhaseOf(days) == Accumulation <==> days as real <= 22.5
    ensures PhaseOf(days) == Manipulation <==> 22.5 < days as real <= 45.0
    ensures PhaseOf(days) == Distribution <==> 45.0 < days as real <= 67.5
    ensures PhaseOf(days) == Rebalance <==> 67.5 < days as real
    ensures PhaseOf(days) == Accumulation <==> days <= 22
    ensures PhaseOf(days) == Rebalance <==> days >= 68
  {
  }

  /** Later in the quarter never means an earlier phase. */
  lemma PhaseMonotone(d1: int, d2: int)
    requires d1 <= d2
    ensures PhaseOf(d1).Rank() <= PhaseOf(d2).Rank()
  {
  }

  /** `get_current_market_phase` with today's UTC date passed in. */
  function CurrentPhase(today: Date): string
    requires ValidDate(today)
  {
    PhaseOf(DaysInQuarter(today)).Name()
  }

  /** The quarter's first day is accumulation; 1 March (59 days in) is
      distribution; from 9 March of a common year (67 days in) the band
      boundary 67.5 is passed on the 10th, and 31 March is rebalance. */
  lemma CurrentPhaseExamples()
    ensures CurrentPhase(Date(2025, 1, 1)) == "Q1_Accumulation"
    ensures CurrentPhase(Date(2025, 3, 1)) == "Q3_Distribution"
    ensures CurrentPhase(Date(2025, 3, 9)) == "Q3_Distribution"
    ensures CurrentPhase(Date(2025, 3, 10)) == "Q4_Rebalance"
    ensures CurrentPhase(Date(2024, 3, 9)) == "Q4_Rebalance"
  {
    assert DaysOfMonths(2025, 1, 3) == 59;
    assert DaysOfMonths(2024, 1, 3) == 60;
  }
}
