/** The two market-state classifiers of the data collectors: one compares
    the time with 14:30 and 21:00 (`MarketDataCollector._get_market_state`),
    the other looks only at the hour (`MarketCollector._market_state`). */
module MarketState {
  import opened MarketData

  datatype State = PreMarket | MarketHours | AfterMarket
  {
    function Name(): string
    {
      match this
      case PreMarket => "pre_market"
      case MarketHours => "market_hours"
      case AfterMarket => "after_market"
    }
  }

  /** `_get_market_state` with the UTC time of day passed in: the session
      is 14:30:00 to 21:00:00, both instants included. */
  function StateByTime(t: TimeOfDay): State
  {
    var open, close := Clock(14, 30, 0), Clock(21, 0, 0);
    if open <= t <= close then MarketHours
    else if t < open then PreMarket
    else AfterMarket
  }

  /** Market hours exactly from 14:30:00 to 21:00:00 inclusive, pre-market
      before, after-market from the first microsecond past 21:00:00. */
  lemma StateByTimeBands(t: TimeOfDay)
    ensures StateByTime(t) == MarketHours <==> Clock(14, 30, 0) <= t <= Clock(21, 0, 0)
    ensures StateByTime(t) == PreMarket <==> t < Clock(14, 30, 0)
    ensures StateByTime(t) == AfterMarket <==> Clock(21, 0, 0) < t
    ensures StateByTime(Clock(21, 0, 0) + 1) == AfterMarket
  {
  }

  /** `_market_state` with the UTC time of day passed in: market hours for
      the hours 14 to 21, pre-market before. */
  function StateByHour(t: TimeOfDay): State
  {
    var hour := HourOf(t);
    if 14 <= hour <= 21 then MarketHours else if hour < 14 then PreMarket else AfterMarket
  }

  /** The hour classifier depends on the hour alone: market hours run from
      14:00:00 to the end of 21:59:59, pre-market before, and after-market
      is the hours 22 and 23. */
  lemma StateByHourBands(t: TimeOfDay, u: TimeOfDay)
    ensures HourOf(t) == HourOf(u) ==> StateByHour(t) == StateByHour(u)
    ensures StateByHour(t) == MarketHours <==> Clock(14, 0, 0) <= t < Clock(22, 0, 0)
    ensures StateByHour(t) == PreMarket <==> t < Clock(14, 0, 0)
    ensures StateByHour(t) == AfterMarket <==> Clock(22, 0, 0) <= t
    ensures StateByHour(t) == AfterMarket <==> HourOf(t) == 22 || HourOf(t) == 23
  {
  }

  /** The two classifiers agree except from 14:00 to just before 14:30
      (pre-market against market hours) and after 21:00:00 up to 22:00
      (after-market against market hours). */
  lemma ClassifiersDisagree(t: TimeOfDay)
    ensures StateByTime(t) != StateByHour(t) <==>
      (Clock(14, 0, 0) <= t < Clock(14, 30, 0)) || (Clock(21, 0, 0) < t < Clock(22, 0, 0))
    ensures Clock(14, 0, 0) <= t < Clock(14, 30, 0) ==>
      StateByTime(t) == PreMarket && StateByHour(t) == MarketHours
    ensures Clock(21, 0, 0) < t < Clock(22, 0, 0) ==>
      StateByTime(t) == AfterMarket && StateByHour(t) == MarketHours
  {
    StateByTimeBands(t);
    StateByHourBands(t, t);
  }
}
