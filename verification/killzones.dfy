/** The killzone table of the older analysis suite (`KillzoneManager`):
    which trading window the current UTC time falls in, how long it still
    lasts, and which window is announced as the next one. */
module Killzones {
  import opened PySemantics
  import opened MarketData

  datatype Zone = Asia | London | NyAm | NyLunch | NyPm
  {
    function Name(): string
    {
      match this
      case Asia => "asia"
      case London => "london"
      case NyAm => "ny_am"
      case NyLunch => "ny_lunch"
      case NyPm => "ny_pm"
    }
  }

  datatype Priority = Low | Medium | High
  {
    function Name(): string
    {
      match this
      case Low => "low"
      case Medium => "medium"
      case High => "high"
    }
  }

  /** One table entry: the window `start <= t <= end` (both inclusive). */
  datatype ZoneConfig = ZoneConfig(zone: Zone, start: int, end: int, priority: Priority)

  /** `KILLZONES`, in declaration order, which is the order it is scanned in. */
  const Table: seq<ZoneConfig> := [
    ZoneConfig(Asia, Clock(20, 0, 0), Clock(23, 59, 0), Low),
    ZoneConfig(London, Clock(2, 0, 0), Clock(5, 0, 0), High),
    ZoneConfig(NyAm, Clock(14, 30, 0), Clock(16, 0, 0), High),
    ZoneConfig(NyLunch, Clock(17, 0, 0), Clock(18, 0, 0), Medium),
    ZoneConfig(NyPm, Clock(18, 30, 0), Clock(21, 0, 0), Medium)]

  predicate InZone(c: ZoneConfig, t: int)
  {
    c.start <= t <= c.end
  }

  /** The index of the first entry at or after `i` whose window holds `t`,
      or `|table|` when there is none. */
  function FirstContaining(table: seq<ZoneConfig>, t: int, i: nat): (r: nat)
    requires i <= |table|
    ensures i <= r <= |table|
    ensures r < |table| ==> InZone(table[r], t)
    ensures forall k :: i <= k < r ==> !InZone(table[k], t)
    decreases |table| - i
  {
    if i == |table| then |table|
    else if InZone(table[i], t) then i
    else FirstContaining(table, t, i + 1)
  }

  /** The zone `get_killzone_info` reports: the first table entry holding the time. */
  function CurrentEntry(t: TimeOfDay): Option<ZoneConfig>
  {
    var i := FirstContaining(Table, t, 0);
    if i < |Table| then Some(Table[i]) else None
  }

  /** The zone the scan for the next session stops at: the first entry whose
      start lies strictly after the time, or Asia when none does. */
  function NextAfter(table: seq<ZoneConfig>, t: int): Zone
  {
    if table == [] then Asia
    else if t < table[0].start then table[0].zone
    else NextAfter(table[1..], t)
  }

  /** `_get_next`: the loop with its early return. */
  method GetNext(t: TimeOfDay) returns (z: Zone)
    ensures z == NextAfter(Table, t)
  {
    var i := 0;
    while i < |Table|
      invariant 0 <= i <= |Table|
      invariant NextAfter(Table[i..], t) == NextAfter(Table, t)
    {
      assert Table[i..][1..] == Table[i + 1..];
      if t < Table[i].start {
        return Table[i].zone;
      }
      i := i + 1;
    }
    return Asia;
  }

  /** Asia is scanned first and starts later (20:00) than every other zone,
      so the announced next session is Asia at every time of day; at 01:00,
      say, it is Asia and not London. */
  lemma NextIsAlwaysAsia(t: TimeOfDay)
    ensures NextAfter(Table, t) == Asia
  {
    if Clock(20, 0, 0) <= t {
      // Every start is at or before 20:00, so the scan runs off the table.
      forall k | 1 <= k <= 4
        ensures NextAfter(Table[k..], t) == NextAfter(Table[k + 1..], t)
      {
        assert Table[k..][0] == Table[k] && Table[k..][1..] == Table[k + 1..];
      }
      assert Table[5..] == [];
    }
  }

  /** `divmod(remaining.seconds, 3600)` and the minutes of the rest, where
      `remaining = end - now` on the same day: a `timedelta` keeps its
      seconds in [0, 86400), and its microseconds apart. */
  function RemainingParts(t: TimeOfDay, end: int): (hm: (nat, nat))
    ensures hm.1 < 60
    ensures 0 <= end - t < MicrosPerDay ==>
      (hm.0 * 3600 + hm.1 * 60) * MicrosPerSecond <= end - t < (hm.0 * 3600 + hm.1 * 60 + 60) * MicrosPerSecond
  {
    var seconds := ((end - t) % MicrosPerDay) / MicrosPerSecond;
    (seconds / 3600, (seconds % 3600) / 60)
  }

  /** `_calc_remaining`: "Market closed" outside every zone, else the time
      to the end of the zone as `"<hours>h <minutes>m"`. */
  function CalcRemaining(t: TimeOfDay, current: Option<ZoneConfig>): string
  {
    match current
    case None => "Market closed"
    case Some(c) =>
      var (hours, minutes) := RemainingParts(t, c.end);
      Str(hours) + "h " + Str(minutes) + "m"
  }

  /** Inside a zone the reported remaining time rounds the distance to its
      end down to the minute, and never exceeds the zone's length. */
  lemma RemainingWithinZone(t: TimeOfDay, c: ZoneConfig)
    requires c in Table && InZone(c, t)
    ensures var (hours, minutes) := RemainingParts(t, c.end);
      (hours * 3600 + minutes * 60) * MicrosPerSecond <= c.end - t <= c.end - c.start
  {
  }

  /** What `get_killzone_info` returns. */
  datatype KillzoneInfo = KillzoneInfo(current: Option<Zone>, timeRemaining: string, nextSession: string, priority: Priority)

  /** `get_killzone_info` with the clock passed in: the scan with `break`,
      then the remaining time and the next session. */
  method GetKillzoneInfo(t: TimeOfDay) returns (info: KillzoneInfo)
    ensures CurrentEntry(t).None? ==>
      info.current.None? && info.priority == Low && info.timeRemaining == "Market closed"
    ensures CurrentEntry(t).Some? ==>
      info.current == Some(CurrentEntry(t).value.zone) && info.priority == CurrentEntry(t).value.priority
    ensures info.timeRemaining == CalcRemaining(t, CurrentEntry(t))
    ensures info.nextSession == NextAfter(Table, t).Name()
  {
    var current: Option<ZoneConfig> := None;
    var priority := Low;
    var i := 0;
    while i < |Table|
      invariant 0 <= i <= |Table|
      invariant current.None? && priority == Low
      invariant FirstContaining(Table, t, 0) == FirstContaining(Table, t, i)
    {
      if InZone(Table[i], t) {
        current := Some(Table[i]);
        priority := Table[i].priority;
        break;
      }
      i := i + 1;
    }
    var next := GetNext(t);
    info := KillzoneInfo(if current.Some? then Some(current.value.zone) else None,
                         CalcRemaining(t, current), next.Name(), priority);
  }

  /** The first match wins: during 20:00-21:00 both Asia and the New York
      afternoon hold the time, and Asia is reported. */
  lemma AsiaWinsOverNyPm(t: TimeOfDay)
    requires Clock(20, 0, 0) <= t <= Clock(21, 0, 0)
    ensures InZone(Table[4], t) && Table[4].zone == NyPm
    ensures CurrentEntry(t) == Some(Table[0]) && Table[0].zone == Asia
  {
  }

  /** The market counts as closed exactly before 02:00, between 05:00 and
      14:30, between 16:00 and 17:00, between 18:00 and 18:30, and after
      23:59 (all bounds exclusive). */
  lemma ClosedExactly(t: TimeOfDay)
    ensures CurrentEntry(t).None? <==>
      t < Clock(2, 0, 0) ||
      (Clock(5, 0, 0) < t < Clock(14, 30, 0)) ||
      (Clock(16, 0, 0) < t < Clock(17, 0, 0)) ||
      (Clock(18, 0, 0) < t < Clock(18, 30, 0)) ||
      Clock(23, 59, 0) < t
  {
    var i := FirstContaining(Table, t, 0);
    if i == |Table| {
      assert !InZone(Table[0], t) && !InZone(Table[1], t) && !InZone(Table[2], t);
      assert !InZone(Table[3], t) && !InZone(Table[4], t);
    }
  }
}
