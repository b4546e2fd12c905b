/** The detector settings store (`SettingsManager`): one shared object
    holding nine named settings, created with fixed defaults, updated by
    keyword and read back as a dictionary. */
module SettingsStore {
  import opened PySemantics
  import LegacyDetectors

  /** A Python value as `setattr` stores it: the attributes are untyped, so
      any of these can end up in any setting. */
  datatype Setting = RealSetting(r: real) | IntSetting(i: int) | IntListSetting(xs: seq<int>) | TextSetting(s: string)

  /** The nine attribute names, in the order `to_dict` lists them. */
  const Keys: seq<string> := [
    "min_divergence_threshold", "lookback_period", "swing_threshold", "lookback_swings",
    "min_block_size", "volume_threshold", "min_fvg_gap_size", "quarterly_months", "monthly_bias_days"]

  /** The nine attribute values. */
  datatype Settings = Settings(
    minDivergenceThreshold: Setting,
    lookbackPeriod: Setting,
    swingThreshold: Setting,
    lookbackSwings: Setting,
    minBlockSize: Setting,
    volumeThreshold: Setting,
    minFvgGapSize: Setting,
    quarterlyMonths: Setting,
    monthlyBiasDays: Setting)

  /** The values `_init_defaults` assigns. */
  const Defaults := Settings(
    RealSetting(0.5), IntSetting(20), RealSetting(0.5), IntSetting(5), RealSetting(0.3),
    RealSetting(1.5), RealSetting(0.2), IntListSetting([1, 4, 7, 10]), IntListSetting([1, 2, 3]))

  /** The nine settings. */
  datatype Key =
    | MinDivergenceThreshold | LookbackPeriod | SwingThreshold | LookbackSwings | MinBlockSize
    | VolumeThreshold | MinFvgGapSize | QuarterlyMonths | MonthlyBiasDays
  {
    /** The attribute name. */
    function Name(): string
    {
      match this
      case MinDivergenceThreshold => "min_divergence_threshold"
      case LookbackPeriod => "lookback_period"
      case SwingThreshold => "swing_threshold"
      case LookbackSwings => "lookback_swings"
      case MinBlockSize => "min_block_size"
      case VolumeThreshold => "volume_threshold"
      case MinFvgGapSize => "min_fvg_gap_size"
      case QuarterlyMonths => "quarterly_months"
      case MonthlyBiasDays => "monthly_bias_days"
    }
  }

  /** `hasattr(s, name)` for a setting: the setting with that attribute name. */
  function KeyNamed(name: string): (r: Option<Key>)
    ensures r.Some? <==> name in Keys
    ensures r.Some? ==> r.value.Name() == name
  {
    if name == Keys[0] then Some(MinDivergenceThreshold)
    else if name == Keys[1] then Some(LookbackPeriod)
    else if name == Keys[2] then Some(SwingThreshold)
    else if name == Keys[3] then Some(LookbackSwings)
    else if name == Keys[4] then Some(MinBlockSize)
    else if name == Keys[5] then Some(VolumeThreshold)
    else if name == Keys[6] then Some(MinFvgGapSize)
    else if name == Keys[7] then Some(QuarterlyMonths)
    else if name == Keys[8] then Some(MonthlyBiasDays)
    else None
  }

  /** Every setting is found under its own name. */
  lemma KeyNamedName(k: Key)
    ensures k.Name() in Keys && KeyNamed(k.Name()) == Some(k)
  {
    var r := KeyNamed(k.Name());
    assert k.Name() in Keys;
    match k
    case MinDivergenceThreshold =>
    case LookbackPeriod =>
    case SwingThreshold =>
    case LookbackSwings =>
    case MinBlockSize =>
    case VolumeThreshold =>
    case MinFvgGapSize =>
    case QuarterlyMonths =>
    case MonthlyBiasDays =>
  }

  /** The value of one setting. */
  function Field(s: Settings, k: Key): Setting
  {
    match k
    case MinDivergenceThreshold => s.minDivergenceThreshold
    case LookbackPeriod => s.lookbackPeriod
    case SwingThreshold => s.swingThreshold
    case LookbackSwings => s.lookbackSwings
    case MinBlockSize => s.minBlockSize
    case VolumeThreshold => s.volumeThreshold
    case MinFvgGapSize => s.minFvgGapSize
    case QuarterlyMonths => s.quarterlyMonths
    case MonthlyBiasDays => s.monthlyBiasDays
  }

  /** The settings with one setting replaced. */
  function WithField(s: Settings, k: Key, v: Setting): Settings
  {
    match k
    case MinDivergenceThreshold => s.(minDivergenceThreshold := v)
    case LookbackPeriod => s.(lookbackPeriod := v)
    case SwingThreshold => s.(swingThreshold := v)
    case LookbackSwings => s.(lookbackSwings := v)
    case MinBlockSize => s.(minBlockSize := v)
    case VolumeThreshold => s.(volumeThreshold := v)
    case MinFvgGapSize => s.(minFvgGapSize := v)
    case QuarterlyMonths => s.(quarterlyMonths := v)
    case MonthlyBiasDays => s.(monthlyBiasDays := v)
  }

  /** Replacing one setting changes that one and no other. */
  lemma FieldWithField(s: Settings, k: Key, v: Setting, other: Key)
    ensures Field(WithField(s, k, v), other) == if other == k then v else Field(s, other)
  {
  }

  /** `getattr(s, key)` for a setting name; None where `hasattr` is false. */
  function Get(s: Settings, key: string): (r: Option<Setting>)
    ensures r.Some? <==> key in Keys
  {
    if KeyNamed(key).Some? then Some(Field(s, KeyNamed(key).value)) else None
  }

  /** Reading a setting by its attribute name gives that setting's value. */
  lemma GetField(s: Settings, k: Key)
    ensures Get(s, k.Name()) == Some(Field(s, k))
  {
    KeyNamedName(k);
  }

  /** One step of `update`: `setattr(s, key, value)` when `hasattr(s, key)`,
      nothing otherwise. */
  function Set(s: Settings, key: string, v: Setting): Settings
  {
    if KeyNamed(key).Some? then WithField(s, KeyNamed(key).value, v) else s
  }

  /** Setting a name changes that attribute to the value and no other; an
      unknown name changes nothing. */
  lemma GetSet(s: Settings, key: string, v: Setting, other: string)
    ensures Get(Set(s, key, v), other) ==
      if other == key && key in Keys then Some(v) else Get(s, other)
  {
    var k := KeyNamed(key);
    var o := KeyNamed(other);
    if k.Some? && o.Some? {
      FieldWithField(s, k.value, v, o.value);
    }
  }

  /** Two settings with the same nine values are the same. */
  lemma SameValues(a: Settings, b: Settings)
    requires forall k: Key :: Field(a, k) == Field(b, k)
    ensures a == b
  {
    assert Field(a, MinDivergenceThreshold) == Field(b, MinDivergenceThreshold);
    assert Field(a, LookbackPeriod) == Field(b, LookbackPeriod);
    assert Field(a, SwingThreshold) == Field(b, SwingThreshold);
    assert Field(a, LookbackSwings) == Field(b, LookbackSwings);
    assert Field(a, MinBlockSize) == Field(b, MinBlockSize);
    assert Field(a, VolumeThreshold) == Field(b, VolumeThreshold);
    assert Field(a, MinFvgGapSize) == Field(b, MinFvgGapSize);
    assert Field(a, QuarterlyMonths) == Field(b, QuarterlyMonths);
    assert Field(a, MonthlyBiasDays) == Field(b, MonthlyBiasDays);
  }

  /** `update(**kwargs)`: the keyword arguments in order, each applied by `Set`. */
  function Applied(s: Settings, kwargs: seq<(string, Setting)>): Settings
  {
    if kwargs == [] then s
    else Set(Applied(s, kwargs[..|kwargs| - 1]), Last(kwargs).0, Last(kwargs).1)
  }

  /** The value the keyword arguments give a name: the last one passed for it. */
  function Passed(kwargs: seq<(string, Setting)>, key: string): (r: Option<Setting>)
    ensures r.Some? <==> exists i :: 0 <= i < |kwargs| && kwargs[i].0 == key
    ensures r.Some? ==> (key, r.value) in kwargs
  {
    if kwargs == [] then None
    else if Last(kwargs).0 == key then Some(Last(kwargs).1)
    else
      var r := Passed(kwargs[..|kwargs| - 1], key);
      assert forall i :: 0 <= i < |kwargs| - 1 ==> kwargs[..|kwargs| - 1][i] == kwargs[i];
      r
  }

  /** After `update`, a setting holds the value passed for it; a setting not
      passed, and every name that is not a setting, keeps what it had. */
  lemma {:induction false} AppliedGet(s: Settings, kwargs: seq<(string, Setting)>, key: string)
    ensures Get(Applied(s, kwargs), key) ==
      if key in Keys && Passed(kwargs, key).Some? then Passed(kwargs, key) else Get(s, key)
  {
    if kwargs != [] {
      AppliedGet(s, kwargs[..|kwargs| - 1], key);
      GetSet(Applied(s, kwargs[..|kwargs| - 1]), Last(kwargs).0, Last(kwargs).1, key);
    }
  }

  /** An update whose names are none of the nine settings changes nothing. */
  lemma UnknownKeysIgnored(s: Settings, kwargs: seq<(string, Setting)>)
    requires forall i :: 0 <= i < |kwargs| ==> kwargs[i].0 !in Keys
    ensures Applied(s, kwargs) == s
  {
    forall k: Key ensures Field(Applied(s, kwargs), k) == Field(s, k) {
      KeyNamedName(k);
      AppliedGet(s, kwargs, k.Name());
    }
    SameValues(Applied(s, kwargs), s);
  }

  /** Applying the same update twice leaves the settings as applying it once. */
  lemma UpdateIdempotent(s: Settings, kwargs: seq<(string, Setting)>)
    ensures Applied(Applied(s, kwargs), kwargs) == Applied(s, kwargs)
  {
    var once := Applied(s, kwargs);
    forall k: Key ensures Field(Applied(once, kwargs), k) == Field(once, k) {
      KeyNamedName(k);
      AppliedGet(once, kwargs, k.Name());
      AppliedGet(s, kwargs, k.Name());
    }
    SameValues(Applied(once, kwargs), once);
  }

  /** The names of the fields of the settings-update request, which the
      settings endpoint passes on to `update`. */
  const RequestKeys: seq<string> := [
    "smt_strength_threshold", "killzone_priorities", "refresh_interval", "max_signals_display",
    "divergence_threshold", "confirmation_candles", "volume_multiplier",
    "london_open", "ny_open", "asia_open"]

  /** None of the request's names is a setting of the store (the request
      says `divergence_threshold`, the store `min_divergence_threshold`), so
      an update built from a request leaves every setting as it was. */
  lemma RequestUpdateChangesNothing(s: Settings, kwargs: seq<(string, Setting)>)
    requires forall i :: 0 <= i < |kwargs| ==> kwargs[i].0 in RequestKeys
    ensures Applied(s, kwargs) == s
  {
    UnknownKeysIgnored(s, kwargs);
  }

  /** The settings as the legacy detectors read them, when every attribute
      still has the type its default has. */
  function DetectorView(s: Settings): (r: Option<LegacyDetectors.DetectorSettings>)
    ensures r.Some? <==>
      s.minDivergenceThreshold.RealSetting? && s.lookbackPeriod.IntSetting? &&
      s.swingThreshold.RealSetting? && s.lookbackSwings.IntSetting? &&
      s.minBlockSize.RealSetting? && s.volumeThreshold.RealSetting? && s.minFvgGapSize.RealSetting? &&
      s.quarterlyMonths.IntListSetting? && s.monthlyBiasDays.IntListSetting?
    ensures r.Some? ==>
      Get(s, "lookback_period") == Some(IntSetting(r.value.lookbackPeriod)) &&
      Get(s, "min_divergence_threshold") == Some(RealSetting(r.value.minDivergenceThreshold)) &&
      Get(s, "quarterly_months") == Some(IntListSetting(r.value.quarterlyMonths))
  {
    if s.minDivergenceThreshold.RealSetting? && s.lookbackPeriod.IntSetting? &&
       s.swingThreshold.RealSetting? && s.lookbackSwings.IntSetting? &&
       s.minBlockSize.RealSetting? && s.volumeThreshold.RealSetting? && s.minFvgGapSize.RealSetting? &&
       s.quarterlyMonths.IntListSetting? && s.monthlyBiasDays.IntListSetting?
    then
      Some(LegacyDetectors.DetectorSettings(
        s.minDivergenceThreshold.r, s.lookbackPeriod.i, s.swingThreshold.r, s.lookbackSwings.i,
        s.minBlockSize.r, s.volumeThreshold.r, s.minFvgGapSize.r,
        s.quarterlyMonths.xs, s.monthlyBiasDays.xs))
    else None
  }

  /** The value the detectors' view holds for one setting. */
  function ViewValue(v: LegacyDetectors.DetectorSettings, k: Key): Setting
  {
    match k
    case MinDivergenceThreshold => RealSetting(v.minDivergenceThreshold)
    case LookbackPeriod => IntSetting(v.lookbackPeriod)
    case SwingThreshold => RealSetting(v.swingThreshold)
    case LookbackSwings => IntSetting(v.lookbackSwings)
    case MinBlockSize => RealSetting(v.minBlockSize)
    case VolumeThreshold => RealSetting(v.volumeThreshold)
    case MinFvgGapSize => RealSetting(v.minFvgGapSize)
    case QuarterlyMonths => IntListSetting(v.quarterlyMonths)
    case MonthlyBiasDays => IntListSetting(v.monthlyBiasDays)
  }

  /** Every one of the nine fields of the detectors' view is the stored
      value of the setting of that name, so the detectors read exactly what
      `update` last wrote. */
  lemma DetectorViewReads(s: Settings, k: Key)
    requires DetectorView(s).Some?
    ensures Get(s, k.Name()) == Some(ViewValue(DetectorView(s).value, k))
  {
    GetField(s, k);
  }

  /** The store's defaults are the detector defaults, field by field. */
  lemma DefaultsAreDetectorDefaults()
    ensures DetectorView(Defaults) == Some(LegacyDetectors.DefaultDetectorSettings)
  {
  }

  /** `to_dict`: the nine names, in order, each with its current value. */
  function DictOf(s: Settings): (d: seq<(string, Setting)>)
    ensures |d| == |Keys|
    ensures forall i :: 0 <= i < |d| ==> d[i].0 == Keys[i] && Get(s, Keys[i]) == Some(d[i].1)
  {
    [(Keys[0], s.minDivergenceThreshold), (Keys[1], s.lookbackPeriod), (Keys[2], s.swingThreshold),
     (Keys[3], s.lookbackSwings), (Keys[4], s.minBlockSize), (Keys[5], s.volumeThreshold),
     (Keys[6], s.minFvgGapSize), (Keys[7], s.quarterlyMonths), (Keys[8], s.monthlyBiasDays)]
  }

  /** The nine names are distinct, so the dictionary has exactly nine keys. */
  lemma KeysDistinct()
    ensures |Keys| == 9
    ensures forall i, j :: 0 <= i < j < |Keys| ==> Keys[i] != Keys[j]
  {
  }

  /** The dictionary determines the settings: reading it back gives them. */
  lemma ToDictDetermines(a: Settings, b: Settings)
    requires DictOf(a) == DictOf(b)
    ensures a == b
  {
    forall i | 0 <= i < |Keys| ensures DictOf(a)[i].1 == DictOf(b)[i].1 {
    }
  }

  /** The shared settings object. */
  class SettingsManager {
    var minDivergenceThreshold: Setting
    var lookbackPeriod: Setting
    var swingThreshold: Setting
    var lookbackSwings: Setting
    var minBlockSize: Setting
    var volumeThreshold: Setting
    var minFvgGapSize: Setting
    var quarterlyMonths: Setting
    var monthlyBiasDays: Setting

    /** The nine attributes as one value. */
    function State(): Settings
      reads this
    {
      Settings(minDivergenceThreshold, lookbackPeriod, swingThreshold, lookbackSwings,
               minBlockSize, volumeThreshold, minFvgGapSize, quarterlyMonths, monthlyBiasDays)
    }

    /** A fresh object with `_init_defaults` applied. */
    constructor ()
      ensures State() == Defaults
    {
      minDivergenceThreshold := RealSetting(0.5);
      lookbackPeriod := IntSetting(20);
      swingThreshold := RealSetting(0.5);
      lookbackSwings := IntSetting(5);
      minBlockSize := RealSetting(0.3);
      volumeThreshold := RealSetting(1.5);
      minFvgGapSize := RealSetting(0.2);
      quarterlyMonths := IntListSetting([1, 4, 7, 10]);
      monthlyBiasDays := IntListSetting([1, 2, 3]);
    }

    /** `to_dict`. */
    function ToDict(): (d: seq<(string, Setting)>)
      reads this
      ensures d == DictOf(State())
    {
      [(Keys[0], minDivergenceThreshold), (Keys[1], lookbackPeriod), (Keys[2], swingThreshold),
       (Keys[3], lookbackSwings), (Keys[4], minBlockSize), (Keys[5], volumeThreshold),
       (Keys[6], minFvgGapSize), (Keys[7], quarterlyMonths), (Keys[8], monthlyBiasDays)]
    }

    /** `setattr(self, key, value)` for one of the nine names. */
    method SetAttr(key: string, value: Setting)
      requires key in Keys
      modifies this
      ensures State() == Set(old(State()), key, value)
    {
      match KeyNamed(key).value
      case MinDivergenceThreshold => minDivergenceThreshold := value;
      case LookbackPeriod => lookbackPeriod := value;
      case SwingThreshold => swingThreshold := value;
      case LookbackSwings => lookbackSwings := value;
      case MinBlockSize => minBlockSize := value;
      case VolumeThreshold => volumeThreshold := value;
      case MinFvgGapSize => minFvgGapSize := value;
      case QuarterlyMonths => quarterlyMonths := value;
      case MonthlyBiasDays => monthlyBiasDays := value;
    }

    /** `update`: for each keyword argument in order, assign it when the
        object has an attribute of that name. */
    method Update(kwargs: seq<(string, Setting)>)
      modifies this
      ensures State() == Applied(old(State()), kwargs)
    {
      for i := 0 to |kwargs|
        invariant State() == Applied(old(State()), kwargs[..i])
      {
        var (key, value) := kwargs[i];
        assert kwargs[..i + 1][..i] == kwargs[..i];
        if key in Keys {
          SetAttr(key, value);
        }
      }
      assert kwargs[..|kwargs|] == kwargs;
    }
  }

  /** The class attribute `_instance`: empty until the first construction. */
  class SettingsRegistry {
    var instance: SettingsManager?

    constructor ()
      ensures instance == null
    {
      instance := null;
    }

    /** `SettingsManager()`: the first call creates the object with the
        defaults and keeps it; every later call returns that same object,
        its settings untouched. */
    method Instance() returns (m: SettingsManager)
      modifies this
      ensures instance == m
      ensures old(instance) == null ==> fresh(m) && m.State() == Defaults
      ensures old(instance) != null ==> m == old(instance) && m.State() == old(instance.State())
    {
      if instance == null {
        instance := new SettingsManager();
      }
      m := instance;
    }
  }
}
