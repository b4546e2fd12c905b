/** The settings endpoint's schemas: the update request, whose numeric
    fields carry inclusive bounds and whose priorities and opening times are
    checked after construction, and the response with its defaults. */
module SettingsSchema {
  import opened PySemantics

  // ---------------------------------------------------------------------
  // Opening times, `datetime.strptime(value, '%H:%M')`

  /** What `%H` matches: one digit, or two digits from 00 to 23. */
  predicate HourField(h: string)
  {
    (|h| == 1 && IsDigit(h[0])) ||
    (|h| == 2 && (h[0] == '0' || h[0] == '1') && IsDigit(h[1])) ||
    (|h| == 2 && h[0] == '2' && '0' <= h[1] <= '3')
  }

  /** What `%M` matches: one digit, or two digits from 00 to 59. */
  predicate MinuteField(m: string)
  {
    (|m| == 1 && IsDigit(m[0])) ||
    (|m| == 2 && '0' <= m[0] <= '5' && IsDigit(m[1]))
  }

  /** The value of a string of one or two digits. */
  function SmallValue(s: string): (n: nat)
    requires 1 <= |s| <= 2 && IsDigit(s[0]) && IsDigit(Last(s))
    ensures n < 100
    ensures |s| == 1 ==> n == DigitValue(s[0])
    ensures |s| == 2 ==> n == 10 * DigitValue(s[0]) + DigitValue(s[1])
  {
    if |s| == 1 then
      assert s[..0] == [] && Last(s) == s[0];
      assert DecimalValue(s) == DecimalValue(s[..0]) * 10 + DigitValue(s[0]);
      DecimalValue(s)
    else
      assert s[..1] == [s[0]] && s[..1][..0] == [];
      assert DecimalValue(s[..1]) == DigitValue(s[0]);
      DecimalValue(s)
  }

  /** `strptime` with `%H:%M`: the whole string must be an hour field, a
      colon and a minute field; the result is the hour and the minute. */
  function ParseTime(s: string): (r: Option<(int, int)>)
    ensures r.Some? ==> 0 <= r.value.0 < 24 && 0 <= r.value.1 < 60
  {
    var colon := if |s| >= 2 && s[1] == ':' then 1 else 2;
    if |s| <= colon || s[colon] != ':' then None
    else
      var h, m := s[..colon], s[colon + 1..];
      if HourField(h) && MinuteField(m) then Some((SmallValue(h), SmallValue(m))) else None
  }

  /** A time is accepted exactly when it splits at some colon into an hour
      field and a minute field, and then it reads as those two numbers. */
  lemma ParseTimeGrammar(s: string)
    ensures ParseTime(s).Some? <==>
      exists i :: 0 <= i < |s| && s[i] == ':' && HourField(s[..i]) && MinuteField(s[i + 1..])
    ensures forall i :: 0 <= i < |s| && s[i] == ':' && HourField(s[..i]) && MinuteField(s[i + 1..]) ==>
      ParseTime(s) == Some((SmallValue(s[..i]), SmallValue(s[i + 1..])))
  {
    forall i | 0 <= i < |s| && s[i] == ':' && HourField(s[..i]) && MinuteField(s[i + 1..])
      ensures ParseTime(s) == Some((SmallValue(s[..i]), SmallValue(s[i + 1..])))
    {
      assert i == 1 || i == 2;
      if i == 2 {
        assert s[1] == s[..i][1];
      }
    }
  }

  /** Two digits with a leading zero, as `%02d` writes them. */
  function TwoDigits(n: nat): (s: string)
    requires n < 100
    ensures |s| == 2 && IsDigit(s[0]) && IsDigit(s[1])
  {
    [DigitChar(n / 10), DigitChar(n % 10)]
  }

  /** `f"{h:02d}:{m:02d}"`. */
  function FormatTime(h: nat, m: nat): string
    requires h < 24 && m < 60
  {
    TwoDigits(h) + ":" + TwoDigits(m)
  }

  /** Every time of day written as HH:MM is accepted and reads back as the
      same hour and minute. */
  lemma FormatTimeRoundTrip(h: nat, m: nat)
    requires h < 24 && m < 60
    ensures ParseTime(FormatTime(h, m)) == Some((h, m))
  {
    var s := FormatTime(h, m);
    assert s[..2] == TwoDigits(h) && s[3..] == TwoDigits(m);
  }

  /** Hours past 23 are rejected; single digits and the defaults are read. */
  lemma ParseTimeExamples()
    ensures ParseTime("24:00").None?
    ensures ParseTime("12:345").None?
    ensures ParseTime("7:5") == Some((7, 5))
    ensures ParseTime("08:00") == Some((8, 0))
    ensures ParseTime("13:30") == Some((13, 30))
  {
    assert "24:00"[..2] == "24";
    assert "12:345"[3..] == "345";
    assert "7:5"[..1] == "7" && "7:5"[2..] == "5";
    assert "08:00"[..2] == "08" && "08:00"[3..] == "00";
    assert "13:30"[..2] == "13" && "13:30"[3..] == "30";
  }

  // ---------------------------------------------------------------------
  // SettingsUpdateRequest

  /** The update request; every field may be absent. */
  datatype UpdateRequest = UpdateRequest(
    smtStrengthThreshold: Option<real>,
    killzonePriorities: Option<seq<int>>,
    refreshInterval: Option<int>,
    maxSignalsDisplay: Option<int>,
    divergenceThreshold: Option<real>,
    confirmationCandles: Option<int>,
    volumeMultiplier: Option<real>,
    londonOpen: Option<string>,
    nyOpen: Option<string>,
    asiaOpen: Option<string>)

  const EmptyRequest := UpdateRequest(None, None, None, None, None, None, None, None, None, None)

  /** An absent value, or one in the inclusive range. */
  predicate RealWithin(x: Option<real>, lo: real, hi: real)
  {
    x.None? || lo <= x.value <= hi
  }

  predicate IntWithin(x: Option<int>, lo: int, hi: int)
  {
    x.None? || lo <= x.value <= hi
  }

  /** The field constraints, checked by the schema for present values. */
  predicate FieldsInRange(req: UpdateRequest)
  {
    RealWithin(req.smtStrengthThreshold, 0.0, 1.0) &&
    (req.refreshInterval.None? || req.refreshInterval.value >= 1000) &&
    IntWithin(req.maxSignalsDisplay, 1, 100) &&
    RealWithin(req.divergenceThreshold, 0.1, 2.0) &&
    IntWithin(req.confirmationCandles, 1, 10) &&
    RealWithin(req.volumeMultiplier, 1.0, 5.0)
  }

  /** The request fields that carry a numeric constraint, in declaration order. */
  datatype BoundedField =
    | SmtStrengthThreshold | RefreshInterval | MaxSignalsDisplay
    | DivergenceThreshold | ConfirmationCandles | VolumeMultiplier
  {
    /** The field name an error reports. */
    function Name(): string
    {
      match this
      case SmtStrengthThreshold => "smt_strength_threshold"
      case RefreshInterval => "refresh_interval"
      case MaxSignalsDisplay => "max_signals_display"
      case DivergenceThreshold => "divergence_threshold"
      case ConfirmationCandles => "confirmation_candles"
      case VolumeMultiplier => "volume_multiplier"
    }
  }

  /** Whether the request satisfies one field's constraint. */
  predicate InRange(req: UpdateRequest, f: BoundedField)
  {
    match f
    case SmtStrengthThreshold => RealWithin(req.smtStrengthThreshold, 0.0, 1.0)
    case RefreshInterval => req.refreshInterval.None? || req.refreshInterval.value >= 1000
    case MaxSignalsDisplay => IntWithin(req.maxSignalsDisplay, 1, 100)
    case DivergenceThreshold => RealWithin(req.divergenceThreshold, 0.1, 2.0)
    case ConfirmationCandles => IntWithin(req.confirmationCandles, 1, 10)
    case VolumeMultiplier => RealWithin(req.volumeMultiplier, 1.0, 5.0)
  }

  /** One field's error, if its constraint is broken. */
  function ErrorFor(req: UpdateRequest, f: BoundedField): seq<BoundedField>
  {
    if InRange(req, f) then [] else [f]
  }

  /** The fields that break their constraint, in declaration order: the
      schema reports them all at once. */
  function RangeErrors(req: UpdateRequest): seq<BoundedField>
  {
    ErrorFor(req, SmtStrengthThreshold) + ErrorFor(req, RefreshInterval) + ErrorFor(req, MaxSignalsDisplay) +
    ErrorFor(req, DivergenceThreshold) + ErrorFor(req, ConfirmationCandles) + ErrorFor(req, VolumeMultiplier)
  }

  /** The priorities check of `model_post_init`: each priority from 1 to 5. */
  predicate PrioritiesValid(ps: Option<seq<int>>)
  {
    ps.None? || forall k :: 0 <= k < |ps.value| ==> 1 <= ps.value[k] <= 5
  }

  predicate TimeValid(t: Option<string>)
  {
    t.None? || ParseTime(t.value).Some?
  }

  /** Why a request is refused. */
  datatype Problem = BadPriorities | BadTime(field: string)

  datatype Verdict = Accepted | ValidationFailed(fields: seq<BoundedField>) | ValueFailed(problem: Problem)

  /** Building the request: the field constraints first, then
      `model_post_init`, which checks the priorities and then the opening
      times of London, New York and Asia, raising at the first bad one. */
  function Validate(req: UpdateRequest): Verdict
  {
    var errors := RangeErrors(req);
    if errors != [] then ValidationFailed(errors)
    else if !PrioritiesValid(req.killzonePriorities) then ValueFailed(BadPriorities)
    else if !TimeValid(req.londonOpen) then ValueFailed(BadTime("london_open"))
    else if !TimeValid(req.nyOpen) then ValueFailed(BadTime("ny_open"))
    else if !TimeValid(req.asiaOpen) then ValueFailed(BadTime("asia_open"))
    else Accepted
  }

  /** The range check reports nothing exactly when every field is in range. */
  lemma RangeErrorsEmpty(req: UpdateRequest)
    ensures RangeErrors(req) == [] <==> FieldsInRange(req)
  {
  }

  /** The range check names exactly the fields that break their constraint. */
  lemma RangeErrorsExact(req: UpdateRequest)
    ensures forall f :: f in RangeErrors(req) <==> !InRange(req, f)
  {
    var e1 := ErrorFor(req, SmtStrengthThreshold) + ErrorFor(req, RefreshInterval) + ErrorFor(req, MaxSignalsDisplay);
    var e2 := ErrorFor(req, DivergenceThreshold) + ErrorFor(req, ConfirmationCandles) + ErrorFor(req, VolumeMultiplier);
    assert RangeErrors(req) == e1 + e2;
    forall f ensures f in RangeErrors(req) <==> !InRange(req, f) {
      assert f in RangeErrors(req) <==> f in e1 || f in e2;
    }
  }

  /** The declaration position of a field. */
  function Position(f: BoundedField): int
  {
    match f
    case SmtStrengthThreshold => 0
    case RefreshInterval => 1
    case MaxSignalsDisplay => 2
    case DivergenceThreshold => 3
    case ConfirmationCandles => 4
    case VolumeMultiplier => 5
  }

  /** The reported fields come in declaration order, each once. */
  lemma RangeErrorsOrdered(req: UpdateRequest)
    ensures forall i, j :: 0 <= i < j < |RangeErrors(req)| ==>
      Position(RangeErrors(req)[i]) < Position(RangeErrors(req)[j])
  {
    var e1 := ErrorFor(req, SmtStrengthThreshold) + ErrorFor(req, RefreshInterval) + ErrorFor(req, MaxSignalsDisplay);
    var e2 := ErrorFor(req, DivergenceThreshold) + ErrorFor(req, ConfirmationCandles) + ErrorFor(req, VolumeMultiplier);
    assert RangeErrors(req) == e1 + e2;
    assert forall i, j :: 0 <= i < j < |e1| ==> Position(e1[i]) < Position(e1[j]);
    assert forall i, j :: 0 <= i < j < |e2| ==> Position(e2[i]) < Position(e2[j]);
    assert forall i :: 0 <= i < |e1| ==> Position(e1[i]) <= 2;
    assert forall i :: 0 <= i < |e2| ==> Position(e2[i]) >= 3;
  }

  /** A request is accepted exactly when every present number is within its
      bounds, every priority is from 1 to 5 and every present time parses;
      range failures come before the post-construction checks, which report
      the first failure in the order priorities, London, New York, Asia. */
  lemma ValidateSound(req: UpdateRequest)
    ensures Validate(req) == Accepted <==>
      FieldsInRange(req) && PrioritiesValid(req.killzonePriorities) &&
      TimeValid(req.londonOpen) && TimeValid(req.nyOpen) && TimeValid(req.asiaOpen)
    ensures Validate(req).ValidationFailed? <==> !FieldsInRange(req)
    ensures Validate(req).ValidationFailed? ==> Validate(req).fields == RangeErrors(req)
    ensures Validate(req) == ValueFailed(BadPriorities) <==>
      FieldsInRange(req) && !PrioritiesValid(req.killzonePriorities)
    ensures Validate(req) == ValueFailed(BadTime("london_open")) <==>
      FieldsInRange(req) && PrioritiesValid(req.killzonePriorities) && !TimeValid(req.londonOpen)
    ensures Validate(req) == ValueFailed(BadTime("ny_open")) <==>
      FieldsInRange(req) && PrioritiesValid(req.killzonePriorities) &&
      TimeValid(req.londonOpen) && !TimeValid(req.nyOpen)
    ensures Validate(req) == ValueFailed(BadTime("asia_open")) <==>
      FieldsInRange(req) && PrioritiesValid(req.killzonePriorities) &&
      TimeValid(req.londonOpen) && TimeValid(req.nyOpen) && !TimeValid(req.asiaOpen)
  {
    RangeErrorsEmpty(req);
  }

  /** Absent fields are never refused: the request with nothing in it, and
      any request whose only field is a valid time, are accepted. */
  lemma AbsentFieldsAccepted(t: string)
    requires ParseTime(t).Some?
    ensures Validate(EmptyRequest) == Accepted
    ensures Validate(EmptyRequest.(nyOpen := Some(t))) == Accepted
  {
  }

  /** Every fractional bound is inclusive: each endpoint alone is accepted. */
  lemma BoundsInclusive()
    ensures Validate(EmptyRequest.(smtStrengthThreshold := Some(0.0))) == Accepted
    ensures Validate(EmptyRequest.(smtStrengthThreshold := Some(1.0))) == Accepted
    ensures Validate(EmptyRequest.(divergenceThreshold := Some(0.1))) == Accepted
    ensures Validate(EmptyRequest.(volumeMultiplier := Some(5.0))) == Accepted
  {
  }

  /** Every whole-number bound is inclusive too. */
  lemma CountBoundsInclusive()
    ensures Validate(EmptyRequest.(refreshInterval := Some(1000))) == Accepted
    ensures Validate(EmptyRequest.(maxSignalsDisplay := Some(100))) == Accepted
    ensures Validate(EmptyRequest.(confirmationCandles := Some(10))) == Accepted
  {
  }

  /** The empty priority list is accepted; a zero priority is not. */
  lemma PriorityBoundary()
    ensures Validate(EmptyRequest.(killzonePriorities := Some([]))) == Accepted
    ensures Validate(EmptyRequest.(killzonePriorities := Some([0]))) == ValueFailed(BadPriorities)
  {
    var bad := EmptyRequest.(killzonePriorities := Some([0]));
    assert bad.killzonePriorities.value[0] == 0;
  }

  /** "24:00" is not a time of day. */
  lemma TimeBoundary()
    ensures Validate(EmptyRequest.(londonOpen := Some("24:00"))) == ValueFailed(BadTime("london_open"))
  {
    ParseTimeExamples();
  }

  // ---------------------------------------------------------------------
  // SettingsResponse

  datatype SettingsResponse = SettingsResponse(
    smtStrengthThreshold: real,
    killzonePriorities: seq<int>,
    refreshInterval: int,
    maxSignalsDisplay: int,
    divergenceThreshold: real,
    confirmationCandles: int,
    volumeMultiplier: real,
    londonOpen: string,
    nyOpen: string,
    asiaOpen: string)

  /** The response's field constraints. */
  predicate ResponseValid(r: SettingsResponse)
  {
    0.0 <= r.smtStrengthThreshold <= 1.0 && r.refreshInterval >= 1000 &&
    1 <= r.maxSignalsDisplay <= 100 && 0.1 <= r.divergenceThreshold <= 2.0 &&
    1 <= r.confirmationCandles <= 10 && 1.0 <= r.volumeMultiplier <= 5.0
  }

  /** A response built from the four fields without defaults. */
  function ResponseWithDefaults(smt: real, priorities: seq<int>, refresh: int, maxSignals: int): SettingsResponse
  {
    SettingsResponse(smt, priorities, refresh, maxSignals, 0.5, 3, 1.5, "08:00", "13:30", "00:00")
  }

  /** The defaults meet the response's own constraints, so a response built
      from in-range required fields is valid; the default opening times are
      well-formed, at 08:00, 13:30 and 00:00. */
  lemma ResponseDefaultsValid(smt: real, priorities: seq<int>, refresh: int, maxSignals: int)
    ensures ResponseValid(ResponseWithDefaults(smt, priorities, refresh, maxSignals)) <==>
      0.0 <= smt <= 1.0 && refresh >= 1000 && 1 <= maxSignals <= 100
    ensures ParseTime(ResponseWithDefaults(smt, priorities, refresh, maxSignals).londonOpen) == Some((8, 0))
    ensures ParseTime(ResponseWithDefaults(smt, priorities, refresh, maxSignals).nyOpen) == Some((13, 30))
    ensures ParseTime(ResponseWithDefaults(smt, priorities, refresh, maxSignals).asiaOpen) == Some((0, 0))
  {
    ParseTimeExamples();
    assert "00:00"[..2] == "00" && "00:00"[3..] == "00";
  }
}
