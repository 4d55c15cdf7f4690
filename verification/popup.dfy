/** The popup's settings state: the normaliser `createState`, the state
    changes made by the UI handlers, the preset fix-up of `pushState` and the
    gain/slider conversions (popup.js). DOM reads and writes are left out; each
    handler is a function from the old state and the control's value to the
    new state. */
module Popup {
  import opened Wrappers
  import opened JsValues
  import opened Equalizer

  /** The popup's `state` object. */
  datatype State = State(gain: Num, enabled: bool, eq: Eq, preset: Preset)

  /** An untrusted record handed to `createState`. `gain`, `enabled` and
      `preset` are arbitrary JavaScript values; each `eq` band is the number
      `Number(partial.eq?.[band])` produced from whatever was there (NaN when
      the band or the whole `eq` is missing). */
  datatype Partial = Partial(gain: JsValue, enabled: JsValue, eq: Bands<Num>, preset: JsValue)

  /** `DEFAULT_STATE` */
  const DefaultState: State := State(Finite(1.0), true, Table(Default), Named(Default))

  /** The upper end of the gain range (1000 %). */
  const GainMax: real := 10.0

  /** The upper end of the volume slider (percent). */
  const SliderMax: real := 1000.0

  /** `createState()` called with no argument: every field is absent. */
  const EmptyPartial: Partial := Partial(JOther, JOther, Bands(NaN, NaN, NaN), JOther)

  /** Gain as `createState` leaves it: NaN slips through, anything else lies in
      [0, 10]. */
  predicate GainInRange(g: Num) {
    g.NaN? || (g.Finite? && 0.0 <= g.r <= GainMax)
  }

  /** The invariant every popup state satisfies. */
  predicate Valid(s: State) {
    GainInRange(s.gain) && InRange(s.eq) && Consistent(s.eq, s.preset)
  }

  /** One band of `createState`: a non-finite number falls back to the default
      band value before `clampEq`. */
  function NormaliseBand(raw: Num, fallback: int): (r: int)
    ensures EqMin <= r <= EqMax
    ensures raw.Finite? ==> r == ClampEq(raw)
    ensures !raw.Finite? ==> r == ClampEq(Finite(fallback as real))
  {
    ClampEq(if raw.IsFinite() then raw else Finite(fallback as real))
  }

  /** The band loop of `createState`: each band through `NormaliseBand` with
      the default band value as fallback. */
  function NormaliseEq(raw: Bands<Num>): (eq: Eq)
    ensures InRange(eq)
    ensures forall b :: eq.Get(b) == ClampEq(raw.Get(b))
  {
    Bands(NormaliseBand(raw.low, DefaultState.eq.low),
          NormaliseBand(raw.mid, DefaultState.eq.mid),
          NormaliseBand(raw.high, DefaultState.eq.high))
  }

  /** The preset reconciliation of `createState`: a candidate outside
      `PRESET_SET`, or a named preset other than the one the bands match, is
      replaced by the inferred preset; `"custom"` is kept. */
  function ReconcilePreset(candidate: string, eq: Eq): (preset: Preset)
    ensures Consistent(eq, preset)
    ensures candidate == "custom" ==> preset == Custom
    ensures candidate != "custom" ==> preset == PresetForEq(eq)
  {
    var inferred := PresetForEq(eq);
    var parsed := ParsePreset(candidate);
    if parsed.None? || (parsed.value != Custom && parsed.value != inferred) then inferred
    else parsed.value
  }

  /** `createState(partial)`: total; clamps gain and bands, defaults fields of
      the wrong type and reconciles the preset with the bands. A `"custom"`
      preset is kept as it is; any other preset string is replaced by the preset
      the bands match, so a named preset survives only when its triple equals
      the bands. */
  function CreateState(p: Partial): (s: State)
    ensures Valid(s)
    ensures !p.gain.JNumber? ==> s.gain == Finite(1.0)
    ensures p.gain.JNumber? ==> s.gain == Clamp(p.gain.n, 0.0, GainMax)
    ensures s.enabled == (p.enabled.JBool? ==> p.enabled.b)
    ensures forall b :: s.eq.Get(b) == ClampEq(p.eq.Get(b))
    ensures p.preset == JString("custom") ==> s.preset == Custom
    ensures p.preset != JString("custom") ==> s.preset == PresetForEq(s.eq)
  {
    var gainValue := if p.gain.JNumber? then p.gain.n else DefaultState.gain;
    var enabled := if p.enabled.JBool? then p.enabled.b else DefaultState.enabled;
    var candidate := if p.preset.JString? then p.preset.s else PresetName(DefaultState.preset);
    var eq := NormaliseEq(p.eq);
    State(Clamp(gainValue, 0.0, GainMax), enabled, eq, ReconcilePreset(candidate, eq))
  }

  /** The state object itself passed back to `createState`, as `restoreState`
      does with a stored record. */
  function ToPartial(s: State): Partial {
    Partial(JNumber(s.gain), JBool(s.enabled),
            Bands(Finite(s.eq.low as real), Finite(s.eq.mid as real), Finite(s.eq.high as real)),
            JString(PresetName(s.preset)))
  }

  /** The valid states are exactly the fixed points of `createState`. */
  lemma ValidIffFixedPoint(s: State)
    ensures Valid(s) <==> CreateState(ToPartial(s)) == s
  {
    if Valid(s) {
      var t := CreateState(ToPartial(s));
      ClampEqOfBandValue(s.eq.low);
      ClampEqOfBandValue(s.eq.mid);
      ClampEqOfBandValue(s.eq.high);
      assert t.eq.Get(Low) == s.eq.low && t.eq.Get(Mid) == s.eq.mid && t.eq.Get(High) == s.eq.high;
      assert t.eq == s.eq;
      if s.preset.Named? {
        ConsistentIffInferred(s.eq, s.preset);
      }
    }
  }

  /** Normalising twice is normalising once. */
  lemma CreateStateIdempotent(p: Partial)
    ensures CreateState(ToPartial(CreateState(p))) == CreateState(p)
  {
    ValidIffFixedPoint(CreateState(p));
  }

  /** `createState()` yields `DEFAULT_STATE`. */
  lemma EmptyPartialGivesDefault()
    ensures CreateState(EmptyPartial) == DefaultState
  {
    var s := CreateState(EmptyPartial);
    assert s.eq.Get(Low) == 0 && s.eq.Get(Mid) == 0 && s.eq.Get(High) == 0;
    assert s.eq == Table(Default);
  }

  /** The gain `handleSliderInput` derives from the slider's percentage:
      clamped to [0, 1000], divided by 100. */
  function GainFromSlider(v: Num): (g: Num)
    ensures g.NaN? <==> v.NaN?
    ensures !v.NaN? ==> g.Finite? && 0.0 <= g.r <= GainMax
    ensures v.Finite? && 0.0 <= v.r <= SliderMax ==> g == Finite(v.r / 100.0)
    ensures v == PosInf || (v.Finite? && v.r > SliderMax) ==> g == Finite(GainMax)
    ensures v == NegInf || (v.Finite? && v.r < 0.0) ==> g == Finite(0.0)
  {
    Scale(Clamp(v, 0.0, SliderMax), 1.0 / 100.0)
  }

  /** The state part of `handleSliderInput`: only the gain changes. */
  function HandleSliderInput(s: State, v: Num): (t: State)
    ensures t.enabled == s.enabled && t.eq == s.eq && t.preset == s.preset
    ensures t.gain == GainFromSlider(v)
    ensures Valid(s) ==> Valid(t)
  {
    s.(gain := GainFromSlider(v))
  }

  /** The slider position `applyStateToUi` shows for a gain:
      `clamp(Math.round(gain * 100), 0, 1000)`. */
  function SliderPosition(gain: Num): (v: Num)
    ensures v.NaN? <==> gain.NaN?
    ensures !gain.NaN? ==> v.Finite? && 0.0 <= v.r <= SliderMax && v.r == v.r.Floor as real
    ensures gain.Finite? && 0.0 <= gain.r <= GainMax ==>
              v.r - 1.0 / 2.0 <= gain.r * 100.0 < v.r + 1.0 / 2.0
  {
    Clamp(RoundNum(Scale(gain, 100.0)), 0.0, SliderMax)
  }

  /** Moving the slider to a whole percentage and redrawing the popup puts the
      slider back where it was. */
  lemma SliderRoundTrip(n: int)
    requires 0 <= n <= 1000
    ensures SliderPosition(GainFromSlider(Finite(n as real))) == Finite(n as real)
  {
    var x := n as real;
    var g := GainFromSlider(Finite(x));
    assert g == Finite(x / 100.0);
    var scaled := Scale(g, 100.0);
    assert scaled == Finite(x);
    RoundOfInteger(n);
    assert RoundNum(scaled) == Finite(x);
  }

  /** Redrawing a gain and reading the slider back changes it by at most half
      a percent. */
  lemma GainSliderRoundTrip(gain: Num)
    requires gain.Finite? && 0.0 <= gain.r <= GainMax
    ensures var g := GainFromSlider(SliderPosition(gain));
            g.Finite? && -1.0 / 200.0 < g.r - gain.r <= 1.0 / 200.0
  {
  }

  /** The state part of `handleEqSliderInput`: one band takes the clamped
      slider value and the preset is re-derived from the bands. */
  function HandleEqSliderInput(s: State, band: Band, v: Num): (t: State)
    ensures t.eq.Get(band) == ClampEq(v)
    ensures forall b :: b != band ==> t.eq.Get(b) == s.eq.Get(b)
    ensures t.gain == s.gain && t.enabled == s.enabled
    ensures forall k :: t.preset == Named(k) <==> t.eq == Table(k)
    ensures Valid(s) ==> Valid(t)
  {
    var value := ClampEq(v);
    var eq := if s.eq.Get(band) == value then s.eq else s.eq.With(band, value);
    s.(eq := eq, preset := PresetForEq(eq))
  }

  /** The state part of `handlePresetChange`: an unknown value is ignored,
      `"custom"` only relabels, a named preset loads its triple. */
  function HandlePresetChange(s: State, selected: string): (t: State)
    ensures ParsePreset(selected).None? ==> t == s
    ensures selected == "custom" ==> t == s.(preset := Custom)
    ensures forall k :: selected == PresetName(Named(k)) ==>
              t == s.(eq := Table(k), preset := Named(k))
    ensures Valid(s) ==> Valid(t)
  {
    match ParsePreset(selected)
    case None => s
    case Some(Custom) => s.(preset := Custom)
    case Some(Named(k)) =>
      TableInRange(k);
      s.(eq := Table(k), preset := Named(k))
  }

  /** The state part of `handlePowerToggle`. */
  function HandlePowerToggle(s: State): (t: State)
    ensures t.enabled != s.enabled
    ensures t.(enabled := s.enabled) == s
    ensures Valid(s) ==> Valid(t)
  {
    s.(enabled := !s.enabled)
  }

  /** The state part of `handleReset`: back to the normalised empty record,
      whatever the state was. */
  function HandleReset(s: State): (t: State)
    ensures t == CreateState(EmptyPartial)
    ensures Valid(t)
  {
    EmptyPartialGivesDefault();
    State(DefaultState.gain, true, DefaultState.eq, Named(Default))
  }

  /** The `volumify:updateSettings` message `pushState` sends. */
  datatype UpdateMessage = UpdateMessage(tabId: Num, gain: Num, enabled: bool, eq: Eq, preset: string)

  /** The popup state after `pushState` and the message it sent, if any. */
  datatype Pushed = Pushed(state: State, message: Option<UpdateMessage>)

  /** `buildEqPayload`: every band passed through `clampEq`. */
  function ClampBands(eq: Eq): (r: Eq)
    ensures forall b :: r.Get(b) == ClampEq(Finite(eq.Get(b) as real))
    ensures InRange(r)
    ensures InRange(eq) ==> r == eq
  {
    var r := Bands(ClampEq(Finite(eq.low as real)), ClampEq(Finite(eq.mid as real)), ClampEq(Finite(eq.high as real)));
    if InRange(eq) then
      ClampEqOfBandValue(eq.low);
      ClampEqOfBandValue(eq.mid);
      ClampEqOfBandValue(eq.high);
      r
    else r
  }

  /** `pushState`: without a numeric tab id nothing happens; otherwise the
      bands are clamped, a named preset is re-derived from them and the state is
      sent. On a valid state the fix-up changes nothing. */
  function PushState(s: State, tabId: JsValue): (r: Pushed)
    ensures !tabId.JNumber? ==> r == Pushed(s, None)
    ensures r.state.gain == s.gain && r.state.enabled == s.enabled
    ensures tabId.JNumber? ==> InRange(r.state.eq) && Consistent(r.state.eq, r.state.preset)
    ensures tabId.JNumber? ==> forall b :: r.state.eq.Get(b) == ClampEq(Finite(s.eq.Get(b) as real))
    ensures s.preset == Custom ==> r.state.preset == Custom
    ensures tabId.JNumber? && s.preset != Custom ==> r.state.preset == PresetForEq(r.state.eq)
    ensures tabId.JNumber? ==>
              r.message == Some(UpdateMessage(tabId.n, s.gain, s.enabled, r.state.eq, PresetName(r.state.preset)))
    ensures Valid(s) ==> r.state == s
  {
    if !tabId.JNumber? then Pushed(s, None)
    else
      var eq := ClampBands(s.eq);
      var preset := if s.preset != Custom then PresetForEq(eq) else s.preset;
      var t := s.(eq := eq, preset := preset);
      Pushed(t, Some(UpdateMessage(tabId.n, t.gain, t.enabled, eq, PresetName(preset))))
  }

  /** The popup state after `restoreState`: the normalised response of
      `volumify:getSettings`, or `createState()` when there is no numeric tab
      id or no response. */
  function RestoreState(tabId: JsValue, response: Option<Partial>): (s: State)
    ensures Valid(s)
    ensures !tabId.JNumber? || response.None? ==> s == DefaultState
    ensures tabId.JNumber? && response.Some? ==> s == CreateState(response.value)
  {
    EmptyPartialGivesDefault();
    if !tabId.JNumber? then CreateState(EmptyPartial)
    else match response
      case Some(p) => CreateState(p)
      case None => CreateState(EmptyPartial)
  }

  /** Loading a preset and normalising the result keeps the preset and its
      triple. */
  lemma PresetSurvivesNormalisation(s: State, k: PresetKey)
    ensures var t := CreateState(ToPartial(HandlePresetChange(s, PresetName(Named(k)))));
            t.eq == Table(k) && t.preset == Named(k)
  {
    var t := HandlePresetChange(s, PresetName(Named(k)));
    TableInRange(k);
    ClampEqOfBandValue(t.eq.low);
    ClampEqOfBandValue(t.eq.mid);
    ClampEqOfBandValue(t.eq.high);
    var n := CreateState(ToPartial(t));
    assert n.eq.Get(Low) == t.eq.low && n.eq.Get(Mid) == t.eq.mid && n.eq.Get(High) == t.eq.high;
  }

  /** An out-of-range band is clamped and `"custom"` is kept. */
  lemma ClampingExample()
    ensures CreateState(Partial(JNumber(Finite(2.5)), JBool(true),
                                Bands(Finite(20.0), Finite(-1.0), Finite(0.0)), JString("custom")))
         == State(Finite(2.5), true, Bands(12, -1, 0), Custom)
  {
    var s := CreateState(Partial(JNumber(Finite(2.5)), JBool(true),
                                 Bands(Finite(20.0), Finite(-1.0), Finite(0.0)), JString("custom")));
    RoundOfInteger(-1);
    assert s.eq.Get(Low) == 12 && s.eq.Get(Mid) == -1 && s.eq.Get(High) == 0;
  }

  /** A NaN gain is a number and passes through the clamp; a non-boolean
      `enabled` becomes true; a named preset that does not match the bands is
      replaced by the inferred one. */
  lemma UntypedFieldsExample()
    ensures CreateState(Partial(JNumber(NaN), JString("yes"), Bands(NaN, NaN, NaN), JString("vocalBoost")))
         == State(NaN, true, Table(Default), Named(Default))
  {
    var s := CreateState(Partial(JNumber(NaN), JString("yes"), Bands(NaN, NaN, NaN), JString("vocalBoost")));
    assert s.eq.Get(Low) == 0 && s.eq.Get(Mid) == 0 && s.eq.Get(High) == 0;
    assert s.eq == Table(Default);
  }
}
