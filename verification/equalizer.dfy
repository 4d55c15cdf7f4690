/** The three-band equaliser settings of the popup: band values in whole
    decibels within [-12, 12], the fixed preset table, `clampEq` and the exact
    preset match `computePresetForEq` (popup.js:28-60). */
module Equalizer {
  import opened Wrappers
  import opened JsValues

  datatype Band = Low | Mid | High

  /** `EQ_KEYS`, in the order popup.js iterates them. */
  const EqKeys: seq<Band> := [Low, Mid, High]

  /** One value per band: the `{low, mid, high}` records of popup.js. */
  datatype Bands<T> = Bands(low: T, mid: T, high: T) {

    function Get(b: Band): T {
      match b
      case Low => low
      case Mid => mid
      case High => high
    }

    /** The record with band `b` replaced by `v`. */
    function With(b: Band, v: T): (r: Bands<T>)
      ensures r.Get(b) == v
      ensures forall c :: c != b ==> r.Get(c) == Get(c)
    {
      match b
      case Low => this.(low := v)
      case Mid => this.(mid := v)
      case High => this.(high := v)
    }
  }

  /** Band gains in decibels, as the popup state holds them. */
  type Eq = Bands<int>

  /** `EQ_RANGE` */
  const EqMin: int := -12
  const EqMax: int := 12

  /** Every band lies in `EQ_RANGE`. */
  predicate InRange(eq: Eq) {
    && EqMin <= eq.low <= EqMax
    && EqMin <= eq.mid <= EqMax
    && EqMin <= eq.high <= EqMax
  }

  datatype PresetKey = Default | BassBoost | VocalBoost

  /** `PRESET_KEYS`, in the order `computePresetForEq` tries them. */
  const PresetKeys: seq<PresetKey> := [Default, BassBoost, VocalBoost]

  lemma PresetKeysComplete()
    ensures forall k :: k in PresetKeys
  {
    forall k ensures k in PresetKeys {
      match k
      case Default => assert PresetKeys[0] == k;
      case BassBoost => assert PresetKeys[1] == k;
      case VocalBoost => assert PresetKeys[2] == k;
    }
  }

  /** A member of `PRESET_SET`: a named preset or the `"custom"` sentinel. */
  datatype Preset = Named(key: PresetKey) | Custom

  /** `EQ_PRESETS` */
  function Table(k: PresetKey): Eq {
    match k
    case Default => Bands(0, 0, 0)
    case BassBoost => Bands(8, 2, 4)
    case VocalBoost => Bands(-2, 5, 6)
  }

  /** The string popup.js uses for a preset. */
  function PresetName(p: Preset): string {
    match p
    case Named(Default) => "default"
    case Named(BassBoost) => "bassBoost"
    case Named(VocalBoost) => "vocalBoost"
    case Custom => "custom"
  }

  /** `PRESET_SET.has(s)`, returning the preset the string names. */
  function ParsePreset(s: string): (r: Option<Preset>)
    ensures r.Some? ==> PresetName(r.value) == s
    ensures forall p :: PresetName(p) == s ==> r == Some(p)
  {
    if s == "default" then Some(Named(Default))
    else if s == "bassBoost" then Some(Named(BassBoost))
    else if s == "vocalBoost" then Some(Named(VocalBoost))
    else if s == "custom" then Some(Custom)
    else None
  }

  /** No two presets share a triple, so an exact match identifies the preset. */
  lemma TableInjective(k1: PresetKey, k2: PresetKey)
    ensures Table(k1) == Table(k2) ==> k1 == k2
  {
  }

  /** The table triples are valid band values. */
  lemma TableInRange(k: PresetKey)
    ensures InRange(Table(k))
  {
  }

  /** `clampEq`: non-finite input gives 0; otherwise the input clamped to
      [-12, 12] and rounded to the nearest integer, halves upwards. */
  function ClampEq(v: Num): (r: int)
    ensures EqMin <= r <= EqMax
    ensures !v.IsFinite() ==> r == 0
    ensures v.Finite? && EqMin as real <= v.r <= EqMax as real ==>
              r as real - 1.0 / 2.0 <= v.r < r as real + 1.0 / 2.0
    ensures v.Finite? && v.r >= EqMax as real ==> r == EqMax
    ensures v.Finite? && v.r <= EqMin as real ==> r == EqMin
  {
    if !v.IsFinite() then 0
    else Round(Clamp(v, EqMin as real, EqMax as real).r)
  }

  /** An integer band value inside the range is a fixed point of `clampEq`. */
  lemma ClampEqOfBandValue(n: int)
    requires EqMin <= n <= EqMax
    ensures ClampEq(Finite(n as real)) == n
  {
    RoundOfInteger(n);
  }

  /** `bands.every((band) => a[band] === b[band])` */
  predicate BandsMatch(a: Eq, b: Eq, bands: seq<Band>) {
    forall i :: 0 <= i < |bands| ==> a.Get(bands[i]) == b.Get(bands[i])
  }

  /** Comparing over `EQ_KEYS` is the same as comparing the records. */
  lemma BandsMatchAllKeys(a: Eq, b: Eq)
    ensures BandsMatch(a, b, EqKeys) <==> a == b
  {
    if BandsMatch(a, b, EqKeys) {
      assert a.Get(EqKeys[0]) == b.Get(EqKeys[0]);
      assert a.Get(EqKeys[1]) == b.Get(EqKeys[1]);
      assert a.Get(EqKeys[2]) == b.Get(EqKeys[2]);
    }
  }

  /** The loop of `computePresetForEq` over the remaining `keys`: the first key
      whose table triple matches `eq`, else `Custom`. */
  function FirstMatch(keys: seq<PresetKey>, eq: Eq): (p: Preset)
    ensures p.Named? ==> p.key in keys && Table(p.key) == eq
    ensures p.Custom? ==> forall i :: 0 <= i < |keys| ==> Table(keys[i]) != eq
    decreases |keys|
  {
    if |keys| == 0 then Custom
    else if BandsMatch(Table(keys[0]), eq, EqKeys) then
      BandsMatchAllKeys(Table(keys[0]), eq);
      Named(keys[0])
    else
      BandsMatchAllKeys(Table(keys[0]), eq);
      FirstMatch(keys[1..], eq)
  }

  /** `computePresetForEq`: the preset whose table triple equals `eq` band for
      band, or `Custom` when there is none. */
  function PresetForEq(eq: Eq): (p: Preset)
    ensures forall k :: p == Named(k) <==> Table(k) == eq
    ensures p.Custom? <==> forall k :: Table(k) != eq
  {
    PresetKeysComplete();
    FirstMatch(PresetKeys, eq)
  }

  /** The invariant the popup keeps: a named preset carries exactly its
      table triple. */
  predicate Consistent(eq: Eq, preset: Preset) {
    preset.Named? ==> eq == Table(preset.key)
  }

  /** A consistent named preset is the one `computePresetForEq` infers, and the
      inferred preset is always consistent. */
  lemma ConsistentIffInferred(eq: Eq, preset: Preset)
    ensures preset.Named? ==> (Consistent(eq, preset) <==> PresetForEq(eq) == preset)
    ensures Consistent(eq, PresetForEq(eq))
  {
  }
}
