/**
 * The persisted settings of the sleeve viewer: the default record, the load
 * that merges a stored record over it and repairs each field, and the
 * projection that writes the nine settings back.
 *
 * A stored record is what the browser's JSON parser gives back: a map from
 * field name to a JSON value. Only the shape of a value matters to the load
 * (is it a number? a string?), so `Value` keeps just that.
 */
module Settings {
  import opened Wrappers

  /** A JSON value as the load sees it. `Other` stands for null, arrays and objects. */
  datatype Value = Number(n: real) | Str(s: string) | Bool(b: bool) | Other

  /** The names of the preset artworks (the keys of the preset table). */
  datatype Artwork = Front | Back

  function ArtworkName(a: Artwork): string
  {
    match a
    case Front => "Front"
    case Back => "Back"
  }

  /** The image each preset loads. */
  function ArtworkPath(a: Artwork): string
  {
    match a
    case Front => "front.jpg"
    case Back => "back.jpg"
  }

  /** The preset a stored value names, if it names one. */
  function ParseArtwork(v: Value): (r: Option<Artwork>)
    ensures r.Some? <==> v == Str("Front") || v == Str("Back")
    ensures r.Some? ==> v == Str(ArtworkName(r.value))
  {
    match v
    case Str(s) =>
      if s == "Front" then Some(Front)
      else if s == "Back" then Some(Back)
      else None
    case _ => None
  }

  lemma {:induction false} ParseArtworkName(a: Artwork)
    ensures ParseArtwork(Str(ArtworkName(a))) == Some(a)
  {
    match a
    case Front =>
    case Back =>
  }

  const FrontArtKey := "frontArt"
  const BackArtKey := "backArt"
  const VinylRevealKey := "vinylReveal"
  const BackgroundColorKey := "backgroundColor"
  const AutoOrbitKey := "autoOrbit"
  const OverlayOpacityKey := "overlayOpacity"
  const HemiIntensityKey := "hemiIntensity"
  const HemiSkyColorKey := "hemiSkyColor"
  const HemiGroundColorKey := "hemiGroundColor"

  /** The nine settings that are persisted. */
  const FieldNames: set<string> := {
    FrontArtKey, BackArtKey, VinylRevealKey, BackgroundColorKey, AutoOrbitKey,
    OverlayOpacityKey, HemiIntensityKey, HemiSkyColorKey, HemiGroundColorKey
  }

  const DefaultHemiIntensity: real := 1.1
  const DefaultHemiSkyColor := "#ffffff"
  const DefaultHemiGroundColor := "#111122"

  /** The default record, field for field. */
  const DefaultRecord: map<string, Value> := map[
    FrontArtKey := Str("Front"),
    BackArtKey := Str("Back"),
    VinylRevealKey := Number(0.25),
    BackgroundColorKey := Str("#100f0f"),
    AutoOrbitKey := Bool(false),
    OverlayOpacityKey := Number(1.0),
    HemiIntensityKey := Number(DefaultHemiIntensity),
    HemiSkyColorKey := Str(DefaultHemiSkyColor),
    HemiGroundColorKey := Str(DefaultHemiGroundColor)
  ]

  /**
   * The settings once loaded. The loader narrows the fields it checks
   * (the two presets, the hemisphere light); the others keep the stored
   * JSON value. Stored keys that are not settings stay in `extra`, as they
   * do in the merged object.
   */
  datatype Config = Config(
    frontArt: Artwork,
    backArt: Artwork,
    vinylReveal: Value,
    backgroundColor: Value,
    autoOrbit: Value,
    overlayOpacity: Value,
    hemiIntensity: real,
    hemiSkyColor: string,
    hemiGroundColor: string,
    extra: map<string, Value>)

  const DefaultConfig := Config(
    Front, Back, Number(0.25), Str("#100f0f"), Bool(false), Number(1.0),
    DefaultHemiIntensity, DefaultHemiSkyColor, DefaultHemiGroundColor, map[])

  /** `clamp(x, lo, hi)` as `max(lo, min(hi, x))`. */
  function Clamp(x: real, lo: real, hi: real): (r: real)
    requires lo <= hi
    ensures lo <= r <= hi
    ensures lo <= x <= hi ==> r == x
    ensures x < lo ==> r == lo
    ensures hi < x ==> r == hi
  {
    var m := if hi < x then hi else x;
    if m < lo then lo else m
  }

  /** The clamp applied to a field the loader does not type-check. */
  function ClampValue(v: Value, lo: real, hi: real): (r: Value)
    requires lo <= hi
    ensures v.Number? <==> r.Number?
    ensures v.Number? ==> lo <= r.n <= hi
    ensures !v.Number? ==> r == v
  {
    match v
    case Number(x) => Number(Clamp(x, lo, hi))
    case _ => v
  }

  /** Every range the loader promises, and no setting hidden among the extras. */
  predicate Validated(c: Config)
  {
    && (c.vinylReveal.Number? ==> 0.0 <= c.vinylReveal.n <= 1.0)
    && (c.overlayOpacity.Number? ==> 0.0 <= c.overlayOpacity.n <= 1.0)
    && 0.0 <= c.hemiIntensity <= 3.0
    && c.extra.Keys !! FieldNames
  }

  /** The stored record spread over the defaults: stored fields win. */
  function Merge(stored: map<string, Value>): (m: map<string, Value>)
    ensures m.Keys == DefaultRecord.Keys + stored.Keys
    ensures forall k :: k in stored ==> m[k] == stored[k]
    ensures forall k :: k in DefaultRecord && k !in stored ==> m[k] == DefaultRecord[k]
  {
    DefaultRecord + stored
  }

  /** The per-field repairs applied to the merged record. */
  function Repair(m: map<string, Value>): (c: Config)
    requires FieldNames <= m.Keys
    ensures Validated(c)
  {
    var hemi := m[HemiIntensityKey];
    var sky := m[HemiSkyColorKey];
    var ground := m[HemiGroundColorKey];
    Config(
      ParseArtwork(m[FrontArtKey]).GetOr(Front),
      ParseArtwork(m[BackArtKey]).GetOr(Back),
      ClampValue(m[VinylRevealKey], 0.0, 1.0),
      m[BackgroundColorKey],
      m[AutoOrbitKey],
      ClampValue(m[OverlayOpacityKey], 0.0, 1.0),
      Clamp(if hemi.Number? then hemi.n else DefaultHemiIntensity, 0.0, 3.0),
      if sky.Str? then sky.s else DefaultHemiSkyColor,
      if ground.Str? then ground.s else DefaultHemiGroundColor,
      m - FieldNames)
  }

  /**
   * The startup load. `stored` is the parsed record, or None when the slot
   * is empty or its text does not parse (both read as an empty record).
   */
  function Load(stored: Option<map<string, Value>>): (c: Config)
    ensures Validated(c)
  {
    Repair(Merge(stored.GetOr(map[])))
  }

  /** The value the record written back holds for setting `key`. */
  function Field(c: Config, key: string): Value
  {
    if key == FrontArtKey then Str(ArtworkName(c.frontArt))
    else if key == BackArtKey then Str(ArtworkName(c.backArt))
    else if key == VinylRevealKey then c.vinylReveal
    else if key == BackgroundColorKey then c.backgroundColor
    else if key == AutoOrbitKey then c.autoOrbit
    else if key == OverlayOpacityKey then c.overlayOpacity
    else if key == HemiIntensityKey then Number(c.hemiIntensity)
    else if key == HemiSkyColorKey then Str(c.hemiSkyColor)
    else Str(c.hemiGroundColor)
  }

  /** The record written back to storage: exactly the nine settings, with their current values. */
  function Persist(c: Config): (r: map<string, Value>)
    ensures r.Keys == FieldNames
  {
    map key | key in FieldNames :: Field(c, key)
  }

  /**
   * Whether the loader keeps a stored value of setting `key` as it is:
   * a preset name, a number in [0, 1] for the reveal and the overlay
   * opacity, a number in [0, 3] for the intensity, a string for a colour.
   * Values of the fields it does not check are always kept.
   */
  predicate Accepted(key: string, v: Value)
  {
    if key == FrontArtKey || key == BackArtKey then v == Str("Front") || v == Str("Back")
    else if key == VinylRevealKey || key == OverlayOpacityKey then v.Number? && 0.0 <= v.n <= 1.0
    else if key == HemiIntensityKey then v.Number? && 0.0 <= v.n <= 3.0
    else if key == HemiSkyColorKey || key == HemiGroundColorKey then v.Str?
    else true
  }

  // ---------------------------------------------------------------------
  // Properties of the load

  /** The defaults are what an empty or unreadable slot loads to. */
  lemma LoadMissingIsDefault()
    ensures Load(None) == Load(Some(map[]))
    ensures Load(None) == DefaultConfig
  {
    assert Merge(map[]) == DefaultRecord;
    assert DefaultRecord - FieldNames == map[];
  }

  /** Writing the default settings gives the default record back. */
  lemma PersistDefault()
    ensures Persist(DefaultConfig) == DefaultRecord
  {
  }

  /** After the load both presets name an artwork of the preset table. */
  lemma LoadPresets(stored: map<string, Value>)
    ensures var c := Load(Some(stored));
      && (FrontArtKey in stored && ParseArtwork(stored[FrontArtKey]).Some? ==> Str(ArtworkName(c.frontArt)) == stored[FrontArtKey])
      && (FrontArtKey !in stored || ParseArtwork(stored[FrontArtKey]).None? ==> c.frontArt == Front)
      && (BackArtKey in stored && ParseArtwork(stored[BackArtKey]).Some? ==> Str(ArtworkName(c.backArt)) == stored[BackArtKey])
      && (BackArtKey !in stored || ParseArtwork(stored[BackArtKey]).None? ==> c.backArt == Back)
  {
  }

  /** A stored number for the reveal or the overlay opacity is clamped to [0, 1]. */
  lemma LoadUnitFields(stored: map<string, Value>, key: string)
    requires key == VinylRevealKey || key == OverlayOpacityKey
    requires key in stored && stored[key].Number?
    ensures var v := Persist(Load(Some(stored)))[key];
      && v.Number?
      && 0.0 <= v.n <= 1.0
      && (0.0 <= stored[key].n <= 1.0 ==> v == stored[key])
      && (stored[key].n < 0.0 ==> v == Number(0.0))
      && (1.0 < stored[key].n ==> v == Number(1.0))
  {
  }

  /** The hemisphere intensity: a non-number falls back to 1.1; the result lies in [0, 3]. */
  lemma LoadHemiIntensity(stored: map<string, Value>)
    ensures var c := Load(Some(stored));
      && 0.0 <= c.hemiIntensity <= 3.0
      && (HemiIntensityKey !in stored || !stored[HemiIntensityKey].Number? ==> c.hemiIntensity == DefaultHemiIntensity)
      && (HemiIntensityKey in stored && stored[HemiIntensityKey].Number? ==>
            c.hemiIntensity == Clamp(stored[HemiIntensityKey].n, 0.0, 3.0))
  {
  }

  /** The hemisphere colours: a non-string falls back to its default. */
  lemma LoadHemiColors(stored: map<string, Value>)
    ensures var c := Load(Some(stored));
      && (HemiSkyColorKey in stored && stored[HemiSkyColorKey].Str? ==> c.hemiSkyColor == stored[HemiSkyColorKey].s)
      && (HemiSkyColorKey !in stored || !stored[HemiSkyColorKey].Str? ==> c.hemiSkyColor == DefaultHemiSkyColor)
      && (HemiGroundColorKey in stored && stored[HemiGroundColorKey].Str? ==> c.hemiGroundColor == stored[HemiGroundColorKey].s)
      && (HemiGroundColorKey !in stored || !stored[HemiGroundColorKey].Str? ==> c.hemiGroundColor == DefaultHemiGroundColor)
  {
  }

  /**
   * What the load makes of one setting, field by field: the value the
   * merged record holds for `key`, repaired as that setting requires.
   */
  function RepairedField(key: string, v: Value): Value
  {
    if key == FrontArtKey then Str(ArtworkName(ParseArtwork(v).GetOr(Front)))
    else if key == BackArtKey then Str(ArtworkName(ParseArtwork(v).GetOr(Back)))
    else if key == VinylRevealKey || key == OverlayOpacityKey then ClampValue(v, 0.0, 1.0)
    else if key == HemiIntensityKey then Number(Clamp(if v.Number? then v.n else DefaultHemiIntensity, 0.0, 3.0))
    else if key == HemiSkyColorKey then Str(if v.Str? then v.s else DefaultHemiSkyColor)
    else if key == HemiGroundColorKey then Str(if v.Str? then v.s else DefaultHemiGroundColor)
    else v
  }

  /** Proof step: the record-level repair, one setting at a time. */
  lemma RepairByField(m: map<string, Value>, key: string)
    requires FieldNames <= m.Keys && key in FieldNames
    ensures Field(Repair(m), key) == RepairedField(key, m[key])
  {
    var c := Repair(m);
    var v := m[key];
    if key == FrontArtKey {
      assert c.frontArt == ParseArtwork(v).GetOr(Front);
    } else if key == BackArtKey {
      assert c.backArt == ParseArtwork(v).GetOr(Back);
    } else if key == VinylRevealKey {
      assert c.vinylReveal == ClampValue(v, 0.0, 1.0);
    } else if key == OverlayOpacityKey {
      assert c.overlayOpacity == ClampValue(v, 0.0, 1.0);
    } else if key == HemiIntensityKey {
      assert c.hemiIntensity == Clamp(if v.Number? then v.n else DefaultHemiIntensity, 0.0, 3.0);
    } else if key == HemiSkyColorKey {
      assert c.hemiSkyColor == if v.Str? then v.s else DefaultHemiSkyColor;
    } else if key == HemiGroundColorKey {
      assert c.hemiGroundColor == if v.Str? then v.s else DefaultHemiGroundColor;
    }
  }

  /** Proof step: the load followed by the write-back, one setting at a time. */
  lemma LoadField(stored: map<string, Value>, key: string)
    requires key in FieldNames
    ensures Persist(Load(Some(stored)))[key] == RepairedField(key, Merge(stored)[key])
  {
    RepairByField(Merge(stored), key);
  }

  /** A setting absent from the stored record loads as its default. */
  lemma LoadAbsentField(stored: map<string, Value>, key: string)
    requires key in FieldNames && key !in stored
    ensures Persist(Load(Some(stored)))[key] == DefaultRecord[key]
  {
    LoadField(stored, key);
  }

  /**
   * A setting present in the stored record survives the load unchanged
   * exactly when the loader accepts it; otherwise it is repaired. A stored
   * reveal or overlay opacity must be a number: what the clamp makes of
   * any other value is not modelled.
   */
  lemma LoadPresentField(stored: map<string, Value>, key: string)
    requires key in FieldNames && key in stored
    requires (key == VinylRevealKey || key == OverlayOpacityKey) ==> stored[key].Number?
    ensures Persist(Load(Some(stored)))[key] == stored[key] <==> Accepted(key, stored[key])
  {
    LoadField(stored, key);
  }

  /** Keys that are not settings survive the merge but are never written back. */
  lemma LoadKeepsExtras(stored: map<string, Value>)
    ensures Load(Some(stored)).extra.Keys == stored.Keys - FieldNames
    ensures Persist(Load(Some(stored))).Keys == FieldNames
  {
  }

  /** Loading what was persisted from validated settings gives them back. */
  lemma LoadPersistRoundTrip(c: Config)
    requires Validated(c)
    ensures Load(Some(Persist(c))) == c.(extra := map[])
  {
    ParseArtworkName(c.frontArt);
    ParseArtworkName(c.backArt);
    var m := Merge(Persist(c));
    assert m == Persist(c);
    assert m - FieldNames == map[];
  }

  /** Persisting after a load and loading again changes nothing. */
  lemma LoadIsIdempotent(stored: Option<map<string, Value>>)
    ensures Load(Some(Persist(Load(stored)))) == Load(stored).(extra := map[])
  {
    LoadPersistRoundTrip(Load(stored));
  }
}
