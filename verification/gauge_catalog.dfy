/**
 * The static catalog of string-gauge sets, one ordered list per instrument
 * category, and its three lookups: list, default and by id.
 */
module GaugeCatalog {
  import opened Wrappers

  /** The instrument categories the bridge-compensation engine distinguishes. */
  datatype Instrument = ElectricGuitar | AcousticGuitar | BassGuitar | ClassicalGuitar | Ukulele

  /** A commercial string set: gauges are string diameters in inches, in catalog order. */
  datatype GaugeSet = GaugeSet(id: string, name: string, description: string, gauges: seq<real>, isDefault: bool)

  /** The catalog: every category's gauge sets in their canonical order. */
  function GaugeSetsForInstrument(t: Instrument): (sets: seq<GaugeSet>)
    ensures |sets| > 0
  {
    match t
    case ElectricGuitar => [
      GaugeSet("light", "Light", "Light (9-42)", [0.009, 0.011, 0.016, 0.024, 0.032, 0.042], true),
      GaugeSet("regular", "Regular", "Regular (10-46)", [0.010, 0.013, 0.017, 0.026, 0.036, 0.046], false),
      GaugeSet("medium", "Medium", "Medium (11-49)", [0.011, 0.014, 0.018, 0.028, 0.038, 0.049], false),
      GaugeSet("heavy", "Heavy", "Heavy (12-54)", [0.012, 0.016, 0.024, 0.032, 0.042, 0.054], false)
    ]
    case AcousticGuitar => [
      GaugeSet("extraLight", "Extra Light", "Extra Light (10-47)", [0.010, 0.014, 0.023, 0.030, 0.039, 0.047], false),
      GaugeSet("light", "Light", "Light (12-53)", [0.012, 0.016, 0.025, 0.032, 0.042, 0.053], true),
      GaugeSet("medium", "Medium", "Medium (13-56)", [0.013, 0.017, 0.026, 0.035, 0.045, 0.056], false),
      GaugeSet("heavy", "Heavy", "Heavy (14-59)", [0.014, 0.018, 0.027, 0.039, 0.049, 0.059], false)
    ]
    case BassGuitar => [
      GaugeSet("light", "Light", "Light (40-95)", [0.040, 0.060, 0.075, 0.095], false),
      GaugeSet("medium", "Medium", "Medium (45-105)", [0.045, 0.065, 0.085, 0.105], true),
      GaugeSet("heavy", "Heavy", "Heavy (50-110)", [0.050, 0.070, 0.090, 0.110], false),
      GaugeSet("extraHeavy", "Extra Heavy", "Extra Heavy (55-115)", [0.055, 0.075, 0.095, 0.115], false)
    ]
    case ClassicalGuitar => [
      GaugeSet("normalTension", "Normal Tension", "Normal Tension", [0.028, 0.032, 0.040, 0.029, 0.035, 0.043], true),
      GaugeSet("highTension", "High Tension", "High Tension", [0.029, 0.033, 0.041, 0.030, 0.036, 0.044], false),
      GaugeSet("extraHighTension", "Extra High Tension", "Extra High Tension", [0.030, 0.034, 0.042, 0.031, 0.037, 0.045], false)
    ]
    case Ukulele => [
      GaugeSet("standard", "Standard", "Standard", [0.024, 0.031, 0.037, 0.026], true),
      GaugeSet("concert", "Concert", "Concert", [0.025, 0.032, 0.038, 0.027], false),
      GaugeSet("tenor", "Tenor", "Tenor", [0.026, 0.033, 0.040, 0.029], false)
    ]
  }

  /** The ids of a category's sets, in catalog order. */
  function GaugeSetIds(t: Instrument): seq<string> {
    var sets := GaugeSetsForInstrument(t);
    seq(|sets|, i requires 0 <= i < |sets| => sets[i].id)
  }

  /** The catalog's ids and their order, as the application lists them. */
  lemma CatalogIds()
    ensures GaugeSetIds(ElectricGuitar) == ["light", "regular", "medium", "heavy"]
    ensures GaugeSetIds(AcousticGuitar) == ["extraLight", "light", "medium", "heavy"]
    ensures GaugeSetIds(BassGuitar) == ["light", "medium", "heavy", "extraHeavy"]
    ensures GaugeSetIds(ClassicalGuitar) == ["normalTension", "highTension", "extraHighTension"]
    ensures GaugeSetIds(Ukulele) == ["standard", "concert", "tenor"]
  {
  }

  /** A set with at least one gauge, every gauge positive. */
  predicate PositiveSet(s: GaugeSet) {
    |s.gauges| > 0 && forall k :: 0 <= k < |s.gauges| ==> s.gauges[k] > 0.0
  }

  /** Every set in the list has at least one gauge, and every gauge is positive. */
  predicate PositiveGauges(sets: seq<GaugeSet>) {
    forall i :: 0 <= i < |sets| ==> PositiveSet(sets[i])
  }

  /** No two sets in the list share an id. */
  predicate UniqueIds(sets: seq<GaugeSet>) {
    forall i, j :: 0 <= i < j < |sets| ==> sets[i].id != sets[j].id
  }

  /** Exactly one set in the list carries the default flag. */
  predicate SingleDefault(sets: seq<GaugeSet>) {
    (exists i :: 0 <= i < |sets| && sets[i].isDefault) &&
    forall i, j :: 0 <= i < |sets| && 0 <= j < |sets| && sets[i].isDefault && sets[j].isDefault ==> i == j
  }

  /**
   * Every category is well formed: each set has positive gauges, ids are
   * unique within the category, and exactly one set carries the default flag.
   */
  lemma CatalogWellFormed(t: Instrument)
    ensures PositiveGauges(GaugeSetsForInstrument(t))
    ensures UniqueIds(GaugeSetsForInstrument(t))
    ensures SingleDefault(GaugeSetsForInstrument(t))
  {
    CatalogHasPositiveGauges(t);
    CatalogHasUniqueIds(t);
    CatalogHasSingleDefault(t);
  }

  lemma CatalogHasPositiveGauges(t: Instrument)
    ensures PositiveGauges(GaugeSetsForInstrument(t))
  {
    var sets := GaugeSetsForInstrument(t);
    forall i | 0 <= i < |sets|
      ensures PositiveSet(sets[i])
    {
      var g := sets[i].gauges;
      assert |g| > 0 && forall k :: 0 <= k < |g| ==> g[k] >= 0.009;
    }
  }

  lemma CatalogHasUniqueIds(t: Instrument)
    ensures UniqueIds(GaugeSetsForInstrument(t))
  {
    match t
    case ElectricGuitar =>
    case AcousticGuitar =>
    case BassGuitar =>
    case ClassicalGuitar =>
    case Ukulele =>
  }

  lemma CatalogHasSingleDefault(t: Instrument)
    ensures SingleDefault(GaugeSetsForInstrument(t))
  {
    var sets := GaugeSetsForInstrument(t);
    match t
    case ElectricGuitar => assert sets[0].isDefault;
    case AcousticGuitar => assert sets[1].isDefault;
    case BassGuitar => assert sets[1].isDefault;
    case ClassicalGuitar => assert sets[0].isDefault;
    case Ukulele => assert sets[0].isDefault;
  }

  /**
   * The index of the first set satisfying p, as the array search of the
   * application returns the first match.
   */
  function FindIndex(sets: seq<GaugeSet>, p: GaugeSet -> bool): (r: Option<nat>)
    ensures r.Some? ==> r.value < |sets| && p(sets[r.value])
    ensures r.Some? ==> forall j :: 0 <= j < r.value ==> !p(sets[j])
    ensures r.None? ==> forall j :: 0 <= j < |sets| ==> !p(sets[j])
  {
    if |sets| == 0 then None
    else if p(sets[0]) then Some(0)
    else match FindIndex(sets[1..], p)
      case None => None
      case Some(i) => Some(i + 1)
  }

  /** The first set flagged as default, or the first set when none is flagged. */
  function DefaultGaugeSet(t: Instrument): (r: GaugeSet)
    ensures r in GaugeSetsForInstrument(t)
    ensures (exists s :: s in GaugeSetsForInstrument(t) && s.isDefault) ==> r.isDefault
    ensures r.isDefault ==>
      exists i :: 0 <= i < |GaugeSetsForInstrument(t)| && GaugeSetsForInstrument(t)[i] == r &&
        forall j :: 0 <= j < i ==> !GaugeSetsForInstrument(t)[j].isDefault
    ensures (forall s :: s in GaugeSetsForInstrument(t) ==> !s.isDefault) ==> r == GaugeSetsForInstrument(t)[0]
  {
    var sets := GaugeSetsForInstrument(t);
    match FindIndex(sets, (s: GaugeSet) => s.isDefault)
    case Some(i) => sets[i]
    case None => sets[0]
  }

  /** The defaults per category: light, light, medium, normal tension, standard. */
  lemma DefaultIds()
    ensures DefaultGaugeSet(ElectricGuitar).id == "light"
    ensures DefaultGaugeSet(AcousticGuitar).id == "light"
    ensures DefaultGaugeSet(BassGuitar).id == "medium"
    ensures DefaultGaugeSet(ClassicalGuitar).id == "normalTension"
    ensures DefaultGaugeSet(Ukulele).id == "standard"
  {
    CatalogWellFormed(ElectricGuitar);
    CatalogWellFormed(AcousticGuitar);
    CatalogWellFormed(BassGuitar);
    CatalogWellFormed(ClassicalGuitar);
    CatalogWellFormed(Ukulele);
  }

  /**
   * The gauges of each category's default set (the older per-category
   * constant, kept for compatibility): never empty, every diameter positive.
   */
  function StandardStringGauges(t: Instrument): (r: seq<real>)
    ensures |r| > 0 && forall g :: g in r ==> g > 0.0
  {
    CatalogWellFormed(t);
    DefaultGaugeSet(t).gauges
  }

  /** The electric guitar's default gauges: the light set, 9 to 42 thousandths. */
  lemma ElectricDefaultGauges()
    ensures StandardStringGauges(ElectricGuitar) == [0.009, 0.011, 0.016, 0.024, 0.032, 0.042]
  {
    var sets := GaugeSetsForInstrument(ElectricGuitar);
    assert sets[0].isDefault;
  }

  /** The bass guitar's default gauges: the medium set, 45 to 105 thousandths. */
  lemma BassDefaultGauges()
    ensures StandardStringGauges(BassGuitar) == [0.045, 0.065, 0.085, 0.105]
  {
    var sets := GaugeSetsForInstrument(BassGuitar);
    assert !sets[0].isDefault && sets[1].isDefault;
  }

  /**
   * Lookup by id, scoped to one category: the first set of that category
   * with the id, or None when the category has no set with that id.
   */
  function GaugeSetById(t: Instrument, gaugeSetId: string): (r: Option<GaugeSet>)
    ensures r.Some? ==> r.value in GaugeSetsForInstrument(t) && r.value.id == gaugeSetId
    ensures r.None? <==> forall s :: s in GaugeSetsForInstrument(t) ==> s.id != gaugeSetId
  {
    var sets := GaugeSetsForInstrument(t);
    match FindIndex(sets, (s: GaugeSet) => s.id == gaugeSetId)
    case Some(i) => Some(sets[i])
    case None => None
  }

  /** Every set of a category is found again by its own id. */
  lemma ByIdFindsEverySet(t: Instrument, i: nat)
    requires i < |GaugeSetsForInstrument(t)|
    ensures GaugeSetById(t, GaugeSetsForInstrument(t)[i].id) == Some(GaugeSetsForInstrument(t)[i])
  {
    CatalogWellFormed(t);
    var sets := GaugeSetsForInstrument(t);
    var id := sets[i].id;
    var k := FindIndex(sets, (s: GaugeSet) => s.id == id);
    assert k.Some? && k.value == i;
  }

  /** Lookups never cross categories: the classical-only id is not found among electric sets. */
  lemma ByIdIsScopedToCategory()
    ensures GaugeSetById(ElectricGuitar, "normalTension") == None
    ensures GaugeSetById(ClassicalGuitar, "normalTension").Some?
    ensures GaugeSetById(ElectricGuitar, "nonexistent") == None
    ensures GaugeSetById(ElectricGuitar, "heavy") == Some(GaugeSetsForInstrument(ElectricGuitar)[3])
  {
    ByIdFindsEverySet(ClassicalGuitar, 0);
    ByIdFindsEverySet(ElectricGuitar, 3);
  }
}
