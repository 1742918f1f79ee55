/**
 * The bridge-compensation engine: instrument classification by scale length,
 * the wound/plain rule, the empirical per-string compensation formula and the
 * recommendation that aggregates them over a gauge list.
 */
module BridgeCompensation {
  import opened Units
  import opened Wrappers
  import opened GaugeCatalog

  // ---------------------------------------------------------------------------
  // Instrument classification

  /**
   * The scale length the classifier works with: a value above 100 is taken to
   * be millimetres and brought back to inches, anything else is inches already.
   */
  function DetectedInches(scaleLength: real): (x: real)
    ensures scaleLength <= 100.0 ==> x == scaleLength
    ensures scaleLength > 100.0 ==> x * MM_PER_INCH == scaleLength && x < scaleLength
  {
    if scaleLength > 100.0 then scaleLength / MM_PER_INCH else scaleLength
  }

  /** The classical band, 25.55 to 25.65 inches inclusive (about 650 mm). */
  predicate InClassicalBand(x: real) {
    25.55 <= x <= 25.65
  }

  /** The steel-string guitar band, 24 to 26 inches inclusive. */
  predicate InGuitarBand(x: real) {
    24.0 <= x <= 26.0
  }

  /**
   * Classifies an instrument by its scale length (inches or millimetres) and
   * fret count. The thresholds are tried in order: bass, ukulele, classical,
   * then the guitar band split by fret count; anything else is electric.
   */
  function InstrumentType(scaleLength: real, numberOfFrets: int): (r: Instrument)
    ensures var x := DetectedInches(scaleLength);
      && (r == BassGuitar <==> x >= 30.0)
      && (r == Ukulele <==> x <= 17.0)
      && (r == ClassicalGuitar <==> InClassicalBand(x))
      && (r == AcousticGuitar <==> InGuitarBand(x) && !InClassicalBand(x) && numberOfFrets < 22)
      && (r == ElectricGuitar <==>
            17.0 < x < 30.0 && !InClassicalBand(x) && (InGuitarBand(x) ==> numberOfFrets >= 22))
  {
    var x := DetectedInches(scaleLength);
    if x >= 30.0 then BassGuitar
    else if x <= 17.0 then Ukulele
    else if InClassicalBand(x) then ClassicalGuitar
    else if InGuitarBand(x) then (if numberOfFrets >= 22 then ElectricGuitar else AcousticGuitar)
    else ElectricGuitar
  }

  /**
   * Millimetre auto-detection: a length written in millimetres classifies like
   * the same length written in inches, whenever the inch value is at most 100
   * and the millimetre value exceeds 100.
   */
  lemma MillimetreInputAgrees(x: real, numberOfFrets: int)
    requires x <= 100.0 && x * MM_PER_INCH > 100.0
    ensures InstrumentType(x * MM_PER_INCH, numberOfFrets) == InstrumentType(x, numberOfFrets)
  {
    assert DetectedInches(x * MM_PER_INCH) == x;
  }

  /**
   * The other side of the heuristic: an inch value above 100 is read as
   * millimetres, so every length in (100, 431.8] classifies as a ukulele.
   */
  lemma OversizedInchInputIsReadAsMillimetres(scaleLength: real, numberOfFrets: int)
    requires 100.0 < scaleLength <= 431.8
    ensures InstrumentType(scaleLength, numberOfFrets) == Ukulele
  {
  }

  /** The classifications the application's unit tests pin down. */
  lemma ClassifierExamples()
    ensures InstrumentType(25.5, 24) == ElectricGuitar && InstrumentType(24.75, 22) == ElectricGuitar
    ensures InstrumentType(25.4, 20) == AcousticGuitar && InstrumentType(24.9, 20) == AcousticGuitar
    ensures InstrumentType(34.0, 24) == BassGuitar && InstrumentType(32.0, 24) == BassGuitar
    ensures InstrumentType(17.0, 15) == Ukulele && InstrumentType(15.0, 12) == Ukulele
    ensures InstrumentType(647.7, 24) == ElectricGuitar && InstrumentType(431.8, 15) == Ukulele
    ensures InstrumentType(25.6, 24) == ClassicalGuitar
  {
    assert DetectedInches(647.7) == 25.5;
    assert DetectedInches(431.8) == 17.0;
  }

  // ---------------------------------------------------------------------------
  // Wound or plain

  /**
   * Whether a string of the given gauge (inches) is wound on this kind of
   * instrument: every bass string is, no ukulele string is, classical strings
   * from 0.029 and steel-string guitar strings from 0.024 are.
   */
  function IsWoundString(stringGauge: real, t: Instrument): (r: bool)
    ensures t == BassGuitar ==> r
    ensures t == Ukulele ==> !r
    ensures (t == ElectricGuitar || t == AcousticGuitar) ==> (r <==> stringGauge >= 0.024)
    ensures t == ClassicalGuitar ==> (r <==> stringGauge >= 0.029)
  {
    match t
    case ElectricGuitar => stringGauge >= 0.024
    case AcousticGuitar => stringGauge >= 0.024
    case ClassicalGuitar => stringGauge >= 0.029
    case BassGuitar => true
    case Ukulele => false
  }

  /** Within a category, a string thicker than a wound one is wound as well. */
  lemma WoundIsUpwardClosed(g1: real, g2: real, t: Instrument)
    requires g1 <= g2 && IsWoundString(g1, t)
    ensures IsWoundString(g2, t)
  {
  }

  /**
   * The gauge threshold reaches the plain treble strings of the classical
   * catalog: in the normal-tension set the second and third strings (0.032 and
   * 0.040) count as wound, like the three bass strings, and only the first is plain.
   */
  lemma ClassicalTreblesCountAsWound()
    ensures var g := DefaultGaugeSet(ClassicalGuitar).gauges;
      |g| == 6 && !IsWoundString(g[0], ClassicalGuitar) &&
      forall i :: 1 <= i < 6 ==> IsWoundString(g[i], ClassicalGuitar)
  {
    CatalogWellFormed(ClassicalGuitar);
  }

  // ---------------------------------------------------------------------------
  // Per-string compensation

  datatype StringKind = Wound | Plain

  /** The tension factor, the square root of the default tension 1.0. */
  const TENSION_FACTOR: real := 1.0

  /** The scale length, in inches, the formula is normalised to. */
  const REFERENCE_SCALE: real := 25.5

  /**
   * Empirical saddle compensation, in inches, for one string: half the gauge,
   * two and a half times that for a wound string, scaled by the scale length
   * relative to 25.5 inches.
   */
  function Compensation(stringGauge: real, kind: StringKind, scaleLength: real): (c: real)
    ensures stringGauge > 0.0 && scaleLength > 0.0 ==> c > 0.0
  {
    var baseCompensation := stringGauge * 0.5;
    var woundMultiplier := if kind == Wound then 2.5 else 1.0;
    baseCompensation * woundMultiplier * TENSION_FACTOR * (scaleLength / REFERENCE_SCALE)
  }

  /** A wound string needs two and a half times the compensation of a plain one. */
  lemma WoundIsTwoAndAHalfPlain(stringGauge: real, scaleLength: real)
    ensures Compensation(stringGauge, Wound, scaleLength) == 2.5 * Compensation(stringGauge, Plain, scaleLength)
  {
  }

  /** The compensation per inch of gauge for a string kind on a scale length. */
  function PerGauge(kind: StringKind, scaleLength: real): real {
    0.5 * (if kind == Wound then 2.5 else 1.0) * TENSION_FACTOR * (scaleLength / REFERENCE_SCALE)
  }

  lemma CompensationIsLinearInGauge(stringGauge: real, kind: StringKind, scaleLength: real)
    ensures Compensation(stringGauge, kind, scaleLength) == stringGauge * PerGauge(kind, scaleLength)
    ensures scaleLength > 0.0 ==> PerGauge(kind, scaleLength) > 0.0
  {
  }

  /** On a positive scale length, a thicker string needs strictly more compensation. */
  lemma CompensationIncreasesWithGauge(g1: real, g2: real, kind: StringKind, scaleLength: real)
    requires g1 < g2 && scaleLength > 0.0
    ensures Compensation(g1, kind, scaleLength) < Compensation(g2, kind, scaleLength)
  {
    CompensationIsLinearInGauge(g1, kind, scaleLength);
    CompensationIsLinearInGauge(g2, kind, scaleLength);
    MultiplyStrict(g1, g2, PerGauge(kind, scaleLength));
  }

  /** For a positive gauge, a longer scale needs strictly more compensation. */
  lemma CompensationIncreasesWithScale(stringGauge: real, kind: StringKind, s1: real, s2: real)
    requires stringGauge > 0.0 && s1 < s2
    ensures Compensation(stringGauge, kind, s1) < Compensation(stringGauge, kind, s2)
  {
    CompensationIsLinearInGauge(stringGauge, kind, s1);
    CompensationIsLinearInGauge(stringGauge, kind, s2);
    MultiplyStrict(PerGauge(kind, s1), PerGauge(kind, s2), stringGauge);
  }

  /** Compensation is proportional to the scale length. */
  lemma CompensationProportionalToScale(stringGauge: real, kind: StringKind, a: real, scaleLength: real)
    ensures Compensation(stringGauge, kind, a * scaleLength) == a * Compensation(stringGauge, kind, scaleLength)
  {
    var k := stringGauge * 0.5 * (if kind == Wound then 2.5 else 1.0) * TENSION_FACTOR / REFERENCE_SCALE;
    assert Compensation(stringGauge, kind, scaleLength) == k * scaleLength;
    assert Compensation(stringGauge, kind, a * scaleLength) == k * (a * scaleLength);
  }

  /** Multiplying by a positive factor keeps a strict order. */
  lemma MultiplyStrict(a: real, b: real, k: real)
    requires a < b && k > 0.0
    ensures a * k < b * k
  {
  }

  /** Dividing by a positive count keeps the bounds of a sum. */
  lemma DivideBounds(lo: real, hi: real, total: real, n: real)
    requires n > 0.0 && n * lo <= total <= n * hi
    ensures lo <= total / n <= hi
  {
  }

  /** Converting a total to millimetres converts its quotient by a count. */
  lemma QuotientScales(total: real, totalMm: real, n: real)
    requires n > 0.0 && totalMm == MM_PER_INCH * total
    ensures totalMm / n == MM_PER_INCH * (total / n)
  {
  }

  // ---------------------------------------------------------------------------
  // Folds over the compensation amounts

  /** The smallest value of a non-empty list. */
  function Min(s: seq<real>): (m: real)
    requires |s| > 0
    ensures m in s
    ensures forall i :: 0 <= i < |s| ==> m <= s[i]
  {
    if |s| == 1 then s[0]
    else
      var rest := Min(s[1..]);
      if s[0] <= rest then s[0] else rest
  }

  /** The largest value of a non-empty list. */
  function Max(s: seq<real>): (m: real)
    requires |s| > 0
    ensures m in s
    ensures forall i :: 0 <= i < |s| ==> s[i] <= m
  {
    if |s| == 1 then s[0]
    else
      var rest := Max(s[1..]);
      if s[0] >= rest then s[0] else rest
  }

  /** The sum of a list, accumulated from the left starting at 0. */
  function Sum(s: seq<real>): real {
    if |s| == 0 then 0.0 else Sum(s[..|s| - 1]) + s[|s| - 1]
  }

  /** The arithmetic mean of a non-empty list. */
  function Mean(s: seq<real>): real
    requires |s| > 0
  {
    Sum(s) / (|s| as real)
  }

  /** A sum is bounded by the list's length times its minimum and its maximum. */
  lemma {:induction false} SumBounds(s: seq<real>, lo: real, hi: real)
    requires forall i :: 0 <= i < |s| ==> lo <= s[i] <= hi
    ensures (|s| as real) * lo <= Sum(s) <= (|s| as real) * hi
  {
    if |s| > 0 {
      SumBounds(s[..|s| - 1], lo, hi);
    }
  }

  /** A mean lies within any bounds of the list's elements. */
  lemma MeanBounds(s: seq<real>, lo: real, hi: real)
    requires |s| > 0
    requires forall i :: 0 <= i < |s| ==> lo <= s[i] <= hi
    ensures lo <= Mean(s) <= hi
  {
    SumBounds(s, lo, hi);
    DivideBounds(lo, hi, Sum(s), |s| as real);
  }

  /** Converting every element to millimetres converts the sum. */
  lemma {:induction false} SumScales(s: seq<real>, t: seq<real>)
    requires |t| == |s| && forall i :: 0 <= i < |s| ==> t[i] == MM_PER_INCH * s[i]
    ensures Sum(t) == MM_PER_INCH * Sum(s)
  {
    if |s| > 0 {
      SumScales(s[..|s| - 1], t[..|t| - 1]);
    }
  }

  /** Converting every element to millimetres converts the minimum. */
  lemma {:induction false} MinScales(s: seq<real>, t: seq<real>)
    requires |s| > 0
    requires |t| == |s| && forall i :: 0 <= i < |s| ==> t[i] == MM_PER_INCH * s[i]
    ensures Min(t) == MM_PER_INCH * Min(s)
  {
    if |s| > 1 {
      MinScales(s[1..], t[1..]);
    }
  }

  /** Converting every element to millimetres converts the maximum. */
  lemma {:induction false} MaxScales(s: seq<real>, t: seq<real>)
    requires |s| > 0
    requires |t| == |s| && forall i :: 0 <= i < |s| ==> t[i] == MM_PER_INCH * s[i]
    ensures Max(t) == MM_PER_INCH * Max(s)
  {
    if |s| > 1 {
      MaxScales(s[1..], t[1..]);
    }
  }

  // ---------------------------------------------------------------------------
  // The recommendation

  /** What the per-string explanation text reports. */
  datatype Reason = Reason(kind: StringKind, stringGauge: real, amount: real, units: Unit)

  datatype StringCompensation = StringCompensation(stringNumber: int, compensation: real, reason: Reason)

  datatype CompensationRange = CompensationRange(min: real, max: real)

  /** What the overall explanation text reports: the range and the unit. */
  datatype Explanation = Explanation(min: real, max: real, units: Unit)

  /**
   * Setup tips. The five general tips of a recommendation, of which only the
   * first carries a number, and the three instrument-specific ones per category.
   */
  datatype Tip =
    | StartBridgeAt(position: real, units: Unit)
    | AdjustSaddlesByWinding
    | TuneAtTwelfthFret
    | ThickestNeedMost
    | RecheckAfterGaugeChange
    | InstrumentTip(instrument: Instrument, index: nat)

  datatype BridgeRecommendation = BridgeRecommendation(
    overallPosition: real,
    compensations: seq<StringCompensation>,
    compensationRange: CompensationRange,
    explanation: Explanation,
    tips: seq<Tip>)

  /** The scale length in inches, from a length in the given unit. */
  function ScaleInInches(scaleLength: real, units: Unit): (x: real)
    ensures x == ConvertValue(scaleLength, units.Name(), "inches")
  {
    if units == Mm then scaleLength / MM_PER_INCH else scaleLength
  }

  /** A length in inches expressed in the given unit. */
  function InchesInUnits(x: real, units: Unit): (r: real)
    ensures r == ConvertValue(x, "inches", units.Name())
  {
    if units == Mm then x * MM_PER_INCH else x
  }

  /** The gauges a recommendation uses: the caller's list, or the category's default set. */
  function GaugesUsed(t: Instrument, customStringGauges: Option<seq<real>>): seq<real> {
    match customStringGauges
    case Some(g) => g
    case None => StandardStringGauges(t)
  }

  function KindOf(isWound: bool): StringKind {
    if isWound then Wound else Plain
  }

  /** The compensation entry of one string, numbered from 1. */
  function StringEntry(index: nat, stringGauge: real, t: Instrument, scaleLengthInches: real, units: Unit): StringCompensation {
    var kind := KindOf(IsWoundString(stringGauge, t));
    var amount := InchesInUnits(Compensation(stringGauge, kind, scaleLengthInches), units);
    StringCompensation(index + 1, amount, Reason(kind, stringGauge, amount, units))
  }

  /** One entry per gauge, in order, each converted from inches to the given unit. */
  function CompensationsFor(gauges: seq<real>, t: Instrument, scaleLengthInches: real, units: Unit): (cs: seq<StringCompensation>)
    ensures |cs| == |gauges|
    ensures forall i :: 0 <= i < |gauges| ==>
      && cs[i].stringNumber == i + 1
      && cs[i].reason.stringGauge == gauges[i]
      && cs[i].reason.amount == cs[i].compensation
      && (cs[i].reason.kind == Wound <==> IsWoundString(gauges[i], t))
      && cs[i].compensation == ConvertValue(Compensation(gauges[i], cs[i].reason.kind, scaleLengthInches), "inches", units.Name())
  {
    seq(|gauges|, i requires 0 <= i < |gauges| => StringEntry(i, gauges[i], t, scaleLengthInches, units))
  }

  function Amounts(cs: seq<StringCompensation>): (a: seq<real>)
    ensures |a| == |cs| && forall i :: 0 <= i < |cs| ==> a[i] == cs[i].compensation
  {
    seq(|cs|, i requires 0 <= i < |cs| => cs[i].compensation)
  }

  /** A value among the amounts is the compensation of some entry. */
  lemma AmountIsAttained(cs: seq<StringCompensation>, m: real)
    requires m in Amounts(cs)
    ensures exists i :: 0 <= i < |cs| && cs[i].compensation == m
  {
    var a := Amounts(cs);
    var i :| 0 <= i < |a| && a[i] == m;
    assert cs[i].compensation == m;
  }

  /** The smallest and the largest compensation of a non-empty list of entries. */
  function RangeOf(cs: seq<StringCompensation>): (rg: CompensationRange)
    requires |cs| > 0
    ensures forall i :: 0 <= i < |cs| ==> rg.min <= Amounts(cs)[i] <= rg.max
    ensures exists i :: 0 <= i < |cs| && cs[i].compensation == rg.min
    ensures exists i :: 0 <= i < |cs| && cs[i].compensation == rg.max
  {
    var amounts := Amounts(cs);
    AmountIsAttained(cs, Min(amounts));
    AmountIsAttained(cs, Max(amounts));
    CompensationRange(Min(amounts), Max(amounts))
  }

  /**
   * The bridge recommendation for a scale length given in `units`: one
   * compensation per gauge, their range, and the bridge position at the scale
   * length plus the mean compensation, all in `units`. The gauges are the
   * caller's, or else the default set of the category the scale length falls in.
   */
  function BridgeRecommendations(scaleLength: real, numberOfFrets: int, units: Unit, customStringGauges: Option<seq<real>>)
    : (r: BridgeRecommendation)
    requires customStringGauges.Some? ==> |customStringGauges.value| > 0
    ensures var inches := ScaleInInches(scaleLength, units);
      var t := InstrumentType(inches, numberOfFrets);
      var gauges := GaugesUsed(t, customStringGauges);
      && |r.compensations| == |gauges|
      && (forall i :: 0 <= i < |gauges| ==>
            && r.compensations[i].stringNumber == i + 1
            && r.compensations[i].reason.stringGauge == gauges[i]
            && r.compensations[i].reason.amount == r.compensations[i].compensation
            && (r.compensations[i].reason.kind == Wound <==> IsWoundString(gauges[i], t))
            && r.compensations[i].compensation ==
                 ConvertValue(Compensation(gauges[i], r.compensations[i].reason.kind, inches), "inches", units.Name()))
    ensures forall i :: 0 <= i < |r.compensations| ==>
      r.compensationRange.min <= r.compensations[i].compensation <= r.compensationRange.max
    ensures exists i :: 0 <= i < |r.compensations| && r.compensations[i].compensation == r.compensationRange.min
    ensures exists i :: 0 <= i < |r.compensations| && r.compensations[i].compensation == r.compensationRange.max
    ensures r.compensationRange.min <= r.overallPosition - scaleLength <= r.compensationRange.max
    ensures r.explanation == Explanation(r.compensationRange.min, r.compensationRange.max, units)
    ensures |r.tips| == 5 && r.tips[0] == StartBridgeAt(r.overallPosition, units)
    ensures r.overallPosition == scaleLength + Mean(Amounts(r.compensations))
  {
    var inches := ScaleInInches(scaleLength, units);
    var t := InstrumentType(inches, numberOfFrets);
    Recommend(scaleLength, units, t, GaugesUsed(t, customStringGauges))
  }

  /** The recommendation for a known category and gauge list. */
  function Recommend(scaleLength: real, units: Unit, t: Instrument, gauges: seq<real>): (r: BridgeRecommendation)
    requires |gauges| > 0
    ensures r.compensations == CompensationsFor(gauges, t, ScaleInInches(scaleLength, units), units)
    ensures forall i :: 0 <= i < |r.compensations| ==>
      r.compensationRange.min <= r.compensations[i].compensation <= r.compensationRange.max
    ensures exists i :: 0 <= i < |r.compensations| && r.compensations[i].compensation == r.compensationRange.min
    ensures exists i :: 0 <= i < |r.compensations| && r.compensations[i].compensation == r.compensationRange.max
    ensures r.compensationRange.min <= r.overallPosition - scaleLength <= r.compensationRange.max
    ensures r.explanation == Explanation(r.compensationRange.min, r.compensationRange.max, units)
    ensures |r.tips| == 5 && r.tips[0] == StartBridgeAt(r.overallPosition, units)
    ensures r.overallPosition == scaleLength + Mean(Amounts(r.compensations))
  {
    var compensations := CompensationsFor(gauges, t, ScaleInInches(scaleLength, units), units);
    var range := RangeOf(compensations);
    MeanBounds(Amounts(compensations), range.min, range.max);
    var overallPosition := scaleLength + Mean(Amounts(compensations));
    BridgeRecommendation(
      overallPosition,
      compensations,
      range,
      Explanation(range.min, range.max, units),
      [StartBridgeAt(overallPosition, units), AdjustSaddlesByWinding, TuneAtTwelfthFret,
       ThickestNeedMost, RecheckAfterGaugeChange])
  }

  /** Leaving the gauges out is the same as passing the category's default set. */
  lemma OmittedGaugesUseDefault(scaleLength: real, numberOfFrets: int, units: Unit)
    ensures BridgeRecommendations(scaleLength, numberOfFrets, units, None) ==
      BridgeRecommendations(scaleLength, numberOfFrets, units,
        Some(DefaultGaugeSet(InstrumentType(ScaleInInches(scaleLength, units), numberOfFrets)).gauges))
  {
    var t := InstrumentType(ScaleInInches(scaleLength, units), numberOfFrets);
    assert GaugesUsed(t, None) == GaugesUsed(t, Some(DefaultGaugeSet(t).gauges));
  }

  /**
   * With positive gauges and a positive scale length, every compensation is
   * positive, so the recommended bridge sits behind the scale length.
   */
  lemma PositiveInputsMoveBridgeBack(scaleLength: real, numberOfFrets: int, units: Unit, customStringGauges: Option<seq<real>>)
    requires scaleLength > 0.0
    requires customStringGauges.Some? ==> |customStringGauges.value| > 0 && forall g :: g in customStringGauges.value ==> g > 0.0
    ensures var r := BridgeRecommendations(scaleLength, numberOfFrets, units, customStringGauges);
      r.compensationRange.min > 0.0 && r.overallPosition > scaleLength
  {
    var r := BridgeRecommendations(scaleLength, numberOfFrets, units, customStringGauges);
    var inches := ScaleInInches(scaleLength, units);
    var t := InstrumentType(inches, numberOfFrets);
    var gauges := GaugesUsed(t, customStringGauges);
    var i :| 0 <= i < |r.compensations| && r.compensations[i].compensation == r.compensationRange.min;
    assert gauges[i] in gauges;
    assert Compensation(gauges[i], r.compensations[i].reason.kind, inches) > 0.0;
  }

  /**
   * Within one category and on a positive scale, a thicker string gets strictly
   * more compensation, the wound rule included: as the gauge grows a string can
   * only change from plain to wound, which multiplies its amount by 2.5. On a
   * zero scale every amount is 0 instead (`ZeroScaleCollapsesRange`).
   */
  lemma EntryIncreasing(i: nat, j: nat, g1: real, g2: real, t: Instrument, s: real, units: Unit)
    requires g1 < g2 && s > 0.0
    ensures StringEntry(i, g1, t, s, units).compensation < StringEntry(j, g2, t, s, units).compensation
  {
    var k1 := KindOf(IsWoundString(g1, t));
    var k2 := KindOf(IsWoundString(g2, t));
    if k1 == k2 {
      CompensationIncreasesWithGauge(g1, g2, k1, s);
    } else {
      CompensationIncreasesWithGauge(g1, g2, Plain, s);
      WoundIsTwoAndAHalfPlain(g2, s);
    }
  }

  /**
   * On a positive scale, a gauge list holding two different gauges gets a
   * compensation range whose minimum is strictly below its maximum.
   */
  lemma DistinctGaugesGiveStrictRange(scaleLength: real, units: Unit, t: Instrument, gauges: seq<real>, i: int, j: int)
    requires ScaleInInches(scaleLength, units) > 0.0
    requires 0 <= i < |gauges| && 0 <= j < |gauges| && gauges[i] != gauges[j]
    ensures var r := Recommend(scaleLength, units, t, gauges);
      r.compensationRange.min < r.compensationRange.max
  {
    var s := ScaleInInches(scaleLength, units);
    var cs := CompensationsFor(gauges, t, s, units);
    assert cs[i] == StringEntry(i, gauges[i], t, s, units);
    assert cs[j] == StringEntry(j, gauges[j], t, s, units);
    if gauges[i] < gauges[j] {
      EntryIncreasing(i, j, gauges[i], gauges[j], t, s, units);
    } else {
      EntryIncreasing(j, i, gauges[j], gauges[i], t, s, units);
    }
  }

  /** The same for the caller's own gauge list, whatever category the scale falls in. */
  lemma CustomDistinctGaugesGiveStrictRange(scaleLength: real, numberOfFrets: int, units: Unit, gauges: seq<real>, i: int, j: int)
    requires ScaleInInches(scaleLength, units) > 0.0
    requires 0 <= i < |gauges| && 0 <= j < |gauges| && gauges[i] != gauges[j]
    ensures var r := BridgeRecommendations(scaleLength, numberOfFrets, units, Some(gauges));
      r.compensationRange.min < r.compensationRange.max
  {
    var t := InstrumentType(ScaleInInches(scaleLength, units), numberOfFrets);
    DistinctGaugesGiveStrictRange(scaleLength, units, t, gauges, i, j);
  }

  /** On a zero scale every compensation is 0, so the range collapses to [0, 0]. */
  lemma ZeroScaleCollapsesRange(units: Unit, t: Instrument, gauges: seq<real>)
    requires |gauges| > 0
    ensures var r := Recommend(0.0, units, t, gauges);
      r.compensationRange.min == 0.0 && r.compensationRange.max == 0.0
  {
    var r := Recommend(0.0, units, t, gauges);
    var cs := CompensationsFor(gauges, t, 0.0, units);
    forall k | 0 <= k < |cs|
      ensures cs[k].compensation == 0.0
    {
      assert cs[k] == StringEntry(k, gauges[k], t, 0.0, units);
    }
  }

  /**
   * The same physical scale given in millimetres gives every compensation,
   * the range and the bridge position multiplied by 25.4: the category and the
   * formula only ever see the inch value.
   */
  lemma {:induction false} MillimetreRecommendationScales(x: real, numberOfFrets: int, customStringGauges: Option<seq<real>>)
    requires customStringGauges.Some? ==> |customStringGauges.value| > 0
    ensures var inch := BridgeRecommendations(x, numberOfFrets, Inches, customStringGauges);
      var mm := BridgeRecommendations(x * MM_PER_INCH, numberOfFrets, Mm, customStringGauges);
      && |mm.compensations| == |inch.compensations|
      && (forall i :: 0 <= i < |inch.compensations| ==>
            mm.compensations[i].compensation == MM_PER_INCH * inch.compensations[i].compensation)
      && mm.compensationRange.min == MM_PER_INCH * inch.compensationRange.min
      && mm.compensationRange.max == MM_PER_INCH * inch.compensationRange.max
      && mm.overallPosition == MM_PER_INCH * inch.overallPosition
  {
    assert ScaleInInches(x * MM_PER_INCH, Mm) == x;
    var t := InstrumentType(x, numberOfFrets);
    var gauges := GaugesUsed(t, customStringGauges);
    assert BridgeRecommendations(x, numberOfFrets, Inches, customStringGauges) == Recommend(x, Inches, t, gauges);
    assert BridgeRecommendations(x * MM_PER_INCH, numberOfFrets, Mm, customStringGauges) == Recommend(x * MM_PER_INCH, Mm, t, gauges);
    RecommendationScales(x, t, gauges);
  }

  lemma {:induction false} RecommendationScales(x: real, t: Instrument, gauges: seq<real>)
    requires |gauges| > 0
    ensures var inch := Recommend(x, Inches, t, gauges);
      var mm := Recommend(x * MM_PER_INCH, Mm, t, gauges);
      && |mm.compensations| == |inch.compensations|
      && (forall i :: 0 <= i < |inch.compensations| ==>
            mm.compensations[i].compensation == MM_PER_INCH * inch.compensations[i].compensation)
      && mm.compensationRange.min == MM_PER_INCH * inch.compensationRange.min
      && mm.compensationRange.max == MM_PER_INCH * inch.compensationRange.max
      && mm.overallPosition == MM_PER_INCH * inch.overallPosition
  {
    assert ScaleInInches(x * MM_PER_INCH, Mm) == x;
    var a := Amounts(CompensationsFor(gauges, t, x, Inches));
    var b := Amounts(CompensationsFor(gauges, t, x, Mm));
    AmountsConvert(x, t, gauges);
    MinScales(a, b);
    MaxScales(a, b);
    SumScales(a, b);
    QuotientScales(Sum(a), Sum(b), |a| as real);
  }

  /** Each string's millimetre compensation is 25.4 times its inch compensation. */
  lemma AmountsConvert(x: real, t: Instrument, gauges: seq<real>)
    ensures var a := Amounts(CompensationsFor(gauges, t, x, Inches));
      var b := Amounts(CompensationsFor(gauges, t, x, Mm));
      |b| == |a| && forall i :: 0 <= i < |a| ==> b[i] == MM_PER_INCH * a[i]
  {
  }

  /**
   * The electric-guitar scenario of the application's tests: six strings from
   * the light set, plain high E at 0.0045 inches and wound low E at 0.0525.
   */
  lemma ElectricGuitarStrings()
    ensures var r := BridgeRecommendations(25.5, 24, Inches, None);
      && |r.compensations| == 6
      && r.compensations[0].compensation == 0.0045
      && r.compensations[5].compensation == 0.0525
  {
    var r := BridgeRecommendations(25.5, 24, Inches, None);
    assert InstrumentType(25.5, 24) == ElectricGuitar;
    ElectricDefaultGauges();
    assert !IsWoundString(0.009, ElectricGuitar) && IsWoundString(0.042, ElectricGuitar);
    assert r.compensations[0].compensation == Compensation(0.009, Plain, 25.5);
    assert r.compensations[5].compensation == Compensation(0.042, Wound, 25.5);
  }

  /** In the same scenario the range is proper and the bridge sits behind the 25.5-inch scale. */
  lemma ElectricGuitarExample()
    ensures var r := BridgeRecommendations(25.5, 24, Inches, None);
      && 0.0 < r.compensationRange.min < r.compensationRange.max
      && r.overallPosition > 25.5
      && |r.tips| == 5
  {
    ElectricGuitarStrings();
    PositiveInputsMoveBridgeBack(25.5, 24, Inches, None);
  }

  /**
   * The bass scenario of the application's tests: four strings from the
   * medium set, the low E (0.105, wound) compensated by 0.175 inches on a
   * 34-inch scale.
   */
  lemma BassGuitarStrings()
    ensures var r := BridgeRecommendations(34.0, 24, Inches, None);
      && |r.compensations| == 4
      && r.compensations[3].compensation == 0.175
  {
    var g := [0.045, 0.065, 0.085, 0.105];
    BassScenarioGauges();
    var cs := CompensationsFor(g, BassGuitar, 34.0, Inches);
    assert cs[3].compensation == Compensation(0.105, Wound, 34.0);
  }

  /** A 34-inch, 24-fret neck is a bass and gets the medium set. */
  lemma BassScenarioGauges()
    ensures BridgeRecommendations(34.0, 24, Inches, None)
         == Recommend(34.0, Inches, BassGuitar, [0.045, 0.065, 0.085, 0.105])
  {
    assert InstrumentType(34.0, 24) == BassGuitar;
    BassDefaultGauges();
  }

  /** In the same scenario the largest compensation exceeds 0.01 inches and the bridge sits behind the scale. */
  lemma BassGuitarExample()
    ensures var r := BridgeRecommendations(34.0, 24, Inches, None);
      && r.compensationRange.max > 0.01
      && r.overallPosition > 34.0
  {
    BassGuitarStrings();
    PositiveInputsMoveBridgeBack(34.0, 24, Inches, None);
  }

  /**
   * Caller-supplied gauges replace the default set: a super-light set gives
   * the high E string 0.004 inches instead of the light set's 0.0045.
   */
  lemma CustomGaugesReplaceDefault()
    ensures var custom := BridgeRecommendations(25.5, 24, Inches, Some([0.008, 0.010, 0.015, 0.022, 0.030, 0.038]));
      var standard := BridgeRecommendations(25.5, 24, Inches, None);
      && |custom.compensations| == 6
      && custom.compensations[0].compensation == 0.004
      && custom.compensations[0].compensation != standard.compensations[0].compensation
  {
    var custom := BridgeRecommendations(25.5, 24, Inches, Some([0.008, 0.010, 0.015, 0.022, 0.030, 0.038]));
    assert InstrumentType(25.5, 24) == ElectricGuitar;
    assert !IsWoundString(0.008, ElectricGuitar);
    assert custom.compensations[0].compensation == Compensation(0.008, Plain, 25.5);
    ElectricGuitarStrings();
  }

  /** Three instrument-specific tips per category, each about that category. */
  function InstrumentSpecificTips(t: Instrument): (tips: seq<Tip>)
    ensures |tips| == 3
    ensures forall i :: 0 <= i < |tips| ==> tips[i] == InstrumentTip(t, i)
  {
    [InstrumentTip(t, 0), InstrumentTip(t, 1), InstrumentTip(t, 2)]
  }
}
