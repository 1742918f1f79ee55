# Fretomaton instrument-geometry model

A Dafny model of the calculations behind Fretomaton, a fret-template calculator
for stringed instruments. Two parts of the application are covered:

- **The bridge-compensation engine** (`src/utils/bridgeCompensation.ts`). It has a
  static catalog of string-gauge sets per instrument category, with three
  lookups (list, default, by id). It classifies an instrument from its scale
  length, with automatic millimetre detection. A per-category threshold
  decides whether a string is wound. An empirical formula gives each string's
  saddle compensation. An aggregator produces the per-string compensations,
  their range, and the recommended bridge position: the scale length plus the
  mean compensation.
- **The calculator form** (`src/App.tsx`). The fret table is built by the
  twelve-tone equal-temperament loop, and each distance is stored rounded to
  four decimals. Inch/millimetre conversion is modelled, along with the
  interpolated string spread at a fret and the 1:1 print size of the template.
  The form's state is a class. Its unit switch rewrites the five length fields,
  and its preset loader fills in the scale, widths and fret count.

Files and modules:

| file | module | contents |
|---|---|---|
| `wrappers.dfy` | `Wrappers` | the `Option` type used by the lookups and the preset loader |
| `units.dfy` | `Units` | the two units and `ConvertValue` |
| `gauge_catalog.dfy` | `GaugeCatalog` | the gauge-set catalog and its lookups |
| `bridge_compensation.dfy` | `BridgeCompensation` | classifier, wound rule, formula, recommendation |
| `frets.dfy` | `Frets` | fret table (loop method and its specification), rounding, string spread |
| `template_form.dfy` | `TemplateForm` | print sizing and the form-state class |

Numbers are Dafny `real`s, so every equation is exact. The semitone ratio
`Math.pow(2, 1/12)` is a parameter `factor > 1`. Facts that hold for every
such ratio are proved for all of them. The octave fact takes
`Pow(factor, 12) == 2.0` as a hypothesis. The four-decimal
`parseFloat(x.toFixed(4))` is modelled as `Frets.Round4`: round to the nearest
multiple of 0.0001, halves away from zero, with magnitudes from 10^21 up left
unchanged. The lemmas use three of its properties: it is within 0.00005 of
its input, it preserves order, and it maps 0 to 0
(`Round4(0.0) == 0.0`). `SpacingOnComputedTable` also
takes `Round4(scaleLength) == scaleLength` as a hypothesis: the scale length
has at most four decimals.

A row's distance from the previous fret mixes rounded and unrounded values
(`src/App.tsx:32`). The first row keeps its unrounded distance. Every later row
is its own unrounded distance minus the previous row's rounded, stored
distance. `Frets.FretEntry` computes it the same way.

Two behaviours of the code are stated as lemmas rather than corrected:

- The millimetre heuristic reads any value above 100 as millimetres. So any
  inch value in (100, 431.8] classifies as a ukulele
  (`OversizedInchInputIsReadAsMillimetres`).
- The classical threshold of 0.029 inches counts the plain nylon trebles 0.032
  and 0.040 of the default normal-tension set as wound
  (`ClassicalTreblesCountAsWound`).

## Model

| member | source | states |
|---|---|---|
| `Units.Unit.Name` | src/App.tsx:19 | the identifier is "inches" exactly for inches and "mm" exactly for millimetres |
| `Units.ConvertValue` | src/App.tsx:40-45 | identity for equal units and for unknown pairs; inches to mm multiplies by 25.4; mm to inches gives the value that 25.4 times returns the input |
| `Units.ConvertInverse` | src/App.tsx:40-45 | converting back with the units swapped restores the value, for every pair of unit identifiers |
| `Units.ConvertLinear` | src/App.tsx:40-45 | conversion commutes with scaling a length |
| `GaugeCatalog.GaugeSetsForInstrument` | src/utils/bridgeCompensation.ts:4-142 | each category has a non-empty, ordered list of gauge sets |
| `GaugeCatalog.CatalogIds` | src/tests/bridgeCompensation.test.tsx:131-168 | the ids of each category, in catalog order |
| `GaugeCatalog.CatalogWellFormed` | src/utils/bridgeCompensation.ts:4-128 | every set has at least one gauge and all gauges are positive; ids are unique within a category; exactly one set per category is the default |
| `GaugeCatalog.CatalogHasPositiveGauges` | src/utils/bridgeCompensation.ts:4-128 | every set of a category is non-empty with positive gauges |
| `GaugeCatalog.CatalogHasUniqueIds` | src/utils/bridgeCompensation.ts:4-128 | no two sets of a category share an id |
| `GaugeCatalog.CatalogHasSingleDefault` | src/utils/bridgeCompensation.ts:4-128 | some set of each category is flagged default, and only one |
| `GaugeCatalog.FindIndex` | src/utils/bridgeCompensation.ts:146 | the index found satisfies the predicate and no earlier one does; no index means no element satisfies it |
| `GaugeCatalog.DefaultGaugeSet` | src/utils/bridgeCompensation.ts:144-147 | the result is a set of the category; it is flagged default when any set is, and then no earlier set is flagged; it is the first set when none is |
| `GaugeCatalog.DefaultIds` | src/tests/bridgeCompensation.test.tsx:171-178 | the defaults are light, light, medium, normalTension and standard |
| `GaugeCatalog.StandardStringGauges` | src/utils/bridgeCompensation.ts:131-137 | the per-category gauges, taken from the default set, are non-empty and every gauge is positive |
| `GaugeCatalog.ElectricDefaultGauges` | src/utils/bridgeCompensation.ts:131-132 | the electric default gauges are 0.009 to 0.042 |
| `GaugeCatalog.BassDefaultGauges` | src/utils/bridgeCompensation.ts:131-135 | the bass default gauges are 0.045 to 0.105 |
| `GaugeCatalog.GaugeSetById` | src/utils/bridgeCompensation.ts:149-152 | a result is a set of that category with that id; no result exactly when the category has no set with the id |
| `GaugeCatalog.ByIdFindsEverySet` | src/utils/bridgeCompensation.ts:149-152 | every set of a category is found again by its own id |
| `GaugeCatalog.ByIdIsScopedToCategory` | src/tests/bridgeCompensation.test.tsx:190-211 | a classical id is not found among electric sets, an unknown id is not found, "heavy" finds the fourth electric set |
| `BridgeCompensation.DetectedInches` | src/utils/bridgeCompensation.ts:157-162 | values up to 100 are kept; a larger value is divided by 25.4 and becomes smaller |
| `BridgeCompensation.InstrumentType` | src/utils/bridgeCompensation.ts:155-177 | for each category, the exact scale and fret-count region that yields it: bass from 30 in, ukulele up to 17 in, classical in [25.55, 25.65], acoustic in the rest of [24, 26] with fewer than 22 frets, electric otherwise |
| `BridgeCompensation.MillimetreInputAgrees` | src/utils/bridgeCompensation.ts:157-162 | a length given in millimetres classifies like the same length in inches, when the inch value is at most 100 and the mm value above 100 |
| `BridgeCompensation.OversizedInchInputIsReadAsMillimetres` | src/utils/bridgeCompensation.ts:159-167 | any value in (100, 431.8] classifies as a ukulele |
| `BridgeCompensation.ClassifierExamples` | src/tests/bridgeCompensation.test.tsx:16-41 | the classifications pinned down by the tests, plus 25.6 in as classical |
| `BridgeCompensation.IsWoundString` | src/utils/bridgeCompensation.ts:199-213 | bass always wound, ukulele never; electric and acoustic wound from 0.024; classical wound from 0.029 |
| `BridgeCompensation.WoundIsUpwardClosed` | src/utils/bridgeCompensation.ts:199-213 | within a category, any string thicker than a wound one is wound too |
| `BridgeCompensation.ClassicalTreblesCountAsWound` | src/utils/bridgeCompensation.ts:86-91 | in the classical default set only the first string is plain; the other five count as wound |
| `BridgeCompensation.Compensation` | src/utils/bridgeCompensation.ts:180-196 | positive gauge and scale give a positive compensation |
| `BridgeCompensation.WoundIsTwoAndAHalfPlain` | src/utils/bridgeCompensation.ts:188-189 | a wound string gets 2.5 times the compensation of a plain one of the same gauge and scale |
| `BridgeCompensation.CompensationIsLinearInGauge` | src/utils/bridgeCompensation.ts:188-195 | compensation is the gauge times a per-gauge factor, positive on a positive scale |
| `BridgeCompensation.CompensationIncreasesWithGauge` | src/utils/bridgeCompensation.ts:188-195 | on a positive scale a thicker string gets strictly more |
| `BridgeCompensation.CompensationIncreasesWithScale` | src/utils/bridgeCompensation.ts:193-195 | for a positive gauge a longer scale gets strictly more |
| `BridgeCompensation.CompensationProportionalToScale` | src/utils/bridgeCompensation.ts:193-195 | compensation is proportional to the scale length |
| `BridgeCompensation.Min` | src/utils/bridgeCompensation.ts:248 | the result is an element of the list and no element is smaller |
| `BridgeCompensation.Max` | src/utils/bridgeCompensation.ts:249 | the result is an element of the list and no element is larger |
| `BridgeCompensation.MeanBounds` | src/utils/bridgeCompensation.ts:250 | the mean of a list lies between any lower and upper bound of its elements |
| `BridgeCompensation.ScaleInInches` | src/utils/bridgeCompensation.ts:224 | the scale length in inches is the general converter's value |
| `BridgeCompensation.InchesInUnits` | src/utils/bridgeCompensation.ts:237 | a compensation in the display unit is the general converter's value |
| `BridgeCompensation.CompensationsFor` | src/utils/bridgeCompensation.ts:231-244 | one entry per gauge in order, numbered from 1, whose kind follows the wound rule and whose amount is the formula converted to the display unit |
| `BridgeCompensation.RangeOf` | src/utils/bridgeCompensation.ts:247-249 | the range's min is at most and max at least every entry's compensation, and each is the compensation of some entry |
| `BridgeCompensation.BridgeRecommendations` | src/utils/bridgeCompensation.ts:217-279 | entries as above for the caller's gauges or the default set; min and max bound every compensation and are attained; the bridge position is the scale length plus the mean compensation, so the offset lies between them; the explanation carries the range; five tips, the first giving the position |
| `BridgeCompensation.Recommend` | src/utils/bridgeCompensation.ts:246-278 | for a known category and gauge list: the entries for those gauges; range bounds and attainment; the bridge position is the scale length plus the mean compensation, between min and max; explanation and tips |
| `BridgeCompensation.OmittedGaugesUseDefault` | src/utils/bridgeCompensation.ts:228 | omitting the gauges gives the same recommendation as passing the default set |
| `BridgeCompensation.EntryIncreasing` | src/utils/bridgeCompensation.ts:231-237 | within one category on a positive scale, a thicker string's entry has strictly more compensation, whether or not the wound rule switches kind between them |
| `BridgeCompensation.DistinctGaugesGiveStrictRange` | src/utils/bridgeCompensation.ts:246-249 | on a positive scale, two different gauges in the list make the minimum compensation strictly below the maximum |
| `BridgeCompensation.CustomDistinctGaugesGiveStrictRange` | src/utils/bridgeCompensation.ts:217-249 | the same for a caller's gauge list, whatever category the scale is classified as |
| `BridgeCompensation.ZeroScaleCollapsesRange` | src/utils/bridgeCompensation.ts:246-249 | on a zero scale the minimum and maximum are both 0, whatever the gauges |
| `BridgeCompensation.PositiveInputsMoveBridgeBack` | src/utils/bridgeCompensation.ts:246-253 | with a positive scale and positive gauges, the minimum compensation is positive and the bridge lies beyond the scale length |
| `BridgeCompensation.MillimetreRecommendationScales` | src/utils/bridgeCompensation.ts:224-253 | the same scale given in mm yields every compensation, the range and the bridge position multiplied by 25.4 |
| `BridgeCompensation.RecommendationScales` | src/utils/bridgeCompensation.ts:231-253 | for a fixed category and gauges, mm results are 25.4 times the inch results |
| `BridgeCompensation.AmountsConvert` | src/utils/bridgeCompensation.ts:237 | each mm amount is 25.4 times the inch amount |
| `BridgeCompensation.ElectricGuitarStrings` | src/tests/bridgeCompensation.test.tsx:87-96 | a 25.5 in, 24-fret guitar gets six entries, 0.0045 for the high E and 0.0525 for the low E |
| `BridgeCompensation.ElectricGuitarExample` | src/tests/bridgeCompensation.test.tsx:87-96 | in that case 0 < min < max, the bridge lies beyond 25.5 and there are five tips |
| `BridgeCompensation.BassGuitarStrings` | src/tests/bridgeCompensation.test.tsx:98-104 | a 34 in bass gets four entries, 0.175 for the low E |
| `BridgeCompensation.BassGuitarExample` | src/tests/bridgeCompensation.test.tsx:98-104 | in that case the maximum exceeds 0.01 and the bridge lies beyond 34 |
| `BridgeCompensation.CustomGaugesReplaceDefault` | src/tests/bridgeCompensation.test.tsx:213-223 | custom gauges are used in place of the default: the high E gets 0.004, not 0.0045 |
| `BridgeCompensation.InstrumentSpecificTips` | src/utils/bridgeCompensation.ts:282-317 | three tips per category, each about that category |
| `Frets.Pow` | src/App.tsx:28 | a power of a base of at least 1 is at least 1 |
| `Frets.PowIncreasing` | src/App.tsx:28 | for a ratio above 1, powers strictly increase with the exponent |
| `Frets.Round4` | src/App.tsx:31 | the rounded value is within 0.00005 of the input |
| `Frets.Round4Monotone` | src/App.tsx:31 | rounding preserves order |
| `Frets.FretTable` | src/App.tsx:27-33 | the table has one row per fret, none for a non-positive count, and row i is fret i+1 |
| `Frets.ComputeFretPositions` | src/App.tsx:23-37 | the loop builds exactly the fret table |
| `Frets.DistanceIncreasing` | src/App.tsx:28 | on a positive scale, exact distances strictly increase with the fret |
| `Frets.DistanceBetweenNutAndBridge` | src/App.tsx:28 | every fret lies strictly between nut and bridge |
| `Frets.OctaveHalvesScale` | src/App.tsx:25-28 | if the ratio's twelfth power is 2, the twelfth fret lies at half the scale |
| `Frets.StoredDistancesNonDecreasing` | src/App.tsx:28-31 | the stored, rounded distances never decrease along the table |
| `Frets.FromPreviousReadsBackStoredDistance` | src/App.tsx:32 | fret 1 keeps its exact distance; a later fret's exact distance minus the previous row's stored distance |
| `Frets.FromPreviousTelescopes` | src/App.tsx:31-32 | the first k distances from the previous fret sum to fret k's exact distance plus the rounding drift of the earlier rows |
| `Frets.DriftBound` | src/App.tsx:31 | the drift over k rows is at most k times 0.00005 in size |
| `Frets.FromPreviousSumIsNearDistance` | src/App.tsx:31-32 | those sums are within (k-1) times 0.00005 of fret k's distance |
| `Frets.NoDriftWhenExact` | src/App.tsx:31 | no drift when rounding changes none of the distances |
| `Frets.FromPreviousSumsToDistanceWhenExact` | src/App.tsx:31-32 | when rounding changes nothing, the distances from the previous fret sum exactly to fret k's distance |
| `Frets.StringSpacingAtFret` | src/App.tsx:60-64 | fret 0 and any fret outside the table give the nut width |
| `Frets.InterpolationAboveMin` | src/App.tsx:63 | a spread interpolated with a ratio in [0, 1] is at least the smaller width |
| `Frets.InterpolationBelowMax` | src/App.tsx:63 | a spread interpolated with a ratio in [0, 1] is at most the larger width |
| `Frets.RatioInUnitInterval` | src/App.tsx:62 | a distance between nut and bridge gives a ratio in [0, 1] |
| `Frets.SpacingBetweenWidths` | src/App.tsx:60-64 | at a fret stored between nut and bridge, the spread lies between nut and bridge widths |
| `Frets.SpacingOnComputedTable` | src/App.tsx:60-64 | on the computed table of a positive scale given to four decimals, every fret's spread lies between the two widths |
| `Frets.SpacingFollowsDistance` | src/App.tsx:60-64 | with a bridge width at least the nut width, a fret stored further out is at least as wide |
| `Frets.SpacingWidensAlongNeck` | src/App.tsx:60-64 | on the computed table, with a bridge width at least the nut width, the spread never narrows up the neck |
| `TemplateForm.ToInchesForSvg` | src/App.tsx:119-124 | inches pass through; millimetres are divided by 25.4 |
| `TemplateForm.ToInchesAgreesWithConvert` | src/App.tsx:119-124 | the drawing's conversion is the general converter with inches as target |
| `TemplateForm.SvgDimensionsFor` | src/App.tsx:127-138 | padding 1 in on each axis; width is the neck and height the scale in inches, each plus 2 in |
| `TemplateForm.SvgDimensionsUnitInvariant` | src/App.tsx:119-138 | re-expressing scale and neck width in another unit leaves the print size unchanged |
| `TemplateForm.FretTemplateCalculator.constructor` | src/App.tsx:13-20 | the form opens at 25.5 in, 1.375/2.0625 in widths, 24 frets, 1.75 in neck, 0.04 in wire, inches, fenderStandard |
| `TemplateForm.FretTemplateCalculator.HandleUnitsChange` | src/App.tsx:48-57 | the same unit changes nothing; otherwise each of the five lengths is converted from the old unit to the new one; the unit is set; fret count and preset stay; print size unchanged |
| `TemplateForm.FretTemplateCalculator.LoadPreset` | src/App.tsx:96-105 | a found preset sets scale, nut and bridge widths, frets and the selected name; a missing one changes nothing; neck, wire and unit are untouched |
| `TemplateForm.SwitchToMmAndBack` | src/App.tsx:48-57 | switching to mm and back restores every length, the fret count, the preset and the print size |

## Left out

- Rendering: the JSX markup, the SVG drawing, `window.print` and the `toFixed` display formatting in `convertUnits` are presentation only.
- The preset catalog: `presets.json` and the flattening in `getPresetInstruments` are external data. This includes the `displayLength` text and the conversion of preset values into the current unit. `LoadPreset` takes the looked-up record, already in the form's unit, as a parameter.
- Text: the `reason`, `explanation` and tip strings are datatypes carrying their numeric parameters and units. The wording and the three-decimal `toFixed` inside them are not modelled.
- `BridgeCompensation.BridgeRecommendations`: requires a non-empty custom gauge list. With an empty list the code returns an infinite minimum and maximum and a NaN mean, which IEEE arithmetic allows and reals do not.
- `BridgeCompensation.Compensation`: the tension parameter is fixed at its default 1.0. Its square root is the constant factor 1, because the only caller never passes a tension.
- `BridgeCompensation.IsWoundString` and `BridgeCompensation.InstrumentSpecificTips`: the `default` branches of the switches cannot be reached with the typed category names, so they are not modelled.
- `Frets.Pow`, `Frets.OctaveHalvesScale`: `Math.pow(2, 1/12)` is a parameter `factor > 1`. The octave fact assumes its twelfth power is exactly 2, which the double-precision value only approximates.
- `Frets.Round4`: this is exact decimal rounding over reals. Binary floating-point representation and formatting error are not modelled.
- `Frets.StringSpacingAtFret`: a zero scale length gives ratio 0. In the code, a zero scale with a non-zero stored distance divides by zero and gives an infinite ratio. The spread is then infinite when the nut and bridge widths differ, and NaN (zero times infinity) when they are equal. A zero stored distance gives NaN, which the code also turns into ratio 0.
- `Frets.ComputeFretPositions`: the fret count is an `int`, as in the form, whose input goes through `parseInt` with 12 as the fallback (`src/App.tsx:292`). That parsing step itself is not modelled.
- Other numeric limits: floating-point rounding in the conversions, the compensation formula and the mean is not modelled. All of them are exact over reals.
