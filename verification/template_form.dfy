/**
 * The state of the fret-template calculator form and the calculations it
 * derives from that state: the unit switch that rewrites the lengths, the
 * preset loader, and the 1:1 print sizing of the template drawing.
 */
module TemplateForm {
  import opened Units
  import opened Wrappers

  // ---------------------------------------------------------------------------
  // Print sizing

  /** Margin around the drawing, in inches, on every side. */
  const SVG_PADDING: real := 1.0

  /** Size of the drawing in inches, margins included. */
  datatype SvgDimensions = SvgDimensions(width: real, height: real, paddingX: real, paddingY: real)

  /** A length in the form's unit, expressed in inches for drawing. */
  function ToInchesForSvg(units: Unit, value: real): (r: real)
    ensures units == Inches ==> r == value
    ensures units == Mm ==> r * MM_PER_INCH == value
  {
    if units == Mm then value / MM_PER_INCH else value
  }

  /** The drawing's inch conversion is the general converter with inches as target. */
  lemma ToInchesAgreesWithConvert(units: Unit, value: real)
    ensures ToInchesForSvg(units, value) == ConvertValue(value, units.Name(), "inches")
  {
  }

  /**
   * The drawing is as wide as the neck and as tall as the scale, both in
   * inches, plus one inch of margin on each side.
   */
  function SvgDimensionsFor(units: Unit, scaleLength: real, neckWidth: real): (d: SvgDimensions)
    ensures d.paddingX == SVG_PADDING && d.paddingY == SVG_PADDING
    ensures d.width == ConvertValue(neckWidth, units.Name(), "inches") + 2.0 * SVG_PADDING
    ensures d.height == ConvertValue(scaleLength, units.Name(), "inches") + 2.0 * SVG_PADDING
  {
    ToInchesAgreesWithConvert(units, neckWidth);
    ToInchesAgreesWithConvert(units, scaleLength);
    var scaleInches := ToInchesForSvg(units, scaleLength);
    var neckInches := ToInchesForSvg(units, neckWidth);
    SvgDimensions(neckInches + SVG_PADDING * 2.0, scaleInches + SVG_PADDING * 2.0, SVG_PADDING, SVG_PADDING)
  }

  /**
   * Re-expressing the scale and the neck width in another unit leaves the
   * printed size unchanged: the template prints at 1:1 in either unit.
   */
  lemma SvgDimensionsUnitInvariant(fromUnits: Unit, toUnits: Unit, scaleLength: real, neckWidth: real)
    ensures SvgDimensionsFor(toUnits, ConvertValue(scaleLength, fromUnits.Name(), toUnits.Name()),
                             ConvertValue(neckWidth, fromUnits.Name(), toUnits.Name()))
         == SvgDimensionsFor(fromUnits, scaleLength, neckWidth)
  {
    if fromUnits != toUnits {
      var d := SvgDimensionsFor(toUnits, ConvertValue(scaleLength, fromUnits.Name(), toUnits.Name()),
                                ConvertValue(neckWidth, fromUnits.Name(), toUnits.Name()));
      var e := SvgDimensionsFor(fromUnits, scaleLength, neckWidth);
      assert d.width == e.width;
      assert d.height == e.height;
    }
  }

  /** The measurements a preset instrument supplies, already in the form's unit. */
  datatype Preset = Preset(scaleLength: real, nutWidth: real, bridgeWidth: real, frets: int)

  // ---------------------------------------------------------------------------
  // Form state

  /** The calculator form: every input the user edits, in the currently chosen unit. */
  class FretTemplateCalculator {
    var scaleLength: real
    var nutStringWidth: real
    var bridgeStringWidth: real
    var numberOfFrets: int
    var neckWidth: real
    var fretWireWidth: real
    var units: Unit
    var selectedPreset: string

    /** The form opens on a 25.5-inch, 24-fret standard electric guitar. */
    constructor ()
      ensures scaleLength == 25.5 && nutStringWidth == 1.375 && bridgeStringWidth == 2.0625
      ensures numberOfFrets == 24 && neckWidth == 1.75 && fretWireWidth == 0.04
      ensures units == Inches && selectedPreset == "fenderStandard"
    {
      scaleLength := 25.5;
      nutStringWidth := 1.375;
      bridgeStringWidth := 2.0625;
      numberOfFrets := 24;
      neckWidth := 1.75;
      fretWireWidth := 0.04;
      units := Inches;
      selectedPreset := "fenderStandard";
    }

    /** The five lengths the unit switch rewrites, in declaration order. */
    function Lengths(): seq<real>
      reads this
    {
      [scaleLength, nutStringWidth, bridgeStringWidth, neckWidth, fretWireWidth]
    }

    /** The print size of the current form. */
    function Svg(): SvgDimensions
      reads this
    {
      SvgDimensionsFor(units, scaleLength, neckWidth)
    }

    /**
     * Switches the display unit. Choosing the current unit changes nothing;
     * otherwise every length is converted from the old unit to the new one,
     * and the fret count and the selected preset stay as they are.
     */
    method HandleUnitsChange(newUnits: Unit)
      modifies this
      ensures newUnits == old(units) ==> Lengths() == old(Lengths())
      ensures forall i :: 0 <= i < |Lengths()| ==>
        Lengths()[i] == ConvertValue(old(Lengths())[i], old(units).Name(), newUnits.Name())
      ensures units == newUnits
      ensures numberOfFrets == old(numberOfFrets) && selectedPreset == old(selectedPreset)
      ensures Svg() == old(Svg())
    {
      if newUnits != units {
        var previous := units;
        SvgDimensionsUnitInvariant(previous, newUnits, scaleLength, neckWidth);
        scaleLength := ConvertValue(scaleLength, previous.Name(), newUnits.Name());
        nutStringWidth := ConvertValue(nutStringWidth, previous.Name(), newUnits.Name());
        bridgeStringWidth := ConvertValue(bridgeStringWidth, previous.Name(), newUnits.Name());
        neckWidth := ConvertValue(neckWidth, previous.Name(), newUnits.Name());
        fretWireWidth := ConvertValue(fretWireWidth, previous.Name(), newUnits.Name());
        units := newUnits;
      }
    }

    /**
     * Applies the preset found under the given name: scale, nut and bridge
     * widths and fret count are taken from it and the name is remembered.
     * A name with no preset leaves the form as it is.
     */
    method LoadPreset(preset: string, config: Option<Preset>)
      modifies this
      ensures config.None? ==> Lengths() == old(Lengths()) && numberOfFrets == old(numberOfFrets)
                               && selectedPreset == old(selectedPreset)
      ensures config.Some? ==>
        scaleLength == config.value.scaleLength && nutStringWidth == config.value.nutWidth
        && bridgeStringWidth == config.value.bridgeWidth && numberOfFrets == config.value.frets
        && selectedPreset == preset
      ensures neckWidth == old(neckWidth) && fretWireWidth == old(fretWireWidth) && units == old(units)
    {
      if config.Some? {
        scaleLength := config.value.scaleLength;
        nutStringWidth := config.value.nutWidth;
        bridgeStringWidth := config.value.bridgeWidth;
        numberOfFrets := config.value.frets;
        selectedPreset := preset;
      }
    }
  }

  /**
   * Switching to millimetres and back to inches restores every length
   * exactly, and the print size never changes along the way.
   */
  method SwitchToMmAndBack(form: FretTemplateCalculator)
    modifies form
    requires form.units == Inches
    ensures form.Lengths() == old(form.Lengths()) && form.units == Inches
    ensures form.numberOfFrets == old(form.numberOfFrets) && form.selectedPreset == old(form.selectedPreset)
    ensures form.Svg() == old(form.Svg())
  {
    ghost var before := form.Lengths();
    form.HandleUnitsChange(Mm);
    form.HandleUnitsChange(Inches);
    forall i | 0 <= i < |before|
      ensures form.Lengths()[i] == before[i]
    {
      ConvertInverse(before[i], "inches", "mm");
    }
  }
}
