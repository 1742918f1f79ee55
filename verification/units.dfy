/** Length units of the fret calculator and the conversion between them. */
module Units {

  /** Millimetres in one inch. */
  const MM_PER_INCH: real := 25.4

  /** The two display units the calculator offers. */
  datatype Unit = Inches | Mm {
    /** The identifier the application uses for the unit. */
    function Name(): (s: string)
      ensures s == "inches" <==> this == Inches
      ensures s == "mm" <==> this == Mm
    {
      match this
      case Inches => "inches"
      case Mm => "mm"
    }
  }

  /** A unit pair the converter knows how to scale between. */
  predicate IsKnownConversion(fromUnit: string, toUnit: string) {
    (fromUnit == "inches" && toUnit == "mm") || (fromUnit == "mm" && toUnit == "inches")
  }

  /**
   * Converts a length between unit identifiers. Units are plain strings here,
   * as in the application: a pair that is not inches/mm leaves the value alone.
   */
  function ConvertValue(value: real, fromUnit: string, toUnit: string): (r: real)
    ensures !IsKnownConversion(fromUnit, toUnit) ==> r == value
    ensures fromUnit == "inches" && toUnit == "mm" ==> r == value * MM_PER_INCH
    ensures fromUnit == "mm" && toUnit == "inches" ==> r * MM_PER_INCH == value
  {
    if fromUnit == toUnit then value
    else if fromUnit == "inches" && toUnit == "mm" then value * MM_PER_INCH
    else if fromUnit == "mm" && toUnit == "inches" then value / MM_PER_INCH
    else value
  }

  /** Converting back with the units swapped restores the value, for every pair of identifiers. */
  lemma ConvertInverse(value: real, fromUnit: string, toUnit: string)
    ensures ConvertValue(ConvertValue(value, fromUnit, toUnit), toUnit, fromUnit) == value
  {
  }

  /** Conversion commutes with scaling the length: it is a linear map. */
  lemma ConvertLinear(a: real, value: real, fromUnit: string, toUnit: string)
    ensures ConvertValue(a * value, fromUnit, toUnit) == a * ConvertValue(value, fromUnit, toUnit)
  {
  }
}
