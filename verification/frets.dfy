/**
 * Fret placement by twelve-tone equal temperament, the four-decimal rounding
 * of the stored distances, and the string spread interpolated along the neck.
 *
 * The semitone ratio (the twelfth root of two) is a parameter `factor`; the
 * facts that hold for any ratio above 1 are proved for every such factor, and
 * the octave fact assumes `Pow(factor, 12) == 2.0`.
 */
module Frets {

  /** One row of the fret table: distances from the nut and from the previous fret. */
  datatype FretPosition = FretPosition(fret: int, distance: real, fromPrevious: real)

  // ---------------------------------------------------------------------------
  // Powers

  /** b to the n-th power, by repeated multiplication. */
  function Pow(b: real, n: nat): (r: real)
    ensures b >= 1.0 ==> r >= 1.0
  {
    if n == 0 then 1.0 else b * Pow(b, n - 1)
  }

  lemma GrowsByFactor(b: real, p: real)
    requires b > 1.0 && p >= 1.0
    ensures p < b * p
  {
  }

  /** A ratio above 1 makes the powers strictly increasing. */
  lemma {:induction false} PowIncreasing(b: real, m: nat, n: nat)
    requires b > 1.0 && m < n
    ensures Pow(b, m) < Pow(b, n)
  {
    assert Pow(b, n) == b * Pow(b, n - 1);
    GrowsByFactor(b, Pow(b, n - 1));
    if m < n - 1 {
      PowIncreasing(b, m, n - 1);
    }
  }

  // ---------------------------------------------------------------------------
  // Four-decimal rounding

  /** From this magnitude on, fixed-point formatting leaves a number as it is. */
  const FIXED_LIMIT: real := 1_000_000_000_000_000_000_000.0

  /** Round half up to four decimals, for a non-negative number. */
  function RoundMagnitude(x: real): real
    requires x >= 0.0
  {
    if x >= FIXED_LIMIT then x else ((x * 10000.0 + 0.5).Floor as real) / 10000.0
  }

  /**
   * A number formatted with four decimals and read back: the nearest multiple
   * of 0.0001, halves rounded away from zero; numbers of magnitude 1e21 and
   * above come back unchanged.
   */
  function Round4(x: real): (r: real)
    ensures -0.00005 <= r - x <= 0.00005
  {
    if x < 0.0 then -RoundMagnitude(-x) else RoundMagnitude(x)
  }

  lemma RoundMagnitudeMonotone(x: real, y: real)
    requires 0.0 <= x <= y
    ensures RoundMagnitude(x) <= RoundMagnitude(y)
  {
    if y < FIXED_LIMIT {
      assert (x * 10000.0 + 0.5).Floor <= (y * 10000.0 + 0.5).Floor;
    } else if x < FIXED_LIMIT {
      assert (x * 10000.0 + 0.5).Floor as real <= x * 10000.0 + 0.5;
    }
  }

  /** Rounding preserves order. */
  lemma Round4Monotone(x: real, y: real)
    requires x <= y
    ensures Round4(x) <= Round4(y)
  {
    if 0.0 <= x {
      RoundMagnitudeMonotone(x, y);
    } else if y < 0.0 {
      RoundMagnitudeMonotone(-y, -x);
    }
  }

  // ---------------------------------------------------------------------------
  // Distances and the fret table

  /** The exact distance of fret n from the nut: the scale length less the vibrating length left. */
  function Distance(scaleLength: real, factor: real, n: nat): real
    requires factor > 1.0
  {
    scaleLength - scaleLength / Pow(factor, n)
  }

  /**
   * The table row of fret n: the rounded distance, and the distance from the
   * previous fret, taken from the exact distance less the previous row's
   * rounded distance (the first fret keeps its exact distance).
   */
  function FretEntry(scaleLength: real, factor: real, n: nat): FretPosition
    requires factor > 1.0 && n >= 1
  {
    FretPosition(
      n,
      Round4(Distance(scaleLength, factor, n)),
      if n == 1 then Distance(scaleLength, factor, 1)
      else Distance(scaleLength, factor, n) - Round4(Distance(scaleLength, factor, n - 1)))
  }

  /** The fret table: one row per fret, numbered 1 to numberOfFrets; none when there are no frets. */
  function FretTable(scaleLength: real, factor: real, numberOfFrets: int): (table: seq<FretPosition>)
    requires factor > 1.0
    ensures |table| == if numberOfFrets > 0 then numberOfFrets else 0
    ensures forall i :: 0 <= i < |table| ==> table[i].fret == i + 1
  {
    seq(if numberOfFrets > 0 then numberOfFrets else 0, i requires 0 <= i => FretEntry(scaleLength, factor, i + 1))
  }

  /**
   * Builds the fret table row by row, reading back the previous row's stored
   * distance for the distance from the previous fret.
   */
  method ComputeFretPositions(scaleLength: real, numberOfFrets: int, factor: real) returns (positions: seq<FretPosition>)
    requires factor > 1.0
    ensures positions == FretTable(scaleLength, factor, numberOfFrets)
  {
    positions := [];
    var fret := 1;
    while fret <= numberOfFrets
      invariant 1 <= fret <= (if numberOfFrets > 0 then numberOfFrets else 0) + 1
      invariant |positions| == fret - 1
      invariant forall i :: 0 <= i < |positions| ==> positions[i] == FretEntry(scaleLength, factor, i + 1)
    {
      var distance := scaleLength - scaleLength / Pow(factor, fret);
      var fromPrevious := if fret == 1 then distance else distance - positions[fret - 2].distance;
      positions := positions + [FretPosition(fret, Round4(distance), fromPrevious)];
      fret := fret + 1;
    }
  }

  lemma DivideByLarger(scaleLength: real, a: real, b: real)
    requires scaleLength > 0.0 && 1.0 <= a < b
    ensures scaleLength / b < scaleLength / a
  {
  }

  /** On a positive scale, the frets move strictly away from the nut. */
  lemma DistanceIncreasing(scaleLength: real, factor: real, m: nat, n: nat)
    requires scaleLength > 0.0 && factor > 1.0 && m < n
    ensures Distance(scaleLength, factor, m) < Distance(scaleLength, factor, n)
  {
    PowIncreasing(factor, m, n);
    DivideByLarger(scaleLength, Pow(factor, m), Pow(factor, n));
  }

  /** Every fret lies strictly between the nut and the bridge. */
  lemma DistanceBetweenNutAndBridge(scaleLength: real, factor: real, n: nat)
    requires scaleLength > 0.0 && factor > 1.0 && n >= 1
    ensures 0.0 < Distance(scaleLength, factor, n) < scaleLength
  {
    DistanceIncreasing(scaleLength, factor, 0, n);
    assert Distance(scaleLength, factor, 0) == 0.0;
  }

  /** With the equal-tempered ratio, the twelfth fret halves the scale. */
  lemma OctaveHalvesScale(scaleLength: real, factor: real)
    requires factor > 1.0 && Pow(factor, 12) == 2.0
    ensures Distance(scaleLength, factor, 12) == scaleLength / 2.0
  {
  }

  /** The stored (rounded) distances never decrease along the table. */
  lemma StoredDistancesNonDecreasing(scaleLength: real, factor: real, numberOfFrets: int, i: nat, j: nat)
    requires scaleLength > 0.0 && factor > 1.0
    requires i < j < |FretTable(scaleLength, factor, numberOfFrets)|
    ensures FretTable(scaleLength, factor, numberOfFrets)[i].distance <= FretTable(scaleLength, factor, numberOfFrets)[j].distance
  {
    DistanceIncreasing(scaleLength, factor, i + 1, j + 1);
    Round4Monotone(Distance(scaleLength, factor, i + 1), Distance(scaleLength, factor, j + 1));
  }

  // ---------------------------------------------------------------------------
  // Distances from the previous fret

  /**
   * The first row keeps its exact distance; every later row subtracts the
   * stored, rounded distance of the row before it from its own exact distance.
   */
  lemma FromPreviousReadsBackStoredDistance(scaleLength: real, factor: real, numberOfFrets: int, i: nat)
    requires factor > 1.0 && i < |FretTable(scaleLength, factor, numberOfFrets)|
    ensures var table := FretTable(scaleLength, factor, numberOfFrets);
      table[i].fromPrevious ==
        if i == 0 then Distance(scaleLength, factor, 1)
        else Distance(scaleLength, factor, i + 1) - table[i - 1].distance
  {
  }

  /** The sum of the first k distances-from-previous of a table. */
  function SumFromPrevious(table: seq<FretPosition>, k: nat): real
    requires k <= |table|
  {
    if k == 0 then 0.0 else SumFromPrevious(table, k - 1) + table[k - 1].fromPrevious
  }

  /** The rounding error accumulated over the first k stored distances. */
  function RoundingDrift(scaleLength: real, factor: real, k: nat): real
    requires factor > 1.0
  {
    if k == 0 then 0.0
    else RoundingDrift(scaleLength, factor, k - 1) + (Distance(scaleLength, factor, k) - Round4(Distance(scaleLength, factor, k)))
  }

  /**
   * The distances from the previous fret add up to the exact distance of
   * fret k, up to the rounding error of the stored distances before it.
   */
  lemma {:induction false} FromPreviousTelescopes(scaleLength: real, factor: real, numberOfFrets: int, k: nat)
    requires factor > 1.0 && 1 <= k <= numberOfFrets
    ensures SumFromPrevious(FretTable(scaleLength, factor, numberOfFrets), k) ==
      Distance(scaleLength, factor, k) + RoundingDrift(scaleLength, factor, k - 1)
  {
    if k > 1 {
      FromPreviousTelescopes(scaleLength, factor, numberOfFrets, k - 1);
    }
  }

  lemma {:induction false} DriftBound(scaleLength: real, factor: real, k: nat)
    requires factor > 1.0
    ensures -0.00005 * (k as real) <= RoundingDrift(scaleLength, factor, k) <= 0.00005 * (k as real)
  {
    if k > 0 {
      DriftBound(scaleLength, factor, k - 1);
    }
  }

  /** The first k distances from the previous fret sum to within (k-1)/20000 of fret k's distance. */
  lemma FromPreviousSumIsNearDistance(scaleLength: real, factor: real, numberOfFrets: int, k: nat)
    requires factor > 1.0 && 1 <= k <= numberOfFrets
    ensures var error := SumFromPrevious(FretTable(scaleLength, factor, numberOfFrets), k) - Distance(scaleLength, factor, k);
      -0.00005 * ((k - 1) as real) <= error <= 0.00005 * ((k - 1) as real)
  {
    FromPreviousTelescopes(scaleLength, factor, numberOfFrets, k);
    DriftBound(scaleLength, factor, k - 1);
  }

  lemma {:induction false} NoDriftWhenExact(scaleLength: real, factor: real, k: nat)
    requires factor > 1.0
    requires forall j :: 1 <= j <= k ==> Round4(Distance(scaleLength, factor, j)) == Distance(scaleLength, factor, j)
    ensures RoundingDrift(scaleLength, factor, k) == 0.0
  {
    if k > 0 {
      NoDriftWhenExact(scaleLength, factor, k - 1);
    }
  }

  /**
   * When rounding changes none of the earlier distances, the distances from
   * the previous fret add up exactly to the distance of fret k.
   */
  lemma FromPreviousSumsToDistanceWhenExact(scaleLength: real, factor: real, numberOfFrets: int, k: nat)
    requires factor > 1.0 && 1 <= k <= numberOfFrets
    requires forall j :: 1 <= j < k ==> Round4(Distance(scaleLength, factor, j)) == Distance(scaleLength, factor, j)
    ensures SumFromPrevious(FretTable(scaleLength, factor, numberOfFrets), k) == Distance(scaleLength, factor, k)
  {
    FromPreviousTelescopes(scaleLength, factor, numberOfFrets, k);
    NoDriftWhenExact(scaleLength, factor, k - 1);
  }

  // ---------------------------------------------------------------------------
  // String spacing

  /**
   * How far along the neck a fret is, as a fraction of the scale length,
   * from the table's stored distance; 0 for a fret the table does not have
   * (and for a zero scale length).
   */
  function SpacingRatio(fretNumber: int, scaleLength: real, table: seq<FretPosition>): real {
    if 1 <= fretNumber <= |table| && scaleLength != 0.0 then table[fretNumber - 1].distance / scaleLength else 0.0
  }

  /**
   * The spread of the outer strings at a fret, interpolated linearly between
   * the nut width and the bridge width; the nut itself is fret 0.
   */
  function StringSpacingAtFret(fretNumber: int, nutStringWidth: real, bridgeStringWidth: real, scaleLength: real,
                               table: seq<FretPosition>): (w: real)
    ensures fretNumber == 0 ==> w == nutStringWidth
    ensures !(1 <= fretNumber <= |table|) ==> w == nutStringWidth
  {
    if fretNumber == 0 then nutStringWidth
    else nutStringWidth + (bridgeStringWidth - nutStringWidth) * SpacingRatio(fretNumber, scaleLength, table)
  }

  function MinReal(a: real, b: real): real { if a <= b then a else b }
  function MaxReal(a: real, b: real): real { if a <= b then b else a }

  lemma FractionOf(c: real, ratio: real)
    requires c >= 0.0 && 0.0 <= ratio <= 1.0
    ensures 0.0 <= c * ratio
    ensures c * ratio <= c
  {
    assert c * ratio <= c * 1.0;
  }

  lemma NegatedFraction(c: real, ratio: real)
    requires c <= 0.0 && 0.0 <= ratio <= 1.0
    ensures c <= c * ratio
    ensures c * ratio <= 0.0
  {
    FractionOf(-c, ratio);
    assert c * ratio == -((-c) * ratio);
  }

  /** A fraction of the way from the nut width to the bridge width is at least the smaller one. */
  lemma InterpolationAboveMin(nut: real, bridge: real, ratio: real)
    requires 0.0 <= ratio <= 1.0
    ensures MinReal(nut, bridge) <= nut + (bridge - nut) * ratio
  {
    if nut <= bridge {
      FractionOf(bridge - nut, ratio);
    } else {
      NegatedFraction(bridge - nut, ratio);
    }
  }

  /** A fraction of the way from the nut width to the bridge width is at most the larger one. */
  lemma InterpolationBelowMax(nut: real, bridge: real, ratio: real)
    requires 0.0 <= ratio <= 1.0
    ensures nut + (bridge - nut) * ratio <= MaxReal(nut, bridge)
  {
    if nut <= bridge {
      FractionOf(bridge - nut, ratio);
    } else {
      NegatedFraction(bridge - nut, ratio);
    }
  }

  lemma RatioInUnitInterval(distance: real, scaleLength: real)
    requires scaleLength > 0.0 && 0.0 <= distance <= scaleLength
    ensures 0.0 <= distance / scaleLength <= 1.0
  {
  }

  /**
   * At a fret of the table whose stored distance lies between nut and bridge,
   * the spread lies between the nut width and the bridge width.
   */
  lemma SpacingBetweenWidths(fretNumber: int, nutStringWidth: real, bridgeStringWidth: real, scaleLength: real,
                             table: seq<FretPosition>)
    requires 1 <= fretNumber <= |table| && scaleLength > 0.0
    requires 0.0 <= table[fretNumber - 1].distance <= scaleLength
    ensures MinReal(nutStringWidth, bridgeStringWidth)
      <= StringSpacingAtFret(fretNumber, nutStringWidth, bridgeStringWidth, scaleLength, table)
      <= MaxReal(nutStringWidth, bridgeStringWidth)
  {
    RatioInUnitInterval(table[fretNumber - 1].distance, scaleLength);
    InterpolationAboveMin(nutStringWidth, bridgeStringWidth, SpacingRatio(fretNumber, scaleLength, table));
    InterpolationBelowMax(nutStringWidth, bridgeStringWidth, SpacingRatio(fretNumber, scaleLength, table));
  }

  /**
   * On the computed table of a positive scale length given to four decimals,
   * the spread at every fret lies between the nut width and the bridge width.
   */
  lemma SpacingOnComputedTable(scaleLength: real, factor: real, numberOfFrets: int, fretNumber: int,
                               nutStringWidth: real, bridgeStringWidth: real)
    requires scaleLength > 0.0 && Round4(scaleLength) == scaleLength && factor > 1.0
    requires 1 <= fretNumber <= numberOfFrets
    ensures MinReal(nutStringWidth, bridgeStringWidth)
      <= StringSpacingAtFret(fretNumber, nutStringWidth, bridgeStringWidth, scaleLength,
                             FretTable(scaleLength, factor, numberOfFrets))
      <= MaxReal(nutStringWidth, bridgeStringWidth)
  {
    var d := Distance(scaleLength, factor, fretNumber);
    DistanceBetweenNutAndBridge(scaleLength, factor, fretNumber);
    Round4Monotone(0.0, d);
    Round4Monotone(d, scaleLength);
    assert Round4(0.0) == 0.0;
    SpacingBetweenWidths(fretNumber, nutStringWidth, bridgeStringWidth, scaleLength,
                         FretTable(scaleLength, factor, numberOfFrets));
  }

  lemma QuotientOrder(a: real, b: real, scaleLength: real)
    requires a <= b && scaleLength > 0.0
    ensures a / scaleLength <= b / scaleLength
  {
  }

  lemma ProductOrder(c: real, x: real, y: real)
    requires x <= y && c >= 0.0
    ensures c * x <= c * y
  {
  }

  /**
   * With the bridge spread at least the nut spread, a fret stored further
   * from the nut has at least the spread of one stored nearer.
   */
  lemma SpacingFollowsDistance(j: int, k: int, nutStringWidth: real, bridgeStringWidth: real, scaleLength: real,
                               table: seq<FretPosition>)
    requires 1 <= j <= |table| && 1 <= k <= |table| && scaleLength > 0.0 && nutStringWidth <= bridgeStringWidth
    requires table[j - 1].distance <= table[k - 1].distance
    ensures StringSpacingAtFret(j, nutStringWidth, bridgeStringWidth, scaleLength, table)
      <= StringSpacingAtFret(k, nutStringWidth, bridgeStringWidth, scaleLength, table)
  {
    var rj := SpacingRatio(j, scaleLength, table);
    var rk := SpacingRatio(k, scaleLength, table);
    QuotientOrder(table[j - 1].distance, table[k - 1].distance, scaleLength);
    ProductOrder(bridgeStringWidth - nutStringWidth, rj, rk);
  }

  /**
   * When the bridge spread is at least the nut spread, the strings spread
   * further apart at every fret up the computed table.
   */
  lemma SpacingWidensAlongNeck(scaleLength: real, factor: real, numberOfFrets: int, j: int, k: int,
                               nutStringWidth: real, bridgeStringWidth: real)
    requires scaleLength > 0.0 && factor > 1.0 && nutStringWidth <= bridgeStringWidth
    requires 1 <= j < k <= numberOfFrets
    ensures StringSpacingAtFret(j, nutStringWidth, bridgeStringWidth, scaleLength, FretTable(scaleLength, factor, numberOfFrets))
      <= StringSpacingAtFret(k, nutStringWidth, bridgeStringWidth, scaleLength, FretTable(scaleLength, factor, numberOfFrets))
  {
    var table := FretTable(scaleLength, factor, numberOfFrets);
    StoredDistancesNonDecreasing(scaleLength, factor, numberOfFrets, j - 1, k - 1);
    SpacingFollowsDistance(j, k, nutStringWidth, bridgeStringWidth, scaleLength, table);
  }
}
