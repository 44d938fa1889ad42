/**
 * Compass-octant naming of a bearing (`bearing_to_direction`). The bearing
 * itself comes from `calculate_bearing`, whose result is reduced modulo 360
 * (`NormalizeBearing`) and so lies in [0, 360); that range is the
 * precondition of the naming functions.
 */
module Geospatial {

  /** The labels, clockwise from north in steps of 45 degrees. */
  const Directions: seq<string> := [
    "на север", "на северо-восток", "на восток", "на юго-восток",
    "на юг", "на юго-запад", "на запад", "на северо-запад"
  ]

  predicate IsBearing(b: real) { 0.0 <= b < 360.0 }

  /**
   * `int(b / 45 + 0.5)`. Python's `int` truncates toward zero, which is the
   * floor for a non-negative argument. The result is the multiple of 45
   * degrees nearest to `b`, halves rounding up, and so lies in 0..8.
   */
  function Bucket(b: real): (v: int)
    requires IsBearing(b)
    ensures 0 <= v <= 8
    ensures v as real * 45.0 - 22.5 <= b < v as real * 45.0 + 22.5
  {
    (b / 45.0 + 0.5).Floor
  }

  /** The position in `Directions` that `bearing_to_direction` reads: `val % 8`. */
  function DirectionIndex(b: real): (i: nat)
    requires IsBearing(b)
    ensures i < |Directions|
  {
    Bucket(b) % 8
  }

  /** `bearing_to_direction(b)`: always one of the eight labels. */
  function BearingToDirection(b: real): (direction: string)
    requires IsBearing(b)
    ensures direction in Directions
  {
    Directions[DirectionIndex(b)]
  }

  /**
   * `(degrees + 360) % 360`, the last step of `calculate_bearing`. Python's
   * float `%` by a positive divisor takes the remainder of the floor
   * division, `x - 360 * floor(x / 360)`, so the result is never negative.
   */
  function NormalizeBearing(degrees: real): (b: real)
    ensures IsBearing(b)
    ensures ((b - degrees) / 360.0).Floor as real == (b - degrees) / 360.0
    ensures -180.0 <= degrees <= 180.0 ==> (degrees >= 0.0 ==> b == degrees) && (degrees < 0.0 ==> b == degrees + 360.0)
  {
    var x := degrees + 360.0;
    var q := (x / 360.0).Floor;
    assert 360.0 * q as real <= x < 360.0 * q as real + 360.0;
    assert (x - 360.0 * q as real - degrees) / 360.0 == (1 - q) as real;
    x - 360.0 * q as real
  }

  /** A bearing already in [0, 360) is left as it is, and adding a full turn changes nothing. */
  lemma NormalizeBearingPeriodic(degrees: real)
    ensures IsBearing(degrees) ==> NormalizeBearing(degrees) == degrees
    ensures NormalizeBearing(degrees + 360.0) == NormalizeBearing(degrees)
  {
    var x := degrees + 360.0;
    assert (x + 360.0) / 360.0 == x / 360.0 + 1.0;
  }

  /** `(b + d) % 360` for two angles in [0, 360): the rotation in `Advance45`. */
  function AddDegrees(b: real, d: real): (r: real)
    requires IsBearing(b) && IsBearing(d)
    ensures IsBearing(r)
    ensures r == b + d || r == b + d - 360.0
  {
    if b + d >= 360.0 then b + d - 360.0 else b + d
  }

  /** North covers both ends of the range: [0, 22.5) and [337.5, 360), and nothing else. */
  lemma NorthAtBothEnds(b: real)
    requires IsBearing(b)
    ensures DirectionIndex(b) == 0 <==> b < 22.5 || 337.5 <= b
  {
    var v := Bucket(b);
    assert DirectionIndex(b) == 0 <==> v == 0 || v == 8;
  }

  /** Every other label k covers exactly the arc of width 45 centred on k * 45. */
  lemma OctantArc(b: real, k: nat)
    requires IsBearing(b) && 1 <= k < 8
    ensures DirectionIndex(b) == k <==> k as real * 45.0 - 22.5 <= b < k as real * 45.0 + 22.5
  {
    var v := Bucket(b);
    assert DirectionIndex(b) == k <==> v == k;
    if v != k {
      assert v < k ==> v as real <= k as real - 1.0;
      assert v > k ==> v as real >= k as real + 1.0;
    }
  }

  /** A bearing that is an exact multiple k * 45 gets label k. */
  lemma ExactMultiples(k: nat)
    requires k < 8
    ensures IsBearing(k as real * 45.0) && DirectionIndex(k as real * 45.0) == k
  {
    var b := k as real * 45.0;
    assert b / 45.0 + 0.5 == k as real + 0.5;
  }

  /** Turning 45 degrees clockwise moves to the next label, wrapping from the last to north. */
  lemma {:induction false} Advance45(b: real)
    requires IsBearing(b)
    ensures DirectionIndex(AddDegrees(b, 45.0)) == (DirectionIndex(b) + 1) % 8
  {
    var r := AddDegrees(b, 45.0);
    var v, w := Bucket(b), Bucket(r);
    if r == b + 45.0 {
      assert r / 45.0 + 0.5 == (b / 45.0 + 0.5) + 1.0;
      assert w == v + 1;
    } else {
      assert r / 45.0 + 0.5 == (b / 45.0 + 0.5) - 7.0;
      assert w == v - 7;
    }
  }

  /** The labels are pairwise distinct, so a label names exactly one octant. */
  lemma LabelsDistinct(a: real, b: real)
    requires IsBearing(a) && IsBearing(b)
    ensures BearingToDirection(a) == BearingToDirection(b) <==> DirectionIndex(a) == DirectionIndex(b)
  {
    assert forall i, j :: 0 <= i < j < |Directions| ==> Directions[i] != Directions[j];
  }
}
