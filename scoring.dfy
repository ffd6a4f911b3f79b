/** Distance-to-score mapping and the coordinate conventions of a guessing round
    (script.js, `calculateScore` and the coordinate swap in `handleMapClick`). */
module Scoring {

  /** A point as the map reports a click: latitude first. */
  datatype GeoPoint = GeoPoint(lat: real, lng: real)

  /** A coordinate pair as the station directory stores it: `[longitude, latitude]`. */
  type LonLat = c: seq<real> | |c| == 2 witness [0.0, 0.0]

  /** The floating-point numerics the model takes as given.
      `haversine(lat1, lon1, lat2, lon2)` is `calculateDistance` in kilometres on a
      sphere of radius 6371; `expTail(d)` is `Math.floor(5000 * Math.exp(-d / 2000))`. */
  datatype Numerics = Numerics(haversine: (real, real, real, real) -> real, expTail: real -> int)

  /** Where the station really is, read from its stored pair in swapped order. */
  function TruePosition(coordinates: LonLat): GeoPoint {
    GeoPoint(coordinates[1], coordinates[0])
  }

  /** The stored order of a point: longitude first. */
  function StoredOrder(p: GeoPoint): LonLat {
    [p.lng, p.lat]
  }

  /** The stored pair is `[lon, lat]`: its second element is the latitude, its first the
      longitude, and the two conversions are inverse to each other. */
  lemma TruePositionSwapsStoredOrder(c: LonLat, p: GeoPoint)
    ensures TruePosition(c).lat == c[1] && TruePosition(c).lng == c[0]
    ensures StoredOrder(TruePosition(c)) == c
    ensures TruePosition(StoredOrder(p)) == p
  {
    assert StoredOrder(TruePosition(c)) == [c[0], c[1]];
  }

  /** The distance bounds of the step table, from the closest. */
  const StepBounds: seq<real> := [10.0, 50.0, 100.0, 500.0, 1000.0]

  /** How many of `bounds` the distance has reached. */
  function BoundsReached(distance: real, bounds: seq<real>): (n: nat)
    ensures n <= |bounds|
  {
    if bounds == [] then 0
    else (if bounds[0] <= distance then 1 else 0) + BoundsReached(distance, bounds[1..])
  }

  /** Counting the step bounds one by one. */
  lemma StepBoundsReached(distance: real)
    ensures BoundsReached(distance, StepBounds)
      == (if 10.0 <= distance then 1 else 0) + (if 50.0 <= distance then 1 else 0)
       + (if 100.0 <= distance then 1 else 0) + (if 500.0 <= distance then 1 else 0)
       + (if 1000.0 <= distance then 1 else 0)
  {
    var b0 := StepBounds;
    var b1, b2, b3, b4 := b0[1..], b0[2..], b0[3..], b0[4..];
    assert b1 == [50.0, 100.0, 500.0, 1000.0] && b2 == b1[1..] && b3 == b2[1..] && b4 == b3[1..];
    assert b4 == [1000.0] && b4[1..] == [];
    assert BoundsReached(distance, b4) == (if 1000.0 <= distance then 1 else 0);
    assert BoundsReached(distance, b3) == (if 500.0 <= distance then 1 else 0) + BoundsReached(distance, b4);
    assert BoundsReached(distance, b2) == (if 100.0 <= distance then 1 else 0) + BoundsReached(distance, b3);
    assert BoundsReached(distance, b1) == (if 50.0 <= distance then 1 else 0) + BoundsReached(distance, b2);
  }

  /** `Math.max(0, t)`. */
  function ClampToZero(t: int): (r: nat)
    ensures r >= t && (r == t || r == 0)
  {
    if t > 0 then t else 0
  }

  /** `calculateScore(distance)`: 5000 points under 10 km, one thousand fewer for each
      step bound reached below 1000 km, and from 1000 km on the exponential tail, never
      below zero. */
  function CalculateScore(distance: real, expTail: real -> int): (score: int)
    ensures score >= 0
    ensures distance < 1000.0 ==> score == 5000 - 1000 * BoundsReached(distance, StepBounds)
    ensures distance >= 1000.0 ==> score == ClampToZero(expTail(distance))
  {
    StepBoundsReached(distance);
    if distance < 10.0 then 5000
    else if distance < 50.0 then 4000
    else if distance < 100.0 then 3000
    else if distance < 500.0 then 2000
    else if distance < 1000.0 then 1000
    else ClampToZero(expTail(distance))
  }

  /** The fixed values of the step table, interval by interval. */
  lemma StepTable(distance: real, expTail: real -> int)
    ensures distance < 10.0 ==> CalculateScore(distance, expTail) == 5000
    ensures 10.0 <= distance < 50.0 ==> CalculateScore(distance, expTail) == 4000
    ensures 50.0 <= distance < 100.0 ==> CalculateScore(distance, expTail) == 3000
    ensures 100.0 <= distance < 500.0 ==> CalculateScore(distance, expTail) == 2000
    ensures 500.0 <= distance < 1000.0 ==> CalculateScore(distance, expTail) == 1000
  {
  }

  /** Below 1000 km a farther guess never scores more. */
  lemma ScoreNonIncreasingBelowTail(d1: real, d2: real, expTail: real -> int)
    requires d1 <= d2 < 1000.0
    ensures CalculateScore(d1, expTail) >= CalculateScore(d2, expTail)
  {
  }

  /** The table is not monotone across 1000 km: whenever the tail at 1000 km is worth more
      than 1000 points (it is 3032 with the real exponential), a guess at 1000 km beats
      every guess between 500 and 1000 km. */
  lemma ScoreJumpsAtTailStart(d: real, expTail: real -> int)
    requires 500.0 <= d < 1000.0
    requires expTail(1000.0) > 1000
    ensures CalculateScore(d, expTail) < CalculateScore(1000.0, expTail)
  {
  }

  /** `Math.round(x)`: the nearest integer, halves rounded up. */
  function RoundHalfUp(x: real): (n: int)
    ensures n as real - 0.5 <= x < n as real + 0.5
  {
    (x + 0.5).Floor
  }
}
