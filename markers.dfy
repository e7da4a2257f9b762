/** How one earthquake feature is drawn: its depth picks a fill colour from a
    cascade of strict thresholds, its magnitude gives the circle radius, and
    the two are combined with fixed stroke and opacity settings. */
module Markers {

  /** The position triple of a GeoJSON point: longitude, latitude, depth in km. */
  datatype Coordinates = Coordinates(longitude: real, latitude: real, depth: real)

  datatype Geometry = Geometry(coordinates: Coordinates)

  /** The feature properties the script reads. */
  datatype Properties = Properties(mag: real, place: string)

  datatype Feature = Feature(geometry: Geometry, properties: Properties)

  /** The options object handed to the circle marker of one feature. */
  datatype MarkerStyle = MarkerStyle(
    opacity: real,
    fillOpacity: real,
    fillColor: string,
    color: string,
    radius: real)

  /** The six marker colours, indexed by band: band 0 is the default (shallowest)
      band and band 5 the deepest. */
  const MarkerPalette: seq<string> :=
    ["#98ee00", "#d4ee00", "#eecc00", "#ee9c00", "#ea822c", "#ea2c2c"]

  /** The lower bounds (exclusive) of bands 1 to 5, ascending. */
  const Thresholds: seq<real> := [10.0, 30.0, 50.0, 70.0, 90.0]

  /** The colour cascade: the first strict threshold the depth exceeds wins,
      anything at or below 10 falls to the default band. */
  function GetColor(depth: real): (c: string)
    ensures c in MarkerPalette
    ensures c == "#ea2c2c" <==> depth > 90.0
    ensures c == "#ea822c" <==> 70.0 < depth <= 90.0
    ensures c == "#ee9c00" <==> 50.0 < depth <= 70.0
    ensures c == "#eecc00" <==> 30.0 < depth <= 50.0
    ensures c == "#d4ee00" <==> 10.0 < depth <= 30.0
    ensures c == "#98ee00" <==> depth <= 10.0
  {
    if depth > 90.0 then "#ea2c2c"
    else if depth > 70.0 then "#ea822c"
    else if depth > 50.0 then "#ee9c00"
    else if depth > 30.0 then "#eecc00"
    else if depth > 10.0 then "#d4ee00"
    else "#98ee00"
  }

  /** How many of the thresholds in `ts` the depth strictly exceeds: an
      ordered table scan, independent of the cascade. */
  function CountExceeded(depth: real, ts: seq<real>): (k: nat)
    ensures k <= |ts|
  {
    if ts == [] then 0
    else (if depth > ts[0] then 1 else 0) + CountExceeded(depth, ts[1..])
  }

  /** The band of a depth, counted from the default band. */
  function Band(depth: real): (k: nat)
    ensures k < |MarkerPalette|
  {
    CountExceeded(depth, Thresholds)
  }

  /** The cascade picks exactly the palette entry of the table-scan band. */
  lemma GetColorIsBandColor(depth: real)
    ensures GetColor(depth) == MarkerPalette[Band(depth)]
  {
    var t1 := [30.0, 50.0, 70.0, 90.0];
    var t2 := [50.0, 70.0, 90.0];
    var t3 := [70.0, 90.0];
    var t4 := [90.0];
    assert Thresholds[1..] == t1 && t1[1..] == t2 && t2[1..] == t3 && t3[1..] == t4 && t4[1..] == [];
    var b4 := if depth > 90.0 then 1 else 0;
    assert CountExceeded(depth, t4) == b4;
    var b3 := (if depth > 70.0 then 1 else 0) + b4;
    assert CountExceeded(depth, t3) == b3;
    var b2 := (if depth > 50.0 then 1 else 0) + b3;
    assert CountExceeded(depth, t2) == b2;
    var b1 := (if depth > 30.0 then 1 else 0) + b2;
    assert CountExceeded(depth, t1) == b1;
    assert Band(depth) == (if depth > 10.0 then 1 else 0) + b1;
  }

  /** The six marker colours are pairwise distinct, so a colour names its band. */
  lemma PaletteDistinct(i: nat, j: nat)
    requires i < |MarkerPalette| && j < |MarkerPalette|
    ensures MarkerPalette[i] == MarkerPalette[j] ==> i == j
  {
  }

  lemma {:induction false} CountExceededMonotone(d1: real, d2: real, ts: seq<real>)
    requires d1 <= d2
    ensures CountExceeded(d1, ts) <= CountExceeded(d2, ts)
  {
    if ts != [] {
      CountExceededMonotone(d1, d2, ts[1..]);
    }
  }

  /** A deeper earthquake never gets a shallower band. */
  lemma BandMonotone(d1: real, d2: real)
    requires d1 <= d2
    ensures Band(d1) <= Band(d2)
  {
    CountExceededMonotone(d1, d2, Thresholds);
  }

  /** The circle radius: 1 for a magnitude at or below zero, else five times
      the magnitude (exact arithmetic). */
  function GetRadius(magnitude: real): (r: real)
    ensures r > 0.0
    ensures magnitude <= 0.0 ==> r == 1.0
    ensures magnitude > 0.0 ==> r == magnitude * 5.0
  {
    if magnitude <= 0.0 then 1.0 else magnitude * 5.0
  }

  /** On positive magnitudes the radius grows with the magnitude. */
  lemma RadiusMonotoneOnPositives(m1: real, m2: real)
    requires 0.0 < m1 <= m2
    ensures GetRadius(m1) <= GetRadius(m2)
  {
  }

  /** The radius is not monotone around zero: magnitude 0 is drawn larger than
      magnitude 0.1. */
  lemma RadiusNotMonotoneAtZero()
    ensures GetRadius(0.0) == 1.0 && GetRadius(0.1) == 0.5
    ensures GetRadius(0.0) > GetRadius(0.1)
  {
  }

  /** A radius below 1 comes exactly from the magnitudes strictly between 0 and 0.2. */
  lemma RadiusBelowOne(m: real)
    ensures GetRadius(m) < 1.0 <==> 0.0 < m < 0.2
  {
  }

  /** The marker options of one feature. */
  function StyleInfo(feature: Feature): (s: MarkerStyle)
    ensures s.fillColor == GetColor(feature.geometry.coordinates.depth)
    ensures s.fillColor == MarkerPalette[Band(feature.geometry.coordinates.depth)]
    ensures s.radius == GetRadius(feature.properties.mag) && s.radius > 0.0
    ensures s.opacity == 0.3 && s.fillOpacity == 0.8 && s.color == "#000000"
  {
    GetColorIsBandColor(feature.geometry.coordinates.depth);
    MarkerStyle(
      opacity := 0.3,
      fillOpacity := 0.8,
      fillColor := GetColor(feature.geometry.coordinates.depth),
      color := "#000000",
      radius := GetRadius(feature.properties.mag))
  }

  /** The style depends on the feature only through its depth and magnitude:
      position and place do not matter. */
  lemma StyleDependsOnlyOnDepthAndMagnitude(f1: Feature, f2: Feature)
    requires f1.geometry.coordinates.depth == f2.geometry.coordinates.depth
    requires f1.properties.mag == f2.properties.mag
    ensures StyleInfo(f1) == StyleInfo(f2)
  {
  }

  /** A feature at depth 12 km with magnitude 3.2 is drawn yellow-green with radius 16. */
  lemma StyleInfoExample()
    ensures var f := Feature(Geometry(Coordinates(-118.5, 38.7, 12.0)), Properties(3.2, ""));
      StyleInfo(f).fillColor == "#d4ee00" && StyleInfo(f).radius == 16.0
  {
  }
}
