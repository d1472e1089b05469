/**
 * The shared encoders: a list of points becomes a list of GeoJSON positions
 * (longitude first, then latitude, then the elevation when there is one), and a
 * geometry with a property hash becomes a Feature whose nil properties are
 * dropped. The decoders are the inverses of the position encoders.
 */
module GeoJsonHelper {
  import opened Wrappers
  import opened Json
  import opened Geo
  import opened Sequences

  /** The point a GeoJSON position `[lon, lat]` or `[lon, lat, ele]` stands for. */
  function DecodeCoordinate(j: Json): Option<Point>
  {
    if j.JArr? && 2 <= |j.items| <= 3 && forall k :: 0 <= k < |j.items| ==> j.items[k].JNum? then
      var ele := if |j.items| == 3 then Some(j.items[2].num) else None;
      Some(Point(j.items[0].num, j.items[1].num, ele))
    else
      None
  }

  /** The points a list of GeoJSON positions stands for; nothing if one is not a position. */
  function DecodeCoordinates(js: seq<Json>): Option<seq<Point>>
  {
    if |js| == 0 then Some([])
    else
      match (DecodeCoordinate(js[0]), DecodeCoordinates(js[1..]))
      case (Some(p), Some(ps)) => Some([p] + ps)
      case _ => None
  }

  /** The position of one point: longitude, latitude, and elevation only when it is present. */
  function CoordinateToGeoJson(coord: Point): (r: Json)
    ensures r.JArr? && |r.items| == if coord.ele.Some? then 3 else 2
    ensures r.items[0] == JNum(coord.lon) && r.items[1] == JNum(coord.lat)
    ensures coord.ele.Some? ==> r.items[2] == JNum(coord.ele.value)
    ensures DecodeCoordinate(r) == Some(coord)
  {
    var formatted := [JNum(coord.lon), JNum(coord.lat)];
    JArr(if coord.ele.Some? then formatted + [JNum(coord.ele.value)] else formatted)
  }

  /** GeoJsonHelper.coordinates_to_geojson: one position per point, in the same order. */
  function CoordinatesToGeoJson(coordinates: seq<Point>): (r: seq<Json>)
    ensures |r| == |coordinates|
    ensures forall i :: 0 <= i < |coordinates| ==> r[i] == CoordinateToGeoJson(coordinates[i])
  {
    Map(CoordinateToGeoJson, coordinates)
  }

  /** The positions of a non-empty list are the first point's position followed by the rest's. */
  lemma CoordinatesCons(coordinates: seq<Point>)
    requires |coordinates| > 0
    ensures CoordinatesToGeoJson(coordinates) == [CoordinateToGeoJson(coordinates[0])] + CoordinatesToGeoJson(coordinates[1..])
  {
    var r := CoordinatesToGeoJson(coordinates);
    assert r[1..] == CoordinatesToGeoJson(coordinates[1..]);
  }

  /** Every position decodes back to the point it was made from. */
  lemma {:induction false} CoordinatesRoundTrip(coordinates: seq<Point>)
    ensures DecodeCoordinates(CoordinatesToGeoJson(coordinates)) == Some(coordinates)
  {
    if |coordinates| > 0 {
      var c := coordinates[0];
      var rest := coordinates[1..];
      CoordinatesCons(coordinates);
      CoordinatesRoundTrip(rest);
      var js := [CoordinateToGeoJson(c)] + CoordinatesToGeoJson(rest);
      assert js[0] == CoordinateToGeoJson(c) && js[1..] == CoordinatesToGeoJson(rest);
      assert [c] + rest == coordinates;
    }
  }

  /** Conversely, every list the decoder accepts is exactly the encoding of what it decodes to. */
  lemma {:induction false} DecodeCoordinatesSound(js: seq<Json>, coordinates: seq<Point>)
    requires DecodeCoordinates(js) == Some(coordinates)
    ensures CoordinatesToGeoJson(coordinates) == js
  {
    if |js| > 0 {
      var p := DecodeCoordinate(js[0]).value;
      var ps := DecodeCoordinates(js[1..]).value;
      DecodeCoordinatesSound(js[1..], ps);
      assert coordinates == [p] + ps;
      var j := js[0];
      assert CoordinateToGeoJson(p).items == j.items;
      assert CoordinatesToGeoJson(coordinates) == [CoordinateToGeoJson(p)] + CoordinatesToGeoJson(ps);
    }
  }

  /**
   * GeoJsonHelper.feature_to_geojson: a Feature with `type`, `properties`, `geometry`,
   * in that order. The geometry is passed through; the properties lose their nil pairs.
   * The `kind` argument (Ruby's `type`) is not used.
   */
  function FeatureToGeoJson(kind: string, geometry: Json, properties: seq<(string, Json)> := []): (r: Json)
    ensures r.JObj? && Keys(r.members) == ["type", "properties", "geometry"]
    ensures Get(r, "type") == Some(JStr("Feature"))
    ensures Get(r, "geometry") == Some(geometry)
    ensures Get(r, "properties") == Some(JObj(CompactObject(properties)))
  {
    TripleObject("type", JStr("Feature"), "properties", JObj(CompactObject(properties)), "geometry", geometry);
    JObj([("type", JStr("Feature")), ("properties", JObj(CompactObject(properties))), ("geometry", geometry)])
  }

  /**
   * The properties of a Feature are the given pairs with a non-nil value, in their
   * original order; no nil survives, and each key reads what it read before unless
   * that was nil.
   */
  lemma FeatureProperties(kind: string, geometry: Json, properties: seq<(string, Json)>, key: string)
    requires DistinctKeys(properties)
    ensures var p := Get(FeatureToGeoJson(kind, geometry, properties), "properties").value;
      && p.JObj?
      && NoNullValues(p.members)
      && IsSubsequence(p.members, properties)
      && DistinctKeys(p.members)
      && Lookup(p.members, key) ==
         match Lookup(properties, key)
         case None => None
         case Some(v) => if v == JNull then None else Some(v)
  {
    CompactObjectDistinctKeys(properties);
    LookupCompactObject(properties, key);
  }

  /** The `type` argument makes no difference. */
  lemma FeatureIgnoresKind(kind1: string, kind2: string, geometry: Json, properties: seq<(string, Json)>)
    ensures FeatureToGeoJson(kind1, geometry, properties) == FeatureToGeoJson(kind2, geometry, properties)
  {
  }
}
