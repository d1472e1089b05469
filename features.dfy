/**
 * The `to_geojson` of each entity: a Point and a Waypoint become a Point
 * Feature, a Track becomes a MultiLineString Feature with one line per segment.
 * Each encoder is paired with a decoder that reads the entity back.
 */
module Features {
  import opened Wrappers
  import opened Json
  import opened Geo
  import opened GeoJsonHelper
  import opened Sequences

  /** What a property under some key says of an optional string: absent, a string, or malformed. */
  function DecodeLabel(v: Option<Json>): Option<Option<string>>
  {
    match v
    case None => Some(None)
    case Some(JStr(s)) => Some(Some(s))
    case Some(_) => None
  }

  /** The keys a waypoint's property hash keeps from its `title` and `icon` labels once nil labels are dropped, in order. */
  function LabelKeys(name: Option<string>, kind: Option<string>): seq<string>
  {
    (if name.Some? then ["title"] else []) + (if kind.Some? then ["icon"] else [])
  }

  // Point geometry

  /** The point a Point geometry stands for. */
  function DecodePointGeometry(g: Json): Option<Point>
  {
    if Get(g, "type") != Some(JStr("Point")) then None
    else
      match Get(g, "coordinates")
      case Some(c) => DecodeCoordinate(c)
      case None => None
  }

  /**
   * A Point geometry whose position is longitude, latitude and, when present,
   * elevation (nil dropped from the position), built alike by Point
   * and Waypoint: its coordinates are exactly the position the helper would format.
   */
  function PointGeometry(lon: real, lat: real, ele: Option<real>): (r: Json)
    ensures r.JObj? && Keys(r.members) == ["type", "coordinates"]
    ensures Get(r, "type") == Some(JStr("Point"))
    ensures Get(r, "coordinates") == Some(CoordinateToGeoJson(Point(lon, lat, ele)))
    ensures DecodePointGeometry(r) == Some(Point(lon, lat, ele))
  {
    var xs := [JNum(lon), JNum(lat), OptionalNumber(ele)];
    assert xs[1..][1..][1..] == [];
    assert CompactArray(xs[1..][1..]) == if ele.Some? then [JNum(ele.value)] else [];
    assert CompactArray(xs[1..]) == [JNum(lat)] + CompactArray(xs[1..][1..]);
    var compacted := CompactArray(xs);
    assert compacted == [JNum(lon)] + CompactArray(xs[1..]);
    assert compacted == CoordinateToGeoJson(Point(lon, lat, ele)).items;
    PairObject("type", JStr("Point"), "coordinates", JArr(compacted));
    JObj([("type", JStr("Point")), ("coordinates", JArr(compacted))])
  }

  // Point

  /** The point a Point Feature carries. */
  function DecodePointFeature(j: Json): Option<Point>
  {
    match Get(j, "geometry")
    case Some(g) => DecodePointGeometry(g)
    case None => None
  }

  /** Point#to_geojson: a Point Feature at the point's position whose properties are always empty. */
  function PointToGeoJson(p: Point): (r: Json)
    ensures Get(r, "type") == Some(JStr("Feature"))
    ensures Get(r, "properties") == Some(JObj([]))
    ensures Get(r, "geometry") == Some(PointGeometry(p.lon, p.lat, p.ele))
    ensures GetIn(r, "geometry", "type") == Some(JStr("Point"))
    ensures GetIn(r, "geometry", "coordinates") == Some(CoordinateToGeoJson(p))
    ensures DecodePointFeature(r) == Some(p)
  {
    FeatureToGeoJson("Feature", PointGeometry(p.lon, p.lat, p.ele), [])
  }

  // Waypoint

  /** A waypoint's properties: its name as `title` and its type as `icon`, nil ones dropped. */
  function WaypointProperties(name: Option<string>, kind: Option<string>): (r: seq<(string, Json)>)
    ensures Keys(r) == LabelKeys(name, kind)
    ensures NoNullValues(r)
    ensures Lookup(r, "title") == if name.Some? then Some(JStr(name.value)) else None
    ensures Lookup(r, "icon") == if kind.Some? then Some(JStr(kind.value)) else None
    ensures DecodeLabel(Lookup(r, "title")) == Some(name) && DecodeLabel(Lookup(r, "icon")) == Some(kind)
  {
    var labels := [("title", OptionalString(name)), ("icon", OptionalString(kind))];
    assert labels[1..][1..] == [];
    assert CompactObject(labels[1..]) == if kind.Some? then [labels[1]] else [];
    CompactObject(labels)
  }

  /** The waypoint a Point Feature with optional `title` and `icon` strings stands for. */
  function DecodeWaypointFeature(j: Json): Option<Waypoint>
  {
    var p := DecodePointFeature(j);
    var props := Get(j, "properties");
    if p.None? || props.None? then None
    else
      var name := DecodeLabel(Get(props.value, "title"));
      var kind := DecodeLabel(Get(props.value, "icon"));
      if name.None? || kind.None? then None
      else Some(Waypoint(p.value.lon, p.value.lat, p.value.ele, name.value, kind.value))
  }

  /**
   * Waypoint#to_geojson: the same geometry as the Point at its position, with
   * `title` present exactly when the name is, `icon` present exactly when the
   * type is, and `title` before `icon`.
   */
  function WaypointToGeoJson(w: Waypoint): (r: Json)
    ensures Get(r, "type") == Some(JStr("Feature"))
    ensures Get(r, "geometry") == Some(PointGeometry(w.lon, w.lat, w.ele))
    ensures DecodePointFeature(r) == Some(Point(w.lon, w.lat, w.ele))
    ensures Get(r, "properties") == Some(JObj(WaypointProperties(w.name, w.kind)))
    ensures Keys(Get(r, "properties").value.members) == LabelKeys(w.name, w.kind)
    ensures GetIn(r, "properties", "title") == if w.name.Some? then Some(JStr(w.name.value)) else None
    ensures GetIn(r, "properties", "icon") == if w.kind.Some? then Some(JStr(w.kind.value)) else None
  {
    var geometry := PointGeometry(w.lon, w.lat, w.ele);
    var properties := WaypointProperties(w.name, w.kind);
    var r := FeatureToGeoJson("Feature", geometry, properties);
    assert Get(r, "properties") == Some(JObj(properties));
    r
  }

  /** Every waypoint is read back from its own Feature. */
  lemma WaypointRoundTrip(w: Waypoint)
    ensures DecodeWaypointFeature(WaypointToGeoJson(w)) == Some(w)
  {
  }

  /** A waypoint with neither name nor type serialises exactly as the Point at its position. */
  lemma UnlabelledWaypointIsPoint(w: Waypoint)
    requires w.name.None? && w.kind.None?
    ensures WaypointToGeoJson(w) == PointToGeoJson(Point(w.lon, w.lat, w.ele))
  {
  }

  // Track

  /** TrackSegment#coordinates_to_geojson: a line of the segment's positions, which decode back to its points. */
  function SegmentToGeoJson(segment: TrackSegment): (r: Json)
    ensures r.JArr? && |r.items| == |segment.coordinates|
    ensures DecodeCoordinates(r.items) == Some(segment.coordinates)
  {
    CoordinatesRoundTrip(segment.coordinates);
    JArr(CoordinatesToGeoJson(segment.coordinates))
  }

  /** The lines of a track: one per segment, in order. */
  function SegmentsToGeoJson(segments: seq<TrackSegment>): (r: seq<Json>)
    ensures |r| == |segments|
    ensures forall i :: 0 <= i < |segments| ==> r[i] == SegmentToGeoJson(segments[i])
  {
    Map(SegmentToGeoJson, segments)
  }

  /** The segments a list of lines stands for; nothing if one is not a list of positions. */
  function DecodeSegments(js: seq<Json>): Option<seq<TrackSegment>>
  {
    if |js| == 0 then Some([])
    else if !js[0].JArr? then None
    else
      match (DecodeCoordinates(js[0].items), DecodeSegments(js[1..]))
      case (Some(ps), Some(ss)) => Some([TrackSegment(ps)] + ss)
      case _ => None
  }

  /** Every list of segments is read back from its lines. */
  lemma {:induction false} SegmentsRoundTrip(segments: seq<TrackSegment>)
    ensures DecodeSegments(SegmentsToGeoJson(segments)) == Some(segments)
  {
    if |segments| > 0 {
      var r := SegmentsToGeoJson(segments);
      assert r == [SegmentToGeoJson(segments[0])] + SegmentsToGeoJson(segments[1..]);
      SegmentsRoundTrip(segments[1..]);
      assert [segments[0]] + segments[1..] == segments;
    }
  }

  /** The segments a MultiLineString geometry stands for. */
  function DecodeMultiLineStringGeometry(g: Json): Option<seq<TrackSegment>>
  {
    if Get(g, "type") != Some(JStr("MultiLineString")) then None
    else
      match Get(g, "coordinates")
      case Some(JArr(lines)) => DecodeSegments(lines)
      case _ => None
  }

  /** A MultiLineString geometry holding the lines of the given segments. */
  function MultiLineStringGeometry(segments: seq<TrackSegment>): (r: Json)
    ensures r.JObj? && Keys(r.members) == ["type", "coordinates"]
    ensures Get(r, "type") == Some(JStr("MultiLineString"))
    ensures Get(r, "coordinates") == Some(JArr(SegmentsToGeoJson(segments)))
    ensures DecodeMultiLineStringGeometry(r) == Some(segments)
  {
    var coordinates := SegmentsToGeoJson(segments);
    PairObject("type", JStr("MultiLineString"), "coordinates", JArr(coordinates));
    SegmentsRoundTrip(segments);
    JObj([("type", JStr("MultiLineString")), ("coordinates", JArr(coordinates))])
  }

  /** A track's properties: its name as `title`, dropped when nil. */
  function TrackProperties(name: Option<string>): (r: seq<(string, Json)>)
    ensures Keys(r) == LabelKeys(name, None)
    ensures NoNullValues(r)
    ensures Lookup(r, "title") == if name.Some? then Some(JStr(name.value)) else None
  {
    var labels := [("title", OptionalString(name))];
    assert labels[1..] == [];
    CompactObject(labels)
  }

  /** The track a MultiLineString Feature with an optional `title` string stands for. */
  function DecodeTrackFeature(j: Json): Option<Track>
  {
    var geometry := Get(j, "geometry");
    var props := Get(j, "properties");
    if geometry.None? || props.None? then None
    else
      var segments := DecodeMultiLineStringGeometry(geometry.value);
      var name := DecodeLabel(Get(props.value, "title"));
      if segments.None? || name.None? then None
      else Some(Track(segments.value, name.value))
  }

  /**
   * Track#to_geojson: a MultiLineString Feature whose `coordinates` hold one
   * line per segment, in order, line i being the positions of segment i; `title`
   * is present exactly when the track has a name.
   */
  function TrackToGeoJson(t: Track): (r: Json)
    ensures Get(r, "type") == Some(JStr("Feature"))
    ensures Get(r, "geometry") == Some(MultiLineStringGeometry(t.segments))
    ensures GetIn(r, "geometry", "type") == Some(JStr("MultiLineString"))
    ensures var c := GetIn(r, "geometry", "coordinates");
      && c.Some? && c.value.JArr? && |c.value.items| == |t.segments|
      && forall i :: 0 <= i < |t.segments| ==>
           && c.value.items[i] == SegmentToGeoJson(t.segments[i])
           && |c.value.items[i].items| == |t.segments[i].coordinates|
    ensures Get(r, "properties").Some? && Get(r, "properties").value.JObj?
    ensures Keys(Get(r, "properties").value.members) == LabelKeys(t.name, None)
    ensures GetIn(r, "properties", "title") == if t.name.Some? then Some(JStr(t.name.value)) else None
  {
    var geometry := MultiLineStringGeometry(t.segments);
    var properties := TrackProperties(t.name);
    var r := FeatureToGeoJson("Feature", geometry, properties);
    assert Get(r, "properties") == Some(JObj(properties));
    r
  }

  /** Every track is read back from its own Feature. */
  lemma TrackRoundTrip(t: Track)
    ensures DecodeTrackFeature(TrackToGeoJson(t)) == Some(t)
  {
    var r := TrackToGeoJson(t);
    assert Get(r, "geometry") == Some(MultiLineStringGeometry(t.segments));
    var props := Get(r, "properties").value;
    assert DecodeLabel(Get(props, "title")) == Some(t.name);
  }

  // Any entity

  /** What every entity's Feature looks like: a Feature, nil-free properties and a Point or MultiLineString geometry. */
  ghost predicate IsFeature(j: Json)
  {
    && j.JObj?
    && Keys(j.members) == ["type", "properties", "geometry"]
    && Get(j, "type") == Some(JStr("Feature"))
    && Get(j, "properties").Some? && Get(j, "properties").value.JObj?
    && NoNullValues(Get(j, "properties").value.members)
    && GetIn(j, "geometry", "type") in {Some(JStr("Point")), Some(JStr("MultiLineString"))}
  }

  /** The Feature of any entity the World can hold (the World calls each entity's own serialiser without caring about its class). */
  function EntityToGeoJson(e: Entity): (r: Json)
    ensures Get(r, "type") == Some(JStr("Feature"))
    ensures GetIn(r, "geometry", "type") == Some(JStr(if e.TrackEntity? then "MultiLineString" else "Point"))
    ensures !e.TrackEntity? ==> GetIn(r, "geometry", "coordinates") == Some(CoordinateToGeoJson(
      if e.PointEntity? then e.point else Point(e.waypoint.lon, e.waypoint.lat, e.waypoint.ele)))
    ensures e.PointEntity? ==> Get(r, "geometry") == Some(PointGeometry(e.point.lon, e.point.lat, e.point.ele))
    ensures e.WaypointEntity? ==> Get(r, "geometry") == Some(PointGeometry(e.waypoint.lon, e.waypoint.lat, e.waypoint.ele))
    ensures e.TrackEntity? ==> Get(r, "geometry") == Some(MultiLineStringGeometry(e.track.segments))
    ensures e.PointEntity? ==> Get(r, "properties") == Some(JObj([]))
    ensures e.WaypointEntity? ==> Get(r, "properties") == Some(JObj(WaypointProperties(e.waypoint.name, e.waypoint.kind)))
    ensures e.TrackEntity? ==> GetIn(r, "geometry", "coordinates") == Some(JArr(SegmentsToGeoJson(e.track.segments)))
    ensures e.TrackEntity? ==> Get(r, "properties") == Some(JObj(TrackProperties(e.track.name)))
  {
    match e
    case PointEntity(p) => PointToGeoJson(p)
    case WaypointEntity(w) => WaypointToGeoJson(w)
    case TrackEntity(t) => TrackToGeoJson(t)
  }

  /** Every entity's Feature is well formed, and the entity is read back from it. */
  lemma EntityFeature(e: Entity)
    ensures IsFeature(EntityToGeoJson(e))
    ensures e.PointEntity? ==> DecodePointFeature(EntityToGeoJson(e)) == Some(e.point)
    ensures e.WaypointEntity? ==> DecodeWaypointFeature(EntityToGeoJson(e)) == Some(e.waypoint)
    ensures e.TrackEntity? ==> DecodeTrackFeature(EntityToGeoJson(e)) == Some(e.track)
  {
    match e
    case PointEntity(p) =>
    case WaypointEntity(w) => WaypointRoundTrip(w);
    case TrackEntity(t) => TrackRoundTrip(t);
  }
}
