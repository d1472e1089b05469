/**
 * The geographic entities of the serialiser, as values. Each Ruby class only
 * stores what its constructor is given, so each becomes a datatype; `Entity`
 * is the closed set of things a World can hold.
 */
module Geo {
  import opened Wrappers

  /** A point: longitude, latitude and an optional elevation. */
  datatype Point = Point(lon: real, lat: real, ele: Option<real>)

  /** A point with an optional name and an optional type label (Ruby's `type`). */
  datatype Waypoint = Waypoint(lon: real, lat: real, ele: Option<real>, name: Option<string>, kind: Option<string>)

  /** One recorded run of a track: its points, in order. */
  datatype TrackSegment = TrackSegment(coordinates: seq<Point>)

  /** A track: its segments, in order, and an optional name. */
  datatype Track = Track(segments: seq<TrackSegment>, name: Option<string>)

  datatype Entity =
    | PointEntity(point: Point)
    | WaypointEntity(waypoint: Waypoint)
    | TrackEntity(track: Track)

  /** Track.new: wraps every list of points into a segment, in order. */
  function NewTrack(segments: seq<seq<Point>>, name: Option<string>): (t: Track)
    ensures |t.segments| == |segments|
    ensures forall i :: 0 <= i < |segments| ==> t.segments[i].coordinates == segments[i]
    ensures t.name == name
  {
    Track(seq(|segments|, i requires 0 <= i < |segments| => TrackSegment(segments[i])), name)
  }
}
