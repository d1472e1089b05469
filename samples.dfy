/**
 * The sample data that the program's entry point builds: two waypoints and two
 * tracks in a world, and what the world's serialisation says about them.
 */
module Samples {
  import opened Wrappers
  import opened Json
  import opened Geo
  import opened GeoJsonHelper
  import opened Features
  import opened Collection

  const WAYPOINT_1 := Waypoint(-121.5, 45.5, Some(30.0), Some("home"), Some("flag"))
  const WAYPOINT_2 := Waypoint(-121.5, 45.6, None, Some("store"), Some("dot"))

  const TRACK_SEG_1 := [Point(-122.0, 45.0, None), Point(-122.0, 46.0, None), Point(-121.0, 46.0, None)]
  const TRACK_SEG_2 := [Point(-121.0, 45.0, None), Point(-121.0, 46.0, None)]
  const TRACK_SEG_3 := [Point(-121.0, 45.5, None), Point(-122.0, 45.5, None)]

  const TRACK_1 := NewTrack([TRACK_SEG_1, TRACK_SEG_2], Some("track 1"))
  const TRACK_2 := NewTrack([TRACK_SEG_3], Some("track 2"))

  /** The first waypoint keeps its elevation as a third coordinate. */
  lemma SampleWaypoint1Position()
    ensures GetIn(WaypointToGeoJson(WAYPOINT_1), "geometry", "coordinates") == Some(JArr([JNum(-121.5), JNum(45.5), JNum(30.0)]))
  {
  }

  /** The first waypoint keeps both its labels, `title` first. */
  lemma SampleWaypoint1Labels()
    ensures Keys(Get(WaypointToGeoJson(WAYPOINT_1), "properties").value.members) == ["title", "icon"]
    ensures GetIn(WaypointToGeoJson(WAYPOINT_1), "properties", "title") == Some(JStr("home"))
    ensures GetIn(WaypointToGeoJson(WAYPOINT_1), "properties", "icon") == Some(JStr("flag"))
  {
    var w := WAYPOINT_1;
    assert w.name == Some("home") && w.kind == Some("flag");
    assert LabelKeys(w.name, w.kind) == ["title", "icon"];
  }

  /** The second waypoint has no elevation, so its position has two coordinates. */
  lemma SampleWaypoint2()
    ensures GetIn(WaypointToGeoJson(WAYPOINT_2), "geometry", "coordinates") == Some(JArr([JNum(-121.5), JNum(45.6)]))
  {
  }

  /** The first track is a MultiLineString of two lines, of three and two positions, titled "track 1". */
  lemma SampleTrack1()
    ensures GetIn(TrackToGeoJson(TRACK_1), "geometry", "type") == Some(JStr("MultiLineString"))
    ensures GetIn(TrackToGeoJson(TRACK_1), "properties", "title") == Some(JStr("track 1"))
    ensures var c := GetIn(TrackToGeoJson(TRACK_1), "geometry", "coordinates");
      && c.Some? && c.value.JArr? && |c.value.items| == 2
      && c.value.items[0].JArr? && |c.value.items[0].items| == 3
      && c.value.items[1].JArr? && |c.value.items[1].items| == 2
  {
  }

  /** The world "My Data" holding the two waypoints and then the two tracks. */
  method SampleWorld() returns (world: World)
    ensures fresh(world)
    ensures world.name == "My Data"
    ensures world.features == [WaypointEntity(WAYPOINT_1), WaypointEntity(WAYPOINT_2), TrackEntity(TRACK_1), TrackEntity(TRACK_2)]
  {
    world := new World("My Data", [WaypointEntity(WAYPOINT_1), WaypointEntity(WAYPOINT_2), TrackEntity(TRACK_1), TrackEntity(TRACK_2)]);
  }
}
