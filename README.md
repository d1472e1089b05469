# GeoJSON serialiser for points, waypoints, tracks and worlds

This project models the core of `gis.rb`, a small Ruby program that turns
geographic entities into GeoJSON:

- points, waypoints and tracks (made of track segments) become Features;
- a World holds entities in insertion order and becomes a FeatureCollection of
  their Features.

It is a Dafny model with proofs about it.

The JSON values the program builds are modelled by the `Json` datatype:

- a Ruby hash is an ordered sequence of key/value pairs, because Ruby hashes keep
  insertion order and the text writer emits keys in that order;
- Ruby `nil` is `JNull`.

This lets the model follow `Array#compact` and `Hash#compact` literally:
`CompactArray` and `CompactObject` drop exactly the `nil` elements and keep the
order of the rest. Optional entity fields (`ele`, `name`, `type`) are `Option`
values. The Waypoint's `type` label is called `kind`, because `type` is a Dafny
keyword.

Modules follow the program's structure:

- `Json`: the value model, the two compactions and key lookup.
- `Geo`: the entity records and the Track constructor.
- `GeoJsonHelper`: position formatting and the Feature builder.
- `Features`: each entity's `to_geojson`.
- `Collection`: the World class.
- `Samples`: the data built by the program's entry point.

`Wrappers` and `Sequences` hold `Option` and an element-wise `map`, which
models Ruby's `Array#map`.

The position, segment and entity encoders have partner decoders:
`DecodeCoordinates`, `DecodeSegments`, `DecodePointGeometry`,
`DecodeMultiLineStringGeometry`, `DecodePointFeature`, `DecodeWaypointFeature` and
`DecodeTrackFeature`. Lemmas prove that each of these decoders, applied to its
encoder's output, returns what was encoded. So a Point, Waypoint or Track loses
nothing in its own Feature: an elevation of 0 is kept, an unnamed track has no
`title`, and so on.

Other parts of the output have no decoder:

- The Feature builder drops nil properties and ignores its `type` argument. Its
  properties are described by `FeatureProperties` and `FeatureIgnoresKind`.
- The collection object has no decoder, and neither does the serialiser of an
  arbitrary entity. That serialiser could not have one: a waypoint without labels
  serialises the same as the point at its position (`UnlabelledWaypointIsPoint`).

`World` is a class, because `add_feature` changes the world in place:

- its `features` field is a sequence that `AddFeature` extends;
- `ToGeoJson` reads it, and its contract ties the collection's features one by
  one to the entities, in order.

## Model

| member | source | states |
|---|---|---|
| Json.OptionalNumber | gis.rb:61 | an optional number becomes `nil` exactly when it is absent, and a present number becomes that same number |
| Json.OptionalString | gis.rb:83 | an optional label becomes `nil` exactly when it is absent, and a present label becomes that same string |
| Json.Lookup | gis.rb:14-18 | the key reader the contracts use to read a hash (the source builds hashes but never reads one by key): it finds nothing exactly when the key is not among the hash's keys; a value it finds is paired with that key in the hash |
| Json.PairObject | gis.rb:59-62 | a two-entry hash literal with distinct keys has those keys in order, and looking up either key gives its value |
| Json.TripleObject | gis.rb:14-18 | a three-entry hash literal with distinct keys has those keys in order, and looking up each key gives its value |
| Json.CompactArray | gis.rb:61 | `Array#compact` keeps only non-nil elements, every non-nil value of the array occurs in the result, the result is a subsequence of the array (original order) and never longer, and a nil-free array is unchanged |
| Json.CompactArrayCounts | gis.rb:61 | `Array#compact` keeps each non-nil element as many times as it occurs and removes every nil: the result's multiset is the array's with nil taken out |
| Json.CompactObject | gis.rb:16 | `Hash#compact` keeps exactly the pairs whose value is not nil, in their original order, never grows the hash, and leaves a nil-free hash unchanged |
| Json.CompactObjectCounts | gis.rb:16 | `Hash#compact` keeps each pair with a non-nil value as many times as it occurs |
| Json.CompactObjectIdempotent | gis.rb:83 | compacting an already compacted hash changes nothing, as with the properties compacted again inside the Feature builder |
| Json.CompactObjectDistinctKeys | gis.rb:16 | compaction keeps hash keys distinct |
| Json.LookupCompactObject | gis.rb:16 | in a compacted hash, a key maps to its original value when that value is not nil, and is missing otherwise |
| Geo.NewTrack | gis.rb:35-38 | a track keeps its name and wraps each given coordinate list in a segment, one segment per list, in order |
| GeoJsonHelper.CoordinateToGeoJson | gis.rb:6-10 | a position is `[lon, lat]`, followed by `ele` exactly when an elevation is present (0 included), and decodes back to the same point |
| GeoJsonHelper.CoordinatesToGeoJson | gis.rb:5-11 | one position per coordinate, in order |
| GeoJsonHelper.CoordinatesCons | gis.rb:5-11 | the positions of a non-empty list are the first point's position followed by the positions of the rest |
| GeoJsonHelper.CoordinatesRoundTrip | gis.rb:5-11 | decoding a formatted position list gives back the coordinates |
| GeoJsonHelper.DecodeCoordinatesSound | gis.rb:5-11 | every position list that decodes is exactly the formatting of what it decodes to, so the decoder is the exact inverse on the formatter's image |
| GeoJsonHelper.FeatureToGeoJson | gis.rb:13-19 | a Feature has keys `type`, `properties`, `geometry` in that order, type `Feature`, the given geometry, and the compacted properties; the properties default to an empty hash |
| GeoJsonHelper.FeatureProperties | gis.rb:16 | a Feature's properties contain no nil values, are a subsequence of the given properties, keep keys distinct, and give each key its original value unless that was nil |
| GeoJsonHelper.FeatureIgnoresKind | gis.rb:13-18 | the Feature builder's `type` argument has no effect on its result |
| Features.PointGeometry | gis.rb:59-62 | a Point geometry has keys `type`, `coordinates`; its type is `Point`; its coordinates are exactly the position the coordinate helper formats; it decodes back to the point |
| Features.PointToGeoJson | gis.rb:58-65 | a Point becomes a Feature with empty properties and a Point geometry at its position, and decodes back to the same point |
| Features.WaypointProperties | gis.rb:83 | a waypoint's properties are `title` then `icon`, each present exactly when that label is, holding the label's string; they hold no nil and decode back to both labels |
| Features.WaypointToGeoJson | gis.rb:77-85 | a Waypoint becomes a Feature with a Point geometry at its position, and properties holding `title` and `icon` exactly when the name and the type are present |
| Features.WaypointRoundTrip | gis.rb:77-85 | decoding a Waypoint's Feature gives back the waypoint: position, elevation, name and type |
| Features.UnlabelledWaypointIsPoint | gis.rb:58-85 | a waypoint with neither name nor type serialises exactly as the point at its position |
| Features.SegmentToGeoJson | gis.rb:29-31 | a segment becomes one line with one position per coordinate, which decodes back to its coordinates |
| Features.SegmentsToGeoJson | gis.rb:41 | one line per segment, in order |
| Features.SegmentsRoundTrip | gis.rb:41 | decoding the lines of a track gives back its segments |
| Features.MultiLineStringGeometry | gis.rb:43 | a MultiLineString geometry has keys `type`, `coordinates`; its type is `MultiLineString`; its coordinates are the segments' lines; it decodes back to the segments |
| Features.TrackProperties | gis.rb:42 | a track's properties hold `title` exactly when the track has a name, holding that name, and no nil |
| Features.TrackToGeoJson | gis.rb:40-46 | a Track becomes a Feature whose geometry is exactly the `{type: MultiLineString, coordinates}` object of its segments, with one line per segment in order, line i holding one position per coordinate of segment i, and `title` present exactly when the track is named |
| Features.TrackRoundTrip | gis.rb:40-46 | decoding a Track's Feature gives back the track: all its segments and its name |
| Features.EntityToGeoJson | gis.rb:99 | the World's call to each entity's serialiser gives a Feature. A Point has empty properties and exactly the Point geometry object at its position. A Waypoint has exactly that Point geometry object and the waypoint's `title`/`icon` properties. A Track has exactly the MultiLineString geometry object of its segments, holding their lines in order, and the track's `title` property |
| Features.EntityFeature | gis.rb:40-85 | every entity becomes a well-formed Feature with nil-free properties and a Point or MultiLineString geometry, which decodes back to the entity |
| Collection.FeaturesToGeoJson | gis.rb:99 | one Feature per entity, the i-th being the i-th entity's Feature |
| Collection.FeaturesAreFeatures | gis.rb:99 | every element of a world's feature list is a well-formed Feature |
| Collection.FeatureCollection | gis.rb:100-103 | the collection object has keys `type`, `features` in that order, type `FeatureCollection`, and the given Features |
| Collection.World.constructor | gis.rb:89-92 | a new world has the given name and entities, with no entities by default |
| Collection.World.AddFeature | gis.rb:94-96 | adding an entity appends it at the end and leaves the earlier entities in place, so the collection gains that entity's Feature as its last element |
| Collection.World.ToGeoJson | gis.rb:98-104 | a world becomes a well-formed FeatureCollection whose i-th Feature is its i-th entity's Feature; an empty world gives an empty collection |
| Sequences.Map | gis.rb:5-11 | mapping keeps the length and applies the function to each element, position by position |
| Sequences.MapAppend | gis.rb:94-99 | mapping a sequence with one element added at the end gives the mapped sequence plus that element's image |
| Samples.SampleWaypoint1Position | gis.rb:108 | the first sample waypoint's position is `[-121.5, 45.5, 30]` |
| Samples.SampleWaypoint1Labels | gis.rb:108 | the first sample waypoint's properties are `title` "home" then `icon` "flag" |
| Samples.SampleWaypoint2 | gis.rb:109 | the second sample waypoint has no elevation, so its position is `[-121.5, 45.6]` |
| Samples.SampleTrack1 | gis.rb:111-127 | the first sample track is a MultiLineString titled "track 1" with two lines, of three and two positions |
| Samples.SampleWorld | gis.rb:108-130 | the sample world is "My Data", holding the two waypoints and then the two tracks |

## Left out

- The entry point's printing is not modelled: there is no I/O.
- The text form of JSON is not modelled: key quoting, string escaping and number formatting.
  - Features are modelled as structured values rather than strings.
  - A World parses each Feature's text back into a value. The model takes that parse-after-serialise round trip to return the same structure, so `Collection.FeaturesToGeoJson` uses each Feature value directly.
- Floating point is not modelled. Coordinates are `real`, and the source does no arithmetic on them. The integer/float distinction in the sample data is not kept: 30 is written as 30.0.
- Longitude and latitude are never `nil` in the model. With a `nil` longitude, Ruby would behave in two ways: a Point's coordinates would drop it, and the coordinate helper would keep a `null`.
- A `false` elevation is not representable: elevation is either present or absent. The two Ruby paths would disagree on it, just as for a nil longitude. The coordinate helper's `if coord.ele` treats `false` like `nil` and leaves it out. The `compact` in Point and Waypoint keeps `false`, because it drops only `nil`.
- The World's entity list is a value, so aliasing is not modelled. In Ruby, the array passed to `World.new` is the same array `add_feature` appends to, so the caller sees the change.
- Collection.World.AddFeature: does not return the feature array, because Ruby's return value of `add_feature` is the array and no caller uses it.
- The name of a World is stored but never serialised, as in the source.
- Waypoint's inheritance from Point is not modelled. The two classes are separate entities, and `Features.UnlabelledWaypointIsPoint` states how they relate.
- A track segment holds only points. Any object with `lon`, `lat` and `ele` would do in Ruby, and only those three fields would be used.
- Default constructor arguments are expressed through `Option`. For Track, the default `nil` name is `None`.
- Idempotence and purity of `to_geojson` are not stated as lemmas. Every serialiser is a Dafny function of the entity's fields, so calling it twice gives the same result by construction.
- Property values that are empty strings are kept. `Hash#compact` drops only `nil`, and the model follows the code here. A reading where empty properties are also dropped would differ.
