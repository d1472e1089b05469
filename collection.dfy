/**
 * World: an append-only list of entities that serialises to a
 * FeatureCollection holding each entity's Feature in insertion order.
 */
module Collection {
  import opened Wrappers
  import opened Json
  import opened Geo
  import opened Features
  import opened Sequences

  /**
   * The features of a World: one Feature per entity, in order (the text round
   * trip through serialising and parsing each Feature again is
   * taken to give back the same structure).
   */
  function FeaturesToGeoJson(entities: seq<Entity>): (r: seq<Json>)
    ensures |r| == |entities|
    ensures forall i :: 0 <= i < |entities| ==> r[i] == EntityToGeoJson(entities[i])
  {
    Map(EntityToGeoJson, entities)
  }

  /** Every Feature the list holds is well formed. */
  lemma FeaturesAreFeatures(entities: seq<Entity>)
    ensures forall i :: 0 <= i < |entities| ==> IsFeature(FeaturesToGeoJson(entities)[i])
  {
    forall i | 0 <= i < |entities| ensures IsFeature(FeaturesToGeoJson(entities)[i]) {
      EntityFeature(entities[i]);
    }
  }

  /** A FeatureCollection: its `type`, then its `features`, every one of them a Feature. */
  ghost predicate IsFeatureCollection(j: Json)
  {
    && j.JObj?
    && Keys(j.members) == ["type", "features"]
    && Get(j, "type") == Some(JStr("FeatureCollection"))
    && Get(j, "features").Some? && Get(j, "features").value.JArr?
    && forall i :: 0 <= i < |Get(j, "features").value.items| ==> IsFeature(Get(j, "features").value.items[i])
  }

  /** The collection object: its type tag, then the given Features. */
  function FeatureCollection(features: seq<Json>): (r: Json)
    ensures r.JObj? && Keys(r.members) == ["type", "features"]
    ensures Get(r, "type") == Some(JStr("FeatureCollection"))
    ensures Get(r, "features") == Some(JArr(features))
  {
    PairObject("type", JStr("FeatureCollection"), "features", JArr(features));
    JObj([("type", JStr("FeatureCollection")), ("features", JArr(features))])
  }

  class World {
    /** The world's name; it never reaches the output. */
    const name: string
    var features: seq<Entity>

    constructor (name: string, features: seq<Entity> := [])
      ensures this.name == name && this.features == features
    {
      this.name := name;
      this.features := features;
    }

    /** World#add_feature: the entity goes at the end; everything before it stays. */
    method AddFeature(feature: Entity)
      modifies this
      ensures features == old(features) + [feature]
      ensures Get(ToGeoJson(), "features") == Some(JArr(FeaturesToGeoJson(old(features)) + [EntityToGeoJson(feature)]))
    {
      MapAppend(EntityToGeoJson, features, feature);
      features := features + [feature];
    }

    /**
     * World#to_geojson: a FeatureCollection object with the
     * i-th Feature being that of the i-th stored entity.
     */
    function ToGeoJson(): (r: Json)
      reads this
      ensures IsFeatureCollection(r)
      ensures Get(r, "features").Some? && Get(r, "features").value.JArr?
      ensures var fs := Get(r, "features").value.items;
        && |fs| == |features|
        && forall i :: 0 <= i < |features| ==> fs[i] == EntityToGeoJson(features[i])
      ensures |features| == 0 ==> r == JObj([("type", JStr("FeatureCollection")), ("features", JArr([]))])
    {
      FeaturesAreFeatures(features);
      FeatureCollection(FeaturesToGeoJson(features))
    }
  }
}
