/** The GeoJSON a client posts: the routers wrap a bare polygon or a single
    feature into a feature collection, and the services read the geometry
    of the collection's first feature. */
module GeoJson {
  import opened Js
  import Text

  function Feature(geometry: JsValue): JsValue {
    Obj(map["type" := Str("Feature"), "geometry" := geometry])
  }

  function Collection(features: seq<JsValue>): JsValue {
    Obj(map["type" := Str("FeatureCollection"), "features" := Arr(features)])
  }

  /** `geojson.type.toLowerCase()`: throws unless `type` is a string. */
  function LowerType(geojson: JsValue): (r: Outcome<string>)
    ensures r.Throws? ==> r == Throws(TypeError)
    ensures r.Ok? ==> Member(geojson, "type").Ok? && Member(geojson, "type").value.Str?
    ensures r.Ok? ==> |r.value| == |Member(geojson, "type").value.s|
  {
    var t :- Member(geojson, "type");
    if t.Str? then Ok(Text.ToLower(t.s)) else Throws(TypeError)
  }

  /** `checkGeojson`: a polygon becomes a collection of one feature holding
      it, a feature becomes a collection holding it, and anything else is
      passed through. */
  function CheckGeojson(geojson: JsValue): (r: Outcome<JsValue>)
    ensures r.Throws? <==> LowerType(geojson).Throws?
    ensures r.Throws? ==> r == Throws(TypeError)
    ensures r.Ok? && r.value != geojson ==> r.value.Obj? && Get(r.value.props, "type") == Str("FeatureCollection")
    ensures LowerType(geojson) == Ok("polygon") ==>
              && r.Ok? && r.value.Obj? && r.value.props.Keys == {"type", "features"}
              && Member(r.value, "type") == Ok(Str("FeatureCollection"))
              && Member(r.value, "features") == Ok(Arr([Obj(map["type" := Str("Feature"), "geometry" := geojson])]))
    ensures LowerType(geojson) == Ok("feature") ==>
              && r.Ok? && r.value.Obj? && r.value.props.Keys == {"type", "features"}
              && Member(r.value, "type") == Ok(Str("FeatureCollection"))
              && Member(r.value, "features") == Ok(Arr([geojson]))
    ensures LowerType(geojson).Ok? && LowerType(geojson).value != "polygon" && LowerType(geojson).value != "feature" ==>
              r == Ok(geojson)
  {
    var t :- LowerType(geojson);
    if t == "polygon" then Ok(Collection([Feature(geojson)]))
    else if t == "feature" then Ok(Collection([geojson]))
    else Ok(geojson)
  }

  /** `geojson.features[0].geometry`, which the world queries serialise. */
  function FirstGeometry(geojson: JsValue): (r: Outcome<JsValue>)
    ensures r.Throws? ==> r == Throws(TypeError)
  {
    var features :- Member(geojson, "features");
    var first :- Member(features, "0");
    Member(first, "geometry")
  }

  lemma FirstOfCollection(features: seq<JsValue>)
    requires |features| > 0
    ensures FirstGeometry(Collection(features)) == Member(features[0], "geometry")
  {
    MemberOfArray(features, 0);
  }

  /** A polygon, whatever the case of its type, is found again as the
      geometry the services query. */
  lemma PolygonIsQueried(geojson: JsValue)
    requires LowerType(geojson) == Ok("polygon")
    ensures CheckGeojson(geojson).Ok?
    ensures FirstGeometry(CheckGeojson(geojson).value) == Ok(geojson)
  {
    FirstOfCollection([Feature(geojson)]);
  }

  /** A single feature contributes its own geometry. */
  lemma FeatureIsQueried(geojson: JsValue)
    requires LowerType(geojson) == Ok("feature")
    ensures CheckGeojson(geojson).Ok?
    ensures FirstGeometry(CheckGeojson(geojson).value) == Member(geojson, "geometry")
  {
    FirstOfCollection([geojson]);
  }

  /** Any other type is passed through untouched. */
  lemma OtherTypesUnchanged(geojson: JsValue, t: string)
    requires LowerType(geojson) == Ok(t) && t != "polygon" && t != "feature"
    ensures CheckGeojson(geojson) == Ok(geojson)
  {
  }

  lemma CollectionType(features: seq<JsValue>)
    ensures LowerType(Collection(features)) == Ok("featurecollection")
  {
    var t := Text.ToLower("FeatureCollection");
    assert t == "featurecollection" by {
      assert |t| == 17;
      forall i | 0 <= i < 17
        ensures t[i] == "featurecollection"[i]
      {
      }
    }
  }

  /** Wrapping is idempotent: what `checkGeojson` returns it returns again. */
  lemma {:induction false} CheckIdempotent(geojson: JsValue)
    requires CheckGeojson(geojson).Ok?
    ensures CheckGeojson(CheckGeojson(geojson).value) == CheckGeojson(geojson)
  {
    var r := CheckGeojson(geojson).value;
    var t := LowerType(geojson).value;
    if t == "polygon" {
      CollectionType([Feature(geojson)]);
    } else if t == "feature" {
      CollectionType([geojson]);
    } else {
      assert r == geojson;
    }
  }

  /** A body whose type is not a string is rejected with a TypeError. */
  lemma NonStringTypeThrows(geojson: JsValue)
    requires Member(geojson, "type").Ok? && !Member(geojson, "type").value.Str?
    ensures CheckGeojson(geojson) == Throws(TypeError)
  {
  }

  /** A bare multipolygon passes the check unchanged but has no features,
      so reading its first geometry throws. */
  lemma BareMultiPolygonThrows(coordinates: JsValue)
    ensures var g := Obj(map["type" := Str("MultiPolygon"), "coordinates" := coordinates]);
            CheckGeojson(g) == Ok(g) && FirstGeometry(g) == Throws(TypeError)
  {
    var g := Obj(map["type" := Str("MultiPolygon"), "coordinates" := coordinates]);
    var t := Text.ToLower("MultiPolygon");
    assert t[0] == 'm';
    assert t != "polygon" && t != "feature";
  }
}
