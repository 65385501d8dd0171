/** Loss inside an arbitrary geometry: the geometry of the first feature
    is serialised into the world and area queries, and the record combines
    the area, the loss and the download links. */
module WorldQuery {
  import opened Wrappers
  import opened Js
  import opened Collaborators
  import opened Period
  import opened Export
  import opened GeoJson
  import opened Reconcile

  /** The parameters of both world queries. */
  function WorldParams(env: Env, geometry: JsValue, period: string): (p: Props)
    ensures p.Keys == {"geojson", "begin", "end"}
    ensures p["geojson"] == env.stringify(geometry) && CarriesPeriod(p, period)
  {
    PeriodParams(period)["geojson" := env.stringify(geometry)]
  }

  /** The result for a known geometry, in the generations that also run the
      area query: a TypeError when the area query has no row or the loss
      query has an empty row list; otherwise the area, the loss (0 when it
      is falsy, left out when the loss answer has no rows at all) and the
      download links. */
  predicate FromGeometry(generation: Generation, env: Env, geometry: JsValue, period: string, r: Outcome<JsValue>) {
    var params := WorldParams(env, geometry, period);
    Record(env.execute(Query(generation, World), params), Rows(env.execute(Query(generation, Area), params)),
           Urls(generation, env, Query(generation, World), params), r)
  }

  /** The record made of the loss answer `data`, the area rows and the
      download links. */
  predicate Record(data: Option<seq<Props>>, areas: seq<Props>, urls: JsValue, r: Outcome<JsValue>) {
    if areas == [] || data == Some([]) then r == Throws(TypeError)
    else
      && r.Ok? && r.value.Obj?
      && r.value.props.Keys == (if data.Some? then {"area_ha", "value", "downloadUrls"} else {"area_ha", "downloadUrls"})
      && r.value.props["area_ha"] == Get(areas[0], "area_ha")
      && (data.Some? ==> r.value.props["value"] == Or(Get(data.value[0], "value"), Num(0.0)))
      && r.value.props["downloadUrls"] == urls
  }

  /** The result for a posted feature collection: reading the first
      feature's geometry may throw first. */
  predicate WorldOutcome(generation: Generation, env: Env, geojson: JsValue, period: string, r: Outcome<JsValue>) {
    match FirstGeometry(geojson)
    case Throws(e) => r == Throws(e)
    case Ok(geometry) => FromGeometry(generation, env, geometry, period, r)
  }

  /** `getWorldWithGeojson` of the services that run the area query: the
      first-generation TypeScript service, and both second-generation
      services (the JavaScript one ignores the area it is handed). */
  method GetWorldWithGeojson(generation: Generation, env: Env, geojson: JsValue, period: string)
    returns (r: Outcome<JsValue>)
    ensures WorldOutcome(generation, env, geojson, period, r)
  {
    var geometry := FirstGeometry(geojson);
    if geometry.Throws? {
      return Throws(geometry.error);
    }
    var params := WorldParams(env, geometry.value, period);
    var data := env.execute(Query(generation, World), params);
    var dataArea := env.execute(Query(generation, Area), params);
    if dataArea.None? || |dataArea.value| == 0 {
      // the area of a missing first row
      return Throws(TypeError);
    }
    var area := Get(dataArea.value[0], "area_ha");
    var result: Props := map["area_ha" := area];
    if data.Some? {
      if |data.value| == 0 {
        // the loss of a missing first row
        return Throws(TypeError);
      }
      result := result["value" := Or(Get(data.value[0], "value"), Num(0.0))];
    }
    result := result["area_ha" := area];
    var urls: JsValue;
    if generation == V1 {
      urls := GetDownloadUrlsV1(env, Query(generation, World), params);
    } else {
      urls := GetDownloadUrlsV2(env, Query(generation, World), params);
    }
    assert urls == Urls(generation, env, Query(generation, World), params);
    assert Rows(dataArea) == dataArea.value;
    result := result["downloadUrls" := urls];
    RecordSteps(data, dataArea.value, urls);
    return Ok(Obj(result));
  }

  /** The property assignments of `getWorldWithGeojson`, in their order,
      make the record. */
  lemma RecordSteps(data: Option<seq<Props>>, areas: seq<Props>, urls: JsValue)
    requires areas != [] && data != Some([])
    ensures var area := Get(areas[0], "area_ha");
            var first: Props := map["area_ha" := area];
            var withLoss := if data.Some? then first["value" := Or(Get(data.value[0], "value"), Num(0.0))] else first;
            Record(data, areas, urls, Ok(Obj(withLoss["area_ha" := area]["downloadUrls" := urls])))
  {
  }

  /** A successful world record is never `null`, always has its area and
      links, and its loss is truthy or exactly 0. */
  lemma WorldRecordFacts(generation: Generation, env: Env, geojson: JsValue, period: string, r: Outcome<JsValue>)
    requires WorldOutcome(generation, env, geojson, period, r)
    requires r.Ok?
    ensures r.value.Obj? && "area_ha" in r.value.props && "downloadUrls" in r.value.props
    ensures "value" in r.value.props ==> Truthy(r.value.props["value"]) || r.value.props["value"] == Num(0.0)
  {
    var geometry := FirstGeometry(geojson).value;
    var params := WorldParams(env, geometry, period);
    RecordFacts(env.execute(Query(generation, World), params), Rows(env.execute(Query(generation, Area), params)),
                Urls(generation, env, Query(generation, World), params), r);
  }

  lemma RecordFacts(data: Option<seq<Props>>, areas: seq<Props>, urls: JsValue, r: Outcome<JsValue>)
    requires Record(data, areas, urls, r) && r.Ok?
    ensures r.value.Obj? && "area_ha" in r.value.props && "downloadUrls" in r.value.props
    ensures "value" in r.value.props ==> Truthy(r.value.props["value"]) || r.value.props["value"] == Num(0.0)
  {
    if "value" in r.value.props {
      assert data.Some?;
    }
  }

  /** Posting a bare polygon queries that polygon. */
  lemma {:induction false} PolygonWorld(generation: Generation, env: Env, polygon: JsValue, period: string, r: Outcome<JsValue>)
    requires LowerType(polygon) == Ok("polygon")
    ensures CheckGeojson(polygon).Ok?
    ensures WorldOutcome(generation, env, CheckGeojson(polygon).value, period, r)
        <==> FromGeometry(generation, env, polygon, period, r)
  {
    PolygonIsQueried(polygon);
  }

  /** Posting a single feature queries that feature's geometry, and one
      without geometry becomes a TypeError, as a collection of it would. */
  lemma {:induction false} FeatureWorld(generation: Generation, env: Env, feature: JsValue, period: string, r: Outcome<JsValue>)
    requires LowerType(feature) == Ok("feature")
    ensures CheckGeojson(feature).Ok?
    ensures WorldOutcome(generation, env, CheckGeojson(feature).value, period, r)
        <==> WorldOutcome(generation, env, Collection([feature]), period, r)
    ensures feature.Obj? && "geometry" in feature.props ==>
              (WorldOutcome(generation, env, CheckGeojson(feature).value, period, r)
               <==> FromGeometry(generation, env, feature.props["geometry"], period, r))
  {
    FeatureIsQueried(feature);
    FirstOfCollection([feature]);
  }

  /** The first-generation JavaScript service runs no area query: the area
      comes from the loss row, or from the caller when it passes a truthy
      one.  No `rows` gives `null`; an empty row list throws, since the
      first row is `undefined` and is then assigned to. */
  predicate AppV1FromGeometry(env: Env, geometry: JsValue, areaHa: JsValue, period: string, r: Outcome<JsValue>) {
    var params := WorldParams(env, geometry, period);
    var data := env.execute(Query(V1, World), params);
    if data.None? then r == Ok(Null)
    else if data.value == [] then r == Throws(TypeError)
    else
      && r.Ok? && r.value.Obj?
      && Overlaid(r.value.props, data.value[0],
                  map["area_ha" := (if Truthy(areaHa) then areaHa else Get(data.value[0], "area_ha")),
                      "downloadUrls" := UrlsV1(env, Query(V1, World), params)])
  }

  predicate AppV1WorldOutcome(env: Env, geojson: JsValue, areaHa: JsValue, period: string, r: Outcome<JsValue>) {
    match FirstGeometry(geojson)
    case Throws(e) => r == Throws(e)
    case Ok(geometry) => AppV1FromGeometry(env, geometry, areaHa, period, r)
  }

  /** The world queries throw only TypeErrors, never NotFound: the routers'
      NotFound handler is reached only through a missing geostore. */
  lemma WorldNeverNotFound(generation: Generation, env: Env, geojson: JsValue, period: string, r: Outcome<JsValue>)
    requires WorldOutcome(generation, env, geojson, period, r)
    ensures r.Throws? ==> r.error == TypeError
  {
  }

  lemma AppV1WorldNeverNotFound(env: Env, geojson: JsValue, areaHa: JsValue, period: string, r: Outcome<JsValue>)
    requires AppV1WorldOutcome(env, geojson, areaHa, period, r)
    ensures r.Throws? ==> r.error == TypeError
  {
  }
}
