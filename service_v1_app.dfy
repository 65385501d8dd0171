/** The first-generation statistics service as the JavaScript copy has it,
    where it differs from the TypeScript one: loss inside a geometry runs
    no area query and takes the area from the loss row or the caller, and
    `latest` sends the limit as given. */
module ServiceV1App {
  import opened Wrappers
  import opened Js
  import opened Collaborators
  import opened Export
  import opened GeoJson
  import opened Reconcile
  import WorldQuery

  /** `getWorldWithGeojson(geojson, areaHa, period)`. */
  method GetWorldWithGeojson(env: Env, geojson: JsValue, areaHa: JsValue, period: string) returns (r: Outcome<JsValue>)
    ensures WorldQuery.AppV1WorldOutcome(env, geojson, areaHa, period, r)
  {
    var geometry := FirstGeometry(geojson);
    if geometry.Throws? {
      return Throws(geometry.error);
    }
    var params := WorldQuery.WorldParams(env, geometry.value, period);
    var data := env.execute(Query(V1, World), params);
    if data.Some? {
      if |data.value| == 0 {
        // the first row is undefined, and setting a property on it throws
        return Throws(TypeError);
      }
      var row := data.value[0];
      var result := row;
      OverlaidStart(row);
      OverlaidStep(result, row, map[], "area_ha", Get(row, "area_ha"));
      result := result["area_ha" := Get(row, "area_ha")];
      if Truthy(areaHa) {
        OverlaidStep(result, row, map["area_ha" := Get(row, "area_ha")], "area_ha", areaHa);
        assert map["area_ha" := Get(row, "area_ha")]["area_ha" := areaHa] == map["area_ha" := areaHa];
        result := result["area_ha" := areaHa];
      }
      var area := if Truthy(areaHa) then areaHa else Get(row, "area_ha");
      var urls := GetDownloadUrlsV1(env, Query(V1, World), params);
      OverlaidStep(result, row, map["area_ha" := area], "downloadUrls", urls);
      result := result["downloadUrls" := urls];
      return Ok(Obj(result));
    }
    return Ok(Null);
  }

  /** A truthy area from the caller wins over the row's; a falsy one
      leaves the row's area, materialised as a property. */
  lemma {:induction false} AreaPrecedence(env: Env, geometry: JsValue, areaHa: JsValue, period: string, r: Outcome<JsValue>)
    requires WorldQuery.AppV1FromGeometry(env, geometry, areaHa, period, r)
    requires r.Ok? && r.value != Null
    ensures r.value.Obj? && "area_ha" in r.value.props && "downloadUrls" in r.value.props
    ensures Truthy(areaHa) ==> r.value.props["area_ha"] == areaHa
    ensures var rows := env.execute(Query(V1, World), WorldQuery.WorldParams(env, geometry, period));
            !Truthy(areaHa) ==> rows.Some? && rows.value != [] && r.value.props["area_ha"] == Get(rows.value[0], "area_ha")
  {
    var params := WorldQuery.WorldParams(env, geometry, period);
    var data := env.execute(Query(V1, World), params);
    assert data.Some? && data.value != [];
    var updates := map["area_ha" := (if Truthy(areaHa) then areaHa else Get(data.value[0], "area_ha")),
                       "downloadUrls" := UrlsV1(env, Query(V1, World), params)];
    assert "area_ha" in updates && "downloadUrls" in updates;
  }

  /** `getWorld`: the geostore's `areaHa` becomes the record's area when it
      is truthy. */
  method GetWorld(env: Env, hash: string, period: string) returns (r: Outcome<JsValue>)
    ensures var geostore := env.geostore.byHash(hash, None);
            if geostore.Some? && Truthy(Get(geostore.value, "geojson"))
            then WorldQuery.AppV1WorldOutcome(env, Get(geostore.value, "geojson"), Get(geostore.value, "areaHa"), period, r)
            else r == Throws(NotFound("Geostore not found"))
  {
    var geostore := env.geostore.byHash(hash, None);
    if geostore.Some? && Truthy(Get(geostore.value, "geojson")) {
      r := GetWorldWithGeojson(env, Get(geostore.value, "geojson"), Get(geostore.value, "areaHa"), period);
      return;
    }
    return Throws(NotFound("Geostore not found"));
  }

  /** The `limit` parameter: the query-string value as given, the number 3
      when it is missing. */
  function LatestParams(limit: Option<string>): (p: Props)
    ensures p.Keys == {"limit"}
    ensures limit.None? <==> p["limit"] == Num(3.0)
  {
    map["limit" := if limit.Some? then Str(limit.value) else Num(3.0)]
  }

  /** `latest(limit)`: the rows whenever the answer has `rows`. */
  method Latest(env: Env, limit: Option<string>) returns (r: Option<seq<Props>>)
    ensures r == env.execute(Query(V1, LatestDates), LatestParams(limit))
  {
    var params: Props := map["limit" := if limit.Some? then Str(limit.value) else Num(3.0)];
    var data := env.execute(Query(V1, LatestDates), params);
    if data.Some? {
      return Some(data.value);
    }
    return None;
  }
}
