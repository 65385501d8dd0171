/** The second-generation statistics service as the JavaScript copy has
    it.  The level queries also copy `area_ha` onto the record (creating
    the property when the row lacks it); the land-use and protected-area
    queries carry three defects; `getWorld`, `getWorldWithGeojson` and
    `latest` behave as in the TypeScript service. */
module ServiceV2App {
  import opened Wrappers
  import opened Js
  import opened Collaborators
  import opened Gadm
  import opened Export
  import opened Reconcile
  import ServiceV2
  import WorldQuery

  /** The assignments of a level query: `area_ha` onto itself first. */
  function LevelUpdates(row: Props, period: string, id: JsValue, urls: JsValue): Props {
    map["area_ha" := Get(row, "area_ha"), "period" := Str(period), "id" := id, "downloadUrls" := urls]
  }

  method GetAdm0(env: Env, iso: string, period: string) returns (r: JsValue)
    ensures var params := ServiceV2.Adm0Params(iso, period);
            var rows := Rows(env.execute(Query(V2, Iso), params));
            && (rows == [] ==> r == Null)
            && (rows != [] ==> r.Obj? && Overlaid(r.props, rows[0],
                                 LevelUpdates(rows[0], period, Str(iso), UrlsV2(env, Query(V2, Iso), params))))
  {
    var params := ServiceV2.Adm0Params(iso, period);
    var data := env.execute(Query(V2, Iso), params);
    if data.Some? && |data.value| > 0 {
      var row := data.value[0];
      var result := row;
      OverlaidStart(row);
      var area := Get(result, "area_ha");
      OverlaidStep(result, row, map[], "area_ha", area);
      result := result["area_ha" := area];
      OverlaidStep(result, row, map["area_ha" := area], "period", Str(period));
      result := result["period" := Str(period)];
      var id := params["iso"];
      OverlaidStep(result, row, map["area_ha" := area, "period" := Str(period)], "id", id);
      result := result["id" := id];
      var urls := GetDownloadUrlsV2(env, Query(V2, Iso), params);
      OverlaidStep(result, row, map["area_ha" := area, "period" := Str(period), "id" := id], "downloadUrls", urls);
      result := result["downloadUrls" := urls];
      return Obj(result);
    }
    return Null;
  }

  method GetAdm1(env: Env, iso: string, id1: string, period: string) returns (r: JsValue)
    ensures var params := ServiceV2.Adm1Params(iso, id1, period);
            var rows := Rows(env.execute(Query(V2, Id1), params));
            && (rows == [] ==> r == Null)
            && (rows != [] ==> r.Obj? && Overlaid(r.props, rows[0],
                                 LevelUpdates(rows[0], period, RouteToGid(iso, Some(id1), None).adm1,
                                              UrlsV2(env, Query(V2, Id1), params))))
  {
    var gid := RouteToGid(iso, Some(id1), None);
    var params := ServiceV2.Adm1Params(iso, id1, period);
    var data := env.execute(Query(V2, Id1), params);
    if data.Some? && |data.value| > 0 {
      var row := data.value[0];
      var result := row;
      OverlaidStart(row);
      var area := Get(result, "area_ha");
      OverlaidStep(result, row, map[], "area_ha", area);
      result := result["area_ha" := area];
      OverlaidStep(result, row, map["area_ha" := area], "period", Str(period));
      result := result["period" := Str(period)];
      var id := gid.adm1;
      OverlaidStep(result, row, map["area_ha" := area, "period" := Str(period)], "id", id);
      result := result["id" := id];
      var urls := GetDownloadUrlsV2(env, Query(V2, Id1), params);
      OverlaidStep(result, row, map["area_ha" := area, "period" := Str(period), "id" := id], "downloadUrls", urls);
      result := result["downloadUrls" := urls];
      return Obj(result);
    }
    return Null;
  }

  method GetAdm2(env: Env, iso: string, id1: string, id2: string, period: string) returns (r: JsValue)
    ensures var params := ServiceV2.Adm2Params(iso, id1, id2, period);
            var rows := Rows(env.execute(Query(V2, Id2), params));
            && (rows == [] ==> r == Null)
            && (rows != [] ==> r.Obj? && Overlaid(r.props, rows[0],
                                 LevelUpdates(rows[0], period, RouteToGid(iso, Some(id1), Some(id2)).adm2,
                                              UrlsV2(env, Query(V2, Id2), params))))
  {
    var gid := RouteToGid(iso, Some(id1), Some(id2));
    var params := ServiceV2.Adm2Params(iso, id1, id2, period);
    var data := env.execute(Query(V2, Id2), params);
    if data.Some? && |data.value| > 0 {
      var row := data.value[0];
      var result := row;
      OverlaidStart(row);
      var area := Get(result, "area_ha");
      OverlaidStep(result, row, map[], "area_ha", area);
      result := result["area_ha" := area];
      OverlaidStep(result, row, map["area_ha" := area], "period", Str(period));
      result := result["period" := Str(period)];
      var id := gid.adm2;
      OverlaidStep(result, row, map["area_ha" := area, "period" := Str(period)], "id", id);
      result := result["id" := id];
      var urls := GetDownloadUrlsV2(env, Query(V2, Id2), params);
      OverlaidStep(result, row, map["area_ha" := area, "period" := Str(period), "id" := id], "downloadUrls", urls);
      result := result["downloadUrls" := urls];
      return Obj(result);
    }
    return Null;
  }

  /** Copying `area_ha` onto itself is the only difference from the
      TypeScript level record: the two agree on every other property, and
      the JavaScript one always has the key. */
  lemma {:induction false} AreaCopyOnlyDifference(row: Props, period: string, id: JsValue, urls: JsValue,
                                                 js: Props, ts: Props)
    requires Overlaid(js, row, LevelUpdates(row, period, id, urls))
    requires Overlaid(ts, row, map["period" := Str(period), "id" := id, "downloadUrls" := urls])
    ensures js.Keys == ts.Keys + {"area_ha"}
    ensures forall k :: k in ts ==> js[k] == ts[k]
    ensures Get(js, "area_ha") == Get(row, "area_ha")
  {
    var updates := LevelUpdates(row, period, id, urls);
    var tsUpdates := map["period" := Str(period), "id" := id, "downloadUrls" := urls];
    assert updates.Keys == tsUpdates.Keys + {"area_ha"};
    forall k | k in ts
      ensures js[k] == ts[k]
    {
      if k == "area_ha" {
        assert k in row && k !in tsUpdates;
      } else if k in tsUpdates {
        assert js[k] == updates[k] == tsUpdates[k];
      }
    }
  }

  /** `getUse` as written.  With loss rows it calls `this.getPeriodText`,
      which the class does not have, so it throws a TypeError.  Without
      loss rows or area rows it reads the undeclared `useName` and throws a
      ReferenceError, so the geostore and `null` outcomes are never
      reached. */
  method GetUse(env: Env, useTable: string, id: string, period: string) returns (r: Outcome<JsValue>)
    ensures var params := ServiceV2.UseParams(useTable, id, period);
            var rows := Rows(env.execute(Query(V2, Use), params));
            var areas := Rows(env.execute(Query(V2, UseArea), params));
            && (rows != [] ==> r == Throws(TypeError))
            && (rows == [] && areas != [] ==>
                  r.Ok? && r.value.Obj? && Overlaid(r.value.props, areas[0], map["id" := Str(id), "value" := Num(0.0)]))
            && (rows == [] && areas == [] ==> r == Throws(ReferenceError("useName")))
    ensures r != Ok(Null)
  {
    var params := ServiceV2.UseParams(useTable, id, period);
    var data := env.execute(Query(V2, Use), params);
    if data.Some? && |data.value| > 0 {
      // the period label is computed by a method the class lacks
      return Throws(TypeError);
    }
    var areas := env.execute(Query(V2, UseArea), params);
    if areas.Some? && |areas.value| > 0 {
      var result := areas.value[0];
      result := result["id" := Str(id)];
      result := result["value" := Num(0.0)];
      return Ok(Obj(result));
    }
    // the geostore lookup's first argument names an undeclared variable
    return Throws(ReferenceError("useName"));
  }

  /** `getWdpa` as written: the loss and area branches agree with the
      TypeScript service, but the geostore fallback reads the undeclared
      `useName` (and would ask for a land-use geostore). */
  method GetWdpa(env: Env, wdpaid: string, period: string) returns (r: Outcome<JsValue>)
    ensures var params := ServiceV2.WdpaParams(wdpaid, period);
            var rows := Rows(env.execute(Query(V2, Wdpa), params));
            var areas := Rows(env.execute(Query(V2, WdpaArea), params));
            && (rows != [] ==>
                  r.Ok? && r.value.Obj? && Overlaid(r.value.props, rows[0],
                            map["id" := Str(wdpaid), "period" := Str(period),
                                "downloadUrls" := UrlsV2(env, Query(V2, Wdpa), params)]))
            && (rows == [] && areas != [] ==>
                  r.Ok? && r.value.Obj? && Overlaid(r.value.props, areas[0], map["id" := Str(wdpaid), "value" := Num(0.0)]))
            && (rows == [] && areas == [] ==> r == Throws(ReferenceError("useName")))
  {
    var params := ServiceV2.WdpaParams(wdpaid, period);
    var data := env.execute(Query(V2, Wdpa), params);
    if data.Some? && |data.value| > 0 {
      var result := data.value[0];
      result := result["id" := Str(wdpaid)];
      result := result["period" := Str(period)];
      var urls := GetDownloadUrlsV2(env, Query(V2, Wdpa), params);
      result := result["downloadUrls" := urls];
      return Ok(Obj(result));
    }
    var areas := env.execute(Query(V2, WdpaArea), params);
    if areas.Some? && |areas.value| > 0 {
      var result := areas.value[0];
      result := result["id" := Str(wdpaid)];
      result := result["value" := Num(0.0)];
      return Ok(Obj(result));
    }
    // the geostore lookup's first argument names an undeclared variable
    return Throws(ReferenceError("useName"));
  }

  /** `getWorldWithGeojson(geojson, areaHa, period)`: the area argument is
      ignored. */
  method GetWorldWithGeojson(env: Env, geojson: JsValue, areaHa: JsValue, period: string) returns (r: Outcome<JsValue>)
    ensures WorldQuery.WorldOutcome(V2, env, geojson, period, r)
  {
    r := WorldQuery.GetWorldWithGeojson(V2, env, geojson, period);
  }

  /** `getWorld`: the geostore's `areaHa` is handed on and then ignored. */
  method GetWorld(env: Env, hash: string, period: string) returns (r: Outcome<JsValue>)
    ensures var geostore := env.geostore.byHash(hash, None);
            if geostore.Some? && Truthy(Get(geostore.value, "geojson"))
            then WorldQuery.WorldOutcome(V2, env, Get(geostore.value, "geojson"), period, r)
            else r == Throws(NotFound("Geostore not found"))
  {
    var geostore := env.geostore.byHash(hash, None);
    if geostore.Some? && Truthy(Get(geostore.value, "geojson")) {
      r := GetWorldWithGeojson(env, Get(geostore.value, "geojson"), Get(geostore.value, "areaHa"), period);
      return;
    }
    return Throws(NotFound("Geostore not found"));
  }
}
