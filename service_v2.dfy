/** The second-generation statistics service (TypeScript): loss by GADM
    level with a simplification tolerance, by land-use polygon and by
    protected area with the area and geostore fallbacks, inside a stored
    geometry, and the latest dates. */
module ServiceV2 {
  import opened Wrappers
  import opened Js
  import opened Collaborators
  import opened Period
  import opened Gadm
  import opened Export
  import opened Reconcile
  import WorldQuery

  /** The parameters of the country query: the country, the period bounds
      and the country's tolerance. */
  function Adm0Params(iso: string, period: string): (p: Props)
    ensures p.Keys == {"iso", "begin", "end", "simplify"}
    ensures p["iso"] == Str(iso) && CarriesPeriod(p, period)
    ensures p["simplify"] == Num(Tolerance(iso, 0))
  {
    var gid := RouteToGid(iso, None, None);
    PeriodParams(period) + map["iso" := Str(gid.adm0), "simplify" := Num(GetSimplify(iso))]
  }

  /** The parameters of the region query: also the region's GADM
      identifier, `null` for an empty region code, and a tenth of the
      country's tolerance. */
  function Adm1Params(iso: string, id1: string, period: string): (p: Props)
    ensures p.Keys == {"iso", "id1", "begin", "end", "simplify"}
    ensures p["iso"] == Str(iso) && CarriesPeriod(p, period)
    ensures p["id1"] == (if id1 != "" then Str(Adm1Gid(iso, id1)) else Null)
    ensures p["simplify"] == Num(Tolerance(iso, 1))
  {
    var gid := RouteToGid(iso, Some(id1), None);
    PeriodParams(period) + map["iso" := Str(gid.adm0), "id1" := gid.adm1, "simplify" := Num(GetSimplify(iso) / 10.0)]
  }

  /** The parameters of the district query: also the district's GADM
      identifier, `null` for an empty district code, and a hundredth of
      the country's tolerance. */
  function Adm2Params(iso: string, id1: string, id2: string, period: string): (p: Props)
    ensures p.Keys == {"iso", "id1", "id2", "begin", "end", "simplify"}
    ensures p["iso"] == Str(iso) && CarriesPeriod(p, period)
    ensures p["id1"] == (if id1 != "" then Str(Adm1Gid(iso, id1)) else Null)
    ensures p["id2"] == (if id2 != "" then Str(Adm2Gid(iso, id1, id2)) else Null)
    ensures p["simplify"] == Num(Tolerance(iso, 2))
  {
    var gid := RouteToGid(iso, Some(id1), Some(id2));
    PeriodParams(period)
      + map["iso" := Str(gid.adm0), "id1" := gid.adm1, "id2" := gid.adm2, "simplify" := Num(GetSimplify(iso) / 100.0)]
  }

  /** `getAdm0`: the first row with the raw period, the country code as
      `id` and the download links, or `null`. */
  method GetAdm0(env: Env, iso: string, period: string) returns (r: JsValue)
    ensures var params := Adm0Params(iso, period);
            RowOrNull(r, Rows(env.execute(Query(V2, Iso), params)),
                      map["period" := Str(period), "id" := Str(iso),
                          "downloadUrls" := UrlsV2(env, Query(V2, Iso), params)])
  {
    var params := Adm0Params(iso, period);
    var data := env.execute(Query(V2, Iso), params);
    if data.Some? && |data.value| > 0 {
      var result := data.value[0];
      result := result["period" := Str(period)];
      result := result["id" := params["iso"]];
      var urls := GetDownloadUrlsV2(env, Query(V2, Iso), params);
      result := result["downloadUrls" := urls];
      return Obj(result);
    }
    return Null;
  }

  /** `getAdm1`: as `getAdm0`, with the region identifier as `id`. */
  method GetAdm1(env: Env, iso: string, id1: string, period: string) returns (r: JsValue)
    ensures var params := Adm1Params(iso, id1, period);
            RowOrNull(r, Rows(env.execute(Query(V2, Id1), params)),
                      map["period" := Str(period), "id" := RouteToGid(iso, Some(id1), None).adm1,
                          "downloadUrls" := UrlsV2(env, Query(V2, Id1), params)])
  {
    var gid := RouteToGid(iso, Some(id1), None);
    var params := Adm1Params(iso, id1, period);
    var data := env.execute(Query(V2, Id1), params);
    if data.Some? && |data.value| > 0 {
      var result := data.value[0];
      result := result["period" := Str(period)];
      result := result["id" := gid.adm1];
      var urls := GetDownloadUrlsV2(env, Query(V2, Id1), params);
      result := result["downloadUrls" := urls];
      return Obj(result);
    }
    return Null;
  }

  /** `getAdm2`: as `getAdm0`, with the district identifier as `id`. */
  method GetAdm2(env: Env, iso: string, id1: string, id2: string, period: string) returns (r: JsValue)
    ensures var params := Adm2Params(iso, id1, id2, period);
            RowOrNull(r, Rows(env.execute(Query(V2, Id2), params)),
                      map["period" := Str(period), "id" := RouteToGid(iso, Some(id1), Some(id2)).adm2,
                          "downloadUrls" := UrlsV2(env, Query(V2, Id2), params)])
  {
    var gid := RouteToGid(iso, Some(id1), Some(id2));
    var params := Adm2Params(iso, id1, id2, period);
    var data := env.execute(Query(V2, Id2), params);
    if data.Some? && |data.value| > 0 {
      var result := data.value[0];
      result := result["period" := Str(period)];
      result := result["id" := gid.adm2];
      var urls := GetDownloadUrlsV2(env, Query(V2, Id2), params);
      result := result["downloadUrls" := urls];
      return Obj(result);
    }
    return Null;
  }

  /** A region record names its region: its `id` is the region identifier,
      from which the region code is read back. */
  lemma {:induction false} Adm1RecordNamesRegion(env: Env, iso: string, id1: string, period: string, r: JsValue)
    requires id1 != ""
    requires var params := Adm1Params(iso, id1, period);
             RowOrNull(r, Rows(env.execute(Query(V2, Id1), params)),
                       map["period" := Str(period), "id" := RouteToGid(iso, Some(id1), None).adm1,
                           "downloadUrls" := UrlsV2(env, Query(V2, Id1), params)])
    requires r != Null
    ensures r.Obj? && "id" in r.props && r.props["id"].Str?
    ensures Adm1Code(iso, r.props["id"].s) == Some(id1)
  {
    Adm1RoundTrip(iso, id1);
  }

  /** The parameters of the land-use queries: the table, the polygon id as
      `pid`, and the period bounds. */
  function UseParams(useTable: string, id: string, period: string): (p: Props)
    ensures p.Keys == {"useTable", "pid", "begin", "end"}
    ensures p["useTable"] == Str(useTable) && p["pid"] == Str(id) && CarriesPeriod(p, period)
  {
    PeriodParams(period) + map["useTable" := Str(useTable), "pid" := Str(id)]
  }

  /** The parameters of the protected-area queries. */
  function WdpaParams(wdpaid: string, period: string): (p: Props)
    ensures p.Keys == {"wdpaid", "begin", "end"}
    ensures p["wdpaid"] == Str(wdpaid) && CarriesPeriod(p, period)
  {
    PeriodParams(period) + map["wdpaid" := Str(wdpaid)]
  }

  /** `getUse`: the loss rows of the land-use polygon labelled with the
      period text, else its area with loss 0, else its geostore's area with
      loss 0, else `null`. */
  method GetUse(env: Env, useTable: string, id: string, period: string, apiKey: Option<string>)
    returns (r: JsValue)
    ensures var params := UseParams(useTable, id, period);
            Cascade(r, Rows(env.execute(Query(V2, Use), params)), Rows(env.execute(Query(V2, UseArea), params)),
                    env.geostore.byUse(useTable, id, apiKey), id,
                    map["id" := Str(id), "period" := Str(PeriodLabel(env.dayDiff, period)),
                        "downloadUrls" := UrlsV2(env, Query(V2, Use), params)])
    ensures r == Null <==>
              && Rows(env.execute(Query(V2, Use), UseParams(useTable, id, period))) == []
              && Rows(env.execute(Query(V2, UseArea), UseParams(useTable, id, period))) == []
              && env.geostore.byUse(useTable, id, apiKey).None?
  {
    var params := UseParams(useTable, id, period);
    var data := env.execute(Query(V2, Use), params);
    if data.Some? && |data.value| > 0 {
      var result := data.value[0];
      result := result["id" := Str(id)];
      result := result["period" := Str(PeriodLabel(env.dayDiff, period))];
      var urls := GetDownloadUrlsV2(env, Query(V2, Use), params);
      result := result["downloadUrls" := urls];
      return Obj(result);
    }
    var areas := env.execute(Query(V2, UseArea), params);
    if areas.Some? && |areas.value| > 0 {
      var result := areas.value[0];
      result := result["id" := Str(id)];
      result := result["value" := Num(0.0)];
      return Obj(result);
    }
    var geostore := env.geostore.byUse(useTable, id, apiKey);
    if geostore.Some? {
      return GeostoreOnly(id, geostore.value);
    }
    return Null;
  }

  /** `getWdpa`: as `getUse` for a protected area, with the raw period. */
  method GetWdpa(env: Env, wdpaid: string, period: string, apiKey: Option<string>) returns (r: JsValue)
    ensures var params := WdpaParams(wdpaid, period);
            Cascade(r, Rows(env.execute(Query(V2, Wdpa), params)), Rows(env.execute(Query(V2, WdpaArea), params)),
                    env.geostore.byWdpa(wdpaid, apiKey), wdpaid,
                    map["id" := Str(wdpaid), "period" := Str(period),
                        "downloadUrls" := UrlsV2(env, Query(V2, Wdpa), params)])
    ensures r == Null <==>
              && Rows(env.execute(Query(V2, Wdpa), WdpaParams(wdpaid, period))) == []
              && Rows(env.execute(Query(V2, WdpaArea), WdpaParams(wdpaid, period))) == []
              && env.geostore.byWdpa(wdpaid, apiKey).None?
  {
    var params := WdpaParams(wdpaid, period);
    var data := env.execute(Query(V2, Wdpa), params);
    if data.Some? && |data.value| > 0 {
      var result := data.value[0];
      result := result["id" := Str(wdpaid)];
      result := result["period" := Str(period)];
      var urls := GetDownloadUrlsV2(env, Query(V2, Wdpa), params);
      result := result["downloadUrls" := urls];
      return Obj(result);
    }
    var areas := env.execute(Query(V2, WdpaArea), params);
    if areas.Some? && |areas.value| > 0 {
      var result := areas.value[0];
      result := result["id" := Str(wdpaid)];
      result := result["value" := Num(0.0)];
      return Obj(result);
    }
    var geostore := env.geostore.byWdpa(wdpaid, apiKey);
    if geostore.Some? {
      return GeostoreOnly(wdpaid, geostore.value);
    }
    return Null;
  }

  /** `getWorld`: the stored geometry of the hash, or NotFound when the
      geostore is missing or has no GeoJSON.  The JavaScript copy is the
      same operation without an API key. */
  method GetWorld(env: Env, hash: string, period: string, apiKey: Option<string>) returns (r: Outcome<JsValue>)
    ensures var geostore := env.geostore.byHash(hash, apiKey);
            if geostore.Some? && Truthy(Get(geostore.value, "geojson"))
            then WorldQuery.WorldOutcome(V2, env, Get(geostore.value, "geojson"), period, r)
            else r == Throws(NotFound("Geostore not found"))
  {
    var geostore := env.geostore.byHash(hash, apiKey);
    if geostore.Some? && Truthy(Get(geostore.value, "geojson")) {
      r := WorldQuery.GetWorldWithGeojson(V2, env, Get(geostore.value, "geojson"), period);
      return;
    }
    return Throws(NotFound("Geostore not found"));
  }

  /** `latest`: the rows of the latest-dates query, `null` when there are
      none.  The JavaScript copy is the same operation. */
  method Latest(env: Env) returns (r: Option<seq<Props>>)
    ensures r.None? <==> Rows(env.execute(Query(V2, LatestDates), map[])) == []
    ensures r.Some? ==> r.value == Rows(env.execute(Query(V2, LatestDates), map[]))
  {
    var data := env.execute(Query(V2, LatestDates), map[]);
    if data.Some? && |data.value| > 0 {
      return Some(data.value);
    }
    return None;
  }
}
