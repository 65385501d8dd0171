/** The first-generation statistics service: loss by country, by region,
    by land-use polygon and by protected area, each gated on the geostore
    record of the area; loss inside a stored geometry; the latest dates.
    The JavaScript copy of the four area queries is the same operation
    without an API key (`apiKey == None`). */
module ServiceV1 {
  import opened Wrappers
  import opened Js
  import opened Collaborators
  import opened Period
  import opened Export
  import opened Reconcile
  import Text
  import WorldQuery

  /** The parameters of the country query: the country and the period
      bounds, with no tolerance. */
  function NationalParams(iso: string, period: string): (p: Props)
    ensures p.Keys == {"iso", "begin", "end"}
    ensures p["iso"] == Str(iso) && CarriesPeriod(p, period)
  {
    PeriodParams(period)["iso" := Str(iso)]
  }

  /** The parameters of the region query: the raw region code, not a GADM
      identifier. */
  function SubnationalParams(iso: string, id1: string, period: string): (p: Props)
    ensures p.Keys == {"iso", "id1", "begin", "end"}
    ensures p["iso"] == Str(iso) && p["id1"] == Str(id1) && CarriesPeriod(p, period)
  {
    PeriodParams(period) + map["iso" := Str(iso), "id1" := Str(id1)]
  }

  /** The parameters of the land-use query. */
  function UseParams(useTable: string, id: string, period: string): (p: Props)
    ensures p.Keys == {"useTable", "pid", "begin", "end"}
    ensures p["useTable"] == Str(useTable) && p["pid"] == Str(id) && CarriesPeriod(p, period)
  {
    PeriodParams(period) + map["useTable" := Str(useTable), "pid" := Str(id)]
  }

  /** The parameters of the protected-area query. */
  function WdpaParams(wdpaid: string, period: string): (p: Props)
    ensures p.Keys == {"wdpaid", "begin", "end"}
    ensures p["wdpaid"] == Str(wdpaid) && CarriesPeriod(p, period)
  {
    PeriodParams(period) + map["wdpaid" := Str(wdpaid)]
  }

  /** The reconciliation all four area queries share: `null` without a
      geostore; the geostore's area alone without rows; otherwise the first
      row with the geostore's area, the period label and the links. */
  method Gate(env: Env, geostore: Option<Props>, data: Option<seq<Props>>, query: Query, params: Props, period: string)
    returns (r: JsValue)
    ensures GeostoreGated(r, geostore, Rows(data), PeriodLabel(env.dayDiff, period), UrlsV1(env, query, params))
  {
    if geostore.Some? {
      if data.Some? && |data.value| > 0 {
        var row := data.value[0];
        var area := Get(geostore.value, "areaHa");
        var text := PeriodLabel(env.dayDiff, period);
        var result := row;
        OverlaidStart(row);
        OverlaidStep(result, row, map[], "area_ha", area);
        result := result["area_ha" := area];
        OverlaidStep(result, row, map["area_ha" := area], "period", Str(text));
        result := result["period" := Str(text)];
        var urls := GetDownloadUrlsV1(env, query, params);
        OverlaidStep(result, row, map["area_ha" := area, "period" := Str(text)], "downloadUrls", urls);
        result := result["downloadUrls" := urls];
        return Obj(result);
      }
      return AreaOnly(geostore.value);
    }
    return Null;
  }

  /** `getNational`. */
  method GetNational(env: Env, iso: string, period: string, apiKey: Option<string>) returns (r: JsValue)
    ensures var params := NationalParams(iso, period);
            GeostoreGated(r, env.geostore.byIso(iso, apiKey), Rows(env.execute(Query(V1, Iso), params)),
                          PeriodLabel(env.dayDiff, period), UrlsV1(env, Query(V1, Iso), params))
  {
    var params := NationalParams(iso, period);
    var geostore := env.geostore.byIso(iso, apiKey);
    var data := env.execute(Query(V1, Iso), params);
    r := Gate(env, geostore, data, Query(V1, Iso), params, period);
  }

  /** `getSubnational`. */
  method GetSubnational(env: Env, iso: string, id1: string, period: string, apiKey: Option<string>) returns (r: JsValue)
    ensures var params := SubnationalParams(iso, id1, period);
            GeostoreGated(r, env.geostore.byIsoAndId(iso, id1, apiKey), Rows(env.execute(Query(V1, Id1), params)),
                          PeriodLabel(env.dayDiff, period), UrlsV1(env, Query(V1, Id1), params))
  {
    var params := SubnationalParams(iso, id1, period);
    var geostore := env.geostore.byIsoAndId(iso, id1, apiKey);
    var data := env.execute(Query(V1, Id1), params);
    r := Gate(env, geostore, data, Query(V1, Id1), params, period);
  }

  /** `getUse`: the geostore is looked up by the land-use name, the loss by
      its table. */
  method GetUse(env: Env, useName: string, useTable: string, id: string, period: string, apiKey: Option<string>)
    returns (r: JsValue)
    ensures var params := UseParams(useTable, id, period);
            GeostoreGated(r, env.geostore.byUse(useName, id, apiKey), Rows(env.execute(Query(V1, Use), params)),
                          PeriodLabel(env.dayDiff, period), UrlsV1(env, Query(V1, Use), params))
  {
    var params := UseParams(useTable, id, period);
    var geostore := env.geostore.byUse(useName, id, apiKey);
    var data := env.execute(Query(V1, Use), params);
    r := Gate(env, geostore, data, Query(V1, Use), params, period);
  }

  /** `getWdpa`. */
  method GetWdpa(env: Env, wdpaid: string, period: string, apiKey: Option<string>) returns (r: JsValue)
    ensures var params := WdpaParams(wdpaid, period);
            GeostoreGated(r, env.geostore.byWdpa(wdpaid, apiKey), Rows(env.execute(Query(V1, Wdpa), params)),
                          PeriodLabel(env.dayDiff, period), UrlsV1(env, Query(V1, Wdpa), params))
  {
    var params := WdpaParams(wdpaid, period);
    var geostore := env.geostore.byWdpa(wdpaid, apiKey);
    var data := env.execute(Query(V1, Wdpa), params);
    r := Gate(env, geostore, data, Query(V1, Wdpa), params, period);
  }

  /** The first generation labels a record of a one-day period "Past 24
      hours", and a record of an unparsable period or one without an end
      "Past week". */
  lemma {:induction false} NationalLabels(env: Env, iso: string, period: string, apiKey: Option<string>, r: JsValue)
    requires var params := NationalParams(iso, period);
             GeostoreGated(r, env.geostore.byIso(iso, apiKey), Rows(env.execute(Query(V1, Iso), params)),
                           PeriodLabel(env.dayDiff, period), UrlsV1(env, Query(V1, Iso), params))
    requires env.geostore.byIso(iso, apiKey).Some? && Rows(env.execute(Query(V1, Iso), NationalParams(iso, period))) != []
    ensures r.Obj? && "period" in r.props
    ensures End(period).Some? && env.dayDiff(Begin(period), End(period).value) == Some(1.0) ==>
              r.props["period"] == Str(Past24Hours)
    ensures End(period).None? || env.dayDiff(Begin(period), End(period).value).None? ==>
              r.props["period"] == Str(PastWeek)
  {
    GatedFacts(r, env.geostore.byIso(iso, apiKey), Rows(env.execute(Query(V1, Iso), NationalParams(iso, period))),
               PeriodLabel(env.dayDiff, period), UrlsV1(env, Query(V1, Iso), NationalParams(iso, period)));
  }

  /** `getWorld`. */
  method GetWorld(env: Env, hash: string, period: string, apiKey: Option<string>) returns (r: Outcome<JsValue>)
    ensures var geostore := env.geostore.byHash(hash, apiKey);
            if geostore.Some? && Truthy(Get(geostore.value, "geojson"))
            then WorldQuery.WorldOutcome(V1, env, Get(geostore.value, "geojson"), period, r)
            else r == Throws(NotFound("Geostore not found"))
  {
    var geostore := env.geostore.byHash(hash, apiKey);
    if geostore.Some? && Truthy(Get(geostore.value, "geojson")) {
      r := WorldQuery.GetWorldWithGeojson(V1, env, Get(geostore.value, "geojson"), period);
      return;
    }
    return Throws(NotFound("Geostore not found"));
  }

  /** The `limit` parameter: `parseInt(limit, 10)` with "3" for a missing
      limit; NaN when the limit has no leading digits. */
  function LatestParams(limit: Option<string>): (p: Props)
    ensures p.Keys == {"limit"}
    ensures p["limit"].Num? || p["limit"].NaN?
  {
    var text := if limit.Some? then limit.value else "3";
    map["limit" := LimitValue(Text.ParseInt10(text))]
  }

  function LimitValue(parsed: Option<int>): JsValue {
    match parsed
    case Some(n) => Num(n as real)
    case None => NaN
  }

  /** Without a limit the query gets the number 3. */
  lemma DefaultLimit()
    ensures LatestParams(None) == map["limit" := Num(3.0)]
  {
    Text.ParseIntRoundTrip(3);
    assert Text.NatToDigits(3) == "3";
  }

  /** The limit sent is the number written, whatever follows its digits. */
  lemma WrittenLimit(n: nat, tail: string)
    requires tail == [] || !Text.IsDigit(tail[0])
    ensures LatestParams(Some(Text.NatToDigits(n) + tail)) == map["limit" := Num(n as real)]
  {
    Text.ParseIntOfDecimal(n, tail);
  }

  /** A limit without any digit is sent as NaN. */
  lemma JunkLimit(junk: string)
    requires forall i :: 0 <= i < |junk| ==> !Text.IsDigit(junk[i])
    ensures LatestParams(Some(junk)) == map["limit" := NaN]
  {
    Text.ParseIntNoDigits(junk);
  }

  /** `latest(limit)`: the rows whenever the answer has `rows`, even none. */
  method Latest(env: Env, limit: Option<string>) returns (r: Option<seq<Props>>)
    ensures r == env.execute(Query(V1, LatestDates), LatestParams(limit))
  {
    var text := if limit.Some? then limit.value else "3";
    var parsed := Text.ParseInt10(text);
    var params: Props := map["limit" := if parsed.Some? then Num(parsed.value as real) else NaN];
    var data := env.execute(Query(V1, LatestDates), params);
    if data.Some? {
      return Some(data.value);
    }
    return None;
  }
}
