/** The HTTP handlers that do more than forward their arguments: choosing
    the land-use table, wrapping posted GeoJSON, and turning a missing
    parameter or a missing geostore into a client error. */
module Routes {
  import opened Wrappers
  import opened Js
  import opened Collaborators
  import opened GeoJson
  import WorldQuery
  import ServiceV1
  import ServiceV1App
  import ServiceV2
  import ServiceV2App

  const NameNotFound := HttpError(404, "Name not found")
  const GeoJsonRequired := HttpError(400, "GeoJSON param required")
  const GeostoreNotFound := HttpError(404, "Geostore not found")

  /** The land-use service call a `use` request turns into. */
  datatype UseCall = UseCall(name: string, table: string, id: string)

  /** The land-use names the first-generation routes know, with their tables. */
  const KnownUses: map<string, string> :=
    map["mining" := "gfw_mining", "oilpalm" := "gfw_oil_palm", "fiber" := "gfw_wood_fiber", "logging" := "gfw_logging"]

  /** The table a first-generation `use` request queries: a known name's
      table, any other name verbatim. */
  function UseTable(name: string): (table: string)
    ensures name in KnownUses ==> table == KnownUses[name]
    ensures name !in KnownUses ==> table == name
    ensures table == "" <==> name == ""
  {
    if name in KnownUses then KnownUses[name] else name
  }

  /** `use` of the first-generation routers: a switch on the name into the
      table, and 404 when the table is empty. */
  method UseV1(name: string, id: string) returns (r: Outcome<UseCall>)
    ensures r == Throws(NameNotFound) <==> name == ""
    ensures name != "" ==> r == Ok(UseCall(name, UseTable(name), id))
  {
    var useTable: string;
    match name {
      case "mining" => useTable := "gfw_mining";
      case "oilpalm" => useTable := "gfw_oil_palm";
      case "fiber" => useTable := "gfw_wood_fiber";
      case "logging" => useTable := "gfw_logging";
      case _ => useTable := name;
    }
    if useTable == "" {
      return Throws(NameNotFound);
    }
    return Ok(UseCall(name, useTable, id));
  }

  /** The first-generation JavaScript router under strict mode: the default
      branch assigns the undeclared `tableName`, so every name outside the
      four known ones throws a ReferenceError and the 404 is unreachable. */
  method UseLegacyV1(name: string, id: string) returns (r: Outcome<UseCall>)
    ensures name in KnownUses ==> r == Ok(UseCall(name, KnownUses[name], id))
    ensures name !in KnownUses ==> r == Throws(ReferenceError("tableName"))
    ensures r != Throws(NameNotFound)
  {
    var useTable: string;
    match name {
      case "mining" => useTable := "gfw_mining";
      case "oilpalm" => useTable := "gfw_oil_palm";
      case "fiber" => useTable := "gfw_wood_fiber";
      case "logging" => useTable := "gfw_logging";
      case _ =>
        // the default branch assigns to a name no statement declares
        return Throws(ReferenceError("tableName"));
    }
    return Ok(UseCall(name, useTable, id));
  }

  /** `use` of the second-generation routers: the name is the table. */
  function UseV2(name: string, id: string): (r: Outcome<UseCall>)
    ensures r == Throws(NameNotFound) <==> name == ""
    ensures name != "" ==> r == Ok(UseCall(name, name, id))
  {
    var useTable := name;
    if useTable == "" then Throws(NameNotFound) else Ok(UseCall(name, useTable, id))
  }

  /** The two generations pick the same table exactly for the names
      outside the four known ones: a known name is mapped to a `gfw_`
      table. */
  lemma {:induction false} UseTablesAgree(name: string)
    ensures UseTable(name) == name <==> name !in KnownUses
  {
    if name in KnownUses {
      assert name in {"mining", "oilpalm", "fiber", "logging"};
      assert UseTable(name)[0] == 'g' && name[0] != 'g';
    }
  }

  /** The routers' catch: NotFound becomes 404, anything else is rethrown. */
  function CatchNotFound(o: Outcome<JsValue>): Outcome<JsValue> {
    if o.Throws? && o.error.NotFound? then Throws(GeostoreNotFound) else o
  }

  /** The truthiness of the `geostore` query parameter. */
  predicate GivenParam(p: Option<string>) {
    p.Some? && p.value != ""
  }

  /** `world` of the first-generation TypeScript router. */
  method WorldV1(env: Env, geostore: Option<string>, period: string, apiKey: Option<string>) returns (r: Outcome<JsValue>)
    ensures !GivenParam(geostore) ==> r == Throws(GeoJsonRequired)
    ensures GivenParam(geostore) ==>
              var g := env.geostore.byHash(geostore.value, apiKey);
              if g.Some? && Truthy(Get(g.value, "geojson"))
              then WorldQuery.WorldOutcome(V1, env, Get(g.value, "geojson"), period, r)
              else r == Throws(GeostoreNotFound)
  {
    if !GivenParam(geostore) {
      return Throws(GeoJsonRequired);
    }
    var o := ServiceV1.GetWorld(env, geostore.value, period, apiKey);
    var g := env.geostore.byHash(geostore.value, apiKey);
    if g.Some? && Truthy(Get(g.value, "geojson")) {
      WorldQuery.WorldNeverNotFound(V1, env, Get(g.value, "geojson"), period, o);
    }
    r := CatchNotFound(o);
  }

  /** `world` of the second-generation TypeScript router. */
  method WorldV2(env: Env, geostore: Option<string>, period: string, apiKey: Option<string>) returns (r: Outcome<JsValue>)
    ensures !GivenParam(geostore) ==> r == Throws(GeoJsonRequired)
    ensures GivenParam(geostore) ==>
              var g := env.geostore.byHash(geostore.value, apiKey);
              if g.Some? && Truthy(Get(g.value, "geojson"))
              then WorldQuery.WorldOutcome(V2, env, Get(g.value, "geojson"), period, r)
              else r == Throws(GeostoreNotFound)
  {
    if !GivenParam(geostore) {
      return Throws(GeoJsonRequired);
    }
    var o := ServiceV2.GetWorld(env, geostore.value, period, apiKey);
    var g := env.geostore.byHash(geostore.value, apiKey);
    if g.Some? && Truthy(Get(g.value, "geojson")) {
      WorldQuery.WorldNeverNotFound(V2, env, Get(g.value, "geojson"), period, o);
    }
    r := CatchNotFound(o);
  }

  /** `world` of both first-generation JavaScript routers. */
  method AppWorldV1(env: Env, geostore: Option<string>, period: string) returns (r: Outcome<JsValue>)
    ensures !GivenParam(geostore) ==> r == Throws(GeoJsonRequired)
    ensures GivenParam(geostore) ==>
              var g := env.geostore.byHash(geostore.value, None);
              if g.Some? && Truthy(Get(g.value, "geojson"))
              then WorldQuery.AppV1WorldOutcome(env, Get(g.value, "geojson"), Get(g.value, "areaHa"), period, r)
              else r == Throws(GeostoreNotFound)
  {
    if !GivenParam(geostore) {
      return Throws(GeoJsonRequired);
    }
    var o := ServiceV1App.GetWorld(env, geostore.value, period);
    var g := env.geostore.byHash(geostore.value, None);
    if g.Some? && Truthy(Get(g.value, "geojson")) {
      WorldQuery.AppV1WorldNeverNotFound(env, Get(g.value, "geojson"), Get(g.value, "areaHa"), period, o);
    }
    r := CatchNotFound(o);
  }

  /** `world` of the second-generation JavaScript router. */
  method AppWorldV2(env: Env, geostore: Option<string>, period: string) returns (r: Outcome<JsValue>)
    ensures !GivenParam(geostore) ==> r == Throws(GeoJsonRequired)
    ensures GivenParam(geostore) ==>
              var g := env.geostore.byHash(geostore.value, None);
              if g.Some? && Truthy(Get(g.value, "geojson"))
              then WorldQuery.WorldOutcome(V2, env, Get(g.value, "geojson"), period, r)
              else r == Throws(GeostoreNotFound)
  {
    if !GivenParam(geostore) {
      return Throws(GeoJsonRequired);
    }
    var o := ServiceV2App.GetWorld(env, geostore.value, period);
    var g := env.geostore.byHash(geostore.value, None);
    if g.Some? && Truthy(Get(g.value, "geojson")) {
      WorldQuery.WorldNeverNotFound(V2, env, Get(g.value, "geojson"), period, o);
    }
    r := CatchNotFound(o);
  }

  /** `worldWithGeojson` of a router whose service runs the area query:
      400 without a truthy `geojson` in the body; a TypeError from
      `checkGeojson` is rethrown; otherwise the world outcome of the
      wrapped GeoJSON. */
  method WorldWithGeojson(generation: Generation, env: Env, body: Props, period: string) returns (r: Outcome<JsValue>)
    ensures !Truthy(Get(body, "geojson")) ==> r == Throws(GeoJsonRequired)
    ensures Truthy(Get(body, "geojson")) ==>
              match CheckGeojson(Get(body, "geojson"))
              case Throws(e) => r == Throws(e)
              case Ok(g) => WorldQuery.WorldOutcome(generation, env, g, period, r)
  {
    var geojson := Get(body, "geojson");
    if !Truthy(geojson) {
      return Throws(GeoJsonRequired);
    }
    var checked := CheckGeojson(geojson);
    if checked.Throws? {
      return CatchNotFound(Throws(checked.error));
    }
    var o := WorldQuery.GetWorldWithGeojson(generation, env, checked.value, period);
    WorldQuery.WorldNeverNotFound(generation, env, checked.value, period, o);
    r := CatchNotFound(o);
  }

  /** `worldWithGeojson` of both first-generation JavaScript routers: the
      service is handed a `null` area, so the area is the loss row's. */
  method AppWorldWithGeojsonV1(env: Env, body: Props, period: string) returns (r: Outcome<JsValue>)
    ensures !Truthy(Get(body, "geojson")) ==> r == Throws(GeoJsonRequired)
    ensures Truthy(Get(body, "geojson")) ==>
              match CheckGeojson(Get(body, "geojson"))
              case Throws(e) => r == Throws(e)
              case Ok(g) => WorldQuery.AppV1WorldOutcome(env, g, Null, period, r)
  {
    var geojson := Get(body, "geojson");
    if !Truthy(geojson) {
      return Throws(GeoJsonRequired);
    }
    var checked := CheckGeojson(geojson);
    if checked.Throws? {
      return CatchNotFound(Throws(checked.error));
    }
    var o := ServiceV1App.GetWorldWithGeojson(env, checked.value, Null, period);
    WorldQuery.AppV1WorldNeverNotFound(env, checked.value, Null, period, o);
    r := CatchNotFound(o);
  }

  /** `worldWithGeojson` of the second-generation JavaScript router: the
      `null` area it hands on is ignored. */
  method AppWorldWithGeojsonV2(env: Env, body: Props, period: string) returns (r: Outcome<JsValue>)
    ensures !Truthy(Get(body, "geojson")) ==> r == Throws(GeoJsonRequired)
    ensures Truthy(Get(body, "geojson")) ==>
              match CheckGeojson(Get(body, "geojson"))
              case Throws(e) => r == Throws(e)
              case Ok(g) => WorldQuery.WorldOutcome(V2, env, g, period, r)
  {
    var geojson := Get(body, "geojson");
    if !Truthy(geojson) {
      return Throws(GeoJsonRequired);
    }
    var checked := CheckGeojson(geojson);
    if checked.Throws? {
      return CatchNotFound(Throws(checked.error));
    }
    var o := ServiceV2App.GetWorldWithGeojson(env, checked.value, Null, period);
    WorldQuery.WorldNeverNotFound(V2, env, checked.value, period, o);
    r := CatchNotFound(o);
  }
}
