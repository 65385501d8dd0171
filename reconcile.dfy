/** How the services turn store answers and geostore records into the
    record they return.  Every service starts from the first row of an
    answer and assigns a few properties on it; `Overlaid` says what that
    leaves, and the predicates below are the decision rules of the two
    service generations. */
module Reconcile {
  import opened Wrappers
  import opened Js

  /** `result` is `base` after assigning every property of `updates`: the
      keys of both, the assigned values winning, every other property kept. */
  predicate Overlaid(result: Props, base: Props, updates: Props) {
    && result.Keys == base.Keys + updates.Keys
    && (forall k :: k in updates ==> result[k] == updates[k])
    && (forall k :: k in base && k !in updates ==> result[k] == base[k])
  }

  /** A base and its assignments determine the record. */
  lemma OverlaidUnique(r1: Props, r2: Props, base: Props, updates: Props)
    requires Overlaid(r1, base, updates) && Overlaid(r2, base, updates)
    ensures r1 == r2
  {
    forall k | k in r1
      ensures r1[k] == r2[k]
    {
      if k in updates {
        assert r1[k] == updates[k] == r2[k];
      } else {
        assert r1[k] == base[k] == r2[k];
      }
    }
  }

  /** Assigning properties one by one is the right-biased union of maps. */
  lemma OverlaidIsUnion(base: Props, updates: Props)
    ensures Overlaid(base + updates, base, updates)
  {
  }

  /** Before any assignment a row is overlaid with nothing. */
  lemma OverlaidStart(base: Props)
    ensures Overlaid(base, base, map[])
  {
  }

  /** Assigning one more property extends the assignments. */
  lemma OverlaidStep(result: Props, base: Props, updates: Props, k: string, v: JsValue)
    requires Overlaid(result, base, updates)
    ensures Overlaid(result[k := v], base, updates[k := v])
  {
  }

  /** The second-generation level queries: the first row with the request's
      properties assigned, or `null` when there is no row. */
  predicate RowOrNull(r: JsValue, rows: seq<Props>, updates: Props) {
    if rows == [] then r == Null else r.Obj? && Overlaid(r.props, rows[0], updates)
  }

  /** The record a geostore alone yields in the second generation; note
      that it reads the geostore's `area_ha`. */
  function GeostoreOnly(id: string, geostore: Props): JsValue {
    Obj(map["id" := Str(id), "value" := Num(0.0), "area_ha" := Get(geostore, "area_ha")])
  }

  /** The second-generation land-use and protected-area rule: loss rows
      first, then the area of the polygon with loss 0, then the geostore's
      area with loss 0, and `null` when all three are missing. */
  predicate Cascade(r: JsValue, rows: seq<Props>, areas: seq<Props>, geostore: Option<Props>,
                    id: string, rowUpdates: Props) {
    if rows != [] then r.Obj? && Overlaid(r.props, rows[0], rowUpdates)
    else if areas != [] then r.Obj? && Overlaid(r.props, areas[0], map["id" := Str(id), "value" := Num(0.0)])
    else if geostore.Some? then r == GeostoreOnly(id, geostore.value)
    else r == Null
  }

  /** What the cascade promises its callers: a record carrying the asked-for
      id unless all three sources are empty, with loss 0 whenever there
      were no loss rows. */
  lemma CascadeFacts(r: JsValue, rows: seq<Props>, areas: seq<Props>, geostore: Option<Props>,
                     id: string, rowUpdates: Props)
    requires Cascade(r, rows, areas, geostore, id, rowUpdates)
    requires Get(rowUpdates, "id") == Str(id)
    ensures r == Null <==> rows == [] && areas == [] && geostore.None?
    ensures r != Null ==> r.Obj? && Get(r.props, "id") == Str(id)
    ensures r != Null && rows == [] ==> Get(r.props, "value") == Num(0.0)
  {
  }

  /** The record a geostore alone yields in the first generation: its
      `areaHa` and nothing else. */
  function AreaOnly(geostore: Props): JsValue {
    Obj(map["area_ha" := Get(geostore, "areaHa")])
  }

  /** The first-generation rule for countries, regions, land use and
      protected areas: nothing without a geostore; the geostore's area
      alone without loss rows; otherwise the first row with the
      geostore's area, the period label and the download links. */
  predicate GeostoreGated(r: JsValue, geostore: Option<Props>, rows: seq<Props>, periodText: string, urls: JsValue) {
    if geostore.None? then r == Null
    else if rows == [] then r == AreaOnly(geostore.value)
    else r.Obj? && Overlaid(r.props, rows[0],
                            map["area_ha" := Get(geostore.value, "areaHa"), "period" := Str(periodText), "downloadUrls" := urls])
  }

  lemma GatedFacts(r: JsValue, geostore: Option<Props>, rows: seq<Props>, periodText: string, urls: JsValue)
    requires GeostoreGated(r, geostore, rows, periodText, urls)
    ensures r == Null <==> geostore.None?
    ensures geostore.Some? ==> r.Obj? && Get(r.props, "area_ha") == Get(geostore.value, "areaHa")
    ensures geostore.Some? && rows == [] ==> r.props.Keys == {"area_ha"}
    ensures geostore.Some? && rows != [] ==> Get(r.props, "period") == Str(periodText)
  {
  }
}
