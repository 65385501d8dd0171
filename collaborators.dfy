/** What the services reach outside themselves: the SQL templates of the
    statistics store, the store itself, template rendering, URL encoding,
    date arithmetic, JSON serialisation and the geostore service.  Each is a
    function value of the environment, so every contract is stated for
    whatever those collaborators return. */
module Collaborators {
  import opened Wrappers
  import opened Js

  /** The two generations of services, each with its own set of templates. */
  datatype Generation = V1 | V2

  /** The SQL templates: loss inside a GeoJSON geometry, the area of that
      geometry, loss by country, by region, by district, by land-use
      polygon, the area of that polygon, by protected area, its area, and
      the latest dates with data. */
  datatype Template = World | Area | Iso | Id1 | Id2 | Use | UseArea | Wdpa | WdpaArea | LatestDates

  datatype Query = Query(generation: Generation, template: Template)

  /** The geostore lookups; each gives the geostore record or nothing.
      The last argument is the API key the TypeScript services forward,
      `None` where the JavaScript services send none. */
  datatype Geostores = Geostores(
    byIso: (string, Option<string>) -> Option<Props>,
    byIsoAndId: (string, string, Option<string>) -> Option<Props>,
    byUse: (string, string, Option<string>) -> Option<Props>,
    byWdpa: (string, Option<string>) -> Option<Props>,
    byHash: (string, Option<string>) -> Option<Props>)

  datatype Env = Env(
    apiUrl: string,                               // the store's public SQL endpoint
    render: (Query, Props) -> string,             // the template engine
    encode: string -> Option<string>,             // URI-component encoding; None when it throws
    execute: (Query, Props) -> Option<seq<Props>>, // the store's `rows`; None when absent
    dayDiff: (string, string) -> Option<real>,    // days from begin to end; None for NaN
    stringify: JsValue -> JsValue,                // JSON serialisation
    geostore: Geostores)

  /** The rows of a store answer, none when the answer has no `rows`. */
  function Rows(data: Option<seq<Props>>): seq<Props> {
    if data.Some? then data.value else []
  }
}
