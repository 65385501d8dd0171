# Guira-loss statistics API: a Dafny model

The service answers questions about forest loss in the Gran Chaco
(the Guyra Paraguay data set). It asks a hosted SQL store about a country,
a GADM region or district, a land-use polygon, a protected area (WDPA), or
an arbitrary GeoJSON geometry, and builds one JSON record from the answer.
The record holds the loss `value`, the area `area_ha`, a period label or the
raw period, and `downloadUrls`: one export link per file format.
When the store has no rows, the service falls back to a secondary area
query or to the geostore record of the area, and otherwise returns `null`.
The repository holds two generations of the service (V1 and V2), each once
in TypeScript and once in older JavaScript, plus the routers that sit in
front of them.

What the model covers:

- `Js`: JavaScript values as the code handles them: truthiness, `||`,
  objects as maps, and property reads that throw on `undefined` or `null`.
  An absent property is told apart from one that holds `undefined`.
  Operations that can throw return an `Outcome`.
- `Text`: the string built-ins the code relies on: `split`, the
  first-occurrence `replace`, `toLowerCase` and `parseInt(_, 10)`.
- `Period`: splitting "begin,end" into the query bounds, and the
  "Past 24 hours" … "Past week" label.
- `Gadm`: `routeToGid` and `getSimplify`.
- `Export`: `getDownloadUrls` of both generations, including the V1
  rewrite of the aggregate projection to `f.*`.
- `GeoJson`: the routers' `checkGeojson`, and reading the first feature's
  geometry.
- `Reconcile`: the rules by which each generation turns the first row and
  the geostore into a record.
- `WorldQuery`: the queries for loss inside a geometry.
- `ServiceV2`, `ServiceV2App`, `ServiceV1`, `ServiceV1App`: the four
  service files.
- `Routes`: the router logic that does more than forward its arguments.

The world outside the code is a value of type `Collaborators.Env`. It holds:
the store's URL, the template renderer, the URI encoder, the store (a query
and its parameters give the rows, or `None` when the answer has no `rows`),
date arithmetic, the JSON serialiser and the geostore lookups. Every
contract is stated for an arbitrary environment.

Two details of the code that the model keeps as written:

- The district identifier is built from the raw region code as
  `ISO.id1.id2_1`, e.g. "BRA.1.2_1" (`Gadm.BrazilDistrictExample`).
- The V2 services read the geostore's `area_ha`; the V1 services read
  `areaHa` (`Reconcile.GeostoreOnly`, `Reconcile.AreaOnly`).

## Model

| member | source | states |
|---|---|---|
| Text.Split | src/services/cartoDBServiceV2.ts:156 | `split(',')` gives at least one piece, and no piece contains the separator |
| Text.Join | src/services/cartoDBServiceV2.ts:156-160 | `parts.join(sep)`, the reference inverse of `split` that Text.JoinSplit and Text.SplitJoin relate it to |
| Text.JoinSplit | src/services/cartoDBServiceV2.ts:156-160 | joining the pieces with the separator gives back the period string |
| Text.SplitJoin | src/services/cartoDBServiceV2.ts:156-160 | splitting a join of separator-free pieces gives back those pieces |
| Text.SplitFreePrefix | src/services/cartoDBServiceV2.ts:156 | a separator-free prefix joins the first piece and leaves the other pieces alone |
| Text.IndexFrom | src/services/cartoDBService.ts:121-122 | the found position is the first occurrence at or after the start; `None` means there is none |
| Text.IndexOf | src/services/cartoDBService.ts:121-122 | `None` exactly when the pattern does not occur; otherwise the position of its first occurrence |
| Text.ReplaceFirst | src/services/cartoDBService.ts:121-122 | `replace` with a string pattern: a string without the pattern comes back unchanged |
| Text.ReplaceFirstAt | src/services/cartoDBService.ts:121-122 | the first occurrence of the pattern, and only that one, becomes the replacement |
| Text.ReplaceAfter | src/services/cartoDBService.ts:121-122 | when no occurrence starts inside a prefix, replacing in the whole string replaces in the rest only |
| Text.ToLower | src/routes/guiraLossV1.router.ts:112 | `toLowerCase` keeps the length and lowers each character |
| Text.ToLowerIdempotent | src/routes/guiraLossV1.router.ts:112-121 | lowering twice is lowering once |
| Text.DigitChar | src/services/cartoDBService.ts:277 | a digit value is written as a digit character that reads back as that value |
| Text.NatToDigits | src/services/cartoDBService.ts:277 | a number's numeral is non-empty, all digits, with no leading zero |
| Text.DigitsRoundTrip | src/services/cartoDBService.ts:277 | a numeral's digits read back as the number |
| Text.ParseInt10 | src/services/cartoDBService.ts:277 | `parseInt(s, 10)`: white space skipped, one optional sign, then the leading digits; NaN (`None`) without digits; its properties are the lemmas below |
| Text.TrimStart | src/services/cartoDBService.ts:277 | `parseInt` drops a prefix made only of white space, and what is left is empty or starts with a non-space |
| Text.DigitPrefix | src/services/cartoDBService.ts:277 | `parseInt` reads the longest prefix of digits |
| Text.DigitPrefixOfDigits | src/services/cartoDBService.ts:277 | digits followed by a non-digit are read up to that non-digit |
| Text.ParseDigitsOfDecimal | src/services/cartoDBService.ts:277 | a numeral followed by a non-digit parses as its number |
| Text.ParseIntOfDecimal | src/services/cartoDBService.ts:277 | `parseInt(String(n) + tail, 10)` is `n` for any non-negative integer and any tail not starting with a digit |
| Text.NegativeParse | src/services/cartoDBService.ts:277 | a minus sign before text whose digits read `m` parses as `-m` |
| Text.UnsignedParse | src/services/cartoDBService.ts:277 | text starting with a digit parses as the number its leading digits read |
| Text.ParseIntRoundTrip | src/services/cartoDBService.ts:277 | `parseInt` inverts decimal printing of non-negative integers |
| Text.ParseIntNoDigits | src/services/cartoDBService.ts:277 | text without any digit parses to NaN |
| Js.Truthy | src/services/cartoDBServiceV2.ts:164 | ToBoolean: false exactly for `undefined`, `null`, `false`, 0, NaN and the empty string |
| Js.Get | src/services/cartoDBService.ts:147 | a property read on an object: the value, or `undefined` when the key is absent |
| Js.Or | src/services/cartoDBServiceV2.ts:317 | the logical or of two values is one of them, truthy exactly when one of them is, and the first whenever that one is truthy |
| Js.CanonicalIndex | src/services/cartoDBService.ts:256 | a property name that denotes an array index is the numeral of that index |
| Js.CanonicalNumeral | src/services/cartoDBService.ts:256 | a canonical numeral is the numeral of its own value |
| Js.IndexOfNumeral | src/services/cartoDBServiceV2.ts:307 | the numeral of `i` denotes index `i` |
| Js.Member | src/routes/guiraLossV1.router.ts:112 | a property read throws a TypeError exactly on `undefined` or `null`; on an object it is the property, or `undefined` |
| Js.MemberOfArray | src/services/cartoDBService.ts:256 | `features[0]` on an array is its first element |
| Period.Begin | src/services/cartoDBServiceV2.ts:156-159 | the begin bound never contains a comma |
| Period.End | src/services/cartoDBServiceV2.ts:156-160 | the end bound, when there is one, never contains a comma |
| Period.PeriodParams | src/services/cartoDBServiceV2.ts:156-160 | every statistics query gets exactly `begin` and `end` |
| Period.RangeBounds | src/services/cartoDBServiceV2.ts:156-160 | "b,e" gives begin `b` and end `e` |
| Period.SingleDateBounds | src/services/cartoDBServiceV2.ts:156-160 | a period without a comma is the begin, and the end is `undefined` |
| Period.BoundsArePrefix | src/services/cartoDBServiceV2.ts:156-160 | "begin,end" is a prefix of the period, or the whole period is the begin |
| Period.PeriodText | src/services/cartoDBServiceV2.ts:107-123 | the label says 24, 48 or 72 hours exactly for 1, 2 or 3 days, and "Past week" for every other count, NaN included |
| Period.PeriodLabel | src/services/cartoDBService.ts:86-102 | one of the four labels; "Past week" whenever the period has no end; otherwise the label of the day count between begin and end |
| Period.SingleDateLabel | src/services/cartoDBService.ts:86-102 | a period without a comma is labelled "Past week", whatever its date |
| Gadm.RouteToGid | src/services/cartoDBServiceV2.ts:81-85 | the region id exists only for a truthy region, the district id only for a truthy district, and the district id embeds the raw region code |
| Gadm.Adm1RoundTrip | src/services/cartoDBServiceV2.ts:81-85 | the region code can be read back from the region id |
| Gadm.Adm2RoundTrip | src/services/cartoDBServiceV2.ts:81-85 | the district code can be read back from the district id |
| Gadm.Adm1Injective | src/services/cartoDBServiceV2.ts:81-85 | two regions of one country never share an id |
| Gadm.Adm2Injective | src/services/cartoDBServiceV2.ts:81-85 | two districts of one region never share an id |
| Gadm.Adm2Collision | src/services/cartoDBServiceV2.ts:81-85 | across regions district ids collide: region "1.2" with district "3" and region "1" with district "2.3" both give "BRA.1.2.3_1" |
| Gadm.BrazilDistrictExample | app/src/services/cartoDBServiceV2.js:83-89 | Brazil, region 1, district 2 gives "BRA.1_1" and "BRA.1.2_1" |
| Gadm.DistrictWithoutRegion | src/services/cartoDBServiceV2.ts:84 | a district without its region embeds "undefined" |
| Gadm.GetSimplify | src/services/cartoDBServiceV2.ts:98-105 | the tolerance is 0.05 exactly for the six listed countries, and 0.005 otherwise, empty code included |
| Export.ExportForm | src/services/cartoDBService.ts:120-122 | the export query: the first full projection, then the first short one, become `f.*`; its properties are the lemmas below |
| Export.FullHasShort | src/services/cartoDBService.ts:121-122 | wherever the full projection occurs, the short one occurs too |
| Export.ExportFormWithoutProjection | src/services/cartoDBService.ts:121-122 | a query without the aggregate projection is exported unchanged |
| Export.ExportFormShortOnly | src/services/cartoDBService.ts:121-122 | only the first short projection is replaced by `f.*` |
| Export.ExportFormFull | src/services/cartoDBService.ts:121-122 | with the full projection first at `i`, it becomes `f.*` and the second rewrite acts only on the text after it |
| Export.QueryOfFormatUrl | src/services/cartoDBServiceV2.ts:144-145 | the encoded query can be read back from each link |
| Export.DownloadObject | src/services/cartoDBServiceV2.ts:139-146 | the download record has exactly one key per format |
| Export.FillDownloads | src/services/cartoDBServiceV2.ts:139-146 | the loop builds one link per format, nothing more |
| Export.UrlsV1 | src/services/cartoDBService.ts:116-131 | the V1 links: `undefined` when encoding the export form fails, else one link per V1 format; its properties are Export.UrlsShape and Export.FormatsDiffer |
| Export.UrlsV2 | src/services/cartoDBServiceV2.ts:137-150 | the V2 links, with the rendered query as is and the V2 formats |
| Export.GetDownloadUrlsV1 | src/services/cartoDBService.ts:116-131 | the V1 links carry the encoded export form of the query, with the V1 formats; `undefined` when encoding throws |
| Export.GetDownloadUrlsV2 | src/services/cartoDBServiceV2.ts:137-150 | the V2 links carry the encoded rendered query, with the V2 formats; `undefined` when encoding throws |
| Export.UrlsShape | app/src/services/cartoDBService.js:98-113 | `undefined` exactly when encoding fails; otherwise exactly one key per format, each link holding the same encoded query |
| Export.FormatsDiffer | src/services/cartoDBServiceV2.ts:139 | the V1 and V2 records share every format but one: `geojson` only in V1, `json` only in V2 |
| Export.SameLinksWithoutProjection | src/services/cartoDBService.ts:120-123 | for a query without the aggregate projection both generations give the same link for each shared format, and fail together |
| GeoJson.LowerType | src/routes/guiraLossV1.router.ts:112 | `geojson.type.toLowerCase()`: only a TypeError, and only when `type` is not a string; otherwise the lowered type, of the same length |
| GeoJson.CheckGeojson | src/routes/guiraLossV1.router.ts:111-128 | throws exactly when the type cannot be read and lowered, and only a TypeError; a polygon becomes `{type: "FeatureCollection", features: [{type: "Feature", geometry: polygon}]}`, a feature becomes a collection whose `features` is exactly `[feature]`, and any other type is returned as is |
| GeoJson.FirstGeometry | src/services/cartoDBService.ts:256 | `geojson.features[0].geometry` throws only TypeErrors |
| GeoJson.FirstOfCollection | src/services/cartoDBServiceV2.ts:303-309 | the geometry queried is the first feature's |
| GeoJson.PolygonIsQueried | src/routes/guiraLossV2.router.ts:89-106 | a polygon of any letter case is wrapped and then queried as itself |
| GeoJson.FeatureIsQueried | src/routes/guiraLossV2.router.ts:89-106 | a single feature is wrapped and its own geometry is queried |
| GeoJson.OtherTypesUnchanged | src/routes/guiraLossV1.router.ts:111-128 | any other type is passed through untouched |
| GeoJson.CollectionType | src/routes/guiraLossV1.router.ts:111-128 | a wrapped result has type "featurecollection" once lowered |
| GeoJson.CheckIdempotent | app/src/routes/api/v1/guiraLoss.router.js:79-95 | wrapping twice is wrapping once |
| GeoJson.NonStringTypeThrows | app/src/routes/api/v2/guiraLoss.router.js:67-83 | a body whose `type` is not a string throws a TypeError |
| GeoJson.BareMultiPolygonThrows | app/src/routes/api/v1/guiraLossRouter.js:77-93 | a bare multipolygon passes the check, and then throws when its first feature is read |
| Reconcile.OverlaidUnique | src/services/cartoDBServiceV2.ts:163-171 | the first row and the assigned properties determine the record |
| Reconcile.OverlaidIsUnion | src/services/cartoDBServiceV2.ts:163-171 | assigning properties one by one is the right-biased union |
| Reconcile.CascadeFacts | src/services/cartoDBServiceV2.ts:232-255 | `null` exactly when there are no loss rows, no area rows and no geostore; otherwise the record has the asked id, and loss 0 when there were no loss rows |
| Reconcile.GatedFacts | src/services/cartoDBService.ts:133-158 | `null` exactly without a geostore; the area is always the geostore's `areaHa`; without rows the record is that area alone; with rows it carries the label |
| WorldQuery.Record | src/services/cartoDBServiceV2.ts:311-322 | the record built from the loss answer, the area rows and the links: TypeError without an area row or on an empty loss list; else `area_ha`, the loss or 0, and the links |
| WorldQuery.FromGeometry | src/services/cartoDBServiceV2.ts:305-322 | the world and area queries of one geometry, reconciled as WorldQuery.Record says |
| WorldQuery.AppV1FromGeometry | app/src/services/cartoDBService.js:250-271 | no area query: `null` without `rows`, TypeError on an empty row list, else the first row with the area and the V1 links |
| WorldQuery.WorldParams | src/services/cartoDBServiceV2.ts:305-310 | the world queries get exactly the serialised geometry as `geojson` and the period bounds as `begin` and `end` |
| WorldQuery.GetWorldWithGeojson | src/services/cartoDBServiceV2.ts:303-323 | TypeError when the first geometry is unreadable, the area query has no row, or the loss answer has an empty row list; otherwise the area row's `area_ha`, the loss or 0, and the generation's links |
| WorldQuery.WorldRecordFacts | src/services/cartoDBService.ts:252-273 | a successful world record always has its area and links, and its loss is truthy or exactly 0 |
| WorldQuery.PolygonWorld | src/routes/guiraLossV1.router.ts:130-149 | posting a bare polygon queries that polygon |
| WorldQuery.FeatureWorld | src/routes/guiraLossV2.router.ts:108-128 | posting a feature queries its geometry, as a one-feature collection would |
| WorldQuery.WorldNeverNotFound | src/routes/guiraLossV2.router.ts:69-87 | the world computation throws only TypeErrors, so the routers' not-found handler fires only for a missing geostore |
| WorldQuery.AppV1WorldNeverNotFound | app/src/routes/api/v1/guiraLoss.router.js:63-77 | the same, for the JavaScript V1 world computation |
| ServiceV2.Adm0Params | src/services/cartoDBServiceV2.ts:154-162 | the country query gets exactly the country, the period bounds and the country's tolerance |
| ServiceV2.Adm1Params | src/services/cartoDBServiceV2.ts:176-185 | the region query also gets the region's GADM id (`null` for an empty code) and a tenth of the tolerance |
| ServiceV2.Adm2Params | src/services/cartoDBServiceV2.ts:199-209 | the district query also gets both GADM ids (`null` for an empty code) and a hundredth of the tolerance |
| ServiceV2.UseParams | src/services/cartoDBServiceV2.ts:224-230 | the land-use queries get exactly the table, the polygon id as `pid` and the period bounds |
| ServiceV2.WdpaParams | src/services/cartoDBServiceV2.ts:260-265 | the protected-area queries get exactly the WDPA id and the period bounds |
| ServiceV2.GetAdm0 | src/services/cartoDBServiceV2.ts:152-172 | the first country row with the raw period, the code as `id` and the links, or `null` without rows |
| ServiceV2.GetAdm1 | src/services/cartoDBServiceV2.ts:174-195 | the same for a region, with the region id |
| ServiceV2.GetAdm2 | src/services/cartoDBServiceV2.ts:197-219 | the same for a district, with the district id |
| ServiceV2.Adm1RecordNamesRegion | src/services/cartoDBServiceV2.ts:174-195 | a region record's `id` gives back the requested region code |
| ServiceV2.GetUse | src/services/cartoDBServiceV2.ts:222-256 | loss rows with id, label and links; else the area row with id and loss 0; else the geostore's `area_ha` with loss 0; `null` exactly when all three are missing |
| ServiceV2.GetWdpa | src/services/cartoDBServiceV2.ts:258-291 | the same cascade for a protected area, with the raw period |
| ServiceV2.GetWorld | src/services/cartoDBServiceV2.ts:293-301 | the world outcome of the stored GeoJSON, or NotFound when the geostore or its GeoJSON is missing |
| ServiceV2.Latest | src/services/cartoDBServiceV2.ts:325-333 | the latest-date rows, with `null` exactly when there are none |
| ServiceV2App.LevelUpdates | app/src/services/cartoDBServiceV2.js:149-152 | the four assignments of a JavaScript level record, `area_ha` onto itself first |
| ServiceV2App.GetAdm0 | app/src/services/cartoDBServiceV2.js:135-156 | as the TypeScript record, with `area_ha` also copied onto itself |
| ServiceV2App.GetAdm1 | app/src/services/cartoDBServiceV2.js:158-180 | the same for a region |
| ServiceV2App.GetAdm2 | app/src/services/cartoDBServiceV2.js:182-205 | the same for a district |
| ServiceV2App.AreaCopyOnlyDifference | app/src/services/cartoDBServiceV2.js:135-156 | the JavaScript level record is the TypeScript one plus an `area_ha` key holding the row's value |
| ServiceV2App.GetUse | app/src/services/cartoDBServiceV2.js:208-242 | TypeError whenever loss rows exist; the area row with loss 0 otherwise; ReferenceError when both are empty; never `null` |
| ServiceV2App.GetWdpa | app/src/services/cartoDBServiceV2.js:244-277 | the loss and area branches match the TypeScript service; a ReferenceError when both are empty |
| ServiceV2App.GetWorldWithGeojson | app/src/services/cartoDBServiceV2.js:289-310 | the V2 world outcome; the area argument is ignored |
| ServiceV2App.GetWorld | app/src/services/cartoDBServiceV2.js:279-287 | the V2 world outcome of the stored GeoJSON, or NotFound |
| ServiceV1.NationalParams | src/services/cartoDBService.ts:135-140 | the country query gets exactly the country and the period bounds, with no tolerance |
| ServiceV1.SubnationalParams | src/services/cartoDBService.ts:162-168 | the region query gets the raw region code, not a GADM id |
| ServiceV1.UseParams | src/services/cartoDBService.ts:189-195 | the land-use query gets exactly the table, the polygon id as `pid` and the period bounds |
| ServiceV1.WdpaParams | src/services/cartoDBService.ts:217-222 | the protected-area query gets exactly the WDPA id and the period bounds |
| ServiceV1.Gate | src/services/cartoDBService.ts:146-157 | `null` without a geostore; its `areaHa` alone without rows; otherwise the first row with that area, the label and the V1 links |
| ServiceV1.GetNational | src/services/cartoDBService.ts:133-158 | the country record under the geostore gate |
| ServiceV1.GetSubnational | src/services/cartoDBService.ts:160-185 | the region record under the geostore gate |
| ServiceV1.GetUse | src/services/cartoDBService.ts:187-213 | the land-use record under the gate: geostore looked up by name, loss by table |
| ServiceV1.GetWdpa | src/services/cartoDBService.ts:215-240 | the protected-area record under the gate |
| ServiceV1.NationalLabels | src/services/cartoDBService.ts:86-102 | a one-day period is labelled "Past 24 hours"; an unparsable one, or one without an end, "Past week" |
| ServiceV1.GetWorld | src/services/cartoDBService.ts:242-250 | the V1 world outcome of the stored GeoJSON, or NotFound |
| ServiceV1.LatestParams | src/services/cartoDBService.ts:275-280 | the latest query gets exactly `limit`, a number or NaN |
| ServiceV1.DefaultLimit | src/services/cartoDBService.ts:275-287 | without a limit the query gets the number 3 |
| ServiceV1.WrittenLimit | src/services/cartoDBService.ts:275-287 | the limit sent is the number written, whatever non-digit text follows it |
| ServiceV1.JunkLimit | src/services/cartoDBService.ts:275-287 | a limit without any digit is sent as NaN |
| ServiceV1.Latest | src/services/cartoDBService.ts:275-287 | the rows of the latest query with the parsed limit, even when there are none |
| ServiceV1App.GetWorldWithGeojson | app/src/services/cartoDBService.js:250-271 | no area query: `null` without `rows`, TypeError on an empty row list, else the first row with the area and the V1 links |
| ServiceV1App.AreaPrecedence | app/src/services/cartoDBService.js:250-271 | a truthy area from the caller wins; otherwise the loss row's area is kept and materialised as a key |
| ServiceV1App.GetWorld | app/src/services/cartoDBService.js:240-248 | the stored GeoJSON, with the geostore's `areaHa` handed on, or NotFound |
| ServiceV1App.LatestParams | app/src/services/cartoDBService.js:273-285 | exactly one `limit` member: the raw string, or the number 3 exactly when none is given |
| ServiceV1App.Latest | app/src/services/cartoDBService.js:273-285 | the rows of the latest query with the unparsed limit |
| Routes.UseTable | src/routes/guiraLossV1.router.ts:40-75 | a known name maps to its `gfw_` table and any other name to itself; the table is empty exactly when the name is |
| Routes.UseV1 | src/routes/guiraLossV1.router.ts:40-75 | 404 "Name not found" exactly for an empty name; otherwise the service is called with the name and its table |
| Routes.UseLegacyV1 | app/src/routes/api/v1/guiraLossRouter.js:28-53 | the four known names call the service; every other name throws a ReferenceError, and the 404 is never reached |
| Routes.UseV2 | src/routes/guiraLossV2.router.ts:39-55 | 404 exactly for an empty name; otherwise the name is the table |
| Routes.UseTablesAgree | app/src/routes/api/v2/guiraLoss.router.js:34-43 | the V1 and V2 tables agree exactly for names outside the known four |
| Routes.WorldV1 | src/routes/guiraLossV1.router.ts:89-109 | 400 without a truthy geostore parameter; otherwise the world outcome, or 404 "Geostore not found" |
| Routes.WorldV2 | src/routes/guiraLossV2.router.ts:69-87 | the same for V2 |
| Routes.AppWorldV1 | app/src/routes/api/v1/guiraLoss.router.js:63-77 | the same for the JavaScript V1 routers, with the geostore's area |
| Routes.AppWorldV2 | app/src/routes/api/v2/guiraLoss.router.js:51-65 | the same for the JavaScript V2 router |
| Routes.WorldWithGeojson | src/routes/guiraLossV1.router.ts:130-149 | 400 without a truthy `geojson`; a failing check is rethrown; otherwise the world outcome of the wrapped GeoJSON |
| Routes.AppWorldWithGeojsonV1 | app/src/routes/api/v1/guiraLossRouter.js:95-110 | the same, with the service handed a `null` area |
| Routes.AppWorldWithGeojsonV2 | app/src/routes/api/v2/guiraLoss.router.js:85-100 | the same for the JavaScript V2 router |

## Left out

- Network I/O: the calls to the SQL store and to the geostore service, and their failures. Each is a function of its arguments in `Env`.
- The SQL templates and their meaning. A template is named by a `Query` key, and one key stands for the template of both languages in a generation.
- Mustache rendering, `encodeURIComponent` and `JSON.stringify`: abstract functions. A rendering error is folded into encoding failing, since both are caught by the same handler.
- The default period built from today's date: callers always pass the period, because the clock is outside the model.
- Date parsing: `dayDiff` is an abstract function of the two date strings, and NaN is `None`. A missing end is not handed to it: `new Date(undefined)` is always NaN, so the model labels such a period "Past week" itself.
- Floating-point arithmetic: numbers are `real`, and NaN is a separate value.
- Text.ToLower: lowers ASCII letters only, because Unicode case mapping is not modelled.
- Text.ParseIntOfDecimal: stated for non-negative numbers; a leading minus sign is covered separately by Text.NegativeParse.
- String indices count Unicode scalar values rather than UTF-16 code units, because Dafny strings are sequences of characters.
- The serializers, the Koa middleware, validation of the API key, caching and logging: they do not decide what the services compute.
- In-place assignment on a row is modelled as a map update on a copy. Aliasing of the store's row object is not modelled.
- The router handlers `getNational`, `getSubnational`, `wdpa`, `latest` and `getAdm0`/`getAdm1`/`getAdm2` only forward their parameters to the service, so they are not modelled separately.
- Gadm.Adm2Injective: stated within one region only; across regions two districts can share an id when the codes contain dots (`Gadm.Adm2Collision`). The routers do not check that the codes are integers.
- Routes.UseV1: models the service call a request turns into (`UseCall`), not its composition with `ServiceV1.GetUse`.
- ServiceV2.Latest: the JavaScript V2 `latest` sends no parameters, modelled as the empty map. Its check that `data` itself is truthy is not modelled, because the store answer is always an object.

## Findings

| source | as written | input that shows it | evidently intended | confidence | as-written member | corrected member |
|---|---|---|---|---|---|---|
| app/src/services/cartoDBServiceV2.js:222 | the label comes from `this.getPeriodText`, which the class does not define | any land-use request whose loss query returns a row | the module-level period label, as in the TypeScript copy | high, not executed | ServiceV2App.GetUse | ServiceV2.GetUse |
| app/src/services/cartoDBServiceV2.js:233 | the geostore fallback passes `useName`, which is never declared | a land-use request whose loss and area queries both return no rows | look up the geostore by `useTable` and `id` | high, not executed | ServiceV2App.GetUse | ServiceV2.GetUse |
| app/src/services/cartoDBServiceV2.js:268 | the protected-area fallback calls the land-use lookup with the undeclared `useName` | a WDPA request whose loss and area queries both return no rows | look up the geostore by the WDPA id | high, not executed | ServiceV2App.GetWdpa | ServiceV2.GetWdpa |
| app/src/routes/api/v1/guiraLossRouter.js:44-45 | under strict mode, the default branch assigns to the undeclared `tableName` | a `use` request for the name "plantations" | use the name as the table (`useTable`), as the TypeScript router does | high, not executed | Routes.UseLegacyV1 | Routes.UseV1 |
