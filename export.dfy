/** Download links: a record that maps each export format to the store's
    SQL endpoint with the rendered, URL-encoded query and that format. */
module Export {
  import opened Wrappers
  import opened Js
  import opened Collaborators
  import Text

  const V1Formats: seq<string> := ["csv", "geojson", "kml", "shp", "svg"]
  const V2Formats: seq<string> := ["csv", "json", "kml", "shp", "svg"]

  /** The aggregate projections of the first-generation templates, which
      the export form replaces by the raw rows: the short one is the sum
      and the two date bounds, the full one adds the area. */
  const SumColumn := "sum(sup) AS value, "
  const MinColumn := "MIN(date) as min_date, "
  const MaxColumn := "MAX(date) as max_date"
  const ShortProjection := SumColumn + MinColumn + MaxColumn
  const FullProjection := ShortProjection + ", area_ha"
  const RowProjection := "f.*"

  /** The first-generation export query: the first full projection, then
      the first short one, become `f.*`. */
  function ExportForm(query: string): string {
    Text.ReplaceFirst(Text.ReplaceFirst(query, FullProjection, RowProjection), ShortProjection, RowProjection)
  }

  /** Wherever the full projection occurs the short one does too. */
  lemma FullHasShort(q: string, i: nat)
    requires Text.OccursAt(q, FullProjection, i)
    ensures Text.OccursAt(q, ShortProjection, i)
  {
    var n := |ShortProjection|;
    assert FullProjection[..n] == ShortProjection;
    assert q[i..i + n] == q[i..i + |FullProjection|][..n];
  }

  /** A query without the aggregate projection is exported unchanged. */
  lemma ExportFormWithoutProjection(q: string)
    requires !Text.Contains(q, ShortProjection)
    ensures ExportForm(q) == q
  {
    if Text.Contains(q, FullProjection) {
      var i := Text.IndexOf(q, FullProjection).value;
      FullHasShort(q, i);
      assert false;
    }
  }

  /** A query with only the short projection has its first occurrence,
      and only that one, replaced. */
  lemma ExportFormShortOnly(q: string, i: nat)
    requires !Text.Contains(q, FullProjection)
    requires Text.IndexOf(q, ShortProjection) == Some(i)
    ensures ExportForm(q) == q[..i] + RowProjection + q[i + |ShortProjection|..]
  {
  }

  /** None of the characters of `f.*` occurs in the short projection. */
  predicate FreeOfRowChars(s: string) {
    forall m :: 0 <= m < |s| ==> s[m] != 'f' && s[m] != '.' && s[m] != '*'
  }

  lemma FreeConcat(a: string, b: string)
    requires FreeOfRowChars(a) && FreeOfRowChars(b)
    ensures FreeOfRowChars(a + b)
  {
    forall m | 0 <= m < |a + b|
      ensures (a + b)[m] != 'f' && (a + b)[m] != '.' && (a + b)[m] != '*'
    {
      if m < |a| {
        assert (a + b)[m] == a[m];
      } else {
        assert (a + b)[m] == b[m - |a|];
      }
    }
  }

  lemma ShortFree()
    ensures FreeOfRowChars(ShortProjection)
  {
    assert FreeOfRowChars(SumColumn);
    assert FreeOfRowChars(MinColumn);
    assert FreeOfRowChars(MaxColumn);
    FreeConcat(SumColumn, MinColumn);
    FreeConcat(SumColumn + MinColumn, MaxColumn);
  }

  /** A pattern free of `f`, `.` and `*` cannot match over one of them. */
  lemma NoMatchOverRowChar(s: string, pat: string, k: nat, c: nat)
    requires k <= c < k + |pat| <= |s|
    requires FreeOfRowChars(pat)
    requires s[c] == 'f' || s[c] == '.' || s[c] == '*'
    ensures !Text.OccursAt(s, pat, k)
  {
    assert s[k..k + |pat|][c - k] == s[c];
  }

  /** Spelt only with `f`, `.` and `*`. */
  predicate OfRowChars(s: string) {
    forall m :: 0 <= m < |s| ==> s[m] == 'f' || s[m] == '.' || s[m] == '*'
  }

  /** Putting such a spelling at `i`, in place of whatever followed, adds no
      match of a pattern free of those characters before its end. */
  lemma NoEarlyMatch(q: string, i: nat, row: string, rest: string, pat: string)
    requires i <= |q|
    requires forall j: nat :: j < i ==> !Text.OccursAt(q, pat, j)
    requires |pat| > 0 && FreeOfRowChars(pat)
    requires |row| > 0 && OfRowChars(row)
    ensures forall k: nat :: k < i + |row| ==> !Text.OccursAt(q[..i] + row + rest, pat, k)
  {
    var s := q[..i] + row + rest;
    var n := |pat|;
    forall k: nat | k < i + |row|
      ensures !Text.OccursAt(s, pat, k)
    {
      if k + n <= |s| {
        if k + n <= i {
          assert s[k..k + n] == q[k..k + n];
          assert !Text.OccursAt(q, pat, k);
        } else {
          var c := if k <= i then i else k;
          assert s[c] == row[c - i];
          NoMatchOverRowChar(s, pat, k, c);
        }
      }
    }
  }

  /** After the full projection at `i` became `f.*`, the short projection
      starts nowhere before the end of `f.*`, since the first one was at `i`. */
  lemma NoShortBeforeRow(q: string, i: nat)
    requires Text.IndexOf(q, FullProjection) == Some(i)
    requires Text.IndexOf(q, ShortProjection) == Some(i)
    ensures var p := q[..i] + RowProjection;
            Text.NoMatchBefore(p + q[i + |FullProjection|..], ShortProjection, |p|)
  {
    var rest := q[i + |FullProjection|..];
    ShortFree();
    assert OfRowChars(RowProjection);
    NoEarlyMatch(q, i, RowProjection, rest, ShortProjection);
  }

  /** A query with the full projection, and no short one before it, has
      it replaced by `f.*`; the second rewrite then only acts after it. */
  lemma ExportFormFull(q: string, i: nat)
    requires Text.IndexOf(q, FullProjection) == Some(i)
    requires Text.IndexOf(q, ShortProjection) == Some(i)
    ensures i + |FullProjection| <= |q|
    ensures ExportForm(q) == q[..i] + RowProjection
                             + Text.ReplaceFirst(q[i + |FullProjection|..], ShortProjection, RowProjection)
  {
    var p := q[..i] + RowProjection;
    var rest := q[i + |FullProjection|..];
    Text.ReplaceAtIndex(q, FullProjection, RowProjection, i);
    NoShortBeforeRow(q, i);
    Text.ReplaceAfter(p, rest, ShortProjection, RowProjection);
  }

  /** One download link. */
  function FormatUrl(apiUrl: string, q: string, format: string): string {
    apiUrl + "?q=" + q + "&format=" + format
  }

  /** The encoded query a link for `format` carries. */
  function QueryOfUrl(apiUrl: string, format: string, url: string): Option<string> {
    var head := apiUrl + "?q=";
    var tail := "&format=" + format;
    if |url| >= |head| + |tail| && url[..|head|] == head && url[|url| - |tail|..] == tail
    then Some(url[|head|..|url| - |tail|])
    else None
  }

  lemma QueryOfFormatUrl(apiUrl: string, q: string, format: string)
    ensures QueryOfUrl(apiUrl, format, FormatUrl(apiUrl, q, format)) == Some(q)
  {
    var head := apiUrl + "?q=";
    var tail := "&format=" + format;
    var url := FormatUrl(apiUrl, q, format);
    assert url == head + q + tail;
    assert url[..|head|] == head;
    assert url[|url| - |tail|..] == tail;
    assert url[|head|..|url| - |tail|] == q;
  }

  /** The download record for the encoded query `q`: one link per format. */
  function DownloadObject(apiUrl: string, q: string, formats: seq<string>): (d: Props)
    ensures d.Keys == set f | f in formats
  {
    map f | f in formats :: Str(FormatUrl(apiUrl, q, f))
  }

  /** Fill the download record format by format. */
  method FillDownloads(apiUrl: string, q: string, formats: seq<string>) returns (download: Props)
    ensures download == DownloadObject(apiUrl, q, formats)
  {
    download := map[];
    for i := 0 to |formats|
      invariant download == DownloadObject(apiUrl, q, formats[..i])
    {
      assert formats[..i + 1] == formats[..i] + [formats[i]];
      download := download[formats[i] := Str(FormatUrl(apiUrl, q, formats[i]))];
    }
    assert formats[..|formats|] == formats;
  }

  /** The first-generation `getDownloadUrls`: `undefined` when rendering
      or encoding fails (the error is caught and logged). */
  function UrlsV1(env: Env, query: Query, params: Props): JsValue {
    match env.encode(ExportForm(env.render(query, params)))
    case None => Undefined
    case Some(q) => Obj(DownloadObject(env.apiUrl, q, V1Formats))
  }

  /** The second-generation `getDownloadUrls`: the rendered query as is. */
  function UrlsV2(env: Env, query: Query, params: Props): JsValue {
    match env.encode(env.render(query, params))
    case None => Undefined
    case Some(q) => Obj(DownloadObject(env.apiUrl, q, V2Formats))
  }

  function Urls(generation: Generation, env: Env, query: Query, params: Props): JsValue {
    match generation
    case V1 => UrlsV1(env, query, params)
    case V2 => UrlsV2(env, query, params)
  }

  method GetDownloadUrlsV1(env: Env, query: Query, params: Props) returns (r: JsValue)
    ensures r == UrlsV1(env, query, params)
  {
    var queryFinal := env.render(query, params);
    queryFinal := Text.ReplaceFirst(queryFinal, FullProjection, RowProjection);
    queryFinal := Text.ReplaceFirst(queryFinal, ShortProjection, RowProjection);
    var encoded := env.encode(queryFinal);
    if encoded.None? {
      return Undefined;
    }
    var download := FillDownloads(env.apiUrl, encoded.value, V1Formats);
    return Obj(download);
  }

  method GetDownloadUrlsV2(env: Env, query: Query, params: Props) returns (r: JsValue)
    ensures r == UrlsV2(env, query, params)
  {
    var queryFinal := env.render(query, params);
    var encoded := env.encode(queryFinal);
    if encoded.None? {
      return Undefined;
    }
    var download := FillDownloads(env.apiUrl, encoded.value, V2Formats);
    return Obj(download);
  }

  /** A download record has exactly one link per format of its generation,
      and every link carries the same encoded export query. */
  lemma UrlsShape(generation: Generation, env: Env, query: Query, params: Props)
    ensures var rendered := env.render(query, params);
            var exported := if generation == V1 then ExportForm(rendered) else rendered;
            var formats := if generation == V1 then V1Formats else V2Formats;
            var r := Urls(generation, env, query, params);
            && (r == Undefined <==> env.encode(exported).None?)
            && (r != Undefined ==>
                  && r.Obj?
                  && r.props.Keys == set f | f in formats
                  && forall f :: f in r.props ==>
                       r.props[f].Str? && QueryOfUrl(env.apiUrl, f, r.props[f].s) == env.encode(exported))
  {
    var rendered := env.render(query, params);
    var exported := if generation == V1 then ExportForm(rendered) else rendered;
    var formats := if generation == V1 then V1Formats else V2Formats;
    match env.encode(exported)
    case None =>
    case Some(q) =>
      forall f | f in formats
        ensures QueryOfUrl(env.apiUrl, f, FormatUrl(env.apiUrl, q, f)) == Some(q)
      {
        QueryOfFormatUrl(env.apiUrl, q, f);
      }
  }

  lemma FormatSetsDiffer()
    ensures (set f | f in V1Formats) - (set f | f in V2Formats) == {"geojson"}
    ensures (set f | f in V2Formats) - (set f | f in V1Formats) == {"json"}
  {
    var v1, v2 := set f | f in V1Formats, set f | f in V2Formats;
    assert v1 == {"csv", "geojson", "kml", "shp", "svg"};
    assert v2 == {"csv", "json", "kml", "shp", "svg"};
  }

  /** The two generations offer the same formats but one: `geojson` in the
      first, `json` in the second. */
  lemma FormatsDiffer(env: Env, query: Query, params: Props)
    requires UrlsV1(env, query, params).Obj? && UrlsV2(env, query, params).Obj?
    ensures UrlsV1(env, query, params).props.Keys - UrlsV2(env, query, params).props.Keys == {"geojson"}
    ensures UrlsV2(env, query, params).props.Keys - UrlsV1(env, query, params).props.Keys == {"json"}
  {
    FormatSetsDiffer();
  }

  /** For a query without the aggregate projection both generations give
      the same links for the formats they share. */
  lemma SameLinksWithoutProjection(env: Env, query: Query, params: Props)
    requires !Text.Contains(env.render(query, params), ShortProjection)
    ensures UrlsV1(env, query, params).Obj? <==> UrlsV2(env, query, params).Obj?
    ensures UrlsV1(env, query, params).Obj? ==>
              forall f :: f in UrlsV1(env, query, params).props && f in UrlsV2(env, query, params).props ==>
                UrlsV1(env, query, params).props[f] == UrlsV2(env, query, params).props[f]
  {
    ExportFormWithoutProjection(env.render(query, params));
  }
}
