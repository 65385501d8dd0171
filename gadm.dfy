/** GADM identifiers of the three administrative levels, and the polygon
    simplification tolerance chosen by country and level. */
module Gadm {
  import opened Wrappers
  import opened Js

  /** The identifiers of a country, a region and a district.  A level that
      was not asked for is `null`. */
  datatype Gid = Gid(adm0: string, adm1: JsValue, adm2: JsValue)

  /** Truthiness of an optional route parameter. */
  predicate Given(id: Option<string>) {
    id.Some? && id.value != ""
  }

  /** A route parameter interpolated into a template literal. */
  function Interpolated(id: Option<string>): string {
    if id.Some? then id.value else "undefined"
  }

  function Adm1Gid(adm0: string, id1: string): string {
    adm0 + "." + id1 + "_1"
  }

  function Adm2Gid(adm0: string, id1: string, id2: string): string {
    adm0 + "." + id1 + "." + id2 + "_1"
  }

  /** `routeToGid`: the region identifier is built only when the region is
      given, the district identifier only when the district is given, and
      the district identifier embeds the raw region code. */
  function RouteToGid(adm0: string, adm1: Option<string>, adm2: Option<string>): (g: Gid)
    ensures g.adm0 == adm0
    ensures g.adm1 == Null <==> !Given(adm1)
    ensures Given(adm1) ==> g.adm1 == Str(Adm1Gid(adm0, adm1.value))
    ensures g.adm2 == Null <==> !Given(adm2)
    ensures Given(adm2) ==> g.adm2 == Str(Adm2Gid(adm0, Interpolated(adm1), adm2.value))
  {
    Gid(adm0,
        if Given(adm1) then Str(adm0 + "." + adm1.value + "_1") else Null,
        if Given(adm2) then Str(adm0 + "." + Interpolated(adm1) + "." + adm2.value + "_1") else Null)
  }

  /** The region code inside a region identifier of country `adm0`. */
  function Adm1Code(adm0: string, gid: string): Option<string> {
    var n := |adm0|;
    if |gid| >= n + 3 && gid[..n + 1] == adm0 + "." && gid[|gid| - 2..] == "_1"
    then Some(gid[n + 1..|gid| - 2])
    else None
  }

  /** The district code inside a district identifier, for a known country
      and region code. */
  function Adm2Code(adm0: string, id1: string, gid: string): Option<string> {
    var prefix := adm0 + "." + id1 + ".";
    var n := |prefix|;
    if |gid| >= n + 2 && gid[..n] == prefix && gid[|gid| - 2..] == "_1"
    then Some(gid[n..|gid| - 2])
    else None
  }

  /** The region identifier determines the region code. */
  lemma Adm1RoundTrip(adm0: string, id1: string)
    ensures Adm1Code(adm0, Adm1Gid(adm0, id1)) == Some(id1)
  {
    var gid := Adm1Gid(adm0, id1);
    var n := |adm0|;
    assert gid[..n + 1] == adm0 + ".";
    assert gid[|gid| - 2..] == "_1";
    assert gid[n + 1..|gid| - 2] == id1;
  }

  lemma Adm2RoundTrip(adm0: string, id1: string, id2: string)
    ensures Adm2Code(adm0, id1, Adm2Gid(adm0, id1, id2)) == Some(id2)
  {
    var prefix := adm0 + "." + id1 + ".";
    var gid := Adm2Gid(adm0, id1, id2);
    assert gid == prefix + id2 + "_1";
    var n := |prefix|;
    assert gid[..n] == prefix;
    assert gid[|gid| - 2..] == "_1";
    assert gid[n..|gid| - 2] == id2;
  }

  /** Two regions of one country never share an identifier. */
  lemma Adm1Injective(adm0: string, x: Option<string>, y: Option<string>)
    requires Given(x) && Given(y)
    requires RouteToGid(adm0, x, None).adm1 == RouteToGid(adm0, y, None).adm1
    ensures x == y
  {
    Adm1RoundTrip(adm0, x.value);
    Adm1RoundTrip(adm0, y.value);
  }

  /** Two districts of one region never share an identifier. */
  lemma Adm2Injective(adm0: string, id1: Option<string>, x: Option<string>, y: Option<string>)
    requires Given(x) && Given(y)
    requires RouteToGid(adm0, id1, x).adm2 == RouteToGid(adm0, id1, y).adm2
    ensures x == y
  {
    Adm2RoundTrip(adm0, Interpolated(id1), x.value);
    Adm2RoundTrip(adm0, Interpolated(id1), y.value);
  }

  /** Across regions the district identifier is ambiguous: region "1.2"
      with district "3" and region "1" with district "2.3" share one. */
  lemma Adm2Collision()
    ensures RouteToGid("BRA", Some("1.2"), Some("3")).adm2 == RouteToGid("BRA", Some("1"), Some("2.3")).adm2
    ensures RouteToGid("BRA", Some("1.2"), Some("3")).adm2 == Str("BRA.1.2.3_1")
  {
  }

  /** The district identifier keeps the raw region code: for Brazil,
      region 1 and district 2 it is "BRA.1.2_1". */
  lemma BrazilDistrictExample()
    ensures RouteToGid("BRA", Some("1"), Some("2")) == Gid("BRA", Str("BRA.1_1"), Str("BRA.1.2_1"))
  {
  }

  /** A district asked for without its region embeds the word "undefined". */
  lemma DistrictWithoutRegion(adm0: string, id2: string)
    requires id2 != ""
    ensures RouteToGid(adm0, None, Some(id2)).adm2 == Str(adm0 + ".undefined." + id2 + "_1")
  {
  }

  const BigCountries: seq<string> := ["USA", "RUS", "CAN", "CHN", "BRA", "IDN"]

  const DefaultTolerance: real := 0.005
  const BigCountryTolerance: real := 0.05

  /** `getSimplify`: the coarse tolerance for the six largest countries,
      the fine one for every other code, empty included. */
  function GetSimplify(iso: string): (t: real)
    ensures t == BigCountryTolerance <==> iso in BigCountries
    ensures t == DefaultTolerance <==> iso !in BigCountries
  {
    if iso != "" && iso in BigCountries then BigCountryTolerance else DefaultTolerance
  }

  /** The tolerance shrinks tenfold at each level below the country. */
  function Tolerance(iso: string, level: nat): real
    requires level <= 2
  {
    if level == 0 then GetSimplify(iso)
    else if level == 1 then GetSimplify(iso) / 10.0
    else GetSimplify(iso) / 100.0
  }
}
