/**
  What the two Baidu adapters share: their configuration, the normalized
  Location triple, the joining of an endpoint and an encoded query string into a
  request URL, and the per-axis reading of a `{lat, lng}` object.

  The foreign helpers the adapters call are parameters of the functions that
  use them: `format_string % query` is `interpolate`, the point coercion is
  `coerce`, `urlencode` is `urlencode`, and `float(...)` is `toFloat`.
 */
module Adapter {
  import opened Wrappers
  import opened PyJson

  /** Per-instance configuration, fixed at construction. */
  datatype Config = Config(
    credential: string,
    formatString: string,
    scheme: string,
    timeout: int,
    proxies: map<string, string>)

  /** The normalized result: address label, (latitude, longitude) and the raw payload. */
  datatype Location = Location(address: Json, latitude: Json, longitude: Json, raw: Json)

  /** Python's `if city:` for the optional city argument. */
  predicate CityGiven(city: Option<string>) {
    city.Some? && |city.value| > 0
  }

  /** Index of the first occurrence of `c` in `s`, if any. */
  function IndexOf(s: string, c: char): (r: Option<nat>)
    ensures r.Some? ==> r.value < |s| && s[r.value] == c
    ensures r.Some? ==> forall j :: 0 <= j < r.value ==> s[j] != c
    ensures r.None? ==> c !in s
  {
    if |s| == 0 then None
    else if s[0] == c then Some(0)
    else
      match IndexOf(s[1..], c)
      case None => assert s == [s[0]] + s[1..]; None
      case Some(i) => Some(i + 1)
  }

  /** Splits a URL at its first `?` into endpoint and query string. */
  function SplitAtQuery(url: string): Option<(string, string)> {
    match IndexOf(url, '?')
    case None => None
    case Some(i) => Some((url[..i], url[i + 1..]))
  }

  /** The request URL: endpoint, `?`, encoded parameters. The split is its inverse. */
  function RequestUrl(api: string, query: string): (url: string)
    ensures |url| == |api| + 1 + |query|
    ensures '?' !in api ==> SplitAtQuery(url) == Some((api, query))
  {
    var url := api + "?" + query;
    SplitJoin(api, query);
    url
  }

  lemma {:induction false} SplitJoin(api: string, query: string)
    ensures '?' !in api ==> SplitAtQuery(api + "?" + query) == Some((api, query))
  {
    if '?' !in api {
      var url := api + "?" + query;
      assert url[|api|] == '?';
      assert forall j :: 0 <= j < |api| ==> url[j] == api[j];
      assert IndexOf(url, '?') == Some(|api|);
      assert url[..|api|] == api;
      assert url[|api| + 1..] == query;
    }
  }

  /** Python's `x or None` on each axis, then `float` on both when both are truthy. */
  function ReadPoint(lat: Json, lng: Json, toFloat: Json -> real): (p: (Json, Json))
    ensures p.0 == JNull <==> !Truthy(lat)
    ensures p.1 == JNull <==> !Truthy(lng)
    ensures Truthy(lat) && Truthy(lng) ==> p == (JReal(toFloat(lat)), JReal(toFloat(lng)))
    ensures Truthy(lat) && !Truthy(lng) ==> p.0 == lat
    ensures !Truthy(lat) && Truthy(lng) ==> p.1 == lng
  {
    var latitude := OrNone(lat);
    var longitude := OrNone(lng);
    if Truthy(latitude) && Truthy(longitude) then
      (JReal(toFloat(latitude)), JReal(toFloat(longitude)))
    else
      (latitude, longitude)
  }

  /** The axes are read independently: a falsy latitude beside a truthy longitude gives a mixed pair. */
  lemma MixedPairPossible(toFloat: Json -> real)
    ensures ReadPoint(JInt(0), JInt(5), toFloat) == (JNull, JInt(5))
    ensures ReadPoint(JReal(39.9), JNull, toFloat) == (JReal(39.9), JNull)
  {
  }

  /** A `location` object carries both `lat` and `lng`. */
  predicate HasLatLng(v: Json) {
    v.JObj? && "lat" in v.fields && "lng" in v.fields
  }
}
