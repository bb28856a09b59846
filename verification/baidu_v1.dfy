/**
  The legacy Baidu Maps geocoder (`BaiduV1`): endpoint `/geocoder`, credential
  parameter `key`, a single `result` object in the response, and a status that
  is either a string or the integer 1.
 */
module BaiduV1 {
  import opened Wrappers
  import opened PyJson
  import opened StatusTable
  import opened Adapter

  const ServerError := "Server internal error."
  const InvalidKey := "Invalid key."
  const InvalidParameters := "INVALID PARAMETERS."
  const UnknownError := "Unknown error."

  /** The endpoint, built from the configured scheme at construction: the scheme comes first, and the fixed host path adds no `?`. */
  function Api(scheme: string): (url: string)
    ensures |url| > |scheme| && url[..|scheme|] == scheme
    ensures '?' in url <==> '?' in scheme
  {
    var url := scheme + "://api.map.baidu.com/geocoder";
    assert url[..|scheme|] == scheme;
    url
  }

  // ---------------------------------------------------------------------------
  // Requests

  /** The parameters `geocode` sends: address, output and key, and city only when one is given. */
  function GeocodeParams(cfg: Config, query: string, city: Option<string>,
                         interpolate: (string, string) -> string): (params: map<string, string>)
    ensures params.Keys == {"address", "output", "key"} + (if CityGiven(city) then {"city"} else {})
    ensures params["address"] == interpolate(cfg.formatString, query)
    ensures params["output"] == "json"
    ensures params["key"] == cfg.credential
    ensures "city" in params ==> params["city"] == city.value
  {
    var params := map["address" := interpolate(cfg.formatString, query), "output" := "json", "key" := cfg.credential];
    if CityGiven(city) then params["city" := city.value] else params
  }

  /** The URL `geocode` requests: the endpoint and the encoded parameters, recoverable by splitting at `?`. */
  function GeocodeUrl(cfg: Config, query: string, city: Option<string>,
                      interpolate: (string, string) -> string,
                      urlencode: map<string, string> -> string): (url: string)
    ensures '?' !in cfg.scheme ==>
      SplitAtQuery(url) == Some((Api(cfg.scheme), urlencode(GeocodeParams(cfg, query, city, interpolate))))
  {
    RequestUrl(Api(cfg.scheme), urlencode(GeocodeParams(cfg, query, city, interpolate)))
  }

  /** The parameters `reverse` sends: the coerced point, output and key; never a city or a coordtype. */
  function ReverseParams<P>(cfg: Config, query: P, coerce: P -> string): (params: map<string, string>)
    ensures params.Keys == {"location", "output", "key"}
    ensures params["location"] == coerce(query)
    ensures params["output"] == "json"
    ensures params["key"] == cfg.credential
  {
    map["location" := coerce(query), "output" := "json", "key" := cfg.credential]
  }

  /** The URL `reverse` requests, on the same endpoint as `geocode`. */
  function ReverseUrl<P>(cfg: Config, query: P, coerce: P -> string,
                         urlencode: map<string, string> -> string): (url: string)
    ensures '?' !in cfg.scheme ==>
      SplitAtQuery(url) == Some((Api(cfg.scheme), urlencode(ReverseParams(cfg, query, coerce))))
  {
    RequestUrl(Api(cfg.scheme), urlencode(ReverseParams(cfg, query, coerce)))
  }

  /**
    Records the determinism of the request parameters: they depend on the credential and
    the format string only. This holds by construction of the model, whose functions read
    nothing else.
   */
  lemma ParamsIgnoreTransport<P>(a: Config, b: Config, query: string, city: Option<string>, point: P,
                                 interpolate: (string, string) -> string, coerce: P -> string)
    requires a.credential == b.credential && a.formatString == b.formatString
    ensures GeocodeParams(a, query, city, interpolate) == GeocodeParams(b, query, city, interpolate)
    ensures ReverseParams(a, point, coerce) == ReverseParams(b, point, coerce)
  {
  }

  // ---------------------------------------------------------------------------
  // Status check

  /** `_check_status`: silent exactly for "OK"; three specific errors; every other status is an unknown error. */
  function CheckStatus(status: Json): (r: Check)
    ensures r == Silent <==> EqualsStr(status, "OK")
    ensures r == QueryError(ServerError) <==> EqualsInt(status, 1)
    ensures r == QueryError(InvalidKey) <==> EqualsStr(status, "INVILID_KEY")
    ensures r == QueryError(InvalidParameters) <==> EqualsStr(status, "INVALID_PARAMETERS")
    ensures r == QueryError(UnknownError) <==>
      !EqualsStr(status, "OK") && !EqualsInt(status, 1)
      && !EqualsStr(status, "INVILID_KEY") && !EqualsStr(status, "INVALID_PARAMETERS")
  {
    if EqualsStr(status, "OK") then Silent
    else if EqualsInt(status, 1) then QueryError(ServerError)
    else if EqualsStr(status, "INVILID_KEY") then QueryError(InvalidKey)
    else if EqualsStr(status, "INVALID_PARAMETERS") then QueryError(InvalidParameters)
    else QueryError(UnknownError)
  }

  /** The status codes as an explicit table; the provider's misspelling is kept. */
  const StatusCodes: seq<Entry> := [
    Entry(StrLit("OK"), Silent),
    Entry(IntLit(1), QueryError(ServerError)),
    Entry(StrLit("INVILID_KEY"), QueryError(InvalidKey)),
    Entry(StrLit("INVALID_PARAMETERS"), QueryError(InvalidParameters))
  ]

  /** The `if`/`elif` chain classifies every status exactly as the table does. */
  lemma CheckStatusIsTable(status: Json)
    ensures CheckStatus(status) == Classify(StatusCodes, status, QueryError(UnknownError))
  {
    if EqualsStr(status, "OK") {
      assert FirstMatch(StatusCodes, status, 0);
    } else if EqualsInt(status, 1) {
      assert FirstMatch(StatusCodes, status, 1);
    } else if EqualsStr(status, "INVILID_KEY") {
      assert FirstMatch(StatusCodes, status, 2);
    } else if EqualsStr(status, "INVALID_PARAMETERS") {
      assert FirstMatch(StatusCodes, status, 3);
    } else {
      assert NoMatch(StatusCodes, status);
    }
  }

  /** Statuses near the table's keys that still fall through to "Unknown error.", and Python's `True == 1`. */
  lemma CheckStatusEdgeCases()
    ensures CheckStatus(JStr("INVALID_KEY")) == QueryError(UnknownError)
    ensures CheckStatus(JStr("1")) == QueryError(UnknownError)
    ensures CheckStatus(JNull) == QueryError(UnknownError)
    ensures CheckStatus(JInt(0)) == QueryError(UnknownError)
    ensures CheckStatus(JReal(1.0)) == QueryError(ServerError)
    ensures CheckStatus(JBool(true)) == QueryError(ServerError)
  {
  }

  // ---------------------------------------------------------------------------
  // Response parsing

  /** `response.get('result', [])`. */
  function ResultField(response: map<string, Json>): Json {
    GetOr(response, "result", JArr([]))
  }

  /** `response.get('status')`. */
  function StatusField(response: map<string, Json>): Json {
    GetOr(response, "status", JNull)
  }

  /**
    The responses `_parse_json` handles without a Python exception: `len` applies to
    the result field, and a non-empty result is an object with a `location` holding
    `lat` and `lng`.
   */
  predicate Parsable(response: map<string, Json>) {
    var result := ResultField(response);
    && Len(result).Some?
    && (Len(result).value > 0 ==>
          result.JObj? && "location" in result.fields && HasLatLng(result.fields["location"]))
  }

  /**
    `_parse_json`: an empty result yields None when the status is "OK" and raises the
    status's error otherwise; a non-empty result yields a Location built from the
    inner result object.
   */
  function ParseJson(response: map<string, Json>, toFloat: Json -> real): (r: Result<Option<Location>, string>)
    requires Parsable(response)
    ensures Len(ResultField(response)) == Some(0) ==>
      (r == Success(None) <==> EqualsStr(StatusField(response), "OK"))
    ensures Len(ResultField(response)) == Some(0) ==>
      (r.Failure? <==> !EqualsStr(StatusField(response), "OK"))
    ensures r.Failure? ==>
      Len(ResultField(response)) == Some(0) && CheckStatus(StatusField(response)) == QueryError(r.error)
    ensures Len(ResultField(response)) != Some(0) ==> r.Success? && r.value.Some?
    ensures r.Success? && r.value.Some? ==>
      var result := ResultField(response);
      var loc := r.value.value;
      var point := result.fields["location"].fields;
      && loc.raw == result
      && loc.address == GetOr(result.fields, "formatted_address", JNull)
      && (loc.latitude, loc.longitude) == ReadPoint(point["lat"], point["lng"], toFloat)
  {
    var result := ResultField(response);
    if Len(result).value == 0 then
      match CheckStatus(StatusField(response))
      case Silent => Success(None)
      case QueryError(message) => Failure(message)
    else
      var inner := result.fields;
      var point := inner["location"].fields;
      var p := ReadPoint(point["lat"], point["lng"], toFloat);
      Success(Some(Location(GetOr(inner, "formatted_address", JNull), p.0, p.1, result)))
  }
}
