/**
  The current Baidu Maps geocoder (`BaiduV2`): endpoint `/geocoder/v2/`,
  credential parameter `ak`, a `coordtype` on reverse lookups, a `results`
  field in the response, and a purely numeric status.
 */
module BaiduV2 {
  import opened Wrappers
  import opened PyJson
  import opened StatusTable
  import opened Adapter

  const ServerError := "Server internal error."
  const InvalidRequest := "Invalid request."
  const PermissionFailed := "Permission validation failed."
  const QuotaFailed := "Quota validation failed."
  const InvalidAk := "Invalid ak."
  const ServiceDisabled := "Service disabled."
  const WhitelistFailed := "Failed to pass the whitelist or wrong security code."
  const UnknownError := "Unknown error."

  /** The endpoint, built from the configured scheme at construction: the scheme comes first, and the fixed host path adds no `?`. */
  function Api(scheme: string): (url: string)
    ensures |url| > |scheme| && url[..|scheme|] == scheme
    ensures '?' in url <==> '?' in scheme
  {
    var url := scheme + "://api.map.baidu.com/geocoder/v2/";
    assert url[..|scheme|] == scheme;
    url
  }

  // ---------------------------------------------------------------------------
  // Requests

  /** The parameters `geocode` sends: address, output and ak, and city only when one is given. */
  function GeocodeParams(cfg: Config, query: string, city: Option<string>,
                         interpolate: (string, string) -> string): (params: map<string, string>)
    ensures params.Keys == {"address", "output", "ak"} + (if CityGiven(city) then {"city"} else {})
    ensures params["address"] == interpolate(cfg.formatString, query)
    ensures params["output"] == "json"
    ensures params["ak"] == cfg.credential
    ensures "city" in params ==> params["city"] == city.value
  {
    var params := map["address" := interpolate(cfg.formatString, query), "output" := "json", "ak" := cfg.credential];
    if CityGiven(city) then params["city" := city.value] else params
  }

  /** The URL `geocode` requests: the endpoint and the encoded parameters, recoverable by splitting at `?`. */
  function GeocodeUrl(cfg: Config, query: string, city: Option<string>,
                      interpolate: (string, string) -> string,
                      urlencode: map<string, string> -> string): (url: string)
    ensures '?' !in cfg.scheme ==>
      SplitAtQuery(url) == Some((Api(cfg.scheme), urlencode(GeocodeParams(cfg, query, city, interpolate))))
  {
    RequestUrl(Api(cfg.scheme), urlencode(GeocodeParams(cfg, query, city, interpolate)))
  }

  /** The parameters `reverse` sends: the coerced point, the coordinate type, output and ak. */
  function ReverseParams<P>(cfg: Config, query: P, coerce: P -> string,
                            coordtype: string := "bd09ll"): (params: map<string, string>)
    ensures params.Keys == {"location", "coordtype", "output", "ak"}
    ensures params["location"] == coerce(query)
    ensures params["coordtype"] == coordtype
    ensures params["output"] == "json"
    ensures params["ak"] == cfg.credential
  {
    map["location" := coerce(query), "coordtype" := coordtype, "output" := "json", "ak" := cfg.credential]
  }


  /** The URL `reverse` requests, on the same endpoint as `geocode`. */
  function ReverseUrl<P>(cfg: Config, query: P, coerce: P -> string,
                         urlencode: map<string, string> -> string, coordtype: string := "bd09ll"): (url: string)
    ensures '?' !in cfg.scheme ==>
      SplitAtQuery(url) == Some((Api(cfg.scheme), urlencode(ReverseParams(cfg, query, coerce, coordtype))))
  {
    RequestUrl(Api(cfg.scheme), urlencode(ReverseParams(cfg, query, coerce, coordtype)))
  }

  /** Without an explicit coordinate type, `reverse` asks for "bd09ll", in its parameters and in the URL it requests. */
  lemma ReverseDefaultCoordtype<P>(cfg: Config, query: P, coerce: P -> string,
                                    urlencode: map<string, string> -> string)
    ensures ReverseParams(cfg, query, coerce)["coordtype"] == "bd09ll"
    ensures '?' !in cfg.scheme ==>
      SplitAtQuery(ReverseUrl(cfg, query, coerce, urlencode))
        == Some((Api(cfg.scheme), urlencode(ReverseParams(cfg, query, coerce, "bd09ll"))))
  {
  }

  /**
    Records the determinism of the request parameters: they depend on the credential and
    the format string only. This holds by construction of the model, whose functions read
    nothing else.
   */
  lemma ParamsIgnoreTransport<P>(a: Config, b: Config, query: string, city: Option<string>, point: P,
                                 coordtype: string, interpolate: (string, string) -> string, coerce: P -> string)
    requires a.credential == b.credential && a.formatString == b.formatString
    ensures GeocodeParams(a, query, city, interpolate) == GeocodeParams(b, query, city, interpolate)
    ensures ReverseParams(a, point, coerce, coordtype) == ReverseParams(b, point, coerce, coordtype)
  {
  }

  // ---------------------------------------------------------------------------
  // Status check

  /** The integer codes `_check_status` recognises. */
  predicate KnownCode(status: Json) {
    exists n :: n in {0, 1, 2, 3, 4, 5, 101, 102} && EqualsInt(status, n)
  }

  /** `_check_status`: silent exactly for 0; one message per known code; every other status is an unknown error. */
  function CheckStatus(status: Json): (r: Check)
    ensures r == Silent <==> EqualsInt(status, 0)
    ensures r == QueryError(ServerError) <==> EqualsInt(status, 1)
    ensures r == QueryError(InvalidRequest) <==> EqualsInt(status, 2)
    ensures r == QueryError(PermissionFailed) <==> EqualsInt(status, 3)
    ensures r == QueryError(QuotaFailed) <==> EqualsInt(status, 4)
    ensures r == QueryError(InvalidAk) <==> EqualsInt(status, 5)
    ensures r == QueryError(ServiceDisabled) <==> EqualsInt(status, 101)
    ensures r == QueryError(WhitelistFailed) <==> EqualsInt(status, 102)
    ensures r == QueryError(UnknownError) <==> !KnownCode(status)
  {
    if EqualsInt(status, 0) then Silent
    else if EqualsInt(status, 1) then QueryError(ServerError)
    else if EqualsInt(status, 2) then QueryError(InvalidRequest)
    else if EqualsInt(status, 3) then QueryError(PermissionFailed)
    else if EqualsInt(status, 4) then QueryError(QuotaFailed)
    else if EqualsInt(status, 5) then QueryError(InvalidAk)
    else if EqualsInt(status, 101) then QueryError(ServiceDisabled)
    else if EqualsInt(status, 102) then QueryError(WhitelistFailed)
    else QueryError(UnknownError)
  }

  /** The status codes as an explicit table. */
  const StatusCodes: seq<Entry> := [
    Entry(IntLit(0), Silent),
    Entry(IntLit(1), QueryError(ServerError)),
    Entry(IntLit(2), QueryError(InvalidRequest)),
    Entry(IntLit(3), QueryError(PermissionFailed)),
    Entry(IntLit(4), QueryError(QuotaFailed)),
    Entry(IntLit(5), QueryError(InvalidAk)),
    Entry(IntLit(101), QueryError(ServiceDisabled)),
    Entry(IntLit(102), QueryError(WhitelistFailed))
  ]

  /** The `if`/`elif` chain classifies every status exactly as the table does. */
  lemma CheckStatusIsTable(status: Json)
    ensures CheckStatus(status) == Classify(StatusCodes, status, QueryError(UnknownError))
  {
    if EqualsInt(status, 0) {
      assert FirstMatch(StatusCodes, status, 0);
    } else if EqualsInt(status, 1) {
      assert FirstMatch(StatusCodes, status, 1);
    } else if EqualsInt(status, 2) {
      assert FirstMatch(StatusCodes, status, 2);
    } else if EqualsInt(status, 3) {
      assert FirstMatch(StatusCodes, status, 3);
    } else if EqualsInt(status, 4) {
      assert FirstMatch(StatusCodes, status, 4);
    } else if EqualsInt(status, 5) {
      assert FirstMatch(StatusCodes, status, 5);
    } else if EqualsInt(status, 101) {
      assert FirstMatch(StatusCodes, status, 6);
    } else if EqualsInt(status, 102) {
      assert FirstMatch(StatusCodes, status, 7);
    } else {
      assert NoMatch(StatusCodes, status);
    }
  }

  /** Distinct messages: two statuses that raise the same specific error are the same number. */
  lemma SpecificMessagesIdentifyCode(s: Json, t: Json)
    requires CheckStatus(s) == CheckStatus(t) != QueryError(UnknownError)
    ensures NumericValue(s) == NumericValue(t)
  {
  }

  /** Statuses that fall through to "Unknown error.", and Python's `False == 0`. */
  lemma CheckStatusEdgeCases()
    ensures CheckStatus(JStr("0")) == QueryError(UnknownError)
    ensures CheckStatus(JNull) == QueryError(UnknownError)
    ensures CheckStatus(JInt(999)) == QueryError(UnknownError)
    ensures CheckStatus(JStr("OK")) == QueryError(UnknownError)
    ensures CheckStatus(JBool(false)) == Silent
  {
  }

  // ---------------------------------------------------------------------------
  // Response parsing

  /** `response.get('results', [])`. */
  function ResultsField(response: map<string, Json>): Json {
    GetOr(response, "results", JArr([]))
  }

  /** `response.get('status')`. */
  function StatusField(response: map<string, Json>): Json {
    GetOr(response, "status", JNull)
  }

  /**
    The responses `_parse_json` handles without a Python exception: `len` applies to
    the results field, and when it is non-empty the response itself carries `level`
    and a `location` holding `lat` and `lng`.
   */
  predicate Parsable(response: map<string, Json>) {
    var results := ResultsField(response);
    && Len(results).Some?
    && (Len(results).value > 0 ==>
          "level" in response && "location" in response && HasLatLng(response["location"]))
  }

  /**
    `_parse_json`: empty results yield None when the status is 0 and raise the
    status's error otherwise; non-empty results yield a Location read from the
    top level of the response, not from the results.
   */
  function ParseJson(response: map<string, Json>, toFloat: Json -> real): (r: Result<Option<Location>, string>)
    requires Parsable(response)
    ensures Len(ResultsField(response)) == Some(0) ==>
      (r == Success(None) <==> EqualsInt(StatusField(response), 0))
    ensures Len(ResultsField(response)) == Some(0) ==>
      (r.Failure? <==> !EqualsInt(StatusField(response), 0))
    ensures r.Failure? ==>
      Len(ResultsField(response)) == Some(0) && CheckStatus(StatusField(response)) == QueryError(r.error)
    ensures Len(ResultsField(response)) != Some(0) ==> r.Success? && r.value.Some?
    ensures r.Success? && r.value.Some? ==>
      var loc := r.value.value;
      var point := response["location"].fields;
      && loc.raw == JObj(response)
      && loc.address == response["level"]
      && (loc.latitude, loc.longitude) == ReadPoint(point["lat"], point["lng"], toFloat)
  {
    var results := ResultsField(response);
    if Len(results).value == 0 then
      match CheckStatus(StatusField(response))
      case Silent => Success(None)
      case QueryError(message) => Failure(message)
    else
      var point := response["location"].fields;
      var p := ReadPoint(point["lat"], point["lng"], toFloat);
      Success(Some(Location(response["level"], p.0, p.1, JObj(response))))
  }
}
