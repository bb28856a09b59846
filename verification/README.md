# Baidu Maps geocoder adapters, modelled in Dafny

This project models the two Baidu Maps adapters of geopy, `BaiduV1`
(legacy API) and `BaiduV2` (versioned API). Both are thin adapters. They build a
fixed parameter map and a request URL for `geocode` and `reverse`. They turn the
provider's decoded JSON response into a `Location` triple of
(address label, (latitude, longitude), raw payload). When there is no result,
they map the provider's status value to either a silent return or a
`GeocoderQueryError` with a specific message.

Layout:

- `wrappers.dfy`: `Option` and `Result`.
- `py_json.dfy` (`PyJson`): decoded JSON values and the Python semantics the
  adapters use. This covers truthiness, `x or None`, `==` against an integer or a
  string literal (so `True == 1` and `1.0 == 1`), `len` and `dict.get`.
- `status_table.dfy` (`StatusTable`): status classification as an explicit
  table with first-match lookup. This is the reference definition that each
  adapter's `if`/`elif` chain is proved equal to.
- `adapter.dfy` (`Adapter`): what both adapters share. This is the
  configuration, the `Location` record, URL joining and its inverse (splitting at
  the first `?`), and per-axis coordinate reading.
- `baidu_v1.dfy` (`BaiduV1`) and `baidu_v2.dfy` (`BaiduV2`): one module per
  adapter.
- `versions.dfy` (`BaiduVersions`): lemmas relating the two adapters.

The foreign helpers are function-valued parameters rather than definitions:

- `format_string % query` is `interpolate`.
- `_coerce_point_to_string` is `coerce`, over an arbitrary point type `P`.
- `urlencode` is `urlencode`.
- `float(...)` is `toFloat`.

A raised `GeocoderQueryError` is `Failure(message)`, and a Python `None` result
is `Success(None)`.

The status value is the whole decoded JSON value, not just an int-or-string sum.
The comparisons use Python's `==`. So V1 reports `True` and `1.0` as
"Server internal error.", and V2 treats `False` as the silent status 0.

Two behaviours of the code are worth stating plainly, and the model keeps both:

- Each coordinate axis gets its own `or None` (geopy/geocoders/baiduv1.py:134-135,
  geopy/geocoders/baiduv2.py:134-135). So a pair such as (None, 5) is possible
  (`Adapter.MixedPairPossible`). Conversion to float happens only when both axes
  are truthy. When only one axis is truthy, it keeps its raw JSON value.
- V2 only checks that `results` is non-empty (geopy/geocoders/baiduv2.py:123-126).
  It then reads `level` and `location` from the top level of the response and
  keeps the whole response as the raw payload (geopy/geocoders/baiduv2.py:132-142).

## Model

| member | source | states |
|---|---|---|
| `BaiduV1.Api` | geopy/geocoders/baiduv1.py:55 | the endpoint starts with the configured scheme, and contains a `?` exactly when the scheme does |
| `BaiduV1.GeocodeParams` | geopy/geocoders/baiduv1.py:75-82 | the keys are exactly address, output, key, plus city exactly when a non-empty city is given; address is the interpolated query, output is "json", key is the credential, city is the given city |
| `BaiduV1.GeocodeUrl` | geopy/geocoders/baiduv1.py:84 | splitting the URL at its first `?` gives back `scheme://api.map.baidu.com/geocoder` and the encoded parameters (for a scheme without `?`) |
| `BaiduV1.ReverseParams` | geopy/geocoders/baiduv1.py:106-110 | the keys are exactly location, output, key (never city or coordtype); location is the coerced point |
| `BaiduV1.ReverseUrl` | geopy/geocoders/baiduv1.py:111-112 | the reverse URL splits back into the same endpoint as geocode and the encoded reverse parameters |
| `BaiduV1.ParamsIgnoreTransport` | geopy/geocoders/baiduv1.py:53-110 | records the determinism of the parameters: they depend only on the credential and format string; this holds by construction of the model and adds no evidence beyond the parameter lists |
| `BaiduV1.CheckStatus` | geopy/geocoders/baiduv1.py:145-159 | silent if and only if the status equals "OK"; each of 1, "INVILID_KEY" (misspelt) and "INVALID_PARAMETERS" raises its own message, in both directions; everything else raises "Unknown error." |
| `BaiduV1.CheckStatusIsTable` | geopy/geocoders/baiduv1.py:149-159 | for every status, the `if`/`elif` chain gives the same outcome as first-match lookup in the explicit V1 status table with "Unknown error." as fallback |
| `BaiduV1.CheckStatusEdgeCases` | geopy/geocoders/baiduv1.py:152-159 | the correctly spelt "INVALID_KEY", the string "1", a missing status and 0 are unknown errors; `1.0` and `True` are server errors |
| `BaiduV1.ParseJson` | geopy/geocoders/baiduv1.py:117-142 | an empty result returns None if and only if the status is "OK", and otherwise raises the status's message; a non-empty result yields a Location whose raw payload is the inner result, whose label is its formatted_address (None when absent) and whose point is read per axis |
| `BaiduV2.Api` | geopy/geocoders/baiduv2.py:55 | the versioned endpoint starts with the configured scheme, and contains a `?` exactly when the scheme does |
| `BaiduV2.GeocodeParams` | geopy/geocoders/baiduv2.py:75-82 | the keys are exactly address, output, ak, plus city exactly when a non-empty city is given, with the expected values |
| `BaiduV2.GeocodeUrl` | geopy/geocoders/baiduv2.py:84 | splitting the URL at its first `?` gives back `scheme://api.map.baidu.com/geocoder/v2/` and the encoded parameters |
| `BaiduV2.ReverseParams` | geopy/geocoders/baiduv2.py:106-111 | the keys are exactly location, coordtype, output, ak, with the coerced point and the given coordinate type |
| `BaiduV2.ReverseDefaultCoordtype` | geopy/geocoders/baiduv2.py:88 | without an explicit coordinate type the parameters carry coordtype "bd09ll", and so does the URL `reverse` requests |
| `BaiduV2.ReverseUrl` | geopy/geocoders/baiduv2.py:112-113 | the reverse URL splits back into the V2 endpoint and the encoded reverse parameters |
| `BaiduV2.ParamsIgnoreTransport` | geopy/geocoders/baiduv2.py:53-111 | records the determinism of the parameters: they depend only on the credential and format string; holds by construction of the model |
| `BaiduV2.CheckStatus` | geopy/geocoders/baiduv2.py:145-167 | silent if and only if the status equals 0; each of 1, 2, 3, 4, 5, 101, 102 raises its own message, in both directions; any other status raises "Unknown error." |
| `BaiduV2.CheckStatusIsTable` | geopy/geocoders/baiduv2.py:149-167 | for every status, the `if`/`elif` chain agrees with first-match lookup in the explicit V2 status table |
| `BaiduV2.SpecificMessagesIdentifyCode` | geopy/geocoders/baiduv2.py:152-165 | two statuses giving the same non-unknown outcome are the same number, so the messages are distinct |
| `BaiduV2.CheckStatusEdgeCases` | geopy/geocoders/baiduv2.py:166-167 | the string "0", a missing status, 999 and "OK" raise "Unknown error."; `False` is silent |
| `BaiduV2.ParseJson` | geopy/geocoders/baiduv2.py:118-142 | empty results return None if and only if the status is 0, and otherwise raise the status's message; non-empty results yield a Location whose label is the top-level level, whose point comes from the top-level location and whose raw payload is the whole response |
| `Adapter.RequestUrl` | geopy/geocoders/baiduv1.py:84 | joining endpoint, `?` and query string is undone by splitting at the first `?` when the endpoint has no `?` |
| `Adapter.SplitJoin` | geopy/geocoders/baiduv2.py:112-113 | the split of a joined URL returns the endpoint and the query string |
| `Adapter.ReadPoint` | geopy/geocoders/baiduv1.py:134-138 | each axis is None exactly when its raw value is falsy, whatever the other axis is; both are converted by float only when both are truthy; a lone truthy axis keeps its raw value |
| `Adapter.MixedPairPossible` | geopy/geocoders/baiduv1.py:134-140 | a zero latitude beside longitude 5 gives (None, 5), and the converse mix is possible too |
| `BaiduVersions.GeocodeParamsRenameCredential` | geopy/geocoders/baiduv2.py:75-82 | the V2 geocode parameters are the V1 ones with key renamed to ak |
| `BaiduVersions.ReverseParamsAddCoordtype` | geopy/geocoders/baiduv2.py:106-111 | the V2 reverse parameters are the V1 ones with key renamed to ak plus coordtype |
| `BaiduVersions.ApiIsVersioned` | geopy/geocoders/baiduv2.py:55 | the V2 endpoint is the V1 endpoint followed by `/v2/` |
| `BaiduVersions.NoStatusSilentInBoth` | geopy/geocoders/baiduv2.py:149-151 | no status value is silent for both adapters |
| `BaiduVersions.ServerErrorShared` | geopy/geocoders/baiduv2.py:152-153 | a status equal to 1 gives "Server internal error." in both adapters |

## Left out

- HTTP transport (`_call_geocoder`), per-call timeouts and proxies: these belong to the `Geocoder` base class, which is not part of this model. The model stops at the request URL and starts again at the decoded response. Timeout and proxies appear only as configuration fields.
- The `Geocoder` base constructor, which is not part of this model: the scheme is taken as given.
- `format_string % query`, `_coerce_point_to_string`, `urlencode` and `float`: these are foreign helpers, passed as uninterpreted function parameters. `float` and `interpolate` are total in the model. So the ValueError of `float` on a non-numeric string is not modelled, and neither is the TypeError of `format_string % query` when the format string does not hold exactly one `%s`.
- Python exceptions from a malformed non-empty response are preconditions (`BaiduV1.Parsable`, `BaiduV2.Parsable`), not modelled errors. This covers a missing `location`, `lat`, `lng` or `level` (KeyError), a result that is not an object (AttributeError), and a result field without a length (TypeError).
- The `exactly_one` flag is accepted and ignored by both parsers, so it does not appear.
- `geopy.location.Location` is not part of this model: the result is a plain record of label, the two axes, and the raw payload.
- Logging calls and the `__main__` demonstration blocks: these are output with no behaviour to state.
- BaiduV1.GeocodeUrl: the split round trip is stated only for schemes without `?`; otherwise the first `?` falls inside the scheme.
- BaiduV1.ReverseUrl: same restriction on the scheme.
- BaiduV2.GeocodeUrl: same restriction on the scheme.
- BaiduV2.ReverseUrl: same restriction on the scheme.
