/**
  How the two adapters relate: the same requests up to the credential's name
  and the extra coordinate type, a versioned endpoint under the legacy one, and
  status tables that never agree on what is silent.
 */
module BaiduVersions {
  import opened Wrappers
  import opened PyJson
  import opened StatusTable
  import opened Adapter
  import V1 = BaiduV1
  import V2 = BaiduV2

  /** Moves the value at key `from` to key `to`. */
  function RenameKey(m: map<string, string>, from: string, to: string): map<string, string>
    requires from in m
  {
    (m - {from})[to := m[from]]
  }

  /** A V2 geocode request is the V1 request with `key` renamed to `ak`. */
  lemma GeocodeParamsRenameCredential(cfg: Config, query: string, city: Option<string>,
                                      interpolate: (string, string) -> string)
    ensures V2.GeocodeParams(cfg, query, city, interpolate)
         == RenameKey(V1.GeocodeParams(cfg, query, city, interpolate), "key", "ak")
  {
    var a := V2.GeocodeParams(cfg, query, city, interpolate);
    var b := RenameKey(V1.GeocodeParams(cfg, query, city, interpolate), "key", "ak");
    assert a.Keys == b.Keys;
  }

  /** A V2 reverse request is the V1 request with `key` renamed to `ak`, plus the coordinate type. */
  lemma ReverseParamsAddCoordtype<P>(cfg: Config, query: P, coerce: P -> string, coordtype: string)
    ensures V2.ReverseParams(cfg, query, coerce, coordtype)
         == RenameKey(V1.ReverseParams(cfg, query, coerce), "key", "ak")["coordtype" := coordtype]
  {
    var a := V2.ReverseParams(cfg, query, coerce, coordtype);
    var b := RenameKey(V1.ReverseParams(cfg, query, coerce), "key", "ak")["coordtype" := coordtype];
    assert a.Keys == b.Keys;
  }

  /** The V2 endpoint is the V1 endpoint followed by the version segment. */
  lemma ApiIsVersioned(scheme: string)
    ensures V2.Api(scheme) == V1.Api(scheme) + "/v2/"
  {
  }

  /** No status is silent for both adapters: V1 wants the string "OK", V2 the number 0. */
  lemma NoStatusSilentInBoth(status: Json)
    ensures !(V1.CheckStatus(status).Silent? && V2.CheckStatus(status).Silent?)
  {
  }

  /** Both adapters report a status equal to 1 as the same server error. */
  lemma ServerErrorShared(status: Json)
    requires EqualsInt(status, 1)
    ensures V1.CheckStatus(status) == V2.CheckStatus(status) == QueryError("Server internal error.")
  {
  }
}
