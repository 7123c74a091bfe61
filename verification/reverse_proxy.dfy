/**
 The director of the data-source reverse proxy: the in-place rewrite applied
 to every forwarded request, written as a cascade of pure steps in the order
 the source performs them.
 */
module ReverseProxy {
  import opened Headers
  import opened Model

  /** The two helpers of the `util` package the director calls. Their bodies
      are not part of this model, so they are left uninterpreted: every
      property below holds whatever they compute. */
  datatype Util = Util(
    joinUrlFragments: (string, string) -> string,
    basicAuthHeader: (string, string) -> string)

  /** The only header keys the director may change. */
  const Touched: set<string> := {Authorization, DsAuthorization, Cookie, SetCookie}

  /** Step 1: aim the request at the target's scheme and host. */
  function Retarget(target: TargetUrl, req: Request): (r: Request)
    ensures r.url.scheme == target.scheme && r.url.host == target.host
    ensures r.host == target.host
    ensures r.httpMethod == req.httpMethod && r.header == req.header
    ensures r.url.path == req.url.path && r.url.query == req.url.query
  {
    req.(url := req.url.(scheme := target.scheme, host := target.host), host := target.host)
  }

  /** Step 2: the per-type branch. The legacy InfluxDB type nests the path
      under its database and carries its credentials as `u`/`p` query
      parameters; InfluxDB without basic auth carries them as an
      `Authorization` header; every other type only joins the path. */
  function TypeBranch(ds: DataSource, proxyPath: string, target: TargetUrl, util: Util, req: Request): (r: Request)
    ensures r.httpMethod == req.httpMethod && r.host == req.host
    ensures r.url.scheme == req.url.scheme && r.url.host == req.url.host
    ensures ds.dsType == InfluxDb08 ==>
      && r.url.path == util.joinUrlFragments(target.path, "db/" + ds.database + "/" + proxyPath)
      && ValuesOf(r.url.query, UserParam) == ValuesOf(req.url.query, UserParam) + [ds.user]
      && ValuesOf(r.url.query, PasswordParam) == ValuesOf(req.url.query, PasswordParam) + [ds.password]
      && AgreeExcept(r.url.query, req.url.query, {UserParam, PasswordParam})
    ensures ds.dsType != InfluxDb08 ==>
      && r.url.path == util.joinUrlFragments(target.path, proxyPath)
      && r.url.query == req.url.query
    ensures ds.dsType == InfluxDb && !ds.basicAuth ==>
      ValuesOf(r.header, Authorization) == [util.basicAuthHeader(ds.user, ds.password)]
    ensures ds.dsType == InfluxDb && !ds.basicAuth ==> AgreeExcept(r.header, req.header, {Authorization})
    ensures !(ds.dsType == InfluxDb && !ds.basicAuth) ==> r.header == req.header
  {
    var query := req.url.query;
    if ds.dsType == InfluxDb08 then
      var q := Add(Add(query, UserParam, ds.user), PasswordParam, ds.password);
      req.(url := req.url.(path := util.joinUrlFragments(target.path, "db/" + ds.database + "/" + proxyPath), query := q))
    else if ds.dsType == InfluxDb then
      var h :=
        if !ds.basicAuth
        then Add(Del(req.header, Authorization), Authorization, util.basicAuthHeader(ds.user, ds.password))
        else req.header;
      req.(url := req.url.(path := util.joinUrlFragments(target.path, proxyPath), query := query), header := h)
    else
      req.(url := req.url.(path := util.joinUrlFragments(target.path, proxyPath)))
  }

  /** Step 3: a data source with basic auth enabled replaces `Authorization`
      with its basic-auth credentials, whatever its type. */
  function BasicAuthOverride(ds: DataSource, util: Util, req: Request): (r: Request)
    ensures r.httpMethod == req.httpMethod && r.host == req.host && r.url == req.url
    ensures ds.basicAuth ==>
      ValuesOf(r.header, Authorization) == [util.basicAuthHeader(ds.basicAuthUser, ds.basicAuthPassword)]
    ensures AgreeExcept(r.header, req.header, {Authorization})
    ensures !ds.basicAuth ==> r == req
  {
    if ds.basicAuth then
      req.(header := Add(Del(req.header, Authorization), Authorization,
                         util.basicAuthHeader(ds.basicAuthUser, ds.basicAuthPassword)))
    else
      req
  }

  /** Step 4: a non-empty first `X-DS-Authorization` value moves into
      `Authorization`, replacing it; an absent or empty one changes nothing. */
  function DsAuthOverride(req: Request): (r: Request)
    ensures r.httpMethod == req.httpMethod && r.host == req.host && r.url == req.url
    ensures Get(req.header, DsAuthorization) != "" ==>
      && DsAuthorization !in r.header
      && ValuesOf(r.header, Authorization) == [Get(req.header, DsAuthorization)]
    ensures AgreeExcept(r.header, req.header, {Authorization, DsAuthorization})
    ensures Get(req.header, DsAuthorization) == "" ==> r == req
  {
    var dsAuth := Get(req.header, DsAuthorization);
    if |dsAuth| > 0 then
      req.(header := Add(Del(Del(req.header, DsAuthorization), Authorization), Authorization, dsAuth))
    else
      req
  }

  /** Step 5: the caller's cookies never reach the data source. */
  function StripCookies(req: Request): (r: Request)
    ensures r.httpMethod == req.httpMethod && r.host == req.host && r.url == req.url
    ensures Cookie !in r.header && SetCookie !in r.header
    ensures AgreeExcept(r.header, req.header, {Cookie, SetCookie})
  {
    req.(header := Del(Del(req.header, Cookie), SetCookie))
  }

  /** The director: the five steps in order. Its contract gathers what the
      forwarded request looks like for every type and every inbound header
      map: the target, the path and query, which rule decides
      `Authorization`, and that no other header but the cookies changes. */
  function Director(ds: DataSource, proxyPath: string, target: TargetUrl, util: Util, req: Request): (r: Request)
    // the target's scheme and host, on the URL and as the request's Host
    ensures r.url.scheme == target.scheme && r.url.host == target.host && r.host == target.host
    ensures r.httpMethod == req.httpMethod
    // path and query
    ensures ds.dsType == InfluxDb08 ==>
      && r.url.path == util.joinUrlFragments(target.path, "db/" + ds.database + "/" + proxyPath)
      && ValuesOf(r.url.query, UserParam) == ValuesOf(req.url.query, UserParam) + [ds.user]
      && ValuesOf(r.url.query, PasswordParam) == ValuesOf(req.url.query, PasswordParam) + [ds.password]
      && AgreeExcept(r.url.query, req.url.query, {UserParam, PasswordParam})
    ensures ds.dsType != InfluxDb08 ==>
      && r.url.path == util.joinUrlFragments(target.path, proxyPath)
      && r.url.query == req.url.query
    // cookies are gone, and nothing outside the four touched keys changes
    ensures Cookie !in r.header && SetCookie !in r.header
    ensures AgreeExcept(r.header, req.header, Touched)
    // Authorization: explicit override, then basic auth, then InfluxDB credentials, then the caller's
    ensures Get(req.header, DsAuthorization) != "" ==>
      && ValuesOf(r.header, Authorization) == [Get(req.header, DsAuthorization)]
      && DsAuthorization !in r.header
    ensures Get(req.header, DsAuthorization) == "" && ds.basicAuth ==>
      ValuesOf(r.header, Authorization) == [util.basicAuthHeader(ds.basicAuthUser, ds.basicAuthPassword)]
    ensures Get(req.header, DsAuthorization) == "" && !ds.basicAuth && ds.dsType == InfluxDb ==>
      ValuesOf(r.header, Authorization) == [util.basicAuthHeader(ds.user, ds.password)]
    ensures Get(req.header, DsAuthorization) == "" && !ds.basicAuth && ds.dsType != InfluxDb ==>
      AgreeExcept(r.header, req.header, {Cookie, SetCookie})
    // an absent or empty X-DS-Authorization stays as it came
    ensures Get(req.header, DsAuthorization) == "" ==>
      && (DsAuthorization in r.header <==> DsAuthorization in req.header)
      && ValuesOf(r.header, DsAuthorization) == ValuesOf(req.header, DsAuthorization)
  {
    var r1 := Retarget(target, req);
    var r2 := TypeBranch(ds, proxyPath, target, util, r1);
    var r3 := BasicAuthOverride(ds, util, r2);
    assert Get(r3.header, DsAuthorization) == Get(req.header, DsAuthorization);
    var r4 := DsAuthOverride(r3);
    StripCookies(r4)
  }

  /** Whenever one of the three rules sets `Authorization`, the caller's own
      `Authorization` and cookies cannot influence what is forwarded: two
      requests that differ only there (and in the path and host the director
      overwrites) are rewritten to the same request. */
  lemma {:induction false} CallerCredentialsHidden(
    ds: DataSource, proxyPath: string, target: TargetUrl, util: Util, a: Request, b: Request)
    requires a.httpMethod == b.httpMethod && a.url.query == b.url.query
    requires AgreeExcept(a.header, b.header, {Authorization, Cookie, SetCookie})
    requires Get(a.header, DsAuthorization) != "" || ds.basicAuth || ds.dsType == InfluxDb
    ensures Director(ds, proxyPath, target, util, a) == Director(ds, proxyPath, target, util, b)
  {
    var ra := Director(ds, proxyPath, target, util, a);
    var rb := Director(ds, proxyPath, target, util, b);
    HiddenCredentialsHeaders(ds, proxyPath, target, util, a, b);
    assert ra.url == rb.url;
  }

  lemma HiddenCredentialsHeaders(
    ds: DataSource, proxyPath: string, target: TargetUrl, util: Util, a: Request, b: Request)
    requires AgreeExcept(a.header, b.header, {Authorization, Cookie, SetCookie})
    requires Get(a.header, DsAuthorization) != "" || ds.basicAuth || ds.dsType == InfluxDb
    ensures Director(ds, proxyPath, target, util, a).header == Director(ds, proxyPath, target, util, b).header
  {
    var ha := Director(ds, proxyPath, target, util, a).header;
    var hb := Director(ds, proxyPath, target, util, b).header;
    assert Get(a.header, DsAuthorization) == Get(b.header, DsAuthorization);
    assert SameAt(ha, hb, Authorization) by {
      assert ValuesOf(ha, Authorization) == ValuesOf(hb, Authorization);
    }
    assert SameAt(ha, hb, DsAuthorization);
    assert SameAt(ha, hb, Cookie) && SameAt(ha, hb, SetCookie);
    AgreeExceptTrans(ha, a.header, b.header, Touched, {Authorization, Cookie, SetCookie});
    AgreeExceptSym(hb, b.header, Touched);
    AgreeExceptTrans(ha, b.header, hb, Touched + {Authorization, Cookie, SetCookie}, Touched);
    var all := Touched + {Authorization, Cookie, SetCookie} + Touched;
    assert all == {Authorization, DsAuthorization, Cookie, SetCookie};
    AgreeExceptFill(ha, hb, all, Authorization);
    AgreeExceptFill(ha, hb, all - {Authorization}, DsAuthorization);
    AgreeExceptFill(ha, hb, all - {Authorization} - {DsAuthorization}, Cookie);
    AgreeExceptFill(ha, hb, all - {Authorization} - {DsAuthorization} - {Cookie}, SetCookie);
    assert all - {Authorization} - {DsAuthorization} - {Cookie} - {SetCookie} == {};
    AgreeEverywhere(ha, hb);
  }

  /** A legacy InfluxDB source with basic auth enabled forwards its `u`/`p`
      query credentials and a basic-auth `Authorization` header together. */
  lemma LegacyCredentialsBesideBasicAuth(ds: DataSource, proxyPath: string, target: TargetUrl, util: Util, req: Request)
    requires ds.dsType == InfluxDb08 && ds.basicAuth
    requires Get(req.header, DsAuthorization) == ""
    ensures var r := Director(ds, proxyPath, target, util, req);
      && ds.user in ValuesOf(r.url.query, UserParam)
      && ds.password in ValuesOf(r.url.query, PasswordParam)
      && ValuesOf(r.header, Authorization) == [util.basicAuthHeader(ds.basicAuthUser, ds.basicAuthPassword)]
  {
    var r := Director(ds, proxyPath, target, util, req);
    assert ValuesOf(r.url.query, UserParam)[|ValuesOf(req.url.query, UserParam)|] == ds.user;
    assert ValuesOf(r.url.query, PasswordParam)[|ValuesOf(req.url.query, PasswordParam)|] == ds.password;
  }

  /** A legacy InfluxDB source that receives a non-empty
      `X-DS-Authorization` forwards its `u`/`p` query credentials beside the
      caller's token, which becomes the only `Authorization` value. */
  lemma LegacyCredentialsBesideDsAuthorization(ds: DataSource, proxyPath: string, target: TargetUrl, util: Util, req: Request)
    requires ds.dsType == InfluxDb08
    requires Get(req.header, DsAuthorization) != ""
    ensures var r := Director(ds, proxyPath, target, util, req);
      && ds.user in ValuesOf(r.url.query, UserParam)
      && ds.password in ValuesOf(r.url.query, PasswordParam)
      && ValuesOf(r.header, Authorization) == [Get(req.header, DsAuthorization)]
      && DsAuthorization !in r.header
  {
    var r := Director(ds, proxyPath, target, util, req);
    assert ValuesOf(r.url.query, UserParam)[|ValuesOf(req.url.query, UserParam)|] == ds.user;
    assert ValuesOf(r.url.query, PasswordParam)[|ValuesOf(req.url.query, PasswordParam)|] == ds.password;
  }

  /** `X-DS-Authorization` is removed only when its first value is non-empty:
      for every source, a header whose first value is empty is forwarded with
      all its values, even when later ones are real tokens. With no basic
      auth and a type other than InfluxDB, the caller's `Authorization` is
      forwarded unchanged as well. */
  lemma EmptyFirstDsAuthorizationForwarded(
    ds: DataSource, proxyPath: string, target: TargetUrl, util: Util, req: Request)
    requires DsAuthorization in req.header && |req.header[DsAuthorization]| > 0
    requires req.header[DsAuthorization][0] == ""
    ensures var r := Director(ds, proxyPath, target, util, req);
      && DsAuthorization in r.header && r.header[DsAuthorization] == req.header[DsAuthorization]
      && (!ds.basicAuth && ds.dsType != InfluxDb ==>
            && (Authorization in r.header <==> Authorization in req.header)
            && ValuesOf(r.header, Authorization) == ValuesOf(req.header, Authorization))
  {
    var r := Director(ds, proxyPath, target, util, req);
    assert Get(req.header, DsAuthorization) == "";
    if !ds.basicAuth && ds.dsType != InfluxDb {
      assert SameAt(r.header, req.header, Authorization);
    }
  }
}
