/**
 The request handler of the data-source proxy: look the data source up, hand
 CloudWatch sources to their own handler, apply the host whitelist, fetch a
 keystone token when the source asks for one, and otherwise forward the
 request as the director rewrites it. The lookup, the keystone service and
 the whitelist setting are inputs; the result says what the handler does.
 */
module DataProxy {
  import opened Headers
  import opened Model
  import opened ReverseProxy

  /** What the data-source lookup returned. */
  datatype Lookup = Found(ds: DataSource) | LookupError(err: string)

  /** What the keystone token service would return if asked. */
  datatype TokenResult = Token(token: string) | TokenError(err: string)

  /** The handler's decision. `Delegated` hands the whole request to the
      CloudWatch handler; `Forward` carries the director's output, which the
      reverse proxy then sends on. */
  datatype Outcome =
    | Err500(message: string, cause: string)
    | Delegated(ds: DataSource)
    | Err403(message: string)
    | Forward(outbound: Request)

  const LoadFailed: string := "Unable to load datasource meta data"
  const NotWhitelisted: string := "Data proxy hostname and ip are not included in whitelist"
  const TokenFailed: string := "Failed to get keystone token"

  /** The whitelist admits `host`: it is empty, or names `host`. */
  predicate Admits(whitelist: set<string>, host: string)
  {
    |whitelist| == 0 || host in whitelist
  }

  /** The request as the director receives it: with a keystone source, its
      `X-Auth-Token` header is set to the single token. */
  function WithToken(ds: DataSource, token: TokenResult, req: Request): (r: Request)
    requires ds.keystoneAuth ==> token.Token?
    ensures ds.keystoneAuth ==> ValuesOf(r.header, AuthToken) == [token.token]
    ensures ds.keystoneAuth ==> AgreeExcept(r.header, req.header, {AuthToken})
    ensures !ds.keystoneAuth ==> r == req
    ensures r.httpMethod == req.httpMethod && r.url == req.url && r.host == req.host
  {
    if ds.keystoneAuth then req.(header := Put(req.header, AuthToken, [token.token])) else req
  }

  /** The handler. The guards run in the source's order: lookup, CloudWatch,
      whitelist, keystone; each rejection ends the request unforwarded. */
  function Dispatch(
    lookup: Lookup, whitelist: set<string>, token: TokenResult,
    proxyPath: string, util: Util, req: Request): (o: Outcome)
    // a failed lookup is a 500, whatever else holds
    ensures lookup.LookupError? ==> o == Err500(LoadFailed, lookup.err)
    // CloudWatch is handed over before the whitelist and keystone are consulted
    ensures lookup.Found? && lookup.ds.dsType == CloudWatch ==> o == Delegated(lookup.ds)
    ensures o.Delegated? ==> lookup.Found? && o.ds == lookup.ds && lookup.ds.dsType == CloudWatch
    // the whitelist rejects exactly a non-empty list without the target host
    ensures o.Err403? <==>
      && lookup.Found? && lookup.ds.dsType != CloudWatch
      && !Admits(whitelist, lookup.ds.url.host)
    ensures o.Err403? ==> o.message == NotWhitelisted
    // a keystone source whose token cannot be had is a 500
    ensures lookup.Found? && lookup.ds.dsType != CloudWatch && Admits(whitelist, lookup.ds.url.host)
            && lookup.ds.keystoneAuth && token.TokenError? ==>
      o == Err500(TokenFailed, token.err)
    // forwarding happens exactly when every guard passes
    ensures o.Forward? <==>
      && lookup.Found? && lookup.ds.dsType != CloudWatch
      && Admits(whitelist, lookup.ds.url.host)
      && (lookup.ds.keystoneAuth ==> token.Token?)
    // what is forwarded goes to the source's own URL, with the token in place
    ensures o.Forward? ==>
      && o.outbound.url.scheme == lookup.ds.url.scheme
      && o.outbound.url.host == lookup.ds.url.host
      && o.outbound.host == lookup.ds.url.host
      && Cookie !in o.outbound.header && SetCookie !in o.outbound.header
    ensures o.Forward? && lookup.ds.keystoneAuth ==>
      ValuesOf(o.outbound.header, AuthToken) == [token.token]
  {
    match lookup
    case LookupError(err) => Err500(LoadFailed, err)
    case Found(ds) =>
      if ds.dsType == CloudWatch then
        Delegated(ds)
      else if |whitelist| > 0 && ds.url.host !in whitelist then
        Err403(NotWhitelisted)
      else if ds.keystoneAuth && token.TokenError? then
        Err500(TokenFailed, token.err)
      else
        Forward(Director(ds, proxyPath, ds.url, util, WithToken(ds, token, req)))
  }

  /** An empty whitelist never rejects a request. */
  lemma EmptyWhitelistNeverRejects(
    lookup: Lookup, token: TokenResult, proxyPath: string, util: Util, req: Request)
    ensures !Dispatch(lookup, {}, token, proxyPath, util, req).Err403?
  {
  }

  /** The token service is consulted only for keystone sources: for any other
      source its answer changes nothing. */
  lemma TokenIgnoredWithoutKeystone(
    lookup: Lookup, whitelist: set<string>, t1: TokenResult, t2: TokenResult,
    proxyPath: string, util: Util, req: Request)
    requires lookup.Found? ==> !lookup.ds.keystoneAuth
    ensures Dispatch(lookup, whitelist, t1, proxyPath, util, req)
         == Dispatch(lookup, whitelist, t2, proxyPath, util, req)
  {
  }

  /** What is forwarded is the director's rewrite of the inbound request,
      with the keystone token in place when the source asks for one, aimed at
      the data source's own URL. */
  lemma ForwardIsDirected(
    ds: DataSource, whitelist: set<string>, token: TokenResult,
    proxyPath: string, util: Util, req: Request)
    requires ds.dsType != CloudWatch && Admits(whitelist, ds.url.host)
    requires ds.keystoneAuth ==> token.Token?
    ensures Dispatch(Found(ds), whitelist, token, proxyPath, util, req)
         == Forward(Director(ds, proxyPath, ds.url, util, WithToken(ds, token, req)))
  {
  }

  /** The keystone token survives the director untouched: the forwarded
      request carries exactly the token, and every header outside the
      director's four keys and `X-Auth-Token` is the caller's. */
  lemma KeystoneTokenForwarded(
    ds: DataSource, whitelist: set<string>, token: string,
    proxyPath: string, util: Util, req: Request)
    requires ds.dsType != CloudWatch && Admits(whitelist, ds.url.host)
    requires ds.keystoneAuth
    ensures var o := Dispatch(Found(ds), whitelist, Token(token), proxyPath, util, req);
      && o.Forward?
      && o.outbound.header[AuthToken] == [token]
      && AgreeExcept(o.outbound.header, req.header, Touched + {AuthToken})
  {
    var o := Dispatch(Found(ds), whitelist, Token(token), proxyPath, util, req);
    var inbound := WithToken(ds, Token(token), req);
    assert o.outbound == Director(ds, proxyPath, ds.url, util, inbound);
    AgreeExceptTrans(o.outbound.header, inbound.header, req.header, Touched, {AuthToken});
  }
}
