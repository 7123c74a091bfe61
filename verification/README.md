# Grafana data-source proxy, modelled in Dafny

Grafana lets a dashboard query a data source through Grafana itself. The
request goes to `/api/datasources/proxy/:id/*`. The handler
`ProxyDataSourceRequest` looks up the data source first. CloudWatch sources go
to their own handler. For every other source, the handler checks the target
host against the configured whitelist. A source that uses keystone
authentication gets an `X-Auth-Token` header. Then a reverse proxy forwards
the request, and its *director* rewrites it before it leaves:

- it aims the request at the data source's scheme and host;
- it rewrites the path and the query for the source's type;
- it decides which credential goes into `Authorization`;
- it removes the caller's cookies.

This project models both parts as pure functions. Header maps and queries are
`map<string, seq<string>>`, as Go's `http.Header` and `url.Values` are. Keys
are already canonical.

- `headers.dfy`: module `Headers`. It defines Go's `Get`, `Del`, `Add` and
  direct assignment, plus `AgreeExcept`, the frame relation "same lists
  outside these keys".
- `model.dfy`: module `Model`. It holds the data-source record, the request
  record, the type enumeration and the header names.
- `reverse_proxy.dfy`: module `ReverseProxy`. It has the director as five
  steps in the source's order (`Retarget`, `TypeBranch`,
  `BasicAuthOverride`, `DsAuthOverride`, `StripCookies`) and their
  composition `Director`.
- `rewrite_plan.dfy`: module `RewritePlan`. It is an independent restatement
  of the director: first a pure plan is computed from the data source and the
  inbound headers, then that plan is applied. A lemma proves this gives the
  director's request for every input.
- `data_proxy.dfy`: module `DataProxy`. It has the handler's guard cascade as
  `Dispatch`, which returns `Err500`, `Delegated`, `Err403` or `Forward`.

The other services are inputs, not code: the data-source lookup (a `Lookup`
value), the keystone token service (a `TokenResult` value that is consulted
only for keystone sources) and the whitelist setting (a set of hosts). Two
helpers come from the `util` package: `util.JoinUrlFragments` and
`util.GetBasicAuthHeader`. They are not part of this model. They are passed in
as uninterpreted functions (`ReverseProxy.Util`), so every property holds for
whatever they compute.

## Model

| member | source | states |
|---|---|---|
| Headers.Get | pkg/api/dataproxy.go:61 | a present key with a non-empty list gives its first value; an absent key or an empty list gives "" |
| Headers.Del | pkg/api/dataproxy.go:49 | the key is gone and every other key keeps its list |
| Headers.Add | pkg/api/dataproxy.go:50 | the key's list grows by one, keeps its earlier values as a prefix and ends with the new value; other keys are untouched |
| Headers.Put | pkg/api/dataproxy.go:117 | the key lists exactly the given values; other keys are untouched |
| Headers.DelThenAdd | pkg/api/dataproxy.go:49-50 | deleting and then adding a key leaves exactly one value, which `Get` returns, whatever was there before |
| ReverseProxy.Retarget | pkg/api/dataproxy.go:34-36 | URL scheme, URL host and request Host are the target's; path, query, headers and method are unchanged |
| ReverseProxy.TypeBranch | pkg/api/dataproxy.go:38-54 | influxdb_08 nests the path under `db/<database>/`, appends the user to `u` and the password to `p`, and leaves other query keys alone; other types join the path and keep the query; only influxdb without basic auth sets `Authorization`, to the single basic header from user and password, and it changes no other header |
| ReverseProxy.BasicAuthOverride | pkg/api/dataproxy.go:56-59 | with basic auth enabled, `Authorization` is exactly the basic header from the basic-auth user and password, for every type; without it, the request is unchanged; no other header changes |
| ReverseProxy.DsAuthOverride | pkg/api/dataproxy.go:61-66 | a non-empty first value under the canonical key `X-Ds-Authorization` becomes the only `Authorization` value and that key is removed; an absent or empty first value leaves the request unchanged |
| ReverseProxy.StripCookies | pkg/api/dataproxy.go:68-70 | no `Cookie` or `Set-Cookie` key remains; every other header is unchanged |
| ReverseProxy.Director | pkg/api/dataproxy.go:33-73 | for every type and header map: the target scheme and host are used; the path and query follow the per-type rule; no cookies remain; headers other than the four touched keys keep their lists; `Authorization` follows the precedence X-DS-Authorization > basic auth > influxdb credentials > caller's own; an empty X-DS-Authorization stays |
| ReverseProxy.CallerCredentialsHidden | pkg/api/dataproxy.go:45-70 | whenever a rule sets `Authorization`, two requests that differ only in the caller's `Authorization`, cookies, path or Host are rewritten to the same request |
| ReverseProxy.HiddenCredentialsHeaders | pkg/api/dataproxy.go:45-70 | the header half of the previous row: the outbound header maps are equal |
| ReverseProxy.LegacyCredentialsBesideBasicAuth | pkg/api/dataproxy.go:40-59 | an influxdb_08 source with basic auth and no non-empty `X-Ds-Authorization` forwards its `u`/`p` query credentials and a basic-auth `Authorization` header together |
| ReverseProxy.LegacyCredentialsBesideDsAuthorization | pkg/api/dataproxy.go:40-66 | an influxdb_08 source that receives a non-empty `X-Ds-Authorization` forwards its `u`/`p` query credentials together with the caller's token as the only `Authorization` value, and removes `X-Ds-Authorization` |
| ReverseProxy.EmptyFirstDsAuthorizationForwarded | pkg/api/dataproxy.go:61-70 | for every source and any header map whose first `X-Ds-Authorization` value is empty, that header is forwarded with all its values; with no basic auth and a type other than influxdb, the caller's `Authorization` is forwarded unchanged too |
| RewritePlan.ApplyEdits | pkg/api/dataproxy.go:49-70 | applying a sequence of Del/Add edits leaves every key that no edit names unchanged |
| RewritePlan.PlanFor | pkg/api/dataproxy.go:38-70 | the plan targets the target's scheme and host; it edits only the four touched headers and only the `u`/`p` query keys (none outside influxdb_08); its last two edits delete the cookies |
| RewritePlan.HeaderEditsMatchDirector | pkg/api/dataproxy.go:40-70 | the plan's header edits, applied to the inbound headers, give exactly the director's outbound headers |
| RewritePlan.QueryEditsMatchDirector | pkg/api/dataproxy.go:38-47 | the plan's query edits, applied to the inbound query, give exactly the director's outbound query |
| RewritePlan.DirectorIsPlanApplied | pkg/api/dataproxy.go:33-73 | for every input, the director's in-place rewrite equals the plan computed from the data source and inbound headers, applied to the request |
| DataProxy.WithToken | pkg/api/dataproxy.go:110-118 | for a keystone source, `X-Auth-Token` lists exactly the token and no other header changes; for other sources, the request is unchanged |
| DataProxy.Dispatch | pkg/api/dataproxy.go:87-123 | the guards run in order: a lookup error gives 500 with the lookup message; CloudWatch is delegated before the whitelist and keystone checks; 403 happens exactly when the whitelist is non-empty and lacks the host; a keystone token failure gives 500; the request is forwarded exactly when every guard passes; the forwarded request goes to the source's own scheme and host, has no cookies and carries the keystone token |
| DataProxy.EmptyWhitelistNeverRejects | pkg/api/dataproxy.go:103-108 | with an empty whitelist, no lookup or token result leads to 403 |
| DataProxy.TokenIgnoredWithoutKeystone | pkg/api/dataproxy.go:110-118 | for a source without keystone auth, the token service's answer does not affect the outcome |
| DataProxy.ForwardIsDirected | pkg/api/dataproxy.go:102-123 | an admitted source forwards exactly the director's rewrite, aimed at the source's own parsed URL, of the inbound request with `X-Auth-Token` set to the token when the source uses keystone |
| DataProxy.KeystoneTokenForwarded | pkg/api/dataproxy.go:110-123 | an admitted keystone source with a token is forwarded; the director leaves `X-Auth-Token` as exactly the token; every header other than the four touched keys and `X-Auth-Token` is the caller's |

Two behaviours of the code worth knowing:

- An influxdb_08 source sends its `u`/`p` query credentials and an
  `Authorization` header together when basic auth is on
  (`LegacyCredentialsBesideBasicAuth`) or when a non-empty
  `X-DS-Authorization` sets `Authorization`
  (`LegacyCredentialsBesideDsAuthorization`).
- `X-DS-Authorization` is removed only when its first value is non-empty. A
  header whose first value is empty is forwarded as it came
  (`EmptyFirstDsAuthorizationForwarded`).

## Left out

- Transport configuration (pkg/api/dataproxy.go:22-30): skipping TLS
  verification, the proxy from the environment, and the dial, keep-alive and
  handshake timeouts. This is network configuration with no decision to model.
- `FlushInterval` and forwarding through `ReverseProxy.ServeHTTP` (75,
  121-123): streaming I/O done by Go's standard library. `Forward` carries
  the director's output, not the request as it leaves the process.
- The header edits `ServeHTTP` makes after the director: it removes
  hop-by-hop headers (`Connection`, `Proxy-Authorization`, `Te`, `Upgrade`
  and the others) and appends the client address to `X-Forwarded-For`. The
  model's frame conditions describe the director's output only.
- Response-side `Set-Cookie` removal (124): it runs after `ServeHTTP` has
  already written the response, so the model claims nothing about what the
  client receives.
- The data-source lookup through `bus.Dispatch` (78-85), `cloudwatch.HandleRequest`
  (98) and `keystone.GetToken` (112): external services, modelled as inputs
  (`Lookup`, `TokenResult`) or as the `Delegated` outcome.
- `util.JoinUrlFragments` and `util.GetBasicAuthHeader`: not part of this
  model. They are uninterpreted, so nothing is said about slash handling or
  base64 contents.
- `url.Values.Encode` (44, 47): the query stays a map. The encoded string and
  its sorted key order are not modelled, and re-encoding in the influxdb
  branch counts as leaving the query unchanged.
- `url.Parse` (102), whose error is ignored in the source: the data source
  carries its URL already parsed. When parsing fails, `targetUrl` is nil and
  the source dereferences it at line 104 (non-empty whitelist) or at line 34
  in the director, which panics. The model does not cover that crash path.
- Logging and metrics (72, 88).
- Type strings: `ds.Type` is compared with constants from `pkg/models`, which
  is not part of this model. The model uses an enumeration with `Other` for
  every remaining type.
- Header-key canonicalisation: `http.Header` canonicalises keys, and the
  model assumes every key in the header map is canonical already. The
  header names are therefore written in canonical form. The source's
  `"X-DS-Authorization"` becomes `X-Ds-Authorization`, which is the key
  `Header.Get` and `Header.Del` look up and the key net/http stores an
  inbound `X-DS-Authorization` header under.
- The whitelist setting is a Go map whose stored values the source never
  reads. It is modelled as its key set.
- The keystone flag is read with `JsonData.Get("keystoneAuth").MustBool()`.
  It is modelled as a boolean field that is false when the setting is absent
  or not a boolean.
