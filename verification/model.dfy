/**
 The records the data-source proxy reads and rewrites: the stored data-source
 configuration and the HTTP request as far as the proxy touches it.
 */
module Model {
  import opened Headers

  /** The data-source types the proxy tells apart. `Other` stands for every
      type string that is none of the three. */
  datatype DsType = InfluxDb08 | InfluxDb | CloudWatch | Other

  /** A URL after `url.Parse`: only the parts the director copies. */
  datatype TargetUrl = TargetUrl(scheme: string, host: string, path: string)

  /** One data source as the lookup returns it. `url` is the parsed form of
      the stored URL; `keystoneAuth` is the `keystoneAuth` flag of its JSON
      settings, false when absent or not a boolean. */
  datatype DataSource = DataSource(
    dsType: DsType,
    url: TargetUrl,
    database: string,
    user: string,
    password: string,
    basicAuth: bool,
    basicAuthUser: string,
    basicAuthPassword: string,
    keystoneAuth: bool)

  /** A request URL with its query already parsed into `url.Values`. */
  datatype Url = Url(scheme: string, host: string, path: string, query: Multimap)

  /** The parts of an `http.Request` the proxy reads or writes; `host` is the
      request's `Host` field, distinct from the URL's host. */
  datatype Request = Request(httpMethod: string, url: Url, host: string, header: Multimap)

  const Authorization: string := "Authorization"
  /** The source writes this key as "X-DS-Authorization"; `Header.Get` and
      `Header.Del` canonicalise it to this spelling, which is also the key an
      inbound `X-DS-Authorization` header is stored under. */
  const DsAuthorization: string := "X-Ds-Authorization"
  const Cookie: string := "Cookie"
  const SetCookie: string := "Set-Cookie"
  const AuthToken: string := "X-Auth-Token"

  /** Query keys the legacy InfluxDB branch appends credentials under. */
  const UserParam: string := "u"
  const PasswordParam: string := "p"
}
