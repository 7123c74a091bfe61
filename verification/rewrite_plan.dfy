/**
 The director's rewrite restated as a plan computed from the data source and
 the inbound headers, then applied: first the decision, then its effect. The
 main lemma shows the plan, applied, yields exactly the director's request.
 The plan reads the inbound headers only for `X-DS-Authorization`, so the
 decision does not depend on anything an earlier step wrote.
 */
module RewritePlan {
  import opened Headers
  import opened Model
  import opened ReverseProxy

  /** One `Del` or `Add` call on a header map or query. */
  datatype Edit = Delete(key: string) | Append(key: string, value: string)

  /** Where the request goes and which edits it receives, in order. */
  datatype Plan = Plan(
    scheme: string,
    host: string,
    path: string,
    queryEdits: seq<Edit>,
    headerEdits: seq<Edit>)

  /** The keys a list of edits names. */
  function EditedKeys(edits: seq<Edit>): set<string>
  {
    set i | 0 <= i < |edits| :: edits[i].key
  }

  function ApplyEdit(m: Multimap, e: Edit): Multimap
  {
    match e
    case Delete(k) => Del(m, k)
    case Append(k, v) => Add(m, k, v)
  }

  /** Performs the edits left to right. Keys no edit names keep their lists. */
  function ApplyEdits(m: Multimap, edits: seq<Edit>): (r: Multimap)
    ensures AgreeExcept(r, m, EditedKeys(edits))
    decreases |edits|
  {
    if |edits| == 0 then m
    else
      var rest := ApplyEdits(ApplyEdit(m, edits[0]), edits[1..]);
      assert EditedKeys(edits) == {edits[0].key} + EditedKeys(edits[1..]) by {
        assert forall i :: 0 < i < |edits| ==> edits[i] == edits[1..][i - 1];
      }
      AgreeExceptTrans(rest, ApplyEdit(m, edits[0]), m, EditedKeys(edits[1..]), {edits[0].key});
      rest
  }

  lemma {:induction false} ApplyEditsConcat(m: Multimap, a: seq<Edit>, b: seq<Edit>)
    ensures ApplyEdits(m, a + b) == ApplyEdits(ApplyEdits(m, a), b)
    decreases |a|
  {
    if |a| == 0 {
      assert a + b == b;
    } else {
      assert (a + b)[1..] == a[1..] + b;
      ApplyEditsConcat(ApplyEdit(m, a[0]), a[1..], b);
    }
  }

  /** Replace the list under `key` by the single `value`. */
  function Replace(key: string, value: string): seq<Edit>
  {
    [Delete(key), Append(key, value)]
  }

  /** The type branch's header edits: InfluxDB without basic auth replaces
      `Authorization` by its own credentials. */
  function TypeAuthEdits(ds: DataSource, util: Util): seq<Edit>
  {
    if ds.dsType == InfluxDb && !ds.basicAuth then Replace(Authorization, util.basicAuthHeader(ds.user, ds.password))
    else []
  }

  /** The basic-auth override's header edits. */
  function BasicAuthEdits(ds: DataSource, util: Util): seq<Edit>
  {
    if ds.basicAuth then Replace(Authorization, util.basicAuthHeader(ds.basicAuthUser, ds.basicAuthPassword))
    else []
  }

  /** The explicit override's header edits, decided by the inbound
      `X-DS-Authorization` alone. */
  function ExplicitAuthEdits(inbound: Multimap): seq<Edit>
  {
    var dsAuth := Get(inbound, DsAuthorization);
    if dsAuth != "" then [Delete(DsAuthorization)] + Replace(Authorization, dsAuth) else []
  }

  const StripEdits: seq<Edit> := [Delete(Cookie), Delete(SetCookie)]

  /** The plan for one request: the same decisions the director takes, read
      off the data source and the inbound headers only. */
  function PlanFor(ds: DataSource, proxyPath: string, target: TargetUrl, util: Util, inbound: Multimap): (p: Plan)
    ensures p.scheme == target.scheme && p.host == target.host
    ensures EditedKeys(p.headerEdits) <= Touched
    ensures EditedKeys(p.queryEdits) <= {UserParam, PasswordParam}
    ensures ds.dsType != InfluxDb08 ==> p.queryEdits == []
    ensures |p.headerEdits| >= 2 && p.headerEdits[|p.headerEdits| - 2..] == [Delete(Cookie), Delete(SetCookie)]
  {
    var legacy := ds.dsType == InfluxDb08;
    var path :=
      if legacy then util.joinUrlFragments(target.path, "db/" + ds.database + "/" + proxyPath)
      else util.joinUrlFragments(target.path, proxyPath);
    var queryEdits := if legacy then [Append(UserParam, ds.user), Append(PasswordParam, ds.password)] else [];
    var edits := TypeAuthEdits(ds, util) + BasicAuthEdits(ds, util) + ExplicitAuthEdits(inbound) + StripEdits;
    assert forall i :: 0 <= i < |edits| ==> edits[i].key in Touched;
    Plan(target.scheme, target.host, path, queryEdits, edits)
  }

  function ApplyPlan(p: Plan, req: Request): Request
  {
    req.(
      url := req.url.(
        scheme := p.scheme, host := p.host, path := p.path,
        query := ApplyEdits(req.url.query, p.queryEdits)),
      host := p.host,
      header := ApplyEdits(req.header, p.headerEdits))
  }

  lemma ApplyReplace(m: Multimap, key: string, value: string)
    ensures ApplyEdits(m, Replace(key, value)) == Add(Del(m, key), key, value)
  {
    assert Replace(key, value)[1..] == [Append(key, value)];
    assert Replace(key, value)[1..][1..] == [];
  }

  lemma ApplyDeleteThenReplace(m: Multimap, gone: string, key: string, value: string)
    ensures ApplyEdits(m, [Delete(gone)] + Replace(key, value)) == Add(Del(Del(m, gone), key), key, value)
  {
    assert ([Delete(gone)] + Replace(key, value))[1..] == Replace(key, value);
    ApplyReplace(Del(m, gone), key, value);
  }

  lemma ApplyDeleteTwo(m: Multimap, a: string, b: string)
    ensures ApplyEdits(m, [Delete(a), Delete(b)]) == Del(Del(m, a), b)
  {
    assert [Delete(a), Delete(b)][1..] == [Delete(b)];
    assert [Delete(b)][1..] == [];
  }

  /** The plan's header edits, applied to the inbound headers, give the
      director's outbound headers. */
  lemma {:induction false} HeaderEditsMatchDirector(ds: DataSource, proxyPath: string, target: TargetUrl, util: Util, req: Request)
    ensures ApplyEdits(req.header, PlanFor(ds, proxyPath, target, util, req.header).headerEdits)
         == Director(ds, proxyPath, target, util, req).header
  {
    var typeAuth := TypeAuthEdits(ds, util);
    var basicAuth := BasicAuthEdits(ds, util);
    var dsAuth := Get(req.header, DsAuthorization);
    var explicit := ExplicitAuthEdits(req.header);
    var strip := StripEdits;
    assert PlanFor(ds, proxyPath, target, util, req.header).headerEdits == typeAuth + basicAuth + explicit + strip;

    var r1 := Retarget(target, req);
    var r2 := TypeBranch(ds, proxyPath, target, util, r1);
    var r3 := BasicAuthOverride(ds, util, r2);
    var r4 := DsAuthOverride(r3);
    var r5 := StripCookies(r4);
    assert r5 == Director(ds, proxyPath, target, util, req);

    var h := req.header;
    if ds.dsType == InfluxDb && !ds.basicAuth {
      ApplyReplace(h, Authorization, util.basicAuthHeader(ds.user, ds.password));
    }
    assert r2.header == ApplyEdits(h, typeAuth);
    if ds.basicAuth {
      ApplyReplace(r2.header, Authorization, util.basicAuthHeader(ds.basicAuthUser, ds.basicAuthPassword));
    }
    assert r3.header == ApplyEdits(r2.header, basicAuth);
    assert Get(r3.header, DsAuthorization) == dsAuth;
    if dsAuth != "" {
      ApplyDeleteThenReplace(r3.header, DsAuthorization, Authorization, dsAuth);
    }
    assert r4.header == ApplyEdits(r3.header, explicit);
    ApplyDeleteTwo(r4.header, Cookie, SetCookie);
    assert r5.header == ApplyEdits(r4.header, strip);

    ApplyEditsConcat(h, typeAuth, basicAuth);
    ApplyEditsConcat(h, typeAuth + basicAuth, explicit);
    ApplyEditsConcat(h, typeAuth + basicAuth + explicit, strip);
  }

  lemma ApplyAppendTwo(m: Multimap, k1: string, v1: string, k2: string, v2: string)
    ensures ApplyEdits(m, [Append(k1, v1), Append(k2, v2)]) == Add(Add(m, k1, v1), k2, v2)
  {
    assert [Append(k1, v1), Append(k2, v2)][1..] == [Append(k2, v2)];
    assert [Append(k2, v2)][1..] == [];
  }

  /** The plan's query edits, applied to the inbound query, give the
      director's outbound query. */
  lemma QueryEditsMatchDirector(ds: DataSource, proxyPath: string, target: TargetUrl, util: Util, req: Request)
    ensures ApplyEdits(req.url.query, PlanFor(ds, proxyPath, target, util, req.header).queryEdits)
         == Director(ds, proxyPath, target, util, req).url.query
  {
    var edits := PlanFor(ds, proxyPath, target, util, req.header).queryEdits;
    var r1 := Retarget(target, req);
    var r2 := TypeBranch(ds, proxyPath, target, util, r1);
    var r3 := BasicAuthOverride(ds, util, r2);
    var r4 := DsAuthOverride(r3);
    var r5 := StripCookies(r4);
    assert r5 == Director(ds, proxyPath, target, util, req);
    assert r5.url.query == r2.url.query;
    if ds.dsType == InfluxDb08 {
      assert edits == [Append(UserParam, ds.user), Append(PasswordParam, ds.password)];
      ApplyAppendTwo(req.url.query, UserParam, ds.user, PasswordParam, ds.password);
    } else {
      assert edits == [];
    }
  }

  /** Deciding first and applying afterwards gives the director's request. */
  lemma {:induction false} DirectorIsPlanApplied(ds: DataSource, proxyPath: string, target: TargetUrl, util: Util, req: Request)
    ensures Director(ds, proxyPath, target, util, req) == ApplyPlan(PlanFor(ds, proxyPath, target, util, req.header), req)
  {
    var p := PlanFor(ds, proxyPath, target, util, req.header);
    var r := Director(ds, proxyPath, target, util, req);
    var a := ApplyPlan(p, req);
    HeaderEditsMatchDirector(ds, proxyPath, target, util, req);
    QueryEditsMatchDirector(ds, proxyPath, target, util, req);
    assert r.header == a.header;
    assert r.url.query == a.url.query;
    assert r.url.path == a.url.path;
    assert r.url == a.url;
  }
}
