/**
 Go's `http.Header` and `url.Values`: a map from a key to the ordered list of
 values sent under it. Keys are taken to be canonical already (the canonical
 spelling `http.Header` applies to its keys is not modelled), so a key is
 compared exactly.
 */
module Headers {

  type Multimap = map<string, seq<string>>

  /** The values listed under `key`; an absent key lists none. */
  function ValuesOf(m: Multimap, key: string): seq<string>
  {
    if key in m then m[key] else []
  }

  /** `m` and `m'` hold the same keys with the same value lists, except
      possibly at the keys in `keys`. */
  ghost predicate AgreeExcept(m: Multimap, m': Multimap, keys: set<string>)
  {
    forall k :: k !in keys ==> (k in m <==> k in m') && (k in m ==> m[k] == m'[k])
  }

  /** `Get`: the first value under `key`, or "" when `key` is absent or lists
      no value. */
  function Get(m: Multimap, key: string): (v: string)
    ensures v != "" ==> key in m && |m[key]| > 0 && m[key][0] == v
    ensures key in m && |m[key]| > 0 ==> v == m[key][0]
    ensures key !in m || |m[key]| == 0 ==> v == ""
  {
    if key in m && |m[key]| > 0 then m[key][0] else ""
  }

  /** `Del`: forgets `key` and everything listed under it. */
  function Del(m: Multimap, key: string): (r: Multimap)
    ensures key !in r
    ensures AgreeExcept(r, m, {key})
  {
    m - {key}
  }

  /** `Add`: appends `value` after the values already under `key`. */
  function Add(m: Multimap, key: string, value: string): (r: Multimap)
    ensures key in r
    ensures |r[key]| == |ValuesOf(m, key)| + 1
    ensures r[key][..|ValuesOf(m, key)|] == ValuesOf(m, key)
    ensures r[key][|ValuesOf(m, key)|] == value
    ensures AgreeExcept(r, m, {key})
  {
    m[key := ValuesOf(m, key) + [value]]
  }

  /** Direct assignment `h[key] = values`: replaces the list under `key`. */
  function Put(m: Multimap, key: string, values: seq<string>): (r: Multimap)
    ensures key in r && r[key] == values
    ensures AgreeExcept(r, m, {key})
  {
    m[key := values]
  }

  /** `Del` followed by `Add` on the same key leaves exactly one value there,
      whatever was listed before: the "replace" idiom the proxy relies on. */
  lemma DelThenAdd(m: Multimap, key: string, value: string)
    ensures ValuesOf(Add(Del(m, key), key, value), key) == [value]
    ensures Get(Add(Del(m, key), key, value), key) == value
  {
  }

  /** Agreement composes: keys outside both exception sets keep their lists. */
  lemma AgreeExceptTrans(a: Multimap, b: Multimap, c: Multimap, ka: set<string>, kb: set<string>)
    requires AgreeExcept(a, b, ka)
    requires AgreeExcept(b, c, kb)
    ensures AgreeExcept(a, c, ka + kb)
  {
  }

  /** `m` and `m'` hold the same list under `key`, or both lack it. */
  ghost predicate SameAt(m: Multimap, m': Multimap, key: string)
  {
    (key in m <==> key in m') && (key in m ==> m[key] == m'[key])
  }

  lemma AgreeExceptSym(a: Multimap, b: Multimap, keys: set<string>)
    requires AgreeExcept(a, b, keys)
    ensures AgreeExcept(b, a, keys)
  {
  }

  /** Agreement at one more key shrinks the exception set by that key. */
  lemma AgreeExceptFill(a: Multimap, b: Multimap, keys: set<string>, key: string)
    requires AgreeExcept(a, b, keys)
    requires SameAt(a, b, key)
    ensures AgreeExcept(a, b, keys - {key})
  {
  }

  /** Two maps that agree everywhere outside the empty set are equal. */
  lemma AgreeEverywhere(a: Multimap, b: Multimap)
    requires AgreeExcept(a, b, {})
    ensures a == b
  {
    assert a.Keys == b.Keys;
  }
}
