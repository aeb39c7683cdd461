/**
 * The URL normal form of internal/urlnorm/url.go, which is the deduplication key of candidates. It is
 * stated on parsed URLs with decoded query pairs; hosts are names or IPv4 addresses.
 */
module UrlNorm {
  import opened Basics
  import opened Ordering
  import Hosts

  datatype Pair = Pair(key: string, value: string)

  /** emptyQuery marks a URL written with a question mark and nothing after it, which is printed back. */
  datatype Url = Url(scheme: string, user: string, host: string, port: Option<string>, path: string,
                     emptyQuery: bool, query: seq<Pair>, fragment: string)

  const TRACKING := ["utm_source", "utm_medium", "utm_campaign", "utm_term", "utm_content", "gclid", "fbclid",
                     "msclkid", "mc_cid", "mc_eid"]

  type Values = map<string, seq<string>>

  // ---- query strings

  function Keys(query: seq<Pair>): set<string> {
    set p | p in query :: p.key
  }

  /** The values given for a key, in order. */
  function ValuesOf(query: seq<Pair>, key: string): seq<string> {
    if query == [] then []
    else ValuesOf(query[..|query| - 1], key) +
         if query[|query| - 1].key == key then [query[|query| - 1].value] else []
  }

  function Group(key: string, values: seq<string>): seq<Pair> {
    if values == [] then [] else Group(key, values[..|values| - 1]) + [Pair(key, values[|values| - 1])]
  }

  function Flatten(m: Values, keys: seq<string>): seq<Pair>
    requires forall k :: k in keys ==> k in m
  {
    if keys == [] then [] else Group(keys[0], m[keys[0]]) + Flatten(m, keys[1..])
  }

  /** url.Values of a query: every key with its values. */
  method ParseQuery(query: seq<Pair>) returns (m: Values)
    ensures m.Keys == Keys(query) && forall k :: k in m ==> m[k] == ValuesOf(query, k)
  {
    m := map[];
    var i := 0;
    while i < |query|
      invariant 0 <= i <= |query|
      invariant m.Keys == Keys(query[..i])
      invariant forall k :: k in m ==> m[k] == ValuesOf(query[..i], k)
    {
      var p := query[i];
      assert query[..i + 1] == query[..i] + [p];
      if p.key !in m {
        NoValues(query[..i], p.key);
      }
      m := m[p.key := (if p.key in m then m[p.key] else []) + [p.value]];
      i := i + 1;
    }
    assert query[..i] == query;
  }

  /** Values.Encode: keys in increasing order. */
  method Encode(m: Values) returns (query: seq<Pair>)
    ensures query == Flatten(m, (SortedMeaning(m.Keys); Sorted(m.Keys)))
  {
    query := [];
    var rest := m.Keys;
    SortedMeaning(m.Keys);
    ghost var keys, n := Sorted(m.Keys), 0;
    assert forall k :: k in keys ==> k in Elements(keys);
    while rest != {}
      invariant rest <= m.Keys && n <= |keys| && keys[n..] == Sorted(rest)
      invariant query == Flatten(m, keys[..n])
      decreases rest
    {
      var k := FindLeast(rest);
      assert keys[n..][0] == k && keys[n..][1..] == keys[n + 1..];
      assert keys[..n + 1] == keys[..n] + [k];
      FlattenAppend(m, keys[..n], k);
      query := query + Group(k, m[k]);
      rest, n := rest - {k}, n + 1;
    }
    assert keys[n..] == [] && keys[..n] == keys;
  }

  lemma {:induction false} FlattenAppend(m: Values, keys: seq<string>, k: string)
    requires (forall x :: x in keys ==> x in m) && k in m
    ensures Flatten(m, keys + [k]) == Flatten(m, keys) + Group(k, m[k])
  {
    if keys == [] {
      assert Flatten(m, [k]) == Group(k, m[k]) + Flatten(m, []);
    } else {
      FlattenAppend(m, keys[1..], k);
      var first, rest := Group(keys[0], m[keys[0]]), Flatten(m, keys[1..]);
      assert (keys + [k])[1..] == keys[1..] + [k];
      assert first + (rest + Group(k, m[k])) == first + rest + Group(k, m[k]);
    }
  }

  lemma {:induction false} NoValues(query: seq<Pair>, key: string)
    ensures ValuesOf(query, key) == [] <==> key !in Keys(query)
  {
    if query == [] {
    } else {
      var n := |query| - 1;
      NoValues(query[..n], key);
      assert query == query[..n] + [query[n]];
    }
  }

  lemma {:induction false} ValuesAppend(a: seq<Pair>, b: seq<Pair>, key: string)
    ensures ValuesOf(a + b, key) == ValuesOf(a, key) + ValuesOf(b, key)
  {
    if b == [] {
      assert a + b == a;
    } else {
      var n := |b| - 1;
      assert (a + b)[..|a + b| - 1] == a + b[..n];
      ValuesAppend(a, b[..n], key);
    }
  }

  lemma {:induction false} ValuesOfGroup(k: string, values: seq<string>, key: string)
    ensures ValuesOf(Group(k, values), key) == if k == key then values else []
  {
    if values == [] {
    } else {
      ValuesOfGroup(k, values[..|values| - 1], key);
      assert Group(k, values)[..|Group(k, values)| - 1] == Group(k, values[..|values| - 1]);
    }
  }

  /** Decoding what was encoded gives back the values of every key. */
  lemma {:induction false} ValuesOfFlatten(m: Values, keys: seq<string>, key: string)
    requires (forall x :: x in keys ==> x in m) && Increasing(keys)
    ensures ValuesOf(Flatten(m, keys), key) == if key in keys then m[key] else []
  {
    if keys == [] {
    } else {
      ValuesOfFlatten(m, keys[1..], key);
      ValuesOfGroup(keys[0], m[keys[0]], key);
      ValuesAppend(Group(keys[0], m[keys[0]]), Flatten(m, keys[1..]), key);
      if key == keys[0] {
        LessIrreflexive(key);
      }
    }
  }

  /** Encoding depends only on the keys and their values. */
  lemma {:induction false} FlattenCongruent(m: Values, n: Values, keys: seq<string>)
    requires forall k :: k in keys ==> k in m && k in n && m[k] == n[k]
    ensures Flatten(m, keys) == Flatten(n, keys)
  {
    if keys == [] {
    } else {
      FlattenCongruent(m, n, keys[1..]);
    }
  }

  // ---- the normal form

  ghost function Kept(query: seq<Pair>): Values {
    map k | k in Keys(query) && k !in TRACKING :: ValuesOf(query, k)
  }

  ghost function NormalQuery(query: seq<Pair>): seq<Pair> {
    SortedMeaning(Kept(query).Keys);
    Flatten(Kept(query), Sorted(Kept(query).Keys))
  }

  function DefaultPort(scheme: string): string {
    if scheme == "http" then "80" else "443"
  }

  function NormalPort(scheme: string, port: Option<string>): Option<string> {
    if port == Some(DefaultPort(scheme)) then None else port
  }

  predicate Supported(u: Url) {
    (u.scheme == "http" || u.scheme == "https") && u.host != ""
  }

  ghost function Normal(u: Url): Url {
    u.(host := Hosts.Lower(u.host), port := NormalPort(u.scheme, u.port), path := NormalPath(u.path),
       query := NormalQuery(u.query), fragment := "")
  }

  /** The loop that deletes the tracking keys. */
  method DropTracking(m: Values) returns (q: Values)
    ensures q == map k | k in m && k !in TRACKING :: m[k]
  {
    q := m;
    var i := 0;
    while i < |TRACKING|
      invariant 0 <= i <= |TRACKING|
      invariant q == map k | k in m && k !in TRACKING[..i] :: m[k]
    {
      assert TRACKING[..i + 1] == TRACKING[..i] + [TRACKING[i]];
      q := q - {TRACKING[i]};
      i := i + 1;
    }
    assert TRACKING[..i] == TRACKING;
  }

  /** The parsed record that URL changes in place. */
  class ParsedURL {
    const scheme: string
    const user: string
    const emptyQuery: bool
    var host: string
    var port: Option<string>
    var path: string
    var query: seq<Pair>
    var fragment: string

    ghost function Value(): Url
      reads this
    {
      Url(scheme, user, host, port, path, emptyQuery, query, fragment)
    }

    constructor (u: Url)
      ensures Value() == u
    {
      scheme, user, host, port := u.scheme, u.user, u.host, u.port;
      path, emptyQuery, query, fragment := u.path, u.emptyQuery, u.query, u.fragment;
    }

    method Normalize() returns (ok: bool)
      modifies this
      ensures ok <==> Supported(old(Value()))
      ensures Value() == if ok then Normal(old(Value())) else old(Value())
    {
      if (scheme != "http" && scheme != "https") || host == "" {
        return false;
      }
      fragment := "";
      host := Hosts.Lower(host);
      if (scheme == "http" && port == Some("80")) || (scheme == "https" && port == Some("443")) {
        port := None;
      }
      var q := ParseQuery(query);
      q := DropTracking(q);
      assert q == Kept(query);
      query := Encode(q);
      if path == "" {
        path := "/";
      }
      ok := true;
    }
  }

  /** The host without a trailing dot: the scope key. */
  function Domain(u: Url): string {
    Hosts.Lower(Hosts.TrimDot(u.host))
  }

  // ---- what the normal form identifies

  function EffectivePort(scheme: string, port: Option<string>): string {
    if port.Some? then port.value else DefaultPort(scheme)
  }

  /** Every parameter but the tracking ones has the same values in the same order. */
  ghost predicate SameParameters(a: seq<Pair>, b: seq<Pair>) {
    forall k :: k !in TRACKING ==> ValuesOf(a, k) == ValuesOf(b, k)
  }

  /**
   * Same resource, as far as the engine is concerned: equal but for fragment, host case, an explicit default
   * port, an empty path, tracking parameters, and the order of parameters with different names; compare
   * sections 6.2.2.1 and 6.2.3 of RFC 3986.
   */
  ghost predicate Equivalent(a: Url, b: Url) {
    && a.scheme == b.scheme && a.user == b.user && a.emptyQuery == b.emptyQuery
    && Hosts.EqualFold(a.host, b.host)
    && EffectivePort(a.scheme, a.port) == EffectivePort(b.scheme, b.port)
    && (a.path == b.path || (a.path in ["", "/"] && b.path in ["", "/"]))
    && SameParameters(a.query, b.query)
  }

  lemma NormalQueryValues(query: seq<Pair>, key: string)
    ensures ValuesOf(NormalQuery(query), key) == if key in TRACKING then [] else ValuesOf(query, key)
  {
    SortedMeaning(Kept(query).Keys);
    assert forall k :: k in Sorted(Kept(query).Keys) <==> k in Elements(Sorted(Kept(query).Keys));
    ValuesOfFlatten(Kept(query), Sorted(Kept(query).Keys), key);
    NoValues(query, key);
  }

  lemma NormalQueryCongruent(a: seq<Pair>, b: seq<Pair>)
    requires SameParameters(a, b)
    ensures NormalQuery(a) == NormalQuery(b)
  {
    forall k ensures k in Kept(a) <==> k in Kept(b) {
      NoValues(a, k);
      NoValues(b, k);
    }
    assert Kept(a) == Kept(b);
  }

  lemma SameNormalQuery(a: seq<Pair>, b: seq<Pair>)
    ensures NormalQuery(a) == NormalQuery(b) <==> SameParameters(a, b)
  {
    if NormalQuery(a) == NormalQuery(b) {
      forall k | k !in TRACKING ensures ValuesOf(a, k) == ValuesOf(b, k) {
        NormalQueryValues(a, k);
        NormalQueryValues(b, k);
      }
    } else if SameParameters(a, b) {
      NormalQueryCongruent(a, b);
    }
  }

  lemma SamePort(scheme: string, p: Option<string>, q: Option<string>)
    ensures NormalPort(scheme, p) == NormalPort(scheme, q) <==> EffectivePort(scheme, p) == EffectivePort(scheme, q)
  {
  }

  function NormalPath(path: string): string {
    if path == "" then "/" else path
  }

  lemma SamePath(p: string, q: string)
    ensures NormalPath(p) == NormalPath(q) <==> p == q || (p in ["", "/"] && q in ["", "/"])
  {
  }

  /** The normal form identifies exactly the equivalent URLs. */
  lemma NormalExact(a: Url, b: Url)
    requires Supported(a) && Supported(b)
    ensures Normal(a) == Normal(b) <==> Equivalent(a, b)
  {
    SameNormalQuery(a.query, b.query);
    SamePort(a.scheme, a.port, b.port);
    SamePath(a.path, b.path);
  }

  lemma LowerLower(s: string)
    ensures Hosts.Lower(Hosts.Lower(s)) == Hosts.Lower(s)
  {
  }

  /** A normal form is its own normal form, and is equivalent to the URL it came from. */
  lemma NormalIdempotent(u: Url)
    requires Supported(u)
    ensures Supported(Normal(u)) && Normal(Normal(u)) == Normal(u) && Equivalent(u, Normal(u))
  {
    LowerLower(u.host);
    assert |Hosts.Lower(u.host)| == |u.host|;
    forall k | k !in TRACKING ensures ValuesOf(Normal(u).query, k) == ValuesOf(u.query, k) {
      NormalQueryValues(u.query, k);
    }
    assert Supported(Normal(u));
    NormalExact(u, Normal(u));
  }

  /** No tracking parameter survives. */
  lemma NoTracking(u: Url, key: string)
    requires key in {"utm_source", "utm_medium", "utm_campaign", "utm_term", "utm_content", "gclid", "fbclid",
                     "msclkid", "mc_cid", "mc_eid"}
    ensures key !in Keys(Normal(u).query)
  {
    NormalQueryValues(u.query, key);
    NoValues(Normal(u).query, key);
  }

  /** Equivalent URLs have the same scope key. */
  lemma DomainOfEquivalent(a: Url, b: Url)
    requires Equivalent(a, b)
    ensures Domain(a) == Domain(b)
  {
    assert Hosts.Lower(a.host) == Hosts.Lower(b.host);
    LowerTrim(a.host);
    LowerTrim(b.host);
  }

  /** The scope key is the host in lower case, without its trailing dot if it has one. */
  lemma DomainExact(u: Url, d: string)
    ensures d == Domain(u) <==>
            Hosts.Lower(u.host) == d + "." || (Hosts.Lower(u.host) == d && (d == "" || d[|d| - 1] != '.'))
  {
    LowerTrim(u.host);
    Hosts.CanonicalExact(u.host, d);
  }

  lemma LowerTrim(s: string)
    ensures Hosts.Lower(Hosts.TrimDot(s)) == Hosts.TrimDot(Hosts.Lower(s))
  {
    if s != "" {
      assert s[|s| - 1..] == [s[|s| - 1]] && Hosts.Lower(s)[|s| - 1..] == [Hosts.LowerChar(s[|s| - 1])];
    }
  }
}
