/**
 * Host names as the worker compares them (internal/worker/worker.go).
 * Case folding is modelled on ASCII letters.
 */
module Hosts {

  function LowerChar(c: char): char {
    if 'A' <= c <= 'Z' then c - 'A' + 'a' else c
  }

  function Lower(s: string): (r: string)
    ensures |r| == |s|
    ensures forall i :: 0 <= i < |s| ==> r[i] == LowerChar(s[i])
  {
    seq(|s|, i requires 0 <= i < |s| => LowerChar(s[i]))
  }

  predicate HasSuffix(s: string, t: string) {
    |t| <= |s| && s[|s| - |t|..] == t
  }

  /** One trailing dot removed, if there is one. */
  function TrimDot(s: string): string {
    if HasSuffix(s, ".") then s[..|s| - 1] else s
  }

  /** The form in which isSubdomain compares two hosts. */
  function Canonical(host: string): string {
    TrimDot(Lower(host))
  }

  predicate EqualFold(a: string, b: string) {
    Lower(a) == Lower(b)
  }

  /** The one string of the same length with each capital letter 32 places on and every other character kept. */
  lemma LowerExact(s: string, r: string)
    ensures r == Lower(s) <==>
            && |r| == |s|
            && forall i :: 0 <= i < |s| ==> r[i] as int == s[i] as int + if 'A' <= s[i] <= 'Z' then 32 else 0
  {
    if |r| == |s| && forall i :: 0 <= i < |s| ==> r[i] as int == s[i] as int + if 'A' <= s[i] <= 'Z' then 32 else 0 {
      assert forall i :: 0 <= i < |s| ==> r[i] == LowerChar(s[i]);
    }
  }

  lemma SuffixExact(s: string, t: string)
    ensures HasSuffix(s, t) <==> exists front :: s == front + t
  {
    if HasSuffix(s, t) {
      assert s == s[..|s| - |t|] + t;
    }
  }

  /** The lower-case host without its trailing dot; a dot before that stays. */
  lemma CanonicalExact(host: string, c: string)
    ensures c == Canonical(host) <==> Lower(host) == c + "." || (Lower(host) == c && (c == "" || c[|c| - 1] != '.'))
  {
    var l := Lower(host);
    DotLast(l);
    if HasSuffix(l, ".") {
      assert l == l[..|l| - 1] + ".";
    }
    if l == c + "." {
      assert l[|l| - 1] == '.' && l[..|l| - 1] == c;
    }
  }

  lemma DotLast(s: string)
    ensures HasSuffix(s, ".") <==> s != "" && s[|s| - 1] == '.'
  {
    if s != "" {
      assert s[|s| - 1..] == [s[|s| - 1]];
    }
  }

  predicate IsSubdomain(host: string, parent: string) {
    var h := Canonical(host);
    var p := Canonical(parent);
    h != p && HasSuffix(h, "." + p)
  }

  /** A longer name that ends in the other's, at a label boundary. */
  predicate Below(host: string, parent: string) {
    var h, p := Canonical(host), Canonical(parent);
    |h| > |p| && h[|h| - |p|..] == p && h[|h| - |p| - 1] == '.'
  }

  /** isSubdomain finds exactly the names that put something and a dot before the other's. */
  lemma SubdomainExact(host: string, parent: string)
    ensures IsSubdomain(host, parent) <==> exists front :: Canonical(host) == front + "." + Canonical(parent)
    ensures IsSubdomain(host, parent) <==> Below(host, parent)
  {
    AfterDot(Canonical(host), Canonical(parent));
  }

  lemma AfterDot(h: string, p: string)
    ensures HasSuffix(h, "." + p) <==> |h| > |p| && h[|h| - |p|..] == p && h[|h| - |p| - 1] == '.'
    ensures HasSuffix(h, "." + p) <==> exists front :: h == front + "." + p
  {
    var t := "." + p;
    if HasSuffix(h, t) {
      assert h == h[..|h| - |t|] + "." + p;
    }
    if front :| h == front + "." + p {
      assert |h| - |t| == |front|;
      assert h[|front|..] == t;
    }
    if |h| > |p| && h[|h| - |p|..] == p && h[|h| - |p| - 1] == '.' {
      assert h[|h| - |t|..] == [h[|h| - |t|]] + h[|h| - |p|..];
    }
  }

  lemma SubdomainIrreflexive(a: string)
    ensures !IsSubdomain(a, a)
  {
  }

  lemma SubdomainTransitive(a: string, b: string, c: string)
    requires IsSubdomain(a, b) && IsSubdomain(b, c)
    ensures IsSubdomain(a, c)
  {
    var x, y, z := Canonical(a), Canonical(b), Canonical(c);
    assert |x| > |y| > |z|;
    assert "." + y == x[|x| - |y| - 1..];
    assert y == x[|x| - |y|..] by { assert y == ("." + y)[1..]; }
    assert "." + z == y[|y| - |z| - 1..] == x[|x| - |z| - 1..];
  }

  lemma SubdomainAsymmetric(a: string, b: string)
    requires IsSubdomain(a, b)
    ensures !IsSubdomain(b, a)
  {
    if IsSubdomain(b, a) {
      SubdomainTransitive(a, b, a);
    }
  }

  /** A link's domain lies at a seed domain or, where allowed, below it. */
  predicate Within(domain: string, seed: string, allowSubdomains: bool) {
    || Canonical(domain) == Canonical(seed)
    || (allowSubdomains && Below(domain, seed))
  }

  /** The test every discovered link has to pass before it is inserted. */
  predicate InScope(link: string, page: string, allowSubdomains: bool, allowExternal: bool) {
    var same := EqualFold(link, page);
    var sub := IsSubdomain(link, page);
    && (same || sub || allowExternal)
    && (sub ==> allowSubdomains)
  }

  /** One crawl step keeps inside the region a seed spans: the step of the scope-closure induction. */
  lemma InScopeStaysWithin(link: string, page: string, seed: string, allowSubdomains: bool)
    requires InScope(link, page, allowSubdomains, false)
    requires Within(page, seed, allowSubdomains)
    ensures Within(link, seed, allowSubdomains)
  {
    SubdomainExact(link, page);
    SubdomainExact(page, seed);
    SubdomainExact(link, seed);
    if IsSubdomain(link, page) && IsSubdomain(page, seed) {
      SubdomainTransitive(link, page, seed);
    }
  }

  /** A name below the page's needs subdomains to be allowed, and any other that is not the page's external links. */
  lemma InScopeExact(link: string, page: string, allowSubdomains: bool, allowExternal: bool)
    ensures InScope(link, page, allowSubdomains, allowExternal) <==>
            if Below(link, page) then allowSubdomains else Lower(link) == Lower(page) || allowExternal
  {
    SubdomainExact(link, page);
  }

  /** From a page at a name, front.name is followed if subdomains are, and any other longer name is not. */
  lemma LabelBoundary(front: string, name: string)
    requires PlainName(front + name) && name != "" && front != ""
    ensures InScope(front + name, name, true, false) <==> front[|front| - 1] == '.'
    ensures InScope(front + name, name, false, true) <==> front[|front| - 1] != '.'
  {
    var host := front + name;
    assert name == host[|front|..];
    assert PlainName(name) by {
      assert forall i :: 0 <= i < |name| ==> name[i] == host[|front| + i];
    }
    Plain(host);
    Plain(name);
    InScopeExact(host, name, true, false);
    InScopeExact(host, name, false, true);
  }

  lemma NotBelow()
    ensures !InScope("notshop.com", "shop.com", true, false)
  {
    var host, name := "notshop.com", "shop.com";
    assert host[3..] == name;
    Plain(host);
    Plain(name);
    InScopeExact(host, name, true, false);
  }

  lemma OneBelow()
    ensures InScope("a.shop.com", "shop.com", true, false)
  {
    var host, name := "a.shop.com", "shop.com";
    assert host[2..] == name;
    Plain(host);
    Plain(name);
    InScopeExact(host, name, true, false);
  }

  /** Without capital letters and without a trailing dot. */
  predicate PlainName(s: string) {
    && (forall i :: 0 <= i < |s| ==> !('A' <= s[i] <= 'Z'))
    && (s == "" || s[|s| - 1] != '.')
  }

  lemma Plain(s: string)
    requires PlainName(s)
    ensures Lower(s) == s == Canonical(s)
  {
    assert Lower(s) == s;
    DotLast(s);
  }
}
