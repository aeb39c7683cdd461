/** SitemapProvider.Discover (internal/discovery/providers.go): a bounded worklist over sitemap documents. */
module Sitemap {
  import Hosts

  const BOUND := 20

  predicate OccursAt(s: string, t: string, i: nat) {
    i + |t| <= |s| && s[i..i + |t|] == t
  }

  predicate Contains(s: string, t: string) {
    exists i :: 0 <= i <= |s| && OccursAt(s, t, i)
  }

  /** Locations that are followed instead of reported. */
  predicate IsSitemap(url: string) {
    var lower := Hosts.Lower(url);
    Hosts.HasSuffix(lower, ".xml") || Contains(lower, "sitemap")
  }

  lemma IsSitemapExact(url: string)
    ensures IsSitemap(url) <==> exists front, back :: Lists(Hosts.Lower(url), front, back)
  {
    var lower := Hosts.Lower(url);
    Hosts.SuffixExact(lower, ".xml");
    if Hosts.HasSuffix(lower, ".xml") {
      var front :| lower == front + ".xml";
      assert Lists(lower, front, "");
    } else if Contains(lower, "sitemap") {
      var i :| 0 <= i <= |lower| && OccursAt(lower, "sitemap", i);
      assert lower == lower[..i] + "sitemap" + lower[i + 7..];
      assert Lists(lower, lower[..i], lower[i + 7..]);
    }
    if front, back :| Lists(lower, front, back) {
      if lower == front + "sitemap" + back {
        assert OccursAt(lower, "sitemap", |front|);
      }
    }
  }

  /** s ends in .xml or has sitemap in it. */
  predicate Lists(s: string, front: string, back: string) {
    s == front + ".xml" || s == front + "sitemap" + back
  }

  function TrimSlashes(s: string): string {
    if s != "" && s[|s| - 1] == '/' then TrimSlashes(s[..|s| - 1]) else s
  }

  function Roots(base: string): seq<string> {
    [TrimSlashes(base) + "/sitemap.xml", TrimSlashes(base) + "/sitemap_index.xml"]
  }

  /** The base without the slashes at its end, however many. */
  lemma {:induction false} TrimExact(s: string)
    ensures TrimSlashes(s) <= s && (TrimSlashes(s) == "" || TrimSlashes(s)[|TrimSlashes(s)| - 1] != '/')
    ensures forall i :: |TrimSlashes(s)| <= i < |s| ==> s[i] == '/'
  {
    if s != "" && s[|s| - 1] == '/' {
      TrimExact(s[..|s| - 1]);
    }
  }

  /**
   * The web as the provider sees it: the trimmed <loc> entries of a document that could be fetched, and
   * the URL policy.
   */
  datatype Web = Web(docs: map<string, seq<string>>, allowed: set<string>)

  function Locs(web: Web, src: string): seq<string> {
    if src in web.docs then web.docs[src] else []
  }

  predicate Child(web: Web, src: string, url: string) {
    url in Locs(web, src) && url in web.allowed && IsSitemap(url)
  }

  function Leaves(web: Web, locs: seq<string>): seq<string> {
    if locs == [] then []
    else
      var url := locs[|locs| - 1];
      Leaves(web, locs[..|locs| - 1]) + if url in web.allowed && !IsSitemap(url) then [url] else []
  }

  /** The leaf locations of the documents, in order. */
  function LeavesOf(web: Web, order: seq<string>): seq<string> {
    if order == [] then []
    else LeavesOf(web, order[..|order| - 1]) + Leaves(web, Locs(web, order[|order| - 1]))
  }

  lemma {:induction false} LeavesExact(web: Web, locs: seq<string>, url: string)
    ensures multiset(Leaves(web, locs))[url] == if url in web.allowed && !IsSitemap(url) then multiset(locs)[url] else 0
  {
    if locs == [] {
    } else {
      LeavesExact(web, locs[..|locs| - 1], url);
      assert locs == locs[..|locs| - 1] + [locs[|locs| - 1]];
    }
  }

  /** What is reported is what some requested document lists, is allowed and is not a sitemap. */
  lemma {:induction false} LeavesOfExact(web: Web, order: seq<string>, url: string)
    ensures url in LeavesOf(web, order) <==>
            url in web.allowed && !IsSitemap(url) && exists src :: src in order && url in Locs(web, src)
  {
    if order == [] {
    } else {
      var n := |order| - 1;
      LeavesOfExact(web, order[..n], url);
      LeavesExact(web, Locs(web, order[n]), url);
      assert url in multiset(Leaves(web, Locs(web, order[n]))) <==> url in Leaves(web, Locs(web, order[n]));
      assert url in multiset(Locs(web, order[n])) <==> url in Locs(web, order[n]);
      assert order == order[..n] + [order[n]];
    }
  }

  /** A chain of sitemaps, each listed in the one before, that starts at a root. */
  predicate Chain(web: Web, base: string, path: seq<string>) {
    && path != [] && path[0] in Roots(base)
    && forall i :: 0 <= i < |path| - 1 ==> Child(web, path[i], path[i + 1])
  }

  ghost predicate Reachable(web: Web, base: string, url: string) {
    exists path :: Chain(web, base, path) && path[|path| - 1] == url
  }

  lemma ReachableRoot(web: Web, base: string, url: string)
    requires url in Roots(base)
    ensures Reachable(web, base, url)
  {
    assert Chain(web, base, [url]);
  }

  lemma ReachableChild(web: Web, base: string, src: string, url: string)
    requires Reachable(web, base, src) && Child(web, src, url)
    ensures Reachable(web, base, url)
  {
    var path :| Chain(web, base, path) && path[|path| - 1] == src;
    var longer := path + [url];
    assert longer[0] == path[0] && longer[|longer| - 1] == url;
    forall i | 0 <= i < |longer| - 1 ensures Child(web, longer[i], longer[i + 1]) {
      if i < |path| - 1 {
        assert Child(web, path[i], path[i + 1]);
      }
    }
  }

  /** A set that has the roots and is closed under children has everything reachable. */
  lemma {:induction false} ClosedHasChain(web: Web, base: string, closed: set<string>, path: seq<string>)
    requires forall r :: r in Roots(base) ==> r in closed
    requires forall src, url :: src in closed && Child(web, src, url) ==> url in closed
    requires Chain(web, base, path)
    ensures path[|path| - 1] in closed
  {
    if |path| > 1 {
      var n := |path| - 1;
      assert Chain(web, base, path[..n]);
      ClosedHasChain(web, base, closed, path[..n]);
      assert Child(web, path[n - 1], path[n - 1 + 1]);
    }
  }

  lemma ClosedHasReachable(web: Web, base: string, closed: set<string>)
    requires forall r :: r in Roots(base) ==> r in closed
    requires forall src, url :: src in closed && Child(web, src, url) ==> url in closed
    ensures forall url :: Reachable(web, base, url) ==> url in closed
  {
    forall url | Reachable(web, base, url) ensures url in closed {
      var path :| Chain(web, base, path) && path[|path| - 1] == url;
      ClosedHasChain(web, base, closed, path);
    }
  }

  /** What is still owed: every root and every child of a visited document is visited or queued. */
  ghost predicate Covered(web: Web, base: string, seen: set<string>, queue: seq<string>) {
    && (forall r :: r in Roots(base) ==> r in seen || r in queue)
    && (forall src, url :: src in seen && Child(web, src, url) ==> url in seen || url in queue)
  }

  /** The inner loop over one document's locations. */
  method Scan(web: Web, locs: seq<string>, seen: set<string>, queue: seq<string>, urls: seq<string>)
    returns (queue': seq<string>, urls': seq<string>)
    ensures urls' == urls + Leaves(web, locs)
    ensures |queue'| >= |queue| && queue'[..|queue|] == queue
    ensures forall url :: url in queue'[|queue|..] ==> url in locs && url in web.allowed && IsSitemap(url)
    ensures |seen| < BOUND ==>
              forall url :: url in locs && url in web.allowed && IsSitemap(url) ==> url in seen || url in queue'
  {
    queue', urls' := queue, urls;
    var i := 0;
    while i < |locs|
      invariant 0 <= i <= |locs|
      invariant urls' == urls + Leaves(web, locs[..i])
      invariant |queue'| >= |queue| && queue'[..|queue|] == queue
      invariant forall url :: url in queue'[|queue|..] ==> url in locs && url in web.allowed && IsSitemap(url)
      invariant |seen| < BOUND ==>
                  forall url :: url in locs[..i] && url in web.allowed && IsSitemap(url) ==>
                    url in seen || url in queue'
    {
      var url := locs[i];
      assert locs[..i + 1][..i] == locs[..i];
      if url in web.allowed {
        if IsSitemap(url) {
          if url !in seen && |seen| < BOUND {
            assert (queue' + [url])[|queue|..] == queue'[|queue|..] + [url];
            queue' := queue' + [url];
          }
        } else {
          urls' := urls' + [url];
        }
      }
      i := i + 1;
    }
    assert locs[..i] == locs;
  }

  /** What a visit of src owes and adds, given what Scan promises. */
  lemma Visited(web: Web, base: string, seen: set<string>, queue: seq<string>, rest: seq<string>, queue': seq<string>,
                src: string)
    requires queue == [src] + rest && |seen| < BOUND
    requires Covered(web, base, seen, queue)
    requires forall url :: url in queue ==> Reachable(web, base, url)
    requires |queue'| >= |rest| && queue'[..|rest|] == rest
    requires forall url :: url in queue'[|rest|..] ==> Child(web, src, url)
    requires |seen + {src}| < BOUND ==> forall url :: Child(web, src, url) ==> url in seen + {src} || url in queue'
    ensures forall url :: url in queue' ==> Reachable(web, base, url)
    ensures |seen + {src}| < BOUND ==> Covered(web, base, seen + {src}, queue')
  {
    assert queue' == rest + queue'[|rest|..];
    assert src in queue;
    forall url | url in queue' ensures Reachable(web, base, url) {
      if url in rest {
        assert url in queue;
      } else {
        ReachableChild(web, base, src, url);
      }
    }
    assert forall url :: url in queue ==> url == src || url in queue';
  }

  // ---- nearest first

  /** A chain of at most n sitemaps leads to url. */
  ghost predicate Near(web: Web, base: string, url: string, n: int) {
    exists path :: Chain(web, base, path) && path[|path| - 1] == url && |path| <= n
  }

  lemma NearRoot(web: Web, base: string, url: string, n: int)
    ensures url in Roots(base) && n >= 1 ==> Near(web, base, url, n)
    ensures Near(web, base, url, 1) ==> url in Roots(base)
    ensures n <= 0 ==> !Near(web, base, url, n)
  {
    if url in Roots(base) && n >= 1 {
      assert Chain(web, base, [url]) && [url][|[url]| - 1] == url;
    }
  }

  lemma NearChild(web: Web, base: string, src: string, url: string, n: int)
    requires Near(web, base, src, n) && Child(web, src, url)
    ensures Near(web, base, url, n + 1)
  {
    var path :| Chain(web, base, path) && path[|path| - 1] == src && |path| <= n;
    var longer := path + [url];
    assert Chain(web, base, longer) && longer[|longer| - 1] == url;
  }

  lemma NearParent(web: Web, base: string, url: string, n: int) returns (src: string)
    requires Near(web, base, url, n + 1) && url !in Roots(base)
    ensures Near(web, base, src, n) && Child(web, src, url)
  {
    var path :| Chain(web, base, path) && path[|path| - 1] == url && |path| <= n + 1;
    var m := |path| - 1;
    assert m > 0;
    src := path[m - 1];
    assert Chain(web, base, path[..m]) && path[..m][|path[..m]| - 1] == src;
    assert Child(web, path[m - 1], path[m - 1 + 1]);
  }

  ghost function Ball(web: Web, base: string, n: int): iset<string> {
    iset url | Near(web, base, url, n)
  }

  /**
   * The queue in two parts: what is requested or in the first lies in here, the second in next; all of inner has
   * been requested, and all of here is requested or in the first part.
   */
  ghost predicate Layers(seen: set<string>, first: seq<string>, second: seq<string>, inner: iset<string>,
                         here: iset<string>, next: iset<string>)
  {
    && (forall url :: url in seen || url in first ==> url in here)
    && (forall url :: url in second ==> url in next)
    && (forall url :: url in inner ==> url in seen)
    && (|seen| < BOUND ==> forall url :: url in here ==> url in seen || url in first)
  }

  ghost predicate Layered(seen: set<string>, queue: seq<string>, k: nat, inner: iset<string>, here: iset<string>,
                          next: iset<string>)
  {
    k <= |queue| && Layers(seen, queue[..k], queue[k..], inner, here, next)
  }

  /** The first k places of the queue are at distance n, the rest at n + 1. */
  ghost predicate Level(web: Web, base: string, seen: set<string>, queue: seq<string>, n: int, k: nat) {
    Layered(seen, queue, k, Ball(web, base, n - 1), Ball(web, base, n), Ball(web, base, n + 1))
  }

  ghost predicate Levelled(web: Web, base: string, seen: set<string>, queue: seq<string>) {
    exists n: int, k: nat :: Level(web, base, seen, queue, n, k)
  }

  lemma LevelStart(web: Web, base: string)
    ensures Levelled(web, base, {}, Roots(base))
  {
    var queue := Roots(base);
    forall url ensures Near(web, base, url, 1) <==> url in queue { NearRoot(web, base, url, 1); }
    forall url ensures !Near(web, base, url, 0) { NearRoot(web, base, url, 0); }
    AllFirst({}, queue, Ball(web, base, 0), Ball(web, base, 1), Ball(web, base, 2));
    assert Level(web, base, {}, queue, 1, |queue|);
  }

  lemma AllFirst(seen: set<string>, queue: seq<string>, inner: iset<string>, here: iset<string>, next: iset<string>)
    requires forall url :: url in seen || url in queue ==> url in here
    requires forall url :: url in inner ==> url in seen
    requires |seen| < BOUND ==> forall url :: url in here ==> url in seen || url in queue
    ensures Layered(seen, queue, |queue|, inner, here, next)
  {
    assert queue[..|queue|] == queue;
  }

  lemma NoneFirst(seen: set<string>, queue: seq<string>, inner: iset<string>, here: iset<string>, next: iset<string>)
    requires Layered(seen, queue, 0, inner, here, next) && |seen| < BOUND
    ensures forall url :: url in seen <==> url in here
    ensures forall url :: url in queue ==> url in next
  {
    assert queue[0..] == queue;
  }

  lemma NextBall(web: Web, base: string, seen: set<string>, queue: seq<string>, n: int, url: string)
    requires Covered(web, base, seen, queue) && forall src :: Near(web, base, src, n) ==> src in seen
    requires Near(web, base, url, n + 1)
    ensures url in seen || url in queue
  {
    if url !in Roots(base) {
      var src := NearParent(web, base, url, n);
    }
  }

  /** When the first part of the queue is used up, the second is the next level. */
  lemma NextLevel(web: Web, base: string, seen: set<string>, queue: seq<string>, n: int)
    requires Level(web, base, seen, queue, n, 0) && |seen| < BOUND && Covered(web, base, seen, queue)
    ensures Level(web, base, seen, queue, n + 1, |queue|)
  {
    NoneFirst(seen, queue, Ball(web, base, n - 1), Ball(web, base, n), Ball(web, base, n + 1));
    forall url ensures Near(web, base, url, n) <==> url in seen { assert url in Ball(web, base, n) <==> url in seen; }
    forall url | url in Ball(web, base, n + 1) ensures url in seen || url in queue {
      NextBall(web, base, seen, queue, n, url);
    }
    forall url | url in seen ensures url in Ball(web, base, n + 1) { NearWider(web, base, url, n, n + 1); }
    AllFirst(seen, queue, Ball(web, base, n + 1 - 1), Ball(web, base, n + 1), Ball(web, base, n + 1 + 1));
  }

  lemma LevelHead(web: Web, base: string, seen: set<string>, queue: seq<string>) returns (n: int, k: nat)
    requires Levelled(web, base, seen, queue) && |seen| < BOUND && Covered(web, base, seen, queue) && queue != []
    ensures Level(web, base, seen, queue, n, k) && k > 0
  {
    n, k :| Level(web, base, seen, queue, n, k);
    if k == 0 {
      NextLevel(web, base, seen, queue, n);
      n, k := n + 1, |queue|;
    }
  }

  lemma NearChildren(web: Web, base: string, src: string, children: seq<string>, n: int)
    requires src in Ball(web, base, n) && forall url :: url in children ==> Child(web, src, url)
    ensures forall url :: url in children ==> url in Ball(web, base, n + 1)
  {
    forall url | url in children ensures url in Ball(web, base, n + 1) { NearChild(web, base, src, url, n); }
  }

  /** Taking the head of the queue, and putting others of the next layer at the end. */
  lemma LayeredPop(seen: set<string>, queue: seq<string>, children: seq<string>, k: nat, inner: iset<string>,
                   here: iset<string>, next: iset<string>)
    requires Layered(seen, queue, k, inner, here, next) && k > 0 && |seen| < BOUND
    requires forall url :: url in children ==> url in next
    ensures Layered(seen + {queue[0]}, queue[1..] + children, k - 1, inner, here, next) && queue[0] in here
  {
    var first, queue' := queue[..k], queue[1..] + children;
    assert queue'[..k - 1] == first[1..];
    assert queue'[k - 1..] == queue[k..] + children;
    assert first[0] == queue[0] && forall url :: url in first <==> url == first[0] || url in first[1..];
  }

  lemma LevelStep(web: Web, base: string, seen: set<string>, queue: seq<string>, children: seq<string>)
    requires Levelled(web, base, seen, queue) && |seen| < BOUND && Covered(web, base, seen, queue) && queue != []
    requires forall url :: url in children ==> Child(web, queue[0], url)
    ensures Levelled(web, base, seen + {queue[0]}, queue[1..] + children)
  {
    var n, k := LevelHead(web, base, seen, queue);
    var inner, here, next := Ball(web, base, n - 1), Ball(web, base, n), Ball(web, base, n + 1);
    LayeredPop(seen, queue, [], k, inner, here, next);
    NearChildren(web, base, queue[0], children, n);
    LayeredPop(seen, queue, children, k, inner, here, next);
    assert Level(web, base, seen + {queue[0]}, queue[1..] + children, n, k - 1);
  }

  /** No sitemap that was left out is nearer to the roots than one that was requested. */
  ghost predicate NearestFirst(web: Web, base: string, order: seq<string>) {
    forall src, url, n: int :: src in order && url !in order && Near(web, base, url, n) ==> Near(web, base, src, n)
  }

  lemma LevelEnd(web: Web, base: string, order: seq<string>, seen: set<string>, queue: seq<string>)
    requires Levelled(web, base, seen, queue) && forall src :: src in seen <==> src in order
    ensures NearestFirst(web, base, order)
  {
    var n: int, k: nat :| Level(web, base, seen, queue, n, k);
    forall src, url, m: int | src in order && url !in order && Near(web, base, url, m)
      ensures Near(web, base, src, m)
    {
      NearWider(web, base, src, n, m);
      NearWider(web, base, url, m, n - 1);
      assert url !in Ball(web, base, n - 1) && src in Ball(web, base, n);
    }
  }

  lemma NearWider(web: Web, base: string, url: string, n: int, m: int)
    ensures n <= m && Near(web, base, url, n) ==> Near(web, base, url, m)
  {
    if n <= m && Near(web, base, url, n) {
      var path :| Chain(web, base, path) && path[|path| - 1] == url && |path| <= n;
    }
  }

  predicate NoDuplicates(s: seq<string>) {
    forall i, j :: 0 <= i < j < |s| ==> s[i] != s[j]
  }

  /** The loop invariant of Discover; order lists the documents requested so far. */
  ghost predicate Progress(web: Web, base: string, order: seq<string>, seen: set<string>, queue: seq<string>) {
    && |seen| == |order| <= BOUND && NoDuplicates(order)
    && (forall src :: src in seen <==> src in order)
    && (forall src :: src in seen || src in queue ==> Reachable(web, base, src))
    && (|seen| < BOUND ==> Covered(web, base, seen, queue))
    && Levelled(web, base, seen, queue)
  }

  lemma Start(web: Web, base: string)
    ensures Progress(web, base, [], {}, Roots(base))
  {
    forall r | r in Roots(base) ensures Reachable(web, base, r) { ReachableRoot(web, base, r); }
    LevelStart(web, base);
  }

  /** What the invariant says when the loop ends. */
  lemma Finished(web: Web, base: string, order: seq<string>, seen: set<string>, queue: seq<string>)
    requires Progress(web, base, order, seen, queue) && (queue == [] || |seen| >= BOUND)
    ensures |order| <= BOUND && NoDuplicates(order)
    ensures forall src :: src in order ==> Reachable(web, base, src)
    ensures |order| < BOUND ==> forall src :: Reachable(web, base, src) <==> src in order
    ensures NearestFirst(web, base, order)
  {
    LevelEnd(web, base, order, seen, queue);
    if |seen| < BOUND {
      ClosedHasReachable(web, base, seen);
    }
  }

  lemma Skip(web: Web, base: string, order: seq<string>, seen: set<string>, queue: seq<string>)
    requires Progress(web, base, order, seen, queue) && |seen| < BOUND && queue != [] && queue[0] in seen
    ensures Progress(web, base, order, seen, queue[1..])
  {
    LevelStep(web, base, seen, queue, []);
    assert seen == seen + {queue[0]} && queue[1..] + [] == queue[1..];
    assert queue == [queue[0]] + queue[1..];
    assert forall url :: url in queue <==> url == queue[0] || url in queue[1..];
  }

  lemma Request(web: Web, base: string, order: seq<string>, seen: set<string>, queue: seq<string>, queue': seq<string>)
    requires Progress(web, base, order, seen, queue) && |seen| < BOUND && queue != [] && queue[0] !in seen
    requires |queue'| >= |queue[1..]| && queue'[..|queue[1..]|] == queue[1..]
    requires forall url :: url in queue'[|queue[1..]|..] ==> Child(web, queue[0], url)
    requires |seen + {queue[0]}| < BOUND ==>
               forall url :: Child(web, queue[0], url) ==> url in seen + {queue[0]} || url in queue'
    ensures Progress(web, base, order + [queue[0]], seen + {queue[0]}, queue')
  {
    assert queue == [queue[0]] + queue[1..];
    Visited(web, base, seen, queue, queue[1..], queue', queue[0]);
    LevelStep(web, base, seen, queue, queue'[|queue[1..]|..]);
    assert queue' == queue[1..] + queue'[|queue[1..]|..];
  }

  /**
   * order lists the documents requested, in order. Each is requested once, at most 20 in all, each reachable from
   * the two roots, and none left out is nearer to them; the output is exactly their leaf locations. If fewer
   * than 20 were requested, they are exactly the reachable sitemaps.
   */
  method Discover(web: Web, base: string) returns (urls: seq<string>, order: seq<string>)
    ensures |order| <= BOUND && NoDuplicates(order)
    ensures forall src :: src in order ==> Reachable(web, base, src)
    ensures urls == LeavesOf(web, order)
    ensures |order| < BOUND ==> forall src :: Reachable(web, base, src) <==> src in order
    ensures NearestFirst(web, base, order)
  {
    var queue := Roots(base);
    var seen: set<string> := {};
    urls, order := [], [];
    Start(web, base);
    while queue != [] && |seen| < BOUND
      invariant Progress(web, base, order, seen, queue)
      invariant urls == LeavesOf(web, order)
      decreases BOUND - |seen|, |queue|
    {
      var src, rest := queue[0], queue[1..];
      if src in seen {
        Skip(web, base, order, seen, queue);
        queue := rest;
      } else {
        ghost var before := queue;
        queue, urls := Scan(web, Locs(web, src), seen + {src}, rest, urls);
        Request(web, base, order, seen, before, queue);
        seen := seen + {src};
        assert (order + [src])[..|order|] == order;
        order := order + [src];
      }
    }
    Finished(web, base, order, seen, queue);
  }
}
