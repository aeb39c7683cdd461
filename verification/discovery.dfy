/** Seed and AddURLs (internal/discovery/discovery.go): how outside URLs become candidates of a job. */
module Discovery {
  import opened Basics
  import opened Database
  import opened Protocol
  import opened Stores
  import opened UrlNorm
  import Provenance

  /** Parsing, printing and trimming of URLs, and the URL policy, as given functions. */
  datatype World = World(parse: string -> Option<Url>, render: Url -> string, allowed: string -> bool,
                         trim: string -> string)

  predicate Usable(world: World, raw: string) {
    world.allowed(raw) && world.parse(raw).Some? && Supported(world.parse(raw).value)
  }

  /** The deduplication key of a URL. */
  ghost function KeyOf(world: World, raw: string): string
    requires Usable(world, raw)
  {
    world.render(Normal(world.parse(raw).value))
  }

  ghost function RowOf(world: World, job: nat, raw: string, priority: int, now: nat): Candidate
    requires Usable(world, raw)
  {
    NewRow(job, raw, KeyOf(world, raw), UrlNorm.Domain(Normal(world.parse(raw).value)), "", priority, 0, now)
  }

  /** later has all of earlier's rows, unchanged, and every row it adds stems from one of the URLs. */
  ghost predicate Adds(world: World, earlier: seq<Candidate>, later: seq<Candidate>, job: nat, urls: seq<string>,
                       priority: int, now: nat) {
    && |earlier| <= |later| && later[..|earlier|] == earlier
    && forall c :: |earlier| <= c < |later| ==>
         Stems(world, later[c], job, urls, priority, now)
  }

  ghost predicate Stems(world: World, row: Candidate, job: nat, urls: seq<string>, priority: int, now: nat) {
    exists k :: 0 <= k < |urls| && Usable(world, urls[k]) && row == RowOf(world, job, urls[k], priority, now)
  }

  ghost predicate Present(world: World, cands: seq<Candidate>, job: nat, raw: string) {
    Usable(world, raw) && HasKey(cands, job, KeyOf(world, raw))
  }

  lemma KeyKept(earlier: seq<Candidate>, later: seq<Candidate>, job: nat, key: string)
    requires |earlier| <= |later| && later[..|earlier|] == earlier && HasKey(earlier, job, key)
    ensures HasKey(later, job, key)
  {
    var i :| 0 <= i < |earlier| && earlier[i].job == job && earlier[i].norm == key;
    assert later[i] == later[..|earlier|][i];
  }

  class Service {
    const store: Store

    constructor (store: Store)
      ensures this.store == store
    {
      this.store := store;
    }

    /** UpsertCandidate for one URL, with the key computed by normalising it in place. */
    method Upsert(world: World, job: nat, raw: string, priority: int, now: nat)
      requires Usable(world, raw)
      modifies store`cands
      ensures store.Value() == Insert(old(store.Value()), RowOf(world, job, raw, priority, now))
    {
      var u := world.parse(raw).value;
      var parsed := new ParsedURL(u);
      var ok := parsed.Normalize();
      var normal := Url(parsed.scheme, parsed.user, parsed.host, parsed.port, parsed.path, parsed.emptyQuery,
                        parsed.query, parsed.fragment);
      var key := world.render(normal);
      store.UpsertCandidateDepth(NewRow(job, raw, key, UrlNorm.Domain(normal), "", priority, 0, now));
    }

    /**
     * Stops at the first unusable seed or failing insert, failAt saying where an insert fails; the done seeds
     * before it are inserted, in order.
     */
    method Seed(world: World, job: nat, seeds: seq<string>, now: nat, failAt: nat) returns (done: nat, ok: bool)
      modifies store`cands
      ensures done <= |seeds| && (ok <==> done == |seeds|)
      ensures done <= failAt && (!ok ==> !Usable(world, seeds[done]) || done == failAt)
      ensures AllUsable(world, seeds[..done])
      ensures store.Value() == Inserted(world, old(store.Value()), job, seeds[..done], 100, now)
    {
      done := 0;
      assert seeds[..0] == [];
      while done < |seeds|
        invariant 0 <= done <= |seeds| && done <= failAt
        invariant AllUsable(world, seeds[..done])
        invariant store.Value() == Inserted(world, old(store.Value()), job, seeds[..done], 100, now)
      {
        var raw := seeds[done];
        if !world.allowed(raw) || world.parse(raw).None? || !Supported(world.parse(raw).value) || done == failAt {
          return done, false;
        }
        assert seeds[..done + 1] == seeds[..done] + [raw];
        Upsert(world, job, raw, 100, now);
        done := done + 1;
      }
      ok := true;
    }

    /** Trims, skips blanks, repetitions and unusable URLs, and inserts the rest, up to a failing insert. */
    method AddURLs(world: World, job: nat, urls: seq<string>, priority: int, now: nat, failAt: nat)
      returns (done: nat, ok: bool)
      modifies store`cands
      ensures done <= |urls| && (ok <==> done == |urls|)
      ensures !ok ==> done == failAt && Usable(world, world.trim(urls[done]))
      ensures Adds(world, old(store.cands), store.cands, job, Trimmed(world, urls), priority, now)
      ensures Provenance.UniqueKeys(old(store.cands)) ==> Provenance.UniqueKeys(store.cands)
      ensures forall k :: 0 <= k < done && world.trim(urls[k]) != "" && Usable(world, world.trim(urls[k])) ==>
                Present(world, store.cands, job, world.trim(urls[k]))
    {
      ghost var trimmed := Trimmed(world, urls);
      var seen: set<string> := {};
      done := 0;
      while done < |urls|
        invariant 0 <= done <= |urls|
        invariant forall raw :: raw in seen && Usable(world, raw) ==> Present(world, store.cands, job, raw)
        invariant forall k :: 0 <= k < done && trimmed[k] != "" ==> trimmed[k] in seen
        invariant Adds(world, old(store.cands), store.cands, job, trimmed, priority, now)
        invariant Provenance.UniqueKeys(old(store.cands)) ==> Provenance.UniqueKeys(store.cands)
      {
        var raw := world.trim(urls[done]);
        if raw != "" && raw !in seen {
          if world.allowed(raw) && world.parse(raw).Some? && Supported(world.parse(raw).value) {
            if done == failAt {
              return done, false;
            }
            ghost var before := store.cands;
            Upsert(world, job, raw, priority, now);
            OneMore(world, old(store.cands), before, store.cands, job, trimmed, done, priority, now);
          }
          seen := seen + {raw};
        }
        done := done + 1;
      }
      ok := true;
    }
  }

  ghost predicate AllUsable(world: World, urls: seq<string>) {
    forall k :: 0 <= k < |urls| ==> Usable(world, urls[k])
  }

  /** The URLs inserted one after the other. */
  ghost function Inserted(world: World, db: Db, job: nat, urls: seq<string>, priority: int, now: nat): Db
    requires AllUsable(world, urls)
  {
    if urls == [] then db
    else
      var n := |urls| - 1;
      Insert(Inserted(world, db, job, urls[..n], priority, now), RowOf(world, job, urls[n], priority, now))
  }

  lemma StemsMore(world: World, row: Candidate, job: nat, urls: seq<string>, raw: string, priority: int, now: nat)
    requires Stems(world, row, job, urls, priority, now)
    ensures Stems(world, row, job, urls + [raw], priority, now)
  {
    var k :| 0 <= k < |urls| && Usable(world, urls[k]) && row == RowOf(world, job, urls[k], priority, now);
    assert (urls + [raw])[k] == urls[k];
  }

  lemma AddsMore(world: World, first: seq<Candidate>, before: seq<Candidate>, job: nat, urls: seq<string>, raw: string,
                 priority: int, now: nat)
    requires Adds(world, first, before, job, urls, priority, now)
    ensures Adds(world, first, before, job, urls + [raw], priority, now)
  {
    forall c | |first| <= c < |before|
      ensures Stems(world, before[c], job, urls + [raw], priority, now)
    {
      StemsMore(world, before[c], job, urls, raw, priority, now);
    }
  }

  /** Every inserted URL is in the table afterwards, nothing else is added, and keys stay unique. */
  lemma {:induction false} InsertedMeaning(world: World, db: Db, job: nat, urls: seq<string>, priority: int, now: nat)
    requires AllUsable(world, urls)
    ensures
      var after := Inserted(world, db, job, urls, priority, now);
      && Adds(world, db.cands, after.cands, job, urls, priority, now)
      && (Provenance.UniqueKeys(db.cands) ==> Provenance.UniqueKeys(after.cands))
  {
    if urls == [] {
    } else {
      var n := |urls| - 1;
      var before := Inserted(world, db, job, urls[..n], priority, now);
      InsertedMeaning(world, db, job, urls[..n], priority, now);
      assert urls == urls[..n] + [urls[n]];
      AddsMore(world, db.cands, before.cands, job, urls[..n], urls[n], priority, now);
      OneMore(world, db.cands, before.cands, Inserted(world, db, job, urls, priority, now).cands, job, urls, n,
              priority, now);
    }
  }

  lemma {:induction false} InsertedPresent(world: World, db: Db, job: nat, urls: seq<string>, priority: int, now: nat,
                                           k: nat)
    requires AllUsable(world, urls) && k < |urls|
    ensures Present(world, Inserted(world, db, job, urls, priority, now).cands, job, urls[k])
  {
    var n := |urls| - 1;
    var before := Inserted(world, db, job, urls[..n], priority, now);
    if k == n {
      InsertPresent(before, RowOf(world, job, urls[n], priority, now));
    } else {
      InsertedPresent(world, db, job, urls[..n], priority, now, k);
      InsertKeeps(before, RowOf(world, job, urls[n], priority, now), job, KeyOf(world, urls[k]));
    }
  }

  lemma InsertPresent(db: Db, row: Candidate)
    ensures HasKey(Insert(db, row).cands, row.job, row.norm)
  {
    if !HasKey(db.cands, row.job, row.norm) {
      assert Insert(db, row).cands[|db.cands|] == row;
    }
  }

  lemma InsertKeeps(db: Db, row: Candidate, job: nat, key: string)
    requires HasKey(db.cands, job, key)
    ensures HasKey(Insert(db, row).cands, job, key)
  {
    var i :| 0 <= i < |db.cands| && db.cands[i].job == job && db.cands[i].norm == key;
    assert Insert(db, row).cands[i] == db.cands[i];
  }

  function Trimmed(world: World, urls: seq<string>): (r: seq<string>)
    ensures |r| == |urls| && forall k :: 0 <= k < |urls| ==> r[k] == world.trim(urls[k])
  {
    seq(|urls|, k requires 0 <= k < |urls| => world.trim(urls[k]))
  }

  /** One insert more: the URL is present, nothing present is lost, and rows keep stemming from the URLs. */
  lemma OneMore(world: World, first: seq<Candidate>, before: seq<Candidate>, after: seq<Candidate>, job: nat,
                urls: seq<string>, i: nat, priority: int, now: nat)
    requires i < |urls| && Usable(world, urls[i]) && Adds(world, first, before, job, urls, priority, now)
    requires after == if HasKey(before, job, KeyOf(world, urls[i])) then before
                      else before + [RowOf(world, job, urls[i], priority, now)]
    ensures Adds(world, first, after, job, urls, priority, now)
    ensures Present(world, after, job, urls[i])
    ensures forall raw :: Present(world, before, job, raw) ==> Present(world, after, job, raw)
    ensures Provenance.UniqueKeys(before) ==> Provenance.UniqueKeys(after)
  {
    assert after[..|before|] == before;
    assert after[..|first|] == before[..|first|];
    if |after| > |before| {
      assert after[|before|].job == job && after[|before|].norm == KeyOf(world, urls[i]);
    }
    forall raw | Present(world, before, job, raw) ensures Present(world, after, job, raw) {
      KeyKept(before, after, job, KeyOf(world, raw));
    }
  }

  // ---- over runs of the protocol

  ghost predicate Keyed(world: World, url: string, norm: string) {
    Usable(world, url) && norm == KeyOf(world, url)
  }

  /** What comes in from outside carries the key of its URL: imports, and the usable links of a fetched page. */
  ghost predicate KeyedAction(world: World, a: Action) {
    match a
    case Import(_, url, norm, _, _) => Keyed(world, url, norm)
    case By(_, Fetch(Page(_, links), _)) => KeyedLinks(world, links)
    case _ => true
  }

  ghost predicate KeyedLinks(world: World, links: seq<Link>) {
    forall k :: 0 <= k < |links| && links[k].valid ==> Keyed(world, links[k].url, links[k].norm)
  }

  ghost predicate KeyedState(world: World, s: State) {
    && (forall c :: 0 <= c < |s.db.cands| ==> Keyed(world, s.db.cands[c].url, s.db.cands[c].norm))
    && (forall w :: 0 <= w < |s.workers| ==> KeyedLinks(world, s.workers[w].links))
  }

  lemma LinksMoveFault(server: Server, clock: nat, db: Db, me: Worker, op: Op)
    requires WorkerOk(server, db, me) && Ready(db, me, op)
    requires op.Fault?
    ensures NextWorker(server, clock, db, me, op).links
            == if op.Fetch? && op.result.Page? then op.result.links else me.links
  {
  }

  lemma LinksMove(server: Server, clock: nat, db: Db, me: Worker, op: Op)
    requires WorkerOk(server, db, me) && Ready(db, me, op)
    ensures NextWorker(server, clock, db, me, op).links
            == if op.Fetch? && op.result.Page? then op.result.links else me.links
  {
    if op.Fault? {
      LinksMoveFault(server, clock, db, me, op);
    }
  }

  lemma KeyedStep(world: World, s: State, a: Action)
    requires Wf(s) && Enabled(s, a) && KeyedState(world, s) && KeyedAction(world, a)
    ensures KeyedState(world, Apply(s, a))
  {
    var t := Apply(s, a);
    Provenance.TableStep(s, a);
    ApplyGrows(s, a);
    if a.By? {
      LinksMove(s.server, s.clock, s.db, s.workers[a.w], a.op);
    }
    forall c | 0 <= c < |t.db.cands| ensures Keyed(world, t.db.cands[c].url, t.db.cands[c].norm) {
      if c < |s.db.cands| {
        assert SameRow(s.db.cands[c], t.db.cands[c]);
      } else if a.By? {
        assert KeyedLinks(world, s.workers[a.w].links);
      }
    }
  }

  ghost predicate KeyedRun(world: World, states: seq<State>, actions: seq<Action>) {
    Run(states, actions) && Init(states[0]) && forall i :: 0 <= i < |actions| ==> KeyedAction(world, actions[i])
  }

  lemma {:induction false} RunKeyed(world: World, states: seq<State>, actions: seq<Action>, i: nat)
    requires KeyedRun(world, states, actions) && i < |states|
    ensures KeyedState(world, states[i])
  {
    if i == 0 {
    } else {
      RunKeyed(world, states, actions, i - 1);
      KeyedStep(world, states[i - 1], actions[i - 1]);
    }
  }

  /**
   * One candidate per class and job: in every state of every run whose imports and links are keyed by normal
   * form, two rows of one job whose URLs are equivalent are the same row.
   */
  lemma OneCandidatePerClass(world: World, states: seq<State>, actions: seq<Action>, i: nat, c: nat, d: nat)
    requires KeyedRun(world, states, actions) && i < |states|
    requires c < |states[i].db.cands| && d < |states[i].db.cands|
    requires states[i].db.cands[c].job == states[i].db.cands[d].job
    ensures
      var a, b := states[i].db.cands[c].url, states[i].db.cands[d].url;
      && Usable(world, a) && Usable(world, b)
      && (Equivalent(world.parse(a).value, world.parse(b).value) ==> c == d)
  {
    RunKeyed(world, states, actions, i);
    Provenance.RunTraced(states, actions, i);
    var a, b := states[i].db.cands[c], states[i].db.cands[d];
    assert Keyed(world, a.url, a.norm) && Keyed(world, b.url, b.norm);
    if Equivalent(world.parse(a.url).value, world.parse(b.url).value) {
      NormalExact(world.parse(a.url).value, world.parse(b.url).value);
    }
  }

  /** With a printer that separates normal forms, URLs of different classes have different keys. */
  lemma ClassesKeptApart(world: World, a: string, b: string)
    requires Usable(world, a) && Usable(world, b)
    requires forall u, v :: world.render(u) == world.render(v) ==> u == v
    ensures KeyOf(world, a) == KeyOf(world, b) <==> Equivalent(world.parse(a).value, world.parse(b).value)
  {
    NormalExact(world.parse(a).value, world.parse(b).value);
  }
}
