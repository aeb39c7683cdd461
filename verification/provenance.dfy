/** Where the candidates of a job come from: one row per key, parent chains, depth, and crawl scope. */
module Provenance {
  import opened Database
  import opened Protocol
  import Hosts

  predicate UniqueKeys(cands: seq<Candidate>) {
    forall c, d :: 0 <= c < d < |cands| ==> !(cands[c].job == cands[d].job && cands[c].norm == cands[d].norm)
  }

  /** Row p is the page on which row c was found; parents come first in the table. */
  predicate ParentOf(cands: seq<Candidate>, p: nat, c: nat) {
    && p < c < |cands|
    && cands[p].job == cands[c].job
    && cands[p].url == cands[c].parent
    && cands[p].depth + 1 == cands[c].depth
  }

  /** Seeds have no parent; every other row has one. */
  ghost predicate Rooted(cands: seq<Candidate>, c: nat)
    requires c < |cands|
  {
    if cands[c].depth == 0 then cands[c].parent == "" else exists p: nat :: ParentOf(cands, p, c)
  }

  predicate DepthOk(server: Server, db: Db, c: nat)
    requires c < |db.cands| && db.cands[c].job < |db.jobs|
  {
    db.cands[c].depth <= LimitsOf(server, db.jobs[db.cands[c].job]).maxDepth
  }

  predicate SeedWithin(server: Server, cands: seq<Candidate>, r: nat, c: nat)
    requires c < |cands|
  {
    && r < |cands| && cands[r].depth == 0 && cands[r].job == cands[c].job
    && Hosts.Within(cands[c].domain, cands[r].domain, server.allowSubdomains)
  }

  ghost predicate Scoped(server: Server, cands: seq<Candidate>, c: nat)
    requires c < |cands|
  {
    !server.allowExternal ==> exists r: nat :: SeedWithin(server, cands, r, c)
  }

  ghost predicate Traced(s: State) {
    && Wf(s)
    && UniqueKeys(s.db.cands)
    && forall c :: 0 <= c < |s.db.cands| ==>
         Rooted(s.db.cands, c) && DepthOk(s.server, s.db, c) && Scoped(s.server, s.db.cands, c)
  }

  // ---- steps

  /** The row appended by an import or a followed link, if any. */
  predicate Appends(s: State, a: Action, row: Candidate)
    requires Wf(s) && Enabled(s, a)
  {
    !HasKey(s.db.cands, row.job, row.norm) &&
    match a
    case Import(job, url, norm, domain, priority) => row == NewRow(job, url, norm, domain, "", priority, 0, s.clock)
    case By(w, op) => InsertsChild(s.server, s.db, s.workers[w], op) && row == ChildRow(s.workers[w], s.clock)
    case _ => false
  }

  lemma TableStep(s: State, a: Action)
    requires Wf(s) && Enabled(s, a)
    ensures
      var t := Apply(s, a);
      && |s.db.cands| <= |t.db.cands| <= |s.db.cands| + 1
      && (|t.db.cands| > |s.db.cands| ==> Appends(s, a, t.db.cands[|s.db.cands|]))
  {
    if a.By? {
      RowsMove(s.server, s.clock, s.db, s.workers[a.w], a.op);
    }
  }

  lemma OldRow(s: State, a: Action, c: nat)
    requires Traced(s) && Enabled(s, a) && c < |s.db.cands|
    ensures Wf(Apply(s, a)) && c < |Apply(s, a).db.cands|
    ensures var t := Apply(s, a); Rooted(t.db.cands, c) && DepthOk(t.server, t.db, c) && Scoped(t.server, t.db.cands, c)
  {
    ApplyWf(s, a);
    ApplyGrows(s, a);
    var t := Apply(s, a);
    var cands, cands' := s.db.cands, t.db.cands;
    assert SameRow(cands[c], cands'[c]) && SameJob(s.db.jobs[cands[c].job], t.db.jobs[cands[c].job]);
    assert Rooted(cands, c) && Scoped(s.server, cands, c) && DepthOk(s.server, s.db, c);
    if cands[c].depth > 0 {
      var p: nat :| ParentOf(cands, p, c);
      assert SameRow(cands[p], cands'[p]);
      assert ParentOf(cands', p, c);
    }
    if !s.server.allowExternal {
      var r: nat :| SeedWithin(s.server, cands, r, c);
      assert SameRow(cands[r], cands'[r]);
      assert SeedWithin(s.server, cands', r, c);
    }
  }

  lemma ChildScoped(s: State, w: nat, op: Op, c: nat)
    requires Traced(s) && Enabled(s, By(w, op)) && InsertsChild(s.server, s.db, s.workers[w], op) && c == |s.db.cands|
    ensures var cands := s.db.cands + [ChildRow(s.workers[w], s.clock)];
            Rooted(cands, c) && Scoped(s.server, cands, c)
  {
    var me := s.workers[w];
    var cands := s.db.cands + [ChildRow(me, s.clock)];
    assert ParentOf(cands, me.cand, c);
    if !s.server.allowExternal {
      assert Scoped(s.server, s.db.cands, me.cand);
      var r: nat :| SeedWithin(s.server, s.db.cands, r, me.cand);
      Hosts.InScopeStaysWithin(me.links[me.next].domain, me.domain, cands[r].domain, s.server.allowSubdomains);
      assert SeedWithin(s.server, cands, r, c);
    }
  }

  lemma NewRowTraced(s: State, a: Action, c: nat)
    requires Traced(s) && Enabled(s, a) && c == |s.db.cands| < |Apply(s, a).db.cands|
    ensures Wf(Apply(s, a))
    ensures var t := Apply(s, a); Rooted(t.db.cands, c) && DepthOk(t.server, t.db, c) && Scoped(t.server, t.db.cands, c)
  {
    ApplyWf(s, a);
    TableStep(s, a);
    match a
    case By(w, op) =>
      RowsMove(s.server, s.clock, s.db, s.workers[w], op);
      ChildScoped(s, w, op, c);
    case Import(_, _, _, _, _) =>
      assert SeedWithin(s.server, Apply(s, a).db.cands, c, c);
    case _ =>
  }

  lemma TracedStep(s: State, a: Action)
    requires Traced(s) && Enabled(s, a)
    ensures Traced(Apply(s, a))
  {
    var t := Apply(s, a);
    ApplyWf(s, a);
    ApplyGrows(s, a);
    TableStep(s, a);
    forall c | 0 <= c < |t.db.cands|
      ensures Rooted(t.db.cands, c) && DepthOk(t.server, t.db, c) && Scoped(t.server, t.db.cands, c)
    {
      if c < |s.db.cands| {
        OldRow(s, a, c);
      } else {
        NewRowTraced(s, a, c);
      }
    }
  }

  lemma {:induction false} RunTraced(states: seq<State>, actions: seq<Action>, i: nat)
    requires Run(states, actions) && Init(states[0]) && i < |states|
    ensures Traced(states[i])
  {
    if i == 0 {
    } else {
      RunTraced(states, actions, i - 1);
      TracedStep(states[i - 1], actions[i - 1]);
    }
  }

  // ---- main results

  /** From row path[0] up to a seed, each row found on the page of the next. */
  predicate Ancestry(cands: seq<Candidate>, path: seq<nat>) {
    && path != []
    && (forall k :: 0 <= k < |path| ==> path[k] < |cands|)
    && (forall k :: 0 <= k < |path| - 1 ==> ParentOf(cands, path[k + 1], path[k]))
    && cands[path[|path| - 1]].depth == 0
  }

  lemma {:induction false} Ancestors(s: State, c: nat) returns (path: seq<nat>)
    requires Traced(s) && c < |s.db.cands|
    ensures Ancestry(s.db.cands, path) && path[0] == c && |path| == s.db.cands[c].depth + 1
    decreases c
  {
    if s.db.cands[c].depth == 0 {
      path := [c];
    } else {
      assert Rooted(s.db.cands, c);
      var p: nat :| ParentOf(s.db.cands, p, c);
      var rest := Ancestors(s, p);
      path := [c] + rest;
    }
  }

  /**
   * Provenance: in every state of every run, keys are unique per job, no candidate is deeper than
   * max_depth, and each has a parent chain of exactly its depth that ends at a seed of the same job.
   */
  lemma ProvenanceHolds(states: seq<State>, actions: seq<Action>, i: nat, c: nat)
    requires Run(states, actions) && Init(states[0]) && i < |states|
    requires c < |states[i].db.cands|
    ensures
      var s := states[i];
      && Wf(s) && UniqueKeys(s.db.cands)
      && DepthOk(s.server, s.db, c)
      && exists path :: Ancestry(s.db.cands, path) && path[0] == c && |path| == s.db.cands[c].depth + 1
  {
    RunTraced(states, actions, i);
    var path := Ancestors(states[i], c);
  }

  /**
   * Scope closure: with external links off, the domain of every candidate of every run, in lower case and
   * without a trailing dot, is that of a seed of its job or, when subdomains are allowed, ends in it after a dot.
   */
  lemma ScopeClosure(states: seq<State>, actions: seq<Action>, i: nat, c: nat)
    requires Run(states, actions) && Init(states[0]) && i < |states|
    requires c < |states[i].db.cands| && !states[i].server.allowExternal
    ensures
      var cands := states[i].db.cands;
      exists r: nat ::
        && r < |cands| && cands[r].depth == 0 && cands[r].job == cands[c].job
        && var d, seed := Hosts.Canonical(cands[c].domain), Hosts.Canonical(cands[r].domain);
           || d == seed
           || (&& states[i].server.allowSubdomains && |d| > |seed|
               && d[|d| - |seed|..] == seed && d[|d| - |seed| - 1] == '.')
  {
    RunTraced(states, actions, i);
    assert Scoped(states[i].server, states[i].db.cands, c);
    var r: nat :| SeedWithin(states[i].server, states[i].db.cands, r, c);
  }
}
