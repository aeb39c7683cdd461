/**
 * How large the candidate table of a job can grow: every child row is paid for out of the
 * max_candidates_per_page allowance that comes with a page grant.
 */
module Frontier {
  import opened Basics
  import opened Database
  import opened Protocol
  import Budget

  /** What a worker may still insert for the page it was granted. */
  function Allowance(j: nat, perPage: nat): Worker -> nat {
    (me: Worker) =>
      if me.job != j then 0
      else if me.phase == Holds(AtFetch) || me.phase == Holds(AtSavePage) ||
              (me.phase == Holds(AtSettle) && me.after == ToLinks) then perPage
      else if me.phase == AtLinks && me.next <= perPage then perPage - me.next
      else 0
  }

  function PerPage(s: State, j: nat): nat
    requires j < |s.db.jobs|
  {
    LimitsOf(s.server, s.db.jobs[j]).maxCandidates
  }

  predicate Bounded(s: State, j: nat)
    requires |s.hist| == |s.db.jobs| && j < |s.hist|
  {
    Sum(s.db.cands, OfJob(j)) + Sum(s.workers, Allowance(j, PerPage(s, j)))
    <= s.hist[j].imported + PerPage(s, j) * s.db.jobs[j].processedPages
  }

  /** A page grant brings the allowance; until the link loop it is neither spent nor exceeded. */
  lemma AllowanceMove(server: Server, clock: nat, db: Db, me: Worker, op: Op, j: nat, perPage: nat)
    requires WorkerOk(server, db, me) && Ready(db, me, op) && j < |db.jobs|
    requires perPage == LimitsOf(server, db.jobs[j]).maxCandidates
    ensures
      var me' := NextWorker(server, clock, db, me, op);
      (if j == me.job && InsertsChild(server, db, me, op) then 1 else 0) + Allowance(j, perPage)(me')
      <= Allowance(j, perPage)(me) + (if j == me.job && PaysPage(db, me, op) then perPage else 0)
  {
    JobKept(server, clock, db, me, op);
    if !op.FollowLink? && !(op.Fault? && me.phase == AtLinks) {
      AllowanceKept(server, clock, db, me, op, perPage);
    }
  }

  lemma AllowanceKeptFault(server: Server, clock: nat, db: Db, me: Worker, op: Op, perPage: nat)
    requires WorkerOk(server, db, me) && Ready(db, me, op)
    requires !op.FollowLink? && !(op.Fault? && me.phase == AtLinks)
    requires op.Fault?
    ensures Allowance(me.job, perPage)(NextWorker(server, clock, db, me, op))
            <= Allowance(me.job, perPage)(me) + (if PaysPage(db, me, op) then perPage else 0)
  {
  }

  lemma AllowanceKeptPage(server: Server, clock: nat, db: Db, me: Worker, op: Op, perPage: nat)
    requires WorkerOk(server, db, me) && Ready(db, me, op)
    requires !op.FollowLink? && !(op.Fault? && me.phase == AtLinks)
    requires PageOp(op) || HostOp(op)
    ensures Allowance(me.job, perPage)(NextWorker(server, clock, db, me, op))
            <= Allowance(me.job, perPage)(me) + (if PaysPage(db, me, op) then perPage else 0)
  {
    if op.Fault? {
      AllowanceKeptFault(server, clock, db, me, op, perPage);
    }
  }

  lemma AllowanceKept(server: Server, clock: nat, db: Db, me: Worker, op: Op, perPage: nat)
    requires WorkerOk(server, db, me) && Ready(db, me, op)
    requires !op.FollowLink? && !(op.Fault? && me.phase == AtLinks)
    ensures Allowance(me.job, perPage)(NextWorker(server, clock, db, me, op))
            <= Allowance(me.job, perPage)(me) + (if PaysPage(db, me, op) then perPage else 0)
  {
    if op.Fault? {
      AllowanceKeptFault(server, clock, db, me, op, perPage);
    }
    if PageOp(op) || HostOp(op) {
      AllowanceKeptPage(server, clock, db, me, op, perPage);
    }
  }

  lemma TableMove(server: Server, clock: nat, db: Db, me: Worker, op: Op, j: nat)
    requires WorkerOk(server, db, me) && Ready(db, me, op)
    ensures Sum(NextDb(server, clock, db, me, op).cands, OfJob(j))
            == Sum(db.cands, OfJob(j)) + (if j == me.job && InsertsChild(server, db, me, op) then 1 else 0)
  {
    RowsMove(server, clock, db, me, op);
    var db' := NextDb(server, clock, db, me, op);
    if WritesRow(op) {
      SumUpdate(db.cands, me.cand, db'.cands[me.cand], OfJob(j));
    } else if InsertsChild(server, db, me, op) {
      SumAppend(db.cands, ChildRow(me, clock), OfJob(j));
    }
  }

  lemma {:induction false} NothingYet(cands: seq<Candidate>, workers: seq<Worker>, j: nat, perPage: nat)
    requires forall c :: 0 <= c < |cands| ==> cands[c].job != j
    requires forall w :: 0 <= w < |workers| ==> workers[w].job != j
    ensures Sum(cands, OfJob(j)) == 0 && Sum(workers, Allowance(j, perPage)) == 0
  {
    if cands != [] {
      NothingYet(cands[..|cands| - 1], workers, j, perPage);
    } else if workers != [] {
      NothingYet(cands, workers[..|workers| - 1], j, perPage);
    }
  }

  lemma MulStep(perPage: nat, pages: nat, paid: bool)
    ensures perPage * (pages + (if paid then 1 else 0)) == perPage * pages + (if paid then perPage else 0)
  {
  }

  lemma ImportsKept(hist: seq<History>, me: Worker, op: Op, j: nat)
    requires me.job < |hist| && j < |hist|
    ensures |NextHist(hist, me, op)| == |hist| && NextHist(hist, me, op)[j].imported == hist[j].imported
  {
  }

  /** The bound in numbers: the step inserts what its worker's allowance loses, or gains a page. */
  predicate Pays(s: State, t: State, j: nat, paid: bool)
    requires |s.hist| == |s.db.jobs| && |t.hist| == |t.db.jobs| && j < |s.hist| && j < |t.hist|
  {
    && t.hist[j].imported == s.hist[j].imported && PerPage(t, j) == PerPage(s, j)
    && t.db.jobs[j].processedPages == s.db.jobs[j].processedPages + (if paid then 1 else 0)
    && Sum(t.db.cands, OfJob(j)) + Sum(t.workers, Allowance(j, PerPage(s, j)))
       <= Sum(s.db.cands, OfJob(j)) + Sum(s.workers, Allowance(j, PerPage(s, j))) + (if paid then PerPage(s, j) else 0)
  }

  lemma PaysBounded(s: State, t: State, j: nat, paid: bool)
    requires |s.hist| == |s.db.jobs| && |t.hist| == |t.db.jobs| && j < |s.hist| && j < |t.hist|
    requires Pays(s, t, j, paid) && Bounded(s, j)
    ensures Bounded(t, j)
  {
    MulStep(PerPage(s, j), s.db.jobs[j].processedPages, paid);
  }

  lemma BoundedMove(s: State, w: nat, op: Op, j: nat)
    requires Wf(s) && Enabled(s, By(w, op)) && j < |s.db.jobs| && Bounded(s, j)
    ensures Bounded(Apply(s, By(w, op)), j)
  {
    var t, me, perPage := Apply(s, By(w, op)), s.workers[w], PerPage(s, j);
    CountersMove(s.server, s.clock, s.db, me, op, j);
    AllowanceMove(s.server, s.clock, s.db, me, op, j, perPage);
    TableMove(s.server, s.clock, s.db, me, op, j);
    SumUpdate(s.workers, w, t.workers[w], Allowance(j, perPage));
    ImportsKept(s.hist, me, op, j);
    PaysBounded(s, t, j, j == me.job && PaysPage(s.db, me, op));
  }

  lemma BoundedAside(s: State, a: Action, j: nat)
    requires Wf(s) && Enabled(s, a) && !a.By? && !a.Create? && j < |s.db.jobs| && Bounded(s, j)
    ensures Bounded(Apply(s, a), j)
  {
    match a
    case Spawn(job) =>
      SumAppend(s.workers, Started(job, s.server.limits), Allowance(j, PerPage(s, j)));
    case Import(job, url, norm, domain, priority) =>
      SumAppend(s.db.cands, NewRow(job, url, norm, domain, "", priority, 0, s.clock), OfJob(j));
    case _ =>
  }

  lemma BoundedStep(s: State, a: Action, j: nat)
    requires Wf(s) && Enabled(s, a) && j < |Apply(s, a).db.jobs|
    requires j < |s.db.jobs| ==> Bounded(s, j)
    ensures |Apply(s, a).hist| == |Apply(s, a).db.jobs| && Bounded(Apply(s, a), j)
  {
    ApplyWf(s, a);
    if a.By? {
      CountersMove(s.server, s.clock, s.db, s.workers[a.w], a.op, s.workers[a.w].job);
      BoundedMove(s, a.w, a.op, j);
    } else if a.Create? {
      if j == |s.db.jobs| {
        NothingYet(s.db.cands, s.workers, j, PerPage(Apply(s, a), j));
      }
    } else {
      BoundedAside(s, a, j);
    }
  }

  /**
   * Frontier bound: in every state of every run, a job has at most as many candidates as were inserted
   * from outside plus max_candidates_per_page for each processed page; since pages are bounded, so is
   * the whole crawl-and-discover loop.
   */
  lemma {:induction false} FrontierBound(states: seq<State>, actions: seq<Action>, i: nat, j: nat)
    requires Run(states, actions) && Init(states[0]) && i < |states|
    requires j < |states[i].db.jobs|
    ensures Wf(states[i]) && Bounded(states[i], j)
    ensures
      var s, perPage := states[i], PerPage(states[i], j);
      && Sum(s.db.cands, OfJob(j)) <= s.hist[j].imported + perPage * s.db.jobs[j].processedPages
      && Sum(s.db.cands, OfJob(j)) <= s.hist[j].imported + perPage * s.db.jobs[j].limits.maxPages
  {
    RunWf(states, actions, i);
    if i == 0 {
    } else {
      var s, a := states[i - 1], actions[i - 1];
      if j < |s.db.jobs| {
        FrontierBound(states, actions, i - 1, j);
      }
      BoundedStep(s, a, j);
    }
    Budget.BudgetChain(states, actions, i, j);
    var s, perPage := states[i], PerPage(states[i], j);
    MulMonotone(perPage, s.db.jobs[j].processedPages, s.db.jobs[j].limits.maxPages);
  }

  lemma MulMonotone(a: nat, b: nat, c: nat)
    requires b <= c
    ensures a * b <= a * c
  {
  }
}
