/** Page counters of jobs against page counters and page rows of domains. */
module Conservation {
  import opened Basics
  import opened Database
  import opened Protocol
  import Budget

  function CrawlOf(project: string): Domain -> nat {
    (d: Domain) => if d.project == project then d.crawlPages else 0
  }

  function PagesOf(project: string): Job -> nat {
    (j: Job) => if j.project == project then j.processedPages else 0
  }

  function RowsOf(d: nat): PageRow -> nat {
    (p: PageRow) => if p.dom == d then 1 else 0
  }

  /** Workers that were granted a page of domain d and may still write its row. */
  function RowDue(d: nat): Worker -> nat {
    (me: Worker) =>
      if me.dom == d && (me.phase == Holds(AtFetch) || me.phase == Holds(AtSavePage)) then 1 else 0
  }

  predicate Conserved(s: State, project: string) {
    Sum(s.db.domains, CrawlOf(project)) == Sum(s.db.jobs, PagesOf(project))
  }

  /** Page rows, and those still due, are covered by the domain's page counter. */
  predicate Covered(s: State, d: nat)
    requires d < |s.db.domains|
  {
    Sum(s.db.pages, RowsOf(d)) + Sum(s.workers, RowDue(d)) <= s.db.domains[d].crawlPages
  }

  /** The counter is within the max_pages of some job of the domain's project. */
  predicate Capped(s: State, d: nat)
    requires d < |s.db.domains|
  {
    || s.db.domains[d].crawlPages == 0
    || exists j :: 0 <= j < |s.db.jobs| && s.db.jobs[j].project == s.db.domains[d].project
                   && s.db.domains[d].crawlPages <= s.db.jobs[j].limits.maxPages
  }

  function PagePay(db: Db, me: Worker, op: Op, project: string): nat
    requires me.job < |db.jobs|
  {
    if PaysPage(db, me, op) && db.jobs[me.job].project == project then 1 else 0
  }

  lemma JobsMove(server: Server, clock: nat, db: Db, me: Worker, op: Op, project: string)
    requires WorkerOk(server, db, me) && Ready(db, me, op)
    ensures Sum(NextDb(server, clock, db, me, op).jobs, PagesOf(project))
            == Sum(db.jobs, PagesOf(project)) + PagePay(db, me, op, project)
  {
    JobRowMoves(server, clock, db, me, op);
    CountersMove(server, clock, db, me, op, me.job);
    SumUpdate(db.jobs, me.job, NextDb(server, clock, db, me, op).jobs[me.job], PagesOf(project));
  }

  lemma CrawlCharged(server: Server, clock: nat, db: Db, me: Worker, op: Op, project: string)
    requires WorkerOk(server, db, me) && Ready(db, me, op) && op.PageGate?
    ensures Sum(NextDb(server, clock, db, me, op).domains, CrawlOf(project))
            == Sum(db.domains, CrawlOf(project)) + PagePay(db, me, op, project)
  {
    SumUpdate(db.domains, me.dom, NextDb(server, clock, db, me, op).domains[me.dom], CrawlOf(project));
  }

  /** The domain a worker charges is one of its job's project. */
  lemma CrawlMove(server: Server, clock: nat, db: Db, me: Worker, op: Op, project: string)
    requires WorkerOk(server, db, me) && Ready(db, me, op)
    ensures Sum(NextDb(server, clock, db, me, op).domains, CrawlOf(project))
            == Sum(db.domains, CrawlOf(project)) + PagePay(db, me, op, project)
  {
    if op.PageGate? {
      CrawlCharged(server, clock, db, me, op, project);
    } else if op.FindOrAddDomain? {
      SumAppend(db.domains, Domain(db.jobs[me.job].project, me.domain, 0), CrawlOf(project));
    }
  }

  lemma ConserveStep(s: State, a: Action, project: string)
    requires Wf(s) && Enabled(s, a) && Conserved(s, project)
    ensures Conserved(Apply(s, a), project)
  {
    var t := Apply(s, a);
    match a
    case By(w, op) =>
      JobsMove(s.server, s.clock, s.db, s.workers[w], op, project);
      CrawlMove(s.server, s.clock, s.db, s.workers[w], op, project);
    case Create(p, config) => SumAppend(s.db.jobs, t.db.jobs[|s.db.jobs|], PagesOf(project));
    case SetStatus(job, _) => SumUpdate(s.db.jobs, job, t.db.jobs[job], PagesOf(project));
    case _ =>
  }

  /** Domain rows only gain a page at a page gate; a new row starts at zero. */
  lemma DomainsMove(server: Server, clock: nat, db: Db, me: Worker, op: Op, d: nat)
    requires WorkerOk(server, db, me) && Ready(db, me, op)
    ensures
      var db' := NextDb(server, clock, db, me, op);
      && |db.domains| <= |db'.domains| <= |db.domains| + 1
      && (d < |db.domains| ==>
            && db'.domains[d].project == db.domains[d].project
            && db'.domains[d].crawlPages ==
               db.domains[d].crawlPages + (if PaysPage(db, me, op) && me.dom == d then 1 else 0))
      && (|db.domains| < |db'.domains| ==>
            op.FindOrAddDomain? && db'.domains[|db.domains|].crawlPages == 0 && db'.pages == db.pages)
  {
  }

  predicate AddsPage(db: Db, me: Worker, op: Op) {
    op.SavePage? && !HasPage(db.pages, me.dom, me.pageURL)
  }

  lemma PagesMove(server: Server, clock: nat, db: Db, me: Worker, op: Op, d: nat)
    requires WorkerOk(server, db, me) && Ready(db, me, op)
    ensures Sum(NextDb(server, clock, db, me, op).pages, RowsOf(d))
            == Sum(db.pages, RowsOf(d)) + (if AddsPage(db, me, op) && me.dom == d then 1 else 0)
  {
    if AddsPage(db, me, op) {
      SumAppend(db.pages, PageRow(me.dom, me.pageURL), RowsOf(d));
    }
  }

  /** A page row is written out of the grant its worker still holds. */
  lemma DueMove(server: Server, clock: nat, db: Db, me: Worker, op: Op, d: nat)
    requires WorkerOk(server, db, me) && Ready(db, me, op)
    ensures RowDue(d)(NextWorker(server, clock, db, me, op)) + (if AddsPage(db, me, op) && me.dom == d then 1 else 0)
            <= RowDue(d)(me) + (if PaysPage(db, me, op) && me.dom == d then 1 else 0)
  {
  }

  lemma RowPaid(server: Server, clock: nat, db: Db, me: Worker, op: Op, d: nat)
    requires WorkerOk(server, db, me) && Ready(db, me, op)
    ensures Sum(NextDb(server, clock, db, me, op).pages, RowsOf(d)) + RowDue(d)(NextWorker(server, clock, db, me, op))
            <= Sum(db.pages, RowsOf(d)) + RowDue(d)(me) + (if PaysPage(db, me, op) && me.dom == d then 1 else 0)
  {
    PagesMove(server, clock, db, me, op, d);
    DueMove(server, clock, db, me, op, d);
  }

  lemma {:induction false} NoRows(pages: seq<PageRow>, workers: seq<Worker>, d: nat)
    requires forall p :: 0 <= p < |pages| ==> pages[p].dom != d
    requires forall w :: 0 <= w < |workers| ==> RowDue(d)(workers[w]) == 0
    ensures Sum(pages, RowsOf(d)) == 0 && Sum(workers, RowDue(d)) == 0
  {
    if pages != [] {
      NoRows(pages[..|pages| - 1], workers, d);
    } else if workers != [] {
      NoRows(pages, workers[..|workers| - 1], d);
    }
  }

  lemma CoveredStep(s: State, a: Action, d: nat)
    requires Wf(s) && Enabled(s, a) && d < |Apply(s, a).db.domains|
    requires d < |s.db.domains| ==> Covered(s, d)
    ensures Covered(Apply(s, a), d)
  {
    var t := Apply(s, a);
    match a
    case By(w, op) =>
      DomainsMove(s.server, s.clock, s.db, s.workers[w], op, d);
      RowPaid(s.server, s.clock, s.db, s.workers[w], op, d);
      SumUpdate(s.workers, w, t.workers[w], RowDue(d));
      if d == |s.db.domains| {
        NoRows(s.db.pages, s.workers, d);
      }
    case Spawn(job) => SumAppend(s.workers, Started(job, s.server.limits), RowDue(d));
    case _ =>
  }

  // ---- the cap on a domain

  /** The page gate reads the domain's counter as it is, not as it was. */
  predicate Fresh(s: State, a: Action) {
    a.By? && a.w < |s.workers| && a.op.PageGate? ==>
      s.workers[a.w].dom < |s.db.domains| && a.op.seen == s.db.domains[s.workers[a.w].dom].crawlPages
  }

  lemma CappedStep(s: State, a: Action, d: nat)
    requires Wf(s) && Enabled(s, a) && Fresh(s, a) && d < |Apply(s, a).db.domains|
    requires d < |s.db.domains| ==> Capped(s, d)
    ensures Capped(Apply(s, a), d)
  {
    var t := Apply(s, a);
    ApplyGrows(s, a);
    if a.By? {
      var me := s.workers[a.w];
      DomainsMove(s.server, s.clock, s.db, me, a.op, d);
      if PaysPage(s.db, me, a.op) && me.dom == d {
        assert SameJob(s.db.jobs[me.job], t.db.jobs[me.job]);
        assert t.db.domains[d].crawlPages <= t.db.jobs[me.job].limits.maxPages;
      }
    }
    if d < |s.db.domains| && s.db.domains[d].crawlPages != 0 {
      var j :| 0 <= j < |s.db.jobs| && s.db.jobs[j].project == s.db.domains[d].project
               && s.db.domains[d].crawlPages <= s.db.jobs[j].limits.maxPages;
      assert SameJob(s.db.jobs[j], t.db.jobs[j]);
    }
  }

  /** As long as every page gate reads the present counter, the largest max_pages of the project bounds it. */
  lemma {:induction false} CapWhenFresh(states: seq<State>, actions: seq<Action>, i: nat, d: nat)
    requires Run(states, actions) && Init(states[0]) && i < |states|
    requires forall k :: 0 <= k < i ==> Fresh(states[k], actions[k])
    requires d < |states[i].db.domains|
    ensures Capped(states[i], d)
  {
    if i == 0 {
    } else {
      var s, a := states[i - 1], actions[i - 1];
      if d < |s.db.domains| {
        CapWhenFresh(states, actions, i - 1, d);
      }
      CappedStep(s, a, d);
    }
  }

  function MaxOf(project: string): Job -> nat {
    (job: Job) => if job.project == project then job.limits.maxPages else 0
  }

  // ---- main result

  /**
   * Page conservation: in every state of every run, the pages charged to a project's domains are
   * exactly the pages its jobs processed, a domain never has more page rows than it was charged for,
   * and no domain is charged more than the max_pages of its project's jobs come to together.
   */
  lemma PageConservation(states: seq<State>, actions: seq<Action>, i: nat, project: string, d: nat)
    requires Run(states, actions) && Init(states[0]) && i < |states|
    ensures Conserved(states[i], project)
    ensures d < |states[i].db.domains| ==>
              && Covered(states[i], d)
              && Sum(states[i].db.pages, RowsOf(d)) <= states[i].db.domains[d].crawlPages
              && states[i].db.domains[d].crawlPages <= Sum(states[i].db.jobs, MaxOf(states[i].db.domains[d].project))
  {
    ConservedRun(states, actions, i, project, d);
    if d < |states[i].db.domains| {
      var s, own := states[i], states[i].db.domains[d].project;
      ConservedRun(states, actions, i, own, d);
      SumMember(s.db.domains, d, CrawlOf(own));
      forall j | 0 <= j < |s.db.jobs|
        ensures PagesOf(own)(s.db.jobs[j]) <= MaxOf(own)(s.db.jobs[j])
      {
        Budget.BudgetChain(states, actions, i, j);
      }
      SumBelow(s.db.jobs, PagesOf(own), MaxOf(own));
    }
  }

  lemma {:induction false} ConservedRun(states: seq<State>, actions: seq<Action>, i: nat, project: string, d: nat)
    requires Run(states, actions) && Init(states[0]) && i < |states|
    ensures Conserved(states[i], project)
    ensures d < |states[i].db.domains| ==> Covered(states[i], d)
  {
    if i == 0 {
    } else {
      var s, a := states[i - 1], actions[i - 1];
      ConservedRun(states, actions, i - 1, project, d);
      ConserveStep(s, a, project);
      if d < |states[i].db.domains| {
        CoveredStep(s, a, d);
      }
    }
  }
}
