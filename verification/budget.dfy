/**
 * The budget chain of a job, page conservation per project, and the bound on the frontier, over every
 * run of the protocol: any number of workers, faults, crashes, expired leases and stale writes.
 */
module Budget {
  import opened Basics
  import opened Database
  import opened Protocol

  // ---- credits: what a worker has been granted and not yet used

  /** Workers between a URL grant and their page gate. */
  function URLHeld(j: nat): Worker -> nat {
    (me: Worker) =>
      if me.job == j && me.phase.Holds? &&
         (me.phase.stage == AtRate || me.phase.stage == AtLoadJob || me.phase.stage == AtDomain ||
          me.phase.stage == AtProbe || me.phase.stage == AtPageGate) then 1 else 0
  }

  /** Workers with a page grant whose fetch has not begun. */
  function PageHeld(j: nat): Worker -> nat {
    (me: Worker) => if me.job == j && me.phase == Holds(AtFetch) then 1 else 0
  }

  predicate Chain(s: State, j: nat)
    requires |s.hist| == |s.db.jobs| && j < |s.hist|
  {
    var job, h := s.db.jobs[j], s.hist[j];
    && h.renders <= h.fetches
    && h.fetches + Sum(s.workers, PageHeld(j)) <= job.processedPages
    && job.processedPages + Sum(s.workers, URLHeld(j)) <= job.processedURLs
    && job.processedPages <= job.limits.maxPages
    && job.processedURLs <= job.limits.maxURLs
  }

  /** A fetch is paid for by a page grant, and a render by its fetch. */
  lemma FetchPaid(server: Server, clock: nat, db: Db, hist: seq<History>, me: Worker, op: Op, j: nat)
    requires WorkerOk(server, db, me) && Ready(db, me, op) && |hist| == |db.jobs| && j < |db.jobs|
    ensures
      var me', hist' := NextWorker(server, clock, db, me, op), NextHist(hist, me, op);
      && hist'[j].fetches + PageHeld(j)(me')
         <= hist[j].fetches + PageHeld(j)(me) + (if j == me.job && PaysPage(db, me, op) then 1 else 0)
      && hist'[j].renders - hist[j].renders <= hist'[j].fetches - hist[j].fetches
  {
  }

  /** A page grant is paid for by a URL grant. */
  lemma PagePaid(server: Server, clock: nat, db: Db, me: Worker, op: Op, j: nat)
    requires WorkerOk(server, db, me) && Ready(db, me, op) && j < |db.jobs|
    ensures
      var me' := NextWorker(server, clock, db, me, op);
      (if j == me.job && PaysPage(db, me, op) then 1 else 0) + URLHeld(j)(me')
      <= URLHeld(j)(me) + (if j == me.job && PaysURL(db, me, op) then 1 else 0)
  {
  }

  lemma ChainStep(s: State, a: Action, j: nat)
    requires Wf(s) && Enabled(s, a) && j < |Apply(s, a).db.jobs|
    requires j < |s.db.jobs| ==> Chain(s, j)
    ensures |Apply(s, a).hist| == |Apply(s, a).db.jobs| && Chain(Apply(s, a), j)
  {
    ApplyWf(s, a);
    var t := Apply(s, a);
    match a
    case By(w, op) =>
      var me := s.workers[w];
      CountersMove(s.server, s.clock, s.db, me, op, j);
      FetchPaid(s.server, s.clock, s.db, s.hist, me, op, j);
      PagePaid(s.server, s.clock, s.db, me, op, j);
      SumUpdate(s.workers, w, t.workers[w], PageHeld(j));
      SumUpdate(s.workers, w, t.workers[w], URLHeld(j));
    case Spawn(job) =>
      SumAppend(s.workers, Started(job, s.server.limits), PageHeld(j));
      SumAppend(s.workers, Started(job, s.server.limits), URLHeld(j));
    case Create(_, _) =>
      if j == |s.db.jobs| {
        NoCredits(s.workers, j);
      }
    case _ =>
  }

  /** Workers of other jobs hold no credit for job j. */
  lemma {:induction false} NoCredits(workers: seq<Worker>, j: nat)
    requires forall w :: 0 <= w < |workers| ==> workers[w].job != j
    ensures Sum(workers, PageHeld(j)) == 0 && Sum(workers, URLHeld(j)) == 0
  {
    if workers == [] {
    } else {
      NoCredits(workers[..|workers| - 1], j);
    }
  }

  /**
   * Budget chain: in every state of every run from a fresh database, for every job,
   * renders <= fetches <= processed_pages <= processed_urls <= max_urls and processed_pages <= max_pages.
   */
  lemma {:induction false} BudgetChain(states: seq<State>, actions: seq<Action>, i: nat, j: nat)
    requires Run(states, actions) && Init(states[0]) && i < |states|
    requires j < |states[i].db.jobs|
    ensures Wf(states[i]) && Chain(states[i], j)
    ensures
      var job, h := states[i].db.jobs[j], states[i].hist[j];
      h.renders <= h.fetches <= job.processedPages <= job.processedURLs <= job.limits.maxURLs
      && job.processedPages <= job.limits.maxPages
  {
    RunWf(states, actions, i);
    if i == 0 {
    } else {
      var s, a := states[i - 1], actions[i - 1];
      if j < |s.db.jobs| {
        BudgetChain(states, actions, i - 1, j);
      }
      ChainStep(s, a, j);
    }
  }
}
