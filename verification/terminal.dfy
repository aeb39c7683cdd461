/** A completed, failed or cancelled job stays as it is, whatever handlers and workers still do. */
module TerminalJobs {
  import opened Basics
  import opened Database
  import opened Protocol
  import Budget

  function ClaimsOf(j: nat): Worker -> nat {
    (me: Worker) => if me.job == j then me.claims else 0
  }

  /** Workers that passed the status check of this turn and have not yet claimed. */
  function MayClaim(j: nat): Worker -> nat {
    (me: Worker) =>
      if me.job == j && (me.phase == AtBegin || me.phase == AtSelect || me.phase == AtCommit) then 1 else 0
  }

  /** A status at which a worker claims nothing: a terminal one, or a pause. */
  predicate Stopped(status: JobStatus) {
    Terminal(status) || status == JobPaused
  }

  predicate Over(s: State, j: nat) {
    j < |s.db.jobs| && Terminal(s.db.jobs[j].status)
  }

  function FetchCredit(s: State, j: nat): nat
    requires j < |s.hist|
  {
    s.hist[j].fetches + Sum(s.workers, Budget.PageHeld(j))
  }

  function ClaimCredit(s: State, j: nat): nat {
    Sum(s.workers, ClaimsOf(j)) + Sum(s.workers, MayClaim(j))
  }

  lemma ClaimPaidFault(server: Server, clock: nat, db: Db, me: Worker, op: Op, j: nat)
    requires WorkerOk(server, db, me) && Ready(db, me, op) && j < |db.jobs| && Stopped(db.jobs[j].status)
    requires op.Fault?
    ensures
      var me' := NextWorker(server, clock, db, me, op);
      ClaimsOf(j)(me') + MayClaim(j)(me') <= ClaimsOf(j)(me) + MayClaim(j)(me)
  {
  }

  lemma ClaimPaidClaim(server: Server, clock: nat, db: Db, me: Worker, op: Op, j: nat)
    requires WorkerOk(server, db, me) && Ready(db, me, op) && j < |db.jobs| && Stopped(db.jobs[j].status)
    requires ClaimOp(op)
    ensures
      var me' := NextWorker(server, clock, db, me, op);
      ClaimsOf(j)(me') + MayClaim(j)(me') <= ClaimsOf(j)(me) + MayClaim(j)(me)
  {
    if op.Fault? {
      ClaimPaidFault(server, clock, db, me, op, j);
    }
  }

  lemma ClaimPaid(server: Server, clock: nat, db: Db, me: Worker, op: Op, j: nat)
    requires WorkerOk(server, db, me) && Ready(db, me, op) && j < |db.jobs| && Stopped(db.jobs[j].status)
    ensures
      var me' := NextWorker(server, clock, db, me, op);
      ClaimsOf(j)(me') + MayClaim(j)(me') <= ClaimsOf(j)(me) + MayClaim(j)(me)
  {
    if op.Fault? {
      ClaimPaidFault(server, clock, db, me, op, j);
    }
    if ClaimOp(op) {
      ClaimPaidClaim(server, clock, db, me, op, j);
    }
  }

  lemma RowKept(s: State, a: Action, j: nat)
    requires Wf(s) && Enabled(s, a) && Over(s, j)
    ensures Wf(Apply(s, a)) && j < |Apply(s, a).db.jobs| && Apply(s, a).db.jobs[j] == s.db.jobs[j]
  {
    ApplyWf(s, a);
    if a.By? {
      CountersMove(s.server, s.clock, s.db, s.workers[a.w], a.op, j);
    }
  }

  lemma CreditsMove(s: State, w: nat, op: Op, j: nat)
    requires Wf(s) && Enabled(s, By(w, op)) && Over(s, j)
    ensures |Apply(s, By(w, op)).hist| == |s.hist|
    ensures FetchCredit(Apply(s, By(w, op)), j) <= FetchCredit(s, j)
    ensures ClaimCredit(Apply(s, By(w, op)), j) <= ClaimCredit(s, j)
  {
    var me, me' := s.workers[w], Apply(s, By(w, op)).workers[w];
    Budget.FetchPaid(s.server, s.clock, s.db, s.hist, me, op, j);
    ClaimPaid(s.server, s.clock, s.db, me, op, j);
    SumUpdate(s.workers, w, me', Budget.PageHeld(j));
    SumUpdate(s.workers, w, me', ClaimsOf(j));
    SumUpdate(s.workers, w, me', MayClaim(j));
  }

  lemma OverStep(s: State, a: Action, j: nat)
    requires Wf(s) && Enabled(s, a) && Over(s, j)
    ensures Wf(Apply(s, a)) && j < |Apply(s, a).db.jobs|
    ensures Apply(s, a).db.jobs[j] == s.db.jobs[j]
    ensures FetchCredit(Apply(s, a), j) <= FetchCredit(s, j)
    ensures ClaimCredit(Apply(s, a), j) <= ClaimCredit(s, j)
  {
    RowKept(s, a, j);
    match a
    case By(w, op) => CreditsMove(s, w, op, j);
    case Spawn(job) =>
      var started := Started(job, s.server.limits);
      SumAppend(s.workers, started, Budget.PageHeld(j));
      SumAppend(s.workers, started, ClaimsOf(j));
      SumAppend(s.workers, started, MayClaim(j));
    case _ =>
  }

  /**
   * Frozen: from a state in which job j is completed, failed or cancelled, no interleaving of pause,
   * resume, cancel, runDiscovery, imports, new workers and running workers changes its row. Fetches begun
   * afterwards number at most the workers that already held a page grant, and claims at most the workers
   * that had already passed the status check.
   */
  lemma {:induction false} TerminalFrozen(states: seq<State>, actions: seq<Action>, i: nat, k: nat, j: nat)
    requires Run(states, actions) && i <= k < |states| && Over(states[i], j)
    ensures Wf(states[i]) && Wf(states[k]) && j < |states[k].db.jobs|
    ensures states[k].db.jobs[j] == states[i].db.jobs[j]
    ensures states[k].hist[j].fetches <= states[i].hist[j].fetches + Sum(states[i].workers, Budget.PageHeld(j))
    ensures Sum(states[k].workers, ClaimsOf(j))
            <= Sum(states[i].workers, ClaimsOf(j)) + Sum(states[i].workers, MayClaim(j))
    ensures FetchCredit(states[k], j) <= FetchCredit(states[i], j)
    ensures ClaimCredit(states[k], j) <= ClaimCredit(states[i], j)
  {
    RunWf(states, actions, i);
    if i == k {
    } else {
      TerminalFrozen(states, actions, i, k - 1, j);
      OverStep(states[k - 1], actions[k - 1], j);
    }
  }

  // ---- pauses

  predicate Paused(s: State, j: nat) {
    j < |s.db.jobs| && s.db.jobs[j].status == JobPaused
  }

  predicate PausedThroughout(states: seq<State>, i: nat, k: nat, j: nat)
    requires k < |states|
  {
    forall m :: i <= m <= k ==> Paused(states[m], j)
  }

  lemma PausedStep(s: State, a: Action, j: nat)
    requires Wf(s) && Enabled(s, a) && Paused(s, j)
    ensures ClaimCredit(Apply(s, a), j) <= ClaimCredit(s, j)
  {
    match a
    case By(w, op) =>
      var me, me' := s.workers[w], Apply(s, a).workers[w];
      ClaimPaid(s.server, s.clock, s.db, me, op, j);
      SumUpdate(s.workers, w, me', ClaimsOf(j));
      SumUpdate(s.workers, w, me', MayClaim(j));
    case Spawn(job) =>
      SumAppend(s.workers, Started(job, s.server.limits), ClaimsOf(j));
      SumAppend(s.workers, Started(job, s.server.limits), MayClaim(j));
    case _ =>
  }

  /**
   * A pause takes hold: as long as a job is paused its workers, old and new, claim at most as often as there
   * were workers already past the status check and inside a claim when it began.
   */
  lemma {:induction false} PauseHolds(states: seq<State>, actions: seq<Action>, i: nat, k: nat, j: nat)
    requires Run(states, actions) && i <= k < |states| && PausedThroughout(states, i, k, j)
    ensures ClaimCredit(states[k], j) <= ClaimCredit(states[i], j)
    ensures Sum(states[k].workers, ClaimsOf(j))
            <= Sum(states[i].workers, ClaimsOf(j)) + Sum(states[i].workers, MayClaim(j))
  {
    if i == k {
    } else {
      PauseHolds(states, actions, i, k - 1, j);
      assert Paused(states[k - 1], j);
      PausedStep(states[k - 1], actions[k - 1], j);
    }
  }

  /** At the top of the loop, below its limits, the job's status alone decides where a worker goes. */
  lemma StatusDecides(s: State, w: nat)
    requires Wf(s) && w < |s.workers| && s.workers[w].phase == AtTop && Enabled(s, By(w, CheckStatus))
    requires s.workers[w].pages < s.workers[w].lim.maxPages && s.workers[w].processed < s.workers[w].lim.maxURLs
    ensures s.workers[w].job < |s.db.jobs|
    ensures
      var status, t := s.db.jobs[s.workers[w].job].status, Apply(s, By(w, CheckStatus));
      && (status == JobPaused <==> t == s)
      && (status == JobQueued || status == JobRunning <==> t.workers[w].phase == AtBegin)
      && (status == JobCompleted || status == JobFailed || status == JobCancelled <==> t.workers[w].phase == Returned)
  {
    var me := s.workers[w];
    assert WorkerOk(s.server, s.db, me);
    assert s.workers[w := me] == s.workers;
    assert Apply(s, By(w, CheckStatus)) == s ==> Apply(s, By(w, CheckStatus)).workers[w] == me;
  }
}
