/**
 * When "completed" means that nothing is left to do. FinishJobIfEmpty counts open candidates and then
 * sets the status, a page's candidate is marked completed before its links are inserted, and writes and
 * imports check neither lease nor job status; so the answer depends on how the job is run.
 */
module Completion {
  import opened Basics
  import opened Database
  import opened Protocol
  import Lease

  /**
   * How a job is run: at most this many Run calls in all; whether link discovery is on; whether
   * dispositions are only written under an unexpired lease; whether imports may follow the first worker.
   */
  datatype Regime = Regime(workers: nat, links: bool, timely: bool, imports: bool)

  function WorkerOf(j: nat): Worker -> nat {
    (me: Worker) => if me.job == j then 1 else 0
  }

  predicate Allowed(r: Regime, j: nat, s: State, a: Action) {
    && (a == Spawn(j) ==> Sum(s.workers, WorkerOf(j)) < r.workers)
    && (a.Create? && j == |s.db.jobs| && !r.links ==> !a.config.linkDiscovery)
    && (a.Import? && a.job == j && !r.imports ==> !Manned(s, j))
    && (r.timely ==> Lease.Timely(s, a))
  }

  predicate RegimeRun(r: Regime, j: nat, states: seq<State>, actions: seq<Action>) {
    && Run(states, actions) && Init(states[0])
    && forall i :: 0 <= i < |actions| ==> Allowed(r, j, states[i], actions[i])
  }

  function OpenCount(s: State, j: nat): nat {
    Sum(s.db.cands, OpenOf(j))
  }

  predicate IsCompleted(s: State, j: nat) {
    j < |s.db.jobs| && s.db.jobs[j].status == JobCompleted
  }

  /** In every state of every run, a completed job has no open candidate. */
  ghost predicate Sound(r: Regime, j: nat) {
    forall states, actions, i: nat ::
      RegimeRun(r, j, states, actions) && i < |states| && IsCompleted(states[i], j) ==> OpenCount(states[i], j) == 0
  }

  /** What has to be true of a regime for Sound to hold. */
  predicate Safe(r: Regime) {
    r.workers == 0 || (!r.imports && (r.workers == 1 || (!r.links && r.timely)))
  }

  // ---- open candidates

  /** No worker of job j inserts links. */
  predicate NoLinking(s: State, j: nat) {
    && (j < |s.db.jobs| ==> !s.db.jobs[j].config.linkDiscovery)
    && forall w :: 0 <= w < |s.workers| && s.workers[w].job == j ==> !Linking(s.workers[w])
  }

  /** A worker of another job leaves the open candidates of job j alone. */
  lemma OtherJobKeepsOpen(server: Server, clock: nat, db: Db, me: Worker, op: Op, j: nat)
    requires WorkerOk(server, db, me) && Ready(db, me, op) && me.job != j
    ensures Sum(NextDb(server, clock, db, me, op).cands, OpenOf(j)) == Sum(db.cands, OpenOf(j))
  {
    RowsMove(server, clock, db, me, op);
    var db' := NextDb(server, clock, db, me, op);
    if WritesRow(op) {
      SumUpdate(db.cands, me.cand, db'.cands[me.cand], OpenOf(j));
    } else if InsertsChild(server, db, me, op) {
      SumAppend(db.cands, ChildRow(me, clock), OpenOf(j));
    }
  }

  lemma NoOpenRow(cands: seq<Candidate>, j: nat, c: nat)
    requires Sum(cands, OpenOf(j)) == 0 && c < |cands| && cands[c].job == j
    ensures !Open(cands[c].status)
  {
    SumMember(cands, c, OpenOf(j));
  }

  /** Under the lease guard a row that is written is open: being claimed, or claimed by its writer. */
  lemma WritesOpen(server: Server, clock: nat, db: Db, me: Worker, op: Op)
    requires WorkerOk(server, db, me) && Ready(db, me, op) && Lease.FitsRow(clock, db, me) && WritesRow(op)
    requires op.Commit? || clock <= me.lease
    ensures me.cand < |db.cands| && db.cands[me.cand].job == me.job && Open(db.cands[me.cand].status)
  {
  }

  /** With final outcomes and no link insertion, an emptied queue stays empty. */
  lemma TimelyKeepsEmpty(s: State, w: nat, op: Op, j: nat)
    requires Lease.Inv(s) && Enabled(s, By(w, op)) && Lease.Timely(s, By(w, op))
    requires s.workers[w].job == j && NoLinking(s, j) && OpenCount(s, j) == 0
    ensures OpenCount(Apply(s, By(w, op)), j) == 0
  {
    var me := s.workers[w];
    RowsMove(s.server, s.clock, s.db, me, op);
    assert Lease.Fits(s, w);
    if WritesRow(op) {
      WritesOpen(s.server, s.clock, s.db, me, op);
      NoOpenRow(s.db.cands, j, me.cand);
      assert false;
    }
  }

  predicate Linking(me: Worker) {
    me.phase == AtLinks || (me.phase == Holds(AtSettle) && me.after == ToLinks)
  }

  lemma LinkingMove(server: Server, clock: nat, db: Db, me: Worker, op: Op)
    requires WorkerOk(server, db, me) && Ready(db, me, op)
    requires !db.jobs[me.job].config.linkDiscovery && !Linking(me)
    ensures !Linking(NextWorker(server, clock, db, me, op))
  {
  }

  lemma NoLinkingMove(s: State, w: nat, op: Op, j: nat)
    requires Wf(s) && Enabled(s, By(w, op)) && NoLinking(s, j)
    ensures NoLinking(Apply(s, By(w, op)), j)
  {
    var me := s.workers[w];
    JobKept(s.server, s.clock, s.db, me, op);
    CountersMove(s.server, s.clock, s.db, me, op, if j < |s.db.jobs| then j else me.job);
    if me.job == j {
      LinkingMove(s.server, s.clock, s.db, me, op);
    }
  }

  // ---- sufficiency

  /** The job is completed, or some worker has counted zero and is about to complete it. */
  predicate Finishing(s: State, j: nat) {
    IsCompleted(s, j) || exists w :: 0 <= w < |s.workers| && s.workers[w].job == j && s.workers[w].phase == AtClose
  }

  predicate EmptyWhenFinishing(s: State, j: nat) {
    Finishing(s, j) ==> Manned(s, j) && OpenCount(s, j) == 0
  }

  /** Only FinishJobIfEmpty completes a job. */
  lemma StatusMove(server: Server, clock: nat, db: Db, me: Worker, op: Op, j: nat)
    requires WorkerOk(server, db, me) && Ready(db, me, op) && j < |db.jobs|
    requires db.jobs[j].status != JobCompleted && !(me.job == j && me.phase == AtClose)
    ensures j < |NextDb(server, clock, db, me, op).jobs| == |db.jobs|
    ensures NextDb(server, clock, db, me, op).jobs[j].status != JobCompleted
  {
  }

  lemma ClosesMoveFault(server: Server, clock: nat, db: Db, me: Worker, op: Op)
    requires WorkerOk(server, db, me) && Ready(db, me, op)
    requires op.Fault?
    ensures NextWorker(server, clock, db, me, op).phase == AtClose ==>
              op.Count? && me.phase == AtCount && Sum(db.cands, OpenOf(me.job)) == 0
  {
  }

  lemma ClosesMove(server: Server, clock: nat, db: Db, me: Worker, op: Op)
    requires WorkerOk(server, db, me) && Ready(db, me, op)
    ensures NextWorker(server, clock, db, me, op).phase == AtClose ==>
              op.Count? && me.phase == AtCount && Sum(db.cands, OpenOf(me.job)) == 0
  {
    if op.Fault? {
      ClosesMoveFault(server, clock, db, me, op);
    }
  }

  /** Only a worker of the job that has just counted zero open candidates starts to finish it. */
  lemma FinishingMove(s: State, w: nat, op: Op, j: nat)
    requires Wf(s) && Enabled(s, By(w, op)) && !Finishing(s, j) && Finishing(Apply(s, By(w, op)), j)
    ensures s.workers[w].job == j && Apply(s, By(w, op)).workers[w].job == j && OpenCount(Apply(s, By(w, op)), j) == 0
  {
    var t, me := Apply(s, By(w, op)), s.workers[w];
    if j < |s.db.jobs| {
      StatusMove(s.server, s.clock, s.db, me, op, j);
    } else {
      CountersMove(s.server, s.clock, s.db, me, op, me.job);
    }
    JobKept(s.server, s.clock, s.db, me, op);
    ClosesMove(s.server, s.clock, s.db, me, op);
    var v :| 0 <= v < |t.workers| && t.workers[v].job == j && t.workers[v].phase == AtClose;
    assert v == w;
  }

  lemma MannedStep(s: State, a: Action, j: nat)
    requires Wf(s) && Enabled(s, a) && Manned(s, j)
    ensures Manned(Apply(s, a), j)
  {
    var w :| 0 <= w < |s.workers| && s.workers[w].job == j;
    assert Apply(s, a).workers[w].job == j;
  }

  /** Away from the job's own workers, nothing fills an emptied queue or starts to finish a job. */
  lemma EnvironmentStep(r: Regime, j: nat, s: State, a: Action)
    requires Wf(s) && Enabled(s, a) && Allowed(r, j, s, a) && !r.imports
    requires a.By? ==> s.workers[a.w].job != j
    requires EmptyWhenFinishing(s, j)
    ensures EmptyWhenFinishing(Apply(s, a), j)
  {
    var t := Apply(s, a);
    if Finishing(s, j) {
      MannedStep(s, a, j);
    }
    match a
    case By(w, op) =>
      OtherJobKeepsOpen(s.server, s.clock, s.db, s.workers[w], op, j);
      if !Finishing(s, j) && Finishing(t, j) {
        FinishingMove(s, w, op, j);
      }
    case Import(job, url, norm, domain, priority) =>
      SumAppend(s.db.cands, NewRow(job, url, norm, domain, "", priority, 0, s.clock), OpenOf(j));
    case Spawn(job) =>
      assert forall w :: 0 <= w < |s.workers| ==> t.workers[w] == s.workers[w];
    case _ =>
  }

  lemma NoLinkingStep(r: Regime, j: nat, s: State, a: Action)
    requires Wf(s) && Enabled(s, a) && Allowed(r, j, s, a) && !r.links && NoLinking(s, j)
    ensures NoLinking(Apply(s, a), j)
  {
    if a.By? {
      NoLinkingMove(s, a.w, a.op, j);
    }
  }

  lemma TimelyOwnStep(j: nat, s: State, w: nat, op: Op)
    requires Lease.Inv(s) && Enabled(s, By(w, op)) && Lease.Timely(s, By(w, op)) && s.workers[w].job == j
    requires NoLinking(s, j) && EmptyWhenFinishing(s, j)
    ensures EmptyWhenFinishing(Apply(s, By(w, op)), j)
  {
    var t := Apply(s, By(w, op));
    JobKept(s.server, s.clock, s.db, s.workers[w], op);
    assert Manned(t, j) by { assert t.workers[w].job == j; }
    if Finishing(s, j) {
      TimelyKeepsEmpty(s, w, op, j);
    } else if Finishing(t, j) {
      FinishingMove(s, w, op, j);
    }
  }

  /** The step of the several-worker case: timely writes, links off, no imports. */
  lemma TimelyStep(r: Regime, j: nat, s: State, a: Action)
    requires Lease.Inv(s) && Enabled(s, a) && Allowed(r, j, s, a) && !r.imports && !r.links && r.timely
    requires NoLinking(s, j) && EmptyWhenFinishing(s, j)
    ensures NoLinking(Apply(s, a), j) && EmptyWhenFinishing(Apply(s, a), j)
  {
    NoLinkingStep(r, j, s, a);
    if a.By? && s.workers[a.w].job == j {
      TimelyOwnStep(j, s, a.w, a.op);
    } else {
      EnvironmentStep(r, j, s, a);
    }
  }

  // The single-worker case: the worker that completes the job has returned, so nobody is left to write.

  predicate Gone(me: Worker) {
    me.phase == Returned || me.phase == Crashed
  }

  predicate CompletedByOneGone(s: State, j: nat) {
    && Sum(s.workers, WorkerOf(j)) <= 1
    && (IsCompleted(s, j) ==> forall w :: 0 <= w < |s.workers| && s.workers[w].job == j ==> Gone(s.workers[w]))
  }

  lemma {:induction false} TwoWorkers(workers: seq<Worker>, v: nat, w: nat, j: nat)
    requires v < w < |workers| && workers[v].job == j && workers[w].job == j
    ensures Sum(workers, WorkerOf(j)) >= 2
  {
    var n := |workers| - 1;
    if w == n {
      SumMember(workers[..n], v, WorkerOf(j));
    } else {
      TwoWorkers(workers[..n], v, w, j);
    }
  }

  lemma OnlyWorker(s: State, v: nat, w: nat, j: nat)
    requires v < |s.workers| && w < |s.workers| && s.workers[v].job == j && s.workers[w].job == j
    requires Sum(s.workers, WorkerOf(j)) <= 1
    ensures v == w
  {
    if v < w {
      TwoWorkers(s.workers, v, w, j);
    } else if w < v {
      TwoWorkers(s.workers, w, v, j);
    }
  }

  lemma FinisherIdle(server: Server, clock: nat, db: Db, me: Worker, op: Op)
    requires WorkerOk(server, db, me) && Ready(db, me, op) && (me.phase == AtClose || Gone(me))
    ensures NextDb(server, clock, db, me, op).cands == db.cands
  {
  }

  /** While the only worker is finishing, it writes no candidate. */
  lemma OneWorkerKeepsEmpty(s: State, w: nat, op: Op, j: nat)
    requires Wf(s) && Enabled(s, By(w, op)) && s.workers[w].job == j
    requires CompletedByOneGone(s, j) && Finishing(s, j) && OpenCount(s, j) == 0
    ensures OpenCount(Apply(s, By(w, op)), j) == 0
  {
    if !IsCompleted(s, j) {
      var v :| 0 <= v < |s.workers| && s.workers[v].job == j && s.workers[v].phase == AtClose;
      OnlyWorker(s, v, w, j);
    }
    FinisherIdle(s.server, s.clock, s.db, s.workers[w], op);
  }

  lemma WorkersMove(s: State, a: Action, j: nat)
    requires Wf(s) && Enabled(s, a)
    ensures Sum(Apply(s, a).workers, WorkerOf(j)) == Sum(s.workers, WorkerOf(j)) + (if a == Spawn(j) then 1 else 0)
  {
    match a
    case By(w, op) =>
      var me := s.workers[w];
      var me' := NextWorker(s.server, s.clock, s.db, me, op);
      JobKept(s.server, s.clock, s.db, me, op);
      SumUpdate(s.workers, w, me', WorkerOf(j));
    case Spawn(job) => SumAppend(s.workers, Started(job, s.server.limits), WorkerOf(j));
    case _ =>
  }

  /** Completing takes the close of the one worker, which then returns; a new worker needs a free place. */
  lemma OneGoneStep(r: Regime, j: nat, s: State, a: Action)
    requires Wf(s) && Enabled(s, a) && Allowed(r, j, s, a) && r.workers <= 1
    requires CompletedByOneGone(s, j) && EmptyWhenFinishing(s, j)
    ensures CompletedByOneGone(Apply(s, a), j)
  {
    var t := Apply(s, a);
    WorkersMove(s, a, j);
    if IsCompleted(t, j) {
      forall w | 0 <= w < |t.workers| && t.workers[w].job == j
        ensures Gone(t.workers[w])
      {
        match a
        case By(v, op) =>
          JobKept(s.server, s.clock, s.db, s.workers[v], op);
          OneGoneMove(s, v, op, j, w);
        case Spawn(job) =>
          if w == |s.workers| {
            var v :| 0 <= v < |s.workers| && s.workers[v].job == j;
            SumMember(s.workers, v, WorkerOf(j));
          }
        case _ =>
      }
    }
  }

  lemma GoneIdle(db: Db, me: Worker, op: Op)
    requires Gone(me)
    ensures !Ready(db, me, op)
  {
  }

  /** Completing a job makes its worker return. */
  lemma CompletingReturns(server: Server, clock: nat, db: Db, me: Worker, op: Op, j: nat)
    requires WorkerOk(server, db, me) && Ready(db, me, op) && j < |db.jobs| && db.jobs[j].status != JobCompleted
    requires j < |NextDb(server, clock, db, me, op).jobs|
    requires NextDb(server, clock, db, me, op).jobs[j].status == JobCompleted
    ensures me.job == j && NextWorker(server, clock, db, me, op).phase == Returned
  {
  }

  lemma OneGoneMove(s: State, v: nat, op: Op, j: nat, w: nat)
    requires Wf(s) && Enabled(s, By(v, op)) && CompletedByOneGone(s, j)
    requires IsCompleted(Apply(s, By(v, op)), j) && w < |s.workers| && s.workers[w].job == j
    ensures Gone(Apply(s, By(v, op)).workers[w])
  {
    var me := s.workers[v];
    if IsCompleted(s, j) {
      if v == w {
        GoneIdle(s.db, me, op);
      }
    } else {
      JobRowMoves(s.server, s.clock, s.db, me, op);
      CompletingReturns(s.server, s.clock, s.db, me, op, j);
      OnlyWorker(s, v, w, j);
    }
  }

  lemma OneWorkerStep(r: Regime, j: nat, s: State, a: Action)
    requires Wf(s) && Enabled(s, a) && Allowed(r, j, s, a) && !r.imports && r.workers <= 1
    requires CompletedByOneGone(s, j) && EmptyWhenFinishing(s, j)
    ensures CompletedByOneGone(Apply(s, a), j) && EmptyWhenFinishing(Apply(s, a), j)
  {
    var t := Apply(s, a);
    OneGoneStep(r, j, s, a);
    if a.By? && s.workers[a.w].job == j {
      assert Manned(t, j) by { assert t.workers[a.w].job == j; }
      if Finishing(s, j) {
        OneWorkerKeepsEmpty(s, a.w, a.op, j);
      } else if Finishing(t, j) {
        FinishingMove(s, a.w, a.op, j);
      }
    } else {
      EnvironmentStep(r, j, s, a);
    }
  }

  /** Without a worker nobody completes the job. */
  lemma UnmannedStep(r: Regime, j: nat, s: State, a: Action)
    requires Wf(s) && Enabled(s, a) && Allowed(r, j, s, a) && r.workers == 0
    requires Sum(s.workers, WorkerOf(j)) == 0 && !IsCompleted(s, j)
    ensures Sum(Apply(s, a).workers, WorkerOf(j)) == 0 && !IsCompleted(Apply(s, a), j)
  {
    WorkersMove(s, a, j);
    if a.By? {
      var me := s.workers[a.w];
      SumMember(s.workers, a.w, WorkerOf(j));
      CountersMove(s.server, s.clock, s.db, me, a.op, me.job);
      if j < |s.db.jobs| {
        StatusMove(s.server, s.clock, s.db, me, a.op, j);
      }
    }
  }

  /** What every state of a safe regime satisfies. */
  predicate SafeState(r: Regime, j: nat, s: State) {
    && Wf(s)
    && (r.workers == 0 ==> Sum(s.workers, WorkerOf(j)) == 0 && !IsCompleted(s, j))
    && (r.workers == 1 ==> CompletedByOneGone(s, j) && EmptyWhenFinishing(s, j))
    && (r.workers > 1 ==> Lease.Inv(s) && NoLinking(s, j) && EmptyWhenFinishing(s, j))
  }

  lemma SafeStep(r: Regime, j: nat, s: State, a: Action)
    requires Safe(r) && SafeState(r, j, s) && Enabled(s, a) && Allowed(r, j, s, a)
    ensures SafeState(r, j, Apply(s, a))
  {
    ApplyWf(s, a);
    if r.workers == 0 {
      UnmannedStep(r, j, s, a);
    } else if r.workers == 1 {
      OneWorkerStep(r, j, s, a);
    } else {
      Lease.InvStep(s, a);
      TimelyStep(r, j, s, a);
    }
  }

  lemma {:induction false} SafeRun(r: Regime, j: nat, states: seq<State>, actions: seq<Action>, i: nat)
    requires RegimeRun(r, j, states, actions) && i < |states| && Safe(r)
    ensures SafeState(r, j, states[i])
  {
    if i == 0 {
    } else {
      SafeRun(r, j, states, actions, i - 1);
      SafeStep(r, j, states[i - 1], actions[i - 1]);
    }
  }
}
