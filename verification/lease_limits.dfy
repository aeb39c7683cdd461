/**
 * What is left of the lease guarantees without timely writes: the runs that break them, and the exact
 * characterisation they give.
 */
module LeaseLimits {
  import opened Basics
  import opened Database
  import opened Protocol
  import opened Completion
  import opened CompletionLimits
  import Lease

  /** In every state of every run, no two workers of job j hold live claims on one candidate. */
  ghost predicate Excludes(r: Regime, j: nat) {
    forall states: seq<State>, actions: seq<Action>, i: nat, v: nat, w: nat ::
      RegimeRun(r, j, states, actions) && i < |states| && BothLive(states[i], v, w, j) ==> v == w
  }

  predicate BothLive(s: State, v: nat, w: nat, j: nat) {
    && v < |s.workers| && w < |s.workers| && s.workers[v].job == s.workers[w].job == j
    && s.workers[v].cand == s.workers[w].cand && Lease.Live(s, v) && Lease.Live(s, w)
  }

  /** No action of any run changes a completed or failed_final candidate of job j. */
  ghost predicate FinalStays(r: Regime, j: nat) {
    forall states: seq<State>, actions: seq<Action>, i: nat, c: nat ::
      RegimeRun(r, j, states, actions) && i < |actions| && FinalRow(states[i], c, j) ==>
        Kept(states[i], Apply(states[i], actions[i]), c)
  }

  predicate Kept(s: State, t: State, c: nat) {
    c < |s.db.cands| && c < |t.db.cands| && t.db.cands[c] == s.db.cands[c]
  }

  predicate FinalRow(s: State, c: nat, j: nat) {
    c < |s.db.cands| && s.db.cands[c].job == j && !Open(s.db.cands[c].status)
  }

  // ---- timely, or one worker: the guarantees hold

  lemma TimelyRegime(r: Regime, j: nat, states: seq<State>, actions: seq<Action>)
    requires RegimeRun(r, j, states, actions) && r.timely
    ensures Lease.TimelyRun(states, actions)
  {
    forall i | 0 <= i < |actions|
      ensures Lease.Timely(states[i], actions[i])
    {
      assert Allowed(r, j, states[i], actions[i]);
    }
  }

  lemma {:induction false} FewWorkers(r: Regime, j: nat, states: seq<State>, actions: seq<Action>, i: nat)
    requires RegimeRun(r, j, states, actions) && i < |states|
    ensures Sum(states[i].workers, WorkerOf(j)) <= r.workers
  {
    if i == 0 {
    } else {
      FewWorkers(r, j, states, actions, i - 1);
      RunWf(states, actions, i - 1);
      assert Allowed(r, j, states[i - 1], actions[i - 1]);
      WorkersMove(states[i - 1], actions[i - 1], j);
    }
  }

  /** What a worker holds or has locked is open. */
  predicate HoldsOpen(db: Db, me: Worker) {
    me.phase.Holds? || me.phase == AtCommit ==> me.cand < |db.cands| && Open(db.cands[me.cand].status)
  }

  predicate OneHoldsOpen(s: State, j: nat) {
    && Wf(s) && Sum(s.workers, WorkerOf(j)) <= 1
    && forall w :: 0 <= w < |s.workers| && s.workers[w].job == j ==> HoldsOpen(s.db, s.workers[w])
  }

  lemma HoldsOpenMove(server: Server, clock: nat, db: Db, me: Worker, op: Op)
    requires WorkerOk(server, db, me) && Ready(db, me, op) && HoldsOpen(db, me)
    ensures HoldsOpen(NextDb(server, clock, db, me, op), NextWorker(server, clock, db, me, op))
  {
    RowsMove(server, clock, db, me, op);
    Lease.ClaimsMove(server, clock, db, me, op);
    if !op.Commit? && NextWorker(server, clock, db, me, op).phase.Holds? {
      Lease.HoldKept(server, clock, db, me, op);
    }
  }

  /** A final row of job j is not written: its one worker holds open rows only, and others hold rows of theirs. */
  lemma FinalRowKept(s: State, a: Action, j: nat, c: nat)
    requires OneHoldsOpen(s, j) && Enabled(s, a) && FinalRow(s, c, j)
    ensures c < |Apply(s, a).db.cands| && Apply(s, a).db.cands[c] == s.db.cands[c]
  {
    if a.By? {
      RowsMove(s.server, s.clock, s.db, s.workers[a.w], a.op);
      assert HoldsOpen(s.db, s.workers[a.w]) || s.workers[a.w].job != j;
    }
  }

  /** Another job's worker, or the environment, leaves the rows of job j alone. */
  lemma OtherRowKept(s: State, a: Action, j: nat, c: nat)
    requires Wf(s) && Enabled(s, a) && c < |s.db.cands| && s.db.cands[c].job == j
    requires a.By? ==> s.workers[a.w].job != j
    ensures c < |Apply(s, a).db.cands| && Apply(s, a).db.cands[c] == s.db.cands[c]
  {
    if a.By? {
      RowsMove(s.server, s.clock, s.db, s.workers[a.w], a.op);
    }
  }

  lemma OneHoldsOpenStep(s: State, a: Action, j: nat)
    requires OneHoldsOpen(s, j) && Enabled(s, a) && Sum(Apply(s, a).workers, WorkerOf(j)) <= 1
    ensures OneHoldsOpen(Apply(s, a), j)
  {
    var t := Apply(s, a);
    ApplyWf(s, a);
    forall w | 0 <= w < |t.workers| && t.workers[w].job == j
      ensures HoldsOpen(t.db, t.workers[w])
    {
      if a.By? {
        JobKept(s.server, s.clock, s.db, s.workers[a.w], a.op);
      }
      if a.By? && s.workers[a.w].job == j {
        OnlyWorker(s, a.w, w, j);
        HoldsOpenMove(s.server, s.clock, s.db, s.workers[w], a.op);
      } else if w < |s.workers| {
        HoldsOpenAside(s, a, j, w);
      }
    }
  }

  lemma HoldsOpenAside(s: State, a: Action, j: nat, w: nat)
    requires Wf(s) && Enabled(s, a) && (a.By? ==> s.workers[a.w].job != j)
    requires w < |s.workers| && s.workers[w].job == j && HoldsOpen(s.db, s.workers[w])
    ensures w < |Apply(s, a).workers| && Apply(s, a).workers[w] == s.workers[w]
    ensures HoldsOpen(Apply(s, a).db, s.workers[w])
  {
    assert WorkerOk(s.server, s.db, s.workers[w]);
    if s.workers[w].phase.Holds? || s.workers[w].phase == AtCommit {
      OtherRowKept(s, a, j, s.workers[w].cand);
    }
  }

  lemma {:induction false} RunHoldsOpen(r: Regime, j: nat, states: seq<State>, actions: seq<Action>, i: nat)
    requires RegimeRun(r, j, states, actions) && i < |states| && r.workers <= 1
    ensures OneHoldsOpen(states[i], j)
  {
    FewWorkers(r, j, states, actions, i);
    if i == 0 {
    } else {
      RunHoldsOpen(r, j, states, actions, i - 1);
      OneHoldsOpenStep(states[i - 1], actions[i - 1], j);
    }
  }

  lemma GuardedExcludes(r: Regime, j: nat)
    requires r.timely || r.workers <= 1
    ensures Excludes(r, j)
  {
    forall states: seq<State>, actions: seq<Action>, i: nat, v: nat, w: nat |
      RegimeRun(r, j, states, actions) && i < |states| && BothLive(states[i], v, w, j)
      ensures v == w
    {
      if r.timely {
        TimelyRegime(r, j, states, actions);
        Lease.LeaseExclusion(states, actions, i, v, w);
      } else {
        FewWorkers(r, j, states, actions, i);
        OnlyWorker(states[i], v, w, j);
      }
    }
  }

  lemma GuardedFinal(r: Regime, j: nat)
    requires r.timely || r.workers <= 1
    ensures FinalStays(r, j)
  {
    forall states: seq<State>, actions: seq<Action>, i: nat, c: nat |
      RegimeRun(r, j, states, actions) && i < |actions| && FinalRow(states[i], c, j)
      ensures Kept(states[i], Apply(states[i], actions[i]), c)
    {
      if r.timely {
        TimelyRegime(r, j, states, actions);
        Lease.OutcomesAreFinal(states, actions, i, i + 1, c);
      } else {
        RunHoldsOpen(r, j, states, actions, i);
        FinalRowKept(states[i], actions[i], j, c);
      }
    }
  }

  // ---- two workers and a late write: they fail

  /** The first worker's late retry write reopens the candidate under the second worker's live claim. */
  lemma ReopenedUnderClaim(r: Regime, R: State -> bool) returns (t: State)
    requires Closed(r, R) && r.workers >= 2 && !r.timely
    ensures R(t) && Wf(t) && |t.workers| == 2 && |t.db.jobs| == |t.db.cands| == 1
    ensures t.workers[1].phase == Holds(AtLoadJob) && t.workers[1].job == t.workers[1].cand == 0
    ensures t.clock <= t.workers[1].lease && t.server == SERVER && t.db.jobs[0].status == JobQueued
    ensures t.workers[0].phase == AtTop && t.workers[0].job == 0
    ensures t.workers[0].pages == 0 && t.workers[0].processed == 1 && t.workers[0].lim == SERVER.limits
    ensures Claimable(t.db.cands[0], 0, t.clock)
  {
    t := TakenOver(r, R);
    var me := t.workers[0];
    RowFree(t, 0);
    t := Hop(r, R, t, 0, RetryWrite(0), me.(phase := AtTop, settled := me.settled + 1),
             Reschedule(t.db, 0, 1, Jittered(me, t.clock, 0)));
  }

  /** It then claims the candidate again, while the second worker's claim is still live. */
  lemma LateWriteBreaks(r: Regime, R: State -> bool) returns (t: State)
    requires Closed(r, R) && r.workers >= 2 && !r.timely
    ensures R(t) && BothLive(t, 0, 1, 0)
  {
    t := ReopenedUnderClaim(r, R);
    t := OpenClaim(r, R, t, 0);
    RowFree(t, 0);
    t := TakeClaim(r, R, t, 0, 0);
  }

  lemma UnguardedShares(r: Regime)
    requires !r.timely && r.workers >= 2
    ensures !Excludes(r, 0)
  {
    ReachedClosed(r);
    var t := LateWriteBreaks(r, (s: State) => Reached(r, s));
    var states, actions :| EndsIn(r, states, actions, t);
    assert BothLive(states[|states| - 1], 0, 1, 0);
  }

  /** A late retry write on a completed row. */
  lemma LateWrite(r: Regime, s: State)
    requires Wf(s) && |s.workers| == 2 && s.workers[1].phase == Returned && |s.db.cands| == 1 && !r.timely
    requires s.workers[0].phase == Holds(AtRetryWrite) && s.workers[0].cand == 0 && s.workers[0].attempts == 1
    requires FinalRow(s, 0, 0)
    ensures CanStep(r, s, By(0, RetryWrite(0))) && !Kept(s, Apply(s, By(0, RetryWrite(0))), 0)
  {
    RowFree(s, 0);
    assert Apply(s, By(0, RetryWrite(0))).db.cands[0].status == FailedRetryable;
  }

  lemma UnguardedReopens(r: Regime)
    requires !r.timely && r.workers >= 2
    ensures !FinalStays(r, 0)
  {
    ReachedClosed(r);
    var s := SecondCompletes(r, (s: State) => Reached(r, s));
    LateWrite(r, s);
    StepBreaks(r, s, By(0, RetryWrite(0)), 0);
  }

  lemma OneMoreStep(r: Regime, s: State, a: Action) returns (states: seq<State>, actions: seq<Action>)
    requires Reached(r, s) && CanStep(r, s, a)
    ensures RegimeRun(r, 0, states, actions) && actions != []
    ensures states[|actions| - 1] == s && actions[|actions| - 1] == a
  {
    states, actions :| EndsIn(r, states, actions, s);
    states, actions := states + [Apply(s, a)], actions + [a];
  }

  lemma StepBreaks(r: Regime, s: State, a: Action, c: nat)
    requires Reached(r, s) && CanStep(r, s, a) && FinalRow(s, c, 0) && !Kept(s, Apply(s, a), c)
    ensures !FinalStays(r, 0)
  {
    var states, actions := OneMoreStep(r, s, a);
    assert FinalRow(states[|actions| - 1], c, 0);
  }

  // ---- the characterisation

  /** Exclusion holds in all runs of a regime if and only if writes are timely or Run is called only once. */
  lemma ExclusionExact(r: Regime)
    ensures (forall j: nat :: Excludes(r, j)) <==> r.timely || r.workers <= 1
  {
    if r.timely || r.workers <= 1 {
      forall j: nat ensures Excludes(r, j) { GuardedExcludes(r, j); }
    } else {
      UnguardedShares(r);
    }
  }

  /** And so do final outcomes stay final. */
  lemma FinalityExact(r: Regime)
    ensures (forall j: nat :: FinalStays(r, j)) <==> r.timely || r.workers <= 1
  {
    if r.timely || r.workers <= 1 {
      forall j: nat ensures FinalStays(r, j) { GuardedFinal(r, j); }
    } else {
      UnguardedReopens(r);
    }
  }
}
