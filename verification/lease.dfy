/**
 * What the claim lease guarantees. Disposition writes carry no lease check of their own, so these
 * results are about timely runs: a worker writes a candidate's outcome only while its lease lasts.
 */
module Lease {
  import opened Basics
  import opened Database
  import opened Protocol

  predicate Timely(s: State, a: Action) {
    a.By? && a.w < |s.workers| && (a.op.Settle? || a.op.RetryWrite?) ==> s.clock <= s.workers[a.w].lease
  }

  predicate TimelyRun(states: seq<State>, actions: seq<Action>) {
    && Run(states, actions)
    && forall i :: 0 <= i < |actions| ==> Timely(states[i], actions[i])
  }

  /** Worker w holds a claim whose lease has not expired. */
  predicate Live(s: State, w: nat)
    requires w < |s.workers|
  {
    s.workers[w].phase.Holds? && s.clock <= s.workers[w].lease
  }

  predicate Selecting(s: State, w: nat)
    requires w < |s.workers|
  {
    s.workers[w].phase == AtCommit
  }

  // ---- the invariant

  /** A live claim is the one recorded in its row; a row about to be claimed is still claimable. */
  predicate FitsRow(clock: nat, db: Db, me: Worker) {
    && (me.phase == AtSelect || me.phase == AtCommit ==> me.txNow <= clock)
    && (me.phase == AtCommit ==> me.cand < |db.cands| && Claimable(db.cands[me.cand], me.job, me.txNow))
    && (me.phase == Holds(AtSettle) ==> me.verdict == Completed || me.verdict == FailedFinal)
    && (me.phase.Holds? && clock <= me.lease ==>
          && me.cand < |db.cands|
          && db.cands[me.cand].status == Processing
          && db.cands[me.cand].leaseUntil == Some(me.lease)
          && (me.phase == Holds(AtRetryWrite) ==> me.attempts == db.cands[me.cand].attempts))
  }

  predicate Fits(s: State, w: nat)
    requires w < |s.workers|
  {
    FitsRow(s.clock, s.db, s.workers[w])
  }

  predicate Apart(s: State, v: nat, w: nat)
    requires v < |s.workers| && w < |s.workers|
  {
    v != w && s.workers[v].cand == s.workers[w].cand ==>
      !(Live(s, v) && Live(s, w)) && !(Selecting(s, v) && Selecting(s, w))
  }

  predicate RowFits(row: Candidate, reclaims: nat, dead: Option<nat>) {
    && row.attempts <= 3 + reclaims
    && (row.status == New ==> row.attempts == 0)
    && (row.status == FailedRetryable ==> 1 <= row.attempts <= 2)
    && (row.status == Processing ==> row.leaseUntil.Some?)
    && (row.status != New ==> row.attempts >= 1)
    && row.status != Queued
    && (dead.Some? ==> row.status == FailedFinal && dead.value == row.attempts >= 3)
  }

  function DeadOf(db: Db, c: nat): Option<nat> {
    if c in db.dead then Some(db.dead[c]) else None
  }

  predicate Inv(s: State) {
    && Wf(s)
    && (forall w :: 0 <= w < |s.workers| ==> Fits(s, w))
    && (forall v, w :: 0 <= v < |s.workers| && 0 <= w < |s.workers| ==> Apart(s, v, w))
    && (forall c :: 0 <= c < |s.db.cands| ==> RowFits(s.db.cands[c], s.reclaims[c], DeadOf(s.db, c)))
    && (forall c :: c in s.db.dead ==> c < |s.db.cands|)
  }

  // ---- its steps

  /** Claims and row locks are only taken by Lock and Commit. */
  lemma ClaimsMove(server: Server, clock: nat, db: Db, me: Worker, op: Op)
    requires WorkerOk(server, db, me) && Ready(db, me, op)
    ensures
      var me' := NextWorker(server, clock, db, me, op);
      && (me'.phase == AtCommit ==> op == Lock(me'.cand) && me.phase == AtSelect && me'.txNow == me.txNow)
      && (op.Commit? ==> me.phase == AtCommit && me'.cand == me.cand)
      && (me'.phase.Holds? && !op.Commit? ==> me.phase.Holds? && me'.cand == me.cand && me'.lease == me.lease)
  {
    if NextWorker(server, clock, db, me, op).phase.Holds? && !op.Commit? {
      HoldKept(server, clock, db, me, op);
    }
  }

  lemma HoldKeptFault(server: Server, clock: nat, db: Db, me: Worker, op: Op)
    requires WorkerOk(server, db, me) && Ready(db, me, op) && !op.Commit?
    requires NextWorker(server, clock, db, me, op).phase.Holds?
    requires op.Fault?
    ensures me.phase.Holds? && !WritesRow(op)
    ensures NextWorker(server, clock, db, me, op).cand == me.cand
    ensures NextWorker(server, clock, db, me, op).lease == me.lease
  {
  }

  /** A claim goes on, its row unwritten, until its disposition. */
  lemma HoldKept(server: Server, clock: nat, db: Db, me: Worker, op: Op)
    requires WorkerOk(server, db, me) && Ready(db, me, op) && !op.Commit?
    requires NextWorker(server, clock, db, me, op).phase.Holds?
    ensures me.phase.Holds? && !WritesRow(op)
    ensures NextWorker(server, clock, db, me, op).cand == me.cand
    ensures NextWorker(server, clock, db, me, op).lease == me.lease
  {
    if op.Fault? {
      HoldKeptFault(server, clock, db, me, op);
    }
  }

  lemma OnlyReadLeadsFault(server: Server, clock: nat, db: Db, me: Worker, op: Op)
    requires WorkerOk(server, db, me) && Ready(db, me, op) && !op.RetryRead?
    requires op.Fault?
    ensures NextWorker(server, clock, db, me, op).phase != Holds(AtRetryWrite)
  {
  }

  lemma OnlyReadLeads(server: Server, clock: nat, db: Db, me: Worker, op: Op)
    requires WorkerOk(server, db, me) && Ready(db, me, op) && !op.RetryRead?
    ensures NextWorker(server, clock, db, me, op).phase != Holds(AtRetryWrite)
  {
    if op.Fault? {
      OnlyReadLeadsFault(server, clock, db, me, op);
    }
  }

  lemma AttemptsRead(server: Server, clock: nat, db: Db, me: Worker, op: Op)
    requires WorkerOk(server, db, me) && Ready(db, me, op)
    requires NextWorker(server, clock, db, me, op).phase == Holds(AtRetryWrite)
    ensures me.cand < |db.cands| && NextWorker(server, clock, db, me, op).attempts == db.cands[me.cand].attempts
  {
    if !op.RetryRead? {
      OnlyReadLeads(server, clock, db, me, op);
    }
  }

  predicate Decides(op: Op) {
    op.URLGate? || op.Probe? || op.PageGate? || op.Fetch? || op.SavePage?
  }

  lemma SettlingBy(server: Server, clock: nat, db: Db, me: Worker, op: Op)
    requires WorkerOk(server, db, me) && Ready(db, me, op) && !Decides(op)
    ensures NextWorker(server, clock, db, me, op).phase != Holds(AtSettle)
  {
  }

  lemma VerdictMove(server: Server, clock: nat, db: Db, me: Worker, op: Op)
    requires WorkerOk(server, db, me) && Ready(db, me, op)
    requires NextWorker(server, clock, db, me, op).phase == Holds(AtSettle)
    ensures NextWorker(server, clock, db, me, op).verdict == Completed
            || NextWorker(server, clock, db, me, op).verdict == FailedFinal
  {
    if !Decides(op) {
      SettlingBy(server, clock, db, me, op);
    }
  }

  /** No operation of another worker writes a row under a live claim or a row lock. */
  lemma OthersRowKept(s: State, w: nat, op: Op, v: nat)
    requires Inv(s) && Enabled(s, By(w, op)) && Timely(s, By(w, op))
    requires v < |s.workers| && v != w && (Live(s, v) || Selecting(s, v))
    ensures s.workers[v].cand < |s.db.cands| <= |Apply(s, By(w, op)).db.cands|
    ensures Apply(s, By(w, op)).db.cands[s.workers[v].cand] == s.db.cands[s.workers[v].cand]
  {
    RowsMove(s.server, s.clock, s.db, s.workers[w], op);
    assert Fits(s, v) && Fits(s, w) && Apart(s, v, w);
  }

  lemma FitsCommit(server: Server, clock: nat, db: Db, me: Worker, op: Op)
    requires WorkerOk(server, db, me) && Ready(db, me, op) && FitsRow(clock, db, me) && op.Commit?
    ensures FitsRow(clock, NextDb(server, clock, db, me, op), NextWorker(server, clock, db, me, op))
  {
  }

  /** The mover's own claim after its step. */
  lemma FitsMove(server: Server, clock: nat, db: Db, me: Worker, op: Op)
    requires WorkerOk(server, db, me) && Ready(db, me, op) && FitsRow(clock, db, me)
    ensures FitsRow(clock, NextDb(server, clock, db, me, op), NextWorker(server, clock, db, me, op))
  {
    if op.Commit? {
      FitsCommit(server, clock, db, me, op);
    } else {
      var me' := NextWorker(server, clock, db, me, op);
      RowsMove(server, clock, db, me, op);
      ClaimsMove(server, clock, db, me, op);
      if me'.phase == Holds(AtSettle) {
        VerdictMove(server, clock, db, me, op);
      }
      if me'.phase == Holds(AtRetryWrite) {
        AttemptsRead(server, clock, db, me, op);
      }
      if me'.phase.Holds? {
        HoldKept(server, clock, db, me, op);
      }
    }
  }

  /** A row lock or a new claim taken by the mover is not one another worker has. */
  lemma MoverApart(s: State, w: nat, op: Op, v: nat)
    requires Inv(s) && Enabled(s, By(w, op)) && Timely(s, By(w, op))
    requires v < |s.workers| && v != w
    ensures Apart(Apply(s, By(w, op)), v, w) && Apart(Apply(s, By(w, op)), w, v)
  {
    ClaimsMove(s.server, s.clock, s.db, s.workers[w], op);
    assert Fits(s, v) && Fits(s, w) && Apart(s, v, w);
  }

  lemma MoverRows(s: State, w: nat, op: Op, c: nat)
    requires Inv(s) && Enabled(s, By(w, op)) && Timely(s, By(w, op))
    requires c < |Apply(s, By(w, op)).db.cands|
    ensures Wf(Apply(s, By(w, op)))
    ensures var t := Apply(s, By(w, op)); RowFits(t.db.cands[c], t.reclaims[c], DeadOf(t.db, c))
  {
    ApplyWf(s, By(w, op));
    var me := s.workers[w];
    assert Fits(s, w);
    RowsMove(s.server, s.clock, s.db, me, op);
    if c < |s.db.cands| {
      assert RowFits(s.db.cands[c], s.reclaims[c], DeadOf(s.db, c));
    }
  }

  lemma FitsStep(s: State, a: Action, v: nat)
    requires Inv(s) && Enabled(s, a) && Timely(s, a) && v < |Apply(s, a).workers|
    ensures Fits(Apply(s, a), v)
  {
    if v < |s.workers| {
      assert Fits(s, v);
    }
    if a.By? && v == a.w {
      FitsMove(s.server, s.clock, s.db, s.workers[v], a.op);
    } else if v < |s.workers| {
      if a.By? && (Live(s, v) || Selecting(s, v)) {
        OthersRowKept(s, a.w, a.op, v);
      }
    }
  }

  lemma ApartStep(s: State, a: Action, v: nat, w: nat)
    requires Inv(s) && Enabled(s, a) && Timely(s, a) && v < |Apply(s, a).workers| && w < |Apply(s, a).workers|
    ensures Apart(Apply(s, a), v, w)
  {
    if a.By? && v != w && v == a.w {
      MoverApart(s, v, a.op, w);
    } else if a.By? && v != w && w == a.w {
      MoverApart(s, w, a.op, v);
    } else if v < |s.workers| && w < |s.workers| {
      assert Apart(s, v, w);
    }
  }

  lemma RowStep(s: State, a: Action, c: nat)
    requires Inv(s) && Enabled(s, a) && Timely(s, a) && c < |Apply(s, a).db.cands|
    ensures Wf(Apply(s, a))
    ensures var t := Apply(s, a); RowFits(t.db.cands[c], t.reclaims[c], DeadOf(t.db, c))
  {
    ApplyWf(s, a);
    if a.By? {
      MoverRows(s, a.w, a.op, c);
    } else if c < |s.db.cands| {
      assert RowFits(s.db.cands[c], s.reclaims[c], DeadOf(s.db, c));
    }
  }

  lemma InvStep(s: State, a: Action)
    requires Inv(s) && Enabled(s, a) && Timely(s, a)
    ensures Inv(Apply(s, a))
  {
    ApplyWf(s, a);
    var t := Apply(s, a);
    forall v | 0 <= v < |t.workers| ensures Fits(t, v) { FitsStep(s, a, v); }
    forall v, w | 0 <= v < |t.workers| && 0 <= w < |t.workers| ensures Apart(t, v, w) { ApartStep(s, a, v, w); }
    forall c | 0 <= c < |t.db.cands|
      ensures RowFits(t.db.cands[c], t.reclaims[c], DeadOf(t.db, c))
    {
      RowStep(s, a, c);
    }
    ApplyGrows(s, a);
  }

  lemma {:induction false} RunInv(states: seq<State>, actions: seq<Action>, i: nat)
    requires TimelyRun(states, actions) && Init(states[0]) && i < |states|
    ensures Inv(states[i])
  {
    if i == 0 {
    } else {
      RunInv(states, actions, i - 1);
      InvStep(states[i - 1], actions[i - 1]);
    }
  }

  // ---- main results

  /**
   * Lease exclusion: in every state of every timely run, a live claim is the one its row records, and
   * no two workers hold live claims on one candidate.
   */
  lemma LeaseExclusion(states: seq<State>, actions: seq<Action>, i: nat, v: nat, w: nat)
    requires TimelyRun(states, actions) && Init(states[0]) && i < |states|
    requires v < |states[i].workers| && w < |states[i].workers| && Live(states[i], v) && Live(states[i], w)
    ensures
      var s := states[i];
      && s.workers[v].cand < |s.db.cands|
      && s.db.cands[s.workers[v].cand].status == Processing
      && s.db.cands[s.workers[v].cand].leaseUntil == Some(s.workers[v].lease)
      && (s.workers[v].cand == s.workers[w].cand ==> v == w)
  {
    RunInv(states, actions, i);
    assert Fits(states[i], v) && Apart(states[i], v, w);
  }

  predicate Claims(s: State, a: Action, c: nat) {
    a.By? && a.op.Commit? && a.w < |s.workers| && s.workers[a.w].cand == c
  }

  /** Only a claim changes a row that is not being processed. */
  lemma UnclaimedKept(s: State, a: Action, c: nat)
    requires Inv(s) && Enabled(s, a) && Timely(s, a)
    requires c < |s.db.cands| && s.db.cands[c].status != Processing && !Claims(s, a, c)
    ensures c < |Apply(s, a).db.cands| && Apply(s, a).db.cands[c] == s.db.cands[c]
  {
    if a.By? {
      assert Fits(s, a.w);
      RowsMove(s.server, s.clock, s.db, s.workers[a.w], a.op);
    }
  }

  lemma FinalKept(s: State, a: Action, c: nat)
    requires Inv(s) && Enabled(s, a) && Timely(s, a)
    requires c < |s.db.cands| && !Open(s.db.cands[c].status)
    ensures c < |Apply(s, a).db.cands| && Apply(s, a).db.cands[c] == s.db.cands[c]
  {
    if a.By? {
      assert Fits(s, a.w);
      RowsMove(s.server, s.clock, s.db, s.workers[a.w], a.op);
    }
  }

  /** Completed and failed_final are final: no later action of a timely run changes such a row. */
  lemma {:induction false} OutcomesAreFinal(states: seq<State>, actions: seq<Action>, i: nat, k: nat, c: nat)
    requires TimelyRun(states, actions) && Init(states[0]) && i <= k < |states|
    requires c < |states[i].db.cands| && !Open(states[i].db.cands[c].status)
    ensures c < |states[k].db.cands| && states[k].db.cands[c] == states[i].db.cands[c]
  {
    if i == k {
    } else {
      OutcomesAreFinal(states, actions, i, k - 1, c);
      RunInv(states, actions, k - 1);
      FinalKept(states[k - 1], actions[k - 1], c);
    }
  }

  /**
   * Attempts: a candidate waiting for a retry was attempted once or twice; no candidate was attempted
   * more often than three times plus its lease take-overs; and a dead letter exists only for a
   * failed_final candidate, with that candidate's own count, at least three.
   */
  lemma AttemptBound(states: seq<State>, actions: seq<Action>, i: nat, c: nat)
    requires TimelyRun(states, actions) && Init(states[0]) && i < |states|
    requires c < |states[i].db.cands| || c in states[i].db.dead
    ensures
      var s := states[i];
      && c < |s.db.cands| == |s.reclaims|
      && s.db.cands[c].attempts <= 3 + s.reclaims[c]
      && (s.db.cands[c].status == FailedRetryable ==> 1 <= s.db.cands[c].attempts <= 2)
      && (c in s.db.dead ==> s.db.cands[c].status == FailedFinal && s.db.dead[c] == s.db.cands[c].attempts >= 3)
  {
    RunInv(states, actions, i);
    assert RowFits(states[i].db.cands[c], states[i].reclaims[c], DeadOf(states[i].db, c));
  }

  /**
   * The retry write of a timely run. A third attempt becomes a dead letter. An earlier one is put off:
   * at random by at most one second after the first attempt and two after the second, so the 30 s cap is
   * never the bound in force; or, on a Retry-After, by between 1 and 30 s whatever value was asked for.
   */
  lemma RetryDelay(states: seq<State>, actions: seq<Action>, i: nat, w: nat, jitter: nat)
    requires TimelyRun(states, actions) && Init(states[0]) && i < |actions|
    requires actions[i] == By(w, RetryWrite(jitter))
    ensures w < |states[i].workers| && states[i].workers[w].cand < |states[i + 1].db.cands| == |states[i].db.cands|
    ensures
      var me, now := states[i].workers[w], states[i].clock;
      var row, row' := states[i].db.cands[me.cand], states[i + 1].db.cands[me.cand];
      && row'.attempts == row.attempts >= 1
      && row'.leaseUntil == None
      && (row'.status == FailedFinal <==> row.attempts >= 3)
      && (row'.status == FailedFinal <==> me.cand in states[i + 1].db.dead)
      && (row.attempts < 3 ==>
            && row'.status == FailedRetryable
            && (me.wait.None? ==> now <= row'.nextAttempt <= now + (if row.attempts == 1 then 1000 else 2000))
            && (me.wait.Some? ==> now + 1000 <= row'.nextAttempt <= now + 30000))
  {
    RunInv(states, actions, i);
    var s, me := states[i], states[i].workers[w];
    assert Fits(s, w) && RowFits(s.db.cands[me.cand], s.reclaims[me.cand], DeadOf(s.db, me.cand));
    assert Pow2(0) == 1 && Pow2(1) == 2;
  }

  lemma ClaimIsDue(s: State, a: Action, c: nat)
    requires Inv(s) && Enabled(s, a) && Claims(s, a, c)
    ensures c < |s.db.cands| && (s.db.cands[c].status == FailedRetryable ==> s.clock >= s.db.cands[c].nextAttempt)
  {
    assert Fits(s, a.w);
  }

  lemma {:induction false} WaitingKept(states: seq<State>, actions: seq<Action>, i: nat, k: nat, c: nat)
    requires TimelyRun(states, actions) && Init(states[0]) && i <= k < |states|
    requires c < |states[i].db.cands| && states[i].db.cands[c].status == FailedRetryable
    requires forall m :: i <= m < k ==> !Claims(states[m], actions[m], c)
    ensures c < |states[k].db.cands| && states[k].db.cands[c] == states[i].db.cands[c]
  {
    if i == k {
    } else {
      WaitingKept(states, actions, i, k - 1, c);
      RunInv(states, actions, k - 1);
      UnclaimedKept(states[k - 1], actions[k - 1], c);
    }
  }

  /** No claim precedes the time a retry was put off to. */
  lemma BackoffRespected(states: seq<State>, actions: seq<Action>, i: nat, k: nat, c: nat)
    requires TimelyRun(states, actions) && Init(states[0]) && i <= k < |actions|
    requires c < |states[i].db.cands| && states[i].db.cands[c].status == FailedRetryable
    requires forall m :: i <= m < k ==> !Claims(states[m], actions[m], c)
    ensures c < |states[k].db.cands| && states[k].db.cands[c] == states[i].db.cands[c]
    ensures Claims(states[k], actions[k], c) ==> states[k].clock >= states[i].db.cands[c].nextAttempt
  {
    RunInv(states, actions, k);
    WaitingKept(states, actions, i, k, c);
    if Claims(states[k], actions[k], c) {
      ClaimIsDue(states[k], actions[k], c);
    }
  }

  // ---- one disposition per loop turn, in every run

  /** Outcomes that make a worker leave its loop turn without writing a disposition. */
  predicate Drops(op: Op) {
    op.Fault? || op.Crash? || op == URLGate(false)
  }

  predicate Accounted(me: Worker) {
    me.claims == me.settled + me.dropped + (if me.phase.Holds? then 1 else 0)
  }

  lemma AccountedMoveFault(server: Server, clock: nat, db: Db, me: Worker, op: Op)
    requires WorkerOk(server, db, me) && Ready(db, me, op) && Accounted(me)
    requires op.Fault?
    ensures
      var me' := NextWorker(server, clock, db, me, op);
      && Accounted(me')
      && me.claims <= me'.claims <= me.claims + 1
      && (!Drops(op) ==> me'.dropped == me.dropped)
      && (me'.settled == me.settled + (if op.Settle? || op.RetryWrite? then 1 else 0))
  {
  }

  lemma AccountedMovePage(server: Server, clock: nat, db: Db, me: Worker, op: Op)
    requires WorkerOk(server, db, me) && Ready(db, me, op) && Accounted(me)
    requires PageOp(op) || HostOp(op)
    ensures
      var me' := NextWorker(server, clock, db, me, op);
      && Accounted(me')
      && me.claims <= me'.claims <= me.claims + 1
      && (!Drops(op) ==> me'.dropped == me.dropped)
      && (me'.settled == me.settled + (if op.Settle? || op.RetryWrite? then 1 else 0))
  {
    if op.Fault? {
      AccountedMoveFault(server, clock, db, me, op);
    }
  }

  /** Every exit of the loop body settles the claim or drops it, never both and never twice. */
  lemma AccountedMove(server: Server, clock: nat, db: Db, me: Worker, op: Op)
    requires WorkerOk(server, db, me) && Ready(db, me, op) && Accounted(me)
    ensures
      var me' := NextWorker(server, clock, db, me, op);
      && Accounted(me')
      && me.claims <= me'.claims <= me.claims + 1
      && (!Drops(op) ==> me'.dropped == me.dropped)
      && (me'.settled == me.settled + (if op.Settle? || op.RetryWrite? then 1 else 0))
  {
    if op.Fault? {
      AccountedMoveFault(server, clock, db, me, op);
    }
    if PageOp(op) || HostOp(op) {
      AccountedMovePage(server, clock, db, me, op);
    }
  }

  /** One action's effect on one worker's account. */
  lemma AccountedStep(s: State, a: Action, w: nat)
    requires Wf(s) && Enabled(s, a) && w < |s.workers| && Accounted(s.workers[w])
    ensures w < |Apply(s, a).workers| && Accounted(Apply(s, a).workers[w])
    ensures !(a.By? && a.w == w && Drops(a.op)) ==> Apply(s, a).workers[w].dropped == s.workers[w].dropped
  {
    if a.By? && a.w == w {
      AccountedMove(s.server, s.clock, s.db, s.workers[w], a.op);
    }
  }

  predicate NoDrops(actions: seq<Action>, w: nat, i: nat)
    requires i <= |actions|
  {
    forall m :: 0 <= m < i ==> !(actions[m].By? && actions[m].w == w && Drops(actions[m].op))
  }

  /**
   * In every run, each claim of a worker outside its loop body was settled or dropped, exactly once;
   * a worker that met no fault settled every one of them.
   */
  lemma {:induction false} OneDispositionPerTurn(states: seq<State>, actions: seq<Action>, i: nat, w: nat)
    requires Run(states, actions) && Init(states[0]) && i < |states| && w < |states[i].workers|
    ensures Accounted(states[i].workers[w])
    ensures NoDrops(actions, w, i) ==> states[i].workers[w].dropped == 0
  {
    if i == 0 {
    } else {
      var s, a := states[i - 1], actions[i - 1];
      if w < |s.workers| {
        OneDispositionPerTurn(states, actions, i - 1, w);
        AccountedStep(s, a, w);
      }
    }
  }
}
