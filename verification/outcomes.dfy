/**
 * What becomes of a claimed candidate, from the operation that decides it to the row that records it: the
 * claim itself, outcomes for good, and the time of a retry, in plain numbers and over whole runs.
 */
module Outcomes {
  import opened Basics
  import opened Database
  import opened Protocol
  import Turns

  /** b is worker w's next action after a. */
  predicate Next(actions: seq<Action>, w: nat, a: nat, b: nat) {
    a < b < |actions| && Turns.Quiet(actions, w, a + 1, b)
  }

  lemma NextStep(states: seq<State>, actions: seq<Action>, w: nat, a: nat, b: nat)
    requires Run(states, actions) && a < |actions| && Next(actions, w, a, b) && w < |states[a].workers|
    ensures Wf(states[a]) && Enabled(states[a], actions[a]) && states[a + 1] == Apply(states[a], actions[a])
    ensures Wf(states[b]) && Enabled(states[b], actions[b]) && states[b + 1] == Apply(states[b], actions[b])
    ensures w < |states[a + 1].workers| && w < |states[b].workers| && states[b].workers[w] == states[a + 1].workers[w]
    ensures Grows(states[a].db, states[b].db)
  {
    Turns.StepAt(states, actions, a);
    Turns.StepAt(states, actions, b);
    Turns.WorkerKept(states, actions, w, a + 1, b);
    Turns.RunGrows(states, actions, a, b);
  }

  // ---- the claim

  predicate DueAt(c: Candidate, now: nat) {
    || ((c.status == New || c.status == Queued || c.status == FailedRetryable) && c.nextAttempt <= now)
    || (c.status == Processing && c.leaseUntil.Some? && c.leaseUntil.value < now)
  }

  /** What a claim may take: a due row of the job, or one whose lease has run out. */
  lemma ClaimableExact(c: Candidate, job: nat, now: nat)
    ensures Claimable(c, job, now) <==> c.job == job && DueAt(c, now)
  {
  }

  lemma BeginIs(server: Server, clock: nat, db: Db, me: Worker)
    requires WorkerOk(server, db, me) && Ready(db, me, Begin)
    ensures NextWorker(server, clock, db, me, Begin) == me.(phase := AtSelect, txNow := clock)
  {
  }

  lemma LockIs(server: Server, clock: nat, db: Db, me: Worker, c: nat)
    requires WorkerOk(server, db, me) && Ready(db, me, Lock(c))
    ensures c < |db.cands| && db.cands[c].job == me.job && DueAt(db.cands[c], me.txNow)
    ensures NextWorker(server, clock, db, me, Lock(c)) == me.(phase := AtCommit, cand := c)
  {
  }

  lemma CommitIs(server: Server, clock: nat, db: Db, me: Worker, ack: bool)
    requires WorkerOk(server, db, me) && Ready(db, me, Commit(ack))
    ensures me.cand < |db.cands|
    ensures
      var db', me' := NextDb(server, clock, db, me, Commit(ack)), NextWorker(server, clock, db, me, Commit(ack));
      var row := db.cands[me.cand];
      && db' == db.(cands := db.cands[me.cand := row.(status := Processing, attempts := row.attempts + 1,
                                                      leaseUntil := Some(me.txNow + server.lease))])
      && (ack ==> me'.phase == Holds(AtURLGate) && me'.cand == me.cand && me'.lease == me.txNow + server.lease
                  && me'.raw == row.url && me'.domain == row.domain && me'.depth == row.depth)
      && (!ack ==> me'.phase == AtCount)
  {
  }

  /**
   * A claim: the row was due when the transaction began, is then being processed with one attempt more, and
   * is the worker's for exactly the server's lease from that beginning.
   */
  lemma ClaimTaken(states: seq<State>, actions: seq<Action>, b: nat, l: nat, k: nat, w: nat, c: nat, ack: bool)
    requires Run(states, actions) && b < |actions| && actions[b] == By(w, Begin) && w < |states[b].workers|
    requires Next(actions, w, b, l) && actions[l] == By(w, Lock(c))
    requires Next(actions, w, l, k) && actions[k] == By(w, Commit(ack))
    ensures c < |states[l].db.cands| && c < |states[k].db.cands| == |states[k + 1].db.cands|
    ensures w < |states[k + 1].workers|
    ensures
      var begun, lease := states[b].clock, states[b].clock + states[b].server.lease;
      var row, row', me' := states[k].db.cands[c], states[k + 1].db.cands[c], states[k + 1].workers[w];
      && states[l].db.cands[c].job == states[b].workers[w].job && DueAt(states[l].db.cands[c], begun)
      && row' == row.(status := Processing, attempts := row.attempts + 1, leaseUntil := Some(lease))
      && (ack ==> me'.phase == Holds(AtURLGate) && me'.cand == c && me'.lease == lease)
  {
    NextStep(states, actions, w, b, l);
    BeginIs(states[b].server, states[b].clock, states[b].db, states[b].workers[w]);
    NextStep(states, actions, w, l, k);
    LockIs(states[l].server, states[l].clock, states[l].db, states[l].workers[w], c);
    CommitIs(states[k].server, states[k].clock, states[k].db, states[k].workers[w], ack);
    Turns.RunGrows(states, actions, b, k);
  }

  // ---- outcomes for good

  predicate JobOver(job: Job) {
    job.status == JobCompleted || job.status == JobFailed || job.status == JobCancelled
  }

  /** The budgets refuse, or the fetch is rejected. */
  predicate FailsForGood(db: Db, me: Worker, op: Op)
    requires me.job < |db.jobs|
  {
    var job := db.jobs[me.job];
    || (op == URLGate(true) && (job.processedURLs >= job.limits.maxURLs || JobOver(job)))
    || (op.PageGate? && op.ack
        && (job.processedPages >= job.limits.maxPages || op.seen >= job.limits.maxPages || JobOver(job)))
    || (op.Fetch? && op.result == Rejected)
  }

  /** There is nothing to crawl, or the page is saved. */
  predicate IsDone(db: Db, me: Worker, op: Op)
    requires me.job < |db.jobs|
  {
    || (op.Probe? && (!op.active || !db.jobs[me.job].config.activeProbe))
    || (op.SavePage? && op.ack)
  }

  predicate FollowsLinks(db: Db, me: Worker, op: Op)
    requires me.job < |db.jobs|
  {
    op.SavePage? && op.matched && op.deep && db.jobs[me.job].config.linkDiscovery
  }

  /** The three gates that decide it, both ways: what is not refused or done goes on to the next stage. */
  lemma GatesDecide(server: Server, clock: nat, db: Db, me: Worker, op: Op)
    requires WorkerOk(server, db, me) && Ready(db, me, op)
    requires op == URLGate(true) || (op.PageGate? && op.ack) || op.Probe?
    ensures
      var me' := NextWorker(server, clock, db, me, op);
      if FailsForGood(db, me, op) || IsDone(db, me, op) then me'.phase == Holds(AtSettle)
      else me' == me.(phase := Holds(if op.URLGate? then AtRate else if op.Probe? then AtPageGate else AtFetch))
  {
  }

  lemma VerdictIs(server: Server, clock: nat, db: Db, me: Worker, op: Op)
    requires WorkerOk(server, db, me) && Ready(db, me, op)
    requires FailsForGood(db, me, op) || IsDone(db, me, op)
    ensures
      var me' := NextWorker(server, clock, db, me, op);
      && me.phase.Holds? && me'.phase == Holds(AtSettle) && me'.cand == me.cand
      && me'.verdict == (if FailsForGood(db, me, op) then FailedFinal else Completed)
      && me'.after == (if op.URLGate? then ToCount else if FollowsLinks(db, me, op) then ToLinks else ToTop)
  {
  }

  lemma SettleIs(server: Server, clock: nat, db: Db, me: Worker)
    requires WorkerOk(server, db, me) && Ready(db, me, Settle)
    ensures me.cand < |db.cands|
    ensures NextDb(server, clock, db, me, Settle)
            == db.(cands := db.cands[me.cand := db.cands[me.cand].(status := me.verdict, leaseUntil := None)])
    ensures NextWorker(server, clock, db, me, Settle).phase
            == match me.after case ToTop => AtTop case ToCount => AtCount case ToLinks => AtLinks
  {
  }

  /**
   * A refused budget and a rejected fetch end as failed_final, a probe without result and a saved page as
   * completed; a refused URL budget makes the worker try to finish the job, and only a saved page that
   * matches, is to be crawled deeply and belongs to a job with link discovery has its links followed.
   */
  lemma Decided(states: seq<State>, actions: seq<Action>, f: nat, k: nat, w: nat, op: Op)
    requires Run(states, actions) && f < |actions| && actions[f] == By(w, op) && w < |states[f].workers|
    requires states[f].workers[w].job < |states[f].db.jobs|
    requires var (db, me) := (states[f].db, states[f].workers[w]); FailsForGood(db, me, op) || IsDone(db, me, op)
    requires Next(actions, w, f, k) && actions[k] == By(w, Settle)
    ensures states[f].workers[w].cand < |states[k].db.cands| == |states[k + 1].db.cands|
    ensures w < |states[k + 1].workers|
    ensures
      var db, me := states[f].db, states[f].workers[w];
      var row' := states[k + 1].db.cands[me.cand];
      && row'.status == (if FailsForGood(db, me, op) then FailedFinal else Completed) && row'.leaseUntil == None
      && states[k + 1].workers[w].phase ==
         if op.URLGate? then AtCount else if FollowsLinks(db, me, op) then AtLinks else AtTop
  {
    NextStep(states, actions, w, f, k);
    VerdictIs(states[f].server, states[f].clock, states[f].db, states[f].workers[w], op);
    SettleIs(states[k].server, states[k].clock, states[k].db, states[k].workers[w]);
  }

  // ---- retries

  /** Everything that puts a candidate off without an advised time. */
  predicate PutsOff(me: Worker, op: Op) {
    || (op.Fault? && (me.phase == Holds(AtLoadJob) || me.phase == Holds(AtDomain) || me.phase == Holds(AtProbe)
                      || me.phase == Holds(AtPageGate) || me.phase == Holds(AtSavePage)))
    || op == FindOrAddDomain(false) || (op.PageGate? && !op.ack) || (op.SavePage? && !op.ack)
    || (op.Fetch? && op.result == NetworkError)
  }

  lemma PutOffIs(server: Server, clock: nat, db: Db, me: Worker, op: Op)
    requires WorkerOk(server, db, me) && Ready(db, me, op) && PutsOff(me, op)
    ensures
      var me' := NextWorker(server, clock, db, me, op);
      me.phase.Holds? && me'.phase == Holds(AtRetryRead) && me'.cand == me.cand && me'.wait == None
  {
  }

  lemma AdviceIs(server: Server, clock: nat, db: Db, me: Worker, delay: int, rendered: bool)
    requires WorkerOk(server, db, me) && Ready(db, me, Fetch(TryLater(delay), rendered))
    ensures
      var me' := NextWorker(server, clock, db, me, Fetch(TryLater(delay), rendered));
      me'.phase == Holds(AtRetryRead) && me'.cand == me.cand && me'.wait == Some(delay)
  {
  }

  lemma ReadIs(server: Server, clock: nat, db: Db, me: Worker)
    requires WorkerOk(server, db, me) && Ready(db, me, RetryRead)
    ensures me.cand < |db.cands| && db.cands[me.cand].attempts >= 1
    ensures NextWorker(server, clock, db, me, RetryRead)
            == me.(phase := Holds(AtRetryWrite), attempts := db.cands[me.cand].attempts)
  {
  }

  /** The row after a retry write at time now, n being the attempt count that was read. */
  predicate Rescheduled(row: Candidate, row': Candidate, n: nat, least: int, most: int) {
    if n >= 3 then row' == row.(status := FailedFinal, leaseUntil := None)
    else row' == row.(status := FailedRetryable, leaseUntil := None, nextAttempt := row'.nextAttempt)
         && least <= row'.nextAttempt <= most
  }

  /** The advised delay, held between one and thirty seconds. */
  function Advised(delay: int): nat {
    if delay < 1000 then 1000 else if delay > 30000 then 30000 else delay
  }

  lemma WriteIs(server: Server, clock: nat, db: Db, me: Worker, jitter: nat)
    requires WorkerOk(server, db, me) && Ready(db, me, RetryWrite(jitter))
    ensures me.cand < |db.cands| == |NextDb(server, clock, db, me, RetryWrite(jitter)).cands| && me.attempts >= 1
    ensures
      var db' := NextDb(server, clock, db, me, RetryWrite(jitter));
      && Rescheduled(db.cands[me.cand], db'.cands[me.cand], me.attempts,
                     if me.wait.Some? then clock + Advised(me.wait.value) else clock,
                     if me.wait.Some? then clock + Advised(me.wait.value)
                     else clock + (if me.attempts == 1 then 1000 else 2000))
      && (me.attempts >= 3 ==> me.cand in db'.dead && db'.dead[me.cand] == me.attempts)
      && (me.attempts < 3 ==> db'.dead == db.dead)
  {
    assert Pow2(0) == 1 && Pow2(1) == 2;
  }

  /** After one attempt every delay up to one second can be drawn, and none beyond; after two, up to two seconds. */
  lemma DelaysDrawn(db: Db, me: Worker, jitter: nat)
    requires me.phase == Holds(AtRetryWrite) && 1 <= me.attempts <= 2
    ensures Ready(db, me, RetryWrite(jitter)) <==> jitter <= if me.attempts == 1 then 1000 else 2000
  {
    assert Pow2(0) == 1 && Pow2(1) == 2;
  }

  /** Worker w reads the attempt count at r and writes the retry at k. */
  predicate Retries(actions: seq<Action>, w: nat, f: nat, r: nat, k: nat) {
    && Next(actions, w, f, r) && actions[r] == By(w, RetryRead)
    && Next(actions, w, r, k) && actions[k].By? && actions[k].w == w && actions[k].op.RetryWrite?
  }

  /** From the read of a retry to its write. */
  lemma RetryWritten(states: seq<State>, actions: seq<Action>, r: nat, k: nat, w: nat)
    requires Run(states, actions) && r < |actions| && actions[r] == By(w, RetryRead) && w < |states[r].workers|
    requires Next(actions, w, r, k) && actions[k].By? && actions[k].w == w && actions[k].op.RetryWrite?
    ensures states[r].workers[w].cand < |states[r].db.cands| <= |states[k].db.cands| == |states[k + 1].db.cands|
    ensures
      var me, now := states[r].workers[w], states[k].clock;
      var n := states[r].db.cands[me.cand].attempts;
      && n >= 1
      && Rescheduled(states[k].db.cands[me.cand], states[k + 1].db.cands[me.cand], n,
                     if me.wait.Some? then now + Advised(me.wait.value) else now,
                     if me.wait.Some? then now + Advised(me.wait.value) else now + (if n == 1 then 1000 else 2000))
      && (n >= 3 ==> me.cand in states[k + 1].db.dead && states[k + 1].db.dead[me.cand] == n)
  {
    NextStep(states, actions, w, r, k);
    ReadIs(states[r].server, states[r].clock, states[r].db, states[r].workers[w]);
    WriteIs(states[k].server, states[k].clock, states[k].db, states[k].workers[w], actions[k].op.jitter);
  }

  /**
   * A fetch that came back with an advised delay: the retry write of its worker sets the next attempt to the
   * time of that write plus the delay, held between 1 and 30 s, or dead-letters a third attempt.
   */
  lemma AdviceKept(states: seq<State>, actions: seq<Action>, f: nat, r: nat, k: nat, w: nat, delay: int, rendered: bool)
    requires Run(states, actions) && f < |actions| && actions[f] == By(w, Fetch(TryLater(delay), rendered))
    requires w < |states[f].workers| && Retries(actions, w, f, r, k)
    ensures states[f].workers[w].cand < |states[r].db.cands| <= |states[k].db.cands| == |states[k + 1].db.cands|
    ensures
      var c, now := states[f].workers[w].cand, states[k].clock;
      var next := if delay < 1000 then now + 1000 else if delay > 30000 then now + 30000 else now + delay;
      Rescheduled(states[k].db.cands[c], states[k + 1].db.cands[c], states[r].db.cands[c].attempts, next, next)
  {
    NextStep(states, actions, w, f, r);
    AdviceIs(states[f].server, states[f].clock, states[f].db, states[f].workers[w], delay, rendered);
    RetryWritten(states, actions, r, k, w);
  }

  /**
   * Any other failure that puts a candidate off: the next attempt is at most one second after the write if
   * it was the first, at most two if it was the second; a third is dead-lettered.
   */
  lemma PutOffAtRandom(states: seq<State>, actions: seq<Action>, f: nat, r: nat, k: nat, w: nat, op: Op)
    requires Run(states, actions) && f < |actions| && actions[f] == By(w, op) && w < |states[f].workers|
    requires PutsOff(states[f].workers[w], op) && Retries(actions, w, f, r, k)
    ensures states[f].workers[w].cand < |states[r].db.cands| <= |states[k].db.cands| == |states[k + 1].db.cands|
    ensures
      var c, now := states[f].workers[w].cand, states[k].clock;
      var n := states[r].db.cands[c].attempts;
      && Rescheduled(states[k].db.cands[c], states[k + 1].db.cands[c], n, now, now + if n == 1 then 1000 else 2000)
      && (n >= 3 ==> c in states[k + 1].db.dead && states[k + 1].db.dead[c] == n)
  {
    NextStep(states, actions, w, f, r);
    PutOffIs(states[f].server, states[f].clock, states[f].db, states[f].workers[w], op);
    RetryWritten(states, actions, r, k, w);
  }

  // ---- the counters of a call

  /** How many of the first n actions are fetches by worker w that gave a page. */
  function Fetched(actions: seq<Action>, w: nat, n: nat): nat
    requires n <= |actions|
  {
    if n == 0 then 0
    else
      var a := actions[n - 1];
      Fetched(actions, w, n - 1) + if a.By? && a.w == w && a.op.Fetch? && a.op.result.Page? then 1 else 0
  }

  /** And how many are claims of which w was told. */
  function Told(actions: seq<Action>, w: nat, n: nat): nat
    requires n <= |actions|
  {
    if n == 0 then 0 else Told(actions, w, n - 1) + if actions[n - 1] == By(w, Commit(true)) then 1 else 0
  }

  lemma CountersMovedFault(server: Server, clock: nat, db: Db, me: Worker, op: Op)
    requires WorkerOk(server, db, me) && Ready(db, me, op)
    requires op.Fault?
    ensures
      var me' := NextWorker(server, clock, db, me, op);
      && me'.pages == me.pages + (if op.Fetch? && op.result.Page? then 1 else 0)
      && me'.processed == me.processed + (if op == Commit(true) then 1 else 0)
      && me'.claims == me.claims + (if op == Commit(true) then 1 else 0)
  {
  }

  lemma CountersMoved(server: Server, clock: nat, db: Db, me: Worker, op: Op)
    requires WorkerOk(server, db, me) && Ready(db, me, op)
    ensures
      var me' := NextWorker(server, clock, db, me, op);
      && me'.pages == me.pages + (if op.Fetch? && op.result.Page? then 1 else 0)
      && me'.processed == me.processed + (if op == Commit(true) then 1 else 0)
      && me'.claims == me.claims + (if op == Commit(true) then 1 else 0)
  {
    if op.Fault? {
      CountersMovedFault(server, clock, db, me, op);
    }
  }

  /** The two counters behind the loop's guard: the pages fetched by this call, and its claims. */
  lemma {:induction false} CallCounts(states: seq<State>, actions: seq<Action>, i: nat, w: nat)
    requires Run(states, actions) && Init(states[0]) && i < |states|
    ensures if w < |states[i].workers| then
              && states[i].workers[w].pages == Fetched(actions, w, i)
              && states[i].workers[w].processed == states[i].workers[w].claims == Told(actions, w, i)
            else
              Fetched(actions, w, i) == Told(actions, w, i) == 0
  {
    if i == 0 {
    } else {
      CallCounts(states, actions, i - 1, w);
      var s, a := states[i - 1], actions[i - 1];
      if a.By? && a.w == w {
        CountersMoved(s.server, s.clock, s.db, s.workers[w], a.op);
      }
    }
  }

  // ---- the end of a job

  /** The two statements of FinishJobIfEmpty: go on only if every candidate is done, and close a job not over. */
  lemma FinishDecides(server: Server, clock: nat, db: Db, me: Worker)
    requires WorkerOk(server, db, me)
    ensures me.phase == AtCount ==>
              (NextWorker(server, clock, db, me, Count).phase == AtClose <==>
               forall c :: 0 <= c < |db.cands| && db.cands[c].job == me.job ==>
                 db.cands[c].status == Completed || db.cands[c].status == FailedFinal)
    ensures me.phase == AtClose ==>
              NextDb(server, clock, db, me, Close)
              == if JobOver(db.jobs[me.job]) then db
                 else db.(jobs := db.jobs[me.job := db.jobs[me.job].(status := JobCompleted)])
  {
    if me.phase == AtCount {
      NoneOpen(db.cands, me.job);
    }
  }

  lemma {:induction false} NoneOpen(cands: seq<Candidate>, job: nat)
    ensures Sum(cands, OpenOf(job)) == 0 <==>
            forall c :: 0 <= c < |cands| && cands[c].job == job ==>
              cands[c].status == Completed || cands[c].status == FailedFinal
  {
    if cands == [] {
    } else {
      var n := |cands| - 1;
      NoneOpen(cands[..n], job);
      assert forall c :: 0 <= c < n ==> cands[..n][c] == cands[c];
    }
  }

  /** Pause, resume and cancel: the status is written, unless the job is over, and nothing else. */
  lemma StatusWritten(s: State, j: nat, status: JobStatus)
    requires Wf(s) && Enabled(s, SetStatus(j, status))
    ensures
      Apply(s, SetStatus(j, status))
      == if JobOver(s.db.jobs[j]) then s else s.(db := s.db.(jobs := s.db.jobs[j := s.db.jobs[j].(status := status)]))
  {
  }
}
