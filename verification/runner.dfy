/**
 * Worker.Run of internal/worker/worker.go as the loop it is, over the Store, one method per stretch of the
 * loop body that makes a single database statement or outside call. A ghost state of the protocol is
 * carried along, and every method is proved to take exactly one of its steps; between them any number
 * of other workers, handlers and imports may act. So whatever is proved of all runs of the protocol
 * holds of the real loop.
 */
module Runners {
  import opened Basics
  import opened Database
  import opened Protocol
  import opened Stores
  import Budget
  import Hosts
  import Lease
  import RateLimit
  import opened RateCallers
  import Turns

  // ---- reachable states

  /** s ends some run from a fresh database. */
  ghost predicate Reachable(s: State) {
    exists states, actions :: Run(states, actions) && Init(states[0]) && states[|states| - 1] == s
  }

  /** Some steps lead from s to t. */
  ghost predicate Leads(s: State, t: State) {
    exists states, actions :: Run(states, actions) && states[0] == s && states[|states| - 1] == t
  }

  predicate NotBy(actions: seq<Action>, w: nat) {
    forall i :: 0 <= i < |actions| ==> !(actions[i].By? && actions[i].w == w)
  }

  /** Some steps lead from s to t, none of them taken by worker w. */
  ghost predicate OthersLead(s: State, t: State, w: nat) {
    exists states, actions ::
      Run(states, actions) && NotBy(actions, w) && states[0] == s && states[|states| - 1] == t
  }

  lemma Stay(s: State, w: nat)
    requires Wf(s)
    ensures Leads(s, s) && OthersLead(s, s, w)
  {
    assert Run([s], []) && NotBy([], w) && [s][0] == s;
  }

  lemma RunOn(states: seq<State>, actions: seq<Action>, a: Action) returns (states': seq<State>)
    requires Run(states, actions) && Wf(states[|states| - 1]) && Enabled(states[|states| - 1], a)
    ensures states' == states + [Apply(states[|states| - 1], a)] && Run(states', actions + [a])
  {
    states' := states + [Apply(states[|states| - 1], a)];
    var actions' := actions + [a];
    forall i | 0 <= i < |actions'|
      ensures Wf(states'[i]) && Enabled(states'[i], actions'[i]) && states'[i + 1] == Apply(states'[i], actions'[i])
    {
      if i < |actions| {
        assert states'[i] == states[i] && actions'[i] == actions[i];
      }
    }
  }

  lemma LeadsOn(s: State, t: State, a: Action)
    requires Leads(s, t) && Wf(t) && Enabled(t, a)
    ensures Leads(s, Apply(t, a))
  {
    var states, actions :| Run(states, actions) && states[0] == s && states[|states| - 1] == t;
    var states' := RunOn(states, actions, a);
  }

  lemma OthersLeadOn(s: State, t: State, a: Action, w: nat)
    requires OthersLead(s, t, w) && Wf(t) && Enabled(t, a) && !(a.By? && a.w == w)
    ensures OthersLead(s, Apply(t, a), w)
  {
    var states, actions :|
      Run(states, actions) && NotBy(actions, w) && states[0] == s && states[|states| - 1] == t;
    var states' := RunOn(states, actions, a);
    assert NotBy(actions + [a], w);
  }

  lemma Joined(states: seq<State>, actions: seq<Action>, states': seq<State>, actions': seq<Action>)
    requires Run(states, actions) && Run(states', actions') && states[|states| - 1] == states'[0]
    ensures Run(states + states'[1..], actions + actions')
    ensures (states + states'[1..])[0] == states[0]
    ensures (states + states'[1..])[|states + states'[1..]| - 1] == states'[|states'| - 1]
  {
    var all, acts := states + states'[1..], actions + actions';
    assert |states'| == 1 ==> all == states;
    forall i | 0 <= i < |acts|
      ensures Wf(all[i]) && Enabled(all[i], acts[i]) && all[i + 1] == Apply(all[i], acts[i])
    {
      if i < |actions| {
        assert all[i] == states[i] && all[i + 1] == states[i + 1];
      } else {
        var k := i - |actions|;
        assert all[i] == states'[k] && all[i + 1] == states'[k + 1];
      }
    }
  }

  lemma LeadsTransitive(s: State, t: State, u: State)
    requires Leads(s, t) && Leads(t, u)
    ensures Leads(s, u)
  {
    var states, actions :| Run(states, actions) && states[0] == s && states[|states| - 1] == t;
    var states', actions' :| Run(states', actions') && states'[0] == t && states'[|states'| - 1] == u;
    Joined(states, actions, states', actions');
    var all := states + states'[1..];
    assert Run(all, actions + actions') && all[0] == s && all[|all| - 1] == u;
  }

  lemma NotByEither(a: seq<Action>, b: seq<Action>, w: nat)
    requires NotBy(a, w) && NotBy(b, w)
    ensures NotBy(a + b, w)
  {
  }

  lemma OthersLeadTransitive(s: State, t: State, u: State, w: nat)
    requires OthersLead(s, t, w) && OthersLead(t, u, w)
    ensures OthersLead(s, u, w)
  {
    var states, actions :|
      Run(states, actions) && NotBy(actions, w) && states[0] == s && states[|states| - 1] == t;
    var states', actions' :|
      Run(states', actions') && NotBy(actions', w) && states'[0] == t && states'[|states'| - 1] == u;
    Joined(states, actions, states', actions');
    var all := states + states'[1..];
    NotByEither(actions, actions', w);
    assert Run(all, actions + actions') && all[0] == s && all[|all| - 1] == u;
  }

  /** Whatever the others do, rows stay in place, counters do not fall, and time does not go back. */
  lemma OthersGrow(s: State, t: State, w: nat)
    requires OthersLead(s, t, w)
    ensures Grows(s.db, t.db) && s.clock <= t.clock
  {
    var states, actions :|
      Run(states, actions) && NotBy(actions, w) && states[0] == s && states[|states| - 1] == t;
    Turns.RunGrows(states, actions, 0, |states| - 1);
  }

  lemma ReachableStep(s: State, a: Action)
    requires Wf(s) && Reachable(s) && Enabled(s, a)
    ensures Wf(Apply(s, a)) && Reachable(Apply(s, a))
  {
    var states, actions :| Run(states, actions) && Init(states[0]) && states[|states| - 1] == s;
    var states' := RunOn(states, actions, a);
    assert Init(states'[0]);
    ApplyWf(s, a);
  }

  lemma LeadsReachable(s: State, t: State)
    requires Reachable(s) && Leads(s, t)
    ensures Reachable(t)
  {
    var states, actions :| Run(states, actions) && Init(states[0]) && states[|states| - 1] == s;
    var states', actions' :| Run(states', actions') && states'[0] == s && states'[|states'| - 1] == t;
    Joined(states, actions, states', actions');
    var all := states + states'[1..];
    assert Init(all[0]) && all[|all| - 1] == t;
  }

  predicate HoldsLock(s: State, v: nat, c: nat) {
    v < |s.workers| && s.workers[v].phase == AtCommit && s.workers[v].cand == c
  }

  /** Row locks are exclusive: SKIP LOCKED never hands out a row another claim transaction has locked. */
  lemma {:induction false} RowLocksExclusive(states: seq<State>, actions: seq<Action>, i: nat, v: nat, u: nat, c: nat)
    requires Run(states, actions) && Init(states[0]) && i < |states|
    requires HoldsLock(states[i], v, c) && HoldsLock(states[i], u, c)
    ensures v == u
  {
    if i == 0 {
    } else {
      var s, a := states[i - 1], actions[i - 1];
      if a.By? {
        Lease.ClaimsMove(s.server, s.clock, s.db, s.workers[a.w], a.op);
      }
      if HoldsLock(s, v, c) && HoldsLock(s, u, c) {
        RowLocksExclusive(states, actions, i - 1, v, u, c);
      }
    }
  }

  lemma OnlyLock(s: State, v: nat, c: nat)
    requires Reachable(s) && HoldsLock(s, v, c)
    ensures Unlocked(s, c, v)
  {
    var states, actions :| Run(states, actions) && Init(states[0]) && states[|states| - 1] == s;
    forall u | 0 <= u < |s.workers| && u != v
      ensures !(s.workers[u].phase == AtCommit && s.workers[u].cand == c)
    {
      if HoldsLock(s, u, c) {
        RowLocksExclusive(states, actions, |states| - 1, v, u, c);
      }
    }
  }

  /** locks are the rows that open claim transactions have locked. */
  ghost predicate LocksAre(s: State, locks: set<nat>) {
    && (forall c :: c in locks ==> exists v: nat :: HoldsLock(s, v, c))
    && (forall v: nat, c: nat :: HoldsLock(s, v, c) ==> c in locks)
  }

  function NextLocks(locks: set<nat>, me: Worker, next: Worker): set<nat> {
    if next.phase == AtCommit then locks + {next.cand}
    else if me.phase == AtCommit then locks - {me.cand}
    else locks
  }

  lemma LocksMove(s: State, w: nat, op: Op, locks: set<nat>)
    requires Wf(s) && Reachable(s) && Enabled(s, By(w, op)) && LocksAre(s, locks)
    ensures LocksAre(Apply(s, By(w, op)), NextLocks(locks, s.workers[w], Apply(s, By(w, op)).workers[w]))
  {
    var me, t := s.workers[w], Apply(s, By(w, op));
    var locks' := NextLocks(locks, me, t.workers[w]);
    Lease.ClaimsMove(s.server, s.clock, s.db, me, op);
    if me.phase == AtCommit {
      OnlyLock(s, w, me.cand);
    }
    forall c | c in locks'
      ensures exists v: nat :: HoldsLock(t, v, c)
    {
      if c in locks {
        var v: nat :| HoldsLock(s, v, c);
        assert v != w ==> HoldsLock(t, v, c);
      } else {
        assert HoldsLock(t, w, c);
      }
    }
    forall v: nat, c: nat | HoldsLock(t, v, c)
      ensures c in locks'
    {
      assert v != w ==> HoldsLock(s, v, c);
    }
  }

  lemma LockFree(s: State, w: nat, c: nat, locks: set<nat>)
    requires LocksAre(s, locks) && c !in locks
    ensures Unlocked(s, c, w)
  {
    forall v | 0 <= v < |s.workers| && v != w
      ensures !(s.workers[v].phase == AtCommit && s.workers[v].cand == c)
    {
      assert !HoldsLock(s, v, c);
    }
  }

  lemma NothingFree(s: State, w: nat, locks: set<nat>)
    requires LocksAre(s, locks) && w < |s.workers| && s.workers[w].phase == AtSelect
    requires forall k :: 0 <= k < |s.db.cands| && Claimable(s.db.cands[k], s.workers[w].job, s.workers[w].txNow) ==>
               k in locks
    ensures forall c :: 0 <= c < |s.db.cands| ==> !CanLock(s, w, c)
  {
    forall c | 0 <= c < |s.db.cands|
      ensures !CanLock(s, w, c)
    {
      if c in locks {
        var v: nat :| HoldsLock(s, v, c);
        assert !Unlocked(s, c, w);
      }
    }
  }

  lemma RowHeld(s: State, w: nat, c: nat, locks: set<nat>, free: bool)
    requires LocksAre(s, locks) && w < |s.workers| && s.workers[w].phase != AtCommit && (free <==> c !in locks)
    ensures !free ==> !Unlocked(s, c, w)
  {
    if !free {
      var v: nat :| HoldsLock(s, v, c);
      assert v != w;
    }
  }

  /** failed: the worker saw an error; effect: the transaction was committed nevertheless. */
  function PageOutcome(seen: nat, failed: bool, effect: bool): Op {
    if !failed then PageGate(true, seen) else if effect then PageGate(false, seen) else Fault(false)
  }

  /** And what losing it is. */
  lemma RetryFaultIs(server: Server, clock: nat, db: Db, me: Worker)
    requires WorkerOk(server, db, me) && me.phase == Holds(AtRetryWrite)
    ensures Ready(db, me, Fault(false)) && NextDb(server, clock, db, me, Fault(false)) == db
    ensures NextWorker(server, clock, db, me, Fault(false)) == me.(phase := AtTop, dropped := me.dropped + 1)
  {
  }

  lemma HolderRow(s: State, w: nat)
    requires Wf(s) && w < |s.workers| && s.workers[w].phase == Holds(AtRetryWrite)
    ensures s.workers[w].cand < |s.db.cands| && s.workers[w].attempts >= 1
  {
  }

  /** What the retry write is, spelled out. */
  lemma RetryWriteIs(s: State, w: nat, jitter: nat, locks: set<nat>)
    requires Wf(s) && w < |s.workers| && s.workers[w].phase == Holds(AtRetryWrite)
    requires LocksAre(s, locks) && s.workers[w].cand !in locks
    requires s.workers[w].attempts >= 1 ==> jitter <= RetryBase(s.workers[w].attempts)
    ensures var me := s.workers[w];
            && me.attempts >= 1 && me.cand < |s.db.cands|
            && Ready(s.db, me, RetryWrite(jitter)) && LocksAllow(s, w, RetryWrite(jitter))
            && NextDb(s.server, s.clock, s.db, me, RetryWrite(jitter))
               == Reschedule(s.db, me.cand, me.attempts, Jittered(me, s.clock, jitter))
            && NextWorker(s.server, s.clock, s.db, me, RetryWrite(jitter))
               == me.(phase := AtTop, settled := me.settled + 1)
  {
    LockFree(s, w, s.workers[w].cand, locks);
  }

  /** The budget chain and the account of claims, at any reachable state. */
  lemma InBudget(s: State, w: nat)
    requires Wf(s) && Reachable(s) && w < |s.workers|
    ensures Budget.Chain(s, s.workers[w].job) && Lease.Accounted(s.workers[w])
  {
    var states, actions :| Run(states, actions) && Init(states[0]) && states[|states| - 1] == s;
    Budget.BudgetChain(states, actions, |states| - 1, s.workers[w].job);
    Lease.OneDispositionPerTurn(states, actions, |states| - 1, w);
  }

  ghost predicate Stepped(s: State, w: nat, op: Op, t: State) {
    Wf(s) && Enabled(s, By(w, op)) && t == Apply(s, By(w, op))
  }

  /**
   * One call of Run: me are its locals, g the protocol state it has reached, and limiter its access to the rate
   * limits.
   */
  class Runner {
    const store: Store
    const server: Server
    const job: nat
    const limiter: RateCaller
    ghost const w: nat
    var me: Worker
    ghost var g: State
    ghost var from: State // where the run that has led to g is counted from

    /** The tables are those of g. */
    ghost predicate Tied()
      reads this, store
    {
      && Wf(g) && Reachable(from) && Leads(from, g)
      && g.server == server && g.clock == store.clock && g.db == store.Value()
      && w < |g.workers| && g.workers[w] == me && me.job == job
      && LocksAre(g, store.locks)
    }

    ghost predicate Valid()
      reads this, store, limiter`clock
    {
      Tied() && limiter.clock <= store.clock
    }

    constructor (store: Store, server: Server, job: nat, limiter: RateCaller, ghost before: State)
      requires Wf(before) && Reachable(before) && LocksAre(before, store.locks)
      requires before.server == server && before.clock == store.clock && before.db == store.Value()
      requires job < |store.jobs| && limiter.clock <= store.clock
      ensures Valid() && g == Apply(before, Spawn(job)) && me == Started(job, server.limits)
      ensures this.store == store && this.job == job && this.limiter == limiter
    {
      this.store, this.server, this.job, this.limiter, this.w := store, server, job, limiter, |before.workers|;
      me := Started(job, server.limits);
      g, from := Apply(before, Spawn(job)), Apply(before, Spawn(job));
      new;
      ReachableStep(before, Spawn(job));
      Stay(g, w);
      forall c | c in store.locks ensures exists v: nat :: HoldsLock(g, v, c) {
        var v: nat :| HoldsLock(before, v, c);
        assert HoldsLock(g, v, c);
      }
      forall v: nat, c: nat | HoldsLock(g, v, c) ensures c in store.locks {
        assert HoldsLock(before, v, c);
      }
    }

    /** Others run. What they do is outside this call; all that Run may rely on is that they do it by steps. */
    method Interfere()
      requires Valid()
      modifies store, this`g
      ensures Valid() && OthersLead(old(g), g, w)
    {
      Stay(g, w);
    }

    /** Where it does not matter that they did. */
    method Pause()
      requires Valid()
      modifies store, this`g
      ensures Valid()
    {
      Interfere();
    }

    /** Adopts the new locals, the database having taken its step from was. */
    method Move(next: Worker, ghost op: Op, ghost locks: set<nat>)
      requires Wf(g) && Reachable(from) && Leads(from, g) && g.server == server && g.clock == store.clock
      requires limiter.clock <= store.clock
      requires w < |g.workers| && g.workers[w] == me && me.job == job
      requires Ready(g.db, me, op) && LocksAllow(g, w, op)
      requires store.Value() == NextDb(server, g.clock, g.db, me, op)
      requires next == NextWorker(server, g.clock, g.db, me, op)
      requires LocksAre(g, locks) && store.locks == NextLocks(locks, me, next)
      modifies this`me, this`g
      ensures Valid() && me == next && Stepped(old(g), w, op, g)
    {
      LeadsReachable(from, g);
      LocksMove(g, w, op, locks);
      JobKept(server, g.clock, g.db, me, op);
      ApplyWf(g, By(w, op));
      LeadsOn(from, g, By(w, op));
      g := Apply(g, By(w, op));
      me := next;
    }

    // ---- lines 8-10: loop guard, context and job status

    /** The loop ends because a limit of this call is used up. */
    method LeaveLoop()
      requires Valid() && me.phase == AtTop
      requires !(me.pages < me.lim.maxPages && me.processed < me.lim.maxURLs)
      modifies this`me, this`g
      ensures Valid() && me.phase == AtCount && Stepped(old(g), w, CheckStatus, g)
    {
      Move(me.(phase := AtCount), CheckStatus, store.locks);
    }

    /** GetJobStatus; failed stands for a database error or a cancelled context. */
    method CheckJobStatus(failed: bool) returns (ghost op: Op)
      requires Valid() && me.phase == AtTop && me.pages < me.lim.maxPages && me.processed < me.lim.maxURLs
      modifies this`me, this`g
      ensures Valid() && Stepped(old(g), w, op, g) && op == if failed then Fault(false) else CheckStatus
      ensures old(me.job) < |old(store.jobs)|
      ensures var status := old(store.jobs)[old(me.job)].status;
              if failed || status == JobCancelled || status == JobCompleted || status == JobFailed then
                me.phase == Returned
              else if status == JobPaused then
                me == old(me)
              else
                me == old(me).(phase := AtBegin)
    {
      if failed {
        op := Fault(false);
        Move(me.(phase := Returned), op, store.locks);
        return;
      }
      op := CheckStatus;
      var next, status := me, store.jobs[me.job].status;
      if status == JobCancelled || status == JobCompleted || status == JobFailed {
        next := me.(phase := Returned);
      } else if status != JobPaused {
        next := me.(phase := AtBegin);
      }
      Move(next, op, store.locks);
    }

    // ---- line 11: ClaimCandidate

    method ClaimFailed(cancelled: bool)
      requires Valid() && (me.phase == AtBegin || me.phase == AtSelect || me.phase == AtCommit)
      modifies this`me, this`g, store`locks
      ensures Valid() && Stepped(old(g), w, Fault(cancelled), g)
      ensures me.phase == if cancelled then Returned else AtCount
    {
      ghost var locks := store.locks;
      if me.phase == AtCommit {
        store.Rollback(me.cand);
      }
      Move(me.(phase := if cancelled then Returned else AtCount), Fault(cancelled), locks);
    }

    method BeginClaim()
      requires Valid() && me.phase == AtBegin
      modifies this`me, this`g
      ensures Valid() && me.phase == AtSelect && Stepped(old(g), w, Begin, g)
    {
      Move(me.(phase := AtSelect, txNow := store.clock), Begin, store.locks);
    }

    method SelectCandidate() returns (r: Option<nat>)
      requires Valid() && me.phase == AtSelect
      modifies this`me, this`g, store`locks
      ensures Valid() && Stepped(old(g), w, if r.Some? then Lock(r.value) else NothingClaimable, g)
      ensures r.Some? ==> me.phase == AtCommit && me.cand == r.value && old(store.First(me.job, me.txNow, r.value))
      ensures r.None? ==> me.phase == AtCount
    {
      ghost var locks := store.locks;
      r := store.SelectForUpdate(me.job, me.txNow);
      if r.Some? {
        LockFree(g, w, r.value, locks);
        Move(me.(phase := AtCommit, cand := r.value), Lock(r.value), locks);
      } else {
        NothingFree(g, w, locks);
        Move(me.(phase := AtCount), NothingClaimable, locks);
      }
    }

    /** acked says that the worker learns of the commit; the transaction has no other failure left. */
    method CommitClaim(acked: bool)
      requires Valid() && me.phase == AtCommit
      modifies this`me, this`g, store`cands, store`locks
      ensures Valid() && Stepped(old(g), w, Commit(acked), g)
      ensures me.phase == if acked then Holds(AtURLGate) else AtCount
    {
      ghost var locks := store.locks;
      var row := store.cands[me.cand];
      assert HoldsLock(g, w, me.cand);
      store.CommitClaim(me.cand, me.txNow + server.lease);
      if acked {
        Move(me.(phase := Holds(AtURLGate), processed := me.processed + 1, raw := row.url, domain := row.domain,
                 depth := row.depth, lease := me.txNow + server.lease, claims := me.claims + 1), Commit(true), locks);
      } else {
        Move(me.(phase := AtCount), Commit(false), locks);
      }
    }

    /** The claim transaction; every statement of it may fail, and others may act between two of them. */
    method ClaimCandidate()
      requires Valid() && me.phase == AtBegin
      modifies this`me, this`g, store
      ensures Valid() && (me.phase == Holds(AtURLGate) || me.phase == AtCount || me.phase == Returned)
    {
      var failed: bool, cancelled: bool, acked: bool := *, *, *;
      if failed {
        ClaimFailed(cancelled);
        return;
      }
      BeginClaim();
      Pause();
      failed, cancelled := *, *;
      if failed {
        ClaimFailed(cancelled);
        return;
      }
      var r := SelectCandidate();
      if r.None? {
        return;
      }
      Pause();
      failed, cancelled := *, *;
      if failed {
        ClaimFailed(cancelled);
      } else {
        CommitClaim(acked);
      }
    }

    // ---- lines 12-18: budget, rate limit, job, domain, probe

    /** failed: the statement may or may not have taken effect, and the worker saw an error. */
    method ConsumeURLBudget(failed: bool, effect: bool) returns (ghost op: Op)
      requires Valid() && me.phase == Holds(AtURLGate)
      modifies this`me, this`g, store`jobs
      ensures Valid() && Stepped(old(g), w, op, g)
      ensures op == if !failed then URLGate(true) else if effect then URLGate(false) else Fault(false)
      ensures failed ==> me.phase == Returned
      ensures !failed ==> me.phase == if old(URLGranted(g.db, me.job)) then Holds(AtRate) else Holds(AtSettle)
    {
      op := if !failed then URLGate(true) else if effect then URLGate(false) else Fault(false);
      ghost var locks := store.locks;
      var allowed := false;
      if !failed || effect {
        allowed := store.ConsumeURLBudget(me.job);
      }
      var next := me.(phase := Holds(AtRate));
      if failed {
        next := me.(phase := Returned, dropped := me.dropped + 1);
      } else if !allowed {
        next := me.(phase := Holds(AtSettle), verdict := FailedFinal, after := ToCount);
      }
      Move(next, op, locks);
    }

    /** The limiter has come to its time, and others have run meanwhile. */
    method CatchUp()
      requires Tied()
      modifies store, this`g
      ensures Valid() && OthersLead(old(g), g, w)
    {
      ghost var start := g;
      Stay(start, w);
      if store.clock < limiter.clock {
        var elapsed := limiter.clock - store.clock;
        ApplyWf(g, Tick(elapsed));
        LeadsOn(from, g, Tick(elapsed));
        OthersLeadOn(start, g, Tick(elapsed), w);
        store.Sleep(elapsed);
        g := Apply(g, Tick(elapsed));
        assert forall v: nat, c: nat :: HoldsLock(g, v, c) == HoldsLock(start, v, c);
      }
      ghost var slept := g;
      Interfere();
      OthersLeadTransitive(start, slept, g, w);
    }

    method LeaveLimiter(granted: bool)
      requires Valid() && me.phase == Holds(AtRate)
      modifies this`me, this`g
      ensures Valid() && Stepped(old(g), w, if granted then RateGranted else Fault(true), g)
      ensures me.phase == if granted then Holds(AtLoadJob) else Returned
      ensures me.domain == old(me.domain)
    {
      if granted {
        Move(me.(phase := Holds(AtLoadJob)), RateGranted, store.locks);
      } else {
        Move(me.(phase := Returned, dropped := me.dropped + 1), Fault(true), store.locks);
      }
    }

    /** Some steps of the limiter's machine lead from where it was to where it is. */
    ghost predicate LimiterRan(was: RateLimit.Limiter)
      reads limiter`lim
    {
      RateLimit.Reaches(was, limiter.lim, limiter.skew, RateLimit.Anyone)
    }

    /** The limiter's loop, beside whatever the others do meanwhile. */
    method Limit(passes: nat, rounds: nat)
      returns (granted: bool, ghost before: RateLimit.Limiter, ghost t: RateLimit.Attempt)
      requires Valid() && limiter.Valid()
      modifies this`g, store, limiter, limiter.table
      ensures Valid() && limiter.Valid() && OthersLead(old(g), g, w) && LimiterRan(old(limiter.lim))
      ensures limiter.interval == 0 ==> granted && limiter.lim == old(limiter.lim)
      ensures limiter.interval > 0 && granted ==>
                && RateLimit.Reaches(old(limiter.lim), before, limiter.skew, RateLimit.Ungranted(limiter.u))
                && RateLimit.Granted(before, t, limiter.lim, limiter.u, me.domain, limiter.skew)
    {
      granted, before, t := limiter.AcquireDomainRateLimit(me.domain, store.clock, passes, rounds);
      CatchUp();
    }

    /**
     * Line 13: on to the next stage exactly with a grant to this call, its only one here, or at once if no interval
     * is set.
     */
    method AcquireDomainRateLimit(passes: nat, rounds: nat)
      returns (granted: bool, ghost mid: State, ghost before: RateLimit.Limiter, ghost t: RateLimit.Attempt)
      requires Valid() && limiter.Valid() && me.phase == Holds(AtRate)
      modifies this`me, this`g, store, limiter, limiter.table
      ensures Valid() && limiter.Valid() && OthersLead(old(g), mid, w)
      ensures Stepped(mid, w, if granted then RateGranted else Fault(true), g)
      ensures me.phase == if granted then Holds(AtLoadJob) else Returned
      ensures limiter.interval == 0 ==> granted && limiter.lim == old(limiter.lim)
      ensures limiter.interval > 0 && granted ==>
                && RateLimit.Reaches(old(limiter.lim), before, limiter.skew, RateLimit.Ungranted(limiter.u))
                && RateLimit.Granted(before, t, limiter.lim, limiter.u, old(me.domain), limiter.skew)
      ensures LimiterRan(old(limiter.lim))
    {
      granted, before, t := Limit(passes, rounds);
      mid := g;
      LeaveLimiter(granted);
    }

    /** The limits a job's config sets; a missing or unusable key leaves a limit as it was. */
    method ReadLimits(config: JobConfig) returns (lim: Limits)
      ensures lim == Effective(config, me.lim)
    {
      lim := me.lim;
      if config.maxPages.Some? && config.maxPages.value > 0 {
        lim := lim.(maxPages := config.maxPages.value);
      }
      if config.maxURLs.Some? && config.maxURLs.value > 0 {
        lim := lim.(maxURLs := config.maxURLs.value);
      }
      if config.maxDepth.Some? && config.maxDepth.value >= 0 {
        lim := lim.(maxDepth := config.maxDepth.value);
      }
      if config.maxCandidates.Some? && config.maxCandidates.value > 0 {
        lim := lim.(maxCandidates := config.maxCandidates.value);
      }
    }

    /** GetDiscoveryJob, and the limits its config sets. */
    method LoadJob(failed: bool)
      requires Valid() && me.phase == Holds(AtLoadJob)
      modifies this`me, this`g
      ensures Valid() && Stepped(old(g), w, if failed then Fault(false) else Op.LoadJob, g)
      ensures me.phase == if failed then Holds(AtRetryRead) else Holds(AtDomain)
    {
      if failed {
        Move(me.(phase := Holds(AtRetryRead), wait := None), Fault(false), store.locks);
      } else {
        var lim := ReadLimits(store.jobs[me.job].config);
        Move(me.(phase := Holds(AtDomain), lim := lim), Op.LoadJob, store.locks);
      }
    }

    /** failed: the worker saw an error; effect: the insert took place nevertheless. */
    method EnsureDomain(failed: bool, effect: bool) returns (ghost op: Op)
      requires Valid() && me.phase == Holds(AtDomain)
      modifies this`me, this`g, store`domains
      ensures Valid() && Stepped(old(g), w, op, g)
      ensures op == if !failed then FindOrAddDomain(true) else if effect then FindOrAddDomain(false) else Fault(false)
      ensures me.phase == if failed then Holds(AtRetryRead) else Holds(AtProbe)
    {
      op := if !failed then FindOrAddDomain(true) else if effect then FindOrAddDomain(false) else Fault(false);
      ghost var locks := store.locks;
      var d := 0;
      if !failed || effect {
        d := store.EnsureDomainRow(store.jobs[me.job].project, me.domain);
      }
      Move(if failed then me.(phase := Holds(AtRetryRead), wait := None) else me.(phase := Holds(AtProbe), dom := d),
           op, locks);
    }

    /** A job that has probing switched off completes the candidate here; active is the probe's answer. */
    method ProbeHost(failed: bool, active: bool)
      requires Valid() && me.phase == Holds(AtProbe)
      modifies this`me, this`g
      ensures Valid() && Stepped(old(g), w, if failed then Fault(false) else Probe(active), g)
      ensures me.phase == Holds(AtRetryRead) || me.phase == Holds(AtSettle) || me.phase == Holds(AtPageGate)
    {
      var next := me.(phase := Holds(AtPageGate));
      if failed {
        next := me.(phase := Holds(AtRetryRead), wait := None);
      } else if !store.jobs[me.job].config.activeProbe || !active {
        next := me.(phase := Holds(AtSettle), verdict := Completed, after := ToTop);
      }
      Move(next, if failed then Fault(false) else Probe(active), store.locks);
    }

    // ---- lines 19-20: page budget, fetch, page row

    /** The charge of both rows, seen being the domain's counter as the first statement found it. */
    method ChargePage(seen: nat, failed: bool, effect: bool)
      requires Valid() && me.phase == Holds(AtPageGate)
      requires me.dom < |store.domains| && seen <= store.domains[me.dom].crawlPages
      modifies this`me, this`g, store`jobs, store`domains
      ensures Valid() && Stepped(old(g), w, PageOutcome(seen, failed, effect), g)
      ensures me.phase == Holds(AtRetryRead) || me.phase == Holds(AtFetch) || me.phase == Holds(AtSettle)
    {
      ghost var op, locks := PageOutcome(seen, failed, effect), store.locks;
      var allowed := false;
      if !failed || effect {
        allowed := store.ConsumePageBudget(me.job, me.dom, seen);
      }
      var next := me.(phase := Holds(AtFetch));
      if failed {
        next := me.(phase := Holds(AtRetryRead), wait := None);
      } else if !allowed {
        next := me.(phase := Holds(AtSettle), verdict := FailedFinal, after := ToTop);
      }
      Move(next, op, locks);
    }

    /** The snapshot of the first statement, which may be outdated by the time it has the job's row. */
    method ReadDomainPages() returns (seen: nat)
      requires Valid() && me.phase == Holds(AtPageGate)
      modifies this`g, store
      ensures Valid() && OthersLead(old(g), g, w)
      ensures me.dom < |old(store.domains)| <= |store.domains| && seen == old(store.domains)[me.dom].crawlPages
      ensures seen <= store.domains[me.dom].crawlPages
    {
      assert WorkerOk(server, g.db, me);
      seen := store.domains[me.dom].crawlPages;
      Interfere();
      OthersGrow(old(g), g, w);
    }

    /** The first statement takes its snapshot and waits for the job's row; others may charge the domain then. */
    method ConsumePageBudget(failed: bool, effect: bool) returns (seen: nat, ghost mid: State)
      requires Valid() && me.phase == Holds(AtPageGate)
      modifies this`me, this`g, store
      ensures Valid() && OthersLead(old(g), mid, w) && Stepped(mid, w, PageOutcome(seen, failed, effect), g)
      ensures old(me.dom) < |old(store.domains)| && seen == old(store.domains[me.dom].crawlPages)
      ensures me.phase == Holds(AtRetryRead) || me.phase == Holds(AtFetch) || me.phase == Holds(AtSettle)
    {
      seen := ReadDomainPages();
      mid := g;
      ChargePage(seen, failed, effect);
    }

    /** result is what is left after Fetch and, where it was tried, Render. */
    method FetchPage(result: FetchResult, rendered: bool)
      requires Valid() && me.phase == Holds(AtFetch)
      modifies this`me, this`g
      ensures Valid() && Stepped(old(g), w, Fetch(result, rendered), g)
      ensures match result
              case Page(url, links) =>
                me.phase == Holds(AtSavePage) && me.pageURL == url && me.links == links && me.pages == old(me.pages) + 1
              case TryLater(delay) => me.phase == Holds(AtRetryRead) && me.wait == Some(delay)
              case Rejected => me.phase == Holds(AtSettle) && me.verdict == FailedFinal && me.after == ToTop
              case NetworkError => me.phase == Holds(AtRetryRead) && me.wait == None
    {
      var next := match result
        case Page(url, links) => me.(phase := Holds(AtSavePage), pages := me.pages + 1, pageURL := url, links := links,
                                     next := 0)
        case TryLater(delay) => me.(phase := Holds(AtRetryRead), wait := Some(delay))
        case Rejected => me.(phase := Holds(AtSettle), verdict := FailedFinal, after := ToTop)
        case NetworkError => me.(phase := Holds(AtRetryRead), wait := None);
      Move(next, Fetch(result, rendered), store.locks);
    }

    /** matched: the page meets the job's target; deep: routing and capabilities ask for its links. */
    method SavePage(failed: bool, effect: bool, matched: bool, deep: bool) returns (ghost op: Op)
      requires Valid() && me.phase == Holds(AtSavePage)
      modifies this`me, this`g, store`pages
      ensures Valid() && Stepped(old(g), w, op, g)
      ensures op == if failed && !effect then Fault(false) else Op.SavePage(matched, deep, !failed)
      ensures me.phase == if failed then Holds(AtRetryRead) else Holds(AtSettle)
      ensures !failed || effect ==> PageRow(old(me.dom), old(me.pageURL)) in store.pages
      ensures failed && !effect ==> store.pages == old(store.pages)
    {
      op := if failed && !effect then Fault(false) else Op.SavePage(matched, deep, !failed);
      ghost var locks := store.locks;
      if !failed || effect {
        store.UpsertPageRow(me.dom, me.pageURL);
      }
      var next := me.(phase := Holds(AtSettle), verdict := Completed, after := ToTop);
      if failed {
        next := me.(phase := Holds(AtRetryRead), wait := None);
      } else if matched && deep && store.jobs[me.job].config.linkDiscovery {
        next := me.(phase := Holds(AtSettle), verdict := Completed, after := ToLinks);
      }
      Move(next, op, locks);
    }

    // ---- dispositions

    /** A write to a row that a claim transaction has locked waits for it; rounds is how long the context lasts. */
    method AwaitRow(rounds: nat) returns (free: bool)
      requires Valid()
      modifies store, this`g
      ensures Valid() && OthersLead(old(g), g, w) && (free <==> me.cand !in store.locks)
    {
      Stay(g, w);
      var left := rounds;
      while me.cand in store.locks && left > 0
        invariant Valid() && OthersLead(old(g), g, w)
        decreases left
      {
        ghost var before := g;
        Interfere();
        OthersLeadTransitive(old(g), before, g, w);
        left := left - 1;
      }
      free := me.cand !in store.locks;
    }

    method SettleLost()
      requires Valid() && me.phase == Holds(AtSettle)
      modifies this`me, this`g
      ensures Valid() && Stepped(old(g), w, Fault(false), g) && me.phase == Resume(old(me.after))
    {
      var after := match me.after case ToTop => AtTop case ToCount => AtCount case ToLinks => AtLinks;
      Move(me.(phase := after, dropped := me.dropped + 1), Fault(false), store.locks);
    }

    method SettleNow()
      requires Valid() && me.phase == Holds(AtSettle) && me.cand !in store.locks
      modifies this`me, this`g, store`cands
      ensures Valid() && Stepped(old(g), w, Settle, g) && me.phase == Resume(old(me.after))
    {
      var after := match me.after case ToTop => AtTop case ToCount => AtCount case ToLinks => AtLinks;
      LockFree(g, w, me.cand, store.locks);
      ghost var locks := store.locks;
      store.SetCandidateStatus(me.cand, me.verdict);
      Move(me.(phase := after, settled := me.settled + 1), Settle, locks);
    }

    /** Waits for the row, and writes unless the statement fails or the context ends first. */
    method SetCandidateStatus(failed: bool, rounds: nat) returns (ghost mid: State, ghost op: Op)
      requires Valid() && me.phase == Holds(AtSettle)
      modifies this`me, this`g, store
      ensures Valid() && OthersLead(old(g), mid, w) && Stepped(mid, w, op, g)
      ensures op == Settle || (op == Fault(false) && (failed || !Unlocked(mid, old(me.cand), w)))
      ensures me.phase == Resume(old(me.after))
    {
      var free := AwaitRow(rounds);
      mid := g;
      if failed || !free {
        op := Fault(false);
        RowHeld(g, w, me.cand, store.locks, free);
        SettleLost();
      } else {
        op := Settle;
        SettleNow();
      }
    }

    method ReadAttempts(failed: bool)
      requires Valid() && me.phase == Holds(AtRetryRead)
      modifies this`me, this`g
      ensures Valid() && Stepped(old(g), w, if failed then Fault(false) else RetryRead, g)
      ensures me.phase == if failed then AtTop else Holds(AtRetryWrite)
    {
      if failed {
        Move(me.(phase := AtTop, dropped := me.dropped + 1), Fault(false), store.locks);
      } else {
        Move(me.(phase := Holds(AtRetryWrite), attempts := store.cands[me.cand].attempts), RetryRead, store.locks);
      }
    }

    method RetryLost()
      requires Valid() && me.phase == Holds(AtRetryWrite)
      modifies this`me, this`g
      ensures Valid() && Stepped(old(g), w, Fault(false), g) && me.phase == AtTop
    {
      RetryFaultIs(server, g.clock, g.db, me);
      Move(me.(phase := AtTop, dropped := me.dropped + 1), Fault(false), store.locks);
    }

    /** After the retry write: back to the top of the loop. */
    method Rescheduled(ghost jitter: nat, ghost next: nat)
      requires Wf(g) && Reachable(from) && Leads(from, g) && g.server == server && g.clock == store.clock
      requires limiter.clock <= store.clock
      requires w < |g.workers| && g.workers[w] == me && me.job == job && LocksAre(g, store.locks)
      requires me.phase == Holds(AtRetryWrite) && me.cand < |g.db.cands| && me.cand !in store.locks
      requires me.attempts >= 1 ==> jitter <= RetryBase(me.attempts)
      requires next == Jittered(me, g.clock, jitter)
      requires store.Value() == Reschedule(g.db, me.cand, me.attempts, next)
      modifies this`me, this`g
      ensures Valid() && Stepped(old(g), w, RetryWrite(jitter), g) && me.phase == AtTop
    {
      RetryWriteIs(g, w, jitter, store.locks);
      Move(me.(phase := AtTop, settled := me.settled + 1), RetryWrite(jitter), store.locks);
    }

    method RetryNow(random: nat) returns (ghost jitter: nat)
      requires Valid() && me.phase == Holds(AtRetryWrite) && me.wait.None? && me.cand !in store.locks
      requires me.cand < |store.cands| && me.attempts >= 1
      modifies this`me, this`g, store`cands, store`dead
      ensures Valid() && Stepped(old(g), w, RetryWrite(jitter), g) && me.phase == AtTop
    {
      jitter := store.WriteRetry(me.cand, me.attempts, random);
      Rescheduled(jitter, store.clock + jitter);
    }

    method RetryAfterNow()
      requires Valid() && me.phase == Holds(AtRetryWrite) && me.wait.Some? && me.cand !in store.locks
      requires me.cand < |store.cands| && me.attempts >= 1
      modifies this`me, this`g, store`cands, store`dead
      ensures Valid() && Stepped(old(g), w, RetryWrite(0), g) && me.phase == AtTop
    {
      store.WriteRetryAfter(me.cand, me.attempts, me.wait.value);
      Rescheduled(0, store.clock + ClampDelay(me.wait.value));
    }

    /** The write of ScheduleRetryAfter if a wait was computed, else of ScheduleRetry; it too waits for the row. */
    method WriteRetry(random: nat, failed: bool, rounds: nat) returns (ghost mid: State, ghost op: Op)
      requires Valid() && me.phase == Holds(AtRetryWrite)
      modifies this`me, this`g, store
      ensures Valid() && OthersLead(old(g), mid, w) && Stepped(mid, w, op, g) && me.phase == AtTop
      ensures op.RetryWrite? || (op == Fault(false) && (failed || !Unlocked(mid, old(me.cand), w)))
    {
      var free := AwaitRow(rounds);
      mid := g;
      HolderRow(g, w);
      if failed || !free {
        op := Fault(false);
        RowHeld(g, w, me.cand, store.locks, free);
        RetryLost();
      } else if me.wait.Some? {
        op := RetryWrite(0);
        RetryAfterNow();
      } else {
        ghost var jitter := RetryNow(random);
        op := RetryWrite(jitter);
      }
    }

    method ScheduleRetry(rounds: nat)
      requires Valid() && me.phase == Holds(AtRetryRead)
      modifies store, this`me, this`g
      ensures Valid() && me.phase == AtTop
    {
      var failed: bool, random: nat := *, *;
      ReadAttempts(failed);
      Pause();
      if failed {
        return;
      }
      failed := *;
      ghost var mid, op := WriteRetry(random, failed, rounds);
    }

    // ---- line 21: links

    /** One link: skipped, or inserted as a candidate one level deeper unless the job already has its URL. */
    method FollowLink(failed: bool)
      requires Valid() && me.phase == AtLinks && MoreLinks(me)
      modifies this`me, this`g, store`cands
      ensures Valid() && Stepped(old(g), w, if failed then Fault(false) else Op.FollowLink, g)
      ensures me == old(me).(next := old(me).next + 1)
    {
      if failed {
        Move(me.(next := me.next + 1), Fault(false), store.locks);
        return;
      }
      ghost var locks := store.locks;
      var link := me.links[me.next];
      if link.valid && Hosts.InScope(link.domain, me.domain, server.allowSubdomains, server.allowExternal) {
        var row := NewRow(me.job, link.url, link.norm, link.domain, me.raw, 50, me.depth + 1, store.clock);
        store.UpsertCandidateDepth(row);
      }
      Move(me.(next := me.next + 1), Op.FollowLink, locks);
    }

    method FollowOne()
      requires Valid() && me.phase == AtLinks && MoreLinks(me)
      modifies store, this`me, this`g
      ensures Valid() && me == old(me).(next := old(me).next + 1)
    {
      var failed: bool := *;
      FollowLink(failed);
      Pause();
    }

    method FollowLinks()
      requires Valid() && me.phase == AtLinks
      modifies store, this`me, this`g
      ensures Valid() && me.phase == AtTop
    {
      while me.next < |me.links| && me.next < me.lim.maxCandidates && me.depth < me.lim.maxDepth
        invariant Valid() && me.phase == AtLinks
        decreases |me.links| - me.next
      {
        FollowOne();
      }
      LeaveLinks();
    }

    method LeaveLinks()
      requires Valid() && me.phase == AtLinks && !MoreLinks(me)
      modifies this`me, this`g
      ensures Valid() && Stepped(old(g), w, Op.FollowLink, g) && me.phase == AtTop
    {
      Move(me.(phase := AtTop), Op.FollowLink, store.locks);
    }

    // ---- FinishJobIfEmpty

    method CountOpen(failed: bool)
      requires Valid() && me.phase == AtCount
      modifies this`me, this`g
      ensures Valid() && Stepped(old(g), w, if failed then Fault(false) else Count, g)
      ensures me.phase == if !failed && Sum(store.cands, OpenOf(me.job)) == 0 then AtClose else Returned
    {
      if failed {
        Move(me.(phase := Returned), Fault(false), store.locks);
        return;
      }
      var n := store.CountOpen(me.job);
      Move(me.(phase := if n == 0 then AtClose else Returned), Count, store.locks);
    }

    method SetCompleted(failed: bool)
      requires Valid() && me.phase == AtClose
      modifies this`me, this`g, store`jobs
      ensures Valid() && Stepped(old(g), w, if failed then Fault(false) else Close, g)
      ensures me.phase == Returned
    {
      if failed {
        Move(me.(phase := Returned), Fault(false), store.locks);
      } else {
        ghost var locks := store.locks;
        store.SetJobStatus(me.job, JobCompleted);
        Move(me.(phase := Returned), Close, locks);
      }
    }

    method FinishJobIfEmpty()
      requires Valid() && me.phase == AtCount
      modifies store, this`me, this`g
      ensures Valid() && me.phase == Returned
    {
      var failed: bool := *;
      CountOpen(failed);
      if me.phase == AtClose {
        Pause();
        failed := *;
        SetCompleted(failed);
      }
    }

    // ---- the loop body after a claim

    /** Lines 12-18. */
    method PassGates(passes: nat, rounds: nat)
      requires Valid() && limiter.Valid() && me.phase == Holds(AtURLGate)
      modifies store, limiter, limiter.table, this`me, this`g
      ensures Valid() && limiter.Valid() && LimiterRan(old(limiter.lim))
      ensures me.phase == Returned || me.phase == Holds(AtRetryRead) || me.phase == Holds(AtSettle)
              || me.phase == Holds(AtPageGate)
    {
      RateLimit.Here(limiter.lim, limiter.skew, RateLimit.Anyone);
      var failed: bool, effect: bool := *, *;
      ghost var op := ConsumeURLBudget(failed, effect);
      if me.phase == Holds(AtRate) {
        PassLimiter(passes, rounds);
        if me.phase == Holds(AtLoadJob) {
          Prepare();
        }
      }
    }

    method PassLimiter(passes: nat, rounds: nat)
      requires Valid() && limiter.Valid() && me.phase == Holds(AtRate)
      modifies store, limiter, limiter.table, this`me, this`g
      ensures Valid() && limiter.Valid() && LimiterRan(old(limiter.lim))
      ensures me.phase == Returned || me.phase == Holds(AtLoadJob)
    {
      Pause();
      var granted; ghost var mid, before, t;
      granted, mid, before, t := AcquireDomainRateLimit(passes, rounds);
      Pause();
    }

    /** Lines 14-18. */
    method Prepare()
      requires Valid() && me.phase == Holds(AtLoadJob)
      modifies store, this`me, this`g
      ensures Valid()
      ensures me.phase == Holds(AtRetryRead) || me.phase == Holds(AtSettle) || me.phase == Holds(AtPageGate)
    {
      var failed: bool := *;
      LoadJob(failed);
      if !failed {
        Pause();
        FindAndProbe();
      }
    }

    method FindAndProbe()
      requires Valid() && me.phase == Holds(AtDomain)
      modifies store, this`me, this`g
      ensures Valid()
      ensures me.phase == Holds(AtRetryRead) || me.phase == Holds(AtSettle) || me.phase == Holds(AtPageGate)
    {
      var failed: bool, effect: bool, active: bool := *, *, *;
      ghost var op := EnsureDomain(failed, effect);
      if failed {
        return;
      }
      Pause();
      failed := *;
      ProbeHost(failed, active);
    }

    /** Lines 19-20. */
    method CrawlPage()
      requires Valid() && me.phase == Holds(AtPageGate)
      modifies store, this`me, this`g
      ensures Valid() && (me.phase == Holds(AtRetryRead) || me.phase == Holds(AtSettle))
    {
      var failed: bool, effect: bool := *, *;
      var seen; ghost var mid;
      seen, mid := ConsumePageBudget(failed, effect);
      if me.phase != Holds(AtFetch) {
        return;
      }
      Pause();
      var result: FetchResult, rendered: bool := *, *;
      FetchPage(result, rendered);
      if me.phase != Holds(AtSavePage) {
        return;
      }
      Pause();
      var matched: bool, deep: bool := *, *;
      failed, effect := *, *;
      ghost var op := SavePage(failed, effect, matched, deep);
    }

    method Dispose(rounds: nat)
      requires Valid() && (me.phase == Holds(AtRetryRead) || me.phase == Holds(AtSettle))
      modifies store, this`me, this`g
      ensures Valid() && (me.phase == AtTop || me.phase == AtCount)
    {
      if me.phase == Holds(AtRetryRead) {
        ScheduleRetry(rounds);
        return;
      }
      var failed: bool := *;
      ghost var mid, op := SetCandidateStatus(failed, rounds);
      Pause();
      if me.phase == AtLinks {
        FollowLinks();
      }
    }

    method ProcessCandidate(passes: nat, rounds: nat)
      requires Valid() && limiter.Valid() && me.phase == Holds(AtURLGate)
      modifies store, limiter, limiter.table, this`me, this`g
      ensures Valid() && limiter.Valid() && LimiterRan(old(limiter.lim))
      ensures me.phase == Returned || me.phase == AtTop || me.phase == AtCount
    {
      PassGates(passes, rounds);
      Pause();
      if me.phase == Returned {
        return;
      }
      if me.phase == Holds(AtPageGate) {
        CrawlPage();
        Pause();
      }
      Dispose(rounds);
    }

    method Body(passes: nat, rounds: nat)
      requires Valid() && limiter.Valid() && me.phase == AtTop
      requires me.pages < me.lim.maxPages && me.processed < me.lim.maxURLs
      modifies store, limiter, limiter.table, this`me, this`g
      ensures Valid() && limiter.Valid() && LimiterRan(old(limiter.lim))
      ensures me.phase == Returned || me.phase == AtTop || me.phase == AtCount
    {
      RateLimit.Here(limiter.lim, limiter.skew, RateLimit.Anyone);
      var failed: bool := *;
      ghost var op := CheckJobStatus(failed);
      Pause();
      if me.phase == AtBegin {
        ClaimAndProcess(passes, rounds);
      }
    }

    method ClaimAndProcess(passes: nat, rounds: nat)
      requires Valid() && limiter.Valid() && me.phase == AtBegin
      modifies store, limiter, limiter.table, this`me, this`g
      ensures Valid() && limiter.Valid() && LimiterRan(old(limiter.lim))
      ensures me.phase == Returned || me.phase == AtTop || me.phase == AtCount
    {
      RateLimit.Here(limiter.lim, limiter.skew, RateLimit.Anyone);
      ClaimCandidate();
      Pause();
      if me.phase == Holds(AtURLGate) {
        ProcessCandidate(passes, rounds);
      }
    }

    /**
     * One pass of the loop body is a run of the protocol from where it starts to where it ends; it ends at the
     * top of the loop, at FinishJobIfEmpty, or with the call about to return.
     */
    method Turn(passes: nat, rounds: nat)
      requires Valid() && limiter.Valid() && me.phase == AtTop
      requires me.pages < me.lim.maxPages && me.processed < me.lim.maxURLs
      modifies store, limiter, limiter.table, this`me, this`g, this`from
      ensures Valid() && limiter.Valid() && LimiterRan(old(limiter.lim))
      ensures Leads(old(g), g) && from == old(from)
      ensures me.phase == Returned || me.phase == AtTop || me.phase == AtCount
    {
      ghost var outer, start := from, g;
      Stay(start, w);
      LeadsReachable(outer, start);
      from := start;
      Body(passes, rounds);
      LeadsTransitive(outer, start, g);
      from := outer;
    }

    method NextTurn(ghost was: RateLimit.Limiter, passes: nat, rounds: nat)
      requires Valid() && limiter.Valid() && me.phase == AtTop
      requires me.pages < me.lim.maxPages && me.processed < me.lim.maxURLs
      requires LimiterRan(was)
      modifies store, limiter, limiter.table, this`me, this`g, this`from
      ensures Valid() && limiter.Valid() && LimiterRan(was) && from == old(from)
      ensures me.phase == Returned || me.phase == AtTop || me.phase == AtCount
    {
      ghost var l := limiter.lim;
      Turn(passes, rounds);
      RateLimit.Through(was, l, limiter.lim, limiter.skew, RateLimit.Anyone);
      Pause();
    }

    method Loop(turns: nat, passes: nat, rounds: nat)
      requires Valid() && limiter.Valid() && me.phase == AtTop
      modifies store, limiter, limiter.table, this`me, this`g, this`from
      ensures Valid() && limiter.Valid() && LimiterRan(old(limiter.lim))
      ensures from == old(from) && me.phase == Returned
    {
      RateLimit.Here(limiter.lim, limiter.skew, RateLimit.Anyone);
      var left := turns;
      while me.pages < me.lim.maxPages && me.processed < me.lim.maxURLs && me.phase == AtTop && left > 0
        invariant Valid() && limiter.Valid() && LimiterRan(old(limiter.lim)) && from == old(from)
        invariant me.phase == Returned || me.phase == AtTop || me.phase == AtCount
        decreases left
      {
        NextTurn(old(limiter.lim), passes, rounds);
        left := left - 1;
      }
      Leave();
    }

    /** What is left to do after the loop: nothing if it was left by a return or because the context ended. */
    method Leave()
      requires Valid() && (me.phase == Returned || me.phase == AtTop || me.phase == AtCount)
      modifies store, this`me, this`g
      ensures Valid() && me.phase == Returned
    {
      if me.phase == AtTop {
        LeaveTop();
        Pause();
      }
      if me.phase == AtCount {
        FinishJobIfEmpty();
      }
    }

    method LeaveTop()
      requires Valid() && me.phase == AtTop
      modifies this`me, this`g
      ensures Valid() && (me.phase == Returned || me.phase == AtCount)
    {
      if me.pages < me.lim.maxPages && me.processed < me.lim.maxURLs {
        Move(me.(phase := Returned), Fault(true), store.locks);
      } else {
        LeaveLoop();
      }
    }

    /**
     * Run. turns and passes are how many times its loop and the limiter's go round before the context ends, and
     * rounds how long it lasts in a wait. However the other workers, the handlers and the outcomes interleave
     * with it, the execution from call to return is a run of the protocol, so the job stays within its
     * budgets and every claim of this call was settled or dropped, exactly once; and it is a run of the
     * limiter, so any two grants of a domain, whoever has them, stay apart.
     */
    method Run(turns: nat, passes: nat, rounds: nat)
      requires Valid() && limiter.Valid() && me.phase == AtTop
      modifies store, limiter, limiter.table, this`me, this`g, this`from
      ensures Valid() && limiter.Valid() && LimiterRan(old(limiter.lim))
      ensures Leads(old(g), g) && me.phase == Returned && job < |store.jobs|
      ensures g.hist[job].fetches <= store.jobs[job].processedPages <= store.jobs[job].processedURLs
              <= store.jobs[job].limits.maxURLs
      ensures store.jobs[job].processedPages <= store.jobs[job].limits.maxPages
      ensures me.claims == me.settled + me.dropped
      ensures limiter.skew <= limiter.interval ==>
                RateLimit.Spaced(limiter.lim, limiter.interval - limiter.skew)
    {
      Stay(g, w);
      LeadsReachable(from, g);
      from := g;
      Loop(turns, passes, rounds);
      LeadsReachable(from, g);
      InBudget(g, w);
      if limiter.skew <= limiter.interval {
        RateLimit.ReachableSpaced(limiter.lim, limiter.skew);
      }
    }
  }
}
