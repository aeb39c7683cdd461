/** What a job's capabilities keep its workers from: over whole runs, with all else going on beside them. */
module Switches {
  import opened Database
  import opened Protocol
  import Budget

  /** me is at none of the stages that need a capability its job lacks. */
  predicate Respects(db: Db, me: Worker)
    requires me.job < |db.jobs|
  {
    var config := db.jobs[me.job].config;
    && (!config.activeProbe ==>
          me.phase != Holds(AtPageGate) && me.phase != Holds(AtFetch) && me.phase != Holds(AtSavePage))
    && (!config.linkDiscovery ==> me.phase != AtLinks && !(me.phase == Holds(AtSettle) && me.after == ToLinks))
  }

  /** The operations that need active probing, and those that need link discovery. */
  predicate Crawls(op: Op) {
    op.PageGate? || op.Fetch? || op.SavePage?
  }

  lemma OpNeeds(db: Db, me: Worker, op: Op)
    requires me.job < |db.jobs| && Ready(db, me, op) && Respects(db, me)
    ensures Crawls(op) ==> db.jobs[me.job].config.activeProbe
    ensures op.FollowLink? ==> db.jobs[me.job].config.linkDiscovery
  {
  }

  lemma RespectsFault(server: Server, clock: nat, db: Db, me: Worker, op: Op)
    requires WorkerOk(server, db, me) && Ready(db, me, op) && Respects(db, me) && op.Fault?
    ensures NextWorker(server, clock, db, me, op).job == me.job
    ensures Respects(db, NextWorker(server, clock, db, me, op))
  {
  }

  lemma RespectsMove(server: Server, clock: nat, db: Db, me: Worker, op: Op)
    requires WorkerOk(server, db, me) && Ready(db, me, op) && Respects(db, me)
    ensures NextWorker(server, clock, db, me, op).job == me.job
    ensures Respects(db, NextWorker(server, clock, db, me, op))
  {
    if op.Fault? {
      RespectsFault(server, clock, db, me, op);
    }
  }

  /** Neither pages counted nor fetches begun. */
  predicate Uncrawled(s: State, j: nat)
    requires j < |s.db.jobs| == |s.hist|
  {
    s.db.jobs[j].processedPages == 0 && s.hist[j].fetches == 0
  }

  ghost predicate Inv(s: State, j: nat) {
    && Wf(s) && j < |s.db.jobs|
    && (forall w :: 0 <= w < |s.workers| && s.workers[w].job == j ==> Respects(s.db, s.workers[w]))
    && (!s.db.jobs[j].config.activeProbe ==> Uncrawled(s, j))
    && (!s.db.jobs[j].config.linkDiscovery ==>
          forall c :: 0 <= c < |s.db.cands| && s.db.cands[c].job == j ==> s.db.cands[c].depth == 0)
  }

  lemma WorkersStep(s: State, a: Action, j: nat, w: nat)
    requires Inv(s, j) && Enabled(s, a) && w < |Apply(s, a).workers| && Apply(s, a).workers[w].job == j
    ensures j < |Apply(s, a).db.jobs| && Respects(Apply(s, a).db, Apply(s, a).workers[w])
  {
    var t := Apply(s, a);
    ApplyGrows(s, a);
    assert SameJob(s.db.jobs[j], t.db.jobs[j]);
    if a.By? && a.w == w {
      JobKept(s.server, s.clock, s.db, s.workers[w], a.op);
      RespectsMove(s.server, s.clock, s.db, s.workers[w], a.op);
    }
  }

  lemma PagesStep(s: State, a: Action, j: nat)
    requires Inv(s, j) && Enabled(s, a) && !s.db.jobs[j].config.activeProbe
    ensures j < |Apply(s, a).db.jobs| == |Apply(s, a).hist| && Uncrawled(Apply(s, a), j)
  {
    ApplyWf(s, a);
    ApplyGrows(s, a);
    if a.By? {
      var me := s.workers[a.w];
      CountersMove(s.server, s.clock, s.db, me, a.op, j);
      if me.job == j {
        OpNeeds(s.db, me, a.op);
      }
    }
  }

  lemma RowsStep(s: State, a: Action, j: nat, c: nat)
    requires Inv(s, j) && Enabled(s, a) && !s.db.jobs[j].config.linkDiscovery
    requires c < |Apply(s, a).db.cands| && Apply(s, a).db.cands[c].job == j
    ensures Apply(s, a).db.cands[c].depth == 0
  {
    var t := Apply(s, a);
    ApplyGrows(s, a);
    if c < |s.db.cands| {
      assert SameRow(s.db.cands[c], t.db.cands[c]);
    } else if a.By? {
      var me := s.workers[a.w];
      RowsMove(s.server, s.clock, s.db, me, a.op);
      assert me.job == j;
      OpNeeds(s.db, me, a.op);
    }
  }

  lemma InvStep(s: State, a: Action, j: nat)
    requires Inv(s, j) && Enabled(s, a)
    ensures Inv(Apply(s, a), j)
  {
    var t := Apply(s, a);
    ApplyWf(s, a);
    ApplyGrows(s, a);
    assert SameJob(s.db.jobs[j], t.db.jobs[j]);
    forall w | 0 <= w < |t.workers| && t.workers[w].job == j ensures Respects(t.db, t.workers[w]) {
      WorkersStep(s, a, j, w);
    }
    if !s.db.jobs[j].config.activeProbe {
      PagesStep(s, a, j);
    }
    if !s.db.jobs[j].config.linkDiscovery {
      forall c | 0 <= c < |t.db.cands| && t.db.cands[c].job == j ensures t.db.cands[c].depth == 0 {
        RowsStep(s, a, j, c);
      }
    }
  }

  lemma InvCreated(s: State, a: Action, j: nat)
    requires Wf(s) && Enabled(s, a) && a.Create? && j == |s.db.jobs|
    ensures Inv(Apply(s, a), j)
  {
    ApplyWf(s, a);
  }

  lemma {:induction false} RunInv(states: seq<State>, actions: seq<Action>, i: nat, j: nat)
    requires Run(states, actions) && Init(states[0]) && i < |states| && j < |states[i].db.jobs|
    ensures Inv(states[i], j)
  {
    if i == 0 {
    } else {
      var s, a := states[i - 1], actions[i - 1];
      if j < |s.db.jobs| {
        RunInv(states, actions, i - 1, j);
        InvStep(s, a, j);
      } else {
        InvCreated(s, a, j);
      }
    }
  }

  /** A job with active probing off never counts a page or begins a fetch, whatever its candidates and workers. */
  lemma ProbingOff(states: seq<State>, actions: seq<Action>, i: nat, j: nat)
    requires Run(states, actions) && Init(states[0]) && i < |states| && j < |states[i].db.jobs|
    requires !states[i].db.jobs[j].config.activeProbe
    ensures |states[i].hist| == |states[i].db.jobs|
    ensures states[i].db.jobs[j].processedPages == 0 && states[i].hist[j].fetches == 0 && states[i].hist[j].renders == 0
  {
    RunInv(states, actions, i, j);
    Budget.BudgetChain(states, actions, i, j);
  }

  /** A job with link discovery off has only candidates from outside: none was found on a page. */
  lemma LinksOff(states: seq<State>, actions: seq<Action>, i: nat, j: nat, c: nat)
    requires Run(states, actions) && Init(states[0]) && i < |states| && j < |states[i].db.jobs|
    requires !states[i].db.jobs[j].config.linkDiscovery && c < |states[i].db.cands| && states[i].db.cands[c].job == j
    ensures states[i].db.cands[c].depth == 0
  {
    RunInv(states, actions, i, j);
  }
}
