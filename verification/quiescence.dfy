/**
 * The load test as a theorem: a job with N candidates, any number of workers, any interleaving, nothing
 * of the job failing and no lease of it running out, beside any other jobs of other projects, which may do
 * anything. Once all its workers have returned, everything is done, exactly once, and the job is completed,
 * although FinishJobIfEmpty counts and sets in two steps and claims skip locked rows.
 */
module Quiescence {
  import opened Basics
  import opened Database
  import opened Protocol

  /** No other job has the project of job j, and so none charges its domains. */
  predicate OwnProject(db: Db, j: nat)
    requires j < |db.jobs|
  {
    forall k :: 0 <= k < |db.jobs| && k != j ==> db.jobs[k].project != db.jobs[j].project
  }

  predicate Fitting(s: State, j: nat, n: nat)
    requires j < |s.db.jobs|
  {
    var job := s.db.jobs[j];
    && n <= job.limits.maxPages && n <= job.limits.maxURLs
    && n <= s.server.limits.maxPages && n <= s.server.limits.maxURLs
    && n <= LimitsOf(s.server, job).maxPages && n <= LimitsOf(s.server, job).maxURLs
    && job.config.activeProbe && !job.config.linkDiscovery
  }

  /** Job j with fresh counters and domains, every candidate new and due; its N candidates fit every limit. */
  predicate Loaded(s: State, j: nat) {
    && Wf(s)
    && j < |s.db.jobs|
    && OwnProject(s.db, j) && Fitting(s, j, Sum(s.db.cands, OfJob(j)))
    && (s.db.jobs[j].status == JobQueued || s.db.jobs[j].status == JobRunning)
    && s.db.jobs[j].processedPages == 0 && s.db.jobs[j].processedURLs == 0
    && s.hist[j].fetches == 0
    && (forall d :: 0 <= d < |s.db.domains| && s.db.domains[d].project == s.db.jobs[j].project ==>
          s.db.domains[d].crawlPages == 0)
    && (forall c :: 0 <= c < |s.db.cands| && s.db.cands[c].job == j ==>
          s.db.cands[c].status == New && s.db.cands[c].attempts == 0 && s.db.cands[c].nextAttempt <= s.clock)
    && Manned(s, j)
    && (forall w :: 0 <= w < |s.workers| && s.workers[w].job == j ==> s.workers[w] == Started(j, s.server.limits))
  }

  /** Probes find their host active, fetches succeed, nothing fails or crashes. */
  predicate CalmOp(op: Op) {
    match op
    case Commit(ack) => ack
    case URLGate(ack) => ack
    case FindOrAddDomain(ack) => ack
    case PageGate(ack, _) => ack
    case SavePage(_, _, ack) => ack
    case Probe(active) => active
    case Fetch(result, _) => result.Page?
    case Fault(_) => false
    case Crash => false
    case _ => true
  }

  /** Job j is paused and resumed and its workers are calm; of other jobs only the project is restricted. */
  predicate Calm(s: State, j: nat, a: Action)
    requires j < |s.db.jobs|
  {
    match a
    case Tick(_) => true
    case Create(project, _) => project != s.db.jobs[j].project
    case Import(job, _, _, _, _) => job != j
    case Spawn(job) => job != j
    case SetStatus(job, status) => job == j ==> status == JobRunning || status == JobPaused
    case By(w, op) => w < |s.workers| && s.workers[w].job == j ==> CalmOp(op)
  }

  predicate NoExpiry(s: State, j: nat) {
    forall c :: 0 <= c < |s.db.cands| && s.db.cands[c].job == j && s.db.cands[c].status == Processing &&
                s.db.cands[c].leaseUntil.Some? ==>
      s.clock <= s.db.cands[c].leaseUntil.value
  }

  predicate CalmRun(states: seq<State>, actions: seq<Action>, j: nat) {
    && Run(states, actions) && Loaded(states[0], j)
    && (forall i :: 0 <= i < |actions| ==> j < |states[i].db.jobs| && Calm(states[i], j, actions[i]))
    && (forall i :: 0 <= i < |states| ==> NoExpiry(states[i], j))
  }

  // ---- the invariant

  /** How far a claim has come; zero outside the stages a calm run visits. */
  function Rank(p: Phase): nat {
    if !p.Holds? then 0
    else match p.stage
      case AtURLGate => 1
      case AtRate => 2
      case AtLoadJob => 2
      case AtDomain => 2
      case AtProbe => 2
      case AtPageGate => 2
      case AtFetch => 3
      case AtSavePage => 4
      case AtSettle => 5
      case _ => 0
  }

  /** Counts the job's claims at ranks 1 to k. */
  function UpTo(j: nat, k: nat): Worker -> nat {
    (me: Worker) => if me.job == j && 1 <= Rank(me.phase) <= k then 1 else 0
  }

  function Turns(j: nat): Worker -> nat {
    (me: Worker) => if me.job == j then me.processed else 0
  }

  function Taken(j: nat): Candidate -> nat {
    (c: Candidate) => if c.job == j && c.status != New then 1 else 0
  }

  function InWork(j: nat): Candidate -> nat {
    (c: Candidate) => if c.job == j && c.status == Processing then 1 else 0
  }

  predicate RowCalm(c: Candidate, start: nat) {
    && (c.status == New || c.status == Processing || c.status == Completed)
    && c.attempts == (if c.status == New then 0 else 1)
    && (c.status == New ==> c.nextAttempt <= start)
    && (c.status == Processing ==> c.leaseUntil.Some?)
  }

  predicate LocalsCalm(me: Worker, start: nat) {
    && me.phase != Crashed && me.phase != AtLinks
    && (me.phase.Holds? ==> Rank(me.phase) >= 1)
    && (me.phase == Holds(AtSettle) ==> me.verdict == Completed && me.after == ToTop)
    && me.pages + (if 1 <= Rank(me.phase) <= 3 then 1 else 0) <= me.processed
    && (me.phase == AtSelect || me.phase == AtCommit ==> start <= me.txNow)
  }

  predicate WorkerCalm(db: Db, me: Worker, start: nat) {
    && LocalsCalm(me, start)
    && (me.phase == AtCommit ==> me.cand < |db.cands| && db.cands[me.cand].status == New)
    && (me.phase.Holds? ==>
          && me.cand < |db.cands|
          && db.cands[me.cand].status == Processing
          && db.cands[me.cand].leaseUntil == Some(me.lease))
  }

  predicate Distinct(a: Worker, b: Worker) {
    a.cand == b.cand ==> !(a.phase.Holds? && b.phase.Holds?) && !(a.phase == AtCommit && b.phase == AtCommit)
  }

  predicate Tallied(s: State, j: nat)
    requires j < |s.db.jobs| && j < |s.hist|
  {
    var job, taken := s.db.jobs[j], Sum(s.db.cands, Taken(j));
    && job.processedURLs + Sum(s.workers, UpTo(j, 1)) == taken
    && job.processedPages + Sum(s.workers, UpTo(j, 2)) == taken
    && s.hist[j].fetches + Sum(s.workers, UpTo(j, 3)) == taken
    && Sum(s.workers, Turns(j)) == taken
    && Sum(s.workers, UpTo(j, 5)) == Sum(s.db.cands, InWork(j))
  }

  predicate LockedRow(s: State, c: nat) {
    exists v :: 0 <= v < |s.workers| && s.workers[v].phase == AtCommit && s.workers[v].cand == c
  }

  /** The worker will claim nothing more. */
  predicate Leaving(me: Worker) {
    me.phase == AtCount || me.phase == AtClose || me.phase == Returned
  }

  predicate NewRowsLocked(s: State, j: nat) {
    forall c :: 0 <= c < |s.db.cands| && s.db.cands[c].job == j && s.db.cands[c].status == New ==> LockedRow(s, c)
  }

  predicate AllDone(s: State, j: nat) {
    forall c :: 0 <= c < |s.db.cands| && s.db.cands[c].job == j ==> s.db.cands[c].status == Completed
  }

  predicate SomeoneActive(s: State, j: nat) {
    exists w :: 0 <= w < |s.workers| && s.workers[w].job == j && s.workers[w].phase != Returned
  }

  predicate DomainsCalm(db: Db, j: nat)
    requires j < |db.jobs|
  {
    forall d :: 0 <= d < |db.domains| && db.domains[d].project == db.jobs[j].project ==>
      db.domains[d].crawlPages <= db.jobs[j].processedPages
  }

  predicate JobCalm(s: State, j: nat, n: nat)
    requires j < |s.db.jobs|
  {
    && s.db.jobs[j].status != JobFailed && s.db.jobs[j].status != JobCancelled
    && (s.db.jobs[j].status == JobCompleted ==> AllDone(s, j))
    && OwnProject(s.db, j) && Fitting(s, j, n) && DomainsCalm(s.db, j)
  }

  /** Nobody leaves before every new row is at least locked, nor closes the job early, nor do all leave it open. */
  predicate Finish(s: State, j: nat)
    requires j < |s.db.jobs|
  {
    && (forall w :: 0 <= w < |s.workers| && s.workers[w].job == j && Leaving(s.workers[w]) ==> NewRowsLocked(s, j))
    && (forall w :: 0 <= w < |s.workers| && s.workers[w].job == j && s.workers[w].phase == AtClose ==> AllDone(s, j))
    && (AllDone(s, j) && s.db.jobs[j].status != JobCompleted ==> SomeoneActive(s, j))
  }

  predicate RowsCalm(s: State, j: nat, start: nat) {
    forall c :: 0 <= c < |s.db.cands| && s.db.cands[c].job == j ==> RowCalm(s.db.cands[c], start)
  }

  predicate WorkersCalm(s: State, j: nat, start: nat) {
    forall w :: 0 <= w < |s.workers| && s.workers[w].job == j ==>
      WorkerCalm(s.db, s.workers[w], start) && s.workers[w].txNow <= s.clock
  }

  predicate WorkersDistinct(s: State, j: nat) {
    forall v, w :: 0 <= v < w < |s.workers| && s.workers[v].job == s.workers[w].job == j ==>
      Distinct(s.workers[v], s.workers[w])
  }

  predicate Inv(s: State, j: nat, n: nat, start: nat) {
    && Wf(s) && j < |s.db.jobs| && Sum(s.db.cands, OfJob(j)) == n && start <= s.clock && Manned(s, j)
    && JobCalm(s, j, n) && Tallied(s, j)
    && RowsCalm(s, j, start) && WorkersCalm(s, j, start) && WorkersDistinct(s, j)
    && Finish(s, j)
  }

  /** Worker w of job j takes a calm step. */
  predicate Moves(s: State, j: nat, n: nat, start: nat, w: nat, op: Op) {
    Inv(s, j, n, start) && w < |s.workers| && s.workers[w].job == j && Enabled(s, By(w, op)) && CalmOp(op)
  }

  // ---- grants never fail

  lemma RoomFor(s: State, j: nat, n: nat, start: nat, w: nat, k: nat)
    requires Inv(s, j, n, start) && w < |s.workers| && s.workers[w].job == j && 1 <= Rank(s.workers[w].phase) <= k
    ensures 1 <= Sum(s.workers, UpTo(j, k)) && Sum(s.db.cands, Taken(j)) <= n
    ensures !Terminal(s.db.jobs[j].status)
  {
    SumMember(s.workers, w, UpTo(j, k));
    SumBelow(s.db.cands, Taken(j), OfJob(j));
    assert WorkerOk(s.server, s.db, s.workers[w]) && WorkerCalm(s.db, s.workers[w], start);
  }

  /** The budgets suffice; for the page budget even if the domain's counter is read at its largest. */
  lemma Granted(s: State, j: nat, n: nat, start: nat, w: nat)
    requires Inv(s, j, n, start) && w < |s.workers| && s.workers[w].job == j
    ensures s.workers[w].phase == Holds(AtURLGate) ==> URLGranted(s.db, j)
    ensures s.workers[w].phase == Holds(AtPageGate) ==>
              s.workers[w].dom < |s.db.domains| && PageGranted(s.db, j, s.db.domains[s.workers[w].dom].crawlPages)
  {
    assert WorkerOk(s.server, s.db, s.workers[w]);
    if s.workers[w].phase == Holds(AtURLGate) {
      RoomFor(s, j, n, start, w, 1);
    }
    if s.workers[w].phase == Holds(AtPageGate) {
      RoomFor(s, j, n, start, w, 2);
    }
  }

  // ---- the mover

  function One(b: bool): nat { if b then 1 else 0 }

  predicate Smooth(db: Db, me: Worker, op: Op)
    requires me.job < |db.jobs|
  {
    && CalmOp(op)
    && (op.URLGate? ==> URLGranted(db, me.job))
    && (op.PageGate? ==> PageGranted(db, me.job, op.seen))
    && db.jobs[me.job].config.activeProbe && !db.jobs[me.job].config.linkDiscovery
  }

  /** How far a claim has come before and after an operation. */
  predicate RankStep(before: Phase, after: Phase, op: Op) {
    var r, r' := Rank(before), Rank(after);
    if op.Commit? then r == 0 && r' == 1
    else if op.URLGate? then r == 1 && r' == 2
    else if op.PageGate? then r == 2 && r' == 3
    else if op.Fetch? then r == 3 && r' == 4
    else if op.SavePage? then r == 4 && r' == 5
    else if op.Settle? then r == 5 && r' == 0
    else r' == r
  }

  lemma GatesRank(server: Server, clock: nat, db: Db, me: Worker, op: Op, start: nat)
    requires WorkerOk(server, db, me) && Ready(db, me, op) && WorkerCalm(db, me, start) && Smooth(db, me, op)
    requires ClaimOp(op) || GateOp(op) || HostOp(op)
    ensures RankStep(me.phase, NextWorker(server, clock, db, me, op).phase, op)
  {
  }

  lemma RanksMove(server: Server, clock: nat, db: Db, me: Worker, op: Op, start: nat)
    requires WorkerOk(server, db, me) && Ready(db, me, op) && WorkerCalm(db, me, start) && Smooth(db, me, op)
    ensures RankStep(me.phase, NextWorker(server, clock, db, me, op).phase, op)
  {
    if ClaimOp(op) || GateOp(op) || HostOp(op) {
      GatesRank(server, clock, db, me, op, start);
    }
  }

  lemma TurnsMove(server: Server, clock: nat, db: Db, me: Worker, op: Op)
    requires WorkerOk(server, db, me) && Ready(db, me, op) && CalmOp(op)
    ensures Turns(me.job)(NextWorker(server, clock, db, me, op)) == Turns(me.job)(me) + One(op.Commit?)
  {
  }

  /** Each counter's operation moves a claim past that counter's rank; a claim enters at Commit and leaves at Settle. */
  lemma RankMove(server: Server, clock: nat, db: Db, me: Worker, op: Op, start: nat)
    requires WorkerOk(server, db, me) && Ready(db, me, op) && WorkerCalm(db, me, start) && Smooth(db, me, op)
    ensures
      var me' := NextWorker(server, clock, db, me, op);
      && UpTo(me.job, 1)(me') + One(op.URLGate?) == UpTo(me.job, 1)(me) + One(op.Commit?)
      && UpTo(me.job, 2)(me') + One(op.PageGate?) == UpTo(me.job, 2)(me) + One(op.Commit?)
      && UpTo(me.job, 3)(me') + One(op.Fetch?) == UpTo(me.job, 3)(me) + One(op.Commit?)
      && UpTo(me.job, 5)(me') + One(op.Settle?) == UpTo(me.job, 5)(me) + One(op.Commit?)
      && Turns(me.job)(me') == Turns(me.job)(me) + One(op.Commit?)
  {
    RanksMove(server, clock, db, me, op, start);
    TurnsMove(server, clock, db, me, op);
  }

  /** A calm run takes a row from new to processing to completed, and writes it at no other time. */
  lemma RowMove(server: Server, clock: nat, db: Db, me: Worker, op: Op, start: nat)
    requires WorkerOk(server, db, me) && Ready(db, me, op) && WorkerCalm(db, me, start) && Smooth(db, me, op)
    ensures op.Commit? || op.Settle? <==> WritesRow(op)
    ensures !InsertsChild(server, db, me, op)
    ensures WritesRow(op) ==>
              && me.cand < |db.cands| == |NextDb(server, clock, db, me, op).cands|
              && var row, row' := db.cands[me.cand], NextDb(server, clock, db, me, op).cands[me.cand];
              if op.Commit? then row.status == New && row' == Claimed(row, me.txNow + server.lease)
              else row.status == Processing && row' == row.(status := Completed, leaseUntil := None)
  {
  }

  lemma RowCounts(server: Server, clock: nat, db: Db, me: Worker, op: Op, start: nat)
    requires WorkerOk(server, db, me) && Ready(db, me, op) && WorkerCalm(db, me, start) && Smooth(db, me, op)
    ensures
      var db' := NextDb(server, clock, db, me, op);
      && Sum(db'.cands, Taken(me.job)) == Sum(db.cands, Taken(me.job)) + One(op.Commit?)
      && Sum(db'.cands, InWork(me.job)) + One(op.Settle?) == Sum(db.cands, InWork(me.job)) + One(op.Commit?)
  {
    RowsMove(server, clock, db, me, op);
    RowMove(server, clock, db, me, op, start);
    if WritesRow(op) {
      var row := NextDb(server, clock, db, me, op).cands[me.cand];
      SumUpdate(db.cands, me.cand, row, Taken(me.job));
      SumUpdate(db.cands, me.cand, row, InWork(me.job));
    }
  }

  lemma HistMove(hist: seq<History>, me: Worker, op: Op)
    requires me.job < |hist|
    ensures |NextHist(hist, me, op)| == |hist|
    ensures NextHist(hist, me, op)[me.job].fetches == hist[me.job].fetches + One(op.Fetch?)
  {
  }

  lemma WorkerSums(workers: seq<Worker>, w: nat, me': Worker, j: nat)
    requires w < |workers|
    ensures
      var after, me := workers[w := me'], workers[w];
      && Sum(after, UpTo(j, 1)) + UpTo(j, 1)(me) == Sum(workers, UpTo(j, 1)) + UpTo(j, 1)(me')
      && Sum(after, UpTo(j, 2)) + UpTo(j, 2)(me) == Sum(workers, UpTo(j, 2)) + UpTo(j, 2)(me')
      && Sum(after, UpTo(j, 3)) + UpTo(j, 3)(me) == Sum(workers, UpTo(j, 3)) + UpTo(j, 3)(me')
      && Sum(after, UpTo(j, 5)) + UpTo(j, 5)(me) == Sum(workers, UpTo(j, 5)) + UpTo(j, 5)(me')
      && Sum(after, Turns(j)) + Turns(j)(me) == Sum(workers, Turns(j)) + Turns(j)(me')
  {
    SumUpdate(workers, w, me', UpTo(j, 1));
    SumUpdate(workers, w, me', UpTo(j, 2));
    SumUpdate(workers, w, me', UpTo(j, 3));
    SumUpdate(workers, w, me', UpTo(j, 5));
    SumUpdate(workers, w, me', Turns(j));
  }

  lemma CountsMove(server: Server, clock: nat, db: Db, hist: seq<History>, me: Worker, op: Op)
    requires WorkerOk(server, db, me) && Ready(db, me, op) && |hist| == |db.jobs| && CalmOp(op)
    requires (op.URLGate? ==> URLGranted(db, me.job)) && (op.PageGate? ==> PageGranted(db, me.job, op.seen))
    ensures
      var db', hist' := NextDb(server, clock, db, me, op), NextHist(hist, me, op);
      && |db'.jobs| == |db.jobs| == |hist'|
      && db'.jobs[me.job].processedURLs == db.jobs[me.job].processedURLs + One(op.URLGate?)
      && db'.jobs[me.job].processedPages == db.jobs[me.job].processedPages + One(op.PageGate?)
      && hist'[me.job].fetches == hist[me.job].fetches + One(op.Fetch?)
  {
    CountersMove(server, clock, db, me, op, me.job);
    HistMove(hist, me, op);
  }

  lemma TalliedStep(s: State, j: nat, w: nat, op: Op, start: nat)
    requires Wf(s) && j < |s.db.jobs| && Tallied(s, j) && Enabled(s, By(w, op)) && s.workers[w].job == j
    requires WorkerCalm(s.db, s.workers[w], start) && Smooth(s.db, s.workers[w], op)
    ensures var t := Apply(s, By(w, op)); j < |t.db.jobs| && j < |t.hist| && Tallied(t, j)
  {
    var me := s.workers[w];
    RankMove(s.server, s.clock, s.db, me, op, start);
    RowCounts(s.server, s.clock, s.db, me, op, start);
    CountsMove(s.server, s.clock, s.db, s.hist, me, op);
    WorkerSums(s.workers, w, NextWorker(s.server, s.clock, s.db, me, op), j);
  }

  /** How the mover's hold on rows changes. */
  lemma HoldMove(server: Server, clock: nat, db: Db, me: Worker, op: Op)
    requires WorkerOk(server, db, me) && Ready(db, me, op) && CalmOp(op)
    ensures
      var me' := NextWorker(server, clock, db, me, op);
      && (me'.phase == AtCommit ==> op == Lock(me'.cand))
      && (me.phase == AtCommit ==> op.Commit?)
      && (me'.phase.Holds? && !op.Commit? ==> me.phase.Holds? && me'.cand == me.cand)
      && (op.Commit? ==> me.phase == AtCommit && me'.cand == me.cand)
      && me'.txNow == (if op.Begin? then clock else me.txNow)
  {
  }

  /** How the mover comes to leave. */
  lemma LeaveMove(server: Server, clock: nat, db: Db, me: Worker, op: Op)
    requires WorkerOk(server, db, me) && Ready(db, me, op) && CalmOp(op)
    ensures
      var me' := NextWorker(server, clock, db, me, op);
      && (Leaving(me') ==> Leaving(me) || op.NothingClaimable? || op.CheckStatus? || (op.Settle? && me.after != ToTop))
      && (me'.phase == AtClose ==> op.Count? && Sum(db.cands, OpenOf(me.job)) == 0)
      && (me'.phase == Returned ==> op.Close? || (op.CheckStatus? && Terminal(db.jobs[me.job].status))
                                    || (op.Count? && Sum(db.cands, OpenOf(me.job)) != 0))
  {
  }

  /** A claim in hand is the one it was, and a page fetched was a turn taken. */
  lemma LocalsMove(server: Server, clock: nat, db: Db, me: Worker, op: Op, start: nat)
    requires WorkerOk(server, db, me) && Ready(db, me, op) && WorkerCalm(db, me, start) && Smooth(db, me, op)
    requires start <= clock
    ensures LocalsCalm(NextWorker(server, clock, db, me, op), start)
  {
    JobKept(server, clock, db, me, op);
    RanksMove(server, clock, db, me, op, start);
    HoldMove(server, clock, db, me, op);
  }

  lemma MoverCalm(server: Server, clock: nat, db: Db, me: Worker, op: Op, start: nat)
    requires WorkerOk(server, db, me) && Ready(db, me, op) && WorkerCalm(db, me, start) && Smooth(db, me, op)
    requires op.Lock? ==> db.cands[op.c].status == New
    requires start <= clock
    ensures WorkerCalm(NextDb(server, clock, db, me, op), NextWorker(server, clock, db, me, op), start)
  {
    RowsMove(server, clock, db, me, op);
    RowMove(server, clock, db, me, op, start);
    HoldMove(server, clock, db, me, op);
    LocalsMove(server, clock, db, me, op, start);
  }

  /** Rows under another worker's claim or lock stay as they are. */
  lemma OtherCalm(s: State, j: nat, n: nat, start: nat, w: nat, op: Op, v: nat)
    requires Moves(s, j, n, start, w, op) && v < |s.workers| && v != w && s.workers[v].job == j
    ensures WorkerCalm(Apply(s, By(w, op)).db, s.workers[v], start)
  {
    var me := s.workers[w];
    RowsMove(s.server, s.clock, s.db, me, op);
    assert WorkerCalm(s.db, me, start) && WorkerCalm(s.db, s.workers[v], start);
    assert if v < w then Distinct(s.workers[v], s.workers[w]) else Distinct(s.workers[w], s.workers[v]);
  }

  // ---- a step of one of the job's workers

  /** With no lease running out, only new rows are claimed. */
  lemma OnlyNewLocked(s: State, j: nat, n: nat, start: nat, w: nat, op: Op)
    requires Moves(s, j, n, start, w, op) && NoExpiry(s, j) && op.Lock?
    ensures s.db.cands[op.c].status == New
  {
    assert WorkerCalm(s.db, s.workers[w], start);
    assert RowCalm(s.db.cands[op.c], start);
  }

  lemma SmoothMove(s: State, j: nat, n: nat, start: nat, w: nat, op: Op)
    requires Moves(s, j, n, start, w, op)
    ensures WorkerOk(s.server, s.db, s.workers[w]) && Ready(s.db, s.workers[w], op)
    ensures WorkerCalm(s.db, s.workers[w], start) && Smooth(s.db, s.workers[w], op)
  {
    Granted(s, j, n, start, w);
  }

  lemma WorkerStep(s: State, j: nat, n: nat, start: nat, w: nat, op: Op, v: nat)
    requires Moves(s, j, n, start, w, op) && NoExpiry(s, j)
    requires v < |s.workers| && s.workers[v].job == j
    ensures v < |Apply(s, By(w, op)).workers|
    ensures WorkerCalm(Apply(s, By(w, op)).db, Apply(s, By(w, op)).workers[v], start)
  {
    if v == w {
      SmoothMove(s, j, n, start, w, op);
      if op.Lock? {
        OnlyNewLocked(s, j, n, start, w, op);
      }
      MoverCalm(s.server, s.clock, s.db, s.workers[w], op, start);
    } else {
      OtherCalm(s, j, n, start, w, op, v);
    }
  }

  lemma TableLength(s: State, j: nat, n: nat, start: nat, w: nat, op: Op)
    requires Moves(s, j, n, start, w, op)
    ensures |Apply(s, By(w, op)).db.cands| == |s.db.cands|
    ensures forall c :: 0 <= c < |s.db.cands| ==> Apply(s, By(w, op)).db.cands[c].job == s.db.cands[c].job
    ensures Sum(Apply(s, By(w, op)).db.cands, OfJob(j)) == n
  {
    var t, me := Apply(s, By(w, op)), s.workers[w];
    SmoothMove(s, j, n, start, w, op);
    RowsMove(s.server, s.clock, s.db, me, op);
    RowMove(s.server, s.clock, s.db, me, op, start);
    SumKept(s.db.cands, t.db.cands, OfJob(j));
  }

  lemma RowStep(s: State, j: nat, n: nat, start: nat, w: nat, op: Op, c: nat)
    requires Moves(s, j, n, start, w, op) && c < |s.db.cands| && s.db.cands[c].job == j
    ensures |Apply(s, By(w, op)).db.cands| == |s.db.cands| && RowCalm(Apply(s, By(w, op)).db.cands[c], start)
    ensures s.db.cands[c].status != New ==> Apply(s, By(w, op)).db.cands[c].status != New
    ensures s.db.cands[c].status == Completed ==> Apply(s, By(w, op)).db.cands[c].status == Completed
  {
    var me := s.workers[w];
    assert RowCalm(s.db.cands[c], start);
    SmoothMove(s, j, n, start, w, op);
    RowsMove(s.server, s.clock, s.db, me, op);
    RowMove(s.server, s.clock, s.db, me, op, start);
  }

  lemma DistinctStep(s: State, j: nat, n: nat, start: nat, w: nat, op: Op, v: nat)
    requires Moves(s, j, n, start, w, op) && v < |s.workers| && v != w && s.workers[v].job == j
    ensures Distinct(s.workers[v], NextWorker(s.server, s.clock, s.db, s.workers[w], op))
    ensures Distinct(NextWorker(s.server, s.clock, s.db, s.workers[w], op), s.workers[v])
  {
    HoldMove(s.server, s.clock, s.db, s.workers[w], op);
    assert WorkerCalm(s.db, s.workers[w], start) && WorkerCalm(s.db, s.workers[v], start);
    assert if v < w then Distinct(s.workers[v], s.workers[w]) else Distinct(s.workers[w], s.workers[v]);
  }

  lemma LockStays(s: State, j: nat, n: nat, start: nat, w: nat, op: Op, c: nat)
    requires Moves(s, j, n, start, w, op) && c < |s.db.cands| == |Apply(s, By(w, op)).db.cands|
    requires s.db.cands[c].job == j && Apply(s, By(w, op)).db.cands[c].status == New
    requires s.db.cands[c].status == New ==> LockedRow(s, c)
    ensures LockedRow(Apply(s, By(w, op)), c)
  {
    RowStep(s, j, n, start, w, op, c);
    HoldMove(s.server, s.clock, s.db, s.workers[w], op);
    var v :| 0 <= v < |s.workers| && s.workers[v].phase == AtCommit && s.workers[v].cand == c;
    if op.Commit? {
      CommitTakes(s.server, s.clock, s.db, s.workers[w], op);
    }
    assert v != w;
    assert Apply(s, By(w, op)).workers[v] == s.workers[v];
  }

  lemma CommitTakes(server: Server, clock: nat, db: Db, me: Worker, op: Op)
    requires WorkerOk(server, db, me) && Ready(db, me, op) && op.Commit?
    ensures me.cand < |NextDb(server, clock, db, me, op).cands|
    ensures NextDb(server, clock, db, me, op).cands[me.cand].status == Processing
  {
  }

  /** A row that stays new stays locked: only its locker's commit releases it. */
  lemma StillLocked(s: State, j: nat, n: nat, start: nat, w: nat, op: Op)
    requires Moves(s, j, n, start, w, op) && NewRowsLocked(s, j)
    ensures NewRowsLocked(Apply(s, By(w, op)), j)
  {
    var t := Apply(s, By(w, op));
    TableLength(s, j, n, start, w, op);
    forall c | 0 <= c < |t.db.cands| && t.db.cands[c].job == j && t.db.cands[c].status == New
      ensures LockedRow(t, c)
    {
      LockStays(s, j, n, start, w, op, c);
    }
  }

  /** A worker that finds nothing claimable has seen every new row locked. */
  lemma NothingLeft(s: State, j: nat, n: nat, start: nat, w: nat)
    requires Moves(s, j, n, start, w, NothingClaimable)
    ensures NewRowsLocked(s, j)
  {
    assert WorkerCalm(s.db, s.workers[w], start);
    forall c | 0 <= c < |s.db.cands| && s.db.cands[c].job == j && s.db.cands[c].status == New
      ensures LockedRow(s, c)
    {
      assert RowCalm(s.db.cands[c], start);
      assert !CanLock(s, w, c);
      assert !Unlocked(s, c, w);
    }
  }

  lemma {:induction false} AllTaken(cands: seq<Candidate>, j: nat)
    requires Sum(cands, Taken(j)) >= Sum(cands, OfJob(j))
    ensures forall c :: 0 <= c < |cands| && cands[c].job == j ==> cands[c].status != New
  {
    if cands == [] {
    } else {
      SumBelow(cands[..|cands| - 1], Taken(j), OfJob(j));
      AllTaken(cands[..|cands| - 1], j);
    }
  }

  /** A worker that leaves the loop at a limit has itself taken all candidates; a completed job has none left. */
  lemma LimitReached(s: State, j: nat, n: nat, start: nat, w: nat)
    requires Inv(s, j, n, start) && w < |s.workers| && s.workers[w].job == j && s.workers[w].phase == AtTop
    requires var me := s.workers[w];
             !(me.pages < me.lim.maxPages && me.processed < me.lim.maxURLs) || Terminal(s.db.jobs[j].status)
    ensures NewRowsLocked(s, j)
  {
    var me := s.workers[w];
    assert WorkerCalm(s.db, me, start) && WorkerOk(s.server, s.db, me);
    if !Terminal(s.db.jobs[j].status) {
      SumMember(s.workers, w, Turns(j));
      AllTaken(s.db.cands, j);
    }
  }

  /** FinishJobIfEmpty counts zero exactly when all rows are completed. */
  lemma {:induction false} CountZero(cands: seq<Candidate>, j: nat, start: nat)
    requires forall c :: 0 <= c < |cands| && cands[c].job == j ==> RowCalm(cands[c], start)
    ensures Sum(cands, OpenOf(j)) == 0 <==>
            forall c :: 0 <= c < |cands| && cands[c].job == j ==> cands[c].status == Completed
  {
    if cands == [] {
    } else {
      var n := |cands| - 1;
      CountZero(cands[..n], j, start);
      assert cands[n].job == j ==> RowCalm(cands[n], start);
    }
  }

  lemma LeavingStep(s: State, j: nat, n: nat, start: nat, w: nat, op: Op, v: nat)
    requires Moves(s, j, n, start, w, op) && v < |s.workers| && s.workers[v].job == j
    requires Leaving(Apply(s, By(w, op)).workers[v])
    ensures NewRowsLocked(Apply(s, By(w, op)), j)
  {
    assert WorkerCalm(s.db, s.workers[w], start);
    LeaveMove(s.server, s.clock, s.db, s.workers[w], op);
    if v == w && !Leaving(s.workers[w]) {
      if op.NothingClaimable? {
        NothingLeft(s, j, n, start, w);
      } else {
        LeavingByCheck(s, j, n, start, w, op);
        LimitReached(s, j, n, start, w);
      }
    }
    StillLocked(s, j, n, start, w, op);
  }

  lemma LeavingByCheck(s: State, j: nat, n: nat, start: nat, w: nat, op: Op)
    requires Moves(s, j, n, start, w, op) && op == CheckStatus
    requires Leaving(NextWorker(s.server, s.clock, s.db, s.workers[w], op))
    ensures var me := s.workers[w];
            me.phase == AtTop
            && (!(me.pages < me.lim.maxPages && me.processed < me.lim.maxURLs) || Terminal(s.db.jobs[j].status))
  {
    assert WorkerCalm(s.db, s.workers[w], start);
  }

  lemma DoneKept(s: State, j: nat, n: nat, start: nat, w: nat, op: Op)
    requires Moves(s, j, n, start, w, op) && AllDone(s, j)
    ensures AllDone(Apply(s, By(w, op)), j)
  {
    var t := Apply(s, By(w, op));
    TableLength(s, j, n, start, w, op);
    forall c | 0 <= c < |t.db.cands| && t.db.cands[c].job == j ensures t.db.cands[c].status == Completed {
      RowStep(s, j, n, start, w, op, c);
    }
  }

  lemma ClosingStep(s: State, j: nat, n: nat, start: nat, w: nat, op: Op, v: nat)
    requires Moves(s, j, n, start, w, op) && v < |s.workers| && s.workers[v].job == j
    requires Apply(s, By(w, op)).workers[v].phase == AtClose
    ensures AllDone(Apply(s, By(w, op)), j)
  {
    LeaveMove(s.server, s.clock, s.db, s.workers[w], op);
    assert WorkerCalm(s.db, s.workers[w], start);
    if v == w {
      CountZero(s.db.cands, j, start);
    }
    DoneKept(s, j, n, start, w, op);
  }

  lemma DomainsMove(server: Server, clock: nat, db: Db, me: Worker, op: Op)
    requires WorkerOk(server, db, me) && Ready(db, me, op) && DomainsCalm(db, me.job)
    ensures me.job < |NextDb(server, clock, db, me, op).jobs| && DomainsCalm(NextDb(server, clock, db, me, op), me.job)
  {
    CountersMove(server, clock, db, me, op, me.job);
  }

  /** Only the close of a worker that counted zero changes the job's status. */
  lemma StatusMove(server: Server, clock: nat, db: Db, me: Worker, op: Op)
    requires WorkerOk(server, db, me) && Ready(db, me, op)
    ensures var db' := NextDb(server, clock, db, me, op);
            |db'.jobs| == |db.jobs|
            && (if op.Close? && !Terminal(db.jobs[me.job].status) then db'.jobs[me.job].status == JobCompleted
                else db'.jobs[me.job].status == db.jobs[me.job].status)
  {
  }

  lemma JobRowStep(s: State, j: nat, n: nat, start: nat, w: nat, op: Op)
    requires Moves(s, j, n, start, w, op)
    ensures var t := Apply(s, By(w, op));
            && j < |t.db.jobs| && OwnProject(t.db, j) && Fitting(t, j, n) && DomainsCalm(t.db, j)
            && t.db.jobs[j].status != JobFailed && t.db.jobs[j].status != JobCancelled
            && (t.db.jobs[j].status == JobCompleted ==> op.Close? || s.db.jobs[j].status == JobCompleted)
  {
    var me := s.workers[w];
    SmoothMove(s, j, n, start, w, op);
    CountersMove(s.server, s.clock, s.db, me, op, j);
    DomainsMove(s.server, s.clock, s.db, me, op);
    StatusMove(s.server, s.clock, s.db, me, op);
    ApplyGrows(s, By(w, op));
  }

  lemma JobStep(s: State, j: nat, n: nat, start: nat, w: nat, op: Op)
    requires Moves(s, j, n, start, w, op)
    ensures j < |Apply(s, By(w, op)).db.jobs| && JobCalm(Apply(s, By(w, op)), j, n)
  {
    JobRowStep(s, j, n, start, w, op);
    if Apply(s, By(w, op)).db.jobs[j].status == JobCompleted {
      if op.Close? {
        assert s.workers[w].phase == AtClose;
      }
      DoneKept(s, j, n, start, w, op);
    }
  }

  lemma ActiveStep(s: State, j: nat, n: nat, start: nat, w: nat, op: Op)
    requires Moves(s, j, n, start, w, op)
    requires AllDone(Apply(s, By(w, op)), j)
    requires j < |Apply(s, By(w, op)).db.jobs| && Apply(s, By(w, op)).db.jobs[j].status != JobCompleted
    ensures SomeoneActive(Apply(s, By(w, op)), j)
  {
    var me, t := s.workers[w], Apply(s, By(w, op));
    var me' := t.workers[w];
    SmoothMove(s, j, n, start, w, op);
    JobKept(s.server, s.clock, s.db, me, op);
    LeaveMove(s.server, s.clock, s.db, me, op);
    StatusMove(s.server, s.clock, s.db, me, op);
    if me'.phase == Returned {
      RowsMove(s.server, s.clock, s.db, me, op);
      assert AllDone(s, j);
      CountZero(s.db.cands, j, start);
    }
  }

  lemma FinishStep(s: State, j: nat, n: nat, start: nat, w: nat, op: Op)
    requires Moves(s, j, n, start, w, op)
    ensures j < |Apply(s, By(w, op)).db.jobs| && Finish(Apply(s, By(w, op)), j)
  {
    var t := Apply(s, By(w, op));
    JobStep(s, j, n, start, w, op);
    JobKept(s.server, s.clock, s.db, s.workers[w], op);
    forall v | 0 <= v < |t.workers| && t.workers[v].job == j && Leaving(t.workers[v]) ensures NewRowsLocked(t, j) {
      LeavingStep(s, j, n, start, w, op, v);
    }
    forall v | 0 <= v < |t.workers| && t.workers[v].job == j && t.workers[v].phase == AtClose ensures AllDone(t, j) {
      ClosingStep(s, j, n, start, w, op, v);
    }
    if AllDone(t, j) && t.db.jobs[j].status != JobCompleted {
      ActiveStep(s, j, n, start, w, op);
    }
  }

  lemma WorkersStep(s: State, j: nat, n: nat, start: nat, w: nat, op: Op)
    requires Moves(s, j, n, start, w, op) && NoExpiry(s, j)
    ensures WorkersCalm(Apply(s, By(w, op)), j, start)
  {
    var t := Apply(s, By(w, op));
    HoldMove(s.server, s.clock, s.db, s.workers[w], op);
    JobKept(s.server, s.clock, s.db, s.workers[w], op);
    forall v | 0 <= v < |t.workers| && t.workers[v].job == j
      ensures WorkerCalm(t.db, t.workers[v], start) && t.workers[v].txNow <= t.clock
    {
      WorkerStep(s, j, n, start, w, op, v);
    }
  }

  lemma DistinctsStep(s: State, j: nat, n: nat, start: nat, w: nat, op: Op)
    requires Moves(s, j, n, start, w, op)
    ensures WorkersDistinct(Apply(s, By(w, op)), j)
  {
    var t := Apply(s, By(w, op));
    JobKept(s.server, s.clock, s.db, s.workers[w], op);
    forall u, v | 0 <= u < v < |t.workers| && t.workers[u].job == t.workers[v].job == j
      ensures Distinct(t.workers[u], t.workers[v])
    {
      if u == w {
        DistinctStep(s, j, n, start, w, op, v);
      } else if v == w {
        DistinctStep(s, j, n, start, w, op, u);
      } else {
        assert Distinct(s.workers[u], s.workers[v]);
      }
    }
  }

  lemma InvMove(s: State, j: nat, n: nat, start: nat, w: nat, op: Op)
    requires Moves(s, j, n, start, w, op) && NoExpiry(s, j)
    ensures Inv(Apply(s, By(w, op)), j, n, start)
  {
    var t := Apply(s, By(w, op));
    ApplyWf(s, By(w, op));
    SmoothMove(s, j, n, start, w, op);
    TalliedStep(s, j, w, op, start);
    JobStep(s, j, n, start, w, op);
    FinishStep(s, j, n, start, w, op);
    WorkersStep(s, j, n, start, w, op);
    DistinctsStep(s, j, n, start, w, op);
    TableLength(s, j, n, start, w, op);
    JobKept(s.server, s.clock, s.db, s.workers[w], op);
    assert t.workers[w].job == j;
    forall c | 0 <= c < |t.db.cands| && t.db.cands[c].job == j ensures RowCalm(t.db.cands[c], start) {
      RowStep(s, j, n, start, w, op, c);
    }
  }

  // ---- everything else

  /** What is of job j is the same in t as in s, except that the job may have been paused or resumed. */
  predicate Aside(s: State, t: State, j: nat)
    requires j < |s.db.jobs| && j < |t.db.jobs| && j < |s.hist| && j < |t.hist|
  {
    && t.server == s.server && t.clock >= s.clock && t.hist[j] == s.hist[j] && OwnProject(t.db, j)
    && t.db.jobs[j] == s.db.jobs[j].(status := t.db.jobs[j].status)
    && (t.db.jobs[j].status == s.db.jobs[j].status
        || (!Terminal(s.db.jobs[j].status) && !Terminal(t.db.jobs[j].status)))
    && AsideRows(s.db.cands, t.db.cands, j)
    && AsideWorkers(s.workers, t.workers, j)
    && AsideDomains(s.db.domains, t.db.domains, s.db.jobs[j].project)
  }

  predicate AsideRows(a: seq<Candidate>, b: seq<Candidate>, j: nat) {
    && |a| <= |b|
    && (forall c :: 0 <= c < |a| ==> a[c].job == b[c].job && (a[c].job == j ==> b[c] == a[c]))
    && (forall c :: |a| <= c < |b| ==> b[c].job != j)
  }

  predicate AsideWorkers(a: seq<Worker>, b: seq<Worker>, j: nat) {
    && |a| <= |b|
    && (forall w :: 0 <= w < |a| ==> a[w].job == b[w].job && (a[w].job == j ==> b[w] == a[w]))
    && (forall w :: |a| <= w < |b| ==> b[w].job != j)
  }

  predicate AsideDomains(a: seq<Domain>, b: seq<Domain>, project: string) {
    && |a| <= |b|
    && (forall d :: 0 <= d < |a| ==> a[d].project == b[d].project && (a[d].project == project ==> b[d] == a[d]))
    && (forall d :: |a| <= d < |b| ==> b[d].project != project)
  }

  lemma AsideTallied(s: State, t: State, j: nat)
    requires Wf(s) && Wf(t) && j < |s.db.jobs| && j < |t.db.jobs| && Aside(s, t, j) && Tallied(s, j)
    ensures Tallied(t, j) && Sum(t.db.cands, OfJob(j)) == Sum(s.db.cands, OfJob(j))
  {
    SumKept(s.db.cands, t.db.cands, OfJob(j));
    SumKept(s.db.cands, t.db.cands, Taken(j));
    SumKept(s.db.cands, t.db.cands, InWork(j));
    SumKept(s.workers, t.workers, Turns(j));
    SumKept(s.workers, t.workers, UpTo(j, 1));
    SumKept(s.workers, t.workers, UpTo(j, 2));
    SumKept(s.workers, t.workers, UpTo(j, 3));
    SumKept(s.workers, t.workers, UpTo(j, 5));
  }

  /** A row of job j is locked by a worker of job j, which has stayed where it was. */
  lemma AsideLocked(s: State, t: State, j: nat)
    requires Wf(s) && Wf(t) && j < |s.db.jobs| && j < |t.db.jobs| && Aside(s, t, j) && NewRowsLocked(s, j)
    ensures NewRowsLocked(t, j)
  {
    forall c | 0 <= c < |t.db.cands| && t.db.cands[c].job == j && t.db.cands[c].status == New
      ensures LockedRow(t, c)
    {
      var v :| 0 <= v < |s.workers| && s.workers[v].phase == AtCommit && s.workers[v].cand == c;
      assert WorkerOk(s.server, s.db, s.workers[v]);
      assert t.workers[v] == s.workers[v];
    }
  }

  lemma AsideFinish(s: State, t: State, j: nat)
    requires Wf(s) && Wf(t) && j < |s.db.jobs| && j < |t.db.jobs| && Aside(s, t, j) && Finish(s, j)
    ensures Finish(t, j)
  {
    if NewRowsLocked(s, j) {
      AsideLocked(s, t, j);
    }
    if SomeoneActive(s, j) {
      var w :| 0 <= w < |s.workers| && s.workers[w].job == j && s.workers[w].phase != Returned;
      assert t.workers[w] == s.workers[w];
    }
    assert AllDone(t, j) <==> AllDone(s, j) by {
      assert forall c :: 0 <= c < |s.db.cands| && s.db.cands[c].job == j ==> t.db.cands[c] == s.db.cands[c];
    }
  }

  lemma AsideWorker(s: State, t: State, j: nat, start: nat, w: nat)
    requires Wf(s) && Wf(t) && j < |s.db.jobs| && j < |t.db.jobs| && Aside(s, t, j) && WorkersCalm(s, j, start)
    requires w < |t.workers| && t.workers[w].job == j
    ensures WorkerCalm(t.db, t.workers[w], start) && t.workers[w].txNow <= t.clock
  {
    assert WorkerOk(s.server, s.db, s.workers[w]);
  }

  lemma AsideJob(s: State, t: State, j: nat, n: nat)
    requires Wf(s) && Wf(t) && j < |s.db.jobs| && j < |t.db.jobs| && Aside(s, t, j) && JobCalm(s, j, n)
    ensures JobCalm(t, j, n)
  {
    assert AllDone(s, j) ==> AllDone(t, j);
  }

  lemma AsideKeeps(s: State, t: State, j: nat, n: nat, start: nat)
    requires Inv(s, j, n, start) && Wf(t) && j < |t.db.jobs| && Aside(s, t, j)
    ensures Inv(t, j, n, start)
  {
    AsideTallied(s, t, j);
    AsideFinish(s, t, j);
    AsideJob(s, t, j, n);
    var w :| 0 <= w < |s.workers| && s.workers[w].job == j;
    assert t.workers[w].job == j;
    forall v | 0 <= v < |t.workers| && t.workers[v].job == j
      ensures WorkerCalm(t.db, t.workers[v], start) && t.workers[v].txNow <= t.clock
    {
      AsideWorker(s, t, j, start, v);
    }
  }

  lemma OtherRows(server: Server, clock: nat, db: Db, me: Worker, op: Op, j: nat)
    requires WorkerOk(server, db, me) && Ready(db, me, op) && me.job != j
    ensures AsideRows(db.cands, NextDb(server, clock, db, me, op).cands, j)
  {
    RowsMove(server, clock, db, me, op);
  }

  lemma OtherDomains(server: Server, clock: nat, db: Db, me: Worker, op: Op, j: nat)
    requires WorkerOk(server, db, me) && Ready(db, me, op) && me.job != j && j < |db.jobs| && OwnProject(db, j)
    ensures AsideDomains(db.domains, NextDb(server, clock, db, me, op).domains, db.jobs[j].project)
  {
  }

  lemma OtherJob(server: Server, clock: nat, db: Db, hist: seq<History>, me: Worker, op: Op, j: nat)
    requires WorkerOk(server, db, me) && Ready(db, me, op) && me.job != j && j < |db.jobs| == |hist|
    ensures j < |NextDb(server, clock, db, me, op).jobs| == |NextHist(hist, me, op)|
    ensures NextDb(server, clock, db, me, op).jobs[j] == db.jobs[j] && NextHist(hist, me, op)[j] == hist[j]
  {
  }

  /** A worker of another job. */
  lemma OtherAside(s: State, j: nat, w: nat, op: Op)
    requires Wf(s) && j < |s.db.jobs| && OwnProject(s.db, j)
    requires Enabled(s, By(w, op)) && s.workers[w].job != j
    ensures var t := Apply(s, By(w, op)); Wf(t) && j < |t.db.jobs| && Aside(s, t, j)
  {
    var me := s.workers[w];
    ApplyWf(s, By(w, op));
    ApplyGrows(s, By(w, op));
    assert WorkerOk(s.server, s.db, me);
    JobKept(s.server, s.clock, s.db, me, op);
    OtherRows(s.server, s.clock, s.db, me, op, j);
    OtherDomains(s.server, s.clock, s.db, me, op, j);
    OtherJob(s.server, s.clock, s.db, s.hist, me, op, j);
  }

  lemma EnvironmentAside(s: State, j: nat, a: Action)
    requires Wf(s) && j < |s.db.jobs| && OwnProject(s.db, j)
    requires Enabled(s, a) && Calm(s, j, a) && !a.By?
    ensures var t := Apply(s, a); Wf(t) && j < |t.db.jobs| && Aside(s, t, j)
  {
    ApplyWf(s, a);
  }

  lemma InvStep(s: State, j: nat, n: nat, start: nat, a: Action)
    requires Inv(s, j, n, start) && NoExpiry(s, j) && Enabled(s, a) && Calm(s, j, a)
    ensures Inv(Apply(s, a), j, n, start)
  {
    if a.By? && s.workers[a.w].job == j {
      InvMove(s, j, n, start, a.w, a.op);
    } else {
      if a.By? {
        OtherAside(s, j, a.w, a.op);
      } else {
        EnvironmentAside(s, j, a);
      }
      AsideKeeps(s, Apply(s, a), j, n, start);
    }
  }

  // ---- the run

  lemma {:induction false} NoneYet(cands: seq<Candidate>, workers: seq<Worker>, j: nat, limits: Limits)
    requires forall c :: 0 <= c < |cands| && cands[c].job == j ==> cands[c].status == New
    requires forall w :: 0 <= w < |workers| && workers[w].job == j ==> workers[w] == Started(j, limits)
    ensures Sum(cands, Taken(j)) == 0 && Sum(cands, InWork(j)) == 0 && Sum(workers, Turns(j)) == 0
    ensures Sum(workers, UpTo(j, 1)) == Sum(workers, UpTo(j, 2)) == Sum(workers, UpTo(j, 3)) == 0
    ensures Sum(workers, UpTo(j, 5)) == 0
  {
    if cands == [] && workers == [] {
    } else if cands != [] {
      NoneYet(cands[..|cands| - 1], workers, j, limits);
    } else {
      NoneYet(cands, workers[..|workers| - 1], j, limits);
    }
  }

  lemma LoadedInv(s: State, j: nat)
    requires Loaded(s, j)
    ensures Inv(s, j, Sum(s.db.cands, OfJob(j)), s.clock)
  {
    NoneYet(s.db.cands, s.workers, j, s.server.limits);
    var w :| 0 <= w < |s.workers| && s.workers[w].job == j;
    assert s.workers[w].phase == AtTop;
    assert SomeoneActive(s, j);
  }

  lemma {:induction false} RunInv(states: seq<State>, actions: seq<Action>, j: nat, i: nat)
    requires CalmRun(states, actions, j) && i < |states|
    ensures Inv(states[i], j, Sum(states[0].db.cands, OfJob(j)), states[0].clock)
  {
    if i == 0 {
      LoadedInv(states[0], j);
    } else {
      RunInv(states, actions, j, i - 1);
      InvStep(states[i - 1], j, Sum(states[0].db.cands, OfJob(j)), states[0].clock, actions[i - 1]);
    }
  }

  lemma {:induction false} NoRank(workers: seq<Worker>, j: nat, k: nat)
    requires forall w :: 0 <= w < |workers| && workers[w].job == j ==> !workers[w].phase.Holds?
    ensures Sum(workers, UpTo(j, k)) == 0
  {
    if workers == [] {
    } else {
      NoRank(workers[..|workers| - 1], j, k);
    }
  }

  lemma {:induction false} AllCompleted(cands: seq<Candidate>, j: nat, start: nat)
    requires forall c :: 0 <= c < |cands| && cands[c].job == j ==> RowCalm(cands[c], start) && cands[c].status != New
    requires Sum(cands, InWork(j)) == 0
    ensures forall c :: 0 <= c < |cands| && cands[c].job == j ==> cands[c].status == Completed
    ensures Sum(cands, Taken(j)) == Sum(cands, OfJob(j))
  {
    if cands == [] {
    } else {
      var n := |cands| - 1;
      assert cands[n].job == j ==> RowCalm(cands[n], start);
      AllCompleted(cands[..n], j, start);
    }
  }

  predicate AllReturned(s: State, j: nat) {
    forall w :: 0 <= w < |s.workers| && s.workers[w].job == j ==> s.workers[w].phase == Returned
  }

  /** In the end nothing is new, in work, or held. */
  lemma Settled(s: State, j: nat, n: nat, start: nat)
    requires Inv(s, j, n, start) && AllReturned(s, j)
    ensures AllDone(s, j) && Sum(s.db.cands, Taken(j)) == n && Sum(s.workers, UpTo(j, 5)) == 0
  {
    var w :| 0 <= w < |s.workers| && s.workers[w].job == j;
    assert Leaving(s.workers[w]);
    forall c | 0 <= c < |s.db.cands| && s.db.cands[c].job == j ensures s.db.cands[c].status != New {
      assert !LockedRow(s, c);
    }
    NoRank(s.workers, j, 5);
    AllCompleted(s.db.cands, j, start);
  }

  /**
   * Quiescence: when all workers of job j have returned in a calm run, every one of its N candidates is
   * completed after exactly one attempt, exactly N URLs, N pages and N fetches were counted, and the job
   * is completed, whatever the other jobs did.
   */
  lemma Quiescence(states: seq<State>, actions: seq<Action>, j: nat, i: nat)
    requires CalmRun(states, actions, j) && i < |states| && AllReturned(states[i], j)
    ensures
      var s, n := states[i], Sum(states[0].db.cands, OfJob(j));
      && j < |s.db.jobs| == |s.hist| && Sum(s.db.cands, OfJob(j)) == n
      && (forall c :: 0 <= c < |s.db.cands| && s.db.cands[c].job == j ==>
            s.db.cands[c].status == Completed && s.db.cands[c].attempts == 1)
      && s.db.jobs[j].processedURLs == s.db.jobs[j].processedPages == s.hist[j].fetches == n
      && s.db.jobs[j].status == JobCompleted
  {
    RunInv(states, actions, j, i);
    var s, n, start := states[i], Sum(states[0].db.cands, OfJob(j)), states[0].clock;
    Settled(s, j, n, start);
    NoRank(s.workers, j, 1);
    NoRank(s.workers, j, 2);
    NoRank(s.workers, j, 3);
    forall c | 0 <= c < |s.db.cands| && s.db.cands[c].job == j
      ensures s.db.cands[c].status == Completed && s.db.cands[c].attempts == 1
    {
      assert RowCalm(s.db.cands[c], start);
    }
  }
}
