/**
 * The leased work queue as a state machine: any number of workers running Worker.Run
 * (internal/worker/worker.go) over the shared tables, with the HTTP handlers, discovery imports and
 * the clock as environment. One action is one SQL statement or transaction, or one outside outcome.
 */
module Protocol {
  import opened Basics
  import opened Database
  import Hosts

  datatype Server = Server(limits: Limits, lease: nat, allowSubdomains: bool, allowExternal: bool)

  /** A link of a fetched page; valid says that it normalises and passes the URL policy. */
  datatype Link = Link(valid: bool, url: string, norm: string, domain: string)

  /** Where a worker stands inside Run; the comments give the lines of worker.go. */
  datatype Phase =
    | AtTop              // 8-10: loop guard, then GetJobStatus
    | AtBegin            // 11: ClaimCandidate opens its transaction
    | AtSelect           // 11: SELECT ... FOR UPDATE SKIP LOCKED
    | AtCommit           // 11: row locked, UPDATE and COMMIT pending
    | Holds(stage: Stage) // 12-20: the worker has claimed a candidate and not yet disposed of it
    | AtLinks            // 21: link loop
    | AtCount            // FinishJobIfEmpty: count
    | AtClose            // FinishJobIfEmpty: set completed
    | Returned
    | Crashed

  datatype Stage =
    | AtURLGate    // 12: ConsumeURLBudget
    | AtRate       // 13: AcquireDomainRateLimit
    | AtLoadJob    // 14: GetDiscoveryJob
    | AtDomain     // 15: EnsureDomain
    | AtProbe      // 16-18: EnsureHost, probe
    | AtPageGate   // 19: ConsumePageBudget
    | AtFetch      // 19: Fetch and Render
    | AtSavePage   // 20: UpsertPage and the detectors
    | AtSettle     // SetCandidateStatus(verdict), then go on to after
    | AtRetryRead  // ScheduleRetry, ScheduleRetryAfter: SELECT attempt_count
    | AtRetryWrite // ScheduleRetry, ScheduleRetryAfter: UPDATE or dead-letter transaction

  datatype After = ToTop | ToCount | ToLinks

  /** The locals of one call of Run; claims, settled and dropped are history counters. */
  datatype Worker = Worker(
    job: nat, phase: Phase, pages: nat, processed: nat, lim: Limits,
    txNow: nat, cand: nat, raw: string, domain: string, depth: nat, lease: nat, dom: nat,
    pageURL: string, links: seq<Link>, next: nat, verdict: CandidateStatus, after: After,
    wait: Option<int>, attempts: nat, claims: nat, settled: nat, dropped: nat)

  function Started(job: nat, limits: Limits): Worker {
    Worker(job, AtTop, 0, 0, limits, 0, 0, "", "", 0, 0, 0, "", [], 0, Completed, ToTop, None, 0, 0, 0, 0)
  }

  /** Per job: fetches begun, browser renders begun, candidates inserted from outside. */
  datatype History = History(fetches: nat, renders: nat, imported: nat)

  /** reclaims counts, per candidate, the claims that took over an expired lease. */
  datatype State = State(server: Server, clock: nat, db: Db, workers: seq<Worker>,
                         hist: seq<History>, reclaims: seq<nat>)

  datatype FetchResult = Page(url: string, links: seq<Link>) | TryLater(delay: int) | Rejected | NetworkError

  datatype Op =
    | CheckStatus
    | Begin
    | Lock(c: nat)
    | NothingClaimable
    | Commit(ack: bool)      // ack false: the commit took effect but the worker saw an error
    | URLGate(ack: bool)
    | RateGranted
    | LoadJob
    | FindOrAddDomain(ack: bool)
    | Probe(active: bool)
    | PageGate(ack: bool, seen: nat) // seen: the crawl_pages in the statement's snapshot, maybe outdated
    | Fetch(result: FetchResult, rendered: bool)
    | SavePage(matched: bool, deep: bool, ack: bool)
    | Settle
    | FollowLink
    | RetryRead
    | RetryWrite(jitter: nat)
    | Count
    | Close
    | Fault(cancelled: bool) // a database error, or the context was cancelled
    | Crash

  datatype Action =
    | Tick(elapsed: nat)
    | Create(project: string, config: JobConfig)
    | Import(job: nat, url: string, norm: string, domain: string, priority: int)
    | SetStatus(job: nat, status: JobStatus)
    | Spawn(job: nat)
    | By(w: nat, op: Op)

  // ---- well-formedness

  predicate UsesDomain(p: Phase) {
    p.Holds? && (p.stage == AtProbe || p.stage == AtPageGate || p.stage == AtFetch || p.stage == AtSavePage)
  }

  predicate JobLoaded(me: Worker) {
    me.phase == Holds(AtDomain) || UsesDomain(me.phase) || me.phase == AtLinks ||
    (me.phase == Holds(AtSettle) && me.after == ToLinks)
  }

  function LimitsOf(server: Server, job: Job): Limits {
    Effective(job.config, server.limits)
  }

  predicate HasClaim(db: Db, me: Worker) {
    && me.cand < |db.cands|
    && var c := db.cands[me.cand];
    && c.job == me.job && c.url == me.raw && c.domain == me.domain && c.depth == me.depth && c.attempts >= 1
  }

  predicate HasDomain(db: Db, me: Worker)
    requires me.job < |db.jobs|
  {
    && me.dom < |db.domains|
    && db.domains[me.dom].project == db.jobs[me.job].project
    && db.domains[me.dom].name == me.domain
  }

  predicate WorkerOk(server: Server, db: Db, me: Worker) {
    && me.job < |db.jobs|
    && (me.lim == server.limits || me.lim == LimitsOf(server, db.jobs[me.job]))
    && (JobLoaded(me) ==> me.lim == LimitsOf(server, db.jobs[me.job]))
    && (me.phase == AtCommit ==> me.cand < |db.cands| && db.cands[me.cand].job == me.job)
    && (me.phase.Holds? || me.phase == AtLinks ==> HasClaim(db, me))
    && (UsesDomain(me.phase) ==> HasDomain(db, me))
    && (me.phase == Holds(AtRetryWrite) ==> me.attempts >= 1)
    && (me.phase == Holds(AtSavePage) || (me.phase == Holds(AtSettle) && me.after == ToLinks) ==> me.next == 0)
  }

  predicate Wf(s: State) {
    && |s.hist| == |s.db.jobs|
    && |s.reclaims| == |s.db.cands|
    && (forall c :: 0 <= c < |s.db.cands| ==> s.db.cands[c].job < |s.db.jobs|)
    && (forall p :: 0 <= p < |s.db.pages| ==> s.db.pages[p].dom < |s.db.domains|)
    && (forall w :: 0 <= w < |s.workers| ==> WorkerOk(s.server, s.db, s.workers[w]))
  }

  // ---- actions

  /** No worker other than w is inside a claim transaction that has locked row c. */
  predicate Unlocked(s: State, c: nat, w: nat) {
    forall v :: 0 <= v < |s.workers| && v != w ==> !(s.workers[v].phase == AtCommit && s.workers[v].cand == c)
  }

  predicate CanLock(s: State, w: nat, c: nat)
    requires w < |s.workers|
  {
    && c < |s.db.cands|
    && Claimable(s.db.cands[c], s.workers[w].job, s.workers[w].txNow)
    && Unlocked(s, c, w)
  }

  function Jittered(me: Worker, now: nat, jitter: nat): nat {
    now + if me.wait.Some? then ClampDelay(me.wait.value) else jitter
  }

  /** op is what the worker does next, as far as its own locals and the tables decide. */
  predicate Ready(db: Db, me: Worker, op: Op) {
    match op
    case CheckStatus => me.phase == AtTop
    case Begin => me.phase == AtBegin
    case Lock(c) => me.phase == AtSelect && c < |db.cands| && Claimable(db.cands[c], me.job, me.txNow)
    case NothingClaimable => me.phase == AtSelect
    case Commit(_) => me.phase == AtCommit
    case URLGate(_) => me.phase == Holds(AtURLGate)
    case RateGranted => me.phase == Holds(AtRate)
    case LoadJob => me.phase == Holds(AtLoadJob)
    case FindOrAddDomain(_) => me.phase == Holds(AtDomain)
    case Probe(_) => me.phase == Holds(AtProbe)
    case PageGate(_, seen) =>
      me.phase == Holds(AtPageGate) && me.dom < |db.domains| && seen <= db.domains[me.dom].crawlPages
    case Fetch(_, _) => me.phase == Holds(AtFetch)
    case SavePage(_, _, _) => me.phase == Holds(AtSavePage)
    case Settle => me.phase == Holds(AtSettle)
    case FollowLink => me.phase == AtLinks
    case RetryRead => me.phase == Holds(AtRetryRead)
    case RetryWrite(jitter) => me.phase == Holds(AtRetryWrite) && me.attempts >= 1 && jitter <= RetryBase(me.attempts)
    case Count => me.phase == AtCount
    case Close => me.phase == AtClose
    case Fault(_) => me.phase != Holds(AtFetch) && me.phase != Returned && me.phase != Crashed
    case Crash => me.phase != Returned && me.phase != Crashed
  }

  /** What row locks add: claims skip locked rows, and a write to a locked row waits. */
  predicate LocksAllow(s: State, w: nat, op: Op)
    requires w < |s.workers|
  {
    match op
    case Lock(c) => Unlocked(s, c, w)
    case NothingClaimable => forall c :: 0 <= c < |s.db.cands| ==> !CanLock(s, w, c)
    case Settle => Unlocked(s, s.workers[w].cand, w)
    case RetryWrite(_) => Unlocked(s, s.workers[w].cand, w)
    case _ => true
  }

  predicate Enabled(s: State, a: Action)
    requires Wf(s)
  {
    match a
    case Tick(_) => true
    case Create(_, _) => true
    case Import(job, _, _, _, _) => job < |s.db.jobs|
    case SetStatus(job, status) => job < |s.db.jobs| && status != JobQueued && status != JobCompleted
    case Spawn(job) => job < |s.db.jobs|
    case By(w, op) => w < |s.workers| && Ready(s.db, s.workers[w], op) && LocksAllow(s, w, op)
  }

  predicate MoreLinks(me: Worker) {
    me.next < |me.links| && me.next < me.lim.maxCandidates && me.depth < me.lim.maxDepth
  }

  predicate Follows(server: Server, me: Worker)
    requires MoreLinks(me)
  {
    && me.links[me.next].valid
    && Hosts.InScope(me.links[me.next].domain, me.domain, server.allowSubdomains, server.allowExternal)
  }

  function ChildRow(me: Worker, now: nat): Candidate
    requires MoreLinks(me)
  {
    var l := me.links[me.next];
    NewRow(me.job, l.url, l.norm, l.domain, me.raw, 50, me.depth + 1, now)
  }

  function NextDb(server: Server, clock: nat, db: Db, me: Worker, op: Op): Db
    requires WorkerOk(server, db, me) && Ready(db, me, op)
  {
    match op
    case Commit(_) => Claim(db, me.cand, me.txNow + server.lease)
    case URLGate(_) => ConsumeURL(db, me.job)
    case FindOrAddDomain(_) => EnsureDomain(db, db.jobs[me.job].project, me.domain)
    case PageGate(_, seen) => ConsumePage(db, me.job, me.dom, seen)
    case SavePage(_, _, _) => UpsertPage(db, me.dom, me.pageURL)
    case Settle => SetCandidate(db, me.cand, me.verdict)
    case FollowLink => if MoreLinks(me) && Follows(server, me) then Insert(db, ChildRow(me, clock)) else db
    case RetryWrite(jitter) => Reschedule(db, me.cand, me.attempts, Jittered(me, clock, jitter))
    case Close => SetJob(db, me.job, JobCompleted)
    case _ => db
  }

  function Resume(after: After): Phase {
    match after
    case ToTop => AtTop
    case ToCount => AtCount
    case ToLinks => AtLinks
  }

  function Settling(me: Worker, verdict: CandidateStatus, after: After): Worker {
    me.(phase := Holds(AtSettle), verdict := verdict, after := after)
  }

  function Retrying(me: Worker, wait: Option<int>): Worker {
    me.(phase := Holds(AtRetryRead), wait := wait)
  }

  function AfterFetch(me: Worker, result: FetchResult): Worker {
    match result
    case Page(url, links) =>
      me.(phase := Holds(AtSavePage), pages := me.pages + 1, pageURL := url, links := links, next := 0)
    case TryLater(delay) => Retrying(me, Some(delay))
    case Rejected => Settling(me, FailedFinal, ToTop)
    case NetworkError => Retrying(me, None)
  }

  function AfterFault(me: Worker, cancelled: bool): Worker {
    match me.phase
    case AtBegin => me.(phase := if cancelled then Returned else AtCount)
    case AtSelect => me.(phase := if cancelled then Returned else AtCount)
    case AtCommit => me.(phase := if cancelled then Returned else AtCount)
    case Holds(AtURLGate) => me.(phase := Returned, dropped := me.dropped + 1)
    case Holds(AtRate) => me.(phase := Returned, dropped := me.dropped + 1)
    case Holds(AtLoadJob) => Retrying(me, None)
    case Holds(AtDomain) => Retrying(me, None)
    case Holds(AtProbe) => Retrying(me, None)
    case Holds(AtPageGate) => Retrying(me, None)
    case Holds(AtSavePage) => Retrying(me, None)
    case Holds(AtSettle) => me.(phase := Resume(me.after), dropped := me.dropped + 1)
    case AtLinks => if MoreLinks(me) then me.(next := me.next + 1) else me.(phase := AtTop)
    case Holds(AtRetryRead) => me.(phase := AtTop, dropped := me.dropped + 1)
    case Holds(AtRetryWrite) => me.(phase := AtTop, dropped := me.dropped + 1)
    case _ => me.(phase := Returned)
  }

  function NextWorker(server: Server, clock: nat, db: Db, me: Worker, op: Op): Worker
    requires WorkerOk(server, db, me) && Ready(db, me, op)
  {
    match op
    case CheckStatus =>
      if !(me.pages < me.lim.maxPages && me.processed < me.lim.maxURLs) then me.(phase := AtCount)
      else if Terminal(db.jobs[me.job].status) then me.(phase := Returned)
      else if db.jobs[me.job].status == JobPaused then me
      else me.(phase := AtBegin)
    case Begin => me.(phase := AtSelect, txNow := clock)
    case Lock(c) => me.(phase := AtCommit, cand := c)
    case NothingClaimable => me.(phase := AtCount)
    case Commit(ack) =>
      if !ack then me.(phase := AtCount)
      else
        var c := db.cands[me.cand];
        me.(phase := Holds(AtURLGate), processed := me.processed + 1, raw := c.url, domain := c.domain,
            depth := c.depth, lease := me.txNow + server.lease, claims := me.claims + 1)
    case URLGate(ack) =>
      if !ack then me.(phase := Returned, dropped := me.dropped + 1)
      else if URLGranted(db, me.job) then me.(phase := Holds(AtRate))
      else Settling(me, FailedFinal, ToCount)
    case RateGranted => me.(phase := Holds(AtLoadJob))
    case LoadJob => me.(phase := Holds(AtDomain), lim := Effective(db.jobs[me.job].config, me.lim))
    case FindOrAddDomain(ack) =>
      if !ack then Retrying(me, None)
      else me.(phase := Holds(AtProbe), dom := FindDomain(db.domains, db.jobs[me.job].project, me.domain))
    case Probe(active) =>
      if db.jobs[me.job].config.activeProbe && active then me.(phase := Holds(AtPageGate))
      else Settling(me, Completed, ToTop)
    case PageGate(ack, seen) =>
      if !ack then Retrying(me, None)
      else if PageGranted(db, me.job, seen) then me.(phase := Holds(AtFetch))
      else Settling(me, FailedFinal, ToTop)
    case Fetch(result, _) => AfterFetch(me, result)
    case SavePage(matched, deep, ack) =>
      if !ack then Retrying(me, None)
      else Settling(me, Completed, if matched && deep && db.jobs[me.job].config.linkDiscovery then ToLinks else ToTop)
    case Settle => me.(phase := Resume(me.after), settled := me.settled + 1)
    case FollowLink => if MoreLinks(me) then me.(next := me.next + 1) else me.(phase := AtTop)
    case RetryRead => me.(phase := Holds(AtRetryWrite), attempts := db.cands[me.cand].attempts)
    case RetryWrite(_) => me.(phase := AtTop, settled := me.settled + 1)
    case Count => me.(phase := if Sum(db.cands, OpenOf(me.job)) == 0 then AtClose else Returned)
    case Close => me.(phase := Returned)
    case Fault(cancelled) => AfterFault(me, cancelled)
    case Crash => me.(phase := Crashed, dropped := if me.phase.Holds? then me.dropped + 1 else me.dropped)
  }

  function NextHist(hist: seq<History>, me: Worker, op: Op): seq<History>
    requires me.job < |hist|
  {
    match op
    case Fetch(_, rendered) =>
      var h := hist[me.job];
      hist[me.job := h.(fetches := h.fetches + 1, renders := if rendered then h.renders + 1 else h.renders)]
    case _ => hist
  }

  function NextReclaims(reclaims: seq<nat>, before: Db, after: Db, me: Worker, op: Op): seq<nat>
    requires |reclaims| == |before.cands|
    requires op.Commit? ==> me.cand < |before.cands|
  {
    if op.Commit? && before.cands[me.cand].status == Processing then reclaims[me.cand := reclaims[me.cand] + 1]
    else if |after.cands| > |before.cands| then reclaims + [0]
    else reclaims
  }

  function Apply(s: State, a: Action): State
    requires Wf(s) && Enabled(s, a)
  {
    match a
    case Tick(elapsed) => s.(clock := s.clock + elapsed)
    case Create(project, config) => s.(db := CreateJob(s.db, project, config), hist := s.hist + [History(0, 0, 0)])
    case Import(job, url, norm, domain, priority) =>
      if HasKey(s.db.cands, job, norm) then s
      else s.(db := Insert(s.db, NewRow(job, url, norm, domain, "", priority, 0, s.clock)),
              hist := s.hist[job := s.hist[job].(imported := s.hist[job].imported + 1)],
              reclaims := s.reclaims + [0])
    case SetStatus(job, status) => s.(db := SetJob(s.db, job, status))
    case Spawn(job) => s.(workers := s.workers + [Started(job, s.server.limits)])
    case By(w, op) =>
      var me := s.workers[w];
      var db := NextDb(s.server, s.clock, s.db, me, op);
      s.(db := db, workers := s.workers[w := NextWorker(s.server, s.clock, s.db, me, op)],
         hist := NextHist(s.hist, me, op), reclaims := NextReclaims(s.reclaims, s.db, db, me, op))
  }

  // ---- what an operation does to the tables

  /** Of the job table, an operation writes at most the worker's own row. */
  lemma JobRowMoves(server: Server, clock: nat, db: Db, me: Worker, op: Op)
    requires WorkerOk(server, db, me) && Ready(db, me, op)
    ensures |NextDb(server, clock, db, me, op).jobs| == |db.jobs|
    ensures NextDb(server, clock, db, me, op).jobs == db.jobs[me.job := NextDb(server, clock, db, me, op).jobs[me.job]]
  {
  }

  predicate WritesRow(op: Op) {
    op.Commit? || op.Settle? || op.RetryWrite?
  }

  predicate InsertsChild(server: Server, db: Db, me: Worker, op: Op) {
    op.FollowLink? && MoreLinks(me) && Follows(server, me) && !HasKey(db.cands, me.job, me.links[me.next].norm)
  }

  /** One operation rewrites the mover's own row, appends one child row, or leaves the table alone. */
  lemma RowsMove(server: Server, clock: nat, db: Db, me: Worker, op: Op)
    requires WorkerOk(server, db, me) && Ready(db, me, op)
    ensures
      var db' := NextDb(server, clock, db, me, op);
      && (WritesRow(op) ==> me.cand < |db.cands| == |db'.cands| && SameRow(db.cands[me.cand], db'.cands[me.cand])
                            && db'.cands == db.cands[me.cand := db'.cands[me.cand]])
      && (InsertsChild(server, db, me, op) ==> db'.cands == db.cands + [ChildRow(me, clock)])
      && (!WritesRow(op) && !InsertsChild(server, db, me, op) ==> db'.cands == db.cands)
  {
  }

  // ---- well-formedness is kept

  lemma OpJobsGrow(server: Server, clock: nat, db: Db, me: Worker, op: Op)
    requires WorkerOk(server, db, me) && Ready(db, me, op)
    ensures JobsGrow(db.jobs, NextDb(server, clock, db, me, op).jobs)
  {
  }

  lemma OpDomainsGrow(server: Server, clock: nat, db: Db, me: Worker, op: Op)
    requires WorkerOk(server, db, me) && Ready(db, me, op)
    ensures DomainsGrow(db.domains, NextDb(server, clock, db, me, op).domains)
  {
  }

  lemma OpGrows(server: Server, clock: nat, db: Db, me: Worker, op: Op)
    requires WorkerOk(server, db, me) && Ready(db, me, op)
    ensures Grows(db, NextDb(server, clock, db, me, op))
  {
    OpJobsGrow(server, clock, db, me, op);
    OpDomainsGrow(server, clock, db, me, op);
    RowsMove(server, clock, db, me, op);
  }

  lemma ApplyGrows(s: State, a: Action)
    requires Wf(s) && Enabled(s, a)
    ensures Grows(s.db, Apply(s, a).db)
  {
    if a.By? {
      OpGrows(s.server, s.clock, s.db, s.workers[a.w], a.op);
    }
  }

  lemma WorkerOkGrows(server: Server, a: Db, b: Db, me: Worker)
    requires Grows(a, b) && WorkerOk(server, a, me)
    ensures WorkerOk(server, b, me)
  {
    assert SameJob(a.jobs[me.job], b.jobs[me.job]);
  }

  predicate ClaimOp(op: Op) {
    op.CheckStatus? || op.Begin? || op.Lock? || op.NothingClaimable? || op.Commit?
  }

  predicate GateOp(op: Op) {
    op.URLGate? || op.RateGranted? || op.LoadJob?
  }

  predicate HostOp(op: Op) {
    op.FindOrAddDomain? || op.Probe? || op.PageGate?
  }

  predicate PageOp(op: Op) {
    op.Fetch? || op.SavePage? || op.Settle? || op.FollowLink?
  }

  lemma ClaimMoverOk(server: Server, clock: nat, db: Db, me: Worker, op: Op)
    requires WorkerOk(server, db, me) && Ready(db, me, op)
    requires ClaimOp(op)
    ensures WorkerOk(server, NextDb(server, clock, db, me, op), NextWorker(server, clock, db, me, op))
  {
    OpGrows(server, clock, db, me, op);
    WorkerOkGrows(server, db, NextDb(server, clock, db, me, op), me);
  }

  lemma GateMoverOkLoad(server: Server, clock: nat, db: Db, after: Db, me: Worker, op: Op)
    requires WorkerOk(server, db, me) && Ready(db, me, op) && GateOp(op) && after == NextDb(server, clock, db, me, op)
    requires WorkerOk(server, after, me) && SameJob(db.jobs[me.job], after.jobs[me.job])
    requires op.LoadJob?
    ensures WorkerOk(server, after, NextWorker(server, clock, db, me, op))
  {
  }

  lemma GateMoverOk(server: Server, clock: nat, db: Db, after: Db, me: Worker, op: Op)
    requires WorkerOk(server, db, me) && Ready(db, me, op) && GateOp(op) && after == NextDb(server, clock, db, me, op)
    requires WorkerOk(server, after, me) && SameJob(db.jobs[me.job], after.jobs[me.job])
    ensures WorkerOk(server, after, NextWorker(server, clock, db, me, op))
  {
    if op.LoadJob? {
      GateMoverOkLoad(server, clock, db, after, me, op);
    }
  }

  lemma HostMoverOk(server: Server, clock: nat, db: Db, after: Db, me: Worker, op: Op)
    requires WorkerOk(server, db, me) && Ready(db, me, op) && HostOp(op) && after == NextDb(server, clock, db, me, op)
    requires WorkerOk(server, after, me) && SameJob(db.jobs[me.job], after.jobs[me.job])
    ensures WorkerOk(server, after, NextWorker(server, clock, db, me, op))
  {
  }

  lemma PageMoverOk(server: Server, clock: nat, db: Db, after: Db, me: Worker, op: Op)
    requires WorkerOk(server, db, me) && Ready(db, me, op) && PageOp(op)
    requires WorkerOk(server, after, me) && SameJob(db.jobs[me.job], after.jobs[me.job])
    ensures WorkerOk(server, after, NextWorker(server, clock, db, me, op))
  {
  }

  lemma FaultHolderOk(server: Server, clock: nat, db: Db, after: Db, me: Worker, op: Op)
    requires WorkerOk(server, db, me) && Ready(db, me, op) && op.Fault? && me.phase.Holds?
    requires WorkerOk(server, after, me) && SameJob(db.jobs[me.job], after.jobs[me.job])
    ensures WorkerOk(server, after, NextWorker(server, clock, db, me, op))
  {
  }

  lemma FaultMoverOk(server: Server, clock: nat, db: Db, after: Db, me: Worker, op: Op)
    requires WorkerOk(server, db, me) && Ready(db, me, op) && op.Fault? && !me.phase.Holds?
    requires WorkerOk(server, after, me) && SameJob(db.jobs[me.job], after.jobs[me.job])
    ensures WorkerOk(server, after, NextWorker(server, clock, db, me, op))
  {
  }

  lemma EndMoverOk(server: Server, clock: nat, db: Db, after: Db, me: Worker, op: Op)
    requires WorkerOk(server, db, me) && Ready(db, me, op)
    requires !ClaimOp(op) && !GateOp(op) && !HostOp(op) && !PageOp(op) && !op.Fault?
    requires WorkerOk(server, after, me) && SameJob(db.jobs[me.job], after.jobs[me.job])
    ensures WorkerOk(server, after, NextWorker(server, clock, db, me, op))
  {
  }

  lemma MoverOk(server: Server, clock: nat, db: Db, me: Worker, op: Op)
    requires WorkerOk(server, db, me) && Ready(db, me, op)
    ensures WorkerOk(server, NextDb(server, clock, db, me, op), NextWorker(server, clock, db, me, op))
  {
    var after := NextDb(server, clock, db, me, op);
    OpGrows(server, clock, db, me, op);
    WorkerOkGrows(server, db, after, me);
    if ClaimOp(op) {
      ClaimMoverOk(server, clock, db, me, op);
    } else if GateOp(op) {
      GateMoverOk(server, clock, db, after, me, op);
    } else if HostOp(op) {
      HostMoverOk(server, clock, db, after, me, op);
    } else if PageOp(op) {
      PageMoverOk(server, clock, db, after, me, op);
    } else if op.Fault? && me.phase.Holds? {
      FaultHolderOk(server, clock, db, after, me, op);
    } else if op.Fault? {
      FaultMoverOk(server, clock, db, after, me, op);
    } else {
      EndMoverOk(server, clock, db, after, me, op);
    }
  }

  lemma WorkerStaysOk(s: State, a: Action, v: nat)
    requires Wf(s) && Enabled(s, a) && v < |Apply(s, a).workers|
    ensures WorkerOk(s.server, Apply(s, a).db, Apply(s, a).workers[v])
  {
    ApplyGrows(s, a);
    if a.By? && v == a.w {
      MoverOk(s.server, s.clock, s.db, s.workers[v], a.op);
    } else if v < |s.workers| {
      WorkerOkGrows(s.server, s.db, Apply(s, a).db, s.workers[v]);
    }
  }

  lemma ApplyWf(s: State, a: Action)
    requires Wf(s) && Enabled(s, a)
    ensures Wf(Apply(s, a))
  {
    var t := Apply(s, a);
    ApplyGrows(s, a);
    forall v | 0 <= v < |t.workers|
      ensures WorkerOk(t.server, t.db, t.workers[v])
    {
      WorkerStaysOk(s, a, v);
    }
  }

  lemma JobKept(server: Server, clock: nat, db: Db, me: Worker, op: Op)
    requires WorkerOk(server, db, me) && Ready(db, me, op)
    ensures NextWorker(server, clock, db, me, op).job == me.job
  {
  }

  // ---- which operations touch the counters

  predicate PaysURL(db: Db, me: Worker, op: Op)
    requires me.job < |db.jobs|
  {
    op.URLGate? && URLGranted(db, me.job)
  }

  predicate PaysPage(db: Db, me: Worker, op: Op)
    requires me.job < |db.jobs|
  {
    op.PageGate? && PageGranted(db, me.job, op.seen)
  }

  lemma CountersMove(server: Server, clock: nat, db: Db, me: Worker, op: Op, j: nat)
    requires WorkerOk(server, db, me) && Ready(db, me, op) && j < |db.jobs|
    ensures
      var db' := NextDb(server, clock, db, me, op);
      && |db'.jobs| == |db.jobs|
      && db'.jobs[j].limits == db.jobs[j].limits
      && db'.jobs[j].project == db.jobs[j].project
      && db'.jobs[j].config == db.jobs[j].config
      && db'.jobs[j].processedURLs ==
         db.jobs[j].processedURLs + (if j == me.job && PaysURL(db, me, op) then 1 else 0)
      && db'.jobs[j].processedPages ==
         db.jobs[j].processedPages + (if j == me.job && PaysPage(db, me, op) then 1 else 0)
  {
  }

  // ---- runs

  /** A run: states[i + 1] follows from states[i] by actions[i]. */
  predicate Run(states: seq<State>, actions: seq<Action>) {
    && |states| == |actions| + 1
    && Wf(states[0])
    && forall i :: 0 <= i < |actions| ==>
         Wf(states[i]) && Enabled(states[i], actions[i]) && states[i + 1] == Apply(states[i], actions[i])
  }

  /** Run was called for job j. */
  predicate Manned(s: State, j: nat) {
    exists w :: 0 <= w < |s.workers| && s.workers[w].job == j
  }

  /** A fresh database and no workers yet. */
  predicate Init(s: State) {
    s.db == EMPTY && s.workers == [] && s.hist == [] && s.reclaims == []
  }

  lemma {:induction false} RunWf(states: seq<State>, actions: seq<Action>, i: nat)
    requires Run(states, actions) && i < |states|
    ensures Wf(states[i])
  {
    if i == 0 {
    } else {
      ApplyWf(states[i - 1], actions[i - 1]);
    }
  }
}
