/**
 * The tables of the migrations directory that the work queue uses, and one function per SQL statement or
 * transaction of internal/store/store.go that writes them. A table is a sequence of rows; rows are
 * never deleted, so a row's position is its id and its rank by discovered_at. Times are milliseconds.
 */
module Database {
  import opened Basics

  datatype JobStatus = JobQueued | JobRunning | JobPaused | JobCompleted | JobFailed | JobCancelled

  predicate Terminal(status: JobStatus) {
    status == JobCompleted || status == JobFailed || status == JobCancelled
  }

  datatype Limits = Limits(maxPages: nat, maxURLs: nat, maxDepth: nat, maxCandidates: nat)

  /** What a job's config column may say; an absent key is None. */
  datatype JobConfig = JobConfig(maxPages: Option<int>, maxURLs: Option<int>, maxDepth: Option<int>,
                                 maxCandidates: Option<int>, linkDiscovery: bool, activeProbe: bool)

  function Chosen(requested: Option<int>, least: nat, fallback: nat): nat {
    if requested.Some? && requested.value >= least then requested.value else fallback
  }

  function Effective(config: JobConfig, fallback: Limits): Limits {
    Limits(Chosen(config.maxPages, 1, fallback.maxPages), Chosen(config.maxURLs, 1, fallback.maxURLs),
           Chosen(config.maxDepth, 0, fallback.maxDepth), Chosen(config.maxCandidates, 1, fallback.maxCandidates))
  }

  const COLUMN_DEFAULTS := Limits(100, 500, 3, 50)

  datatype Job = Job(project: string, config: JobConfig, limits: Limits, status: JobStatus,
                     processedPages: nat, processedURLs: nat)

  datatype CandidateStatus = New | Queued | Processing | FailedRetryable | Completed | FailedFinal

  datatype Candidate = Candidate(job: nat, url: string, norm: string, domain: string, parent: string,
                                 priority: int, depth: nat, status: CandidateStatus, attempts: nat,
                                 nextAttempt: nat, leaseUntil: Option<nat>)

  datatype Domain = Domain(project: string, name: string, crawlPages: nat)

  datatype PageRow = PageRow(dom: nat, url: string)

  datatype Db = Db(jobs: seq<Job>, cands: seq<Candidate>, domains: seq<Domain>, pages: seq<PageRow>,
                   dead: map<nat, nat>)

  const EMPTY := Db([], [], [], [], map[])

  // ---- candidates

  predicate Open(status: CandidateStatus) {
    status != Completed && status != FailedFinal
  }

  /** The WHERE clause of ClaimCandidate, at transaction time now. */
  predicate Claimable(c: Candidate, job: nat, now: nat) {
    && c.job == job
    && (|| ((c.status == New || c.status == Queued || c.status == FailedRetryable) && c.nextAttempt <= now)
        || (c.status == Processing && c.leaseUntil.Some? && c.leaseUntil.value < now))
  }

  function Claimed(c: Candidate, leaseUntil: nat): Candidate {
    c.(status := Processing, attempts := c.attempts + 1, leaseUntil := Some(leaseUntil))
  }

  function Claim(db: Db, c: nat, leaseUntil: nat): Db
    requires c < |db.cands|
  {
    db.(cands := db.cands[c := Claimed(db.cands[c], leaseUntil)])
  }

  /** SetCandidateStatus: no condition on the row's present status or lease. */
  function SetCandidate(db: Db, c: nat, status: CandidateStatus): Db
    requires c < |db.cands|
  {
    db.(cands := db.cands[c := db.cands[c].(status := status, leaseUntil := None)])
  }

  /** The longest random back-off of ScheduleRetry after n attempts, capped at 30 s. */
  function RetryBase(n: nat): nat
    requires n >= 1
  {
    Min(1000 * Pow2(n - 1), 30000)
  }

  function Pow2(n: nat): nat {
    if n == 0 then 1 else 2 * Pow2(n - 1)
  }

  function ClampDelay(delay: int): nat {
    if delay < 1000 then 1000 else if delay > 30000 then 30000 else delay
  }

  /** The write half of ScheduleRetry and ScheduleRetryAfter, for the attempt count n read before. */
  function Reschedule(db: Db, c: nat, n: nat, nextAttempt: nat): Db
    requires c < |db.cands|
  {
    if n >= 3 then
      SetCandidate(db, c, FailedFinal).(dead := db.dead[c := n])
    else
      db.(cands := db.cands[c := db.cands[c].(status := FailedRetryable, leaseUntil := None,
                                             nextAttempt := nextAttempt)])
  }

  predicate HasKey(cands: seq<Candidate>, job: nat, norm: string) {
    exists i :: 0 <= i < |cands| && cands[i].job == job && cands[i].norm == norm
  }

  /** INSERT ... ON CONFLICT(discovery_job_id,normalized_url) DO NOTHING. */
  function Insert(db: Db, row: Candidate): Db {
    if HasKey(db.cands, row.job, row.norm) then db else db.(cands := db.cands + [row])
  }

  function NewRow(job: nat, url: string, norm: string, domain: string, parent: string, priority: int,
                  depth: nat, now: nat): Candidate {
    Candidate(job, url, norm, domain, parent, priority, depth, New, 0, now, None)
  }

  function OfJob(job: nat): Candidate -> nat {
    (c: Candidate) => if c.job == job then 1 else 0
  }

  function OpenOf(job: nat): Candidate -> nat {
    (c: Candidate) => if c.job == job && Open(c.status) then 1 else 0
  }

  // ---- jobs

  function CreateJob(db: Db, project: string, config: JobConfig): Db {
    db.(jobs := db.jobs + [Job(project, config, Effective(config, COLUMN_DEFAULTS), JobQueued, 0, 0)])
  }

  function SetJob(db: Db, j: nat, status: JobStatus): Db
    requires j < |db.jobs|
  {
    if Terminal(db.jobs[j].status) then db
    else db.(jobs := db.jobs[j := db.jobs[j].(status := status)])
  }

  predicate URLGranted(db: Db, j: nat)
    requires j < |db.jobs|
  {
    db.jobs[j].processedURLs < db.jobs[j].limits.maxURLs && !Terminal(db.jobs[j].status)
  }

  function ConsumeURL(db: Db, j: nat): Db
    requires j < |db.jobs|
  {
    if URLGranted(db, j) then db.(jobs := db.jobs[j := db.jobs[j].(processedURLs := db.jobs[j].processedURLs + 1)])
    else db
  }

  /**
   * The WHERE clause of ConsumePageBudget's first statement. It locks the job's row, and so sees its present
   * value, but takes the domain's crawl_pages from its snapshot; seen is that value.
   */
  predicate PageGranted(db: Db, j: nat, seen: nat)
    requires j < |db.jobs|
  {
    && db.jobs[j].processedPages < db.jobs[j].limits.maxPages
    && !Terminal(db.jobs[j].status)
    && seen < db.jobs[j].limits.maxPages
  }

  function ConsumePage(db: Db, j: nat, d: nat, seen: nat): Db
    requires j < |db.jobs| && d < |db.domains|
  {
    if PageGranted(db, j, seen) then
      db.(jobs := db.jobs[j := db.jobs[j].(processedPages := db.jobs[j].processedPages + 1)],
          domains := db.domains[d := db.domains[d].(crawlPages := db.domains[d].crawlPages + 1)])
    else db
  }

  // ---- domains and pages

  /** The position of the row (project, name), or the length of the table if there is none. */
  function FindDomain(domains: seq<Domain>, project: string, name: string): (d: nat)
    ensures d <= |domains|
    ensures d < |domains| ==> domains[d].project == project && domains[d].name == name
    ensures forall i :: 0 <= i < d ==> !(domains[i].project == project && domains[i].name == name)
  {
    if domains == [] then 0
    else
      var d := FindDomain(domains[..|domains| - 1], project, name);
      if d < |domains| - 1 then d
      else if domains[d].project == project && domains[d].name == name then d else d + 1
  }

  function EnsureDomain(db: Db, project: string, name: string): Db {
    if FindDomain(db.domains, project, name) < |db.domains| then db
    else db.(domains := db.domains + [Domain(project, name, 0)])
  }

  predicate HasPage(pages: seq<PageRow>, d: nat, url: string) {
    PageRow(d, url) in pages
  }

  function UpsertPage(db: Db, d: nat, url: string): Db {
    if HasPage(db.pages, d, url) then db else db.(pages := db.pages + [PageRow(d, url)])
  }

  // ---- what no statement changes

  predicate SameJob(a: Job, b: Job) {
    a.project == b.project && a.config == b.config && a.limits == b.limits
  }

  predicate SameRow(a: Candidate, b: Candidate) {
    && a.job == b.job && a.url == b.url && a.norm == b.norm && a.domain == b.domain
    && a.parent == b.parent && a.depth == b.depth && a.attempts <= b.attempts
  }

  predicate JobsGrow(a: seq<Job>, b: seq<Job>) {
    |a| <= |b| && forall j :: 0 <= j < |a| ==> SameJob(a[j], b[j])
  }

  predicate CandsGrow(a: seq<Candidate>, b: seq<Candidate>) {
    |a| <= |b| && forall c :: 0 <= c < |a| ==> SameRow(a[c], b[c])
  }

  predicate DomainsGrow(a: seq<Domain>, b: seq<Domain>) {
    && |a| <= |b|
    && forall d :: 0 <= d < |a| ==>
         a[d].project == b[d].project && a[d].name == b[d].name && a[d].crawlPages <= b[d].crawlPages
  }

  /** Rows keep their place and their identifying columns; attempt and page counts only grow. */
  predicate Grows(a: Db, b: Db) {
    JobsGrow(a.jobs, b.jobs) && CandsGrow(a.cands, b.cands) && DomainsGrow(a.domains, b.domains)
  }
}
