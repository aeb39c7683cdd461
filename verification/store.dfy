/**
 * The Store of internal/store/store.go: tables as mutable fields, and methods that update rows in place.
 * Each method is proved to be the statement or transaction of module Database that the protocol uses.
 */
module Stores {
  import opened Basics
  import opened Database
  import opened Protocol

  class Store {
    var clock: nat
    var jobs: seq<Job>
    var cands: seq<Candidate>
    var domains: seq<Database.Domain>
    var pages: seq<PageRow>
    var dead: map<nat, nat>
    var locks: set<nat> // candidate rows locked by open claim transactions

    ghost function Value(): Db
      reads this
    {
      Db(jobs, cands, domains, pages, dead)
    }

    constructor ()
      ensures Value() == EMPTY && clock == 0 && locks == {}
    {
      clock, jobs, cands, domains, pages, dead, locks := 0, [], [], [], [], map[], {};
    }

    method CreateDiscoveryJobWithConfig(project: string, config: JobConfig) returns (id: nat)
      modifies this`jobs
      ensures id == |old(jobs)| && Value() == CreateJob(old(Value()), project, config)
    {
      id := |jobs|;
      jobs := jobs + [Job(project, config, Effective(config, COLUMN_DEFAULTS), JobQueued, 0, 0)];
    }

    method SetJobStatus(id: nat, status: JobStatus)
      requires id < |jobs|
      modifies this`jobs
      ensures Value() == SetJob(old(Value()), id, status)
    {
      if !Terminal(jobs[id].status) {
        jobs := jobs[id := jobs[id].(status := status)];
      }
    }

    // ---- candidates

    method UpsertCandidateDepth(row: Candidate)
      modifies this`cands
      ensures Value() == Insert(old(Value()), row)
    {
      var i := 0;
      while i < |cands|
        invariant 0 <= i <= |cands|
        invariant forall k :: 0 <= k < i ==> !(cands[k].job == row.job && cands[k].norm == row.norm)
      {
        if cands[i].job == row.job && cands[i].norm == row.norm {
          return;
        }
        i := i + 1;
      }
      cands := cands + [row];
    }

    /** Claimable and not locked, and first by priority and then by age among such rows. */
    ghost predicate First(job: nat, now: nat, c: nat)
      reads this
    {
      && c < |cands| && Claimable(cands[c], job, now) && c !in locks
      && forall k :: 0 <= k < |cands| && k != c && Claimable(cands[k], job, now) && k !in locks ==>
           cands[k].priority < cands[c].priority || (cands[k].priority == cands[c].priority && c < k)
    }

    /** ORDER BY priority DESC, discovered_at FOR UPDATE SKIP LOCKED LIMIT 1. */
    method SelectForUpdate(job: nat, now: nat) returns (r: Option<nat>)
      modifies this`locks
      ensures r.None? ==> locks == old(locks)
      ensures r.None? ==> forall k :: 0 <= k < |cands| && Claimable(cands[k], job, now) ==> k in locks
      ensures r.Some? ==> old(First(job, now, r.value)) && locks == old(locks) + {r.value}
    {
      r := None;
      var i := 0;
      while i < |cands|
        invariant 0 <= i <= |cands| && locks == old(locks)
        invariant r.None? ==> forall k :: 0 <= k < i && Claimable(cands[k], job, now) ==> k in locks
        invariant r.Some? ==> r.value < i && Claimable(cands[r.value], job, now) && r.value !in locks
        invariant r.Some? ==> forall k :: 0 <= k < i && k != r.value && Claimable(cands[k], job, now) && k !in locks ==>
                    cands[k].priority < cands[r.value].priority
                    || (cands[k].priority == cands[r.value].priority && r.value < k)
      {
        if Claimable(cands[i], job, now) && i !in locks && (r.None? || cands[i].priority > cands[r.value].priority) {
          r := Some(i);
        }
        i := i + 1;
      }
      if r.Some? {
        locks := locks + {r.value};
      }
    }

    /** UPDATE and COMMIT of the claim transaction. */
    method CommitClaim(c: nat, leaseUntil: nat)
      requires c < |cands| && c in locks
      modifies this`cands, this`locks
      ensures Value() == Claim(old(Value()), c, leaseUntil) && locks == old(locks) - {c}
    {
      cands := cands[c := Claimed(cands[c], leaseUntil)];
      locks := locks - {c};
    }

    method Rollback(c: nat)
      modifies this`locks
      ensures locks == old(locks) - {c}
    {
      locks := locks - {c};
    }

    method SetCandidateStatus(id: nat, status: CandidateStatus)
      requires id < |cands|
      modifies this`cands
      ensures Value() == SetCandidate(old(Value()), id, status)
    {
      cands := cands[id := cands[id].(status := status, leaseUntil := None)];
    }

    method DeadLetter(id: nat, n: nat)
      requires id < |cands| && n >= 3
      modifies this`cands, this`dead
      ensures forall next :: Value() == Reschedule(old(Value()), id, n, next)
    {
      dead := dead[id := n];
      cands := cands[id := cands[id].(status := FailedFinal, leaseUntil := None)];
    }

    method PutOff(id: nat, n: nat, next: nat)
      requires id < |cands| && n < 3
      modifies this`cands
      ensures Value() == Reschedule(old(Value()), id, n, next)
    {
      cands := cands[id := cands[id].(status := FailedRetryable, leaseUntil := None, nextAttempt := next)];
    }

    /**
     * The write of ScheduleRetry, n being the attempt count it read before; random stands for the value
     * behind rand.Int64N.
     */
    method WriteRetry(id: nat, n: nat, random: nat) returns (ghost jitter: nat)
      requires id < |cands| && n >= 1
      modifies this`cands, this`dead
      ensures jitter <= RetryBase(n) && Value() == Reschedule(old(Value()), id, n, clock + jitter)
    {
      jitter := 0;
      if n >= 3 {
        DeadLetter(id, n);
      } else {
        var base := 1000 * Pow2(n - 1);
        if base > 30000 {
          base := 30000;
        }
        var delay := random % (base + 1);
        PutOff(id, n, clock + delay);
        jitter := delay;
      }
    }

    /** The write of ScheduleRetryAfter. */
    method WriteRetryAfter(id: nat, n: nat, delay: int)
      requires id < |cands|
      modifies this`cands, this`dead
      ensures Value() == Reschedule(old(Value()), id, n, clock + ClampDelay(delay))
    {
      if n >= 3 {
        DeadLetter(id, n);
      } else {
        var wait := delay;
        if wait < 1000 {
          wait := 1000;
        }
        if wait > 30000 {
          wait := 30000;
        }
        PutOff(id, n, clock + wait);
      }
    }

    // ---- budgets

    method ConsumeURLBudget(id: nat) returns (ok: bool)
      requires id < |jobs|
      modifies this`jobs
      ensures ok == URLGranted(old(Value()), id) && Value() == ConsumeURL(old(Value()), id)
    {
      var job := jobs[id];
      ok := job.processedURLs < job.limits.maxURLs && !Terminal(job.status);
      if ok {
        jobs := jobs[id := job.(processedURLs := job.processedURLs + 1)];
      }
    }

    /** seen is the domain's crawl_pages when the first statement took its snapshot. */
    method ConsumePageBudget(id: nat, d: nat, seen: nat) returns (ok: bool)
      requires id < |jobs| && d < |domains|
      modifies this`jobs, this`domains
      ensures ok == PageGranted(old(Value()), id, seen) && Value() == ConsumePage(old(Value()), id, d, seen)
    {
      var job, dom := jobs[id], domains[d];
      ok := job.processedPages < job.limits.maxPages && !Terminal(job.status) && seen < job.limits.maxPages;
      if ok {
        jobs := jobs[id := job.(processedPages := job.processedPages + 1)];
        domains := domains[d := dom.(crawlPages := dom.crawlPages + 1)];
      }
    }

    /** Counts the open candidates of a job. */
    method CountOpen(job: nat) returns (n: nat)
      ensures n == Sum(cands, OpenOf(job))
    {
      n := 0;
      var i := 0;
      while i < |cands|
        invariant 0 <= i <= |cands| && n == Sum(cands[..i], OpenOf(job))
      {
        SumAppend(cands[..i], cands[i], OpenOf(job));
        assert cands[..i + 1] == cands[..i] + [cands[i]];
        if cands[i].job == job && Open(cands[i].status) {
          n := n + 1;
        }
        i := i + 1;
      }
      assert cands[..i] == cands;
    }

    // ---- domains, pages, time

    method EnsureDomainRow(project: string, name: string) returns (d: nat)
      modifies this`domains
      ensures d == FindDomain(old(domains), project, name) < |domains|
      ensures Value() == EnsureDomain(old(Value()), project, name)
    {
      d := 0;
      while d < |domains|
        invariant 0 <= d <= |domains|
        invariant forall i :: 0 <= i < d ==> !(domains[i].project == project && domains[i].name == name)
      {
        if domains[d].project == project && domains[d].name == name {
          return;
        }
        d := d + 1;
      }
      domains := domains + [Database.Domain(project, name, 0)];
    }

    method UpsertPageRow(d: nat, url: string)
      modifies this`pages
      ensures Value() == UpsertPage(old(Value()), d, url)
      ensures PageRow(d, url) in pages && old(pages) <= pages && |pages| <= |old(pages)| + 1
      ensures pages == old(pages) <==> PageRow(d, url) in old(pages)
    {
      if PageRow(d, url) !in pages {
        pages := pages + [PageRow(d, url)];
      }
    }

    method Sleep(elapsed: nat)
      modifies this`clock
      ensures clock == old(clock) + elapsed
    {
      clock := clock + elapsed;
    }
  }
}
