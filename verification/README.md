# Crawl engine: verified model

The engine crawls shops for a discovery job. Many workers, in one process or several, share a PostgreSQL
database: they claim candidate URLs under a lease, spend a job-wide URL budget and a page budget per job and
domain, wait for a per-domain rate limiter, probe and fetch, dispose of the candidate (completed, put off, or
dead letter), insert the links of the page as new candidates, and try to close the job, while HTTP handlers
create, pause, resume, cancel and feed jobs. This project models that protocol and the self-contained
algorithms around it, and proves what they guarantee.

`dafny verify dfyconfig.toml` checks everything.

## How the model is built

- `database.dfy`, `protocol.dfy`: the tables, one function per SQL statement or transaction, and the queue as a
  state machine. A state holds the clock, the tables and any number of workers, each with its place in `Run` and
  its locals. One action is one statement or transaction, or one outside outcome: a probe result, a fetch
  result, a database error before or after a commit took effect, a crash, the passing of time, a handler's
  status write, an import. The claim is three steps (BEGIN, SELECT FOR UPDATE SKIP LOCKED, UPDATE and COMMIT),
  so row locks, the transaction time behind `now()` and stale workers are part of it; reading an attempt count
  and writing the retry are two steps, and so are counting open candidates and setting the job completed. The
  page budget tests the domain's counter as its statement's snapshot had it, which may be outdated.
  A *run* is any sequence of enabled actions; results quantify over all of them.
- `budget.dfy`, `frontier.dfy`, `conservation.dfy`, `lease.dfy`, `provenance.dfy`, `terminal.dfy`,
  `completion.dfy`, `completion_limits.dfy`, `lease_limits.dfy`, `quiescence.dfy`, `switches.dfy`: invariants of
  that machine over whole runs, and the runs that break what does not hold.
- `turns.dfy`, `outcomes.dfy`, `saved.dfy`, `links.dfy`: what one worker's consecutive steps come to, with anything
  in between: which row is written, with what in it and at what time, from the claim to the disposition.
- `store.dfy`, `runner.dfy`: `Store` with mutable tables and `Run` as the loop it is. Each Store method is proved
  equal to its table function, and each stretch of `Run` to take exactly one protocol step, with arbitrary
  steps of others in between, so results about runs hold of the loop.
- `ratelimit.dfy`, `pagecap.dfy`: the limiter and the page budget as machines of their own, with transactions
  of several statements. `ratecaller.dfy` has the limiter's loop over its table, held apart from the Store because
  nothing else uses it; each of its statements is proved to be one step of the limiter's machine.
- `linkwalk.dfy`, `sitemap.dfy`, `urlnorm.dfy`, `discovery.dfy`, `retry.dfy`, `jobs.dfy`, `migrate.dfy`: the
  algorithms that stand alone. `hosts.dfy`, `ordering.dfy`, `basics.dfy`: host names, string order, sums.

What does not hold in general is stated exactly, with an input or a run that shows it.

- Disposition writes carry no lease check (`WHERE id=$1`, internal/store/store.go:22). Exclusive ownership is
  proved for *timely* runs, in which a worker writes an outcome only while its lease lasts;
  `LeaseLimits.ExclusionExact` and `LeaseLimits.FinalityExact` say that without this only a job with a single
  call of Run has it. Budgets, frontier, conservation, provenance and frozen jobs need no such assumption.
- A page's candidate is completed (end of internal/worker/worker.go:20) before its links are inserted (line 21),
  and importing checks no job status. "A completed job has no open candidate" is therefore false in general;
  `CompletionLimits.CompletionExact` says exactly which ways of running a job make it true.
- ConsumePageBudget locks the job's row but reads the domain's counter from a snapshot
  (internal/store/store.go:84). The largest max_pages of a project's jobs therefore bounds a domain's crawl_pages
  only if a single job of the project charges pages; the bound that always holds, and is attained, is the sum
  of the limits (`PageCap.CapExact`, `PageCap.CapNeedsOneJob`).
- A Retry-After is honoured within 1 to 30 s except where 64-bit nanoseconds wrap: `Retry.SecondsExact` and
  `Retry.DateExact` give the values, `Retry.HugeRetryAfterWraps` one of each kind.
- The back-off loop jumps to MaxDelay when a doubling would land on MaxDelay - 1; the contract of `Retry.Delay`
  says exactly when that differs from the exponential delay (only by one nanosecond, and never for an even
  MaxDelay).

Where documentation and code differ the model follows the code: docs/API-CONTRACT.md:88 lists a job status
`completed_with_errors` that no statement writes and omits `paused`, which exists.

## Model

| member | source | states |
|---|---|---|
| `Budget.BudgetChain` | internal/store/store.go:83-84 | in every reachable state: renders <= fetches <= processed_pages <= processed_urls <= max_urls, and processed_pages <= max_pages, with crashes, lost acknowledgements, expired leases and stale workers |
| `Budget.ChainStep` | internal/worker/worker.go:12-19 | the inductive form, which adds to each counter the workers that hold a grant and have not used it |
| `Budget.FetchPaid` | internal/worker/worker.go:19 | no fetch begins without a page grant, and no render without a fetch |
| `Budget.PagePaid` | internal/worker/worker.go:12-19 | no page grant is taken without a URL grant, on any path through the loop body |
| `Frontier.FrontierBound` | internal/worker/worker.go:19-21 | a job's candidates never outnumber outside inserts plus max_candidates_per_page for each processed page, hence for max_pages; crawling and discovering is finite |
| `Frontier.AllowanceMove` | internal/worker/worker.go:19-21 | each child row is paid for out of the remaining allowance of one granted page |
| `Conservation.PageConservation` | internal/store/store.go:76-84 | crawl_pages over a project's domains sums to processed_pages over its jobs, outdated readings or not; a domain has at most crawl_pages page rows; crawl_pages stays within the sum of the max_pages of the project's jobs |
| `Conservation.CapWhenFresh` | internal/store/store.go:84 | as long as no page gate reads an outdated counter, crawl_pages stays within the largest max_pages of the project's jobs |
| `PageCap.CapExact` | internal/store/store.go:84 | with the two statements of ConsumePageBudget apart, a cap on a domain's counter holds in all runs if and only if it is at least the sum of the limits of the jobs that charge pages |
| `PageCap.CapNeedsOneJob` | internal/store/store.go:84 | the largest of those limits is such a cap if and only if a single job charges pages |
| `PageCap.CountersAgree` | internal/store/store.go:84 | committed counters of domains and jobs come to the same sum in every state, and within all the limits together |
| `PageCap.InvStep` | internal/store/store.go:84 | row locks keep the two statements from losing an update, whatever the snapshots |
| `PageCap.Committed` | internal/store/store.go:84 | a run in which every job spends its whole limit at one domain, all snapshots being taken first |
| `Conservation.CrawlMove` | internal/store/store.go:84 | the domain that pays for a page belongs to the project of the job that pays |
| `Conservation.RowPaid` | internal/worker/worker.go:19-20 | a page row is only written out of a page grant not yet used for one |
| `SavedPages.OneRowPerPage` | internal/store/store.go:76 | no two page rows are equal, in any state of any run |
| `SavedPages.SavedStays` | internal/worker/worker.go:20 | what a save wrote, acknowledged or not, is in the table of every later state |
| `SavedPages.FetchedIsSaved` | internal/worker/worker.go:19-20 | a page fetched and then saved has a row from then on: the fetched URL under the domain row of its candidate's domain in the job's project |
| `SavedPages.UpsertedPage` | internal/store/store.go:76 | the upsert leaves the row in the table, all old rows in place and at most one more, and changes nothing exactly if the row was there |
| `Switches.ProbingOff` | internal/worker/worker.go:17 | a job with active probing off never counts a page, begins a fetch or a render, in any run |
| `Switches.LinksOff` | internal/worker/worker.go:20-21 | every candidate of a job with link discovery off came from outside, in any run |
| `Lease.LeaseExclusion` | internal/store/store.go:14-22 | in timely runs a live claim is the one its row records, and no two workers hold live claims on one candidate |
| `Lease.OutcomesAreFinal` | internal/store/store.go:17-22 | in timely runs a completed or failed_final row never changes again |
| `Lease.AttemptBound` | internal/store/store.go:23-31 | failed_retryable means one or two attempts; attempts <= 3 + lease take-overs; a dead letter exists only for a failed_final row with the same count, at least 3 |
| `Lease.RetryDelay` | internal/store/store.go:23-36 | dead letter exactly from the third attempt on; otherwise at most 1 s after the first and 2 s after the second attempt, so the 30 s cap is never reached, or 1 to 30 s on a Retry-After |
| `Outcomes.ClaimTaken` | internal/store/store.go:14-21 | a claim from BEGIN to COMMIT: the row was due at BEGIN, is processing with one attempt more, and is leased for exactly the server's lease from BEGIN |
| `Outcomes.ClaimableExact` | internal/store/store.go:17 | a row can be claimed if and only if it is new, queued or put off and its time has come, or processing under a lease that has run out |
| `Outcomes.AdviceKept` | internal/worker/worker.go:19 | from a fetch answered with a delay to the row: the next attempt is the time of the retry write plus that delay, 1 s if it is shorter, 30 s if it is longer; a third attempt is dead-lettered |
| `Outcomes.PutOffAtRandom` | internal/worker/worker.go:14-20 | after any other failure that puts a candidate off, the next attempt is at most 1 s after the retry write if it was the first and 2 s if it was the second; a third attempt is dead-lettered |
| `Outcomes.RetryWritten` | internal/store/store.go:23-36 | the retry write decides on the attempt count of the read before it |
| `Outcomes.DelaysDrawn` | internal/store/store.go:36 | exactly the delays from 0 to 1 s after one attempt, and to 2 s after two, can be drawn |
| `Outcomes.Decided` | internal/worker/worker.go:12-20 | refused budgets and rejected fetches end as failed_final, an inactive or unprobed host and a saved page as completed; where the worker goes next |
| `Outcomes.GatesDecide` | internal/worker/worker.go:12-19 | the URL budget, the probe and the page budget let a candidate pass exactly below their limits, on a job not over, and with an active host and probing on |
| `Outcomes.CallCounts` | internal/worker/worker.go:6-20 | the two counters of the loop guard are, in every run, the pages this call has fetched and the claims it was told of |
| `Outcomes.FinishDecides` | internal/store/store.go:73 | the count goes on to the close exactly if every candidate of the job is completed or failed_final, and the close writes completed unless the job is over |
| `Outcomes.StatusWritten` | internal/store/store.go:10 | pause, resume and cancel write the status of a job not over, and nothing else |
| `Lease.BackoffRespected` | internal/store/store.go:17 | no claim of a put-off candidate precedes its next_attempt_at, and nothing else touches the row meanwhile |
| `Lease.OneDispositionPerTurn` | internal/worker/worker.go:11-21 | in every run each claim of a worker that left its loop body was settled or dropped, exactly once; without faults of its own a worker settled them all |
| `Lease.AccountedMove` | internal/worker/worker.go:12-20 | every exit of the loop body settles its claim or drops it, never both or twice |
| `Lease.InvStep` | internal/store/store.go:14-36 | the lease invariant (live claims match their rows, locks and claims are exclusive, rows and dead letters agree) survives every timely action |
| `LeaseLimits.ExclusionExact` | internal/store/store.go:14-22 | no two workers of a job ever hold live claims on one candidate, in all runs, if and only if writes are timely or Run is called only once for the job |
| `LeaseLimits.FinalityExact` | internal/store/store.go:22 | no action ever changes a completed or failed_final candidate, in all runs, under exactly the same condition |
| `LeaseLimits.LateWriteBreaks` | internal/store/store.go:22-36 | a late retry write reopens a candidate under another worker's live claim, and its writer claims it again |
| `LeaseLimits.UnguardedReopens` | internal/store/store.go:36 | a late retry write reopens a completed candidate |
| `LeaseLimits.RunHoldsOpen` | internal/worker/worker.go:11-20 | the only worker of a job never holds or locks a candidate that is not open, timely or not |
| `Provenance.ProvenanceHolds` | internal/store/store.go:12 | keys are unique per job, depth <= max_depth, and every candidate has a chain of exactly depth parents, each one level up in the same job, that ends at a seed |
| `Provenance.ScopeClosure` | internal/worker/worker.go:21-25 | with external links off the domain of every candidate of every run, in lower case and without a trailing dot, equals that of a seed of its job or, if subdomains are allowed, is longer, ends in it and has a dot just before it |
| `Provenance.Ancestors` | internal/store/store.go:12 | the parent chain can be followed and is well-founded, although conflicting inserts are ignored |
| `Links.LinksFollowed` | internal/worker/worker.go:21 | when a worker is back from the link loop of a page without an error, each of the page's first max_candidates_per_page links that is valid and in scope has its candidate in the job, unless the page is at max_depth |
| `Links.FoundRow` | internal/worker/worker.go:21 | one link adds exactly one new row, at priority 50, one level below its page, due at once, if it is wanted and its key is new, and nothing otherwise |
| `Links.SeedRow` | internal/store/store.go:11-12 | an import adds exactly one row at depth 0 without parent, or nothing if the job has the key |
| `Hosts.SubdomainTransitive` | internal/worker/worker.go:25 | isSubdomain is transitive |
| `Hosts.SubdomainIrreflexive` | internal/worker/worker.go:25 | no host is its own subdomain |
| `Hosts.SubdomainAsymmetric` | internal/worker/worker.go:25 | of two hosts at most one is below the other |
| `Hosts.InScopeStaysWithin` | internal/worker/worker.go:21 | a link followed from a page at a seed's name, or at one that ends in it after a dot, is at such a name too |
| `Hosts.SubdomainExact` | internal/worker/worker.go:25 | isSubdomain holds if and only if the one canonical host is something, a dot and the other |
| `Hosts.InScopeExact` | internal/worker/worker.go:21 | which links are followed, without isSubdomain: a name that ends in the page's after a dot needs subdomains to be allowed, and any other that is not the page's own, case aside, external links |
| `Hosts.LabelBoundary` | internal/worker/worker.go:21-25 | for every name and everything written before it: followed as a subdomain exactly if a dot comes between |
| `Hosts.NotBelow` | internal/worker/worker.go:21-25 | notshop.com is not followed from a page of shop.com |
| `Hosts.OneBelow` | internal/worker/worker.go:21-25 | a.shop.com is |
| `Hosts.CanonicalExact` | internal/worker/worker.go:25 | the form compared is the host in lower case without one trailing dot |
| `Hosts.LowerExact` | internal/worker/worker.go:25 | lower case moves the capital letters and keeps every other character |
| `TerminalJobs.TerminalFrozen` | internal/store/store.go:10 | once a job is completed, failed or cancelled its row never changes; fetches begun later number at most the page grants then held, and claims at most the workers then past the status check |
| `TerminalJobs.OverStep` | internal/httpapi/http.go:53-69 | no single action, handlers and new workers included, changes a terminal job or adds to what may still be fetched for it |
| `TerminalJobs.PauseHolds` | internal/worker/worker.go:10 | while a job is paused its workers, old and new, claim at most as often as there were workers past the status check and inside a claim when the pause began; over any stretch of any run |
| `TerminalJobs.StatusDecides` | internal/worker/worker.go:8-10 | below the limits of its call a worker at the top goes on to claim exactly if the job is queued or running, changes nothing exactly if it is paused, and returns exactly if it is over |
| `CompletionLimits.CompletionExact` | internal/store/store.go:73 | a completed job never has an open candidate, in all runs of a regime, if and only if the job has one worker and no import after it started, or no such import, links off and timely writes |
| `CompletionLimits.SafeIsSound` | internal/worker/worker.go:8-23 | the positive half, retries and link discovery included, over whole runs |
| `CompletionLimits.UnsafeIsUnsound` | internal/worker/worker.go:20-21 | the negative half: every other regime has a run that leaves an open candidate in a completed job |
| `CompletionLimits.LinksBreak` | internal/worker/worker.go:20-21 | a second worker can complete the job between a page's completion and the insertion of its links |
| `CompletionLimits.ImportBreaks` | internal/httpapi/http.go:54 | an import adds an open candidate to a completed job |
| `CompletionLimits.StaleWriteBreaks` | internal/store/store.go:22 | a worker whose lease ran out can reopen a candidate of a completed job |
| `Completion.SafeRun` | internal/store/store.go:73 | the invariant behind the positive half, for each of the safe regimes |
| `Completion.FinishingMove` | internal/store/store.go:73 | only a worker of the job that counted zero open candidates starts to complete it |
| `Quiescence.Quiescence` | internal/worker/worker.go:8-23 | a job with N candidates within all limits, any number of workers and interleaving, none of its workers meeting a fault, no lease of it expiring, links off, beside any other jobs of other projects: when all its workers have returned, each candidate is completed with one attempt, N URLs, pages and fetches were counted, and the job is completed |
| `Quiescence.LimitReached` | internal/worker/worker.go:8-10 | a worker that leaves such a run at a limit leaves no new row of the job unlocked |
| `Quiescence.AsideKeeps` | internal/worker/worker.go:8-23 | whatever leaves the rows, workers and domains of the job alone keeps its invariant |
| `Quiescence.NothingLeft` | internal/worker/worker.go:11 | a worker that finds nothing claimable has seen every new row locked by another claim |
| `Quiescence.CountZero` | internal/store/store.go:73 | the count behind FinishJobIfEmpty is zero exactly when all rows are completed |
| `Protocol.ApplyWf` | internal/worker/worker.go:6-24 | every action keeps the tables and every worker's locals consistent; in particular a retry is only computed for an attempt count of at least 1 |
| `Protocol.RowsMove` | internal/store/store.go:11-36 | an operation rewrites only the worker's own candidate row, or appends one child row, or leaves the table alone |
| `Protocol.CountersMove` | internal/store/store.go:83-84 | only granted budgets move the counters, each by one, and nothing changes a job's limits |
| `Runners.Runner.Run` | internal/worker/worker.go:6-24 | the real loop, under arbitrary interference and outcomes: from call to return the whole execution is one run of the protocol and one of the limiter; on return the budget chain holds, every claim of the call was settled or dropped once, and any two grants of a domain are interval less skew apart |
| `Runners.Runner.constructor` | internal/worker/worker.go:6-7 | a call of Run starts with zero counters and the server's limits |
| `Runners.Runner.Move` | internal/worker/worker.go:6-24 | new locals and new tables together are one enabled protocol step |
| `Runners.Runner.LeaveLoop` | internal/worker/worker.go:8 | the loop guard's exit |
| `Runners.Runner.CheckJobStatus` | internal/worker/worker.go:9-10 | by the status before: over or an error returns, paused leaves all locals as they are, queued or running goes on to claim |
| `Runners.Runner.BeginClaim` | internal/store/store.go:15 | the claim's transaction time is the time of BEGIN |
| `Runners.Runner.SelectCandidate` | internal/store/store.go:17-18 | takes the first unlocked claimable row by priority and age, or finds none |
| `Runners.Runner.CommitClaim` | internal/store/store.go:19-20 | the commit makes the row the worker's, whether or not it learns of it |
| `Runners.Runner.ClaimFailed` | internal/worker/worker.go:11 | a failed claim releases its lock, then returns if cancelled and else tries to finish the job |
| `Runners.Runner.ClaimCandidate` | internal/worker/worker.go:11 | the whole claim with others acting between its statements |
| `Runners.Runner.ConsumeURLBudget` | internal/worker/worker.go:12 | granted goes on, refused fails the candidate for good, an error returns whether or not the write took effect |
| `Runners.Runner.AcquireDomainRateLimit` | internal/worker/worker.go:13 | others act while it waits; it goes on exactly with a grant of the limiter's machine to this call for this candidate's domain, the only one, or at once without an interval; otherwise it returns |
| `Runners.Runner.LoadJob` | internal/worker/worker.go:14 | limits present and usable in the config replace the worker's; an error puts the candidate off |
| `Runners.Runner.ReadLimits` | internal/worker/worker.go:14 | the same limits as the columns' own choice over the worker's |
| `Runners.Runner.EnsureDomain` | internal/worker/worker.go:15 | the worker holds the row of its job's project and its candidate's domain; an error puts the candidate off, whether or not the insert took effect |
| `Runners.Runner.ProbeHost` | internal/worker/worker.go:16-18 | probing off or host inactive completes the candidate; an error puts it off |
| `Runners.Runner.ConsumePageBudget` | internal/worker/worker.go:19 | the domain's counter is read first, others act, then both rows are charged on that reading; an error puts the candidate off, whether or not the charge took effect |
| `Runners.Runner.FetchPage` | internal/worker/worker.go:19 | page, Retry-After, rejection and network error go to their four continuations, with the page's URL and links, or the delay asked for, taken along |
| `Runners.Runner.SavePage` | internal/worker/worker.go:20 | the fetched URL is in the page table unless the write was lost; links follow only on a target match, deep crawl and link discovery; an error puts the candidate off, whether or not the row was written |
| `Runners.Runner.SetCandidateStatus` | internal/worker/worker.go:12-20 | waits for a row that a claim has locked, then writes the outcome; it is lost only if the statement fails or the context ends in the wait; then on to where the exit leads |
| `Runners.Runner.AwaitRow` | internal/store/store.go:22 | others act until the row is unlocked or the context ends |
| `Runners.Runner.ReadAttempts` | internal/store/store.go:24-26 | the count read before a retry is written |
| `Runners.Runner.WriteRetry` | internal/store/store.go:27-36 | waits like any write; then one retry or dead-letter write, with the clamped delay asked for or one within the back-off |
| `Runners.Runner.FollowLink` | internal/worker/worker.go:21 | one link is skipped or inserted one level deeper |
| `Runners.Runner.FollowLinks` | internal/worker/worker.go:21 | the link loop ends at the page's links, max_candidates_per_page or max_depth |
| `Runners.Runner.CountOpen` | internal/store/store.go:73 | goes on to complete the job exactly if no candidate is open |
| `Runners.Runner.SetCompleted` | internal/store/store.go:73 | the second statement of FinishJobIfEmpty |
| `Runners.Runner.FinishJobIfEmpty` | internal/store/store.go:73 | count, then set, with others in between |
| `Runners.Runner.Turn` | internal/worker/worker.go:9-21 | a pass of the loop body is a run of the protocol from where it begins to where it ends, at the loop's top, at FinishJobIfEmpty or in a return |
| `Runners.RowLocksExclusive` | internal/store/store.go:17 | no two open claim transactions have locked the same row, in any run |
| `Runners.LocksMove` | internal/store/store.go:14-21 | the set of locked rows the Store keeps is the set the open claims hold, across every step |
| `Runners.InBudget` | internal/worker/worker.go:6-24 | what is proved of runs holds at any state the loop reaches |
| `Stores.Store.constructor` | internal/store/store.go:3 | empty tables |
| `Stores.Store.CreateDiscoveryJobWithConfig` | internal/store/store.go:7 | a queued job whose columns are the usable config limits or 100, 500, 3, 50 |
| `Stores.Store.SetJobStatus` | internal/store/store.go:10 | writes unless the job is completed, failed or cancelled |
| `Stores.Store.UpsertCandidateDepth` | internal/store/store.go:11-12 | inserts unless the job has the normalised URL already |
| `Stores.Store.SelectForUpdate` | internal/store/store.go:17-18 | the claimable unlocked row of highest priority, oldest among equals, now locked; none only if every claimable row is locked |
| `Stores.Store.CommitClaim` | internal/store/store.go:19-20 | processing, one more attempt, a lease, and the lock released |
| `Stores.Store.Rollback` | internal/store/store.go:15 | the lock released and nothing written |
| `Stores.Store.SetCandidateStatus` | internal/store/store.go:22 | sets status and clears the lease of exactly that row, unconditionally |
| `Stores.Store.DeadLetter` | internal/store/store.go:27-31 | dead letter and failed_final together |
| `Stores.Store.PutOff` | internal/store/store.go:36 | failed_retryable with its next attempt time |
| `Stores.Store.WriteRetry` | internal/store/store.go:27-36 | dead letter from three attempts on, else a delay between 0 and min(2^(n-1) s, 30 s) |
| `Stores.Store.WriteRetryAfter` | internal/store/store.go:88 | dead letter from three attempts on, else the delay clamped to 1 to 30 s |
| `Stores.Store.ConsumeURLBudget` | internal/store/store.go:83 | grants exactly below max_urls on a job not over, and counts the grant |
| `Stores.Store.ConsumePageBudget` | internal/store/store.go:84 | grants exactly if the job is not over and below max_pages and the reading of the domain is below max_pages, and counts in both rows |
| `Stores.Store.CountOpen` | internal/store/store.go:73 | the number of new, queued, processing and failed_retryable candidates |
| `Stores.Store.EnsureDomainRow` | internal/store/store.go:74 | the position of the one row for project and name, inserted if absent |
| `Stores.Store.UpsertPageRow` | internal/store/store.go:76 | the row for domain and URL is in the table, the old rows are a prefix, and nothing changes exactly if it was there |
| `RateLimit.RateSpacing` | internal/store/store.go:90-108 | over all callers whose clock reading is at most d past their transaction's start, by latency or by a clock that runs ahead, the k-th and (k+m)-th grants of a domain are at least m*(interval-d) apart, so grants in any window are bounded |
| `RateLimit.SpacingExact` | internal/store/store.go:90-108 | the guaranteed gap is exactly interval - d: any larger one fails in some run |
| `RateLimit.GrantMeans` | internal/store/store.go:93-102 | what a grant is, whatever the others did meanwhile: the interval had passed between the stored start that was read and the clock reading, that start was still in place, and the transaction's own beginning replaces it |
| `RateLimit.RefusalMeans` | internal/store/store.go:95-104 | a refusal: the start read was too recent, the transaction stored nothing, and the row is as it was read |
| `RateLimit.RowsLockedMove` | internal/store/store.go:93-104 | the locked rows of the table are those of the open transactions, across every step |
| `RateCallers.RateCaller.AcquireDomainRateLimit` | internal/store/store.go:90-108 | the loop, with others acting at every point: a grant is exactly one granted transaction of the machine for this domain, with only refusals of this caller before it; without a grant there was none but for a lost acknowledgement; without an interval nothing happens |
| `RateCallers.RateCaller.Round` | internal/store/store.go:92-106 | after a refusal it sleeps at least until the interval since the start it read has passed |
| `RateCallers.RateCaller.Try` | internal/store/store.go:93-104 | one transaction is Call, Lock, Check and Commit of the machine, or Abort where a statement fails; a refusal says how long to sleep |
| `RateCallers.RateCaller.LockRow` | internal/store/store.go:95-96 | waits until no open transaction has the row, and reads the start stored then |
| `RateCallers.RateCaller.Check` | internal/store/store.go:97-104 | the interval against the engine's clock; refused, it rolls back |
| `RateCallers.RateCaller.Commit` | internal/store/store.go:100-101 | stores the transaction's own beginning, or nothing, and an error does not tell which |
| `RateCallers.RateCaller.Move` | internal/store/store.go:90-108 | table and machine take the step together and stay reachable, so all that is proved of the machine's runs holds of the loop |
| `RateCallers.RateRows.LockRow` | internal/store/store.go:95 | locks the row and returns its start, or the epoch if there is none |
| `RateCallers.RateRows.CommitStart` | internal/store/store.go:100-101 | exactly that row is set, and its lock released |
| `Retry.New` | internal/retry/retry.go:21-27 | unusable parameters are replaced by 3, 1 s, 30 s and 0, usable ones kept, for all 64-bit values |
| `Retry.Delay` | internal/retry/retry.go:31-36 | no doubling overflows 64 bits; the result is min(base*2^(attempt-1), max) if and only if the exponential delay is not max - 1 after a doubling, and then it is max |
| `Retry.BackoffExact` | internal/retry/retry.go:32-35 | the same condition for the closed form, which is never more than 1 ns above the minimum |
| `Retry.BackoffEvenMax` | internal/retry/retry.go:32-35 | for an even MaxDelay it is exactly that minimum |
| `Retry.BackoffMonotone` | internal/retry/retry.go:31-36 | later attempts never wait less, and never more than MaxDelay |
| `Retry.Decide` | internal/retry/retry.go:29-47 | retries exactly errors below the attempt limit that are not HTTP errors other than 429 and 5xx; the delay, with 64-bit wrap-around, is cut at MaxDelay |
| `Retry.FetchErrorsRetry` | internal/worker/worker.go:19 | the HTTP errors Fetch reports are always retried by the worker's policy |
| `Retry.SecondsExact` | internal/retry/retry.go:39-45 | composed with ScheduleRetryAfter, a Retry-After of n seconds (section 10.2.3 of RFC 9110) is honoured within 1 to 30 s for every jitter drawn if and only if n <= 30 or n seconds, reduced to 64 bits of nanoseconds, are at least 30 s and leave room for the jitter |
| `Retry.DateExact` | internal/retry/retry.go:41-45 | a date is honoured within 1 to 30 s for every jitter drawn if and only if the time left to it leaves room for the jitter in 64 bits |
| `Retry.WaitInRange` | internal/store/store.go:88 | whatever Retry-After says the next attempt is 1 to 30 s ahead, and at most 1.5 s without one |
| `Retry.HugeRetryAfterWraps` | internal/retry/retry.go:40-43 | 10^10 s overflow Duration, and a date in the year 9999 overflows with the jitter; both are retried after one second |
| `LinkWalk.Walker.Walk` | internal/crawl/crawl.go:42-46 | the recursive walk with its shared accumulator appends the links of exactly the preorder prefix that fits the remaining room |
| `LinkWalk.Walker.WalkChildren` | internal/crawl/crawl.go:45 | the sibling loop stops as soon as max links are collected |
| `LinkWalk.CutLinks` | internal/crawl/crawl.go:45 | cutting the walk short yields exactly the first max links of the whole document |
| `LinkWalk.Unique` | internal/crawl/crawl.go:49 | the loop with its map computes the first occurrences |
| `LinkWalk.FirstsMeaning` | internal/crawl/crawl.go:49 | the same elements, no duplicates, in order of first occurrence |
| `LinkWalk.TitleExact` | internal/crawl/crawl.go:43 | the title is that of the last element read that has one, and empty without any |
| `LinkWalk.ParseHTML` | internal/crawl/crawl.go:40-48 | for every document and every max: the unique links among the first max, and the last title read |
| `Sitemap.Discover` | internal/discovery/providers.go:11-18 | terminates; requests each sitemap at most once and at most 20, all reachable from the two roots, and none left out is nearer to the roots than one requested; returns exactly their leaf locations; below 20 the requested ones are exactly the reachable ones |
| `Sitemap.Scan` | internal/discovery/providers.go:15 | one document's locations are split into queued sitemaps and output URLs |
| `Sitemap.ClosedHasReachable` | internal/discovery/providers.go:12-15 | a set holding the roots and the children of its members holds every reachable sitemap |
| `Sitemap.LevelStep` | internal/discovery/providers.go:14-15 | the queue stays ordered by distance from the roots, in two adjacent levels, which makes the search breadth-first |
| `Sitemap.IsSitemapExact` | internal/discovery/providers.go:15 | a location is followed exactly if, in lower case, it ends in .xml or has sitemap in it |
| `Sitemap.LeavesOfExact` | internal/discovery/providers.go:15-17 | a URL is returned exactly if some requested document lists it, the policy allows it and it is not followed |
| `Sitemap.TrimExact` | internal/discovery/providers.go:12 | all slashes at the end of the base are cut, and nothing else |
| `UrlNorm.ParsedURL.Normalize` | internal/urlnorm/url.go:4 | changes the parsed URL in place into its normal form, or refuses it unchanged |
| `UrlNorm.NormalExact` | internal/urlnorm/url.go:4 | two URLs have one normal form if and only if they differ only in fragment, host case, default port, empty path, tracking parameters or the order of different keys (sections 6.2.2.1 and 6.2.3 of RFC 3986); a lone question mark does make a difference |
| `UrlNorm.NormalIdempotent` | internal/urlnorm/url.go:4 | normalising twice is normalising once |
| `UrlNorm.NoTracking` | internal/urlnorm/url.go:4 | none of the ten tracking keys survives |
| `UrlNorm.NormalQueryValues` | internal/urlnorm/url.go:4 | every other key keeps its values in their order |
| `UrlNorm.DomainOfEquivalent` | internal/urlnorm/url.go:5 | equivalent URLs have one scope key |
| `UrlNorm.DomainExact` | internal/urlnorm/url.go:5 | the scope key is the host in lower case without one trailing dot |
| `UrlNorm.ParseQuery` | internal/urlnorm/url.go:4 | groups the pairs of a query by key, values in order |
| `UrlNorm.DropTracking` | internal/urlnorm/url.go:4 | the deletion loop removes exactly the ten tracking keys |
| `UrlNorm.Encode` | internal/urlnorm/url.go:4 | keys in sorted order, values in order within each |
| `Ordering.IncreasingUnique` | internal/urlnorm/url.go:4 | sorted order determines a list of keys, so encoding is canonical |
| `Ordering.LessExact` | internal/migrate/migrate.go:3 | of two strings a proper prefix comes first, and otherwise the one smaller at the first difference |
| `Ordering.FindLeast` | internal/migrate/migrate.go:3 | selection by byte order |
| `Discovery.Service.Seed` | internal/discovery/discovery.go:14-22 | inserts the seeds in order up to the first that is unusable or whose insert fails |
| `Discovery.InsertedMeaning` | internal/discovery/discovery.go:14-22 | of such a series of inserts every added row stems from a seed, and keys stay unique |
| `Discovery.InsertedPresent` | internal/discovery/discovery.go:14-22 | every seed inserted is in the table afterwards |
| `Discovery.Service.AddURLs` | internal/discovery/discovery.go:24-34 | every usable URL before a failing insert is present afterwards, every added row stems from one, and keys stay unique |
| `Discovery.Service.Upsert` | internal/discovery/discovery.go:17-19 | one row per job and normal form |
| `Discovery.OneCandidatePerClass` | internal/store/store.go:11-12 | in every state of every run whose imports and links are keyed by normal form, two candidates of one job with equivalent URLs are one |
| `Discovery.ClassesKeptApart` | internal/urlnorm/url.go:4 | inequivalent ones are different candidates, if URLs that print alike are alike |
| `Jobs.ClampLimits` | internal/httpapi/http.go:6 | each limit is the requested one if positive, cut to the server's ceiling, else the ceiling; other keys survive if positive |
| `Jobs.Columns` | internal/store/store.go:7 | the columns are the usable config limits or the defaults |
| `Jobs.LimitsAgree` | internal/httpapi/http.go:6 | columns, config and the limits workers use agree and lie between 1 and the ceilings |
| `Jobs.ClampedInRange` | internal/httpapi/http.go:6 | 1 <= stored limit <= ceiling; a request in that range is kept, and an absent, non-positive or greater one becomes the ceiling |
| `Migrate.ListFiles` | internal/migrate/migrate.go:3 | exactly the .sql files of the directory, in increasing order |
| `Migrate.OneListing` | internal/migrate/migrate.go:3 | the order in which a directory is read does not matter |
| `Migrate.Schema.Apply` | internal/migrate/migrate.go:3 | the loop is a run of one engine of the machine below; it commits the pending files in order up to the first that fails or whose acknowledgement is lost, records exactly those, and succeeds only with all recorded |
| `Migrate.Schema.ApplyOne` | internal/migrate/migrate.go:3 | one file: skipped if recorded, else one transaction, each statement one step of the machine |
| `Migrate.NothingPending` | internal/migrate/migrate.go:3 | with all files recorded there is nothing to run |
| `Migrate.MigrationsInOrderOnce` | internal/migrate/migrate.go:3 | any number of engines, crashes anywhere: the recorded versions are a prefix of the sorted files, each file was committed once if recorded and never otherwise, and an engine that returned nil has all recorded |
| `Migrate.SecondRunChangesNothing` | internal/migrate/migrate.go:3 | once all files are recorded no later run commits or records anything |

## Left out

- SQL, JSON, regular expressions and HTML tokenising: table writes are atomic updates, a document is a finite tree, the locations of a sitemap are a given function of its URL.
- DNS, sockets, the browser and its proxy, embedded PostgreSQL, configuration from the environment: probe, fetch and render are nondeterministic outcomes.
- The WordPress plugin, search-result parsing, CSV export, metrics, and the technology, contact, business, social, page-class and target detectors: target match and routing are boolean outcomes of the worker.
- Eventual completion and fairness: Run may return while a candidate is in back-off, a paused job waits without bound, and the rate limiter is not fair.
- Age of a probe: a cache hit renews the probe's time, so nothing is claimed about how old a used probe is; the hosts, probe, signal and job-error tables are not modelled.
- Clock skew is modelled in the rate limiter only; leases and retry times are set and read by the database's clock alone.
- `Protocol.ApplyWf`: pause and resume are status writes that may happen at any time, which includes the handlers' read followed by a write; a claim takes any unlocked claimable row, and the order is proved at `Stores.Store.SelectForUpdate`.
- `Runners.Runner.Run`: how long the context lasts, in passes and in waits, is a parameter, so the wait of a paused job is bounded by it.
- `RateCallers.RateCaller.AcquireDomainRateLimit`: how far the engine's clock can be past the start of a transaction, its skew, is a parameter, and so is how long the context lasts; all callers of a run have one interval.
- `Stores.Store.SelectForUpdate`: rows never share a discovery time, so position in the table stands for age.
- `UrlNorm.NormalExact`: parsed URLs with decoded query pairs and hosts that are names or IPv4; IPv6 literals with a default port lose their brackets in the code and are outside it, as is percent-encoding; user information and a lone question mark are kept as they are.
- `Hosts.SubdomainTransitive`: ASCII case folding only.
- `Retry.Decide`: HTTP dates are given as the time left until them, the random draw is a parameter, and the one jitter at which the draw panics, 2^63-1 ns, is excluded.
- `Jobs.ClampLimits`: the capabilities, sources, target and routing entries of the config map are not modelled except link discovery and active probe.
- `Migrate.Schema.Apply`: creating the version table and reading files are not modelled; a failing file stands for any error before its commit, and the engine runs without others in between, which the machine covers.
