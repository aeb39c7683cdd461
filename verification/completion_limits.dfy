/** The runs that break completion outside the safe regimes, and the exact characterisation they give. */
module CompletionLimits {
  import opened Basics
  import opened Database
  import opened Protocol
  import opened Completion
  import Hosts

  const SERVER := Server(Limits(100, 500, 3, 50), 60000, false, false)

  const EMPTY_SYSTEM := State(SERVER, 0, EMPTY, [], [], [])

  predicate CanStep(r: Regime, s: State, a: Action) {
    Wf(s) && Enabled(s, a) && Allowed(r, 0, s, a)
  }

  /** R holds of the empty system and is kept by every step of regime r: it holds of every reachable state. */
  ghost predicate Closed(r: Regime, R: State -> bool) {
    && R(EMPTY_SYSTEM)
    && forall s, a :: R(s) && CanStep(r, s, a) ==> R(Apply(s, a))
  }

  lemma Extend(r: Regime, R: State -> bool, s: State, a: Action) returns (t: State)
    requires Closed(r, R) && R(s) && CanStep(r, s, a)
    ensures R(t) && Wf(t) && t == Apply(s, a)
  {
    t := Apply(s, a);
    ApplyWf(s, a);
  }

  /** One more operation of worker w, with its outcome spelled out. */
  lemma Hop(r: Regime, R: State -> bool, s: State, w: nat, op: Op, me': Worker, db': Db) returns (t: State)
    requires Closed(r, R) && R(s) && CanStep(r, s, By(w, op))
    requires me' == NextWorker(s.server, s.clock, s.db, s.workers[w], op)
    requires db' == NextDb(s.server, s.clock, s.db, s.workers[w], op)
    ensures R(t) && Wf(t)
    ensures t == s.(db := db', workers := s.workers[w := me'], hist := t.hist, reclaims := t.reclaims)
  {
    t := Extend(r, R, s, By(w, op));
  }

  /** A worker of a job not yet over passes its status check and opens a claim transaction. */
  lemma OpenClaim(r: Regime, R: State -> bool, s: State, w: nat) returns (t: State)
    requires Closed(r, R) && R(s) && Wf(s) && w < |s.workers| && s.workers[w].phase == AtTop
    requires s.workers[w].pages < s.workers[w].lim.maxPages && s.workers[w].processed < s.workers[w].lim.maxURLs
    requires s.db.jobs[s.workers[w].job].status == JobQueued
    ensures R(t) && Wf(t)
    ensures t == s.(workers := s.workers[w := s.workers[w].(phase := AtSelect, txNow := s.clock)],
                    hist := t.hist, reclaims := t.reclaims)
  {
    var me := s.workers[w];
    t := Hop(r, R, s, w, CheckStatus, me.(phase := AtBegin), s.db);
    t := Hop(r, R, t, w, Begin, me.(phase := AtSelect, txNow := s.clock), s.db);
  }

  lemma CountZero(r: Regime, R: State -> bool, s: State, w: nat) returns (t: State)
    requires Closed(r, R) && R(s) && Wf(s) && w < |s.workers|
    requires s.workers[w].phase == AtSelect && s.workers[w].job == 0 && OpenCount(s, 0) == 0
    requires forall c :: 0 <= c < |s.db.cands| ==> !Claimable(s.db.cands[c], 0, s.workers[w].txNow)
    ensures R(t) && Wf(t)
    ensures t == s.(workers := s.workers[w := s.workers[w].(phase := AtClose)], hist := t.hist, reclaims := t.reclaims)
  {
    var me := s.workers[w];
    t := Hop(r, R, s, w, NothingClaimable, me.(phase := AtCount), s.db);
    t := Hop(r, R, t, w, Count, me.(phase := AtClose), s.db);
  }

  /** A worker that finds nothing to claim and nothing open completes the job. */
  lemma CloseJob(r: Regime, R: State -> bool, s: State, w: nat) returns (t: State)
    requires Closed(r, R) && R(s) && Wf(s) && w < |s.workers|
    requires s.workers[w].phase == AtSelect && s.workers[w].job == 0 && OpenCount(s, 0) == 0
    requires forall c :: 0 <= c < |s.db.cands| ==> !Claimable(s.db.cands[c], 0, s.workers[w].txNow)
    ensures R(t) && Wf(t)
    ensures t == s.(db := SetJob(s.db, 0, JobCompleted), hist := t.hist, reclaims := t.reclaims,
                    workers := s.workers[w := s.workers[w].(phase := Returned)])
  {
    var me := s.workers[w];
    t := CountZero(r, R, s, w);
    t := Hop(r, R, t, w, Close, me.(phase := Returned), SetJob(s.db, 0, JobCompleted));
  }

  lemma EmptyCompleted(r: Regime, R: State -> bool) returns (t: State)
    requires Closed(r, R) && r.workers >= 1
    ensures R(t) && Wf(t) && IsCompleted(t, 0) && t.db.cands == [] && t.clock == 0
  {
    t := Extend(r, R, EMPTY_SYSTEM, Create("p", JobConfig(None, None, None, None, false, true)));
    t := Extend(r, R, t, Spawn(0));
    t := OpenClaim(r, R, t, 0);
    t := CloseJob(r, R, t, 0);
  }

  /** An import after the job was completed. */
  lemma ImportBreaks(r: Regime, R: State -> bool) returns (t: State)
    requires Closed(r, R) && r.workers >= 1 && r.imports
    ensures R(t) && IsCompleted(t, 0) && OpenCount(t, 0) > 0
  {
    t := EmptyCompleted(r, R);
    var row := NewRow(0, "u", "u", "d", "", 80, 0, 0);
    t := Extend(r, R, t, Import(0, "u", "u", "d", 80));
    assert t.db.cands == [] + [row];
    SumAppend([], row, OpenOf(0));
  }

  // ---- one claimed candidate, step by step

  function Holder(me: Worker, row: Candidate, lease: nat): Worker {
    me.(phase := Holds(AtURLGate), processed := me.processed + 1, raw := row.url, domain := row.domain,
        depth := row.depth, lease := lease, claims := me.claims + 1)
  }

  lemma CommitClaim(r: Regime, R: State -> bool, s: State, w: nat) returns (t: State)
    requires Closed(r, R) && R(s) && Wf(s) && w < |s.workers| && s.workers[w].phase == AtCommit
    ensures R(t) && Wf(t) && s.workers[w].cand < |s.db.cands|
    ensures var me := s.workers[w];
            t == s.(db := Claim(s.db, me.cand, me.txNow + s.server.lease), hist := t.hist, reclaims := t.reclaims,
                    workers := s.workers[w := Holder(me, s.db.cands[me.cand], me.txNow + s.server.lease)])
  {
    var me := s.workers[w];
    var until := me.txNow + s.server.lease;
    t := Hop(r, R, s, w, Commit(true), Holder(me, s.db.cands[me.cand], until), Claim(s.db, me.cand, until));
  }

  /** An open claim transaction locks row c and commits. */
  lemma TakeClaim(r: Regime, R: State -> bool, s: State, w: nat, c: nat) returns (t: State)
    requires Closed(r, R) && R(s) && Wf(s) && w < |s.workers| && s.workers[w].phase == AtSelect && CanLock(s, w, c)
    ensures R(t) && Wf(t)
    ensures var me := s.workers[w].(cand := c);
            t == s.(db := Claim(s.db, c, me.txNow + s.server.lease), hist := t.hist, reclaims := t.reclaims,
                    workers := s.workers[w := Holder(me, s.db.cands[c], me.txNow + s.server.lease)])
  {
    t := Hop(r, R, s, w, Lock(c), s.workers[w].(phase := AtCommit, cand := c), s.db);
    t := CommitClaim(r, R, t, w);
  }

  /** URL budget and rate limit granted. */
  lemma PassURLGate(r: Regime, R: State -> bool, s: State, w: nat) returns (t: State)
    requires Closed(r, R) && R(s) && Wf(s) && w < |s.workers| && s.workers[w].phase == Holds(AtURLGate)
    requires URLGranted(s.db, s.workers[w].job)
    ensures R(t) && Wf(t)
    ensures t == s.(db := ConsumeURL(s.db, s.workers[w].job), hist := t.hist, reclaims := t.reclaims,
                    workers := s.workers[w := s.workers[w].(phase := Holds(AtLoadJob))])
  {
    var me, db := s.workers[w], ConsumeURL(s.db, s.workers[w].job);
    t := Hop(r, R, s, w, URLGate(true), me.(phase := Holds(AtRate)), db);
    t := Hop(r, R, t, w, RateGranted, me.(phase := Holds(AtLoadJob)), db);
  }

  /** Job row read, domain row found or added. */
  lemma ReachProbe(r: Regime, R: State -> bool, s: State, w: nat) returns (t: State)
    requires Closed(r, R) && R(s) && Wf(s) && w < |s.workers| && s.workers[w].phase == Holds(AtLoadJob)
    ensures R(t) && Wf(t)
    ensures var me := s.workers[w]; var job := s.db.jobs[me.job];
            t == s.(db := EnsureDomain(s.db, job.project, me.domain), hist := t.hist, reclaims := t.reclaims,
                    workers := s.workers[w := me.(phase := Holds(AtProbe), lim := Effective(job.config, me.lim),
                                                  dom := FindDomain(s.db.domains, job.project, me.domain))])
  {
    var me := s.workers[w];
    var job := s.db.jobs[me.job];
    me := me.(phase := Holds(AtDomain), lim := Effective(job.config, me.lim));
    t := Hop(r, R, s, w, LoadJob, me, s.db);
    me := me.(phase := Holds(AtProbe), dom := FindDomain(s.db.domains, job.project, me.domain));
    t := Hop(r, R, t, w, FindOrAddDomain(true), me, EnsureDomain(s.db, job.project, me.domain));
  }

  const ROW := NewRow(0, "u", "u", "d", "", 80, 0, 0)

  lemma OneCandidate(r: Regime, R: State -> bool, links: bool) returns (s: State)
    requires Closed(r, R) && (links ==> r.links)
    ensures R(s) && Wf(s) && s.server == SERVER && s.clock == 0 && s.workers == []
    ensures s.db == EMPTY.(cands := [ROW], jobs := [Job("p", JobConfig(None, None, None, None, links, true),
                                                        COLUMN_DEFAULTS, JobQueued, 0, 0)])
  {
    s := Extend(r, R, EMPTY_SYSTEM, Create("p", JobConfig(None, None, None, None, links, true)));
    s := Extend(r, R, s, Import(0, "u", "u", "d", 80));
  }

  /** Two workers on a queued job with one candidate. */
  lemma TwoWorkersReady(r: Regime, R: State -> bool, links: bool) returns (s: State)
    requires Closed(r, R) && r.workers >= 2 && (links ==> r.links)
    ensures R(s) && Wf(s) && s.server == SERVER && s.clock == 0
    ensures s.db == EMPTY.(cands := [ROW], jobs := [Job("p", JobConfig(None, None, None, None, links, true),
                                                        COLUMN_DEFAULTS, JobQueued, 0, 0)])
    ensures s.workers == [Started(0, SERVER.limits), Started(0, SERVER.limits)]
  {
    var one := Started(0, SERVER.limits);
    s := OneCandidate(r, R, links);
    s := Extend(r, R, s, Spawn(0));
    SumAppend([], one, WorkerOf(0));
    assert s.workers == [] + [one];
    s := Extend(r, R, s, Spawn(0));
  }

  lemma TakeFirst(r: Regime, R: State -> bool, s: State, w: nat, domains: seq<Domain>) returns (t: State)
    requires Closed(r, R) && R(s) && Wf(s) && w < 2 == |s.workers| && s.server == SERVER
    requires |s.db.jobs| == |s.db.cands| == 1 && s.workers[w] == Started(0, SERVER.limits)
    requires s.db.jobs[0].limits == COLUMN_DEFAULTS && s.db.jobs[0].status == JobQueued
    requires s.db.jobs[0].processedURLs < 2
    requires Claimable(s.db.cands[0], 0, s.clock) && s.workers[1 - w].phase != AtCommit && s.db.domains == domains
    ensures R(t) && Wf(t) && t.server == SERVER && t.clock == s.clock
    ensures |t.workers| == 2 && t.workers[1 - w] == s.workers[1 - w]
    ensures t.db == ConsumeURL(Claim(s.db, 0, s.clock + 60000), 0)
    ensures t.workers[w] == s.workers[w].(phase := Holds(AtLoadJob), txNow := s.clock, cand := 0, processed := 1,
                                          raw := s.db.cands[0].url, domain := s.db.cands[0].domain,
                                          depth := s.db.cands[0].depth, lease := s.clock + 60000, claims := 1)
  {
    t := OpenClaim(r, R, s, w);
    t := TakeClaim(r, R, t, w, 0);
    t := PassURLGate(r, R, t, w);
  }

  // ---- links inserted after the count

  const CHILD := Link(true, "v", "v", "d")

  /** The probe finds the host active and the page budget grants a page. */
  lemma GrantFirst(r: Regime, R: State -> bool, s: State) returns (t: State)
    requires Closed(r, R) && R(s) && Wf(s) && |s.workers| == 2 && |s.db.jobs| == 1
    requires s.workers[0].phase == Holds(AtProbe) && s.workers[0].job == 0 && s.db.jobs[0].config.activeProbe
    requires PageGranted(s.db, 0, 0)
    ensures R(t) && Wf(t)
    ensures t == s.(db := ConsumePage(s.db, 0, s.workers[0].dom, 0), hist := t.hist, reclaims := t.reclaims,
                    workers := s.workers[0 := s.workers[0].(phase := Holds(AtFetch))])
  {
    var me := s.workers[0];
    t := Hop(r, R, s, 0, Probe(true), me.(phase := Holds(AtPageGate)), s.db);
    t := Hop(r, R, t, 0, PageGate(true, 0), me.(phase := Holds(AtFetch)), ConsumePage(s.db, 0, me.dom, 0));
  }

  /** The page is fetched, has one link, and is saved; its candidate is completed before the link loop. */
  lemma FetchFirst(r: Regime, R: State -> bool, s: State) returns (t: State)
    requires Closed(r, R) && R(s) && Wf(s) && |s.workers| == 2 && |s.db.jobs| == 1 && s.db.jobs[0].config.linkDiscovery
    requires s.workers[0].phase == Holds(AtFetch) && s.workers[0].job == 0
    ensures R(t) && Wf(t)
    ensures var me := s.workers[0];
            t == s.(db := UpsertPage(s.db, me.dom, "u"), hist := t.hist, reclaims := t.reclaims,
                    workers := s.workers[0 := me.(phase := Holds(AtSettle), pages := me.pages + 1, pageURL := "u",
                                                  links := [CHILD], next := 0, verdict := Completed, after := ToLinks)])
  {
    var me := s.workers[0].(phase := Holds(AtSavePage), pages := s.workers[0].pages + 1, pageURL := "u",
                            links := [CHILD], next := 0);
    t := Hop(r, R, s, 0, Fetch(Page("u", [CHILD]), false), me, s.db);
    t := Hop(r, R, t, 0, SavePage(true, true, true),
             me.(phase := Holds(AtSettle), verdict := Completed, after := ToLinks), UpsertPage(s.db, me.dom, "u"));
  }

  /** Worker 0 has been granted the page of the only candidate. */
  lemma GrantedFirst(r: Regime, R: State -> bool) returns (t: State)
    requires Closed(r, R) && r.workers >= 2 && r.links
    ensures R(t) && Wf(t) && t.clock == 0 && |t.workers| == 2 && t.workers[1] == Started(0, SERVER.limits)
    ensures t.workers[0].phase == Holds(AtFetch) && t.workers[0].job == t.workers[0].cand == 0
    ensures t.workers[0].domain == "d" && t.workers[0].depth == 0 && t.workers[0].lease == 60000
    ensures t.workers[0].lim == SERVER.limits
    ensures |t.db.jobs| == 1 && t.db.jobs[0].status == JobQueued && t.db.jobs[0].config.linkDiscovery
    ensures t.db.cands == [Claimed(ROW, 60000)]
  {
    t := TwoWorkersReady(r, R, true);
    t := TakeFirst(r, R, t, 0, []);
    t := ReachProbe(r, R, t, 0);
    t := GrantFirst(r, R, t);
  }

  lemma SettleIs(server: Server, clock: nat, db: Db, me: Worker)
    requires WorkerOk(server, db, me) && me.phase == Holds(AtSettle)
    ensures me.cand < |db.cands| && Ready(db, me, Settle)
    ensures NextDb(server, clock, db, me, Settle) == SetCandidate(db, me.cand, me.verdict)
    ensures NextWorker(server, clock, db, me, Settle) == me.(phase := Resume(me.after), settled := me.settled + 1)
  {
  }

  lemma SettleClaim(r: Regime, R: State -> bool, s: State, w: nat) returns (t: State)
    requires Closed(r, R) && R(s) && Wf(s) && w < |s.workers| && Unlocked(s, s.workers[w].cand, w)
    requires s.workers[w].phase == Holds(AtSettle) && s.clock <= s.workers[w].lease
    ensures R(t) && Wf(t) && s.workers[w].cand < |s.db.cands|
    ensures var me := s.workers[w];
            t == s.(db := SetCandidate(s.db, me.cand, me.verdict), hist := t.hist, reclaims := t.reclaims,
                    workers := s.workers[w := me.(phase := Resume(me.after), settled := me.settled + 1)])
  {
    var me := s.workers[w];
    SettleIs(s.server, s.clock, s.db, me);
    assert CanStep(r, s, By(w, Settle));
    t := Hop(r, R, s, w, Settle, me.(phase := Resume(me.after), settled := me.settled + 1),
             SetCandidate(s.db, me.cand, me.verdict));
  }

  lemma RowFree(s: State, w: nat)
    requires w < 2 == |s.workers| && s.workers[1 - w].phase != AtCommit
    ensures Unlocked(s, 0, w)
  {
    forall v | 0 <= v < |s.workers| && v != w
      ensures !(s.workers[v].phase == AtCommit && s.workers[v].cand == 0)
    {
      assert v == 1 - w;
    }
  }

  lemma SettleFirst(r: Regime, R: State -> bool, s: State, w: nat) returns (t: State)
    requires Closed(r, R) && R(s) && Wf(s) && w < 2 == |s.workers| && s.workers[1 - w].phase != AtCommit
    requires s.workers[w].phase == Holds(AtSettle) && s.workers[w].cand == 0 && s.clock <= s.workers[w].lease
    ensures R(t) && Wf(t) && |s.db.cands| >= 1
    ensures var me := s.workers[w];
            t == s.(db := SetCandidate(s.db, 0, me.verdict), hist := t.hist, reclaims := t.reclaims,
                    workers := s.workers[w := me.(phase := Resume(me.after), settled := me.settled + 1)])
  {
    RowFree(s, w);
    t := SettleClaim(r, R, s, w);
  }

  /** Worker 0 has crawled and completed the only candidate and is about to insert its link. */
  lemma AboutToLink(r: Regime, R: State -> bool) returns (t: State)
    requires Closed(r, R) && r.workers >= 2 && r.links
    ensures R(t) && Wf(t) && |t.workers| == 2 && t.workers[1] == Started(0, SERVER.limits)
    ensures t.workers[0].phase == AtLinks && t.workers[0].job == 0 && t.workers[0].links == [CHILD]
    ensures t.workers[0].domain == "d" && t.workers[0].depth == 0 && t.workers[0].next == 0
    ensures t.workers[0].lim == SERVER.limits
    ensures |t.db.jobs| == 1 && t.db.jobs[0].status == JobQueued
    ensures t.db.cands == [Claimed(ROW, 60000).(status := Completed, leaseUntil := None)]
  {
    t := GrantedFirst(r, R);
    t := FetchFirst(r, R, t);
    t := SettleFirst(r, R, t, 0);
  }

  /** With the only candidate settled, worker 1 completes the job. */
  lemma SecondCloses(r: Regime, R: State -> bool, s: State) returns (t: State)
    requires Closed(r, R) && R(s) && Wf(s) && |s.workers| == 2 && |s.db.jobs| == |s.db.cands| == 1
    requires s.workers[1].phase == AtTop && s.workers[1].job == 0 && s.db.jobs[0].status == JobQueued
    requires s.workers[1].pages < s.workers[1].lim.maxPages && s.workers[1].processed < s.workers[1].lim.maxURLs
    requires s.db.cands[0].status == Completed
    ensures R(t) && Wf(t) && |t.workers| == 2 && t.workers[0] == s.workers[0] && t.workers[1].phase == Returned
    ensures IsCompleted(t, 0) && t.db.cands == s.db.cands && t.server == s.server && t.clock == s.clock
  {
    SumAppend([], s.db.cands[0], OpenOf(0));
    assert s.db.cands == [] + s.db.cands;
    t := OpenClaim(r, R, s, 1);
    t := CloseJob(r, R, t, 1);
  }

  /** A second worker completes the job while the first is between completing a page and inserting its links. */
  lemma LinksBreak(r: Regime, R: State -> bool) returns (t: State)
    requires Closed(r, R) && r.workers >= 2 && r.links
    ensures R(t) && IsCompleted(t, 0) && OpenCount(t, 0) > 0
  {
    t := AboutToLink(r, R);
    t := SecondCloses(r, R, t);
    t := FollowFirst(r, R, t);
  }

  lemma ChildFollows(server: Server, me: Worker)
    requires me.links == [CHILD] && me.domain == "d" && me.depth == 0 && me.next == 0 && me.lim == SERVER.limits
    ensures MoreLinks(me) && Follows(server, me)
  {
    Hosts.SubdomainIrreflexive("d");
  }

  lemma ChildIsNew(cands: seq<Candidate>)
    requires |cands| == 1 && cands[0].norm == "u"
    ensures !HasKey(cands, 0, "v")
  {
    assert "v"[0] != "u"[0];
  }

  lemma FollowIs(server: Server, clock: nat, db: Db, me: Worker)
    requires WorkerOk(server, db, me) && me.phase == AtLinks && me.job == 0
    requires MoreLinks(me) && Follows(server, me) && !HasKey(db.cands, 0, me.links[me.next].norm)
    ensures Ready(db, me, FollowLink)
    ensures NextDb(server, clock, db, me, FollowLink) == db.(cands := db.cands + [ChildRow(me, clock)])
    ensures NextWorker(server, clock, db, me, FollowLink) == me.(next := me.next + 1)
  {
  }

  lemma FollowFirst(r: Regime, R: State -> bool, s: State) returns (t: State)
    requires Closed(r, R) && R(s) && Wf(s) && |s.workers| == 2 && s.workers[0].phase == AtLinks && IsCompleted(s, 0)
    requires s.workers[0].job == 0 && s.workers[0].links == [CHILD] && s.workers[0].domain == "d"
    requires s.workers[0].depth == 0 && s.workers[0].next == 0 && s.workers[0].lim == SERVER.limits
    requires |s.db.cands| == 1 && s.db.cands[0].norm == "u"
    ensures R(t) && IsCompleted(t, 0) && OpenCount(t, 0) > 0
  {
    var me := s.workers[0];
    ChildFollows(s.server, me);
    ChildIsNew(s.db.cands);
    var row := ChildRow(me, s.clock);
    SumAppend(s.db.cands, row, OpenOf(0));
    FollowIs(s.server, s.clock, s.db, me);
    t := Hop(r, R, s, 0, FollowLink, me.(next := 1), s.db.(cands := s.db.cands + [row]));
  }

  // ---- a stale retry after the count

  /** Worker 0 fails to read the job and is about to schedule a retry, having read one attempt. */
  lemma FailToLoad(r: Regime, R: State -> bool, s: State) returns (t: State)
    requires Closed(r, R) && R(s) && Wf(s) && |s.workers| == 2 && s.workers[0].phase == Holds(AtLoadJob)
    ensures R(t) && Wf(t) && s.workers[0].cand < |s.db.cands|
    ensures t == s.(hist := t.hist, reclaims := t.reclaims, workers := s.workers[0 :=
                      s.workers[0].(phase := Holds(AtRetryWrite), wait := None,
                                    attempts := s.db.cands[s.workers[0].cand].attempts)])
  {
    var me := s.workers[0].(phase := Holds(AtRetryRead), wait := None);
    t := Hop(r, R, s, 0, Fault(false), me, s.db);
    t := ReadFirst(r, R, t);
  }

  lemma ReadFirst(r: Regime, R: State -> bool, s: State) returns (t: State)
    requires Closed(r, R) && R(s) && Wf(s) && |s.workers| == 2 && s.workers[0].phase == Holds(AtRetryRead)
    ensures R(t) && Wf(t) && s.workers[0].cand < |s.db.cands|
    ensures t == s.(hist := t.hist, reclaims := t.reclaims, workers := s.workers[0 :=
                      s.workers[0].(phase := Holds(AtRetryWrite),
                                    attempts := s.db.cands[s.workers[0].cand].attempts)])
  {
    var me := s.workers[0];
    t := Hop(r, R, s, 0, RetryRead, me.(phase := Holds(AtRetryWrite), attempts := s.db.cands[me.cand].attempts), s.db);
  }

  lemma AboutToRetry(r: Regime, R: State -> bool) returns (t: State)
    requires Closed(r, R) && r.workers >= 2
    ensures R(t) && Wf(t) && t.clock == 60001 && t.server == SERVER
    ensures |t.workers| == 2 && t.workers[1] == Started(0, SERVER.limits)
    ensures t.workers[0].phase == Holds(AtRetryWrite) && t.workers[0].job == 0 && t.workers[0].cand == 0
    ensures t.workers[0].attempts == 1 && t.workers[0].wait == None
    ensures t.workers[0].pages == 0 && t.workers[0].processed == 1 && t.workers[0].lim == SERVER.limits
    ensures |t.db.jobs| == 1 && t.db.jobs[0].status == JobQueued && t.db.jobs[0].limits == COLUMN_DEFAULTS
    ensures t.db.jobs[0].processedURLs == 1 && t.db.jobs[0].config == JobConfig(None, None, None, None, false, true)
    ensures t.db.cands == [Claimed(ROW, 60000)]
  {
    t := TwoWorkersReady(r, R, false);
    t := TakeFirst(r, R, t, 0, []);
    t := FailToLoad(r, R, t);
    t := Extend(r, R, t, Tick(60001));
  }

  /** Worker 1 takes over the expired claim. */
  lemma TakenOver(r: Regime, R: State -> bool) returns (t: State)
    requires Closed(r, R) && r.workers >= 2
    ensures R(t) && Wf(t) && |t.workers| == 2 && |t.db.jobs| == |t.db.cands| == 1 && t.db.cands[0].job == 0
    ensures t.workers[0].phase == Holds(AtRetryWrite) && t.workers[0].cand == 0 && t.workers[0].attempts == 1
    ensures t.workers[0].job == 0 && t.workers[0].wait == None
    ensures t.workers[0].pages == 0 && t.workers[0].processed == 1 && t.workers[0].lim == SERVER.limits
    ensures t.workers[1].phase == Holds(AtLoadJob) && t.workers[1].job == t.workers[1].cand == 0
    ensures t.workers[1].pages == 0 && t.workers[1].processed == 1 && t.workers[1].lim == SERVER.limits
    ensures t.db.jobs[0].status == JobQueued && t.clock <= t.workers[1].lease && t.server == SERVER
    ensures t.db.jobs[0].config == JobConfig(None, None, None, None, false, true)
  {
    t := AboutToRetry(r, R);
    t := TakeFirst(r, R, t, 1, t.db.domains);
  }

  lemma TakenToProbe(r: Regime, R: State -> bool) returns (t: State)
    requires Closed(r, R) && r.workers >= 2
    ensures R(t) && Wf(t) && |t.workers| == 2 && |t.db.jobs| == |t.db.cands| == 1 && t.db.cands[0].job == 0
    ensures t.workers[0].phase == Holds(AtRetryWrite) && t.workers[0].cand == 0 && t.workers[0].attempts == 1
    ensures t.workers[1].phase == Holds(AtProbe) && t.workers[1].job == t.workers[1].cand == 0
    ensures t.workers[1].pages == 0 && t.workers[1].processed == 1 && t.workers[1].lim == SERVER.limits
    ensures t.db.jobs[0].status == JobQueued && t.clock <= t.workers[1].lease
  {
    t := TakenOver(r, R);
    assert t.db.jobs[0].config == JobConfig(None, None, None, None, false, true);
    t := ReachProbe(r, R, t, 1);
  }

  /** It finds the host inactive, completes the candidate, and then the job. */
  lemma SecondCompletes(r: Regime, R: State -> bool) returns (t: State)
    requires Closed(r, R) && r.workers >= 2
    ensures R(t) && Wf(t) && |t.workers| == 2 && t.workers[1].phase == Returned && |t.db.cands| == 1
    ensures t.workers[0].phase == Holds(AtRetryWrite) && t.workers[0].cand == 0 && t.workers[0].attempts == 1
    ensures IsCompleted(t, 0) && t.db.cands[0].job == 0 && t.db.cands[0].status == Completed
  {
    t := TakenToProbe(r, R);
    t := Hop(r, R, t, 1, Probe(false),
             t.workers[1].(phase := Holds(AtSettle), verdict := Completed, after := ToTop), t.db);
    t := SettleFirst(r, R, t, 1);
    t := SecondCloses(r, R, t);
  }

  /** The first worker's late write reopens the candidate of the completed job. */
  lemma StaleWriteBreaks(r: Regime, R: State -> bool) returns (t: State)
    requires Closed(r, R) && r.workers >= 2 && !r.timely
    ensures R(t) && IsCompleted(t, 0) && OpenCount(t, 0) > 0
  {
    t := SecondCompletes(r, R);
    var me := t.workers[0];
    t := Hop(r, R, t, 0, RetryWrite(0), me.(phase := AtTop, settled := me.settled + 1),
             Reschedule(t.db, 0, 1, Jittered(me, t.clock, 0)));
    SumMember(t.db.cands, 0, OpenOf(0));
  }

  // ---- the characterisation

  ghost predicate EndsIn(r: Regime, states: seq<State>, actions: seq<Action>, s: State) {
    RegimeRun(r, 0, states, actions) && states[|states| - 1] == s
  }

  ghost predicate Reached(r: Regime, s: State) {
    exists states, actions :: EndsIn(r, states, actions, s)
  }

  lemma ReachedStep(r: Regime, s: State, a: Action)
    requires Reached(r, s) && CanStep(r, s, a)
    ensures Reached(r, Apply(s, a))
  {
    var states, actions :| EndsIn(r, states, actions, s);
    assert EndsIn(r, states + [Apply(s, a)], actions + [a], Apply(s, a));
  }

  lemma ReachedClosed(r: Regime)
    ensures Closed(r, (s: State) => Reached(r, s))
  {
    assert EndsIn(r, [EMPTY_SYSTEM], [], EMPTY_SYSTEM);
    forall s, a | Reached(r, s) && CanStep(r, s, a)
      ensures Reached(r, Apply(s, a))
    {
      ReachedStep(r, s, a);
    }
  }

  lemma UnsafeIsUnsound(r: Regime)
    requires !Safe(r)
    ensures !Sound(r, 0)
  {
    ReachedClosed(r);
    var R := (s: State) => Reached(r, s);
    var t: State;
    if r.imports {
      t := ImportBreaks(r, R);
    } else if r.links {
      t := LinksBreak(r, R);
    } else {
      t := StaleWriteBreaks(r, R);
    }
    var states, actions :| EndsIn(r, states, actions, t);
    assert IsCompleted(states[|states| - 1], 0);
  }

  lemma SafeIsSound(r: Regime, j: nat)
    requires Safe(r)
    ensures Sound(r, j)
  {
    forall states, actions, i: nat | RegimeRun(r, j, states, actions) && i < |states| && IsCompleted(states[i], j)
      ensures OpenCount(states[i], j) == 0
    {
      SafeRun(r, j, states, actions, i);
    }
  }

  /**
   * Completion, exactly: "a completed job never has an open candidate" holds in all runs of a regime if
   * and only if the regime is safe, that is, the job has one worker and no import after that worker
   * started, or it has any number of workers, no such import, link discovery off and timely writes.
   */
  lemma CompletionExact(r: Regime)
    ensures (forall j: nat :: Sound(r, j)) <==> Safe(r)
  {
    if Safe(r) {
      forall j: nat ensures Sound(r, j) { SafeIsSound(r, j); }
    } else {
      UnsafeIsUnsound(r);
    }
  }
}
