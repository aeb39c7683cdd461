/** What the link loop leaves behind: which rows, with what in them, and for which of a page's links. */
module Links {
  import opened Basics
  import opened Database
  import opened Protocol
  import Hosts
  import Turns

  /** The link is one to follow from a page of the domain. */
  predicate Wanted(server: Server, domain: string, link: Link) {
    link.valid && Hosts.InScope(link.domain, domain, server.allowSubdomains, server.allowExternal)
  }

  predicate Known(cands: seq<Candidate>, job: nat, norm: string) {
    exists c :: 0 <= c < |cands| && cands[c].job == job && cands[c].norm == norm
  }

  /** No claim needs to wait for a row just found: it is new, without attempts, and due at once. */
  lemma FoundRow(server: Server, clock: nat, db: Db, me: Worker)
    requires WorkerOk(server, db, me) && Ready(db, me, FollowLink) && MoreLinks(me)
    ensures me.cand < |db.cands|
    ensures
      var link, page, rows := me.links[me.next], db.cands[me.cand], NextDb(server, clock, db, me, FollowLink).cands;
      if Wanted(server, page.domain, link) && !Known(db.cands, me.job, link.norm) then
        rows == db.cands + [Candidate(page.job, link.url, link.norm, link.domain, page.url, 50, page.depth + 1,
                                      New, 0, clock, None)]
      else
        rows == db.cands
  {
  }

  /** And a seed: at depth zero, without a parent, with the priority it comes with. */
  lemma SeedRow(s: State, job: nat, url: string, norm: string, domain: string, priority: int)
    requires Wf(s) && job < |s.db.jobs|
    ensures Apply(s, Import(job, url, norm, domain, priority)).db.cands
            == if Known(s.db.cands, job, norm) then s.db.cands
               else s.db.cands + [Candidate(job, url, norm, domain, "", priority, 0, New, 0, s.clock, None)]
  {
  }

  lemma KnownStays(a: Db, b: Db, job: nat, norm: string)
    requires Grows(a, b) && Known(a.cands, job, norm)
    ensures Known(b.cands, job, norm)
  {
    var c :| 0 <= c < |a.cands| && a.cands[c].job == job && a.cands[c].norm == norm;
    assert SameRow(a.cands[c], b.cands[c]);
  }

  /** Worker w takes no step from a up to b but those of the link loop: it meets no error and does not crash. */
  predicate Following(actions: seq<Action>, w: nat, a: nat, b: nat)
    requires b <= |actions|
  {
    forall m :: a <= m < b && actions[m].By? && actions[m].w == w ==> actions[m].op.FollowLink?
  }

  /** After n links of me: the loop's variable has moved on, and every wanted one of them has its row. */
  predicate Followed(db: Db, server: Server, me: Worker, now: Worker) {
    && (now == me.(next := now.next) || (now == me.(next := now.next, phase := AtTop) && !MoreLinks(now)))
    && now.next <= |me.links|
    && forall k :: 0 <= k < now.next && Wanted(server, me.domain, me.links[k]) ==>
         Known(db.cands, me.job, me.links[k].norm)
  }

  lemma FollowStep(server: Server, clock: nat, db: Db, me: Worker, now: Worker)
    requires WorkerOk(server, db, now) && Ready(db, now, FollowLink) && me.phase == AtLinks
    requires Followed(db, server, me, now)
    ensures Followed(NextDb(server, clock, db, now, FollowLink), server, me,
                     NextWorker(server, clock, db, now, FollowLink))
  {
    var db' := NextDb(server, clock, db, now, FollowLink);
    OpGrows(server, clock, db, now, FollowLink);
    forall k | 0 <= k < now.next && Wanted(server, me.domain, me.links[k])
      ensures Known(db'.cands, me.job, me.links[k].norm)
    {
      KnownStays(db, db', me.job, me.links[k].norm);
    }
    if MoreLinks(now) {
      FoundRow(server, clock, db, now);
      var link := now.links[now.next];
      if Wanted(server, me.domain, link) && !Known(db.cands, me.job, link.norm) {
        assert db'.cands[|db.cands|].norm == link.norm;
      }
    }
  }

  lemma FollowedStays(server: Server, a: Db, b: Db, me: Worker, now: Worker)
    requires Grows(a, b) && Followed(a, server, me, now)
    ensures Followed(b, server, me, now)
  {
    forall k | 0 <= k < now.next && Wanted(server, me.domain, me.links[k])
      ensures Known(b.cands, me.job, me.links[k].norm)
    {
      KnownStays(a, b, me.job, me.links[k].norm);
    }
  }

  predicate SoFar(s: State, w: nat, me: Worker) {
    w < |s.workers| && Followed(s.db, s.server, me, s.workers[w])
  }

  lemma FollowAction(s: State, a: Action, w: nat, me: Worker)
    requires Wf(s) && Enabled(s, a) && (a.By? && a.w == w ==> a.op.FollowLink?)
    requires me.phase == AtLinks && SoFar(s, w, me)
    ensures SoFar(Apply(s, a), w, me) && Apply(s, a).server == s.server
  {
    if a.By? && a.w == w {
      FollowStep(s.server, s.clock, s.db, me, s.workers[w]);
    } else {
      Turns.OtherKept(s, a, w);
      ApplyGrows(s, a);
      FollowedStays(s.server, s.db, Apply(s, a).db, me, s.workers[w]);
    }
  }

  lemma NoneYet(db: Db, server: Server, me: Worker)
    requires me.next == 0
    ensures Followed(db, server, me, me)
  {
  }

  lemma SoFarStep(states: seq<State>, actions: seq<Action>, w: nat, i: nat, me: Worker)
    requires Run(states, actions) && i < |actions| && SoFar(states[i], w, me) && me.phase == AtLinks
    requires actions[i].By? && actions[i].w == w ==> actions[i].op.FollowLink?
    ensures SoFar(states[i + 1], w, me) && states[i + 1].server == states[i].server
  {
    Turns.StepAt(states, actions, i);
    FollowAction(states[i], actions[i], w, me);
  }

  lemma {:induction false} FollowedSoFar(states: seq<State>, actions: seq<Action>, w: nat, a: nat, b: nat, me: Worker)
    requires Run(states, actions) && a <= b < |states| && Following(actions, w, a, b)
    requires w < |states[a].workers| && me == states[a].workers[w] && me.phase == AtLinks && me.next == 0
    ensures SoFar(states[b], w, me) && states[b].server == states[a].server
  {
    if a == b {
      NoneYet(states[a].db, states[a].server, me);
    } else {
      FollowedSoFar(states, actions, w, a, b - 1, me);
      SoFarStep(states, actions, w, b - 1, me);
    }
  }

  /**
   * The link loop of a page: when its worker is back at the top, then of the page's first
   * max_candidates_per_page links each that is valid and in scope has a candidate in the job, unless the page is
   * at the greatest depth; all of it whatever others do meanwhile.
   */
  lemma LinksFollowed(states: seq<State>, actions: seq<Action>, w: nat, a: nat, b: nat, k: nat)
    requires Run(states, actions) && a <= b < |states| && w < |states[a].workers| && Following(actions, w, a, b)
    requires states[a].workers[w].phase == AtLinks && states[a].workers[w].next == 0
    requires w < |states[b].workers| ==> states[b].workers[w].phase == AtTop
    requires
      var me := states[a].workers[w];
      && k < |me.links| && k < me.lim.maxCandidates && me.depth < me.lim.maxDepth
      && Wanted(states[a].server, me.domain, me.links[k])
    ensures
      var me := states[a].workers[w];
      exists c :: 0 <= c < |states[b].db.cands| && states[b].db.cands[c].job == me.job
                  && states[b].db.cands[c].norm == me.links[k].norm
  {
    var me := states[a].workers[w];
    FollowedSoFar(states, actions, w, a, b, me);
    assert Known(states[b].db.cands, me.job, me.links[k].norm);
  }
}
