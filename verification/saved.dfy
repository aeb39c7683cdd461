/** What becomes of a page row: written once per domain and URL, and never lost. */
module SavedPages {
  import opened Database
  import opened Protocol
  import Turns

  /** UpsertPage, by what it does to the table: the row is there, and nothing else has changed. */
  lemma UpsertedPage(db: Db, d: nat, url: string)
    ensures
      var before, after := db.pages, UpsertPage(db, d, url).pages;
      && PageRow(d, url) in after
      && before <= after && |after| <= |before| + 1
      && (PageRow(d, url) in before <==> after == before)
      && UpsertPage(db, d, url) == db.(pages := after)
  {
    if PageRow(d, url) !in db.pages {
      assert UpsertPage(db, d, url).pages[|db.pages|] == PageRow(d, url);
    }
  }

  predicate UniquePages(pages: seq<PageRow>) {
    forall p, q :: 0 <= p < q < |pages| ==> pages[p] != pages[q]
  }

  /** Of the page table an operation leaves every row in place, and adds at most one, by SavePage. */
  lemma PageTableMoves(server: Server, clock: nat, db: Db, me: Worker, op: Op)
    requires WorkerOk(server, db, me) && Ready(db, me, op)
    ensures NextDb(server, clock, db, me, op).pages
            == if op.SavePage? then UpsertPage(db, me.dom, me.pageURL).pages else db.pages
  {
  }

  lemma PagesStep(s: State, a: Action)
    requires Wf(s) && Enabled(s, a)
    ensures s.db.pages <= Apply(s, a).db.pages
    ensures UniquePages(s.db.pages) ==> UniquePages(Apply(s, a).db.pages)
  {
    if a.By? {
      var me := s.workers[a.w];
      PageTableMoves(s.server, s.clock, s.db, me, a.op);
      UpsertedPage(s.db, me.dom, me.pageURL);
    }
  }

  lemma PagesAt(states: seq<State>, actions: seq<Action>, i: nat)
    requires Run(states, actions) && i < |actions|
    ensures states[i].db.pages <= states[i + 1].db.pages
    ensures UniquePages(states[i].db.pages) ==> UniquePages(states[i + 1].db.pages)
  {
    Turns.StepAt(states, actions, i);
    PagesStep(states[i], actions[i]);
  }

  lemma PrefixTransitive(a: seq<PageRow>, b: seq<PageRow>, c: seq<PageRow>)
    requires a <= b <= c
    ensures a <= c
  {
    assert c[..|a|] == b[..|a|];
  }

  lemma {:induction false} Growing(tables: seq<seq<PageRow>>, i: nat, k: nat)
    requires forall m :: 0 <= m < |tables| - 1 ==> tables[m] <= tables[m + 1]
    requires i <= k < |tables|
    ensures tables[i] <= tables[k]
  {
    if i < k {
      Growing(tables, i, k - 1);
      PrefixTransitive(tables[i], tables[k - 1], tables[k - 1 + 1]);
    }
  }

  lemma PagesStay(states: seq<State>, actions: seq<Action>, i: nat, k: nat)
    requires Run(states, actions) && i <= k < |states|
    ensures states[i].db.pages <= states[k].db.pages
  {
    var tables := seq(|states|, m requires 0 <= m < |states| => states[m].db.pages);
    forall m | 0 <= m < |tables| - 1
      ensures tables[m] <= tables[m + 1]
    {
      PagesAt(states, actions, m);
    }
    Growing(tables, i, k);
  }

  /** One row per domain and URL, in every state of every run. */
  lemma {:induction false} OneRowPerPage(states: seq<State>, actions: seq<Action>, i: nat)
    requires Run(states, actions) && Init(states[0]) && i < |states|
    ensures UniquePages(states[i].db.pages)
  {
    if i == 0 {
    } else {
      OneRowPerPage(states, actions, i - 1);
      PagesAt(states, actions, i - 1);
    }
  }

  /** What SavePage wrote, whether or not its worker learned of it, is in the table of every later state. */
  lemma SavedStays(states: seq<State>, actions: seq<Action>, i: nat, k: nat, w: nat, matched: bool, deep: bool,
                   ack: bool)
    requires Run(states, actions) && i < k < |states| && actions[i] == By(w, SavePage(matched, deep, ack))
    ensures w < |states[i].workers|
    ensures PageRow(states[i].workers[w].dom, states[i].workers[w].pageURL) in states[k].db.pages
  {
    Turns.StepAt(states, actions, i);
    var me := states[i].workers[w];
    PageTableMoves(states[i].server, states[i].clock, states[i].db, me, actions[i].op);
    UpsertedPage(states[i].db, me.dom, me.pageURL);
    PagesStay(states, actions, i + 1, k);
  }

  /** The fetched URL is the one that is pending, for the domain of the job's project and the candidate's name. */
  lemma FetchKeeps(server: Server, clock: nat, db: Db, me: Worker, url: string, links: seq<Link>, rendered: bool)
    requires WorkerOk(server, db, me) && Ready(db, me, Fetch(Page(url, links), rendered))
    ensures
      var me' := NextWorker(server, clock, db, me, Fetch(Page(url, links), rendered));
      && me'.pageURL == url && me'.links == links && me'.dom == me.dom && me'.phase == Holds(AtSavePage)
      && me.cand < |db.cands| && me.job < |db.jobs| && me.dom < |db.domains|
      && db.domains[me.dom].name == db.cands[me.cand].domain
      && db.domains[me.dom].project == db.jobs[me.job].project
  {
  }

  /**
   * A page that was fetched and then saved by its worker has a row, from then on: the fetched URL, under the
   * domain row of the candidate's domain in the job's project.
   */
  lemma FetchedIsSaved(states: seq<State>, actions: seq<Action>, f: nat, i: nat, k: nat, w: nat, url: string,
                       links: seq<Link>, rendered: bool, matched: bool, deep: bool)
    requires Run(states, actions) && f < i < k < |states|
    requires actions[f] == By(w, Fetch(Page(url, links), rendered)) && Turns.Quiet(actions, w, f + 1, i)
    requires actions[i] == By(w, SavePage(matched, deep, true))
    ensures w < |states[f].workers|
    ensures
      var me, db := states[f].workers[w], states[f].db;
      && me.cand < |db.cands| && me.job < |db.jobs| && me.dom < |db.domains|
      && db.domains[me.dom].name == db.cands[me.cand].domain
      && db.domains[me.dom].project == db.jobs[me.job].project
      && PageRow(me.dom, url) in states[k].db.pages
  {
    Turns.StepAt(states, actions, f);
    FetchKeeps(states[f].server, states[f].clock, states[f].db, states[f].workers[w], url, links, rendered);
    Turns.WorkerKept(states, actions, w, f + 1, i);
    SavedStays(states, actions, i, k, w, matched, deep, true);
  }
}
