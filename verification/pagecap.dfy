/**
 * How far the page counter of a domain can run. ConsumePageBudget is a transaction of two statements: the
 * first locks and charges the job's row, but takes the domain's counter from its snapshot; the second
 * charges the domain. Several jobs of one project may do this at once.
 */
module PageCap {
  import opened Basics

  /**
   * Where a transaction stands. new values are written but not committed, and the row they belong to is
   * locked until the transaction ends.
   */
  datatype Phase =
    | Waiting(seen: nat)                        // first statement begun, snapshot taken, job row not yet locked
    | Granted(newPages: nat)                    // job row locked and charged
    | Charged(newPages: nat, newCrawl: nat)     // domain row locked and charged too
    | Ended

  datatype Txn = Txn(job: nat, dom: nat, phase: Phase)

  /** limits are the max_pages of the project's jobs that charge pages; pages and crawl the committed counters. */
  datatype System = System(limits: seq<nat>, pages: seq<nat>, crawl: seq<nat>, txns: seq<Txn>)

  datatype Action =
    | Read(job: nat, dom: nat)
    | Grant(t: nat)
    | Charge(t: nat)
    | Commit(t: nat)
    | Abort(t: nat) // refused, failed, crashed, or the job is over

  predicate LocksJob(p: Phase) {
    p.Granted? || p.Charged?
  }

  predicate Sound(s: System) {
    && |s.pages| == |s.limits|
    && forall t :: 0 <= t < |s.txns| ==> s.txns[t].job < |s.limits| && s.txns[t].dom < |s.crawl|
  }

  predicate JobFree(s: System, j: nat) {
    forall t :: 0 <= t < |s.txns| ==> !(s.txns[t].job == j && LocksJob(s.txns[t].phase))
  }

  predicate DomainFree(s: System, d: nat) {
    forall t :: 0 <= t < |s.txns| ==> !(s.txns[t].dom == d && s.txns[t].phase.Charged?)
  }

  predicate Enabled(s: System, a: Action)
    requires Sound(s)
  {
    match a
    case Read(j, d) => j < |s.limits| && d < |s.crawl|
    case Grant(t) =>
      && t < |s.txns| && s.txns[t].phase.Waiting? && JobFree(s, s.txns[t].job)
      && s.pages[s.txns[t].job] < s.limits[s.txns[t].job]
      && s.txns[t].phase.seen < s.limits[s.txns[t].job]
    case Charge(t) => t < |s.txns| && s.txns[t].phase.Granted? && DomainFree(s, s.txns[t].dom)
    case Commit(t) => t < |s.txns| && s.txns[t].phase.Charged?
    case Abort(t) => t < |s.txns|
  }

  function Move(s: System, t: nat, phase: Phase): System
    requires t < |s.txns|
  {
    s.(txns := s.txns[t := s.txns[t].(phase := phase)])
  }

  function Next(s: System, a: Action): System
    requires Sound(s) && Enabled(s, a)
  {
    match a
    case Read(j, d) => s.(txns := s.txns + [Txn(j, d, Waiting(s.crawl[d]))])
    case Grant(t) => Move(s, t, Granted(s.pages[s.txns[t].job] + 1))
    case Charge(t) => Move(s, t, Charged(s.txns[t].phase.newPages, s.crawl[s.txns[t].dom] + 1))
    case Commit(t) =>
      var txn := s.txns[t];
      Move(s, t, Ended).(pages := s.pages[txn.job := txn.phase.newPages],
                         crawl := s.crawl[txn.dom := txn.phase.newCrawl])
    case Abort(t) => Move(s, t, Ended)
  }

  predicate AllZero(s: seq<nat>) {
    forall i :: 0 <= i < |s| ==> s[i] == 0
  }

  predicate Init(s: System, limits: seq<nat>) {
    s.limits == limits && |s.pages| == |limits| && AllZero(s.pages) && AllZero(s.crawl) && s.txns == []
  }

  predicate Run(states: seq<System>, actions: seq<Action>, limits: seq<nat>) {
    && |states| == |actions| + 1 && Init(states[0], limits)
    && forall i :: 0 <= i < |actions| ==>
         Sound(states[i]) && Enabled(states[i], actions[i]) && states[i + 1] == Next(states[i], actions[i])
  }

  function Id(): nat -> nat {
    (n: nat) => n
  }

  // ---- what every run keeps

  predicate TxnOk(s: System, t: nat)
    requires Sound(s) && t < |s.txns|
  {
    var txn := s.txns[t];
    && (txn.phase.Granted? || txn.phase.Charged? ==>
          txn.phase.newPages == s.pages[txn.job] + 1 <= s.limits[txn.job])
    && (txn.phase.Charged? ==> txn.phase.newCrawl == s.crawl[txn.dom] + 1)
  }

  /** No two open transactions have locked one row. */
  predicate Apart(s: System, t: nat, u: nat)
    requires t < |s.txns| && u < |s.txns|
  {
    t != u ==>
      && !(s.txns[t].job == s.txns[u].job && LocksJob(s.txns[t].phase) && LocksJob(s.txns[u].phase))
      && !(s.txns[t].dom == s.txns[u].dom && s.txns[t].phase.Charged? && s.txns[u].phase.Charged?)
  }

  predicate Inv(s: System) {
    && Sound(s)
    && (forall j :: 0 <= j < |s.limits| ==> s.pages[j] <= s.limits[j])
    && Sum(s.crawl, Id()) == Sum(s.pages, Id())
    && (forall t :: 0 <= t < |s.txns| ==> TxnOk(s, t))
    && (forall t, u :: 0 <= t < |s.txns| && 0 <= u < |s.txns| ==> Apart(s, t, u))
  }

  lemma InvStep(s: System, a: Action)
    requires Inv(s) && Enabled(s, a)
    ensures Inv(Next(s, a))
  {
    var n := Next(s, a);
    if a.Commit? {
      var txn := s.txns[a.t];
      assert TxnOk(s, a.t);
      SumUpdate(s.pages, txn.job, txn.phase.newPages, Id());
      SumUpdate(s.crawl, txn.dom, txn.phase.newCrawl, Id());
    }
    forall t | 0 <= t < |n.txns| ensures TxnOk(n, t) {
      if t < |s.txns| {
        assert TxnOk(s, t);
        assert !a.Read? ==> Apart(s, t, a.t);
      }
    }
    forall t, u | 0 <= t < |n.txns| && 0 <= u < |n.txns| ensures Apart(n, t, u) {
      if t < |s.txns| && u < |s.txns| {
        assert Apart(s, t, u);
      }
    }
  }

  lemma {:induction false} RunInv(states: seq<System>, actions: seq<Action>, limits: seq<nat>, i: nat)
    requires Run(states, actions, limits) && i < |states|
    ensures Inv(states[i]) && states[i].limits == limits
  {
    if i == 0 {
      ZeroSum(states[0].pages);
      ZeroSum(states[0].crawl);
    } else {
      RunInv(states, actions, limits, i - 1);
      InvStep(states[i - 1], actions[i - 1]);
    }
  }

  lemma {:induction false} ZeroSum(s: seq<nat>)
    requires AllZero(s)
    ensures Sum(s, Id()) == 0
  {
    if s == [] {
    } else {
      ZeroSum(s[..|s| - 1]);
    }
  }

  lemma {:induction false} SumPointwise(a: seq<nat>, b: seq<nat>)
    requires |a| == |b| && forall i :: 0 <= i < |a| ==> a[i] <= b[i]
    ensures Sum(a, Id()) <= Sum(b, Id())
  {
    if a == [] {
    } else {
      SumPointwise(a[..|a| - 1], b[..|b| - 1]);
    }
  }

  /**
   * Committed counters: the domains' counters come to exactly what the jobs' come to, each job stays within
   * its limit, and so no domain is charged more than all the limits together, stale readings or not.
   */
  lemma CountersAgree(states: seq<System>, actions: seq<Action>, limits: seq<nat>, i: nat, d: nat)
    requires Run(states, actions, limits) && i < |states|
    ensures Sum(states[i].crawl, Id()) == Sum(states[i].pages, Id()) <= Sum(limits, Id())
    ensures d < |states[i].crawl| ==> states[i].crawl[d] <= Sum(limits, Id())
  {
    RunInv(states, actions, limits, i);
    SumPointwise(states[i].pages, limits);
    if d < |states[i].crawl| {
      SumMember(states[i].crawl, d, Id());
    }
  }

  // ---- a run that charges one domain with all the limits

  ghost predicate Reachable(s: System, limits: seq<nat>) {
    exists states, actions :: Run(states, actions, limits) && states[|states| - 1] == s
  }

  lemma Step(s: System, limits: seq<nat>, a: Action) returns (n: System)
    requires Reachable(s, limits) && Sound(s) && Enabled(s, a)
    ensures n == Next(s, a) && Reachable(n, limits)
  {
    n := Next(s, a);
    var states, actions :| Run(states, actions, limits) && states[|states| - 1] == s;
    var states', actions' := states + [n], actions + [a];
    forall i | 0 <= i < |actions'|
      ensures Sound(states'[i]) && Enabled(states'[i], actions'[i]) && states'[i + 1] == Next(states'[i], actions'[i])
    {
      assert i < |actions| ==> actions'[i] == actions[i] && states'[i] == states[i] && states'[i + 1] == states[i + 1];
    }
    assert Run(states', actions', limits);
  }

  /** Every job's number, as often as its limit says. */
  function Turns(limits: seq<nat>): seq<nat> {
    if limits == [] then []
    else Turns(limits[..|limits| - 1]) + Repeat(limits[|limits| - 1], |limits| - 1)
  }

  function Repeat(n: nat, x: nat): (r: seq<nat>)
    ensures |r| == n && forall k :: 0 <= k < n ==> r[k] == x
  {
    if n == 0 then [] else Repeat(n - 1, x) + [x]
  }

  function Is(j: nat): nat -> nat {
    (n: nat) => if n == j then 1 else 0
  }

  lemma {:induction false} SumConcat(a: seq<nat>, b: seq<nat>, f: nat -> nat)
    ensures Sum(a + b, f) == Sum(a, f) + Sum(b, f)
  {
    if b == [] {
      assert a + b == a;
    } else {
      assert a + b == (a + b[..|b| - 1]) + [b[|b| - 1]];
      SumConcat(a, b[..|b| - 1], f);
      SumAppend(a + b[..|b| - 1], b[|b| - 1], f);
    }
  }

  lemma {:induction false} CountRepeat(n: nat, x: nat)
    ensures Sum(Repeat(n, x), Is(x)) == n
  {
    if n == 0 {
    } else {
      CountRepeat(n - 1, x);
      SumAppend(Repeat(n - 1, x), x, Is(x));
    }
  }

  lemma {:induction false} TurnsMeaning(limits: seq<nat>)
    ensures |Turns(limits)| == Sum(limits, Id())
    ensures forall k :: 0 <= k < |Turns(limits)| ==> Turns(limits)[k] < |limits|
    ensures forall j :: 0 <= j < |limits| ==> Sum(Turns(limits), Is(j)) == limits[j]
  {
    if limits == [] {
    } else {
      var n := |limits| - 1;
      TurnsMeaning(limits[..n]);
      forall j | 0 <= j < |limits| ensures Sum(Turns(limits), Is(j)) == limits[j] {
        SumConcat(Turns(limits[..n]), Repeat(limits[n], n), Is(j));
        if j == n {
          CountRepeat(limits[n], n);
          NoTurn(Turns(limits[..n]), n);
        } else {
          NoTurn(Repeat(limits[n], n), j);
        }
      }
    }
  }

  lemma {:induction false} NoTurn(who: seq<nat>, j: nat)
    requires forall k :: 0 <= k < |who| ==> who[k] != j
    ensures Sum(who, Is(j)) == 0
  {
    if who == [] {
    } else {
      NoTurn(who[..|who| - 1], j);
    }
  }

  /** k of the transactions have committed; all of them took their snapshots at the very beginning. */
  function Progress(limits: seq<nat>, who: seq<nat>, k: nat): System
    requires k <= |who|
  {
    System(limits, seq(|limits|, j requires 0 <= j < |limits| => Sum(who[..k], Is(j))), [k],
           seq(|who|, t requires 0 <= t < |who| => Txn(who[t], 0, if t < k then Ended else Waiting(0))))
  }

  lemma {:induction false} AllWaiting(limits: seq<nat>, who: seq<nat>)
    requires forall k :: 0 <= k < |who| ==> who[k] < |limits|
    ensures Reachable(Progress(limits, who, 0), limits)
  {
    if who == [] {
      assert Run([Progress(limits, who, 0)], [], limits);
    } else {
      var n := |who| - 1;
      AllWaiting(limits, who[..n]);
      var s := Progress(limits, who[..n], 0);
      var t := Step(s, limits, Read(who[n], 0));
      assert t.txns == Progress(limits, who, 0).txns;
      assert t.pages == Progress(limits, who, 0).pages;
    }
  }

  lemma {:induction false} Committed(limits: seq<nat>, who: seq<nat>, k: nat)
    requires who == Turns(limits) && k <= |who|
    ensures Reachable(Progress(limits, who, k), limits)
  {
    TurnsMeaning(limits);
    if k == 0 {
      AllWaiting(limits, who);
    } else {
      Committed(limits, who, k - 1);
      CommitOne(limits, who, k - 1);
    }
  }

  /** A waiting transaction with an early snapshot runs to its commit while no other holds a lock. */
  lemma RunOne(s: System, limits: seq<nat>, k: nat) returns (n: System)
    requires Reachable(s, limits) && Sound(s) && s.limits == limits && k < |s.txns|
    requires forall t :: 0 <= t < |s.txns| ==> s.txns[t].phase == Ended || s.txns[t].phase == Waiting(0)
    requires s.txns[k].phase == Waiting(0) && s.pages[s.txns[k].job] < limits[s.txns[k].job]
    ensures Reachable(n, limits)
    ensures n == s.(pages := s.pages[s.txns[k].job := s.pages[s.txns[k].job] + 1],
                    crawl := s.crawl[s.txns[k].dom := s.crawl[s.txns[k].dom] + 1],
                    txns := s.txns[k := s.txns[k].(phase := Ended)])
  {
    n := Step(s, limits, Grant(k));
    n := Step(n, limits, Charge(k));
    n := Step(n, limits, Commit(k));
  }

  lemma {:induction false} PrefixBelow(who: seq<nat>, k: nat, f: nat -> nat)
    requires k < |who|
    ensures Sum(who[..k], f) + f(who[k]) <= Sum(who, f)
  {
    var n := |who| - 1;
    if k == n {
    } else {
      assert who[..n][..k] == who[..k];
      PrefixBelow(who[..n], k, f);
    }
  }

  lemma RoomLeft(limits: seq<nat>, who: seq<nat>, k: nat)
    requires who == Turns(limits) && k < |who|
    ensures who[k] < |limits| && Sum(who[..k], Is(who[k])) < limits[who[k]]
  {
    TurnsMeaning(limits);
    PrefixBelow(who, k, Is(who[k]));
  }

  lemma TurnReady(limits: seq<nat>, who: seq<nat>, k: nat)
    requires who == Turns(limits) && k < |who|
    ensures var s := Progress(limits, who, k);
            && Sound(s) && s.txns[k] == Txn(who[k], 0, Waiting(0)) && s.pages[who[k]] < limits[who[k]]
            && forall t :: 0 <= t < |s.txns| ==> s.txns[t].phase == Ended || s.txns[t].phase == Waiting(0)
  {
    TurnsMeaning(limits);
    RoomLeft(limits, who, k);
  }

  lemma TxnsAfter(limits: seq<nat>, who: seq<nat>, k: nat)
    requires k < |who|
    ensures Progress(limits, who, k + 1).txns == Progress(limits, who, k).txns[k := Txn(who[k], 0, Ended)]
  {
  }

  lemma CommitOne(limits: seq<nat>, who: seq<nat>, k: nat)
    requires who == Turns(limits) && k < |who| && Reachable(Progress(limits, who, k), limits)
    ensures Reachable(Progress(limits, who, k + 1), limits)
  {
    TurnReady(limits, who, k);
    var t := RunOne(Progress(limits, who, k), limits, k);
    PagesAfter(limits, who, k);
    TxnsAfter(limits, who, k);
    assert t == Progress(limits, who, k + 1);
  }

  lemma PagesAfter(limits: seq<nat>, who: seq<nat>, k: nat)
    requires k < |who| && who[k] < |limits|
    ensures var before, after := Progress(limits, who, k).pages, Progress(limits, who, k + 1).pages;
            after == before[who[k] := before[who[k]] + 1]
  {
    forall j | 0 <= j < |limits| ensures Sum(who[..k + 1], Is(j)) == Sum(who[..k], Is(j)) + Is(j)(who[k]) {
      assert who[..k + 1] == who[..k] + [who[k]];
      SumAppend(who[..k], who[k], Is(j));
    }
  }

  // ---- main results

  /** In every state of every run no domain of the project is charged more than cap. */
  ghost predicate CapHolds(limits: seq<nat>, cap: nat) {
    forall states: seq<System>, actions: seq<Action>, i: nat, d: nat ::
      Run(states, actions, limits) && i < |states| && d < |states[i].crawl| ==> states[i].crawl[d] <= cap
  }

  /** The least cap that always holds is the sum of the limits: stale readings do not stop any job at a domain. */
  lemma CapExact(limits: seq<nat>, cap: nat)
    ensures CapHolds(limits, cap) <==> Sum(limits, Id()) <= cap
  {
    if Sum(limits, Id()) <= cap {
      forall states: seq<System>, actions: seq<Action>, i: nat, d: nat |
        Run(states, actions, limits) && i < |states| && d < |states[i].crawl|
        ensures states[i].crawl[d] <= cap
      {
        CountersAgree(states, actions, limits, i, d);
      }
    } else {
      var who := Turns(limits);
      TurnsMeaning(limits);
      Committed(limits, who, |who|);
      var states: seq<System>, actions: seq<Action> :|
        Run(states, actions, limits) && states[|states| - 1] == Progress(limits, who, |who|);
      assert states[|states| - 1].crawl[0] > cap;
    }
  }

  /** limits has its largest element at m. */
  predicate Largest(limits: seq<nat>, m: nat) {
    m < |limits| && forall j :: 0 <= j < |limits| ==> limits[j] <= limits[m]
  }

  /**
   * What the code means the cap to be, the largest max_pages of the jobs that charge pages, holds in all
   * runs if and only if only one job of the project does; limits are at least 1, as createJob makes them.
   */
  lemma CapNeedsOneJob(limits: seq<nat>, m: nat)
    requires Largest(limits, m) && forall j :: 0 <= j < |limits| ==> limits[j] >= 1
    ensures CapHolds(limits, limits[m]) <==> |limits| == 1
  {
    CapExact(limits, limits[m]);
    if |limits| == 1 {
      assert limits == [] + [limits[0]];
      SumAppend([], limits[0], Id());
    } else {
      var k := if m == 0 then 1 else 0;
      SumUpdate(limits, m, 0, Id());
      SumMember(limits[m := 0], k, Id());
    }
  }
}
