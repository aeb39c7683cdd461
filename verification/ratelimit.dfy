/**
 * AcquireDomainRateLimit as a state machine: any number of callers, one row per domain, and the row lock
 * that INSERT ... ON CONFLICT DO UPDATE takes. The row is set to now(), which is the start of the
 * transaction by the database's clock, while the interval is checked against a later reading of the engine's
 * own clock, which may be any; how far that reading can lie ahead of now() is the one thing assumed.
 */
module RateLimit {

  datatype Phase =
    | Idle
    | Began(dom: string, start: nat)                                  // transaction opened
    | Locked(dom: string, start: nat, last: nat)                      // row locked, last_started_at read
    | Granting(dom: string, start: nat, last: nat, seen: nat)         // interval has passed; UPDATE and COMMIT pending

  /** A committed grant: the time stored in the row, and the clock reading that allowed it. */
  datatype Grant = Grant(start: nat, seen: nat)

  datatype Limiter = Limiter(interval: nat, clock: nat, rows: map<string, nat>, callers: seq<Phase>,
                             grants: map<string, seq<Grant>>)

  datatype Action =
    | Tick(elapsed: nat)
    | Call(w: nat, dom: string)
    | Lock(w: nat)
    | Check(w: nat, now: nat) // now is the engine's clock
    | Commit(w: nat)
    | Abort(w: nat)    // an error, a cancelled context or a crash: rolled back
    | Join             // one more caller

  function Stored(rows: map<string, nat>, dom: string): nat {
    if dom in rows then rows[dom] else 0 // 'epoch'
  }

  function Grants(l: Limiter, dom: string): seq<Grant> {
    if dom in l.grants then l.grants[dom] else []
  }

  predicate InRow(p: Phase, dom: string) {
    (p.Locked? || p.Granting?) && p.dom == dom
  }

  predicate Enabled(l: Limiter, a: Action) {
    match a
    case Tick(_) => true
    case Join => true
    case Call(w, _) => w < |l.callers| && l.callers[w].Idle?
    case Lock(w) => w < |l.callers| && l.callers[w].Began? &&
                    forall v :: 0 <= v < |l.callers| ==> !InRow(l.callers[v], l.callers[w].dom)
    case Check(w, _) => w < |l.callers| && l.callers[w].Locked?
    case Commit(w) => w < |l.callers| && l.callers[w].Granting?
    case Abort(w) => w < |l.callers| && !l.callers[w].Idle?
  }

  function Apply(l: Limiter, a: Action): Limiter
    requires Enabled(l, a)
  {
    match a
    case Tick(elapsed) => l.(clock := l.clock + elapsed)
    case Join => l.(callers := l.callers + [Idle])
    case Call(w, dom) => l.(callers := l.callers[w := Began(dom, l.clock)])
    case Lock(w) =>
      var me := l.callers[w];
      l.(callers := l.callers[w := Locked(me.dom, me.start, Stored(l.rows, me.dom))])
    case Check(w, now) =>
      var me := l.callers[w];
      var wait := l.interval - (now - me.last);
      l.(callers := l.callers[w := if wait <= 0 then Granting(me.dom, me.start, me.last, now) else Idle])
    case Commit(w) =>
      var me := l.callers[w];
      l.(rows := l.rows[me.dom := me.start],
         grants := l.grants[me.dom := Grants(l, me.dom) + [Grant(me.start, me.seen)]],
         callers := l.callers[w := Idle])
    case Abort(w) => l.(callers := l.callers[w := Idle])
  }

  predicate Init(l: Limiter) {
    l.rows == map[] && l.grants == map[] && l.callers == []
  }

  /** The reading is at most d past the start of its transaction: the latency, and what the engine's clock is ahead. */
  predicate Prompt(l: Limiter, a: Action, d: nat) {
    a.Check? && a.w < |l.callers| && l.callers[a.w].Locked? ==> a.now - l.callers[a.w].start <= d
  }

  predicate Follows(l: Limiter, a: Action, t: Limiter, d: nat) {
    Enabled(l, a) && Prompt(l, a, d) && t == Apply(l, a)
  }

  predicate Run(states: seq<Limiter>, actions: seq<Action>, d: nat) {
    && |states| == |actions| + 1 && Init(states[0])
    && forall i :: 0 <= i < |actions| ==> Follows(states[i], actions[i], states[i + 1], d)
  }

  // ---- invariant

  predicate CallerOk(l: Limiter, w: nat, d: nat)
    requires w < |l.callers|
  {
    match l.callers[w]
    case Idle => true
    case Began(_, start) => start <= l.clock
    case Locked(dom, start, last) => start <= l.clock && last == Stored(l.rows, dom)
    case Granting(dom, start, last, seen) =>
      start <= l.clock && seen - start <= d && last == Stored(l.rows, dom) && seen - last >= l.interval
  }

  predicate GrantsOk(l: Limiter, dom: string, d: nat) {
    var g := Grants(l, dom);
    && (forall k :: 0 <= k < |g| ==> g[k].seen <= g[k].start + d)
    && (forall k :: 0 <= k < |g| - 1 ==> g[k].start + l.interval <= g[k + 1].seen)
    && (g != [] ==> Stored(l.rows, dom) == g[|g| - 1].start)
  }

  ghost predicate Inv(l: Limiter, d: nat) {
    && (forall w :: 0 <= w < |l.callers| ==> CallerOk(l, w, d))
    && (forall v, w, dom | 0 <= v < |l.callers| && 0 <= w < |l.callers| ::
          InRow(l.callers[v], dom) && InRow(l.callers[w], dom) ==> v == w)
    && (forall dom :: GrantsOk(l, dom, d))
  }

  lemma CallerStep(l: Limiter, a: Action, d: nat, w: nat)
    requires Inv(l, d) && Enabled(l, a) && Prompt(l, a, d) && w < |Apply(l, a).callers|
    ensures CallerOk(Apply(l, a), w, d)
  {
    if w < |l.callers| {
      assert CallerOk(l, w, d);
      if a.Commit? && w != a.w {
        assert InRow(l.callers[a.w], l.callers[a.w].dom);
        assert !InRow(l.callers[w], l.callers[a.w].dom);
      }
    }
  }

  lemma GrantStep(l: Limiter, a: Action, d: nat, dom: string)
    requires Inv(l, d) && Enabled(l, a) && Prompt(l, a, d)
    ensures GrantsOk(Apply(l, a), dom, d)
  {
    assert GrantsOk(l, dom, d);
    if a.Commit? {
      assert CallerOk(l, a.w, d);
    }
  }

  lemma InvStep(l: Limiter, a: Action, d: nat)
    requires Inv(l, d) && Enabled(l, a) && Prompt(l, a, d)
    ensures Inv(Apply(l, a), d)
  {
    var t := Apply(l, a);
    forall w | 0 <= w < |t.callers| ensures CallerOk(t, w, d) { CallerStep(l, a, d, w); }
    forall dom ensures GrantsOk(t, dom, d) { GrantStep(l, a, d, dom); }
  }

  lemma {:induction false} RunInv(states: seq<Limiter>, actions: seq<Action>, d: nat, i: nat)
    requires Run(states, actions, d) && i < |states|
    ensures Inv(states[i], d) && states[i].interval == states[0].interval
  {
    if i == 0 {
    } else {
      RunInv(states, actions, d, i - 1);
      assert Follows(states[i - 1], actions[i - 1], states[i - 1 + 1], d);
      InvStep(states[i - 1], actions[i - 1], d);
    }
  }

  // ---- main results

  lemma {:induction false} Apart(l: Limiter, dom: string, d: nat, k: nat, m: nat)
    requires Inv(l, d) && d <= l.interval && k + m < |Grants(l, dom)|
    ensures Grants(l, dom)[k + m].start >= Grants(l, dom)[k].start + m * (l.interval - d)
    ensures Grants(l, dom)[k + m].seen >= Grants(l, dom)[k].seen + m * (l.interval - d)
  {
    assert GrantsOk(l, dom, d);
    if m == 0 {
    } else {
      Apart(l, dom, d, k, m - 1);
      var g := Grants(l, dom);
      assert g[k + m - 1].start + l.interval <= g[k + m - 1 + 1].seen;
      assert m * (l.interval - d) == (m - 1) * (l.interval - d) + (l.interval - d);
    }
  }

  /**
   * Rate spacing: over all callers, if every reading is at most d past its transaction's start, the k-th and
   * (k+m)-th grants for a domain are at least m * (interval - d) apart, both by the stored times and by
   * the clock readings that allowed them. So m + 1 grants never fit into less than m * (interval - d).
   */
  lemma RateSpacing(states: seq<Limiter>, actions: seq<Action>, d: nat, i: nat, dom: string, k: nat, m: nat)
    requires Run(states, actions, d) && i < |states| && d <= states[0].interval
    requires k + m < |Grants(states[i], dom)|
    ensures
      var g, gap := Grants(states[i], dom), states[0].interval - d;
      && g[k + m].start - g[k].start >= m * gap
      && g[k + m].seen - g[k].seen >= m * gap
  {
    RunInv(states, actions, d, i);
    Apart(states[i], dom, d, k, m);
  }

  /** Grants that are next to each other are always at least gap apart, in every run with latency at most d. */
  ghost predicate AlwaysSpaced(interval: nat, d: nat, gap: nat) {
    forall states: seq<Limiter>, actions: seq<Action>, i: nat, dom: string, k: nat ::
      Run(states, actions, d) && states[0].interval == interval && i < |states| && k + 1 < |Grants(states[i], dom)|
      ==> Grants(states[i], dom)[k + 1].start >= Grants(states[i], dom)[k].start + gap
  }

  /** Two callers, the second of which opens its transaction d before the interval is over. */
  function TightActions(interval: nat, d: nat): seq<Action>
    requires d <= interval
  {
    [Join, Tick(interval), Call(0, "d"), Lock(0), Check(0, interval), Commit(0),
     Tick(interval - d), Call(0, "d"), Tick(d), Lock(0), Check(0, interval + interval), Commit(0)]
  }

  /** The states of the tight run, written out. */
  function TightStates(interval: nat, d: nat): seq<Limiter>
    requires d <= interval
  {
    var t := interval;
    var one := map["d" := t];
    var first := map["d" := [Grant(t, t)]];
    [Limiter(t, 0, map[], [], map[]),
     Limiter(t, 0, map[], [Idle], map[]),
     Limiter(t, t, map[], [Idle], map[]),
     Limiter(t, t, map[], [Began("d", t)], map[]),
     Limiter(t, t, map[], [Locked("d", t, 0)], map[]),
     Limiter(t, t, map[], [Granting("d", t, 0, t)], map[]),
     Limiter(t, t, one, [Idle], first),
     Limiter(t, t + t - d, one, [Idle], first),
     Limiter(t, t + t - d, one, [Began("d", t + t - d)], first),
     Limiter(t, t + t, one, [Began("d", t + t - d)], first),
     Limiter(t, t + t, one, [Locked("d", t + t - d, t)], first),
     Limiter(t, t + t, one, [Granting("d", t + t - d, t, t + t)], first),
     Limiter(t, t + t, map["d" := t + t - d], [Idle], map["d" := [Grant(t, t), Grant(t + t - d, t + t)]])]
  }

  lemma CommitFollows(l: Limiter, t: Limiter, d: nat)
    requires l.callers != [] && l.callers[0].Granting? && l.callers[0].dom == "d"
    requires t.rows == l.rows["d" := l.callers[0].start]
    requires t.grants == l.grants["d" := Grants(l, "d") + [Grant(l.callers[0].start, l.callers[0].seen)]]
    requires t.callers == l.callers[0 := Idle] && t.interval == l.interval && t.clock == l.clock
    ensures Follows(l, Commit(0), t, d)
  {
  }

  lemma TightStart(interval: nat, d: nat)
    requires d <= interval
    ensures var ss, aa := TightStates(interval, d), TightActions(interval, d);
            forall i :: 0 <= i < 6 ==> Follows(ss[i], aa[i], ss[i + 1], d)
  {
    var ss, aa := TightStates(interval, d), TightActions(interval, d);
    var first := Grant(interval, interval);
    assert Grants(ss[5], "d") + [first] == [first];
    CommitFollows(ss[5], ss[6], d);
    assert Follows(ss[0], aa[0], ss[1], d) && Follows(ss[1], aa[1], ss[2], d) && Follows(ss[2], aa[2], ss[3], d);
    assert Follows(ss[3], aa[3], ss[4], d) && Follows(ss[4], aa[4], ss[5], d);
  }

  lemma TightEnd(interval: nat, d: nat)
    requires d <= interval
    ensures var ss, aa := TightStates(interval, d), TightActions(interval, d);
            forall i :: 6 <= i < 12 ==> Follows(ss[i], aa[i], ss[i + 1], d)
  {
    var ss, aa := TightStates(interval, d), TightActions(interval, d);
    var t := interval;
    var first, second := Grant(t, t), Grant(t + t - d, t + t);
    assert Grants(ss[11], "d") + [second] == [first, second];
    CommitFollows(ss[11], ss[12], d);
    assert Follows(ss[6], aa[6], ss[7], d) && Follows(ss[7], aa[7], ss[8], d) && Follows(ss[8], aa[8], ss[9], d);
    assert Follows(ss[9], aa[9], ss[10], d) && Follows(ss[10], aa[10], ss[11], d);
  }

  lemma TightRun(interval: nat, d: nat)
    requires d <= interval
    ensures Run(TightStates(interval, d), TightActions(interval, d), d)
  {
    TightStart(interval, d);
    TightEnd(interval, d);
  }

  /** The gap the limiter guarantees is exactly interval - d: a larger one fails in some run. */
  lemma SpacingExact(interval: nat, d: nat, gap: nat)
    requires d <= interval
    ensures AlwaysSpaced(interval, d, gap) <==> gap + d <= interval
  {
    if gap + d <= interval {
      forall states: seq<Limiter>, actions: seq<Action>, i: nat, dom: string, k: nat |
        Run(states, actions, d) && states[0].interval == interval && i < |states| && k + 1 < |Grants(states[i], dom)|
        ensures Grants(states[i], dom)[k + 1].start >= Grants(states[i], dom)[k].start + gap
      {
        RateSpacing(states, actions, d, i, dom, k, 1);
      }
    } else {
      TightRun(interval, d);
      var states := TightStates(interval, d);
      assert Grants(states[12], "d")[0 + 1].start < Grants(states[12], "d")[0].start + gap;
    }
  }

  // ---- stretches of runs, as a caller of AcquireDomainRateLimit sees them

  /** Whose steps a stretch may hold: anyone's, those of all but caller u, or all but a grant to u. */
  datatype Scope = Anyone | Others(u: nat) | Ungranted(u: nat)

  predicate TakenBy(a: Action, u: nat) {
    !a.Tick? && !a.Join? && a.w == u
  }

  predicate Allowed(sc: Scope, a: Action) {
    match sc
    case Anyone => true
    case Others(u) => !TakenBy(a, u)
    case Ungranted(u) => a != Commit(u)
  }

  predicate Path(states: seq<Limiter>, actions: seq<Action>, d: nat, sc: Scope) {
    && |states| == |actions| + 1
    && forall i :: 0 <= i < |actions| ==> Follows(states[i], actions[i], states[i + 1], d) && Allowed(sc, actions[i])
  }

  /** Steps within sc lead from s to t. */
  ghost predicate Reaches(s: Limiter, t: Limiter, d: nat, sc: Scope) {
    exists states, actions :: Path(states, actions, d, sc) && states[0] == s && states[|states| - 1] == t
  }

  /** l ends some run with latency at most d. */
  ghost predicate Reachable(l: Limiter, d: nat) {
    exists states, actions :: Run(states, actions, d) && states[|states| - 1] == l
  }

  lemma Here(s: Limiter, d: nat, sc: Scope)
    ensures Reaches(s, s, d, sc)
  {
    assert Path([s], [], d, sc) && [s][0] == s;
  }

  lemma Single(s: Limiter, a: Action, t: Limiter, d: nat, sc: Scope)
    requires Follows(s, a, t, d) && Allowed(sc, a)
    ensures Reaches(s, t, d, sc)
  {
    var states, actions := [s, t], [a];
    assert Path(states, actions, d, sc) && states[0] == s && states[|states| - 1] == t;
  }

  lemma Through(s: Limiter, t: Limiter, u: Limiter, d: nat, sc: Scope)
    requires Reaches(s, t, d, sc) && Reaches(t, u, d, sc)
    ensures Reaches(s, u, d, sc)
  {
    var states, actions :| Path(states, actions, d, sc) && states[0] == s && states[|states| - 1] == t;
    var states', actions' :| Path(states', actions', d, sc) && states'[0] == t && states'[|states'| - 1] == u;
    var all, acts := states + states'[1..], actions + actions';
    forall i | 0 <= i < |acts|
      ensures Follows(all[i], acts[i], all[i + 1], d) && Allowed(sc, acts[i])
    {
      if i < |actions| {
        assert all[i] == states[i] && all[i + 1] == states[i + 1];
      } else {
        var k := i - |actions|;
        assert all[i] == states'[k] && all[i + 1] == states'[k + 1];
      }
    }
    assert Path(all, acts, d, sc) && all[0] == s && all[|all| - 1] == u;
  }

  lemma Onward(s: Limiter, t: Limiter, a: Action, u: Limiter, d: nat, sc: Scope)
    requires Reaches(s, t, d, sc) && Follows(t, a, u, d) && Allowed(sc, a)
    ensures Reaches(s, u, d, sc)
  {
    Single(t, a, u, d, sc);
    Through(s, t, u, d, sc);
  }

  lemma Widened(s: Limiter, t: Limiter, d: nat, sc: Scope, wide: Scope)
    requires Reaches(s, t, d, sc) && (wide.Anyone? || (sc.Others? && wide == Ungranted(sc.u)))
    ensures Reaches(s, t, d, wide)
  {
    var states, actions :| Path(states, actions, d, sc) && states[0] == s && states[|states| - 1] == t;
    assert Path(states, actions, d, wide);
  }

  lemma KeptByStep(s: Limiter, a: Action, t: Limiter, d: nat, u: nat)
    requires Follows(s, a, t, d) && !TakenBy(a, u) && u < |s.callers|
    ensures u < |t.callers| && t.callers[u] == s.callers[u] && s.clock <= t.clock && t.interval == s.interval
  {
  }

  lemma {:induction false} KeptByPath(states: seq<Limiter>, actions: seq<Action>, d: nat, u: nat, i: nat)
    requires Path(states, actions, d, Others(u)) && i < |states| && u < |states[0].callers|
    ensures u < |states[i].callers| && states[i].callers[u] == states[0].callers[u]
    ensures states[0].clock <= states[i].clock && states[i].interval == states[0].interval
  {
    if i == 0 {
    } else {
      KeptByPath(states, actions, d, u, i - 1);
      assert Follows(states[i - 1], actions[i - 1], states[i - 1 + 1], d);
      KeptByStep(states[i - 1], actions[i - 1], states[i], d, u);
    }
  }

  /** Nobody else moves a caller, and time does not go back. */
  lemma OthersKeep(s: Limiter, t: Limiter, d: nat, u: nat)
    requires Reaches(s, t, d, Others(u)) && u < |s.callers|
    ensures u < |t.callers| && t.callers[u] == s.callers[u] && s.clock <= t.clock && t.interval == s.interval
  {
    var states, actions :| Path(states, actions, d, Others(u)) && states[0] == s && states[|states| - 1] == t;
    KeptByPath(states, actions, d, u, |states| - 1);
  }

  lemma StillReachable(s: Limiter, t: Limiter, d: nat, sc: Scope)
    requires Reachable(s, d) && Reaches(s, t, d, sc)
    ensures Reachable(t, d)
  {
    var first, acts :| Run(first, acts, d) && first[|first| - 1] == s;
    assert Path(first, acts, d, Anyone);
    assert Reaches(first[0], s, d, Anyone);
    Widened(s, t, d, sc, Anyone);
    Through(first[0], s, t, d, Anyone);
    var states, actions :| Path(states, actions, d, Anyone) && states[0] == first[0] && states[|states| - 1] == t;
    assert Run(states, actions, d);
  }

  lemma ReachableInv(l: Limiter, d: nat)
    requires Reachable(l, d)
    ensures Inv(l, d)
  {
    var states, actions :| Run(states, actions, d) && states[|states| - 1] == l;
    RunInv(states, actions, d, |states| - 1);
  }

  /** The k-th and the next grant of every domain are at least gap apart. */
  ghost predicate Spaced(l: Limiter, gap: nat) {
    forall dom: string, k: nat ::
      k + 1 < |Grants(l, dom)| ==> Grants(l, dom)[k + 1].start >= Grants(l, dom)[k].start + gap
  }

  lemma ReachableSpaced(l: Limiter, d: nat)
    requires Reachable(l, d) && d <= l.interval
    ensures Spaced(l, l.interval - d)
  {
    ReachableInv(l, d);
    forall dom: string, k: nat | k + 1 < |Grants(l, dom)|
      ensures Grants(l, dom)[k + 1].start >= Grants(l, dom)[k].start + (l.interval - d)
    {
      Apart(l, dom, d, k, 1);
    }
  }

  // ---- one transaction of one caller

  /** How a transaction's statements found the limiter, and the clock reading of its check. */
  datatype Attempt = Attempt(call: Limiter, lock: Limiter, check: Limiter, commit: Limiter, now: nat)

  /** From before, caller u took Call and Lock for dom and is about to Check, the others acting in between. */
  ghost predicate Asked(before: Limiter, t: Attempt, u: nat, dom: string, d: nat) {
    && Reaches(before, t.call, d, Others(u)) && Enabled(t.call, Call(u, dom))
    && Reaches(Apply(t.call, Call(u, dom)), t.lock, d, Others(u)) && Enabled(t.lock, Lock(u))
    && Reaches(Apply(t.lock, Lock(u)), t.check, d, Others(u))
    && Enabled(t.check, Check(u, t.now)) && Prompt(t.check, Check(u, t.now), d)
  }

  ghost predicate Refused(before: Limiter, t: Attempt, after: Limiter, u: nat, dom: string, d: nat) {
    Asked(before, t, u, dom, d) && after == Apply(t.check, Check(u, t.now)) && after.callers[u].Idle?
  }

  ghost predicate Granted(before: Limiter, t: Attempt, after: Limiter, u: nat, dom: string, d: nat) {
    && Asked(before, t, u, dom, d)
    && Reaches(Apply(t.check, Check(u, t.now)), t.commit, d, Others(u))
    && Enabled(t.commit, Commit(u)) && after == Apply(t.commit, Commit(u))
  }

  lemma AskedMeans(before: Limiter, t: Attempt, u: nat, dom: string, d: nat)
    requires Asked(before, t, u, dom, d) && Reachable(before, d)
    ensures u < |t.check.callers| && t.check.callers[u] == Locked(dom, t.call.clock, Stored(t.lock.rows, dom))
    ensures Stored(t.check.rows, dom) == Stored(t.lock.rows, dom) && Reachable(t.check, d)
    ensures Reaches(before, t.check, d, Ungranted(u))
  {
    var began, locked, sc := Apply(t.call, Call(u, dom)), Apply(t.lock, Lock(u)), Ungranted(u);
    OthersKeep(began, t.lock, d, u);
    OthersKeep(locked, t.check, d, u);
    Widened(before, t.call, d, Others(u), sc);
    Onward(before, t.call, Call(u, dom), began, d, sc);
    Widened(began, t.lock, d, Others(u), sc);
    Through(before, began, t.lock, d, sc);
    Onward(before, t.lock, Lock(u), locked, d, sc);
    Widened(locked, t.check, d, Others(u), sc);
    Through(before, locked, t.check, d, sc);
    StillReachable(before, t.check, d, sc);
    ReachableInv(t.check, d);
    assert CallerOk(t.check, u, d);
  }

  /** A refusal: the row read was too recent, its transaction stores nothing, and the row is as it was read. */
  lemma RefusalMeans(before: Limiter, t: Attempt, after: Limiter, u: nat, dom: string, d: nat)
    requires Refused(before, t, after, u, dom, d) && Reachable(before, d)
    ensures t.now - Stored(t.lock.rows, dom) < t.check.interval
    ensures after.rows == t.check.rows && after.grants == t.check.grants
    ensures Stored(after.rows, dom) == Stored(t.lock.rows, dom)
    ensures Reaches(before, after, d, Ungranted(u))
  {
    AskedMeans(before, t, u, dom, d);
    Onward(before, t.check, Check(u, t.now), after, d, Ungranted(u));
  }

  /**
   * A grant: the interval since the stored start has passed by the reading, which is at most d past the
   * transaction's start; that start replaces the one that was read, still in place, and nothing else changes.
   */
  lemma GrantMeans(before: Limiter, t: Attempt, after: Limiter, u: nat, dom: string, d: nat)
    requires Granted(before, t, after, u, dom, d) && Reachable(before, d)
    ensures t.check.interval <= t.now - Stored(t.lock.rows, dom) && t.now - t.call.clock <= d
    ensures Stored(t.commit.rows, dom) == Stored(t.lock.rows, dom)
    ensures after.rows == t.commit.rows[dom := t.call.clock]
    ensures Grants(after, dom) == Grants(t.commit, dom) + [Grant(t.call.clock, t.now)]
    ensures Reaches(before, after, d, Anyone)
  {
    AskedMeans(before, t, u, dom, d);
    var checked := Apply(t.check, Check(u, t.now));
    OthersKeep(checked, t.commit, d, u);
    Widened(before, t.check, d, Ungranted(u), Anyone);
    Onward(before, t.check, Check(u, t.now), checked, d, Anyone);
    Widened(checked, t.commit, d, Others(u), Anyone);
    Through(before, checked, t.commit, d, Anyone);
    StillReachable(before, t.commit, d, Anyone);
    ReachableInv(t.commit, d);
    assert CallerOk(t.commit, u, d);
    Onward(before, t.commit, Commit(u), after, d, Anyone);
  }

  /** A transaction given up before its row was read. */
  lemma GivenUp(before: Limiter, call: Limiter, lock: Limiter, after: Limiter, u: nat, dom: string, d: nat)
    requires Reaches(before, call, d, Others(u)) && Enabled(call, Call(u, dom))
    requires Reaches(Apply(call, Call(u, dom)), lock, d, Others(u))
    requires Enabled(lock, Abort(u)) && after == Apply(lock, Abort(u))
    ensures Reaches(before, after, d, Ungranted(u))
  {
    var began := Apply(call, Call(u, dom));
    Widened(before, call, d, Others(u), Ungranted(u));
    Onward(before, call, Call(u, dom), began, d, Ungranted(u));
    Widened(began, lock, d, Others(u), Ungranted(u));
    Through(before, began, lock, d, Ungranted(u));
    Onward(before, lock, Abort(u), after, d, Ungranted(u));
  }

  /** And one given up when the interval had passed. */
  lemma GivenUpLate(before: Limiter, t: Attempt, checked: Limiter, after: Limiter, u: nat, dom: string, d: nat)
    requires Asked(before, t, u, dom, d) && Reachable(before, d) && checked == Apply(t.check, Check(u, t.now))
    requires Reaches(checked, t.commit, d, Others(u))
    requires Enabled(t.commit, Abort(u)) && after == Apply(t.commit, Abort(u))
    ensures Reaches(before, after, d, Ungranted(u))
  {
    AskedMeans(before, t, u, dom, d);
    Onward(before, t.check, Check(u, t.now), checked, d, Ungranted(u));
    Widened(checked, t.commit, d, Others(u), Ungranted(u));
    Through(before, checked, t.commit, d, Ungranted(u));
    Onward(before, t.commit, Abort(u), after, d, Ungranted(u));
  }

  /** However the loop ended. */
  lemma LoopEnds(s: Limiter, before: Limiter, t: Attempt, l: Limiter, u: nat, dom: string, d: nat)
    requires Reachable(s, d)
    requires || Reaches(s, l, d, Ungranted(u))
             || (Reaches(s, before, d, Ungranted(u)) && Granted(before, t, l, u, dom, d))
    ensures Reaches(s, l, d, Anyone)
  {
    if Reaches(s, l, d, Ungranted(u)) {
      Widened(s, l, d, Ungranted(u), Anyone);
    } else {
      Widened(s, before, d, Ungranted(u), Anyone);
      StillReachable(s, before, d, Anyone);
      GrantMeans(before, t, l, u, dom, d);
      Through(s, before, l, d, Anyone);
    }
  }

  // ---- locked rows

  predicate HoldsRow(l: Limiter, v: nat, dom: string) {
    v < |l.callers| && InRow(l.callers[v], dom)
  }

  /** locked are the rows that open transactions have locked. */
  ghost predicate RowsLocked(l: Limiter, locked: set<string>) {
    && (forall dom :: dom in locked ==> exists v: nat :: HoldsRow(l, v, dom))
    && (forall v: nat, dom: string :: HoldsRow(l, v, dom) ==> dom in locked)
  }

  function NextLocked(locked: set<string>, p: Phase, q: Phase): set<string> {
    if q.Locked? || q.Granting? then locked + {q.dom}
    else if p.Locked? || p.Granting? then locked - {p.dom}
    else locked
  }

  lemma RowsLockedMove(l: Limiter, a: Action, u: nat, d: nat, locked: set<string>)
    requires Inv(l, d) && Enabled(l, a) && TakenBy(a, u) && RowsLocked(l, locked)
    ensures u < |l.callers| == |Apply(l, a).callers|
    ensures RowsLocked(Apply(l, a), NextLocked(locked, l.callers[u], Apply(l, a).callers[u]))
  {
    var t := Apply(l, a);
    var locked' := NextLocked(locked, l.callers[u], t.callers[u]);
    forall dom | dom in locked'
      ensures exists v: nat :: HoldsRow(t, v, dom)
    {
      if dom in locked {
        var v: nat :| HoldsRow(l, v, dom);
        assert v != u ==> HoldsRow(t, v, dom);
        assert v == u ==> HoldsRow(t, u, dom);
      } else {
        assert HoldsRow(t, u, dom);
      }
    }
    forall v: nat, dom: string | HoldsRow(t, v, dom)
      ensures dom in locked'
    {
      assert v != u ==> HoldsRow(l, v, dom);
    }
  }

  lemma RowFree(l: Limiter, u: nat, locked: set<string>)
    requires RowsLocked(l, locked) && u < |l.callers| && l.callers[u].Began? && l.callers[u].dom !in locked
    ensures Enabled(l, Lock(u))
  {
    forall v | 0 <= v < |l.callers|
      ensures !InRow(l.callers[v], l.callers[u].dom)
    {
      assert !HoldsRow(l, v, l.callers[u].dom);
    }
  }

  lemma RowHeldBy(l: Limiter, u: nat, locked: set<string>)
    requires RowsLocked(l, locked) && u < |l.callers| && (l.callers[u].Locked? || l.callers[u].Granting?)
    ensures l.callers[u].dom in locked
  {
    assert HoldsRow(l, u, l.callers[u].dom);
  }
}
