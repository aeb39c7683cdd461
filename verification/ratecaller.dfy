/**
 * Store.AcquireDomainRateLimit of internal/store/store.go as the loop of transactions and sleeps it is, over
 * the table domain_rate_limits. A ghost state of the limiter's machine is carried along; every statement is
 * proved to take exactly one of its steps, and between them any number of other callers may act. So
 * whatever is proved of all runs of the limiter holds of the real loop.
 */
module RateCallers {
  import opened RateLimit

  /** The table domain_rate_limits, and which of its rows open transactions have locked. */
  class RateRows {
    var rows: map<string, nat>
    var locked: set<string>

    constructor ()
      ensures rows == map[] && locked == {}
    {
      rows, locked := map[], {};
    }

    /** INSERT ... ON CONFLICT DO UPDATE ... RETURNING last_started_at: locks the row and reads it, or 'epoch'. */
    method LockRow(domain: string) returns (last: nat)
      requires domain !in locked
      modifies this`locked
      ensures locked == old(locked) + {domain}
      ensures last == if domain in rows then rows[domain] else 0
    {
      locked := locked + {domain};
      last := if domain in rows then rows[domain] else 0;
    }

    /** UPDATE and COMMIT. */
    method CommitStart(domain: string, start: nat)
      requires domain in locked
      modifies this
      ensures rows == old(rows)[domain := start] && locked == old(locked) - {domain}
    {
      rows, locked := rows[domain := start], locked - {domain};
    }

    method Rollback(domain: string)
      modifies this`locked
      ensures locked == old(locked) - {domain}
    {
      locked := locked - {domain};
    }
  }

  /** What a transaction comes to. */
  datatype Answer = Grants | Refuses(wait: nat) | Fails

  /** A caller, u in the machine; skew is how far the engine's clock can be past the start of a transaction. */
  class RateCaller {
    const table: RateRows
    const interval: nat
    const skew: nat
    ghost const u: nat
    var clock: nat // of the database
    ghost var lim: Limiter

    /** The table is that of the machine. */
    ghost predicate Tied()
      reads this, table
    {
      && Reachable(lim, skew) && lim.interval == interval && lim.clock == clock && u < |lim.callers|
      && lim.rows == table.rows && RowsLocked(lim, table.locked)
    }

    /** And no transaction of this caller is open. */
    ghost predicate Valid()
      reads this, table
    {
      Tied() && lim.callers[u].Idle?
    }

    constructor (table: RateRows, interval: nat, skew: nat, clock: nat, ghost before: Limiter)
      requires Reachable(before, skew) && before.interval == interval && before.clock == clock
      requires before.rows == table.rows && RowsLocked(before, table.locked)
      ensures Valid() && this.table == table && this.interval == interval && this.skew == skew && this.clock == clock
      ensures lim == Apply(before, Join)
    {
      this.table, this.interval, this.skew, this.clock, this.u := table, interval, skew, clock, |before.callers|;
      lim := Apply(before, Join);
      new;
      Single(before, Join, lim, skew, Anyone);
      StillReachable(before, lim, skew, Anyone);
      assert forall v: nat, dom: string :: HoldsRow(lim, v, dom) == HoldsRow(before, v, dom);
    }

    /** Others act, and time passes. */
    method Interfere()
      requires Tied()
      modifies table, this`lim, this`clock
      ensures Tied() && Reaches(old(lim), lim, skew, Others(u)) && lim.callers[u] == old(lim.callers[u])
    {
      Here(lim, skew, Others(u));
    }

    /** Time passes for certain. */
    method Sleep(elapsed: nat)
      requires Tied()
      modifies table, this`lim, this`clock
      ensures Tied() && Reaches(old(lim), lim, skew, Others(u)) && lim.callers[u] == old(lim.callers[u])
      ensures clock >= old(clock) + elapsed
    {
      ghost var was := lim;
      clock := clock + elapsed;
      lim := Apply(lim, Tick(elapsed));
      Single(was, Tick(elapsed), lim, skew, Others(u));
      StillReachable(was, lim, skew, Others(u));
      assert forall v: nat, dom: string :: HoldsRow(lim, v, dom) == HoldsRow(was, v, dom);
      ghost var slept := lim;
      Interfere();
      OthersKeep(slept, lim, skew, u);
      Through(was, slept, lim, skew, Others(u));
    }

    /** The machine takes the step that the table has taken. */
    ghost method Move(a: Action, locked: set<string>)
      requires Reachable(lim, skew) && lim.interval == interval && lim.clock == clock && u < |lim.callers|
      requires RowsLocked(lim, locked) && TakenBy(a, u) && Enabled(lim, a) && Prompt(lim, a, skew)
      requires table.rows == Apply(lim, a).rows
      requires table.locked == NextLocked(locked, lim.callers[u], Apply(lim, a).callers[u])
      modifies this`lim
      ensures Tied() && lim == Apply(old(lim), a)
    {
      ReachableInv(lim, skew);
      RowsLockedMove(lim, a, u, skew, locked);
      Single(lim, a, Apply(lim, a), skew, Anyone);
      StillReachable(lim, Apply(lim, a), skew, Anyone);
      lim := Apply(lim, a);
    }

    /** BEGIN. */
    method Begin(domain: string) returns (begun: nat, ghost call: Limiter)
      requires Valid()
      modifies table, this`lim, this`clock
      ensures Tied() && Reaches(old(lim), call, skew, Others(u))
      ensures Enabled(call, Call(u, domain)) && lim == Apply(call, Call(u, domain)) && begun == call.clock
    {
      Interfere();
      begun, call := clock, lim;
      Move(Call(u, domain), table.locked);
    }

    /** Waits for the row's lock; rounds is how long the context lasts. */
    method AwaitRow(domain: string, rounds: nat) returns (free: bool)
      requires Tied()
      modifies table, this`lim, this`clock
      ensures Tied() && Reaches(old(lim), lim, skew, Others(u)) && lim.callers[u] == old(lim.callers[u])
      ensures free <==> domain !in table.locked
    {
      Here(lim, skew, Others(u));
      var left := rounds;
      while domain in table.locked && left > 0
        invariant Tied() && Reaches(old(lim), lim, skew, Others(u)) && lim.callers[u] == old(lim.callers[u])
        decreases left
      {
        ghost var was := lim;
        Interfere();
        Through(old(lim), was, lim, skew, Others(u));
        left := left - 1;
      }
      free := domain !in table.locked;
    }

    /** An error or the end of the context: nothing is stored; held says that the row is locked. */
    method Rollback(domain: string, held: bool)
      requires Tied() && !lim.callers[u].Idle? && lim.callers[u].dom == domain
      requires held <==> !lim.callers[u].Began?
      modifies table`locked, this`lim
      ensures Valid() && lim == Apply(old(lim), Abort(u))
    {
      ghost var locked := table.locked;
      if held {
        table.Rollback(domain);
      }
      Move(Abort(u), locked);
    }

    /** The locking read. */
    method LockRow(domain: string, failed: bool, rounds: nat) returns (ok: bool, last: nat, ghost lock: Limiter)
      requires Tied() && lim.callers[u].Began? && lim.callers[u].dom == domain
      modifies table, this`lim, this`clock
      ensures Tied() && Reaches(old(lim), lock, skew, Others(u))
      ensures Enabled(lock, if ok then Lock(u) else Abort(u)) && lim == Apply(lock, if ok then Lock(u) else Abort(u))
      ensures ok ==> last == Stored(lock.rows, domain)
    {
      last := 0;
      var free := AwaitRow(domain, rounds);
      ok, lock := free && !failed, lim;
      if !ok {
        Rollback(domain, false);
        return;
      }
      ghost var locked := table.locked;
      RowFree(lim, u, locked);
      last := table.LockRow(domain);
      Move(Lock(u), locked);
    }

    /** The interval against the engine's clock; if it has not passed the transaction is rolled back. */
    method Check(domain: string, begun: nat, last: nat) returns (wait: int, now: nat, ghost check: Limiter)
      requires Tied() && lim.callers[u] == Locked(domain, begun, last)
      modifies table, this`lim, this`clock
      ensures Tied() && Reaches(old(lim), check, skew, Others(u))
      ensures Enabled(check, Action.Check(u, now)) && Prompt(check, Action.Check(u, now), skew)
      ensures lim == Apply(check, Action.Check(u, now)) && wait == interval - (now - last)
    {
      Interfere();
      check := lim;
      now :| now <= begun + skew;
      wait := interval - (now - last);
      ghost var locked := table.locked;
      RowHeldBy(lim, u, locked);
      if wait > 0 {
        table.Rollback(domain);
      }
      Move(Action.Check(u, now), locked);
    }

    /** UPDATE and COMMIT, or a failure of either; effect: the commit took place nevertheless. */
    method Commit(domain: string, begun: nat, failed: bool, effect: bool) returns (ghost commit: Limiter)
      requires Tied() && lim.callers[u].Granting? && lim.callers[u].dom == domain && lim.callers[u].start == begun
      modifies table, this`lim, this`clock
      ensures Valid() && Reaches(old(lim), commit, skew, Others(u)) && Enabled(commit, Action.Commit(u))
      ensures lim == Apply(commit, if failed && !effect then Abort(u) else Action.Commit(u))
    {
      Interfere();
      commit := lim;
      if failed && !effect {
        Rollback(domain, true);
      } else {
        ghost var locked := table.locked;
        RowHeldBy(lim, u, locked);
        table.CommitStart(domain, begun);
        Move(Action.Commit(u), locked);
      }
    }

    /**
     * BEGIN, the locking read and the check, with others running in between: either the whole of it, or nothing
     * stored because a statement failed or the context ended.
     */
    method Ask(domain: string, rounds: nat) returns (ok: bool, wait: int, begun: nat, ghost t: Attempt)
      requires Valid()
      modifies table, this`lim, this`clock
      ensures Tied()
      ensures !ok ==> Valid() && Reaches(old(lim), lim, skew, Ungranted(u))
      ensures ok ==> Asked(old(lim), t, u, domain, skew) && begun == t.call.clock
      ensures ok ==> lim == Apply(t.check, Action.Check(u, t.now))
      ensures ok ==> wait == interval - (t.now - Stored(t.lock.rows, domain))
    {
      ghost var call, lock, check;
      var last, now, failed: bool := 0, 0, *;
      wait := 0;
      begun, call := Begin(domain);
      ghost var began := lim;
      ok, last, lock := LockRow(domain, failed, rounds);
      OthersKeep(began, lock, skew, u);
      t := Attempt(call, lock, lock, lock, 0);
      if !ok {
        GivenUp(old(lim), call, lock, lim, u, domain, skew);
        return;
      }
      wait, now, check := Check(domain, begun, last);
      t := Attempt(call, lock, check, check, now);
    }

    /**
     * One transaction, step by step that of the machine: a grant that stores its beginning, a refusal that
     * stores nothing and says how long to sleep, or a failure, maybe of a commit that took effect.
     */
    method Try(domain: string, rounds: nat) returns (r: Answer, ghost t: Attempt)
      requires Valid()
      modifies table, this`lim, this`clock
      ensures Valid()
      ensures r.Refuses? ==> && Refused(old(lim), t, lim, u, domain, skew)
                             && r.wait == interval - (t.now - Stored(t.lock.rows, domain))
      ensures r.Grants? ==> Granted(old(lim), t, lim, u, domain, skew)
      ensures r.Fails? ==> || Reaches(old(lim), lim, skew, Ungranted(u))
                           || Granted(old(lim), t, lim, u, domain, skew)
    {
      var ok, wait, begun;
      ok, wait, begun, t := Ask(domain, rounds);
      if !ok {
        return Fails, t;
      }
      AskedMeans(old(lim), t, u, domain, skew);
      if wait > 0 {
        return Refuses(wait), t;
      }
      var failed: bool, effect: bool := *, *;
      ghost var checked := lim;
      ghost var commit := Commit(domain, begun, failed, effect);
      t := t.(commit := commit);
      r := if failed then Fails else Grants;
      if failed && !effect {
        GivenUpLate(old(lim), t, checked, lim, u, domain, skew);
      }
    }

    /**
     * The loop, from now on; passes is how many of them the context lasts. Each refusal is followed by a sleep
     * until the interval has passed. A grant is the only one this caller gets; without one it has got none,
     * unless the acknowledgement of its commit was lost.
     */
    method AcquireDomainRateLimit(domain: string, now: nat, passes: nat, rounds: nat)
      returns (granted: bool, ghost before: Limiter, ghost t: Attempt)
      requires Valid() && clock <= now
      modifies table, this`lim, this`clock
      ensures Valid() && Reaches(old(lim), lim, skew, Anyone)
      ensures interval == 0 ==> granted && lim == old(lim) && clock == old(clock)
      ensures interval > 0 && granted ==> && Reaches(old(lim), before, skew, Ungranted(u))
                                          && Granted(before, t, lim, u, domain, skew)
      ensures !granted ==> || Reaches(old(lim), lim, skew, Ungranted(u))
                           || (&& Reaches(old(lim), before, skew, Ungranted(u))
                               && Granted(before, t, lim, u, domain, skew))
    {
      before, t := lim, Attempt(lim, lim, lim, lim, 0);
      if interval == 0 {
        Here(lim, skew, Anyone);
        return true, before, t;
      }
      Sleep(now - clock);
      Widened(old(lim), lim, skew, Others(u), Ungranted(u));
      var left := passes;
      while left > 0
        invariant Valid() && Reaches(old(lim), lim, skew, Ungranted(u))
        decreases left
      {
        before := lim;
        var r;
        r, t := Round(domain, rounds);
        if !r.Refuses? {
          if Reaches(before, lim, skew, Ungranted(u)) {
            Through(old(lim), before, lim, skew, Ungranted(u));
          }
          LoopEnds(old(lim), before, t, lim, u, domain, skew);
          return r.Grants?, before, t;
        }
        Through(old(lim), before, lim, skew, Ungranted(u));
        left := left - 1;
      }
      Widened(old(lim), lim, skew, Ungranted(u), Anyone);
      granted := false;
    }

    /** One pass of the loop: a transaction, and after a refusal the sleep. */
    method Round(domain: string, rounds: nat) returns (r: Answer, ghost t: Attempt)
      requires Valid()
      modifies table, this`lim, this`clock
      ensures Valid()
      ensures r.Refuses? ==> Reaches(old(lim), lim, skew, Ungranted(u))
      ensures r.Refuses? ==> clock >= t.check.clock + interval - (t.now - Stored(t.lock.rows, domain))
      ensures r.Refuses? ==> t.now - Stored(t.lock.rows, domain) < interval
      ensures r.Grants? ==> Granted(old(lim), t, lim, u, domain, skew)
      ensures r.Fails? ==> || Reaches(old(lim), lim, skew, Ungranted(u))
                           || Granted(old(lim), t, lim, u, domain, skew)
    {
      r, t := Try(domain, rounds);
      if r.Refuses? {
        RefusalMeans(old(lim), t, lim, u, domain, skew);
        ghost var refused := lim;
        Sleep(r.wait);
        Widened(refused, lim, skew, Others(u), Ungranted(u));
        Through(old(lim), refused, lim, skew, Ungranted(u));
      }
    }
  }
}
