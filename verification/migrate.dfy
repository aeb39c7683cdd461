/**
 * The migration runner (internal/migrate/migrate.go): one transaction per file, in sort.Strings order, with
 * the version recorded in the same transaction. First one engine as it loops, then several at once.
 */
module Migrate {
  import opened Ordering
  import Hosts

  datatype Entry = Entry(name: string, isDir: bool)

  predicate IsMigration(e: Entry) {
    !e.isDir && Hosts.HasSuffix(e.name, ".sql")
  }

  method SortNames(names: set<string>) returns (files: seq<string>)
    ensures files == Sorted(names)
  {
    files := [];
    var rest := names;
    while rest != {}
      invariant files + Sorted(rest) == Sorted(names)
      decreases rest
    {
      var k := FindLeast(rest);
      assert Sorted(rest) == [k] + Sorted(rest - {k});
      files, rest := files + [k], rest - {k};
    }
  }

  /** ReadDir in whatever order it lists the entries, the filter, and sort.Strings. */
  method ListFiles(dir: seq<Entry>) returns (files: seq<string>)
    ensures Increasing(files)
    ensures forall f :: f in files <==> Entry(f, false) in dir && Hosts.HasSuffix(f, ".sql")
  {
    var names: set<string> := {};
    for i := 0 to |dir|
      invariant forall f :: f in names <==> Entry(f, false) in dir[..i] && Hosts.HasSuffix(f, ".sql")
    {
      if IsMigration(dir[i]) {
        names := names + {dir[i].name};
      }
    }
    assert dir[..|dir|] == dir;
    files := SortNames(names);
    SortedMeaning(names);
    assert forall f :: f in files <==> f in Elements(files);
  }

  /** The list is determined by which files the directory holds, not by the order they are read in. */
  lemma OneListing(dir: seq<Entry>, files: seq<string>, dir': seq<Entry>, files': seq<string>)
    requires Increasing(files) && Increasing(files')
    requires forall f :: f in files <==> Entry(f, false) in dir && Hosts.HasSuffix(f, ".sql")
    requires forall f :: f in files' <==> Entry(f, false) in dir' && Hosts.HasSuffix(f, ".sql")
    requires forall e :: e in dir <==> e in dir'
    ensures files == files'
  {
    assert Elements(files) == Elements(files');
    IncreasingUnique(files, files');
  }

  // ---- one engine

  function Pending(files: seq<string>, recorded: set<string>): seq<string> {
    if files == [] then []
    else Pending(files[..|files| - 1], recorded) +
         if files[|files| - 1] in recorded then [] else [files[|files| - 1]]
  }

  lemma {:induction false} PendingSplit(files: seq<string>, i: nat, recorded: set<string>)
    requires i <= |files|
    ensures Pending(files[..i], recorded) <= Pending(files, recorded)
  {
    if i < |files| {
      var n := |files| - 1;
      assert files[..n][..i] == files[..i];
      PendingSplit(files[..n], i, recorded);
    } else {
      assert files[..i] == files;
    }
  }

  lemma {:induction false} PendingElements(files: seq<string>, recorded: set<string>)
    ensures Elements(Pending(files, recorded)) == Elements(files) - recorded
  {
    if files == [] {
    } else {
      var n := |files| - 1;
      PendingElements(files[..n], recorded);
      assert files == files[..n] + [files[n]];
      assert forall f :: f in Pending(files[..n], recorded) <==> f in Elements(Pending(files[..n], recorded));
    }
  }

  /** A file is found recorded exactly when it was so before the run. */
  lemma NotYetRecorded(files: seq<string>, i: nat, recorded: set<string>)
    requires Increasing(files) && i < |files|
    ensures files[i] in recorded + Elements(Pending(files[..i], recorded)) <==> files[i] in recorded
    ensures Pending(files[..i + 1], recorded)
            == Pending(files[..i], recorded) + if files[i] in recorded then [] else [files[i]]
  {
    PendingElements(files[..i], recorded);
    assert files[..i + 1][..i] == files[..i];
    if files[i] in files[..i] {
      var k :| 0 <= k < i && files[k] == files[i];
      LessIrreflexive(files[i]);
    }
  }

  /** The next file extends the pending ones by itself, unless it is recorded. */
  lemma PendingNext(files: seq<string>, i: nat, n: nat, recorded: set<string>)
    requires Increasing(files) && i < |files| && n <= |Pending(files, recorded)|
    requires Pending(files, recorded)[..n] == Pending(files[..i], recorded)
    ensures
      var pending := Pending(files, recorded);
      if files[i] in recorded then pending[..n] == Pending(files[..i + 1], recorded)
      else n < |pending| && pending[n] == files[i]
           && pending[..n + 1] == pending[..n] + [files[i]] == Pending(files[..i + 1], recorded)
  {
    NotYetRecorded(files, i, recorded);
    PendingSplit(files, i + 1, recorded);
  }

  /** A run after a complete run commits nothing and cannot fail. */
  lemma NothingPending(files: seq<string>, recorded: set<string>)
    requires Elements(files) <= recorded
    ensures Pending(files, recorded) == []
  {
    PendingElements(files, recorded);
    NonemptyElements(Pending(files, recorded));
  }

  // ---- several engines

  datatype Phase =
    | Checking  // SELECT count(*) for the next file
    | Opening   // not recorded: read the file, BEGIN, run its statements
    | Executed  // statements run, not committed; INSERT of the version pending
    | Inserted  // version row inserted, not committed
    | Returned(ok: bool)

  /** An engine works through the directory's files, next being the one it is at. */
  datatype Engine = Engine(next: nat, phase: Phase)

  /** commits counts, per file, how often its statements were committed. */
  datatype System = System(files: seq<string>, recorded: set<string>, commits: multiset<string>, engines: seq<Engine>)

  datatype Action =
    | Start
    | Check(e: nat)
    | Execute(e: nat, ok: bool)
    | Insert(e: nat)
    | Commit(e: nat, ack: bool) // ack false: committed, but the engine saw an error
    | Stop(e: nat)              // error, cancelled context or crash: rolled back

  predicate At(s: System, e: nat, phase: Phase) {
    e < |s.engines| && s.engines[e].phase == phase && (phase != Checking ==> s.engines[e].next < |s.files|)
  }

  /** The primary key makes a second insert of a version wait for the first transaction to end. */
  predicate Waits(s: System, e: nat)
    requires e < |s.engines|
  {
    exists d :: 0 <= d < |s.engines| && d != e &&
                s.engines[d].phase == Inserted && s.engines[d].next == s.engines[e].next
  }

  predicate Enabled(s: System, a: Action) {
    match a
    case Start => true
    case Check(e) => At(s, e, Checking)
    case Execute(e, _) => At(s, e, Opening)
    case Insert(e) => At(s, e, Executed) && !Waits(s, e)
    case Commit(e, _) => At(s, e, Inserted)
    case Stop(e) => e < |s.engines| && !s.engines[e].phase.Returned?
  }

  function Move(s: System, e: nat, next: nat, phase: Phase): System
    requires e < |s.engines|
  {
    s.(engines := s.engines[e := Engine(next, phase)])
  }

  function Next(s: System, a: Action): System
    requires Enabled(s, a)
  {
    match a
    case Start => s.(engines := s.engines + [Engine(0, Checking)])
    case Check(e) =>
      var i := s.engines[e].next;
      if i >= |s.files| then Move(s, e, i, Returned(true))
      else if s.files[i] in s.recorded then Move(s, e, i + 1, Checking)
      else Move(s, e, i, Opening)
    case Execute(e, ok) => Move(s, e, s.engines[e].next, if ok then Executed else Returned(false))
    case Insert(e) =>
      var i := s.engines[e].next;
      Move(s, e, i, if s.files[i] in s.recorded then Returned(false) else Inserted)
    case Commit(e, ack) =>
      var i := s.engines[e].next;
      Move(s, e, i + 1, if ack then Checking else Returned(false))
        .(recorded := s.recorded + {s.files[i]}, commits := s.commits + multiset{s.files[i]})
    case Stop(e) => Move(s, e, s.engines[e].next, Returned(false))
  }

  /** A fixed directory and a fresh database. */
  predicate Fresh(s: System) {
    Increasing(s.files) && s.recorded == {} && s.commits == multiset{} && s.engines == []
  }

  predicate Steps(states: seq<System>, actions: seq<Action>) {
    && |states| == |actions| + 1
    && forall i :: 0 <= i < |actions| ==> Enabled(states[i], actions[i]) && states[i + 1] == Next(states[i], actions[i])
  }

  predicate Run(states: seq<System>, actions: seq<Action>) {
    Steps(states, actions) && Fresh(states[0])
  }

  predicate EngineOk(s: System, m: nat, e: nat)
    requires e < |s.engines|
  {
    var g := s.engines[e];
    && g.next <= |s.files|
    && g.next <= m
    && (g.phase == Inserted ==> g.next == m < |s.files|)
    && (g.phase == Opening || g.phase == Executed ==> g.next < |s.files|)
    && (g.phase == Returned(true) ==> g.next == |s.files|)
  }

  /** The recorded versions are the first m files, each committed once. */
  predicate Prefix(s: System, m: nat) {
    && Increasing(s.files) && m <= |s.files|
    && s.recorded == Elements(s.files[..m])
    && s.commits == multiset(s.files[..m])
    && (forall e :: 0 <= e < |s.engines| ==> EngineOk(s, m, e))
    && (forall d, e :: 0 <= d < e < |s.engines| ==> !(s.engines[d].phase == Inserted && s.engines[e].phase == Inserted))
  }

  lemma InPrefix(files: seq<string>, m: nat, i: nat)
    requires Increasing(files) && m <= |files| && i < |files|
    ensures files[i] in Elements(files[..m]) <==> i < m
  {
    if i < m {
      assert files[..m][i] == files[i];
    } else if files[i] in files[..m] {
      var k :| 0 <= k < m && files[k] == files[i];
      LessIrreflexive(files[i]);
    }
  }

  lemma NotAll(files: seq<string>, m: nat)
    requires Increasing(files) && m < |files|
    ensures Elements(files[..m]) != Elements(files)
  {
    InPrefix(files, m, m);
    assert files[m] in files;
  }

  lemma PrefixStep(s: System, a: Action, m: nat)
    requires Prefix(s, m) && Enabled(s, a)
    ensures Prefix(Next(s, a), if a.Commit? then m + 1 else m)
  {
    if !a.Start? {
      assert EngineOk(s, m, a.e);
    }
    if a.Commit? {
      assert s.files[..m + 1] == s.files[..m] + [s.files[m]];
    } else if a.Check? || a.Insert? {
      if s.engines[a.e].next < |s.files| {
        InPrefix(s.files, m, s.engines[a.e].next);
      }
    }
    var t, n := Next(s, a), if a.Commit? then m + 1 else m;
    forall e | 0 <= e < |t.engines| ensures EngineOk(t, n, e) {
      assert e < |s.engines| ==> EngineOk(s, m, e);
      if a.Commit? && e != a.e {
        assert s.engines[e].phase != Inserted;
      }
    }
    if a.Insert? && s.files[s.engines[a.e].next] !in s.recorded {
      OneInserter(s, m, a.e);
    }
  }

  /** An engine whose insert goes ahead is the only one with an open insert. */
  lemma OneInserter(s: System, m: nat, e: nat)
    requires Prefix(s, m) && Enabled(s, Insert(e)) && s.files[s.engines[e].next] !in s.recorded
    ensures forall d :: 0 <= d < |s.engines| && d != e ==> s.engines[d].phase != Inserted
  {
    assert EngineOk(s, m, e);
    InPrefix(s.files, m, s.engines[e].next);
    forall d | 0 <= d < |s.engines| && d != e ensures s.engines[d].phase != Inserted {
      assert EngineOk(s, m, d);
    }
  }

  lemma {:induction false} RunPrefix(states: seq<System>, actions: seq<Action>, i: nat) returns (m: nat)
    requires Run(states, actions) && i < |states|
    ensures Prefix(states[i], m) && states[i].files == states[0].files
  {
    if i == 0 {
      m := 0;
    } else {
      var k := RunPrefix(states, actions, i - 1);
      PrefixStep(states[i - 1], actions[i - 1], k);
      m := if actions[i - 1].Commit? then k + 1 else k;
    }
  }

  lemma {:induction false} OnceEach(files: seq<string>, f: string)
    requires Increasing(files)
    ensures multiset(files)[f] == if f in files then 1 else 0
  {
    if files == [] {
    } else {
      var n := |files| - 1;
      OnceEach(files[..n], f);
      assert files == files[..n] + [files[n]];
      if f == files[n] && f in files[..n] {
        var k :| 0 <= k < n && files[k] == f;
        LessIrreflexive(f);
      }
    }
  }

  /**
   * Migrations: with any number of engines starting at any time, failing, crashing or losing an
   * acknowledgement anywhere, the recorded versions are always a prefix of the sorted files, every file's
   * statements were committed exactly once if recorded and never otherwise, and an engine that returned
   * without error has all files recorded.
   */
  lemma MigrationsInOrderOnce(states: seq<System>, actions: seq<Action>, i: nat)
    requires Run(states, actions) && i < |states|
    ensures exists m :: 0 <= m <= |states[i].files| && states[i].recorded == Elements(states[i].files[..m])
    ensures forall f :: states[i].commits[f] == if f in states[i].recorded then 1 else 0
    ensures forall e :: 0 <= e < |states[i].engines| && states[i].engines[e].phase == Returned(true) ==>
              states[i].recorded == Elements(states[i].files)
  {
    var s := states[i];
    var m := RunPrefix(states, actions, i);
    forall f ensures s.commits[f] == if f in s.recorded then 1 else 0 {
      OnceEach(s.files[..m], f);
    }
    forall e | 0 <= e < |s.engines| && s.engines[e].phase == Returned(true)
      ensures s.recorded == Elements(s.files)
    {
      assert EngineOk(s, m, e);
      assert s.files[..m] == s.files;
    }
  }

  lemma NoCommitLeft(states: seq<System>, actions: seq<Action>, i: nat)
    requires Run(states, actions) && i < |actions|
    requires states[i].recorded == Elements(states[i].files)
    ensures !actions[i].Commit? && states[i + 1].files == states[i].files
    ensures states[i + 1].recorded == states[i].recorded && states[i + 1].commits == states[i].commits
  {
    var s := states[i];
    var m := RunPrefix(states, actions, i);
    if actions[i].Commit? {
      assert EngineOk(s, m, actions[i].e);
      NotAll(s.files, m);
    }
  }

  predicate NoCommits(actions: seq<Action>, i: nat, k: nat) {
    i <= k <= |actions| && forall m :: i <= m < k ==> !actions[m].Commit?
  }

  /**
   * Once everything is recorded, which is so as soon as one engine returned without error, no later run of
   * any engine commits anything or changes what is recorded.
   */
  lemma {:induction false} SecondRunChangesNothing(states: seq<System>, actions: seq<Action>, i: nat, k: nat)
    requires Run(states, actions) && i <= k < |states|
    requires states[i].recorded == Elements(states[i].files)
    ensures states[k].recorded == states[i].recorded && states[k].commits == states[i].commits
    ensures states[k].files == states[i].files && NoCommits(actions, i, k)
  {
    if i == k {
    } else {
      SecondRunChangesNothing(states, actions, i, k - 1);
      NoCommitLeft(states, actions, k - 1);
    }
  }

  // ---- the loop of one engine

  /** Some steps lead from s to t. */
  ghost predicate Leads(s: System, t: System) {
    exists states, actions :: Steps(states, actions) && states[0] == s && states[|states| - 1] == t
  }

  lemma LeadsNowhere(s: System)
    ensures Leads(s, s)
  {
    assert Steps([s], []);
  }

  lemma LeadsOn(s: System, t: System, a: Action)
    requires Leads(s, t) && Enabled(t, a)
    ensures Leads(s, Next(t, a))
  {
    var states, actions :| Steps(states, actions) && states[0] == s && states[|states| - 1] == t;
    var states', actions' := states + [Next(t, a)], actions + [a];
    forall i | 0 <= i < |actions'|
      ensures Enabled(states'[i], actions'[i]) && states'[i + 1] == Next(states'[i], actions'[i])
    {
      assert i < |actions| ==> actions'[i] == actions[i] && states'[i] == states[i] && states'[i + 1] == states[i + 1];
    }
    assert Steps(states', actions');
  }

  lemma LeadsTransitive(s: System, t: System, u: System)
    requires Leads(s, t) && Leads(t, u)
    ensures Leads(s, u)
  {
    var states, actions :| Steps(states, actions) && states[0] == s && states[|states| - 1] == t;
    var states', actions' :| Steps(states', actions') && states'[0] == t && states'[|states'| - 1] == u;
    var all, acts := states + states'[1..], actions + actions';
    forall i | 0 <= i < |acts|
      ensures Enabled(all[i], acts[i]) && all[i + 1] == Next(all[i], acts[i])
    {
      if i < |actions| {
        assert all[i] == states[i] && all[i + 1] == states[i + 1];
      } else {
        var k := i - |actions|;
        assert all[i] == states'[k] && all[i + 1] == states'[k + 1];
      }
    }
    assert Steps(all, acts);
  }

  /** Which transactions fail, and after which commits the engine sees an error all the same. */
  datatype Faults = Faults(fails: set<string>, lost: set<string>)

  predicate Clean(pending: seq<string>, faults: Faults) {
    forall k :: 0 <= k < |pending| ==> pending[k] !in faults.fails && pending[k] !in faults.lost
  }

  /** How far a run over pending gets: n files commit; the last of them, or the next file, is what stops it. */
  predicate Stops(pending: seq<string>, faults: Faults, n: nat, ok: bool) {
    && n <= |pending|
    && if ok then n == |pending| && Clean(pending, faults)
       else
         || (n < |pending| && Clean(pending[..n], faults) && pending[n] in faults.fails)
         || (n > 0 && Clean(pending[..n - 1], faults)
             && pending[n - 1] !in faults.fails && pending[n - 1] in faults.lost)
  }

  class Schema {
    var recorded: set<string>
    ghost var committed: seq<string> // the files whose statements were committed, in order
    ghost var sys: System            // the several-engine machine this database is part of

    constructor (ghost files: seq<string>)
      ensures recorded == {} && committed == [] && sys == System(files, {}, multiset{}, [])
    {
      recorded, committed, sys := {}, [], System(files, {}, multiset{}, []);
    }

    /** Engine e is about to check file i, and no other engine holds an uncommitted version row. */
    ghost predicate Turn(e: nat, i: nat)
      reads this
    {
      && sys.recorded == recorded && i <= |sys.files|
      && e < |sys.engines| && sys.engines[e] == Engine(i, Checking)
      && forall d :: 0 <= d < |sys.engines| && d != e ==> sys.engines[d].phase != Inserted
    }

    /** One file: skipped if recorded, else one transaction; every statement is one step of the machine. */
    method ApplyOne(files: seq<string>, i: nat, faults: Faults, ghost e: nat) returns (ok: bool)
      requires files == sys.files && i < |files| && Turn(e, i)
      modifies this
      ensures sys.files == files && |sys.engines| == old(|sys.engines|) && Leads(old(sys), sys)
      ensures ok ==> Turn(e, i + 1)
      ensures !ok ==> sys.recorded == recorded && sys.engines[e].phase == Returned(false)
      ensures if old(files[i] in recorded) then ok && recorded == old(recorded) && committed == old(committed)
              else if files[i] in faults.fails then !ok && recorded == old(recorded) && committed == old(committed)
              else recorded == old(recorded) + {files[i]} && committed == old(committed) + [files[i]]
                   && (ok <==> files[i] !in faults.lost)
    {
      LeadsNowhere(sys);
      Take(Check(e), sys);
      var name := files[i];
      if name in recorded {
        return true;
      }
      if name in faults.fails {
        Take(Execute(e, false), old(sys));
        return false;
      }
      Take(Execute(e, true), old(sys));
      Take(Insert(e), old(sys));
      ok := name !in faults.lost;
      recorded := recorded + {name};
      committed := committed + [name];
      Take(Commit(e, ok), old(sys));
    }

    ghost method Take(a: Action, from: System)
      requires Enabled(sys, a) && Leads(from, sys)
      modifies this`sys
      ensures sys == Next(old(sys), a) && Leads(from, sys)
    {
      LeadsOn(from, sys, a);
      sys := Next(sys, a);
    }

    /** i files are behind engine e, and the n of them that were pending have been committed. */
    ghost predicate Going(start: System, recorded0: set<string>, committed0: seq<string>, faults: Faults,
                          e: nat, i: nat, n: nat)
      reads this
    {
      var pending := Pending(sys.files, recorded0);
      && Turn(e, i) && Leads(start, sys) && n <= |pending|
      && pending[..n] == Pending(sys.files[..i], recorded0) && Clean(pending[..n], faults)
      && committed == committed0 + pending[..n]
      && recorded == recorded0 + Elements(pending[..n])
    }

    /** One iteration of the loop. */
    method ApplyNext(files: seq<string>, i: nat, faults: Faults, ghost start: System, ghost recorded0: set<string>,
                     ghost committed0: seq<string>, ghost e: nat, ghost n: nat) returns (ok: bool, ghost n': nat)
      requires files == sys.files && Increasing(files) && i < |files|
      requires Going(start, recorded0, committed0, faults, e, i, n)
      modifies this
      ensures sys.files == files && |sys.engines| == old(|sys.engines|) && Leads(start, sys)
      ensures sys.recorded == recorded
      ensures ok ==> Going(start, recorded0, committed0, faults, e, i + 1, n')
      ensures !ok ==> sys.engines[e].phase == Returned(false) && Stops(Pending(files, recorded0), faults, n', false)
      ensures !ok ==> committed == committed0 + Pending(files, recorded0)[..n']
      ensures !ok ==> recorded == recorded0 + Elements(Pending(files, recorded0)[..n'])
    {
      ghost var due, before := files[i] !in recorded, sys;
      NotYetRecorded(files, i, recorded0);
      PendingNext(files, i, n, recorded0);
      ok := ApplyOne(files, i, faults, e);
      LeadsTransitive(start, before, sys);
      n' := if due && (ok || files[i] !in faults.fails) then n + 1 else n;
    }

    /**
     * The loop over files, which are what ReadDir, the filter and sort.Strings yield, as a new engine of the
     * machine: it commits the pending files in order up to the first fault, and records exactly those.
     */
    method Apply(files: seq<string>, faults: Faults) returns (ok: bool)
      requires Increasing(files) && sys.files == files && sys.recorded == recorded
      requires forall d :: 0 <= d < |sys.engines| ==> sys.engines[d].phase != Inserted
      modifies this
      ensures sys.recorded == recorded && Leads(old(sys), sys)
      ensures |sys.engines| == old(|sys.engines|) + 1 && sys.engines[old(|sys.engines|)].phase == Returned(ok)
      ensures ok ==> recorded == old(recorded) + Elements(files)
      ensures exists n: nat ::
                && Stops(Pending(files, old(recorded)), faults, n, ok)
                && committed == old(committed) + Pending(files, old(recorded))[..n]
                && recorded == old(recorded) + Elements(Pending(files, old(recorded))[..n])
    {
      ghost var e, start, recorded0, committed0 := |sys.engines|, sys, recorded, committed;
      ghost var n: nat := 0;
      LeadsNowhere(sys);
      Take(Start, sys);
      var i := 0;
      while i < |files|
        invariant 0 <= i <= |files| && sys.files == files && |sys.engines| == e + 1
        invariant Going(start, recorded0, committed0, faults, e, i, n)
      {
        ok, n := ApplyNext(files, i, faults, start, recorded0, committed0, e, n);
        if !ok {
          return;
        }
        i := i + 1;
      }
      assert files[..i] == files;
      PendingElements(files, recorded0);
      Take(Check(e), start);
      ok := true;
      assert Pending(files, recorded0)[..n] == Pending(files, recorded0);
      assert Stops(Pending(files, recorded0), faults, n, true);
    }
  }
}
