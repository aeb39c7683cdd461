/** Stretches of a run between two steps of one worker. */
module Turns {
  import opened Database
  import opened Protocol

  /** Worker w takes none of the actions from a up to b. */
  predicate Quiet(actions: seq<Action>, w: nat, a: nat, b: nat)
    requires b <= |actions|
  {
    forall m :: a <= m < b ==> !(actions[m].By? && actions[m].w == w)
  }

  lemma StepAt(states: seq<State>, actions: seq<Action>, i: nat)
    requires Run(states, actions) && i < |actions|
    ensures Wf(states[i]) && Enabled(states[i], actions[i]) && states[i + 1] == Apply(states[i], actions[i])
    ensures Wf(states[i + 1])
  {
    ApplyWf(states[i], actions[i]);
  }

  lemma OtherKept(s: State, a: Action, w: nat)
    requires Wf(s) && Enabled(s, a) && w < |s.workers| && !(a.By? && a.w == w)
    ensures w < |Apply(s, a).workers| && Apply(s, a).workers[w] == s.workers[w]
  {
  }

  /** Nobody touches another worker's locals. */
  lemma {:induction false} WorkerKept(states: seq<State>, actions: seq<Action>, w: nat, a: nat, b: nat)
    requires Run(states, actions) && a <= b < |states| && w < |states[a].workers| && Quiet(actions, w, a, b)
    ensures w < |states[b].workers| && states[b].workers[w] == states[a].workers[w]
  {
    if a == b {
    } else {
      WorkerKept(states, actions, w, a, b - 1);
      StepAt(states, actions, b - 1);
      OtherKept(states[b - 1], actions[b - 1], w);
    }
  }

  lemma GrowsTransitive(a: Db, b: Db, c: Db)
    requires Grows(a, b) && Grows(b, c)
    ensures Grows(a, c)
  {
    assert forall j :: 0 <= j < |a.jobs| ==> SameJob(a.jobs[j], b.jobs[j]) && SameJob(b.jobs[j], c.jobs[j]);
    assert forall i :: 0 <= i < |a.cands| ==> SameRow(a.cands[i], b.cands[i]) && SameRow(b.cands[i], c.cands[i]);
  }

  /** Rows stay in place, counters do not fall, and time does not go back. */
  lemma {:induction false} RunGrows(states: seq<State>, actions: seq<Action>, a: nat, b: nat)
    requires Run(states, actions) && a <= b < |states|
    ensures Grows(states[a].db, states[b].db) && states[a].clock <= states[b].clock
    ensures states[b].server == states[a].server
  {
    if a == b {
    } else {
      RunGrows(states, actions, a, b - 1);
      StepAt(states, actions, b - 1);
      ApplyGrows(states[b - 1], actions[b - 1]);
      GrowsTransitive(states[a].db, states[b - 1].db, states[b].db);
    }
  }
}
