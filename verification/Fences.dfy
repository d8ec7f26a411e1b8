// Version fences in general: a table of rows, changed one atomic statement at a
// time, in which a row never disappears, its version never falls, and a row whose
// version did not move did not change.
module Fences {
  predicate StepAdvances<K, R(==)>(before: map<K, R>, after: map<K, R>, version: R -> nat) {
    forall id <- before :: id in after && version(before[id]) <= version(after[id])
                           && (version(before[id]) == version(after[id]) ==> before[id] == after[id])
  }

  ghost predicate Advances<K, R>(states: seq<map<K, R>>, version: R -> nat) {
    forall i, j :: 0 <= i && j == i + 1 && j < |states| ==> StepAdvances(states[i], states[j], version)
  }

  // The step relation holds between any two moments of the run.
  lemma {:induction false} AdvancesFar<K, R>(states: seq<map<K, R>>, version: R -> nat, i: nat, j: nat)
    requires Advances(states, version) && i <= j < |states|
    ensures StepAdvances(states[i], states[j], version)
    decreases j - i
  {
    if i < j {
      AdvancesFar(states, version, i, j - 1);
      var k := j - 1;
      assert StepAdvances(states[k], states[j], version);
    }
  }

  // The statement that moves a row away from version `v`.
  predicate Leaves<K, R>(states: seq<map<K, R>>, version: R -> nat, n: nat, id: K, v: nat)
    requires n + 1 < |states|
  {
    id in states[n] && id in states[n + 1] && version(states[n][id]) == v && version(states[n + 1][id]) > v
  }

  // Every version of a row is left at most once in a run, so at most one writer wins
  // per expected version.
  lemma LeftOnce<K, R>(states: seq<map<K, R>>, version: R -> nat, i: nat, j: nat, id: K, v: nat)
    requires Advances(states, version) && i + 1 < |states| && j + 1 < |states|
    requires Leaves(states, version, i, id, v) && Leaves(states, version, j, id, v)
    ensures i == j
  {
    if i < j { AdvancesFar(states, version, i + 1, j); }
    if j < i { AdvancesFar(states, version, j + 1, i); }
  }

  // The row's version goes up by exactly one with every change, and by nothing else.
  predicate StepCounts<K, R(==)>(before: map<K, R>, after: map<K, R>, version: R -> nat) {
    forall id <- before :: id in after &&
      (after[id] == before[id] || version(after[id]) == version(before[id]) + 1)
  }

  ghost predicate Counts<K, R>(states: seq<map<K, R>>, version: R -> nat) {
    forall i, j :: 0 <= i && j == i + 1 && j < |states| ==> StepCounts(states[i], states[j], version)
  }

  lemma CountsAdvances<K, R>(states: seq<map<K, R>>, version: R -> nat)
    requires Counts(states, version)
    ensures Advances(states, version)
  {
  }

  // How often row `id` changed between moments `i` and `j`.
  function Changes<K, R(==)>(states: seq<map<K, R>>, id: K, i: nat, j: nat): nat
    requires i <= j < |states| && forall n :: i <= n <= j ==> id in states[n]
    decreases j
  {
    if i == j then 0
    else Changes(states, id, i, j - 1) + (if states[j - 1][id] == states[j][id] then 0 else 1)
  }

  lemma RowStays<K, R>(states: seq<map<K, R>>, version: R -> nat, id: K, i: nat, j: nat)
    requires Counts(states, version) && i <= j < |states| && id in states[i]
    ensures forall n :: i <= n <= j ==> id in states[n]
  {
    CountsAdvances(states, version);
    forall n | i <= n <= j ensures id in states[n] { AdvancesFar(states, version, i, n); }
  }

  // A version is the initial version plus the number of changes.
  lemma {:induction false} VersionCountsChanges<K, R>(states: seq<map<K, R>>, version: R -> nat, id: K, i: nat, j: nat)
    requires Counts(states, version) && i <= j < |states| && forall n :: i <= n <= j ==> id in states[n]
    ensures version(states[j][id]) == version(states[i][id]) + Changes(states, id, i, j)
    decreases j
  {
    if i < j {
      var k := j - 1;
      VersionCountsChanges(states, version, id, i, k);
      assert StepCounts(states[k], states[j], version);
    }
  }
}
