/** Threads that keep to one side each, and which sets of them are few enough for one wake-up
    at a time to do. */
module Sides {
  import opened Monitors

  predicate AllOn(sides: seq<Side>, q: Side) {
    forall t | 0 <= t < |sides| :: sides[t] == q
  }

  /** At most two threads, or all on one side. */
  predicate FewEnough(sides: seq<Side>) {
    |sides| <= 2 || AllOn(sides, Prod) || AllOn(sides, Cons)
  }

  /** Two threads of side q and one of the other. */
  predicate Crowd(sides: seq<Side>, q: Side, i: nat, j: nat, k: nat) {
    i < |sides| && j < |sides| && k < |sides| && i != j && sides[i] == q == sides[j] && sides[k] == q.Other()
  }

  lemma FindCrowd(sides: seq<Side>) returns (q: Side, i: nat, j: nat, k: nat)
    requires !FewEnough(sides)
    ensures Crowd(sides, q, i, j, k)
  {
    var p: nat :| p < |sides| && sides[p] != Cons;
    var c: nat :| c < |sides| && sides[c] != Prod;
    var other: nat := if p != 0 && c != 0 then 0 else if p != 1 && c != 1 then 1 else 2;
    assert other != p && other != c;
    q, i, j, k := sides[other], if sides[other] == Prod then p else c, other, if sides[other] == Prod then c else p;
  }
}
