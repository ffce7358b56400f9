/** Counting the threads that are at given places. */
module Counting {

  /** The threads whose place satisfies p, and how many they are. */
  function Threads<P>(at: seq<P>, p: P -> bool): set<nat> {
    set t | 0 <= t < |at| && p(at[t])
  }

  function Many<P>(at: seq<P>, p: P -> bool): nat {
    |Threads(at, p)|
  }

  function At<P(==)>(place: P): P -> bool {
    (pc: P) => pc == place
  }

  /** One thread changes place. */
  lemma ManyUpdate<P>(at: seq<P>, t: nat, pc: P, p: P -> bool)
    requires t < |at|
    ensures Many(at[t := pc], p) == Many(at, p) - (if p(at[t]) then 1 else 0) + (if p(pc) then 1 else 0)
  {
    var rest := Threads(at, p) - {t};
    assert Threads(at, p) == if p(at[t]) then rest + {t} else rest;
    assert Threads(at[t := pc], p) == if p(pc) then rest + {t} else rest;
  }

  /** Counting no thread is the same as every thread failing the test. */
  lemma NoneSuch<P>(at: seq<P>, p: P -> bool)
    ensures Many(at, p) == 0 <==> forall t | 0 <= t < |at| :: !p(at[t])
  {
    assert Many(at, p) == 0 <==> Threads(at, p) == {};
    forall t | 0 <= t < |at| && p(at[t]) ensures Many(at, p) != 0 {
      assert t in Threads(at, p);
    }
  }

  lemma SameThreads<P>(at: seq<P>, p: P -> bool, q: P -> bool)
    requires forall t | 0 <= t < |at| :: p(at[t]) == q(at[t])
    ensures Many(at, p) == Many(at, q)
  {
    assert Threads(at, p) == Threads(at, q);
  }

  /** When one thread passes the test and the count is one, no other thread does. */
  lemma OnlyOne<P>(at: seq<P>, p: P -> bool, t: nat, u: nat)
    requires t < |at| && u < |at| && p(at[t]) && p(at[u]) && Many(at, p) <= 1
    ensures t == u && Many(at, p) == 1
  {
    var all := Threads(at, p);
    assert t in all && u in all;
    assert |all - {t}| == |all| - 1;
    assert t != u ==> u in all - {t};
  }

  /** Two disjoint kinds of threads of a larger kind, with a thread of that kind in neither. */
  lemma Fewer<P>(at: seq<P>, p: P -> bool, q: P -> bool, all: P -> bool, t: nat)
    requires t < |at| && all(at[t]) && !p(at[t]) && !q(at[t])
    requires forall u | 0 <= u < |at| :: !(p(at[u]) && q(at[u])) && (p(at[u]) || q(at[u]) ==> all(at[u]))
    ensures Many(at, p) + Many(at, q) < Many(at, all)
  {
    var some, rest := Threads(at, p) + Threads(at, q), Threads(at, all) - {t};
    assert Threads(at, p) !! Threads(at, q);
    assert rest == some + (rest - some);
    assert Threads(at, all) == rest + {t};
  }
}
