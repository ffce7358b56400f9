/** Runs of a system whose steps are a function of a state and an action.

    An action that cannot be taken leaves the state as it is, so every list of actions is a
    run, and every interleaving of the threads' steps is some list. */
module Runs {

  function Exec<S, A>(next: (S, A) -> S, s: S, run: seq<A>): S
    decreases |run|
  {
    if run == [] then s else Exec(next, next(s, run[0]), run[1..])
  }

  lemma {:induction false} ExecAppend<S, A>(next: (S, A) -> S, s: S, run: seq<A>, a: A)
    ensures Exec(next, s, run + [a]) == next(Exec(next, s, run), a)
    decreases |run|
  {
    if run == [] {
      assert run + [a] == [a] && [a][1..] == [];
    } else {
      assert (run + [a])[1..] == run[1..] + [a];
      ExecAppend(next, next(s, run[0]), run[1..], a);
    }
  }

  lemma {:induction false} ExecConcat<S, A>(next: (S, A) -> S, s: S, run: seq<A>, more: seq<A>)
    ensures Exec(next, s, run + more) == Exec(next, Exec(next, s, run), more)
    decreases |run|
  {
    if run == [] {
      assert run + more == more;
    } else {
      assert (run + more)[1..] == run[1..] + more;
      ExecConcat(next, next(s, run[0]), run[1..], more);
    }
  }

  lemma ExecThree<S, A>(next: (S, A) -> S, s: S, run: seq<A>, a: A, b: A, c: A)
    ensures Exec(next, s, run + [a, b, c]) == next(next(next(Exec(next, s, run), a), b), c)
  {
    ExecAppend(next, s, run, a);
    ExecAppend(next, s, run + [a], b);
    ExecAppend(next, s, run + [a] + [b], c);
    assert run + [a] + [b] + [c] == run + [a, b, c];
  }

  /** An action and five times another. */
  lemma ExecSix<S, A>(next: (S, A) -> S, s: S, a: A, b: A)
    ensures Exec(next, s, [a, b, b, b, b, b]) == next(next(next(next(next(next(s, a), b), b), b), b), b)
  {
    var none: seq<A> := [];
    ExecThree(next, s, none, a, b, b);
    ExecThree(next, s, none + [a, b, b], b, b, b);
    assert none + [a, b, b] + [b, b, b] == [a, b, b, b, b, b];
  }

  /** Every step of a run, from the state it is taken in, is of an allowed kind. */
  predicate Throughout<S, A>(next: (S, A) -> S, ok: (S, A) -> bool, s: S, run: seq<A>)
    decreases |run|
  {
    run == [] || (ok(s, run[0]) && Throughout(next, ok, next(s, run[0]), run[1..]))
  }

  /** What every allowed step keeps, every allowed run keeps. */
  lemma {:induction false} Keeps<S(!new), A(!new)>(
    next: (S, A) -> S, ok: (S, A) -> bool, inv: S -> bool, s: S, run: seq<A>)
    requires inv(s) && Throughout(next, ok, s, run)
    requires forall r, a :: inv(r) && ok(r, a) ==> inv(next(r, a))
    ensures inv(Exec(next, s, run))
    decreases |run|
  {
    if run != [] {
      Keeps(next, ok, inv, next(s, run[0]), run[1..]);
    }
  }

  /** What every step keeps, every run keeps. */
  lemma {:induction false} AlwaysKeeps<S(!new), A(!new)>(next: (S, A) -> S, inv: S -> bool, s: S, run: seq<A>)
    requires inv(s) && forall r, a :: inv(r) ==> inv(next(r, a))
    ensures inv(Exec(next, s, run))
    decreases |run|
  {
    if run != [] {
      AlwaysKeeps(next, inv, next(s, run[0]), run[1..]);
    }
  }

  /** What a run says by itself: a record folded over its actions, each met in its state. */
  function Tally<S, A, H>(next: (S, A) -> S, grow: (S, H, A) -> H, s: S, h: H, run: seq<A>): H
    decreases |run|
  {
    if run == [] then h else Tally(next, grow, next(s, run[0]), grow(s, h, run[0]), run[1..])
  }

  /** What every step keeps of state and record together, every run keeps. */
  lemma {:induction false} TallyKeeps<S(!new), A(!new), H(!new)>(
    next: (S, A) -> S, grow: (S, H, A) -> H, inv: (S, H) -> bool, s: S, h: H, run: seq<A>)
    requires inv(s, h) && forall r, k, a :: inv(r, k) ==> inv(next(r, a), grow(r, k, a))
    ensures inv(Exec(next, s, run), Tally(next, grow, s, h, run))
    decreases |run|
  {
    if run != [] {
      TallyKeeps(next, grow, inv, next(s, run[0]), grow(s, h, run[0]), run[1..]);
    }
  }

  lemma {:induction false} ThroughoutAppend<S, A>(
    next: (S, A) -> S, ok: (S, A) -> bool, s: S, run: seq<A>, a: A)
    requires Throughout(next, ok, s, run) && ok(Exec(next, s, run), a)
    ensures Throughout(next, ok, s, run + [a])
    decreases |run|
  {
    if run == [] {
      assert run + [a] == [a] && [a][1..] == [];
    } else {
      assert (run + [a])[1..] == run[1..] + [a];
      ThroughoutAppend(next, ok, next(s, run[0]), run[1..], a);
    }
  }

  /** A run allowed by a stricter rule is allowed by a laxer one. */
  lemma {:induction false} ThroughoutWeaken<S(!new), A(!new)>(
    next: (S, A) -> S, strict: (S, A) -> bool, lax: (S, A) -> bool, s: S, run: seq<A>)
    requires Throughout(next, strict, s, run)
    requires forall r, a :: strict(r, a) ==> lax(r, a)
    ensures Throughout(next, lax, s, run)
    decreases |run|
  {
    if run != [] {
      ThroughoutWeaken(next, strict, lax, next(s, run[0]), run[1..]);
    }
  }

  // ---- reachable states --------------------------------------------------------------

  /** Some allowed run ends in s. */
  ghost predicate Reached<S(!new), A(!new)>(next: (S, A) -> S, ok: (S, A) -> bool, init: S, s: S) {
    exists run: seq<A> :: Throughout(next, ok, init, run) && Exec(next, init, run) == s
  }

  lemma ReachedInit<S(!new), A(!new)>(next: (S, A) -> S, ok: (S, A) -> bool, init: S)
    ensures Reached(next, ok, init, init)
  {
    var none: seq<A> := [];
    assert Throughout(next, ok, init, none) && Exec(next, init, none) == init;
  }

  lemma ReachedNext<S(!new), A(!new)>(next: (S, A) -> S, ok: (S, A) -> bool, init: S, s: S, a: A)
    requires Reached(next, ok, init, s) && ok(s, a)
    ensures Reached(next, ok, init, next(s, a))
  {
    var run :| Throughout(next, ok, init, run) && Exec(next, init, run) == s;
    ExecAppend(next, init, run, a);
    ThroughoutAppend(next, ok, init, run, a);
  }

  /** Some allowed run ends in a state that v is a view of. */
  ghost predicate Seen<S(!new), A(!new), V>(
    next: (S, A) -> S, ok: (S, A) -> bool, init: S, sees: (S, V) -> bool, v: V)
  {
    exists s :: Reached(next, ok, init, s) && sees(s, v)
  }

  lemma SeenInit<S(!new), A(!new), V>(
    next: (S, A) -> S, ok: (S, A) -> bool, init: S, sees: (S, V) -> bool, v: V)
    requires sees(init, v)
    ensures Seen(next, ok, init, sees, v)
  {
    ReachedInit(next, ok, init);
  }

  /** An action that takes every state seen as v to one seen as w. */
  lemma SeenNext<S(!new), A(!new), V>(
    next: (S, A) -> S, ok: (S, A) -> bool, init: S, sees: (S, V) -> bool, v: V, a: A, w: V)
    requires Seen(next, ok, init, sees, v)
    requires forall s | sees(s, v) :: ok(s, a) && sees(next(s, a), w)
    ensures Seen(next, ok, init, sees, w)
  {
    var s :| Reached(next, ok, init, s) && sees(s, v);
    ReachedNext(next, ok, init, s, a);
  }

  /** k steps of one thread, as seen in a view; CanSteps, that it can take them all. */
  function Steps<V>(step: V -> V, v: V, k: nat): V
    decreases k
  {
    if k == 0 then v else Steps(step, step(v), k - 1)
  }

  predicate CanSteps<V>(can: V -> bool, step: V -> V, v: V, k: nat)
    decreases k
  {
    k == 0 || (can(v) && CanSteps(can, step, step(v), k - 1))
  }

  lemma TwoSteps<V>(can: V -> bool, step: V -> V, v: V)
    requires can(v) && can(step(v))
    ensures CanSteps(can, step, v, 2) && Steps(step, v, 2) == step(step(v))
  {
    var x := step(v);
    assert CanSteps(can, step, x, 1) && Steps(step, x, 1) == step(x);
  }

  lemma ThreeSteps<V>(can: V -> bool, step: V -> V, v: V)
    requires can(v) && can(step(v)) && can(step(step(v)))
    ensures CanSteps(can, step, v, 3) && Steps(step, v, 3) == step(step(step(v)))
  {
    var x := step(step(v));
    assert CanSteps(can, step, x, 1) && Steps(step, x, 1) == step(x);
  }

  lemma {:induction false} StepsJoin<V>(can: V -> bool, step: V -> V, v: V, j: nat, k: nat)
    requires CanSteps(can, step, v, j) && CanSteps(can, step, Steps(step, v, j), k)
    ensures CanSteps(can, step, v, j + k) && Steps(step, v, j + k) == Steps(step, Steps(step, v, j), k)
    decreases j
  {
    if j > 0 {
      StepsJoin(can, step, step(v), j - 1, k);
    }
  }

  /** Steps of one part of a view, x placed in it by `place`, that states follow whenever the
      part can take them. */
  lemma {:induction false} SeenSteps<S(!new), A(!new), V(!new), X(!new)>(
    next: (S, A) -> S, ok: (S, A) -> bool, init: S, sees: (S, V) -> bool,
    place: X -> V, can: X -> bool, step: X -> X, a: A, x: X, k: nat)
    requires forall s, y | sees(s, place(y)) && can(y) :: ok(s, a) && sees(next(s, a), place(step(y)))
    requires Seen(next, ok, init, sees, place(x)) && CanSteps(can, step, x, k)
    ensures Seen(next, ok, init, sees, place(Steps(step, x, k)))
    decreases k
  {
    if k > 0 {
      SeenNext(next, ok, init, sees, place(x), a, place(step(x)));
      SeenSteps(next, ok, init, sees, place, can, step, a, step(x), k - 1);
    }
  }

  // ---- refinement ----------------------------------------------------------------------

  /** What the states of a run stand for, one after the other. */
  function Trace<S, A, Q>(next: (S, A) -> S, meaning: S -> Q, s: S, run: seq<A>): (qs: seq<Q>)
    ensures |qs| == |run| + 1
    decreases |run|
  {
    [meaning(s)] + if run == [] then [] else Trace(next, meaning, next(s, run[0]), run[1..])
  }

  lemma {:induction false} TraceEnds<S, A, Q>(next: (S, A) -> S, meaning: S -> Q, s: S, run: seq<A>)
    ensures Trace(next, meaning, s, run)[0] == meaning(s)
    ensures Trace(next, meaning, s, run)[|run|] == meaning(Exec(next, s, run))
    decreases |run|
  {
    if run != [] {
      TraceEnds(next, meaning, next(s, run[0]), run[1..]);
    }
  }
}
