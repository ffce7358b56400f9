/** Scripts: runs of a monitor in which one thread moves at a time, followed on views that
    keep only what matters of a state. */
module Scripts {
  import opened Monitors
  import opened Runs

  /** The threads' places, the semaphores and counters, and what else they share. */
  datatype View<P, D> = View(places: seq<P>, locks: Locks, data: D)

  /** One thread's part of a view. */
  datatype Solo<P, D> = Solo(place: P, locks: Locks, data: D)

  /** The view v with thread t as x says. */
  function Placed<P, D>(v: View<P, D>, t: nat, x: Solo<P, D>): View<P, D>
    requires t < |v.places|
  {
    View(v.places[t := x.place], x.locks, x.data)
  }

  function Placing<P, D>(v: View<P, D>, t: nat): Solo<P, D> -> View<P, D>
    requires t < |v.places|
  {
    (x: Solo<P, D>) => Placed(v, t, x)
  }

  function Only<P, D>(v: View<P, D>, t: nat): (x: Solo<P, D>)
    requires t < |v.places|
    ensures Placed(v, t, x) == v
  {
    Solo(v.places[t], v.locks, v.data)
  }

  /** The locks with no permit out, nobody waiting, and the lock free. */
  function Free(): Locks {
    Locks(1, Both(0, 0), Both(0, 0))
  }

  /** Thread t takes k steps on its own, each of which states follow. */
  lemma SeenGo<S(!new), A(!new), P(!new), D(!new)>(
    next: (S, A) -> S, ok: (S, A) -> bool, init: S, sees: (S, View<P, D>) -> bool,
    can: Solo<P, D> -> bool, go: Solo<P, D> -> Solo<P, D>, run: A, v: View<P, D>, t: nat, x: Solo<P, D>, k: nat)
    requires t < |v.places| && Seen(next, ok, init, sees, Placed(v, t, x)) && CanSteps(can, go, x, k)
    requires forall s, y | sees(s, Placed(v, t, y)) && can(y) :: ok(s, run) && sees(next(s, run), Placed(v, t, go(y)))
    ensures Seen(next, ok, init, sees, Placed(v, t, Steps(go, x, k)))
  {
    SeenSteps(next, ok, init, sees, Placing(v, t), can, go, run, x, k);
  }

  /** Thread t begins, which makes its part x, and then takes k steps on its own. */
  lemma SeenCall<S(!new), A(!new), P(!new), D(!new)>(
    next: (S, A) -> S, ok: (S, A) -> bool, init: S, sees: (S, View<P, D>) -> bool,
    can: Solo<P, D> -> bool, go: Solo<P, D> -> Solo<P, D>, begin: A, run: A,
    v: View<P, D>, t: nat, x: Solo<P, D>, k: nat)
    requires t < |v.places| && Seen(next, ok, init, sees, v) && CanSteps(can, go, x, k)
    requires forall s | sees(s, v) :: ok(s, begin) && sees(next(s, begin), Placed(v, t, x))
    requires forall s, y | sees(s, Placed(v, t, y)) && can(y) :: ok(s, run) && sees(next(s, run), Placed(v, t, go(y)))
    ensures Seen(next, ok, init, sees, Placed(v, t, Steps(go, x, k)))
  {
    SeenNext(next, ok, init, sees, v, begin, Placed(v, t, x));
    SeenGo(next, ok, init, sees, can, go, run, v, t, x, k);
  }
}
