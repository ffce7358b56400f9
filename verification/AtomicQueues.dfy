/** The queue the producer/consumer modules are meant to be: bounded, first in first out,
    each operation happening at one instant. */
module AtomicQueues {
  import opened Runs

  /** The items held, oldest first, and everything dequeued so far. */
  datatype Queue<T> = Queue(capacity: nat, items: seq<T>, taken: seq<T>)

  /** What a run of calls says by itself: each thread's last argument, and the arguments of
      the insertions made, in order. */
  datatype Told<T> = Told(args: seq<T>, inserted: seq<T>) {
    function Given(t: nat, x: T): Told<T> {
      if t < |args| then this.(args := args[t := x]) else this
    }
    function Inserted(t: nat): Told<T> {
      if t < |args| then this.(inserted := inserted + [args[t]]) else this
    }
  }

  predicate Enqueues<T(==)>(q: Queue<T>, x: T, r: Queue<T>) {
    |q.items| < q.capacity && r == q.(items := q.items + [x])
  }

  predicate Dequeues<T(==)>(q: Queue<T>, x: T, r: Queue<T>) {
    q.items != [] && q.items[0] == x && r == q.(items := q.items[1..], taken := q.taken + [x])
  }

  datatype Operation<T> = Enqueue(x: T) | Dequeue

  predicate Can<T>(q: Queue<T>, o: Operation<T>) {
    if o.Enqueue? then |q.items| < q.capacity else q.items != []
  }

  function Do<T>(q: Queue<T>, o: Operation<T>): Queue<T>
    requires Can(q, o)
  {
    if o.Enqueue? then q.(items := q.items + [o.x])
    else q.(items := q.items[1..], taken := q.taken + [q.items[0]])
  }

  /** Operations that the queue can do one after the other, and what they leave. */
  predicate Playable<T>(q: Queue<T>, os: seq<Operation<T>>)
    decreases |os|
  {
    os == [] || (Can(q, os[0]) && Playable(Do(q, os[0]), os[1..]))
  }

  function Play<T>(q: Queue<T>, os: seq<Operation<T>>): Queue<T>
    requires Playable(q, os)
    decreases |os|
  {
    if os == [] then q else Play(Do(q, os[0]), os[1..])
  }

  /** One instant of the queue: nothing, one enqueue or one dequeue. */
  ghost predicate Step<T(!new)>(q: Queue<T>, r: Queue<T>) {
    r == q || (exists x :: Enqueues(q, x, r)) || (exists x :: Dequeues(q, x, r))
  }

  /** A run of the queue. */
  ghost predicate History<T(!new)>(qs: seq<Queue<T>>) {
    qs != [] && (|qs| == 1 || (Step(qs[0], qs[1]) && History(qs[1..])))
  }

  /** What was dequeued and is held only grows at its end: first in, first out. */
  lemma {:induction false} HistoryOrder<T(!new)>(qs: seq<Queue<T>>)
    requires History(qs)
    ensures qs[0].taken <= qs[|qs| - 1].taken
    ensures qs[0].taken + qs[0].items <= qs[|qs| - 1].taken + qs[|qs| - 1].items
    ensures |qs[0].items| <= qs[0].capacity ==> |qs[|qs| - 1].items| <= qs[|qs| - 1].capacity
    decreases |qs|
  {
    if |qs| > 1 {
      var q, r := qs[0], qs[1];
      HistoryOrder(qs[1..]);
      assert q.taken + q.items <= r.taken + r.items by {
        if x :| Dequeues(q, x, r) {
          assert q.items == [x] + r.items;
        }
      }
    }
  }

  /** A system whose every step is one instant of the queue it stands for runs as the queue
      does, and so delivers in order. */
  lemma {:induction false} Refines<S(!new), A(!new), T(!new)>(
    next: (S, A) -> S, inv: S -> bool, meaning: S -> Queue<T>, s: S, run: seq<A>)
    requires inv(s) && forall r, a :: inv(r) ==> inv(next(r, a)) && Step(meaning(r), meaning(next(r, a)))
    ensures History(Trace(next, meaning, s, run))
    decreases |run|
  {
    if run != [] {
      var rest := Trace(next, meaning, next(s, run[0]), run[1..]);
      Refines(next, inv, meaning, next(s, run[0]), run[1..]);
      TraceEnds(next, meaning, next(s, run[0]), run[1..]);
      assert Trace(next, meaning, s, run)[1..] == rest;
    }
  }
}
