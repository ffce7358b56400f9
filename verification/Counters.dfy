/** When the hand-kept counters of the producer/consumer monitor can go below zero: as soon as
    there are two threads, because an interrupted sleeper takes itself off a counter that the
    signaller has already taken it off. */
module Counters {
  import opened Counting
  import opened Monitors
  import opened ProdCons2
  import opened Runs
  import opened Scripts
  import opened WakeUps

  predicate NegativeAfter(threads: nat, capacity: nat, run: seq<Action>) {
    var m := After(threads, capacity, run).m; m.waiting.prod < 0 || m.waiting.cons < 0
  }

  // ---- one thread ----------------------------------------------------------------------

  /** Nobody is there to signal. */
  predicate NeverSignalled(s: State) {
    Inv(s.m) && |s.m.at| <= 1 && s.m.permits == Both(0, 0)
  }

  lemma NobodyToSignal(s: State, q: Side)
    requires NeverSignalled(s)
    ensures s.m.waiting.Of(q) == Many(s.m.at, Owing(q))
    ensures |s.m.at| == 1 && s.m.at[0] == Waking(q.Other()) ==> s.m.waiting.Of(q) == 0
  {
    assert Accounts(s.m, q);
    NoneSuch(s.m.at, Owing(q));
  }

  lemma KeepsNeverSignalled(s: State, a: Action)
    requires NeverSignalled(s)
    ensures NeverSignalled(Next(s, a))
  {
    if Taken(s, a) {
      KeepsInv(s.m, a.t, ProdCons2.MoveIn(s, a));
      NobodyToSignal(s, Prod);
      NobodyToSignal(s, Cons);
    }
  }

  lemma NeverNegative(threads: nat, capacity: nat, run: seq<Action>)
    requires threads <= 1
    ensures !NegativeAfter(threads, capacity, run)
  {
    StartInv(threads);
    forall s, a | NeverSignalled(s) ensures NeverSignalled(Next(s, a)) {
      KeepsNeverSignalled(s, a);
    }
    AlwaysKeeps(Next, NeverSignalled, Init(threads, capacity), run);
    NobodyToSignal(After(threads, capacity, run), Prod);
    NobodyToSignal(After(threads, capacity, run), Cons);
  }

  // ---- two threads -----------------------------------------------------------------------

  predicate Anything(s: State, a: Action) {
    true
  }

  ghost predicate Possibly(threads: nat, capacity: nat, v: Shape) {
    Seen(Next, Anything, Init(threads, capacity), Sees, v)
  }

  lemma PossiblyGo(threads: nat, capacity: nat, v: Shape, t: nat, x: Part, k: nat)
    requires t < |v.places| && Possibly(threads, capacity, Placed(v, t, x)) && CanSteps(CanGo, Go, x, k)
    ensures Possibly(threads, capacity, Placed(v, t, Steps(Go, x, k)))
  {
    forall s, y | Sees(s, Placed(v, t, y)) && CanGo(y)
      ensures Anything(s, Run(t)) && Sees(Next(s, Run(t)), Placed(v, t, Go(y)))
    {
      GoAlone(s, v, t, y);
    }
    SeenGo(Next, Anything, Init(threads, capacity), Sees, CanGo, Go, Run(t), v, t, x, k);
  }

  lemma PossiblyCall(threads: nat, capacity: nat, v: Shape, t: nat, q: Side, k: nat)
    requires Possibly(threads, capacity, v) && t < |v.places| && v.places[t] == Outside
    requires CanSteps(CanGo, Go, Only(v, t).(place := Entering(q)), k)
    ensures Possibly(threads, capacity, Placed(v, t, Steps(Go, Only(v, t).(place := Entering(q)), k)))
  {
    var x := Only(v, t).(place := Entering(q));
    forall s | Sees(s, v) ensures Anything(s, CallOf(t, q)) && Sees(Next(s, CallOf(t, q)), Placed(v, t, x)) {
      CallAlone(s, v, t, q);
    }
    SeenNext(Next, Anything, Init(threads, capacity), Sees, v, CallOf(t, q), Placed(v, t, x));
    PossiblyGo(threads, capacity, v, t, x, k);
  }

  lemma BailsAlone(s: State, v: Shape, t: nat, q: Side)
    requires Sees(s, v) && t < |v.places| && v.places[t] == Queued(q) && v.locks.permits.Of(q) == 0
    ensures Taken(s, Interrupt(t)) && Sees(Next(s, Interrupt(t)), Placed(v, t, Only(v, t).(place := Bailing(q))))
  {
  }

  /** Reader 0, and writer 1; w is the readers' counter, p their queue's permits. */
  function Two(threads: nat, capacity: nat, reader: Pc, mtx: nat, p: nat, w: int, size: nat): Shape
    requires threads >= 2
  {
    View(Start(threads).at[0 := reader], Locks(mtx, Both(0, p), Both(0, w)), Data(capacity, size))
  }

  /** The reader sleeps and is interrupted in the queue. */
  lemma ReaderBails(threads: nat, capacity: nat)
    requires threads >= 2
    ensures Possibly(threads, capacity, Two(threads, capacity, Bailing(Cons), 1, 0, 1, 0))
  {
    var v := View(Start(threads).at, Free(), Data(capacity, 0));
    SeenInit(Next, Anything, Init(threads, capacity), Sees, v);
    WakeUps.Sleeps(Only(v, 0).(place := Entering(Cons)), Cons);
    PossiblyCall(threads, capacity, v, 0, Cons, 3);
    var w, r := Two(threads, capacity, Queued(Cons), 1, 0, 1, 0), Two(threads, capacity, Bailing(Cons), 1, 0, 1, 0);
    forall s | Sees(s, w) ensures Anything(s, Interrupt(0)) && Sees(Next(s, Interrupt(0)), r) {
      BailsAlone(s, w, 0, Cons);
      assert w.places[0 := Bailing(Cons)] == r.places;
    }
    SeenNext(Next, Anything, Init(threads, capacity), Sees, w, Interrupt(0), r);
  }

  lemma DiscountsOne(x: Part)
    requires x.place == Discounting(Prod) && x.locks == Locks(0, Both(0, 1), Both(0, 1))
    ensures CanSteps(CanGo, Go, x, 2)
    ensures Steps(Go, x, 2) == Solo(Outside, Locks(1, Both(0, 1), Both(0, 0)), x.data)
  {
    TwoSteps(CanGo, Go, x);
  }

  /** A writer still finds it on the counter. */
  lemma WriterDiscounts(threads: nat, capacity: nat)
    requires threads >= 2 && capacity > 0
    ensures Possibly(threads, capacity, Two(threads, capacity, Bailing(Cons), 1, 1, 0, 1))
  {
    var v := Two(threads, capacity, Bailing(Cons), 1, 0, 1, 0);
    var x := Only(v, 1).(place := Entering(Prod));
    ReaderBails(threads, capacity);
    WorksAndSignals(x, Prod);
    DiscountsOne(Steps(Go, x, 4));
    StepsJoin(CanGo, Go, x, 4, 2);
    PossiblyCall(threads, capacity, v, 1, Prod, 6);
    assert v.places[1 := Outside] == v.places;
  }

  lemma TakesItselfOff(x: Part)
    requires x.place == Bailing(Cons) && x.locks == Locks(1, Both(0, 1), Both(0, 0))
    ensures CanSteps(CanGo, Go, x, 2)
    ensures Steps(Go, x, 2) == Solo(Leaving(Cons), Locks(0, Both(0, 1), Both(0, -1)), x.data)
  {
    TwoSteps(CanGo, Go, x);
  }

  lemma GoesNegative(threads: nat, capacity: nat) returns (run: seq<Action>)
    requires threads >= 2 && capacity > 0
    ensures After(threads, capacity, run).m.waiting == Both(0, -1)
  {
    var v := Two(threads, capacity, Bailing(Cons), 1, 1, 0, 1);
    WriterDiscounts(threads, capacity);
    TakesItselfOff(Only(v, 0));
    PossiblyGo(threads, capacity, v, 0, Only(v, 0), 2);
    var w := Placed(v, 0, Solo(Leaving(Cons), Locks(0, Both(0, 1), Both(0, -1)), v.data));
    var s :| Reached(Next, Anything, Init(threads, capacity), s) && Sees(s, w);
    run :| Throughout(Next, Anything, Init(threads, capacity), run) && Exec(Next, Init(threads, capacity), run) == s;
  }

  /** A counter can go below zero if and only if there are two threads or more. */
  lemma NegativePossible(threads: nat, capacity: nat)
    requires capacity > 0
    ensures (exists run :: NegativeAfter(threads, capacity, run)) <==> threads >= 2
  {
    if threads >= 2 {
      var run := GoesNegative(threads, capacity);
      assert NegativeAfter(threads, capacity, run);
    } else {
      forall run: seq<Action> ensures !NegativeAfter(threads, capacity, run) {
        NeverNegative(threads, capacity, run);
      }
    }
  }
}
