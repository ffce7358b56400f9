/** What an interrupted `open` of the FIFO leaves behind: a count with no descriptor to it,
    after which the buffer is never cleared again. */
module FifoLeaks {
  import opened Monitors
  import opened FifoProc
  import opened FifoScripts
  import opened FifoSides
  import opened Runs
  import opened Scripts

  /** Thread 0 sleeps in its `open` on side q. */
  function Opening(threads: nat, capacity: nat, q: Side): Shape
    requires threads >= 1
  {
    Placed(Nobody(seq(threads, _ => q), capacity), 0,
           Solo(Place(Queued(q), Open, Opened(q)), LocksWait(Free(), q, 1),
                CountedOn(Empty(capacity, Both(0, 0)), q, 1)))
  }

  lemma ShowOpening(threads: nat, capacity: nat, q: Side) returns (run: seq<Action>)
    requires threads >= 1
    ensures Throughout(Next, Uninterrupted, Init(threads, capacity), run)
    ensures Sees(After(threads, capacity, run), Opening(threads, capacity, q))
  {
    var sides, any := seq(threads, _ => q), (op: Op) => true;
    ShownFirst(sides, any, capacity);
    ShownOpenSleeps(sides, any, capacity, Nobody(sides, capacity), 0, q);
    run := ShownRun(sides, any, capacity, Opening(threads, capacity, q));
  }

  /** Interrupted in the queue. */
  lemma Bails(s: State, v: Shape, t: nat, q: Side, x: Part)
    requires t < |v.places| && Sees(s, v) && v.places[t] == Place(Queued(q), Open, Opened(q))
    requires v.locks.permits.Of(q) == 0 && x == Only(v, t).(place := Place(Bailing(q), Open, Opened(q)))
    ensures Taken(s, Interrupt(t)) && Sees(Next(s, Interrupt(t)), Placed(v, t, x))
  {
    assert InPlace(s, t, v.places[t]);
    OneMoves(s, v, t, Only(v, t), Interrupt(t), x);
  }

  lemma BailsOut(x: Part, q: Side)
    requires x.place == Place(Bailing(q), Open, Opened(q)) && x.locks.mtx == 1
    ensures CanGo(x) && CanGo(Go(x)) && CanGo(Go(Go(x)))
    ensures Go(Go(Go(x))) == Solo(Place(Outside, NoOp, Closed), LocksWait(x.locks, q, -1), x.data)
  {
  }

  lemma ThreeMore(s: State, v: Shape, t: nat, x: Part)
    requires t < |v.places| && Sees(s, Placed(v, t, x)) && CanGo(x) && CanGo(Go(x)) && CanGo(Go(Go(x)))
    ensures Sees(Next(Next(Next(s, Run(t)), Run(t)), Run(t)), Placed(v, t, Go(Go(Go(x)))))
  {
    GoAlone(s, v, t, x);
    GoAlone(Next(s, Run(t)), v, t, Go(x));
    GoAlone(Next(Next(s, Run(t)), Run(t)), v, t, Go(Go(x)));
  }

  lemma ShowsLeak(s: State, v: Shape, q: Side, x: Part)
    requires |v.places| >= 1 && Sees(s, Placed(v, 0, x)) && x.place == Place(Outside, NoOp, Closed)
    requires forall t | 0 < t < |v.places| :: v.places[t] == Place(Outside, NoOp, Closed)
    requires x.data.g.count.Of(q) == 1
    ensures s.count.Of(q) == 1 && |s.m.at| == |v.places|
    ensures forall t | 0 <= t < |v.places| :: s.m.at[t] == Outside && s.fd[t] == Closed
  {
    forall t | 0 <= t < |v.places| ensures s.m.at[t] == Outside && s.fd[t] == Closed {
      assert InPlace(s, t, Placed(v, 0, x).places[t]);
    }
  }

  lemma Leaks(s: State, threads: nat, capacity: nat, q: Side)
    requires threads >= 1 && Sees(s, Opening(threads, capacity, q))
    ensures Taken(s, Interrupt(0))
    ensures var r := Next(Next(Next(Next(s, Interrupt(0)), Run(0)), Run(0)), Run(0));
      && Sized(r) && |r.m.at| == threads && r.count.Of(q) == 1
      && forall t | 0 <= t < threads :: r.m.at[t] == Outside && r.fd[t] == Closed
  {
    var v := Opening(threads, capacity, q);
    var x := Only(v, 0).(place := Place(Bailing(q), Open, Opened(q)));
    Bails(s, v, 0, q, x);
    BailsOut(x, q);
    ThreeMore(Next(s, Interrupt(0)), v, 0, x);
    ShowsLeak(Next(Next(Next(Next(s, Interrupt(0)), Run(0)), Run(0)), Run(0)), v, q, Go(Go(Go(x))));
  }

  /** A run in which the one call is an `open` that is interrupted asleep, and after which
      every descriptor is closed but the open count of its side is one. */
  lemma LeakingRun(threads: nat, capacity: nat, q: Side) returns (before: seq<Action>)
    requires threads >= 1
    ensures Throughout(Next, Uninterrupted, Init(threads, capacity), before)
    ensures Taken(After(threads, capacity, before), Interrupt(0))
    ensures var s := After(threads, capacity, before + [Interrupt(0)] + [Run(0), Run(0), Run(0)]);
      s.count.Of(q) == 1 && forall t | 0 <= t < threads :: s.m.at[t] == Outside && s.fd[t] == Closed
  {
    before := ShowOpening(threads, capacity, q);
    Leaks(After(threads, capacity, before), threads, capacity, q);
    ExecAppend(Next, Init(threads, capacity), before, Interrupt(0));
    ExecThree(Next, Init(threads, capacity), before + [Interrupt(0)], Run(0), Run(0), Run(0));
  }

  /** Once a count has leaked the buffer is never cleared again, whatever is called. */
  lemma LeaksForEver(s: State, run: seq<Action>)
    requires Safe(s) && s.leaked != Both(0, 0)
    ensures var r := Exec(Next, s, run); r.leaked != Both(0, 0) && r.epoch == s.epoch
  {
    var kept := (r: State) => Safe(r) && r.leaked != Both(0, 0) && r.epoch == s.epoch;
    forall r, a | kept(r) ensures kept(Next(r, a)) {
      KeepsSafe(r, a);
      if Next(r, a).epoch != r.epoch {
        ClearedOnlyWhenUnused(r, a);
      }
    }
    AlwaysKeeps(Next, kept, s, run);
  }
}
