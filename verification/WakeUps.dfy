/** When the producer/consumer monitor can lose a wake-up, interruptions allowed: when there
    are three threads or more, not all of them on one side. */
module WakeUps {
  import opened Monitors
  import opened ProdCons2
  import opened Runs
  import opened Scripts
  import opened Sides

  /** If nothing can move, every thread is between calls or asleep with nothing for it in
      the buffer. */
  predicate SleepersRight(s: State) {
    AllStuck(s) ==>
      forall t | 0 <= t < |s.m.at| && !s.m.at[t].Outside? :: s.m.at[t].Queued? && NothingFor(s, s.m.at[t].side)
  }

  predicate RightAfter(threads: nat, capacity: nat, run: seq<Action>) {
    SleepersRight(After(threads, capacity, run))
  }

  // ---- two threads --------------------------------------------------------------------

  predicate Asleep(pc: Pc, q: Side) {
    pc == Counted(q) || pc == Queued(q)
  }

  /** The other of at most two threads. */
  function Fellow(s: State, t: nat): Pc
    requires t < |s.m.at| <= 2
  {
    if |s.m.at| == 2 then s.m.at[1 - t] else Outside
  }

  /** A sleeper whose queue has no permit, or whose fellow sleeps there too, still has to
      wait, unless the fellow is at the test at which it signals. */
  predicate StillWaits(s: State, t: nat, q: Side)
    requires t < |s.m.at| <= 2
  {
    (Asleep(s.m.at[t], q) && (s.m.permits.Of(q) == 0 || Asleep(Fellow(s, t), q)) && Fellow(s, t) != Waking(q.Other()))
    ==> MustWait(s, q)
  }

  predicate PairOk(s: State) {
    && Safe(s) && |s.m.at| <= 2
    && forall t: nat, q | t < |s.m.at| :: StillWaits(s, t, q)
  }

  lemma SleeperCounted(m: Monitor, t: nat, q: Side)
    requires Inv(m) && t < |m.at| && Asleep(m.at[t], q) && m.permits.Of(q) == 0
    ensures m.waiting.Of(q) > 0
  {
    assert Accounts(m, q);
    assert Owing(q)(m.at[t]);
    Counting.NoneSuch(m.at, Owing(q));
  }

  /** How a thread comes to be asleep: by failing its test, or by then freeing the lock. */
  lemma FallsAsleep(s: State, a: Action, q: Side)
    requires Taken(s, a) && Asleep(Next(s, a).m.at[a.t], q)
    ensures Next(s, a).buf == s.buf && Next(s, a).m.permits == s.m.permits
    ensures s.m.at[a.t] == Counted(q) || (s.m.at[a.t] == Testing(q) && MustWait(s, q))
  {
  }

  lemma OwnMove(s: State, a: Action, q: Side)
    requires Safe(s) && |s.m.at| <= 2 && Taken(s, a) && StillWaits(s, a.t, q)
    ensures StillWaits(Next(s, a), a.t, q)
  {
    if Asleep(Next(s, a).m.at[a.t], q) {
      FallsAsleep(s, a, q);
      if |s.m.at| == 2 && s.m.at[1 - a.t].Holds() {
        OnlyHolder(s.m, a.t, 1 - a.t);
      }
    }
  }

  /** What a move of the fellow can do to a queue's permits. */
  lemma FellowPermits(s: State, a: Action, q: Side)
    requires Taken(s, a)
    ensures Next(s, a).m.permits.Of(q) < s.m.permits.Of(q) ==> s.m.at[a.t] == Queued(q)
    ensures s.m.at[a.t] == Waking(q.Other()) && s.m.waiting.Of(q) > 0 ==> Next(s, a).m.permits.Of(q) > 0
  {
  }

  /** The buffer changes only at a thread's work, after which it goes on to signal. */
  lemma FellowWorks(s: State, a: Action)
    requires Taken(s, a) && Next(s, a).buf != s.buf
    ensures s.m.at[a.t].Working? && Next(s, a).m.at[a.t] == Waking(s.m.at[a.t].side)
  {
  }

  lemma FellowMove(s: State, a: Action, t: nat, q: Side)
    requires PairOk(s) && |s.m.at| == 2 && Taken(s, a) && t == 1 - a.t
    ensures StillWaits(Next(s, a), t, q)
  {
    var n := Next(s, a);
    assert n.m.at[t] == s.m.at[t];
    if Asleep(s.m.at[t], q) && (n.m.permits.Of(q) == 0 || Asleep(n.m.at[a.t], q)) && n.m.at[a.t] != Waking(q.Other()) {
      assert StillWaits(s, t, q);
      FellowPermits(s, a, q);
      if s.m.permits.Of(q) == 0 {
        SleeperCounted(s.m, t, q);
      }
      if Asleep(n.m.at[a.t], q) {
        FallsAsleep(s, a, q);
      }
      FellowKeeps(s, a, t, q);
    }
  }

  /** The sleeper's condition stays true. */
  lemma FellowKeeps(s: State, a: Action, t: nat, q: Side)
    requires Taken(s, a) && |s.m.at| == 2 && t == 1 - a.t && Ready(s)
    requires MustWait(s, q) && Next(s, a).m.at[a.t] != Waking(q.Other())
    ensures MustWait(Next(s, a), q)
  {
    if Next(s, a).buf != s.buf {
      FellowWorks(s, a);
    }
  }

  lemma KeepsPairOk(s: State, a: Action)
    requires PairOk(s)
    ensures PairOk(Next(s, a))
  {
    KeepsSafe(s, a);
    if Taken(s, a) {
      var n := Next(s, a);
      forall t: nat, q | t < |n.m.at| ensures StillWaits(n, t, q) {
        if t == a.t {
          OwnMove(s, a, q);
        } else {
          FellowMove(s, a, t, q);
        }
      }
    }
  }

  lemma RightWithTwo(threads: nat, capacity: nat, run: seq<Action>)
    requires threads <= 2
    ensures RightAfter(threads, capacity, run)
  {
    var s := After(threads, capacity, run);
    InitSafe(threads, capacity);
    assert PairOk(Init(threads, capacity));
    forall r, a | PairOk(r) ensures PairOk(Next(r, a)) {
      KeepsPairOk(r, a);
    }
    AlwaysKeeps(Next, PairOk, Init(threads, capacity), run);
    if AllStuck(s) {
      StuckPlaces(s);
      forall t | 0 <= t < |s.m.at| && !s.m.at[t].Outside?
        ensures s.m.at[t].Queued? && NothingFor(s, s.m.at[t].side)
      {
        assert StillWaits(s, t, s.m.at[t].side);
      }
    }
  }

  // ---- all on one side -----------------------------------------------------------------

  /** Thread t writes or reads as its side says; anything may be interrupted. */
  function Calls(sides: seq<Side>): (State, Action) -> bool {
    (s: State, a: Action) =>
      (a.Write? || a.Read?) && a.t < |sides| ==> sides[a.t] == if a.Write? then Prod else Cons
  }

  predicate OnSide(s: State, q: Side) {
    forall t | 0 <= t < |s.m.at| && !s.m.at[t].Outside? :: s.m.at[t].side == q
  }

  /** All are on side q, and whoever sleeps has to wait. */
  predicate LonelyOk(s: State, q: Side) {
    Safe(s) && OnSide(s, q) && forall t | 0 <= t < |s.m.at| && Asleep(s.m.at[t], q) :: MustWait(s, q)
  }

  /** A condition that is true stays true until the other side works. */
  lemma LonelyStill(s: State, a: Action, q: Side)
    requires Taken(s, a) && |s.buf| <= s.capacity && MustWait(s, q) && (!s.m.at[a.t].Outside? ==> s.m.at[a.t].side == q)
    ensures MustWait(Next(s, a), q)
  {
  }

  lemma KeepsSide(s: State, a: Action, q: Side)
    requires Taken(s, a) && OnSide(s, q) && (a.Write? ==> q == Prod) && (a.Read? ==> q == Cons)
    ensures OnSide(Next(s, a), q)
  {
  }

  lemma KeepsLonelyOk(s: State, a: Action, q: Side)
    requires LonelyOk(s, q) && (a.Write? ==> q == Prod) && (a.Read? ==> q == Cons)
    ensures LonelyOk(Next(s, a), q)
  {
    KeepsSafe(s, a);
    if Taken(s, a) {
      var n := Next(s, a);
      KeepsSide(s, a, q);
      forall t | 0 <= t < |n.m.at| && Asleep(n.m.at[t], q) ensures MustWait(n, q) {
        if t == a.t {
          FallsAsleep(s, a, q);
        } else {
          assert Asleep(s.m.at[t], q);
        }
        LonelyStill(s, a, q);
      }
    }
  }

  lemma RightOnOneSide(sides: seq<Side>, capacity: nat, run: seq<Action>, q: Side)
    requires AllOn(sides, q) && Throughout(Next, Calls(sides), Init(|sides|, capacity), run)
    ensures RightAfter(|sides|, capacity, run)
  {
    var good := (s: State) => LonelyOk(s, q) && |s.m.at| == |sides|;
    InitSafe(|sides|, capacity);
    forall s, a | good(s) && Calls(sides)(s, a) ensures good(Next(s, a)) {
      if Taken(s, a) {
        KeepsLonelyOk(s, a, q);
      }
    }
    Keeps(Next, Calls(sides), good, Init(|sides|, capacity), run);
    var s := After(|sides|, capacity, run);
    if AllStuck(s) {
      StuckPlaces(s);
      forall t | 0 <= t < |s.m.at| && !s.m.at[t].Outside?
        ensures s.m.at[t].Queued? && NothingFor(s, s.m.at[t].side)
      {
        assert Asleep(s.m.at[t], q);
      }
    }
  }

  // ---- a crowd: one step ---------------------------------------------------------------

  datatype Data = Data(capacity: nat, size: nat)

  type Part = Solo<Pc, Data>

  type Shape = View<Pc, Data>

  predicate Sees(s: State, v: Shape) {
    && |s.item| == |s.m.at| && s.m.at == v.places && LocksOf(s.m) == v.locks
    && s.capacity == v.data.capacity && |s.buf| == v.data.size <= s.capacity
  }

  function MoveIn(x: Part): Move {
    MoveAt(x.place, x.locks, x.data.capacity, x.data.size)
  }

  predicate CanGo(x: Part) {
    Possible(x.place, x.locks, MoveIn(x))
  }

  /** The number of items after a step. */
  function SizeAfter(pc: Pc, d: Data): nat {
    if pc == Working(Prod) && d.size < d.capacity then d.size + 1
    else if pc == Working(Cons) && d.size > 0 then d.size - 1
    else d.size
  }

  function Go(x: Part): Part {
    if !CanGo(x) then x else
      Solo(Target(x.place, MoveIn(x)), Moved(x.place, x.locks, MoveIn(x)),
           x.data.(size := SizeAfter(x.place, x.data)))
  }

  lemma GoAlone(s: State, v: Shape, t: nat, x: Part)
    requires t < |v.places| && Sees(s, Placed(v, t, x)) && CanGo(x)
    ensures Sees(Next(s, Run(t)), Placed(v, t, Go(x)))
  {
    assert v.places[t := x.place][t := Go(x).place] == v.places[t := Go(x).place];
  }

  function CallOf(t: nat, q: Side): Action {
    if q.Prod? then Write(t, 0) else Read(t)
  }

  lemma CallAlone(s: State, v: Shape, t: nat, q: Side)
    requires Sees(s, v) && t < |v.places| && v.places[t] == Outside
    ensures Sees(Next(s, CallOf(t, q)), Placed(v, t, Only(v, t).(place := Entering(q))))
  {
  }

  /** The lock is held, so a thread that waits for it can be interrupted. */
  lemma InterruptAlone(s: State, v: Shape, t: nat, q: Side)
    requires Sees(s, v) && t < |v.places| && v.places[t] == Woken(q) && v.locks.mtx == 0
    ensures Taken(s, Interrupt(t)) && Sees(Next(s, Interrupt(t)), Placed(v, t, Only(v, t).(place := Outside)))
  {
  }

  // ---- what can be seen ------------------------------------------------------------------

  function Quietly(sides: seq<Side>): (State, Action) -> bool {
    (s: State, a: Action) =>
      !a.Interrupt? && ((a.Write? || a.Read?) && a.t < |sides| ==> sides[a.t] == if a.Write? then Prod else Cons)
  }

  /** Some uninterrupted run of these calls ends in a state that shows v. */
  ghost predicate Shown(sides: seq<Side>, capacity: nat, v: Shape) {
    Seen(Next, Quietly(sides), Init(|sides|, capacity), Sees, v)
  }

  lemma ShownGo(sides: seq<Side>, capacity: nat, v: Shape, t: nat, x: Part, k: nat)
    requires t < |v.places| && Shown(sides, capacity, Placed(v, t, x)) && CanSteps(CanGo, Go, x, k)
    ensures Shown(sides, capacity, Placed(v, t, Steps(Go, x, k)))
  {
    forall s, y | Sees(s, Placed(v, t, y)) && CanGo(y)
      ensures Quietly(sides)(s, Run(t)) && Sees(Next(s, Run(t)), Placed(v, t, Go(y)))
    {
      GoAlone(s, v, t, y);
    }
    SeenGo(Next, Quietly(sides), Init(|sides|, capacity), Sees, CanGo, Go, Run(t), v, t, x, k);
  }

  /** Thread t begins a call and takes k steps of it on its own. */
  lemma ShownCall(sides: seq<Side>, capacity: nat, v: Shape, t: nat, q: Side, k: nat)
    requires Shown(sides, capacity, v) && t < |v.places| == |sides| && sides[t] == q && v.places[t] == Outside
    requires CanSteps(CanGo, Go, Only(v, t).(place := Entering(q)), k)
    ensures Shown(sides, capacity, Placed(v, t, Steps(Go, Only(v, t).(place := Entering(q)), k)))
  {
    var a, x := CallOf(t, q), Only(v, t).(place := Entering(q));
    forall s | Sees(s, v) ensures Quietly(sides)(s, a) && Sees(Next(s, a), Placed(v, t, x)) {
      CallAlone(s, v, t, q);
    }
    forall s, y | Sees(s, Placed(v, t, y)) && CanGo(y)
      ensures Quietly(sides)(s, Run(t)) && Sees(Next(s, Run(t)), Placed(v, t, Go(y)))
    {
      GoAlone(s, v, t, y);
    }
    SeenCall(Next, Quietly(sides), Init(|sides|, capacity), Sees, CanGo, Go, a, Run(t), v, t, x, k);
  }

  // ---- parts of calls ----------------------------------------------------------------------

  /** A thread that has to wait sleeps three steps after it entered. */
  lemma Sleeps(x: Part, q: Side)
    requires x.place == Entering(q) && x.locks.mtx == 1 && Waits(q, x.data.capacity, x.data.size)
    ensures CanSteps(CanGo, Go, x, 3)
    ensures Steps(Go, x, 3) ==
      Solo(Queued(q), x.locks.(waiting := x.locks.waiting.With(q, x.locks.waiting.Of(q) + 1)), x.data)
  {
    ThreeSteps(CanGo, Go, x);
  }

  /** One that need not wait is at its wake-up test by then. */
  lemma Works(x: Part, q: Side)
    requires x.place == Entering(q) && x.locks.mtx == 1 && !Waits(q, x.data.capacity, x.data.size)
    ensures CanSteps(CanGo, Go, x, 3)
    ensures Steps(Go, x, 3) ==
      Solo(Waking(q), x.locks.(mtx := 0), x.data.(size := SizeAfter(Working(q), x.data)))
  {
    ThreeSteps(CanGo, Go, x);
  }

  lemma Returns(x: Part, q: Side)
    requires x.place == Waking(q) && x.locks.waiting.Of(q.Other()) <= 0
    ensures CanSteps(CanGo, Go, x, 2)
    ensures Steps(Go, x, 2) == Solo(Outside, x.locks.(mtx := x.locks.mtx + 1), x.data)
  {
    TwoSteps(CanGo, Go, x);
  }

  /** A thread that need not wait, and finds nobody to wake. */
  lemma WorksAndReturns(x: Part, q: Side)
    requires x.place == Entering(q) && x.locks.mtx == 1 && !Waits(q, x.data.capacity, x.data.size)
    requires x.locks.waiting.Of(q.Other()) <= 0
    ensures CanSteps(CanGo, Go, x, 5)
    ensures Steps(Go, x, 5) == Solo(Outside, x.locks, x.data.(size := SizeAfter(Working(q), x.data)))
  {
    Works(x, q);
    Returns(Steps(Go, x, 3), q);
    StepsJoin(CanGo, Go, x, 3, 2);
  }

  lemma OneStep(x: Part)
    requires CanGo(x)
    ensures CanSteps(CanGo, Go, x, 1) && Steps(Go, x, 1) == Go(x)
  {
  }

  /** A thread that need not wait and finds somebody waiting ups the other queue; it still
      has the lock. */
  lemma WorksAndSignals(x: Part, q: Side)
    requires x.place == Entering(q) && x.locks.mtx == 1 && !Waits(q, x.data.capacity, x.data.size)
    requires x.locks.waiting.Of(q.Other()) > 0
    ensures CanSteps(CanGo, Go, x, 4)
    ensures Steps(Go, x, 4) ==
      Solo(Discounting(q), x.locks.(mtx := 0, permits := Inc(x.locks.permits, q.Other())),
           x.data.(size := SizeAfter(Working(q), x.data)))
  {
    Works(x, q);
    OneStep(Steps(Go, x, 3));
    StepsJoin(CanGo, Go, x, 3, 1);
  }

  // ---- the run -------------------------------------------------------------------------------

  function Idle(sides: seq<Side>, capacity: nat, size: nat): Shape {
    View(Start(|sides|).at, Free(), Data(capacity, size))
  }

  /** The size at which side q has to wait, and the one after the other side's work. */
  function Unusable(q: Side, capacity: nat): nat {
    if q.Prod? then capacity else 0
  }

  function Usable(q: Side, capacity: nat): nat
    requires 0 < capacity
  {
    if q.Prod? then capacity - 1 else 1
  }

  /** The locks with p permits of side q and w threads waiting there. */
  function QueueHas(q: Side, mtx: nat, p: nat, w: nat): Locks {
    Locks(mtx, Both(0, 0).With(q, p), Both(0, 0).With(q, w))
  }

  /** Threads i and j of side q, and k of the other; the rest are outside. */
  function Three(sides: seq<Side>, i: nat, pi: Pc, j: nat, pj: Pc, k: nat, pk: Pc): seq<Pc>
    requires i < |sides| && j < |sides| && k < |sides|
  {
    Start(|sides|).at[i := pi][j := pj][k := pk]
  }

  lemma {:induction false} FillsUp(sides: seq<Side>, capacity: nat, i: nat, n: nat)
    requires i < |sides| && sides[i] == Prod && n <= capacity
    ensures Shown(sides, capacity, Idle(sides, capacity, n))
  {
    if n == 0 {
      SeenInit(Next, Quietly(sides), Init(|sides|, capacity), Sees, Idle(sides, capacity, 0));
    } else {
      var v := Idle(sides, capacity, n - 1);
      FillsUp(sides, capacity, i, n - 1);
      WorksAndReturns(Only(v, i).(place := Entering(Prod)), Prod);
      ShownCall(sides, capacity, v, i, Prod, 5);
      assert v.places[i := Outside] == v.places;
    }
  }

  lemma MakesUnusable(sides: seq<Side>, capacity: nat, q: Side, i: nat)
    requires i < |sides| && sides[i] == q
    ensures Shown(sides, capacity, Idle(sides, capacity, Unusable(q, capacity)))
  {
    if q == Prod {
      FillsUp(sides, capacity, i, capacity);
    } else {
      SeenInit(Next, Quietly(sides), Init(|sides|, capacity), Sees, Idle(sides, capacity, 0));
    }
  }

  lemma ShownSleeps(sides: seq<Side>, capacity: nat, v: Shape, t: nat, q: Side)
    requires Shown(sides, capacity, v) && t < |v.places| == |sides| && sides[t] == q && v.places[t] == Outside
    requires v.locks.mtx == 1 && Waits(q, v.data.capacity, v.data.size)
    ensures Shown(sides, capacity, Placed(v, t,
      Solo(Queued(q), v.locks.(waiting := v.locks.waiting.With(q, v.locks.waiting.Of(q) + 1)), v.data)))
  {
    Sleeps(Only(v, t).(place := Entering(q)), q);
    ShownCall(sides, capacity, v, t, q, 3);
  }

  lemma ShownSignals(sides: seq<Side>, capacity: nat, v: Shape, t: nat, q: Side)
    requires Shown(sides, capacity, v) && t < |v.places| == |sides| && sides[t] == q && v.places[t] == Outside
    requires v.locks.mtx == 1 && !Waits(q, v.data.capacity, v.data.size) && v.locks.waiting.Of(q.Other()) > 0
    ensures Shown(sides, capacity, Placed(v, t,
      Solo(Discounting(q), v.locks.(mtx := 0, permits := Inc(v.locks.permits, q.Other())),
           v.data.(size := SizeAfter(Working(q), v.data)))))
  {
    WorksAndSignals(Only(v, t).(place := Entering(q)), q);
    ShownCall(sides, capacity, v, t, q, 4);
  }

  /** Threads i and j have to wait, and sleep. */
  lemma TwoSleep(sides: seq<Side>, capacity: nat, q: Side, i: nat, j: nat, k: nat)
    requires Crowd(sides, q, i, j, k)
    ensures Shown(sides, capacity, View(Three(sides, i, Queued(q), j, Queued(q), k, Outside), QueueHas(q, 1, 0, 2),
                                        Data(capacity, Unusable(q, capacity))))
  {
    var d := Data(capacity, Unusable(q, capacity));
    var v := Idle(sides, capacity, d.size);
    MakesUnusable(sides, capacity, q, i);
    ShownSleeps(sides, capacity, v, i, q);
    var w := View(v.places[i := Queued(q)], QueueHas(q, 1, 0, 1), d);
    assert v.locks.(waiting := v.locks.waiting.With(q, 1)) == w.locks;
    ShownSleeps(sides, capacity, w, j, q);
    assert w.locks.(waiting := w.locks.waiting.With(q, 2)) == QueueHas(q, 1, 0, 2);
    assert w.places[j := Queued(q)] == Three(sides, i, Queued(q), j, Queued(q), k, Outside);
  }

  /** Thread k works and ups their queue; it still has the lock. */
  lemma ThirdSignals(sides: seq<Side>, capacity: nat, q: Side, i: nat, j: nat, k: nat)
    requires Crowd(sides, q, i, j, k) && 0 < capacity
    ensures Shown(sides, capacity,
      View(Three(sides, i, Queued(q), j, Queued(q), k, Discounting(q.Other())), QueueHas(q, 0, 1, 2),
           Data(capacity, Usable(q, capacity))))
  {
    var d := Data(capacity, Unusable(q, capacity));
    var v := View(Three(sides, i, Queued(q), j, Queued(q), k, Outside), QueueHas(q, 1, 0, 2), d);
    TwoSleep(sides, capacity, q, i, j, k);
    ShownSignals(sides, capacity, v, k, q.Other());
    assert d.(size := SizeAfter(Working(q.Other()), d)) == Data(capacity, Usable(q, capacity));
    assert v.locks.(mtx := 0, permits := Inc(v.locks.permits, q)) == QueueHas(q, 0, 1, 2);
    assert v.places[k := Discounting(q.Other())]
           == Three(sides, i, Queued(q), j, Queued(q), k, Discounting(q.Other()));
  }

  /** Thread i takes its permit, and then has to wait for the lock. */
  function OneWoken(sides: seq<Side>, capacity: nat, q: Side, i: nat, j: nat, k: nat): Shape
    requires i < |sides| && j < |sides| && k < |sides| && 0 < capacity
  {
    View(Three(sides, i, Woken(q), j, Queued(q), k, Discounting(q.Other())), QueueHas(q, 0, 0, 2),
         Data(capacity, Usable(q, capacity)))
  }

  lemma TakesPermit(x: Part, q: Side)
    requires x.place == Queued(q) && x.locks == QueueHas(q, 0, 1, 2)
    ensures CanSteps(CanGo, Go, x, 1) && Steps(Go, x, 1) == Solo(Woken(q), QueueHas(q, 0, 0, 2), x.data)
  {
    OneStep(x);
  }

  lemma OneIsWoken(sides: seq<Side>, capacity: nat, q: Side, i: nat, j: nat, k: nat)
    requires Crowd(sides, q, i, j, k) && 0 < capacity
    ensures Shown(sides, capacity, OneWoken(sides, capacity, q, i, j, k))
  {
    var v := View(Three(sides, i, Queued(q), j, Queued(q), k, Discounting(q.Other())), QueueHas(q, 0, 1, 2),
                  Data(capacity, Usable(q, capacity)));
    ThirdSignals(sides, capacity, q, i, j, k);
    TakesPermit(Only(v, i), q);
    ShownGo(sides, capacity, v, i, Only(v, i), 1);
    assert v.places[i := Woken(q)] == OneWoken(sides, capacity, q, i, j, k).places;
  }

  lemma AfterInterrupt(s: State, sides: seq<Side>, capacity: nat, q: Side, i: nat, j: nat, k: nat)
    requires Crowd(sides, q, i, j, k) && 0 < capacity && Sees(s, OneWoken(sides, capacity, q, i, j, k))
    ensures Taken(s, Interrupt(i))
    ensures Sees(Next(s, Interrupt(i)),
      View(Three(sides, i, Outside, j, Queued(q), k, Discounting(q.Other())), QueueHas(q, 0, 0, 2),
           Data(capacity, Usable(q, capacity))))
  {
    var v := OneWoken(sides, capacity, q, i, j, k);
    InterruptAlone(s, v, i, q);
    assert v.places[i := Outside] == Three(sides, i, Outside, j, Queued(q), k, Discounting(q.Other()));
  }

  lemma Discounts(x: Part, q: Side)
    requires x.place == Discounting(q.Other()) && x.locks == QueueHas(q, 0, 0, 2)
    ensures CanGo(x) && Go(x) == Solo(Exiting(q.Other()), QueueHas(q, 0, 0, 1), x.data)
    ensures CanGo(Go(x)) && Go(Go(x)) == Solo(Outside, QueueHas(q, 1, 0, 1), x.data)
  {
  }

  lemma ThirdLeaves(s: State, v: Shape, q: Side, k: nat)
    requires k < |v.places| && Sees(s, v) && v.places[k] == Discounting(q.Other()) && v.locks == QueueHas(q, 0, 0, 2)
    ensures Sees(Next(Next(s, Run(k)), Run(k)), View(v.places[k := Outside], QueueHas(q, 1, 0, 1), v.data))
  {
    var x := Only(v, k);
    Discounts(x, q);
    GoAlone(s, v, k, x);
    GoAlone(Next(s, Run(k)), v, k, Go(x));
  }

  /** With all the others outside, a thread asleep without a permit is alone and stuck. */
  lemma AloneIsStuck(s: State, q: Side, j: nat)
    requires j < |s.m.at| && s.m.at == Start(|s.m.at|).at[j := Queued(q)] && s.m.permits.Of(q) == 0
    ensures AllStuck(s)
  {
  }

  lemma EndsStuck(s: State, sides: seq<Side>, capacity: nat, q: Side, i: nat, j: nat, k: nat)
    requires Crowd(sides, q, i, j, k) && 0 < capacity && Sees(s, OneWoken(sides, capacity, q, i, j, k))
    ensures var r := Next(Next(Next(s, Interrupt(i)), Run(k)), Run(k));
      AllStuck(r) && r.m.at == Start(|sides|).at[j := Queued(q)] && !NothingFor(r, q)
  {
    var v := View(Three(sides, i, Outside, j, Queued(q), k, Discounting(q.Other())), QueueHas(q, 0, 0, 2),
                  Data(capacity, Usable(q, capacity)));
    AfterInterrupt(s, sides, capacity, q, i, j, k);
    ThirdLeaves(Next(s, Interrupt(i)), v, q, k);
    assert v.places[k := Outside] == Start(|sides|).at[j := Queued(q)];
    AloneIsStuck(Next(Next(Next(s, Interrupt(i)), Run(k)), Run(k)), q, j);
  }

  /** Two threads sleep, one of the other side works and wakes one of them, and that one is
      interrupted while it waits for the lock, which the third still holds: the other of the
      two is left asleep for ever though its condition is false. */
  lemma OneForgotten(sides: seq<Side>, capacity: nat, q: Side, i: nat, j: nat, k: nat) returns (before: seq<Action>)
    requires Crowd(sides, q, i, j, k) && 0 < capacity
    ensures Throughout(Next, Uninterrupted, Init(|sides|, capacity), before)
    ensures var s := After(|sides|, capacity, before);
      s.m.mtx == 0 && |s.m.at| == |sides| && s.m.at[i] == Woken(q) && Taken(s, Interrupt(i))
    ensures Throughout(Next, Calls(sides), Init(|sides|, capacity), before + [Interrupt(i), Run(k), Run(k)])
    ensures var s := After(|sides|, capacity, before + [Interrupt(i), Run(k), Run(k)]);
      AllStuck(s) && s.m.at == Start(|sides|).at[j := Queued(q)] && !NothingFor(s, q)
  {
    var ok, init := Quietly(sides), Init(|sides|, capacity);
    OneIsWoken(sides, capacity, q, i, j, k);
    var s :| Reached(Next, ok, init, s) && Sees(s, OneWoken(sides, capacity, q, i, j, k));
    before :| Throughout(Next, ok, init, before) && Exec(Next, init, before) == s;
    ThroughoutWeaken(Next, ok, Uninterrupted, init, before);
    AfterInterrupt(s, sides, capacity, q, i, j, k);
    ExecThree(Next, init, before, Interrupt(i), Run(k), Run(k));
    EndsStuck(s, sides, capacity, q, i, j, k);
    StillCalls(sides, init, before, Interrupt(i), Run(k), Run(k));
  }

  lemma StillCalls(sides: seq<Side>, init: State, run: seq<Action>, a: Action, b: Action, c: Action)
    requires Throughout(Next, Quietly(sides), init, run) && a.Interrupt? && b.Run? && c.Run?
    ensures Throughout(Next, Calls(sides), init, run + [a, b, c])
  {
    ThroughoutWeaken(Next, Quietly(sides), Calls(sides), init, run);
    ThroughoutAppend(Next, Calls(sides), init, run, a);
    ThroughoutAppend(Next, Calls(sides), init, run + [a], b);
    ThroughoutAppend(Next, Calls(sides), init, run + [a] + [b], c);
    assert run + [a] + [b] + [c] == run + [a, b, c];
  }

  // ---- exactly when ------------------------------------------------------------------------

  predicate RightAfterCalls(sides: seq<Side>, capacity: nat, run: seq<Action>) {
    Throughout(Next, Calls(sides), Init(|sides|, capacity), run) ==> RightAfter(|sides|, capacity, run)
  }

  /** No run of threads with these sides, whatever is interrupted in it, loses a wake-up, if
      and only if there are at most two threads or all are on one side. */
  lemma NoLostWakeUpOnSides(sides: seq<Side>, capacity: nat)
    requires capacity > 0
    ensures (forall run :: RightAfterCalls(sides, capacity, run)) <==> FewEnough(sides)
  {
    if FewEnough(sides) {
      forall run: seq<Action> ensures RightAfterCalls(sides, capacity, run) {
        if |sides| <= 2 {
          RightWithTwo(|sides|, capacity, run);
        } else if Throughout(Next, Calls(sides), Init(|sides|, capacity), run) {
          RightOnOneSide(sides, capacity, run, if AllOn(sides, Prod) then Prod else Cons);
        }
      }
    } else {
      var q, i, j, k := FindCrowd(sides);
      var before := OneForgotten(sides, capacity, q, i, j, k);
      ForgottenIsWrong(sides, capacity, q, j, before + [Interrupt(i), Run(k), Run(k)]);
    }
  }

  lemma ForgottenIsWrong(sides: seq<Side>, capacity: nat, q: Side, j: nat, run: seq<Action>)
    requires Throughout(Next, Calls(sides), Init(|sides|, capacity), run) && j < |sides|
    requires var s := After(|sides|, capacity, run);
      AllStuck(s) && s.m.at == Start(|sides|).at[j := Queued(q)] && !NothingFor(s, q)
    ensures !RightAfter(|sides|, capacity, run) && !RightAfterCalls(sides, capacity, run)
  {
    assert After(|sides|, capacity, run).m.at[j] == Queued(q);
  }

  /** When every thread may both read and write: if and only if there are at most two. */
  lemma NoLostWakeUp(threads: nat, capacity: nat)
    requires capacity > 0
    ensures (forall run :: RightAfter(threads, capacity, run)) <==> threads <= 2
  {
    if threads <= 2 {
      forall run: seq<Action> ensures RightAfter(threads, capacity, run) {
        RightWithTwo(threads, capacity, run);
      }
    } else {
      var sides := seq(threads, t => if t == 2 then Prod else Cons);
      var before := OneForgotten(sides, capacity, Cons, 0, 1, 2);
      ForgottenIsWrong(sides, capacity, Cons, 1, before + [Interrupt(0), Run(2), Run(2)]);
    }
  }
}
