/** Runs of the FIFO in which one thread moves at a time, without interruptions: what whole
    calls do to a state, as far as it matters who waits and how much the buffer holds. */
module FifoScripts {
  import opened Monitors
  import opened FifoProc
  import opened FifoSides
  import opened Rings
  import opened Runs
  import opened Scripts

  datatype Place = Place(pc: Pc, op: Op, fd: Fd)

  datatype Data = Data(g: Gauge, phantoms: nat)

  type Part = Solo<Place, Data>

  type Shape = View<Place, Data>

  predicate InPlace(s: State, t: nat, p: Place)
    requires Sized(s) && t < |s.m.at|
  {
    s.m.at[t] == p.pc && s.fd[t] == p.fd && (!p.pc.Outside? ==> s.op[t] == p.op)
  }

  predicate Agrees(s: State, l: Locks, d: Data) {
    LocksOf(s.m) == l && GaugeOf(s) == d.g && s.phantoms == d.phantoms
  }

  predicate Sees(s: State, v: Shape) {
    && Sized(s) && |v.places| == |s.m.at| && Agrees(s, v.locks, v.data)
    && forall t | 0 <= t < |v.places| :: InPlace(s, t, v.places[t])
  }

  // ---- one step ------------------------------------------------------------------------

  function MoveIn(x: Part): Move {
    MoveAt(x.place.pc, x.place.op, x.locks, x.data.g)
  }

  predicate CanGo(x: Part) {
    Possible(x.place.pc, x.locks, MoveIn(x))
  }

  /** The descriptor after a step. */
  function FdAfter(p: Place): Fd {
    if p.pc.Working? && p.op.Open? then Opened(p.pc.side)
    else if p.pc.Working? && p.op.Release? then Closed
    else if p.pc.Leaving? && p.op.Open? then Closed
    else p.fd
  }

  /** What a critical section does to the counts and the number of bytes. */
  function Worked(op: Op, q: Side, d: Data): Data {
    var g := d.g;
    match op {
      case Open => d.(g := g.(count := g.count.With(q, g.count.Of(q) + 1)))
      case Release => d.(g := g.(count := g.count.With(q, g.count.Of(q) - 1)))
      case Read(len) =>
        if Ends(op, g) then d
        else if len > g.size then d.(phantoms := d.phantoms + 1)
        else d.(g := g.(size := g.size - len))
      case Write(data) =>
        if Ends(op, g) then d
        else d.(g := g.(size := if g.size + |data| <= g.capacity then g.size + |data| else g.capacity))
      case NoOp => d
    }
  }

  function DataAfter(p: Place, d: Data): Data {
    if p.pc.Working? then Worked(p.op, p.pc.side, d)
    else if p.pc.Testing? && p.op.Release? && d.g.count == Both(0, 0) then d.(g := d.g.(size := 0))
    else d
  }

  /** A step of a thread in a call. */
  function Go(x: Part): Part {
    if !CanGo(x) then x else
      var to := Target(x.place.pc, MoveIn(x));
      Solo(Place(to, if to.Outside? then NoOp else x.place.op, FdAfter(x.place)),
           Moved(x.place.pc, x.locks, MoveIn(x)), DataAfter(x.place, x.data))
  }

  lemma WorkAgrees(s: State, t: nat, q: Side, d: Data)
    requires Sized(s) && t < |s.m.at| && GaugeOf(s) == d.g && s.phantoms == d.phantoms
    ensures var r, e := Work(s, t, q), Worked(s.op[t], q, d); GaugeOf(r) == e.g && r.phantoms == e.phantoms
    ensures Work(s, t, q).fd == s.fd[t := FdAfter(Place(Working(q), s.op[t], s.fd[t]))]
  {
  }

  lemma GoAgrees(s: State, t: nat, x: Part)
    requires Sized(s) && t < |s.m.at| && InPlace(s, t, x.place) && Agrees(s, x.locks, x.data) && CanGo(x)
    ensures Taken(s, Run(t)) && InPlace(Next(s, Run(t)), t, Go(x).place)
    ensures Agrees(Next(s, Run(t)), Go(x).locks, Go(x).data)
  {
    if x.place.pc.Working? {
      WorkAgrees(s, t, x.place.pc.side, x.data);
    }
  }

  /** An action of thread t leaves the others' places alone. */
  lemma OneMoves(s: State, v: Shape, t: nat, x: Part, a: Action, y: Part)
    requires t < |v.places| && Sees(s, Placed(v, t, x)) && Taken(s, a) && a.t == t
    requires InPlace(Next(s, a), t, y.place) && Agrees(Next(s, a), y.locks, y.data)
    ensures Sees(Next(s, a), Placed(v, t, y))
  {
    var n, w := Next(s, a), Placed(v, t, y);
    forall u | 0 <= u < |w.places| ensures InPlace(n, u, w.places[u]) {
      if u != t {
        OthersUntouched(s, a, u);
        assert InPlace(s, u, Placed(v, t, x).places[u]);
      }
    }
  }

  lemma GoAlone(s: State, v: Shape, t: nat, x: Part)
    requires t < |v.places| && Sees(s, Placed(v, t, x)) && CanGo(x)
    ensures Sees(Next(s, Run(t)), Placed(v, t, Go(x)))
  {
    assert InPlace(s, t, Placed(v, t, x).places[t]);
    GoAgrees(s, t, x);
    OneMoves(s, v, t, x, Run(t), Go(x));
  }

  // ---- what can be seen on runs of this kind ---------------------------------------------

  /** As `Calls`, and nothing is interrupted. */
  function Quietly(sides: seq<Side>, allowed: Op -> bool): (State, Action) -> bool {
    (s: State, a: Action) =>
      !a.Interrupt? && (a.Begin? ==> allowed(a.op) && (a.t < |sides| ==> a.side == sides[a.t]))
  }

  /** Some run of these calls ends in a state that shows v. */
  ghost predicate Shown(sides: seq<Side>, allowed: Op -> bool, capacity: nat, v: Shape) {
    Seen(Next, Quietly(sides, allowed), Init(|sides|, capacity), Sees, v)
  }

  function Empty(capacity: nat, count: Both<int>): Data {
    Data(Gauge(capacity, 0, count), 0)
  }

  function Nobody(sides: seq<Side>, capacity: nat): Shape {
    View(seq(|sides|, _ => Place(Outside, NoOp, Closed)), Free(), Empty(capacity, Both(0, 0)))
  }

  lemma ShownFirst(sides: seq<Side>, allowed: Op -> bool, capacity: nat)
    ensures Shown(sides, allowed, capacity, Nobody(sides, capacity))
  {
    SeenInit(Next, Quietly(sides, allowed), Init(|sides|, capacity), Sees, Nobody(sides, capacity));
  }

  /** Thread t takes k steps on its own. */
  lemma ShownGo(sides: seq<Side>, allowed: Op -> bool, capacity: nat, v: Shape, t: nat, x: Part, k: nat)
    requires t < |v.places| && Shown(sides, allowed, capacity, Placed(v, t, x)) && CanSteps(CanGo, Go, x, k)
    ensures Shown(sides, allowed, capacity, Placed(v, t, Steps(Go, x, k)))
  {
    forall s, y | Sees(s, Placed(v, t, y)) && CanGo(y)
      ensures Quietly(sides, allowed)(s, Run(t)) && Sees(Next(s, Run(t)), Placed(v, t, Go(y)))
    {
      GoAlone(s, v, t, y);
    }
    SeenGo(Next, Quietly(sides, allowed), Init(|sides|, capacity), Sees, CanGo, Go, Run(t), v, t, x, k);
  }

  predicate MayCall(p: Place, q: Side, op: Op, capacity: nat) {
    p.pc == Outside && match op {
      case NoOp => false
      case Open => p.fd == Closed
      case Release => p.fd == Opened(q)
      case Read(len) => p.fd == Opened(q) && q == Cons && len <= capacity
      case Write(data) => p.fd == Opened(q) && q == Prod && |data| <= capacity
    }
  }

  function Enters(x: Part, q: Side, op: Op): Part {
    x.(place := Place(Entering(q), op, x.place.fd))
  }

  lemma BeginAlone(s: State, v: Shape, t: nat, q: Side, op: Op)
    requires t < |v.places| && Sees(s, v) && MayCall(v.places[t], q, op, v.data.g.capacity)
    ensures Sees(Next(s, Begin(t, q, op)), Placed(v, t, Enters(Only(v, t), q, op)))
  {
    assert InPlace(s, t, v.places[t]);
    OneMoves(s, v, t, Only(v, t), Begin(t, q, op), Enters(Only(v, t), q, op));
  }

  /** Thread t begins a call and takes k steps of it on its own. */
  lemma ShownCall(sides: seq<Side>, allowed: Op -> bool, capacity: nat, v: Shape, t: nat, op: Op, k: nat)
    requires t < |v.places| == |sides| && Shown(sides, allowed, capacity, v)
    requires MayCall(v.places[t], sides[t], op, v.data.g.capacity) && allowed(op)
    requires CanSteps(CanGo, Go, Enters(Only(v, t), sides[t], op), k)
    ensures Shown(sides, allowed, capacity, Placed(v, t, Steps(Go, Enters(Only(v, t), sides[t], op), k)))
  {
    var ok, a := Quietly(sides, allowed), Begin(t, sides[t], op);
    var x := Enters(Only(v, t), sides[t], op);
    forall s | Sees(s, v) ensures ok(s, a) && Sees(Next(s, a), Placed(v, t, x)) {
      BeginAlone(s, v, t, sides[t], op);
    }
    forall s, y | Sees(s, Placed(v, t, y)) && CanGo(y)
      ensures ok(s, Run(t)) && Sees(Next(s, Run(t)), Placed(v, t, Go(y)))
    {
      GoAlone(s, v, t, y);
    }
    SeenCall(Next, ok, Init(|sides|, capacity), Sees, CanGo, Go, a, Run(t), v, t, x, k);
  }

  /** A run that ends in a state that shows v. */
  lemma ShownRun(sides: seq<Side>, allowed: Op -> bool, capacity: nat, v: Shape) returns (run: seq<Action>)
    requires Shown(sides, allowed, capacity, v)
    ensures Sees(After(|sides|, capacity, run), v)
    ensures Throughout(Next, Calls(sides, allowed), Init(|sides|, capacity), run)
    ensures Throughout(Next, Uninterrupted, Init(|sides|, capacity), run)
  {
    var ok, init := Quietly(sides, allowed), Init(|sides|, capacity);
    var s :| Reached(Next, ok, init, s) && Sees(s, v);
    run :| Throughout(Next, ok, init, run) && Exec(Next, init, run) == s;
    ThroughoutWeaken(Next, ok, Calls(sides, allowed), init, run);
    ThroughoutWeaken(Next, ok, Uninterrupted, init, run);
  }

  // ---- whole calls -------------------------------------------------------------------------

  function CountedOn(d: Data, q: Side, n: int): Data {
    d.(g := d.g.(count := d.g.count.With(q, d.g.count.Of(q) + n)))
  }

  function LocksWait(l: Locks, q: Side, n: int): Locks {
    l.(waiting := l.waiting.With(q, l.waiting.Of(q) + n))
  }

  /** `open` or `release` counts its descriptor and gets to its wake-up test. */
  lemma CountsFirst(x: Part, q: Side)
    requires x.place.pc == Entering(q) && x.place.op.OpensOrCloses() && x.locks.mtx == 1
    ensures CanSteps(CanGo, Go, x, 2)
    ensures Steps(Go, x, 2) ==
      Solo(Place(Waking(q), x.place.op, if x.place.op.Open? then Opened(q) else Closed), x.locks.(mtx := 0),
           CountedOn(x.data, q, if x.place.op.Open? then 1 else -1))
  {
    TwoSteps(CanGo, Go, x);
  }

  /** From its test on, a call that need not wait any more returns. */
  lemma Leaves(x: Part, q: Side)
    requires x.place.pc == Testing(q) && x.place.op.OpensOrCloses() && x.data.g.count != Both(0, 0)
    requires x.place.op.Open? ==> x.data.g.count.Of(q.Other()) != 0
    ensures CanSteps(CanGo, Go, x, 2)
    ensures Steps(Go, x, 2) ==
      Solo(Place(Outside, NoOp, x.place.fd), x.locks.(mtx := x.locks.mtx + 1), x.data)
  {
    assert CanGo(x) && Go(x) == x.(place := Place(Exiting(q), x.place.op, x.place.fd));
    TwoSteps(CanGo, Go, x);
  }

  lemma Signals(x: Part, q: Side)
    requires x.place.pc == Waking(q) && x.place.op.OpensOrCloses() && x.locks.waiting.Of(q.Other()) > 0
    ensures CanSteps(CanGo, Go, x, 2)
    ensures Steps(Go, x, 2) ==
      Solo(Place(Testing(q), x.place.op, x.place.fd),
           LocksWait(x.locks.(permits := Inc(x.locks.permits, q.Other())), q.Other(), -1), x.data)
  {
    TwoSteps(CanGo, Go, x);
  }

  lemma FallsAsleepNext(x: Part, q: Side)
    requires x.place.pc == Waking(q) && x.place.op == Open && x.locks.mtx == 0
    requires x.locks.waiting.Of(q.Other()) <= 0 && x.data.g.count.Of(q.Other()) == 0
    ensures CanSteps(CanGo, Go, x, 3)
    ensures Steps(Go, x, 3) ==
      Solo(Place(Queued(q), Open, x.place.fd), LocksWait(x.locks.(mtx := 1), q, 1), x.data)
  {
    ThreeSteps(CanGo, Go, x);
  }

  /** An `open` that finds nobody on the other side counts its descriptor and sleeps. */
  lemma OpenSleeps(x: Part, q: Side)
    requires x.place.pc == Entering(q) && x.place.op == Open
    requires x.locks.mtx == 1 && x.data.g.count.Of(q.Other()) == 0 && x.locks.waiting.Of(q.Other()) <= 0
    ensures CanSteps(CanGo, Go, x, 5)
    ensures Steps(Go, x, 5) ==
      Solo(Place(Queued(q), Open, Opened(q)), LocksWait(x.locks, q, 1), CountedOn(x.data, q, 1))
  {
    CountsFirst(x, q);
    FallsAsleepNext(Steps(Go, x, 2), q);
    StepsJoin(CanGo, Go, x, 2, 3);
  }

  /** An `open` that finds the other side asleep wakes one of it and returns. */
  lemma OpenWakes(x: Part, q: Side)
    requires x.place.pc == Entering(q) && x.place.op == Open
    requires x.locks.mtx == 1 && x.data.g.count.Of(q.Other()) != 0 && x.locks.waiting.Of(q.Other()) > 0
    ensures CanSteps(CanGo, Go, x, 6)
    ensures Steps(Go, x, 6) ==
      Solo(Place(Outside, NoOp, Opened(q)),
           LocksWait(x.locks.(permits := Inc(x.locks.permits, q.Other())), q.Other(), -1), CountedOn(x.data, q, 1))
  {
    CountsFirst(x, q);
    var y := Steps(Go, x, 2);
    Signals(y, q);
    Leaves(Steps(Go, y, 2), q);
    StepsJoin(CanGo, Go, y, 2, 2);
    StepsJoin(CanGo, Go, x, 2, 4);
  }

  lemma TakesPermit(x: Part, q: Side)
    requires x.place.pc == Queued(q) && x.locks.mtx == 1 && x.locks.permits.Of(q) > 0
    ensures CanSteps(CanGo, Go, x, 2)
    ensures Steps(Go, x, 2) ==
      Solo(Place(Testing(q), x.place.op, x.place.fd),
           x.locks.(mtx := 0, permits := x.locks.permits.With(q, x.locks.permits.Of(q) - 1)), x.data)
  {
    TwoSteps(CanGo, Go, x);
  }

  /** A sleeper in `open` that has a permit, and finds the other side there, returns. */
  lemma OpenReturns(x: Part, q: Side)
    requires x.place.pc == Queued(q) && x.place.op == Open
    requires x.locks.mtx == 1 && x.locks.permits.Of(q) > 0 && x.data.g.count.Of(q.Other()) != 0
    ensures CanSteps(CanGo, Go, x, 4)
    ensures Steps(Go, x, 4) ==
      Solo(Place(Outside, NoOp, x.place.fd),
           x.locks.(permits := x.locks.permits.With(q, x.locks.permits.Of(q) - 1)), x.data)
  {
    TakesPermit(x, q);
    Leaves(Steps(Go, x, 2), q);
    StepsJoin(CanGo, Go, x, 2, 2);
  }

  lemma ReleaseLeaves(x: Part, q: Side)
    requires x.place.pc == Waking(q) && x.place.op.Release? && x.locks.waiting.Of(q.Other()) <= 0
    requires x.data.g.count != Both(0, 0)
    ensures CanSteps(CanGo, Go, x, 3)
    ensures Steps(Go, x, 3) == Solo(Place(Outside, NoOp, x.place.fd), x.locks.(mtx := x.locks.mtx + 1), x.data)
  {
    ThreeSteps(CanGo, Go, x);
  }

  /** A `release` that finds nobody to wake, and the other side still there. */
  lemma Releases(x: Part, q: Side)
    requires x.place.pc == Entering(q) && x.place.op.Release?
    requires x.locks.mtx == 1 && x.data.g.count.Of(q.Other()) != 0 && x.locks.waiting.Of(q.Other()) <= 0
    ensures CanSteps(CanGo, Go, x, 5)
    ensures Steps(Go, x, 5) == Solo(Place(Outside, NoOp, Closed), x.locks, CountedOn(x.data, q, -1))
  {
    CountsFirst(x, q);
    ReleaseLeaves(Steps(Go, x, 2), q);
    StepsJoin(CanGo, Go, x, 2, 3);
  }

  /** A read or write that need not wait gets to its wake-up test. */
  lemma Moves(x: Part, q: Side)
    requires x.place.pc == Entering(q) && x.locks.mtx == 1 && (x.place.op.Read? || x.place.op.Write?)
    requires !Waits(x.place.op, q, x.data.g) && !Ends(x.place.op, x.data.g)
    ensures CanSteps(CanGo, Go, x, 3)
    ensures Steps(Go, x, 3) ==
      Solo(Place(Waking(q), x.place.op, x.place.fd), x.locks.(mtx := 0), Worked(x.place.op, q, x.data))
  {
    ThreeSteps(CanGo, Go, x);
  }

  lemma Returns(x: Part, q: Side)
    requires x.place.pc == Waking(q) && !x.place.op.OpensOrCloses() && x.locks.waiting.Of(q.Other()) <= 0
    ensures CanSteps(CanGo, Go, x, 2)
    ensures Steps(Go, x, 2) == Solo(Place(Outside, NoOp, x.place.fd), x.locks.(mtx := x.locks.mtx + 1), x.data)
  {
    TwoSteps(CanGo, Go, x);
  }

  /** A read or write that need not wait, and finds nobody to wake. */
  lemma MovesAndReturns(x: Part, q: Side)
    requires x.place.pc == Entering(q) && x.locks.mtx == 1 && (x.place.op.Read? || x.place.op.Write?)
    requires !Waits(x.place.op, q, x.data.g) && !Ends(x.place.op, x.data.g) && x.locks.waiting.Of(q.Other()) <= 0
    ensures CanSteps(CanGo, Go, x, 5)
    ensures Steps(Go, x, 5) == Solo(Place(Outside, NoOp, x.place.fd), x.locks, Worked(x.place.op, q, x.data))
  {
    Moves(x, q);
    Returns(Steps(Go, x, 3), q);
    StepsJoin(CanGo, Go, x, 3, 2);
  }

  /** A read or write that has to wait goes to sleep. */
  lemma FallsAsleepIn(x: Part, q: Side)
    requires x.place.pc == Entering(q) && !x.place.op.OpensOrCloses()
    requires x.locks.mtx == 1 && Waits(x.place.op, q, x.data.g)
    ensures CanSteps(CanGo, Go, x, 3)
    ensures Steps(Go, x, 3) == Solo(Place(Queued(q), x.place.op, x.place.fd), LocksWait(x.locks, q, 1), x.data)
  {
    ThreeSteps(CanGo, Go, x);
  }

  // ---- whole calls, as shown -----------------------------------------------------------------

  lemma ShownOpenSleeps(sides: seq<Side>, allowed: Op -> bool, capacity: nat, v: Shape, t: nat, q: Side)
    requires t < |v.places| == |sides| && sides[t] == q && allowed(Open) && Shown(sides, allowed, capacity, v)
    requires v.places[t].pc == Outside && v.places[t].fd == Closed
    requires v.locks.mtx == 1 && v.data.g.count.Of(q.Other()) == 0 && v.locks.waiting.Of(q.Other()) <= 0
    ensures Shown(sides, allowed, capacity, Placed(v, t,
      Solo(Place(Queued(q), Open, Opened(q)), LocksWait(v.locks, q, 1), CountedOn(v.data, q, 1))))
  {
    OpenSleeps(Enters(Only(v, t), q, Open), q);
    ShownCall(sides, allowed, capacity, v, t, Open, 5);
  }

  lemma ShownOpenWakes(sides: seq<Side>, allowed: Op -> bool, capacity: nat, v: Shape, t: nat, q: Side)
    requires t < |v.places| == |sides| && sides[t] == q && allowed(Open) && Shown(sides, allowed, capacity, v)
    requires v.places[t].pc == Outside && v.places[t].fd == Closed
    requires v.locks.mtx == 1 && v.data.g.count.Of(q.Other()) != 0 && v.locks.waiting.Of(q.Other()) > 0
    ensures Shown(sides, allowed, capacity, Placed(v, t,
      Solo(Place(Outside, NoOp, Opened(q)),
           LocksWait(v.locks.(permits := Inc(v.locks.permits, q.Other())), q.Other(), -1), CountedOn(v.data, q, 1))))
  {
    OpenWakes(Enters(Only(v, t), q, Open), q);
    ShownCall(sides, allowed, capacity, v, t, Open, 6);
  }

  lemma ShownOpenReturns(sides: seq<Side>, allowed: Op -> bool, capacity: nat, v: Shape, t: nat, q: Side)
    requires t < |v.places| == |sides| && Shown(sides, allowed, capacity, v)
    requires v.places[t] == Place(Queued(q), Open, Opened(q))
    requires v.locks.mtx == 1 && v.locks.permits.Of(q) > 0 && v.data.g.count.Of(q.Other()) != 0
    ensures Shown(sides, allowed, capacity, Placed(v, t,
      Solo(Place(Outside, NoOp, Opened(q)),
           v.locks.(permits := v.locks.permits.With(q, v.locks.permits.Of(q) - 1)), v.data)))
  {
    OpenReturns(Only(v, t), q);
    ShownGo(sides, allowed, capacity, v, t, Only(v, t), 4);
  }

  lemma ShownMoves(sides: seq<Side>, allowed: Op -> bool, capacity: nat, v: Shape, t: nat, q: Side, op: Op)
    requires t < |v.places| == |sides| && sides[t] == q && Shown(sides, allowed, capacity, v)
    requires MayCall(v.places[t], q, op, v.data.g.capacity) && allowed(op) && !op.OpensOrCloses()
    requires v.locks.mtx == 1 && !Waits(op, q, v.data.g) && !Ends(op, v.data.g) && v.locks.waiting.Of(q.Other()) <= 0
    ensures Shown(sides, allowed, capacity, Placed(v, t,
      Solo(Place(Outside, NoOp, Opened(q)), v.locks, Worked(op, q, v.data))))
  {
    MovesAndReturns(Enters(Only(v, t), q, op), q);
    ShownCall(sides, allowed, capacity, v, t, op, 5);
  }

  lemma ShownSleeps(sides: seq<Side>, allowed: Op -> bool, capacity: nat, v: Shape, t: nat, q: Side, op: Op)
    requires t < |v.places| == |sides| && sides[t] == q && Shown(sides, allowed, capacity, v)
    requires MayCall(v.places[t], q, op, v.data.g.capacity) && allowed(op) && !op.OpensOrCloses()
    requires v.locks.mtx == 1 && Waits(op, q, v.data.g)
    ensures Shown(sides, allowed, capacity, Placed(v, t,
      Solo(Place(Queued(q), op, Opened(q)), LocksWait(v.locks, q, 1), v.data)))
  {
    FallsAsleepIn(Enters(Only(v, t), q, op), q);
    ShownCall(sides, allowed, capacity, v, t, op, 3);
  }

  lemma ShownReleases(sides: seq<Side>, allowed: Op -> bool, capacity: nat, v: Shape, t: nat, q: Side)
    requires t < |v.places| == |sides| && sides[t] == q && allowed(Op.Release) && Shown(sides, allowed, capacity, v)
    requires v.places[t].pc == Outside && v.places[t].fd == Opened(q)
    requires v.locks.mtx == 1 && v.data.g.count.Of(q.Other()) != 0 && v.locks.waiting.Of(q.Other()) <= 0
    ensures Shown(sides, allowed, capacity, Placed(v, t,
      Solo(Place(Outside, NoOp, Closed), v.locks, CountedOn(v.data, q, -1))))
  {
    Releases(Enters(Only(v, t), q, Op.Release), q);
    ShownCall(sides, allowed, capacity, v, t, Op.Release, 5);
  }
}
