/** Runs of the timer pipeline in which one part moves at a time; when it can flush, and when
    a drain can outgrow the worker's array. */
module TimerScripts {
  import opened Monitors
  import opened ModTimer
  import opened Runs
  import opened Scripts

  /** What the parts share, the sequences by their lengths. */
  datatype Data = Data(
    capacity: nat, target: nat, timer: Timer, worker: Worker, pending: bool, ring: nat, aux: nat, list: nat)

  type Part = Solo<Pc, Data>

  type Shape = View<Pc, Data>

  predicate Agrees(s: State, d: Data) {
    && s.capacity == d.capacity && s.target == d.target && s.timer == d.timer && s.worker == d.worker
    && s.pending == d.pending && |s.ring| == d.ring && |s.aux| == d.aux && |s.list| == d.list
  }

  predicate Sees(s: State, v: Shape) {
    0 < |v.places| && s.m.at == v.places && LocksOf(s.m) == v.locks && Agrees(s, v.data)
  }

  // ---- one step of a thread --------------------------------------------------------------

  function MoveIn(x: Part): Move {
    MoveAt(x.place, x.locks, x.data.list == 0)
  }

  predicate CanGo(x: Part) {
    Possible(x.place, x.locks, MoveIn(x))
  }

  function DataAfter(pc: Pc, d: Data): Data {
    match pc {
      case Working(Prod) => d.(list := d.list + d.aux, aux := 0)
      case Working(Cons) => d.(list := 0)
      case Exiting(Prod) => d.(worker := Worker.Idle)
      case _ => d
    }
  }

  function Go(x: Part): Part {
    if !CanGo(x) then x else
      Solo(Target(x.place, MoveIn(x)), Moved(x.place, x.locks, MoveIn(x)), DataAfter(x.place, x.data))
  }

  lemma EffectAgrees(s: State, t: nat, d: Data)
    requires t < |s.m.at| && Agrees(s, d)
    ensures Agrees(Effect(s, Run(t)), DataAfter(s.m.at[t], d))
  {
  }

  lemma GoAlone(s: State, v: Shape, t: nat, x: Part)
    requires t < |v.places| && Sees(s, Placed(v, t, x)) && CanGo(x)
    ensures Sees(Next(s, Run(t)), Placed(v, t, Go(x)))
  {
    assert v.places[t := x.place][t := Go(x).place] == v.places[t := Go(x).place];
    EffectAgrees(s, t, x.data);
  }

  lemma ReadAlone(s: State, v: Shape, t: nat)
    requires Sees(s, v) && 0 < t < |v.places| && v.places[t] == Outside
    ensures Sees(Next(s, Read(t)), Placed(v, t, Only(v, t).(place := Entering(Cons))))
  {
  }

  // ---- one step of the timer, or of the worker's loop --------------------------------------

  predicate IsPipe(a: Action) {
    a.Fire? || a.TimerStep? || a.WorkerStep?
  }

  /** As far as the lengths go. */
  function Pipe(d: Data, a: Action): Data {
    match a {
      case Fire(_) =>
        if !d.timer.Ready? then d
        else d.(timer := Checking, ring := if d.ring < d.capacity then d.ring + 1 else d.capacity)
      case TimerStep =>
        (match d.timer {
           case Ready => d
           case Checking => d.(timer := if d.pending then Ready else Timer.Sizing)
           case Sizing => d.(timer := Ready, pending := d.pending || d.ring == d.target)
         })
      case WorkerStep =>
        if d.worker == Worker.Idle && d.pending then d.(worker := Looking, pending := false, aux := 0)
        else if d.worker == Looking && d.ring > 0 then d.(worker := Taking)
        else if d.worker == Taking && d.ring > 0 then d.(worker := Looking, aux := d.aux + 1, ring := d.ring - 1)
        else d
      case _ => d
    }
  }

  lemma PipeAlone(s: State, v: Shape, a: Action)
    requires Sees(s, v) && IsPipe(a) && (a.WorkerStep? ==> v.data.ring > 0)
    ensures Sees(Next(s, a), v.(data := Pipe(v.data, a)))
  {
  }

  lemma BatchAlone(s: State, v: Shape)
    requires Sees(s, v) && v.data.worker == Looking && v.data.ring == 0 && v.places[0] == Outside
    ensures Sees(Next(s, WorkerStep), Placed(v, 0, Solo(Entering(Prod), v.locks, v.data.(worker := Adding))))
  {
  }

  // ---- what can be seen ----------------------------------------------------------------------

  /** Some uninterrupted run ends in a state that shows v. */
  ghost predicate Shown(readers: nat, capacity: nat, threshold: nat, v: Shape) {
    Seen(Next, Uninterrupted, Init(readers, capacity, threshold), Sees, v)
  }

  lemma ShownRun(readers: nat, capacity: nat, threshold: nat, v: Shape) returns (run: seq<Action>)
    requires Shown(readers, capacity, threshold, v)
    ensures Throughout(Next, Uninterrupted, Init(readers, capacity, threshold), run)
    ensures Sees(After(readers, capacity, threshold, run), v)
  {
    var init := Init(readers, capacity, threshold);
    var s :| Reached(Next, Uninterrupted, init, s) && Sees(s, v);
    run :| Throughout(Next, Uninterrupted, init, run) && Exec(Next, init, run) == s;
  }

  function Quiet(readers: nat, capacity: nat, threshold: nat): Shape {
    View(Start(readers + 1).at, Free(),
         Data(capacity, FlushSize(threshold, capacity), Timer.Ready, Worker.Idle, false, 0, 0, 0))
  }

  lemma ShownFirst(readers: nat, capacity: nat, threshold: nat)
    ensures Shown(readers, capacity, threshold, Quiet(readers, capacity, threshold))
  {
    SeenInit(Next, Uninterrupted, Init(readers, capacity, threshold), Sees, Quiet(readers, capacity, threshold));
  }

  lemma ShownGo(readers: nat, capacity: nat, threshold: nat, v: Shape, t: nat, x: Part, k: nat)
    requires t < |v.places| && Shown(readers, capacity, threshold, Placed(v, t, x)) && CanSteps(CanGo, Go, x, k)
    ensures Shown(readers, capacity, threshold, Placed(v, t, Steps(Go, x, k)))
  {
    forall s, y | Sees(s, Placed(v, t, y)) && CanGo(y)
      ensures Uninterrupted(s, Run(t)) && Sees(Next(s, Run(t)), Placed(v, t, Go(y)))
    {
      GoAlone(s, v, t, y);
    }
    SeenGo(Next, Uninterrupted, Init(readers, capacity, threshold), Sees, CanGo, Go, Run(t), v, t, x, k);
  }

  lemma ShownPipe(readers: nat, capacity: nat, threshold: nat, v: Shape, a: Action)
    requires Shown(readers, capacity, threshold, v) && IsPipe(a) && (a.WorkerStep? ==> v.data.ring > 0)
    ensures Shown(readers, capacity, threshold, v.(data := Pipe(v.data, a)))
  {
    forall s | Sees(s, v) ensures Uninterrupted(s, a) && Sees(Next(s, a), v.(data := Pipe(v.data, a))) {
      PipeAlone(s, v, a);
    }
    SeenNext(Next, Uninterrupted, Init(readers, capacity, threshold), Sees, v, a, v.(data := Pipe(v.data, a)));
  }

  // ---- the timer and the drain -----------------------------------------------------------------

  /** The timer fires and finds the work pending, or not pending and compares the size. */
  lemma Ticks(readers: nat, capacity: nat, threshold: nat, v: Shape)
    requires Shown(readers, capacity, threshold, v) && v.data.timer == Timer.Ready && v.data.ring < v.data.capacity
    ensures Shown(readers, capacity, threshold,
      v.(data := v.data.(ring := v.data.ring + 1, pending := v.data.pending || v.data.ring + 1 == v.data.target)))
  {
    var w := v.(data := v.data.(timer := Checking, ring := v.data.ring + 1));
    ShownPipe(readers, capacity, threshold, v, Fire(0));
    ShownPipe(readers, capacity, threshold, w, TimerStep);
    if !v.data.pending {
      ShownPipe(readers, capacity, threshold, w.(data := w.data.(timer := Timer.Sizing)), TimerStep);
    }
  }

  /** The timer fills the buffer up to the flush size, and schedules the work. */
  lemma {:induction false} FillsUp(readers: nat, capacity: nat, threshold: nat, v: Shape)
    requires Shown(readers, capacity, threshold, v)
    requires v.data.timer == Timer.Ready && !v.data.pending && v.data.ring < v.data.target <= v.data.capacity
    ensures Shown(readers, capacity, threshold, v.(data := v.data.(ring := v.data.target, pending := true)))
    decreases v.data.target - v.data.ring
  {
    Ticks(readers, capacity, threshold, v);
    if v.data.ring + 1 < v.data.target {
      FillsUp(readers, capacity, threshold, v.(data := v.data.(ring := v.data.ring + 1)));
    }
  }

  /** The worker takes one number. */
  lemma Takes(readers: nat, capacity: nat, threshold: nat, v: Shape)
    requires Shown(readers, capacity, threshold, v) && v.data.worker == Looking && v.data.ring > 0
    ensures Shown(readers, capacity, threshold,
      v.(data := v.data.(aux := v.data.aux + 1, ring := v.data.ring - 1)))
  {
    ShownPipe(readers, capacity, threshold, v, WorkerStep);
    ShownPipe(readers, capacity, threshold, v.(data := v.data.(worker := Taking)), WorkerStep);
  }

  /** The worker empties the buffer into its array. */
  lemma {:induction false} Drains(readers: nat, capacity: nat, threshold: nat, v: Shape)
    requires Shown(readers, capacity, threshold, v) && v.data.worker == Looking
    ensures Shown(readers, capacity, threshold, v.(data := v.data.(ring := 0, aux := v.data.aux + v.data.ring)))
    decreases v.data.ring
  {
    if v.data.ring > 0 {
      Takes(readers, capacity, threshold, v);
      Drains(readers, capacity, threshold, v.(data := v.data.(aux := v.data.aux + 1, ring := v.data.ring - 1)));
    } else {
      assert v.(data := v.data.(ring := 0, aux := v.data.aux + v.data.ring)) == v;
    }
  }

  predicate PendingAfter(readers: nat, capacity: nat, threshold: nat, run: seq<Action>) {
    After(readers, capacity, threshold, run).pending
  }

  /** Exactly when the flush size is from one to the capacity can a flush ever happen. */
  lemma FlushPossible(readers: nat, capacity: nat, threshold: nat)
    requires 0 < capacity
    ensures (exists run :: PendingAfter(readers, capacity, threshold, run))
            <==> 1 <= FlushSize(threshold, capacity) <= capacity
  {
    var v := Quiet(readers, capacity, threshold);
    if 1 <= v.data.target <= capacity {
      ShownFirst(readers, capacity, threshold);
      FillsUp(readers, capacity, threshold, v);
      var run := ShownRun(readers, capacity, threshold, v.(data := v.data.(ring := v.data.target, pending := true)));
      assert PendingAfter(readers, capacity, threshold, run);
    } else {
      forall run: seq<Action> ensures !PendingAfter(readers, capacity, threshold, run) {
        RunNeverFlushes(readers, capacity, threshold, run);
      }
    }
  }

  /** While the worker drains, the timer puts a new number in for each it takes. */
  lemma {:induction false} KeepsUp(readers: nat, capacity: nat, threshold: nat, v: Shape, n: nat)
    requires Shown(readers, capacity, threshold, v)
    requires v.data.worker == Looking && v.data.timer == Timer.Ready && 0 < v.data.ring <= v.data.capacity
    ensures Shown(readers, capacity, threshold,
      v.(data := v.data.(aux := v.data.aux + n,
                         pending := v.data.pending || (n > 0 && v.data.ring == v.data.target))))
    decreases n
  {
    if n == 0 {
      assert v.(data := v.data.(aux := v.data.aux + n, pending := v.data.pending)) == v;
    } else {
      var d := v.data;
      Takes(readers, capacity, threshold, v);
      Ticks(readers, capacity, threshold, v.(data := d.(aux := d.aux + 1, ring := d.ring - 1)));
      KeepsUp(readers, capacity, threshold,
              v.(data := d.(aux := d.aux + 1, pending := d.pending || d.ring == d.target)), n - 1);
    }
  }

  predicate OutgrownAfter(readers: nat, capacity: nat, threshold: nat, run: seq<Action>) {
    |After(readers, capacity, threshold, run).aux| > capacity
  }

  lemma OutgrowingRun(readers: nat, capacity: nat, threshold: nat) returns (run: seq<Action>)
    requires 1 <= FlushSize(threshold, capacity) <= capacity
    ensures Throughout(Next, Uninterrupted, Init(readers, capacity, threshold), run)
    ensures OutgrownAfter(readers, capacity, threshold, run)
  {
    var v := Quiet(readers, capacity, threshold);
    var d := v.data;
    ShownFirst(readers, capacity, threshold);
    FillsUp(readers, capacity, threshold, v);
    ShownPipe(readers, capacity, threshold, v.(data := d.(ring := d.target, pending := true)), WorkerStep);
    var w := v.(data := d.(ring := d.target, worker := Looking));
    KeepsUp(readers, capacity, threshold, w, capacity + 1);
    run := ShownRun(readers, capacity, threshold, w.(data := w.data.(aux := capacity + 1, pending := true)));
  }

  /** One drain can collect more numbers than an array of the buffer's capacity holds,
      exactly when a flush can ever happen. */
  lemma ArrayOutgrown(readers: nat, capacity: nat, threshold: nat)
    requires 0 < capacity
    ensures (exists run :: OutgrownAfter(readers, capacity, threshold, run))
            <==> 1 <= FlushSize(threshold, capacity) <= capacity
  {
    if 1 <= FlushSize(threshold, capacity) <= capacity {
      var run := OutgrowingRun(readers, capacity, threshold);
      assert OutgrownAfter(readers, capacity, threshold, run);
    } else {
      forall run: seq<Action> ensures !OutgrownAfter(readers, capacity, threshold, run) {
        RunNeverFlushes(readers, capacity, threshold, run);
      }
    }
  }
}
