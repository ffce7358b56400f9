/** The monitor producer/consumer entry does everything the atomic queue can: a single thread,
    calling as producer or consumer, carries out any history of the queue. */
module ProdCons2Runs {
  import opened AtomicQueues
  import opened Monitors
  import opened ProdCons2
  import opened Runs

  /** Nobody is in a call. */
  predicate Quiet(s: State) {
    && 0 < |s.m.at| == |s.item| && (forall t | 0 <= t < |s.m.at| :: s.m.at[t].Outside?)
    && |s.buf| <= s.capacity && s.m.mtx == 1 && s.m.permits == Both(0, 0) && s.m.waiting == Both(0, 0)
  }

  /** The quiet state s but for thread 0, the lock and its argument. */
  function With(s: State, pc: Pc, mtx: nat, x: int): State
    requires 0 < |s.m.at| == |s.item|
  {
    s.(m := s.m.(at := s.m.at[0 := pc], mtx := mtx), item := s.item[0 := x])
  }

  function CallFor(o: Operation<int>): Action {
    match o {
      case Enqueue(x) => Write(0, x)
      case Dequeue => Read(0)
    }
  }

  function SideFor(o: Operation<int>): Side {
    if o.Enqueue? then Prod else Cons
  }

  function Argument(s: State, o: Operation<int>): int
    requires 0 < |s.item|
  {
    if o.Enqueue? then o.x else s.item[0]
  }

  /** Up to its critical section. */
  lemma GetsIn(s: State, o: Operation<int>)
    requires Quiet(s) && Can(Abstract(s), o)
    ensures var q, x := SideFor(o), Argument(s, o);
      && Next(s, CallFor(o)) == With(s, Entering(q), 1, x)
      && Next(With(s, Entering(q), 1, x), Run(0)) == With(s, Testing(q), 0, x)
      && Next(With(s, Testing(q), 0, x), Run(0)) == With(s, Working(q), 0, x)
  {
    var q := SideFor(o);
    assert s.m.at[0 := Entering(q)][0 := Testing(q)] == s.m.at[0 := Testing(q)];
    assert s.m.at[0 := Testing(q)][0 := Working(q)] == s.m.at[0 := Working(q)];
  }

  lemma InSection(s: State, o: Operation<int>)
    requires Quiet(s) && Can(Abstract(s), o)
    ensures var r := Next(With(s, Working(SideFor(o)), 0, Argument(s, o)), Run(0));
      && r.m == s.m.(at := s.m.at[0 := Waking(SideFor(o))], mtx := 0) && |r.item| == |s.item|
      && Abstract(r) == Do(Abstract(s), o)
  {
    var q := SideFor(o);
    assert s.m.at[0 := Working(q)][0 := Waking(q)] == s.m.at[0 := Waking(q)];
  }

  /** From there on, with nobody to wake. */
  lemma GetsOut(s: State, q: Side)
    requires 0 < |s.m.at| == |s.item| && s.m.at[0] == Waking(q) && s.m.mtx == 0 && s.m.waiting == Both(0, 0)
    ensures var r := Next(Next(s, Run(0)), Run(0));
      r == s.(m := s.m.(at := s.m.at[0 := Outside], mtx := 1), done := Inc(s.done, q))
  {
    assert s.m.at[0 := Exiting(q)][0 := Outside] == s.m.at[0 := Outside];
  }

  /** What thread 0's call leaves when it is run to its end alone. */
  function Called(s: State, o: Operation<int>): State {
    Exec(Next, s, [CallFor(o), Run(0), Run(0), Run(0), Run(0), Run(0)])
  }

  lemma ThroughSection(s: State, o: Operation<int>)
    requires Quiet(s) && Can(Abstract(s), o)
    ensures var r := Next(Next(Next(Next(s, CallFor(o)), Run(0)), Run(0)), Run(0));
      && r.m == s.m.(at := s.m.at[0 := Waking(SideFor(o))], mtx := 0) && |r.item| == |s.item|
      && Abstract(r) == Do(Abstract(s), o)
  {
    GetsIn(s, o);
    InSection(s, o);
  }

  lemma EndsQuiet(s: State, r: State, q: Side)
    requires Quiet(s) && r.m == s.m.(at := s.m.at[0 := Waking(q)], mtx := 0) && |r.item| == |s.item|
    requires |r.buf| <= r.capacity
    ensures var e := Next(Next(r, Run(0)), Run(0)); Quiet(e) && Abstract(e) == Abstract(r) && |e.m.at| == |s.m.at|
  {
    GetsOut(r, q);
    assert s.m.at[0 := Waking(q)][0 := Outside] == s.m.at[0 := Outside];
  }

  lemma CallDoes(s: State, o: Operation<int>)
    requires Quiet(s) && Can(Abstract(s), o)
    ensures Quiet(Called(s, o)) && Abstract(Called(s, o)) == Do(Abstract(s), o) && |Called(s, o).m.at| == |s.m.at|
  {
    var r := Next(Next(Next(Next(s, CallFor(o)), Run(0)), Run(0)), Run(0));
    ThroughSection(s, o);
    EndsQuiet(s, r, SideFor(o));
    ExecSix(Next, s, CallFor(o), Run(0));
  }

  /** One call after the other. */
  function Calls(os: seq<Operation<int>>): seq<Action> {
    if os == [] then [] else [CallFor(os[0]), Run(0), Run(0), Run(0), Run(0), Run(0)] + Calls(os[1..])
  }

  lemma {:induction false} CallsDo(s: State, os: seq<Operation<int>>)
    requires Quiet(s) && Playable(Abstract(s), os)
    ensures var r := Exec(Next, s, Calls(os));
      Quiet(r) && Abstract(r) == Play(Abstract(s), os) && |r.m.at| == |s.m.at|
    decreases |os|
  {
    if os != [] {
      CallDoes(s, os[0]);
      ExecConcat(Next, s, [CallFor(os[0]), Run(0), Run(0), Run(0), Run(0), Run(0)], Calls(os[1..]));
      CallsDo(Called(s, os[0]), os[1..]);
    }
  }

  /** Whatever operations the atomic queue can do one after the other, some run does, and ends
      with nobody in a call. */
  lemma DoesEveryHistory(threads: nat, capacity: nat, os: seq<Operation<int>>)
    requires threads >= 1 && Playable(Queue(capacity, [], []), os)
    ensures var s := After(threads, capacity, Calls(os));
      && (forall t | 0 <= t < threads :: t < |s.m.at| && s.m.at[t].Outside?)
      && Abstract(s) == Play(Queue(capacity, [], []), os)
  {
    CallsDo(Init(threads, capacity), os);
  }
}
