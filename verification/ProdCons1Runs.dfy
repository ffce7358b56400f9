/** The two-semaphore producer/consumer entry does everything the atomic queue can: a single
    thread, calling as producer or consumer, carries out any history of the queue. */
module ProdCons1Runs {
  import opened AtomicQueues
  import opened Monitors
  import opened ProdCons1
  import opened Runs

  predicate Uninterrupted(s: State, a: Action) {
    !a.Interrupt?
  }

  /** Nobody is in a call. */
  predicate Quiet(s: State) {
    && 0 < |s.at| == |s.item| && (forall t | 0 <= t < |s.at| :: s.at[t].Idle?)
    && |s.buf| <= s.capacity && s.mtx == 1 && s.tokens == Both(s.capacity - |s.buf|, |s.buf|)
  }

  /** The quiet state s but for thread 0, the semaphores and its argument. */
  function With(s: State, pc: Place, mtx: nat, tokens: Both<nat>, x: int): State
    requires 0 < |s.at| == |s.item|
  {
    s.(at := s.at[0 := pc], mtx := mtx, tokens := tokens, item := s.item[0 := x])
  }

  function Minus(b: Both<nat>, q: Side): Both<nat>
    requires b.Of(q) > 0
  {
    b.With(q, b.Of(q) - 1)
  }

  /** Up to its critical section. */
  lemma GetsIn(s: State, q: Side, x: int)
    requires Quiet(s) && s.tokens.Of(q) > 0
    ensures Next(s, Action.Call(0, q, x)) == With(s, Asking(q), 1, s.tokens, x)
    ensures Next(With(s, Asking(q), 1, s.tokens, x), Run(0)) == With(s, Token(q), 1, Minus(s.tokens, q), x)
    ensures Next(With(s, Token(q), 1, Minus(s.tokens, q), x), Run(0)) == With(s, Inside(q), 0, Minus(s.tokens, q), x)
  {
    assert s.at[0 := Asking(q)][0 := Token(q)] == s.at[0 := Token(q)];
    assert s.at[0 := Token(q)][0 := Inside(q)] == s.at[0 := Inside(q)];
  }

  /** From there on, whatever its section did to the rest of the state. */
  lemma GetsOut(s: State, q: Side, tokens: Both<nat>)
    requires 0 < |s.at| == |s.item| && s.at[0] == Done(q) && s.mtx == 0 && s.tokens == tokens
    ensures var r := Next(Next(s, Run(0)), Run(0));
      r == s.(at := s.at[0 := Idle], mtx := 1, tokens := Inc(tokens, q.Other()), done := Inc(s.done, q))
  {
    assert s.at[0 := Posting(q)][0 := Idle] == s.at[0 := Idle];
  }

  function CallFor(o: Operation<int>): Action {
    match o {
      case Enqueue(x) => Action.Call(0, Prod, x)
      case Dequeue => Action.Call(0, Cons, 0)
    }
  }

  /** What thread 0's call leaves when it is run to its end alone. */
  function Called(s: State, o: Operation<int>): State {
    Exec(Next, s, [CallFor(o), Run(0), Run(0), Run(0), Run(0), Run(0)])
  }

  lemma InSection(s: State, q: Side, x: int, tokens: Both<nat>)
    requires Quiet(s) && (if q.Prod? then |s.buf| < s.capacity else s.buf != [])
    ensures var r := Next(With(s, Inside(q), 0, tokens, x), Run(0));
      && r.at == s.at[0 := Done(q)] && r.mtx == 0 && r.tokens == tokens && |r.item| == |s.item|
      && Abstract(r) == Do(Abstract(s), if q.Prod? then Enqueue(x) else Dequeue)
  {
    assert s.at[0 := Inside(q)][0 := Done(q)] == s.at[0 := Done(q)];
  }

  lemma ThroughSection(s: State, o: Operation<int>)
    requires Quiet(s) && Can(Abstract(s), o)
    ensures var q := if o.Enqueue? then Prod else Cons;
      var r := Next(Next(Next(Next(s, CallFor(o)), Run(0)), Run(0)), Run(0));
      && s.tokens.Of(q) > 0 && r.at == s.at[0 := Done(q)] && r.mtx == 0 && r.tokens == Minus(s.tokens, q)
      && |r.item| == |s.item| && Abstract(r) == Do(Abstract(s), o)
  {
    var q, x := if o.Enqueue? then Prod else Cons, if o.Enqueue? then o.x else 0;
    GetsIn(s, q, x);
    InSection(s, q, x, Minus(s.tokens, q));
  }

  lemma TokensBack(s: State, o: Operation<int>)
    requires Quiet(s) && Can(Abstract(s), o)
    ensures var q := if o.Enqueue? then Prod else Cons;
      && s.tokens.Of(q) > 0
      && Inc(Minus(s.tokens, q), q.Other()) ==
         Both(s.capacity - |Do(Abstract(s), o).items|, |Do(Abstract(s), o).items|)
  {
  }

  lemma CallDoes(s: State, o: Operation<int>)
    requires Quiet(s) && Can(Abstract(s), o)
    ensures Quiet(Called(s, o)) && Abstract(Called(s, o)) == Do(Abstract(s), o) && |Called(s, o).at| == |s.at|
  {
    var q := if o.Enqueue? then Prod else Cons;
    ExecSix(Next, s, CallFor(o), Run(0));
    ThroughSection(s, o);
    TokensBack(s, o);
    GetsOut(Next(Next(Next(Next(s, CallFor(o)), Run(0)), Run(0)), Run(0)), q, Minus(s.tokens, q));
  }

  /** One call after the other. */
  function Calls(os: seq<Operation<int>>): seq<Action> {
    if os == [] then [] else [CallFor(os[0]), Run(0), Run(0), Run(0), Run(0), Run(0)] + Calls(os[1..])
  }

  lemma {:induction false} CallsDo(s: State, os: seq<Operation<int>>)
    requires Quiet(s) && Playable(Abstract(s), os)
    ensures var r := Exec(Next, s, Calls(os));
      Quiet(r) && Abstract(r) == Play(Abstract(s), os) && |r.at| == |s.at|
    decreases |os|
  {
    if os != [] {
      CallDoes(s, os[0]);
      ExecConcat(Next, s, [CallFor(os[0]), Run(0), Run(0), Run(0), Run(0), Run(0)], Calls(os[1..]));
      CallsDo(Called(s, os[0]), os[1..]);
    }
  }

  /** Whatever operations the atomic queue can do one after the other, some run does, and ends
      with nobody in a call. */
  lemma DoesEveryHistory(threads: nat, capacity: nat, os: seq<Operation<int>>)
    requires threads >= 1 && Playable(Queue(capacity, [], []), os)
    ensures var s := After(threads, capacity, Calls(os));
      && (forall t | 0 <= t < threads :: t < |s.at| && s.at[t].Idle?)
      && Abstract(s) == Play(Queue(capacity, [], []), os)
  {
    CallsDo(Init(threads, capacity), os);
  }
}
