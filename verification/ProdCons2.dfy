/** The producer/consumer entry built on a semaphore monitor: any number of threads, each
    running `prodcons_write` or `prodcons_read` again and again. */
module ProdCons2 {
  import opened Counting
  import opened Monitors
  import opened AtomicQueues
  import opened Rings
  import opened Runs

  /** `buf` is the contents of the circular buffer.  The rest of the second line is
      history: items inserted and removed, insertions that overwrote, heads taken from an
      empty buffer, and calls completed, by side: those that did their operation and left. */
  datatype State = State(
    m: Monitor, capacity: nat, item: seq<int>, buf: seq<int>,
    enq: seq<int>, deq: seq<int>, overwrites: nat, nulls: nat, done: Both<nat>)

  datatype Action = Write(t: nat, x: int) | Read(t: nat) | Run(t: nat) | Interrupt(t: nat)

  function Init(threads: nat, capacity: nat): State {
    State(Start(threads), capacity, seq(threads, _ => 0), [], [], [], 0, 0, Both(0, 0))
  }

  /** The condition of the `while` loop of a side, for a buffer of this size. */
  predicate Waits(q: Side, capacity: nat, size: nat) {
    if q.Prod? then size == capacity else size == 0
  }

  predicate MustWait(s: State, q: Side) {
    Waits(q, s.capacity, |s.buf|)
  }

  /** The next move of a thread in a call. */
  function MoveAt(pc: Pc, l: Locks, capacity: nat, size: nat): Move {
    match pc {
      case Entering(q) => Lock(Testing(q))
      case Testing(q) => if Waits(q, capacity, size) then Sleep else Pass(Working(q))
      case Working(q) => Pass(Waking(q))
      case Waking(q) => if l.waiting.Of(q.Other()) > 0 then Signal else Pass(Exiting(q))
      case Discounting(q) => Discount(Exiting(q))
      case _ => Routine(pc)
    }
  }

  function MoveOf(s: State, t: nat): Move
    requires t < |s.m.at|
  {
    MoveAt(s.m.at[t], LocksOf(s.m), s.capacity, |s.buf|)
  }

  /** The monitor move behind an action. */
  function MoveIn(s: State, a: Action): Move
    requires a.t < |s.m.at|
  {
    match a {
      case Write(_, _) => Call(Prod)
      case Read(_) => Call(Cons)
      case Run(t) => MoveOf(s, t)
      case Interrupt(t) => InterruptOf(s.m.at[t])
    }
  }

  predicate Taken(s: State, a: Action) {
    a.t < |s.m.at| == |s.item| && Enabled(s.m, a.t, MoveIn(s, a))
  }

  /** What an action does beside the monitor: a call's argument, the critical section, and
      the end of a completed call. */
  function Effect(s: State, a: Action): (r: State)
    requires a.t < |s.m.at| == |s.item|
    ensures r.m == s.m && |r.item| == |s.item| && r.capacity == s.capacity
  {
    if a.Write? then s.(item := s.item[a.t := a.x])
    else if !a.Run? then s
    else match s.m.at[a.t] {
      case Working(Prod) =>
        s.(buf := Newest(s.buf + [s.item[a.t]], s.capacity), enq := s.enq + [s.item[a.t]],
           overwrites := s.overwrites + if |s.buf| < s.capacity then 0 else 1)
      case Working(Cons) =>
        if s.buf == [] then s.(nulls := s.nulls + 1)
        else s.(buf := s.buf[1..], deq := s.deq + [s.buf[0]])
      case Exiting(q) => s.(done := Inc(s.done, q))
      case _ => s
    }
  }

  function Next(s: State, a: Action): (r: State)
    ensures |r.item| == |s.item| && |r.m.at| == |s.m.at| && r.capacity == s.capacity
  {
    if Taken(s, a) then Effect(s, a).(m := Apply(s.m, a.t, MoveIn(s, a))) else s
  }

  /** The state after a run of some threads on an empty buffer. */
  function After(threads: nat, capacity: nat, run: seq<Action>): State {
    Exec(Next, Init(threads, capacity), run)
  }

  // ---- safety: every run, interruptions included ------------------------------

  /** A thread that has passed its loop finds its condition still false. */
  predicate Ready(s: State) {
    forall t | 0 <= t < |s.m.at| && s.m.at[t].Working? :: !MustWait(s, s.m.at[t].side)
  }

  /** Threads that have done their insertion or removal and not yet left. */
  function Finishing(q: Side): Pc -> bool {
    (pc: Pc) => (pc.Waking? || pc.Discounting? || pc.Exiting?) && pc.side == q
  }

  predicate Safe(s: State) {
    && Inv(s.m) && |s.item| == |s.m.at|
    && |s.buf| <= s.capacity
    && s.enq == s.deq + s.buf
    && s.overwrites == 0 && s.nulls == 0
    && Ready(s)
    && |s.enq| == s.done.prod + Many(s.m.at, Finishing(Prod))
    && |s.deq| == s.done.cons + Many(s.m.at, Finishing(Cons))
  }

  lemma InitSafe(threads: nat, capacity: nat)
    ensures Safe(Init(threads, capacity))
  {
    StartInv(threads);
    NoneSuch(Start(threads).at, Finishing(Prod));
    NoneSuch(Start(threads).at, Finishing(Cons));
  }

  /** Only the holder of the lock changes the buffer. */
  lemma HolderChanges(s: State, a: Action)
    requires Taken(s, a) && !s.m.at[a.t].Holds()
    ensures Effect(s, a).buf == s.buf
  {
  }

  lemma PassesTest(s: State, a: Action)
    requires Taken(s, a) && Next(s, a).m.at[a.t].Working?
    ensures !MustWait(Next(s, a), Next(s, a).m.at[a.t].side)
  {
  }

  lemma KeepsReady(s: State, a: Action)
    requires Ready(s) && OneHolder(s.m) && Taken(s, a)
    ensures Ready(Next(s, a))
  {
    var n := Next(s, a);
    forall u | 0 <= u < |n.m.at| && n.m.at[u].Working? ensures !MustWait(n, n.m.at[u].side) {
      if u == a.t {
        PassesTest(s, a);
      } else {
        if s.m.at[a.t].Holds() {
          OnlyHolder(s.m, a.t, u);
        }
        HolderChanges(s, a);
      }
    }
  }

  lemma KeepsFinishing(s: State, a: Action, q: Side)
    requires Taken(s, a)
    ensures var n := Next(s, a);
      Many(n.m.at, Finishing(q)) + n.done.Of(q) ==
      Many(s.m.at, Finishing(q)) + s.done.Of(q) + if a.Run? && s.m.at[a.t] == Working(q) then 1 else 0
  {
    ManyUpdate(s.m.at, a.t, Target(s.m.at[a.t], MoveIn(s, a)), Finishing(q));
  }

  lemma KeepsBuffer(s: State, a: Action)
    requires |s.item| == |s.m.at| && a.t < |s.m.at|
    requires |s.buf| <= s.capacity && s.enq == s.deq + s.buf && Ready(s)
    ensures var n := Effect(s, a);
      && |n.buf| <= n.capacity && n.enq == n.deq + n.buf
      && n.overwrites == s.overwrites && n.nulls == s.nulls
      && |n.enq| == |s.enq| + (if a.Run? && s.m.at[a.t] == Working(Prod) then 1 else 0)
      && |n.deq| == |s.deq| + (if a.Run? && s.m.at[a.t] == Working(Cons) then 1 else 0)
  {
  }

  lemma KeepsSafe(s: State, a: Action)
    requires Safe(s)
    ensures Safe(Next(s, a))
  {
    if Taken(s, a) {
      KeepsInv(s.m, a.t, MoveIn(s, a));
      KeepsReady(s, a);
      KeepsFinishing(s, a, Prod);
      KeepsFinishing(s, a, Cons);
      KeepsBuffer(s, a);
    }
  }

  lemma RunSafe(threads: nat, capacity: nat, run: seq<Action>)
    ensures var s := After(threads, capacity, run); Safe(s) && s.capacity == capacity && |s.m.at| == threads
  {
    var good := (s: State) => Safe(s) && s.capacity == capacity && |s.m.at| == threads;
    InitSafe(threads, capacity);
    forall s, a | good(s) ensures good(Next(s, a)) {
      KeepsSafe(s, a);
    }
    AlwaysKeeps(Next, good, Init(threads, capacity), run);
  }

  /** On every run, what was removed is a prefix of what was inserted, the rest is in the
      buffer, nothing was overwritten or taken from an empty buffer, and every completed call
      stands for exactly one insertion or removal. */
  lemma FirstInFirstOut(threads: nat, capacity: nat, run: seq<Action>)
    ensures var s := After(threads, capacity, run);
      && s.enq == s.deq + s.buf && |s.buf| <= capacity
      && s.overwrites == 0 && s.nulls == 0
      && |s.enq| == s.done.prod + Many(s.m.at, Finishing(Prod))
      && |s.deq| == s.done.cons + Many(s.m.at, Finishing(Cons))
  {
    RunSafe(threads, capacity, run);
  }

  /** A call interrupted before it gets the lock leaves everything as it found it. */
  lemma InterruptUndoes(s: State, t: nat)
    requires |s.item| == |s.m.at| && t < |s.m.at| && s.m.at[t] == Outside && s.m.mtx == 0
    ensures Taken(Next(s, Read(t)), Interrupt(t)) && Next(Next(s, Read(t)), Interrupt(t)) == s
    ensures Next(Next(s, Write(t, s.item[t])), Interrupt(t)) == s
  {
    assert s.m.at[t := Entering(Cons)][t := Outside] == s.m.at;
    assert s.m.at[t := Entering(Prod)][t := Outside] == s.m.at;
  }

  /** The semaphore accounting on every run, interruptions included. */
  lemma Accounting(threads: nat, capacity: nat, run: seq<Action>, q: Side)
    ensures var m := After(threads, capacity, run).m;
      && m.mtx + Many(m.at, Holding()) == 1
      && m.permits.Of(q) + m.waiting.Of(q) == Many(m.at, Owing(q))
      && m.waiting.Of(q) + m.bailed.Of(q) >= 0
  {
    RunSafe(threads, capacity, run);
    assert Accounts(After(threads, capacity, run).m, q);
  }

  /** The atomic queue a state stands for. */
  function Abstract(s: State): Queue<int> {
    Queue(s.capacity, s.buf, s.deq)
  }

  /** Every action is invisible, one enqueue of the writer's item, or one dequeue. */
  lemma RefinesAtomicQueue(s: State, a: Action)
    requires Safe(s)
    ensures var n := Next(s, a);
      || Abstract(n) == Abstract(s)
      || (a.Run? && s.m.at[a.t] == Working(Prod) && Enqueues(Abstract(s), s.item[a.t], Abstract(n)))
      || (a.Run? && s.m.at[a.t] == Working(Cons) && Dequeues(Abstract(s), n.deq[|s.deq|], Abstract(n)))
  {
    assert Safe(s) ==> Ready(s);
  }

  /** Every run is a run of the atomic queue, and so what was dequeued, and that followed by
      what is held, only grows at its end. */
  lemma RunRefinesAtomicQueue(s: State, run: seq<Action>)
    requires Safe(s)
    ensures History(Trace(Next, Abstract, s, run))
    ensures var r := Exec(Next, s, run); s.deq <= r.deq && s.deq + s.buf <= r.deq + r.buf
  {
    forall r, a | Safe(r) ensures Safe(Next(r, a)) && Step(Abstract(r), Abstract(Next(r, a))) {
      KeepsSafe(r, a);
      RefinesAtomicQueue(r, a);
    }
    Refines(Next, Safe, Abstract, s, run);
    HistoryOrder(Trace(Next, Abstract, s, run));
    TraceEnds(Next, Abstract, s, run);
  }

  // ---- the items are the calls' arguments ------------------------------------------------

  function Grow(s: State, h: Told<int>, a: Action): Told<int> {
    if !Taken(s, a) then h
    else match a {
      case Write(t, x) => h.Given(t, x)
      case Run(t) => if s.m.at[t] == Working(Prod) then h.Inserted(t) else h
      case _ => h
    }
  }

  /** Of the states, only where the threads are and which actions are taken is looked at. */
  function ToldBy(threads: nat, capacity: nat, run: seq<Action>): Told<int> {
    Tally(Next, Grow, Init(threads, capacity), Told(seq(threads, _ => 0), []), run)
  }

  /** On every run what was removed and then what is in the buffer are the arguments of the
      writes whose insertions were made, in the order of the insertions. */
  lemma InsertsArguments(threads: nat, capacity: nat, run: seq<Action>)
    ensures var s, h := After(threads, capacity, run), ToldBy(threads, capacity, run);
      s.item == h.args && s.enq == h.inserted && s.deq + s.buf == h.inserted
  {
    var good := (s: State, h: Told<int>) => Safe(s) && s.item == h.args && s.enq == h.inserted;
    InitSafe(threads, capacity);
    forall s, h, a | good(s, h) ensures good(Next(s, a), Grow(s, h, a)) {
      KeepsSafe(s, a);
    }
    TallyKeeps(Next, Grow, good, Init(threads, capacity), Told(seq(threads, _ => 0), []), run);
  }

  // ---- wake-ups ----------------------------------------------------------------

  /** The items a consumer, or the gaps a producer, could use. */
  function Available(s: State, q: Side): int {
    if q.Prod? then s.capacity - |s.buf| else |s.buf|
  }

  /** While some thread of side q waits unsignalled, each thing it could use has a permit,
      a responding thread, or a wake-up lost to an interruption to answer for it. */
  predicate Answered(s: State, q: Side) {
    s.m.waiting.Of(q) > 0 ==> Available(s, q) <= Answers(s.m, q)
  }

  /** How the answers change with a move of a thread: they come from threads entering and
      from the other side's work, and are used up by going to sleep, by doing the work, and
      by not signalling. */
  function Change(s: State, a: Action, q: Side): int
    requires a.t < |s.m.at|
  {
    if !a.Run? then 0 else match s.m.at[a.t] {
      case Entering(side) => if side == q then 1 else 0
      case Testing(side) => if side == q && MustWait(s, q) then -1 else 0
      case Working(side) => if side == q then -1 else 1
      case Waking(side) => if side != q && s.m.waiting.Of(q) <= 0 then -1 else 0
      case _ => 0
    }
  }

  lemma ChangeBalance(s: State, a: Action, q: Side)
    requires Taken(s, a)
    ensures var pc, mv := s.m.at[a.t], MoveIn(s, a);
      Hints(pc, mv, q) + (if Responding(q)(Target(pc, mv)) then 1 else 0)
      == Change(s, a, q) + (if Responding(q)(pc) then 1 else 0)
  {
  }

  lemma KeepsAnswered(s: State, a: Action, q: Side)
    requires Safe(s) && Answered(s, q)
    ensures Answered(Next(s, a), q)
  {
    if Taken(s, a) {
      AnswerBalance(s.m, a.t, MoveIn(s, a), q);
      ChangeBalance(s, a, q);
      KeepsBuffer(s, a);
    }
  }

  /** The wake-up law holds on every run, whatever is interrupted. */
  lemma RunAnswered(threads: nat, capacity: nat, run: seq<Action>, q: Side)
    ensures Answered(After(threads, capacity, run), q)
  {
    var good := (s: State) => Safe(s) && Answered(s, q);
    InitSafe(threads, capacity);
    forall s, a | good(s) ensures good(Next(s, a)) {
      KeepsSafe(s, a);
      KeepsAnswered(s, a, q);
    }
    AlwaysKeeps(Next, good, Init(threads, capacity), run);
  }

  /** The buffer has nothing for side q: full for producers, empty for consumers. */
  predicate NothingFor(s: State, q: Side) {
    if q.Prod? then |s.buf| == s.capacity else s.buf == []
  }

  predicate AllStuck(s: State) {
    forall t | 0 <= t < |s.m.at| :: !Taken(s, Run(t))
  }

  lemma StuckPlaces(s: State)
    requires Safe(s) && AllStuck(s)
    ensures forall t | 0 <= t < |s.m.at| ::
      s.m.at[t].Outside? || (s.m.at[t].Queued? && s.m.permits.Of(s.m.at[t].side) == 0)
  {
    forall t | 0 <= t < |s.m.at| ensures !s.m.at[t].Holds() {
      assert !Taken(s, Run(t));
    }
    FreeLock(s.m);
    forall t | 0 <= t < |s.m.at|
      ensures s.m.at[t].Outside? || (s.m.at[t].Queued? && s.m.permits.Of(s.m.at[t].side) == 0)
    {
      assert !Taken(s, Run(t));
    }
  }

  /** When no thread can move, at most `lost` usable things face a sleeper of side q. */
  lemma StuckSleepers(threads: nat, capacity: nat, run: seq<Action>, q: Side)
    requires AllStuck(After(threads, capacity, run))
    ensures var s := After(threads, capacity, run);
      && (forall t | 0 <= t < |s.m.at| :: s.m.at[t].Outside? || s.m.at[t].Queued?)
      && (Many(s.m.at, At(Queued(q))) > 0 ==> Available(s, q) <= s.m.lost.Of(q))
  {
    var s := After(threads, capacity, run);
    RunSafe(threads, capacity, run);
    RunAnswered(threads, capacity, run, q);
    StuckPlaces(s);
    AtRest(s.m, q);
    NoneSuch(s.m.at, Responding(q));
  }

  /** Not an interruption between a permit and the lock. */
  predicate Prompt(s: State, a: Action) {
    !(a.Interrupt? && a.t < |s.m.at| && s.m.at[a.t].Woken?)
  }

  lemma NothingLost(threads: nat, capacity: nat, run: seq<Action>)
    requires Throughout(Next, Prompt, Init(threads, capacity), run)
    ensures After(threads, capacity, run).m.lost == Both(0, 0)
  {
    var kept := (s: State) => s.m.lost == Both(0, 0);
    forall s, a | kept(s) && Prompt(s, a) ensures kept(Next(s, a)) {}
    Keeps(Next, Prompt, kept, Init(threads, capacity), run);
  }

  /** No lost wake-up and no deadlock, for any number of threads, on every run in which no
      thread is interrupted between its permit and the lock: if nothing can move, every
      sleeper's condition really holds, and sleepers are all producers or all consumers. */
  lemma NoDeadlock(threads: nat, capacity: nat, run: seq<Action>)
    requires capacity > 0
    requires Throughout(Next, Prompt, Init(threads, capacity), run)
    requires AllStuck(After(threads, capacity, run))
    ensures var s := After(threads, capacity, run);
      && (forall t | 0 <= t < |s.m.at| && !s.m.at[t].Outside? :: s.m.at[t].Queued? && NothingFor(s, s.m.at[t].side))
      && (forall t, u | 0 <= t < |s.m.at| && 0 <= u < |s.m.at| && s.m.at[t].Queued? && s.m.at[u].Queued? ::
            s.m.at[t] == s.m.at[u])
  {
    NothingLost(threads, capacity, run);
    StuckSleepers(threads, capacity, run, Prod);
    StuckSleepers(threads, capacity, run, Cons);
    RunSafe(threads, capacity, run);
    SleepersWait(After(threads, capacity, run));
  }

  lemma SleepersWait(s: State)
    requires s.capacity > 0 && |s.buf| <= s.capacity
    requires forall t | 0 <= t < |s.m.at| :: s.m.at[t].Outside? || s.m.at[t].Queued?
    requires Many(s.m.at, At(Queued(Prod))) > 0 ==> Available(s, Prod) <= 0
    requires Many(s.m.at, At(Queued(Cons))) > 0 ==> Available(s, Cons) <= 0
    ensures forall t | 0 <= t < |s.m.at| && !s.m.at[t].Outside? :: s.m.at[t].Queued? && NothingFor(s, s.m.at[t].side)
    ensures forall t, u | 0 <= t < |s.m.at| && 0 <= u < |s.m.at| && s.m.at[t].Queued? && s.m.at[u].Queued? ::
              s.m.at[t] == s.m.at[u]
  {
    NoneSuch(s.m.at, At(Queued(Prod)));
    NoneSuch(s.m.at, At(Queued(Cons)));
  }

  predicate Uninterrupted(s: State, a: Action) {
    !a.Interrupt?
  }

  /** Without interruptions nothing is lost and the counters are never negative. */
  lemma InterruptFree(threads: nat, capacity: nat, run: seq<Action>)
    requires Throughout(Next, Uninterrupted, Init(threads, capacity), run)
    ensures var m := After(threads, capacity, run).m; Calm(m) && m.waiting.prod >= 0 && m.waiting.cons >= 0
  {
    var good := (s: State) => Safe(s) && Calm(s.m);
    InitSafe(threads, capacity);
    StartInv(threads);
    forall s, a | good(s) && Uninterrupted(s, a) ensures good(Next(s, a)) {
      KeepsSafe(s, a);
      if Taken(s, a) {
        KeepsCalm(s.m, a.t, MoveIn(s, a));
      }
    }
    Keeps(Next, Uninterrupted, good, Init(threads, capacity), run);
  }
}
