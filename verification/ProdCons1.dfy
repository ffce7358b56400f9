/** The producer/consumer entry built on two counting semaphores: `huecos` counts gaps,
    `elementos` counts items, and `mtx` guards the buffer.  Any number of threads, each
    calling `prodcons_write` or `prodcons_read` again and again; runs are lists of actions
    as in `ProdCons2`.  A down that finds a permit takes it and is not interrupted. */
module ProdCons1 {
  import opened Counting
  import opened Monitors
  import opened AtomicQueues
  import opened Rings
  import opened Runs

  /** A producer takes a gap and posts an item, a consumer the reverse: side q downs its own
      semaphore first and ups the other side's last. */
  datatype Place =
    | Idle
    | Asking(side: Side)   // at down_interruptible of its own semaphore
    | Token(side: Side)    // holds a token, at down_interruptible(&mtx)
    | Refund(side: Side)   // interrupted there, about to up its own semaphore
    | Inside(side: Side)   // has the lock, at the buffer operation
    | Done(side: Side)     // has the lock, about to free it
    | Posting(side: Side)  // about to up the other side's semaphore

  /** `tokens.prod` is `huecos`, `tokens.cons` is `elementos`; the last line is history:
      items inserted and removed, insertions that overwrote, heads taken from an empty
      buffer, and calls completed, by side: those that did their operation and left. */
  datatype State = State(
    mtx: nat, tokens: Both<nat>, at: seq<Place>, capacity: nat, item: seq<int>, buf: seq<int>,
    enq: seq<int>, deq: seq<int>, overwrites: nat, nulls: nat, done: Both<nat>)

  datatype Action = Call(t: nat, side: Side, x: int) | Run(t: nat) | Interrupt(t: nat)

  function Init(threads: nat, capacity: nat): State {
    State(1, Both(capacity, 0), seq(threads, _ => Idle), capacity, seq(threads, _ => 0), [], [], [], 0, 0, Both(0, 0))
  }

  predicate Taken(s: State, a: Action) {
    a.t < |s.at| == |s.item| && match a {
      case Call(_, _, _) => s.at[a.t].Idle?
      case Interrupt(_) =>
        (s.at[a.t].Asking? && s.tokens.Of(s.at[a.t].side) == 0) || (s.at[a.t].Token? && s.mtx == 0)
      case Run(_) => match s.at[a.t] {
        case Idle => false
        case Asking(q) => s.tokens.Of(q) > 0
        case Token(_) => s.mtx > 0
        case _ => true
      }
    }
  }

  function Target(pc: Place, a: Action): Place
    requires pc.Idle? ==> a.Call?
  {
    match a {
      case Call(_, q, _) => Asking(q)
      case Interrupt(_) => if pc.Token? then Refund(pc.side) else Idle
      case Run(_) => match pc {
        case Asking(q) => Token(q)
        case Token(q) => Inside(q)
        case Inside(q) => Done(q)
        case Done(q) => Posting(q)
        case _ => Idle
      }
    }
  }

  /** What an action does beside moving its thread. */
  function Effect(s: State, a: Action): (r: State)
    requires Taken(s, a)
    ensures r.at == s.at && |r.item| == |s.item| && r.capacity == s.capacity
  {
    if a.Call? then s.(item := s.item[a.t := a.x])
    else if a.Interrupt? then s
    else match s.at[a.t] {
      case Asking(q) => s.(tokens := s.tokens.With(q, s.tokens.Of(q) - 1))
      case Token(_) => s.(mtx := s.mtx - 1)
      case Refund(q) => s.(tokens := Inc(s.tokens, q))
      case Inside(Prod) =>
        s.(buf := Newest(s.buf + [s.item[a.t]], s.capacity), enq := s.enq + [s.item[a.t]],
           overwrites := s.overwrites + if |s.buf| < s.capacity then 0 else 1)
      case Inside(Cons) =>
        if s.buf == [] then s.(nulls := s.nulls + 1)
        else s.(buf := s.buf[1..], deq := s.deq + [s.buf[0]])
      case Done(_) => s.(mtx := s.mtx + 1)
      case Posting(q) => s.(tokens := Inc(s.tokens, q.Other()), done := Inc(s.done, q))
      case Idle => s
    }
  }

  function Next(s: State, a: Action): (r: State)
    ensures |r.item| == |s.item| && |r.at| == |s.at| && r.capacity == s.capacity
  {
    if Taken(s, a) then Effect(s, a).(at := s.at[a.t := Target(s.at[a.t], a)]) else s
  }

  /** The state after a run of some threads on an empty buffer. */
  function After(threads: nat, capacity: nat, run: seq<Action>): State {
    Exec(Next, Init(threads, capacity), run)
  }

  // ---- what every run keeps, interruptions included ------------------------------

  function Locking(): Place -> bool {
    (pc: Place) => pc.Inside? || pc.Done?
  }

  /** Between taking a token of either kind and giving one back. */
  function InFlight(): Place -> bool {
    (pc: Place) => !pc.Idle? && !pc.Asking?
  }

  /** Producers that have inserted and not yet posted. */
  function Unposted(): Place -> bool {
    (pc: Place) => (pc.Done? || pc.Posting?) && pc.side == Prod
  }

  /** Consumers that hold an item's token and have not yet removed an item. */
  function Claiming(): Place -> bool {
    (pc: Place) => (pc.Token? || pc.Refund? || pc.Inside?) && pc.side == Cons
  }

  predicate Tokens(s: State) {
    && s.mtx + Many(s.at, Locking()) == 1
    && s.tokens.prod + s.tokens.cons + Many(s.at, InFlight()) == s.capacity
    && |s.buf| == s.tokens.cons + Many(s.at, Unposted()) + Many(s.at, Claiming())
  }

  /** Threads that have done their insertion or removal and not yet left. */
  function Finishing(q: Side): Place -> bool {
    (pc: Place) => (pc.Done? || pc.Posting?) && pc.side == q
  }

  /** Every insertion and removal is that of a call completed or about to be. */
  predicate Returns(s: State) {
    && |s.enq| == s.done.prod + Many(s.at, Finishing(Prod))
    && |s.deq| == s.done.cons + Many(s.at, Finishing(Cons))
  }

  predicate Stream(s: State) {
    s.enq == s.deq + s.buf && s.overwrites == 0 && s.nulls == 0
  }

  predicate Safe(s: State) {
    |s.item| == |s.at| && Tokens(s) && Stream(s) && Returns(s)
  }

  lemma InitSafe(threads: nat, capacity: nat)
    ensures Safe(Init(threads, capacity))
  {
    var at := Init(threads, capacity).at;
    NoneSuch(at, Locking());
    NoneSuch(at, InFlight());
    NoneSuch(at, Unposted());
    NoneSuch(at, Claiming());
    NoneSuch(at, Finishing(Prod));
    NoneSuch(at, Finishing(Cons));
  }

  /** A producer at its insertion finds a gap, a consumer at its removal an item. */
  lemma Room(s: State, t: nat)
    requires Safe(s) && t < |s.at| && s.at[t].Inside?
    ensures if s.at[t].side.Prod? then |s.buf| < s.capacity else 0 < |s.buf|
  {
    if s.at[t].side.Prod? {
      Fewer(s.at, Unposted(), Claiming(), InFlight(), t);
    } else {
      NoneSuch(s.at, Claiming());
    }
  }

  lemma KeepsTokens(s: State, a: Action)
    requires Safe(s) && Taken(s, a)
    ensures Tokens(Next(s, a))
  {
    var pc := Target(s.at[a.t], a);
    ManyUpdate(s.at, a.t, pc, Locking());
    ManyUpdate(s.at, a.t, pc, InFlight());
    ManyUpdate(s.at, a.t, pc, Unposted());
    ManyUpdate(s.at, a.t, pc, Claiming());
    if s.at[a.t].Inside? {
      Room(s, a.t);
    }
  }

  lemma KeepsReturns(s: State, a: Action)
    requires Safe(s) && Taken(s, a)
    ensures Returns(Next(s, a))
  {
    var pc := Target(s.at[a.t], a);
    ManyUpdate(s.at, a.t, pc, Finishing(Prod));
    ManyUpdate(s.at, a.t, pc, Finishing(Cons));
    if s.at[a.t].Inside? {
      Room(s, a.t);
    }
  }

  lemma KeepsSafe(s: State, a: Action)
    requires Safe(s)
    ensures Safe(Next(s, a))
  {
    if Taken(s, a) {
      KeepsTokens(s, a);
      KeepsReturns(s, a);
      if s.at[a.t].Inside? {
        Room(s, a.t);
      }
    }
  }

  lemma RunSafe(threads: nat, capacity: nat, run: seq<Action>)
    ensures Safe(After(threads, capacity, run)) && After(threads, capacity, run).capacity == capacity
    ensures |After(threads, capacity, run).at| == threads
  {
    var good := (s: State) => Safe(s) && s.capacity == capacity && |s.at| == threads;
    InitSafe(threads, capacity);
    forall s, a | good(s) ensures good(Next(s, a)) {
      KeepsSafe(s, a);
    }
    AlwaysKeeps(Next, good, Init(threads, capacity), run);
  }

  /** Tokens are conserved on every run, items are neither lost, repeated nor invented, and
      every completed call stands for exactly one insertion or removal. */
  lemma Conservation(threads: nat, capacity: nat, run: seq<Action>)
    ensures var s := After(threads, capacity, run);
      && s.mtx + Many(s.at, Locking()) == 1
      && s.tokens.prod + s.tokens.cons + Many(s.at, InFlight()) == capacity
      && |s.buf| == s.tokens.cons + Many(s.at, Unposted()) + Many(s.at, Claiming())
      && s.enq == s.deq + s.buf && s.overwrites == 0 && s.nulls == 0
      && |s.enq| == s.done.prod + Many(s.at, Finishing(Prod))
      && |s.deq| == s.done.cons + Many(s.at, Finishing(Cons))
  {
    RunSafe(threads, capacity, run);
  }

  function Grow(s: State, h: Told<int>, a: Action): Told<int> {
    if !Taken(s, a) then h
    else match a {
      case Call(t, _, x) => h.Given(t, x)
      case Run(t) => if s.at[t] == Inside(Prod) then h.Inserted(t) else h
      case _ => h
    }
  }

  /** Of the states, only where the threads are and which actions are taken is looked at. */
  function ToldBy(threads: nat, capacity: nat, run: seq<Action>): Told<int> {
    Tally(Next, Grow, Init(threads, capacity), Told(seq(threads, _ => 0), []), run)
  }

  /** On every run what was removed and then what is in the buffer are the arguments of the
      writes whose insertions were made, in the order of the insertions. */
  lemma InsertsArguments(threads: nat, capacity: nat, run: seq<Action>)
    ensures var s, h := After(threads, capacity, run), ToldBy(threads, capacity, run);
      s.item == h.args && s.enq == h.inserted && s.deq + s.buf == h.inserted
  {
    var good := (s: State, h: Told<int>) => Safe(s) && s.item == h.args && s.enq == h.inserted;
    InitSafe(threads, capacity);
    forall s, h, a | good(s, h) ensures good(Next(s, a), Grow(s, h, a)) {
      KeepsSafe(s, a);
    }
    TallyKeeps(Next, Grow, good, Init(threads, capacity), Told(seq(threads, _ => 0), []), run);
  }

  /** The atomic queue a state stands for: the same one as for `ProdCons2`. */
  function Abstract(s: State): Queue<int> {
    Queue(s.capacity, s.buf, s.deq)
  }

  lemma RefinesAtomicQueue(s: State, a: Action)
    requires Safe(s)
    ensures var n := Next(s, a);
      || Abstract(n) == Abstract(s)
      || (a.Run? && s.at[a.t] == Inside(Prod) && Enqueues(Abstract(s), s.item[a.t], Abstract(n)))
      || (a.Run? && s.at[a.t] == Inside(Cons) && Dequeues(Abstract(s), n.deq[|s.deq|], Abstract(n)))
  {
    if Taken(s, a) && s.at[a.t].Inside? {
      Room(s, a.t);
    }
  }

  /** Every run is a run of the atomic queue, and so what was dequeued, and that followed by
      what is held, only grows at its end. */
  lemma RunRefinesAtomicQueue(s: State, run: seq<Action>)
    requires Safe(s)
    ensures History(Trace(Next, Abstract, s, run))
    ensures var r := Exec(Next, s, run); s.deq <= r.deq && s.deq + s.buf <= r.deq + r.buf
  {
    forall r, a | Safe(r) ensures Safe(Next(r, a)) && Step(Abstract(r), Abstract(Next(r, a))) {
      KeepsSafe(r, a);
      RefinesAtomicQueue(r, a);
    }
    Refines(Next, Safe, Abstract, s, run);
    HistoryOrder(Trace(Next, Abstract, s, run));
    TraceEnds(Next, Abstract, s, run);
  }

  /** A call that took its token and was then interrupted while it waited for the lock gives
      the token back, and leaves everything as it found it. */
  lemma InterruptUndoes(s: State, t: nat)
    requires |s.item| == |s.at| && t < |s.at| && s.at[t].Asking? && s.tokens.Of(s.at[t].side) > 0 && s.mtx == 0
    ensures Taken(Next(s, Run(t)), Interrupt(t))
    ensures Next(Next(Next(s, Run(t)), Interrupt(t)), Run(t)) == s.(at := s.at[t := Idle])
  {
    var q := s.at[t].side;
    assert s.at[t := Token(q)][t := Refund(q)] == s.at[t := Refund(q)];
    assert s.at[t := Refund(q)][t := Idle] == s.at[t := Idle];
  }

  /** When nothing can move, producers and consumers are not both asleep, consumers sleep
      before an empty buffer and producers before a full one; interruptions do no harm. */
  lemma NoDeadlock(threads: nat, capacity: nat, run: seq<Action>)
    requires capacity > 0
    requires var s := After(threads, capacity, run); forall t | 0 <= t < |s.at| :: !Taken(s, Run(t))
    ensures var s := After(threads, capacity, run);
      && (forall t | 0 <= t < |s.at| && !s.at[t].Idle? ::
            s.at[t].Asking? && |s.buf| == if s.at[t].side.Prod? then capacity else 0)
      && (forall t, u | 0 <= t < |s.at| && 0 <= u < |s.at| && !s.at[t].Idle? && !s.at[u].Idle? ::
            s.at[t] == s.at[u])
  {
    var s := After(threads, capacity, run);
    RunSafe(threads, capacity, run);
    forall t | 0 <= t < |s.at| ensures !Locking()(s.at[t]) {
      assert !Taken(s, Run(t));
    }
    NoneSuch(s.at, Locking());
    forall t | 0 <= t < |s.at| ensures s.at[t].Idle? || (s.at[t].Asking? && s.tokens.Of(s.at[t].side) == 0) {
      assert !Taken(s, Run(t));
    }
    NoneSuch(s.at, InFlight());
    NoneSuch(s.at, Unposted());
    NoneSuch(s.at, Claiming());
  }
}
