/** The blocking FIFO entry: `open` waits for the other side, `read` and `write` move whole
    blocks of bytes through the circular buffer, `release` wakes the other side and the
    last one out empties the buffer.

    Each thread owns at most one descriptor, opened for reading or for writing.  Runs are
    lists of actions of any number of threads; an action its thread cannot take changes
    nothing.  An interruption can strike at every `down_interruptible` that finds no permit. */
module FifoProc {
  import opened Counting
  import opened Monitors
  import opened Rings
  import opened Runs

  newtype Byte = x | 0 <= x < 256

  datatype Op = NoOp | Open | Release | Read(len: nat) | Write(data: seq<Byte>) {
    predicate OpensOrCloses() {
      Open? || Release?
    }
  }

  datatype Fd = Closed | Opened(side: Side)

  /** `buf` is the contents of the circular buffer and `count` the two open counts.  The
      rest is history: `leaked` counts opens and releases that failed after, or before,
      they should have updated a count; `accepted` the blocks written, `taken` the blocks
      removed and `returned` the blocks given to readers since the buffer was last cleared;
      `overwrites` the bulk insertions made without room, `phantoms` the reads that
      returned a block though nothing was removed, `epoch` the number of clearings. */
  datatype State = State(
    m: Monitor, op: seq<Op>, fd: seq<Fd>, count: Both<int>, capacity: nat, buf: seq<Byte>,
    leaked: Both<nat>, accepted: seq<seq<Byte>>, taken: seq<seq<Byte>>, returned: seq<seq<Byte>>,
    overwrites: nat, phantoms: nat, epoch: nat)

  datatype Action = Begin(t: nat, side: Side, op: Op) | Run(t: nat) | Interrupt(t: nat)

  function Init(threads: nat, capacity: nat): State {
    State(Start(threads), seq(threads, _ => NoOp), seq(threads, _ => Closed), Both(0, 0), capacity, [],
          Both(0, 0), [], [], [], 0, 0, 0)
  }

  predicate Sized(s: State) {
    |s.op| == |s.fd| == |s.m.at|
  }

  // ---- the four calls ------------------------------------------------------------

  /** How full the buffer is and who has it open, which is all that the waits depend on. */
  datatype Gauge = Gauge(capacity: nat, size: nat, count: Both<int>)

  function GaugeOf(s: State): Gauge {
    Gauge(s.capacity, |s.buf|, s.count)
  }

  /** The condition of the `while` loop of each call. */
  predicate Waits(op: Op, q: Side, g: Gauge) {
    match op {
      case Open => g.count.Of(q.Other()) == 0
      case Read(len) => g.size < len && g.count.prod > 0
      case Write(data) => g.capacity - g.size < |data| && g.count.cons > 0
      case _ => false
    }
  }

  predicate MustWait(s: State, op: Op, q: Side) {
    Waits(op, q, GaugeOf(s))
  }

  /** A read at end of stream, or a write nobody will read, returns from its section at once. */
  predicate Ends(op: Op, g: Gauge) {
    (op.Read? && g.count.prod == 0 && g.size == 0) || (op.Write? && g.count.cons == 0)
  }

  predicate GivesUp(s: State, op: Op) {
    Ends(op, GaugeOf(s))
  }

  /** `open` and `release` wake the other side first and then test; the rest test first. */
  function AfterWaking(op: Op, q: Side): Pc {
    if op.OpensOrCloses() then Testing(q) else Exiting(q)
  }

  /** The next move of a thread in a call. */
  function MoveAt(pc: Pc, op: Op, l: Locks, g: Gauge): Move {
    match pc {
      case Entering(q) => Lock(if op.OpensOrCloses() then Working(q) else Testing(q))
      case Testing(q) => if Waits(op, q, g) then Sleep else Pass(if op.OpensOrCloses() then Exiting(q) else Working(q))
      case Working(q) => Pass(if Ends(op, g) then Exiting(q) else Waking(q))
      case Waking(q) => if l.waiting.Of(q.Other()) > 0 then Signal else Pass(AfterWaking(op, q))
      case Discounting(q) => Discount(AfterWaking(op, q))
      case _ => Routine(pc)
    }
  }

  function MoveOf(s: State, t: nat): Move
    requires Sized(s) && t < |s.m.at|
  {
    MoveAt(s.m.at[t], s.op[t], LocksOf(s.m), GaugeOf(s))
  }

  function MoveIn(s: State, a: Action): Move
    requires Sized(s) && a.t < |s.m.at|
  {
    match a {
      case Begin(_, q, _) => Call(q)
      case Run(t) => MoveOf(s, t)
      case Interrupt(t) => InterruptOf(s.m.at[t])
    }
  }

  /** A closed descriptor can only be opened; reads and writes longer than the buffer are
      refused at once. */
  predicate MayBegin(s: State, fd: Fd, q: Side, op: Op) {
    match op {
      case NoOp => false
      case Open => fd == Closed
      case Release => fd == Opened(q)
      case Read(len) => fd == Opened(q) && q == Cons && len <= s.capacity
      case Write(data) => fd == Opened(q) && q == Prod && |data| <= s.capacity
    }
  }

  predicate Taken(s: State, a: Action) {
    Sized(s) && a.t < |s.m.at| && Enabled(s.m, a.t, MoveIn(s, a)) && (a.Begin? ==> MayBegin(s, s.fd[a.t], a.side, a.op))
  }

  function Zeros(n: nat): seq<Byte> {
    seq(n, _ => 0)
  }

  /** The critical section of a call, after its loop. */
  function Work(s: State, t: nat, q: Side): (r: State)
    requires Sized(s) && t < |s.fd|
    ensures r.m == s.m && r.op == s.op && |r.fd| == |s.fd| && r.capacity == s.capacity
  {
    match s.op[t] {
      case Open => s.(count := s.count.With(q, s.count.Of(q) + 1), fd := s.fd[t := Opened(q)])
      case Release => s.(count := s.count.With(q, s.count.Of(q) - 1), fd := s.fd[t := Closed])
      case Read(len) =>
        if GivesUp(s, s.op[t]) then s
        else if len > |s.buf| then s.(returned := s.returned + [Zeros(len)], phantoms := s.phantoms + 1)
        else s.(buf := s.buf[len..], taken := s.taken + [s.buf[..len]], returned := s.returned + [s.buf[..len]])
      case Write(data) =>
        if GivesUp(s, s.op[t]) then s
        else s.(buf := Newest(s.buf + data, s.capacity), accepted := s.accepted + [data],
                overwrites := s.overwrites + if |s.buf| + |data| <= s.capacity then 0 else 1)
      case NoOp => s
    }
  }

  /** The end of `release`: the last one out clears the buffer. */
  function ClearIfUnused(s: State): State {
    if s.count != Both(0, 0) then s
    else s.(buf := [], accepted := [], taken := [], returned := [], epoch := s.epoch + 1)
  }

  /** A failed open or release loses its descriptor without updating the count back. */
  function Leak(s: State, t: nat, q: Side): State
    requires Sized(s) && t < |s.fd|
  {
    s.(fd := s.fd[t := Closed], leaked := Inc(s.leaked, q))
  }

  /** What an action does beside the monitor. */
  function Effect(s: State, a: Action): (r: State)
    requires Sized(s) && a.t < |s.m.at|
    ensures Sized(r) && r.m == s.m && r.capacity == s.capacity
  {
    var pc, op := s.m.at[a.t], s.op[a.t];
    match a {
      case Begin(t, _, op') => s.(op := s.op[t := op'])
      case Run(t) =>
        if pc.Working? then Work(s, t, pc.side)
        else if pc.Testing? && op.Release? then ClearIfUnused(s)
        else if pc.Leaving? && op.Open? then Leak(s, t, pc.side)
        else s
      case Interrupt(t) =>
        if (pc.Entering? && op.Release?) || (pc.Woken? && op.Open?) then Leak(s, t, pc.side) else s
    }
  }

  function Next(s: State, a: Action): (r: State)
    ensures (Sized(s) ==> Sized(r)) && |r.m.at| == |s.m.at| && r.capacity == s.capacity
  {
    if Taken(s, a) then Effect(s, a).(m := Apply(s.m, a.t, MoveIn(s, a))) else s
  }

  /** The state after a run of some threads on an empty FIFO. */
  function After(threads: nat, capacity: nat, run: seq<Action>): (s: State)
    ensures Sized(s) && |s.m.at| == threads && s.capacity == capacity
  {
    var shaped := (s: State) => Sized(s) && |s.m.at| == threads && s.capacity == capacity;
    AlwaysKeeps(Next, shaped, Init(threads, capacity), run);
    Exec(Next, Init(threads, capacity), run)
  }

  // ---- what every run keeps, interruptions included --------------------------------

  /** Each call is made on the right side, and its thread holds its descriptor from the
      moment `open` counts it to the moment `release` discounts it. */
  predicate CallOk(pc: Pc, op: Op, fd: Fd) {
    pc.Outside? || match op {
      case NoOp => false
      case Open => fd == if pc.Entering? || pc.Working? then Closed else Opened(pc.side)
      case Release =>
        && !pc.Counted? && !pc.Queued? && !pc.Woken? && !pc.Bailing? && !pc.Uncounting? && !pc.Leaving?
        && fd == if pc.Entering? || pc.Working? then Opened(pc.side) else Closed
      case Read(_) => fd == Opened(Cons) && pc.side == Cons
      case Write(_) => fd == Opened(Prod) && pc.side == Prod
    }
  }

  predicate CallsOk(s: State)
    requires Sized(s)
  {
    forall t | 0 <= t < |s.m.at| :: CallOk(s.m.at[t], s.op[t], s.fd[t])
  }

  /** The open counts are the descriptors held plus the ones leaked. */
  predicate Counts(s: State) {
    && s.count.prod == Many(s.fd, At(Opened(Prod))) + s.leaked.prod
    && s.count.cons == Many(s.fd, At(Opened(Cons))) + s.leaked.cons
  }

  /** A thread that has passed its loop finds its condition still false. */
  predicate Ready(s: State)
    requires Sized(s)
  {
    forall t | 0 <= t < |s.m.at| && s.m.at[t].Working? && !s.op[t].OpensOrCloses() ::
      !MustWait(s, s.op[t], s.m.at[t].side)
  }

  /** What was accepted is what was taken and then what is in the buffer; no insertion
      overwrote. */
  predicate Stream(s: State) {
    && |s.buf| <= s.capacity
    && Concat(s.accepted) == Concat(s.taken) + s.buf
    && s.overwrites == 0
  }

  predicate Safe(s: State) {
    Sized(s) && Inv(s.m) && CallsOk(s) && Counts(s) && Ready(s) && Stream(s)
  }

  lemma InitSafe(threads: nat, capacity: nat)
    ensures Safe(Init(threads, capacity))
  {
    StartInv(threads);
    NoneSuch(Init(threads, capacity).fd, At(Opened(Prod)));
    NoneSuch(Init(threads, capacity).fd, At(Opened(Cons)));
  }

  lemma MovesCallOk(s: State, a: Action)
    requires Taken(s, a) && CallOk(s.m.at[a.t], s.op[a.t], s.fd[a.t])
    ensures var r := Effect(s, a); CallOk(Target(s.m.at[a.t], MoveIn(s, a)), r.op[a.t], r.fd[a.t])
  {
  }

  lemma OthersUntouched(s: State, a: Action, u: nat)
    requires Taken(s, a) && u < |s.m.at| && u != a.t
    ensures var n := Next(s, a); n.m.at[u] == s.m.at[u] && n.op[u] == s.op[u] && n.fd[u] == s.fd[u]
  {
  }

  lemma KeepsCallsOk(s: State, a: Action)
    requires Taken(s, a) && CallsOk(s)
    ensures CallsOk(Next(s, a))
  {
    var n := Next(s, a);
    MovesCallOk(s, a);
    forall t | 0 <= t < |n.m.at| && t != a.t ensures CallOk(n.m.at[t], n.op[t], n.fd[t]) {
      OthersUntouched(s, a, t);
      assert CallOk(s.m.at[t], s.op[t], s.fd[t]);
    }
  }

  /** How a step changes its thread's descriptor, an open count and a leak together. */
  lemma MovesCount(s: State, a: Action, q: Side)
    requires Taken(s, a) && CallOk(s.m.at[a.t], s.op[a.t], s.fd[a.t])
    ensures var r, was, now := Effect(s, a), s.fd[a.t], Effect(s, a).fd[a.t];
      && r.fd == s.fd[a.t := now]
      && r.count.Of(q) - r.leaked.Of(q) - (if now == Opened(q) then 1 else 0)
         == s.count.Of(q) - s.leaked.Of(q) - (if was == Opened(q) then 1 else 0)
  {
  }

  lemma KeepsCounts(s: State, a: Action)
    requires Safe(s) && Taken(s, a)
    ensures Counts(Effect(s, a))
  {
    var t := a.t;
    assert CallOk(s.m.at[t], s.op[t], s.fd[t]);
    var fd := Effect(s, a).fd[t];
    MovesCount(s, a, Prod);
    MovesCount(s, a, Cons);
    ManyUpdate(s.fd, t, fd, At(Opened(Prod)));
    ManyUpdate(s.fd, t, fd, At(Opened(Cons)));
  }

  /** Only the holder of the lock changes the buffer or the counts. */
  lemma HolderChanges(s: State, a: Action)
    requires Taken(s, a) && !s.m.at[a.t].Holds()
    ensures Effect(s, a).buf == s.buf && Effect(s, a).count == s.count
  {
  }

  lemma PassesTest(s: State, a: Action)
    requires Taken(s, a) && Next(s, a).m.at[a.t].Working? && !Next(s, a).op[a.t].OpensOrCloses()
    ensures var n := Next(s, a); !MustWait(n, n.op[a.t], n.m.at[a.t].side)
  {
  }

  lemma KeepsReady(s: State, a: Action)
    requires Taken(s, a) && Ready(s) && OneHolder(s.m)
    ensures Ready(Next(s, a))
  {
    var n := Next(s, a);
    forall u | 0 <= u < |n.m.at| && n.m.at[u].Working? && !n.op[u].OpensOrCloses()
      ensures !MustWait(n, n.op[u], n.m.at[u].side)
    {
      if u == a.t {
        PassesTest(s, a);
      } else {
        if s.m.at[a.t].Holds() {
          OnlyHolder(s.m, a.t, u);
        }
        HolderChanges(s, a);
      }
    }
  }

  lemma WorkStream(s: State, t: nat, q: Side)
    requires Sized(s) && t < |s.fd| && Stream(s)
    requires s.op[t].Write? && !GivesUp(s, s.op[t]) ==> |s.op[t].data| <= s.capacity - |s.buf|
    ensures Stream(Work(s, t, q))
  {
    match s.op[t] {
      case Read(len) =>
        if len <= |s.buf| {
          ConcatAppend(s.taken, s.buf[..len]);
          assert Concat(s.taken) + s.buf == (Concat(s.taken) + s.buf[..len]) + s.buf[len..];
        }
      case Write(data) =>
        ConcatAppend(s.accepted, data);
        assert (Concat(s.taken) + s.buf) + data == Concat(s.taken) + (s.buf + data);
      case _ =>
    }
  }

  lemma KeepsStream(s: State, a: Action)
    requires Safe(s) && Taken(s, a)
    ensures Stream(Effect(s, a))
  {
    if a.Run? && s.m.at[a.t].Working? {
      CountsNotNegative(s);
      WorkStream(s, a.t, s.m.at[a.t].side);
    }
  }

  lemma CountsNotNegative(s: State)
    requires Safe(s)
    ensures s.count.prod >= 0 && s.count.cons >= 0
  {
  }

  lemma KeepsSafe(s: State, a: Action)
    requires Safe(s)
    ensures Safe(Next(s, a))
  {
    if Taken(s, a) {
      KeepsInv(s.m, a.t, MoveIn(s, a));
      KeepsCallsOk(s, a);
      KeepsCounts(s, a);
      KeepsReady(s, a);
      KeepsStream(s, a);
    }
  }

  lemma RunSafe(threads: nat, capacity: nat, run: seq<Action>)
    ensures Safe(After(threads, capacity, run))
  {
    InitSafe(threads, capacity);
    forall s, a | Safe(s) ensures Safe(Next(s, a)) {
      KeepsSafe(s, a);
    }
    AlwaysKeeps(Next, Safe, Init(threads, capacity), run);
  }

  /** The byte stream is preserved on every run of any number of threads, whatever is
      interrupted: since the last clearing, accepted bytes are taken bytes followed by the
      buffer, and no bulk insertion ever met its overwriting case. */
  lemma StreamSafety(threads: nat, capacity: nat, run: seq<Action>)
    ensures var s := After(threads, capacity, run);
      Concat(s.accepted) == Concat(s.taken) + s.buf && |s.buf| <= capacity && s.overwrites == 0
  {
    RunSafe(threads, capacity, run);
  }

  /** The semaphore accounting on every run, interruptions included. */
  lemma Accounting(threads: nat, capacity: nat, run: seq<Action>, q: Side)
    ensures var m := After(threads, capacity, run).m;
      && m.mtx + Many(m.at, Holding()) == 1
      && m.permits.Of(q) + m.waiting.Of(q) == Many(m.at, Owing(q))
      && m.waiting.Of(q) + m.bailed.Of(q) >= 0
  {
    RunSafe(threads, capacity, run);
    assert Accounts(After(threads, capacity, run).m, q);
  }

  /** The open counts on every run: a side's count is the descriptors held on it plus those
      lost by interrupted opens and releases, so it is never negative. */
  lemma OpenCounts(threads: nat, capacity: nat, run: seq<Action>, q: Side)
    ensures var s := After(threads, capacity, run);
      s.count.Of(q) == Many(s.fd, At(Opened(q))) + s.leaked.Of(q)
  {
    RunSafe(threads, capacity, run);
    assert Counts(After(threads, capacity, run));
  }

  predicate Undisturbed(s: State) {
    Safe(s) && Calm(s.m) && s.leaked == Both(0, 0)
  }

  lemma KeepsCalmNext(s: State, a: Action)
    requires Sized(s) && Calm(s.m) && s.leaked == Both(0, 0) && !a.Interrupt? && Taken(s, a)
    ensures Calm(Next(s, a).m) && Next(s, a).leaked == Both(0, 0)
  {
    KeepsCalm(s.m, a.t, MoveIn(s, a));
  }

  predicate Uninterrupted(s: State, a: Action) {
    !a.Interrupt?
  }

  lemma KeepsUndisturbed(s: State, a: Action)
    requires Undisturbed(s) && Uninterrupted(s, a)
    ensures Undisturbed(Next(s, a))
  {
    KeepsSafe(s, a);
    if Taken(s, a) {
      KeepsCalmNext(s, a);
    }
  }

  /** Without interruptions nothing is lost or leaked and the counters are never negative. */
  lemma InterruptFree(threads: nat, capacity: nat, run: seq<Action>)
    requires Throughout(Next, Uninterrupted, Init(threads, capacity), run)
    ensures var s := After(threads, capacity, run);
      Calm(s.m) && s.leaked == Both(0, 0) && s.m.waiting.prod >= 0 && s.m.waiting.cons >= 0
  {
    InitSafe(threads, capacity);
    StartInv(threads);
    forall s, a | Undisturbed(s) && Uninterrupted(s, a) ensures Undisturbed(Next(s, a)) {
      KeepsUndisturbed(s, a);
    }
    Keeps(Next, Uninterrupted, Undisturbed, Init(threads, capacity), run);
  }

  lemma WorkGrows(s: State, t: nat, q: Side)
    requires Sized(s) && t < |s.fd|
    ensures var r := Work(s, t, q);
      r.epoch == s.epoch && s.accepted <= r.accepted && s.taken <= r.taken && s.returned <= r.returned
  {
  }

  /** r comes after s, and unless the buffer was cleared in between its blocks extend those
      of s. */
  predicate Grown(s: State, r: State) {
    && s.epoch <= r.epoch
    && (r.epoch == s.epoch ==> s.accepted <= r.accepted && s.taken <= r.taken && s.returned <= r.returned)
  }

  lemma GrowsNext(s: State, a: Action)
    ensures Grown(s, Next(s, a))
  {
    if Taken(s, a) && a.Run? && s.m.at[a.t].Working? {
      WorkGrows(s, a.t, s.m.at[a.t].side);
    }
  }

  /** From any state to any later one with no clearing in between, blocks are only added. */
  lemma OnlyGrows(s: State, run: seq<Action>)
    ensures var r := Exec(Next, s, run);
      && s.epoch <= r.epoch
      && (r.epoch == s.epoch ==> s.accepted <= r.accepted && s.taken <= r.taken && s.returned <= r.returned)
  {
    var later := (r: State) => Grown(s, r);
    forall r, a | later(r) ensures later(Next(r, a)) {
      GrowsNext(r, a);
    }
    AlwaysKeeps(Next, later, s, run);
  }

  lemma ClearsAtZero(s: State, a: Action)
    requires Next(s, a).epoch != s.epoch
    ensures s.count == Both(0, 0)
  {
    if Taken(s, a) && a.Run? && s.m.at[a.t].Working? {
      WorkGrows(s, a.t, s.m.at[a.t].side);
    }
  }

  /** The buffer is cleared only when every descriptor is closed and none was leaked,
      whatever the open counts say. */
  lemma ClearedOnlyWhenUnused(s: State, a: Action)
    requires Safe(s) && Next(s, a).epoch != s.epoch
    ensures s.leaked == Both(0, 0) && forall t | 0 <= t < |s.fd| :: s.fd[t] == Closed
  {
    ClearsAtZero(s, a);
    AllClosed(s);
  }

  lemma AllClosed(s: State)
    requires Counts(s) && s.count == Both(0, 0)
    ensures s.leaked == Both(0, 0) && forall t | 0 <= t < |s.fd| :: s.fd[t] == Closed
  {
    NoneSuch(s.fd, At(Opened(Prod)));
    NoneSuch(s.fd, At(Opened(Cons)));
    assert s.count.prod == 0 && s.count.cons == 0;
    forall t | 0 <= t < |s.fd| ensures s.fd[t] == Closed {
      assert !At(Opened(Prod))(s.fd[t]) && !At(Opened(Cons))(s.fd[t]);
      FdCases(s.fd[t]);
    }
  }

  lemma FdCases(fd: Fd)
    ensures fd == Closed || fd == Opened(Prod) || fd == Opened(Cons)
  {
    match fd {
      case Closed =>
      case Opened(Prod) =>
      case Opened(Cons) =>
    }
  }

  /** In a release that has discounted its descriptor and not yet tested for the last one. */
  predicate Closing(pc: Pc, op: Op) {
    op.Release? && (pc.Waking? || pc.Discounting? || pc.Testing?)
  }

  /** With both counts zero the buffer is empty, unless a release is about to clear it. */
  predicate EmptyUnused(s: State)
    requires Sized(s)
  {
    s.count == Both(0, 0) && (forall t | 0 <= t < |s.m.at| :: !Closing(s.m.at[t], s.op[t])) ==> s.buf == []
  }

  lemma StepLeavesEmpty(s: State, a: Action)
    requires Taken(s, a) && CallOk(s.m.at[a.t], s.op[a.t], s.fd[a.t]) && s.count.prod >= 0 && s.count.cons >= 0
    requires s.fd[a.t].Opened? ==> s.count.Of(s.fd[a.t].side) > 0
    requires Next(s, a).count == Both(0, 0) && !Closing(Next(s, a).m.at[a.t], Next(s, a).op[a.t])
    ensures Next(s, a).buf == []
            || (Next(s, a).buf == s.buf && s.count == Both(0, 0) && !Closing(s.m.at[a.t], s.op[a.t]))
  {
  }

  lemma HeldIsCounted(s: State, t: nat)
    requires Counts(s) && t < |s.fd| && s.fd[t].Opened?
    ensures s.count.Of(s.fd[t].side) > 0
  {
    assert At(s.fd[t])(s.fd[t]);
    NoneSuch(s.fd, At(s.fd[t]));
    FdCases(s.fd[t]);
  }

  lemma KeepsEmptyUnused(s: State, a: Action)
    requires Safe(s) && EmptyUnused(s)
    ensures EmptyUnused(Next(s, a))
  {
    if Taken(s, a) {
      var n := Next(s, a);
      assert CallOk(s.m.at[a.t], s.op[a.t], s.fd[a.t]);
      CountsNotNegative(s);
      if n.count == Both(0, 0) && forall t | 0 <= t < |n.m.at| :: !Closing(n.m.at[t], n.op[t]) {
        if s.fd[a.t].Opened? {
          HeldIsCounted(s, a.t);
        }
        StepLeavesEmpty(s, a);
        forall t | 0 <= t < |s.m.at| && t != a.t ensures !Closing(s.m.at[t], s.op[t]) {
          OthersUntouched(s, a, t);
          assert !Closing(n.m.at[t], n.op[t]);
        }
      }
    }
  }

  /** The last one out does clear the buffer: on every run, interruptions included, with both
      open counts zero the buffer is empty unless a release is about to make it so. */
  lemma ClearedWhenUnused(threads: nat, capacity: nat, run: seq<Action>)
    ensures var s := After(threads, capacity, run);
      s.count == Both(0, 0) && (forall t | 0 <= t < threads ::
        !(s.op[t].Release? && (s.m.at[t].Waking? || s.m.at[t].Discounting? || s.m.at[t].Testing?)))
      ==> s.buf == []
  {
    var good := (s: State) => Safe(s) && EmptyUnused(s);
    InitSafe(threads, capacity);
    forall s, a | good(s) ensures good(Next(s, a)) {
      KeepsSafe(s, a);
      KeepsEmptyUnused(s, a);
    }
    AlwaysKeeps(Next, good, Init(threads, capacity), run);
    var s := After(threads, capacity, run);
    assert forall t | 0 <= t < threads :: Closing(s.m.at[t], s.op[t]) <==>
      (s.op[t].Release? && (s.m.at[t].Waking? || s.m.at[t].Discounting? || s.m.at[t].Testing?));
  }

  /** A thread that cannot move does not hold the lock, and when the lock is free it is
      between calls or asleep without a permit. */
  lemma StuckThread(s: State, t: nat)
    requires Sized(s) && t < |s.m.at| && !Taken(s, Run(t))
    ensures !s.m.at[t].Holds()
    ensures s.m.mtx > 0 ==> s.m.at[t].Outside? || (s.m.at[t].Queued? && s.m.permits.Of(s.m.at[t].side) == 0)
  {
  }
}
