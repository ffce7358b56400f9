/** A monitor built from semaphores, as the kernel modules build it.

    A binary semaphore `mtx` is the lock.  Each of two condition queues is a semaphore
    created with no permits plus a counter of the threads that said they would wait on it.
    To wait, a thread counts itself, frees the lock, and downs the queue semaphore; to
    signal, the lock's holder ups the other side's queue if its counter is positive and
    then decrements the counter.  Three of the downs are interruptible: one that finds a
    permit takes it, so an interruption strikes only where the semaphore has none.

    A client decides when to wait, work and signal; whatever it decides, the laws proved
    here hold, because they are kept by every single move of every thread.  Each semaphore
    operation and each counter update is a move of its own.
 */
module Monitors {
  import opened Counting

  /** The two roles; a thread waits on its own side's queue and signals the other's. */
  datatype Side = Prod | Cons {
    function Other(): Side {
      if Prod? then Cons else Prod
    }
  }

  datatype Both<T> = Both(prod: T, cons: T) {
    function Of(q: Side): T {
      if q.Prod? then prod else cons
    }
    function With(q: Side, v: T): Both<T> {
      if q.Prod? then Both(v, cons) else Both(prod, v)
    }
  }

  /** Where a thread is, with the side it is calling as. */
  datatype Pc =
    | Outside
    | Entering(side: Side)    // at the first down_interruptible(&mtx)
    | Testing(side: Side)     // has the lock, at the while test
    | Counted(side: Side)     // has the lock, has counted itself as waiting
    | Queued(side: Side)      // at down_interruptible(&queue)
    | Woken(side: Side)       // got a permit, at the second down_interruptible(&mtx)
    | Bailing(side: Side)     // interrupted in the queue, at down(&mtx)
    | Uncounting(side: Side)  // has the lock, about to take itself off the counter
    | Leaving(side: Side)     // has the lock, about to free it and return -EINTR
    | Working(side: Side)     // has the lock, at the body of the critical section
    | Waking(side: Side)      // has the lock, at the test of the other side's counter
    | Discounting(side: Side) // has the lock, has upped the other queue, counter not yet updated
    | Exiting(side: Side)     // has the lock, about to free it and return
  {
    predicate Holds() {
      Testing? || Counted? || Uncounting? || Leaving? || Working? || Waking? || Discounting? || Exiting?
    }
  }

  datatype Move =
    | Call(side: Side) | Lock(to: Pc) | Pass(to: Pc)
    | Sleep | Release | Wake | Relock
    | BailLock | Uncount | Unlock
    | Signal | Discount(to: Pc)
    | InterruptCall | InterruptQueue | InterruptRelock
  {
    predicate Interrupt() {
      InterruptCall? || InterruptQueue? || InterruptRelock?
    }
  }

  /** `lost` counts the threads interrupted after they took a permit, `bailed` those that
      took themselves off the counter; both are history, no move depends on them. */
  datatype Monitor = Monitor(
    mtx: nat, permits: Both<nat>, waiting: Both<int>, at: seq<Pc>, lost: Both<nat>, bailed: Both<nat>)

  function Holding(): Pc -> bool {
    (pc: Pc) => pc.Holds()
  }

  function Start(threads: nat): Monitor {
    Monitor(1, Both(0, 0), Both(0, 0), seq(threads, _ => Outside), Both(0, 0), Both(0, 0))
  }

  /** The semaphores and counters, which are all that decides whether a thread can move. */
  datatype Locks = Locks(mtx: nat, permits: Both<nat>, waiting: Both<int>)

  function LocksOf(m: Monitor): Locks {
    Locks(m.mtx, m.permits, m.waiting)
  }

  /** A move a thread at pc can make. */
  predicate Possible(pc: Pc, l: Locks, a: Move) {
    match a {
      case Call(_) => pc.Outside?
      case Lock(to) => pc.Entering? && l.mtx > 0 && (to == Testing(pc.side) || to == Working(pc.side))
      case Pass(to) => (pc.Testing? || pc.Working? || pc.Waking?) &&
                       (to == Testing(pc.side) || to == Working(pc.side) || to == Waking(pc.side)
                        || to == Exiting(pc.side))
      case Sleep => pc.Testing?
      case Release => pc.Counted?
      case Wake => pc.Queued? && l.permits.Of(pc.side) > 0
      case Relock => pc.Woken? && l.mtx > 0
      case BailLock => pc.Bailing? && l.mtx > 0
      case Uncount => pc.Uncounting?
      case Unlock => pc.Leaving? || pc.Exiting?
      case Signal => pc.Waking? && l.waiting.Of(pc.side.Other()) > 0
      case Discount(to) => pc.Discounting? && (to == Testing(pc.side) || to == Exiting(pc.side))
      case InterruptCall => pc.Entering? && l.mtx == 0
      case InterruptQueue => pc.Queued? && l.permits.Of(pc.side) == 0
      case InterruptRelock => pc.Woken? && l.mtx == 0
    }
  }

  predicate Enabled(m: Monitor, t: nat, a: Move) {
    t < |m.at| && Possible(m.at[t], LocksOf(m), a)
  }

  /** Where the move takes its thread. */
  function Target(pc: Pc, a: Move): Pc
    requires pc.Outside? ==> a.Call?
  {
    match a {
      case Call(q) => Entering(q)
      case Lock(to) => to
      case Pass(to) => to
      case Sleep => Counted(pc.side)
      case Release => Queued(pc.side)
      case Wake => Woken(pc.side)
      case Relock => Testing(pc.side)
      case BailLock => Uncounting(pc.side)
      case Uncount => Leaving(pc.side)
      case Unlock => Outside
      case Signal => Discounting(pc.side)
      case Discount(to) => to
      case InterruptCall => Outside
      case InterruptQueue => Bailing(pc.side)
      case InterruptRelock => Outside
    }
  }

  /** The next move of a thread whose place leaves its client no choice. */
  function Routine(pc: Pc): Move {
    match pc {
      case Counted(_) => Release
      case Queued(_) => Wake
      case Woken(_) => Relock
      case Bailing(_) => BailLock
      case Uncounting(_) => Uncount
      case _ => Unlock
    }
  }

  function InterruptOf(pc: Pc): Move {
    if pc.Entering? then InterruptCall else if pc.Queued? then InterruptQueue else InterruptRelock
  }

  function Inc(b: Both<nat>, q: Side): Both<nat> {
    b.With(q, b.Of(q) + 1)
  }

  /** What the move does to the semaphores and counters. */
  function Moved(pc: Pc, l: Locks, a: Move): Locks
    requires Possible(pc, l, a)
  {
    match a {
      case Lock(_) => l.(mtx := l.mtx - 1)
      case Relock => l.(mtx := l.mtx - 1)
      case BailLock => l.(mtx := l.mtx - 1)
      case Release => l.(mtx := l.mtx + 1)
      case Unlock => l.(mtx := l.mtx + 1)
      case Sleep => l.(waiting := l.waiting.With(pc.side, l.waiting.Of(pc.side) + 1))
      case Wake => l.(permits := l.permits.With(pc.side, l.permits.Of(pc.side) - 1))
      case Uncount => l.(waiting := l.waiting.With(pc.side, l.waiting.Of(pc.side) - 1))
      case Signal => l.(permits := Inc(l.permits, pc.side.Other()))
      case Discount(_) => l.(waiting := l.waiting.With(pc.side.Other(), l.waiting.Of(pc.side.Other()) - 1))
      case _ => l
    }
  }

  function Apply(m: Monitor, t: nat, a: Move): (n: Monitor)
    requires Enabled(m, t, a)
    ensures |n.at| == |m.at|
  {
    var pc := m.at[t];
    var l := Moved(pc, LocksOf(m), a);
    Monitor(l.mtx, l.permits, l.waiting, m.at[t := Target(pc, a)],
            if a.InterruptRelock? then Inc(m.lost, pc.side) else m.lost,
            if a.Uncount? then Inc(m.bailed, pc.side) else m.bailed)
  }

  // ---- what every run keeps ---------------------------------------------------

  /** Free permits of the lock plus its holders make one. */
  predicate OneHolder(m: Monitor) {
    m.mtx + Many(m.at, Holding()) == 1
  }

  /** A thread that has counted itself and not taken a permit, or whose half of a handshake
      is still to come: bailing but not yet off the counter, or having upped the queue but
      not yet discounted. */
  function Owing(q: Side): Pc -> bool {
    (pc: Pc) => match pc {
      case Counted(side) => side == q
      case Queued(side) => side == q
      case Bailing(side) => side == q
      case Uncounting(side) => side == q
      case Discounting(side) => side != q
      case _ => false
    }
  }

  /** Permits of a queue plus its counter are the threads owing to it. */
  predicate Accounts(m: Monitor, q: Side) {
    m.permits.Of(q) + m.waiting.Of(q) == Many(m.at, Owing(q))
  }

  /** A signaller that has not yet discounted still sees the counter positive. */
  predicate Guarded(m: Monitor) {
    forall t | 0 <= t < |m.at| && m.at[t].Discounting? :: m.waiting.Of(m.at[t].side.Other()) > 0
  }

  predicate Inv(m: Monitor) {
    && OneHolder(m)
    && Accounts(m, Prod) && Accounts(m, Cons)
    && Guarded(m)
    && m.waiting.prod + m.bailed.prod >= 0
    && m.waiting.cons + m.bailed.cons >= 0
  }

  /** No thread has been interrupted, or is on its way out because it was. */
  predicate Calm(m: Monitor) {
    && m.lost == Both(0, 0) && m.bailed == Both(0, 0)
    && forall t | 0 <= t < |m.at| :: !m.at[t].Bailing? && !m.at[t].Uncounting? && !m.at[t].Leaving?
  }

  /** The lock excludes: two holders are one thread. */
  lemma OnlyHolder(m: Monitor, t: nat, u: nat)
    requires OneHolder(m) && t < |m.at| && u < |m.at| && m.at[t].Holds() && m.at[u].Holds()
    ensures t == u && m.mtx == 0
  {
    OnlyOne(m.at, Holding(), t, u);
  }

  /** When nobody holds the lock it is free. */
  lemma FreeLock(m: Monitor)
    requires OneHolder(m) && forall t | 0 <= t < |m.at| :: !m.at[t].Holds()
    ensures m.mtx == 1
  {
    NoneSuch(m.at, Holding());
  }

  lemma StartInv(threads: nat)
    ensures Inv(Start(threads)) && Calm(Start(threads))
  {
    var m := Start(threads);
    NoneSuch(m.at, Holding());
    NoneSuch(m.at, Owing(Prod));
    NoneSuch(m.at, Owing(Cons));
  }

  lemma KeepsOneHolder(m: Monitor, t: nat, a: Move)
    requires Inv(m) && Enabled(m, t, a)
    ensures OneHolder(Apply(m, t, a))
  {
    ManyUpdate(m.at, t, Target(m.at[t], a), Holding());
  }

  /** What a move adds to a queue's permits and counter is what its thread newly owes. */
  lemma Balance(m: Monitor, t: nat, a: Move, q: Side)
    requires Enabled(m, t, a)
    ensures var n := Apply(m, t, a);
      n.permits.Of(q) + n.waiting.Of(q) + (if Owing(q)(m.at[t]) then 1 else 0)
      == m.permits.Of(q) + m.waiting.Of(q) + (if Owing(q)(n.at[t]) then 1 else 0)
  {
  }

  lemma KeepsAccounts(m: Monitor, t: nat, a: Move, q: Side)
    requires Inv(m) && Enabled(m, t, a)
    ensures Accounts(Apply(m, t, a), q)
  {
    assert Accounts(m, q);
    Balance(m, t, a, q);
    ManyUpdate(m.at, t, Target(m.at[t], a), Owing(q));
  }

  lemma KeepsGuarded(m: Monitor, t: nat, a: Move)
    requires Inv(m) && Enabled(m, t, a)
    ensures Guarded(Apply(m, t, a))
  {
    var n := Apply(m, t, a);
    forall u | 0 <= u < |n.at| && n.at[u].Discounting? ensures n.waiting.Of(n.at[u].side.Other()) > 0 {
      if u != t && m.at[t].Holds() {
        OnlyHolder(m, t, u);
      }
    }
  }

  /** Every move of every thread, interruptions included, keeps the laws of the monitor. */
  lemma KeepsInv(m: Monitor, t: nat, a: Move)
    requires Inv(m) && Enabled(m, t, a)
    ensures Inv(Apply(m, t, a))
  {
    KeepsOneHolder(m, t, a);
    KeepsAccounts(m, t, a, Prod);
    KeepsAccounts(m, t, a, Cons);
    KeepsGuarded(m, t, a);
    if a.Discount? {
      assert m.waiting.Of(m.at[t].side.Other()) > 0;
    }
  }

  lemma KeepsCalm(m: Monitor, t: nat, a: Move)
    requires Calm(m) && Enabled(m, t, a) && !a.Interrupt()
    ensures Calm(Apply(m, t, a))
  {
  }

  /** With no holder and no thread able to move, every thread is outside or asleep in a
      queue without permits, and the counters count exactly the sleepers. */
  lemma AtRest(m: Monitor, q: Side)
    requires Inv(m)
    requires forall t | 0 <= t < |m.at| ::
      var pc := m.at[t];
      pc.Outside? || (pc.Queued? && m.permits.Of(pc.side) == 0)
    ensures m.mtx == 1
    ensures m.permits.Of(q) + m.waiting.Of(q) == Many(m.at, At(Queued(q)))
    ensures Many(m.at, At(Queued(q))) > 0 ==> m.permits.Of(q) == 0
  {
    FreeLock(m);
    assert Accounts(m, q);
    SameThreads(m.at, Owing(q), At(Queued(q)));
    NoneSuch(m.at, At(Queued(q)));
  }

  // ---- who answers for a waiting thread ---------------------------------------------

  /** Threads that are going to look at side q's condition, or to signal its queue. */
  function Responding(q: Side): Pc -> bool {
    (pc: Pc) => ((pc.Woken? || pc.Testing? || pc.Working?) && pc.side == q) || (pc.Waking? && pc.side != q)
  }

  /** Permits, responding threads, and wake-ups lost to an interruption. */
  function Answers(m: Monitor, q: Side): nat {
    m.permits.Of(q) + Many(m.at, Responding(q)) + m.lost.Of(q)
  }

  /** How the permits of a queue, and the wake-ups lost, change with a move. */
  function Hints(pc: Pc, mv: Move, q: Side): int
    requires !pc.Outside? || mv.Call?
  {
    match mv {
      case Wake => if pc.side == q then -1 else 0
      case Signal => if pc.side == q then 0 else 1
      case InterruptRelock => if pc.side == q then 1 else 0
      case _ => 0
    }
  }

  lemma HintBalance(m: Monitor, t: nat, mv: Move, q: Side)
    requires Enabled(m, t, mv)
    ensures var n := Apply(m, t, mv);
      n.permits.Of(q) + n.lost.Of(q) == m.permits.Of(q) + m.lost.Of(q) + Hints(m.at[t], mv, q)
  {
  }

  /** How the answers change with a move. */
  lemma AnswerBalance(m: Monitor, t: nat, mv: Move, q: Side)
    requires Enabled(m, t, mv)
    ensures Answers(Apply(m, t, mv), q) == Answers(m, q) + Hints(m.at[t], mv, q)
      + (if Responding(q)(Target(m.at[t], mv)) then 1 else 0) - (if Responding(q)(m.at[t]) then 1 else 0)
  {
    assert Apply(m, t, mv).at == m.at[t := Target(m.at[t], mv)];
    ManyUpdate(m.at, t, Target(m.at[t], mv), Responding(q));
    HintBalance(m, t, mv, q);
  }
}
